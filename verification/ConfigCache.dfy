/** The cached config sequence as a value: what a live NodeInfo upsert
    (internal/node/connection.go) does to it, one at a time and over a history. */
module ConfigCache {
  import opened Wrappers
  import opened Radio

  type Cache = seq<Frame>

  /** NodeInfoData, always a whole decoded User. */
  datatype Identity = Identity(num: U32, user: User)

  datatype Update = Update(who: Identity, now: U32)

  /** One MyInfo, then frames that are neither MyInfo nor ConfigComplete, then
      one ConfigComplete. */
  predicate WellFormed(c: Cache) {
    && |c| >= 2
    && c[0].IsMyInfo()
    && c[|c| - 1].IsComplete()
    && forall i :: 0 < i < |c| - 1 ==> !c[i].IsMyInfo() && !c[i].IsComplete()
  }

  predicate EndsComplete(c: Cache) {
    c == [] || c[|c| - 1].IsComplete()
  }

  /** At most one NodeInfo frame per node number. */
  predicate Unique(c: Cache) {
    forall i, j :: 0 <= i < j < |c| && c[i].IsNode() && c[j].IsNode() ==> c[i].body.info.num != c[j].body.info.num
  }

  /** Index of the first NodeInfo frame for `num`, or the length. */
  function Find(c: Cache, num: U32): (i: nat)
    ensures i <= |c|
    ensures i < |c| ==> c[i].IsNodeOf(num)
    ensures forall j :: 0 <= j < i ==> !c[j].IsNodeOf(num)
  {
    if c == [] || c[0].IsNodeOf(num) then 0 else 1 + Find(c[1..], num)
  }

  /** buildNodeInfoFrame */
  function Synthesize(u: Update): Frame {
    Parsed(0, NodeFrame(NodeInfo(u.who.num, Some(u.who.user), u.now, NO_EXTRAS)))
  }

  /** mergeNodeInfoUser: identity and last-heard are replaced, an absent
      is_unmessagable keeps the cached one, everything else survives. */
  function Merge(f: Frame, u: Update): Frame
    requires f.IsNode()
  {
    var known := f.body.info;
    var flag :=
      if u.who.user.isUnmessagable.Some? then u.who.user.isUnmessagable
      else if known.user.Some? then known.user.value.isUnmessagable
      else None;
    f.(body := NodeFrame(known.(user := Some(u.who.user.(isUnmessagable := flag)), lastHeard := u.now)))
  }

  /** UpsertCachedNodeInfo */
  function Upsert(c: Cache, u: Update): Cache {
    var i := Find(c, u.who.num);
    if u.who.num == 0 || c == [] then c
    else if i < |c| then c[i := Merge(c[i], u)]
    else if c[|c| - 1].IsComplete() then c[..|c| - 1] + [Synthesize(u), c[|c| - 1]]
    else c + [Synthesize(u)]
  }

  function UpsertAll(c: Cache, us: seq<Update>): Cache {
    if us == [] then c else Upsert(UpsertAll(c, us[..|us| - 1]), us[|us| - 1])
  }

  // ------------------------------------------------------------ invariants

  lemma UpsertKeepsShape(c: Cache, u: Update)
    requires WellFormed(c)
    ensures WellFormed(Upsert(c, u))
  {
  }

  lemma UpsertKeepsUnique(c: Cache, u: Update)
    requires Unique(c)
    ensures Unique(Upsert(c, u))
  {
    var d := Upsert(c, u);
    if d != c {
      forall i, j | 0 <= i < j < |d| && d[i].IsNode() && d[j].IsNode()
        ensures d[i].body.info.num != d[j].body.info.num
      {
        if Find(c, u.who.num) == |c| && |d| == |c| + 1 && c[|c| - 1].IsComplete() {
          assert forall k :: 0 <= k < |c| - 1 ==> d[k] == c[k];
        }
      }
    }
  }

  // ------------------------------------------------- what a history leaves

  /** The cached NodeInfo frame of a node, if any. */
  function Entry(c: Cache, num: U32): (f: Option<Frame>)
    ensures f.Some? ==> f.value.IsNodeOf(num)
  {
    var i := Find(c, num);
    if i < |c| then Some(c[i]) else None
  }

  /** The cache without the NodeInfo frames of the given nodes, in order. */
  function Others(c: Cache, nums: set<U32>): Cache {
    if c == [] then []
    else if c[0].IsNode() && c[0].body.info.num in nums then Others(c[1..], nums)
    else [c[0]] + Others(c[1..], nums)
  }

  function LastFor(us: seq<Update>, num: U32): (u: Option<Update>)
    ensures u.Some? ==> u.value.who.num == num && u.value in us
    ensures u.None? ==> forall v :: v in us ==> v.who.num != num
  {
    if us == [] then None
    else if us[|us| - 1].who.num == num then Some(us[|us| - 1])
    else LastFor(us[..|us| - 1], num)
  }

  /** The last is_unmessagable a history states for a node, else `before`. */
  function LastFlag(us: seq<Update>, num: U32, before: Option<bool>): Option<bool> {
    if us == [] then before
    else
      var u := us[|us| - 1];
      if u.who.num == num && u.who.user.isUnmessagable.Some? then u.who.user.isUnmessagable
      else LastFlag(us[..|us| - 1], num, before)
  }

  function FlagOf(f: Option<Frame>): Option<bool>
    requires f.Some? ==> f.value.IsNode()
  {
    if f.Some? && f.value.body.info.user.Some? then f.value.body.info.user.value.isUnmessagable else None
  }

  function ExtrasOf(f: Option<Frame>): NodeExtras
    requires f.Some? ==> f.value.IsNode()
  {
    if f.Some? then f.value.body.info.extras else NO_EXTRAS
  }

  lemma FindUnique(c: Cache, num: U32, i: nat)
    requires i <= |c| && (i < |c| ==> c[i].IsNodeOf(num))
    requires forall j :: 0 <= j < i ==> !c[j].IsNodeOf(num)
    ensures Find(c, num) == i
  {
  }

  lemma EntryAfterUpsert(c: Cache, u: Update, num: U32)
    requires c != [] && u.who.num != 0
    ensures Upsert(c, u) != []
    ensures Entry(Upsert(c, u), num) ==
            if num != u.who.num then Entry(c, num)
            else if Entry(c, num).Some? then Some(Merge(Entry(c, num).value, u))
            else Some(Synthesize(u))
  {
    var d, i, k := Upsert(c, u), Find(c, u.who.num), Find(c, num);
    if i < |c| {
      FindUnique(d, num, k);
    } else if c[|c| - 1].IsComplete() {
      assert forall j :: 0 <= j < |c| - 1 ==> d[j] == c[j];
      FindUnique(d, num, if num == u.who.num then |c| - 1 else if k < |c| then k else |c| + 1);
    } else {
      FindUnique(d, num, if num == u.who.num then |c| else if k < |c| then k else |c| + 1);
    }
  }

  /** The upserts `us` turn a node's entry into `after`: it has the identity and time
      of its last upsert, the last stated is_unmessagable, and the position, metrics
      and SNR it had before; a node without upserts keeps its frame. */
  predicate Leaves(before: Option<Frame>, us: seq<Update>, num: U32, after: Option<Frame>)
    requires (before.Some? ==> before.value.IsNode()) && (after.Some? ==> after.value.IsNode())
  {
    var last := LastFor(us, num);
    if last.None? then after == before
    else
      && after.Some?
      && after.value.body.info.lastHeard == last.value.now
      && after.value.body.info.user ==
         Some(last.value.who.user.(isUnmessagable := LastFlag(us, num, FlagOf(before))))
      && after.value.body.info.extras == ExtrasOf(before)
      && after.value.seqId == if before.Some? then before.value.seqId else 0
  }

  /** Whatever the history of upserts, every node's entry is what they leave of the
      one it had when the cache was published. */
  lemma {:induction false} UpsertHistory(c: Cache, us: seq<Update>, num: U32)
    requires c != [] && num != 0
    ensures UpsertAll(c, us) != []
    ensures Leaves(Entry(c, num), us, num, Entry(UpsertAll(c, us), num))
    decreases us
  {
    if us != [] {
      var init, u := us[..|us| - 1], us[|us| - 1];
      UpsertHistory(c, init, num);
      if u.who.num != 0 {
        EntryAfterUpsert(UpsertAll(c, init), u, num);
      }
      NoFlagWithoutUpdate(init, num, FlagOf(Entry(c, num)));
    }
  }

  lemma {:induction false} NoFlagWithoutUpdate(us: seq<Update>, num: U32, before: Option<bool>)
    ensures LastFor(us, num).None? ==> LastFlag(us, num, before) == before
    decreases us
  {
    if us != [] {
      NoFlagWithoutUpdate(us[..|us| - 1], num, before);
    }
  }

  lemma {:induction false} OthersConcat(a: Cache, b: Cache, nums: set<U32>)
    ensures Others(a + b, nums) == Others(a, nums) + Others(b, nums)
  {
    if a == [] {
      assert a + b == b;
    } else {
      assert (a + b)[1..] == a[1..] + b;
      OthersConcat(a[1..], b, nums);
    }
  }

  lemma OthersAfterUpsert(c: Cache, u: Update, nums: set<U32>)
    requires u.who.num in nums
    ensures Others(Upsert(c, u), nums) == Others(c, nums)
  {
    var i := Find(c, u.who.num);
    if u.who.num == 0 || c == [] {
    } else if i < |c| {
      var g := Merge(c[i], u);
      Middle(c[..i], c[i], c[i + 1..], nums);
      Middle(c[..i], g, c[i + 1..], nums);
      assert c == c[..i] + [c[i]] + c[i + 1..];
      assert c[i := g] == c[..i] + [g] + c[i + 1..];
    } else if c[|c| - 1].IsComplete() {
      var body, last := c[..|c| - 1], c[|c| - 1];
      Middle(body, Synthesize(u), [last], nums);
      OthersConcat(body, [last], nums);
      assert c == body + [last];
      assert body + [Synthesize(u), last] == body + [Synthesize(u)] + [last];
    } else {
      Middle(c, Synthesize(u), [], nums);
      assert c + [Synthesize(u)] == c + [Synthesize(u)] + [];
    }
  }

  /** A NodeInfo frame of one of `nums` contributes nothing. */
  lemma Middle(a: Cache, f: Frame, b: Cache, nums: set<U32>)
    requires f.IsNode() && f.body.info.num in nums
    ensures Others(a + [f] + b, nums) == Others(a, nums) + Others(b, nums)
  {
    OthersConcat(a + [f], b, nums);
    OthersConcat(a, [f], nums);
  }

  // ------------------------------------------------- where new nodes go

  /** A frame as the order of a cache sees it: a node by its number. */
  datatype Key = Node(num: U32) | Plain(frame: Frame)

  function KeyOf(f: Frame): Key {
    if f.IsNode() then Node(f.body.info.num) else Plain(f)
  }

  function Keys(c: Cache): (ks: seq<Key>)
    ensures |ks| == |c|
  {
    if c == [] then [] else Keys(c[..|c| - 1]) + [KeyOf(c[|c| - 1])]
  }

  /** A cache without its closing ConfigComplete, if it has one. */
  function Front(c: Cache): Cache {
    if c != [] && c[|c| - 1].IsComplete() then c[..|c| - 1] else c
  }

  function Closing(c: Cache): Cache {
    if c != [] && c[|c| - 1].IsComplete() then [c[|c| - 1]] else []
  }

  /** The nodes the upserts add to the cache, in the order they first occur. */
  function NewNodes(c: Cache, us: seq<Update>): seq<Key> {
    if us == [] then []
    else
      var known, k := NewNodes(c, us[..|us| - 1]), Node(us[|us| - 1].who.num);
      if k.num == 0 || k in Keys(Front(c)) || k in known then known else known + [k]
  }

  lemma {:induction false} KeysAt(c: Cache)
    ensures forall i :: 0 <= i < |c| ==> Keys(c)[i] == KeyOf(c[i])
  {
    if c != [] {
      KeysAt(c[..|c| - 1]);
    }
  }

  lemma FindByKey(c: Cache, num: U32)
    ensures Find(c, num) < |c| <==> Node(num) in Keys(Front(c))
  {
    KeysAt(Front(c));
    if Node(num) in Keys(Front(c)) {
      var i :| 0 <= i < |Front(c)| && Keys(Front(c))[i] == Node(num);
      assert c[i].IsNodeOf(num);
    }
    if Find(c, num) < |c| {
      assert Front(c)[Find(c, num)] == c[Find(c, num)];
      assert Keys(Front(c))[Find(c, num)] == Node(num);
    }
  }

  lemma SameKeys(a: Cache, b: Cache)
    requires |a| == |b| && forall i :: 0 <= i < |a| ==> KeyOf(a[i]) == KeyOf(b[i])
    ensures Keys(a) == Keys(b)
  {
    KeysAt(a);
    KeysAt(b);
    assert forall i :: 0 <= i < |a| ==> Keys(a)[i] == Keys(b)[i];
  }

  lemma KeysSnoc(c: Cache, f: Frame)
    ensures Keys(c + [f]) == Keys(c) + [KeyOf(f)]
  {
    assert (c + [f])[..|c|] == c;
  }

  /** How one upsert changes the order: not at all, or by one new node at the end,
      right before the closing ConfigComplete. */
  lemma UpsertPlace(c: Cache, u: Update)
    requires c != []
    ensures var d, k := Upsert(c, u), Node(u.who.num);
            && d != [] && Closing(d) == Closing(c)
            && Keys(Front(d)) == Keys(Front(c)) + if u.who.num == 0 || k in Keys(Front(c)) then [] else [k]
  {
    hide Keys;
    var d, i := Upsert(c, u), Find(c, u.who.num);
    FindByKey(c, u.who.num);
    if u.who.num != 0 && i < |c| {
      SameKeys(Front(d), Front(c));
    } else if u.who.num != 0 {
      assert Front(d) == Front(c) + [Synthesize(u)];
      KeysSnoc(Front(c), Synthesize(u));
    }
  }

  /** After any history the published frames stand where they stood and the nodes it
      added follow in the order they were first heard, with the ConfigComplete still
      last. */
  lemma {:induction false} HistoryOrder(c: Cache, us: seq<Update>)
    requires c != []
    ensures var d := UpsertAll(c, us);
            d != [] && Keys(Front(d)) == Keys(Front(c)) + NewNodes(c, us) && Closing(d) == Closing(c)
    decreases us
  {
    hide Keys, Upsert, Front, Closing;
    if us != [] {
      var init, u := us[..|us| - 1], us[|us| - 1];
      HistoryOrder(c, init);
      UpsertPlace(UpsertAll(c, init), u);
      Regroup(Keys(Front(c)), NewNodes(c, init), [Node(u.who.num)]);
    }
  }

  /** Every other frame keeps its content and its place in the order, and
      uniqueness of node numbers survives the whole history. */
  lemma {:induction false} HistoryFrame(c: Cache, us: seq<Update>, nums: set<U32>)
    requires forall u :: u in us ==> u.who.num in nums
    ensures Others(UpsertAll(c, us), nums) == Others(c, nums)
    ensures Unique(c) ==> Unique(UpsertAll(c, us))
    decreases us
  {
    if us != [] {
      var init, u := us[..|us| - 1], us[|us| - 1];
      HistoryFrame(c, init, nums);
      OthersAfterUpsert(UpsertAll(c, init), u, nums);
      if Unique(c) {
        UpsertKeepsUnique(UpsertAll(c, init), u);
      }
    }
  }
}
