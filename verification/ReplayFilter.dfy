/** filterConfigCache and the config part of replayCachedConfig
    (internal/proxy/config_replay.go): what each nonce selects from the cache and
    how the selections relate to the cache, to each other and to live upserts. */
module ReplayFilter {
  import opened Wrappers
  import opened Radio
  import opened ConfigCache

  predicate Special(nonce: U32) {
    nonce == NONCE_ONLY_CONFIG || nonce == NONCE_ONLY_NODES
  }

  /** my_node_num of the first MyInfo frame, 0 without one. */
  function OwnNum(c: Cache): U32 {
    if c == [] then 0 else if c[0].IsMyInfo() then c[0].body.myNodeNum else OwnNum(c[1..])
  }

  /** Whether a partial replay keeps a frame. */
  predicate Keeps(f: Frame, nonce: U32, own: U32) {
    if f.Unparseable? || f.IsComplete() then true
    else if f.IsNode() then nonce != NONCE_ONLY_CONFIG || f.body.info.num == own
    else nonce == NONCE_ONLY_CONFIG
  }

  function Select(c: Cache, nonce: U32, own: U32): Cache {
    if c == [] then []
    else if Keeps(c[0], nonce, own) then [c[0]] + Select(c[1..], nonce, own)
    else Select(c[1..], nonce, own)
  }

  function Filter(c: Cache, nonce: U32): Cache {
    if Special(nonce) then Select(c, nonce, OwnNum(c)) else c
  }

  /** The nonce patch: only ConfigComplete changes, and keeps its envelope. */
  function Patch(f: Frame, nonce: U32): Frame {
    if f.IsComplete() then f.(body := ConfigComplete(nonce)) else f
  }

  function PatchAll(c: Cache, nonce: U32): Cache {
    if c == [] then [] else [Patch(c[0], nonce)] + PatchAll(c[1..], nonce)
  }

  /** The config frames one uninterrupted replay sends. */
  function Plan(c: Cache, nonce: U32): Cache {
    PatchAll(Filter(c, nonce), nonce)
  }

  // --------------------------------------------------------------- the loop

  function Count(c: Cache, name: string): nat {
    if c == [] then 0 else Count(c[..|c| - 1], name) + if c[|c| - 1].TypeName() == name then 1 else 0
  }

  function Bump(counts: map<string, nat>, name: string): map<string, nat> {
    counts[name := if name in counts then counts[name] + 1 else 1]
  }

  ghost function Total(counts: map<string, nat>): nat
    decreases |counts|
  {
    if counts == map[] then 0
    else
      var k :| k in counts;
      counts[k] + Total(counts - {k})
  }

  lemma {:induction false} TotalWithout(counts: map<string, nat>, k: string)
    requires k in counts
    ensures Total(counts) == counts[k] + Total(counts - {k})
    decreases |counts|
  {
    var j :| j in counts && Total(counts) == counts[j] + Total(counts - {j});
    if j != k {
      TotalWithout(counts - {j}, k);
      TotalWithout(counts - {k}, j);
      assert counts - {j} - {k} == counts - {k} - {j};
    }
  }

  lemma TotalAfterBump(counts: map<string, nat>, name: string)
    ensures Total(Bump(counts, name)) == Total(counts) + 1
  {
    var next := Bump(counts, name);
    TotalWithout(next, name);
    if name in counts {
      TotalWithout(counts, name);
      assert next - {name} == counts - {name};
    } else {
      assert next - {name} == counts;
    }
  }

  datatype Stats = Stats(myNodeNum: U32, ownNodeFound: bool, frameCounts: map<string, nat>)

  ghost predicate Tallies(counts: map<string, nat>, c: Cache) {
    forall name :: Count(c, name) == if name in counts then counts[name] else 0
  }

  /** One more frame through the partial replay's loop. */
  lemma LoopStep(c: Cache, f: Frame, nonce: U32, own: U32, counts: map<string, nat>)
    requires Tallies(counts, Select(c, nonce, own)) && Total(counts) == |Select(c, nonce, own)|
    ensures var s := Select(c + [f], nonce, own);
            if Keeps(f, nonce, own) then
              && s == Select(c, nonce, own) + [f]
              && Tallies(Bump(counts, f.TypeName()), s)
              && Total(Bump(counts, f.TypeName())) == |s|
            else s == Select(c, nonce, own)
    ensures HasNode(c + [f], own) <==> HasNode(c, own) || f.IsNodeOf(own)
  {
    hide Select, Total, Count, Tallies, HasNode, Bump;
    SelectSnoc(c, f, nonce, own);
    TallyOneMore(counts, Select(c, nonce, own), f);
    HasNodeSnoc(c, f, own);
  }

  lemma HasNodeSnoc(c: Cache, f: Frame, num: U32)
    ensures HasNode(c + [f], num) <==> HasNode(c, num) || f.IsNodeOf(num)
  {
    assert (c + [f])[|c|] == f;
    assert forall i :: 0 <= i < |c| ==> (c + [f])[i] == c[i];
  }

  lemma TallyOneMore(counts: map<string, nat>, c: Cache, f: Frame)
    requires Tallies(counts, c) && Total(counts) == |c|
    ensures Tallies(Bump(counts, f.TypeName()), c + [f])
    ensures Total(Bump(counts, f.TypeName())) == |c + [f]|
  {
    assert (c + [f])[..|c|] == c;
    TotalAfterBump(counts, f.TypeName());
  }

  lemma {:induction false} SelectSnoc(c: Cache, f: Frame, nonce: U32, own: U32)
    ensures Select(c + [f], nonce, own) == Select(c, nonce, own) + if Keeps(f, nonce, own) then [f] else []
  {
    if c != [] {
      assert (c + [f])[1..] == c[1..] + [f];
      SelectSnoc(c[1..], f, nonce, own);
    }
  }

  lemma EmptyTally()
    ensures Tallies(map[], []) && Total(map[]) == 0
  {
  }

  /** CountCacheFrameTypes: the diagnostics of a full replay. */
  method CountFrameTypes(frames: Cache) returns (counts: map<string, nat>)
    ensures Tallies(counts, frames)
    ensures Total(counts) == |frames|
  {
    hide Total, Count, Bump;
    counts := map[];
    EmptyTally();
    for i := 0 to |frames|
      invariant Tallies(counts, frames[..i]) && Total(counts) == i
    {
      ghost var seen := frames[..i];
      assert frames[..i + 1] == seen + [frames[i]];
      TallyOneMore(counts, seen, frames[i]);
      counts := Bump(counts, frames[i].TypeName());
    }
    assert frames[..|frames|] == frames;
  }

  /** filterConfigCache: the frames are the nonce's selection, in the cache's order,
      and the statistics are about exactly those frames. The config-only phase leaves
      out the other nodes, the nodes-only phase leaves out everything but nodes,
      ConfigComplete and what does not parse, and any other nonce nothing. */
  method FilterConfigCache(frames: Cache, nonce: U32) returns (result: Cache, stats: Stats)
    ensures result == Filter(frames, nonce) && Subsequence(result, frames)
    ensures nonce == 69420 ==> ConfigPhase(frames, stats.myNodeNum, result)
    ensures nonce == 69421 ==> NodesPhase(frames, result)
    ensures nonce != 69420 && nonce != 69421 ==> result == frames && stats.myNodeNum == 0
    ensures nonce == 69420 || nonce == 69421 ==> IsOwnNum(frames, stats.myNodeNum)
    ensures Tallies(stats.frameCounts, result)
    ensures Total(stats.frameCounts) == |result|
    ensures stats.myNodeNum == if Special(nonce) then OwnNum(frames) else 0
    ensures stats.ownNodeFound <==> nonce == NONCE_ONLY_CONFIG && HasNode(frames, OwnNum(frames))
  {
    if nonce != NONCE_ONLY_CONFIG && nonce != NONCE_ONLY_NODES {
      var all := CountFrameTypes(frames);
      WholeIsSubsequence(frames);
      return frames, Stats(0, false, all);
    }
    var own := FindOwn(frames);
    var counts: map<string, nat>, found := map[], false;
    result := [];
    for i := 0 to |frames|
      invariant result == Select(frames[..i], nonce, own)
      invariant Tallies(counts, result) && Total(counts) == |result|
      invariant found <==> nonce == NONCE_ONLY_CONFIG && HasNode(frames[..i], own)
    {
      var f := frames[i];
      assert frames[..i + 1] == frames[..i] + [f];
      LoopStep(frames[..i], f, nonce, own, counts);
      var keep, isOwn := KeepFrame(f, nonce, own);
      found := found || isOwn;
      if keep {
        result := result + [f];
        counts := Bump(counts, f.TypeName());
      }
    }
    assert frames[..|frames|] == frames;
    stats := Stats(own, found, counts);
    PhaseSelections(frames);
    SelectIsSubsequence(frames, nonce, own);
  }

  /** The number of the first MyInfo frame, or 0 if there is none. */
  ghost predicate IsOwnNum(c: Cache, own: U32) {
    if exists i :: 0 <= i < |c| && c[i].Parsed? && c[i].body.MyInfo? then
      exists i :: 0 <= i < |c| && c[i].Parsed? && c[i].body.MyInfo? && c[i].body.myNodeNum == own &&
                  forall j :: 0 <= j < i ==> !(c[j].Parsed? && c[j].body.MyInfo?)
    else own == 0
  }

  lemma {:induction false} OwnNumIsFirst(c: Cache)
    ensures IsOwnNum(c, OwnNum(c))
  {
    if c != [] && !c[0].IsMyInfo() {
      OwnNumIsFirst(c[1..]);
      if exists i :: 0 <= i < |c| && c[i].Parsed? && c[i].body.MyInfo? {
        var i :| 0 <= i < |c| && c[i].Parsed? && c[i].body.MyInfo?;
        assert c[1..][i - 1] == c[i];
        var k :| 0 <= k < |c[1..]| && c[1..][k].IsMyInfo() && c[1..][k].body.myNodeNum == OwnNum(c[1..]) &&
                 forall j :: 0 <= j < k ==> !c[1..][j].IsMyInfo();
        assert c[k + 1] == c[1..][k];
        assert forall j :: 0 < j < k + 1 ==> c[j] == c[1..][j - 1];
      }
    }
  }

  lemma {:induction false} Multiplicity(c: Cache, nonce: U32, own: U32, f: Frame)
    ensures multiset(Select(c, nonce, own))[f] == if Keeps(f, nonce, own) then multiset(c)[f] else 0
  {
    if c != [] {
      Multiplicity(c[1..], nonce, own, f);
      SelectHead(c, nonce, own);
      assert c == [c[0]] + c[1..];
    }
  }

  /** What each iOS phase selects, frame by frame. */
  lemma PhaseSelections(c: Cache)
    ensures IsOwnNum(c, OwnNum(c))
    ensures ConfigPhase(c, OwnNum(c), Filter(c, 69420)) && NodesPhase(c, Filter(c, 69421))
  {
    hide Select, OwnNum;
    OwnNumIsFirst(c);
    forall f: Frame
      ensures multiset(Filter(c, 69420))[f] == if OtherNode(f, OwnNum(c)) then 0 else multiset(c)[f]
      ensures multiset(Filter(c, 69421))[f] == if NodesPhaseFrame(f) then multiset(c)[f] else 0
    {
      Multiplicity(c, 69420, OwnNum(c), f);
      Multiplicity(c, 69421, OwnNum(c), f);
    }
  }

  predicate OtherNode(f: Frame, own: U32) {
    f.Parsed? && f.body.NodeFrame? && f.body.info.num != own
  }

  predicate NodesPhaseFrame(f: Frame) {
    f.Unparseable? || f.body.NodeFrame? || f.body.ConfigComplete?
  }

  /** Every frame but other nodes', as often as in the cache. */
  ghost predicate ConfigPhase(c: Cache, own: U32, s: Cache) {
    forall f :: multiset(s)[f] == if OtherNode(f, own) then 0 else multiset(c)[f]
  }

  /** Every node, ConfigComplete and unparseable frame, as often as in the cache. */
  ghost predicate NodesPhase(c: Cache, s: Cache) {
    forall f :: multiset(s)[f] == if NodesPhaseFrame(f) then multiset(c)[f] else 0
  }

  /** What a replay sends of its selection: the nonce patch replaces the nonce of a
      ConfigComplete, in its own envelope, and touches no other frame. */
  lemma PatchedSelection(c: Cache, nonce: U32)
    ensures var s, p := Filter(c, nonce), Plan(c, nonce);
            && |p| == |s|
            && (nonce != 69420 && nonce != 69421 ==> s == c)
            && forall i :: 0 <= i < |s| ==>
                 p[i] == if s[i].Parsed? && s[i].body.ConfigComplete? then Parsed(s[i].seqId, ConfigComplete(nonce))
                         else s[i]
  {
    PatchAllIsPointwise(Filter(c, nonce), nonce);
  }

  lemma {:induction false} WholeIsSubsequence(c: Cache)
    ensures Subsequence(c, c)
  {
    if c != [] {
      WholeIsSubsequence(c[1..]);
    }
  }

  predicate HasNode(c: Cache, num: U32) {
    exists i :: 0 <= i < |c| && c[i].IsNodeOf(num)
  }

  /** The type switch of the partial replay. */
  method KeepFrame(f: Frame, nonce: U32, own: U32) returns (keep: bool, isOwn: bool)
    requires Special(nonce)
    ensures keep == Keeps(f, nonce, own)
    ensures nonce == 69420 ==> (keep <==> !OtherNode(f, own))
    ensures nonce == 69421 ==> (keep <==> NodesPhaseFrame(f))
    ensures isOwn <==> nonce == NONCE_ONLY_CONFIG && f.IsNodeOf(own)
  {
    if f.Unparseable? {
      return true, false;
    }
    match f.body
    case ConfigComplete(_) =>
      return true, false;
    case NodeFrame(info) =>
      if nonce == NONCE_ONLY_CONFIG {
        return info.num == own, info.num == own;
      }
      return true, false;
    case _ =>
      return nonce == NONCE_ONLY_CONFIG, false;
  }

  method FindOwn(frames: Cache) returns (own: U32)
    ensures own == OwnNum(frames)
  {
    var i := 0;
    while i < |frames|
      invariant i <= |frames|
      invariant OwnNum(frames) == OwnNum(frames[i..])
    {
      if frames[i].IsMyInfo() {
        return frames[i].body.myNodeNum;
      }
      i := i + 1;
    }
    return 0;
  }

  // ------------------------------------------------- one replay by itself

  lemma {:induction false} SelectConcat(a: Cache, b: Cache, nonce: U32, own: U32)
    ensures Select(a + b, nonce, own) == Select(a, nonce, own) + Select(b, nonce, own)
  {
    if a == [] {
      assert a + b == b;
    } else {
      assert (a + b)[1..] == a[1..] + b;
      SelectConcat(a[1..], b, nonce, own);
    }
  }

  lemma {:induction false} SelectOnlyFrom(c: Cache, nonce: U32, own: U32)
    ensures forall f :: f in Select(c, nonce, own) ==> f in c && Keeps(f, nonce, own)
  {
    if c != [] {
      SelectOnlyFrom(c[1..], nonce, own);
    }
  }

  lemma {:induction false} PatchAllIsPointwise(c: Cache, nonce: U32)
    ensures |PatchAll(c, nonce)| == |c|
    ensures forall i :: 0 <= i < |c| ==> PatchAll(c, nonce)[i] == Patch(c[i], nonce)
  {
    if c != [] {
      PatchAllIsPointwise(c[1..], nonce);
    }
  }

  lemma FilterKeepsLast(c: Cache, nonce: U32)
    requires c != [] && c[|c| - 1].IsComplete()
    ensures var s := Filter(c, nonce);
            s != [] && s[|s| - 1] == c[|c| - 1] && forall i :: 0 <= i < |s| - 1 ==> s[i] in c[..|c| - 1]
  {
    var body, last := c[..|c| - 1], c[|c| - 1];
    assert c == body + [last];
    if Special(nonce) {
      SelectSnoc(body, last, nonce, OwnNum(c));
      SelectOnlyFrom(body, nonce, OwnNum(c));
      var s := Filter(c, nonce);
      assert forall i :: 0 <= i < |s| - 1 ==> s[i] in Select(body, nonce, OwnNum(c));
    }
  }

  /** Every uninterrupted replay of a published cache, in any mode, ends with its
      only ConfigComplete, and that carries the client's own nonce. */
  lemma ReplayEndsOnce(c: Cache, nonce: U32)
    requires WellFormed(c)
    ensures var p := Plan(c, nonce);
            && p != []
            && p[|p| - 1].IsComplete() && p[|p| - 1].body.nonce == nonce
            && forall i :: 0 <= i < |p| - 1 ==> !p[i].IsComplete()
  {
    FilterKeepsLast(c, nonce);
    var s, p := Filter(c, nonce), Plan(c, nonce);
    PatchAllIsPointwise(s, nonce);
    forall i | 0 <= i < |p| - 1 ensures !p[i].IsComplete() {
      var j :| 0 <= j < |c| - 1 && c[j] == s[i];
    }
  }

  // ------------------------------------------------- the two iOS phases

  lemma {:induction false} SelectIsSubsequence(c: Cache, nonce: U32, own: U32)
    ensures Subsequence(Select(c, nonce, own), c)
  {
    if c != [] {
      SelectIsSubsequence(c[1..], nonce, own);
      if !Keeps(c[0], nonce, own) {
        SubsequenceSkip(Select(c[1..], nonce, own), c[1..], c[0]);
        assert [c[0]] + c[1..] == c;
      }
    }
  }

  /** The frames both phases send. */
  function Shared(c: Cache, own: U32): Cache {
    if c == [] then []
    else if c[0].Unparseable? || c[0].IsComplete() || c[0].IsNodeOf(own) then [c[0]] + Shared(c[1..], own)
    else Shared(c[1..], own)
  }

  function If<T>(b: bool, x: T): multiset<T> {
    if b then multiset{x} else multiset{}
  }

  lemma AddOne<T>(x: T, a: multiset<T>, b: multiset<T>, c: multiset<T>, d: multiset<T>, inA: bool, inB: bool, inD: bool)
    requires a + b == c + d
    requires inA || inB
    requires inD <==> inA && inB
    ensures (If(inA, x) + a) + (If(inB, x) + b) == (multiset{x} + c) + (If(inD, x) + d)
  {
    assert If(inA, x) + If(inB, x) == multiset{x} + If(inD, x);
    assert (If(inA, x) + a) + (If(inB, x) + b) == (If(inA, x) + If(inB, x)) + (a + b);
    assert (multiset{x} + c) + (If(inD, x) + d) == (multiset{x} + If(inD, x)) + (c + d);
  }

  lemma SelectHead(c: Cache, nonce: U32, own: U32)
    requires c != []
    ensures multiset(Select(c, nonce, own)) == If(Keeps(c[0], nonce, own), c[0]) + multiset(Select(c[1..], nonce, own))
  {
  }

  lemma {:induction false} SelectionsAddUp(c: Cache, own: U32)
    ensures multiset(Select(c, NONCE_ONLY_CONFIG, own)) + multiset(Select(c, NONCE_ONLY_NODES, own))
            == multiset(c) + multiset(Shared(c, own))
  {
    if c != [] {
      var t := c[1..];
      SelectionsAddUp(t, own);
      SelectHead(c, NONCE_ONLY_CONFIG, own);
      SelectHead(c, NONCE_ONLY_NODES, own);
      var both := c[0].Unparseable? || c[0].IsComplete() || c[0].IsNodeOf(own);
      assert multiset(Shared(c, own)) == If(both, c[0]) + multiset(Shared(t, own));
      assert multiset(c) == multiset{c[0]} + multiset(t) by {
        assert c == [c[0]] + t;
      }
      AddOne(c[0], multiset(Select(t, NONCE_ONLY_CONFIG, own)), multiset(Select(t, NONCE_ONLY_NODES, own)),
             multiset(t), multiset(Shared(t, own)),
             Keeps(c[0], NONCE_ONLY_CONFIG, own), Keeps(c[0], NONCE_ONLY_NODES, own), both);
    }
  }

  /** The config-only and nodes-only replays together deliver the whole cache in
      order, repeating exactly the unparseable, ConfigComplete and own-node frames. */
  lemma PhasesLoseNothing(c: Cache)
    ensures var a, b, both := Filter(c, NONCE_ONLY_CONFIG), Filter(c, NONCE_ONLY_NODES), Shared(c, OwnNum(c));
            && Subsequence(a, c) && Subsequence(b, c)
            && multiset(a) + multiset(b) == multiset(c) + multiset(both)
            && |a| + |b| == |c| + |both|
  {
    var own := OwnNum(c);
    SelectIsSubsequence(c, NONCE_ONLY_CONFIG, own);
    SelectIsSubsequence(c, NONCE_ONLY_NODES, own);
    SelectionsAddUp(c, own);
    var a, b, both := Select(c, NONCE_ONLY_CONFIG, own), Select(c, NONCE_ONLY_NODES, own), Shared(c, own);
    assert |multiset(a) + multiset(b)| == |a| + |b|;
    assert |multiset(c) + multiset(both)| == |c| + |both|;
  }

  lemma {:induction false} SelectTwice(c: Cache, nonce: U32, own: U32)
    ensures Select(Select(c, nonce, own), nonce, own) == Select(c, nonce, own)
  {
    if c != [] {
      SelectTwice(c[1..], nonce, own);
      if Keeps(c[0], nonce, own) {
        assert Select(c, nonce, own)[1..] == Select(c[1..], nonce, own);
      }
    }
  }

  /** Config-only keeps every MyInfo, so it keeps the node's own number. */
  lemma {:induction false} OwnNumSurvives(c: Cache, own: U32)
    ensures OwnNum(Select(c, NONCE_ONLY_CONFIG, own)) == OwnNum(c)
  {
    if c != [] {
      OwnNumSurvives(c[1..], own);
      if Keeps(c[0], NONCE_ONLY_CONFIG, own) {
        assert Select(c, NONCE_ONLY_CONFIG, own)[1..] == Select(c[1..], NONCE_ONLY_CONFIG, own);
      }
    }
  }

  lemma {:induction false} NodesIgnoreOwn(c: Cache, a: U32, b: U32)
    ensures Select(c, NONCE_ONLY_NODES, a) == Select(c, NONCE_ONLY_NODES, b)
  {
    if c != [] {
      NodesIgnoreOwn(c[1..], a, b);
    }
  }

  lemma FilterIdempotent(c: Cache, nonce: U32)
    ensures Filter(Filter(c, nonce), nonce) == Filter(c, nonce)
  {
    if Special(nonce) {
      SelectTwice(c, nonce, OwnNum(c));
      OwnNumSurvives(c, OwnNum(c));
      NodesIgnoreOwn(Filter(c, nonce), OwnNum(c), OwnNum(Filter(c, nonce)));
    }
  }

  // ------------------------------------------------- filtering and upserts

  lemma {:induction false} OwnNumConcat(a: Cache, b: Cache, d: Cache)
    requires forall f :: f in b || f in d ==> !f.IsMyInfo()
    ensures OwnNum(a + b) == OwnNum(a + d)
  {
    if a == [] {
      assert a + b == b && a + d == d;
      NoMyInfo(b);
      NoMyInfo(d);
    } else {
      assert (a + b)[1..] == a[1..] + b && (a + d)[1..] == a[1..] + d;
      OwnNumConcat(a[1..], b, d);
    }
  }

  lemma {:induction false} NoMyInfo(c: Cache)
    requires forall f :: f in c ==> !f.IsMyInfo()
    ensures OwnNum(c) == 0
  {
    if c != [] {
      NoMyInfo(c[1..]);
    }
  }

  lemma {:induction false} OwnNumReplace(a: Cache, f: Frame, g: Frame, b: Cache)
    requires f.IsNode() && g.IsNode()
    ensures OwnNum(a + [f] + b) == OwnNum(a + [g] + b)
  {
    if a == [] {
      assert (a + [f] + b)[1..] == b && (a + [g] + b)[1..] == b;
    } else {
      assert (a + [f] + b)[1..] == a[1..] + [f] + b && (a + [g] + b)[1..] == a[1..] + [g] + b;
      OwnNumReplace(a[1..], f, g, b);
    }
  }

  /** The two shapes an upsert can take, as splits of the cache. */
  lemma UpsertMerges(c: Cache, u: Update, i: nat)
    requires u.who.num != 0 && i == Find(c, u.who.num) < |c|
    ensures c == c[..i] + [c[i]] + c[i + 1..]
    ensures Upsert(c, u) == c[..i] + [Merge(c[i], u)] + c[i + 1..]
  {
    Replace(c, i, Merge(c[i], u));
  }

  lemma UpsertInserts(c: Cache, u: Update)
    requires c != [] && c[|c| - 1].IsComplete() && u.who.num != 0 && Find(c, u.who.num) == |c|
    ensures c == c[..|c| - 1] + [c[|c| - 1]]
    ensures Upsert(c, u) == c[..|c| - 1] + [Synthesize(u), c[|c| - 1]]
  {
  }

  lemma Replace<T>(s: seq<T>, i: nat, x: T)
    requires i < |s|
    ensures s[i := x] == s[..i] + [x] + s[i + 1..] && s == s[..i] + [s[i]] + s[i + 1..]
  {
  }

  lemma UpsertKeepsOwnNum(c: Cache, u: Update)
    requires EndsComplete(c)
    ensures OwnNum(Upsert(c, u)) == OwnNum(c)
  {
    if c != [] && u.who.num != 0 {
      var i := Find(c, u.who.num);
      if i < |c| {
        UpsertMerges(c, u, i);
        OwnNumReplace(c[..i], c[i], Merge(c[i], u), c[i + 1..]);
      } else {
        UpsertInserts(c, u);
        OwnNumConcat(c[..|c| - 1], [c[|c| - 1]], [Synthesize(u), c[|c| - 1]]);
      }
    }
  }

  lemma SelectAround(a: Cache, f: Frame, b: Cache, nonce: U32, own: U32)
    ensures Select(a + [f] + b, nonce, own) ==
            Select(a, nonce, own) + (if Keeps(f, nonce, own) then [f] else []) + Select(b, nonce, own)
  {
    SelectConcat(a + [f], b, nonce, own);
    SelectSnoc(a, f, nonce, own);
  }

  lemma SelectEnd(a: Cache, f: Frame, last: Frame, nonce: U32, own: U32)
    requires last.IsComplete()
    ensures Select(a + [f, last], nonce, own) ==
            Select(a, nonce, own) + (if Keeps(f, nonce, own) then [f, last] else [last])
  {
    assert a + [f, last] == a + [f] + [last];
    SelectSnoc(a + [f], last, nonce, own);
    SelectSnoc(a, f, nonce, own);
  }

  lemma NoNodeInSelection(a: Cache, nonce: U32, own: U32, num: U32)
    requires forall j :: 0 <= j < |a| ==> !a[j].IsNodeOf(num)
    ensures var s := Select(a, nonce, own); forall j :: 0 <= j < |s| ==> !s[j].IsNodeOf(num)
  {
    SelectOnlyFrom(a, nonce, own);
    var s := Select(a, nonce, own);
    forall j | 0 <= j < |s| ensures !s[j].IsNodeOf(num) {
      assert s[j] in s;
    }
  }

  lemma UpsertAt(s: Cache, a: Cache, f: Frame, b: Cache, u: Update)
    requires s == a + [f] + b && u.who.num != 0 && f.IsNodeOf(u.who.num)
    requires forall j :: 0 <= j < |a| ==> !a[j].IsNodeOf(u.who.num)
    ensures Upsert(s, u) == a + [Merge(f, u)] + b
  {
    assert s[|a|] == f;
    FindUnique(s, u.who.num, |a|);
    assert s[|a| := Merge(f, u)] == a + [Merge(f, u)] + b;
  }

  lemma UpsertBeforeLast(s: Cache, a: Cache, last: Frame, u: Update)
    requires s == a + [last] && u.who.num != 0 && last.IsComplete()
    requires forall j :: 0 <= j < |a| ==> !a[j].IsNodeOf(u.who.num)
    ensures Upsert(s, u) == a + [Synthesize(u), last]
  {
    FindUnique(s, u.who.num, |s|);
    assert s[..|s| - 1] == a;
  }

  /** A frame the filter keeps is upserted alike before and after filtering. */
  lemma KeptUpsertCommutes(c: Cache, u: Update, nonce: U32, own: U32)
    requires c != [] && c[|c| - 1].IsComplete() && u.who.num != 0
    requires nonce == NONCE_ONLY_CONFIG ==> u.who.num == own
    ensures Select(Upsert(c, u), nonce, own) == Upsert(Select(c, nonce, own), u)
  {
    var i := Find(c, u.who.num);
    if i < |c| {
      UpsertMerges(c, u, i);
      var a, b := c[..i], c[i + 1..];
      SelectAround(a, c[i], b, nonce, own);
      SelectAround(a, Merge(c[i], u), b, nonce, own);
      NoNodeInSelection(a, nonce, own, u.who.num);
      UpsertAt(Select(c, nonce, own), Select(a, nonce, own), c[i], Select(b, nonce, own), u);
    } else {
      UpsertInserts(c, u);
      var a, last := c[..|c| - 1], c[|c| - 1];
      SelectSnoc(a, last, nonce, own);
      SelectEnd(a, Synthesize(u), last, nonce, own);
      NoNodeInSelection(a, nonce, own, u.who.num);
      UpsertBeforeLast(Select(c, nonce, own), Select(a, nonce, own), last, u);
    }
  }

  /** Nodes-only replay of an upserted cache is the upserted nodes-only replay. */
  lemma NodesFilterCommutes(c: Cache, u: Update)
    requires EndsComplete(c)
    ensures Filter(Upsert(c, u), NONCE_ONLY_NODES) == Upsert(Filter(c, NONCE_ONLY_NODES), u)
  {
    if c != [] && u.who.num != 0 {
      KeptUpsertCommutes(c, u, NONCE_ONLY_NODES, OwnNum(c));
      NodesIgnoreOwn(Upsert(c, u), OwnNum(c), OwnNum(Upsert(c, u)));
    }
  }

  /** Config-only replay follows upserts of the node itself and ignores others. */
  lemma ConfigFilterCommutes(c: Cache, u: Update)
    requires EndsComplete(c)
    ensures Filter(Upsert(c, u), NONCE_ONLY_CONFIG) ==
            if u.who.num == OwnNum(c) then Upsert(Filter(c, NONCE_ONLY_CONFIG), u) else Filter(c, NONCE_ONLY_CONFIG)
  {
    var own := OwnNum(c);
    UpsertKeepsOwnNum(c, u);
    if c == [] || u.who.num == 0 {
    } else if u.who.num == own {
      KeptUpsertCommutes(c, u, NONCE_ONLY_CONFIG, own);
    } else {
      var i := Find(c, u.who.num);
      if i < |c| {
        UpsertMerges(c, u, i);
        SelectAround(c[..i], c[i], c[i + 1..], NONCE_ONLY_CONFIG, own);
        SelectAround(c[..i], Merge(c[i], u), c[i + 1..], NONCE_ONLY_CONFIG, own);
      } else {
        UpsertInserts(c, u);
        SelectSnoc(c[..|c| - 1], c[|c| - 1], NONCE_ONLY_CONFIG, own);
        SelectEnd(c[..|c| - 1], Synthesize(u), c[|c| - 1], NONCE_ONLY_CONFIG, own);
      }
    }
  }
}
