/** The node directory and its relay index (internal/metrics/node_directory.go).

    `Directory` is the directory as a value; the class keeps the two Go maps. Go
    visits a map in no fixed order, so the order inside one relay list is left
    open, and the value records only which numbers are indexed. */
module Directories {
  import opened Radio
  import opened Framing

  datatype NodeEntry = NodeEntry(
    shortName: string, longName: string, userId: string, hwModel: string, role: string, isLicensed: bool,
    lastHeard: U32, isFavorite: bool, seenRealtime: bool, readings: Blob)

  const NO_ENTRY := NodeEntry("", "", "", "", "", false, 0, false, false, [])

  type Entries = map<U32, NodeEntry>

  datatype NodeInfoUpdate = NodeInfoUpdate(
    num: U32, shortName: string, longName: string, userId: string, hwModel: string, role: string, isLicensed: bool)

  datatype Directory = Directory(entries: Entries, indexed: set<U32>)

  const EMPTY := Directory(map[], {})

  function LowByte(num: U32): Byte {
    num % 256
  }

  function Under(nums: set<U32>, b: Byte): set<U32> {
    set n | n in nums && n % 256 == b
  }

  function Lookup(entries: Entries, num: U32): NodeEntry {
    if num in entries then entries[num] else NO_ENTRY
  }

  /** Runtime flags survive a replacement. */
  function Carry(next: NodeEntry, known: NodeEntry): NodeEntry {
    next.(seenRealtime := next.seenRealtime || known.seenRealtime,
           isFavorite := next.isFavorite || known.isFavorite)
  }

  function Keep(stated: string, known: string): string {
    if stated != "" then stated else known
  }

  // ------------------------------------------------------------ operations

  function Replaced(d: Directory, dir: Entries): Directory {
    Directory(map n | n in dir :: Carry(dir[n], Lookup(d.entries, n)), dir.Keys)
  }

  /** updateNodeEntry with a new position, telemetry or signal reading. */
  function Touched(d: Directory, num: U32, now: U32, readings: Blob): Directory {
    var e := Lookup(d.entries, num).(seenRealtime := true, lastHeard := now, readings := readings);
    d.(entries := d.entries[num := e])
  }

  function Identified(known: NodeEntry, u: NodeInfoUpdate, now: U32): NodeEntry {
    NodeEntry(Keep(u.shortName, known.shortName), Keep(u.longName, known.longName), Keep(u.userId, known.userId),
              Keep(u.hwModel, known.hwModel), Keep(u.role, known.role), u.isLicensed,
              now, known.isFavorite, true, known.readings)
  }

  function Upserted(d: Directory, u: NodeInfoUpdate, now: U32): Directory {
    Directory(d.entries[u.num := Identified(Lookup(d.entries, u.num), u, now)],
              if u.num in d.entries then d.indexed else d.indexed + {u.num})
  }

  function Favored(d: Directory, num: U32, fav: bool): Directory {
    if num in d.entries then d.(entries := d.entries[num := d.entries[num].(isFavorite := fav)]) else d
  }

  // ------------------------------------------------------------- histories

  datatype Event =
    | Replace(dir: Entries)
    | Touch(num: U32, now: U32, readings: Blob)
    | Upsert(update: NodeInfoUpdate, at: U32)
    | Favorite(node: U32, fav: bool)

  function Apply(d: Directory, e: Event): Directory {
    match e
    case Replace(dir) => Replaced(d, dir)
    case Touch(num, now, readings) => Touched(d, num, now, readings)
    case Upsert(u, now) => Upserted(d, u, now)
    case Favorite(num, fav) => Favored(d, num, fav)
  }

  function Run(d: Directory, es: seq<Event>): Directory {
    if es == [] then d else Apply(Run(d, es[..|es| - 1]), es[|es| - 1])
  }

  /** The node's entry was created by a reading, not by an identity, since the
      last replacement: such an entry was never put in the index. */
  ghost predicate Orphaned(es: seq<Event>, n: U32) {
    exists i :: 0 <= i < |es| && CreatedByReading(es, i, n) && forall j :: i < j < |es| ==> !es[j].Replace?
  }

  ghost predicate CreatedByReading(es: seq<Event>, i: nat, n: U32)
    requires i < |es|
  {
    es[i].Touch? && es[i].num == n && n !in Run(EMPTY, es[..i]).entries
  }

  lemma OrphanedStep(es: seq<Event>, n: U32)
    requires es != []
    ensures var init, e := es[..|es| - 1], es[|es| - 1];
            Orphaned(es, n) <==>
              !e.Replace? && (Orphaned(init, n) || (e.Touch? && e.num == n && n !in Run(EMPTY, init).entries))
  {
    var init, last := es[..|es| - 1], |es| - 1;
    if Orphaned(es, n) {
      var i :| 0 <= i < |es| && CreatedByReading(es, i, n) && forall j :: i < j < |es| ==> !es[j].Replace?;
      if i < last {
        SameBefore(es, i, n);
      }
    }
    if Orphaned(init, n) && !es[last].Replace? {
      var i :| 0 <= i < |init| && CreatedByReading(init, i, n) && forall j :: i < j < |init| ==> !init[j].Replace?;
      SameBefore(es, i, n);
    }
    if es[last].Touch? && es[last].num == n && n !in Run(EMPTY, init).entries {
      assert CreatedByReading(es, last, n);
    }
  }

  lemma SameBefore(es: seq<Event>, i: nat, n: U32)
    requires i < |es| - 1
    ensures CreatedByReading(es, i, n) == CreatedByReading(es[..|es| - 1], i, n)
  {
    assert es[..|es| - 1][..i] == es[..i];
  }

  /** After any history the index holds exactly the directory's numbers that no
      reading created: sound always, complete exactly without orphans. */
  lemma {:induction false} IndexHolds(es: seq<Event>, n: U32)
    ensures n in Run(EMPTY, es).indexed <==> n in Run(EMPTY, es).entries && !Orphaned(es, n)
    ensures Orphaned(es, n) ==> n in Run(EMPTY, es).entries
    decreases es
  {
    if es != [] {
      IndexHolds(es[..|es| - 1], n);
      OrphanedStep(es, n);
    }
  }

  /** A relay lookup equals a scan of the whole directory if and only if no node
      under that byte is an orphan. */
  lemma RelayCompleteIff(es: seq<Event>, b: Byte)
    ensures var d := Run(EMPTY, es);
            && Under(d.indexed, b) <= Under(d.entries.Keys, b)
            && (Under(d.indexed, b) == Under(d.entries.Keys, b) <==>
                forall n :: n in d.entries && n % 256 == b ==> !Orphaned(es, n))
  {
    forall n: U32 {
      IndexHolds(es, n);
    }
    var d := Run(EMPTY, es);
    forall n | n in d.entries && LowByte(n) == b
      ensures n in Under(d.entries.Keys, b) && (n in Under(d.indexed, b) <==> !Orphaned(es, n))
    {
    }
  }

  /** The check a caller can make before each update: readings of known nodes only. */
  lemma KnownReadingsKeepIndexComplete(es: seq<Event>)
    requires forall i :: 0 <= i < |es| && es[i].Touch? ==> es[i].num in Run(EMPTY, es[..i]).entries
    ensures Run(EMPTY, es).indexed == Run(EMPTY, es).entries.Keys
  {
    forall n: U32 ensures n in Run(EMPTY, es).indexed <==> n in Run(EMPTY, es).entries {
      IndexHolds(es, n);
    }
  }

  /** A signal report from an unknown node leaves it unresolvable, and a later
      identity does not repair that. */
  lemma OrphanStaysOrphan()
    ensures var es := [Touch(0x105, 1, []), Upsert(NodeInfoUpdate(0x105, "n", "node", "!105", "", "", false), 2)];
            var d := Run(EMPTY, es);
            0x105 in d.entries && d.entries[0x105].shortName == "n" && Under(d.indexed, 5) == {}
  {
    var es := [Touch(0x105, 1, []), Upsert(NodeInfoUpdate(0x105, "n", "node", "!105", "", "", false), 2)];
    assert es[..1][..0] == [] && es[..1] == [es[0]];
    assert Run(EMPTY, es[..1]) == Touched(EMPTY, 0x105, 1, []);
  }

  /** Once seen in real time, a node stays marked until a replacement drops it. */
  lemma {:induction false} SeenIsSticky(d: Directory, es: seq<Event>, n: U32)
    requires n in d.entries && d.entries[n].seenRealtime
    requires forall e :: e in es && e.Replace? ==> n in e.dir
    ensures n in Run(d, es).entries && Run(d, es).entries[n].seenRealtime
    decreases es
  {
    if es != [] {
      SeenIsSticky(d, es[..|es| - 1], n);
      assert es[|es| - 1] in es;
    }
  }

  // ------------------------------------------------------------- the class

  predicate NoDuplicates(s: seq<U32>) {
    forall i, j :: 0 <= i < j < |s| ==> s[i] != s[j]
  }

  function Members(s: seq<U32>): set<U32> {
    set n | n in s
  }

  /** The relay map files exactly `nums`, each once, under its own low byte. */
  ghost predicate Files(relay: map<Byte, seq<U32>>, nums: set<U32>) {
    && (forall b, i :: b in relay && 0 <= i < |relay[b]| ==> relay[b][i] in nums && LowByte(relay[b][i]) == b)
    && (forall b :: b in relay ==> NoDuplicates(relay[b]))
    && (forall n :: n in nums ==> LowByte(n) in relay && n in relay[LowByte(n)])
  }

  function Append(relay: map<Byte, seq<U32>>, n: U32): map<Byte, seq<U32>> {
    var b := LowByte(n);
    relay[b := (if b in relay then relay[b] else []) + [n]]
  }

  lemma FilesOneMore(relay: map<Byte, seq<U32>>, nums: set<U32>, n: U32)
    requires Files(relay, nums) && n !in nums
    ensures Files(Append(relay, n), nums + {n})
  {
    var b: Byte, next := LowByte(n), Append(relay, n);
    assert next[b][|next[b]| - 1] == n;
    assert forall i :: 0 <= i < |next[b]| - 1 ==> next[b][i] == relay[b][i];
    forall m | m in nums + {n} ensures LowByte(m) in next && m in next[LowByte(m)] {
      if m != n && LowByte(m) == b {
        var i :| 0 <= i < |relay[b]| && relay[b][i] == m;
        assert next[b][i] == m;
      }
    }
  }

  /** e is `known` after an identity: stated names replace the known ones, empty ones
      do not, and the node counts as seen now. */
  predicate IdentityTaken(known: NodeEntry, u: NodeInfoUpdate, now: U32, e: NodeEntry) {
    && e.shortName == (if u.shortName == "" then known.shortName else u.shortName)
    && e.longName == (if u.longName == "" then known.longName else u.longName)
    && e.userId == (if u.userId == "" then known.userId else u.userId)
    && e.hwModel == (if u.hwModel == "" then known.hwModel else u.hwModel)
    && e.role == (if u.role == "" then known.role else u.role)
    && e.isLicensed == u.isLicensed && e.lastHeard == now && e.seenRealtime
    && e.isFavorite == known.isFavorite && e.readings == known.readings
  }

  class NodeDirectory {
    var nodeDir: Entries
    var relayDir: map<Byte, seq<U32>>
    ghost var indexed: set<U32>

    ghost predicate Valid()
      reads this
    {
      indexed <= nodeDir.Keys && Files(relayDir, indexed)
    }

    ghost function View(): Directory
      reads this
    {
      Directory(nodeDir, indexed)
    }

    constructor ()
      ensures Valid() && View() == EMPTY
    {
      nodeDir, relayDir, indexed := map[], map[], {};
    }

    method SetNodeDirectory(dir: Entries)
      requires Valid()
      modifies this
      ensures Valid() && View() == Replaced(old(View()), dir)
      ensures nodeDir.Keys == dir.Keys
      ensures forall n :: n in dir ==>
                var known := if n in old(nodeDir) then old(nodeDir[n]) else NO_ENTRY;
                nodeDir[n] == dir[n].(seenRealtime := dir[n].seenRealtime || known.seenRealtime,
                                      isFavorite := dir[n].isFavorite || known.isFavorite)
    {
      var relay := BuildRelay(dir.Keys);
      nodeDir := CarryAll(dir, nodeDir);
      relayDir := relay;
      indexed := dir.Keys;
    }

    static method BuildRelay(nums: set<U32>) returns (relay: map<Byte, seq<U32>>)
      ensures Files(relay, nums)
    {
      var todo := nums;
      relay := map[];
      while todo != {}
        invariant todo <= nums && Files(relay, nums - todo)
      {
        var num :| num in todo;
        FilesOneMore(relay, nums - todo, num);
        relay := Append(relay, num);
        assert (nums - todo) + {num} == nums - (todo - {num});
        todo := todo - {num};
      }
      assert nums - {} == nums;
    }

    static method CarryAll(dir: Entries, known: Entries) returns (merged: Entries)
      ensures merged == map n | n in dir :: Carry(dir[n], Lookup(known, n))
    {
      var todo := dir.Keys;
      merged := dir;
      while todo != {}
        invariant todo <= dir.Keys == merged.Keys
        invariant forall n :: n in dir ==> merged[n] == if n in todo then dir[n] else Carry(dir[n], Lookup(known, n))
      {
        var num :| num in todo;
        if num in known {
          var entry := dir[num];
          if known[num].seenRealtime { entry := entry.(seenRealtime := true); }
          if known[num].isFavorite { entry := entry.(isFavorite := true); }
          merged := merged[num := entry];
        }
        todo := todo - {num};
      }
    }

    method UpdateNodeEntry(num: U32, now: U32, readings: Blob) returns (entry: NodeEntry)
      requires Valid()
      modifies this
      ensures Valid() && View() == Touched(old(View()), num, now, readings)
      ensures num in nodeDir && entry == nodeDir[num] && nodeDir == old(nodeDir)[num := entry]
      ensures var known := if num in old(nodeDir) then old(nodeDir[num]) else NO_ENTRY;
              entry == known.(seenRealtime := true, lastHeard := now, readings := readings)
    {
      entry := if num in nodeDir then nodeDir[num] else NO_ENTRY;
      entry := entry.(seenRealtime := true, lastHeard := now);
      entry := entry.(readings := readings);
      nodeDir := nodeDir[num := entry];
    }

    method UpsertNode(u: NodeInfoUpdate, now: U32) returns (isNew: bool)
      requires Valid()
      modifies this
      ensures Valid() && View() == Upserted(old(View()), u, now)
      ensures isNew <==> u.num !in old(nodeDir)
      ensures u.num in nodeDir && nodeDir == old(nodeDir)[u.num := nodeDir[u.num]]
      ensures IdentityTaken(if u.num in old(nodeDir) then old(nodeDir[u.num]) else NO_ENTRY, u, now, nodeDir[u.num])
    {
      isNew := u.num !in nodeDir;
      var entry := ApplyIdentity(Lookup(nodeDir, u.num), u, now);
      nodeDir := nodeDir[u.num := entry];
      if isNew {
        FilesOneMore(relayDir, indexed, u.num);
        relayDir := Append(relayDir, u.num);
        indexed := indexed + {u.num};
      }
    }

    static method ApplyIdentity(known: NodeEntry, u: NodeInfoUpdate, now: U32) returns (entry: NodeEntry)
      ensures entry == Identified(known, u, now)
    {
      entry := known.(seenRealtime := true, lastHeard := now);
      if u.shortName != "" { entry := entry.(shortName := u.shortName); }
      if u.longName != "" { entry := entry.(longName := u.longName); }
      if u.userId != "" { entry := entry.(userId := u.userId); }
      if u.hwModel != "" { entry := entry.(hwModel := u.hwModel); }
      if u.role != "" { entry := entry.(role := u.role); }
      entry := entry.(isLicensed := u.isLicensed);
    }

    method SetFavorite(num: U32, fav: bool) returns (found: bool)
      requires Valid()
      modifies this
      ensures Valid() && View() == Favored(old(View()), num, fav)
      ensures found <==> num in old(nodeDir)
      ensures nodeDir == if found then old(nodeDir)[num := old(nodeDir[num]).(isFavorite := fav)] else old(nodeDir)
    {
      found := num in nodeDir;
      if found {
        nodeDir := nodeDir[num := nodeDir[num].(isFavorite := fav)];
      }
    }

    /** The numbers filed under the byte, in the index's order. */
    function Filed(b: Byte): seq<U32>
      reads this
    {
      if b in relayDir then relayDir[b] else []
    }

    /** The entries of the indexed numbers under the byte, one each. */
    method ResolveRelay(b: Byte) returns (result: seq<NodeEntry>)
      requires Valid()
      ensures NoDuplicates(Filed(b)) && Members(Filed(b)) == Under(View().indexed, b)
      ensures |result| == |Filed(b)|
      ensures forall i :: 0 <= i < |result| ==> Filed(b)[i] in nodeDir && result[i] == nodeDir[Filed(b)[i]]
    {
      var filed := Filed(b);
      result := [];
      for i := 0 to |filed|
        invariant |result| == i && forall j :: 0 <= j < i ==> filed[j] in nodeDir && result[j] == nodeDir[filed[j]]
      {
        if filed[i] in nodeDir {
          result := result + [nodeDir[filed[i]]];
        }
      }
    }
  }

  /** `result` lists the entries of exactly the nodes in `nums`, one each. */
  ghost predicate Lists(result: seq<NodeEntry>, entries: Entries, nums: set<U32>) {
    exists order: seq<U32> :: ListsIn(result, entries, nums, order)
  }

  ghost predicate ListsIn(result: seq<NodeEntry>, entries: Entries, nums: set<U32>, order: seq<U32>) {
    && NoDuplicates(order) && Members(order) == nums
    && |result| == |order|
    && forall i :: 0 <= i < |order| ==> order[i] in entries && result[i] == entries[order[i]]
  }

  /** The known nodes under a byte that no reading created. */
  ghost function Resolvable(es: seq<Event>, entries: Entries, b: Byte): set<U32> {
    set n | n in entries && n % 256 == b && !Orphaned(es, n)
  }

  lemma {:induction false} DistinctCount(s: seq<U32>)
    requires NoDuplicates(s)
    ensures |Members(s)| == |s|
  {
    if s == [] {
      assert Members(s) == {};
    } else {
      var init, last := s[..|s| - 1], s[|s| - 1];
      DistinctCount(init);
      assert Members(s) == Members(init) + {last};
    }
  }

  lemma ListsCount(result: seq<NodeEntry>, entries: Entries, nums: set<U32>)
    requires Lists(result, entries, nums)
    ensures |result| == |nums|
  {
    var order :| ListsIn(result, entries, nums, order);
    DistinctCount(order);
  }

  lemma SubsetCount(a: set<U32>, b: set<U32>)
    requires a <= b && |a| == |b|
    ensures a == b
  {
    assert |b - a| == |b| - |a|;
  }

  /** A whole history on the class: a lookup lists the entries of the indexed nodes
      under the byte, and is a scan of the whole directory if and only if no node
      under the byte was first seen by a reading. */
  method Drive(es: seq<Event>, b: Byte) returns (d: NodeDirectory, result: seq<NodeEntry>)
    ensures fresh(d) && d.Valid() && d.View() == Run(EMPTY, es)
    ensures Lists(result, d.nodeDir, Resolvable(es, d.nodeDir, b))
    ensures Lists(result, d.nodeDir, Under(d.nodeDir.Keys, b)) <==>
              forall n :: n in d.nodeDir && n % 256 == b ==> !Orphaned(es, n)
  {
    d := new NodeDirectory();
    for i := 0 to |es|
      invariant fresh(d) && d.Valid() && d.View() == Run(EMPTY, es[..i])
    {
      assert es[..i + 1][..i] == es[..i];
      match es[i]
      case Replace(dir) => d.SetNodeDirectory(dir);
      case Touch(num, now, readings) => var _ := d.UpdateNodeEntry(num, now, readings);
      case Upsert(u, now) => var _ := d.UpsertNode(u, now);
      case Favorite(num, fav) => var _ := d.SetFavorite(num, fav);
    }
    assert es[..|es|] == es;
    result := d.ResolveRelay(b);
    LookupIsScanIff(es, b, result, d.Filed(b));
    IndexedUnder(es, b);
  }

  lemma IndexedUnder(es: seq<Event>, b: Byte)
    ensures var d := Run(EMPTY, es);
            Under(d.indexed, b) == Resolvable(es, d.entries, b)
  {
    forall n: U32 ensures n in Run(EMPTY, es).indexed <==> n in Run(EMPTY, es).entries && !Orphaned(es, n) {
      IndexHolds(es, n);
    }
  }

  lemma LookupIsScanIff(es: seq<Event>, b: Byte, result: seq<NodeEntry>, order: seq<U32>)
    requires ListsIn(result, Run(EMPTY, es).entries, Under(Run(EMPTY, es).indexed, b), order)
    ensures var d := Run(EMPTY, es);
            && Lists(result, d.entries, Under(d.indexed, b))
            && (Lists(result, d.entries, Under(d.entries.Keys, b)) <==>
                forall n :: n in d.entries && n % 256 == b ==> !Orphaned(es, n))
  {
    hide Run, Orphaned, ListsIn;
    var d := Run(EMPTY, es);
    RelayCompleteIff(es, b);
    if Lists(result, d.entries, Under(d.entries.Keys, b)) {
      ListsCount(result, d.entries, Under(d.indexed, b));
      ListsCount(result, d.entries, Under(d.entries.Keys, b));
      SubsetCount(Under(d.indexed, b), Under(d.entries.Keys, b));
    }
  }
}
