/** The read loop of internal/node/connection.go as a state machine over received
    frames: it collects a handshake, publishes it as the config cache, and keeps
    cache, node directory and readiness metric in step. Frame lists are values
    here; SharedSlices models the backing arrays. */
module NodeLoop {
  import opened Wrappers
  import opened Radio
  import opened ConfigCache
  import D = Directories

  datatype Loop = Loop(
    cache: Cache,            // configCache
    collecting: bool,        // collectingConfig
    frames: Cache,           // configFrames
    dir: D.Directory,
    cachedFrames: nat,       // ConfigCacheFrames
    connected: bool,         // NodeConnected
    myNodeNum: U32)

  const START := Loop([], false, [], D.EMPTY, 0, false, 0)

  datatype Event =
    | Connected
    | Disconnected
    | Received(frame: Frame, now: U32, readings: Blob)
    | Favored(num: U32, fav: bool)

  /** Metrics.Ready */
  predicate Ready(s: Loop) {
    s.connected && s.cachedFrames > 0
  }

  // ------------------------------------------------------ one loop iteration

  /** ExtractNodeInfo: the sender of a packet that carries a user, unless it is 0. */
  function Announced(f: Frame): (u: Option<Identity>)
    ensures u.Some? <==>
              && f.Parsed? && f.body.PacketFrame? && f.body.packet.from != 0 && f.body.packet.content.Decoded?
              && f.body.packet.content.app.NodeUser? && f.body.packet.content.app.user.Some?
    ensures u.Some? ==> u.value == Identity(f.body.packet.from, f.body.packet.content.app.user.value)
  {
    if !f.IsPacket() then None
    else match f.body.packet
      case Packet(from, _, _, _, Decoded(_, NodeUser(Some(user))), _) =>
        if from == 0 then None else Some(Identity(from, user))
      case _ => None
  }

  /** ExtractPosition, ExtractTelemetry and ExtractSignal all update the sender's
      entry; `readings` is what the last of them leaves. */
  function Heard(f: Frame, d: D.Directory, now: U32, readings: Blob): (next: D.Directory)
    ensures d.entries.Keys <= next.entries.Keys
  {
    if !f.IsPacket() then d
    else
      var p := f.body.packet;
      var measured :=
        p.content.Decoded? && ((p.content.app.Position? && p.content.app.hasFix) ||
                               (p.content.app.Telemetry? && p.content.app.stored));
      if measured || (p.from != 0 && p.rxRssi != 0) then D.Touched(d, p.from, now, readings) else d
  }

  function AsUpdate(u: Identity): D.NodeInfoUpdate {
    var user := u.user;
    D.NodeInfoUpdate(u.num, user.shortName, user.longName, user.id, user.hwModel, user.role, user.isLicensed)
  }

  /** The part of an iteration before the config switch. */
  function Observe(s: Loop, f: Frame, now: U32, readings: Blob): Loop {
    var dir := Heard(f, s.dir, now, readings);
    match Announced(f)
    case None => s.(dir := dir)
    case Some(who) =>
      s.(dir := D.Upserted(dir, AsUpdate(who), now), cache := Upsert(s.cache, Update(who, now)))
  }

  function EntryOf(info: NodeInfo): D.NodeEntry {
    var x := info.extras;
    var e := D.NO_ENTRY.(lastHeard := info.lastHeard, isFavorite := x.isFavorite, readings := x.position);
    if info.user.None? then e
    else
      var u := info.user.value;
      e.(shortName := u.shortName, longName := u.longName, userId := u.id,
         hwModel := u.hwModel, role := u.role, isLicensed := u.isLicensed)
  }

  /** ExtractNodeDirectory: the last frame of a node wins, number 0 is skipped. */
  function ExtractDirectory(c: Cache): D.Entries {
    if c == [] then map[]
    else
      var rest, f := ExtractDirectory(c[..|c| - 1]), c[|c| - 1];
      if f.IsNode() && f.body.info.num != 0 then rest[f.body.info.num := EntryOf(f.body.info)] else rest
  }

  /** The config caching switch. */
  function Collect(s: Loop, f: Frame): Loop {
    if f.IsMyInfo() then
      s.(collecting := true, frames := [f],
         myNodeNum := if f.body.myNodeNum != 0 then f.body.myNodeNum else s.myNodeNum)
    else if f.IsComplete() then
      var frames := s.frames + [f];
      if s.collecting then
        s.(frames := frames, cache := frames, collecting := false, cachedFrames := |frames|,
           dir := D.Replaced(s.dir, ExtractDirectory(frames)))
      else s.(frames := frames)
    else if s.collecting then s.(frames := s.frames + [f])
    else s
  }

  function Step(s: Loop, e: Event): Loop {
    match e
    case Connected => s.(connected := true, collecting := false, frames := [])
    case Disconnected => s.(connected := false, collecting := false, frames := [])
    case Received(f, now, readings) => Collect(Observe(s, f, now, readings), f)
    case Favored(num, fav) => s.(dir := D.Favored(s.dir, num, fav))
  }

  function Run(es: seq<Event>): Loop {
    if es == [] then START else Step(Run(es[..|es| - 1]), es[|es| - 1])
  }

  /** The i-th frame is the last NodeInfo frame of node n. */
  predicate LastOf(c: Cache, i: int, n: U32) {
    && 0 <= i < |c| && c[i].Parsed? && c[i].body.NodeFrame? && c[i].body.info.num == n
    && forall j :: i < j < |c| ==> !c[j].IsNodeOf(n)
  }

  /** e states what the NodeInfo does, and is not yet seen in real time. */
  predicate Describes(info: NodeInfo, e: D.NodeEntry) {
    && e.lastHeard == info.lastHeard && e.isFavorite == info.extras.isFavorite
    && !e.seenRealtime && e.readings == info.extras.position
    && match info.user
       case None => e.shortName == e.longName == e.userId == e.hwModel == e.role == "" && !e.isLicensed
       case Some(u) =>
         && e.shortName == u.shortName && e.longName == u.longName && e.userId == u.id
         && e.hwModel == u.hwModel && e.role == u.role && e.isLicensed == u.isLicensed
  }

  predicate EntryFrom(c: Cache, i: int, n: U32, e: D.NodeEntry) {
    LastOf(c, i, n) && Describes(c[i].body.info, e)
  }

  lemma {:induction false} DirectoryEntries(c: Cache)
    ensures forall n :: n in ExtractDirectory(c) ==> exists i :: EntryFrom(c, i, n, ExtractDirectory(c)[n])
  {
    if c != [] {
      var init, last := c[..|c| - 1], |c| - 1;
      DirectoryEntries(init);
      DirectoryKeys(init);
      forall n | n in ExtractDirectory(c) ensures exists i :: EntryFrom(c, i, n, ExtractDirectory(c)[n]) {
        if c[last].IsNodeOf(n) {
          assert EntryFrom(c, last, n, ExtractDirectory(c)[n]);
        } else {
          var i :| EntryFrom(init, i, n, ExtractDirectory(init)[n]);
          assert EntryFrom(c, i, n, ExtractDirectory(c)[n]);
        }
      }
    }
  }

  /** ExtractNodeDirectory as the loop it is: one entry per non-zero number, from its
      last NodeInfo frame. */
  method ExtractNodeDirectory(frames: Cache) returns (dir: D.Entries)
    ensures dir == ExtractDirectory(frames)
    ensures forall n :: n in dir <==> n != 0 && exists i :: 0 <= i < |frames| && frames[i].IsNodeOf(n)
    ensures forall n :: n in dir ==> exists i :: EntryFrom(frames, i, n, dir[n])
  {
    dir := map[];
    for i := 0 to |frames|
      invariant dir == ExtractDirectory(frames[..i])
    {
      assert frames[..i + 1][..i] == frames[..i];
      if frames[i].Unparseable? || !frames[i].body.NodeFrame? || frames[i].body.info.num == 0 {
        continue;
      }
      dir := dir[frames[i].body.info.num := EntryOf(frames[i].body.info)];
    }
    assert frames[..|frames|] == frames;
    DirectoryKeys(frames);
    DirectoryEntries(frames);
  }

  lemma {:induction false} DirectoryKeys(c: Cache)
    ensures forall n :: n in ExtractDirectory(c) <==> n != 0 && exists i :: 0 <= i < |c| && c[i].IsNodeOf(n)
  {
    if c != [] {
      var init, last := c[..|c| - 1], c[|c| - 1];
      DirectoryKeys(init);
      forall n ensures n in ExtractDirectory(c) <==> n != 0 && exists i :: 0 <= i < |c| && c[i].IsNodeOf(n) {
        if exists i :: 0 <= i < |c| && c[i].IsNodeOf(n) {
          var i :| 0 <= i < |c| && c[i].IsNodeOf(n);
          assert i < |init| ==> init[i].IsNodeOf(n);
        }
        if exists i :: 0 <= i < |init| && init[i].IsNodeOf(n) {
          var i :| 0 <= i < |init| && init[i].IsNodeOf(n);
          assert c[i].IsNodeOf(n);
        }
        assert c[|c| - 1] == last;
      }
    }
  }

  // --------------------------------------------------------------- invariants

  /** A handshake in progress. */
  predicate Partial(c: Cache) {
    && c != []
    && c[0].IsMyInfo()
    && forall i :: 0 < i < |c| ==> !c[i].IsMyInfo() && !c[i].IsComplete()
  }

  /** Every cached node is in the directory. */
  predicate Covered(c: Cache, d: D.Directory) {
    forall i :: 0 <= i < |c| && c[i].IsNode() && c[i].body.info.num != 0 ==> c[i].body.info.num in d.entries
  }

  predicate Inv(s: Loop) {
    && (s.cache == [] || WellFormed(s.cache))
    && (s.collecting ==> Partial(s.frames))
    && Covered(s.cache, s.dir)
    && s.cachedFrames <= |s.cache|
    && (s.cachedFrames == 0 <==> s.cache == [])
  }

  lemma ObserveKeepsInv(s: Loop, f: Frame, now: U32, readings: Blob)
    requires Inv(s)
    ensures var t := Observe(s, f, now, readings);
            Inv(t) && t.collecting == s.collecting && t.frames == s.frames && |s.cache| <= |t.cache|
  {
    var a := Announced(f);
    if a.Some? && s.cache != [] {
      UpsertKeepsShape(s.cache, Update(a.value, now));
      UpsertKeepsCover(s.cache, Update(a.value, now), s.dir, Observe(s, f, now, readings).dir);
    }
  }

  lemma UpsertKeepsCover(c: Cache, u: Update, d: D.Directory, next: D.Directory)
    requires Covered(c, d) && d.entries.Keys <= next.entries.Keys && u.who.num in next.entries
    requires WellFormed(c)
    ensures Covered(Upsert(c, u), next)
  {
    var i := Find(c, u.who.num);
    if u.who.num != 0 && i == |c| {
      var t := Upsert(c, u);
      assert forall j :: 0 <= j < |c| - 1 ==> t[j] == c[j];
    }
  }

  lemma CollectKeepsInv(s: Loop, f: Frame)
    requires Inv(s)
    ensures Inv(Collect(s, f)) && (s.cache != [] ==> Collect(s, f).cache != [])
  {
    if f.IsComplete() && s.collecting {
      var frames := s.frames + [f];
      DirectoryKeys(frames);
      forall i | 0 <= i < |frames| && frames[i].IsNode() && frames[i].body.info.num != 0
        ensures frames[i].body.info.num in ExtractDirectory(frames)
      {
        assert frames[i].IsNodeOf(frames[i].body.info.num);
      }
    }
  }

  /** On every run the cache is empty or one well-formed handshake, its nodes are
      all in the directory, and readiness means there is something to replay. */
  lemma {:induction false} CacheInvariant(es: seq<Event>)
    ensures Inv(Run(es))
    ensures Ready(Run(es)) ==> Run(es).cache != []
    decreases es
  {
    if es != [] {
      CacheInvariant(es[..|es| - 1]);
      NextKeepsInv(Run(es[..|es| - 1]), es[|es| - 1]);
    }
  }

  lemma NextKeepsInv(s: Loop, e: Event)
    requires Inv(s)
    ensures Inv(Step(s, e)) && (s.cache != [] ==> Step(s, e).cache != [])
  {
    if e.Received? {
      ObserveKeepsInv(s, e.frame, e.now, e.readings);
      CollectKeepsInv(Observe(s, e.frame, e.now, e.readings), e.frame);
    }
  }

  /** Once published, a cache never becomes empty again. */
  lemma {:induction false} NeverEmptyAgain(es: seq<Event>, more: seq<Event>)
    requires Run(es).cache != []
    ensures Run(es + more).cache != []
    decreases more
  {
    if more == [] {
      assert es + more == es;
    } else {
      var init := more[..|more| - 1];
      NeverEmptyAgain(es, init);
      assert (es + more)[..|es + more| - 1] == es + init;
      CacheInvariant(es + init);
      NextKeepsInv(Run(es + init), more[|more| - 1]);
    }
  }

  // ------------------------------------------------- a cache since its publication

  predicate Publishes(s: Loop, e: Event) {
    e.Received? && e.frame.IsComplete() && s.collecting
  }

  /** The upserts the loop makes for the NODEINFO_APP packets of a run. */
  function Updates(es: seq<Event>): seq<Update> {
    if es == [] then []
    else
      var e := es[|es| - 1];
      Updates(es[..|es| - 1]) +
        if e.Received? && Announced(e.frame).Some? then [Update(Announced(e.frame).value, e.now)] else []
  }

  predicate Unpublished(es: seq<Event>, more: seq<Event>) {
    forall i :: 0 <= i < |more| ==> !Publishes(Run(es + more[..i]), more[i])
  }

  lemma StepUpdates(s: Loop, e: Event)
    requires !Publishes(s, e)
    ensures Step(s, e).cache ==
            if e.Received? && Announced(e.frame).Some? then Upsert(s.cache, Update(Announced(e.frame).value, e.now))
            else s.cache
  {
  }

  /** Until the next publication the cache is the published one with the announced
      upserts applied in order: reconnects, favorites and abandoned or unfinished
      handshakes change nothing. */
  lemma {:induction false} UpsertsSincePublication(es: seq<Event>, more: seq<Event>)
    requires Unpublished(es, more)
    ensures Run(es + more).cache == UpsertAll(Run(es).cache, Updates(more))
    decreases more
  {
    hide Step, Upsert, Announced, Publishes;
    if more == [] {
      assert es + more == es;
    } else {
      var init, e := more[..|more| - 1], more[|more| - 1];
      assert Unpublished(es, init) by {
        forall i | 0 <= i < |init| ensures !Publishes(Run(es + init[..i]), init[i]) {
          assert init[..i] == more[..i];
        }
      }
      UpsertsSincePublication(es, init);
      assert (es + more)[..|es + more| - 1] == es + init;
      StepUpdates(Run(es + init), e);
      if e.Received? && Announced(e.frame).Some? {
        assert Updates(more)[..|Updates(init)|] == Updates(init);
      } else {
        assert Updates(more) == Updates(init);
      }
    }
  }

  /** So in every reachable cache each node's entry is what the upserts since the
      publication leave of the published one, all other frames are the published
      ones, and new nodes follow in the order they were first heard. */
  lemma LiveCache(es: seq<Event>, more: seq<Event>, num: U32, nums: set<U32>)
    requires Unpublished(es, more) && Run(es).cache != [] && num != 0
    requires forall u :: u in Updates(more) ==> u.who.num in nums
    ensures var before, after := Run(es).cache, Run(es + more).cache;
            && Leaves(Entry(before, num), Updates(more), num, Entry(after, num))
            && Others(after, nums) == Others(before, nums)
            && (Unique(before) ==> Unique(after))
            && Keys(Front(after)) == Keys(Front(before)) + NewNodes(before, Updates(more))
            && Closing(after) == Closing(before)
  {
    UpsertsSincePublication(es, more);
    UpsertHistory(Run(es).cache, Updates(more), num);
    HistoryFrame(Run(es).cache, Updates(more), nums);
    HistoryOrder(Run(es).cache, Updates(more));
  }

  // ------------------------------------------- the loop's other fields, by history

  /** The directory operations of one event: what a received frame measures or says
      of its sender, a publication, a favorite. */
  function Operations(s: Loop, e: Event): seq<D.Event> {
    match e
    case Favored(num, fav) => [D.Favorite(num, fav)]
    case Received(f, now, readings) =>
      Measured(f, now, readings) + Identified(f, now) +
      if f.Parsed? && f.body.ConfigComplete? && s.collecting then [D.Replace(ExtractDirectory(s.frames + [f]))] else []
    case _ => []
  }

  function DirectoryEvents(es: seq<Event>): seq<D.Event> {
    if es == [] then []
    else DirectoryEvents(es[..|es| - 1]) + Operations(Run(es[..|es| - 1]), es[|es| - 1])
  }

  function Measured(f: Frame, now: U32, readings: Blob): seq<D.Event> {
    if f.Unparseable? || !f.body.PacketFrame? then []
    else match f.body.packet
      case Packet(from, _, _, _, Decoded(_, Position(true)), _) => [D.Touch(from, now, readings)]
      case Packet(from, _, _, _, Decoded(_, Telemetry(true)), _) => [D.Touch(from, now, readings)]
      case Packet(from, _, _, rssi, _, _) => if from != 0 && rssi != 0 then [D.Touch(from, now, readings)] else []
  }

  function Identified(f: Frame, now: U32): seq<D.Event> {
    if f.Unparseable? || !f.body.PacketFrame? then []
    else match f.body.packet
      case Packet(from, _, _, _, Decoded(_, NodeUser(Some(u))), _) =>
        if from == 0 then []
        else [D.Upsert(D.NodeInfoUpdate(from, u.shortName, u.longName, u.id, u.hwModel, u.role, u.isLicensed), now)]
      case _ => []
  }

  /** The last non-zero my_node_num received. */
  function MyNum(es: seq<Event>): U32 {
    if es == [] then 0
    else match es[|es| - 1]
      case Received(Parsed(_, MyInfo(n, _)), _, _) => if n != 0 then n else MyNum(es[..|es| - 1])
      case _ => MyNum(es[..|es| - 1])
  }

  function LastPublished(es: seq<Event>): nat {
    if es == [] then 0
    else if Publishes(Run(es[..|es| - 1]), es[|es| - 1]) then |Run(es).cache|
    else LastPublished(es[..|es| - 1])
  }

  function LinkUp(es: seq<Event>): bool {
    if es == [] then false
    else match es[|es| - 1]
      case Connected => true
      case Disconnected => false
      case _ => LinkUp(es[..|es| - 1])
  }

  lemma {:induction false} RunDirectory(d: D.Directory, a: seq<D.Event>, b: seq<D.Event>)
    ensures D.Run(d, a + b) == D.Run(D.Run(d, a), b)
    decreases b
  {
    hide D.Apply;
    if b == [] {
      assert a + b == a;
    } else {
      RunDirectory(d, a, b[..|b| - 1]);
      assert (a + b)[..|a + b| - 1] == a + b[..|b| - 1];
    }
  }

  lemma RunOne(d: D.Directory, e: D.Event)
    ensures D.Run(d, [e]) == D.Apply(d, e) && D.Run(d, []) == d
  {
    assert [e][..0] == [];
  }

  lemma HeardRun(f: Frame, d: D.Directory, now: U32, readings: Blob)
    ensures D.Run(d, Measured(f, now, readings)) == Heard(f, d, now, readings)
  {
    hide D.Run, D.Touched;
    forall from {:trigger D.Touch(from, now, readings)}
      ensures D.Run(d, [D.Touch(from, now, readings)]) == D.Touched(d, from, now, readings) && D.Run(d, []) == d
    {
      RunOne(d, D.Touch(from, now, readings));
    }
    assert D.Touch(0, now, readings) == D.Touch(0, now, readings);
  }

  lemma IdentifiedRun(f: Frame, d: D.Directory, now: U32)
    ensures D.Run(d, Identified(f, now)) ==
            if Announced(f).Some? then D.Upserted(d, AsUpdate(Announced(f).value), now) else d
  {
    hide D.Run, D.Upserted;
    var u := Announced(f);
    if u.Some? {
      RunOne(d, D.Upsert(AsUpdate(u.value), now));
    } else {
      RunOne(d, D.Favorite(0, false));
    }
  }

  lemma CollectRun(s: Loop, f: Frame, d: D.Directory)
    ensures Collect(s.(dir := d), f).dir ==
            if f.Parsed? && f.body.ConfigComplete? && s.collecting
            then D.Run(d, [D.Replace(ExtractDirectory(s.frames + [f]))]) else d
  {
    RunOne(d, D.Replace(ExtractDirectory(s.frames + [f])));
  }

  lemma StepDirectory(s: Loop, e: Event)
    ensures Step(s, e).dir == D.Run(s.dir, Operations(s, e))
  {
    hide D.Run, Measured, Identified, Heard, Collect;
    match e
    case Received(f, now, readings) =>
      var a, b := Measured(f, now, readings), Identified(f, now);
      HeardRun(f, s.dir, now, readings);
      IdentifiedRun(f, Heard(f, s.dir, now, readings), now);
      RunDirectory(s.dir, a, b);
      var t := Observe(s, f, now, readings);
      CollectRun(t, f, t.dir);
      RunDirectory(s.dir, a + b, Operations(s, e)[|a + b|..]);
      assert Operations(s, e) == (a + b) + Operations(s, e)[|a + b|..];
      RunOne(t.dir, D.Favorite(0, false));
    case Favored(num, fav) => RunOne(s.dir, D.Favorite(num, fav));
    case _ => RunOne(s.dir, D.Favorite(0, false));
  }

  /** On every run the node directory is that of the readings, identities,
      publications and favorites of the run, the node's own number is the last one
      received, the frame metric that of the last publication, and the link state
      that of the last connection event. */
  lemma {:induction false} FieldsFollowRun(es: seq<Event>)
    ensures Run(es).dir == D.Run(D.EMPTY, DirectoryEvents(es))
    ensures Run(es).myNodeNum == MyNum(es) && Run(es).cachedFrames == LastPublished(es)
    ensures Run(es).connected == LinkUp(es) && (Ready(Run(es)) <==> LinkUp(es) && LastPublished(es) > 0)
    decreases es
  {
    hide Step, Operations, D.Run, Publishes;
    if es == [] {
      RunOne(D.EMPTY, D.Favorite(0, false));
    } else {
      var init, e := es[..|es| - 1], es[|es| - 1];
      FieldsFollowRun(init);
      StepDirectory(Run(init), e);
      RunDirectory(D.EMPTY, DirectoryEvents(init), Operations(Run(init), e));
      StepFields(Run(init), e);
    }
  }

  lemma StepFields(s: Loop, e: Event)
    ensures var t := Step(s, e);
            && t.myNodeNum == (match e
                               case Received(Parsed(_, MyInfo(n, _)), _, _) => if n != 0 then n else s.myNodeNum
                               case _ => s.myNodeNum)
            && t.cachedFrames == (if Publishes(s, e) then |t.cache| else s.cachedFrames)
            && t.connected == (match e case Connected => true case Disconnected => false case _ => s.connected)
  {
    hide ExtractDirectory, D.Touched, D.Upserted, D.Replaced, D.Favored, Upsert;
  }

  // ---------------------------------------------- what a publication contains

  function Frames(es: seq<Event>): Cache {
    if es == [] then []
    else Frames(es[..|es| - 1]) + if es[|es| - 1].Received? then [es[|es| - 1].frame] else []
  }

  /** From event k on, one uninterrupted handshake is being received. */
  predicate Handshake(es: seq<Event>, k: nat) {
    && k < |es|
    && es[k].Received? && es[k].frame.IsMyInfo()
    && forall i :: k < i < |es| ==>
         es[i].Favored? || Continues(es[i])
  }

  lemma HandshakeStep(es: seq<Event>, k: nat)
    requires k < |es|
    ensures var init, e := es[..|es| - 1], es[|es| - 1];
            Handshake(es, k) <==>
              if k == |init| then e.Received? && e.frame.IsMyInfo()
              else Handshake(init, k) && (e.Favored? || Continues(e))
  {
    var init := es[..|es| - 1];
    assert forall i :: 0 <= i < |init| ==> init[i] == es[i];
  }

  lemma FramesStep(es: seq<Event>, k: nat)
    requires k < |es|
    ensures var init, e := es[..|es| - 1], es[|es| - 1];
            Frames(es[k..]) == Frames(init[k..]) + if e.Received? then [e.frame] else []
  {
    assert es[k..][..|es| - 1 - k] == es[..|es| - 1][k..];
  }

  lemma StepFrames(s: Loop, e: Event)
    ensures var t := Step(s, e);
            && t.collecting == (if e.Received? && e.frame.IsMyInfo() then true
                                else s.collecting && (e.Favored? || Continues(e)))
            && (t.collecting ==>
                t.frames == if !e.Received? then s.frames
                            else if e.frame.IsMyInfo() then [e.frame]
                            else s.frames + [e.frame])
  {
  }

  /** The loop collects only while a handshake is under way... */
  lemma {:induction false} CollectingMeansHandshake(es: seq<Event>) returns (k: nat)
    requires Run(es).collecting
    ensures Handshake(es, k)
    decreases es
  {
    var init, e := es[..|es| - 1], es[|es| - 1];
    StepFrames(Run(init), e);
    if e.Received? && e.frame.IsMyInfo() {
      k := |init|;
    } else {
      k := CollectingMeansHandshake(init);
      HandshakeStep(es, k);
    }
  }

  /** ...and then holds exactly the frames received since its my_info. */
  lemma {:induction false} HandshakeIsCollected(es: seq<Event>, k: nat)
    requires Handshake(es, k)
    ensures Run(es).collecting && Run(es).frames == Frames(es[k..])
    decreases es
  {
    var init, e := es[..|es| - 1], es[|es| - 1];
    StepFrames(Run(init), e);
    HandshakeStep(es, k);
    FramesStep(es, k);
    if k == |init| {
      assert init[k..] == [];
    } else {
      HandshakeIsCollected(init, k);
    }
  }

  predicate Continues(e: Event) {
    e.Received? && !e.frame.IsMyInfo() && !e.frame.IsComplete()
  }

  /** A publication is exactly the handshake: my_info, everything received after
      it, and the closing config_complete_id. */
  lemma PublishesHandshake(es: seq<Event>, k: nat, done: Event)
    requires Handshake(es, k) && done.Received? && done.frame.IsComplete()
    ensures Run(es + [done]).cache == Frames(es[k..]) + [done.frame]
  {
    HandshakeIsCollected(es, k);
    assert (es + [done])[..|es|] == es;
  }
}
