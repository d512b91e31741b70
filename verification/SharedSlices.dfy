/** The same cache with Go's slices: a slice is an array and a length, append
    writes in place while there is capacity, and publishing a handshake hands the
    collecting slice itself to the cache (internal/node/connection.go:619). */
module SharedSlices {
  import opened Radio
  import opened ConfigCache
  import NodeLoop

  /** What Go's slice headers say beyond the contents: whether the collecting slice
      has the cache's array, its length, and both capacities. */
  datatype Shape = Shape(shared: bool, framesLen: nat, framesCap: nat, cacheCap: nat)

  const START := Shape(false, 0, 0, 0)

  function Grown(slack: nat -> nat, len: nat, cap: nat): nat {
    if len < cap then cap else len + 1 + slack(len)
  }

  function AfterUpsert(slack: nat -> nat, h: Shape, c: ConfigCache.Cache, u: Update): Shape {
    if |Upsert(c, u)| == |c| || |c| < h.cacheCap then h
    else h.(shared := false, cacheCap := Grown(slack, |c|, h.cacheCap))
  }

  function AfterCollect(slack: nat -> nat, h: Shape, collecting: bool, f: Frame): Shape {
    var cap := Grown(slack, h.framesLen, h.framesCap);
    if f.IsMyInfo() then h.(shared := false, framesLen := 1, framesCap := Grown(slack, 0, 0))
    else if f.IsComplete() then
      if collecting then Shape(true, h.framesLen + 1, cap, cap)
      else h.(shared := h.shared && h.framesLen < h.framesCap, framesLen := h.framesLen + 1, framesCap := cap)
    else if collecting then h.(framesLen := h.framesLen + 1, framesCap := cap)
    else h
  }

  function ShapeStep(slack: nat -> nat, h: Shape, s: NodeLoop.Loop, e: NodeLoop.Event): Shape {
    match e
    case Received(f, now, _) =>
      var who := NodeLoop.Announced(f);
      var g := if who.Some? then AfterUpsert(slack, h, s.cache, Update(who.value, now)) else h;
      AfterCollect(slack, g, s.collecting, f)
    case Favored(_, _) => h
    case _ => h.(shared := false, framesLen := 0, framesCap := 0)
  }

  function ShapeAfter(slack: nat -> nat, es: seq<NodeLoop.Event>): Shape {
    if es == [] then START
    else
      var init := es[..|es| - 1];
      ShapeStep(slack, ShapeAfter(slack, init), NodeLoop.Run(init), es[|es| - 1])
  }

  class Connection {
    var cacheArr: array<Frame>
    var cacheLen: nat
    var framesArr: array<Frame>
    var framesLen: nat
    var collecting: bool

    /** How much spare capacity the runtime leaves when it grows a slice of length
        n: any policy at all. */
    const slack: nat -> nat

    ghost predicate Valid()
      reads this
    {
      && cacheLen <= cacheArr.Length
      && framesLen <= framesArr.Length
      && (collecting ==> framesArr != cacheArr)
    }

    ghost function Cache(): ConfigCache.Cache
      requires Valid()
      reads this, cacheArr
    {
      cacheArr[..cacheLen]
    }

    ghost function Frames(): ConfigCache.Cache
      requires Valid()
      reads this, framesArr
    {
      framesArr[..framesLen]
    }

    /** The collecting slice still covers cells of the cache's array that the cache
        has grown past: the next append to it lands inside the cache. */
    ghost predicate Trapped()
      reads this
    {
      framesArr == cacheArr && framesLen < cacheLen
    }

    ghost function ShapeNow(): Shape
      reads this
    {
      Shape(framesArr == cacheArr, framesLen, framesArr.Length, cacheArr.Length)
    }

    /** The slices hold what the value-level loop says. */
    ghost predicate Matches(s: NodeLoop.Loop)
      reads this, cacheArr, framesArr
    {
      && Valid()
      && Cache() == s.cache
      && collecting == s.collecting
      && (collecting ==> Frames() == s.frames)
    }

    constructor (slack: nat -> nat)
      ensures Valid() && Matches(NodeLoop.START) && fresh(cacheArr) && fresh(framesArr)
      ensures this.slack == slack && ShapeNow() == START
    {
      this.slack := slack;
      cacheArr, cacheLen := new Frame[0], 0;
      framesArr, framesLen := new Frame[0], 0;
      collecting := false;
    }

    /** Go's append of one element. */
    method Append(a: array<Frame>, n: nat, x: Frame) returns (b: array<Frame>)
      requires n <= a.Length
      modifies a
      ensures n < a.Length ==> b == a
      ensures n == a.Length ==> fresh(b) && b.Length == n + 1 + slack(n) && a[..] == old(a[..])
      ensures n < b.Length && b[n] == x
      ensures forall i :: 0 <= i < n ==> b[i] == old(a[i])
      ensures n < a.Length ==> forall i :: 0 <= i < a.Length && i != n ==> a[i] == old(a[i])
    {
      if n < a.Length {
        a[n] := x;
        b := a;
      } else {
        b := new Frame[n + 1 + slack(n)](_ => x);
        forall i | 0 <= i < n {
          b[i] := a[i];
        }
      }
    }

    /** ConfigCache: storage of its own. */
    method Snapshot() returns (snap: array<Frame>)
      requires Valid()
      ensures fresh(snap) && snap[..] == Cache()
    {
      snap := new Frame[cacheLen](i requires 0 <= i < cacheLen <= cacheArr.Length reads this, cacheArr => cacheArr[i]);
    }

    method FindNode(num: U32) returns (i: nat)
      requires Valid()
      ensures i == Find(Cache(), num)
    {
      i := 0;
      while i < cacheLen && !cacheArr[i].IsNodeOf(num)
        invariant i <= cacheLen
        invariant forall j :: 0 <= j < i ==> !Cache()[j].IsNodeOf(num)
      {
        i := i + 1;
      }
      FindUnique(Cache(), num, i);
    }

    /** UpsertCachedNodeInfo, spliced in place. */
    method UpsertCachedNodeInfo(u: Update)
      requires Valid()
      modifies this`cacheArr, this`cacheLen, cacheArr
      ensures Valid()
      ensures Cache() == Upsert(old(Cache()), u)
      ensures cacheArr == old(cacheArr) || fresh(cacheArr)
      ensures ShapeNow() == AfterUpsert(slack, old(ShapeNow()), old(Cache()), u)
    {
      if u.who.num == 0 || cacheLen == 0 {
        return;
      }
      var i := FindNode(u.who.num);
      if i < cacheLen {
        cacheArr[i] := Merge(cacheArr[i], u);
        return;
      }
      InsertNode(u);
    }

    method InsertNode(u: Update)
      requires Valid() && cacheLen > 0 && u.who.num != 0 && Find(Cache(), u.who.num) == cacheLen
      modifies this`cacheArr, this`cacheLen, cacheArr
      ensures Valid()
      ensures Cache() == Upsert(old(Cache()), u)
      ensures cacheArr == old(cacheArr) || fresh(cacheArr)
      ensures ShapeNow() == AfterUpsert(slack, old(ShapeNow()), old(Cache()), u)
    {
      var lastIdx := cacheLen - 1;
      var last := cacheArr[lastIdx];
      if last.IsComplete() {
        // Grow by one and shift the last frame right.
        cacheArr := Append(cacheArr, cacheLen, last);
        cacheLen := cacheLen + 1;
        cacheArr[lastIdx] := Synthesize(u);
      } else {
        cacheArr := Append(cacheArr, cacheLen, Synthesize(u));
        cacheLen := cacheLen + 1;
      }
    }

    method BeginHandshake(f: Frame)
      requires Valid()
      modifies this`framesArr, this`framesLen, this`collecting
      ensures Valid() && collecting && fresh(framesArr)
      ensures Frames() == [f]
      ensures ShapeNow() == old(ShapeNow()).(shared := false, framesLen := 1, framesCap := Grown(slack, 0, 0))
    {
      collecting := true;
      var empty := new Frame[0];
      framesArr := Append(empty, 0, f);
      framesLen := 1;
    }

    method ExtendHandshake(f: Frame)
      requires Valid() && collecting
      modifies this`framesArr, this`framesLen, framesArr
      ensures Valid() && (framesArr == old(framesArr) || fresh(framesArr))
      ensures Frames() == old(Frames()) + [f]
      ensures var h := old(ShapeNow());
              ShapeNow() == h.(framesLen := h.framesLen + 1, framesCap := Grown(slack, h.framesLen, h.framesCap))
    {
      framesArr := Append(framesArr, framesLen, f);
      framesLen := framesLen + 1;
    }

    /** config_complete_id while collecting: the slice itself is handed over. */
    method Publish(f: Frame)
      requires Valid() && collecting
      modifies this`cacheArr, this`cacheLen, this`framesArr, this`framesLen, this`collecting, framesArr
      ensures Valid() && !collecting && (framesArr == old(framesArr) || fresh(framesArr))
      ensures cacheArr == framesArr && cacheLen == framesLen && Cache() == old(Frames()) + [f]
      ensures framesLen == old(framesLen) + 1 && cacheArr.Length == Grown(slack, old(framesLen), old(framesArr.Length))
    {
      ExtendHandshake(f);
      cacheArr, cacheLen := framesArr, framesLen;
      collecting := false;
    }

    /** config_complete_id while nothing is being collected: the append runs anyway.
        The published cache is left alone exactly when the slices are not trapped
        or the cell already holds this frame, and stays well-formed exactly when
        the cell hit is not before its last. */
    method StrayComplete(f: Frame)
      requires Valid() && !collecting && f.IsComplete()
      modifies this`framesArr, this`framesLen, framesArr
      ensures Valid() && (framesArr == old(framesArr) || fresh(framesArr))
      ensures Cache() == if old(Trapped()) then old(Cache())[old(framesLen) := f] else old(Cache())
      ensures Cache() == old(Cache()) <==> !(old(Trapped()) && old(Cache())[old(framesLen)] != f)
      ensures ShapeNow() == AfterCollect(slack, old(ShapeNow()), false, f)
      ensures old(WellFormed(Cache())) ==>
                (WellFormed(Cache()) <==> !(old(Trapped()) && old(framesLen) < old(cacheLen) - 1))
    {
      ghost var before := Cache();
      framesArr := Append(framesArr, framesLen, f);
      framesLen := framesLen + 1;
      assert Cache() == if old(Trapped()) then before[old(framesLen) := f] else before;
    }

    /** The config caching switch of readLoop. */
    method CollectFrame(f: Frame)
      requires Valid()
      modifies this`cacheArr, this`cacheLen, this`framesArr, this`framesLen, this`collecting, framesArr
      ensures Valid()
      ensures cacheArr == old(cacheArr) || cacheArr == old(framesArr) || fresh(cacheArr)
      ensures framesArr == old(framesArr) || fresh(framesArr)
      ensures ShapeNow() == AfterCollect(slack, old(ShapeNow()), old(collecting), f)
      ensures collecting == (f.IsMyInfo() || (old(collecting) && !f.IsComplete()))
      ensures collecting ==> Frames() == if f.IsMyInfo() then [f] else old(Frames()) + [f]
      ensures Cache() ==
                if !f.IsComplete() then old(Cache())
                else if old(collecting) then old(Frames()) + [f]
                else if old(Trapped()) then old(Cache())[old(framesLen) := f]
                else old(Cache())
    {
      if f.IsMyInfo() {
        BeginHandshake(f);
      } else if f.IsComplete() {
        if collecting {
          Publish(f);
        } else {
          StrayComplete(f);
        }
      } else if collecting {
        ExtendHandshake(f);
      }
    }

    /** One event of the read loop. From slices that hold the value-level cache it
        leads to slices that do, unless it is a harmful stray completion: then the
        caches differ. */
    method Iterate(e: NodeLoop.Event, ghost s: NodeLoop.Loop)
      requires Valid()
      modifies this`cacheArr, this`cacheLen, this`framesArr, this`framesLen, this`collecting, cacheArr, framesArr
      ensures Valid()
      ensures old(Matches(s)) ==> ShapeNow() == ShapeStep(slack, old(ShapeNow()), s, e)
      ensures old(Matches(s)) ==> if Harms(old(ShapeNow()), s, e) then Cache() != NodeLoop.Step(s, e).cache
                                  else Matches(NodeLoop.Step(s, e))
      ensures cacheArr in {old(cacheArr), old(framesArr)} || fresh(cacheArr)
      ensures framesArr == old(framesArr) || fresh(framesArr)
    {
      match e
      case Received(f, now, _) =>
        var who := NodeLoop.Announced(f);
        if who.Some? {
          UpsertCachedNodeInfo(Update(who.value, now));
        }
        CollectFrame(f);
      case Favored(_, _) =>
      case _ =>
        collecting := false;
        framesArr, framesLen := new Frame[0], 0;
    }
  }

  /** A config_complete_id outside a handshake. */
  predicate Stray(s: NodeLoop.Loop, e: NodeLoop.Event) {
    e.Received? && e.frame.IsComplete() && !s.collecting
  }

  /** It is appended over a cell of the cache that holds another frame. */
  predicate Harms(h: Shape, s: NodeLoop.Loop, e: NodeLoop.Event) {
    Stray(s, e) && h.shared && h.framesLen < |s.cache| && s.cache[h.framesLen] != e.frame
  }

  predicate Harmless(slack: nat -> nat, es: seq<NodeLoop.Event>, n: nat)
    requires n <= |es|
  {
    forall i :: 0 <= i < n ==> !Harms(ShapeAfter(slack, es[..i]), NodeLoop.Run(es[..i]), es[i])
  }

  predicate AsValues(es: seq<NodeLoop.Event>, caches: seq<ConfigCache.Cache>)
    requires |caches| <= |es| + 1
  {
    forall i :: 0 <= i < |caches| ==> caches[i] == NodeLoop.Run(es[..i]).cache
  }

  /** After n events of es, with the cache as it was after each of them. */
  ghost predicate Followed(c: Connection, es: seq<NodeLoop.Event>, n: nat, caches: seq<ConfigCache.Cache>)
    reads c, c.cacheArr, c.framesArr
  {
    && c.Valid()
    && n <= |es| && |caches| == n + 1 && caches[n] == c.Cache()
    && (AsValues(es, caches) <==> Harmless(c.slack, es, n))
    && (Harmless(c.slack, es, n) ==> c.Matches(NodeLoop.Run(es[..n])) && c.ShapeNow() == ShapeAfter(c.slack, es[..n]))
  }

  lemma OneMore(slack: nat -> nat, es: seq<NodeLoop.Event>, n: nat, caches: seq<ConfigCache.Cache>,
                last: ConfigCache.Cache)
    requires n < |es| && |caches| == n + 1
    ensures NodeLoop.Run(es[..n + 1]) == NodeLoop.Step(NodeLoop.Run(es[..n]), es[n])
    ensures ShapeAfter(slack, es[..n + 1]) == ShapeStep(slack, ShapeAfter(slack, es[..n]), NodeLoop.Run(es[..n]), es[n])
    ensures Harmless(slack, es, n + 1) <==>
              Harmless(slack, es, n) && !Harms(ShapeAfter(slack, es[..n]), NodeLoop.Run(es[..n]), es[n])
    ensures AsValues(es, caches + [last]) <==> AsValues(es, caches) && last == NodeLoop.Run(es[..n + 1]).cache
  {
    hide NodeLoop.Step, ShapeStep, Harms;
    assert es[..n + 1][..n] == es[..n];
    assert forall i :: 0 <= i <= n ==> (caches + [last])[i] == caches[i];
    assert (caches + [last])[n + 1] == last;
  }

  method DriveOn(c: Connection, es: seq<NodeLoop.Event>, from: nat, to: nat, past: seq<ConfigCache.Cache>)
      returns (caches: seq<ConfigCache.Cache>)
    requires from <= to <= |es| && Followed(c, es, from, past)
    modifies c, c.cacheArr, c.framesArr
    ensures Followed(c, es, to, caches) && past <= caches
    ensures c.cacheArr in {old(c.cacheArr), old(c.framesArr)} || fresh(c.cacheArr)
    ensures c.framesArr == old(c.framesArr) || fresh(c.framesArr)
  {
    hide NodeLoop.Step, NodeLoop.Run, ShapeStep, ShapeAfter, Harms, Harmless, AsValues;
    caches := past;
    for i := from to to
      invariant c.cacheArr in {old(c.cacheArr), old(c.framesArr)} || fresh(c.cacheArr)
      invariant c.framesArr == old(c.framesArr) || fresh(c.framesArr)
      invariant Followed(c, es, i, caches) && past <= caches
    {
      c.Iterate(es[i], NodeLoop.Run(es[..i]));
      OneMore(c.slack, es, i, caches, c.cacheArr[..c.cacheLen]);
      caches := caches + [c.cacheArr[..c.cacheLen]];
    }
  }

  /** config_complete_id arrives only during a handshake. */
  predicate StrayFree(es: seq<NodeLoop.Event>) {
    forall i :: 0 <= i < |es| ==> !Stray(NodeLoop.Run(es[..i]), es[i])
  }

  /** A run without stray completions is harmless under every growth policy. */
  lemma StrayFreeIsHarmless(slack: nat -> nat, es: seq<NodeLoop.Event>)
    requires StrayFree(es)
    ensures Harmless(slack, es, |es|)
  {
  }

  /** A whole run on shared slices, for every growth policy, with the cache after
      each event. It is the value-level cache throughout if and only if no stray
      completion of the run was harmful, so in particular if there was none; and a snapshot taken at any point, on any
      run, is never altered by what follows. */
  method Drive(slack: nat -> nat, es: seq<NodeLoop.Event>, cut: nat)
      returns (c: Connection, snap: array<Frame>, caches: seq<ConfigCache.Cache>)
    requires cut <= |es|
    ensures fresh(c) && fresh(snap) && c.slack == slack
    ensures |caches| == |es| + 1 && c.Valid() && c.Cache() == caches[|es|] && snap[..] == caches[cut]
    ensures AsValues(es, caches) <==> Harmless(slack, es, |es|)
    ensures StrayFree(es) ==> Harmless(slack, es, |es|)
    ensures Harmless(slack, es, |es|) ==> c.Matches(NodeLoop.Run(es))
  {
    c := new Connection(slack);
    caches := DriveOn(c, es, 0, cut, [[]]);
    snap := c.Snapshot();
    ghost var before := caches;
    caches := DriveOn(c, es, cut, |es|, caches);
    assert caches[cut] == before[cut];
    if StrayFree(es) {
      StrayFreeIsHarmless(slack, es);
    }
    assert es[..|es|] == es;
  }

  /** With Go's doubling, one stray config_complete_id after two discovered nodes
      deletes the second from the published cache and leaves it two
      ConfigComplete frames. */
  method StrayCompletionDeletesNode(first: Update, second: Update, nonce: U32) returns (c: Connection)
    requires first.who.num != 0 && second.who.num != 0 && first.who.num != second.who.num
    ensures c.Valid() && Find(c.Cache(), first.who.num) < |c.Cache()|
    ensures Find(c.Cache(), second.who.num) == |c.Cache()|
    ensures |c.Cache()| == 7 && c.Cache()[5].IsComplete() && c.Cache()[6].IsComplete()
  {
    var done := Parsed(0, ConfigComplete(nonce));
    c := PublishFive(done);
    ghost var five := c.Cache();
    c.UpsertCachedNodeInfo(first);
    assert c.Cache() == five[..4] + [Synthesize(first), done];
    c.UpsertCachedNodeInfo(second);
    assert c.Cache()[..5] == five[..4] + [Synthesize(first)];
    c.StrayComplete(done);
    FindUnique(c.Cache(), second.who.num, 7);
    FindUnique(c.Cache(), first.who.num, 4);
  }

  /** A five-frame handshake, published into an array of eight cells. */
  method PublishFive(done: Frame) returns (c: Connection)
    requires done.IsComplete()
    ensures fresh(c) && fresh(c.framesArr) && c.Valid() && !c.collecting
    ensures c.cacheArr == c.framesArr && c.framesLen == 5 && c.cacheArr.Length == 8
    ensures |c.Cache()| == 5 && c.Cache()[4] == done && forall i :: 0 <= i < 5 ==> !c.Cache()[i].IsNode()
  {
    var setting := Parsed(0, Setting(Config, []));
    c := new Connection((n: nat) => if n == 0 then 0 else n - 1);
    c.BeginHandshake(Parsed(0, MyInfo(1, [])));
    c.ExtendHandshake(setting);
    c.ExtendHandshake(setting);
    c.ExtendHandshake(setting);
    c.Publish(done);
  }
}
