/** The proxy's state as a function of what happened to it: each queue, log and
    snapshot in Hub is tied to a list read off the run's events alone. */
module Traces {
  import opened Wrappers
  import opened Radio
  import opened ReplayFilter
  import opened Clients
  import opened Hub
  import opened Guarantees

  // -------------------------------------------------------------- the node's side

  /** The node events the read loop handled: all but frames that find it still
      blocked on the one before. */
  function NodeTrace(k: Settings, es: seq<Event>): seq<NodeLoop.Event> {
    if es == [] then []
    else
      var s, e := Reached(k, es[..|es| - 1]), es[|es| - 1];
      NodeTrace(k, es[..|es| - 1]) +
      if !e.NodeEvent? || (e.e.Received? && s.pushing.Some?) then [] else [e.e]
  }

  lemma LoopStep(k: Settings, s: State, e: Event)
    ensures Next(k, s, e).loop ==
            if !e.NodeEvent? || (e.e.Received? && s.pushing.Some?) then s.loop else NodeLoop.Step(s.loop, e.e)
  {
    hide NodeLoop.Step, ChatCache.Cached, AsFromRadio, ClientStep, Clients.Send;
  }

  /** The read loop of the proxy is the node loop run on those events. */
  lemma {:induction false} LoopFollows(k: Settings, es: seq<Event>)
    ensures Reached(k, es).loop == NodeLoop.Run(NodeTrace(k, es))
    decreases es
  {
    hide Next, NodeLoop.Step;
    if es != [] {
      var init, e := es[..|es| - 1], es[|es| - 1];
      LoopFollows(k, init);
      LoopStep(k, Reached(k, init), e);
      var t := NodeTrace(k, es);
      if t != NodeTrace(k, init) {
        assert t[..|t| - 1] == NodeTrace(k, init);
      }
    }
  }

  /** broadcastLoop is ready to take a frame. */
  predicate Takes(s: State) {
    s.fromNode != [] && s.pending.None? && BroadcastLoop !in s.casts
  }

  /** The frames between the node and the broadcast loop, as one queue. */
  function Pipeline(k: Settings, es: seq<Event>): seq<Frame> {
    if es == [] then []
    else
      var s, q := Reached(k, es[..|es| - 1]), Pipeline(k, es[..|es| - 1]);
      match es[|es| - 1]
      case NodeEvent(Received(f, _, _)) => if s.pushing.None? then q + [f] else q
      case NodeEvent(Disconnected) => []
      case HubTake => if Takes(s) && q != [] then q[1..] else q
      case _ => q
  }

  function Held(f: Option<Frame>): seq<Frame> {
    if f.Some? then [f.value] else []
  }

  lemma NodeQueue(k: Settings, s: State, e: NodeLoop.Event)
    ensures var t := NodeStepped(s, e);
            match e
            case Received(f, _, _) =>
              t.fromNode == s.fromNode && t.pushing == if s.pushing.None? then Some(f) else s.pushing
            case Disconnected => t.fromNode == [] && t.pushing == None
            case _ => t.fromNode == s.fromNode && t.pushing == s.pushing
  {
    hide NodeLoop.Step;
  }

  lemma TakenQueue(k: Settings, s: State)
    ensures var t := Taken(k, s);
            t.pushing == s.pushing && t.fromNode == if Takes(s) then s.fromNode[1..] else s.fromNode
  {
    hide ChatCache.Cached;
  }

  lemma OtherQueue(k: Settings, s: State, e: Event)
    requires !e.NodeEvent? && !e.NodePush? && !e.HubTake?
    ensures Next(k, s, e).fromNode == s.fromNode && Next(k, s, e).pushing == s.pushing
  {
    hide ChatCache.Cached, AsFromRadio, ClientStep, Clients.Send, NodeStepped, Taken, Pushed;
  }

  lemma PipelineStep(k: Settings, s: State, e: Event)
    requires |s.fromNode| <= k.fromBuffer
    ensures var t, q := Next(k, s, e), s.fromNode + Held(s.pushing);
            && |t.fromNode| <= k.fromBuffer
            && t.fromNode + Held(t.pushing) ==
               match e
               case NodeEvent(Received(f, _, _)) => if s.pushing.None? then q + [f] else q
               case NodeEvent(Disconnected) => []
               case HubTake => if Takes(s) then q[1..] else q
               case _ => q
  {
    hide NodeStepped, Taken, ClientStep, Accepted, Spoken, EchoStarted, Forwarded, Resumed, CastStarted;
    hide CastSent, CastResumed, CastEnded, CloseEnded, Next;
    match e
    case NodeEvent(n) => NodeQueue(k, s, n); NodeNext(k, s, n);
    case HubTake => TakenQueue(k, s); TakeNext(k, s);
    case NodePush => PushNext(k, s);
    case _ => OtherQueue(k, s, e);
  }

  lemma NodeNext(k: Settings, s: State, n: NodeLoop.Event)
    ensures Next(k, s, NodeEvent(n)) == NodeStepped(s, n)
  {
  }

  lemma TakeNext(k: Settings, s: State)
    ensures Next(k, s, HubTake) == Taken(k, s)
  {
  }

  lemma PushNext(k: Settings, s: State)
    ensures Next(k, s, NodePush) == Pushed(k, s)
  {
  }

  /** The bounded channel with its blocked sender is that queue: nothing is lost or
      reordered but by a disconnect, which empties it. */
  lemma {:induction false} PipelineHolds(k: Settings, es: seq<Event>)
    ensures var s := Reached(k, es);
            s.fromNode + Held(s.pushing) == Pipeline(k, es) && |s.fromNode| <= k.fromBuffer
    decreases es
  {
    hide Next;
    if es != [] {
      PipelineHolds(k, es[..|es| - 1]);
      PipelineStep(k, Reached(k, es[..|es| - 1]), es[|es| - 1]);
    }
  }

  // ------------------------------------------------------- frames that pass through

  /** A frame the broadcast loop took, or a client's message its read loop forwarded,
      with the node number and the clock then. */
  datatype Passage =
    | FromNode(frame: Frame)
    | FromClient(id: nat, msg: ToRadio, my: U32, now: U32, room: bool)

  function Passages(k: Settings, es: seq<Event>): seq<Passage> {
    if es == [] then []
    else
      var init := es[..|es| - 1];
      Passages(k, init) + Passing(Reached(k, init), es[|es| - 1], Pipeline(k, init), NodeLoop.MyNum(NodeTrace(k, init)))
  }

  function Passing(s: State, e: Event, q: seq<Frame>, my: U32): seq<Passage> {
    match e
    case HubTake => if Takes(s) && q != [] then [FromNode(q[0])] else []
    case Forward(id, now, room) =>
      if id in s.readers && s.readers[id].Forwarding? then [FromClient(id, s.readers[id].msg, my, now, room)] else []
    case _ => []
  }

  /** A client's packet as other clients see it: the sender and the receive time are
      filled in where they are zero. */
  function Seen(p: Packet, my: U32, now: U32): Frame {
    Parsed(0, PacketFrame(Packet(if p.from == 0 then my else p.from, p.id, if p.rxTime == 0 then now else p.rxTime,
                                 p.rxRssi, p.content, p.rest)))
  }

  /** The chat in one passage: a text packet either way, or an error-free routing ACK
      from the node that names a packet. */
  function ChatIn(x: Passage): seq<ChatCache.Event> {
    match x
    case FromNode(Parsed(n, PacketFrame(Packet(a, b, c, d, Decoded(r, Text(text)), z)))) =>
      [ChatCache.Message(Parsed(n, PacketFrame(Packet(a, b, c, d, Decoded(r, Text(text)), z))))]
    case FromNode(Parsed(n, PacketFrame(Packet(a, b, c, d, Decoded(r, RoutingApp(ErrorReason(0))), z)))) =>
      if r == 0 then []
      else [ChatCache.Ack(r, Parsed(n, PacketFrame(Packet(a, b, c, d, Decoded(r, RoutingApp(ErrorReason(0))), z))))]
    case FromClient(_, ToPacket(p), my, now, _) =>
      if p.content.Decoded? && p.content.app.Text? then [ChatCache.Message(Seen(p, my, now))] else []
    case _ => []
  }

  function ChatTrace(xs: seq<Passage>): seq<ChatCache.Event> {
    if xs == [] then [] else ChatTrace(xs[..|xs| - 1]) + ChatIn(xs[|xs| - 1])
  }

  /** What goes to the node: every client message that found room, with its sender. */
  function OutTrace(xs: seq<Passage>): seq<Outgoing> {
    if xs == [] then []
    else
      OutTrace(xs[..|xs| - 1]) +
      match xs[|xs| - 1] case FromClient(id, msg, _, _, true) => [Outgoing(msg, id)] case _ => []
  }

  /** What is broadcast: every frame from the node that is no config frame. */
  function CastTrace(xs: seq<Passage>): seq<Frame> {
    if xs == [] then []
    else
      CastTrace(xs[..|xs| - 1]) +
      match xs[|xs| - 1]
      case FromNode(Unparseable(raw)) => [Unparseable(raw)]
      case FromNode(Parsed(n, PacketFrame(p))) => [Parsed(n, PacketFrame(p))]
      case FromNode(Parsed(n, Status(a, b))) => [Parsed(n, Status(a, b))]
      case FromNode(Parsed(n, Unknown(b))) => [Parsed(n, Unknown(b))]
      case _ => []
  }

  lemma OneChat(xs: seq<Passage>, x: Passage)
    ensures ChatTrace(xs + [x]) == ChatTrace(xs) + ChatTrace([x]) && ChatTrace([x]) == ChatIn(x)
  {
    hide ChatIn;
    assert (xs + [x])[..|xs|] == xs && [x][..0] == [];
  }

  lemma OneOut(xs: seq<Passage>, x: Passage)
    ensures OutTrace(xs + [x]) == OutTrace(xs) + OutTrace([x])
  {
    assert (xs + [x])[..|xs|] == xs && [x][..0] == [];
  }

  lemma OneCast(xs: seq<Passage>, x: Passage)
    ensures CastTrace(xs + [x]) == CastTrace(xs) + CastTrace([x])
  {
    assert (xs + [x])[..|xs|] == xs && [x][..0] == [];
  }

  lemma OnePassage(xs: seq<Passage>, x: Passage)
    ensures ChatTrace(xs + [x]) == ChatTrace(xs) + ChatTrace([x]) && ChatTrace([x]) == ChatIn(x)
    ensures OutTrace(xs + [x]) == OutTrace(xs) + OutTrace([x])
    ensures CastTrace(xs + [x]) == CastTrace(xs) + CastTrace([x])
  {
    hide ChatTrace, OutTrace, CastTrace, ChatIn;
    OneChat(xs, x);
    OneOut(xs, x);
    OneCast(xs, x);
  }

  lemma MorePassages(xs: seq<Passage>, ys: seq<Passage>)
    requires |ys| <= 1
    ensures ChatTrace(xs + ys) == ChatTrace(xs) + ChatTrace(ys)
    ensures OutTrace(xs + ys) == OutTrace(xs) + OutTrace(ys)
    ensures CastTrace(xs + ys) == CastTrace(xs) + CastTrace(ys)
  {
    if ys == [] {
      assert xs + ys == xs;
    } else {
      assert ys == [ys[0]];
      OnePassage(xs, ys[0]);
    }
  }

  lemma ForwardPasses(k: Settings, s: State, id: nat, now: U32, room: bool)
    requires id in s.readers && s.readers[id].Forwarding?
    ensures var t, msg := Forwarded(k, s, id, now, room), s.readers[id].msg;
            && t.heard == s.heard + ChatIn(FromClient(id, msg, s.loop.myNodeNum, now, room))
            && t.toNode == s.toNode + (if room then [Outgoing(msg, id)] else [])
            && t.pending == s.pending
  {
    hide ChatCache.Cached;
  }

  lemma TakePasses(k: Settings, s: State)
    requires Takes(s)
    ensures var t, x := Taken(k, s), FromNode(s.fromNode[0]);
            && t.heard == s.heard + ChatIn(x) && t.toNode == s.toNode && Held(t.pending) == CastTrace([x])
  {
    hide ChatCache.Cached;
    assert [FromNode(s.fromNode[0])][..0] == [];
  }

  lemma OtherPasses(k: Settings, s: State, e: Event)
    requires !e.Forward? && !e.HubTake?
    ensures var t := Next(k, s, e);
            t.heard == s.heard && t.toNode == s.toNode && (e.HubStart? || t.pending == s.pending)
  {
    hide NodeLoop.Step, AsFromRadio, ClientStep, Clients.Send, Forwarded, Taken;
  }

  lemma PassingOne(k: Settings, es: seq<Event>) returns (ys: seq<Passage>)
    requires es != []
    ensures var init := es[..|es| - 1];
            var s, e := Reached(k, init), es[|es| - 1];
            && Passages(k, es) == Passages(k, init) + ys && |ys| <= 1
            && ys == match e
                     case HubTake => if Takes(s) then [FromNode(s.fromNode[0])] else []
                     case Forward(id, now, room) =>
                       if id in s.readers && s.readers[id].Forwarding?
                       then [FromClient(id, s.readers[id].msg, s.loop.myNodeNum, now, room)] else []
                     case _ => []
  {
    hide Next, NodeLoop.Run, NodeTrace, Pipeline;
    var init := es[..|es| - 1];
    PipelineHolds(k, init);
    LoopFollows(k, init);
    NodeLoop.FieldsFollowRun(NodeTrace(k, init));
    ys := Passing(Reached(k, init), es[|es| - 1], Pipeline(k, init), NodeLoop.MyNum(NodeTrace(k, init)));
  }

  /** All chat handled is the chat of the frames that passed, in order, and nothing
      else; so is all that was queued for the node. */
  lemma {:induction false} PassagesHold(k: Settings, es: seq<Event>)
    ensures Reached(k, es).heard == ChatTrace(Passages(k, es))
    ensures Reached(k, es).toNode == OutTrace(Passages(k, es))
    decreases es
  {
    hide Next, Passages, ChatIn, Forwarded, Taken, ChatTrace, OutTrace, CastTrace;
    if es == [] {
      NoPassages(k);
    } else {
      var init, e := es[..|es| - 1], es[|es| - 1];
      PassagesHold(k, init);
      var s := Reached(k, init);
      var ys := PassingOne(k, es);
      MorePassages(Passages(k, init), ys);
      StepPasses(k, s, e, ys);
    }
  }

  lemma NoPassages(k: Settings)
    ensures Passages(k, []) == [] && ChatTrace([]) == [] && OutTrace([]) == [] && CastTrace([]) == []
  {
  }

  lemma StepPasses(k: Settings, s: State, e: Event, ys: seq<Passage>)
    requires ys == match e
                   case HubTake => if Takes(s) then [FromNode(s.fromNode[0])] else []
                   case Forward(id, now, room) =>
                     if id in s.readers && s.readers[id].Forwarding?
                     then [FromClient(id, s.readers[id].msg, s.loop.myNodeNum, now, room)] else []
                   case _ => []
    ensures Next(k, s, e).heard == s.heard + ChatTrace(ys) && Next(k, s, e).toNode == s.toNode + OutTrace(ys)
  {
    hide Next, ChatIn, Forwarded, Taken;
    PassageNext(k, s, e);
    if ys == [] {
      Idles(k, s, e);
    } else {
      SinglePassage(ys[0]);
      assert ys == [ys[0]];
      if e.Forward? {
        ForwardPasses(k, s, e.id, e.now, e.room);
      } else {
        TakePasses(k, s);
      }
    }
  }

  lemma SinglePassage(x: Passage)
    ensures ChatTrace([x]) == ChatIn(x)
    ensures OutTrace([x]) == match x case FromClient(id, msg, _, _, true) => [Outgoing(msg, id)] case _ => []
  {
    assert [x][..0] == [];
  }

  lemma PassageNext(k: Settings, s: State, e: Event)
    ensures e.Forward? ==> Next(k, s, e) == Forwarded(k, s, e.id, e.now, e.room)
    ensures e.HubTake? ==> Next(k, s, e) == Taken(k, s)
  {
  }

  lemma Idles(k: Settings, s: State, e: Event)
    requires e.HubTake? ==> !Takes(s)
    requires e.Forward? ==> !(e.id in s.readers && s.readers[e.id].Forwarding?)
    ensures Next(k, s, e).heard == s.heard && Next(k, s, e).toNode == s.toNode
  {
    hide NodeLoop.Step, AsFromRadio, ClientStep, Clients.Send, ChatCache.Cached;
  }

  // ------------------------------------------------------ passes over the registry

  datatype Echoed = Echoed(id: nat, packet: Packet)

  /** One broadcast or echo as it began: the frame and everyone it is for. */
  datatype Pass = Pass(frame: Frame, targets: set<nat>, echo: Option<Echoed>)

  function PassTrace(k: Settings, es: seq<Event>): seq<Pass> {
    if es == [] then []
    else
      var init := es[..|es| - 1];
      PassTrace(k, init) + Starting(Reached(k, init), es[|es| - 1], NodeLoop.MyNum(NodeTrace(k, init)))
  }

  /** A broadcast is for every registered client; an echo for every one but the
      sender, and of the sender's packet as others see it. */
  function Starting(s: State, e: Event, my: U32): seq<Pass> {
    match e
    case HubStart =>
      if s.pending.Some? && BroadcastLoop !in s.casts then [Pass(s.pending.value, s.registry, None)] else []
    case EchoStart(id, now) =>
      if Echoes(s, id) then
        var p := s.readers[id].echo.packet;
        [Pass(Seen(p, my, now), (set c | c in s.registry && c != id), Some(Echoed(id, p)))]
      else []
    case _ => []
  }

  predicate Echoes(s: State, id: nat) {
    id in s.readers && s.readers[id].Echoing? && s.readers[id].echo.ToPacket? && ReadLoop(id) !in s.casts
  }

  predicate OfPass(x: Source, n: nat) {
    (x.Broadcast? || x.Echo?) && x.n == n
  }

  /** How often a client was offered something in the n-th pass. */
  function Offers(xs: seq<Item>, n: nat): nat {
    if xs == [] then 0 else Offers(xs[..|xs| - 1], n) + if OfPass(xs[|xs| - 1].source, n) then 1 else 0
  }

  /** The n-th pass is under way and has not come to client id. */
  ghost predicate Awaits(s: State, n: nat, id: nat) {
    exists a :: a in s.casts && OfPass(s.casts[a].source, n) && id in s.casts[a].remaining
  }

  predicate ItemFollows(x: Item, ps: seq<Pass>) {
    x.source.Replayed? ||
    (x.source.n < |ps| && x.frame == ps[x.source.n].frame && (x.source.Echo? <==> ps[x.source.n].echo.Some?))
  }

  predicate CastFollows(a: Actor, x: Cast, ps: seq<Pass>) {
    && !x.source.Replayed? && x.source.n < |ps|
    && ItemFollows(Item(x.frame, x.source), ps)
    && x.remaining <= ps[x.source.n].targets
    && (if a.ReadLoop? then ps[x.source.n].echo.Some? && ps[x.source.n].echo.value.id == a.id
        else ps[x.source.n].echo.None?)
  }

  /** What a client was offered outside replays is one item of each pass that was for
      it and has come to it. */
  ghost predicate OffersFollow(s: State, ps: seq<Pass>, offered: seq<Item>, id: nat) {
    && (forall x :: x in offered ==> ItemFollows(x, ps))
    && forall n :: 0 <= n < |ps| ==> Offers(offered, n) == if id in ps[n].targets && !Awaits(s, n, id) then 1 else 0
  }

  ghost predicate PassInv(s: State, ps: seq<Pass>) {
    && s.passes == |ps|
    && (forall a :: a in s.casts ==> CastFollows(a, s.casts[a], ps))
    && (forall a, b :: a in s.casts && b in s.casts && s.casts[a].source.n == s.casts[b].source.n ==> a == b)
    && (forall n :: 0 <= n < |ps| ==> ps[n].targets <= s.clients.Keys)
    && forall id :: id in s.clients ==> OffersFollow(s, ps, s.clients[id].offered, id)
  }

  lemma OffersSnoc(xs: seq<Item>, x: Item, n: nat)
    ensures Offers(xs + [x], n) == Offers(xs, n) + if OfPass(x.source, n) then 1 else 0
  {
    assert (xs + [x])[..|xs|] == xs;
  }

  lemma {:induction false} NoOffersYet(xs: seq<Item>, ps: seq<Pass>, n: nat)
    requires (forall x :: x in xs ==> ItemFollows(x, ps)) && n >= |ps|
    ensures Offers(xs, n) == 0
  {
    if xs != [] {
      NoOffersYet(xs[..|xs| - 1], ps, n);
      assert xs[|xs| - 1] in xs;
    }
  }

  predicate OnlyReplayed(xs: seq<Item>, ys: seq<Item>) {
    ys == xs || (ys != [] && ys == xs + [ys[|ys| - 1]] && ys[|ys| - 1].source.Replayed?)
  }

  /** A step in which no pass begins or comes to anyone. */
  ghost predicate NoPass(s: State, t: State) {
    && t.passes == s.passes
    && (forall a :: a in t.casts ==>
          && a in s.casts && t.casts[a].frame == s.casts[a].frame
          && t.casts[a].source == s.casts[a].source && t.casts[a].remaining == s.casts[a].remaining)
    && (forall a :: a in s.casts && a !in t.casts ==> s.casts[a].remaining == {})
    && s.clients.Keys <= t.clients.Keys
    && forall id :: id in t.clients ==>
         if id in s.clients then OnlyReplayed(s.clients[id].offered, t.clients[id].offered)
         else t.clients[id].offered == []
  }

  lemma SameAwaits(s: State, t: State, n: nat, id: nat)
    requires NoPass(s, t)
    ensures Awaits(t, n, id) == Awaits(s, n, id)
  {
    if Awaits(s, n, id) {
      var a :| a in s.casts && OfPass(s.casts[a].source, n) && id in s.casts[a].remaining;
      assert a in t.casts && OfPass(t.casts[a].source, n) && id in t.casts[a].remaining;
    }
  }

  lemma NoPassOffers(s: State, t: State, ps: seq<Pass>, id: nat)
    requires PassInv(s, ps) && NoPass(s, t) && id in t.clients
    ensures OffersFollow(t, ps, t.clients[id].offered, id)
  {
    var ys := t.clients[id].offered;
    var xs := if id in s.clients then s.clients[id].offered else [];
    assert id in s.clients ==> OffersFollow(s, ps, xs, id);
    forall n | 0 <= n < |ps|
      ensures Offers(ys, n) == if id in ps[n].targets && !Awaits(t, n, id) then 1 else 0
    {
      SameAwaits(s, t, n, id);
      if ys != xs {
        OffersSnoc(xs, ys[|ys| - 1], n);
      }
    }
  }

  lemma NoPassKeeps(s: State, t: State, ps: seq<Pass>)
    requires PassInv(s, ps) && NoPass(s, t)
    ensures PassInv(t, ps)
  {
    hide OffersFollow, OnlyReplayed;
    forall id | id in t.clients ensures OffersFollow(t, ps, t.clients[id].offered, id) {
      NoPassOffers(s, t, ps, id);
    }
    forall a | a in t.casts ensures CastFollows(a, t.casts[a], ps) {
      assert CastFollows(a, s.casts[a], ps);
    }
  }

  /** Actor a begins the pass p. */
  ghost predicate Begun(s: State, t: State, a: Actor, p: Pass) {
    && a !in s.casts && t.passes == s.passes + 1 && t.clients == s.clients
    && p.targets <= s.clients.Keys
    && a in t.casts && t.casts == s.casts[a := t.casts[a]]
    && t.casts[a].frame == p.frame && t.casts[a].remaining == p.targets
    && t.casts[a].source == (if a.ReadLoop? then Echo(s.passes) else Broadcast(s.passes))
    && (if a.ReadLoop? then p.echo.Some? && p.echo.value.id == a.id else p.echo.None?)
  }

  lemma BegunKeeps(s: State, t: State, a: Actor, p: Pass, ps: seq<Pass>)
    requires PassInv(s, ps) && Begun(s, t, a, p)
    ensures PassInv(t, ps + [p])
  {
    var qs := ps + [p];
    forall b | b in t.casts ensures CastFollows(b, t.casts[b], qs) {
      if b != a {
        assert CastFollows(b, s.casts[b], ps);
      }
    }
    forall b, c | b in t.casts && c in t.casts && t.casts[b].source.n == t.casts[c].source.n ensures b == c {
      assert b != a ==> CastFollows(b, s.casts[b], ps);
      assert c != a ==> CastFollows(c, s.casts[c], ps);
    }
    forall id | id in t.clients ensures OffersFollow(t, qs, t.clients[id].offered, id) {
      BegunOffers(s, t, a, p, ps, id);
    }
  }

  lemma BegunOffers(s: State, t: State, a: Actor, p: Pass, ps: seq<Pass>, id: nat)
    requires PassInv(s, ps) && Begun(s, t, a, p) && id in s.clients
    ensures OffersFollow(t, ps + [p], s.clients[id].offered, id)
  {
    var xs := s.clients[id].offered;
    assert OffersFollow(s, ps, xs, id);
    forall n | 0 <= n < |ps + [p]|
      ensures Offers(xs, n) == if id in (ps + [p])[n].targets && !Awaits(t, n, id) then 1 else 0
    {
      if n == |ps| {
        NoOffersYet(xs, ps, n);
        assert id in p.targets ==> OfPass(t.casts[a].source, n) && id in t.casts[a].remaining;
      } else {
        assert Awaits(t, n, id) == Awaits(s, n, id) by {
          assert !OfPass(t.casts[a].source, n);
          assert forall b :: b in s.casts ==> t.casts[b] == s.casts[b];
        }
      }
    }
  }

  /** Actor a's pass comes to client id. */
  ghost predicate CameTo(s: State, t: State, a: Actor, id: nat) {
    && a in s.casts && id in s.clients && id in s.casts[a].remaining && t.passes == s.passes
    && a in t.casts && t.casts == s.casts[a := t.casts[a]]
    && t.casts[a].frame == s.casts[a].frame && t.casts[a].source == s.casts[a].source
    && t.casts[a].remaining == s.casts[a].remaining - {id}
    && t.clients.Keys == s.clients.Keys
    && (forall d :: d in s.clients && d != id ==> t.clients[d].offered == s.clients[d].offered)
    && t.clients[id].offered == s.clients[id].offered + [Item(s.casts[a].frame, s.casts[a].source)]
  }

  lemma CameToKeeps(s: State, t: State, a: Actor, id: nat, ps: seq<Pass>)
    requires PassInv(s, ps) && CameTo(s, t, a, id)
    ensures PassInv(t, ps)
  {
    hide OffersFollow;
    assert CastFollows(a, s.casts[a], ps);
    forall b | b in t.casts ensures CastFollows(b, t.casts[b], ps) {
      assert CastFollows(b, s.casts[b], ps);
    }
    forall d | d in t.clients ensures OffersFollow(t, ps, t.clients[d].offered, d) {
      CameToOffers(s, t, a, id, ps, d);
    }
  }

  lemma CameToOffers(s: State, t: State, a: Actor, id: nat, ps: seq<Pass>, d: nat)
    requires PassInv(s, ps) && CameTo(s, t, a, id) && d in s.clients
    ensures OffersFollow(t, ps, t.clients[d].offered, d)
  {
    var xs, x := s.clients[d].offered, Item(s.casts[a].frame, s.casts[a].source);
    assert OffersFollow(s, ps, xs, d) && CastFollows(a, s.casts[a], ps);
    forall n | 0 <= n < |ps|
      ensures Offers(t.clients[d].offered, n) == if d in ps[n].targets && !Awaits(t, n, d) then 1 else 0
    {
      AwaitsAfter(s, t, a, id, ps, d, n);
      if d == id {
        OffersSnoc(xs, x, n);
      }
    }
  }

  lemma AwaitsAfter(s: State, t: State, a: Actor, id: nat, ps: seq<Pass>, d: nat, n: nat)
    requires PassInv(s, ps) && CameTo(s, t, a, id)
    ensures Awaits(t, n, d) <==> Awaits(s, n, d) && !(d == id && OfPass(s.casts[a].source, n))
    ensures OfPass(s.casts[a].source, n) ==> Awaits(s, n, id)
  {
    if Awaits(s, n, d) && !(d == id && OfPass(s.casts[a].source, n)) {
      var b :| b in s.casts && OfPass(s.casts[b].source, n) && d in s.casts[b].remaining;
      assert b in t.casts && OfPass(t.casts[b].source, n) && d in t.casts[b].remaining;
    }
  }

  /** A step of one client that offers it at most a replay frame and neither asks nor
      closes; `open` if it does not begin a close either. */
  predicate Mild(c: Client, d: Client, open: bool) {
    && OnlyReplayed(c.offered, d.offered) && d.asked == c.asked && d.closed == c.closed
    && (open ==> d.closing == c.closing && d.reason == c.reason)
  }

  lemma ReplayIsMild(k: Settings, c: Client)
    ensures Mild(c, ReplaySend(k, c), false) && ReplaySend(k, c).shut == c.shut
  {
    hide Script;
  }

  lemma LockIsMild(c: Client, i: nat, cache: seq<Frame>)
    ensures Mild(c, Lock(c, i, cache), true) && Lock(c, i, cache).shut == c.shut
  {
  }

  lemma DecisionIsMild(k: Settings, c: Client, entries: seq<ChatCache.Entry>, heard: nat)
    ensures Mild(c, DecideChat(k, c, entries, heard), true) && DecideChat(k, c, entries, heard).shut == c.shut
    ensures Mild(c, Unlock(c), true) && Unlock(c).shut == c.shut
  {
    hide Plan, ChatScript, ShouldReplayChat, Script;
  }

  lemma WriterIsMild(c: Client)
    ensures Mild(c, WriterTake(c), true) && WriterTake(c).shut == c.shut
    ensures Mild(c, WriterDone(c), true) && WriterDone(c).shut == c.shut
    ensures Mild(c, WriterStops(c), true) && WriterStops(c).shut == c.shut && Mild(c, c, true)
  {
  }

  lemma CloseIsMild(c: Client, why: Option<Reason>)
    ensures Mild(c, Closed(c, why), false) && Closed(c, why).shut == c.shut
    ensures Mild(c, ConnClosed(c), true)
  {
  }

  lemma ClientStepMild(k: Settings, s: State, e: Event, c: Client)
    ensures Mild(c, ClientStep(k, s, e, c), !e.CloseStart? && !e.SendReplayFrame?)
    ensures !e.ConnClose? ==> ClientStep(k, s, e, c).shut == c.shut
  {
    hide Mild, ReplaySend, Lock, DecideChat, Unlock, WriterTake, WriterDone, WriterStops, Closed, ConnClosed;
    match e
    case TakeReplayLock(_, i) => LockIsMild(c, i, s.loop.cache);
    case SendReplayFrame(_) => ReplayIsMild(k, c);
    case ChatDecision(_) => DecisionIsMild(k, c, s.chat, |s.heard|);
    case ReleaseReplayLock(_) => DecisionIsMild(k, c, s.chat, |s.heard|);
    case CloseStart(_, why) => CloseIsMild(c, why);
    case ConnClose(_) => CloseIsMild(c, None);
    case _ => WriterIsMild(c);
  }

  lemma ClientOffers(k: Settings, s: State, e: Event, id: nat)
    requires id in s.clients && !e.CastSend?
    ensures id in Next(k, s, e).clients && OnlyReplayed(s.clients[id].offered, Next(k, s, e).clients[id].offered)
  {
    hide Next, ClientStep, Clients.Send;
    ClientAfter(k, s, e, id);
    ClientStepMild(k, s, e, s.clients[id]);
  }

  /** No cast begins or comes to anyone. */
  predicate SameCasts(s: State, t: State) {
    && t.passes == s.passes
    && (forall a :: a in t.casts ==>
          && a in s.casts && t.casts[a].frame == s.casts[a].frame
          && t.casts[a].source == s.casts[a].source && t.casts[a].remaining == s.casts[a].remaining)
    && (forall a :: a in s.casts && a !in t.casts ==> s.casts[a].remaining == {})
  }

  lemma EndSameCasts(s: State, a: Actor)
    ensures SameCasts(s, CastResumed(s, a)) && SameCasts(s, CastEnded(s, a))
  {
  }

  lemma StartsNothing(s: State, id: nat, now: U32)
    ensures !(s.pending.Some? && BroadcastLoop !in s.casts) ==> CastStarted(s) == s
    ensures !Echoes(s, id) ==> EchoStarted(s, id, now) == s
  {
  }

  lemma TrafficSameCasts(k: Settings, s: State, e: Event)
    requires e.Forward? || e.NodeEvent? || e.NodePush? || e.HubTake?
    ensures Next(k, s, e).casts == s.casts && Next(k, s, e).passes == s.passes
  {
    hide NodeLoop.Step, AsFromRadio, ChatCache.Cached;
  }

  lemma RestSameCasts(k: Settings, s: State, e: Event)
    requires !(e.Forward? || e.NodeEvent? || e.NodePush? || e.HubTake? || e.HubStart? || e.EchoStart?)
    requires !(e.CastSend? || e.CastResume? || e.CastEnd?)
    ensures Next(k, s, e).casts == s.casts && Next(k, s, e).passes == s.passes
  {
    hide ClientStep, Ask, Closed, CalledBack;
  }

  lemma StillCasts(k: Settings, s: State, e: Event)
    requires !(e.HubStart? && s.pending.Some? && BroadcastLoop !in s.casts)
    requires !(e.EchoStart? && Echoes(s, e.id)) && !e.CastSend?
    ensures SameCasts(s, Next(k, s, e))
  {
    hide Forwarded, NodeStepped, Pushed, Taken, CastStarted, EchoStarted, CastResumed, CastEnded, ClientStep;
    match e
    case HubStart => StartsNothing(s, 0, 0);
    case EchoStart(id, now) => StartsNothing(s, id, now);
    case CastResume(a) => EndSameCasts(s, a);
    case CastEnd(a) => EndSameCasts(s, a);
    case _ =>
      if e.Forward? || e.NodeEvent? || e.NodePush? || e.HubTake? {
        TrafficSameCasts(k, s, e);
      } else {
        RestSameCasts(k, s, e);
      }
  }

  lemma StillPass(k: Settings, s: State, e: Event)
    requires !(e.HubStart? && s.pending.Some? && BroadcastLoop !in s.casts)
    requires !(e.EchoStart? && Echoes(s, e.id)) && !e.CastSend?
    ensures NoPass(s, Next(k, s, e))
  {
    hide Next, OnlyReplayed;
    StillCasts(k, s, e);
    var t := Next(k, s, e);
    forall id | id in t.clients
      ensures if id in s.clients then OnlyReplayed(s.clients[id].offered, t.clients[id].offered)
              else t.clients[id].offered == []
    {
      if id in s.clients {
        ClientOffers(k, s, e, id);
      } else {
        ClientBorn(k, s, e, id);
      }
    }
    forall id | id in s.clients ensures id in t.clients {
      ClientOffers(k, s, e, id);
    }
  }

  lemma PassComes(k: Settings, s: State, a: Actor, id: nat)
    requires a in s.casts && s.casts[a].stuck.None? && id in s.casts[a].remaining && id in s.clients
    ensures CameTo(s, Next(k, s, CastSend(a, id)), a, id)
  {
    hide Closed;
    SendOffers(k, s.clients[id], Item(s.casts[a].frame, s.casts[a].source));
  }

  lemma SendOffers(k: Settings, c: Client, x: Item)
    ensures Clients.Send(k, c, x).offered == c.offered + [x]
  {
  }

  lemma PassRefused(k: Settings, s: State, a: Actor, id: nat)
    requires !(a in s.casts && s.casts[a].stuck.None? && id in s.casts[a].remaining && id in s.clients)
    ensures Next(k, s, CastSend(a, id)) == s
  {
  }

  lemma PassBegins(k: Settings, s: State, e: Event)
    requires Hub.Inv(k, s) && Starting(s, e, s.loop.myNodeNum) != []
    ensures |Starting(s, e, s.loop.myNodeNum)| == 1
    ensures Begun(s, Next(k, s, e), if e.HubStart? then BroadcastLoop else ReadLoop(e.id),
                  Starting(s, e, s.loop.myNodeNum)[0])
  {
    hide ClientsInv, TrafficInv, CastsInv, NodeLoop.Inv;
  }

  lemma PassStep(k: Settings, s: State, e: Event, ps: seq<Pass>)
    requires Hub.Inv(k, s) && PassInv(s, ps)
    ensures PassInv(Next(k, s, e), ps + Starting(s, e, s.loop.myNodeNum))
  {
    hide Next, PassInv, Hub.Inv, NoPass, Begun, CameTo;
    var starts := Starting(s, e, s.loop.myNodeNum);
    if starts != [] {
      PassBegins(k, s, e);
      assert starts == [starts[0]];
      BegunKeeps(s, Next(k, s, e), if e.HubStart? then BroadcastLoop else ReadLoop(e.id), starts[0], ps);
    } else {
      assert ps + starts == ps;
      if e.CastSend? && e.actor in s.casts && s.casts[e.actor].stuck.None? && e.target in s.casts[e.actor].remaining
         && e.target in s.clients {
        PassComes(k, s, e.actor, e.target);
        CameToKeeps(s, Next(k, s, e), e.actor, e.target, ps);
      } else if e.CastSend? {
        PassRefused(k, s, e.actor, e.target);
      } else {
        StillPass(k, s, e);
        NoPassKeeps(s, Next(k, s, e), ps);
      }
    }
  }

  lemma {:induction false} PassesHold(k: Settings, es: seq<Event>)
    ensures PassInv(Reached(k, es), PassTrace(k, es))
    decreases es
  {
    hide Next, Starting, NodeLoop.Run, NodeTrace;
    if es != [] {
      var init := es[..|es| - 1];
      PassesHold(k, init);
      Reachable(k, init);
      LoopFollows(k, init);
      NodeLoop.FieldsFollowRun(NodeTrace(k, init));
      PassStep(k, Reached(k, init), es[|es| - 1], PassTrace(k, init));
    }
  }

  /** On every run each broadcast and each echo is offered exactly once to every
      client it is for, and to no other: the n-th pass has come to exactly its
      targets but those it still waits for, and once its actor is done with it, to
      all of them. */
  lemma ExactlyOnce(k: Settings, es: seq<Event>, n: nat, id: nat)
    requires n < |PassTrace(k, es)| && id in Reached(k, es).clients
    ensures var s, p := Reached(k, es), PassTrace(k, es)[n];
            var offered := s.clients[id].offered;
            && Offers(offered, n) == (if id in p.targets && !Awaits(s, n, id) then 1 else 0)
            && (forall x :: x in offered && OfPass(x.source, n) ==> x.frame == p.frame)
            && (p.echo.Some? && p.echo.value.id == id ==> Offers(offered, n) == 0)
            && ((forall a :: a in s.casts ==> !OfPass(s.casts[a].source, n)) ==>
                Offers(offered, n) == if id in p.targets then 1 else 0)
  {
    hide RunFrom;
    PassesHold(k, es);
    EchoSpares(k, es, n);
    var s, ps := Reached(k, es), PassTrace(k, es);
    assert OffersFollow(s, ps, s.clients[id].offered, id);
    forall x | x in s.clients[id].offered && OfPass(x.source, n) ensures x.frame == ps[n].frame {
      assert ItemFollows(x, ps);
    }
  }

  lemma {:induction false} EchoSpares(k: Settings, es: seq<Event>, n: nat)
    requires n < |PassTrace(k, es)|
    ensures var p := PassTrace(k, es)[n]; p.echo.Some? ==> p.echo.value.id !in p.targets
    decreases es
  {
    hide RunFrom, NodeTrace;
    if es != [] && n < |PassTrace(k, es[..|es| - 1])| {
      EchoSpares(k, es[..|es| - 1], n);
    }
  }

  // ------------------------------------------------------- everything is broadcast

  function BroadcastFrames(ps: seq<Pass>): seq<Frame> {
    if ps == [] then []
    else BroadcastFrames(ps[..|ps| - 1]) + if ps[|ps| - 1].echo.None? then [ps[|ps| - 1].frame] else []
  }

  lemma MorePasses(ps: seq<Pass>, qs: seq<Pass>)
    requires |qs| <= 1
    ensures BroadcastFrames(ps + qs) == BroadcastFrames(ps) + BroadcastFrames(qs)
  {
    if qs == [] {
      assert ps + qs == ps;
    } else {
      assert (ps + qs)[..|ps|] == ps && qs[..0] == [];
    }
  }

  lemma NoPasses(k: Settings)
    ensures PassTrace(k, []) == [] && BroadcastFrames([]) == []
  {
  }

  lemma PendingStep(k: Settings, s: State, e: Event, ys: seq<Passage>)
    requires ys == match e
                   case HubTake => if Takes(s) then [FromNode(s.fromNode[0])] else []
                   case Forward(id, now, room) =>
                     if id in s.readers && s.readers[id].Forwarding?
                     then [FromClient(id, s.readers[id].msg, s.loop.myNodeNum, now, room)] else []
                   case _ => []
    ensures var t, qs := Next(k, s, e), Starting(s, e, s.loop.myNodeNum);
            && |qs| <= 1
            && Held(s.pending) + CastTrace(ys) == BroadcastFrames(qs) + Held(t.pending)
  {
    hide Next, Forwarded, Taken, CastTrace;
    PassageNext(k, s, e);
    var qs := Starting(s, e, s.loop.myNodeNum);
    assert qs != [] ==> qs[..0] == [];
    SilentPassages(ys);
    if e.HubTake? {
      if Takes(s) {
        TakePasses(k, s);
      } else {
        TakeIdles(k, s);
      }
    } else if e.Forward? {
      ForwardKeepsPending(k, s, e.id, e.now, e.room);
    } else {
      OtherPasses(k, s, e);
      if e.HubStart? {
        StartTakesPending(k, s);
      }
    }
  }

  lemma SilentPassages(ys: seq<Passage>)
    requires |ys| <= 1
    ensures ys == [] || ys[0].FromClient? ==> CastTrace(ys) == []
  {
    if ys != [] {
      assert ys[..0] == [];
    }
  }

  lemma TakeIdles(k: Settings, s: State)
    requires !Takes(s)
    ensures Taken(k, s) == s
  {
  }

  lemma ForwardKeepsPending(k: Settings, s: State, id: nat, now: U32, room: bool)
    ensures Forwarded(k, s, id, now, room).pending == s.pending
  {
    hide ChatCache.Cached, AsFromRadio;
  }

  lemma StartTakesPending(k: Settings, s: State)
    ensures Next(k, s, HubStart).pending == if BroadcastLoop in s.casts then s.pending else None
  {
  }

  /** The frames broadcast, with the one about to be, are in order exactly the frames
      from the node that are no config frames. */
  lemma {:induction false} BroadcastsAll(k: Settings, es: seq<Event>)
    ensures CastTrace(Passages(k, es)) == BroadcastFrames(PassTrace(k, es)) + Held(Reached(k, es).pending)
    decreases es
  {
    hide Next, Passages, Starting, CastTrace, BroadcastFrames, NodeLoop.Run, NodeTrace, Pipeline;
    if es == [] {
      NoPassages(k);
      NoPasses(k);
    } else {
      var init, e := es[..|es| - 1], es[|es| - 1];
      var s := Reached(k, init);
      var ys := PassingOne(k, es);
      BroadcastsAll(k, init);
      LoopFollows(k, init);
      NodeLoop.FieldsFollowRun(NodeTrace(k, init));
      PendingStep(k, s, e, ys);
      MorePassages(Passages(k, init), ys);
      var qs := Starting(s, e, s.loop.myNodeNum);
      MorePasses(PassTrace(k, init), qs);
      var past := BroadcastFrames(PassTrace(k, init));
      Regroup(past, Held(s.pending), CastTrace(ys));
      Regroup(past, BroadcastFrames(qs), Held(Next(k, s, e).pending));
    }
  }
}