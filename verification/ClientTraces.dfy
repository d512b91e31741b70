/** One client's side of a run: what it said, what became of each message, why it was
    closed, and what its replays hold, read off the run's events. */
module ClientTraces {
  import opened Wrappers
  import opened Radio
  import opened ReplayFilter
  import opened Clients
  import opened Hub
  import opened Guarantees
  import opened Traces

  // ------------------------------------------------------------ what a client said

  predicate Listens(s: State, id: nat) {
    id in s.clients && id in s.readers && s.readers[id].Idle?
  }

  /** The messages the client's read loop took, in order. */
  function Said(k: Settings, es: seq<Event>, id: nat): seq<ToRadio> {
    if es == [] then []
    else Said(k, es[..|es| - 1], id) + Saying(Reached(k, es[..|es| - 1]), es[|es| - 1], id)
  }

  function Saying(s: State, e: Event, id: nat): seq<ToRadio> {
    match e
    case Speak(i, msg) => if i == id && Listens(s, id) then [msg] else []
    case _ => []
  }

  function Requests(ms: seq<ToRadio>): seq<U32> {
    if ms == [] then []
    else Requests(ms[..|ms| - 1]) + match ms[|ms| - 1] case WantConfigId(n) => [n] case _ => []
  }

  /** The messages meant for the node. */
  function ForNode(ms: seq<ToRadio>): seq<ToRadio> {
    if ms == [] then []
    else
      ForNode(ms[..|ms| - 1]) +
      match ms[|ms| - 1]
      case BadToRadio(raw) => [BadToRadio(raw)]
      case ToPacket(p) => [ToPacket(p)]
      case OtherToRadio(data) => [OtherToRadio(data)]
      case _ => []
  }

  function PacketsOf(ms: seq<ToRadio>): seq<Packet> {
    if ms == [] then []
    else PacketsOf(ms[..|ms| - 1]) + match ms[|ms| - 1] case ToPacket(p) => [p] case _ => []
  }

  /** What the read loop did for the node with this client's messages. */
  function Gone(xs: seq<Passage>, id: nat): seq<ToRadio> {
    if xs == [] then []
    else
      Gone(xs[..|xs| - 1], id) +
      match xs[|xs| - 1] case FromClient(i, msg, _, _, _) => if i == id then [msg] else [] case _ => []
  }

  function EchoesBy(ps: seq<Pass>, id: nat): seq<Packet> {
    if ps == [] then []
    else
      var p := ps[|ps| - 1];
      EchoesBy(ps[..|ps| - 1], id) + if p.echo.Some? && p.echo.value.id == id then [p.echo.value.packet] else []
  }

  lemma MoreRequests(ms: seq<ToRadio>, ns: seq<ToRadio>)
    requires |ns| <= 1
    ensures Requests(ms + ns) == Requests(ms) + Requests(ns)
  {
    if ns == [] {
      assert ms + ns == ms;
    } else {
      assert (ms + ns)[..|ms|] == ms && ns[..0] == [];
    }
  }

  lemma MoreForNode(ms: seq<ToRadio>, ns: seq<ToRadio>)
    requires |ns| <= 1
    ensures ForNode(ms + ns) == ForNode(ms) + ForNode(ns)
  {
    if ns == [] {
      assert ms + ns == ms;
    } else {
      assert (ms + ns)[..|ms|] == ms && ns[..0] == [];
    }
  }

  lemma MoreSaid(ms: seq<ToRadio>, ns: seq<ToRadio>)
    requires |ns| <= 1
    ensures Requests(ms + ns) == Requests(ms) + Requests(ns)
    ensures ForNode(ms + ns) == ForNode(ms) + ForNode(ns)
    ensures PacketsOf(ms + ns) == PacketsOf(ms) + PacketsOf(ns)
  {
    hide Requests, ForNode;
    MoreRequests(ms, ns);
    MoreForNode(ms, ns);
    if ns == [] {
      assert ms + ns == ms;
    } else {
      assert (ms + ns)[..|ms|] == ms && ns[..0] == [];
    }
  }

  lemma MoreGone(xs: seq<Passage>, ys: seq<Passage>, id: nat)
    requires |ys| <= 1
    ensures Gone(xs + ys, id) == Gone(xs, id) + Gone(ys, id)
  {
    if ys == [] {
      assert xs + ys == xs;
    } else {
      assert (xs + ys)[..|xs|] == xs && ys[..0] == [];
    }
  }

  lemma MoreEchoes(ps: seq<Pass>, qs: seq<Pass>, id: nat)
    requires |qs| <= 1
    ensures EchoesBy(ps + qs, id) == EchoesBy(ps, id) + EchoesBy(qs, id)
  {
    if qs == [] {
      assert ps + qs == ps;
    } else {
      assert (ps + qs)[..|ps|] == ps && qs[..0] == [];
    }
  }

  /** The message the read loop is busy with. */
  function InHand(s: State, id: nat): seq<ToRadio> {
    if id !in s.readers then []
    else match s.readers[id]
      case Echoing(m) => [m]
      case Forwarding(m) => [m]
      case _ => []
  }

  function ToEcho(s: State, id: nat): seq<Packet> {
    if Echoes(s, id) then [s.readers[id].echo.packet] else []
  }

  /** The read loop of client id in terms of what it took (`said`), dealt with for the
      node (`gone`) and began to echo (`echoed`). */
  predicate ReaderInv(s: State, id: nat, said: seq<ToRadio>, gone: seq<ToRadio>, echoed: seq<Packet>) {
    && ForNode(said) == gone + InHand(s, id)
    && PacketsOf(said) == echoed + ToEcho(s, id)
    && (id in s.readers <==> id in s.clients)
    && (if id in s.clients then s.clients[id].asked == Requests(said) else said == [])
    && (ReadLoop(id) in s.casts ==> id in s.readers && s.readers[id].Echoing?)
    && (id in s.readers && s.readers[id].Echoing? ==> s.readers[id].echo.ToPacket?)
    && (id in s.readers ==> AwaitInv(s.readers[id], said, s.clients[id].closed))
  }

  /** After a disconnect the read loop waits until the client is closed. */
  predicate AwaitInv(r: Reader, said: seq<ToRadio>, closed: bool) {
    && (r.AwaitClose? ==> said != [] && said[|said| - 1].Disconnect?)
    && (said != [] && said[|said| - 1].Disconnect? ==> r.AwaitClose? || closed)
  }

  function GoneOne(s: State, e: Event, id: nat): seq<ToRadio> {
    match e
    case Forward(i, _, _) => if i == id && id in s.readers && s.readers[id].Forwarding? then [s.readers[id].msg] else []
    case _ => []
  }

  function EchoOne(s: State, e: Event, id: nat): seq<Packet> {
    match e
    case EchoStart(i, _) => if i == id then ToEcho(s, id) else []
    case _ => []
  }

  /** Events that can move the read loop of client id. */
  predicate MovesReader(e: Event, id: nat) {
    match e
    case Accept(i) => i == id
    case Speak(i, _) => i == id
    case EchoStart(i, _) => i == id
    case Forward(i, _, _) => i == id
    case ReaderResumes(i) => i == id
    case CastEnd(a) => a == ReadLoop(id)
    case _ => false
  }

  predicate SameReader(s: State, t: State, id: nat) {
    && (id in t.readers <==> id in s.readers)
    && (id in s.readers ==> t.readers[id] == s.readers[id])
  }

  lemma CastsKeepReaders(k: Settings, s: State, a: Actor, i: nat, now: U32, id: nat)
    ensures SameReader(s, EchoStarted(s, i, now), id) && SameReader(s, CastStarted(s), id)
    ensures SameReader(s, CastSent(k, s, a, i), id) && SameReader(s, CastResumed(s, a), id)
    ensures a != ReadLoop(id) ==> SameReader(s, CastEnded(s, a), id)
  {
    hide AsFromRadio, Clients.Send;
  }

  lemma TrafficKeepsReaders(k: Settings, s: State, i: nat, now: U32, room: bool, n: NodeLoop.Event, id: nat)
    ensures SameReader(s, NodeStepped(s, n), id) && SameReader(s, Pushed(k, s), id) && SameReader(s, Taken(k, s), id)
    ensures i != id ==> SameReader(s, Forwarded(k, s, i, now, room), id)
  {
    hide AsFromRadio, ChatCache.Cached, NodeLoop.Step;
  }

  lemma OthersKeepReaders(k: Settings, s: State, i: nat, m: ToRadio, id: nat)
    ensures SameReader(s, CloseEnded(s, i), id)
    ensures i != id ==> SameReader(s, Accepted(k, s, i), id) && SameReader(s, Spoken(s, i, m), id)
    ensures i != id ==> SameReader(s, Resumed(s, i), id)
  {
    hide Ask, Closed, CalledBack;
  }

  lemma ReadersStay(k: Settings, s: State, e: Event, id: nat)
    requires !MovesReader(e, id)
    ensures SameReader(s, Next(k, s, e), id)
  {
    hide EchoStarted, CastStarted, CastSent, CastResumed, CastEnded, NodeStepped, Pushed, Taken, Forwarded;
    hide CloseEnded, Accepted, Spoken, Resumed, ClientStep;
    match e
    case EchoStart(i, now) => CastsKeepReaders(k, s, BroadcastLoop, i, now, id);
    case HubStart => CastsKeepReaders(k, s, BroadcastLoop, 0, 0, id);
    case CastSend(a, i) => CastsKeepReaders(k, s, a, i, 0, id);
    case CastResume(a) => CastsKeepReaders(k, s, a, 0, 0, id);
    case CastEnd(a) => CastsKeepReaders(k, s, a, 0, 0, id);
    case NodeEvent(n) => TrafficKeepsReaders(k, s, 0, 0, false, n, id);
    case NodePush => TrafficKeepsReaders(k, s, 0, 0, false, NodeLoop.Connected, id);
    case HubTake => TrafficKeepsReaders(k, s, 0, 0, false, NodeLoop.Connected, id);
    case Forward(i, now, room) => TrafficKeepsReaders(k, s, i, now, room, NodeLoop.Connected, id);
    case CloseEnd(i) => OthersKeepReaders(k, s, i, Disconnect, id);
    case Accept(i) => OthersKeepReaders(k, s, i, Disconnect, id);
    case Speak(i, m) => OthersKeepReaders(k, s, i, m, id);
    case ReaderResumes(i) => OthersKeepReaders(k, s, i, Disconnect, id);
    case _ =>
  }

  lemma EchoStays(k: Settings, s: State, e: Event, id: nat)
    requires !MovesReader(e, id)
    ensures ReadLoop(id) in Next(k, s, e).casts <==> ReadLoop(id) in s.casts
  {
    hide NodeLoop.Step, AsFromRadio, ClientStep, Clients.Send, ChatCache.Cached, Ask, Closed, CalledBack;
  }

  lemma BornByAccept(k: Settings, s: State, e: Event, id: nat)
    ensures var t := Next(k, s, e);
            && (id in s.clients ==> id in t.clients)
            && (id in t.clients && id !in s.clients ==> e == Accept(id))
  {
    hide NodeLoop.Step, AsFromRadio, ClientStep, Clients.Send, ChatCache.Cached, Ask, Closed, CalledBack;
  }

  lemma AskedAndClosed(k: Settings, s: State, e: Event, id: nat)
    requires id in s.clients
    ensures var t := Next(k, s, e);
            && id in t.clients && t.clients[id].asked == s.clients[id].asked + Requests(Saying(s, e, id))
            && (s.clients[id].closed ==> t.clients[id].closed)
  {
    hide Next, ClientStep, Clients.Send;
    SayingOne(s, e, id);
    StepIsLater(k, s, e, id);
    if e.Speak? && e.id == id {
      SpeakAsks(k, s, id, e.msg);
    } else {
      ClientAfter(k, s, e, id);
      ClientStepMild(k, s, e, s.clients[id]);
      if e.CastSend? && e.actor in s.casts {
        SendAsks(k, s.clients[id], Item(s.casts[e.actor].frame, s.casts[e.actor].source));
      }
      if e.Speak? {
        SpeakElse(k, s, e.id, e.msg, id);
      }
    }
  }

  lemma SayingOne(s: State, e: Event, id: nat)
    ensures Requests(Saying(s, e, id)) ==
            if e.Speak? && e.id == id && Listens(s, id) && e.msg.WantConfigId? then [e.msg.nonce] else []
  {
    var ns := Saying(s, e, id);
    assert ns != [] ==> ns[..0] == [];
  }

  lemma SpeakAsks(k: Settings, s: State, id: nat, msg: ToRadio)
    requires id in s.clients
    ensures var t := Next(k, s, Speak(id, msg));
            && id in t.clients
            && t.clients[id].asked ==
               s.clients[id].asked + if Listens(s, id) && msg.WantConfigId? then [msg.nonce] else []
  {
  }

  lemma SpeakElse(k: Settings, s: State, i: nat, msg: ToRadio, id: nat)
    requires i != id && id in s.clients
    ensures id in Next(k, s, Speak(i, msg)).clients && Next(k, s, Speak(i, msg)).clients[id] == s.clients[id]
  {
  }

  lemma SendAsks(k: Settings, c: Client, x: Item)
    ensures var d := Clients.Send(k, c, x); d.asked == c.asked && d.shut == c.shut && d.closed == c.closed
  {
  }

  /** The read loop of client id after event e, as ReaderInv speaks of it. */
  predicate Moved(s: State, t: State, e: Event, id: nat, said: seq<ToRadio>, gone: seq<ToRadio>, echoed: seq<Packet>) {
    && ForNode(said) + ForNode(Saying(s, e, id)) == gone + GoneOne(s, e, id) + InHand(t, id)
    && PacketsOf(said) + PacketsOf(Saying(s, e, id)) == echoed + EchoOne(s, e, id) + ToEcho(t, id)
    && (id in t.readers <==> id in t.clients)
    && (ReadLoop(id) in t.casts ==> id in t.readers && t.readers[id].Echoing?)
    && (id in t.readers && t.readers[id].Echoing? ==> t.readers[id].echo.ToPacket?)
    && (id in t.readers ==> AwaitInv(t.readers[id], said + Saying(s, e, id), t.clients[id].closed))
  }

  lemma Unmoved(s: State, t: State, e: Event, id: nat, said: seq<ToRadio>, gone: seq<ToRadio>, echoed: seq<Packet>)
    requires ReaderInv(s, id, said, gone, echoed) && SameReader(s, t, id)
    requires ReadLoop(id) in t.casts <==> ReadLoop(id) in s.casts
    requires id in t.clients <==> id in s.clients
    requires id in s.clients && s.clients[id].closed ==> t.clients[id].closed
    requires Saying(s, e, id) == [] && GoneOne(s, e, id) == [] && EchoOne(s, e, id) == []
    ensures Moved(s, t, e, id, said, gone, echoed)
  {
    assert said + [] == said && gone + [] == gone && echoed + [] == echoed;
    assert ForNode([]) == [] && PacketsOf([]) == [];
    assert ForNode(said) + [] == ForNode(said) && PacketsOf(said) + [] == PacketsOf(said);
  }

  lemma AcceptMoves(k: Settings, s: State, id: nat, said: seq<ToRadio>, gone: seq<ToRadio>, echoed: seq<Packet>)
    requires ReaderInv(s, id, said, gone, echoed)
    ensures Moved(s, Next(k, s, Accept(id)), Accept(id), id, said, gone, echoed)
  {
    hide ForNode, PacketsOf;
    var t := Next(k, s, Accept(id));
    if t == s {
      Unmoved(s, t, Accept(id), id, said, gone, echoed);
    } else {
      NothingSaid();
      assert ForNode(said) + [] == ForNode(said) && PacketsOf(said) + [] == PacketsOf(said);
      assert gone + [] == gone && echoed + [] == echoed;
    }
  }

  lemma NothingSaid()
    ensures ForNode([]) == [] && PacketsOf([]) == [] && Requests([]) == []
  {
  }

  lemma OneSaid(m: ToRadio)
    ensures ForNode([m]) == if m.WantConfigId? || m.Disconnect? then [] else [m]
    ensures PacketsOf([m]) == if m.ToPacket? then [m.packet] else []
  {
    assert [m][..0] == [];
  }

  lemma SpeakMoves(k: Settings, s: State, id: nat, m: ToRadio, said: seq<ToRadio>, gone: seq<ToRadio>,
                   echoed: seq<Packet>)
    requires ReaderInv(s, id, said, gone, echoed)
    ensures Moved(s, Next(k, s, Speak(id, m)), Speak(id, m), id, said, gone, echoed)
  {
    hide ForNode, PacketsOf, Ask, Closed;
    var t := Next(k, s, Speak(id, m));
    if !Listens(s, id) {
      Unmoved(s, t, Speak(id, m), id, said, gone, echoed);
    } else {
      OneSaid(m);
      NothingSaid();
      assert gone + [] == gone && echoed + [] == echoed;
    }
  }

  lemma EchoStartMoves(k: Settings, s: State, id: nat, now: U32, said: seq<ToRadio>, gone: seq<ToRadio>,
                       echoed: seq<Packet>)
    requires ReaderInv(s, id, said, gone, echoed)
    ensures Moved(s, Next(k, s, EchoStart(id, now)), EchoStart(id, now), id, said, gone, echoed)
  {
    hide ForNode, PacketsOf, AsFromRadio;
    NothingSaid();
    assert said + [] == said && gone + [] == gone;
    assert ForNode(said) + [] == ForNode(said) && PacketsOf(said) + [] == PacketsOf(said);
    assert echoed + [] == echoed && (echoed + ToEcho(s, id)) + [] == echoed + ToEcho(s, id);
  }

  lemma ForwardMoves(k: Settings, s: State, id: nat, now: U32, room: bool, said: seq<ToRadio>, gone: seq<ToRadio>,
                     echoed: seq<Packet>)
    requires ReaderInv(s, id, said, gone, echoed)
    ensures Moved(s, Next(k, s, Forward(id, now, room)), Forward(id, now, room), id, said, gone, echoed)
  {
    hide ForNode, PacketsOf, AsFromRadio, ChatCache.Cached;
    NothingSaid();
    assert said + [] == said && echoed + [] == echoed;
    assert ForNode(said) + [] == ForNode(said) && PacketsOf(said) + [] == PacketsOf(said);
    assert gone + [] == gone && (gone + InHand(s, id)) + [] == gone + InHand(s, id);
  }

  lemma ResumeMoves(k: Settings, s: State, id: nat, said: seq<ToRadio>, gone: seq<ToRadio>, echoed: seq<Packet>)
    requires ReaderInv(s, id, said, gone, echoed)
    ensures Moved(s, Next(k, s, ReaderResumes(id)), ReaderResumes(id), id, said, gone, echoed)
  {
    hide ForNode, PacketsOf;
    NothingSaid();
    assert said + [] == said && echoed + [] == echoed && gone + [] == gone;
    assert ForNode(said) + [] == ForNode(said) && PacketsOf(said) + [] == PacketsOf(said);
  }

  lemma EndMoves(k: Settings, s: State, id: nat, said: seq<ToRadio>, gone: seq<ToRadio>, echoed: seq<Packet>)
    requires ReaderInv(s, id, said, gone, echoed)
    ensures Moved(s, Next(k, s, CastEnd(ReadLoop(id))), CastEnd(ReadLoop(id)), id, said, gone, echoed)
  {
    hide ForNode, PacketsOf;
    NothingSaid();
    assert said + [] == said && echoed + [] == echoed && gone + [] == gone;
    assert ForNode(said) + [] == ForNode(said) && PacketsOf(said) + [] == PacketsOf(said);
  }

  lemma ReaderStep(k: Settings, s: State, e: Event, id: nat, said: seq<ToRadio>, gone: seq<ToRadio>,
                   echoed: seq<Packet>)
    requires ReaderInv(s, id, said, gone, echoed)
    ensures Moved(s, Next(k, s, e), e, id, said, gone, echoed)
  {
    hide Next, ReaderInv, Moved;
    if !MovesReader(e, id) {
      ReadersStay(k, s, e, id);
      EchoStays(k, s, e, id);
      BornByAccept(k, s, e, id);
      if id in s.clients {
        AskedAndClosed(k, s, e, id);
      }
      Unmoved(s, Next(k, s, e), e, id, said, gone, echoed);
    } else {
      match e
      case Accept(_) => AcceptMoves(k, s, id, said, gone, echoed);
      case Speak(_, m) => SpeakMoves(k, s, id, m, said, gone, echoed);
      case EchoStart(_, now) => EchoStartMoves(k, s, id, now, said, gone, echoed);
      case Forward(_, now, room) => ForwardMoves(k, s, id, now, room, said, gone, echoed);
      case ReaderResumes(_) => ResumeMoves(k, s, id, said, gone, echoed);
      case CastEnd(_) => EndMoves(k, s, id, said, gone, echoed);
    }
  }

  lemma AskedStep(k: Settings, s: State, e: Event, id: nat, said: seq<ToRadio>)
    requires if id in s.clients then s.clients[id].asked == Requests(said) else said == []
    ensures var t, ms := Next(k, s, e), said + Saying(s, e, id);
            if id in t.clients then t.clients[id].asked == Requests(ms) else ms == []
  {
    hide Next, Requests;
    BornByAccept(k, s, e, id);
    MoreSaid(said, Saying(s, e, id));
    if id in s.clients {
      AskedAndClosed(k, s, e, id);
    } else {
      NothingSaid();
      assert said + Saying(s, e, id) == [];
      if id in Next(k, s, e).clients {
        ClientBorn(k, s, e, id);
      }
    }
  }

  lemma GoneByPassage(s: State, e: Event, id: nat, ys: seq<Passage>)
    requires ys == match e
                   case HubTake => if Takes(s) then [FromNode(s.fromNode[0])] else []
                   case Forward(i, now, room) =>
                     if i in s.readers && s.readers[i].Forwarding?
                     then [FromClient(i, s.readers[i].msg, s.loop.myNodeNum, now, room)] else []
                   case _ => []
    ensures Gone(ys, id) == GoneOne(s, e, id)
  {
    assert ys != [] ==> ys[..0] == [];
  }

  lemma EchoByPass(s: State, e: Event, id: nat, my: U32)
    ensures |Starting(s, e, my)| <= 1 && EchoesBy(Starting(s, e, my), id) == EchoOne(s, e, id)
  {
    var qs := Starting(s, e, my);
    assert qs != [] ==> qs[..0] == [];
  }

  /** On every run a client's requests are the nonces it sent; its other messages but
      a disconnect are dealt with for the node one by one in order, the last perhaps
      still in hand; each packet among them was echoed once, in order, or is about to
      be; and after a disconnect the read loop waits for the close. */
  lemma {:induction false} ReaderFollows(k: Settings, es: seq<Event>, id: nat)
    ensures ReaderInv(Reached(k, es), id, Said(k, es, id), Gone(Passages(k, es), id), EchoesBy(PassTrace(k, es), id))
    decreases es
  {
    hide Next, Passages, PassTrace, Gone, EchoesBy, Starting, Saying, GoneOne, EchoOne, NodeTrace, NodeLoop.Run;
    hide InHand, ToEcho, AwaitInv, ForNode, PacketsOf, Requests;
    if es == [] {
      NoReader(k, id);
    } else {
      var init, e := es[..|es| - 1], es[|es| - 1];
      var s := Reached(k, init);
      var said, gone, echoed := Said(k, init, id), Gone(Passages(k, init), id), EchoesBy(PassTrace(k, init), id);
      ReaderFollows(k, init, id);
      ReaderStep(k, s, e, id, said, gone, echoed);
      AskedStep(k, s, e, id, said);
      var ys := PassingOne(k, es);
      GoneByPassage(s, e, id, ys);
      MoreGone(Passages(k, init), ys, id);
      MoreSaid(said, Saying(s, e, id)) by { SayingShort(s, e, id); }
      PassTraceOne(k, es);
      EchoByPass(s, e, id, s.loop.myNodeNum);
      MoreEchoes(PassTrace(k, init), Starting(s, e, s.loop.myNodeNum), id);
    }
  }

  lemma SayingShort(s: State, e: Event, id: nat)
    ensures |Saying(s, e, id)| <= 1
  {
  }

  lemma PassTraceOne(k: Settings, es: seq<Event>)
    requires es != []
    ensures var init := es[..|es| - 1];
            var s := Reached(k, init);
            PassTrace(k, es) == PassTrace(k, init) + Starting(s, es[|es| - 1], s.loop.myNodeNum)
  {
    hide Next, Starting, NodeTrace, NodeLoop.Run;
    LoopFollows(k, es[..|es| - 1]);
    NodeLoop.FieldsFollowRun(NodeTrace(k, es[..|es| - 1]));
  }

  lemma NoReader(k: Settings, id: nat)
    ensures ReaderInv(Reached(k, []), id, Said(k, [], id), Gone(Passages(k, []), id), EchoesBy(PassTrace(k, []), id))
  {
  }

  // --------------------------------------------------------------- why it was closed

  /** What each call of Close or SetDisconnectReason says, in order: the client's own
      disconnect, an outside close, a Send that found the queue full. */
  function Closings(k: Settings, es: seq<Event>, id: nat): seq<Option<Reason>> {
    if es == [] then []
    else Closings(k, es[..|es| - 1], id) + ClosingBy(k, Reached(k, es[..|es| - 1]), es[|es| - 1], id)
  }

  function ClosingBy(k: Settings, s: State, e: Event, id: nat): seq<Option<Reason>> {
    if id !in s.clients then []
    else match e
      case Speak(i, Disconnect) => if i == id && Listens(s, id) then [Some(ClientSent)] else []
      case CloseStart(i, why) => if i == id then [why] else []
      case CastSend(a, i) =>
        if i == id && a in s.casts && s.casts[a].stuck.None? && id in s.casts[a].remaining
           && |s.clients[id].queue| >= k.sendBuffer then [Some(SlowConsumer)] else []
      case SendReplayFrame(i) =>
        if i == id && Replays(s.clients[id]) && |s.clients[id].queue| >= k.sendBuffer then [Some(SlowConsumer)] else []
      case _ => []
  }

  /** A replay holds the lock and has a frame to send. */
  predicate Replays(c: Client) {
    && c.locked && c.replays != []
    && var r := c.replays[|c.replays| - 1];
       !r.cut && r.sent < |Script(r)|
  }

  function FirstOf(rs: seq<Option<Reason>>): Option<Reason> {
    if rs == [] then None
    else if FirstOf(rs[..|rs| - 1]).Some? then FirstOf(rs[..|rs| - 1])
    else rs[|rs| - 1]
  }

  lemma MoreClosings(rs: seq<Option<Reason>>, qs: seq<Option<Reason>>)
    requires |qs| <= 1
    ensures FirstOf(rs + qs) == if FirstOf(rs).Some? then FirstOf(rs) else FirstOf(qs)
    ensures FirstOf([]) == None && (qs != [] ==> FirstOf(qs) == qs[0])
  {
    if qs == [] {
      assert rs + qs == rs;
    } else {
      assert (rs + qs)[..|rs|] == rs && qs[..0] == [];
    }
  }

  predicate ClosedBy(c: Client, d: Client, qs: seq<Option<Reason>>) {
    && (d.closing <==> c.closing || qs != [])
    && d.reason == if c.reason.Some? || qs == [] then c.reason else qs[0]
  }

  lemma ReplayCloses(k: Settings, c: Client)
    ensures ClosedBy(c, ReplaySend(k, c), if Replays(c) && |c.queue| >= k.sendBuffer then [Some(SlowConsumer)] else [])
  {
    hide Script;
  }

  lemma ClientStepCloses(k: Settings, s: State, e: Event, id: nat)
    requires id in s.clients && (e.CloseStart? || e.SendReplayFrame?) && e.id == id
    ensures ClosedBy(s.clients[id], ClientStep(k, s, e, s.clients[id]), ClosingBy(k, s, e, id))
  {
    hide ReplaySend, Replays;
    ReplayCloses(k, s.clients[id]);
  }

  lemma OtherClient(k: Settings, s: State, e: Event, id: nat)
    requires id in s.clients && (e.Speak? || e.CloseStart? || e.SendReplayFrame?) && e.id != id
    ensures id in Next(k, s, e).clients && Next(k, s, e).clients[id] == s.clients[id]
  {
    hide ClientStep, Ask, Closed;
  }

  lemma SpeakCloses(k: Settings, s: State, id: nat, m: ToRadio)
    requires id in s.clients
    ensures id in Next(k, s, Speak(id, m)).clients
    ensures ClosedBy(s.clients[id], Next(k, s, Speak(id, m)).clients[id], ClosingBy(k, s, Speak(id, m), id))
  {
  }

  lemma CastCloses(k: Settings, s: State, a: Actor, i: nat, id: nat)
    requires id in s.clients
    ensures id in Next(k, s, CastSend(a, i)).clients
    ensures ClosedBy(s.clients[id], Next(k, s, CastSend(a, i)).clients[id], ClosingBy(k, s, CastSend(a, i), id))
  {
  }

  lemma CloseStep(k: Settings, s: State, e: Event, id: nat)
    requires id in s.clients
    ensures id in Next(k, s, e).clients
    ensures ClosedBy(s.clients[id], Next(k, s, e).clients[id], ClosingBy(k, s, e, id))
  {
    hide Next, ClientStep, Clients.Send, Script;
    match e
    case Speak(i, m) => if i == id { SpeakCloses(k, s, id, m); } else { OtherClient(k, s, e, id); }
    case CastSend(a, i) => CastCloses(k, s, a, i, id);
    case CloseStart(i, _) => OwnStepCloses(k, s, e, id);
    case SendReplayFrame(i) => OwnStepCloses(k, s, e, id);
    case _ =>
      ClientAfter(k, s, e, id);
      ClientStepMild(k, s, e, s.clients[id]);
  }

  lemma OwnStepCloses(k: Settings, s: State, e: Event, id: nat)
    requires id in s.clients && (e.CloseStart? || e.SendReplayFrame?)
    ensures id in Next(k, s, e).clients
    ensures ClosedBy(s.clients[id], Next(k, s, e).clients[id], ClosingBy(k, s, e, id))
  {
    hide ClientStep, Script;
    if e.id == id {
      ClientStepCloses(k, s, e, id);
    } else {
      OtherClient(k, s, e, id);
    }
  }

  /** On every run a client is closing exactly if something closed it, and its
      disconnect reason is the first one given. */
  lemma {:induction false} ReasonFollows(k: Settings, es: seq<Event>, id: nat)
    ensures var s, rs := Reached(k, es), Closings(k, es, id);
            if id in s.clients then (s.clients[id].closing <==> rs != []) && s.clients[id].reason == FirstOf(rs)
            else rs == []
    decreases es
  {
    hide Next, ClosingBy, FirstOf;
    if es == [] {
      MoreClosings([], []);
    } else {
      var init, e := es[..|es| - 1], es[|es| - 1];
      var s := Reached(k, init);
      ReasonFollows(k, init, id);
      ClosingShort(k, s, e, id);
      MoreClosings(Closings(k, init, id), ClosingBy(k, s, e, id));
      BornByAccept(k, s, e, id);
      if id in s.clients {
        CloseStep(k, s, e, id);
      } else if id in Next(k, s, e).clients {
        ClientBorn(k, s, e, id);
      }
    }
  }

  lemma ClosingShort(k: Settings, s: State, e: Event, id: nat)
    ensures |ClosingBy(k, s, e, id)| <= 1 && (id !in s.clients ==> ClosingBy(k, s, e, id) == [])
  {
  }

  // ------------------------------------------------------------- joining and leaving

  /** Clients accepted: new ones, when nobody holds the registry's lock and there is
      a place. */
  function Joined(k: Settings, es: seq<Event>): set<nat> {
    if es == [] then {}
    else
      var s, joined := Reached(k, es[..|es| - 1]), Joined(k, es[..|es| - 1]);
      match es[|es| - 1]
      case Accept(id) => if s.casts == map[] && |s.registry| < k.maxClients then joined + {id} else joined
      case _ => joined
  }

  /** Clients whose connection Close has shut, and whose close has finished. */
  function Shut(k: Settings, es: seq<Event>): set<nat> {
    if es == [] then {}
    else
      match es[|es| - 1]
      case ConnClose(id) =>
        if Closings(k, es[..|es| - 1], id) != [] then Shut(k, es[..|es| - 1]) + {id} else Shut(k, es[..|es| - 1])
      case _ => Shut(k, es[..|es| - 1])
  }

  function Left(k: Settings, es: seq<Event>): set<nat> {
    if es == [] then {}
    else
      var init := es[..|es| - 1];
      match es[|es| - 1]
      case CloseEnd(id) =>
        if id in Shut(k, init) && Reached(k, init).casts == map[] then Left(k, init) + {id} else Left(k, init)
      case _ => Left(k, init)
  }

  lemma JoinStep(k: Settings, s: State, e: Event)
    ensures Next(k, s, e).clients.Keys ==
            match e
            case Accept(id) =>
              if s.casts == map[] && |s.registry| < k.maxClients then s.clients.Keys + {id} else s.clients.Keys
            case _ => s.clients.Keys
  {
    hide Next;
    forall id ensures id in s.clients ==> id in Next(k, s, e).clients {
      BornByAccept(k, s, e, id);
    }
    forall id | id in Next(k, s, e).clients && id !in s.clients ensures e == Accept(id) {
      BornByAccept(k, s, e, id);
    }
    if e.Accept? {
      AcceptJoins(k, s, e.id);
    }
  }

  lemma AcceptJoins(k: Settings, s: State, id: nat)
    ensures Next(k, s, Accept(id)).clients.Keys ==
            if s.casts == map[] && |s.registry| < k.maxClients then s.clients.Keys + {id} else s.clients.Keys
  {
  }

  /** A client's closing flags after one step. */
  predicate LeavesBy(s: State, e: Event, id: nat, c: Client, d: Client) {
    && d.shut == (c.shut || (e == ConnClose(id) && c.closing))
    && d.closed == (c.closed || (e == CloseEnd(id) && c.shut && s.casts == map[]))
  }

  lemma ConnFlags(k: Settings, s: State, i: nat, id: nat)
    requires id in s.clients
    ensures id in Next(k, s, ConnClose(i)).clients
    ensures LeavesBy(s, ConnClose(i), id, s.clients[id], Next(k, s, ConnClose(i)).clients[id])
  {
  }

  lemma EndFlags(k: Settings, s: State, i: nat, id: nat)
    requires id in s.clients
    ensures id in Next(k, s, CloseEnd(i)).clients
    ensures LeavesBy(s, CloseEnd(i), id, s.clients[id], Next(k, s, CloseEnd(i)).clients[id])
  {
  }

  lemma FlagStep(k: Settings, s: State, e: Event, id: nat)
    requires id in s.clients
    ensures id in Next(k, s, e).clients && LeavesBy(s, e, id, s.clients[id], Next(k, s, e).clients[id])
  {
    hide Next, ClientStep, Clients.Send;
    if e.ConnClose? {
      ConnFlags(k, s, e.id, id);
    } else if e.CloseEnd? {
      EndFlags(k, s, e.id, id);
    } else {
      ClientAfter(k, s, e, id);
      ClientStepMild(k, s, e, s.clients[id]);
      if e.CastSend? && e.actor in s.casts {
        SendAsks(k, s.clients[id], Item(s.casts[e.actor].frame, s.casts[e.actor].source));
      }
    }
  }

  lemma {:induction false} FlagsFollow(k: Settings, es: seq<Event>, id: nat)
    ensures var s := Reached(k, es);
            if id in s.clients then
              s.clients[id].shut == (id in Shut(k, es)) && s.clients[id].closed == (id in Left(k, es))
            else id !in Shut(k, es) && id !in Left(k, es)
    decreases es
  {
    hide Next, Closings;
    if es != [] {
      var init, e := es[..|es| - 1], es[|es| - 1];
      var s := Reached(k, init);
      FlagsFollow(k, init, id);
      ReasonFollows(k, init, id);
      BornByAccept(k, s, e, id);
      if id in s.clients {
        FlagStep(k, s, e, id);
      } else if id in Next(k, s, e).clients {
        ClientBorn(k, s, e, id);
      }
    }
  }

  /** On every run the clients are those accepted, and the registry holds exactly those
      of them whose close has not finished. */
  lemma {:induction false} MembersFollow(k: Settings, es: seq<Event>)
    ensures Reached(k, es).clients.Keys == Joined(k, es)
    ensures Reached(k, es).registry == Joined(k, es) - Left(k, es)
    decreases es
  {
    hide Next, Left, Shut;
    if es != [] {
      MembersFollow(k, es[..|es| - 1]);
      JoinStep(k, Reached(k, es[..|es| - 1]), es[|es| - 1]);
    }
    RegistryIsBounded(k, es);
    forall id ensures id in Reached(k, es).registry <==> id in Joined(k, es) && id !in Left(k, es) {
      FlagsFollow(k, es, id);
    }
  }

  // ------------------------------------------------------------- what replays hold

  /** Replays keep their place, nonce and snapshot, and their chat once decided. */
  predicate Kept(c: Client, d: Client) {
    && |c.replays| <= |d.replays|
    && forall j :: 0 <= j < |c.replays| ==> KeptReplay(c.replays[j], d.replays[j])
  }

  predicate KeptReplay(r: Replay, q: Replay) {
    q.nonce == r.nonce && q.config == r.config && (!r.chat.Undecided? ==> q.chat == r.chat)
  }

  lemma StepKeepsReplays(k: Settings, s: State, e: Event, c: Client)
    ensures Kept(c, ClientStep(k, s, e, c))
  {
    hide ReplaySend, Lock, DecideChat, Unlock;
    match e
    case TakeReplayLock(_, i) => LockKept(c, i, s.loop.cache);
    case SendReplayFrame(_) => SendKept(k, c);
    case ChatDecision(_) => DecisionKept(k, c, s.chat, |s.heard|);
    case ReleaseReplayLock(_) => UnlockKept(c);
    case _ =>
  }

  lemma LockKept(c: Client, i: nat, cache: seq<Frame>)
    ensures Kept(c, Lock(c, i, cache))
    ensures !c.locked && i < |c.waiting| ==>
              && Lock(c, i, cache).replays[..|c.replays|] == c.replays
              && |Lock(c, i, cache).replays| == |c.replays| + 1
              && Lock(c, i, cache).replays[|c.replays|].nonce == c.waiting[i]
              && Lock(c, i, cache).replays[|c.replays|].config == cache
  {
  }

  lemma SendKept(k: Settings, c: Client)
    ensures Kept(c, ReplaySend(k, c))
  {
    hide Script, Clients.Send;
    if Active(c).Some? && Active(c).value.sent < |Script(Active(c).value)| {
      SendKeepsReplays(k, c, Item(Script(Active(c).value)[Active(c).value.sent], Replayed));
    }
  }

  lemma SendKeepsReplays(k: Settings, c: Client, x: Item)
    ensures Clients.Send(k, c, x).replays == c.replays
  {
  }

  lemma DecisionKept(k: Settings, c: Client, entries: seq<ChatCache.Entry>, heard: nat)
    ensures Kept(c, DecideChat(k, c, entries, heard))
  {
    hide Plan, ChatScript, ShouldReplayChat;
  }

  lemma UnlockKept(c: Client)
    ensures Kept(c, Unlock(c))
  {
    hide Script;
  }

  lemma NextKept(k: Settings, s: State, e: Event, id: nat)
    requires id in s.clients
    ensures id in Next(k, s, e).clients && Kept(s.clients[id], Next(k, s, e).clients[id])
  {
    hide Next, ClientStep, Clients.Send, Kept;
    ClientAfter(k, s, e, id);
    StepKeepsReplays(k, s, e, s.clients[id]);
    if Next(k, s, e).clients[id].replays == s.clients[id].replays {
      SameKept(s.clients[id], Next(k, s, e).clients[id]);
    }
    if e.CastSend? && e.actor in s.casts {
      SendSame(k, s.clients[id], Item(s.casts[e.actor].frame, s.casts[e.actor].source));
    }
  }

  lemma SameKept(c: Client, d: Client)
    requires d.replays == c.replays
    ensures Kept(c, d)
  {
  }

  lemma SendSame(k: Settings, c: Client, x: Item)
    ensures Kept(c, Clients.Send(k, c, x))
  {
  }

  lemma {:induction false} KeptForever(k: Settings, s: State, more: seq<Event>, id: nat)
    requires id in s.clients
    ensures id in RunFrom(k, s, more).clients && Kept(s.clients[id], RunFrom(k, s, more).clients[id])
    decreases more
  {
    hide Next;
    if more != [] {
      KeptForever(k, s, more[..|more| - 1], id);
      NextKept(k, RunFrom(k, s, more[..|more| - 1]), more[|more| - 1], id);
    }
  }

  lemma RunAfter(k: Settings, es: seq<Event>, e: Event, more: seq<Event>)
    ensures Reached(k, es + [e] + more) == RunFrom(k, Next(k, Reached(k, es), e), more)
  {
    hide Next;
    RunConcat(k, Hub.START, es + [e], more);
    assert (es + [e])[..|es|] == es;
  }

  /** The replay that takes the lock at any point of any run serves the request it
      waited with, and holds for good the config cache the node's events had published
      by then, with the upserts since. */
  lemma ReplayHoldsSnapshot(k: Settings, es: seq<Event>, id: nat, i: nat, more: seq<Event>)
    requires id in Reached(k, es).clients
    requires var c := Reached(k, es).clients[id]; !c.locked && i < |c.waiting|
    ensures var c, t := Reached(k, es).clients[id], Reached(k, es + [TakeReplayLock(id, i)] + more);
            && id in t.clients && |t.clients[id].replays| > |c.replays|
            && var r := t.clients[id].replays[|c.replays|];
               r.nonce == c.waiting[i] && r.config == NodeLoop.Run(NodeTrace(k, es)).cache
  {
    hide RunFrom, Lock, Kept, KeptReplay, NodeLoop.Run, NodeTrace;
    var s := Reached(k, es);
    RunAfter(k, es, TakeReplayLock(id, i), more);
    LoopFollows(k, es);
    var t := Next(k, s, TakeReplayLock(id, i));
    assert t.clients[id] == Lock(s.clients[id], i, s.loop.cache);
    LockKept(s.clients[id], i, s.loop.cache);
    KeptForever(k, t, more, id);
    KeptAt(t.clients[id], RunFrom(k, t, more).clients[id], |s.clients[id].replays|);
  }

  lemma KeptAt(c: Client, d: Client, j: nat)
    requires Kept(c, d) && j < |c.replays|
    ensures j < |d.replays| && d.replays[j].nonce == c.replays[j].nonce && d.replays[j].config == c.replays[j].config
    ensures !c.replays[j].chat.Undecided? ==> d.replays[j].chat == c.replays[j].chat
  {
    assert KeptReplay(c.replays[j], d.replays[j]);
  }

  /** Once a replay has sent its config part it includes chat exactly when the
      two-phase rule says so: then, for good, each of the last maxChatCache messages
      that passed, in order and directly followed by the ACK it has by then. */
  lemma ReplayHoldsChat(k: Settings, es: seq<Event>, id: nat, more: seq<Event>)
    requires id in Reached(k, es).clients
    requires var c := Reached(k, es).clients[id];
             && c.locked && c.replays != []
             && var r := c.replays[|c.replays| - 1];
                !r.cut && r.chat.Undecided? && r.sent == |Plan(r.config, r.nonce)|
    ensures var c, t := Reached(k, es).clients[id], Reached(k, es + [ChatDecision(id)] + more);
            var j := |c.replays| - 1;
            && id in t.clients && |t.clients[id].replays| > j
            && var part := t.clients[id].replays[j].chat;
               if ChatDue(k, c.replays, j) then
                 part.Included? &&
                 IsChatScript(part.frames,
                              ChatCache.Window(ChatCache.LogAfter(ChatTrace(Passages(k, es))), k.maxChatCache))
               else part.Skipped?
  {
    hide RunFrom, Kept, KeptReplay, Plan, ChatScript, ChatCache.LogAfter, ChatCache.Window, ChatTrace, Passages;
    hide ChatDue, ShouldReplayChat, ChatCache.CacheAfter, IsChatScript;
    var s := Reached(k, es);
    var c := s.clients[id];
    RunAfter(k, es, ChatDecision(id), more);
    PassagesHold(k, es);
    ChatIsHeard(k, es);
    ChatCache.CacheIsWindow(s.heard, k.maxChatCache);
    DecisionRule(k, es, id);
    ChatScriptPlaces(s.chat);
    var t := Next(k, s, ChatDecision(id));
    assert t.clients[id] == DecideChat(k, c, s.chat, |s.heard|);
    KeptForever(k, t, more, id);
    KeptAt(t.clients[id], RunFrom(k, t, more).clients[id], |c.replays| - 1);
  }

  lemma DecisionRule(k: Settings, es: seq<Event>, id: nat)
    requires id in Reached(k, es).clients
    requires var c := Reached(k, es).clients[id];
             c.locked && c.replays != [] && c.replays[|c.replays| - 1].chat.Undecided?
    ensures var c := Reached(k, es).clients[id];
            ShouldReplayChat(k, c.replays[|c.replays| - 1].nonce, c.phase) <==> ChatDue(k, c.replays, |c.replays| - 1)
  {
    hide RunFrom;
    ClientReached(k, es, id);
    var c := Reached(k, es).clients[id];
    assert ReplayInv(k, c.replays, c.locked, c.refused, |c.replays| - 1);
    ChatRule(k, c.phase, c.replays);
  }
}
