/** The whole proxy as interleaved goroutines (internal/proxy/proxy.go): the
    broadcast loop, each client's read loop, write loop and replays, the node's
    read loop, and the registry lock they share. One event is one step of one
    goroutine; a run is any sequence of events, and an event that cannot happen
    changes nothing. */
module Hub {
  import opened Wrappers
  import opened Radio
  import opened Clients
  import NodeLoop

  /** What a client's read loop is doing with the frame it took. */
  datatype Reader = Idle | AwaitClose | Echoing(echo: ToRadio) | Forwarding(msg: ToRadio)

  /** A goroutine holding the registry's read lock while it sends to each target;
      `stuck` is the target inside whose Send it is waiting for a Close. */
  datatype Cast = Cast(frame: Frame, source: Source, remaining: set<nat>, stuck: Option<nat>)

  datatype Actor = BroadcastLoop | ReadLoop(id: nat)

  datatype Outgoing = Outgoing(msg: ToRadio, sender: nat)

  datatype State = State(
    clients: map<nat, Client>,
    readers: map<nat, Reader>,
    registry: set<nat>,           // p.clients
    casts: map<Actor, Cast>,      // read holders of p.mu
    passes: nat,                  // passes over the registry begun so far
    pending: Option<Frame>,       // taken from the node, not yet broadcast
    chat: seq<ChatCache.Entry>,
    heard: seq<ChatCache.Event>,  // every chat message and ACK handled
    loop: NodeLoop.Loop,
    pushing: Option<Frame>,       // the read loop blocked on fromNode
    fromNode: seq<Frame>,
    toNode: seq<Outgoing>)        // every client frame queued for the node

  const START := State(map[], map[], {}, map[], 0, None, [], [], NodeLoop.START, None, [], [])

  datatype Event =
    | Accept(id: nat)
    | Speak(id: nat, msg: ToRadio)
    | EchoStart(id: nat, now: U32)
    | Forward(id: nat, now: U32, room: bool)
    | ReaderResumes(id: nat)
    | NodeEvent(e: NodeLoop.Event)
    | NodePush
    | HubTake
    | HubStart
    | CastSend(actor: Actor, target: nat)
    | CastResume(actor: Actor)
    | CastEnd(actor: Actor)
    | TakeReplayLock(id: nat, i: nat)
    | SendReplayFrame(id: nat)
    | ChatDecision(id: nat)
    | ReleaseReplayLock(id: nat)
    | CloseStart(id: nat, why: Option<Reason>)
    | ConnClose(id: nat)
    | CloseEnd(id: nat)
    | WriteStart(id: nat)
    | WriteEnd(id: nat)
    | WriteStop(id: nat)

  // ------------------------------------------------------------------ steps

  function With(s: State, id: nat, c: Client): State {
    s.(clients := s.clients[id := c])
  }

  /** handleNewConnection: check and register under one write lock. */
  function Accepted(k: Settings, s: State, id: nat): State {
    if id in s.clients || s.casts != map[] || |s.registry| >= k.maxClients then s
    else s.(clients := s.clients[id := NEW], readers := s.readers[id := Idle], registry := s.registry + {id})
  }

  /** The client callback's routing switch. */
  function Spoken(s: State, id: nat, msg: ToRadio): State {
    if id !in s.clients || id !in s.readers || s.readers[id] != Idle then s
    else match msg
      case WantConfigId(nonce) => With(s, id, Ask(s.clients[id], nonce))
      case Disconnect =>
        With(s, id, Closed(s.clients[id], Some(ClientSent))).(readers := s.readers[id := AwaitClose])
      case ToPacket(_) => s.(readers := s.readers[id := Echoing(msg)])
      case _ => s.(readers := s.readers[id := Forwarding(msg)])
  }

  /** Close returned to the read loop. */
  function Resumed(s: State, id: nat): State {
    if id in s.clients && id in s.readers && s.readers[id] == AwaitClose && s.clients[id].closed
    then s.(readers := s.readers[id := Idle]) else s
  }

  /** echoToOtherClients up to taking the read lock. */
  function EchoStarted(s: State, id: nat, now: U32): State {
    if id !in s.readers || !s.readers[id].Echoing? || !s.readers[id].echo.ToPacket? || ReadLoop(id) in s.casts then s
    else
      var f := AsFromRadio(s.readers[id].echo.packet, s.loop.myNodeNum, now);
      s.(casts := s.casts[ReadLoop(id) := Cast(f, Echo(s.passes), s.registry - {id}, None)], passes := s.passes + 1)
  }

  /** cacheTextMessage and cacheACK */
  function Remember(k: Settings, s: State, e: ChatCache.Event): State {
    s.(chat := ChatCache.Cached(s.chat, e, k.maxChatCache), heard := s.heard + [e])
  }

  /** Cache an outgoing text, then queue the frame for the node if there is room. */
  function Forwarded(k: Settings, s: State, id: nat, now: U32, room: bool): State {
    if id !in s.readers || !s.readers[id].Forwarding? then s
    else
      var msg := s.readers[id].msg;
      var f := if msg.ToPacket? then AsFromRadio(msg.packet, s.loop.myNodeNum, now) else Unparseable([]);
      var t := if f.IsText() then Remember(k, s, ChatCache.Message(f)) else s;
      t.(readers := t.readers[id := Idle], toNode := t.toNode + if room then [Outgoing(msg, id)] else [])
  }

  /** The node's read loop; a lost connection drains fromNode. */
  function NodeStepped(s: State, e: NodeLoop.Event): State {
    match e
    case Received(f, _, _) =>
      if s.pushing.Some? then s else s.(loop := NodeLoop.Step(s.loop, e), pushing := Some(f))
    case Disconnected => s.(loop := NodeLoop.Step(s.loop, e), pushing := None, fromNode := [])
    case _ => s.(loop := NodeLoop.Step(s.loop, e))
  }

  function Pushed(k: Settings, s: State): State {
    if s.pushing.None? || |s.fromNode| >= k.fromBuffer then s
    else s.(pushing := None, fromNode := s.fromNode + [s.pushing.value])
  }

  /** broadcastLoop: suppress config frames, keep chat and its ACKs. */
  function Taken(k: Settings, s: State): State {
    if s.fromNode == [] || s.pending.Some? || BroadcastLoop in s.casts then s
    else
      var f, t := s.fromNode[0], s.(fromNode := s.fromNode[1..]);
      if f.IsConfig() then t
      else
        var u :=
          if f.IsText() then Remember(k, t, ChatCache.Message(f))
          else if f.AckedId().Some? then Remember(k, t, ChatCache.Ack(f.AckedId().value, f))
          else t;
        u.(pending := Some(f))
  }

  function CastStarted(s: State): State {
    if s.pending.None? || BroadcastLoop in s.casts then s
    else
      var x := Cast(s.pending.value, Broadcast(s.passes), s.registry, None);
      s.(pending := None, casts := s.casts[BroadcastLoop := x], passes := s.passes + 1)
  }

  /** Send to one target under the read lock. A refused Send calls Close, whose
      callback needs the write lock: the goroutine now waits for that Close. */
  function CastSent(k: Settings, s: State, a: Actor, id: nat): State {
    if a !in s.casts || s.casts[a].stuck.Some? || id !in s.casts[a].remaining || id !in s.clients then s
    else
      var x, c := s.casts[a], s.clients[id];
      With(s, id, Send(k, c, Item(x.frame, x.source)))
        .(casts := s.casts[a := x.(remaining := x.remaining - {id},
                                   stuck := if |c.queue| < k.sendBuffer then None else Some(id))])
  }

  /** The Close it waited for has returned. */
  function CastResumed(s: State, a: Actor): State {
    if a !in s.casts || s.casts[a].stuck.None? then s
    else
      var id := s.casts[a].stuck.value;
      if id in s.clients && s.clients[id].closed then s.(casts := s.casts[a := s.casts[a].(stuck := None)])
      else s
  }

  /** Release the read lock; an echoing read loop goes on to forward its frame. */
  function CastEnded(s: State, a: Actor): State {
    if a !in s.casts || s.casts[a].stuck.Some? || s.casts[a].remaining != {} then s
    else
      var t := s.(casts := s.casts - {a});
      if a.ReadLoop? && a.id in s.readers && s.readers[a.id].Echoing?
      then t.(readers := t.readers[a.id := Forwarding(s.readers[a.id].echo)]) else t
  }

  /** unregisterClient, inside closeOnce: needs the write lock. */
  function CloseEnded(s: State, id: nat): State {
    if id !in s.clients || !s.clients[id].shut || s.clients[id].closed || s.casts != map[] then s
    else With(s, id, CalledBack(s.clients[id])).(registry := s.registry - {id})
  }

  /** The steps that touch one client only. */
  function ClientStep(k: Settings, s: State, e: Event, c: Client): Client {
    match e
    case TakeReplayLock(_, i) => Lock(c, i, s.loop.cache)
    case SendReplayFrame(_) => ReplaySend(k, c)
    case ChatDecision(_) => DecideChat(k, c, s.chat, |s.heard|)
    case ReleaseReplayLock(_) => Unlock(c)
    case CloseStart(_, why) => Closed(c, why)
    case ConnClose(_) => ConnClosed(c)
    case WriteStart(_) => WriterTake(c)
    case WriteEnd(_) => WriterDone(c)
    case WriteStop(_) => WriterStops(c)
    case _ => c
  }

  function Next(k: Settings, s: State, e: Event): State {
    match e
    case Accept(id) => Accepted(k, s, id)
    case Speak(id, msg) => Spoken(s, id, msg)
    case EchoStart(id, now) => EchoStarted(s, id, now)
    case Forward(id, now, room) => Forwarded(k, s, id, now, room)
    case ReaderResumes(id) => Resumed(s, id)
    case NodeEvent(n) => NodeStepped(s, n)
    case NodePush => Pushed(k, s)
    case HubTake => Taken(k, s)
    case HubStart => CastStarted(s)
    case CastSend(a, id) => CastSent(k, s, a, id)
    case CastResume(a) => CastResumed(s, a)
    case CastEnd(a) => CastEnded(s, a)
    case CloseEnd(id) => CloseEnded(s, id)
    case _ => if e.id in s.clients then With(s, e.id, ClientStep(k, s, e, s.clients[e.id])) else s
  }

  function RunFrom(k: Settings, s: State, es: seq<Event>): State {
    if es == [] then s else Next(k, RunFrom(k, s, es[..|es| - 1]), es[|es| - 1])
  }

  // -------------------------------------------------------------- invariants

  predicate Forwardable(m: ToRadio) {
    !m.WantConfigId? && !m.Disconnect?
  }

  predicate ReaderOk(r: Reader) {
    && (r.Echoing? ==> r.echo.ToPacket?)
    && (r.Forwarding? ==> Forwardable(r.msg))
  }

  predicate CastOk(s: State, a: Actor, x: Cast) {
    && x.remaining <= s.registry
    && !x.source.Replayed? && !x.frame.IsConfig()
    && (x.stuck.Some? ==> x.stuck.value in s.registry)
  }

  predicate RegistryInv(k: Settings, s: State) {
    && s.registry <= s.clients.Keys
    && |s.registry| <= k.maxClients
    && forall id :: id in s.clients ==> (id in s.registry <==> !s.clients[id].closed)
  }

  predicate TrafficInv(s: State) {
    && (forall id :: id in s.readers ==> ReaderOk(s.readers[id]))
    && (forall x :: x in s.toNode ==> Forwardable(x.msg))
    && (forall e :: e in s.chat ==> EntryOk(e))
    && (s.pending.Some? ==> !s.pending.value.IsConfig())
  }

  predicate EntryOk(e: ChatCache.Entry) {
    e.message.IsPacket() && (e.ack.Some? ==> e.ack.value.IsPacket())
  }

  predicate CastsInv(s: State) {
    forall a :: a in s.casts ==> CastOk(s, a, s.casts[a])
  }

  predicate ClientsInv(k: Settings, s: State) {
    forall id :: id in s.clients ==> Clients.Inv(k, s.clients[id])
  }

  predicate Inv(k: Settings, s: State) {
    ClientsInv(k, s) && RegistryInv(k, s) && TrafficInv(s) && CastsInv(s) && NodeLoop.Inv(s.loop)
  }

  // ------------------------------------------------- every step keeps them

  /** One client changed, and neither reopened nor left the registry. */
  lemma OneClient(k: Settings, s: State, id: nat, c: Client)
    requires Inv(k, s) && id in s.clients && Clients.Inv(k, c) && c.closed == s.clients[id].closed
    ensures Inv(k, With(s, id, c))
  {
    hide Clients.Inv;
  }

  lemma AcceptKeeps(k: Settings, s: State, id: nat)
    requires Inv(k, s)
    ensures Inv(k, Accepted(k, s, id))
  {
    hide Clients.Inv;
    NewInv(k);
  }

  lemma SpeakKeeps(k: Settings, s: State, id: nat, msg: ToRadio)
    requires Inv(k, s)
    ensures Inv(k, Spoken(s, id, msg))
  {
    hide Clients.Inv, Ask, Closed, NodeLoop.Inv;
    if id in s.clients && id in s.readers && s.readers[id] == Idle {
      var c := s.clients[id];
      match msg
      case WantConfigId(nonce) =>
        AskKeeps(k, c, nonce);
        SameClosed(c, nonce, None);
        OneClient(k, s, id, Ask(c, nonce));
      case Disconnect =>
        CloseKeeps(k, c, Some(ClientSent));
        SameClosed(c, 0, Some(ClientSent));
        OneClient(k, s, id, Closed(c, Some(ClientSent)));
      case _ =>
    }
  }

  lemma SameClosed(c: Client, nonce: U32, why: Option<Reason>)
    ensures Ask(c, nonce).closed == c.closed && Closed(c, why).closed == c.closed
  {
  }

  lemma ChatOk(log: seq<ChatCache.Entry>, e: ChatCache.Event, max: int)
    requires forall x :: x in log ==> EntryOk(x)
    requires if e.Message? then e.text.IsPacket() else e.ack.IsPacket()
    ensures forall x :: x in ChatCache.Cached(log, e, max) ==> EntryOk(x)
  {
    var next := ChatCache.Cached(log, e, max);
    forall i | 0 <= i < |next| ensures EntryOk(next[i]) {
      if max > 0 && e.Message? {
        assert next[i] in log || next[i].message == e.text;
      } else {
        assert log[i] in log;
      }
    }
  }

  lemma ForwardKeeps(k: Settings, s: State, id: nat, now: U32, room: bool)
    requires Inv(k, s)
    ensures Inv(k, Forwarded(k, s, id, now, room))
  {
    hide Clients.Inv;
    if id in s.readers && s.readers[id].Forwarding? && s.readers[id].msg.ToPacket? {
      ChatOk(s.chat, ChatCache.Message(AsFromRadio(s.readers[id].msg.packet, s.loop.myNodeNum, now)), k.maxChatCache);
    }
  }

  lemma TakeKeeps(k: Settings, s: State)
    requires Inv(k, s)
    ensures Inv(k, Taken(k, s))
  {
    hide Clients.Inv;
    if s.fromNode != [] {
      var f := s.fromNode[0];
      if f.IsText() {
        ChatOk(s.chat, ChatCache.Message(f), k.maxChatCache);
      } else if f.AckedId().Some? {
        ChatOk(s.chat, ChatCache.Ack(f.AckedId().value, f), k.maxChatCache);
      }
    }
  }

  lemma NodeKeeps(k: Settings, s: State, e: NodeLoop.Event)
    requires Inv(k, s)
    ensures Inv(k, NodeStepped(s, e))
  {
    hide Clients.Inv, NodeLoop.Inv;
    NodeLoop.NextKeepsInv(s.loop, e);
  }

  lemma PushKeeps(k: Settings, s: State)
    requires Inv(k, s)
    ensures Inv(k, Pushed(k, s))
  {
    hide Clients.Inv;
  }

  lemma CastKeeps(k: Settings, s: State, a: Actor, id: nat)
    requires Inv(k, s)
    ensures Inv(k, CastSent(k, s, a, id))
  {
    hide Clients.Inv;
    if a in s.casts && id in s.clients {
      assert CastOk(s, a, s.casts[a]);
      SendKeeps(k, s.clients[id], Item(s.casts[a].frame, s.casts[a].source));
      OneClient(k, s, id, Send(k, s.clients[id], Item(s.casts[a].frame, s.casts[a].source)));
    }
  }

  lemma CastStartKeeps(k: Settings, s: State, id: nat, now: U32)
    requires Inv(k, s)
    ensures Inv(k, EchoStarted(s, id, now)) && Inv(k, CastStarted(s))
  {
    hide Clients.Inv;
  }

  lemma CastEndKeeps(k: Settings, s: State, a: Actor)
    requires Inv(k, s)
    ensures Inv(k, CastResumed(s, a)) && Inv(k, CastEnded(s, a))
  {
    hide Clients.Inv;
  }

  lemma ResumeKeeps(k: Settings, s: State, id: nat)
    requires Inv(k, s)
    ensures Inv(k, Resumed(s, id))
  {
    hide Clients.Inv;
  }

  lemma CloseEndKeeps(k: Settings, s: State, id: nat)
    requires Inv(k, s)
    ensures Inv(k, CloseEnded(s, id))
  {
    hide Clients.Inv;
    if id in s.clients && s.clients[id].shut {
      CloseKeeps(k, s.clients[id], None);
    }
  }

  lemma ClientStepKeeps(k: Settings, s: State, e: Event, c: Client)
    requires Inv(k, s) && Clients.Inv(k, c)
    ensures Clients.Inv(k, ClientStep(k, s, e, c)) && ClientStep(k, s, e, c).closed == c.closed
  {
    hide Clients.Inv;
    match e
    case TakeReplayLock(_, i) => LockKeeps(k, c, i, s.loop.cache);
    case SendReplayFrame(_) => ReplaySendKeeps(k, c);
    case ChatDecision(_) => DecideChatKeeps(k, c, s.chat, |s.heard|);
    case ReleaseReplayLock(_) => UnlockKeeps(k, c);
    case CloseStart(_, why) => CloseKeeps(k, c, why);
    case ConnClose(_) => CloseKeeps(k, c, None);
    case WriteStart(_) => WriterKeeps(k, c);
    case WriteEnd(_) => WriterKeeps(k, c);
    case WriteStop(_) => WriterKeeps(k, c);
    case _ =>
  }

  lemma ClientEventKeeps(k: Settings, s: State, e: Event, id: nat)
    requires Inv(k, s) && id in s.clients
    ensures Inv(k, With(s, id, ClientStep(k, s, e, s.clients[id])))
  {
    hide Clients.Inv;
    ClientStepKeeps(k, s, e, s.clients[id]);
    OneClient(k, s, id, ClientStep(k, s, e, s.clients[id]));
  }

  lemma NextKeeps(k: Settings, s: State, e: Event)
    requires Inv(k, s)
    ensures Inv(k, Next(k, s, e))
  {
    hide Inv;
    match e
    case Accept(id) => AcceptKeeps(k, s, id);
    case Speak(id, msg) => SpeakKeeps(k, s, id, msg);
    case EchoStart(id, now) => CastStartKeeps(k, s, id, now);
    case Forward(id, now, room) => ForwardKeeps(k, s, id, now, room);
    case ReaderResumes(id) => ResumeKeeps(k, s, id);
    case NodeEvent(n) => NodeKeeps(k, s, n);
    case NodePush => PushKeeps(k, s);
    case HubTake => TakeKeeps(k, s);
    case HubStart => CastStartKeeps(k, s, 0, 0);
    case CastSend(a, id) => CastKeeps(k, s, a, id);
    case CastResume(a) => CastEndKeeps(k, s, a);
    case CastEnd(a) => CastEndKeeps(k, s, a);
    case CloseEnd(id) => CloseEndKeeps(k, s, id);
    case _ =>
      if e.id in s.clients {
        ClientEventKeeps(k, s, e, e.id);
      }
  }

  lemma {:induction false} RunKeeps(k: Settings, s: State, es: seq<Event>)
    requires Inv(k, s)
    ensures Inv(k, RunFrom(k, s, es))
    decreases es
  {
    hide Inv;
    if es != [] {
      RunKeeps(k, s, es[..|es| - 1]);
      NextKeeps(k, RunFrom(k, s, es[..|es| - 1]), es[|es| - 1]);
    }
  }

  lemma Reachable(k: Settings, es: seq<Event>)
    ensures Inv(k, RunFrom(k, START, es))
  {
    RunKeeps(k, START, es);
  }
}
