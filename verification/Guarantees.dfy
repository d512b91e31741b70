/** What holds of the proxy in every state of every run (see Hub for the runs). */
module Guarantees {
  import opened Wrappers
  import opened Radio
  import opened ConfigCache
  import opened ReplayFilter
  import opened Clients
  import opened Hub

  function Reached(k: Settings, es: seq<Event>): State {
    RunFrom(k, Hub.START, es)
  }

  lemma ClientReached(k: Settings, es: seq<Event>, id: nat)
    requires id in Reached(k, es).clients
    ensures Clients.Inv(k, Reached(k, es).clients[id])
  {
    hide Clients.Inv;
    Reachable(k, es);
  }

  // -------------------------------------------------------------- replays

  predicate Holding(c: Client, i: nat) {
    c.locked && i == |c.replays| - 1
  }

  /** Replays to one client never interleave: the replay frames its queue accepted
      are, in lock order, each replay's script up to where it got, and every replay
      that released the lock got to the end unless a Send to it was refused. */
  lemma ReplaysAreSerial(k: Settings, es: seq<Event>, id: nat)
    requires id in Reached(k, es).clients
    ensures var c := Reached(k, es).clients[id];
            && Bounded(c.replays)
            && ReplayFrames(c.accepted) == Delivered(c.replays)
            && forall i :: 0 <= i < |c.replays| && !Holding(c, i) ==>
                 c.replays[i].sent == |Script(c.replays[i])| || (c.replays[i].cut && c.refused && c.closed)
  {
    ClientReached(k, es, id);
    var c := Reached(k, es).clients[id];
    forall i | 0 <= i < |c.replays| && !Holding(c, i)
      ensures c.replays[i].sent == |Script(c.replays[i])| || (c.replays[i].cut && c.refused && c.closed)
    {
      assert ReplayInv(k, c.replays, c.locked, c.refused, i);
    }
  }

  /** Every want_config_id is waiting for the lock or was given one replay. */
  lemma EveryRequestOneReplay(k: Settings, es: seq<Event>, id: nat)
    requires id in Reached(k, es).clients
    ensures var c := Reached(k, es).clients[id];
            multiset(c.asked) == multiset(c.waiting) + multiset(Nonces(c.replays))
  {
    ClientReached(k, es, id);
  }

  /** A replay that ran to its end answers the request it serves: its config part
      ends with its only ConfigComplete, under the request's nonce, and chat packets
      follow exactly when the two-phase rule says so. */
  lemma FinishedReplayAnswers(k: Settings, es: seq<Event>, id: nat, i: nat)
    requires id in Reached(k, es).clients
    requires var c := Reached(k, es).clients[id];
             i < |c.replays| && !Holding(c, i) && !c.replays[i].cut && c.replays[i].config != []
    ensures var c := Reached(k, es).clients[id];
            var r := c.replays[i];
            var p := Plan(r.config, r.nonce);
            && r.sent == |Script(r)| && Script(r)[..|p|] == p && Script(r)[|p|..] == ChatFrames(r)
            && p != [] && p[|p| - 1].IsComplete() && p[|p| - 1].body.nonce == r.nonce
            && (forall j :: 0 <= j < |p| - 1 ==> !p[j].IsComplete())
            && (forall f :: f in ChatFrames(r) ==> f.IsPacket())
            && (r.chat.Included? <==> ChatDue(k, c.replays, i))
  {
    ClientReached(k, es, id);
    var c := Reached(k, es).clients[id];
    assert ReplayInv(k, c.replays, c.locked, c.refused, i);
    ReplayEndsOnce(c.replays[i].config, c.replays[i].nonce);
  }

  /** Every ConfigComplete ever queued for a client came from a replay and carries
      a nonce that client sent; other config frames come from replays only. */
  lemma OnlyOwnNonces(k: Settings, es: seq<Event>, id: nat, x: Item)
    requires id in Reached(k, es).clients && x in Reached(k, es).clients[id].accepted
    ensures x.frame.IsConfig() ==> x.source.Replayed?
    ensures x.frame.IsComplete() ==> x.frame.body.nonce in Reached(k, es).clients[id].asked
  {
    ClientReached(k, es, id);
    assert ItemOk(x, Reached(k, es).clients[id].asked);
  }

  /** No client's want_config_id or disconnect reaches the node queue. */
  lemma InterceptedNeverForwarded(k: Settings, es: seq<Event>)
    ensures forall x :: x in Reached(k, es).toNode ==> !x.msg.WantConfigId? && !x.msg.Disconnect?
  {
    hide Clients.Inv;
    Reachable(k, es);
    forall x | x in Reached(k, es).toNode ensures !x.msg.WantConfigId? && !x.msg.Disconnect? {
      assert Forwardable(x.msg);
    }
  }

  // ------------------------------------------------------------- the queue

  /** Written, in flight and buffered frames are the accepted ones in order, and a
      client that is still open was never refused anything addressed to it. */
  lemma QueueHasNoGaps(k: Settings, es: seq<Event>, id: nat)
    requires id in Reached(k, es).clients
    ensures var c := Reached(k, es).clients[id];
            && c.accepted == c.written + InFlight(c) + c.queue
            && |c.queue| <= k.sendBuffer
            && (!c.closing ==> c.accepted == c.offered)
  {
    ClientReached(k, es, id);
  }

  // ----------------------------------------------------------- the registry

  /** The registry is within its limit and holds exactly the clients whose close
      callback has not run; the callback runs at most once. */
  lemma RegistryIsBounded(k: Settings, es: seq<Event>)
    ensures var s := Reached(k, es);
            && |s.registry| <= k.maxClients
            && s.registry == (set id | id in s.clients && !s.clients[id].closed)
            && forall id :: id in s.clients ==> s.clients[id].callbacks == if s.clients[id].closed then 1 else 0
  {
    Reachable(k, es);
    var s := Reached(k, es);
    forall id | id in s.clients ensures s.clients[id].callbacks == if s.clients[id].closed then 1 else 0 {
      assert Clients.Inv(k, s.clients[id]);
    }
  }

  /** What a client can never take back. */
  predicate Later(c: Client, d: Client) {
    && (c.closing ==> d.closing)
    && (c.closed ==> d.closed)
    && (c.reason.Some? ==> d.reason == c.reason)
    && (c.phase.config ==> d.phase.config) && (c.phase.nodes ==> d.phase.nodes)
    && c.accepted <= d.accepted
    && c.written <= d.written
    && c.asked <= d.asked
    && (c.shut ==> d.shut)
    && (c.stopped ==> d.stopped && c.queue <= d.queue)
    && (c.shut && c.inFlight.Some? ==> d.inFlight == c.inFlight && c.queue <= d.queue)
  }

  lemma SendIsLater(k: Settings, c: Client, x: Item)
    ensures Later(c, Send(k, c, x))
  {
  }

  lemma ReplaySendIsLater(k: Settings, c: Client)
    ensures Later(c, ReplaySend(k, c))
  {
    if Active(c).Some? && Active(c).value.sent < |Script(Active(c).value)| {
      SendIsLater(k, c, Item(Script(Active(c).value)[Active(c).value.sent], Replayed));
    }
  }

  lemma ClientStepIsLater(k: Settings, s: State, e: Event, c: Client)
    ensures Later(c, ClientStep(k, s, e, c))
  {
    hide Lock, ReplaySend, DecideChat, Unlock, Closed, ConnClosed, WriterTake, WriterDone, WriterStops, Later;
    match e
    case TakeReplayLock(_, i) => LockIsLater(c, i, s.loop.cache);
    case SendReplayFrame(_) => ReplaySendIsLater(k, c);
    case ChatDecision(_) => ReplayEndIsLater(k, c, s.chat, |s.heard|);
    case ReleaseReplayLock(_) => ReplayEndIsLater(k, c, s.chat, 0);
    case CloseStart(_, why) => CloseIsLater(c, why);
    case ConnClose(_) => CloseIsLater(c, None);
    case WriteStart(_) => WriterIsLater(c);
    case WriteEnd(_) => WriterIsLater(c);
    case WriteStop(_) => WriterIsLater(c);
    case _ => CloseIsLater(c, None);
  }

  lemma LockIsLater(c: Client, i: nat, cache: Cache)
    ensures Later(c, Lock(c, i, cache))
  {
  }

  lemma ReplayEndIsLater(k: Settings, c: Client, entries: seq<ChatCache.Entry>, heard: nat)
    ensures Later(c, DecideChat(k, c, entries, heard)) && Later(c, Unlock(c))
  {
    hide ChatScript, Plan, ShouldReplayChat, Script;
  }

  lemma CloseIsLater(c: Client, why: Option<Reason>)
    ensures Later(c, Closed(c, why)) && Later(c, ConnClosed(c)) && Later(c, c)
  {
  }

  lemma WriterIsLater(c: Client)
    ensures Later(c, WriterTake(c)) && Later(c, WriterDone(c)) && Later(c, WriterStops(c))
  {
    assert c.written <= WriterDone(c).written;
  }

  lemma TrafficLeavesClients(k: Settings, s: State, id: nat, now: U32, room: bool, n: NodeLoop.Event, a: Actor)
    ensures EchoStarted(s, id, now).clients == s.clients && Forwarded(k, s, id, now, room).clients == s.clients
    ensures Resumed(s, id).clients == s.clients && NodeStepped(s, n).clients == s.clients
    ensures Pushed(k, s).clients == s.clients && Taken(k, s).clients == s.clients && CastStarted(s).clients == s.clients
    ensures CastResumed(s, a).clients == s.clients && CastEnded(s, a).clients == s.clients
  {
    hide ChatCache.Cached, NodeLoop.Step, AsFromRadio;
  }

  /** The steps of the proxy's own traffic, by event. */
  predicate Traffic(e: Event) {
    || e.EchoStart? || e.Forward? || e.ReaderResumes? || e.NodeEvent? || e.NodePush? || e.HubTake? || e.HubStart?
    || e.CastResume? || e.CastEnd?
  }

  lemma TrafficStep(k: Settings, s: State, e: Event)
    requires Traffic(e)
    ensures Next(k, s, e).clients == s.clients
  {
    hide EchoStarted, Forwarded, Resumed, NodeStepped, Pushed, Taken, CastStarted, CastResumed, CastEnded;
    match e
    case EchoStart(i, now) => TrafficLeavesClients(k, s, i, now, false, NodeLoop.Connected, BroadcastLoop);
    case Forward(i, now, room) => TrafficLeavesClients(k, s, i, now, room, NodeLoop.Connected, BroadcastLoop);
    case ReaderResumes(i) => TrafficLeavesClients(k, s, i, 0, false, NodeLoop.Connected, BroadcastLoop);
    case NodeEvent(n) => TrafficLeavesClients(k, s, 0, 0, false, n, BroadcastLoop);
    case NodePush => TrafficLeavesClients(k, s, 0, 0, false, NodeLoop.Connected, BroadcastLoop);
    case HubTake => TrafficLeavesClients(k, s, 0, 0, false, NodeLoop.Connected, BroadcastLoop);
    case HubStart => TrafficLeavesClients(k, s, 0, 0, false, NodeLoop.Connected, BroadcastLoop);
    case CastResume(a) => TrafficLeavesClients(k, s, 0, 0, false, NodeLoop.Connected, a);
    case CastEnd(a) => TrafficLeavesClients(k, s, 0, 0, false, NodeLoop.Connected, a);
  }

  /** How a step can change one client. */
  lemma ClientAfter(k: Settings, s: State, e: Event, id: nat)
    requires id in s.clients
    ensures id in Next(k, s, e).clients
    ensures var c, d := s.clients[id], Next(k, s, e).clients[id];
            || d == c
            || d == ClientStep(k, s, e, c)
            || (e.Speak? && e.msg.WantConfigId? && d == Ask(c, e.msg.nonce))
            || (e.Speak? && d == Closed(c, Some(ClientSent)))
            || (e.CastSend? && e.actor in s.casts &&
                d == Send(k, c, Item(s.casts[e.actor].frame, s.casts[e.actor].source)))
            || (e.CloseEnd? && d == CalledBack(c))
  {
    hide ClientStep, Ask, Closed, Clients.Send, CalledBack;
    hide EchoStarted, Forwarded, Resumed, NodeStepped, Pushed, Taken, CastStarted, CastResumed, CastEnded;
    if Traffic(e) {
      TrafficStep(k, s, e);
    }
  }

  lemma ClientBorn(k: Settings, s: State, e: Event, id: nat)
    requires id !in s.clients && id in Next(k, s, e).clients
    ensures Next(k, s, e).clients[id] == NEW
  {
    hide ClientStep, Ask, Closed, Clients.Send, CalledBack;
    hide EchoStarted, Forwarded, Resumed, NodeStepped, Pushed, Taken, CastStarted, CastResumed, CastEnded;
    if Traffic(e) {
      TrafficStep(k, s, e);
    }
  }

  lemma StepIsLater(k: Settings, s: State, e: Event, id: nat)
    requires id in s.clients
    ensures id in Next(k, s, e).clients && Later(s.clients[id], Next(k, s, e).clients[id])
  {
    hide Next, ClientStep, Clients.Send;
    ClientAfter(k, s, e, id);
    ClientStepIsLater(k, s, e, s.clients[id]);
    if e.CastSend? && e.actor in s.casts {
      SendIsLater(k, s.clients[id], Item(s.casts[e.actor].frame, s.casts[e.actor].source));
    }
  }

  /** A closed client stays closed and unregistered, the first disconnect reason is
      kept, phase bits only grow, and nothing queued or written is undone. */
  lemma {:induction false} HistoryIsKept(k: Settings, es: seq<Event>, more: seq<Event>, id: nat)
    requires id in Reached(k, es).clients
    ensures id in Reached(k, es + more).clients
    ensures Later(Reached(k, es).clients[id], Reached(k, es + more).clients[id])
    ensures Reached(k, es).clients[id].closed ==> id !in Reached(k, es + more).registry
    ensures Reached(k, es).heard <= Reached(k, es + more).heard
    decreases more
  {
    hide Clients.Inv, Next;
    if more == [] {
      assert es + more == es;
    } else {
      var init := more[..|more| - 1];
      HistoryIsKept(k, es, init, id);
      assert (es + more)[..|es + more| - 1] == es + init;
      StepIsLater(k, Reached(k, es + init), more[|more| - 1], id);
      ChatStep(k, Reached(k, es + init), more[|more| - 1]);
    }
    Reachable(k, es + more);
  }

  // -------------------------------------------------------- which chat is replayed

  /** The chat part was decided after the first `heard` chat events, and is the chat
      cache they leave. */
  predicate PartHeard(k: Settings, part: ChatPart, heard: seq<ChatCache.Event>) {
    part.Included? ==>
      && part.heard <= |heard|
      && part.frames == ChatScript(ChatCache.CacheAfter(heard[..part.heard], k.maxChatCache))
  }

  predicate PartsHeard(k: Settings, c: Client, heard: seq<ChatCache.Event>) {
    forall r :: r in c.replays ==> PartHeard(k, r.chat, heard)
  }

  predicate ChatInv(k: Settings, s: State) {
    && s.chat == ChatCache.CacheAfter(s.heard, k.maxChatCache)
    && forall id :: id in s.clients ==> PartsHeard(k, s.clients[id], s.heard)
  }

  /** No step changes the chat cache but by handling one more chat event. */
  predicate OneChatStep(k: Settings, s: State, t: State) {
    || (t.heard == s.heard && t.chat == s.chat)
    || (|t.heard| == |s.heard| + 1 && t.heard == s.heard + [t.heard[|s.heard|]] &&
        t.chat == ChatCache.Cached(s.chat, t.heard[|s.heard|], k.maxChatCache))
  }

  lemma ForwardedChat(k: Settings, s: State, id: nat, now: U32, room: bool)
    ensures OneChatStep(k, s, Forwarded(k, s, id, now, room))
  {
    hide ChatCache.Cached, AsFromRadio;
  }

  lemma TakenChat(k: Settings, s: State)
    ensures OneChatStep(k, s, Taken(k, s))
  {
    hide ChatCache.Cached;
  }

  lemma ChatStep(k: Settings, s: State, e: Event)
    ensures OneChatStep(k, s, Next(k, s, e))
  {
    hide ChatCache.Cached, ClientStep, AsFromRadio, NodeLoop.Step, Clients.Send, Forwarded, Taken;
    match e
    case Forward(id, now, room) => ForwardedChat(k, s, id, now, room);
    case HubTake => TakenChat(k, s);
    case _ =>
  }

  lemma MoreHeard(k: Settings, part: ChatPart, heard: seq<ChatCache.Event>, more: seq<ChatCache.Event>)
    requires PartHeard(k, part, heard) && heard <= more
    ensures PartHeard(k, part, more)
  {
    if part.Included? {
      assert more[..part.heard] == heard[..part.heard];
    }
  }

  /** The replays of d are those of c with the same chat parts, but for a last one
      that includes no chat. */
  predicate SameParts(c: Client, d: Client) {
    forall r :: r in d.replays ==> r.chat.Included? ==> exists q :: q in c.replays && q.chat == r.chat
  }

  lemma SendSameParts(k: Settings, c: Client, x: Item)
    ensures SameParts(c, Clients.Send(k, c, x))
  {
  }

  lemma ReplaySendSameParts(k: Settings, c: Client)
    ensures SameParts(c, ReplaySend(k, c))
  {
    hide Script;
    if Active(c).Some? {
      assert Active(c).value in c.replays;
    }
  }

  lemma LockSameParts(c: Client, i: nat, cache: Cache)
    ensures SameParts(c, Lock(c, i, cache))
  {
  }

  lemma PartsKept(k: Settings, c: Client, d: Client, heard: seq<ChatCache.Event>, more: seq<ChatCache.Event>)
    requires PartsHeard(k, c, heard) && SameParts(c, d) && heard <= more
    ensures PartsHeard(k, d, more)
  {
    hide PartHeard;
    forall r | r in d.replays ensures PartHeard(k, r.chat, more) {
      if r.chat.Included? {
        var q :| q in c.replays && q.chat == r.chat;
        MoreHeard(k, q.chat, heard, more);
      } else {
        NothingHeard(k, r.chat, more);
      }
    }
  }

  lemma NothingHeard(k: Settings, part: ChatPart, heard: seq<ChatCache.Event>)
    requires !part.Included?
    ensures PartHeard(k, part, heard)
  {
  }

  lemma DecisionHeard(k: Settings, c: Client, entries: seq<ChatCache.Entry>, heard: seq<ChatCache.Event>)
    requires PartsHeard(k, c, heard) && entries == ChatCache.CacheAfter(heard, k.maxChatCache)
    ensures PartsHeard(k, DecideChat(k, c, entries, |heard|), heard)
  {
    hide ChatCache.CacheAfter, Plan, ChatScript, ShouldReplayChat;
    assert heard[..|heard|] == heard;
  }

  lemma ClientStepHeard(k: Settings, s: State, e: Event, c: Client)
    requires PartsHeard(k, c, s.heard) && s.chat == ChatCache.CacheAfter(s.heard, k.maxChatCache)
    ensures PartsHeard(k, ClientStep(k, s, e, c), s.heard)
  {
    hide PartsHeard, Lock, ReplaySend, DecideChat, ChatCache.CacheAfter, SameParts;
    var d := ClientStep(k, s, e, c);
    match e
    case TakeReplayLock(_, i) =>
      LockSameParts(c, i, s.loop.cache);
      PartsKept(k, c, d, s.heard, s.heard);
    case SendReplayFrame(_) =>
      ReplaySendSameParts(k, c);
      PartsKept(k, c, d, s.heard, s.heard);
    case ChatDecision(_) => DecisionHeard(k, c, s.chat, s.heard);
    case _ =>
      SameReplaysSameParts(c, d);
      PartsKept(k, c, d, s.heard, s.heard);
  }

  lemma SameReplaysSameParts(c: Client, d: Client)
    requires d.replays == c.replays
    ensures SameParts(c, d)
  {
  }

  lemma ChatStepKeeps(k: Settings, s: State, e: Event)
    requires ChatInv(k, s)
    ensures ChatInv(k, Next(k, s, e))
  {
    hide Next, ClientStep, Clients.Send, PartsHeard, OneChatStep, ChatCache.Cached;
    ChatStep(k, s, e);
    var t := Next(k, s, e);
    ChatAndHeard(k, s, t);
    forall id | id in t.clients ensures PartsHeard(k, t.clients[id], t.heard) {
      if id in s.clients {
        ClientHeard(k, s, e, id);
      } else {
        ClientBorn(k, s, e, id);
        NewHeard(k, t.heard);
      }
    }
  }

  lemma NewHeard(k: Settings, heard: seq<ChatCache.Event>)
    ensures PartsHeard(k, NEW, heard)
  {
  }

  lemma ChatAndHeard(k: Settings, s: State, t: State)
    requires s.chat == ChatCache.CacheAfter(s.heard, k.maxChatCache) && OneChatStep(k, s, t)
    ensures t.chat == ChatCache.CacheAfter(t.heard, k.maxChatCache) && s.heard <= t.heard
  {
  }

  lemma ClientHeard(k: Settings, s: State, e: Event, id: nat)
    requires ChatInv(k, s) && id in s.clients && OneChatStep(k, s, Next(k, s, e))
    ensures id in Next(k, s, e).clients && PartsHeard(k, Next(k, s, e).clients[id], Next(k, s, e).heard)
  {
    hide Next, ClientStep, Clients.Send, PartsHeard, SameParts, ChatCache.Cached, ChatCache.CacheAfter;
    ClientAfter(k, s, e, id);
    var c, t := s.clients[id], Next(k, s, e);
    var d := t.clients[id];
    ClientStepHeard(k, s, e, c);
    SameReplaysSameParts(ClientStep(k, s, e, c), ClientStep(k, s, e, c));
    PartsKept(k, ClientStep(k, s, e, c), ClientStep(k, s, e, c), s.heard, t.heard);
    if d != ClientStep(k, s, e, c) {
      if e.CastSend? && e.actor in s.casts {
        SendSameParts(k, c, Item(s.casts[e.actor].frame, s.casts[e.actor].source));
      }
      if d.replays == c.replays {
        SameReplaysSameParts(c, d);
      }
      PartsKept(k, c, d, s.heard, t.heard);
    }
  }

  lemma {:induction false} ChatIsHeard(k: Settings, es: seq<Event>)
    ensures ChatInv(k, Reached(k, es))
    decreases es
  {
    hide Next;
    if es != [] {
      ChatIsHeard(k, es[..|es| - 1]);
      ChatStepKeeps(k, Reached(k, es[..|es| - 1]), es[|es| - 1]);
    }
  }

  /** In every reachable state the chat cache is the window of the log of all chat
      handled, and what a replay includes is the last maxChatCache entries of that
      log as it was when the replay decided: each message, then the ACK it had. */
  lemma ReplayedChat(k: Settings, es: seq<Event>, id: nat, i: nat)
    requires id in Reached(k, es).clients && i < |Reached(k, es).clients[id].replays|
    ensures var s := Reached(k, es);
            var part := s.clients[id].replays[i].chat;
            && s.chat == ChatCache.Window(ChatCache.LogAfter(s.heard), k.maxChatCache)
            && (part.Included? ==>
                && part.heard <= |s.heard|
                && part.frames ==
                   ChatScript(ChatCache.Window(ChatCache.LogAfter(s.heard[..part.heard]), k.maxChatCache)))
  {
    hide RunFrom, ChatCache.Window, ChatCache.LogAfter, ChatCache.CacheAfter;
    ChatIsHeard(k, es);
    var s := Reached(k, es);
    var r := s.clients[id].replays[i];
    assert PartHeard(k, r.chat, s.heard);
    ChatCache.CacheIsWindow(s.heard, k.maxChatCache);
    if r.chat.Included? {
      ChatCache.CacheIsWindow(s.heard[..r.chat.heard], k.maxChatCache);
    }
  }

  // --------------------------------------------------- broadcasts under lock

  predicate Stuck(s: State, a: Actor) {
    a in s.casts && s.casts[a].stuck.Some?
  }

  /** Nobody joins, nobody leaves, and this broadcast never ends. */
  predicate Frozen(s: State, t: State, a: Actor) {
    && a in s.casts
    && t.registry == s.registry
    && t.clients.Keys == s.clients.Keys
    && a in t.casts && t.casts[a] == s.casts[a]
  }

  /** The write lock is not to be had. */
  lemma StuckBlocksWriters(k: Settings, s: State, a: Actor, id: nat)
    requires a in s.casts
    ensures Accepted(k, s, id) == s && CloseEnded(s, id) == s && Frozen(s, s, a)
  {
  }

  lemma StuckBlocksCasts(k: Settings, s: State, a: Actor, b: Actor, id: nat, now: U32)
    requires RegistryInv(k, s) && CastsInv(s) && Stuck(s, a)
    ensures Frozen(s, CastSent(k, s, b, id), a) && Frozen(s, CastResumed(s, b), a) && Frozen(s, CastEnded(s, b), a)
    ensures Frozen(s, EchoStarted(s, id, now), a) && Frozen(s, CastStarted(s), a)
  {
    hide Clients.Send;
    assert CastOk(s, a, s.casts[a]);
  }

  lemma StuckIgnoresTraffic(k: Settings, s: State, a: Actor, id: nat, msg: ToRadio, now: U32, room: bool,
                            n: NodeLoop.Event)
    requires a in s.casts
    ensures Frozen(s, Spoken(s, id, msg), a) && Frozen(s, Resumed(s, id), a)
    ensures Frozen(s, Forwarded(k, s, id, now, room), a) && Frozen(s, NodeStepped(s, n), a)
    ensures Frozen(s, Pushed(k, s), a) && Frozen(s, Taken(k, s), a)
  {
    hide ChatCache.Cached, NodeLoop.Step, AsFromRadio, Ask, Closed;
  }

  lemma StuckIgnoresClient(s: State, a: Actor, id: nat, c: Client)
    requires a in s.casts
    ensures Frozen(s, if id in s.clients then With(s, id, c) else s, a)
  {
    assert id in s.clients ==> With(s, id, c).clients.Keys == s.clients.Keys;
  }

  lemma StuckStays(k: Settings, s: State, a: Actor, e: Event)
    requires Hub.Inv(k, s) && Stuck(s, a)
    ensures Frozen(s, Next(k, s, e), a)
  {
    hide ClientsInv, RegistryInv, CastsInv, TrafficInv, NodeLoop.Inv;
    hide ClientStep, Accepted, Spoken, EchoStarted, Forwarded, Resumed;
    hide NodeStepped, Pushed, Taken, CastStarted, CastSent, CastResumed, CastEnded, CloseEnded, Frozen, With;
    match e
    case Accept(id) => StuckBlocksWriters(k, s, a, id);
    case CloseEnd(id) => StuckBlocksWriters(k, s, a, id);
    case EchoStart(id, now) => StuckBlocksCasts(k, s, a, a, id, now);
    case HubStart => StuckBlocksCasts(k, s, a, a, 0, 0);
    case CastSend(b, id) => StuckBlocksCasts(k, s, a, b, id, 0);
    case CastResume(b) => StuckBlocksCasts(k, s, a, b, 0, 0);
    case CastEnd(b) => StuckBlocksCasts(k, s, a, b, 0, 0);
    case Speak(id, msg) => StuckIgnoresTraffic(k, s, a, id, msg, 0, false, NodeLoop.Connected);
    case ReaderResumes(id) => StuckIgnoresTraffic(k, s, a, id, Disconnect, 0, false, NodeLoop.Connected);
    case Forward(id, now, room) => StuckIgnoresTraffic(k, s, a, id, Disconnect, now, room, NodeLoop.Connected);
    case NodeEvent(n) => StuckIgnoresTraffic(k, s, a, 0, Disconnect, 0, false, n);
    case NodePush => StuckIgnoresTraffic(k, s, a, 0, Disconnect, 0, false, NodeLoop.Connected);
    case HubTake => StuckIgnoresTraffic(k, s, a, 0, Disconnect, 0, false, NodeLoop.Connected);
    case _ =>
      var c := if e.id in s.clients then ClientStep(k, s, e, s.clients[e.id]) else Clients.NEW;
      StuckIgnoresClient(s, a, e.id, c);
  }

  lemma {:induction false} StuckForever(k: Settings, s: State, a: Actor, more: seq<Event>)
    requires Hub.Inv(k, s) && Stuck(s, a)
    ensures Frozen(s, RunFrom(k, s, more), a)
    decreases more
  {
    hide Hub.Inv, Next;
    if more != [] {
      var init := more[..|more| - 1];
      StuckForever(k, s, a, init);
      RunKeeps(k, s, init);
      StuckStays(k, RunFrom(k, s, init), a, more[|more| - 1]);
    }
  }

  /** A broadcast step gets past a registered client exactly when that client's
      buffer has room. Otherwise the slow consumer is not disconnected: its Close
      waits for the lock its own broadcast holds, and on every continuation no
      client is ever accepted or unregistered again. */
  lemma OverflowWedges(k: Settings, es: seq<Event>, a: Actor, id: nat, more: seq<Event>)
    requires var s := Reached(k, es); a in s.casts && !Stuck(s, a) && id in s.casts[a].remaining
    ensures var s := Reached(k, es);
            var t := Next(k, s, CastSend(a, id));
            && id in s.clients
            && (Stuck(t, a) <==> |s.clients[id].queue| == k.sendBuffer)
            && (Stuck(t, a) ==> Frozen(t, RunFrom(k, t, more), a) && id in RunFrom(k, t, more).registry)
  {
    hide Clients.Inv;
    var s := Reached(k, es);
    Reachable(k, es);
    assert CastOk(s, a, s.casts[a]);
    QueueHasNoGaps(k, es, id);
    StuckAfterSend(k, s, a, id, more);
  }

  lemma StuckAfterSend(k: Settings, s: State, a: Actor, id: nat, more: seq<Event>)
    requires Hub.Inv(k, s) && id in s.registry
    ensures var t := Next(k, s, CastSend(a, id));
            Stuck(t, a) ==> Frozen(t, RunFrom(k, t, more), a) && id in RunFrom(k, t, more).registry
  {
    hide Hub.Inv;
    var t := Next(k, s, CastSend(a, id));
    NextKeeps(k, s, CastSend(a, id));
    if Stuck(t, a) {
      StuckForever(k, t, a, more);
    }
  }

  lemma {:induction false} RunCons(k: Settings, s: State, e: Event, es: seq<Event>)
    ensures RunFrom(k, s, [e] + es) == RunFrom(k, Next(k, s, e), es)
    decreases es
  {
    hide Next;
    if es == [] {
      assert [e] + es == [e] && [e][..0] == [];
    } else {
      RunCons(k, s, e, es[..|es| - 1]);
      assert ([e] + es)[..|es|] == [e] + es[..|es| - 1];
    }
  }

  /** The write loop will not take another frame: it has returned, or it is writing
      to a connection that Close has already closed. */
  predicate WriterEnded(c: Client) {
    c.stopped || (c.shut && c.inFlight.Some?)
  }

  /** The client's buffer has room, or its writer can still make some. */
  predicate CanTake(k: Settings, c: Client) {
    |c.queue| < k.sendBuffer || (k.sendBuffer > 0 && !WriterEnded(c))
  }

  /** The broadcast waits for a Close, or is to send to a full client whose writer
      will not take another frame. */
  predicate Blocked(k: Settings, s: State, a: Actor)
    requires a in s.casts
  {
    s.casts[a].stuck.Some? || exists id :: id in s.casts[a].remaining && id in s.clients && !CanTake(k, s.clients[id])
  }

  lemma WriterMakesRoom(k: Settings, s: State, id: nat)
    requires id in s.clients && CanTake(k, s.clients[id]) && |s.clients[id].queue| == k.sendBuffer
    ensures var c := WriterTake(WriterDone(s.clients[id]));
            RunFrom(k, s, [WriteEnd(id), WriteStart(id)]) == With(s, id, c) && |c.queue| < k.sendBuffer
  {
    hide Next;
    var c := s.clients[id];
    RunTwo(k, s, WriteEnd(id), WriteStart(id));
    WriterSteps(k, s, id);
    WriterSteps(k, With(s, id, WriterDone(c)), id);
    var d := WriterTake(WriterDone(c));
    assert s.clients[id := WriterDone(c)][id := d] == s.clients[id := d];
  }

  lemma WriterSteps(k: Settings, s: State, id: nat)
    requires id in s.clients
    ensures Next(k, s, WriteEnd(id)) == With(s, id, WriterDone(s.clients[id]))
    ensures Next(k, s, WriteStart(id)) == With(s, id, WriterTake(s.clients[id]))
  {
  }

  predicate Within(k: Settings, s: State) {
    forall id :: id in s.clients ==> |s.clients[id].queue| <= k.sendBuffer
  }

  /** One target of an unblocked broadcast is served, its writer first making room
      if need be. */
  lemma ServeOne(k: Settings, s: State, a: Actor, id: nat) returns (es: seq<Event>)
    requires a in s.casts && !Blocked(k, s, a) && Within(k, s)
    requires s.casts[a].remaining <= s.clients.Keys && id in s.casts[a].remaining
    ensures var t := RunFrom(k, s, es);
            && a in t.casts && t.casts[a] == s.casts[a].(remaining := s.casts[a].remaining - {id})
            && t.clients.Keys == s.clients.Keys && Within(k, t) && !Blocked(k, t, a)
  {
    hide Next;
    assert CanTake(k, s.clients[id]);
    var room: seq<Event>, c := [], s.clients[id];
    if |c.queue| == k.sendBuffer {
      WriterMakesRoom(k, s, id);
      room, c := [WriteEnd(id), WriteStart(id)], WriterTake(WriterDone(c));
    }
    var t := RunFrom(k, s, room);
    assert t.casts == s.casts && t.clients == s.clients[id := c] && |c.queue| < k.sendBuffer;
    es := room + [CastSend(a, id)];
    RunConcat(k, s, room, [CastSend(a, id)]);
    assert [CastSend(a, id)][..0] == [];
    Served(k, t, a, id);
    forall other | other in s.casts[a].remaining && other != id ensures CanTake(k, s.clients[other]) {
    }
  }

  lemma Served(k: Settings, s: State, a: Actor, id: nat)
    requires a in s.casts && s.casts[a].stuck.None? && id in s.casts[a].remaining
    requires id in s.clients && |s.clients[id].queue| < k.sendBuffer
    ensures var t := Next(k, s, CastSend(a, id));
            && a in t.casts && t.casts[a] == s.casts[a].(remaining := s.casts[a].remaining - {id})
            && t.clients.Keys == s.clients.Keys
            && (forall d :: d != id && d in s.clients ==> t.clients[d] == s.clients[d])
            && |t.clients[id].queue| <= k.sendBuffer
  {
  }

  /** An unblocked broadcast can complete and release its lock. */
  lemma {:induction false} BroadcastCanEnd(k: Settings, s: State, a: Actor) returns (es: seq<Event>)
    requires a in s.casts && !Blocked(k, s, a) && Within(k, s) && s.casts[a].remaining <= s.clients.Keys
    ensures a !in RunFrom(k, s, es).casts
    decreases |s.casts[a].remaining|
  {
    if s.casts[a].remaining == {} {
      es := [CastEnd(a)];
      assert es[..0] == [];
    } else {
      var id :| id in s.casts[a].remaining;
      var first := ServeOne(k, s, a, id);
      var rest := BroadcastCanEnd(k, RunFrom(k, s, first), a);
      RunConcat(k, s, first, rest);
      es := first + rest;
    }
  }

  /** Steps of other goroutines leave a broadcast alone, and so do its own that are
      not due. */
  lemma OthersLeaveCast(k: Settings, s: State, a: Actor, b: Actor, id: nat, now: U32)
    requires a in s.casts && s.casts[a].stuck.None? && s.casts[a].remaining != {}
    ensures Frozen(s, CastResumed(s, b), a) && Frozen(s, CastEnded(s, b), a)
    ensures Frozen(s, EchoStarted(s, id, now), a) && Frozen(s, CastStarted(s), a)
    ensures a != b || id !in s.casts[a].remaining ==> Frozen(s, CastSent(k, s, b, id), a)
  {
    hide Clients.Send, AsFromRadio;
  }

  /** What one step can do to a broadcast that still has targets. */
  lemma CastAfter(k: Settings, s: State, a: Actor, e: Event)
    requires a in s.casts && s.casts[a].stuck.None? && s.casts[a].remaining != {}
    ensures Frozen(s, Next(k, s, e), a) || (e.CastSend? && e.actor == a && e.target in s.casts[a].remaining)
  {
    hide ClientStep, Accepted, Spoken, EchoStarted, Forwarded, Resumed;
    hide NodeStepped, Pushed, Taken, CastStarted, CastSent, CastResumed, CastEnded, CloseEnded, Frozen, With;
    match e
    case Accept(id) => StuckBlocksWriters(k, s, a, id);
    case CloseEnd(id) => StuckBlocksWriters(k, s, a, id);
    case EchoStart(id, now) => OthersLeaveCast(k, s, a, a, id, now);
    case HubStart => OthersLeaveCast(k, s, a, a, 0, 0);
    case CastSend(b, id) => OthersLeaveCast(k, s, a, b, id, 0);
    case CastResume(b) => OthersLeaveCast(k, s, a, b, 0, 0);
    case CastEnd(b) => OthersLeaveCast(k, s, a, b, 0, 0);
    case Speak(id, msg) => StuckIgnoresTraffic(k, s, a, id, msg, 0, false, NodeLoop.Connected);
    case ReaderResumes(id) => StuckIgnoresTraffic(k, s, a, id, Disconnect, 0, false, NodeLoop.Connected);
    case Forward(id, now, room) => StuckIgnoresTraffic(k, s, a, id, Disconnect, now, room, NodeLoop.Connected);
    case NodeEvent(n) => StuckIgnoresTraffic(k, s, a, 0, Disconnect, 0, false, n);
    case NodePush => StuckIgnoresTraffic(k, s, a, 0, Disconnect, 0, false, NodeLoop.Connected);
    case HubTake => StuckIgnoresTraffic(k, s, a, 0, Disconnect, 0, false, NodeLoop.Connected);
    case _ =>
      var c := if e.id in s.clients then ClientStep(k, s, e, s.clients[e.id]) else Clients.NEW;
      StuckIgnoresClient(s, a, e.id, c);
  }

  lemma SendToTarget(k: Settings, s: State, a: Actor, id: nat)
    requires a in s.casts && s.casts[a].stuck.None? && id in s.casts[a].remaining && id in s.clients
    ensures var t := Next(k, s, CastSend(a, id));
            && t.registry == s.registry && t.clients.Keys == s.clients.Keys && a in t.casts
            && t.casts[a].remaining == s.casts[a].remaining - {id}
            && (t.casts[a].stuck.Some? <==> |s.clients[id].queue| >= k.sendBuffer)
  {
    hide Clients.Send;
  }

  lemma BlockedStays(k: Settings, s: State, a: Actor, e: Event)
    requires Hub.Inv(k, s) && a in s.casts && Blocked(k, s, a)
    ensures var t := Next(k, s, e); t.registry == s.registry && a in t.casts && Blocked(k, t, a)
  {
    hide Hub.Inv, Next, ClientStep, Later, CanTake;
    if Stuck(s, a) {
      StuckStays(k, s, a, e);
    } else {
      var id :| id in s.casts[a].remaining && id in s.clients && !CanTake(k, s.clients[id]);
      CastAfter(k, s, a, e);
      StepIsLater(k, s, e, id);
      StaysFull(k, s.clients[id], Next(k, s, e).clients[id]);
      if e.CastSend? && e.actor == a && e.target in s.casts[a].remaining {
        TargetsExist(k, s, a);
        SendToTarget(k, s, a, e.target);
        FullIsRefused(k, s.clients[id]);
      }
    }
  }

  lemma TargetsExist(k: Settings, s: State, a: Actor)
    requires Hub.Inv(k, s) && a in s.casts
    ensures s.casts[a].remaining <= s.clients.Keys && Within(k, s)
  {
    assert CastOk(s, a, s.casts[a]);
    forall id | id in s.clients ensures |s.clients[id].queue| <= k.sendBuffer {
      assert Clients.Inv(k, s.clients[id]);
    }
  }

  lemma StaysFull(k: Settings, c: Client, d: Client)
    requires !CanTake(k, c) && Later(c, d)
    ensures !CanTake(k, d)
  {
  }

  lemma FullIsRefused(k: Settings, c: Client)
    requires !CanTake(k, c)
    ensures |c.queue| >= k.sendBuffer
  {
  }

  lemma {:induction false} BlockedForever(k: Settings, s: State, a: Actor, more: seq<Event>)
    requires Hub.Inv(k, s) && a in s.casts && Blocked(k, s, a)
    ensures var t := RunFrom(k, s, more); t.registry == s.registry && a in t.casts && Blocked(k, t, a)
    decreases more
  {
    hide Hub.Inv, Next, Blocked;
    if more != [] {
      var init := more[..|more| - 1];
      BlockedForever(k, s, a, init);
      RunKeeps(k, s, init);
      BlockedStays(k, RunFrom(k, s, init), a, more[|more| - 1]);
    }
  }

  /** In every reachable state a broadcast can end on some continuation exactly when
      it is not blocked; a blocked one holds its lock for good, and the registry
      never changes again. */
  lemma BroadcastEndsIff(k: Settings, es: seq<Event>, a: Actor)
    requires a in Reached(k, es).casts
    ensures var s := Reached(k, es);
            && (!Blocked(k, s, a) <==> exists more :: a !in RunFrom(k, s, more).casts)
            && (Blocked(k, s, a) ==> forall more :: RunFrom(k, s, more).registry == s.registry)
  {
    hide Hub.Inv, RunFrom, Blocked;
    var s := Reached(k, es);
    Reachable(k, es);
    if Blocked(k, s, a) {
      forall more ensures RunFrom(k, s, more).registry == s.registry && a in RunFrom(k, s, more).casts {
        BlockedForever(k, s, a, more);
      }
    } else {
      TargetsExist(k, s, a);
      var more := BroadcastCanEnd(k, s, a);
    }
  }

  predicate HubIdle(s: State) {
    s.pushing.None? && s.fromNode == [] && s.pending.None? && BroadcastLoop !in s.casts
  }

  /** A frame's way from the node to the start of its broadcast. */
  function Arrival(f: Frame): seq<Event> {
    [NodeEvent(NodeLoop.Received(f, 0, [])), NodePush, HubTake, HubStart]
  }

  lemma FrameArrives(k: Settings, s: State, f: Frame)
    requires HubIdle(s) && k.fromBuffer >= 1 && !f.IsConfig()
    ensures var t := RunFrom(k, s, Arrival(f));
            && t.casts == s.casts[BroadcastLoop := Cast(f, Broadcast(s.passes), s.registry, None)]
            && t.clients == s.clients && t.registry == s.registry && t.readers == s.readers
            && t.pushing.None? && t.fromNode == [] && t.pending.None?
  {
    hide Next;
    var received := NodeEvent(NodeLoop.Received(f, 0, []));
    assert Arrival(f) == [received, NodePush] + [HubTake, HubStart];
    RunConcat(k, s, [received, NodePush], [HubTake, HubStart]);
    RunTwo(k, s, received, NodePush);
    RunTwo(k, Next(k, Next(k, s, received), NodePush), HubTake, HubStart);
    ArrivalSteps(k, s, f);
  }

  lemma ArrivalSteps(k: Settings, s: State, f: Frame)
    requires HubIdle(s) && k.fromBuffer >= 1 && !f.IsConfig()
    ensures var u := Next(k, Next(k, s, NodeEvent(NodeLoop.Received(f, 0, []))), NodePush);
            var t := Next(k, Next(k, u, HubTake), HubStart);
            && t.casts == s.casts[BroadcastLoop := Cast(f, Broadcast(s.passes), s.registry, None)]
            && t.clients == s.clients && t.registry == s.registry && t.readers == s.readers
            && t.pushing.None? && t.fromNode == [] && t.pending.None?
  {
    hide NodeLoop.Step, ChatCache.Cached;
    var u := Next(k, Next(k, s, NodeEvent(NodeLoop.Received(f, 0, []))), NodePush);
    assert u.casts == s.casts && u.clients == s.clients && u.registry == s.registry && u.readers == s.readers;
    assert u.pushing.None? && u.fromNode == [f] && u.pending.None?;
    TakeAndStart(k, u, f);
  }

  lemma TakeAndStart(k: Settings, u: State, f: Frame)
    requires u.fromNode == [f] && u.pending.None? && BroadcastLoop !in u.casts && !f.IsConfig()
    ensures var t := Next(k, Next(k, u, HubTake), HubStart);
            && t.casts == u.casts[BroadcastLoop := Cast(f, Broadcast(u.passes), u.registry, None)]
            && t.clients == u.clients && t.registry == u.registry && t.readers == u.readers
            && t.pushing == u.pushing && t.fromNode == [] && t.pending.None?
  {
    hide Taken;
    FrameTaken(k, u, f);
  }

  lemma FrameTaken(k: Settings, u: State, f: Frame)
    requires u.fromNode == [f] && u.pending.None? && BroadcastLoop !in u.casts && !f.IsConfig()
    ensures var t := Taken(k, u);
            && t.pending == Some(f) && t.casts == u.casts && t.fromNode == [] && t.passes == u.passes
            && t.clients == u.clients && t.registry == u.registry && t.readers == u.readers && t.pushing == u.pushing
  {
    hide ChatCache.Cached;
  }

  lemma {:induction false} RunConcat(k: Settings, s: State, a: seq<Event>, b: seq<Event>)
    ensures RunFrom(k, s, a + b) == RunFrom(k, RunFrom(k, s, a), b)
    decreases b
  {
    hide Next;
    if b == [] {
      assert a + b == a;
    } else {
      RunConcat(k, s, a, b[..|b| - 1]);
      assert (a + b)[..|a + b| - 1] == a + b[..|b| - 1];
    }
  }

  /** Client 0 alone is connected and nothing is on its way. */
  predicate Quiet(s: State, buffered: nat) {
    HubIdle(s) && s.casts == map[] && s.registry == {0} && 0 in s.clients && |s.clients[0].queue| == buffered
  }

  predicate SameWriter(c: Client, d: Client) {
    c.inFlight == d.inFlight && c.stopped == d.stopped
  }

  const SEND := CastSend(BroadcastLoop, 0)

  lemma PacketBuffered(k: Settings, s: State, f: Frame)
    requires Quiet(s, 0) && k.fromBuffer >= 1 && k.sendBuffer >= 1 && !f.IsConfig()
    ensures var t := RunFrom(k, s, Arrival(f) + [SEND, CastEnd(BroadcastLoop)]);
            Quiet(t, 1) && t.readers == s.readers && SameWriter(t.clients[0], s.clients[0])
  {
    FrameArrives(k, s, f);
    var t := RunFrom(k, s, Arrival(f));
    RunConcat(k, s, Arrival(f), [SEND, CastEnd(BroadcastLoop)]);
    RunTwo(k, t, SEND, CastEnd(BroadcastLoop));
    BufferedOnce(k, t, f, s.passes);
  }

  lemma BufferedOnce(k: Settings, t: State, f: Frame, n: nat)
    requires HubIdle(t.(casts := map[])) && t.casts == map[BroadcastLoop := Cast(f, Broadcast(n), {0}, None)]
    requires t.registry == {0} && 0 in t.clients && |t.clients[0].queue| == 0 && k.sendBuffer >= 1
    ensures var v := Next(k, Next(k, t, SEND), CastEnd(BroadcastLoop));
            Quiet(v, 1) && v.readers == t.readers && SameWriter(v.clients[0], t.clients[0])
  {
    var u := Next(k, t, SEND);
    assert u.casts == map[BroadcastLoop := Cast(f, Broadcast(n), {0} - {0}, None)];
    assert Next(k, u, CastEnd(BroadcastLoop)).casts == map[];
  }

  lemma PacketWedges(k: Settings, s: State, f: Frame)
    requires Quiet(s, 1) && k.fromBuffer >= 1 && k.sendBuffer == 1 && !f.IsConfig()
    ensures Stuck(RunFrom(k, s, Arrival(f) + [SEND]), BroadcastLoop)
  {
    FrameArrives(k, s, f);
    assert (Arrival(f) + [SEND])[..4] == Arrival(f);
  }

  lemma RunTwo(k: Settings, s: State, a: Event, b: Event)
    ensures RunFrom(k, s, [a, b]) == Next(k, Next(k, s, a), b)
  {
    hide Next;
    assert [a, b][..1] == [a] && [a][..0] == [];
    assert RunFrom(k, s, [a]) == Next(k, s, a);
  }

  /** A client's disconnect reaches Close while its buffer is full, its writer is
      inside a write and a broadcast has yet to send to it: Close shuts the
      connection, the write can only fail, and the broadcast is blocked. */
  lemma DisconnectBlocks(k: Settings, s: State, f: Frame)
    requires Quiet(s, 1) && k.fromBuffer >= 1 && k.sendBuffer == 1 && !f.IsConfig()
    requires 0 in s.readers && s.readers[0] == Idle && s.clients[0].inFlight.Some?
    ensures var t := RunFrom(k, s, Arrival(f) + [Speak(0, Disconnect), ConnClose(0)]);
            && BroadcastLoop in t.casts && !Stuck(t, BroadcastLoop) && Blocked(k, t, BroadcastLoop)
            && 0 in t.clients && SameWriter(t.clients[0], s.clients[0])
  {
    FrameArrives(k, s, f);
    var t := RunFrom(k, s, Arrival(f));
    RunConcat(k, s, Arrival(f), [Speak(0, Disconnect), ConnClose(0)]);
    RunTwo(k, t, Speak(0, Disconnect), ConnClose(0));
    DisconnectSteps(k, t);
  }

  lemma DisconnectSteps(k: Settings, t: State)
    requires 0 in t.clients && 0 in t.readers && t.readers[0] == Idle && t.clients[0].inFlight.Some?
    requires |t.clients[0].queue| == 1 && k.sendBuffer == 1
    ensures var u := Next(k, Next(k, t, Speak(0, Disconnect)), ConnClose(0));
            && u.casts == t.casts && 0 in u.clients && !CanTake(k, u.clients[0])
            && SameWriter(u.clients[0], t.clients[0])
  {
  }

  /** That state is reachable, without any refused Send and with the write loop
      still running. */
  lemma DisconnectWedges() returns (k: Settings, es: seq<Event>)
    ensures k.maxClients >= 1 && k.sendBuffer >= 1 && k.fromBuffer >= 1
    ensures var s := Reached(k, es);
            && BroadcastLoop in s.casts && !Stuck(s, BroadcastLoop) && Blocked(k, s, BroadcastLoop)
            && 0 in s.clients && !s.clients[0].stopped
  {
    k := Settings(1, 1, 0, false, 1);
    var p := Parsed(0, PacketFrame(Packet(0, 0, 0, 0, Opaque([]), [])));
    var one := Arrival(p) + [SEND, CastEnd(BroadcastLoop)];
    var s0 := Next(k, Hub.START, Accept(0));
    assert [Accept(0)][..0] == [] && Reached(k, [Accept(0)]) == s0 && Quiet(s0, 0) && s0.readers == map[0 := Idle];
    PacketBuffered(k, s0, p);
    var s1 := RunFrom(k, s0, one);
    var s2 := Next(k, s1, WriteStart(0));
    TakenInFlight(k, s1);
    PacketBuffered(k, s2, p);
    var s3 := RunFrom(k, s2, one);
    DisconnectBlocks(k, s3, p);
    var last := Arrival(p) + [Speak(0, Disconnect), ConnClose(0)];
    es := [Accept(0)] + one + [WriteStart(0)] + one + last;
    FourParts(k, [Accept(0)], one, WriteStart(0), one, last);
  }

  lemma TakenInFlight(k: Settings, s: State)
    requires Quiet(s, 1) && s.clients[0].inFlight.None? && !s.clients[0].stopped
    ensures var t := Next(k, s, WriteStart(0));
            Quiet(t, 0) && t.readers == s.readers && t.clients[0].inFlight.Some? && !t.clients[0].stopped
  {
  }

  lemma FourParts(k: Settings, a: seq<Event>, b: seq<Event>, e: Event, c: seq<Event>, d: seq<Event>)
    ensures Reached(k, a + b + [e] + c + d) == RunFrom(k, RunFrom(k, Next(k, RunFrom(k, Reached(k, a), b), e), c), d)
  {
    hide Next;
    RunConcat(k, Hub.START, a, b);
    assert (a + b + [e])[..|a + b|] == a + b;
    RunConcat(k, Hub.START, a + b + [e], c);
    RunConcat(k, Hub.START, a + b + [e] + c, d);
  }

  /** The deadlock is reachable in a few steps: one client, a one-frame buffer and
      two packets from the node before the client's writer moves. */
  lemma TwoPacketsWedge() returns (k: Settings, es: seq<Event>)
    ensures k.maxClients >= 1 && k.sendBuffer >= 1 && k.fromBuffer >= 1
    ensures Stuck(Reached(k, es), BroadcastLoop)
  {
    k := Settings(1, 1, 0, false, 1);
    var p := Parsed(0, PacketFrame(Packet(0, 0, 0, 0, Opaque([]), [])));
    var s := Next(k, Hub.START, Accept(0));
    assert [Accept(0)][..0] == [] && Reached(k, [Accept(0)]) == s && Quiet(s, 0);
    var first := Arrival(p) + [SEND, CastEnd(BroadcastLoop)];
    PacketBuffered(k, s, p);
    RunConcat(k, Hub.START, [Accept(0)], first);
    PacketWedges(k, RunFrom(k, s, first), p);
    RunConcat(k, Hub.START, [Accept(0)] + first, Arrival(p) + [SEND]);
    es := [Accept(0)] + first + (Arrival(p) + [SEND]);
  }
}
