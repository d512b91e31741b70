/** One client of the proxy: its bounded send queue, the replays its
    want_config_id requests start, and its closing (internal/proxy/client.go and
    internal/proxy/config_replay.go), one step of one goroutine at a time. */
module Clients {
  import opened Wrappers
  import opened Radio
  import opened ConfigCache
  import opened ReplayFilter
  import ChatCache

  datatype Settings = Settings(maxClients: nat, sendBuffer: nat, maxChatCache: int, replayChat: bool, fromBuffer: nat)

  datatype Reason = ReadError | IdleTimeout | SlowConsumer | ClientSent | ServerClose

  /** Where a queued frame comes from: the n-th pass over the registry, which is a
      broadcast or an echo, or a replay. */
  datatype Source = Broadcast(n: nat) | Echo(n: nat) | Replayed

  datatype Item = Item(frame: Frame, source: Source)

  /** What replayCachedConfig has decided about chat history so far; `heard` is how
      many chat events the proxy had handled when it did. */
  datatype ChatPart = Undecided | Skipped | Included(frames: seq<Frame>, heard: nat)

  /** One run of replayCachedConfig, from taking replayMu on. */
  datatype Replay = Replay(nonce: U32, config: Cache, chat: ChatPart, sent: nat, cut: bool)

  /** The two bits of configPhase. */
  datatype Phase = Phase(config: bool, nodes: bool)

  datatype Client = Client(
    closing: bool, closed: bool, callbacks: nat, reason: Option<Reason>,
    asked: seq<U32>,          // nonces of every want_config_id received
    waiting: seq<U32>,        // replay goroutines not yet holding replayMu
    replays: seq<Replay>,     // in the order they took replayMu
    locked: bool,             // the last of them still holds it
    phase: Phase,
    offered: seq<Item>, refused: bool, accepted: seq<Item>,
    queue: seq<Item>, inFlight: Option<Item>, written: seq<Item>,
    shut: bool,               // Close has closed the connection
    stopped: bool)            // the write loop has returned

  const NEW := Client(false, false, 0, None, [], [], [], false, Phase(false, false),
                      [], false, [], [], None, [], false, false)

  // ------------------------------------------------------------------ steps

  function Closed(c: Client, why: Option<Reason>): Client {
    c.(closing := true, reason := if c.reason.None? then why else c.reason)
  }

  /** conn.Close, the first act of closeOnce. */
  function ConnClosed(c: Client): Client {
    if c.closing then c.(shut := true) else c
  }

  /** The onClose callback, its last. */
  function CalledBack(c: Client): Client {
    if c.shut && !c.closed then c.(closed := true, callbacks := c.callbacks + 1) else c
  }

  /** Send: queue the frame, or give the client up as a slow consumer. */
  function Send(k: Settings, c: Client, x: Item): Client {
    if |c.queue| < k.sendBuffer then
      c.(offered := c.offered + [x], accepted := c.accepted + [x], queue := c.queue + [x])
    else Closed(c.(offered := c.offered + [x], refused := true), Some(SlowConsumer))
  }

  function Ask(c: Client, nonce: U32): Client {
    c.(asked := c.asked + [nonce], waiting := c.waiting + [nonce])
  }

  function Mark(phase: Phase, nonce: U32): Phase {
    if nonce == NONCE_ONLY_CONFIG then phase.(config := true)
    else if nonce == NONCE_ONLY_NODES then phase.(nodes := true)
    else phase
  }

  /** A waiting goroutine takes replayMu and snapshots the cache; an empty one ends
      the replay at once. */
  function Lock(c: Client, i: nat, cache: Cache): Client {
    if c.locked || i >= |c.waiting| then c
    else
      var nonce := c.waiting[i];
      c.(waiting := c.waiting[..i] + c.waiting[i + 1..],
         replays := c.replays + [Replay(nonce, cache, if cache == [] then Skipped else Undecided, 0, false)],
         locked := true,
         phase := if cache == [] then c.phase else Mark(c.phase, nonce))
  }

  function ChatFrames(r: Replay): seq<Frame> {
    if r.chat.Included? then r.chat.frames else []
  }

  /** Everything the replay is to send: patched config, then chat. */
  function Script(r: Replay): seq<Frame> {
    Plan(r.config, r.nonce) + ChatFrames(r)
  }

  function Active(c: Client): Option<Replay> {
    if c.locked && c.replays != [] then Some(c.replays[|c.replays| - 1]) else None
  }

  function SetActive(c: Client, r: Replay): Client
    requires c.replays != []
  {
    c.(replays := c.replays[..|c.replays| - 1] + [r])
  }

  function ReplaySend(k: Settings, c: Client): Client {
    match Active(c)
    case None => c
    case Some(r) =>
      if r.cut || r.sent >= |Script(r)| then c
      else
        SetActive(Send(k, c, Item(Script(r)[r.sent], Replayed)),
                  if |c.queue| < k.sendBuffer then r.(sent := r.sent + 1) else r.(cut := true))
  }

  predicate ShouldReplayChat(k: Settings, nonce: U32, phase: Phase) {
    k.replayChat && k.maxChatCache > 0 && nonce != NONCE_ONLY_CONFIG && (nonce == NONCE_ONLY_NODES ==> phase.config)
  }

  function EntryScript(e: ChatCache.Entry): seq<Frame> {
    if e.ack.Some? then [e.message, e.ack.value] else [e.message]
  }

  /** replayChatHistory: each message, then its ACK if there is one. */
  function ChatScript(entries: seq<ChatCache.Entry>): seq<Frame> {
    if entries == [] then [] else EntryScript(entries[0]) + ChatScript(entries[1..])
  }

  /** Where the i-th entry starts in the script. */
  function Offset(entries: seq<ChatCache.Entry>, i: nat): nat
    requires i <= |entries|
  {
    if i == 0 then 0 else Offset(entries, i - 1) + if entries[i - 1].ack.Some? then 2 else 1
  }

  /** Every message in order, each directly followed by its ACK if it has one, and
      nothing else. */
  predicate IsChatScript(script: seq<Frame>, entries: seq<ChatCache.Entry>) {
    && |script| == Offset(entries, |entries|)
    && forall i :: 0 <= i < |entries| ==> EntryAt(script, entries, i)
  }

  predicate EntryAt(script: seq<Frame>, entries: seq<ChatCache.Entry>, i: nat)
    requires i < |entries|
  {
    var at := Offset(entries, i);
    && at < |script| && script[at] == entries[i].message
    && (entries[i].ack.Some? ==> at + 1 < |script| && script[at + 1] == entries[i].ack.value)
  }

  lemma {:induction false} OffsetOfTail(entries: seq<ChatCache.Entry>, i: nat)
    requires i < |entries|
    ensures Offset(entries, i + 1) == Offset(entries[1..], i) + if entries[0].ack.Some? then 2 else 1
  {
    if i == 0 {
      assert Offset(entries, 1) == Offset(entries, 0) + if entries[0].ack.Some? then 2 else 1;
    } else {
      OffsetOfTail(entries, i - 1);
    }
  }

  lemma {:induction false} ChatScriptPlaces(entries: seq<ChatCache.Entry>)
    ensures IsChatScript(ChatScript(entries), entries)
  {
    if entries != [] {
      var rest, script := entries[1..], ChatScript(entries);
      ChatScriptPlaces(rest);
      OffsetOfTail(entries, |rest|);
      forall i | 0 <= i < |entries| ensures EntryAt(script, entries, i) {
        if i > 0 {
          OffsetOfTail(entries, i - 1);
          assert EntryAt(ChatScript(rest), rest, i - 1);
        }
      }
    }
  }

  /** The config part is out: decide about chat. */
  function DecideChat(k: Settings, c: Client, entries: seq<ChatCache.Entry>, heard: nat): Client {
    match Active(c)
    case None => c
    case Some(r) =>
      if r.cut || !r.chat.Undecided? || r.sent != |Plan(r.config, r.nonce)| then c
      else
        var due := ShouldReplayChat(k, r.nonce, c.phase);
        SetActive(c, r.(chat := if due then Included(ChatScript(entries), heard) else Skipped))
  }

  /** Release replayMu: all sent, or the Close behind a refused Send has returned. */
  function Unlock(c: Client): Client {
    match Active(c)
    case None => c
    case Some(r) =>
      if (if r.cut then c.closed else !r.chat.Undecided? && r.sent == |Script(r)|) then c.(locked := false) else c
  }

  function WriterTake(c: Client): Client {
    if c.stopped || c.inFlight.Some? || c.queue == [] then c
    else c.(inFlight := Some(c.queue[0]), queue := c.queue[1..])
  }

  /** A frame is written; on a closed connection that can only fail. */
  function WriterDone(c: Client): Client {
    if c.stopped || c.shut || c.inFlight.None? then c
    else c.(written := c.written + [c.inFlight.value], inFlight := None)
  }

  /** writeLoop returns: cancelled, or a frame could not be written. */
  function WriterStops(c: Client): Client {
    c.(stopped := true)
  }

  // -------------------------------------------------------------- invariants

  function InFlight(c: Client): seq<Item> {
    if c.inFlight.Some? then [c.inFlight.value] else []
  }

  /** The queue loses, invents and reorders nothing, and a client that was never
      refused has been given everything addressed to it. */
  predicate NoGaps(k: Settings, c: Client) {
    && c.accepted == c.written + InFlight(c) + c.queue
    && |c.queue| <= k.sendBuffer
    && (!c.refused ==> c.accepted == c.offered)
    && (c.refused ==> c.closing && c.reason.Some?)
    && (c.closed ==> c.shut) && (c.shut ==> c.closing)
    && c.callbacks == (if c.closed then 1 else 0)
  }

  function ReplayFrames(xs: seq<Item>): seq<Frame> {
    if xs == [] then []
    else
      var last := xs[|xs| - 1];
      ReplayFrames(xs[..|xs| - 1]) + if last.source.Replayed? then [last.frame] else []
  }

  function Delivered(rs: seq<Replay>): seq<Frame>
    requires Bounded(rs)
  {
    if rs == [] then []
    else
      var last := rs[|rs| - 1];
      Delivered(rs[..|rs| - 1]) + Script(last)[..last.sent]
  }

  /** Whether the j-th replay had this nonce and something to send. */
  predicate PhaseAt(rs: seq<Replay>, j: nat, nonce: U32)
    requires j < |rs|
  {
    rs[j].nonce == nonce && rs[j].config != []
  }

  /** The documented rule: an ordinary nonce gets chat at once, the nodes-only nonce
      once a config-only replay came before it. */
  predicate ChatDue(k: Settings, rs: seq<Replay>, i: nat)
    requires i < |rs|
  {
    && k.replayChat && k.maxChatCache > 0
    && rs[i].config != []
    && (!Special(rs[i].nonce) ||
        (rs[i].nonce == NONCE_ONLY_NODES && exists j :: 0 <= j < i && PhaseAt(rs, j, NONCE_ONLY_CONFIG)))
  }

  predicate ReplayInv(k: Settings, rs: seq<Replay>, locked: bool, refused: bool, i: nat)
    requires i < |rs|
  {
    var r := rs[i];
    var active := locked && i == |rs| - 1;
    && r.sent <= |Script(r)|
    && (r.cut ==> refused)
    && (!active && !r.cut ==> !r.chat.Undecided? && r.sent == |Script(r)|)
    && (r.config == [] || WellFormed(r.config))
    && (r.chat.Undecided? ==> r.config != [])
    && (!r.chat.Undecided? ==> (r.chat.Included? <==> ChatDue(k, rs, i)))
    && (forall f :: f in ChatFrames(r) ==> f.IsPacket())
  }

  /** Every replay but the one holding the lock is whole, unless a Send to the
      client was refused; configs are well-formed and chat follows the rule. */
  predicate ReplaysInv(k: Settings, rs: seq<Replay>, locked: bool, refused: bool) {
    && (locked ==> rs != [])
    && forall i :: 0 <= i < |rs| ==> ReplayInv(k, rs, locked, refused, i)
  }

  predicate Bounded(rs: seq<Replay>) {
    forall r :: r in rs ==> r.sent <= |Script(r)|
  }

  /** The replay frames accepted are the replays' scripts up to where each got, one
      after the other in lock order. */
  predicate StreamInv(accepted: seq<Item>, rs: seq<Replay>) {
    Bounded(rs) && ReplayFrames(accepted) == Delivered(rs)
  }

  function Nonces(rs: seq<Replay>): seq<U32> {
    if rs == [] then [] else Nonces(rs[..|rs| - 1]) + [rs[|rs| - 1].nonce]
  }

  /** Every request is waiting or was given exactly one replay. */
  predicate AskInv(asked: seq<U32>, waiting: seq<U32>, rs: seq<Replay>) {
    multiset(asked) == multiset(waiting) + multiset(Nonces(rs))
  }

  predicate PhaseInv(phase: Phase, rs: seq<Replay>) {
    && (phase.config <==> exists j :: 0 <= j < |rs| && PhaseAt(rs, j, 69420))
    && (phase.nodes <==> exists j :: 0 <= j < |rs| && PhaseAt(rs, j, 69421))
  }

  /** A replay cut off by a refused Send holds the lock until the client is closed. */
  predicate CutInv(rs: seq<Replay>, locked: bool, closed: bool) {
    forall i :: 0 <= i < |rs| && rs[i].cut && !(locked && i == |rs| - 1) ==> closed
  }

  predicate ItemOk(x: Item, asked: seq<U32>) {
    if x.frame.IsComplete() then x.source.Replayed? && x.frame.body.nonce in asked
    else x.source.Replayed? || !x.frame.IsConfig()
  }

  /** Config frames reach the client by replay only, and every ConfigComplete
      carries a nonce this client sent. */
  predicate ItemsInv(accepted: seq<Item>, asked: seq<U32>) {
    forall x :: x in accepted ==> ItemOk(x, asked)
  }

  predicate Inv(k: Settings, c: Client) {
    && NoGaps(k, c)
    && ReplaysInv(k, c.replays, c.locked, c.refused)
    && StreamInv(c.accepted, c.replays)
    && AskInv(c.asked, c.waiting, c.replays)
    && PhaseInv(c.phase, c.replays)
    && CutInv(c.replays, c.locked, c.closed)
    && ItemsInv(c.accepted, c.asked)
  }

  // ------------------------------------------------- every step keeps them

  lemma NewInv(k: Settings)
    ensures Inv(k, NEW)
  {
  }

  lemma FramesSnoc(xs: seq<Item>, x: Item)
    ensures ReplayFrames(xs + [x]) == ReplayFrames(xs) + if x.source.Replayed? then [x.frame] else []
  {
    assert (xs + [x])[..|xs|] == xs;
  }

  lemma SendNoGaps(k: Settings, c: Client, x: Item)
    requires NoGaps(k, c)
    ensures NoGaps(k, Send(k, c, x))
  {
  }

  lemma RefusedLater(k: Settings, rs: seq<Replay>, locked: bool, refused: bool)
    requires ReplaysInv(k, rs, locked, refused)
    ensures ReplaysInv(k, rs, locked, true)
  {
    forall i | 0 <= i < |rs| ensures ReplayInv(k, rs, locked, true, i) {
      assert ReplayInv(k, rs, locked, refused, i);
    }
  }

  lemma StreamUnmoved(accepted: seq<Item>, rs: seq<Replay>, x: Item)
    requires StreamInv(accepted, rs) && !x.source.Replayed?
    ensures StreamInv(accepted + [x], rs)
  {
    FramesSnoc(accepted, x);
  }

  /** A frame from a broadcast or an echo. */
  lemma SendKeeps(k: Settings, c: Client, x: Item)
    requires Inv(k, c) && !x.source.Replayed? && !x.frame.IsConfig()
    ensures Inv(k, Send(k, c, x))
  {
    hide NoGaps, ReplaysInv, StreamInv, AskInv, PhaseInv, CutInv, ItemsInv;
    SendNoGaps(k, c, x);
    StreamUnmoved(c.accepted, c.replays, x);
    RefusedLater(k, c.replays, c.locked, c.refused);
    MoveItems(c.accepted, c.asked, x);
  }

  lemma CloseKeeps(k: Settings, c: Client, why: Option<Reason>)
    requires Inv(k, c)
    ensures Inv(k, Closed(c, why)) && Inv(k, ConnClosed(c)) && Inv(k, CalledBack(c))
  {
    Unaffected(k, c, Closed(c, why));
    Unaffected(k, c, ConnClosed(c));
    Unaffected(k, c, CalledBack(c));
  }

  lemma MoreAsked(accepted: seq<Item>, asked: seq<U32>, nonce: U32)
    requires ItemsInv(accepted, asked)
    ensures ItemsInv(accepted, asked + [nonce])
  {
    forall x | x in accepted ensures ItemOk(x, asked + [nonce]) {
      assert ItemOk(x, asked);
    }
  }

  lemma MoreWaiting(asked: seq<U32>, waiting: seq<U32>, rs: seq<Replay>, nonce: U32)
    requires AskInv(asked, waiting, rs)
    ensures AskInv(asked + [nonce], waiting + [nonce], rs)
  {
  }

  lemma AskKeeps(k: Settings, c: Client, nonce: U32)
    requires Inv(k, c)
    ensures Inv(k, Ask(c, nonce))
  {
    MoreAsked(c.accepted, c.asked, nonce);
    MoreWaiting(c.asked, c.waiting, c.replays, nonce);
  }

  lemma WriterNoGaps(k: Settings, c: Client)
    requires NoGaps(k, c)
    ensures NoGaps(k, WriterTake(c)) && NoGaps(k, WriterDone(c)) && NoGaps(k, WriterStops(c))
  {
    if c.inFlight.None? && c.queue != [] {
      assert c.queue == [c.queue[0]] + c.queue[1..];
    }
  }

  lemma WriterKeeps(k: Settings, c: Client)
    requires Inv(k, c)
    ensures Inv(k, WriterTake(c)) && Inv(k, WriterDone(c)) && Inv(k, WriterStops(c))
  {
    WriterNoGaps(k, c);
    Unaffected(k, c, WriterTake(c));
    Unaffected(k, c, WriterDone(c));
    Unaffected(k, c, WriterStops(c));
  }

  lemma SameQueue(k: Settings, c: Client, d: Client)
    requires NoGaps(k, c)
    requires d.accepted == c.accepted && d.offered == c.offered && d.written == c.written && d.inFlight == c.inFlight
    requires d.queue == c.queue && d.refused == c.refused && d.closing == c.closing && d.reason == c.reason
    requires d.closed == c.closed && d.shut == c.shut && d.callbacks == c.callbacks
    ensures NoGaps(k, d)
  {
  }

  /** Steps that move nothing but the queue or the closing flags. */
  lemma Unaffected(k: Settings, c: Client, d: Client)
    requires Inv(k, c) && NoGaps(k, d)
    requires d.asked == c.asked && d.waiting == c.waiting && d.replays == c.replays && d.locked == c.locked
    requires d.phase == c.phase && d.refused == c.refused && d.accepted == c.accepted && (c.closed ==> d.closed)
    ensures Inv(k, d)
  {
  }

  lemma SameChatDue(k: Settings, a: seq<Replay>, b: seq<Replay>, i: nat)
    requires i < |a| && i < |b|
    requires forall j :: 0 <= j <= i ==> a[j].nonce == b[j].nonce && a[j].config == b[j].config
    ensures ChatDue(k, a, i) == ChatDue(k, b, i)
  {
    assert forall j :: 0 <= j < i ==> PhaseAt(a, j, NONCE_ONLY_CONFIG) == PhaseAt(b, j, NONCE_ONLY_CONFIG);
  }

  lemma OneMorePhase(rs: seq<Replay>, r: Replay, nonce: U32)
    ensures (exists j :: 0 <= j < |rs + [r]| && PhaseAt(rs + [r], j, nonce)) <==>
              (exists j :: 0 <= j < |rs| && PhaseAt(rs, j, nonce)) || (r.nonce == nonce && r.config != [])
  {
    assert forall j :: 0 <= j < |rs| ==> PhaseAt(rs + [r], j, nonce) == PhaseAt(rs, j, nonce);
    assert PhaseAt(rs + [r], |rs|, nonce) <==> r.nonce == nonce && r.config != [];
  }

  lemma LockPhase(phase: Phase, rs: seq<Replay>, r: Replay)
    requires PhaseInv(phase, rs)
    ensures PhaseInv(if r.config == [] then phase else Mark(phase, r.nonce), rs + [r])
  {
    OneMorePhase(rs, r, 69420);
    OneMorePhase(rs, r, 69421);
  }

  lemma LockReplays(k: Settings, rs: seq<Replay>, r: Replay, refused: bool)
    requires ReplaysInv(k, rs, false, refused)
    requires (r.config == [] || WellFormed(r.config)) && r.sent == 0 && !r.cut
    requires r.chat == if r.config == [] then Skipped else Undecided
    ensures ReplaysInv(k, rs + [r], true, refused)
  {
    forall j | 0 <= j < |rs + [r]| ensures ReplayInv(k, rs + [r], true, refused, j) {
      if j < |rs| {
        assert ReplayInv(k, rs, false, refused, j);
        SameChatDue(k, rs, rs + [r], j);
      }
    }
  }

  lemma LockStream(accepted: seq<Item>, rs: seq<Replay>, r: Replay)
    requires StreamInv(accepted, rs) && r.sent == 0
    ensures StreamInv(accepted, rs + [r])
  {
    assert (rs + [r])[..|rs|] == rs;
    assert Script(r)[..0] == [];
  }

  lemma LockAsk(asked: seq<U32>, waiting: seq<U32>, rs: seq<Replay>, i: nat, r: Replay)
    requires AskInv(asked, waiting, rs) && i < |waiting| && r.nonce == waiting[i]
    ensures AskInv(asked, waiting[..i] + waiting[i + 1..], rs + [r])
  {
    assert waiting == waiting[..i] + [waiting[i]] + waiting[i + 1..];
    assert (rs + [r])[..|rs|] == rs;
  }

  lemma LockKeeps(k: Settings, c: Client, i: nat, cache: Cache)
    requires Inv(k, c) && (cache == [] || WellFormed(cache))
    ensures Inv(k, Lock(c, i, cache))
  {
    hide NoGaps, ReplaysInv, StreamInv, AskInv, PhaseInv, ItemsInv, Mark;
    if !c.locked && i < |c.waiting| {
      SameQueue(k, c, Lock(c, i, cache));
      var r := Replay(c.waiting[i], cache, if cache == [] then Skipped else Undecided, 0, false);
      LockPhase(c.phase, c.replays, r);
      LockReplays(k, c.replays, r, c.refused);
      LockStream(c.accepted, c.replays, r);
      LockAsk(c.asked, c.waiting, c.replays, i, r);
    }
  }

  /** The active replay moves on; its nonce and snapshot never change. */
  predicate SameReplay(r: Replay, s: Replay) {
    r.nonce == s.nonce && r.config == s.config
  }

  lemma MovePhase(phase: Phase, rs: seq<Replay>, s: Replay)
    requires rs != [] && PhaseInv(phase, rs) && SameReplay(rs[|rs| - 1], s)
    ensures PhaseInv(phase, rs[..|rs| - 1] + [s])
  {
    var ts := rs[..|rs| - 1] + [s];
    assert forall j, n: U32 :: 0 <= j < |rs| ==> PhaseAt(ts, j, n) == PhaseAt(rs, j, n);
  }

  lemma MoveAsk(asked: seq<U32>, waiting: seq<U32>, rs: seq<Replay>, s: Replay)
    requires rs != [] && AskInv(asked, waiting, rs) && SameReplay(rs[|rs| - 1], s)
    ensures AskInv(asked, waiting, rs[..|rs| - 1] + [s])
  {
    assert (rs[..|rs| - 1] + [s])[..|rs| - 1] == rs[..|rs| - 1];
  }

  lemma MoveReplays(k: Settings, rs: seq<Replay>, refused: bool, s: Replay, after: bool)
    requires rs != [] && ReplaysInv(k, rs, true, refused) && (refused ==> after)
    requires SameReplay(rs[|rs| - 1], s)
    requires ReplayInv(k, rs[..|rs| - 1] + [s], true, after, |rs| - 1)
    ensures ReplaysInv(k, rs[..|rs| - 1] + [s], true, after)
  {
    var ts := rs[..|rs| - 1] + [s];
    forall i | 0 <= i < |ts| ensures ReplayInv(k, ts, true, after, i) {
      if i < |rs| - 1 {
        assert ReplayInv(k, rs, true, refused, i);
        SameChatDue(k, rs, ts, i);
      }
    }
  }

  lemma MoveStream(accepted: seq<Item>, rs: seq<Replay>, s: Replay, x: Item)
    requires rs != [] && StreamInv(accepted, rs)
    requires var r := rs[|rs| - 1]; r.sent < |Script(r)| && Script(s) == Script(r) && s.sent == r.sent + 1
    requires var r := rs[|rs| - 1]; x == Item(Script(r)[r.sent], Replayed)
    ensures StreamInv(accepted + [x], rs[..|rs| - 1] + [s])
  {
    hide Plan, ReplayFrames;
    var init, r := rs[..|rs| - 1], rs[|rs| - 1];
    assert (init + [s])[..|rs| - 1] == init;
    FramesSnoc(accepted, x);
    assert Script(r)[..r.sent + 1] == Script(r)[..r.sent] + [Script(r)[r.sent]];
  }

  lemma StayStream(accepted: seq<Item>, rs: seq<Replay>, s: Replay)
    requires rs != [] && StreamInv(accepted, rs)
    requires var r := rs[|rs| - 1]; s.sent == r.sent && Script(r) <= Script(s)
    ensures StreamInv(accepted, rs[..|rs| - 1] + [s])
  {
    var init, r := rs[..|rs| - 1], rs[|rs| - 1];
    assert (init + [s])[..|rs| - 1] == init;
    assert r in rs;
    assert Script(s)[..s.sent] == Script(r)[..r.sent];
  }

  /** A frame of a replay: config frames of its plan or chat packets, and the only
      ConfigComplete among them carries its nonce. */
  lemma ScriptItemOk(r: Replay, i: nat, asked: seq<U32>)
    requires i < |Script(r)| && r.nonce in asked
    requires r.config == [] || WellFormed(r.config)
    requires forall f :: f in ChatFrames(r) ==> f.IsPacket()
    ensures ItemOk(Item(Script(r)[i], Replayed), asked)
  {
    var plan := Plan(r.config, r.nonce);
    if i < |plan| {
      PatchAllIsPointwise(Filter(r.config, r.nonce), r.nonce);
    } else {
      assert Script(r)[i] in ChatFrames(r);
    }
  }

  lemma {:induction false} NonceAsked(c: Client)
    requires c.replays != [] && AskInv(c.asked, c.waiting, c.replays)
    ensures c.replays[|c.replays| - 1].nonce in c.asked
  {
    assert c.replays[|c.replays| - 1].nonce in multiset(Nonces(c.replays));
    assert c.replays[|c.replays| - 1].nonce in multiset(c.asked);
  }

  /** The active replay after one step satisfies its invariant again. */
  lemma MoveLast(k: Settings, rs: seq<Replay>, refused: bool, s: Replay, after: bool)
    requires rs != [] && ReplaysInv(k, rs, true, refused) && (refused ==> after)
    requires SameReplay(rs[|rs| - 1], s) && s.sent <= |Script(s)| && (s.cut ==> after)
    requires s.chat == rs[|rs| - 1].chat || (!s.chat.Undecided? && (s.chat.Included? <==> ChatDue(k, rs, |rs| - 1)))
    requires forall f :: f in ChatFrames(s) ==> f.IsPacket()
    ensures ReplaysInv(k, rs[..|rs| - 1] + [s], true, after)
  {
    var n, ts := |rs| - 1, rs[..|rs| - 1] + [s];
    assert ReplayInv(k, rs, true, refused, n);
    SameChatDue(k, rs, ts, n);
    MoveReplays(k, rs, refused, s, after);
  }

  lemma MoveItems(accepted: seq<Item>, asked: seq<U32>, x: Item)
    requires ItemsInv(accepted, asked) && ItemOk(x, asked)
    ensures ItemsInv(accepted + [x], asked)
  {
  }

  lemma ReplaySendKeeps(k: Settings, c: Client)
    requires Inv(k, c)
    ensures Inv(k, ReplaySend(k, c))
  {
    hide Plan, Delivered, ReplayFrames, Nonces, ChatDue, WellFormed, PhaseInv;
    var d := ReplaySend(k, c);
    if d != c {
      var rs, n := c.replays, |c.replays| - 1;
      var r, s := rs[n], d.replays[n];
      var x := Item(Script(r)[r.sent], Replayed);
      assert d.replays == rs[..n] + [s] && d.locked && d.phase == c.phase;
      assert d.asked == c.asked && d.waiting == c.waiting;
      assert ReplayInv(k, rs, true, c.refused, n);
      assert ItemOk(x, c.asked) by {
        NonceAsked(c);
        ScriptItemOk(r, r.sent, c.asked);
      }
      MoveItems(c.accepted, c.asked, x);
      SendNoGaps(k, c, x);
      MovePhase(c.phase, rs, s);
      MoveAsk(c.asked, c.waiting, rs, s);
      MoveLast(k, rs, c.refused, s, d.refused);
      assert NoGaps(k, d);
      if |c.queue| < k.sendBuffer {
        MoveStream(c.accepted, rs, s, x);
        assert StreamInv(d.accepted, d.replays);
      } else {
        StayStream(c.accepted, rs, s);
        assert StreamInv(d.accepted, d.replays);
      }
    }
  }

  lemma {:induction false} ChatScriptPackets(entries: seq<ChatCache.Entry>)
    requires forall e :: e in entries ==> e.message.IsPacket() && (e.ack.Some? ==> e.ack.value.IsPacket())
    ensures forall f :: f in ChatScript(entries) ==> f.IsPacket()
  {
    if entries != [] {
      ChatScriptPackets(entries[1..]);
    }
  }

  lemma ChatRule(k: Settings, phase: Phase, rs: seq<Replay>)
    requires rs != [] && PhaseInv(phase, rs) && rs[|rs| - 1].config != []
    ensures ShouldReplayChat(k, rs[|rs| - 1].nonce, phase) <==> ChatDue(k, rs, |rs| - 1)
  {
    var n := |rs| - 1;
    if rs[n].nonce == NONCE_ONLY_NODES {
      assert !PhaseAt(rs, n, NONCE_ONLY_CONFIG);
      if phase.config {
        var j :| 0 <= j < |rs| && PhaseAt(rs, j, NONCE_ONLY_CONFIG);
        assert j < n;
      }
    }
  }

  lemma DecideChatKeeps(k: Settings, c: Client, entries: seq<ChatCache.Entry>, heard: nat)
    requires Inv(k, c)
    requires forall e :: e in entries ==> e.message.IsPacket() && (e.ack.Some? ==> e.ack.value.IsPacket())
    ensures Inv(k, DecideChat(k, c, entries, heard))
  {
    hide Plan, Delivered, ReplayFrames, Nonces, ChatDue, WellFormed, PhaseInv, NoGaps, ItemsInv, AskInv;
    var d := DecideChat(k, c, entries, heard);
    if d != c {
      var rs, n := c.replays, |c.replays| - 1;
      var s := d.replays[n];
      assert d.replays == rs[..n] + [s];
      assert ReplayInv(k, rs, true, c.refused, n);
      ChatScriptPackets(entries);
      ChatRule(k, c.phase, rs);
      MovePhase(c.phase, rs, s);
      MoveAsk(c.asked, c.waiting, rs, s);
      MoveLast(k, rs, c.refused, s, c.refused);
      StayStream(c.accepted, rs, s);
      SameQueue(k, c, d);
    }
  }

  lemma UnlockKeeps(k: Settings, c: Client)
    requires Inv(k, c)
    ensures Inv(k, Unlock(c))
  {
    var d := Unlock(c);
    if d != c {
      forall i | 0 <= i < |d.replays| ensures ReplayInv(k, d.replays, false, d.refused, i) {
        assert ReplayInv(k, c.replays, true, c.refused, i);
      }
    }
  }
}
