/** The client object as its methods update it, and one whole call of
    replayCachedConfig with nothing else running: the sequential reading that the
    interleaved steps of Clients cut into pieces. */
module ClientConn {
  import opened Wrappers
  import opened Radio
  import opened ConfigCache
  import opened ReplayFilter
  import C = Clients
  import ChatCache

  /** What an uninterrupted replay of this cache and chat sends. */
  function FullScript(k: C.Settings, cache: Cache, nonce: U32, phase: C.Phase, entries: seq<ChatCache.Entry>)
      : seq<Frame>
  {
    if cache == [] then []
    else Plan(cache, nonce) + if C.ShouldReplayChat(k, nonce, C.Mark(phase, nonce)) then C.ChatScript(entries) else []
  }

  /** The reason kept when `why` is offered: the first one wins. */
  function FirstOr(kept: Option<C.Reason>, why: C.Reason): Option<C.Reason> {
    if kept.Some? then kept else Some(why)
  }

  // ------------------------------- the interleaved steps, run without a break

  function Frames(xs: seq<C.Item>): seq<Frame> {
    seq(|xs|, i requires 0 <= i < |xs| => xs[i].frame)
  }

  function SendMany(k: C.Settings, c: C.Client, n: nat): C.Client {
    if n == 0 then c else C.ReplaySend(k, SendMany(k, c, n - 1))
  }

  function Fits(k: C.Settings, c: C.Client, n: nat): nat
    requires |c.queue| <= k.sendBuffer
  {
    if n <= k.sendBuffer - |c.queue| then n else k.sendBuffer - |c.queue|
  }

  /** d is c after its replay r was given n frames to send. */
  ghost predicate Sent(k: C.Settings, c: C.Client, r: C.Replay, n: nat, d: C.Client)
    requires |c.queue| <= k.sendBuffer && r.sent + n <= |C.Script(r)|
  {
    var m := Fits(k, c, n);
    && C.Active(d) == Some(r.(sent := r.sent + m, cut := m < n))
    && Frames(d.queue) == Frames(c.queue) + C.Script(r)[r.sent..r.sent + m]
    && d.phase == c.phase
    && d.closing == (c.closing || m < n)
    && d.reason == if m < n then FirstOr(c.reason, C.SlowConsumer) else c.reason
  }

  lemma SendOne(k: C.Settings, c: C.Client, r: C.Replay)
    requires C.Active(c) == Some(r) && |c.queue| <= k.sendBuffer
    requires !r.cut && r.sent < |C.Script(r)|
    ensures Sent(k, c, r, 1, C.ReplaySend(k, c))
  {
    hide C.Script;
    var x := C.Script(r)[r.sent];
    SameScript(r, r.sent + 1, true);
    assert C.Script(r)[r.sent..r.sent + 1] == [x];
    if |c.queue| < k.sendBuffer {
      FramesSnoc(c.queue, C.Item(x, C.Replayed));
    }
  }

  lemma FramesSnoc(xs: seq<C.Item>, x: C.Item)
    ensures Frames(xs + [x]) == Frames(xs) + [x.frame]
  {
  }

  lemma SameScript(r: C.Replay, sent: nat, cut: bool)
    ensures C.Script(r.(sent := sent, cut := cut)) == C.Script(r)
  {
  }

  lemma CutSendsNothing(k: C.Settings, c: C.Client, n: nat)
    requires C.Active(c).Some? && C.Active(c).value.cut
    ensures SendMany(k, c, n) == c
  {
  }

  lemma SentThenOne(k: C.Settings, c: C.Client, r: C.Replay, n: nat, d: C.Client, e: C.Client)
    requires |c.queue| <= k.sendBuffer && r.sent + n < |C.Script(r)|
    requires n <= k.sendBuffer - |c.queue| && |d.queue| == |c.queue| + n && Sent(k, c, r, n, d)
    requires var s := r.(sent := r.sent + n, cut := false); r.sent + n + 1 <= |C.Script(s)| && Sent(k, d, s, 1, e)
    ensures Sent(k, c, r, n + 1, e)
  {
    hide C.Script, Frames;
    SameScript(r, r.sent + n, false);
    var all, m := C.Script(r), Fits(k, d, 1);
    assert all[r.sent..r.sent + n] + all[r.sent + n..r.sent + n + m] == all[r.sent..r.sent + n + m];
  }

  lemma {:induction false} SendManySends(k: C.Settings, c: C.Client, r: C.Replay, n: nat)
    requires C.Active(c) == Some(r) && |c.queue| <= k.sendBuffer
    requires !r.cut && r.sent + n <= |C.Script(r)|
    ensures Sent(k, c, r, n, SendMany(k, c, n))
  {
    hide C.Script, C.Send, C.SetActive;
    if n == 0 {
      assert r.(sent := r.sent + 0, cut := false) == r;
    } else {
      SendManySends(k, c, r, n - 1);
      var d := SendMany(k, c, n - 1);
      assert |d.queue| == |Frames(d.queue)| == |c.queue| + Fits(k, c, n - 1);
      if n - 1 <= k.sendBuffer - |c.queue| {
        SameScript(r, r.sent + n - 1, false);
        SendOne(k, d, r.(sent := r.sent + n - 1, cut := false));
        SentThenOne(k, c, r, n - 1, d, SendMany(k, c, n));
      }
    }
  }

  /** A replay whose steps nothing else comes between: lock, config, chat decision,
      chat, the close behind a refused Send, unlock. */
  function SoloReplay(k: C.Settings, c: C.Client, i: nat, cache: Cache, entries: seq<ChatCache.Entry>, heard: nat)
      : C.Client
    requires i < |c.waiting|
  {
    var config := |if cache == [] then [] else Plan(cache, c.waiting[i])|;
    var chat := |FullScript(k, cache, c.waiting[i], c.phase, entries)| - config;
    var decided := C.DecideChat(k, SendMany(k, C.Lock(c, i, cache), config), entries, heard);
    C.Unlock(C.CalledBack(C.ConnClosed(SendMany(k, decided, chat))))
  }

  ghost predicate Agrees(k: C.Settings, c: C.Client, cache: Cache, nonce: U32, entries: seq<ChatCache.Entry>,
                         d: C.Client)
    requires |c.queue| <= k.sendBuffer
  {
    var script := FullScript(k, cache, nonce, c.phase, entries);
    var m := Fits(k, c, |script|);
    && !d.locked
    && Frames(d.queue) == Frames(c.queue) + script[..m]
    && d.phase == (if cache == [] then c.phase else C.Mark(c.phase, nonce))
    && d.reason == (if m < |script| then FirstOr(c.reason, C.SlowConsumer) else c.reason)
    && (m < |script| ==> d.closed)
  }

  lemma LockStarts(c: C.Client, i: nat, cache: Cache)
    requires !c.locked && i < |c.waiting| && cache != []
    ensures var d, r := C.Lock(c, i, cache), C.Replay(c.waiting[i], cache, C.Undecided, 0, false);
            && C.Active(d) == Some(r)
            && C.Script(r) == Plan(cache, c.waiting[i])
            && d == c.(waiting := d.waiting, replays := d.replays, locked := true,
                       phase := C.Mark(c.phase, c.waiting[i]))
  {
  }

  lemma ChatIsDecided(k: C.Settings, c: C.Client, r: C.Replay, phase: C.Phase, entries: seq<ChatCache.Entry>,
                      heard: nat)
    requires C.Active(c) == Some(r) && !r.cut && r.chat.Undecided? && r.config != []
    requires r.sent == |Plan(r.config, r.nonce)|
    requires c.phase == C.Mark(phase, r.nonce)
    ensures var d := C.DecideChat(k, c, entries, heard);
            && C.Active(d).Some?
            && C.Script(C.Active(d).value) == FullScript(k, r.config, r.nonce, phase, entries)
            && C.Active(d).value == r.(chat := C.Active(d).value.chat)
            && !C.Active(d).value.chat.Undecided?
            && d == c.(replays := d.replays)
  {
    hide Plan, C.ChatScript, C.ShouldReplayChat;
  }

  lemma ConfigCut(k: C.Settings, c: C.Client, i: nat, cache: Cache, entries: seq<ChatCache.Entry>, heard: nat)
    requires !c.locked && i < |c.waiting| && |c.queue| <= k.sendBuffer
    requires cache != [] && k.sendBuffer - |c.queue| < |Plan(cache, c.waiting[i])|
    ensures Agrees(k, c, cache, c.waiting[i], entries, SoloReplay(k, c, i, cache, entries, heard))
  {
    hide Plan, C.ChatScript, C.ReplaySend, C.Lock, C.Mark, C.Script, C.ShouldReplayChat, SendMany, Frames;
    LockStarts(c, i, cache);
    var nonce, locked := c.waiting[i], C.Lock(c, i, cache);
    var config, script := Plan(cache, nonce), FullScript(k, cache, nonce, c.phase, entries);
    SendManySends(k, locked, C.Active(locked).value, |config|);
    CutSendsNothing(k, SendMany(k, locked, |config|), |script| - |config|);
    assert config + script[|config|..] == script;
    SumPrefix(config, script[|config|..], Fits(k, c, |config|));
  }

  /** d is c with the config part out and chat decided: `script` is what the replay sends in all. */
  ghost predicate ConfigOut(c: C.Client, config: Cache, script: seq<Frame>, nonce: U32, d: C.Client) {
    && C.Active(d).Some?
    && (var q := C.Active(d).value;
        !q.cut && !q.chat.Undecided? && q.sent == |config| <= |script| && C.Script(q) == script)
    && |d.queue| == |c.queue| + |config|
    && Frames(d.queue) == Frames(c.queue) + config
    && d.phase == C.Mark(c.phase, nonce) && d.closing == c.closing && d.reason == c.reason
  }

  lemma ConfigSent(k: C.Settings, c: C.Client, i: nat, cache: Cache, entries: seq<ChatCache.Entry>, heard: nat)
    requires !c.locked && i < |c.waiting| && |c.queue| <= k.sendBuffer
    requires cache != [] && k.sendBuffer - |c.queue| >= |Plan(cache, c.waiting[i])|
    ensures var nonce, config := c.waiting[i], Plan(cache, c.waiting[i]);
            ConfigOut(c, config, FullScript(k, cache, nonce, c.phase, entries), nonce,
                      C.DecideChat(k, SendMany(k, C.Lock(c, i, cache), |config|), entries, heard))
  {
    hide Plan, C.ChatScript, C.ReplaySend, C.Lock, C.DecideChat, C.Mark, C.Script, C.ShouldReplayChat, SendMany, Frames;
    LockStarts(c, i, cache);
    var nonce, locked := c.waiting[i], C.Lock(c, i, cache);
    var config := Plan(cache, nonce);
    var r := C.Active(locked).value;
    SendManySends(k, locked, r, |config|);
    var sent := SendMany(k, locked, |config|);
    FramesLength(sent.queue);
    FramesLength(c.queue);
    ChatIsDecided(k, sent, r.(sent := |config|, cut := false), c.phase, entries, heard);
  }

  lemma ChatSent(k: C.Settings, c: C.Client, config: Cache, script: seq<Frame>, nonce: U32, d: C.Client)
    requires |c.queue| + |config| <= k.sendBuffer && config <= script && ConfigOut(c, config, script, nonce, d)
    ensures var e, m := C.Unlock(C.CalledBack(C.ConnClosed(SendMany(k, d, |script| - |config|)))), Fits(k, c, |script|);
            && !e.locked
            && Frames(e.queue) == Frames(c.queue) + script[..m]
            && e.phase == C.Mark(c.phase, nonce)
            && e.reason == (if m < |script| then FirstOr(c.reason, C.SlowConsumer) else c.reason)
            && (m < |script| ==> e.closed)
  {
    hide C.ReplaySend, C.Mark, C.Script, SendMany, Frames;
    SendManySends(k, d, C.Active(d).value, |script| - |config|);
    SameScript(C.Active(d).value, |script|, false);
    Continues(Frames(c.queue), config, script, Fits(k, c, |script|));
  }

  lemma NothingToReplay(k: C.Settings, c: C.Client, i: nat, entries: seq<ChatCache.Entry>, heard: nat)
    requires !c.locked && i < |c.waiting| && |c.queue| <= k.sendBuffer
    ensures Agrees(k, c, [], c.waiting[i], entries, SoloReplay(k, c, i, [], entries, heard))
  {
    hide C.ChatScript, C.Mark, C.ShouldReplayChat, Frames;
    assert Frames(c.queue) + [] == Frames(c.queue);
  }

  /** A solo replay does to the client exactly what `Client.ReplayCachedConfig`
      does: the whole script, or the prefix that fits and the close. */
  lemma SoloReplayAgrees(k: C.Settings, c: C.Client, i: nat, cache: Cache, entries: seq<ChatCache.Entry>, heard: nat)
    requires !c.locked && i < |c.waiting| && |c.queue| <= k.sendBuffer
    ensures Agrees(k, c, cache, c.waiting[i], entries, SoloReplay(k, c, i, cache, entries, heard))
  {
    hide Plan, C.ChatScript, C.ReplaySend, C.DecideChat, C.Mark, C.ShouldReplayChat, SendMany, Frames;
    if cache == [] {
      NothingToReplay(k, c, i, entries, heard);
    } else if k.sendBuffer - |c.queue| < |Plan(cache, c.waiting[i])| {
      ConfigCut(k, c, i, cache, entries, heard);
    } else {
      var nonce, config := c.waiting[i], Plan(cache, c.waiting[i]);
      ConfigSent(k, c, i, cache, entries, heard);
      ChatSent(k, c, config, FullScript(k, cache, nonce, c.phase, entries), nonce,
               C.DecideChat(k, SendMany(k, C.Lock(c, i, cache), |config|), entries, heard));
    }
  }

  lemma FramesLength(xs: seq<C.Item>)
    ensures |Frames(xs)| == |xs|
  {
  }

  lemma Continues<T>(base: seq<T>, config: seq<T>, script: seq<T>, m: nat)
    requires config <= script && |config| <= m <= |script|
    ensures (base + config) + script[|config|..m] == base + script[..m]
  {
    SumPrefix(config, script[|config|..], m);
    assert config + script[|config|..] == script;
    Regroup(base, config, script[|config|..m]);
  }

  lemma SumPrefix<T>(a: seq<T>, b: seq<T>, m: nat)
    requires m <= |a + b|
    ensures m <= |a| ==> a[..m] == (a + b)[..m]
    ensures m >= |a| ==> a + (a + b)[|a|..m] == (a + b)[..m]
  {
  }

  /** Running out of room inside the second of three parts. */
  lemma Cut<T>(a: seq<T>, b: seq<T>, c: seq<T>, all: seq<T>, room: int)
    requires |a| <= room < |a| + |b| && all == a + (b + c)
    ensures a + b[..room - |a|] == all[..room]
  {
  }

  lemma NextEntry(entries: seq<ChatCache.Entry>, i: nat)
    requires i < |entries|
    ensures C.ChatScript(entries[i..]) == C.EntryScript(entries[i]) + C.ChatScript(entries[i + 1..])
  {
    assert entries[i..][1..] == entries[i + 1..];
  }

  lemma NoEntries(entries: seq<ChatCache.Entry>)
    requires entries == []
    ensures C.ChatScript(entries) == []
  {
  }

  class Client {
    const sendBuffer: nat
    var send: seq<Frame>
    var disconnectReason: Option<C.Reason>
    var closeStarted: bool
    var configPhase: C.Phase

    constructor (sendBuffer: nat)
      ensures this.sendBuffer == sendBuffer && send == [] && disconnectReason == None && !closeStarted
    {
      this.sendBuffer := sendBuffer;
      send, disconnectReason, closeStarted, configPhase := [], None, false, C.Phase(false, false);
    }

    /** Frames the channel still takes before it is full. */
    ghost function Room(): int
      reads this
    {
      sendBuffer - |send|
    }

    method SetDisconnectReason(why: C.Reason)
      modifies this`disconnectReason
      ensures disconnectReason == FirstOr(old(disconnectReason), why)
    {
      if disconnectReason.None? {
        disconnectReason := Some(why);
      }
    }

    method Send(payload: Frame) returns (ok: bool)
      requires |send| <= sendBuffer
      modifies this`send, this`disconnectReason, this`closeStarted
      ensures |send| <= sendBuffer
      ensures ok <==> old(Room()) > 0
      ensures ok ==> send == old(send) + [payload]
      ensures ok ==> disconnectReason == old(disconnectReason) && closeStarted == old(closeStarted)
      ensures !ok ==> send == old(send) && closeStarted
      ensures !ok ==> disconnectReason == FirstOr(old(disconnectReason), C.SlowConsumer)
    {
      if |send| < sendBuffer {
        send := send + [payload];
        return true;
      }
      SetDisconnectReason(C.SlowConsumer);
      closeStarted := true;
      return false;
    }

    /** Send a list until one is refused: exactly the prefix that fits goes out. */
    twostate predicate SentPrefix(script: seq<Frame>, ok: bool)
      reads this
    {
      && old(|send|) <= sendBuffer
      && (ok <==> |script| <= old(Room()))
      && send == old(send) + (if ok then script else script[..old(Room())])
      && (ok ==> disconnectReason == old(disconnectReason) && closeStarted == old(closeStarted))
      && (!ok ==> closeStarted && disconnectReason == FirstOr(old(disconnectReason), C.SlowConsumer))
    }

    /** The config loop of replayCachedConfig. */
    method SendConfig(frames: Cache, nonce: U32) returns (ok: bool)
      requires |send| <= sendBuffer
      modifies this`send, this`disconnectReason, this`closeStarted
      ensures SentPrefix(PatchAll(frames, nonce), ok)
    {
      PatchAllIsPointwise(frames, nonce);
      ghost var script := PatchAll(frames, nonce);
      for i := 0 to |frames|
        invariant i <= old(Room()) && send == old(send) + script[..i]
        invariant disconnectReason == old(disconnectReason) && closeStarted == old(closeStarted)
      {
        var out := frames[i];
        if out.Parsed? && out.body.ConfigComplete? {
          out := out.(body := ConfigComplete(nonce));
        }
        ok := Send(out);
        if !ok {
          return;
        }
        assert script[..i + 1] == script[..i] + [out];
      }
      assert script[..|frames|] == script;
      ok := true;
    }

    /** One message of replayChatHistory, then its ACK if there is one. */
    method SendEntry(e: ChatCache.Entry) returns (ok: bool)
      requires |send| <= sendBuffer
      modifies this`send, this`disconnectReason, this`closeStarted
      ensures SentPrefix(C.EntryScript(e), ok)
    {
      ok := Send(e.message);
      if ok && e.ack.Some? {
        ok := Send(e.ack.value);
      }
    }

    /** replayChatHistory */
    method SendChat(entries: seq<ChatCache.Entry>) returns (ok: bool)
      requires |send| <= sendBuffer
      modifies this`send, this`disconnectReason, this`closeStarted
      ensures SentPrefix(C.ChatScript(entries), ok)
      ensures ok ==> |send| >= old(|send|) && C.IsChatScript(send[old(|send|)..], entries)
      ensures !ok ==> exists script :: C.IsChatScript(script, entries) && |script| > old(Room()) &&
                                       send == old(send) + script[..old(Room())]
    {
      hide C.ChatScript, C.EntryScript, C.IsChatScript;
      C.ChatScriptPlaces(entries);
      ghost var script := C.ChatScript(entries);
      ghost var done: seq<Frame> := [];
      assert entries[0..] == entries;
      for i := 0 to |entries|
        invariant |send| <= sendBuffer
        invariant script == done + C.ChatScript(entries[i..])
        invariant send == old(send) + done
        invariant disconnectReason == old(disconnectReason) && closeStarted == old(closeStarted)
      {
        ghost var one, rest := C.EntryScript(entries[i]), C.ChatScript(entries[i + 1..]);
        NextEntry(entries, i);
        ok := SendEntry(entries[i]);
        if !ok {
          Cut(done, one, rest, script, old(Room()));
          return;
        }
        Regroup(done, one, rest);
        Regroup(old(send), done, one);
        done := done + one;
      }
      NoEntries(entries[|entries|..]);
      assert send[old(|send|)..] == script;
      ok := true;
    }

    method SendConfigThenChat(frames: Cache, nonce: U32, chatDue: bool, entries: seq<ChatCache.Entry>)
        returns (ok: bool)
      requires |send| <= sendBuffer
      modifies this`send, this`disconnectReason, this`closeStarted
      ensures SentPrefix(PatchAll(frames, nonce) + if chatDue then C.ChatScript(entries) else [], ok)
    {
      hide C.ChatScript, PatchAll;
      ghost var config, chat := PatchAll(frames, nonce), if chatDue then C.ChatScript(entries) else [];
      ok := SendConfig(frames, nonce);
      if !ok {
        Cut([], config, chat, config + chat, old(Room()));
      } else if chatDue {
        ok := SendChat(entries);
        if !ok {
          Cut(config, chat, [], config + chat, old(Room()));
        }
      }
    }

    /** replayCachedConfig, uninterrupted: the channel gets the whole script, or the
        prefix that fits and the client is closed as a slow consumer. */
    method ReplayCachedConfig(k: C.Settings, cache: Cache, nonce: U32, entries: seq<ChatCache.Entry>) returns (ok: bool)
      requires |send| <= sendBuffer
      modifies this
      ensures SentPrefix(FullScript(k, cache, nonce, old(configPhase), entries), ok)
      ensures configPhase == if cache == [] then old(configPhase) else C.Mark(old(configPhase), nonce)
    {
      hide C.ChatScript, PatchAll, Filter;
      if |cache| == 0 {
        return true;
      }
      if nonce == NONCE_ONLY_CONFIG {
        configPhase := configPhase.(config := true);
      } else if nonce == NONCE_ONLY_NODES {
        configPhase := configPhase.(nodes := true);
      }
      var frames, _ := FilterConfigCache(cache, nonce);
      ok := SendConfigThenChat(frames, nonce, C.ShouldReplayChat(k, nonce, configPhase), entries);
    }
  }
}
