/** The bounded chat cache with late routing ACKs (internal/proxy/proxy.go), and
    the unbounded log it is a window of. */
module ChatCache {
  import opened Wrappers
  import opened Radio

  datatype Entry = Entry(message: Frame, packetId: U32, ack: Option<Frame>)

  datatype Event = Message(text: Frame) | Ack(id: U32, ack: Frame)

  // ------------------------------------------------------- the bounded cache

  function Window(log: seq<Entry>, max: int): seq<Entry> {
    if max <= 0 then [] else if |log| <= max then log else log[|log| - max..]
  }

  /** Index of the latest entry with this id that has no ACK yet, or -1. */
  function Latest(log: seq<Entry>, id: U32): (i: int)
    ensures -1 <= i < |log|
    ensures i >= 0 ==> log[i].packetId == id && log[i].ack.None?
    ensures forall j :: i < j < |log| ==> !(log[j].packetId == id && log[j].ack.None?)
  {
    if log == [] then -1
    else
      var last := |log| - 1;
      if log[last].packetId == id && log[last].ack.None? then last else Latest(log[..last], id)
  }

  function Patch(log: seq<Entry>, i: int, ack: Frame): (r: seq<Entry>)
    requires -1 <= i < |log|
    ensures |r| == |log|
  {
    if i < 0 then log else log[i := log[i].(ack := Some(ack))]
  }

  function Attach(log: seq<Entry>, id: U32, ack: Frame): (r: seq<Entry>)
    ensures |r| == |log|
  {
    Patch(log, Latest(log, id), ack)
  }

  /** cacheTextMessage and cacheACK */
  function Cached(cache: seq<Entry>, e: Event, max: int): seq<Entry> {
    if max <= 0 then cache
    else match e
      case Message(text) => Window(cache + [Entry(text, text.PacketId(), None)], max)
      case Ack(id, ack) => if id == 0 then cache else Attach(cache, id, ack)
  }

  function CacheAfter(es: seq<Event>, max: int): seq<Entry> {
    if es == [] then [] else Cached(CacheAfter(es[..|es| - 1], max), es[|es| - 1], max)
  }

  // ------------------------------------------------------- the unbounded log

  function Logged(log: seq<Entry>, e: Event): seq<Entry> {
    match e
    case Message(text) => log + [Entry(text, text.PacketId(), None)]
    case Ack(id, ack) => if id == 0 then log else Attach(log, id, ack)
  }

  function LogAfter(es: seq<Event>): seq<Entry> {
    if es == [] then [] else Logged(LogAfter(es[..|es| - 1]), es[|es| - 1])
  }

  lemma {:induction false} LatestInSuffix(log: seq<Entry>, k: nat, id: U32)
    requires k <= |log|
    ensures Latest(log[k..], id) == if Latest(log, id) >= k then Latest(log, id) - k else -1
    decreases |log|
  {
    if k < |log| {
      var last := |log| - 1;
      assert log[k..][..last - k] == log[..last][k..];
      LatestInSuffix(log[..last], k, id);
    }
  }

  lemma AttachInWindow(log: seq<Entry>, id: U32, ack: Frame, max: int)
    ensures Window(Attach(log, id, ack), max) == Attach(Window(log, max), id, ack)
  {
    hide Latest, Patch;
    if max > 0 && |log| > max {
      var i, k := Latest(log, id), |log| - max;
      LatestInSuffix(log, k, id);
      PatchSuffix(log, i, ack, k);
    }
  }

  lemma PatchSuffix(log: seq<Entry>, i: int, ack: Frame, k: nat)
    requires -1 <= i < |log| && k <= |log|
    ensures Patch(log, i, ack)[k..] == Patch(log[k..], if i >= k then i - k else -1, ack)
  {
  }

  lemma WindowOfWindow(log: seq<Entry>, e: Entry, max: int)
    ensures Window(Window(log, max) + [e], max) == Window(log + [e], max)
  {
  }

  /** After any history the cache is exactly the last `max` entries of the log in
      which every ACK went to the latest unacknowledged message it names. */
  lemma {:induction false} CacheIsWindow(es: seq<Event>, max: int)
    ensures CacheAfter(es, max) == Window(LogAfter(es), max)
    decreases es
  {
    if es != [] {
      var init, e := es[..|es| - 1], es[|es| - 1];
      CacheIsWindow(init, max);
      match e
      case Message(text) => WindowOfWindow(LogAfter(init), Entry(text, text.PacketId(), None), max);
      case Ack(id, ack) => AttachInWindow(LogAfter(init), id, ack, max);
    }
  }

  /** The log keeps every message for good, in order; an attached ACK never
      changes, and was sent for the id of the very entry that holds it. */
  lemma {:induction false} LogGrowsOnly(es: seq<Event>, more: seq<Event>)
    ensures var a, b := LogAfter(es), LogAfter(es + more);
            && |a| <= |b|
            && forall i :: 0 <= i < |a| ==>
                 && b[i].message == a[i].message && b[i].packetId == a[i].packetId
                 && (a[i].ack.Some? ==> b[i].ack == a[i].ack)
    decreases more
  {
    if more == [] {
      assert es + more == es;
    } else {
      LogGrowsOnly(es, more[..|more| - 1]);
      assert (es + more)[..|es + more| - 1] == es + more[..|more| - 1];
    }
  }

  lemma {:induction false} AcksMatch(es: seq<Event>)
    ensures forall i :: 0 <= i < |LogAfter(es)| ==>
              var x := LogAfter(es)[i];
              && x.packetId == x.message.PacketId()
              && (x.ack.Some? ==> x.packetId != 0 && Ack(x.packetId, x.ack.value) in es)
    decreases es
  {
    if es != [] {
      AcksMatch(es[..|es| - 1]);
    }
  }

  // ------------------------------------------------ what the log and window are

  /** The text messages of a history, in order. */
  function Texts(es: seq<Event>): seq<Frame> {
    if es == [] then []
    else Texts(es[..|es| - 1]) + match es[|es| - 1] case Message(text) => [text] case _ => []
  }

  /** The packet id of a text message's frame. */
  function IdOf(text: Frame): U32 {
    match text case Parsed(_, PacketFrame(p)) => p.id case _ => 0
  }

  /** Entry i is the last one with this id that has no ACK. */
  predicate IsLatest(log: seq<Entry>, i: int, id: U32) {
    && 0 <= i < |log| && log[i].packetId == id && log[i].ack.None?
    && forall j :: i < j < |log| ==> log[j].packetId != id || log[j].ack.Some?
  }

  /** What an ACK does to a list of entries: it is filled into the last entry with its
      id that has none, and is lost if there is no such entry or its id is 0. */
  ghost predicate AckTaken(before: seq<Entry>, id: U32, ack: Frame, after: seq<Entry>) {
    if id != 0 && exists i :: IsLatest(before, i, id) then
      exists i :: IsLatest(before, i, id) &&
                  after == before[i := Entry(before[i].message, before[i].packetId, Some(ack))]
    else after == before
  }

  lemma AttachTakes(log: seq<Entry>, id: U32, ack: Frame)
    ensures AckTaken(log, id, ack, if id == 0 then log else Attach(log, id, ack))
  {
    hide Latest;
    var i := Latest(log, id);
    if i >= 0 {
      assert IsLatest(log, i, id);
    }
  }

  /** The log has one entry per text message, in order, under the message's own id,
      and grows by what each ACK does. */
  lemma {:induction false} LogIsMessages(es: seq<Event>)
    ensures |LogAfter(es)| == |Texts(es)|
    ensures forall i :: 0 <= i < |Texts(es)| ==>
              LogAfter(es)[i].message == Texts(es)[i] && LogAfter(es)[i].packetId == IdOf(Texts(es)[i])
    decreases es
  {
    if es != [] {
      LogIsMessages(es[..|es| - 1]);
    }
  }

  lemma AckInLog(es: seq<Event>, id: U32, ack: Frame)
    ensures AckTaken(LogAfter(es), id, ack, LogAfter(es + [Ack(id, ack)]))
  {
    assert (es + [Ack(id, ack)])[..|es|] == es;
    AttachTakes(LogAfter(es), id, ack);
  }

  /** w is the last `max` entries of the log, or all of a shorter one. */
  predicate IsTail(log: seq<Entry>, max: int, w: seq<Entry>) {
    && |w| == (if max <= 0 then 0 else if |log| < max then |log| else max)
    && forall i :: 0 <= i < |w| ==> w[i] == log[|log| - |w| + i]
  }

  lemma WindowIsTail(log: seq<Entry>, max: int)
    ensures IsTail(log, max, Window(log, max))
  {
    if 0 < max < |log| {
      TailOf(log, |log| - max, log[|log| - max..]);
    }
  }

  lemma TailOf(log: seq<Entry>, k: nat, w: seq<Entry>)
    requires k <= |log| && w == log[k..]
    ensures |w| == |log| - k && forall i :: 0 <= i < |w| ==> w[i] == log[k + i]
  {
  }

  // --------------------------------------------------------------- the class

  class Chat {
    const maxChatCache: int
    var chatCache: seq<Entry>

    constructor (max: int)
      ensures chatCache == [] && maxChatCache == max
    {
      maxChatCache := max;
      chatCache := [];
    }

    method CacheTextMessage(payload: Frame)
      requires maxChatCache > 0 ==> |chatCache| <= maxChatCache
      modifies this
      ensures chatCache == Cached(old(chatCache), Message(payload), maxChatCache)
      ensures maxChatCache > 0 ==> |chatCache| <= maxChatCache
      ensures if maxChatCache <= 0 then chatCache == old(chatCache)
              else IsTail(old(chatCache) + [Entry(payload, IdOf(payload), None)], maxChatCache, chatCache)
    {
      if maxChatCache <= 0 {
        return;
      }
      chatCache := chatCache + [Entry(payload, payload.PacketId(), None)];
      if |chatCache| > maxChatCache {
        var excess := |chatCache| - maxChatCache;
        chatCache := chatCache[excess..];
      }
    }

    method CacheAck(packetId: U32, payload: Frame)
      modifies this
      ensures chatCache == Cached(old(chatCache), Ack(packetId, payload), maxChatCache)
      ensures |chatCache| == |old(chatCache)|
      ensures if maxChatCache <= 0 then chatCache == old(chatCache)
              else AckTaken(old(chatCache), packetId, payload, chatCache)
    {
      AttachTakes(chatCache, packetId, payload);
      if maxChatCache <= 0 || packetId == 0 {
        return;
      }
      var i := |chatCache| - 1;
      while i >= 0
        invariant -1 <= i < |chatCache|
        invariant chatCache == old(chatCache)
        invariant Latest(chatCache, packetId) == Latest(chatCache[..i + 1], packetId)
      {
        assert chatCache[..i + 1][..i] == chatCache[..i];
        if chatCache[i].packetId == packetId && chatCache[i].ack.None? {
          chatCache := chatCache[i := chatCache[i].(ack := Some(payload))];
          return;
        }
        i := i - 1;
      }
    }
  }

  /** Any history of calls leaves the window of the log. */
  method Drive(es: seq<Event>, max: int) returns (c: Chat)
    ensures fresh(c) && c.chatCache == Window(LogAfter(es), max) && IsTail(LogAfter(es), max, c.chatCache)
  {
    hide CacheAfter, Cached, IsTail, AckTaken, Window, LogAfter;
    c := new Chat(max);
    NothingCached(max);
    for i := 0 to |es|
      invariant fresh(c) && c.maxChatCache == max && (max > 0 ==> |c.chatCache| <= max)
      invariant c.chatCache == CacheAfter(es[..i], max)
    {
      CachedMore(es, i, max);
      match es[i]
      case Message(text) => c.CacheTextMessage(text);
      case Ack(id, ack) => c.CacheAck(id, ack);
    }
    assert es[..|es|] == es;
    CacheIsWindow(es, max);
    WindowIsTail(LogAfter(es), max);
  }

  lemma NothingCached(max: int)
    ensures CacheAfter([], max) == []
  {
  }

  lemma CachedMore(es: seq<Event>, i: nat, max: int)
    requires i < |es|
    ensures CacheAfter(es[..i + 1], max) == Cached(CacheAfter(es[..i], max), es[i], max)
  {
    assert es[..i + 1][..i] == es[..i];
  }
}
