/** Event fan-out of internal/metrics/pubsub.go: publishers share the read lock
    while they offer an event to every subscriber's bounded channel; subscribing
    and unsubscribing need the write lock; Unsubscribe closes the channel after
    releasing it. */
module PubSub {

  const BUFFER := 64

  /** The n-th event of one publishing goroutine. */
  datatype Message = Message(publisher: nat, n: int)

  /** One offer of an event to a channel; `read` is how many events the channel's
      reader had received by then. */
  datatype Offer = Offer(msg: Message, full: bool, read: nat)

  datatype Channel = Channel(
    since: map<nat, nat>,    // publications before the subscription, per publisher
    fromBegun: nat,          // lengths of the two orders at the subscription
    fromOffered: nat,
    offers: seq<Offer>, buffer: seq<Message>, received: seq<Message>,
    removed: bool, closed: bool)

  datatype State = State(
    channels: map<nat, Channel>,
    subscribers: set<nat>,
    counts: map<nat, nat>,             // publications begun, per publisher
    active: map<nat, set<nat>>,        // publishers inside publish: channels still to offer
    begun: seq<Message>,               // events in the order their publications began
    offered: seq<Message>,             // events in the order of their first offer
    panicked: bool)                    // a send on a closed channel

  const START := State(map[], {}, map[], map[], [], [], false)

  datatype Event =
    | Subscribe(c: nat)
    | Remove(c: nat)       // the locked part of Unsubscribe
    | Close(c: nat)        // its close(ch)
    | Begin(p: nat)
    | Send(p: nat, c: nat)
    | End(p: nat)
    | Receive(c: nat)

  function Count(m: map<nat, nat>, p: nat): nat {
    if p in m then m[p] else 0
  }

  /** select { case ch <- evt: default: } */
  function Offered(ch: Channel, m: Message): Channel {
    var read := |ch.received|;
    if |ch.buffer| < BUFFER then ch.(offers := ch.offers + [Offer(m, false, read)], buffer := ch.buffer + [m])
    else ch.(offers := ch.offers + [Offer(m, true, read)])
  }

  /** The event an active publisher is offering. */
  function Current(s: State, p: nat): Message {
    Message(p, if p in s.counts && s.counts[p] > 0 then s.counts[p] - 1 else 0)
  }

  function Subscribed(s: State): Channel {
    Channel(s.counts, |s.begun|, |s.offered|, [], [], [], false, false)
  }

  function Next(s: State, e: Event): State {
    match e
    case Subscribe(c) =>
      if c in s.channels || s.active != map[] then s
      else s.(channels := s.channels[c := Subscribed(s)], subscribers := s.subscribers + {c})
    case Remove(c) =>
      if c !in s.channels || s.channels[c].removed || s.active != map[] then s
      else s.(channels := s.channels[c := s.channels[c].(removed := true)], subscribers := s.subscribers - {c})
    case Close(c) =>
      if c !in s.channels || !s.channels[c].removed || s.channels[c].closed then s
      else s.(channels := s.channels[c := s.channels[c].(closed := true)])
    case Begin(p) =>
      if p in s.active then s
      else s.(counts := s.counts[p := Count(s.counts, p) + 1], active := s.active[p := s.subscribers],
              begun := s.begun + [Message(p, Count(s.counts, p))])
    case Send(p, c) =>
      if p !in s.active || c !in s.active[p] || c !in s.channels then s
      else
        var m := Current(s, p);
        var t := s.(active := s.active[p := s.active[p] - {c}],
                    offered := if m in s.offered then s.offered else s.offered + [m]);
        if s.channels[c].closed then t.(panicked := true)
        else t.(channels := s.channels[c := Offered(s.channels[c], m)])
    case End(p) =>
      if p !in s.active || s.active[p] != {} then s else s.(active := s.active - {p})
    case Receive(c) =>
      if c !in s.channels || s.channels[c].buffer == [] then s
      else
        var ch := s.channels[c];
        s.(channels := s.channels[c := ch.(received := ch.received + [ch.buffer[0]], buffer := ch.buffer[1..])])
  }

  function Run(es: seq<Event>): State {
    if es == [] then START else Next(Run(es[..|es| - 1]), es[|es| - 1])
  }

  // -------------------------------------------------------------- invariants

  /** The number the next offer from p must have. */
  function Expected(ch: Channel, p: nat): nat {
    Count(ch.since, p) + OffersFrom(ch.offers, p)
  }

  function OffersFrom(os: seq<Offer>, p: nat): nat {
    if os == [] then 0 else OffersFrom(os[..|os| - 1], p) + if os[|os| - 1].msg.publisher == p then 1 else 0
  }

  /** Each publisher's events are offered once, in order and without a gap. */
  predicate Gapless(since: map<nat, nat>, os: seq<Offer>) {
    forall i :: 0 <= i < |os| ==>
      os[i].msg.n == Count(since, os[i].msg.publisher) + OffersFrom(os[..i], os[i].msg.publisher)
  }

  function Accepted(os: seq<Offer>): seq<Message> {
    if os == [] then []
    else Accepted(os[..|os| - 1]) + if os[|os| - 1].full then [] else [os[|os| - 1].msg]
  }

  /** An offer finds the channel full exactly when BUFFER accepted events had not
      been received by then. */
  predicate FullAt(os: seq<Offer>, i: nat)
    requires i < |os|
  {
    && os[i].read <= |Accepted(os[..i])| <= os[i].read + BUFFER
    && (os[i].full <==> |Accepted(os[..i])| == os[i].read + BUFFER)
  }

  predicate Drops(os: seq<Offer>) {
    forall i :: 0 <= i < |os| ==> FullAt(os, i)
  }

  predicate ChannelInv(ch: Channel) {
    && |ch.buffer| <= BUFFER
    && ch.received + ch.buffer == Accepted(ch.offers)
    && Gapless(ch.since, ch.offers)
    && Drops(ch.offers)
    && (ch.closed ==> ch.removed)
  }

  /** A subscriber has been offered everything begun since it subscribed, but for
      what active publishers still owe it. */
  ghost predicate UpToDate(s: State, c: nat)
    requires c in s.channels
  {
    forall p :: Expected(s.channels[c], p) + (if p in s.active && c in s.active[p] then 1 else 0) == Count(s.counts, p)
  }

  ghost predicate Inv(s: State) {
    && !s.panicked
    && (forall c :: c in s.channels ==> ChannelInv(s.channels[c]) && (c in s.subscribers <==> !s.channels[c].removed))
    && s.subscribers <= s.channels.Keys
    && (forall p :: p in s.active ==> s.active[p] <= s.subscribers && Count(s.counts, p) > 0)
    && forall c :: c in s.subscribers ==> UpToDate(s, c)
  }

  lemma GaplessSnoc(since: map<nat, nat>, os: seq<Offer>, o: Offer)
    requires Gapless(since, os) && o.msg.n == Count(since, o.msg.publisher) + OffersFrom(os, o.msg.publisher)
    ensures Gapless(since, os + [o])
    ensures forall p :: OffersFrom(os + [o], p) == OffersFrom(os, p) + if p == o.msg.publisher then 1 else 0
    ensures Accepted(os + [o]) == Accepted(os) + if o.full then [] else [o.msg]
  {
    var next := os + [o];
    assert next[..|os|] == os;
    forall i | 0 <= i < |next|
      ensures next[i].msg.n == Count(since, next[i].msg.publisher) + OffersFrom(next[..i], next[i].msg.publisher)
    {
      if i < |os| {
        assert next[..i] == os[..i];
      }
    }
  }

  lemma DropsSnoc(os: seq<Offer>, o: Offer)
    requires Drops(os) && o.read <= |Accepted(os)| <= o.read + BUFFER
    requires o.full <==> |Accepted(os)| == o.read + BUFFER
    ensures Drops(os + [o])
  {
    var next := os + [o];
    assert next[..|os|] == os;
    forall i | 0 <= i < |next| ensures FullAt(next, i) {
      if i < |os| {
        assert next[..i] == os[..i];
        assert FullAt(os, i);
      }
    }
  }

  lemma OfferKeeps(ch: Channel, m: Message)
    requires ChannelInv(ch) && m.n == Expected(ch, m.publisher)
    ensures ChannelInv(Offered(ch, m))
    ensures Offered(ch, m).removed == ch.removed && Offered(ch, m).closed == ch.closed
    ensures forall p :: Expected(Offered(ch, m), p) == Expected(ch, p) + if p == m.publisher then 1 else 0
  {
    hide Gapless, Drops, Accepted, OffersFrom;
    var o := Offer(m, |ch.buffer| >= BUFFER, |ch.received|);
    GaplessSnoc(ch.since, ch.offers, o);
    DropsSnoc(ch.offers, o);
  }

  lemma OpenWhileSubscribed(s: State, c: nat)
    requires Inv(s) && c in s.subscribers
    ensures c in s.channels && !s.channels[c].closed && ChannelInv(s.channels[c])
  {
  }

  lemma SendKeeps(s: State, p: nat, c: nat)
    requires Inv(s)
    ensures Inv(Next(s, Send(p, c)))
  {
    if p in s.active && c in s.active[p] {
      OpenWhileSubscribed(s, c);
      assert UpToDate(s, c);
      OfferKeeps(s.channels[c], Current(s, p));
      SentInv(s, p, c, Offered(s.channels[c], Current(s, p)), Next(s, Send(p, c)).offered);
    }
  }

  lemma SentInv(s: State, p: nat, c: nat, ch: Channel, offered: seq<Message>)
    requires Inv(s) && p in s.active && c in s.active[p]
    requires ChannelInv(ch) && ch.removed == s.channels[c].removed
    requires forall q :: Expected(ch, q) == Expected(s.channels[c], q) + if q == p then 1 else 0
    ensures Inv(s.(active := s.active[p := s.active[p] - {c}], channels := s.channels[c := ch], offered := offered))
  {
    hide ChannelInv, Expected;
    var t := s.(active := s.active[p := s.active[p] - {c}], channels := s.channels[c := ch], offered := offered);
    forall d | d in t.subscribers ensures UpToDate(t, d) {
      assert UpToDate(s, d);
    }
  }

  lemma NewChannel(s: State)
    ensures var ch := Subscribed(s);
            ChannelInv(ch) && forall p :: Expected(ch, p) == Count(s.counts, p)
  {
  }

  lemma SubscribeKeeps(s: State, c: nat)
    requires Inv(s)
    ensures Inv(Next(s, Subscribe(c)))
  {
    hide ChannelInv, Expected;
    NewChannel(s);
    var t := Next(s, Subscribe(c));
    forall d | d in t.subscribers ensures UpToDate(t, d) {
      if d in s.subscribers {
        assert UpToDate(s, d);
      }
    }
  }

  lemma Marked(ch: Channel)
    requires ChannelInv(ch)
    ensures ChannelInv(ch.(removed := true)) && (ch.removed ==> ChannelInv(ch.(closed := true)))
    ensures ch.buffer != [] ==> ChannelInv(ch.(received := ch.received + [ch.buffer[0]], buffer := ch.buffer[1..]))
  {
    if ch.buffer != [] {
      assert ch.buffer == [ch.buffer[0]] + ch.buffer[1..];
    }
  }

  /** A channel that changed in nothing but what it has delivered and its marks. */
  lemma SameOffers(s: State, c: nat, ch: Channel, subs: set<nat>)
    requires Inv(s) && c in s.channels && ChannelInv(ch)
    requires ch.since == s.channels[c].since && ch.offers == s.channels[c].offers
    requires if ch.removed == s.channels[c].removed then subs == s.subscribers
             else ch.removed && s.active == map[] && subs == s.subscribers - {c}
    ensures Inv(s.(channels := s.channels[c := ch], subscribers := subs))
  {
    hide ChannelInv;
    var t := s.(channels := s.channels[c := ch], subscribers := subs);
    forall d | d in t.subscribers ensures UpToDate(t, d) {
      assert UpToDate(s, d);
    }
  }

  lemma ChannelStepKeeps(s: State, e: Event)
    requires Inv(s) && (e.Remove? || e.Close? || e.Receive?)
    ensures Inv(Next(s, e))
  {
    hide ChannelInv;
    var t := Next(s, e);
    if t != s {
      assert e.c in s.channels;
      Marked(s.channels[e.c]);
      SameOffers(s, e.c, t.channels[e.c], t.subscribers);
    }
  }

  lemma PublishKeeps(s: State, p: nat)
    requires Inv(s)
    ensures Inv(Next(s, Begin(p))) && Inv(Next(s, End(p)))
  {
    hide ChannelInv, Expected;
    assert forall d :: d in s.subscribers ==> UpToDate(s, d);
  }

  lemma StepKeeps(s: State, e: Event)
    requires Inv(s)
    ensures Inv(Next(s, e))
  {
    hide Inv, Next;
    match e
    case Subscribe(c) => SubscribeKeeps(s, c);
    case Remove(_) => ChannelStepKeeps(s, e);
    case Close(_) => ChannelStepKeeps(s, e);
    case Begin(p) => PublishKeeps(s, p);
    case Send(p, c) => SendKeeps(s, p, c);
    case End(p) => PublishKeeps(s, p);
    case Receive(_) => ChannelStepKeeps(s, e);
  }

  lemma {:induction false} RunKeeps(es: seq<Event>)
    ensures Inv(Run(es))
    decreases es
  {
    if es != [] {
      RunKeeps(es[..|es| - 1]);
      StepKeeps(Run(es[..|es| - 1]), es[|es| - 1]);
    }
  }

  /** On every interleaving: no send hits a closed channel; a channel buffers at
      most 64 events; what its reader got or will get is exactly the offers that
      found room, and offers follow each publisher's order without a gap. */
  lemma FanOut(es: seq<Event>, c: nat)
    requires c in Run(es).channels
    ensures var s := Run(es);
            var ch := s.channels[c];
            && !s.panicked
            && |ch.buffer| <= 64
            && ch.received + ch.buffer == Accepted(ch.offers)
            && Gapless(ch.since, ch.offers)
            && (c in s.subscribers && s.active == map[] ==> forall p :: Expected(ch, p) == Count(s.counts, p))
  {
    RunKeeps(es);
    assert c in Run(es).subscribers ==> UpToDate(Run(es), c);
  }

  /** On every run an event is dropped exactly by a channel that at that moment
      holds 64 events its reader has not received. */
  lemma DropsOnlyWhenFull(es: seq<Event>, c: nat, i: nat)
    requires c in Run(es).channels && i < |Run(es).channels[c].offers|
    ensures var os := Run(es).channels[c].offers;
            var unread := |Accepted(os[..i])| - os[i].read;
            && 0 <= unread <= 64
            && (os[i].full <==> unread == 64)
  {
    RunKeeps(es);
    assert ChannelInv(Run(es).channels[c]);
    assert FullAt(Run(es).channels[c].offers, i);
  }

  lemma RunSnoc(es: seq<Event>, e: Event)
    ensures Run(es + [e]) == Next(Run(es), e)
  {
    assert (es + [e])[..|es|] == es;
  }
}
