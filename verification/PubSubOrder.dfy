/** When the events of internal/metrics/pubsub.go reach every subscriber in one
    order. Nothing but the shared read lock orders two publishers, so the answer
    is a condition on the moment a publication begins. */
module PubSubOrder {
  import opened Wrappers
  import opened PubSub

  function Msgs(os: seq<Offer>): seq<Message> {
    seq(|os|, i requires 0 <= i < |os| => os[i].msg)
  }

  predicate Owes(s: State, p: nat, c: nat) {
    p in s.active && c in s.active[p]
  }

  /** No publisher inside publish has a channel left to offer. */
  ghost predicate Quiet(s: State) {
    forall p :: p in s.active ==> s.active[p] == {}
  }

  ghost predicate AtMostOne(xs: set<nat>) {
    forall c, d :: c in xs && d in xs ==> c == d
  }

  ghost predicate OnePublisher(s: State) {
    forall p, q, c, d :: Owes(s, p, c) && Owes(s, q, d) ==> p == q
  }

  predicate Begins(s: State, e: Event) {
    e.Begin? && e.p !in s.active
  }

  /** What a channel was offered is a run of `order` that starts at its
      subscription; a subscribed one lacks at most the last event. */
  ghost predicate Tracks(ch: Channel, order: seq<Message>, from: nat, lags: bool, subscribed: bool) {
    && from <= |order|
    && Msgs(ch.offers) <= order[from..]
    && (subscribed ==> |ch.offers| + (if lags then 1 else 0) == |order| - from)
  }

  lemma TracksMore(ch: Channel, order: seq<Message>, from: nat, m: Message, subscribed: bool)
    requires Tracks(ch, order, from, false, subscribed)
    ensures Tracks(ch, order + [m], from, true, subscribed)
  {
    assert (order + [m])[from..] == order[from..] + [m];
  }

  lemma TracksOffer(ch: Channel, order: seq<Message>, from: nat, m: Message)
    requires Tracks(ch, order, from, true, true) && order != [] && order[|order| - 1] == m
    ensures Tracks(Offered(ch, m), order, from, false, true)
  {
    var os := Offered(ch, m).offers;
    assert Msgs(os) == Msgs(ch.offers) + [m];
    assert Msgs(os) == order[from..];
  }

  // ------------------------------------------------- the steps, channel by channel

  lemma SendAppends(s: State, p: nat, c: nat)
    requires Inv(s) && Owes(s, p, c)
    ensures var t, m := Next(s, Send(p, c)), Current(s, p);
            && Inv(t) && t.channels == s.channels[c := Offered(s.channels[c], m)]
            && Msgs(t.channels[c].offers) == Msgs(s.channels[c].offers) + [m]
            && t.subscribers == s.subscribers && t.counts == s.counts && t.begun == s.begun
            && t.active == s.active[p := s.active[p] - {c}]
            && t.offered == if m in s.offered then s.offered else s.offered + [m]
    ensures c in s.subscribers && c in s.channels
  {
    hide Inv, Next;
    OwedIsOpen(s, p, c);
    StepKeeps(s, Send(p, c));
    SendStep(s, p, c);
  }

  lemma OwedIsOpen(s: State, p: nat, c: nat)
    requires Inv(s) && Owes(s, p, c)
    ensures c in s.subscribers && c in s.channels && !s.channels[c].closed
  {
    hide Gapless, Drops;
    OpenWhileSubscribed(s, c);
  }

  lemma SendStep(s: State, p: nat, c: nat)
    requires Owes(s, p, c) && c in s.channels && !s.channels[c].closed
    ensures var t, m := Next(s, Send(p, c)), Current(s, p);
            && t == s.(channels := s.channels[c := Offered(s.channels[c], m)],
                       active := s.active[p := s.active[p] - {c}],
                       offered := if m in s.offered then s.offered else s.offered + [m])
            && Msgs(t.channels[c].offers) == Msgs(s.channels[c].offers) + [m]
  {
  }

  lemma BeginOwes(s: State, p: nat)
    requires Inv(s) && p !in s.active
    ensures var t := Next(s, Begin(p));
            && Inv(t) && t.channels == s.channels && t.subscribers == s.subscribers && t.offered == s.offered
            && t.active == s.active[p := s.subscribers] && t.begun == s.begun + [Current(t, p)]
            && Current(t, p) == Message(p, Count(s.counts, p))
            && Count(t.counts, p) == Count(s.counts, p) + 1
            && forall q :: q != p ==> Count(t.counts, q) == Count(s.counts, q) && Current(t, q) == Current(s, q)
  {
    StepKeeps(s, Begin(p));
  }

  /** t differs from s in nothing the orders speak of, but for new channels and
      lost subscriptions. */
  ghost predicate Calm(s: State, t: State) {
    && Inv(t)
    && t.begun == s.begun && t.offered == s.offered && t.counts == s.counts
    && (forall p, c :: Owes(t, p, c) <==> Owes(s, p, c))
    && (forall p :: p in t.active ==> p in s.active && t.active[p] == s.active[p])
    && (t.active != map[] ==> t.subscribers == s.subscribers)
    && forall c :: c in t.channels ==>
         if c in s.channels then
           && t.channels[c].offers == s.channels[c].offers && t.channels[c].since == s.channels[c].since
           && t.channels[c].fromBegun == s.channels[c].fromBegun
           && t.channels[c].fromOffered == s.channels[c].fromOffered
           && (c in t.subscribers ==> c in s.subscribers)
         else t.channels[c] == Subscribed(s) && s.active == map[]
  }

  lemma OtherStepsAreCalm(s: State, e: Event)
    requires Inv(s) && !e.Begin? && !e.Send?
    ensures Calm(s, Next(s, e))
  {
    hide Inv, Next;
    StepKeeps(s, e);
    InvSubscribers(s);
    CalmStep(s, e, Next(s, e));
  }

  lemma CalmStep(s: State, e: Event, t: State)
    requires s.subscribers <= s.channels.Keys && t == Next(s, e) && Inv(t) && !e.Begin? && !e.Send?
    ensures Calm(s, t)
  {
    hide Inv;
    match e
    case Subscribe(_) =>
    case Remove(_) =>
    case Close(_) =>
    case Receive(_) =>
    case End(_) =>
  }

  lemma InvSubscribers(s: State)
    requires Inv(s)
    ensures s.subscribers <= s.channels.Keys
  {
  }

  // ---------------------------------------------- what any run knows of its events

  /** An active publication began after every present subscription. */
  ghost predicate KnownInv(s: State) {
    && Inv(s)
    && (forall m :: m in s.begun ==> m.n < Count(s.counts, m.publisher))
    && (forall c :: c in s.channels ==>
          s.channels[c].fromBegun <= |s.begun| && forall p :: Count(s.channels[c].since, p) <= Count(s.counts, p))
    && forall p, c :: p in s.active && c in s.subscribers && c in s.channels ==>
         && Current(s, p) in s.begun[s.channels[c].fromBegun..]
         && Count(s.channels[c].since, p) < Count(s.counts, p)
  }

  lemma KnownStep(s: State, e: Event)
    requires KnownInv(s)
    ensures KnownInv(Next(s, e))
  {
    hide Inv, Next, Offered;
    var t := Next(s, e);
    if e.Begin? {
      if e.p !in s.active {
        BeginKeepsKnown(s, e.p);
      } else {
        BeginOfActive(s, e.p);
      }
    } else if e.Send? {
      if Owes(s, e.p, e.c) {
        SendAppends(s, e.p, e.c);
        KeepsPlace(s.channels[e.c], Current(s, e.p));
        assert forall p :: Current(t, p) == Current(s, p);
      } else {
        SendOfNothing(s, e.p, e.c);
      }
    } else {
      OtherStepsAreCalm(s, e);
      CalmKeepsKnown(s, t);
    }
  }

  lemma BeginOfActive(s: State, p: nat)
    requires p in s.active
    ensures Next(s, Begin(p)) == s
  {
  }

  lemma SendOfNothing(s: State, p: nat, c: nat)
    requires !Owes(s, p, c)
    ensures Next(s, Send(p, c)) == s
  {
  }

  lemma BeginKeepsKnown(s: State, p: nat)
    requires KnownInv(s) && p !in s.active
    ensures KnownInv(Next(s, Begin(p)))
  {
    hide Inv, Next, Current;
    BeginOwes(s, p);
    var t := Next(s, Begin(p));
    forall c | c in t.channels
      ensures t.begun[t.channels[c].fromBegun..] == s.begun[s.channels[c].fromBegun..] + [Current(t, p)]
    {
    }
  }

  lemma CalmKeepsKnown(s: State, t: State)
    requires KnownInv(s) && Calm(s, t)
    ensures KnownInv(t)
  {
    hide Inv;
    assert forall p :: Current(t, p) == Current(s, p);
  }

  lemma {:induction false} RunKnows(es: seq<Event>)
    ensures KnownInv(Run(es))
    decreases es
  {
    if es == [] {
      RunKeeps([]);
    } else {
      RunKnows(es[..|es| - 1]);
      KnownStep(Run(es[..|es| - 1]), es[|es| - 1]);
    }
  }

  lemma GaplessInit(since: map<nat, nat>, os: seq<Offer>)
    requires Gapless(since, os) && os != []
    ensures Gapless(since, os[..|os| - 1])
    ensures var m := os[|os| - 1].msg; m.n == Count(since, m.publisher) + OffersFrom(os[..|os| - 1], m.publisher)
    ensures Msgs(os) == Msgs(os[..|os| - 1]) + [os[|os| - 1].msg]
  {
    var init := os[..|os| - 1];
    forall i | 0 <= i < |init|
      ensures init[i].msg.n == Count(since, init[i].msg.publisher) + OffersFrom(init[..i], init[i].msg.publisher)
    {
      assert init[..i] == os[..i];
    }
  }

  lemma {:induction false} LastFrom(since: map<nat, nat>, os: seq<Offer>, p: nat)
    requires Gapless(since, os)
    ensures forall m :: m in Msgs(os) && m.publisher == p ==> m.n < Count(since, p) + OffersFrom(os, p)
    ensures OffersFrom(os, p) > 0 ==> Message(p, Count(since, p) + OffersFrom(os, p) - 1) in Msgs(os)
    decreases os
  {
    hide Gapless, Count, Msgs;
    if os == [] {
      assert Msgs(os) == [] by { NoMsgs(os); }
    } else {
      GaplessInit(since, os);
      LastFrom(since, os[..|os| - 1], p);
    }
  }

  lemma NoMsgs(os: seq<Offer>)
    requires os == []
    ensures Msgs(os) == []
  {
  }

  /** A channel has been offered p's present event exactly when p no longer owes it. */
  lemma OwedIsMissing(s: State, p: nat, c: nat)
    requires KnownInv(s) && p in s.active && c in s.subscribers
    ensures c in s.channels
    ensures Current(s, p) in Msgs(s.channels[c].offers) <==> !Owes(s, p, c)
  {
    hide Drops, Gapless;
    OpenWhileSubscribed(s, c);
    assert UpToDate(s, c);
    var ch := s.channels[c];
    LastFrom(ch.since, ch.offers, p);
  }

  // ------------------------------------------- events in the order they began

  /** Every publication of the run began with nothing left to offer. */
  ghost predicate Orderly(es: seq<Event>) {
    forall i :: 0 <= i < |es| && Begins(Run(es[..i]), es[i]) ==> Quiet(Run(es[..i]))
  }

  ghost predicate Owed(s: State, c: nat) {
    exists p :: Owes(s, p, c)
  }

  ghost predicate BegunInv(s: State) {
    && Inv(s)
    && OnePublisher(s)
    && (forall p, c :: Owes(s, p, c) ==> s.begun != [] && s.begun[|s.begun| - 1] == Current(s, p))
    && forall c :: c in s.channels ==>
         Tracks(s.channels[c], s.begun, s.channels[c].fromBegun, Owed(s, c), c in s.subscribers)
  }

  lemma CalmKeepsBegun(s: State, t: State)
    requires BegunInv(s) && Calm(s, t)
    ensures BegunInv(t)
  {
    hide Inv;
    forall c | c in t.channels
      ensures Tracks(t.channels[c], t.begun, t.channels[c].fromBegun, Owed(t, c), c in t.subscribers)
    {
      assert Owed(t, c) == Owed(s, c);
    }
  }

  lemma BeginKeepsBegun(s: State, p: nat)
    requires BegunInv(s) && p !in s.active && Quiet(s)
    ensures BegunInv(Next(s, Begin(p)))
  {
    hide Inv, Tracks, Next;
    BeginOwes(s, p);
    var t := Next(s, Begin(p));
    forall q, c | Owes(t, q, c) ensures q == p && c in s.subscribers {
    }
    forall c | c in t.channels
      ensures Tracks(t.channels[c], t.begun, t.channels[c].fromBegun, Owed(t, c), c in t.subscribers)
    {
      assert c in s.subscribers ==> Owes(t, p, c);
      TracksMore(s.channels[c], s.begun, s.channels[c].fromBegun, Current(t, p), c in s.subscribers);
      NotSubscribed(t.channels[c], t.begun, t.channels[c].fromBegun, Owed(t, c));
    }
  }

  lemma NotSubscribed(ch: Channel, order: seq<Message>, from: nat, lags: bool)
    ensures Tracks(ch, order, from, true, false) ==> Tracks(ch, order, from, lags, false)
  {
  }

  lemma SendKeepsBegun(s: State, p: nat, c: nat)
    requires BegunInv(s) && Owes(s, p, c)
    ensures BegunInv(Next(s, Send(p, c)))
  {
    hide Inv, Tracks, Next, Offered;
    SendAppends(s, p, c);
    var t := Next(s, Send(p, c));
    forall q, d ensures Owes(t, q, d) <==> Owes(s, q, d) && !(q == p && d == c) {
    }
    TracksOffer(s.channels[c], s.begun, s.channels[c].fromBegun, Current(s, p));
    KeepsPlace(s.channels[c], Current(s, p));
    forall d | d in t.channels
      ensures Tracks(t.channels[d], t.begun, t.channels[d].fromBegun, Owed(t, d), d in t.subscribers)
    {
      if d != c {
        assert Owed(t, d) == Owed(s, d);
      }
    }
  }

  lemma KeepsPlace(ch: Channel, m: Message)
    ensures var d := Offered(ch, m);
            d.since == ch.since && d.fromBegun == ch.fromBegun && d.fromOffered == ch.fromOffered
  {
  }

  lemma {:induction false} OrderlyKeepsBegun(es: seq<Event>)
    requires Orderly(es)
    ensures BegunInv(Run(es))
    decreases es
  {
    if es == [] {
      RunKeeps([]);
    } else {
      var init, e := es[..|es| - 1], es[|es| - 1];
      OrderlyPrefix(es, |es| - 1);
      OrderlyKeepsBegun(init);
      BegunStep(Run(init), e);
    }
  }

  lemma BegunStep(s: State, e: Event)
    requires BegunInv(s) && (Begins(s, e) ==> Quiet(s))
    ensures BegunInv(Next(s, e))
  {
    if e.Begin? {
      if e.p !in s.active {
        BeginKeepsBegun(s, e.p);
      }
    } else if e.Send? {
      if Owes(s, e.p, e.c) {
        SendKeepsBegun(s, e.p, e.c);
      }
    } else {
      OtherStepsAreCalm(s, e);
      CalmKeepsBegun(s, Next(s, e));
    }
  }

  ghost predicate InOrder(s: State, c: nat) {
    c in s.channels ==>
      && s.channels[c].fromBegun <= |s.begun|
      && Msgs(s.channels[c].offers) <= s.begun[s.channels[c].fromBegun..]
  }

  lemma {:induction false} AcceptedIsSubsequence(os: seq<Offer>)
    ensures Subsequence(Accepted(os), Msgs(os))
    decreases os
  {
    if os != [] {
      var init, last := os[..|os| - 1], os[|os| - 1];
      AcceptedIsSubsequence(init);
      SubsequenceGrows(Accepted(init), Msgs(init), if last.full then [] else [last.msg], [last.msg]);
      assert Msgs(os) == Msgs(init) + [last.msg];
    }
  }

  /** What a channel delivers is a subsequence of any list its offers are a prefix of. */
  lemma DeliveredIsSubsequence(ch: Channel, order: seq<Message>)
    requires ChannelInv(ch) && Msgs(ch.offers) <= order
    ensures Subsequence(ch.received + ch.buffer, order)
  {
    hide Subsequence, Accepted, Msgs;
    var offered := Msgs(ch.offers);
    AcceptedIsSubsequence(ch.offers);
    SubsequenceGrows(Accepted(ch.offers), offered, [], order[|offered|..]);
    assert offered + order[|offered|..] == order && Accepted(ch.offers) + [] == Accepted(ch.offers);
  }

  /** If every publication of a run begins with no channel left to offer, each
      channel is offered exactly the events published since its subscription, in
      the order their publications began, and gets a subsequence of them. */
  lemma InBeginOrder(es: seq<Event>, c: nat)
    requires Orderly(es) && c in Run(es).channels
    ensures var s := Run(es);
            var ch := s.channels[c];
            && Tracks(ch, s.begun, ch.fromBegun, Owed(s, c), c in s.subscribers)
            && Subsequence(ch.received + ch.buffer, s.begun[ch.fromBegun..])
  {
    hide Run, Gapless, Drops;
    OrderlyKeepsBegun(es);
    var s := Run(es);
    var ch := s.channels[c];
    DeliveredIsSubsequence(ch, s.begun[ch.fromBegun..]);
  }

  /** Whenever a publication begins while a channel is still owed an event, the new
      event can overtake that one there, even if it is the only subscriber. */
  lemma Overtakes(es: seq<Event>, p: nat, q: nat, c: nat)
    requires Owes(Run(es), p, c) && q !in Run(es).active
    ensures !InOrder(Run(es + [Begin(q)] + [Send(q, c)]), c)
  {
    hide Run, Next, Inv, KnownInv;
    RunKnows(es);
    RunSnoc(es, Begin(q));
    RunSnoc(es + [Begin(q)], Send(q, c));
    OvertakingState(Run(es), p, q, c);
  }

  lemma OvertakingState(s: State, p: nat, q: nat, c: nat)
    requires KnownInv(s) && Owes(s, p, c) && q !in s.active
    ensures !InOrder(Next(Next(s, Begin(q)), Send(q, c)), c)
  {
    hide Next, Inv, Offered;
    OwedIsOpen(s, p, c);
    OwedIsMissing(s, p, c);
    BeginOwes(s, q);
    var u := Next(s, Begin(q));
    SendAppends(u, q, c);
    var ch, n := s.channels[c], Current(u, q);
    KeepsPlace(ch, n);
    assert Current(s, p) in s.begun[ch.fromBegun..];
    NotAPrefix(Msgs(ch.offers), s.begun[ch.fromBegun..], Current(s, p), n);
    assert u.begun[ch.fromBegun..] == s.begun[ch.fromBegun..] + [n];
  }

  lemma NotAPrefix(xs: seq<Message>, ys: seq<Message>, m: Message, n: Message)
    requires m in ys && m !in xs && n !in ys
    ensures !(xs + [n] <= ys + [n])
  {
    if |xs| < |ys| {
      assert (xs + [n])[|xs|] == n != ys[|xs|] == (ys + [n])[|xs|];
    } else if |xs| == |ys| {
      var i :| 0 <= i < |ys| && ys[i] == m;
      assert (xs + [n])[i] == xs[i] != m == (ys + [n])[i];
    }
  }

  /** The condition is exact, on every run: each publication began with nothing
      left to offer if and only if no beginning publication could have overtaken
      another in any channel. */
  lemma BeginOrderIff(es: seq<Event>)
    ensures Orderly(es) <==>
            forall i, c :: 0 <= i < |es| && Begins(Run(es[..i]), es[i]) ==>
              InOrder(Run(es[..i] + [es[i]] + [Send(es[i].p, c)]), c)
  {
    hide Run, Next, InOrder, Quiet;
    forall i | 0 <= i < |es| && Begins(Run(es[..i]), es[i])
      ensures Orderly(es) ==> forall c :: InOrder(Run(es[..i] + [es[i]] + [Send(es[i].p, c)]), c)
      ensures !Quiet(Run(es[..i])) ==> exists c :: !InOrder(Run(es[..i] + [es[i]] + [Send(es[i].p, c)]), c)
    {
      if Orderly(es) {
        forall c ensures InOrder(Run(es[..i] + [es[i]] + [Send(es[i].p, c)]), c) {
          OrderlyBegin(es, i, c);
        }
      }
      if !Quiet(Run(es[..i])) {
        var p, c := SomeOwed(Run(es[..i]));
        Overtakes(es[..i], p, es[i].p, c);
        assert es[i] == Begin(es[i].p);
      }
    }
  }

  lemma SomeOwed(s: State) returns (p: nat, c: nat)
    requires !Quiet(s)
    ensures Owes(s, p, c)
  {
    p :| p in s.active && s.active[p] != {};
    c :| c in s.active[p];
  }

  lemma OrderlyBegin(es: seq<Event>, i: nat, c: nat)
    requires Orderly(es) && i < |es| && Begins(Run(es[..i]), es[i])
    ensures InOrder(Run(es[..i] + [es[i]] + [Send(es[i].p, c)]), c)
  {
    hide Run, Next, Inv, Quiet, OnePublisher;
    OrderlyPrefix(es, i);
    OrderlyKeepsBegun(es[..i]);
    BegunStep(Run(es[..i]), es[i]);
    BegunStep(Next(Run(es[..i]), es[i]), Send(es[i].p, c));
    RunSnoc(es[..i], es[i]);
    RunSnoc(es[..i] + [es[i]], Send(es[i].p, c));
  }

  lemma OrderlyPrefix(es: seq<Event>, i: nat)
    requires Orderly(es) && i <= |es|
    ensures Orderly(es[..i])
  {
    forall j | 0 <= j < i && Begins(Run(es[..i][..j]), es[j]) ensures Quiet(Run(es[..i][..j])) {
      assert es[..i][..j] == es[..j];
    }
  }

  // -------------------------------------------------- one order for all channels

  /** Each publication of the run began with nothing left to offer or at most one
      subscriber. */
  ghost predicate Peaceful(es: seq<Event>) {
    forall i :: 0 <= i < |es| && Begins(Run(es[..i]), es[i]) ==> Safe(Run(es[..i]))
  }

  ghost predicate Safe(s: State) {
    Quiet(s) || AtMostOne(s.subscribers)
  }

  predicate Started(s: State, p: nat) {
    Current(s, p) in s.offered
  }

  ghost predicate Lags(s: State, c: nat) {
    exists p :: Owes(s, p, c) && Started(s, p)
  }

  ghost predicate Distinct(xs: seq<Message>) {
    forall i, j :: 0 <= i < j < |xs| ==> xs[i] != xs[j]
  }

  ghost predicate OrderInv(s: State) {
    && Distinct(s.offered)
    && (forall m :: m in s.offered ==> m.n < Count(s.counts, m.publisher))
    && (AtMostOne(s.subscribers) || OnePublisher(s))
    && (forall p :: p in s.active && !Started(s, p) ==> s.active[p] == s.subscribers)
    && (forall p, c :: Owes(s, p, c) && Started(s, p) ==>
          !AtMostOne(s.subscribers) && s.offered[|s.offered| - 1] == Current(s, p))
  }

  ghost predicate OfferedInv(s: State) {
    && Inv(s)
    && OrderInv(s)
    && (forall p, c :: p in s.active && Started(s, p) && c in s.subscribers ==>
          c in s.channels && s.channels[c].fromOffered < |s.offered|)
    && forall c :: c in s.channels ==>
         Tracks(s.channels[c], s.offered, s.channels[c].fromOffered, Lags(s, c), c in s.subscribers)
  }

  lemma CalmKeepsOffered(s: State, t: State)
    requires OfferedInv(s) && Calm(s, t)
    ensures OfferedInv(t)
  {
    hide Inv, OrderInv;
    assert forall p :: Current(t, p) == Current(s, p);
    InvSubscribers(t);
    CalmKeepsOrder(s, t);
    forall c | c in t.channels
      ensures Tracks(t.channels[c], t.offered, t.channels[c].fromOffered, Lags(t, c), c in t.subscribers)
    {
      assert Lags(t, c) == Lags(s, c);
    }
  }

  lemma CalmKeepsOrder(s: State, t: State)
    requires OrderInv(s) && Calm(s, t)
    ensures OrderInv(t)
  {
    hide Inv;
    assert forall p :: Current(t, p) == Current(s, p);
  }

  lemma BeginKeepsOffered(s: State, p: nat)
    requires OfferedInv(s) && p !in s.active && Safe(s)
    ensures OfferedInv(Next(s, Begin(p)))
  {
    hide Inv, Tracks, Next, OrderInv;
    BeginOwes(s, p);
    var t := Next(s, Begin(p));
    BeginKeepsOrder(s, t, p);
    forall c | c in t.channels
      ensures Tracks(t.channels[c], t.offered, t.channels[c].fromOffered, Lags(t, c), c in t.subscribers)
    {
      assert Lags(t, c) == Lags(s, c);
    }
  }

  lemma BeginKeepsOrder(s: State, t: State, p: nat)
    requires OrderInv(s) && p !in s.active && Safe(s)
    requires t.subscribers == s.subscribers && t.offered == s.offered && t.active == s.active[p := s.subscribers]
    requires Current(t, p) == Message(p, Count(s.counts, p)) && Count(t.counts, p) == Count(s.counts, p) + 1
    requires forall q :: q != p ==> Count(t.counts, q) == Count(s.counts, q) && Current(t, q) == Current(s, q)
    ensures OrderInv(t) && !Started(t, p) && forall q :: q != p ==> Started(t, q) == Started(s, q)
  {
    hide Current;
    assert !Started(t, p);
    assert forall q, c :: Owes(t, q, c) <==> (if q == p then c in s.subscribers else Owes(s, q, c));
    if !AtMostOne(t.subscribers) {
      assert forall q, c :: Owes(t, q, c) ==> q == p;
    }
  }

  /** In the orderly state s, publisher p offers its event to c. */
  ghost predicate SentTo(s: State, p: nat, c: nat, t: State) {
    && p in s.active && t.subscribers == s.subscribers && t.counts == s.counts
    && t.active == s.active[p := s.active[p] - {c}]
    && t.offered == if Started(s, p) then s.offered else s.offered + [Current(s, p)]
  }

  lemma FirstOfferKeepsOrder(s: State, p: nat, c: nat, t: State)
    requires OrderInv(s) && Owes(s, p, c) && !Started(s, p) && SentTo(s, p, c, t)
    requires c in s.subscribers && Count(s.counts, p) > 0
    ensures OrderInv(t) && (forall q :: Started(t, q) <==> Started(s, q) || q == p)
    ensures forall d :: !Lags(s, d) && (Lags(t, d) <==> d in s.subscribers && d != c)
  {
    var m := Current(s, p);
    assert forall q :: Current(t, q) == Current(s, q);
    assert forall q :: Started(t, q) <==> Started(s, q) || q == p;
    assert forall q, d :: Owes(s, q, d) ==> !Started(s, q);
    assert forall q, d :: Owes(t, q, d) <==> Owes(s, q, d) && !(q == p && d == c);
    forall d ensures Lags(t, d) <==> d in s.subscribers && d != c {
      if d in s.subscribers && d != c {
        assert Owes(t, p, d) && Started(t, p);
      }
    }
  }

  lemma LaterOfferKeepsOrder(s: State, p: nat, c: nat, t: State)
    requires OrderInv(s) && Owes(s, p, c) && Started(s, p) && SentTo(s, p, c, t)
    ensures OrderInv(t) && (forall q :: Started(t, q) == Started(s, q))
    ensures Lags(s, c) && forall d :: Lags(t, d) <==> Lags(s, d) && d != c
  {
    assert forall q :: Current(t, q) == Current(s, q) && Started(t, q) == Started(s, q);
    assert forall q, d :: Owes(t, q, d) <==> Owes(s, q, d) && !(q == p && d == c);
    forall d ensures Lags(t, d) <==> Lags(s, d) && d != c {
      if Lags(s, d) && d != c {
        var q :| Owes(s, q, d) && Started(s, q);
        assert Owes(t, q, d) && Started(t, q);
      }
    }
  }

  lemma FirstOfferKeeps(s: State, p: nat, c: nat)
    requires OfferedInv(s) && Owes(s, p, c) && !Started(s, p)
    ensures OfferedInv(Next(s, Send(p, c)))
  {
    hide Inv, Tracks, Next, Offered, OrderInv;
    SendAppends(s, p, c);
    var t, m := Next(s, Send(p, c)), Current(s, p);
    KeepsPlace(s.channels[c], m);
    Publishing(s, p);
    FirstOfferKeepsOrder(s, p, c, t);
    forall d | d in s.channels
      ensures Tracks(s.channels[d], t.offered, s.channels[d].fromOffered, true, d in s.subscribers)
      ensures s.channels[d].fromOffered < |t.offered|
    {
      TracksMore(s.channels[d], s.offered, s.channels[d].fromOffered, m, d in s.subscribers);
      TracksFrom(s.channels[d], s.offered, s.channels[d].fromOffered, d in s.subscribers);
    }
    TracksOffer(s.channels[c], t.offered, s.channels[c].fromOffered, m);
    forall d | d in t.channels && d != c
      ensures Tracks(t.channels[d], t.offered, t.channels[d].fromOffered, Lags(t, d), d in t.subscribers)
    {
      NotSubscribed(s.channels[d], t.offered, s.channels[d].fromOffered, Lags(t, d));
    }
  }

  lemma LaterOfferKeeps(s: State, p: nat, c: nat)
    requires OfferedInv(s) && Owes(s, p, c) && Started(s, p)
    ensures OfferedInv(Next(s, Send(p, c)))
  {
    hide Inv, Tracks, Next, Offered, OrderInv, Lags, Started;
    SendAppends(s, p, c);
    var t, m := Next(s, Send(p, c)), Current(s, p);
    KeepsPlace(s.channels[c], m);
    Publishing(s, p);
    InOffered(s, p);
    LaterOfferKeepsOrder(s, p, c, t);
    LastIsCurrent(s, p, c);
    TracksOffer(s.channels[c], s.offered, s.channels[c].fromOffered, m);
  }

  lemma InOffered(s: State, p: nat)
    ensures Started(s, p) <==> Current(s, p) in s.offered
  {
  }

  lemma Publishing(s: State, p: nat)
    requires Inv(s) && p in s.active
    ensures Count(s.counts, p) > 0 && s.subscribers <= s.channels.Keys
  {
  }

  lemma LastIsCurrent(s: State, p: nat, c: nat)
    requires OrderInv(s) && Owes(s, p, c) && Started(s, p)
    ensures s.offered != [] && s.offered[|s.offered| - 1] == Current(s, p)
  {
  }

  lemma TracksFrom(ch: Channel, order: seq<Message>, from: nat, subscribed: bool)
    requires Tracks(ch, order, from, false, subscribed)
    ensures from <= |order|
  {
  }

  lemma OfferedStep(s: State, e: Event)
    requires OfferedInv(s) && (Begins(s, e) ==> Safe(s))
    ensures OfferedInv(Next(s, e))
  {
    if e.Begin? {
      if e.p !in s.active {
        BeginKeepsOffered(s, e.p);
      }
    } else if e.Send? {
      if Owes(s, e.p, e.c) {
        if Started(s, e.p) {
          LaterOfferKeeps(s, e.p, e.c);
        } else {
          FirstOfferKeeps(s, e.p, e.c);
        }
      }
    } else {
      OtherStepsAreCalm(s, e);
      CalmKeepsOffered(s, Next(s, e));
    }
  }

  lemma PeacefulPrefix(es: seq<Event>, i: nat)
    requires Peaceful(es) && i <= |es|
    ensures Peaceful(es[..i])
  {
    forall j | 0 <= j < i && Begins(Run(es[..i][..j]), es[j]) ensures Safe(Run(es[..i][..j])) {
      assert es[..i][..j] == es[..j];
    }
  }

  lemma {:induction false} PeacefulKeepsOffered(es: seq<Event>)
    requires Peaceful(es)
    ensures OfferedInv(Run(es))
    decreases es
  {
    if es == [] {
      RunKeeps([]);
    } else {
      var init, e := es[..|es| - 1], es[|es| - 1];
      PeacefulPrefix(es, |es| - 1);
      PeacefulKeepsOffered(init);
      OfferedStep(Run(init), e);
    }
  }

  ghost predicate Before(xs: seq<Message>, m: Message, n: Message) {
    exists i, j :: 0 <= i < j < |xs| && xs[i] == m && xs[j] == n
  }

  /** Two channels were offered two events in opposite orders. */
  ghost predicate Opposite(a: Channel, b: Channel) {
    exists m, n :: Before(Msgs(a.offers), m, n) && Before(Msgs(b.offers), n, m)
  }

  lemma OneOrder(a: Channel, b: Channel, order: seq<Message>, from: nat, other: nat)
    requires Distinct(order) && from <= |order| && other <= |order|
    requires Msgs(a.offers) <= order[from..] && Msgs(b.offers) <= order[other..]
    ensures !Opposite(a, b)
  {
    forall m, n | Before(Msgs(a.offers), m, n) ensures !Before(Msgs(b.offers), n, m) {
      var i, j :| 0 <= i < j < |a.offers| && Msgs(a.offers)[i] == m && Msgs(a.offers)[j] == n;
      assert order[from + i] == m && order[from + j] == n;
      forall x, y | 0 <= x < y < |b.offers| ensures !(Msgs(b.offers)[x] == n && Msgs(b.offers)[y] == m) {
        assert Msgs(b.offers)[x] == order[other + x] && Msgs(b.offers)[y] == order[other + y];
      }
    }
  }

  /** If every publication of a run begins with no channel left to offer or at most
      one subscriber, there is one order of all events, without repetition, and
      every channel is offered a run of it that starts at its subscription: no two
      channels are offered two events in opposite orders. */
  lemma CommonOrder(es: seq<Event>, c: nat, d: nat)
    requires Peaceful(es) && c in Run(es).channels && d in Run(es).channels
    ensures var s := Run(es);
            var ch := s.channels[c];
            && Distinct(s.offered)
            && Tracks(ch, s.offered, ch.fromOffered, Lags(s, c), c in s.subscribers)
            && Subsequence(ch.received + ch.buffer, s.offered[ch.fromOffered..])
            && !Opposite(ch, s.channels[d])
  {
    hide Run, Gapless, Drops;
    PeacefulKeepsOffered(es);
    var s := Run(es);
    var ch := s.channels[c];
    DeliveredIsSubsequence(ch, s.offered[ch.fromOffered..]);
    OneOrder(ch, s.channels[d], s.offered, ch.fromOffered, s.channels[d].fromOffered);
  }

  /** Publisher q begins; d is offered p's event and then q's, c the other way. */
  function Overtake(es: seq<Event>, p: nat, q: nat, c: nat, d: nat): seq<Event> {
    es + [Begin(q)] + [Send(p, d)] + [Send(q, d)] + [Send(q, c)] + [Send(p, c)]
  }

  ghost predicate Disagree(s: State, c: nat, d: nat) {
    c in s.channels && d in s.channels && Opposite(s.channels[c], s.channels[d])
  }

  lemma OvertakeKeepsPeace(es: seq<Event>, p: nat, q: nat, c: nat, d: nat)
    requires Peaceful(es) && Safe(Run(es))
    ensures OfferedInv(Run(Overtake(es, p, q, c, d)))
  {
    hide Run, Next, OfferedInv;
    PeacefulKeepsOffered(es);
    RunOvertake(es, p, q, c, d);
    var s1 := Next(Run(es), Begin(q));
    var s2 := Next(s1, Send(p, d));
    var s3 := Next(s2, Send(q, d));
    OfferedStep(Run(es), Begin(q));
    OfferedStep(s1, Send(p, d));
    OfferedStep(s2, Send(q, d));
    OfferedStep(s3, Send(q, c));
    OfferedStep(Next(s3, Send(q, c)), Send(p, c));
  }

  lemma RunOvertake(es: seq<Event>, p: nat, q: nat, c: nat, d: nat)
    ensures Run(Overtake(es, p, q, c, d)) ==
            Next(Next(Next(Next(Next(Run(es), Begin(q)), Send(p, d)), Send(q, d)), Send(q, c)), Send(p, c))
  {
    hide Run, Next;
    RunSnoc(es, Begin(q));
    RunSnoc(es + [Begin(q)], Send(p, d));
    RunSnoc(es + [Begin(q)] + [Send(p, d)], Send(q, d));
    RunSnoc(es + [Begin(q)] + [Send(p, d)] + [Send(q, d)], Send(q, c));
    RunSnoc(es + [Begin(q)] + [Send(p, d)] + [Send(q, d)] + [Send(q, c)], Send(p, c));
  }

  lemma ThenNew(xs: seq<Message>, m: Message, n: Message)
    requires m in xs
    ensures Before(xs + [n], m, n)
  {
    var i :| 0 <= i < |xs| && xs[i] == m;
    assert (xs + [n])[i] == m && (xs + [n])[|xs|] == n;
  }

  lemma ThreeSends(s: State, p: nat, q: nat, c: nat, d: nat)
    requires Inv(s) && p != q && c != d && d in s.channels
    requires Owes(s, q, d) && Owes(s, q, c) && Owes(s, p, c)
    requires Current(s, p) in Msgs(s.channels[d].offers)
    ensures Disagree(Next(Next(Next(s, Send(q, d)), Send(q, c)), Send(p, c)), c, d)
  {
    hide Inv, Next, Offered, Before;
    var m, n := Current(s, p), Current(s, q);
    SendAppends(s, q, d);
    ThenNew(Msgs(s.channels[d].offers), m, n);
    var t := Next(s, Send(q, d));
    SendAppends(t, q, c);
    assert n in Msgs(t.channels[c].offers) + [n];
    var u := Next(t, Send(q, c));
    SendAppends(u, p, c);
    ThenNew(Msgs(u.channels[c].offers), n, m);
  }

  /** Whenever a publication begins while p still owes channel c and another channel
      d is subscribed, the two can be offered the two events in opposite orders. */
  lemma OrdersSplit(es: seq<Event>, p: nat, q: nat, c: nat, d: nat)
    requires Owes(Run(es), p, c) && q !in Run(es).active && d in Run(es).subscribers && c != d
    ensures Disagree(Run(Overtake(es, p, q, c, d)), c, d)
  {
    hide Run, Next, KnownInv, Offered, Disagree;
    var s := Run(es);
    RunKnows(es);
    RunOvertake(es, p, q, c, d);
    OwedIsOpen(s, p, c) by { KnownMeansInv(s); }
    OwedIsMissing(s, p, d);
    BeginOwes(s, q) by { KnownMeansInv(s); }
    var t := Next(s, Begin(q));
    if Owes(s, p, d) {
      SendAppends(t, p, d);
    } else {
      SendOfNothing(t, p, d);
    }
    ThreeSends(Next(t, Send(p, d)), p, q, c, d);
  }

  lemma KnownMeansInv(s: State)
    requires KnownInv(s)
    ensures Inv(s)
  {
  }

  /** The condition is exact, on every run: each publication began with nothing
      left to offer or at most one subscriber, if and only if no beginning
      publication could have split the order between two channels. */
  lemma CommonOrderIff(es: seq<Event>)
    ensures Peaceful(es) <==>
            forall i, p, c, d :: 0 <= i < |es| && Begins(Run(es[..i]), es[i]) ==>
              !Disagree(Run(Overtake(es[..i], p, es[i].p, c, d)), c, d)
  {
    hide Run, Next, Disagree, Overtake, Safe;
    forall i | 0 <= i < |es| && Begins(Run(es[..i]), es[i])
      ensures Peaceful(es) ==> forall p, c, d :: !Disagree(Run(Overtake(es[..i], p, es[i].p, c, d)), c, d)
      ensures !Safe(Run(es[..i])) ==> exists p, c, d :: Disagree(Run(Overtake(es[..i], p, es[i].p, c, d)), c, d)
    {
      if Peaceful(es) {
        forall p, c, d ensures !Disagree(Run(Overtake(es[..i], p, es[i].p, c, d)), c, d) {
          PeacefulPrefix(es, i);
          OvertakeKeepsPeace(es[..i], p, es[i].p, c, d);
          OfferedAgree(Run(Overtake(es[..i], p, es[i].p, c, d)), c, d);
        }
      }
      if !Safe(Run(es[..i])) {
        var p, c, d := SomeSplit(Run(es[..i]));
        OrdersSplit(es[..i], p, es[i].p, c, d);
      }
    }
  }

  lemma SomeSplit(s: State) returns (p: nat, c: nat, d: nat)
    requires !Safe(s)
    ensures Owes(s, p, c) && d in s.subscribers && c != d
  {
    p, c := SomeOwed(s);
    var x, y :| x in s.subscribers && y in s.subscribers && x != y;
    d := if x == c then y else x;
  }

  lemma OfferedAgree(s: State, c: nat, d: nat)
    requires OfferedInv(s)
    ensures !Disagree(s, c, d)
  {
    hide Inv;
    if c in s.channels && d in s.channels {
      OneOrder(s.channels[c], s.channels[d], s.offered, s.channels[c].fromOffered, s.channels[d].fromOffered);
    }
  }

  // --------------------------------------------------------------- two witnesses

  const IDLE := Channel(map[], 0, 0, [], [], [], false, false)
  const SETUP := [Subscribe(1), Subscribe(2), Begin(7), Begin(8)]
  const INSIDE := State(map[1 := IDLE, 2 := IDLE], {1, 2}, map[7 := 1, 8 := 1], map[7 := {1, 2}, 8 := {1, 2}],
                        [Message(7, 0), Message(8, 0)], [], false)

  /** Two publishers can reach two subscribers in opposite orders. */
  lemma OrdersCanDiffer()
    ensures var s := Run(SETUP + [Send(7, 1)] + [Send(8, 1)] + [Send(8, 2)] + [Send(7, 2)]);
            && 1 in s.channels && s.channels[1].buffer == [Message(7, 0), Message(8, 0)]
            && 2 in s.channels && s.channels[2].buffer == [Message(8, 0), Message(7, 0)]
  {
    hide Next;
    TwoPublishersInside();
    RunSnoc(SETUP, Send(7, 1));
    RunSnoc(SETUP + [Send(7, 1)], Send(8, 1));
    RunSnoc(SETUP + [Send(7, 1)] + [Send(8, 1)], Send(8, 2));
    RunSnoc(SETUP + [Send(7, 1)] + [Send(8, 1)] + [Send(8, 2)], Send(7, 2));
    TwoSends(INSIDE, 7, 8, 1);
    TwoSends(Next(Next(INSIDE, Send(7, 1)), Send(8, 1)), 8, 7, 2);
  }

  /** Publishers p and q each have one event on offer to the idle channel c. */
  predicate BothOffer(s: State, p: nat, q: nat, c: nat) {
    && p != q && c in s.channels && s.channels[c] == IDLE
    && p in s.active && q in s.active && c in s.active[p] && c in s.active[q]
    && Count(s.counts, p) == 1 && Count(s.counts, q) == 1
  }

  lemma TwoSends(s: State, p: nat, q: nat, c: nat)
    requires BothOffer(s, p, q, c)
    ensures var t := Next(Next(s, Send(p, c)), Send(q, c));
            && c in t.channels && t.channels[c].buffer == [Message(p, 0), Message(q, 0)]
            && t.counts == s.counts
            && forall d :: d != c && d in s.channels ==>
                 && d in t.channels && t.channels[d] == s.channels[d]
                 && (BothOffer(s, q, p, d) ==> BothOffer(t, q, p, d))
  {
  }

  lemma TwoPublishersInside()
    ensures Run(SETUP) == INSIDE
  {
    hide Next;
    assert SETUP == [] + [Subscribe(1)] + [Subscribe(2)] + [Begin(7)] + [Begin(8)];
    RunSnoc([], Subscribe(1));
    RunSnoc([] + [Subscribe(1)], Subscribe(2));
    RunSnoc([] + [Subscribe(1)] + [Subscribe(2)], Begin(7));
    RunSnoc([] + [Subscribe(1)] + [Subscribe(2)] + [Begin(7)], Begin(8));
    SetupSteps();
  }

  lemma SetupSteps()
    ensures Next(Next(Next(Next(START, Subscribe(1)), Subscribe(2)), Begin(7)), Begin(8)) == INSIDE
  {
    assert Next(Next(START, Subscribe(1)), Subscribe(2)) ==
           State(map[1 := IDLE, 2 := IDLE], {1, 2}, map[], map[], [], [], false);
  }

  /** Even one subscriber alone can be offered events against their begin order. */
  lemma OneSubscriberIsOvertaken()
    ensures var s := Run([] + [Subscribe(1)] + [Begin(7)] + [Begin(8)] + [Send(8, 1)]);
            && 1 in s.channels && s.subscribers == {1}
            && Msgs(s.channels[1].offers) == [Message(8, 0)]
            && s.begun == [Message(7, 0), Message(8, 0)]
            && !InOrder(s, 1)
  {
    RunSnoc([], Subscribe(1));
    RunSnoc([] + [Subscribe(1)], Begin(7));
    RunSnoc([] + [Subscribe(1)] + [Begin(7)], Begin(8));
    RunSnoc([] + [Subscribe(1)] + [Begin(7)] + [Begin(8)], Send(8, 1));
    OneSubscriberSteps();
    assert Message(8, 0) != Message(7, 0) && [Message(8, 0)][0] == Message(8, 0);
  }

  lemma OneSubscriberSteps()
    ensures var s := Next(Next(Next(Next(START, Subscribe(1)), Begin(7)), Begin(8)), Send(8, 1));
            && 1 in s.channels && s.subscribers == {1} && s.channels[1].fromBegun == 0
            && Msgs(s.channels[1].offers) == [Message(8, 0)]
            && s.begun == [Message(7, 0), Message(8, 0)]
  {
    var a := Next(START, Subscribe(1));
    assert a == State(map[1 := IDLE], {1}, map[], map[], [], [], false);
    var b := Next(a, Begin(7));
    assert b == State(map[1 := IDLE], {1}, map[7 := 1], map[7 := {1}], [Message(7, 0)], [], false);
    var u := Next(b, Begin(8));
    assert u == State(map[1 := IDLE], {1}, map[7 := 1, 8 := 1], map[7 := {1}, 8 := {1}],
                      [Message(7, 0), Message(8, 0)], [], false);
  }
}
