/** The publisher of client/src/sync/SyncPublisher.cpp: which local changes reach the network, how they
    are coalesced per deck inside a throttle window, and when they leave.  Time is in milliseconds. */
module Publishing {
  import opened Playback
  import opened Messages

  const MIN_INTERVAL_MS: real := 1000.0 / 30.0

  datatype Source = Local | Remote

  /** One deck's outgoing side. */
  datatype Slot = Slot(pending: Option<Changes>, lastSendMs: real, hasSent: bool)
  {
    predicate Opened(now: real) { !hasSent || now - lastSendMs >= MIN_INTERVAL_MS }
  }

  datatype Publisher = Publisher(a: Slot, b: Slot, timer: bool, connected: bool, role: Role)
  {
    function At(d: DeckId): Slot { if d == A then a else b }
    function With(d: DeckId, s: Slot): Publisher { if d == A then this.(a := s) else this.(b := s) }
  }

  const NEW_PUBLISHER := Publisher(Slot(None, 0.0, false), Slot(None, 0.0, false), false, false, Observer)

  datatype Sent = Sent(delta: Delta, at: real)

  /** `SendPending(p, d, now)` presumes a pending delta for d. */
  function SendPending(p: Publisher, d: DeckId, now: real): (Publisher, seq<Sent>)
    requires p.At(d).pending.Some?
  {
    (p.With(d, Slot(None, now, true)), [Sent(Delta(d, p.At(d).pending.value), now)])
  }

  function MaybeSend(p: Publisher, d: DeckId, now: real): (Publisher, seq<Sent>)
    requires p.At(d).pending.Some?
  {
    if p.At(d).Opened(now) then SendPending(p, d, now) else (p.(timer := true), [])
  }

  function Coalesced(pending: Option<Changes>, c: Changes): Changes {
    if pending.Some? then Overlay(pending.value, c) else c
  }

  function HandleLocalDelta(p: Publisher, delta: Delta, now: real): (Publisher, seq<Sent>) {
    var s := p.At(delta.deck);
    MaybeSend(p.With(delta.deck, s.(pending := Some(Coalesced(s.pending, delta.changes)))), delta.deck, now)
  }

  predicate Forwards(p: Publisher, source: Source) {
    source == Local && p.connected && p.role == Controller
  }

  /** The state listener: the gate that keeps remote changes from echoing. */
  function OnApplied(p: Publisher, delta: Delta, source: Source, now: real): (Publisher, seq<Sent>) {
    if Forwards(p, source) then HandleLocalDelta(p, delta, now) else (p, [])
  }

  function TickDeck(p: Publisher, d: DeckId, now: real, force: bool): (Publisher, seq<Sent>) {
    if p.At(d).pending.Some? && (force || p.At(d).Opened(now)) then SendPending(p, d, now) else (p, [])
  }

  /** Sends what its window lets through (or everything, if forced); the timer outlives the tick
      exactly while something is still waiting. */
  function Drain(p: Publisher, now: real, force: bool): (Publisher, seq<Sent>) {
    var (p1, s1) := TickDeck(p, A, now, force);
    var (p2, s2) := TickDeck(p1, B, now, force);
    (if p2.a.pending.None? && p2.b.pending.None? then p2.(timer := false) else p2, s1 + s2)
  }

  // ---------------------------------------------------------------- runs

  /** What can happen to a publisher. A tick comes only while the timer runs. */
  datatype Event =
    | Applied(delta: Delta, source: Source, now: real)
    | Tick(now: real)
    | Flush(now: real)
    | RoleSet(role: Role)
    | ConnectedSet(connected: bool)

  function Step(p: Publisher, e: Event): (Publisher, seq<Sent>) {
    match e
    case Applied(delta, source, now) => OnApplied(p, delta, source, now)
    case Tick(now) => if p.timer then Drain(p, now, false) else (p, [])
    case Flush(now) => Drain(p, now, true)
    case RoleSet(role) => (p.(role := role), [])
    case ConnectedSet(connected) => (p.(connected := connected), [])
  }

  function Run(p: Publisher, es: seq<Event>): (Publisher, seq<Sent>)
    decreases |es|
  {
    if es == [] then (p, [])
    else
      var (p1, s1) := Step(p, es[0]);
      var (p2, s2) := Run(p1, es[1..]);
      (p2, s1 + s2)
  }

  /** What one event forwards, for deck d. */
  function HandledNow(p: Publisher, e: Event, d: DeckId): seq<Changes> {
    if e.Applied? && Forwards(p, e.source) && e.delta.deck == d then [e.delta.changes] else []
  }

  /** The changes to deck d that the listener forwarded, uncoalesced. */
  function Handled(p: Publisher, es: seq<Event>, d: DeckId): seq<Changes>
    decreases |es|
  {
    if es == [] then []
    else
      HandledNow(p, es[0], d) + Handled(Step(p, es[0]).0, es[1..], d)
  }

  function SentOf(s: seq<Sent>, d: DeckId): seq<Changes> {
    if s == [] then []
    else (if s[0].delta.deck == d then [s[0].delta.changes] else []) + SentOf(s[1..], d)
  }

  function TimesOf(s: seq<Sent>, d: DeckId): seq<real> {
    if s == [] then []
    else (if s[0].delta.deck == d then [s[0].at] else []) + TimesOf(s[1..], d)
  }

  function WithPending(s: Deck, pending: Option<Changes>): Deck {
    if pending.Some? then Merge(s, pending.value) else s
  }

  ghost predicate TimerOk(p: Publisher) {
    p.a.pending.Some? || p.b.pending.Some? ==> p.timer
  }

  lemma {:induction false} SentOfConcat(s: seq<Sent>, t: seq<Sent>, d: DeckId)
    ensures SentOf(s + t, d) == SentOf(s, d) + SentOf(t, d)
  {
    if s == [] {
      assert s + t == t;
    } else {
      assert (s + t)[0] == s[0] && (s + t)[1..] == s[1..] + t;
      SentOfConcat(s[1..], t, d);
      var head := if s[0].delta.deck == d then [s[0].delta.changes] else [];
      assert head + (SentOf(s[1..], d) + SentOf(t, d)) == (head + SentOf(s[1..], d)) + SentOf(t, d);
    }
  }

  lemma {:induction false} TimesOfConcat(s: seq<Sent>, t: seq<Sent>, d: DeckId)
    ensures TimesOf(s + t, d) == TimesOf(s, d) + TimesOf(t, d)
  {
    if s == [] {
      assert s + t == t;
    } else {
      assert (s + t)[0] == s[0] && (s + t)[1..] == s[1..] + t;
      TimesOfConcat(s[1..], t, d);
      var head := if s[0].delta.deck == d then [s[0].at] else [];
      assert head + (TimesOf(s[1..], d) + TimesOf(t, d)) == (head + TimesOf(s[1..], d)) + TimesOf(t, d);
    }
  }

  /** Sending a deck's pending changes moves them from "pending" to "sent" and nothing else. */
  lemma TickDeckMeaning(p: Publisher, x: DeckId, now: real, force: bool, d: DeckId, s: Deck)
    ensures var (p', out) := TickDeck(p, x, now, force);
      WithPending(MergeAll(s, SentOf(out, d)), p'.At(d).pending) == WithPending(s, p.At(d).pending)
  {
    if x == d && p.At(x).pending.Some? { MergeAllOne(s, p.At(x).pending.value); }
  }

  lemma DrainTimer(p: Publisher, now: real, force: bool)
    requires TimerOk(p)
    ensures TimerOk(Drain(p, now, force).0)
  {}

  /** Two rounds of sending, one after the other. */
  lemma TwoRounds(s: Deck, s1: seq<Sent>, s2: seq<Sent>, d: DeckId)
    ensures MergeAll(s, SentOf(s1 + s2, d)) == MergeAll(MergeAll(s, SentOf(s1, d)), SentOf(s2, d))
  {
    SentOfConcat(s1, s2, d);
    MergeAllConcat(s, SentOf(s1, d), SentOf(s2, d));
  }

  lemma DrainMeaning(p: Publisher, now: real, force: bool, d: DeckId, s: Deck)
    ensures var (p', out) := Drain(p, now, force);
      && WithPending(MergeAll(s, SentOf(out, d)), p'.At(d).pending) == WithPending(s, p.At(d).pending)
      && (TimerOk(p) ==> TimerOk(p'))
  {
    var (p1, s1) := TickDeck(p, A, now, force);
    var (p2, s2) := TickDeck(p1, B, now, force);
    TickDeckMeaning(p, A, now, force, d, s);
    TickDeckMeaning(p1, B, now, force, d, MergeAll(s, SentOf(s1, d)));
    TwoRounds(s, s1, s2, d);
    if TimerOk(p) { DrainTimer(p, now, force); }
  }

  lemma HandleMeaning(p: Publisher, delta: Delta, now: real, d: DeckId, s: Deck)
    ensures var (p', out) := HandleLocalDelta(p, delta, now);
      && WithPending(MergeAll(s, SentOf(out, d)), p'.At(d).pending)
         == (if delta.deck == d then Merge(WithPending(s, p.At(d).pending), delta.changes)
             else WithPending(s, p.At(d).pending))
      && (TimerOk(p) ==> TimerOk(p'))
  {
    var c := Coalesced(p.At(delta.deck).pending, delta.changes);
    MergeAllOne(s, c);
    if p.At(delta.deck).pending.Some? {
      OverlayMeaning(s, p.At(delta.deck).pending.value, delta.changes);
    }
  }

  /** One event: what it sends, followed by what it leaves pending, means what was pending followed by
      what it forwarded; and nothing waits without a timer to send it. */
  lemma StepMeaning(p: Publisher, e: Event, d: DeckId, s: Deck)
    ensures var (p', out) := Step(p, e);
      && WithPending(MergeAll(s, SentOf(out, d)), p'.At(d).pending)
         == MergeAll(WithPending(s, p.At(d).pending), HandledNow(p, e, d))
      && (TimerOk(p) ==> TimerOk(p'))
  {
    match e
    case Applied(delta, source, now) =>
      if Forwards(p, source) {
        HandleMeaning(p, delta, now, d, s);
        MergeAllOne(WithPending(s, p.At(d).pending), delta.changes);
      }
    case Tick(now) => DrainMeaning(p, now, false, d, s);
    case Flush(now) => DrainMeaning(p, now, true, d, s);
    case _ =>
  }

  /** Coalescing and throttling lose nothing: on every run, whatever deck state a peer starts from, the
      deltas sent so far followed by the one still pending have the meaning of every forwarded local
      change in order. A pending delta always has a running timer. */
  lemma {:induction false} RunMeaning(p: Publisher, es: seq<Event>, d: DeckId, s: Deck)
    ensures var (p', out) := Run(p, es);
      && WithPending(MergeAll(s, SentOf(out, d)), p'.At(d).pending)
         == MergeAll(WithPending(s, p.At(d).pending), Handled(p, es, d))
      && (TimerOk(p) ==> TimerOk(p'))
    decreases |es|
  {
    if es != [] {
      var (p1, s1) := Step(p, es[0]);
      var (p2, s2) := Run(p1, es[1..]);
      StepMeaning(p, es[0], d, s);
      RunMeaning(p1, es[1..], d, MergeAll(s, SentOf(s1, d)));
      SentOfConcat(s1, s2, d);
      MergeAllConcat(s, SentOf(s1, d), SentOf(s2, d));
      MergeAllConcat(WithPending(s, p.At(d).pending), HandledNow(p, es[0], d), Handled(p1, es[1..], d));
    }
  }

  /** Consecutive times at least one throttle window apart, after an optional earlier one. */
  ghost predicate Spaced(last: Option<real>, times: seq<real>)
    decreases |times|
  {
    times != [] ==>
      && (last.Some? ==> times[0] - last.value >= MIN_INTERVAL_MS)
      && Spaced(Some(times[0]), times[1..])
  }

  function LastSent(s: Slot): Option<real> { if s.hasSent then Some(s.lastSendMs) else None }

  /** At most one send for d, and only through an open window. */
  ghost predicate OneSpacedSend(before: Slot, after: Slot, times: seq<real>) {
    || (times == [] && LastSent(after) == LastSent(before))
    || (|times| == 1 && LastSent(after) == Some(times[0]) && Spaced(LastSent(before), times))
  }

  lemma TickDeckSpaced(p: Publisher, x: DeckId, now: real, d: DeckId)
    ensures var (p', out) := TickDeck(p, x, now, false);
      OneSpacedSend(p.At(d), p'.At(d), TimesOf(out, d)) && (x != d ==> TimesOf(out, d) == [] && p'.At(d) == p.At(d))
  {}

  lemma DrainSpaced(p: Publisher, now: real, d: DeckId)
    ensures var (p', out) := Drain(p, now, false); OneSpacedSend(p.At(d), p'.At(d), TimesOf(out, d))
  {
    var (p1, s1) := TickDeck(p, A, now, false);
    TickDeckSpaced(p, A, now, d);
    TickDeckSpaced(p1, B, now, d);
    TimesOfConcat(s1, TickDeck(p1, B, now, false).1, d);
  }

  lemma StepSpaced(p: Publisher, e: Event, d: DeckId)
    requires !e.Flush?
    ensures var (p', out) := Step(p, e); OneSpacedSend(p.At(d), p'.At(d), TimesOf(out, d))
  {
    if e.Tick? && p.timer { DrainSpaced(p, e.now, d); }
    if e.Applied? && Forwards(p, e.source) { HandleSpaced(p, e.delta, e.now, d); }
  }

  lemma HandleSpaced(p: Publisher, delta: Delta, now: real, d: DeckId)
    ensures var (p', out) := HandleLocalDelta(p, delta, now); OneSpacedSend(p.At(d), p'.At(d), TimesOf(out, d))
  {}

  /** The throttle: without a forced flush, two sends for one deck are never less than 1000/30 ms
      apart, however the clock behaves. */
  lemma {:induction false} RunSpaced(p: Publisher, es: seq<Event>, d: DeckId)
    requires forall i :: 0 <= i < |es| ==> !es[i].Flush?
    ensures Spaced(LastSent(p.At(d)), TimesOf(Run(p, es).1, d))
    decreases |es|
  {
    if es != [] {
      var (p1, s1) := Step(p, es[0]);
      StepSpaced(p, es[0], d);
      RunSpaced(p1, es[1..], d);
      var rest := TimesOf(Run(p1, es[1..]).1, d);
      TimesOfConcat(s1, Run(p1, es[1..]).1, d);
      assert (TimesOf(s1, d) + rest)[|TimesOf(s1, d)|..] == rest;
    }
  }

  ghost predicate PendingAcceptable(p: Publisher) {
    && (p.a.pending.Some? ==> Acceptable(p.a.pending.value))
    && (p.b.pending.Some? ==> Acceptable(p.b.pending.value))
  }

  /** Everything a publisher sends, a server would accept, provided what it was given was acceptable. */
  lemma StepAcceptable(p: Publisher, e: Event)
    requires PendingAcceptable(p) && (e.Applied? ==> Acceptable(e.delta.changes))
    ensures PendingAcceptable(Step(p, e).0)
    ensures forall x :: x in Step(p, e).1 ==> Acceptable(x.delta.changes)
  {
    if e.Applied? && p.At(e.delta.deck).pending.Some? {
      OverlayAcceptable(p.At(e.delta.deck).pending.value, e.delta.changes);
    }
  }

  // ---------------------------------------------------------------- nothing waits for long

  /** A change that finds its deck's last send at least 1000/30 ms ago, or none, leaves at once with all that was pending
      for the deck; and otherwise waits for the timer. */
  lemma SendsAtOnce(p: Publisher, delta: Delta, now: real)
    requires p.connected && p.role == Controller
    ensures var d := delta.deck;
      var (p', out) := OnApplied(p, delta, Local, now);
      if !p.At(d).hasSent || now - p.At(d).lastSendMs >= 1000.0 / 30.0
      then p'.At(d).pending.None? && TimesOf(out, d) == [now]
      else p'.At(d).pending.Some? && p'.timer && out == []
  {}

  /** What is not a local change of a connected controller is neither sent nor kept. */
  lemma OthersSendNothing(p: Publisher, delta: Delta, source: Source, now: real)
    requires source == Remote || !p.connected || p.role != Controller
    ensures OnApplied(p, delta, source, now) == (p, [])
  {}

  lemma TickDeckSends(p: Publisher, x: DeckId, now: real, d: DeckId)
    ensures var (p', out) := TickDeck(p, x, now, false);
      && (x == d && p'.At(d).pending.Some? ==> p.At(d).hasSent && now - p.At(d).lastSendMs < 1000.0 / 30.0)
      && (TimesOf(out, d) == if p.At(d).pending.Some? && p'.At(d).pending.None? then [now] else [])
      && (TimesOf(out, d) == [] ==> p'.At(d) == p.At(d))
      && p'.timer == p.timer && (x != d ==> p'.At(d) == p.At(d) && TimesOf(out, d) == [])
  {}

  /** After a tick no deck has a change pending that could have left: its last send is less than 1000/30 ms ago. Decks
      with nothing pending are left alone, and the timer runs on exactly if something still waits. */
  lemma TickSends(p: Publisher, now: real, d: DeckId)
    requires p.timer
    ensures var (p', out) := Step(p, Tick(now));
      && (p'.At(d).pending.Some? ==> p.At(d).hasSent && now - p.At(d).lastSendMs < 1000.0 / 30.0)
      && (TimesOf(out, d) == if p.At(d).pending.Some? && p'.At(d).pending.None? then [now] else [])
      && (TimesOf(out, d) == [] ==> p'.At(d) == p.At(d))
      && (p'.timer <==> p'.a.pending.Some? || p'.b.pending.Some?)
  {
    var (p1, s1) := TickDeck(p, A, now, false);
    TickDeckSends(p, A, now, d);
    TickDeckSends(p1, B, now, d);
    TimesOfConcat(s1, TickDeck(p1, B, now, false).1, d);
  }

  /** A flush sends everything and stops the timer. */
  lemma FlushSends(p: Publisher, now: real)
    ensures var (p', out) := Step(p, Flush(now));
      p'.a.pending.None? && p'.b.pending.None? && !p'.timer
  {}

  /** What goes out together goes out in the order of the decks. */
  lemma DecksInOrder(p: Publisher, now: real, force: bool)
    ensures var out := Drain(p, now, force).1;
      |out| <= 2 && (|out| == 2 ==> out[0].delta.deck == A && out[1].delta.deck == B)
  {}

  /** At some moment of the run nothing is pending for d. */
  ghost predicate ClearsOnce(p: Publisher, es: seq<Event>, d: DeckId) {
    exists i :: 0 <= i <= |es| && Run(p, es[..i]).0.At(d).pending.None?
  }

  lemma ClearsLater(p: Publisher, e: Event, es: seq<Event>, d: DeckId)
    requires ClearsOnce(Step(p, e).0, es, d)
    ensures ClearsOnce(p, [e] + es, d)
  {
    var i :| 0 <= i <= |es| && Run(Step(p, e).0, es[..i]).0.At(d).pending.None?;
    assert ([e] + es)[..i + 1] == [e] + es[..i];
    assert ([e] + es[..i])[1..] == es[..i];
    assert Run(p, ([e] + es)[..i + 1]).0.At(d).pending.None?;
  }

  lemma ClearsNow(p: Publisher, es: seq<Event>, d: DeckId)
    requires p.At(d).pending.None?
    ensures ClearsOnce(p, es, d)
  {
    assert Run(p, es[..0]).0.At(d).pending.None?;
  }

  /** While something stays pending for d, nothing is sent for it. */
  lemma StaysPending(p: Publisher, e: Event, d: DeckId)
    requires TimerOk(p) && p.At(d).pending.Some? && Step(p, e).0.At(d).pending.Some?
    ensures Step(p, e).0.At(d).hasSent == p.At(d).hasSent && Step(p, e).0.At(d).lastSendMs == p.At(d).lastSendMs
  {}

  /** What waits leaves by the first tick at least 1000/30 ms after the deck's last send, whatever happens meanwhile. */
  lemma {:induction false} LeavesByTick(p: Publisher, es: seq<Event>, now: real, d: DeckId)
    requires TimerOk(p) && (p.At(d).hasSent ==> now - p.At(d).lastSendMs >= 1000.0 / 30.0)
    ensures ClearsOnce(p, es + [Tick(now)], d)
    decreases |es|
  {
    if p.At(d).pending.None? {
      ClearsNow(p, es + [Tick(now)], d);
    } else if es == [] {
      TickSends(p, now, d);
      ClearsNow(Step(p, Tick(now)).0, [], d);
      ClearsLater(p, Tick(now), [], d);
      assert [Tick(now)] + [] == es + [Tick(now)];
    } else {
      var e, rest := es[0], es[1..];
      var p1 := Step(p, e).0;
      StepMeaning(p, e, d, DEFAULT_DECK);
      if p1.At(d).pending.None? {
        ClearsNow(p1, rest + [Tick(now)], d);
      } else {
        StaysPending(p, e, d);
        LeavesByTick(p1, rest, now, d);
      }
      ClearsLater(p, e, rest + [Tick(now)], d);
      assert [e] + (rest + [Tick(now)]) == es + [Tick(now)];
    }
  }

  /** No change waits longer than a throttle window and one tick: on every run on which the clock has not stepped back
      behind the deck's last send when a change is forwarded, by the first tick at least 1000/30 ms after that there was
      a moment, since the change, at which nothing was pending; that is, it has left, alone or overlaid. */
  lemma LeavesInTime(p: Publisher, delta: Delta, at: real, es: seq<Event>, now: real)
    requires TimerOk(p) && p.connected && p.role == Controller
    requires p.At(delta.deck).hasSent ==> p.At(delta.deck).lastSendMs <= at
    requires now >= at + 1000.0 / 30.0
    ensures ClearsOnce(OnApplied(p, delta, Local, at).0, es + [Tick(now)], delta.deck)
  {
    SendsAtOnce(p, delta, at);
    StepMeaning(p, Applied(delta, Local, at), delta.deck, DEFAULT_DECK);
    LeavesByTick(OnApplied(p, delta, Local, at).0, es, now, delta.deck);
  }

  lemma {:induction false} RunOn(p: Publisher, xs: seq<Event>, ys: seq<Event>)
    ensures Run(p, xs + ys).0 == Run(Run(p, xs).0, ys).0
    decreases |xs|
  {
    if xs == [] {
      assert xs + ys == ys;
    } else {
      assert (xs + ys)[0] == xs[0] && (xs + ys)[1..] == xs[1..] + ys;
      RunOn(Step(p, xs[0]).0, xs[1..], ys);
    }
  }

  /** After i events, all that was forwarded for d has left: the sends so far mean the forwarded changes. */
  ghost predicate AllLeft(p: Publisher, es: seq<Event>, i: nat, d: DeckId)
    requires i <= |es|
  {
    forall s ::
      MergeAll(s, SentOf(Run(p, es[..i]).1, d)) == MergeAll(WithPending(s, p.At(d).pending), Handled(p, es[..i], d))
  }

  lemma AllLeftWhenClear(p: Publisher, es: seq<Event>, i: nat, d: DeckId)
    requires i <= |es| && Run(p, es[..i]).0.At(d).pending.None?
    ensures AllLeft(p, es, i, d)
  {
    forall s
      ensures MergeAll(s, SentOf(Run(p, es[..i]).1, d))
           == MergeAll(WithPending(s, p.At(d).pending), Handled(p, es[..i], d))
    {
      RunMeaning(p, es[..i], d, s);
    }
  }

  /** The same on whole runs: by the first tick at least 1000/30 ms after a change was forwarded, there has been a moment
      since at which all that had been forwarded for the deck had left. */
  lemma ForwardedLeaves(
    p: Publisher, before: seq<Event>, delta: Delta, at: real, between: seq<Event>, now: real) returns (i: nat)
    requires TimerOk(p)
    requires var q := Run(p, before).0;
      && q.connected && q.role == Controller && (q.At(delta.deck).hasSent ==> q.At(delta.deck).lastSendMs <= at)
    requires now >= at + 1000.0 / 30.0
    ensures var es := before + [Applied(delta, Local, at)] + (between + [Tick(now)]);
      |before| + 1 <= i <= |es| && AllLeft(p, es, i, delta.deck)
  {
    var q, e, after := Run(p, before).0, Applied(delta, Local, at), between + [Tick(now)];
    RunMeaning(p, before, delta.deck, DEFAULT_DECK);
    LeavesInTime(q, delta, at, between, now);
    var q1 := Step(q, e).0;
    var x :| 0 <= x <= |after| && Run(q1, after[..x]).0.At(delta.deck).pending.None?;
    i := |before| + 1 + x;
    RunOn(p, before, [e]);
    assert Run(q, [e]).0 == q1;
    RunOn(p, before + [e], after[..x]);
    var es := before + [e] + after;
    assert es[..i] == before + [e] + after[..x];
    AllLeftWhenClear(p, es, i, delta.deck);
  }
}
