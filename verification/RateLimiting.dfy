/** The token bucket of server/src/server.js: what it serves, characterised exactly; when it bans; and that
    the traffic of a conforming publisher is never limited.  Times are in milliseconds. */
module RateLimiting {
  import opened Playback
  import opened RealMath
  import opened Publishing

  /** `rate` is in tokens per millisecond. */
  datatype Limit = Limit(rate: real, burst: real, banAfterMs: real)

  /** Sixty a second, a burst of 120, a ban after five seconds. */
  const DEFAULT_LIMIT := Limit(0.06, 120.0, 5000.0)

  ghost predicate LimitOk(l: Limit) { l.rate >= 0.0 && l.burst >= 1.0 }

  datatype Bucket = Bucket(tokens: real, lastRefillMs: real, limitedSince: Option<real>)

  function NewBucket(l: Limit, now: real): Bucket { Bucket(l.burst, now, None) }

  function Min(x: real, y: real): real { if x < y then x else y }

  function Refill(l: Limit, b: Bucket, now: real): Bucket {
    var elapsed := now - b.lastRefillMs;
    if elapsed <= 0.0 then b
    else b.(lastRefillMs := now, tokens := Min(l.burst, b.tokens + Times(elapsed, l.rate)))
  }

  /** The outcome of one charge: whether the frame is handled, whether the limiter replies to it, and
      whether it closes the connection. */
  datatype Charge = Charge(served: bool, reply: bool, ban: bool)

  function ChargeOne(l: Limit, b: Bucket, now: real): (Bucket, Charge) {
    var r := Refill(l, b, now);
    if r.tokens >= 1.0 then
      (r.(tokens := r.tokens - 1.0, limitedSince := None), Charge(true, false, false))
    else
      var since := if r.limitedSince.Some? then r.limitedSince.value else now;
      (r.(limitedSince := Some(since)), Charge(false, r.limitedSince.None?, now - since > l.banAfterMs))
  }

  // ---------------------------------------------------------------- runs of charges

  /** The bucket after charges at the times `ts`. */
  function After(l: Limit, start: real, ts: seq<real>): Bucket {
    if ts == [] then NewBucket(l, start)
    else ChargeOne(l, After(l, start, ts[..|ts| - 1]), ts[|ts| - 1]).0
  }

  /** What became of charge i. */
  function At(l: Limit, start: real, ts: seq<real>, i: nat): Charge
    requires i < |ts|
  {
    ChargeOne(l, After(l, start, ts[..i]), ts[i]).1
  }

  /** The tokens charge i finds. */
  function Level(l: Limit, start: real, ts: seq<real>, i: nat): real
    requires i < |ts|
  {
    Refill(l, After(l, start, ts[..i]), ts[i]).tokens
  }

  /** How far the clock has got by charge i: the clock itself if it never steps back. */
  function Clock(start: real, ts: seq<real>, i: nat): (c: real)
    requires i < |ts|
    ensures c >= start && c >= ts[i]
  {
    var before := if i == 0 then start else Clock(start, ts, i - 1);
    if ts[i] > before then ts[i] else before
  }

  /** How many of the charges i, .., j-1 were served. */
  function Served(l: Limit, start: real, ts: seq<real>, i: nat, j: nat): (n: nat)
    requires i <= j <= |ts|
    decreases j - i
  {
    if i == j then 0 else Served(l, start, ts, i, j - 1) + if At(l, start, ts, j - 1).served then 1 else 0
  }

  lemma {:induction false} RefilledAt(l: Limit, start: real, ts: seq<real>, i: nat)
    requires i < |ts|
    ensures After(l, start, ts[..i + 1]).lastRefillMs == Clock(start, ts, i)
    ensures After(l, start, ts[..i + 1]) == ChargeOne(l, After(l, start, ts[..i]), ts[i]).0
  {
    assert ts[..i + 1][..i] == ts[..i];
    if i > 0 { RefilledAt(l, start, ts, i - 1); }
  }

  /** From one charge to the next: the level falls by what was served, rises with the clock, and is capped. */
  lemma LevelStep(l: Limit, start: real, ts: seq<real>, i: nat)
    requires LimitOk(l) && 0 < i < |ts|
    ensures Level(l, start, ts, i)
         == Min(l.burst, Level(l, start, ts, i - 1) - (if At(l, start, ts, i - 1).served then 1.0 else 0.0)
                         + Times(Clock(start, ts, i) - Clock(start, ts, i - 1), l.rate))
    ensures Level(l, start, ts, i - 1) <= l.burst
  {
    RefilledAt(l, start, ts, i - 1);
    LevelCapped(l, start, ts, i - 1);
    TimesOne(l.rate);
  }

  lemma {:induction false} LevelCapped(l: Limit, start: real, ts: seq<real>, i: nat)
    requires LimitOk(l) && i < |ts|
    ensures Level(l, start, ts, i) <= l.burst
  {
    if i > 0 {
      RefilledAt(l, start, ts, i - 1);
      LevelCapped(l, start, ts, i - 1);
    }
  }

  /** What the envelope that starts at charge i leaves for charge j. */
  function Allowance(l: Limit, start: real, ts: seq<real>, i: nat, j: nat): real
    requires i <= j < |ts|
  {
    l.burst + Times(Clock(start, ts, j) - Clock(start, ts, i), l.rate) - Served(l, start, ts, i, j) as real
  }

  lemma AllowanceStep(l: Limit, start: real, ts: seq<real>, i: nat, j: nat)
    requires i < j < |ts|
    ensures Allowance(l, start, ts, i, j)
         == Allowance(l, start, ts, i, j - 1) - (if At(l, start, ts, j - 1).served then 1.0 else 0.0)
            + Times(Clock(start, ts, j) - Clock(start, ts, j - 1), l.rate)
  {
    TimesAdd(Clock(start, ts, j) - Clock(start, ts, j - 1), Clock(start, ts, j - 1) - Clock(start, ts, i), l.rate);
  }

  /** The bucket is exact, however the clock behaves: its level at charge j is the least of the allowances
      of all envelopes that start at an earlier charge or at j itself. `tight` names one that attains it. */
  lemma {:induction false} LevelIsLeastAllowance(l: Limit, start: real, ts: seq<real>, j: nat) returns (tight: nat)
    requires LimitOk(l) && j < |ts|
    ensures forall i :: 0 <= i <= j ==> Level(l, start, ts, j) <= Allowance(l, start, ts, i, j)
    ensures tight <= j && Level(l, start, ts, j) == Allowance(l, start, ts, tight, j)
  {
    TimesOne(l.rate);
    LevelCapped(l, start, ts, j);
    tight := j;
    if j == 0 {
      FirstLevel(l, start, ts);
    } else {
      var before := LevelIsLeastAllowance(l, start, ts, j - 1);
      LevelStep(l, start, ts, j);
      forall i | 0 <= i <= j ensures Level(l, start, ts, j) <= Allowance(l, start, ts, i, j) {
        if i < j { AllowanceStep(l, start, ts, i, j); }
      }
      AllowanceStep(l, start, ts, before, j);
      if Level(l, start, ts, j) < l.burst { tight := before; }
    }
  }

  lemma FirstLevel(l: Limit, start: real, ts: seq<real>)
    requires LimitOk(l) && |ts| > 0
    ensures Level(l, start, ts, 0) == l.burst
  {
    assert ts[..0] == [];
    TimesOne(l.rate);
    if ts[0] > start && l.rate > 0.0 { TimesSign(ts[0] - start, l.rate); }
    if l.rate == 0.0 { TimesAssoc(ts[0] - start, l.rate, 1.0); }
  }

  /** Serving charge j keeps the window that starts at charge i within burst + rate * elapsed. */
  ghost predicate Fits(l: Limit, start: real, ts: seq<real>, i: nat, j: nat)
    requires i <= j < |ts|
  {
    Served(l, start, ts, i, j) as real + 1.0 <= l.burst + Times(Clock(start, ts, j) - Clock(start, ts, i), l.rate)
  }

  /** A frame is served exactly when serving it keeps every window within its envelope. */
  lemma ServedIffWithinEnvelope(l: Limit, start: real, ts: seq<real>, j: nat)
    requires LimitOk(l) && j < |ts|
    ensures At(l, start, ts, j).served <==> forall i :: 0 <= i <= j ==> Fits(l, start, ts, i, j)
  {
    var tight := LevelIsLeastAllowance(l, start, ts, j);
    assert At(l, start, ts, j).served <==> Level(l, start, ts, j) >= 1.0;
    forall i | 0 <= i <= j
      ensures Fits(l, start, ts, i, j) <==> Allowance(l, start, ts, i, j) >= 1.0
      ensures Level(l, start, ts, j) <= Allowance(l, start, ts, i, j)
    {}
    assert Fits(l, start, ts, tight, j) <==> Level(l, start, ts, j) >= 1.0;
  }

  /** No window is ever served more than burst + rate * elapsed, even if the clock steps back. */
  lemma {:induction false} WindowBound(l: Limit, start: real, ts: seq<real>, i: nat, j: nat)
    requires LimitOk(l) && i <= j < |ts|
    ensures Served(l, start, ts, i, j + 1) as real <= l.burst + Times(Clock(start, ts, j) - Clock(start, ts, i), l.rate)
    decreases j - i
  {
    ServedIffWithinEnvelope(l, start, ts, j);
    TimesOne(l.rate);
    assert At(l, start, ts, j).served ==> Fits(l, start, ts, i, j);
    if !At(l, start, ts, j).served && i < j {
      WindowBound(l, start, ts, i, j - 1);
      ClockForward(l, start, ts, i, j);
    }
  }

  lemma ClockForward(l: Limit, start: real, ts: seq<real>, i: nat, j: nat)
    requires LimitOk(l) && i < j < |ts|
    ensures Times(Clock(start, ts, j - 1) - Clock(start, ts, i), l.rate)
         <= Times(Clock(start, ts, j) - Clock(start, ts, i), l.rate)
  {
    var before, after := Clock(start, ts, j - 1) - Clock(start, ts, i), Clock(start, ts, j) - Clock(start, ts, i);
    if l.rate > 0.0 { TimesOrder(after, before, l.rate); }
    if l.rate == 0.0 {
      TimesAssoc(after, 0.0, 1.0);
      TimesAssoc(before, 0.0, 1.0);
    }
  }

  /** On a clock that never steps back, `Clock` is the clock. */
  lemma {:induction false} SteadyClock(start: real, ts: seq<real>, i: nat)
    requires i < |ts| && ts[0] >= start
    requires forall x, y :: 0 <= x <= y < |ts| ==> ts[x] <= ts[y]
    ensures Clock(start, ts, i) == ts[i]
  {
    if i > 0 { SteadyClock(start, ts, i - 1); }
  }

  // ---------------------------------------------------------------- denial episodes

  /** The first charge of the unbroken run of denied charges that ends with charge i. */
  function EpisodeStart(l: Limit, start: real, ts: seq<real>, i: nat): (k: nat)
    requires i < |ts| && !At(l, start, ts, i).served
    ensures k <= i && !At(l, start, ts, k).served
    ensures k == 0 || At(l, start, ts, k - 1).served
    ensures forall j :: k <= j <= i ==> !At(l, start, ts, j).served
  {
    if i == 0 || At(l, start, ts, i - 1).served then i else EpisodeStart(l, start, ts, i - 1)
  }

  lemma {:induction false} LimitedSince(l: Limit, start: real, ts: seq<real>, i: nat)
    requires i < |ts|
    ensures After(l, start, ts[..i + 1]).limitedSince
         == if At(l, start, ts, i).served then None else Some(ts[EpisodeStart(l, start, ts, i)])
  {
    RefilledAt(l, start, ts, i);
    assert ts[..0] == [];
    if i > 0 { LimitedSince(l, start, ts, i - 1); }
  }

  /** A ban comes exactly when an unbroken run of denied charges has lasted longer than the limit allows,
      and the limiter replies exactly once per run, to its first charge. */
  lemma Episodes(l: Limit, start: real, ts: seq<real>, i: nat)
    requires i < |ts|
    ensures var c := At(l, start, ts, i);
      && (c.reply <==> !c.served && EpisodeStart(l, start, ts, i) == i)
      && (c.ban <==> !c.served && ts[i] - ts[EpisodeStart(l, start, ts, i)] > l.banAfterMs)
  {
    assert ts[..0] == [];
    if i > 0 { LimitedSince(l, start, ts, i - 1); }
  }

  /** By default a connection is banned once it has been denied without a break for more than five seconds. */
  lemma BannedAfterFiveSeconds(start: real, ts: seq<real>, i: nat)
    requires i < |ts|
    ensures var c := At(DEFAULT_LIMIT, start, ts, i);
      c.ban <==> (exists k ::
                    && 0 <= k <= i && ts[i] - ts[k] > 5000.0 && DeniedFrom(DEFAULT_LIMIT, start, ts, k, i)
                    && (k == 0 || At(DEFAULT_LIMIT, start, ts, k - 1).served))
  {
    Episodes(DEFAULT_LIMIT, start, ts, i);
  }

  ghost predicate DeniedFrom(l: Limit, start: real, ts: seq<real>, k: nat, i: nat)
    requires k <= i < |ts|
  {
    forall j :: k <= j <= i ==> !At(l, start, ts, j).served
  }

  /** How many unbroken runs of denied charges there have been. */
  function DenialRuns(l: Limit, start: real, ts: seq<real>): nat {
    if ts == [] then 0
    else
      var i := |ts| - 1;
      DenialRuns(l, start, ts[..i])
      + if !At(l, start, ts, i).served && EpisodeStart(l, start, ts, i) == i then 1 else 0
  }

  /** One more charge begins a run exactly if it is replied to. */
  lemma RunsNext(l: Limit, start: real, ts: seq<real>, now: real)
    ensures DenialRuns(l, start, ts + [now])
         == DenialRuns(l, start, ts) + if ChargeOne(l, After(l, start, ts), now).1.reply then 1 else 0
  {
    assert (ts + [now])[..|ts|] == ts;
    Episodes(l, start, ts + [now], |ts|);
  }

  // ---------------------------------------------------------------- publisher traffic

  /** A frame on its way: from the publisher, for a deck, or of another kind; when it left and when it
      reached the limiter. */
  datatype Frame = Frame(deck: Option<DeckId>, leftAt: real, at: real)

  function Arrivals(fs: seq<Frame>): (ts: seq<real>)
    ensures |ts| == |fs| && forall i :: 0 <= i < |fs| ==> ts[i] == fs[i].at
  {
    seq(|fs|, i requires 0 <= i < |fs| => fs[i].at)
  }

  /** When the first j frames' deltas for deck d left. */
  function LeftTimes(fs: seq<Frame>, d: DeckId, j: nat): seq<real>
    requires j <= |fs|
  {
    if j == 0 then [] else LeftTimes(fs, d, j - 1) + if fs[j - 1].deck == Some(d) then [fs[j - 1].leftAt] else []
  }

  function OthersCount(fs: seq<Frame>, i: nat, j: nat): nat
    requires i <= j <= |fs|
    decreases j - i
  {
    if i == j then 0 else OthersCount(fs, i, j - 1) + if fs[j - 1].deck.None? then 1 else 0
  }

  /** One channel: frames arrive in order, each between delay and delay + jitter after it left. */
  ghost predicate Channel(fs: seq<Frame>, delay: real, jitter: real) {
    && (forall i, j :: 0 <= i <= j < |fs| ==> fs[i].at <= fs[j].at)
    && forall i :: 0 <= i < |fs| ==> fs[i].leftAt + delay <= fs[i].at <= fs[i].leftAt + delay + jitter
  }

  lemma {:induction false} SpacedPairs(last: Option<real>, times: seq<real>, x: nat, y: nat)
    requires Spaced(last, times) && x <= y < |times|
    ensures times[y] - times[x] >= (y - x) as real * MIN_INTERVAL_MS
    decreases |times|
  {
    if x > 0 {
      SpacedPairs(Some(times[0]), times[1..], x - 1, y - 1);
    } else if y > 0 {
      SpacedPairs(Some(times[0]), times[1..], 0, y - 1);
      assert times[1..][0] - times[0] >= MIN_INTERVAL_MS;
    }
  }

  lemma {:induction false} LeftPrefix(fs: seq<Frame>, d: DeckId, i: nat, j: nat)
    requires i <= j <= |fs|
    ensures LeftTimes(fs, d, i) <= LeftTimes(fs, d, j)
    decreases j - i
  {
    if i < j { LeftPrefix(fs, d, i, j - 1); }
  }

  /** What left for one deck within frames i, .., j-1 left within the window of their arrivals, widened by
      the jitter. */
  lemma {:induction false} LeftInWindow(fs: seq<Frame>, delay: real, jitter: real, d: DeckId, i: nat, j: nat)
    requires Channel(fs, delay, jitter) && i < j <= |fs|
    ensures LeftTimes(fs, d, i) <= LeftTimes(fs, d, j)
    ensures forall x :: |LeftTimes(fs, d, i)| <= x < |LeftTimes(fs, d, j)| ==>
      fs[i].at - delay - jitter <= LeftTimes(fs, d, j)[x] <= fs[j - 1].at - delay
    decreases j - i
  {
    LeftPrefix(fs, d, i, j);
    if i < j - 1 { LeftInWindow(fs, delay, jitter, d, i, j - 1); }
  }

  /** So at most one more than (window + jitter) / interval deltas of one deck arrive in a window. */
  lemma DeckCount(fs: seq<Frame>, delay: real, jitter: real, d: DeckId, i: nat, j: nat)
    requires Channel(fs, delay, jitter) && i < j <= |fs| && Spaced(None, LeftTimes(fs, d, |fs|)) && jitter >= 0.0
    ensures (|LeftTimes(fs, d, j)| - |LeftTimes(fs, d, i)|) as real
         <= 1.0 + 0.03 * (fs[j - 1].at - fs[i].at + jitter)
  {
    var a, b := |LeftTimes(fs, d, i)|, |LeftTimes(fs, d, j)|;
    LeftInWindow(fs, delay, jitter, d, i, j);
    LeftPrefix(fs, d, j, |fs|);
    if a < b { SpacedPairs(None, LeftTimes(fs, d, |fs|), a, b - 1); }
  }

  lemma {:induction false} AllCounted(fs: seq<Frame>, i: nat, j: nat)
    requires i <= j <= |fs|
    ensures j - i == (|LeftTimes(fs, A, j)| - |LeftTimes(fs, A, i)|)
                   + (|LeftTimes(fs, B, j)| - |LeftTimes(fs, B, i)|) + OthersCount(fs, i, j)
    decreases j - i
  {
    if i < j {
      AllCounted(fs, i, j - 1);
      match fs[j - 1].deck
      case None =>
      case Some(d) => assert d == A || d == B;
    }
  }

  lemma {:induction false} ServedAtMostAll(l: Limit, start: real, ts: seq<real>, i: nat, j: nat)
    requires i <= j <= |ts|
    ensures Served(l, start, ts, i, j) <= j - i
    decreases j - i
  {
    if i < j { ServedAtMostAll(l, start, ts, i, j - 1); }
  }

  lemma {:induction false} FewOthers(fs: seq<Frame>, i: nat, j: nat)
    requires i <= j <= |fs|
    ensures OthersCount(fs, i, j) <= OthersCount(fs, 0, |fs|)
    decreases |fs| - j, j - i
  {
    if j < |fs| {
      FewOthers(fs, i, j + 1);
    } else {
      OthersMonotone(fs, i, j);
    }
  }

  lemma {:induction false} OthersMonotone(fs: seq<Frame>, i: nat, j: nat)
    requires i <= j <= |fs|
    ensures OthersCount(fs, i, j) <= OthersCount(fs, 0, j)
    decreases j
  {
    if i < j { OthersMonotone(fs, i, j - 1); }
  }

  lemma ArrivalClock(fs: seq<Frame>, delay: real, jitter: real, start: real, i: nat)
    requires Channel(fs, delay, jitter) && i < |fs| && start <= fs[0].at
    ensures Clock(start, Arrivals(fs), i) == fs[i].at
  {
    SteadyClock(start, Arrivals(fs), i);
  }

  /** How many frames of every kind arrive in a window. */
  lemma WindowCount(fs: seq<Frame>, delay: real, jitter: real, i: nat, j: nat)
    requires Spaced(None, LeftTimes(fs, A, |fs|)) && Spaced(None, LeftTimes(fs, B, |fs|))
    requires Channel(fs, delay, jitter) && jitter >= 0.0 && i <= j < |fs|
    ensures (j + 1 - i) as real
         <= 2.0 + 0.06 * (fs[j].at - fs[i].at + jitter) + OthersCount(fs, 0, |fs|) as real
  {
    DeckCount(fs, delay, jitter, A, i, j + 1);
    DeckCount(fs, delay, jitter, B, i, j + 1);
    AllCounted(fs, i, j + 1);
    FewOthers(fs, i, j + 1);
  }

  /** A window with few enough frames is within its envelope. */
  lemma WindowFits(fs: seq<Frame>, delay: real, jitter: real, start: real, i: nat, j: nat)
    requires Channel(fs, delay, jitter) && i <= j < |fs| && start <= fs[0].at
    requires (j + 1 - i) as real <= 120.0 + 0.06 * (fs[j].at - fs[i].at)
    ensures Fits(DEFAULT_LIMIT, start, Arrivals(fs), i, j)
  {
    ArrivalClock(fs, delay, jitter, start, i);
    ArrivalClock(fs, delay, jitter, start, j);
    ServedAtMostAll(DEFAULT_LIMIT, start, Arrivals(fs), i, j);
  }

  /** A conforming publisher is never rate limited: whatever it was asked to publish, if its deltas reach
      the limiter in order over a channel whose delay varies by at most `jitter`, together with no more
      than `extra` other frames (the hello, claims, the resync, and the pings, which are charged too), and the
      jitter and the extras leave room in the burst, then every frame is served. */
  lemma PublisherNeverLimited(
    p: Publisher, es: seq<Event>, fs: seq<Frame>, delay: real, jitter: real, extra: nat, start: real, j: nat)
    requires forall i :: 0 <= i < |es| ==> !es[i].Flush?
    requires forall d :: LeftTimes(fs, d, |fs|) == TimesOf(Run(p, es).1, d)
    requires Channel(fs, delay, jitter) && jitter >= 0.0 && OthersCount(fs, 0, |fs|) <= extra
    requires j < |fs| && start <= fs[0].at
    requires 2.0 + 0.06 * jitter + extra as real <= 120.0
    ensures At(DEFAULT_LIMIT, start, Arrivals(fs), j) == Charge(true, false, false)
  {
    RunSpaced(p, es, A);
    RunSpaced(p, es, B);
    forall i | 0 <= i <= j ensures Fits(DEFAULT_LIMIT, start, Arrivals(fs), i, j) {
      WindowCount(fs, delay, jitter, i, j);
      WindowFits(fs, delay, jitter, start, i, j);
    }
    ServedIffWithinEnvelope(DEFAULT_LIMIT, start, Arrivals(fs), j);
  }

  /** Frames i, .., j-1 that are not deltas of deck d. */
  function RestCount(fs: seq<Frame>, d: DeckId, i: nat, j: nat): int
    requires i <= j <= |fs|
  {
    j - i - (|LeftTimes(fs, d, j)| - |LeftTimes(fs, d, i)|)
  }

  /** In every window the frames that are not deltas of deck d stay within half the sustained rate and `extra` more. */
  ghost predicate LightRest(fs: seq<Frame>, d: DeckId, extra: nat) {
    forall i, j :: 0 <= i <= j < |fs| ==>
      RestCount(fs, d, i, j + 1) as real <= extra as real + 0.03 * (fs[j].at - fs[i].at)
  }

  lemma LongWindow(fs: seq<Frame>, d: DeckId, delay: real, jitter: real, extra: nat, i: nat, j: nat)
    requires Spaced(None, LeftTimes(fs, d, |fs|)) && Channel(fs, delay, jitter) && jitter >= 0.0
    requires LightRest(fs, d, extra) && i <= j < |fs|
    ensures (j + 1 - i) as real <= 1.0 + 0.03 * jitter + extra as real + 0.06 * (fs[j].at - fs[i].at)
  {
    DeckCount(fs, delay, jitter, d, i, j + 1);
    var n := |LeftTimes(fs, d, j + 1)| - |LeftTimes(fs, d, i)|;
    assert (j + 1 - i) as real == RestCount(fs, d, i, j + 1) as real + n as real;
  }

  /** However long the session: if everything but one deck's deltas (the other deck's, pings, claims) stays within half
      the sustained rate in every window, a publisher without flush has every frame served. */
  lemma LongSessionsNeverLimited(
    p: Publisher, es: seq<Event>, fs: seq<Frame>, d: DeckId, delay: real, jitter: real, extra: nat, start: real, j: nat)
    requires forall i :: 0 <= i < |es| ==> !es[i].Flush?
    requires LeftTimes(fs, d, |fs|) == TimesOf(Run(p, es).1, d)
    requires Channel(fs, delay, jitter) && jitter >= 0.0 && LightRest(fs, d, extra)
    requires j < |fs| && start <= fs[0].at
    requires 1.0 + 0.03 * jitter + extra as real <= 120.0
    ensures At(DEFAULT_LIMIT, start, Arrivals(fs), j) == Charge(true, false, false)
  {
    RunSpaced(p, es, d);
    forall i | 0 <= i <= j ensures Fits(DEFAULT_LIMIT, start, Arrivals(fs), i, j) {
      LongWindow(fs, d, delay, jitter, extra, i, j);
      WindowFits(fs, delay, jitter, start, i, j);
    }
    ServedIffWithinEnvelope(DEFAULT_LIMIT, start, Arrivals(fs), j);
  }

  /** Both decks have sent all the throttle lets them send between the arrivals of frames i and j. */
  ghost predicate FullRate(fs: seq<Frame>, i: nat, j: nat)
    requires i <= j < |fs|
  {
    forall d :: (|LeftTimes(fs, d, j + 1)| - |LeftTimes(fs, d, i)|) as real >= 0.03 * (fs[j].at - fs[i].at)
  }

  /** The bound on the other frames cannot be traded for time: two decks at full rate use the whole sustained rate, so
      in any window of theirs that is served throughout, the other frames, pings included, are at most the burst. */
  lemma OtherFramesMustFit(fs: seq<Frame>, delay: real, jitter: real, start: real, i: nat, j: nat)
    requires Channel(fs, delay, jitter) && i <= j < |fs| && start <= fs[0].at && FullRate(fs, i, j)
    requires Served(DEFAULT_LIMIT, start, Arrivals(fs), i, j + 1) == j + 1 - i
    ensures OthersCount(fs, i, j + 1) as real <= DEFAULT_LIMIT.burst
  {
    WindowBound(DEFAULT_LIMIT, start, Arrivals(fs), i, j);
    ArrivalClock(fs, delay, jitter, start, i);
    ArrivalClock(fs, delay, jitter, start, j);
    AllCounted(fs, i, j + 1);
    var window := fs[j].at - fs[i].at;
    var a := |LeftTimes(fs, A, j + 1)| - |LeftTimes(fs, A, i)|;
    var b := |LeftTimes(fs, B, j + 1)| - |LeftTimes(fs, B, i)|;
    assert a as real >= 0.03 * window && b as real >= 0.03 * window;
    assert (j + 1 - i) as real == a as real + b as real + OthersCount(fs, i, j + 1) as real;
  }
}
