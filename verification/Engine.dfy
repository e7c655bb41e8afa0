/** What the playback source of client/src/engine/BufferPlaybackSource.cpp renders: the ideal stream of source
    positions, the per-block bookkeeping around it, and the laws that tie the two.  Positions are in source frames. */
module Engine {
  import opened Playback
  import opened RealMath

  datatype Stereo = Stereo(left: real, right: real)

  const SILENCE := Stereo(0.0, 0.0)

  /** Decoded audio: one sequence of samples per channel, all of the same length. */
  datatype Audio = Audio(channels: seq<seq<real>>, sampleRate: real)
  {
    predicate Ok() {
      |channels| > 0 && forall c :: 0 <= c < |channels| ==> |channels[c]| == |channels[0]|
    }

    function Frames(): nat
      requires Ok()
    {
      |channels[0]|
    }

    /** A mono track feeds both sides; of more than two channels the first two are heard. */
    function Side(ch: nat): seq<real>
      requires Ok() && ch < 2
    {
      channels[if |channels| == 1 then 0 else if ch < |channels| - 1 then ch else |channels| - 1]
    }
  }

  datatype Region = Region(lo: real, hi: real)

  /** What one block reads once at its start. */
  datatype Setup = Setup(
    audio: Audio, rate: real, pitch: real, gain: real, repeat: bool, loop: Option<Region>, ratio: real, capacity: nat)
  {
    predicate Ok() { audio.Ok() && ratio >= 0.0 }

    /** The exclusive bound of the renderable positions: interpolation reads one frame further. */
    function Last(): real
      requires audio.Ok()
    {
      (audio.Frames() - 1) as real
    }
  }

  // ---------------------------------------------------------------- the ideal stream

  /** Past its end, a non-empty range is entered again at its start, keeping the overshoot. */
  function WrapRange(p: real, lo: real, hi: real): real {
    if hi > lo && p >= hi then lo + Fmod(p - lo, hi - lo) else p
  }

  /** The loop first; whole-track repeat only for a position still past the end. */
  function Wrap(u: Setup, p: real): real
    requires u.Ok()
  {
    var looped := if u.loop.Some? then WrapRange(p, u.loop.value.lo, u.loop.value.hi) else p;
    if u.repeat && looped >= u.Last() then WrapRange(looped, 0.0, u.Last()) else looped
  }

  predicate Dry(u: Setup, w: real)
    requires u.Ok()
  {
    w < 0.0 || w >= u.Last()
  }

  function Next(u: Setup, p: real): real
    requires u.Ok()
  {
    var w := Wrap(u, p);
    if Dry(u, w) then w else w + u.ratio
  }

  function Between(samples: seq<real>, w: real): real
    requires 0.0 <= w < (|samples| - 1) as real
  {
    var i := w.Floor;
    samples[i] + Times(w - i as real, samples[i + 1] - samples[i])
  }

  /** Interpolation stays between the two frames around the position, and is a frame of the track at a whole one. */
  lemma BetweenNeighbours(samples: seq<real>, w: real)
    requires 0.0 <= w < (|samples| - 1) as real
    ensures var a, b := samples[w.Floor], samples[w.Floor + 1];
      if a <= b then a <= Between(samples, w) <= b else b <= Between(samples, w) <= a
    ensures w == w.Floor as real ==> Between(samples, w) == samples[w.Floor]
  {
    var a, b, frac := samples[w.Floor], samples[w.Floor + 1], w - w.Floor as real;
    TimesAssoc(frac, b - a, 1.0);
    TimesOne(b - a);
    if a < b {
      TimesOrder(frac, 1.0, b - a);
      TimesSign(frac, b - a);
    } else if b < a {
      TimesAdd(a, b, frac);
      TimesOrder(frac, 1.0, a - b);
      TimesSign(frac, a - b);
      assert Times(frac, b - a) == -Times(frac, a - b);
    }
  }

  function FrameAt(u: Setup, p: real): Stereo
    requires u.Ok()
  {
    var w := Wrap(u, p);
    if Dry(u, w) then SILENCE else Stereo(Between(u.audio.Side(0), w), Between(u.audio.Side(1), w))
  }

  /** The head after k uninterrupted pulls from p. */
  function HeadAfter(u: Setup, p: real, k: nat): real
    requires u.Ok()
  {
    if k == 0 then p else Next(u, HeadAfter(u, p, k - 1))
  }

  function Pulled(u: Setup, p: real, k: nat): (s: seq<Stereo>)
    requires u.Ok()
    ensures |s| == k
  {
    if k == 0 then [] else Pulled(u, p, k - 1) + [FrameAt(u, HeadAfter(u, p, k - 1))]
  }

  /** Whether a pull of k frames from p runs out of audio. */
  predicate RanDry(u: Setup, p: real, k: nat)
    requires u.Ok()
  {
    k > 0 && Dry(u, Wrap(u, HeadAfter(u, p, k - 1)))
  }

  /** Pulling in two goes is pulling in one. */
  lemma {:induction false} PullSplit(u: Setup, p: real, a: nat, b: nat)
    requires u.Ok()
    ensures HeadAfter(u, p, a + b) == HeadAfter(u, HeadAfter(u, p, a), b)
    ensures Pulled(u, p, a + b) == Pulled(u, p, a) + Pulled(u, HeadAfter(u, p, a), b)
    decreases b
  {
    if b > 0 { PullSplit(u, p, a, b - 1); }
  }

  lemma WrapRangeBounds(p: real, lo: real, hi: real)
    requires hi > lo
    ensures p >= hi ==> lo <= WrapRange(p, lo, hi) < hi
    ensures WrapRange(WrapRange(p, lo, hi), lo, hi) == WrapRange(p, lo, hi)
  {
    if p >= hi {
      FmodIsMod(p - lo, hi - lo);
      assert 0.0 <= Mod(p - lo, hi - lo) < hi - lo;
    }
  }

  /** Where the audio has run out, it stays out: the head no longer moves and only silence follows. */
  lemma DryIsFixed(u: Setup, p: real)
    requires u.Ok() && Dry(u, Wrap(u, p))
    ensures Wrap(u, Wrap(u, p)) == Wrap(u, p)
  {
    if u.loop.Some? && u.loop.value.hi > u.loop.value.lo { WrapRangeBounds(p, u.loop.value.lo, u.loop.value.hi); }
    if u.Last() > 0.0 {
      var looped := if u.loop.Some? then WrapRange(p, u.loop.value.lo, u.loop.value.hi) else p;
      WrapRangeBounds(looped, 0.0, u.Last());
    }
  }

  lemma {:induction false} DryFrom(u: Setup, p: real, i: nat, k: nat)
    requires u.Ok() && Dry(u, Wrap(u, HeadAfter(u, p, i))) && i < k
    ensures HeadAfter(u, p, k) == Wrap(u, HeadAfter(u, p, i))
    ensures Dry(u, Wrap(u, HeadAfter(u, p, k))) && RanDry(u, p, k)
    ensures Pulled(u, p, k) == Pulled(u, p, i) + seq(k - i, _ => SILENCE)
    decreases k
  {
    DryIsFixed(u, HeadAfter(u, p, i));
    if k > i + 1 {
      DryFrom(u, p, i, k - 1);
      assert seq(k - i, _ => SILENCE) == seq(k - 1 - i, _ => SILENCE) + [SILENCE];
    } else {
      assert seq(1, _ => SILENCE) == [SILENCE];
    }
  }

  // ---------------------------------------------------------------- closed forms

  /** Wrapping step by step, or once at the end, comes to the same: a range wrapped after a step of a wrapped
      position is the range wrapped after the same step of the unwrapped one. */
  lemma WrapStep(x: real, r: real, lo: real, hi: real)
    requires hi > lo && r >= 0.0
    ensures WrapRange(WrapRange(x, lo, hi) + r, lo, hi) == WrapRange(x + r, lo, hi)
  {
    if x >= hi {
      WrapRangeBounds(x, lo, hi);
      SameRemainder(x, r, lo, hi);
      SameWrap(WrapRange(x, lo, hi) + r, x + r, lo, hi);
    }
  }

  /** From the start of a range on, wrapping is taking the remainder. */
  lemma WrapFrom(v: real, lo: real, hi: real)
    requires v >= lo && hi > lo
    ensures WrapRange(v, lo, hi) == lo + Mod(v - lo, hi - lo)
  {
    if v >= hi { FmodIsMod(v - lo, hi - lo); } else { ModSmall(v - lo, hi - lo); }
  }

  lemma SameRemainder(x: real, r: real, lo: real, hi: real)
    requires x >= lo && hi > lo
    ensures Mod(WrapRange(x, lo, hi) + r - lo, hi - lo) == Mod(x + r - lo, hi - lo)
  {
    WrapFrom(x, lo, hi);
    Remainders(x - lo, WrapRange(x, lo, hi) - lo, r, WrapRange(x, lo, hi) + r - lo, x + r - lo, hi - lo);
  }

  lemma Remainders(y: real, m: real, r: real, a: real, b: real, len: real)
    requires len > 0.0 && m == Mod(y, len) && a == m + r && b == y + r
    ensures Mod(a, len) == Mod(b, len)
  {
    ModAdd(y, r, len);
  }

  lemma SameWrap(v: real, w: real, lo: real, hi: real)
    requires v >= lo && w >= lo && hi > lo && Mod(v - lo, hi - lo) == Mod(w - lo, hi - lo)
    ensures WrapRange(v, lo, hi) == WrapRange(w, lo, hi)
  {
    WrapFrom(v, lo, hi);
    WrapFrom(w, lo, hi);
  }

  /** A loop inside the track is what decides the wrap, repeat or not. */
  ghost predicate Looping(u: Setup)
    requires u.Ok()
  {
    u.loop.Some? && 0.0 <= u.loop.value.lo < u.loop.value.hi <= u.Last()
  }

  ghost predicate Repeating(u: Setup)
    requires u.Ok()
  {
    u.repeat && u.Last() > 0.0 && (u.loop.None? || u.loop.value.hi <= u.loop.value.lo)
  }

  function Bounds(u: Setup): Region
    requires u.Ok()
  {
    if u.loop.Some? && u.loop.value.hi > u.loop.value.lo then u.loop.value else Region(0.0, u.Last())
  }

  lemma OneWrap(u: Setup, p: real)
    requires u.Ok() && (Looping(u) || Repeating(u)) && p >= 0.0
    ensures Wrap(u, p) == WrapRange(p, Bounds(u).lo, Bounds(u).hi)
    ensures 0.0 <= Wrap(u, p) < Bounds(u).hi && !Dry(u, Wrap(u, p))
  {
    WrapRangeBounds(p, Bounds(u).lo, Bounds(u).hi);
  }

  /** A track that loops or repeats never runs dry. */
  lemma {:induction false} NeverDry(u: Setup, p: real, k: nat)
    requires u.Ok() && (Looping(u) || Repeating(u)) && p >= 0.0
    ensures HeadAfter(u, p, k) >= 0.0 && !RanDry(u, p, k)
  {
    if k > 0 {
      NeverDry(u, p, k - 1);
      OneWrap(u, HeadAfter(u, p, k - 1));
    }
  }

  /** The iterated wrap has a closed form: the k-th position read is p + k * ratio, wrapped once. */
  lemma {:induction false} ClosedForm(u: Setup, p: real, k: nat)
    requires u.Ok() && (Looping(u) || Repeating(u)) && p >= 0.0
    ensures Wrap(u, HeadAfter(u, p, k)) == WrapRange(p + Times(k as real, u.ratio), Bounds(u).lo, Bounds(u).hi)
    decreases k
  {
    NeverDry(u, p, k);
    OneWrap(u, HeadAfter(u, p, k));
    TimesOne(u.ratio);
    if k > 0 {
      ClosedForm(u, p, k - 1);
      NeverDry(u, p, k - 1);
      OneWrap(u, HeadAfter(u, p, k - 1));
      TimesAdd((k - 1) as real, 1.0, u.ratio);
      WrapStep(p + Times((k - 1) as real, u.ratio), u.ratio, Bounds(u).lo, Bounds(u).hi);
    }
  }

  // ---------------------------------------------------------------- tempo

  /** A block is due `due` frames; whole ones are pulled, at least one, and the rest is carried over. */
  function Quota(carry: real, due: real): (int, real) {
    var pull := if (carry + due).Floor > 1 then (carry + due).Floor else 1;
    (pull, carry + due - pull as real)
  }

  function CarryAfter(dues: seq<real>): real {
    if dues == [] then 0.0 else Quota(CarryAfter(dues[..|dues| - 1]), dues[|dues| - 1]).1
  }

  function TotalPulls(dues: seq<real>): int {
    if dues == [] then 0
    else TotalPulls(dues[..|dues| - 1]) + Quota(CarryAfter(dues[..|dues| - 1]), dues[|dues| - 1]).0
  }

  function Sum(dues: seq<real>): real {
    if dues == [] then 0.0 else Sum(dues[..|dues| - 1]) + dues[|dues| - 1]
  }

  /** What was due is what was pulled plus what is carried, and less than one frame is carried. */
  lemma {:induction false} Conserved(dues: seq<real>)
    ensures TotalPulls(dues) as real + CarryAfter(dues) == Sum(dues) && CarryAfter(dues) < 1.0
    ensures TotalPulls(dues) >= |dues|
    decreases |dues|
  {
    if dues != [] { Conserved(dues[..|dues| - 1]); }
  }

  ghost predicate OnTempo(dues: seq<real>) {
    TotalPulls(dues) == Sum(dues).Floor
  }

  /** Block i brings the sum past another whole number. */
  ghost predicate Advances(dues: seq<real>, i: nat)
    requires i < |dues|
  {
    Sum(dues[..i]).Floor < Sum(dues[..i + 1]).Floor
  }

  lemma TempoStep(dues: seq<real>, i: nat)
    requires i < |dues| && OnTempo(dues[..i])
    ensures OnTempo(dues[..i + 1]) <==> Sum(dues[..i]).Floor + 1 <= Sum(dues[..i + 1]).Floor
  {
    assert dues[..i + 1][..i] == dues[..i];
    Conserved(dues[..i]);
    FloorShift(Sum(dues[..i + 1]), TotalPulls(dues[..i]));
  }

  lemma FloorShift(x: real, n: int)
    ensures (x - n as real).Floor == x.Floor - n
  {}

  ghost predicate AlwaysOnTempo(dues: seq<real>) {
    forall i :: 0 <= i <= |dues| ==> OnTempo(dues[..i])
  }

  ghost predicate AlwaysAdvances(dues: seq<real>) {
    forall i :: 0 <= i < |dues| ==> Advances(dues, i)
  }

  lemma TempoPrefix(dues: seq<real>)
    requires |dues| > 0
    ensures AlwaysOnTempo(dues) <==> AlwaysOnTempo(dues[..|dues| - 1]) && OnTempo(dues)
  {
    var prev := dues[..|dues| - 1];
    assert dues[..|dues|] == dues;
    assert forall i :: 0 <= i < |dues| ==> prev[..i] == dues[..i];
  }

  lemma AdvancesPrefix(dues: seq<real>)
    requires |dues| > 0
    ensures AlwaysAdvances(dues) <==> AlwaysAdvances(dues[..|dues| - 1]) && Advances(dues, |dues| - 1)
  {
    var prev := dues[..|dues| - 1];
    forall i | 0 <= i < |prev| ensures Advances(prev, i) <==> Advances(dues, i) {
      assert prev[..i] == dues[..i] && prev[..i + 1] == dues[..i + 1];
    }
  }

  /** No tempo drift: the frames pulled by every prefix of the blocks are the whole part of what was due,
      exactly when every block brings what is due past another whole number. */
  lemma {:induction false} TempoExact(dues: seq<real>)
    ensures AlwaysOnTempo(dues) <==> AlwaysAdvances(dues)
    decreases |dues|
  {
    if dues == [] {
      assert OnTempo(dues[..0]);
    } else {
      var prev := dues[..|dues| - 1];
      TempoExact(prev);
      TempoPrefix(dues);
      AdvancesPrefix(dues);
      if AlwaysOnTempo(prev) {
        assert prev[..|prev|] == prev && dues[..|dues|] == dues;
        TempoStep(dues, |dues| - 1);
      }
    }
  }

  /** Blocks that are each due at least one frame keep the tempo. */
  lemma {:induction false} FullBlocksKeepTempo(dues: seq<real>)
    requires forall i :: 0 <= i < |dues| ==> dues[i] >= 1.0
    ensures OnTempo(dues)
    decreases |dues|
  {
    assert dues[..0] == [];
    if dues != [] {
      FullBlocksKeepTempo(dues[..|dues| - 1]);
      TempoStep(dues, |dues| - 1);
      assert dues[..|dues|] == dues;
    }
  }

  // ---------------------------------------------------------------- one block

  datatype Call = Call(input: seq<Stereo>, numOutput: nat, pitch: real)

  /** A time stretcher: its output depends on this call and on the calls since its last reset. */
  type Stretch = (seq<Call>, Call) -> seq<Stereo>

  ghost predicate StretchOk(stretch: Stretch) {
    forall calls, call :: |stretch(calls, call)| == call.numOutput
  }

  /** The audio thread's own state. `position` is the audible one, `lagged` behind the raw head. */
  datatype Render = Render(
    position: real, lagged: real, carry: real, produced: nat, drain: nat, latency: nat, playing: bool,
    calls: seq<Call>)
  {
    function Raw(): real { position + lagged }
  }

  function Silent(n: nat): seq<Stereo> { seq(n, _ => SILENCE) }

  function Scaled(s: seq<Stereo>, gain: real): (r: seq<Stereo>)
    ensures |r| == |s|
    ensures forall i :: 0 <= i < |s| ==> r[i] == Stereo(Times(s[i].left, gain), Times(s[i].right, gain))
  {
    seq(|s|, i requires 0 <= i < |s| => Stereo(Times(s[i].left, gain), Times(s[i].right, gain)))
  }

  function Least(a: nat, b: nat): nat { if a < b then a else b }

  /** A reset starts the stretcher's history and the bookkeeping afresh; a pending seek moves the position. */
  function Begin(s: Render, reset: bool, latency: nat, seek: Option<real>): Render {
    var r := if reset then Render(s.position, 0.0, 0.0, 0, 0, latency, s.playing, []) else s;
    if seek.Some? then r.(position := seek.value) else r
  }

  predicate Renders(u: Setup, s: Render, n: nat)
    requires u.Ok()
  {
    u.audio.Frames() > 0 && s.playing && 0 < n <= u.capacity
  }

  function PullOf(u: Setup, s: Render, n: nat): nat {
    Least(Quota(s.carry, Times(n as real, u.rate)).0, u.capacity)
  }

  function RenderBlock(u: Setup, stretch: Stretch, s: Render, n: nat): (Render, seq<Stereo>)
    requires u.Ok()
  {
    var pull := PullOf(u, s, n);
    var dry := RanDry(u, s.Raw(), pull);
    var call := Call(Pulled(u, s.Raw(), pull), n, u.pitch);
    var armed := if dry && s.drain == 0 then s.latency + 1 else s.drain;
    var drain := if dry && armed > n then armed - n else 0;
    var lagged := Times(Times(Least(s.produced + n, s.latency) as real, u.rate), u.ratio);
    (Render(HeadAfter(u, s.Raw(), pull) - lagged, lagged, Quota(s.carry, Times(n as real, u.rate)).1,
            s.produced + n, drain, s.latency, !(dry && drain == 0), s.calls + [call]),
     Scaled(stretch(s.calls, call), u.gain))
  }

  /** One block of n frames, after `Begin`. */
  function Block(u: Setup, stretch: Stretch, s: Render, n: nat): (Render, seq<Stereo>)
    requires u.Ok()
  {
    if u.audio.Frames() == 0 then (s.(playing := false), Silent(n))
    else if Renders(u, s, n) then RenderBlock(u, stretch, s, n)
    else (s, Silent(n))
  }

  /** A block of n frames, with the parameters it finds. */
  datatype Piece = Piece(u: Setup, n: nat)

  predicate PiecesOk(ps: seq<Piece>) { forall i :: 0 <= i < |ps| ==> ps[i].u.Ok() }

  /** Consecutive blocks; parameters may change from each to the next. */
  function Run(stretch: Stretch, s: Render, ps: seq<Piece>): (Render, seq<Stereo>)
    requires PiecesOk(ps)
    decreases |ps|
  {
    if ps == [] then (s, [])
    else
      var (s1, out1) := Run(stretch, s, ps[..|ps| - 1]);
      var (s2, out2) := Block(ps[|ps| - 1].u, stretch, s1, ps[|ps| - 1].n);
      (s2, out1 + out2)
  }

  lemma RunLast(stretch: Stretch, s: Render, ps: seq<Piece>)
    requires PiecesOk(ps) && ps != []
    ensures var r := Run(stretch, s, ps[..|ps| - 1]);
      var b := Block(ps[|ps| - 1].u, stretch, r.0, ps[|ps| - 1].n);
      Run(stretch, s, ps) == (b.0, r.1 + b.1)
  {}

  /** Everything the stretcher was fed. */
  function Fed(calls: seq<Call>): seq<Stereo> {
    if calls == [] then [] else Fed(calls[..|calls| - 1]) + calls[|calls| - 1].input
  }

  lemma FedNext(calls: seq<Call>, c: Call)
    ensures Fed(calls + [c]) == Fed(calls) + c.input
  {
    assert (calls + [c])[..|calls|] == calls;
  }

  /** One block: the raw head survives the latency compensation of the published position, whatever the rate
      was when that was computed. */
  lemma BlockPulls(u: Setup, stretch: Stretch, s: Render, n: nat)
    requires u.Ok() && Renders(u, s, n)
    ensures var s' := Block(u, stretch, s, n).0;
      && Fed(s'.calls) == Fed(s.calls) + Pulled(u, s.Raw(), PullOf(u, s, n))
      && s'.Raw() == HeadAfter(u, s.Raw(), PullOf(u, s, n))
  {
    FedNext(s.calls, Call(Pulled(u, s.Raw(), PullOf(u, s, n)), n, u.pitch));
  }

  // ---------------------------------------------------------------- one stream through changing parameters

  /** Pull `count` frames under these parameters. */
  datatype Leg = Leg(u: Setup, count: nat)

  predicate LegsOk(legs: seq<Leg>) { forall i :: 0 <= i < |legs| ==> legs[i].u.Ok() }

  function HeadThrough(p: real, legs: seq<Leg>): real
    requires LegsOk(legs)
  {
    if legs == [] then p
    else HeadAfter(legs[|legs| - 1].u, HeadThrough(p, legs[..|legs| - 1]), legs[|legs| - 1].count)
  }

  function PulledThrough(p: real, legs: seq<Leg>): seq<Stereo>
    requires LegsOk(legs)
  {
    if legs == [] then []
    else
      PulledThrough(p, legs[..|legs| - 1])
      + Pulled(legs[|legs| - 1].u, HeadThrough(p, legs[..|legs| - 1]), legs[|legs| - 1].count)
  }

  /** The blocks of a run that pull, with what they pull. */
  function LegsOf(stretch: Stretch, s: Render, ps: seq<Piece>): (legs: seq<Leg>)
    requires PiecesOk(ps)
    ensures LegsOk(legs)
  {
    if ps == [] then []
    else
      LegsOf(stretch, s, ps[..|ps| - 1])
      + LegOf(ps[|ps| - 1].u, Run(stretch, s, ps[..|ps| - 1]).0, ps[|ps| - 1].n)
  }

  lemma OneMoreLeg(p: real, legs: seq<Leg>, leg: Leg)
    requires LegsOk(legs) && leg.u.Ok()
    ensures LegsOk(legs + [leg])
    ensures HeadThrough(p, legs + [leg]) == HeadAfter(leg.u, HeadThrough(p, legs), leg.count)
    ensures PulledThrough(p, legs + [leg]) == PulledThrough(p, legs) + Pulled(leg.u, HeadThrough(p, legs), leg.count)
  {
    assert (legs + [leg])[..|legs|] == legs;
  }

  /** The leg, if any, that a block adds. */
  function LegOf(u: Setup, s: Render, n: nat): seq<Leg>
    requires u.Ok()
  {
    if Renders(u, s, n) then [Leg(u, PullOf(u, s, n))] else []
  }

  /** From s0 to s1, the stream went through these legs. */
  ghost predicate Streamed(s0: Render, s1: Render, legs: seq<Leg>)
    requires LegsOk(legs)
  {
    Fed(s1.calls) == Fed(s0.calls) + PulledThrough(s0.Raw(), legs) && s1.Raw() == HeadThrough(s0.Raw(), legs)
  }

  lemma StreamsOn(s0: Render, s1: Render, legs: seq<Leg>, u: Setup, stretch: Stretch, n: nat)
    requires LegsOk(legs) && u.Ok() && Streamed(s0, s1, legs)
    ensures LegsOk(legs + LegOf(u, s1, n)) && Streamed(s0, Block(u, stretch, s1, n).0, legs + LegOf(u, s1, n))
  {
    if Renders(u, s1, n) {
      var leg := Leg(u, PullOf(u, s1, n));
      BlockPulls(u, stretch, s1, n);
      OneMoreLeg(s0.Raw(), legs, leg);
      assert LegOf(u, s1, n) == [leg];
    } else {
      assert legs + [] == legs;
    }
  }

  /** The raw head is continuous: whatever rate, loop, repeat or ratio does between blocks, and whatever the
      stretcher's latency, a run pulls one stream, each block going on where the last one stopped. */
  lemma {:induction false} RawHeadContinues(stretch: Stretch, s: Render, ps: seq<Piece>)
    requires PiecesOk(ps)
    ensures Streamed(s, Run(stretch, s, ps).0, LegsOf(stretch, s, ps))
    decreases |ps|
  {
    if ps == [] {
      assert Fed(s.calls) + [] == Fed(s.calls);
    } else {
      var prev, last := ps[..|ps| - 1], ps[|ps| - 1];
      RawHeadContinues(stretch, s, prev);
      StreamsOn(s, Run(stretch, s, prev).0, LegsOf(stretch, s, prev), last.u, stretch, last.n);
      RunLast(stretch, s, ps);
    }
  }

  function Counted(legs: seq<Leg>): nat {
    if legs == [] then 0 else Counted(legs[..|legs| - 1]) + legs[|legs| - 1].count
  }

  /** Under one set of parameters, legs are just a split. */
  lemma {:induction false} OneSetup(u: Setup, p: real, legs: seq<Leg>)
    requires u.Ok() && forall i :: 0 <= i < |legs| ==> legs[i].u == u
    ensures HeadThrough(p, legs) == HeadAfter(u, p, Counted(legs))
    ensures PulledThrough(p, legs) == Pulled(u, p, Counted(legs))
    decreases |legs|
  {
    if legs != [] {
      OneSetup(u, p, legs[..|legs| - 1]);
      PullSplit(u, p, Counted(legs[..|legs| - 1]), legs[|legs| - 1].count);
    }
  }

  lemma {:induction false} LegsHaveSetups(stretch: Stretch, s: Render, ps: seq<Piece>, u: Setup)
    requires PiecesOk(ps) && forall i :: 0 <= i < |ps| ==> ps[i].u == u
    ensures forall i :: 0 <= i < |LegsOf(stretch, s, ps)| ==> LegsOf(stretch, s, ps)[i].u == u
    decreases |ps|
  {
    if ps != [] { LegsHaveSetups(stretch, s, ps[..|ps| - 1], u); }
  }

  /** Block-split independence: while parameters stay, however rendering is split into blocks, the frames pulled are
      those of one uninterrupted pull, and the raw head ends where that pull ends. */
  lemma SplitIndependence(u: Setup, stretch: Stretch, s: Render, ps: seq<Piece>) returns (total: nat)
    requires u.Ok() && forall i :: 0 <= i < |ps| ==> ps[i].u == u
    ensures var s' := Run(stretch, s, ps).0;
      && Fed(s'.calls) == Fed(s.calls) + Pulled(u, s.Raw(), total)
      && s'.Raw() == HeadAfter(u, s.Raw(), total)
  {
    RawHeadContinues(stretch, s, ps);
    LegsHaveSetups(stretch, s, ps, u);
    OneSetup(u, s.Raw(), LegsOf(stretch, s, ps));
    total := Counted(LegsOf(stretch, s, ps));
  }

  // ---------------------------------------------------------------- capacity and tempo of a run

  function CapacityFor(samplesPerBlock: nat): nat {
    (if samplesPerBlock > 512 then samplesPerBlock else 512) * 4 + 4096
  }

  /** For blocks no larger than announced and rates within range, the capacity never limits the pull. */
  lemma CapacityNeverBinds(u: Setup, s: Render, n: nat, samplesPerBlock: nat)
    requires u.capacity == CapacityFor(samplesPerBlock) && n <= samplesPerBlock
    requires ValidRate(u.rate) && s.carry < 1.0
    ensures PullOf(u, s, n) == Quota(s.carry, Times(n as real, u.rate)).0
  {
    if n > 0 { TimesOrderLeft(n as real, u.rate, 2.0); } else { TimesOne(u.rate); }
  }

  lemma TimesOrderLeft(a: real, x: real, y: real)
    requires a > 0.0 && x <= y
    ensures Times(a, x) <= Times(a, y)
  {
    if x < y { TimesOrder(x, y, a); }
    TimesAssoc(a, x, 1.0);
    TimesAssoc(a, y, 1.0);
  }

  /** What each block is due: its length at the rate it finds. */
  function Dues(ps: seq<Piece>): (dues: seq<real>)
    ensures |dues| == |ps|
    ensures forall i :: 0 <= i < |ps| ==> dues[i] == Times(ps[i].n as real, ps[i].u.rate)
  {
    seq(|ps|, i requires 0 <= i < |ps| => Times(ps[i].n as real, ps[i].u.rate))
  }

  /** A block as the device announced it, of a track, at a rate within range. */
  ghost predicate Announced(p: Piece, samplesPerBlock: nat) {
    && p.u.Ok() && p.u.audio.Frames() > 0 && p.u.capacity == CapacityFor(samplesPerBlock)
    && ValidRate(p.u.rate) && 0 < p.n <= samplesPerBlock
  }

  ghost predicate AllAnnounced(ps: seq<Piece>, samplesPerBlock: nat) {
    forall i :: 0 <= i < |ps| ==> Announced(ps[i], samplesPerBlock)
  }

  /** The source is still playing when the last of the blocks begins. */
  ghost predicate PlaysInto(stretch: Stretch, s: Render, ps: seq<Piece>)
    requires PiecesOk(ps)
  {
    |ps| > 0 ==> Run(stretch, s, ps[..|ps| - 1]).0.playing
  }

  /** On every run that plays into its last block, at rates that may change from block to block, the frames pulled and
      the carry are those of the tempo arithmetic. */
  lemma {:induction false} RunPulls(stretch: Stretch, s: Render, ps: seq<Piece>, samplesPerBlock: nat)
    requires AllAnnounced(ps, samplesPerBlock) && PiecesOk(ps) && PlaysInto(stretch, s, ps)
    requires s.carry == 0.0 && s.calls == []
    ensures var s' := Run(stretch, s, ps).0;
      |Fed(s'.calls)| == TotalPulls(Dues(ps)) && s'.carry == CarryAfter(Dues(ps))
    decreases |ps|
  {
    if ps != [] {
      var prev, last := ps[..|ps| - 1], ps[|ps| - 1];
      assert Dues(ps)[..|ps| - 1] == Dues(prev);
      if prev != [] { StillPlaying(stretch, s, prev); }
      RunPulls(stretch, s, prev, samplesPerBlock);
      var s1 := Run(stretch, s, prev).0;
      Conserved(Dues(prev));
      assert Announced(last, samplesPerBlock);
      CapacityNeverBinds(last.u, s1, last.n, samplesPerBlock);
      BlockPulls(last.u, stretch, s1, last.n);
      RunLast(stretch, s, ps);
    }
  }

  lemma StillPlaying(stretch: Stretch, s: Render, ps: seq<Piece>)
    requires PiecesOk(ps) && ps != [] && Run(stretch, s, ps).0.playing
    ensures Run(stretch, s, ps[..|ps| - 1]).0.playing
  {}

  /** What a fresh run of these blocks has fed the stretcher is the whole part of what was due. */
  ghost predicate InTempo(stretch: Stretch, s: Render, ps: seq<Piece>)
    requires PiecesOk(ps)
  {
    |Fed(Run(stretch, s, ps).0.calls)| == Sum(Dues(ps)).Floor
  }

  /** No tempo drift, end to end: on a run that plays into its last block, the frames pulled by each prefix of the blocks
      are floor(sum of n_i * rate_i), exactly when every block brings that sum past another whole number. */
  lemma RunKeepsTempo(stretch: Stretch, s: Render, ps: seq<Piece>, samplesPerBlock: nat)
    requires AllAnnounced(ps, samplesPerBlock) && PiecesOk(ps) && PlaysInto(stretch, s, ps)
    requires s.carry == 0.0 && s.calls == []
    ensures (forall i :: 0 <= i <= |ps| ==> InTempo(stretch, s, ps[..i])) <==> AlwaysAdvances(Dues(ps))
  {
    TempoExact(Dues(ps));
    forall i | 0 <= i <= |ps| ensures InTempo(stretch, s, ps[..i]) <==> OnTempo(Dues(ps)[..i]) {
      PlayedInto(stretch, s, ps, i);
      RunPulls(stretch, s, ps[..i], samplesPerBlock);
      assert Dues(ps)[..i] == Dues(ps[..i]);
    }
  }

  lemma {:induction false} PlayedInto(stretch: Stretch, s: Render, ps: seq<Piece>, i: nat)
    requires PiecesOk(ps) && PlaysInto(stretch, s, ps) && i <= |ps|
    ensures PlaysInto(stretch, s, ps[..i])
    decreases |ps|
  {
    if i == |ps| {
      assert ps[..i] == ps;
    } else {
      var prev := ps[..|ps| - 1];
      if prev != [] { StillPlaying(stretch, s, prev); }
      PlayedInto(stretch, s, prev, i);
      assert prev[..i] == ps[..i];
    }
  }

  /** In particular blocks that are each due at least a frame never drift. */
  lemma FullRunKeepsTempo(stretch: Stretch, s: Render, ps: seq<Piece>, samplesPerBlock: nat)
    requires AllAnnounced(ps, samplesPerBlock) && PiecesOk(ps) && PlaysInto(stretch, s, ps)
    requires s.carry == 0.0 && s.calls == []
    requires forall i :: 0 <= i < |ps| ==> Times(ps[i].n as real, ps[i].u.rate) >= 1.0
    ensures InTempo(stretch, s, ps)
  {
    RunPulls(stretch, s, ps, samplesPerBlock);
    FullBlocksKeepTempo(Dues(ps));
  }

  /** Two one-frame blocks at half speed pull one frame each, twice what is due. */
  lemma TinyBlocksDrift(stretch: Stretch, s: Render, p: Piece, samplesPerBlock: nat)
    requires Announced(p, samplesPerBlock) && p.n == 1 && p.u.rate == 0.5
    requires s.carry == 0.0 && s.calls == [] && s.playing && Block(p.u, stretch, s, 1).0.playing
    ensures |Fed(Run(stretch, s, [p, p]).0.calls)| == 2 && Sum(Dues([p, p])) == 1.0
    ensures !InTempo(stretch, s, [p, p])
  {
    var ps := [p, p];
    assert ps[..1] == [p] && [p][..0] == [];
    RunLast(stretch, s, [p]);
    RunPulls(stretch, s, ps, samplesPerBlock);
    var dues := Dues(ps);
    assert dues[..1] == Dues([p]) && Dues([p])[..0] == [];
    assert TotalPulls(Dues([p])) == 1 && CarryAfter(Dues([p])) == -0.5 && Sum(Dues([p])) == 0.5;
  }

  // ---------------------------------------------------------------- the tail

  function Frames(ps: seq<Piece>): nat {
    if ps == [] then 0 else Frames(ps[..|ps| - 1]) + ps[|ps| - 1].n
  }

  /** Block i of the run, if it renders at all, runs dry. */
  ghost predicate DryAt(stretch: Stretch, s: Render, ps: seq<Piece>, i: nat)
    requires PiecesOk(ps) && i < |ps|
  {
    var s1 := Run(stretch, s, ps[..i]).0;
    s1.playing ==>
      Renders(ps[i].u, s1, ps[i].n) && RanDry(ps[i].u, s1.Raw(), PullOf(ps[i].u, s1, ps[i].n))
  }

  /** The tail is bounded: while every block runs dry, whatever else changes between them, the source stops itself in
      the first block by whose end more output frames than the stretcher's latency have been rendered, and not
      before. */
  lemma {:induction false} SelfStop(stretch: Stretch, s: Render, ps: seq<Piece>)
    requires PiecesOk(ps) && s.playing && s.drain == 0 && |ps| > 0
    requires forall i :: 0 <= i < |ps| ==> DryAt(stretch, s, ps, i)
    ensures var s' := Run(stretch, s, ps).0;
      && (s'.playing <==> Frames(ps) <= s.latency)
      && (s'.playing ==> s'.drain == s.latency + 1 - Frames(ps))
      && s'.latency == s.latency
    decreases |ps|
  {
    var prev := ps[..|ps| - 1];
    assert DryAt(stretch, s, ps, |ps| - 1);
    RunLast(stretch, s, ps);
    if prev == [] {
      assert Frames(prev) == 0;
    } else {
      forall i | 0 <= i < |prev| ensures DryAt(stretch, s, prev, i) {
        assert DryAt(stretch, s, ps, i) && prev[..i] == ps[..i];
      }
      SelfStop(stretch, s, prev);
    }
  }

  /** While parameters stay, one dry block makes a tail: every later block runs dry too. */
  lemma {:induction false} DryTail(u: Setup, stretch: Stretch, s: Render, ps: seq<Piece>, i: nat)
    requires PiecesOk(ps) && i < |ps| && forall j :: 0 <= j < |ps| ==> ps[j].u == u && 0 < ps[j].n <= u.capacity
    requires u.Ok() && u.audio.Frames() > 0 && s.playing && RanDry(u, s.Raw(), PullOf(u, s, ps[0].n))
    ensures DryAt(stretch, s, ps, i)
    ensures var s1 := Run(stretch, s, ps[..i + 1]).0; s1.playing ==> Dry(u, Wrap(u, s1.Raw()))
    decreases i
  {
    var s1 := Run(stretch, s, ps[..i]).0;
    assert ps[..i + 1][..i] == ps[..i];
    RunLast(stretch, s, ps[..i + 1]);
    if i == 0 {
      assert ps[..0] == [];
      if Renders(u, s1, ps[0].n) {
        BlockPulls(u, stretch, s, ps[0].n);
        RanDryStays(u, s.Raw(), PullOf(u, s, ps[0].n));
      }
    } else {
      DryTail(u, stretch, s, ps, i - 1);
      if s1.playing {
        BlockPulls(u, stretch, s1, ps[i].n);
        DryRuns(u, s1.Raw(), PullOf(u, s1, ps[i].n));
      }
    }
  }

  /** So, once a block has run dry and parameters stay, the source plays on for exactly as long as its blocks hold no
      more than the latency. */
  lemma TailStops(u: Setup, stretch: Stretch, s: Render, ps: seq<Piece>)
    requires PiecesOk(ps) && |ps| > 0 && forall j :: 0 <= j < |ps| ==> ps[j].u == u && 0 < ps[j].n <= u.capacity
    requires u.Ok() && u.audio.Frames() > 0 && s.playing && s.drain == 0
    requires RanDry(u, s.Raw(), PullOf(u, s, ps[0].n))
    ensures Run(stretch, s, ps).0.playing <==> Frames(ps) <= s.latency
  {
    forall i | 0 <= i < |ps| ensures DryAt(stretch, s, ps, i) { DryTail(u, stretch, s, ps, i); }
    SelfStop(stretch, s, ps);
  }

  lemma RanDryStays(u: Setup, p: real, k: nat)
    requires u.Ok() && RanDry(u, p, k)
    ensures Dry(u, Wrap(u, HeadAfter(u, p, k)))
  {
    DryFrom(u, p, k - 1, k);
  }

  lemma DryRuns(u: Setup, p: real, k: nat)
    requires u.Ok() && Dry(u, Wrap(u, p)) && k > 0
    ensures RanDry(u, p, k) && Dry(u, Wrap(u, HeadAfter(u, p, k)))
  {
    DryFrom(u, p, 0, k);
  }
}
