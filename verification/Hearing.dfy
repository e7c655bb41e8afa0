/** What of a track is heard when: where in it each pulled frame is read, in frames and in seconds, where playback ends,
    and how the published position follows what comes out of the stretcher. */
module Hearing {
  import opened Playback
  import opened RealMath
  import opened Engine

  // ---------------------------------------------------------------- interpolation

  /** A signal that is a straight line between two frames is read as that line, whatever the line. */
  lemma LinesAreKept(samples: seq<real>, w: real, a: real, b: real)
    requires 0.0 <= w < (|samples| - 1) as real
    requires samples[w.Floor] == a + Times(b, w.Floor as real)
    requires samples[w.Floor + 1] == a + Times(b, (w.Floor + 1) as real)
    ensures Between(samples, w) == a + Times(b, w)
  {
    var i := w.Floor as real;
    TimesAssoc(b, i, 1.0);
    TimesAssoc(b, i + 1.0, 1.0);
    TimesAssoc(b, w, 1.0);
    TimesAssoc(w - i, b, 1.0);
    TimesAdd(i, 1.0, b);
    TimesOne(b);
    TimesAdd(w, i, b);
    assert samples[w.Floor + 1] - samples[w.Floor] == b;
  }

  /** The left side hears the first channel, the right side the second, or the only one. */
  lemma SidesHeard(audio: Audio)
    requires audio.Ok()
    ensures audio.Side(0) == audio.channels[0]
    ensures audio.Side(1) == if |audio.channels| == 1 then audio.channels[0] else audio.channels[1]
  {}

  // ---------------------------------------------------------------- positions in frames

  /** A wrapped position is the position less a whole number of turns, none before the first end of the range. */
  lemma WrapTurns(x: real, lo: real, hi: real) returns (turns: nat)
    requires hi > lo && x >= 0.0
    ensures WrapRange(x, lo, hi) == x - Times(turns as real, hi - lo)
    ensures x < hi ==> turns == 0
    ensures x >= hi ==> lo <= WrapRange(x, lo, hi) < hi
  {
    TimesOne(hi - lo);
    if x >= hi {
      FmodIsMod(x - lo, hi - lo);
      TimesOrder(-1.0, Whole(x - lo, hi - lo) as real, hi - lo);
      WholeBounds(x - lo, hi - lo);
      turns := Whole(x - lo, hi - lo);
    } else {
      turns := 0;
    }
  }

  /** Under a loop or repeat, frame k is read at p + k * ratio less whole turns of the loop, or of the track. */
  lemma ReadAt(u: Setup, p: real, k: nat) returns (turns: nat)
    requires u.Ok() && (Looping(u) || Repeating(u)) && p >= 0.0
    ensures var turn := if Looping(u) then u.loop.value.hi - u.loop.value.lo else (u.audio.Frames() - 1) as real;
      && Wrap(u, HeadAfter(u, p, k)) == p + Times(k as real, u.ratio) - Times(turns as real, turn)
      && 0.0 <= Wrap(u, HeadAfter(u, p, k)) < (u.audio.Frames() - 1) as real
      && (p + Times(k as real, u.ratio) < (if Looping(u) then u.loop.value.hi else (u.audio.Frames() - 1) as real) ==>
            turns == 0)
  {
    ClosedForm(u, p, k);
    NeverDry(u, p, k);
    OneWrap(u, HeadAfter(u, p, k));
    Ahead(p, k, u.ratio);
    turns := WrapTurns(p + Times(k as real, u.ratio), Bounds(u).lo, Bounds(u).hi);
  }

  lemma Ahead(p: real, k: nat, ratio: real)
    requires ratio >= 0.0
    ensures p + Times(k as real, ratio) >= p
  {
    TimesAssoc(k as real, ratio, 1.0);
    if ratio > 0.0 { TimesSign(k as real, ratio); TimesOne(ratio); } else { TimesOne(k as real); }
  }

  lemma OneFurther(k: nat, ratio: real)
    ensures Times((k + 1) as real, ratio) == Times(k as real, ratio) + ratio
  {
    TimesAdd(k as real, 1.0, ratio);
    TimesOne(ratio);
  }

  /** Nothing wraps up to the end of the track. */
  predicate Straight(u: Setup) {
    !u.repeat && (u.loop.None? || u.loop.value.hi <= u.loop.value.lo)
  }

  lemma {:induction false} StraightHead(u: Setup, p: real, k: nat)
    requires u.Ok() && Straight(u) && p >= 0.0
    ensures var x := p + Times(k as real, u.ratio);
      && (x < (u.audio.Frames() - 1) as real ==> HeadAfter(u, p, k) == x)
      && (x >= (u.audio.Frames() - 1) as real ==> HeadAfter(u, p, k) >= (u.audio.Frames() - 1) as real)
      && HeadAfter(u, p, k) >= 0.0
  {
    TimesOne(u.ratio);
    if k > 0 {
      OneFurther(k - 1, u.ratio);
      StraightHead(u, p, k - 1);
      Ahead(p, k - 1, u.ratio);
    }
  }

  lemma StraightRead(u: Setup, x: real)
    requires u.Ok() && Straight(u) && x >= 0.0
    ensures Wrap(u, x) == x
    ensures Dry(u, x) <==> x >= (u.audio.Frames() - 1) as real
    ensures FrameAt(u, x) == if x < (u.audio.Frames() - 1) as real
                             then Stereo(Between(u.audio.Side(0), x), Between(u.audio.Side(1), x)) else SILENCE
  {}

  /** Without loop and repeat, frame k is read at p + k * ratio as long as that is before the last frame of the track,
      and is silence from there on: the whole track is heard, once. */
  lemma PlaysToTheEnd(u: Setup, p: real, k: nat)
    requires u.Ok() && Straight(u) && p >= 0.0
    ensures var x := p + Times(k as real, u.ratio);
      FrameAt(u, HeadAfter(u, p, k))
      == if 0.0 <= x < (u.audio.Frames() - 1) as real
         then Stereo(Between(u.audio.Side(0), x), Between(u.audio.Side(1), x)) else SILENCE
  {
    Ahead(p, k, u.ratio);
    StraightHead(u, p, k);
    StraightRead(u, HeadAfter(u, p, k));
  }

  /** And a pull runs dry exactly if its last frame would have been read there. */
  lemma EndsWhenOver(u: Setup, p: real, k: nat)
    requires u.Ok() && Straight(u) && p >= 0.0 && k > 0
    ensures RanDry(u, p, k) <==> p + Times((k - 1) as real, u.ratio) >= (u.audio.Frames() - 1) as real
  {
    Ahead(p, k - 1, u.ratio);
    StraightHead(u, p, k - 1);
    StraightRead(u, HeadAfter(u, p, k - 1));
  }

  /** A head before the start of the track hears nothing. */
  lemma BeforeTheStart(u: Setup, p: real)
    requires u.Ok() && p < 0.0 && u.audio.Frames() > 0 && (u.loop.Some? ==> u.loop.value.lo >= 0.0)
    ensures FrameAt(u, p) == Stereo(0.0, 0.0) && Next(u, p) == p
  {}

  // ---------------------------------------------------------------- positions in seconds

  /** The head moves sampleRate / deviceRate source frames per frame of the device. */
  ghost predicate Converts(u: Setup, deviceRate: real) {
    deviceRate > 0.0 && u.audio.sampleRate > 0.0 && Times(u.ratio, deviceRate) == u.audio.sampleRate
  }

  /** A second of device time is a second of audio: t seconds of pulled frames, at the device's rate, move the head by t
      seconds of the track, at its own. */
  lemma SecondsForSeconds(u: Setup, deviceRate: real, k: nat, t: real)
    requires Converts(u, deviceRate) && k as real == Times(t, deviceRate)
    ensures Times(k as real, u.ratio) == Times(t, u.audio.sampleRate)
  {
    TimesAssoc(t, deviceRate, u.ratio);
    TimesAssoc(u.ratio, deviceRate, 1.0);
  }

  /** Under a loop or repeat, after t seconds of pulled frames the head reads the track t seconds further on, less whole
      turns. */
  lemma ReadAfter(u: Setup, deviceRate: real, p: real, k: nat, t: real) returns (turns: nat)
    requires u.Ok() && (Looping(u) || Repeating(u)) && p >= 0.0
    requires Converts(u, deviceRate) && k as real == Times(t, deviceRate)
    ensures var turn := if Looping(u) then u.loop.value.hi - u.loop.value.lo else (u.audio.Frames() - 1) as real;
      && Wrap(u, HeadAfter(u, p, k)) == p + Times(t, u.audio.sampleRate) - Times(turns as real, turn)
      && 0.0 <= Wrap(u, HeadAfter(u, p, k)) < (u.audio.Frames() - 1) as real
  {
    SecondsForSeconds(u, deviceRate, k, t);
    turns := ReadAt(u, p, k);
  }

  // ---------------------------------------------------------------- blocks

  /** A source that is not playing, or a block larger than announced, is silent and moves nothing; an empty track
      stops. */
  lemma SilentBlocks(u: Setup, stretch: Stretch, s: Render, n: nat)
    requires u.Ok()
    ensures !s.playing ==> Block(u, stretch, s, n) == (s, seq(n, _ => Stereo(0.0, 0.0)))
    ensures u.audio.Frames() > 0 && (n == 0 || n > u.capacity) ==>
      Block(u, stretch, s, n) == (s, seq(n, _ => Stereo(0.0, 0.0)))
    ensures u.audio.Frames() == 0 ==>
      Block(u, stretch, s, n) == (s.(playing := false), seq(n, _ => Stereo(0.0, 0.0)))
  {
    assert Silent(n) == seq(n, _ => Stereo(0.0, 0.0));
  }

  /** A rendered block asks the stretcher once, for its own length and at its own pitch, and what that returns is heard
      at its own gain; the position published with it is the raw head less what the stretcher still holds back. */
  lemma RenderedBlock(u: Setup, stretch: Stretch, s: Render, n: nat)
    requires u.Ok() && Renders(u, s, n)
    ensures var (s', out) := Block(u, stretch, s, n);
      && |s'.calls| == |s.calls| + 1 && s'.calls[..|s.calls|] == s.calls
      && var call := s'.calls[|s.calls|];
         && call.numOutput == n && call.pitch == u.pitch && |call.input| >= 1
         && |out| == |stretch(s.calls, call)|
         && forall i :: 0 <= i < |out| ==>
              out[i] == Stereo(Times(stretch(s.calls, call)[i].left, u.gain),
                               Times(stretch(s.calls, call)[i].right, u.gain))
    ensures Block(u, stretch, s, n).0.latency == s.latency && Block(u, stretch, s, n).0.produced == s.produced + n
  {}

  /** A block that finds audio to its end keeps the source playing and calls off a tail that had begun. */
  lemma AudioAgain(u: Setup, stretch: Stretch, s: Render, n: nat)
    requires u.Ok() && Renders(u, s, n) && !RanDry(u, s.Raw(), PullOf(u, s, n))
    ensures var s' := Block(u, stretch, s, n).0; s'.playing && s'.drain == 0
  {}

  // ---------------------------------------------------------------- resets and seeks

  /** A reset, and only a reset, drops what the stretcher holds back: the head goes on from where the sound was, at no
      lag. A seek puts the published position where it was asked for; the head is then ahead of that by what the stretcher
      still holds back, unless it was reset. Neither starts or stops playback. */
  lemma WhereABlockBegins(s: Render, reset: bool, latency: nat, seek: Option<real>)
    ensures var b := Begin(s, reset, latency, seek);
      && b.position == (if seek.Some? then seek.value else s.position)
      && b.Raw() == b.position + (if reset then 0.0 else s.Raw() - s.position)
      && b.playing == s.playing
      && (reset ==> b.calls == [] && b.carry == 0.0 && b.produced == 0 && b.drain == 0 && b.latency == latency)
      && (!reset ==> b.calls == s.calls && b.carry == s.carry && b.produced == s.produced && b.drain == s.drain
                     && b.latency == s.latency)
  {}

  // ---------------------------------------------------------------- the published position

  /** Nothing has wrapped or run out before k frames are pulled from p. */
  predicate WithinTrack(u: Setup, p: real, k: nat)
    requires u.Ok()
  {
    var x := p + Times(k as real, u.ratio);
    p >= 0.0 && x < u.Last() && (u.loop.Some? && u.loop.value.hi > u.loop.value.lo ==> x < u.loop.value.hi)
  }

  lemma {:induction false} HeadWithinTrack(u: Setup, p: real, k: nat)
    requires u.Ok() && WithinTrack(u, p, k)
    ensures HeadAfter(u, p, k) == p + Times(k as real, u.ratio)
  {
    TimesOne(u.ratio);
    if k > 0 {
      OneFurther(k - 1, u.ratio);
      Ahead(p, k - 1, u.ratio);
      HeadWithinTrack(u, p, k - 1);
    }
  }

  /** All blocks have these parameters. */
  ghost predicate Constant(ps: seq<Piece>, u: Setup) { forall i :: 0 <= i < |ps| ==> ps[i].u == u }

  /** What a run of announced blocks has rendered, and what it holds back. */
  lemma {:induction false} RunProduces(
    u: Setup, stretch: Stretch, s: Render, ps: seq<Piece>, samplesPerBlock: nat)
    requires AllAnnounced(ps, samplesPerBlock) && PiecesOk(ps) && PlaysInto(stretch, s, ps) && Constant(ps, u)
    ensures var s' := Run(stretch, s, ps).0;
      s'.produced == s.produced + Engine.Frames(ps) && s'.latency == s.latency
    ensures ps != [] ==> var s' := Run(stretch, s, ps).0;
      s'.lagged == Times(Times((if s'.produced < s.latency then s'.produced else s.latency) as real, u.rate), u.ratio)
    decreases |ps|
  {
    if ps != [] {
      var prev, last := ps[..|ps| - 1], ps[|ps| - 1];
      if prev != [] { StillPlaying(stretch, s, prev); }
      RunProduces(u, stretch, s, prev, samplesPerBlock);
      assert Announced(last, samplesPerBlock) && last.u == u;
      RunLast(stretch, s, ps);
    }
  }

  lemma {:induction false} ConstantDues(u: Setup, ps: seq<Piece>)
    requires Constant(ps, u)
    ensures Sum(Dues(ps)) == Times(Engine.Frames(ps) as real, u.rate)
    decreases |ps|
  {
    TimesOne(u.rate);
    if ps != [] {
      var prev, n := ps[..|ps| - 1], ps[|ps| - 1].n;
      ConstantDues(u, prev);
      assert Dues(ps)[..|ps| - 1] == Dues(prev);
      TimesAdd(Engine.Frames(prev) as real, n as real, u.rate);
    }
  }

  /** What a fresh source has pulled after these blocks. */
  lemma PulledBy(u: Setup, stretch: Stretch, s: Render, ps: seq<Piece>, samplesPerBlock: nat)
    returns (pulls: nat)
    requires AllAnnounced(ps, samplesPerBlock) && PiecesOk(ps) && PlaysInto(stretch, s, ps) && Constant(ps, u)
    requires u.Ok() && s.carry == 0.0 && s.calls == []
    ensures Run(stretch, s, ps).0.Raw() == HeadAfter(u, s.Raw(), pulls)
    ensures pulls as real + Run(stretch, s, ps).0.carry == Times(Engine.Frames(ps) as real, u.rate)
    ensures Run(stretch, s, ps).0.carry < 1.0
  {
    pulls := SplitIndependence(u, stretch, s, ps);
    RunPulls(stretch, s, ps, samplesPerBlock);
    assert Fed(s.calls) + Pulled(u, s.Raw(), pulls) == Pulled(u, s.Raw(), pulls);
    Conserved(Dues(ps));
    ConstantDues(u, ps);
  }

  /** The published position follows what is heard: from a fresh start at p, as long as nothing wraps or runs out, it is
      where the rate takes p in the output frames rendered beyond the stretcher's latency, short only of the fraction of
      a frame still carried, which is less than one. So it stays at the start until the stretcher delivers, and from
      then on moves with what is heard and not ahead of it. */
  lemma PositionIsHeard(
    u: Setup, stretch: Stretch, s: Render, ps: seq<Piece>, samplesPerBlock: nat) returns (pulls: nat)
    requires AllAnnounced(ps, samplesPerBlock) && PiecesOk(ps) && PlaysInto(stretch, s, ps) && Constant(ps, u)
    requires u.Ok() && s.carry == 0.0 && s.calls == [] && s.produced == 0 && s.lagged == 0.0 && ps != []
    ensures var s' := Run(stretch, s, ps).0;
      var frames := Engine.Frames(ps);
      var heard := if frames <= s.latency then 0 else frames - s.latency;
      && pulls as real + s'.carry == Times(frames as real, u.rate) && s'.carry < 1.0
      && (WithinTrack(u, s.position, pulls) ==>
            s'.position == s.position + Times(Times(heard as real, u.rate) - s'.carry, u.ratio))
  {
    pulls := PulledBy(u, stretch, s, ps, samplesPerBlock);
    RunProduces(u, stretch, s, ps, samplesPerBlock);
    var s' := Run(stretch, s, ps).0;
    var frames := Engine.Frames(ps);
    if WithinTrack(u, s.position, pulls) {
      HeadWithinTrack(u, s.position, pulls);
      var held := if frames < s.latency then frames else s.latency;
      var heard := frames - held;
      TimesAdd(frames as real, held as real, u.rate);
      TimesAdd(pulls as real, Times(held as real, u.rate), u.ratio);
      assert pulls as real - Times(held as real, u.rate) == Times(heard as real, u.rate) - s'.carry;
    }
  }
}
