/** The identity stretcher of client/src/engine/IdentityTimeStretcher.cpp, and what playing a repeated track
    through it at unit rate sounds like. */
module Stretching {
  import opened Playback
  import opened RealMath
  import opened Engine
  import opened Hearing

  /** Linear interpolation at a position within the input; past the last frame, that frame is held. */
  function ResampleAt(input: seq<Stereo>, pos: real): Stereo
    requires |input| > 0
  {
    var i := if pos.Floor < 0 then 0 else if pos.Floor > |input| - 1 then |input| - 1 else pos.Floor;
    var j := if i + 1 < |input| then i + 1 else |input| - 1;
    var f := pos - pos.Floor as real;
    Stereo(input[i].left + Times(f, input[j].left - input[i].left),
           input[i].right + Times(f, input[j].right - input[i].right))
  }

  /** An input that is a straight line between two frames is read as that line, on either side. */
  lemma ResampledLine(input: seq<Stereo>, pos: real, a: Stereo, b: Stereo)
    requires 0.0 <= pos < (|input| - 1) as real
    requires forall i :: i == pos.Floor || i == pos.Floor + 1 ==>
      input[i] == Stereo(a.left + Times(b.left, i as real), a.right + Times(b.right, i as real))
    ensures ResampleAt(input, pos) == Stereo(a.left + Times(b.left, pos), a.right + Times(b.right, pos))
  {
    var lefts := seq(|input|, i requires 0 <= i < |input| => input[i].left);
    var rights := seq(|input|, i requires 0 <= i < |input| => input[i].right);
    LinesAreKept(lefts, pos, a.left, b.left);
    LinesAreKept(rights, pos, a.right, b.right);
  }

  /** Past its last frame, an input is held. */
  lemma ResampledEnd(input: seq<Stereo>, pos: real)
    requires |input| > 0 && pos >= (|input| - 1) as real
    ensures ResampleAt(input, pos) == input[|input| - 1]
  {
    TimesOne(0.0);
    TimesAssoc(pos - pos.Floor as real, 0.0, 1.0);
    TimesOne(pos - pos.Floor as real);
  }

  function Resampled(input: seq<Stereo>, from: real, n: nat): (s: seq<Stereo>)
    requires |input| > 0 && n > 0
    ensures |s| == n
    ensures forall o :: 0 <= o < n ==> s[o] == ResampleAt(input, from + Times(o as real, |input| as real / n as real))
  {
    seq(n, o requires 0 <= o < n => ResampleAt(input, from + Times(o as real, |input| as real / n as real)))
  }

  class IdentityTimeStretcher {
    var readPos: real

    constructor ()
      ensures readPos == 0.0
    {
      readPos := 0.0;
    }

    method Reset()
      modifies this
      ensures readPos == 0.0
    {
      readPos := 0.0;
    }

    /** Spreads the input over the output; the read position, rebased to the next input, is where it was. */
    method Process(input: array<Stereo>, numInput: nat, output: array<Stereo>, numOutput: nat)
      requires numInput <= input.Length && numOutput <= output.Length && input != output
      modifies this, output
      ensures readPos == old(readPos)
      ensures output[numOutput..] == old(output[numOutput..])
      ensures numInput == 0 || numOutput == 0 ==> output[..] == old(output[..])
      ensures numInput > 0 && numOutput > 0 ==>
        output[..numOutput] == Resampled(input[..numInput], readPos, numOutput)
    {
      if numInput == 0 || numOutput == 0 { return; }
      var step := numInput as real / numOutput as real;
      var posBefore := readPos;
      ghost var inputs := input[..numInput];
      for o := 0 to numOutput
        invariant output[numOutput..] == old(output[numOutput..]) && input[..numInput] == inputs
        invariant forall k :: 0 <= k < o ==> output[k] == ResampleAt(inputs, posBefore + Times(k as real, step))
      {
        var pos := posBefore + Times(o as real, step);
        var index0 := if pos.Floor < 0 then 0 else if pos.Floor > numInput - 1 then numInput - 1 else pos.Floor;
        var index1 := if index0 + 1 < numInput then index0 + 1 else numInput - 1;
        var frac := pos - pos.Floor as real;
        output[o] := Stereo(
          input[index0].left + Times(frac, input[index1].left - input[index0].left),
          input[index0].right + Times(frac, input[index1].right - input[index0].right));
      }
      TimesDiv(numInput as real, numOutput as real);
      TimesAssoc(numOutput as real, step, 1.0);
      readPos := posBefore + Times(numOutput as real, step) - numInput as real;
    }
  }

  /** As a stretcher that was reset, its read position stays at zero and past calls do not matter. */
  const IDENTITY: Stretch := (_: seq<Call>, call: Call) =>
    if |call.input| == 0 || call.numOutput == 0 then Silent(call.numOutput)
    else Resampled(call.input, 0.0, call.numOutput)

  /** Given as many frames as it must return, the stretcher returns those. */
  ghost predicate Copies(stretch: Stretch) {
    forall calls, input, pitch :: |input| > 0 ==> stretch(calls, Call(input, |input|, pitch)) == input
  }

  lemma IdentityCopies()
    ensures Copies(IDENTITY)
  {
    forall calls, input: seq<Stereo>, pitch | |input| > 0 ensures IDENTITY(calls, Call(input, |input|, pitch)) == input {
      ResampledInPlace(input);
    }
  }

  lemma ResampledInPlace(input: seq<Stereo>)
    requires |input| > 0
    ensures Resampled(input, 0.0, |input|) == input
  {
    forall o | 0 <= o < |input| ensures ResampleAt(input, Times(o as real, 1.0)) == input[o] {
      TimesOne(o as real);
      Nothing(input[o], if o + 1 < |input| then input[o + 1] else input[o]);
    }
    assert |input| as real / |input| as real == 1.0;
  }

  lemma Nothing(a: Stereo, b: Stereo)
    ensures Times(0.0, b.left - a.left) == 0.0 && Times(0.0, b.right - a.right) == 0.0
  {
    TimesOne(b.left - a.left);
    TimesOne(b.right - a.right);
  }

  // ---------------------------------------------------------------- unit-rate playback

  /** Nothing is converted: one source frame is one device frame is one output frame. */
  ghost predicate Plain(u: Setup)
    requires u.Ok()
  {
    u.rate == 1.0 && u.ratio == 1.0 && u.repeat && u.loop.None? && u.audio.Frames() >= 2
  }

  lemma WholeWrap(x: nat, m: nat)
    requires m > 0
    ensures WrapRange(x as real, 0.0, m as real) == (x % m) as real
  {
    var q := x / m;
    assert x == q * m + x % m;
    TimesInt(q, m);
    if x >= m {
      FmodIsMod(x as real, m as real);
      ModUnique(x as real, m as real, (x % m) as real, q);
    }
  }

  lemma TimesInt(a: nat, b: nat)
    ensures Times(a as real, b as real) == (a * b) as real
  {}

  /** The k-th frame pulled is a frame of the track, modulo its renderable length. */
  lemma PlainFrame(u: Setup, p: nat, k: nat)
    requires u.Ok() && Plain(u)
    ensures var i := (p + k) % (u.audio.Frames() - 1);
      FrameAt(u, HeadAfter(u, p as real, k)) == Stereo(u.audio.Side(0)[i], u.audio.Side(1)[i])
  {
    var m := u.audio.Frames() - 1;
    var i := (p + k) % m;
    PlainWrap(u, p, k);
    BetweenNeighbours(u.audio.Side(0), i as real);
    BetweenNeighbours(u.audio.Side(1), i as real);
  }

  lemma PlainWrap(u: Setup, p: nat, k: nat)
    requires u.Ok() && Plain(u)
    ensures Wrap(u, HeadAfter(u, p as real, k)) == ((p + k) % (u.audio.Frames() - 1)) as real
  {
    ClosedForm(u, p as real, k);
    TimesOne(k as real);
    WholeWrap(p + k, u.audio.Frames() - 1);
  }

  lemma {:induction false} PulledAt(u: Setup, p: real, k: nat, i: nat)
    requires u.Ok() && i < k
    ensures Pulled(u, p, k)[i] == FrameAt(u, HeadAfter(u, p, i))
    decreases k
  {
    if i < k - 1 { PulledAt(u, p, k - 1, i); }
  }

  ghost predicate Steady(s: Render) { s.playing && s.carry == 0.0 && s.Raw() >= 0.0 && s.drain == 0 }

  /** From s to s', k frames were pulled and heard, scaled. */
  ghost predicate Plays(u: Setup, s: Render, s': Render, out: seq<Stereo>, k: nat)
    requires u.Ok()
  {
    Steady(s') && out == Scaled(Pulled(u, s.Raw(), k), u.gain) && s'.Raw() == HeadAfter(u, s.Raw(), k)
  }

  /** At unit rate a block pulls exactly as many frames as it renders, carries nothing over and copies them out. */
  lemma PlainBlock(u: Setup, stretch: Stretch, s: Render, n: nat)
    requires u.Ok() && Plain(u) && Renders(u, s, n) && Steady(s) && Copies(stretch)
    ensures Plays(u, s, Block(u, stretch, s, n).0, Block(u, stretch, s, n).1, n)
  {
    TimesOne(n as real);
    assert PullOf(u, s, n) == n;
    NeverDry(u, s.Raw(), n);
  }

  lemma PlaysOn(u: Setup, s: Render, s1: Render, s2: Render, out1: seq<Stereo>, out2: seq<Stereo>, a: nat, b: nat)
    requires u.Ok() && Plays(u, s, s1, out1, a) && Plays(u, s1, s2, out2, b)
    ensures Plays(u, s, s2, out1 + out2, a + b)
  {
    PullSplit(u, s.Raw(), a, b);
    ScaledConcat(Pulled(u, s.Raw(), a), Pulled(u, s1.Raw(), b), u.gain);
  }

  lemma PlainNext(u: Setup, stretch: Stretch, s: Render, r: (Render, seq<Stereo>), k: nat, n: nat)
    requires u.Ok() && Plain(u) && Copies(stretch) && 0 < n <= u.capacity
    requires Plays(u, s, r.0, r.1, k)
    ensures Plays(u, s, Block(u, stretch, r.0, n).0, r.1 + Block(u, stretch, r.0, n).1, k + n)
  {
    PlainBlock(u, stretch, r.0, n);
    PlaysOn(u, s, r.0, Block(u, stretch, r.0, n).0, r.1, Block(u, stretch, r.0, n).1, k, n);
  }

  ghost predicate RunPlays(u: Setup, s: Render, r: (Render, seq<Stereo>), k: nat)
    requires u.Ok()
  {
    Plays(u, s, r.0, r.1, k)
  }

  lemma PlaysNothing(u: Setup, s: Render)
    requires u.Ok() && Steady(s)
    ensures RunPlays(u, s, (s, []), 0)
  {}

  lemma RunEnds(u: Setup, stretch: Stretch, s: Render, ps: seq<Piece>)
    requires PiecesOk(ps) && ps != [] && ps[|ps| - 1].u == u && u.Ok()
    ensures var prev, n := ps[..|ps| - 1], ps[|ps| - 1].n;
      var r := Run(stretch, s, prev);
      Run(stretch, s, ps) == (Block(u, stretch, r.0, n).0, r.1 + Block(u, stretch, r.0, n).1)
      && Engine.Frames(ps) == Engine.Frames(prev) + n
  {}

  lemma {:induction false} PlainRun(u: Setup, stretch: Stretch, s: Render, ps: seq<Piece>)
    requires u.Ok() && Plain(u) && Steady(s) && Copies(stretch) && PiecesOk(ps)
    requires forall i :: 0 <= i < |ps| ==> ps[i].u == u && 0 < ps[i].n <= u.capacity
    ensures RunPlays(u, s, Run(stretch, s, ps), Engine.Frames(ps))
    decreases |ps|
  {
    if ps == [] {
      PlaysNothing(u, s);
    } else {
      RunEnds(u, stretch, s, ps);
      PlainRun(u, stretch, s, ps[..|ps| - 1]);
      PlainNext(u, stretch, s, Run(stretch, s, ps[..|ps| - 1]), Engine.Frames(ps[..|ps| - 1]), ps[|ps| - 1].n);
    }
  }

  lemma ScaledConcat(a: seq<Stereo>, b: seq<Stereo>, gain: real)
    ensures Scaled(a + b, gain) == Scaled(a, gain) + Scaled(b, gain)
  {}

  /** A repeated track at unit rate and equal sample rates, from a whole position p: however the rendering is split
      into blocks, output frame k is the track's frame (p + k) modulo its renderable length, times the gain. */
  lemma UnitPlayback(u: Setup, s: Render, p: nat, ps: seq<Piece>, k: nat)
    requires u.Ok() && Plain(u) && Steady(s) && s.Raw() == p as real && PiecesOk(ps)
    requires forall i :: 0 <= i < |ps| ==> ps[i].u == u && 0 < ps[i].n <= u.capacity
    requires k < Engine.Frames(ps)
    ensures var out := Run(IDENTITY, s, ps).1;
      var i := (p + k) % (u.audio.Frames() - 1);
      |out| == Engine.Frames(ps)
      && out[k] == Stereo(Times(u.audio.Side(0)[i], u.gain), Times(u.audio.Side(1)[i], u.gain))
  {
    IdentityCopies();
    PlainRun(u, IDENTITY, s, ps);
    PulledAt(u, p as real, Engine.Frames(ps), k);
    PlainFrame(u, p, k);
  }
}
