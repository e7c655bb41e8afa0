/** The program form of the playback source: fields updated in place, scratch and destination buffers written by
    loops, proved against the functions of module Engine.  One thread at a time: the message thread's setters and
    the audio thread's blocks alternate. */
module PlaybackSources {
  import opened Playback
  import opened RealMath
  import opened Engine
  import Hearing

  /** What a loop request becomes: converted to source frames, and kept within the loaded track. */
  function RegionFor(loop: Option<LoopPoints>, sampleRate: real, audio: Option<Audio>): Option<Region>
    requires audio.Some? ==> audio.value.Ok()
  {
    if loop.None? || sampleRate <= 0.0 then None
    else
      var lo, hi := Times(loop.value.inSeconds, sampleRate), Times(loop.value.outSeconds, sampleRate);
      if audio.None? then Some(Region(lo, hi))
      else
        var last := (audio.value.Frames() - 1) as real;
        Some(Region(if lo < last then lo else last, if hi < last then hi else last))
  }

  /** A requested loop is, once set on a loaded track, either inert or a loop that never runs dry. */
  lemma SetLoopIsSafe(loop: LoopPoints, u: Setup)
    requires u.Ok() && u.audio.sampleRate > 0.0 && u.audio.Frames() > 0 && 0.0 <= loop.inSeconds
    requires u.loop == RegionFor(Some(loop), u.audio.sampleRate, Some(u.audio))
    ensures Looping(u) <==>
      loop.inSeconds < loop.outSeconds && Times(loop.inSeconds, u.audio.sampleRate) < u.Last()
    ensures !Looping(u) ==> u.loop.value.hi <= u.loop.value.lo
  {
    TimesOrder(loop.inSeconds, loop.outSeconds, u.audio.sampleRate);
    TimesOrder(0.0, loop.inSeconds, u.audio.sampleRate);
    TimesOrder(loop.inSeconds, 0.0, u.audio.sampleRate);
    TimesOne(u.audio.sampleRate);
  }

  /** Within the track, the region set is the loop asked for; no loop asked for is none set. */
  lemma RegionIsTheLoop(loop: LoopPoints, audio: Audio, x: real)
    requires audio.Ok() && audio.sampleRate > 0.0 && 0.0 <= x < (audio.Frames() - 1) as real
    ensures var r := RegionFor(Some(loop), audio.sampleRate, Some(audio));
      r.Some? && (r.value.lo <= x < r.value.hi
                  <==> Times(loop.inSeconds, audio.sampleRate) <= x < Times(loop.outSeconds, audio.sampleRate))
    ensures RegionFor(None, audio.sampleRate, Some(audio)) == None
  {}

  /** Without a rate there is no loop, and without a track the loop is not limited. */
  lemma RegionWithoutTrack(loop: LoopPoints, sampleRate: real)
    ensures var r := RegionFor(Some(loop), sampleRate, None);
      && (sampleRate <= 0.0 ==> r.None?)
      && (sampleRate > 0.0 ==>
            r == Some(Region(Times(loop.inSeconds, sampleRate), Times(loop.outSeconds, sampleRate))))
  {}

  /** What a destination channel gets of a frame: the first two channels hear it, any other is silent. */
  function Heard(s: Stereo, channel: nat): real {
    if channel == 0 then s.left else if channel == 1 then s.right else 0.0
  }

  /** The frames of `out` are in the destination from `start` on, in every channel, and nothing else has changed. */
  twostate predicate Filled(dst: array2<real>, start: nat, out: seq<Stereo>)
    reads dst
  {
    forall c, f :: 0 <= c < dst.Length0 && 0 <= f < dst.Length1 ==>
      dst[c, f] == if start <= f < start + |out| then Heard(out[f - start], c) else old(dst[c, f])
  }

  class BufferPlaybackSource {
    const stretch: Stretch
    const stretcherLatency: nat
    var audio: Option<Audio>
    var messageThreadSampleRate: real
    var playing: bool
    var gain: real
    var rate: real
    var pitchOffsetSemitones: real
    var repeat: bool
    var deviceSampleRate: real
    const loopSlots: array<Option<Region>>
    var activeLoopSlot: nat
    var forceStretcherReset: bool
    var seekPending: bool
    var pendingSeekSamples: real
    var positionSamples: real
    var lastLaggedSourceFrames: real
    var pullAccumulator: real
    var producedOutputFrames: nat
    var drainFramesRemaining: nat
    var outputLatencyFrames: nat
    /** The calls the stretcher has seen since its last reset. */
    var calls: seq<Call>
    var pullScratch: array<Stereo>

    ghost predicate Valid()
      reads this
    {
      && StretchOk(stretch) && loopSlots.Length == 2 && activeLoopSlot < 2
      && (audio.Some? ==> audio.value.Ok())
    }

    /** No track renders like an empty one. */
    function Track(): Audio
      reads this
    {
      if audio.Some? then audio.value else Audio([[]], 0.0)
    }

    function SourceToDevice(): real
      reads this
    {
      var sourceRate := if Track().sampleRate > 0.0 then Track().sampleRate else deviceSampleRate;
      if deviceSampleRate > 0.0 then sourceRate / deviceSampleRate else 1.0
    }

    lemma RatioIsPositive()
      ensures SourceToDevice() > 0.0
    {
      if deviceSampleRate > 0.0 {
        var sourceRate := if Track().sampleRate > 0.0 then Track().sampleRate else deviceSampleRate;
        TimesDiv(sourceRate, deviceSampleRate);
        TimesSign(sourceRate / deviceSampleRate, deviceSampleRate);
      }
    }

    /** Frames of the track per frame of the device: their rates' ratio, or one to one if the track has no rate. */
    lemma RatioIsThatOfTheRates()
      ensures deviceSampleRate > 0.0 && Track().sampleRate > 0.0 ==>
        Times(SourceToDevice(), deviceSampleRate) == Track().sampleRate
      ensures deviceSampleRate <= 0.0 || Track().sampleRate <= 0.0 ==> SourceToDevice() == 1.0
    {
      if deviceSampleRate > 0.0 {
        TimesDiv(Track().sampleRate, deviceSampleRate);
        TimesDiv(deviceSampleRate, deviceSampleRate);
        TimesOne(deviceSampleRate);
        TimesOrder(deviceSampleRate / deviceSampleRate, 1.0, deviceSampleRate);
        TimesOrder(1.0, deviceSampleRate / deviceSampleRate, deviceSampleRate);
      }
    }

    /** So blocks are rendered with a setup that plays the track at its own speed. */
    lemma SetupConverts()
      requires Valid() && deviceSampleRate > 0.0 && Track().sampleRate > 0.0
      ensures Hearing.Converts(CurrentSetup(), deviceSampleRate)
    {
      RatioIsThatOfTheRates();
    }

    function CurrentSetup(): Setup
      requires activeLoopSlot < loopSlots.Length
      reads this, loopSlots
    {
      Setup(Track(), rate, pitchOffsetSemitones, gain, repeat, loopSlots[activeLoopSlot], SourceToDevice(),
            pullScratch.Length)
    }

    function View(): Render
      reads this
    {
      Render(positionSamples, lastLaggedSourceFrames, pullAccumulator, producedOutputFrames, drainFramesRemaining,
             outputLatencyFrames, playing, calls)
    }

    /** The state a block starts from, once pending requests are served. */
    function Begun(): Render
      reads this
    {
      Begin(View(), forceStretcherReset, stretcherLatency, if seekPending then Some(pendingSeekSamples) else None)
    }

    constructor (stretch: Stretch, latency: nat)
      requires StretchOk(stretch)
      ensures Valid() && fresh(loopSlots) && fresh(pullScratch)
      ensures View() == Render(0.0, 0.0, 0.0, 0, 0, 0, false, []) && audio.None?
    {
      this.stretch, stretcherLatency := stretch, latency;
      audio, messageThreadSampleRate, playing, gain, rate, repeat := None, 0.0, false, 1.0, 1.0, true;
      pitchOffsetSemitones := 0.0;
      deviceSampleRate, activeLoopSlot := 0.0, 0;
      loopSlots := new Option<Region>[2](_ => None);
      forceStretcherReset, seekPending, pendingSeekSamples := false, false, 0.0;
      positionSamples, lastLaggedSourceFrames, pullAccumulator := 0.0, 0.0, 0.0;
      producedOutputFrames, drainFramesRemaining, outputLatencyFrames, calls := 0, 0, 0, [];
      pullScratch := new Stereo[0];
    }

    method PrepareToPlay(samplesPerBlock: nat, sampleRate: real)
      requires Valid()
      modifies this
      ensures Valid() && fresh(pullScratch) && pullScratch.Length == CapacityFor(samplesPerBlock)
      ensures deviceSampleRate == sampleRate && View() == old(View()) && Track() == old(Track())
    {
      deviceSampleRate := sampleRate;
      var capacity := (if samplesPerBlock > 512 then samplesPerBlock else 512) * 4 + 4096;
      pullScratch := new Stereo[capacity](_ => SILENCE);
    }

    method SetPlaying(value: bool)
      requires Valid()
      modifies this`playing
      ensures Valid() && CurrentSetup() == old(CurrentSetup()) && View() == old(View()).(playing := value)
    {
      playing := value;
    }

    method SetGain(value: real)
      requires Valid()
      modifies this`gain
      ensures Valid() && CurrentSetup() == old(CurrentSetup()).(gain := value) && View() == old(View())
    {
      gain := value;
    }

    method SetPlaybackRate(value: real)
      requires Valid()
      modifies this`rate
      ensures Valid() && CurrentSetup() == old(CurrentSetup()).(rate := value) && View() == old(View())
    {
      rate := value;
    }

    method SetPitchOffsetSemitones(value: real)
      requires Valid()
      modifies this`pitchOffsetSemitones
      ensures Valid() && CurrentSetup() == old(CurrentSetup()).(pitch := value) && View() == old(View())
    {
      pitchOffsetSemitones := value;
    }

    method SetRepeat(value: bool)
      requires Valid()
      modifies this`repeat
      ensures Valid() && CurrentSetup() == old(CurrentSetup()).(repeat := value) && View() == old(View())
    {
      repeat := value;
    }

    /** The published position in seconds of the track. */
    method GetCurrentPositionSeconds() returns (seconds: real)
      ensures messageThreadSampleRate > 0.0 ==> Times(seconds, messageThreadSampleRate) == positionSamples
      ensures messageThreadSampleRate <= 0.0 ==> seconds == 0.0
    {
      if messageThreadSampleRate <= 0.0 { return 0.0; }
      TimesDiv(positionSamples, messageThreadSampleRate);
      seconds := positionSamples / messageThreadSampleRate;
    }

    /** A new track starts at its beginning, without a loop; the repeat setting survives. */
    method Load(newAudio: Option<Audio>)
      requires Valid() && (newAudio.Some? ==> newAudio.value.Ok())
      modifies this, loopSlots
      ensures Valid() && audio == newAudio && CurrentSetup().loop.None? && repeat == old(repeat)
      ensures Begun() == Render(0.0, 0.0, 0.0, 0, 0, stretcherLatency, old(playing), [])
    {
      forceStretcherReset := true;
      messageThreadSampleRate := if newAudio.Some? then newAudio.value.sampleRate else 0.0;
      pendingSeekSamples := 0.0;
      seekPending := true;
      PublishLoop(None);
      audio := newAudio;
    }

    /** The slot not in use is written as a whole, and then becomes the one in use. */
    method PublishLoop(state: Option<Region>)
      requires loopSlots.Length == 2 && activeLoopSlot < 2
      modifies this`activeLoopSlot, loopSlots
      ensures activeLoopSlot < 2 && activeLoopSlot != old(activeLoopSlot) && loopSlots[activeLoopSlot] == state
      ensures loopSlots[old(activeLoopSlot)] == old(loopSlots[activeLoopSlot])
    {
      var inactive := 1 - activeLoopSlot;
      loopSlots[inactive] := state;
      activeLoopSlot := inactive;
    }

    method SetLoop(loop: Option<LoopPoints>)
      requires Valid()
      modifies this`activeLoopSlot, loopSlots
      ensures Valid()
      ensures CurrentSetup() == old(CurrentSetup()).(loop := RegionFor(loop, messageThreadSampleRate, audio))
      ensures loopSlots[old(activeLoopSlot)] == old(loopSlots[activeLoopSlot])
    {
      var state: Option<Region> := None;
      if loop.Some? && messageThreadSampleRate > 0.0 {
        var lo := Times(loop.value.inSeconds, messageThreadSampleRate);
        var hi := Times(loop.value.outSeconds, messageThreadSampleRate);
        if audio.Some? {
          var last := (audio.value.Frames() - 1) as real;
          lo, hi := if lo < last then lo else last, if hi < last then hi else last;
        }
        state := Some(Region(lo, hi));
      }
      PublishLoop(state);
    }

    /** The position moves in any case; the stretcher restarts only for a jump of more than a second. */
    method RequestSeek(seconds: real)
      requires Valid()
      modifies this
      ensures Valid() && View() == old(View()) && CurrentSetup() == old(CurrentSetup())
      ensures var samples := if messageThreadSampleRate > 0.0 then Times(seconds, messageThreadSampleRate) else 0.0;
        && Begun().position == samples
        && (forceStretcherReset <==>
              old(forceStretcherReset) || samples - positionSamples > messageThreadSampleRate
              || positionSamples - samples > messageThreadSampleRate)
    {
      var samples := if messageThreadSampleRate > 0.0 then Times(seconds, messageThreadSampleRate) else 0.0;
      var distance := samples - positionSamples;
      if distance < 0.0 { distance := -distance; }
      if distance > messageThreadSampleRate * 1.0 { forceStretcherReset := true; }
      pendingSeekSamples := samples;
      seekPending := true;
    }

    /** Reads up to `count` frames of the ideal stream from `raw` into the scratch buffer, and silence once it is
        dry. */
    method Pull(u: Setup, raw: real, count: nat) returns (pos: real, ranDry: bool)
      requires u.Ok() && count <= pullScratch.Length
      modifies pullScratch
      ensures pullScratch[..count] == Pulled(u, raw, count)
      ensures pos == HeadAfter(u, raw, count) && ranDry == RanDry(u, raw, count)
    {
      pos, ranDry := raw, false;
      var left, right := u.audio.Side(0), u.audio.Side(1);
      var i := 0;
      while i < count
        invariant 0 <= i <= count && !ranDry
        invariant pos == HeadAfter(u, raw, i) && !RanDry(u, raw, i)
        invariant pullScratch[..i] == Pulled(u, raw, i)
      {
        pos := Wrap(u, pos);
        if pos < 0.0 || pos >= u.Last() {
          ranDry := true;
          break;
        }
        var l := Interpolate(left, pos);
        var r := Interpolate(right, pos);
        pullScratch[i] := Stereo(l, r);
        assert pullScratch[..i + 1] == pullScratch[..i] + [FrameAt(u, HeadAfter(u, raw, i))];
        pos := pos + u.ratio;
        i := i + 1;
      }
      if ranDry {
        DryFrom(u, raw, i, count);
        PadSilence(i, count);
      }
    }

    /** Linear interpolation between a frame and the next. */
    static method Interpolate(samples: seq<real>, pos: real) returns (x: real)
      requires 0.0 <= pos < (|samples| - 1) as real
      ensures x == Between(samples, pos)
    {
      var index0 := pos.Floor;
      var index1 := index0 + 1;
      var frac := pos - index0 as real;
      x := samples[index0] + Times(frac, samples[index1] - samples[index0]);
    }

    /** Silence, fed to the stretcher in place of the missing frames. */
    method PadSilence(from: nat, count: nat)
      requires from <= count <= pullScratch.Length
      modifies pullScratch
      ensures pullScratch[..count] == old(pullScratch[..from]) + seq(count - from, _ => SILENCE)
    {
      for j := from to count
        invariant pullScratch[..from] == old(pullScratch[..from])
        invariant forall k :: from <= k < j ==> pullScratch[k] == SILENCE
      {
        pullScratch[j] := SILENCE;
      }
      assert pullScratch[..count] == pullScratch[..from] + pullScratch[from..count];
    }

    /** Writes one channel of a block. */
    method WriteChannel(row: seq<real>, dst: array2<real>, channel: nat, start: nat)
      requires channel < dst.Length0 && start + |row| <= dst.Length1
      modifies dst
      ensures forall c, f :: 0 <= c < dst.Length0 && 0 <= f < dst.Length1 ==>
        dst[c, f] == if c == channel && start <= f < start + |row| then row[f - start] else old(dst[c, f])
    {
      for o := 0 to |row|
        invariant forall c, f :: 0 <= c < dst.Length0 && 0 <= f < dst.Length1 ==>
          dst[c, f] == if c == channel && start <= f < start + o then row[f - start] else old(dst[c, f])
      {
        dst[channel, start + o] := row[o];
      }
    }

    /** Silence in every channel. */
    method Clear(dst: array2<real>, start: nat, n: nat)
      requires start + n <= dst.Length1
      modifies dst
      ensures Filled(dst, start, Silent(n))
    {
      for ch := 0 to dst.Length0
        invariant forall c, f :: 0 <= c < dst.Length0 && 0 <= f < dst.Length1 ==>
          dst[c, f] == if c < ch && start <= f < start + n then 0.0 else old(dst[c, f])
      {
        WriteChannel(seq(n, _ => 0.0), dst, ch, start);
      }
    }

    /** Writes a stretched block, scaled: at most two channels are heard, any further ones are cleared. */
    method WriteOut(stretched: seq<Stereo>, dst: array2<real>, start: nat)
      requires start + |stretched| <= dst.Length1
      modifies dst
      ensures Filled(dst, start, Scaled(stretched, gain))
      ensures forall o :: 0 <= o < |stretched| && dst.Length0 > 0 ==>
        dst[0, start + o] == Times(stretched[o].left, gain)
      ensures forall o :: 0 <= o < |stretched| && dst.Length0 > 1 ==>
        dst[1, start + o] == Times(stretched[o].right, gain)
    {
      var n, level := |stretched|, gain;
      ghost var heard := Scaled(stretched, level);
      for ch := 0 to dst.Length0
        invariant forall c, f :: 0 <= c < dst.Length0 && 0 <= f < dst.Length1 ==>
          dst[c, f] == if c < ch && start <= f < start + n then Heard(heard[f - start], c)
                       else old(dst[c, f])
      {
        if ch == 0 {
          WriteChannel(seq(n, o requires 0 <= o < n => Times(stretched[o].left, level)), dst, ch, start);
        } else if ch == 1 {
          WriteChannel(seq(n, o requires 0 <= o < n => Times(stretched[o].right, level)), dst, ch, start);
        } else {
          WriteChannel(seq(n, _ => 0.0), dst, ch, start);
        }
      }
    }

    method ServeReset()
      requires Valid()
      modifies this`calls, this`outputLatencyFrames, this`pullAccumulator, this`producedOutputFrames,
               this`lastLaggedSourceFrames, this`drainFramesRemaining, this`forceStretcherReset
      ensures View() == Begin(old(View()), old(forceStretcherReset), stretcherLatency, None) && !forceStretcherReset
    {
      if forceStretcherReset {
        calls, outputLatencyFrames, pullAccumulator := [], stretcherLatency, 0.0;
        producedOutputFrames, lastLaggedSourceFrames, drainFramesRemaining := 0, 0.0, 0;
        forceStretcherReset := false;
      }
    }

    method ServeSeek()
      requires Valid()
      modifies this`positionSamples, this`seekPending
      ensures View() == old(View()).(position := if old(seekPending) then pendingSeekSamples else old(positionSamples))
      ensures !seekPending
    {
      if seekPending {
        positionSamples := pendingSeekSamples;
        seekPending := false;
      }
    }

    method GetNextAudioBlock(dst: array2<real>, start: nat, n: nat)
      requires Valid() && start + n <= dst.Length1
      modifies this, pullScratch, dst
      ensures Valid() && pullScratch == old(pullScratch) && old(CurrentSetup()).Ok()
      ensures var o := Block(old(CurrentSetup()), stretch, old(Begun()), n);
        View() == o.0 && |o.1| == n && Filled(dst, start, o.1)
    {
      RatioIsPositive();
      var u := CurrentSetup();
      ServeReset();
      ServeSeek();
      FillBlock(u, dst, start, n);
    }

    method FillBlock(u: Setup, dst: array2<real>, start: nat, n: nat)
      requires StretchOk(stretch) && start + n <= dst.Length1
      requires u.Ok()
      requires u.rate == rate && u.pitch == pitchOffsetSemitones && u.gain == gain && u.capacity == pullScratch.Length
      modifies this`pullAccumulator, this`calls, this`drainFramesRemaining, this`playing, this`producedOutputFrames,
               this`lastLaggedSourceFrames, this`positionSamples, pullScratch, dst
      ensures var o := Block(u, stretch, old(View()), n);
        View() == o.0 && |o.1| == n && Filled(dst, start, o.1)
    {
      var hasValidAudio := u.audio.Frames() != 0;
      if !hasValidAudio { playing := false; }
      if !playing || !hasValidAudio {
        Clear(dst, start, n);
        return;
      }
      if n == 0 { return; }
      if pullScratch.Length == 0 || n > pullScratch.Length {
        Clear(dst, start, n);
        return;
      }
      RenderInto(u, dst, start, n);
    }

    method RenderInto(u: Setup, dst: array2<real>, start: nat, n: nat)
      requires StretchOk(stretch) && start + n <= dst.Length1
      requires u.Ok() && Renders(u, View(), n)
      requires u.rate == rate && u.pitch == pitchOffsetSemitones && u.gain == gain && u.capacity == pullScratch.Length
      modifies this`pullAccumulator, this`calls, this`drainFramesRemaining, this`playing, this`producedOutputFrames,
               this`lastLaggedSourceFrames, this`positionSamples, pullScratch, dst
      ensures var o := RenderBlock(u, stretch, old(View()), n);
        View() == o.0 && |o.1| == n && Filled(dst, start, o.1)
    {
      var stretched, pos, ranDry := PullAndStretch(u, n);
      WriteOut(stretched, dst, start);
      Settle(u.ratio, pos, ranDry, n);
    }

    method PullAndStretch(u: Setup, n: nat) returns (stretched: seq<Stereo>, pos: real, ranDry: bool)
      requires StretchOk(stretch) && u.Ok() && u.rate == rate && u.pitch == pitchOffsetSemitones
      requires u.capacity == pullScratch.Length
      modifies this`pullAccumulator, this`calls, pullScratch
      ensures var s := old(View());
        var call := Call(Pulled(u, s.Raw(), PullOf(u, s, n)), n, u.pitch);
        && pullAccumulator == Quota(s.carry, Times(n as real, u.rate)).1
        && calls == s.calls + [call] && stretched == stretch(s.calls, call) && |stretched| == n
        && pos == HeadAfter(u, s.Raw(), PullOf(u, s, n)) && ranDry == RanDry(u, s.Raw(), PullOf(u, s, n))
    {
      var pullFrames := TakeQuota(n);
      pos, ranDry := Pull(u, positionSamples + lastLaggedSourceFrames, pullFrames);
      stretched := Stretched(pullFrames, n);
    }

    /** The stretcher turns what was pulled into n frames. */
    method Stretched(pullFrames: nat, n: nat) returns (out: seq<Stereo>)
      requires StretchOk(stretch) && pullFrames <= pullScratch.Length
      modifies this`calls
      ensures var call := Call(pullScratch[..pullFrames], n, pitchOffsetSemitones);
        out == stretch(old(calls), call) && |out| == n && calls == old(calls) + [call]
    {
      var call := Call(pullScratch[..pullFrames], n, pitchOffsetSemitones);
      out := stretch(calls, call);
      calls := calls + [call];
    }

    /** Fractional carry: the whole frames now due, at least one, limited by the scratch buffer. */
    method TakeQuota(n: nat) returns (pullFrames: nat)
      modifies this`pullAccumulator
      ensures pullFrames == Least(Quota(old(pullAccumulator), Times(n as real, rate)).0, pullScratch.Length)
      ensures pullAccumulator == Quota(old(pullAccumulator), Times(n as real, rate)).1
    {
      pullAccumulator := pullAccumulator + Times(n as real, rate);
      pullFrames := if pullAccumulator.Floor > 1 then pullAccumulator.Floor else 1;
      pullAccumulator := pullAccumulator - pullFrames as real;
      pullFrames := if pullFrames < pullScratch.Length then pullFrames else pullScratch.Length;
    }

    /** The end of a block: the tail's countdown, and the audible position. */
    method Settle(ratio: real, pos: real, ranDry: bool, n: nat)
      modifies this`drainFramesRemaining, this`playing, this`producedOutputFrames, this`lastLaggedSourceFrames,
               this`positionSamples
      ensures producedOutputFrames == old(producedOutputFrames) + n
      ensures var armed := if ranDry && old(drainFramesRemaining) == 0 then outputLatencyFrames + 1
                           else old(drainFramesRemaining);
        && drainFramesRemaining == (if ranDry && armed > n then armed - n else 0)
        && playing == (old(playing) && !(ranDry && drainFramesRemaining == 0))
      ensures lastLaggedSourceFrames
           == Times(Times(Least(producedOutputFrames, outputLatencyFrames) as real, rate), ratio)
      ensures positionSamples == pos - lastLaggedSourceFrames
    {
      producedOutputFrames := producedOutputFrames + n;
      if ranDry && drainFramesRemaining == 0 { drainFramesRemaining := outputLatencyFrames + 1; }
      if drainFramesRemaining > 0 {
        if ranDry {
          drainFramesRemaining := if drainFramesRemaining > n then drainFramesRemaining - n else 0;
          if drainFramesRemaining == 0 { playing := false; }
        } else {
          drainFramesRemaining := 0;
        }
      }
      var laggedOutputFrames :=
        if producedOutputFrames < outputLatencyFrames then producedOutputFrames else outputLatencyFrames;
      lastLaggedSourceFrames := Times(Times(laggedOutputFrames as real, rate), ratio);
      positionSamples := pos - lastLaggedSourceFrames;
    }
  }
}
