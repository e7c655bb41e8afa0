/** The sync button of client/src/model/BeatSync.h: a tempo match and a phase nudge that put one deck's
    beats on the other's.  Proved: from then on the two decks stay in phase for ever, exactly when the
    tempo is within range and the nudge was applied; and no smaller nudge would do. */
module BeatSync {
  import opened Playback
  import opened RealMath

  /** `bpm` of 0 or less means that no tempo was detected. */
  datatype BeatGrid = BeatGrid(bpm: real, firstBeatSeconds: real)

  datatype BeatSyncResult = BeatSyncResult(playbackRate: real, positionSeconds: real)

  function WrappedPhase(position: real, firstBeatSeconds: real, interval: real): real
    requires interval > 0.0
  {
    var phase := Fmod(position - firstBeatSeconds, interval);
    if phase < 0.0 then phase + interval else phase
  }

  predicate Detected(g: BeatGrid, o: BeatGrid) { g.bpm > 0.0 && o.bpm > 0.0 }

  function Interval(g: BeatGrid): (t: real)
    requires g.bpm > 0.0
    ensures t > 0.0
  {
    60.0 / g.bpm
  }

  /** The rate at which this deck's beats are as frequent as the other's are now. */
  function TempoMatch(g: BeatGrid, o: BeatGrid, otherRate: real): real
    requires g.bpm > 0.0
  {
    o.bpm * otherRate / g.bpm
  }

  /** The other deck's phase, in this deck's beats. */
  function TargetPhase(g: BeatGrid, o: BeatGrid, otherPosition: real): real
    requires Detected(g, o)
  {
    var otherPhase := WrappedPhase(otherPosition, o.firstBeatSeconds, Interval(o));
    var scaled := Fmod(Times(o.bpm / g.bpm, otherPhase), Interval(g));
    if scaled < 0.0 then scaled + Interval(g) else scaled
  }

  /** The signed correction, wrapped to at most half a beat either way. */
  function Nudge(g: BeatGrid, position: real, o: BeatGrid, otherPosition: real): real
    requires Detected(g, o)
  {
    var interval := Interval(g);
    var delta := TargetPhase(g, o, otherPosition) - WrappedPhase(position, g.firstBeatSeconds, interval);
    if delta > interval / 2.0 then delta - interval
    else if delta < -interval / 2.0 then delta + interval
    else delta
  }

  /** The nudge would leave a track of known length. */
  predicate LeavesTrack(target: real, duration: real) {
    duration > 0.0 && (target < 0.0 || target > duration)
  }

  function ComputeBeatSync(
    g: BeatGrid, position: real, o: BeatGrid, otherPosition: real, otherRate: real, duration: real)
    : Option<BeatSyncResult>
  {
    if g.bpm <= 0.0 || o.bpm <= 0.0 then None
    else
      var target := position + Nudge(g, position, o, otherPosition);
      Some(BeatSyncResult(
        Clamp(TempoMatch(g, o, otherRate), 0.5, 2.0),
        Clamp(if LeavesTrack(target, duration) then position else target, 0.0, 86400.0)))
  }

  // ---------------------------------------------------------------- beats

  /** How many beats of the grid have passed at a position. */
  function Beats(g: BeatGrid, position: real): real {
    Times(position - g.firstBeatSeconds, g.bpm / 60.0)
  }

  function Frac(x: real): real { x - x.Floor as real }

  ghost predicate IsWhole(x: real) { x == x.Floor as real }

  lemma FracIffWhole(x: real, y: real)
    ensures Frac(x) == Frac(y) <==> IsWhole(x - y)
  {
    if IsWhole(x - y) { assert x.Floor == y.Floor + (x - y).Floor; }
  }

  lemma WholeSum(x: real, y: real, n: int)
    requires x - y == n as real
    ensures IsWhole(x) <==> IsWhole(y)
    ensures IsWhole(x - y)
  {
    if IsWhole(y) { assert x.Floor == y.Floor + n; }
    if IsWhole(x) { assert y.Floor == x.Floor - n; }
  }

  lemma OneBeat(g: BeatGrid)
    requires g.bpm > 0.0
    ensures Times(Interval(g), g.bpm / 60.0) == 1.0 && g.bpm / 60.0 > 0.0
  {}

  lemma Intervals(g: BeatGrid, n: int)
    requires g.bpm > 0.0
    ensures Times(Times(n as real, Interval(g)), g.bpm / 60.0) == n as real
  {
    OneBeat(g);
    TimesAssoc(n as real, Interval(g), g.bpm / 60.0);
    TimesOne(n as real);
  }

  /** A wrapped phase is the position less a whole number of beats. */
  lemma PhaseBeats(g: BeatGrid, position: real) returns (n: int)
    requires g.bpm > 0.0
    ensures var p := WrappedPhase(position, g.firstBeatSeconds, Interval(g));
      0.0 <= p < Interval(g) && Times(p, g.bpm / 60.0) == Beats(g, position) - n as real
  {
    var x := position - g.firstBeatSeconds;
    FmodIsMod(x, Interval(g));
    n := Whole(x, Interval(g));
    TimesAdd(x, Times(n as real, Interval(g)), g.bpm / 60.0);
    Intervals(g, n);
  }

  /** The target phase is the other deck's phase, counted in beats; the defensive wrap never binds. */
  lemma TargetBeats(g: BeatGrid, o: BeatGrid, otherPosition: real) returns (n: int)
    requires Detected(g, o)
    ensures var target := TargetPhase(g, o, otherPosition);
      0.0 <= target < Interval(g) && Times(target, g.bpm / 60.0) == Beats(o, otherPosition) - n as real
  {
    n := PhaseBeats(o, otherPosition);
    var q := WrappedPhase(otherPosition, o.firstBeatSeconds, Interval(o));
    var scaled := Times(o.bpm / g.bpm, q);
    OneBeat(g);
    OneBeat(o);
    ScaledBeats(g, o, q);
    TimesOrder(q, Interval(o), o.bpm / 60.0);
    TimesOrder(scaled, Interval(g), g.bpm / 60.0);
    TimesSign(q, o.bpm / 60.0);
    TimesSign(scaled, g.bpm / 60.0);
    FmodIsMod(scaled, Interval(g));
    ModSmall(scaled, Interval(g));
  }

  lemma ScaledBeats(g: BeatGrid, o: BeatGrid, q: real)
    requires Detected(g, o)
    ensures Times(Times(o.bpm / g.bpm, q), g.bpm / 60.0) == Times(q, o.bpm / 60.0)
  {
    TimesAssoc(o.bpm / g.bpm, q, g.bpm / 60.0);
    assert Times(o.bpm / g.bpm, g.bpm / 60.0) == o.bpm / 60.0;
  }

  /** The nudge puts this deck in phase with the other, and is at most half a beat. */
  lemma NudgeAligns(g: BeatGrid, position: real, o: BeatGrid, otherPosition: real)
    requires Detected(g, o)
    ensures IsWhole(Beats(g, position + Nudge(g, position, o, otherPosition)) - Beats(o, otherPosition))
    ensures -Interval(g) / 2.0 <= Nudge(g, position, o, otherPosition) <= Interval(g) / 2.0
  {
    var v := g.bpm / 60.0;
    var n := PhaseBeats(g, position);
    var m := TargetBeats(g, o, otherPosition);
    var p := WrappedPhase(position, g.firstBeatSeconds, Interval(g));
    var target := TargetPhase(g, o, otherPosition);
    var d := Nudge(g, position, o, otherPosition);
    var j: int := if d < target - p then -1 else if d > target - p then 1 else 0;
    OneBeat(g);
    TimesAdd(target, p, v);
    TimesAdd(target - p, Interval(g), v);
    TimesAdd(position - g.firstBeatSeconds, d, v);
    WholeSum(Beats(g, position + d), Beats(o, otherPosition), n + j - m);
  }

  /** Two corrections that both align are equal or at least a beat apart. */
  lemma AlignedApart(g: BeatGrid, position: real, o: BeatGrid, otherPosition: real, x: real, y: real)
    requires Detected(g, o)
    requires IsWhole(Beats(g, position + x) - Beats(o, otherPosition))
    requires IsWhole(Beats(g, position + y) - Beats(o, otherPosition))
    ensures x == y || x - y >= Interval(g) || y - x >= Interval(g)
  {
    var v, interval := g.bpm / 60.0, Interval(g);
    var j := (Beats(g, position + x) - Beats(o, otherPosition)).Floor
           - (Beats(g, position + y) - Beats(o, otherPosition)).Floor;
    TimesAdd(position + x - g.firstBeatSeconds, position + y - g.firstBeatSeconds, v);
    Intervals(g, j);
    TimesAdd(x - y, Times(j as real, interval), v);
    OneBeat(g);
    TimesSign(x - y - Times(j as real, interval), v);
    TimesOne(interval);
    if j >= 1 { TimesOrder(1.0, j as real, interval); }
    if j <= -1 { TimesOrder(j as real, -1.0, interval); }
  }

  /** So no aligning correction is smaller than the nudge. */
  lemma NudgeIsSmallest(g: BeatGrid, position: real, o: BeatGrid, otherPosition: real, other: real)
    requires Detected(g, o) && IsWhole(Beats(g, position + other) - Beats(o, otherPosition))
    ensures var d := Nudge(g, position, o, otherPosition);
      (if d < 0.0 then -d else d) <= if other < 0.0 then -other else other
  {
    NudgeAligns(g, position, o, otherPosition);
    AlignedApart(g, position, o, otherPosition, other, Nudge(g, position, o, otherPosition));
  }

  // ---------------------------------------------------------------- staying in phase

  /** From now on, t seconds later, each deck having played at its own rate, the beats coincide. */
  ghost predicate InPhaseForever(g: BeatGrid, r: BeatSyncResult, o: BeatGrid, otherPosition: real, otherRate: real) {
    forall t: real :: t >= 0.0 ==> InPhaseAt(g, r, o, otherPosition, otherRate, t)
  }

  ghost predicate InPhaseAt(g: BeatGrid, r: BeatSyncResult, o: BeatGrid, otherPosition: real, otherRate: real, t: real) {
    Frac(Beats(g, r.positionSeconds + Times(t, r.playbackRate))) == Frac(Beats(o, otherPosition + Times(t, otherRate)))
  }

  /** The distance between the decks, in beats, after t seconds. */
  lemma Drift(g: BeatGrid, r: BeatSyncResult, o: BeatGrid, otherPosition: real, otherRate: real, t: real)
    requires Detected(g, o)
    ensures Beats(g, r.positionSeconds + Times(t, r.playbackRate)) - Beats(o, otherPosition + Times(t, otherRate))
         == Beats(g, r.positionSeconds) - Beats(o, otherPosition)
            + Times(t, Times(r.playbackRate - TempoMatch(g, o, otherRate), g.bpm / 60.0))
  {
    var v, w := g.bpm / 60.0, o.bpm / 60.0;
    var x := TempoMatch(g, o, otherRate);
    assert Times(x, v) == Times(otherRate, w);
    TimesAdd(r.positionSeconds - g.firstBeatSeconds, Times(t, r.playbackRate), v);
    TimesAdd(otherPosition - o.firstBeatSeconds, Times(t, otherRate), w);
    TimesAssoc(t, r.playbackRate, v);
    TimesAssoc(t, otherRate, w);
    TimesAdd(r.playbackRate, x, v);
    TimesAssoc(t, Times(r.playbackRate, v) - Times(x, v), 1.0);
    TimesAdd(Times(r.playbackRate, v), Times(x, v), t);
    TimesAssoc(Times(r.playbackRate, v), t, 1.0);
    TimesAssoc(Times(x, v), t, 1.0);
  }

  /** Two decks stay in phase for ever exactly when the tempo matches and they are in phase now. */
  lemma ForeverIff(g: BeatGrid, r: BeatSyncResult, o: BeatGrid, otherPosition: real, otherRate: real)
    requires Detected(g, o)
    ensures InPhaseForever(g, r, o, otherPosition, otherRate) <==>
      && r.playbackRate == TempoMatch(g, o, otherRate)
      && IsWhole(Beats(g, r.positionSeconds) - Beats(o, otherPosition))
  {
    var s := Times(r.playbackRate - TempoMatch(g, o, otherRate), g.bpm / 60.0);
    var d0 := Beats(g, r.positionSeconds) - Beats(o, otherPosition);
    forall t: real
      ensures InPhaseAt(g, r, o, otherPosition, otherRate, t) <==> IsWhole(d0 + Times(t, s))
    {
      Drift(g, r, o, otherPosition, otherRate, t);
      FracIffWhole(Beats(g, r.positionSeconds + Times(t, r.playbackRate)), Beats(o, otherPosition + Times(t, otherRate)));
    }
    TimesSign(r.playbackRate - TempoMatch(g, o, otherRate), g.bpm / 60.0);
    var t := if s == 0.0 then 0.0 else DriftsApart(d0, s);
    assert InPhaseAt(g, r, o, otherPosition, otherRate, t) <==> IsWhole(d0 + Times(t, s));
    assert InPhaseAt(g, r, o, otherPosition, otherRate, 0.0) <==> IsWhole(d0 + Times(0.0, s));
  }

  /** A drifting distance is not whole at some time. */
  ghost function DriftsApart(d0: real, s: real): (t: real)
    requires s != 0.0
    ensures t >= 0.0 && !IsWhole(d0 + Times(t, s))
  {
    if !IsWhole(d0) then 0.0
    else
      var t := 0.5 / (if s < 0.0 then -s else s);
      assert Times(t, s) == 0.5 || Times(t, s) == -0.5;
      t
  }

  /** The nudge arrives: it neither leaves the track nor the range of positions. */
  predicate Arrives(target: real, duration: real) { !LeavesTrack(target, duration) && 0.0 <= target <= 86400.0 }

  /** The sync button works: with both tempos known, for a playhead from half a beat before the track's start on, the
      decks stay in phase for ever if and only if the matching rate is within range and the nudge arrives or was not
      needed; or else in the one case in which the start of the track does as well, half a beat ahead of a playhead
      that is half a beat before it. */
  lemma SyncWorks(g: BeatGrid, position: real, o: BeatGrid, otherPosition: real, otherRate: real, duration: real)
    requires Detected(g, o) && -Interval(g) / 2.0 <= position <= 86400.0
    ensures var r := ComputeBeatSync(g, position, o, otherPosition, otherRate, duration).value;
      var nudge := Nudge(g, position, o, otherPosition);
      InPhaseForever(g, r, o, otherPosition, otherRate) <==>
        && 0.5 <= TempoMatch(g, o, otherRate) <= 2.0
        && (Arrives(position + nudge, duration) || (nudge == 0.0 && position >= 0.0)
            || position == nudge == -Interval(g) / 2.0)
  {
    var r := ComputeBeatSync(g, position, o, otherPosition, otherRate, duration).value;
    var nudge := Nudge(g, position, o, otherPosition);
    ForeverIff(g, r, o, otherPosition, otherRate);
    NudgeAligns(g, position, o, otherPosition);
    var applied := r.positionSeconds - position;
    if IsWhole(Beats(g, r.positionSeconds) - Beats(o, otherPosition)) {
      AlignedApart(g, position, o, otherPosition, applied, nudge);
    }
    if position == nudge == -Interval(g) / 2.0 { AlignedABeatAhead(g, position, o, otherPosition, nudge); }
  }

  lemma AlignedABeatAhead(g: BeatGrid, position: real, o: BeatGrid, otherPosition: real, y: real)
    requires Detected(g, o) && IsWhole(Beats(g, position + y) - Beats(o, otherPosition))
    ensures IsWhole(Beats(g, position + y + Interval(g)) - Beats(o, otherPosition))
  {
    OneBeat(g);
    TimesAdd(position + y - g.firstBeatSeconds, Interval(g), g.bpm / 60.0);
    WholeSum(Beats(g, position + y + Interval(g)) - Beats(o, otherPosition),
             Beats(g, position + y) - Beats(o, otherPosition), 1);
  }

  /** Wherever the playhead is, before the track's start or beyond the range of positions: the decks stay in phase for
      ever if and only if the matching rate is within range and the nudge arrives, or the playhead moved into the range
      was in phase already. */
  lemma SyncWorksAnywhere(
    g: BeatGrid, position: real, o: BeatGrid, otherPosition: real, otherRate: real, duration: real)
    requires Detected(g, o)
    ensures var r := ComputeBeatSync(g, position, o, otherPosition, otherRate, duration).value;
      InPhaseForever(g, r, o, otherPosition, otherRate) <==>
        && 0.5 <= TempoMatch(g, o, otherRate) <= 2.0
        && (Arrives(position + Nudge(g, position, o, otherPosition), duration)
            || IsWhole(Beats(g, Clamp(position, 0.0, 86400.0)) - Beats(o, otherPosition)))
  {
    var r := ComputeBeatSync(g, position, o, otherPosition, otherRate, duration).value;
    var nudge := Nudge(g, position, o, otherPosition);
    ForeverIff(g, r, o, otherPosition, otherRate);
    NudgeAligns(g, position, o, otherPosition);
    var held, went := Clamp(position, 0.0, 86400.0) - position, r.positionSeconds - position;
    if IsWhole(Beats(g, position + held) - Beats(o, otherPosition)) {
      AlignedApart(g, position, o, otherPosition, held, nudge);
    }
    if IsWhole(Beats(g, position + went) - Beats(o, otherPosition)) {
      AlignedApart(g, position, o, otherPosition, went, nudge);
    }
  }

  /** A playhead in a track of known length stays in it, moves by at most half a beat, and moves only to where the beats
      align: the nudge is taken if it stays in the track, and dropped if not. */
  lemma SyncStaysInTrack(
    g: BeatGrid, position: real, o: BeatGrid, otherPosition: real, otherRate: real, duration: real)
    requires Detected(g, o) && 0.0 <= position <= duration <= 86400.0 && duration > 0.0
    ensures var r := ComputeBeatSync(g, position, o, otherPosition, otherRate, duration).value;
      var target := position + Nudge(g, position, o, otherPosition);
      && 0.0 <= r.positionSeconds <= duration
      && -Interval(g) / 2.0 <= r.positionSeconds - position <= Interval(g) / 2.0
      && (0.0 <= target <= duration ==> r.positionSeconds == target)
      && (!(0.0 <= target <= duration) ==> r.positionSeconds == position)
      && (r.positionSeconds != position ==> IsWhole(Beats(g, r.positionSeconds) - Beats(o, otherPosition)))
  {
    NudgeAligns(g, position, o, otherPosition);
  }

  /** The tempo is matched as closely as the range of rates allows, whatever becomes of the nudge. */
  lemma TempoIsNearest(
    g: BeatGrid, position: real, o: BeatGrid, otherPosition: real, otherRate: real, duration: real, rate: real)
    requires Detected(g, o) && 0.5 <= rate <= 2.0
    ensures var r := ComputeBeatSync(g, position, o, otherPosition, otherRate, duration).value.playbackRate;
      var ideal := TempoMatch(g, o, otherRate);
      && 0.5 <= r <= 2.0
      && (if r < ideal then ideal - r else r - ideal) <= (if rate < ideal then ideal - rate else rate - ideal)
  {
    ClampIsNearest(TempoMatch(g, o, otherRate), 0.5, 2.0, rate);
  }
}
