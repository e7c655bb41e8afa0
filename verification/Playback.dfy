/** The values both ends of the protocol exchange: one deck's playback state, a set of changes to
    it, the ranges either end enforces, and the two ways changes are combined.  Seconds, gains and
    rates are mathematical reals. */
module Playback {

  datatype Option<+T> = None | Some(value: T)

  datatype DeckId = A | B

  datatype LoopPoints = LoopPoints(inSeconds: real, outSeconds: real)

  /** The empty track id stands for "no track", as in the client; it is JSON null on the wire. */
  datatype Deck = Deck(
    trackId: string,
    playing: bool,
    positionSeconds: real,
    gain: real,
    playbackRate: real,
    pitchOffsetSemitones: real,
    loop: Option<LoopPoints>,
    repeat: bool)

  const DEFAULT_DECK := Deck("", false, 0.0, 1.0, 1.0, 0.0, None, true)

  /** None means the field is absent.  For `loop`, Some(None) clears the loop. */
  datatype Changes = Changes(
    trackId: Option<string>,
    playing: Option<bool>,
    positionSeconds: Option<real>,
    gain: Option<real>,
    playbackRate: Option<real>,
    pitchOffsetSemitones: Option<real>,
    loop: Option<Option<LoopPoints>>,
    repeat: Option<bool>)
  {
    predicate Empty() {
      trackId.None? && playing.None? && positionSeconds.None? && gain.None? && playbackRate.None?
      && pitchOffsetSemitones.None? && loop.None? && repeat.None?
    }

    predicate Full() {
      trackId.Some? && playing.Some? && positionSeconds.Some? && gain.Some? && playbackRate.Some?
      && pitchOffsetSemitones.Some? && loop.Some? && repeat.Some?
    }
  }

  datatype Delta = Delta(deck: DeckId, changes: Changes)

  function Or<T>(incoming: Option<T>, kept: Option<T>): Option<T> {
    if incoming.Some? then incoming else kept
  }

  function OrValue<T>(incoming: Option<T>, kept: T): T {
    if incoming.Some? then incoming.value else kept
  }

  /** Present fields of `c` replace those of `s`. */
  function Merge(s: Deck, c: Changes): Deck {
    Deck(
      OrValue(c.trackId, s.trackId),
      OrValue(c.playing, s.playing),
      OrValue(c.positionSeconds, s.positionSeconds),
      OrValue(c.gain, s.gain),
      OrValue(c.playbackRate, s.playbackRate),
      OrValue(c.pitchOffsetSemitones, s.pitchOffsetSemitones),
      OrValue(c.loop, s.loop),
      OrValue(c.repeat, s.repeat))
  }

  /** The publisher's coalescing: the latest value of each field wins. */
  function Overlay(pending: Changes, incoming: Changes): Changes {
    Changes(
      Or(incoming.trackId, pending.trackId),
      Or(incoming.playing, pending.playing),
      Or(incoming.positionSeconds, pending.positionSeconds),
      Or(incoming.gain, pending.gain),
      Or(incoming.playbackRate, pending.playbackRate),
      Or(incoming.pitchOffsetSemitones, pending.pitchOffsetSemitones),
      Or(incoming.loop, pending.loop),
      Or(incoming.repeat, pending.repeat))
  }

  function FullResync(s: Deck): Changes {
    Changes(Some(s.trackId), Some(s.playing), Some(s.positionSeconds), Some(s.gain),
            Some(s.playbackRate), Some(s.pitchOffsetSemitones), Some(s.loop), Some(s.repeat))
  }

  // ---------------------------------------------------------------- ranges

  predicate TrackIdChar(c: char) {
    'A' <= c <= 'Z' || 'a' <= c <= 'z' || '0' <= c <= '9' || c == '.' || c == '_' || c == '-'
  }

  predicate ValidTrackId(s: string) {
    && 1 <= |s| <= 64
    && (forall i :: 0 <= i < |s| ==> TrackIdChar(s[i]))
    && s != "."
    && !(exists i :: 0 <= i < |s| - 1 && s[i] == '.' && s[i + 1] == '.')
  }

  predicate ValidPosition(x: real) { 0.0 <= x <= 86400.0 }
  predicate ValidGain(x: real) { 0.0 <= x <= 2.0 }
  predicate ValidRate(x: real) { 0.5 <= x <= 2.0 }
  predicate ValidPitch(x: real) { -12.0 <= x <= 12.0 }

  predicate ValidLoop(l: LoopPoints) {
    0.0 <= l.inSeconds < l.outSeconds <= 86400.0
  }

  predicate ValidDeck(s: Deck) {
    && (s.trackId == "" || ValidTrackId(s.trackId))
    && ValidPosition(s.positionSeconds)
    && ValidGain(s.gain)
    && ValidRate(s.playbackRate)
    && ValidPitch(s.pitchOffsetSemitones)
    && (s.loop.Some? ==> ValidLoop(s.loop.value))
  }

  /** What a client can parse at all: a usable track id and an ordered loop. Ranges are clamped later. */
  predicate ParsesDeck(s: Deck) {
    && (s.trackId == "" || ValidTrackId(s.trackId))
    && (s.loop.Some? ==> s.loop.value.inSeconds < s.loop.value.outSeconds)
  }

  predicate ParsesChanges(c: Changes) {
    && GoodTrack(c)
    && (c.loop.Some? && c.loop.value.Some? ==> c.loop.value.value.inSeconds < c.loop.value.value.outSeconds)
  }

  predicate GoodTrack(c: Changes) {
    c.trackId.Some? ==> c.trackId.value == "" || ValidTrackId(c.trackId.value)
  }

  /** What the server demands of a delta's changes. */
  predicate Acceptable(c: Changes) {
    && !c.Empty()
    && GoodTrack(c)
    && (c.positionSeconds.Some? ==> ValidPosition(c.positionSeconds.value))
    && (c.gain.Some? ==> ValidGain(c.gain.value))
    && (c.playbackRate.Some? ==> ValidRate(c.playbackRate.value))
    && (c.pitchOffsetSemitones.Some? ==> ValidPitch(c.pitchOffsetSemitones.value))
    && (c.loop.Some? && c.loop.value.Some? ==> ValidLoop(c.loop.value.value))
    && (c.playing == Some(true) ==> c.positionSeconds.Some?)
  }

  function Clamp(x: real, lo: real, hi: real): real
  {
    if x < lo then lo else if hi < x then hi else x
  }

  function ClampOption(x: Option<real>, lo: real, hi: real): Option<real> {
    if x.Some? then Some(Clamp(x.value, lo, hi)) else None
  }

  /** Both ends are clamped independently; a loop that is no longer ordered is dropped. */
  function ClampLoop(l: Option<LoopPoints>): Option<LoopPoints> {
    if l.None? then None else
    var i, o := Clamp(l.value.inSeconds, 0.0, 86400.0), Clamp(l.value.outSeconds, 0.0, 86400.0);
    if i >= o then None else Some(LoopPoints(i, o))
  }

  function ClampChanges(c: Changes): Changes {
    c.(positionSeconds := ClampOption(c.positionSeconds, 0.0, 86400.0),
       gain := ClampOption(c.gain, 0.0, 2.0),
       playbackRate := ClampOption(c.playbackRate, 0.5, 2.0),
       pitchOffsetSemitones := ClampOption(c.pitchOffsetSemitones, -12.0, 12.0),
       loop := if c.loop.Some? then Some(ClampLoop(c.loop.value)) else None)
  }

  function ClampDeck(s: Deck): Deck {
    s.(positionSeconds := Clamp(s.positionSeconds, 0.0, 86400.0),
       gain := Clamp(s.gain, 0.0, 2.0),
       playbackRate := Clamp(s.playbackRate, 0.5, 2.0),
       pitchOffsetSemitones := Clamp(s.pitchOffsetSemitones, -12.0, 12.0),
       loop := ClampLoop(s.loop))
  }

  /** What a local edit becomes before it is merged and handed to listeners: clamped, and carrying
      the deck's position whenever it starts playback. */
  function Prepared(s: Deck, c: Changes): Changes {
    var k := ClampChanges(c);
    if k.playing == Some(true) && k.positionSeconds.None?
    then k.(positionSeconds := Some(s.positionSeconds))
    else k
  }

  // ---------------------------------------------------------------- what track ids may be

  predicate Alphanumeric(c: char) { 'A' <= c <= 'Z' || 'a' <= c <= 'z' || '0' <= c <= '9' }

  /** Up to sixty-four letters, digits, hyphens and underscores, with single dots between them, make a track id. */
  lemma UsualIdsAreValid(s: string)
    requires 1 <= |s| <= 64 && s[0] != '.'
    requires forall i :: 0 <= i < |s| ==> Alphanumeric(s[i]) || s[i] == '-' || s[i] == '_' || s[i] == '.'
    requires forall i :: 0 < i < |s| && s[i] == '.' ==> s[i - 1] != '.'
    ensures ValidTrackId(s)
  {}

  /** A track id is a plain file name: it names no other directory and holds no separator, space or control character. */
  lemma IdsAreFileNames(s: string)
    requires ValidTrackId(s)
    ensures s != "" && s != "." && s != ".." && |s| <= 64
    ensures forall i :: 0 <= i < |s| ==> s[i] !in ['/', '\\', ':', ' ', '\n', '\0', '%', '"', '~']
    ensures forall i :: 0 < i < |s| && s[i] == '.' ==> s[i - 1] != '.'
  {
    if s == ".." { assert s[0] == '.' && s[0 + 1] == '.'; }
    forall j | 0 <= j < |s| - 1 ensures s[j + 1] == '.' ==> s[j] != '.' {}
    forall i | 0 < i < |s| ensures s[i] == '.' ==> s[i - 1] != '.' {
      assert s[(i - 1) + 1] == '.' ==> s[i - 1] != '.';
    }
  }

  // ---------------------------------------------------------------- what clamping and completing mean

  /** The clamp of a number is the number of the range nearest to it. */
  lemma ClampIsNearest(x: real, lo: real, hi: real, y: real)
    requires lo <= y <= hi
    ensures lo <= Clamp(x, lo, hi) <= hi
    ensures var c := Clamp(x, lo, hi);
      (if c < x then x - c else c - x) <= (if y < x then x - y else y - x)
  {}

  /** The clamp of a loop is its part inside the range of positions, if there is any. */
  lemma ClampedLoopIsPart(l: LoopPoints, t: real)
    requires 0.0 <= t < 86400.0
    ensures var c := ClampLoop(Some(l));
      (c.Some? && c.value.inSeconds <= t < c.value.outSeconds) <==> l.inSeconds <= t < l.outSeconds
    ensures ClampLoop(Some(l)).Some? ==> ValidLoop(ClampLoop(Some(l)).value)
  {}

  /** Every value named is within its range. */
  predicate InRange(c: Changes) {
    && (c.positionSeconds.Some? ==> ValidPosition(c.positionSeconds.value))
    && (c.gain.Some? ==> ValidGain(c.gain.value))
    && (c.playbackRate.Some? ==> ValidRate(c.playbackRate.value))
    && (c.pitchOffsetSemitones.Some? ==> ValidPitch(c.pitchOffsetSemitones.value))
    && (c.loop.Some? && c.loop.value.Some? ==> ValidLoop(c.loop.value.value))
  }

  /** A local edit within range changes exactly the fields it names: pressing play keeps the position. */
  lemma EditChangesWhatItNames(s: Deck, c: Changes)
    requires InRange(c)
    ensures Merge(s, Prepared(s, c)) == Merge(s, c)
  {}

  /** What is told of it names one field more exactly if playback starts without a position; and that is the deck's
      own, so that every peer starts from there. */
  lemma EditTellsPosition(s: Deck, c: Changes)
    requires InRange(c)
    ensures var p := Prepared(s, c);
      && p.(positionSeconds := None) == c.(positionSeconds := None)
      && (c.positionSeconds.Some? ==> p.positionSeconds == c.positionSeconds)
      && (c.positionSeconds.None? ==>
            (p.positionSeconds.Some? <==> c.playing == Some(true))
            && (p.positionSeconds.Some? ==> p.positionSeconds.value == s.positionSeconds))
  {}

  /** Out of range, each number named goes to the nearest value of its range and a loop to its part inside, and the rest
      is as it was asked. */
  lemma EditStaysClose(s: Deck, c: Changes)
    ensures var m := Merge(s, Prepared(s, c));
      && m.trackId == Merge(s, c).trackId && m.playing == Merge(s, c).playing && m.repeat == Merge(s, c).repeat
      && (c.positionSeconds.Some? ==> m.positionSeconds == Clamp(c.positionSeconds.value, 0.0, 86400.0))
      && (c.gain.Some? ==> m.gain == Clamp(c.gain.value, 0.0, 2.0))
      && (c.playbackRate.Some? ==> m.playbackRate == Clamp(c.playbackRate.value, 0.5, 2.0))
      && (c.pitchOffsetSemitones.Some? ==> m.pitchOffsetSemitones == Clamp(c.pitchOffsetSemitones.value, -12.0, 12.0))
      && (c.loop.Some? ==> m.loop == ClampLoop(c.loop.value))
      && (c.positionSeconds.None? ==> m.positionSeconds == s.positionSeconds) && (c.gain.None? ==> m.gain == s.gain)
      && (c.playbackRate.None? ==> m.playbackRate == s.playbackRate)
      && (c.pitchOffsetSemitones.None? ==> m.pitchOffsetSemitones == s.pitchOffsetSemitones)
      && (c.loop.None? ==> m.loop == s.loop)
  {}

  // ---------------------------------------------------------------- laws

  /** Changes that name nothing change nothing, and the same changes again change nothing more. */
  lemma MergeWhatIsThere(s: Deck, c: Changes)
    ensures c.Empty() ==> Merge(s, c) == s
    ensures Merge(Merge(s, c), c) == Merge(s, c)
  {}

  /** Merging a run of changes in order. */
  function MergeAll(s: Deck, cs: seq<Changes>): Deck
    decreases |cs|
  {
    if cs == [] then s else MergeAll(Merge(s, cs[0]), cs[1..])
  }

  lemma MergeAllOne(s: Deck, c: Changes)
    ensures MergeAll(s, [c]) == Merge(s, c)
  {
    assert [c][1..] == [];
  }

  lemma {:induction false} MergeAllConcat(s: Deck, xs: seq<Changes>, ys: seq<Changes>)
    ensures MergeAll(s, xs + ys) == MergeAll(MergeAll(s, xs), ys)
    decreases |xs|
  {
    if xs == [] {
      assert xs + ys == ys;
    } else {
      assert (xs + ys)[0] == xs[0] && (xs + ys)[1..] == xs[1..] + ys;
      MergeAllConcat(Merge(s, xs[0]), xs[1..], ys);
    }
  }

  lemma MergeAllSnoc(s: Deck, xs: seq<Changes>, c: Changes)
    ensures MergeAll(s, xs + [c]) == Merge(MergeAll(s, xs), c)
  {
    MergeAllConcat(s, xs, [c]);
    MergeAllOne(MergeAll(s, xs), c);
  }

  /** Coalescing preserves meaning, whatever the deck. */
  lemma OverlayMeaning(s: Deck, p: Changes, d: Changes)
    ensures Merge(s, Overlay(p, d)) == Merge(Merge(s, p), d)
  {}

  /** ... and a coalesced run can be collapsed into one set of changes: the run's meaning is that
      of its left-to-right overlay. */
  function OverlayAll(p: Changes, cs: seq<Changes>): Changes
    decreases |cs|
  {
    if cs == [] then p else OverlayAll(Overlay(p, cs[0]), cs[1..])
  }

  lemma {:induction false} OverlayAllMeaning(s: Deck, p: Changes, cs: seq<Changes>)
    ensures Merge(s, OverlayAll(p, cs)) == MergeAll(Merge(s, p), cs)
    decreases |cs|
  {
    if cs != [] {
      OverlayMeaning(s, p, cs[0]);
      OverlayAllMeaning(s, Overlay(p, cs[0]), cs[1..]);
    }
  }

  /** Changes that name every field decide the deck on their own; only such changes do. */
  lemma FullDecides(c: Changes)
    ensures c.Full() <==> forall s, t :: Merge(s, c) == Merge(t, c)
  {
    if !c.Full() {
      var s := DEFAULT_DECK;
      var t := Deck("x", true, 1.0, 2.0, 2.0, 1.0, Some(LoopPoints(0.0, 1.0)), false);
      assert Merge(s, c) != Merge(t, c);
    }
  }

  /** Every local edit with a usable track id leaves the state manager acceptable to the server,
      and merging it keeps the deck within range. */
  lemma PreparedAcceptable(s: Deck, c: Changes)
    requires ValidDeck(s) && !c.Empty() && GoodTrack(c)
    ensures Acceptable(Prepared(s, c))
    ensures ValidDeck(Merge(s, Prepared(s, c)))
  {
    AcceptableIsClean(s, Prepared(s, c));
  }

  lemma OverlayAcceptable(p: Changes, d: Changes)
    requires Acceptable(p) && Acceptable(d)
    ensures Acceptable(Overlay(p, d))
  {}

  /** Acceptable changes pass the receiving client's clamp untouched and keep a deck in range. */
  lemma AcceptableIsClean(s: Deck, c: Changes)
    requires Acceptable(c)
    ensures ClampChanges(c) == c
    ensures ValidDeck(s) ==> ValidDeck(Merge(s, c))
  {}

  /** A deck is in range exactly when its full resync is acceptable, and then clamping it, or
      merging its resync into anything, gives it back. */
  lemma ResyncExact(s: Deck, t: Deck)
    ensures ValidDeck(s) <==> Acceptable(FullResync(s))
    ensures ValidDeck(s) ==> ClampDeck(s) == s
    ensures FullResync(s).Full() && Merge(t, FullResync(s)) == s
  {}
}
