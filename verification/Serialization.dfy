/** The client's reading and writing of messages, client/src/model/Serialization.cpp. */
module Serialization {
  import opened Playback
  import opened Json
  import opened WireForm
  import Clients

  // ---------------------------------------------------------------- writing

  /** `obj` holds the written fields of `c` among `done`. */
  ghost predicate Written(obj: Fields, c: Changes, done: set<Key>) {
    && (forall k :: k in obj ==> k in done && Has(c, k) && obj[k] == FieldJson(c, k))
    && (forall k :: k in done && Has(c, k) ==> k in obj)
  }

  lemma Wrote(obj: Fields, obj': Fields, c: Changes, done: set<Key>, k: Key)
    requires Written(obj, c, done)
    requires obj' == if Has(c, k) then obj[k := FieldJson(c, k)] else obj
    ensures Written(obj', c, done + {k})
  {}

  lemma WroteAll(obj: Fields, c: Changes, done: set<Key>)
    requires Written(obj, c, done) && done == CHANGE_KEYS
    ensures obj == ChangesFields(c)
  {}

  method WriteChanges(c: Changes) returns (obj: Fields)
    ensures obj == ChangesFields(c)
  {
    obj := map[];
    if c.trackId.Some? { obj := obj[KTrackId := if c.trackId.value == "" then Null else Str(c.trackId.value)]; }
    ghost var w1 := obj;
    Wrote(map[], w1, c, {}, KTrackId);
    if c.playing.Some? { obj := obj[KPlaying := Bool(c.playing.value)]; }
    ghost var w2 := obj;
    Wrote(w1, w2, c, {KTrackId}, KPlaying);
    if c.positionSeconds.Some? { obj := obj[KPositionSeconds := Num(c.positionSeconds.value)]; }
    ghost var w3 := obj;
    Wrote(w2, w3, c, {KTrackId, KPlaying}, KPositionSeconds);
    if c.gain.Some? { obj := obj[KGain := Num(c.gain.value)]; }
    ghost var w4 := obj;
    Wrote(w3, w4, c, {KTrackId, KPlaying, KPositionSeconds}, KGain);
    obj := WriteRest(c, obj);
  }

  method WriteRest(c: Changes, first: Fields) returns (obj: Fields)
    requires Written(first, c, {KTrackId, KPlaying, KPositionSeconds, KGain})
    ensures obj == ChangesFields(c)
  {
    obj := first;
    ghost var done := {KTrackId, KPlaying, KPositionSeconds, KGain};
    if c.playbackRate.Some? { obj := obj[KPlaybackRate := Num(c.playbackRate.value)]; }
    ghost var w1 := obj;
    Wrote(first, w1, c, done, KPlaybackRate);
    if c.pitchOffsetSemitones.Some? { obj := obj[KPitchOffsetSemitones := Num(c.pitchOffsetSemitones.value)]; }
    ghost var w2 := obj;
    Wrote(w1, w2, c, done + {KPlaybackRate}, KPitchOffsetSemitones);
    if c.loop.Some? { obj := obj[KLoop := LoopJson(c.loop.value)]; }
    ghost var w3 := obj;
    Wrote(w2, w3, c, done + {KPlaybackRate} + {KPitchOffsetSemitones}, KLoop);
    if c.repeat.Some? { obj := obj[KRepeat := Bool(c.repeat.value)]; }
    Wrote(w3, obj, c, done + {KPlaybackRate} + {KPitchOffsetSemitones} + {KLoop}, KRepeat);
    WroteAll(obj, c, done + {KPlaybackRate} + {KPitchOffsetSemitones} + {KLoop} + {KRepeat});
  }

  /** The flat object: the deck beside the present fields. */
  function Flat(d: Delta): Fields {
    map[KDeck := Str(DeckName(d.deck))] + ChangesFields(d.changes)
  }

  /** The wire shape: the deck at the top level, the fields under `changes`. */
  function DeltaMessage(d: Delta): Value {
    Obj(map[KType := Str("delta"), KDeck := Str(DeckName(d.deck)), KChanges := Obj(ChangesFields(d.changes))])
  }

  method ToVar(d: Delta) returns (v: Value)
    ensures v == Obj(Flat(d))
  {
    var rest := WriteChanges(d.changes);
    v := Obj(map[KDeck := Str(DeckName(d.deck))] + rest);
  }

  /** Moves every property of the flat object to its place in the message. */
  method BuildDelta(d: Delta) returns (m: Value)
    ensures m == DeltaMessage(d)
  {
    var flat := ToVar(d);
    var result: Fields, changes: Fields := map[KType := Str("delta")], map[];
    var left := flat.fields.Keys;
    while left != {}
      invariant left <= flat.fields.Keys
      invariant result == if KDeck in left then map[KType := Str("delta")]
                          else map[KType := Str("delta"), KDeck := flat.fields[KDeck]]
      invariant forall k :: k in changes ==> k in flat.fields && k !in left && k != KDeck && changes[k] == flat.fields[k]
      invariant forall k :: k in flat.fields && k !in left && k != KDeck ==> k in changes
      decreases |left|
    {
      var k :| k in left;
      if k == KDeck { result := result[k := flat.fields[k]]; } else { changes := changes[k := flat.fields[k]]; }
      left := left - {k};
    }
    assert changes == ChangesFields(d.changes);
    m := Obj(result[KChanges := Obj(changes)]);
  }

  // ---------------------------------------------------------------- reading

  method ParseTrackId(v: Value) returns (r: Option<string>)
    ensures r == if FieldParses(KTrackId, v) then Some(AsTrack(v)) else None
  {
    if v.Null? { return Some(""); }
    if !v.Str? || !ValidTrackId(v.s) { return None; }
    r := Some(v.s);
  }

  method ParseBool(v: Value) returns (r: Option<bool>)
    ensures r == if v.Bool? then Some(AsBool(v)) else None
  {
    r := if v.Bool? then Some(v.b) else None;
  }

  method ParseFinite(v: Value) returns (r: Option<real>)
    ensures r == if v.Num? then Some(AsNum(v)) else None
  {
    r := if v.Num? then Some(v.n) else None;
  }

  /** Null is "no loop"; otherwise exactly the two bounds, in order. */
  method ParseLoopValue(v: Value) returns (r: Option<Option<LoopPoints>>)
    ensures r == if FieldParses(KLoop, v) then Some(AsLoop(v)) else None
  {
    if v.Null? { return Some(None); }
    if !v.Obj? || !(v.fields.Keys <= {KInSeconds, KOutSeconds}) { return None; }
    if KInSeconds !in v.fields || KOutSeconds !in v.fields { return None; }
    var i := ParseFinite(v.fields[KInSeconds]);
    var o := ParseFinite(v.fields[KOutSeconds]);
    if i.None? || o.None? || !(i.value < o.value) { return None; }
    r := Some(Some(LoopPoints(i.value, o.value)));
  }

  lemma AllParse(obj: Fields)
    requires obj.Keys <= CHANGE_KEYS
    requires KTrackId in obj ==> FieldParses(KTrackId, obj[KTrackId])
    requires KPlaying in obj ==> FieldParses(KPlaying, obj[KPlaying])
    requires KLoop in obj ==> FieldParses(KLoop, obj[KLoop])
    requires KRepeat in obj ==> FieldParses(KRepeat, obj[KRepeat])
    requires forall k :: k in obj && k in NUMBERS ==> FieldParses(k, obj[k])
    ensures FieldsParse(obj)
  {}

  ghost const NUMBERS: set<Key> := {KPositionSeconds, KGain, KPlaybackRate, KPitchOffsetSemitones}

  /** The fields every parser of deck objects reads, one by one; the first bad one fails the whole object. */
  method ParseFields(obj: Fields) returns (r: Option<Changes>)
    ensures r == if FieldsParse(obj) then Some(ReadChanges(obj)) else None
  {
    if !(obj.Keys <= CHANGE_KEYS) {
      ghost var k :| k in obj && k !in CHANGE_KEYS;
      assert !FieldParses(k, obj[k]);
      return None;
    }
    var c := Changes(None, None, None, None, None, None, None, None);
    if KTrackId in obj {
      var t := ParseTrackId(obj[KTrackId]);
      if t.None? { return None; }
      c := c.(trackId := t);
    }
    var okPlaying, playing := ParseFlag(obj, KPlaying);
    if !okPlaying { return None; }
    c := c.(playing := playing);
    var numbers := ParseNumbers(obj);
    if numbers.None? { return None; }
    c := c.(positionSeconds := numbers.value.0, gain := numbers.value.1, playbackRate := numbers.value.2,
            pitchOffsetSemitones := numbers.value.3);
    if KLoop in obj {
      var l := ParseLoopValue(obj[KLoop]);
      if l.None? { return None; }
      c := c.(loop := l);
    }
    var okRepeat, repeat := ParseFlag(obj, KRepeat);
    if !okRepeat { return None; }
    c := c.(repeat := repeat);
    AllParse(obj);
    r := Some(c);
  }

  method ParseFlag(obj: Fields, k: Key) returns (ok: bool, r: Option<bool>)
    requires k == KPlaying || k == KRepeat
    ensures ok <==> (k in obj ==> FieldParses(k, obj[k]))
    ensures ok ==> r == Read(obj, k, AsBool)
  {
    if k !in obj { return true, None; }
    r := ParseBool(obj[k]);
    ok := r.Some?;
  }

  method ParseNumber(obj: Fields, k: Key) returns (ok: bool, r: Option<real>)
    requires k in NUMBERS
    ensures ok <==> (k in obj ==> FieldParses(k, obj[k]))
    ensures ok ==> r == Read(obj, k, AsNum)
  {
    if k !in obj { return true, None; }
    r := ParseFinite(obj[k]);
    ok := r.Some?;
  }

  method ParseNumbers(obj: Fields) returns (r: Option<(Option<real>, Option<real>, Option<real>, Option<real>)>)
    ensures r.None? ==> exists k :: k in obj && !FieldParses(k, obj[k])
    ensures r.Some? ==>
      && r.value == (Read(obj, KPositionSeconds, AsNum), Read(obj, KGain, AsNum), Read(obj, KPlaybackRate, AsNum),
                     Read(obj, KPitchOffsetSemitones, AsNum))
      && (forall k :: k in obj && k in NUMBERS ==> FieldParses(k, obj[k]))
  {
    var okP, p := ParseNumber(obj, KPositionSeconds);
    if !okP { return None; }
    var okG, g := ParseNumber(obj, KGain);
    if !okG { return None; }
    var okR, rate := ParseNumber(obj, KPlaybackRate);
    if !okR { return None; }
    var okS, pitch := ParseNumber(obj, KPitchOffsetSemitones);
    if !okS { return None; }
    r := Some((p, g, rate, pitch));
  }

  /** A deck of a snapshot: what it leaves out is at its default. */
  method FromVarState(v: Value) returns (r: Option<Deck>)
    ensures r == if v.Obj? && FieldsParse(v.fields) then Some(ReadDeck(v.fields)) else None
  {
    if !v.Obj? { return None; }
    var c := ParseFields(v.fields);
    r := if c.Some? then Some(Merge(DEFAULT_DECK, c.value)) else None;
  }

  predicate FlatParses(v: Value) {
    && v.Obj? && KDeck in v.fields
    && (v.fields[KDeck] == Str("A") || v.fields[KDeck] == Str("B"))
    && FieldsParse(v.fields - {KDeck})
  }

  method FromVarDelta(v: Value) returns (r: Option<Delta>)
    ensures r == if FlatParses(v)
                 then Some(Delta(AsDeckId(v.fields[KDeck]), ReadChanges(v.fields - {KDeck}))) else None
  {
    if !v.Obj? || KDeck !in v.fields { return None; }
    if v.fields[KDeck] != Str("A") && v.fields[KDeck] != Str("B") { return None; }
    var c := ParseFields(v.fields - {KDeck});
    r := if c.Some? then Some(Delta(AsDeckId(v.fields[KDeck]), c.value)) else None;
  }

  /** The flat object rebuilt from a message: the deck, then every property of `changes` (one of which may
      overwrite the deck). */
  function Flattened(m: Value): Option<Value> {
    if m.Obj? && KDeck in m.fields && KChanges in m.fields && m.fields[KChanges].Obj?
    then Some(Obj(map[KDeck := m.fields[KDeck]] + m.fields[KChanges].fields))
    else None
  }

  /** What a delta message parses to; nothing else of the message matters. */
  function ParsedDelta(m: Value): Option<Delta> {
    var flat := Flattened(m);
    if flat.Some? && FlatParses(flat.value)
    then Some(Delta(AsDeckId(flat.value.fields[KDeck]), ReadChanges(flat.value.fields - {KDeck})))
    else None
  }

  method Flatten(deck: Value, changes: Fields) returns (flat: Fields)
    ensures flat == map[KDeck := deck] + changes
  {
    flat := map[KDeck := deck];
    var left := changes.Keys;
    while left != {}
      invariant left <= changes.Keys
      invariant flat.Keys == {KDeck} + (changes.Keys - left)
      invariant forall k :: k in flat ==> flat[k] == if k in changes && k !in left then changes[k] else deck
      decreases |left|
    {
      var k :| k in left;
      flat, left := flat[k := changes[k]], left - {k};
    }
  }

  method ParseDeltaMessage(m: Value) returns (r: Option<Delta>)
    ensures r == ParsedDelta(m)
  {
    if !m.Obj? || KDeck !in m.fields || KChanges !in m.fields || !m.fields[KChanges].Obj? { return None; }
    var flat := Flatten(m.fields[KDeck], m.fields[KChanges].fields);
    r := FromVarDelta(Obj(flat));
  }

  predicate Carries(m: Value, n: nat) {
    m.Obj? && KServerSeq in m.fields && m.fields[KServerSeq] == Num(n as real)
  }

  /** A sequence number is read exactly when it is a whole number a 32-bit integer can hold. */
  method MessageServerSeq(m: Value) returns (r: Option<nat>)
    ensures r.Some? ==> r.value <= Clients.INT_MAX && Carries(m, r.value)
    ensures r.None? ==> forall n: nat :: n <= Clients.INT_MAX ==> !Carries(m, n)
  {
    if !m.Obj? || KServerSeq !in m.fields { return None; }
    var d := ParseFinite(m.fields[KServerSeq]);
    assert forall n: nat :: Carries(m, n) ==> d == Some(n as real);
    if d.None? || d.value < 0.0 || d.value.Floor as real != d.value || d.value > Clients.INT_MAX as real { return None; }
    r := Some(d.value.Floor);
  }
}
