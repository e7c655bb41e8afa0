/** JSON values as both ends see them after parsing.  Object keys the protocol names are constructors;
    every other key is `KOther`. */
module Json {
  datatype Key =
    | KType | KDeck | KChanges | KServerSeq | KSourceClientId | KProtocolVersion | KName | KRoom
    | KTrackId | KPlaying | KPositionSeconds | KGain | KPlaybackRate | KPitchOffsetSemitones | KLoop | KRepeat
    | KInSeconds | KOutSeconds
    | KOther(name: string)

  datatype Value =
    | Null
    | Bool(b: bool)
    | Num(n: real)
    | Str(s: string)
    | Arr(items: seq<Value>)
    | Obj(fields: map<Key, Value>)

  type Fields = map<Key, Value>
}

/** How the fields of a deck are written on the wire, as a correspondence between typed changes and JSON
    objects: `ChangesFields` one way, `ReadChanges` the other. */
module WireForm {
  import opened Playback
  import opened Json

  const CHANGE_KEYS: set<Key> :=
    {KTrackId, KPlaying, KPositionSeconds, KGain, KPlaybackRate, KPitchOffsetSemitones, KLoop, KRepeat}

  function TrackJson(t: string): Value { if t == "" then Null else Str(t) }

  function LoopJson(l: Option<LoopPoints>): Value {
    if l.None? then Null
    else Obj(map[KInSeconds := Num(l.value.inSeconds), KOutSeconds := Num(l.value.outSeconds)])
  }

  predicate Has(c: Changes, k: Key) {
    match k
    case KTrackId => c.trackId.Some?
    case KPlaying => c.playing.Some?
    case KPositionSeconds => c.positionSeconds.Some?
    case KGain => c.gain.Some?
    case KPlaybackRate => c.playbackRate.Some?
    case KPitchOffsetSemitones => c.pitchOffsetSemitones.Some?
    case KLoop => c.loop.Some?
    case KRepeat => c.repeat.Some?
    case _ => false
  }

  function FieldJson(c: Changes, k: Key): Value
    requires Has(c, k)
  {
    match k
    case KTrackId => TrackJson(c.trackId.value)
    case KPlaying => Bool(c.playing.value)
    case KPositionSeconds => Num(c.positionSeconds.value)
    case KGain => Num(c.gain.value)
    case KPlaybackRate => Num(c.playbackRate.value)
    case KPitchOffsetSemitones => Num(c.pitchOffsetSemitones.value)
    case KLoop => LoopJson(c.loop.value)
    case KRepeat => Bool(c.repeat.value)
  }

  function ChangesFields(c: Changes): Fields {
    map k | k in CHANGE_KEYS && Has(c, k) :: FieldJson(c, k)
  }

  function DeckFields(s: Deck): Fields { ChangesFields(FullResync(s)) }

  function DeckName(d: DeckId): string { if d == A then "A" else "B" }

  // ---------------------------------------------------------------- reading

  function AsTrack(v: Value): string { if v.Str? then v.s else "" }
  function AsBool(v: Value): bool { v.Bool? && v.b }
  function AsNum(v: Value): real { if v.Num? then v.n else 0.0 }

  function AsLoop(v: Value): Option<LoopPoints> {
    if v.Obj? && KInSeconds in v.fields && KOutSeconds in v.fields
    then Some(LoopPoints(AsNum(v.fields[KInSeconds]), AsNum(v.fields[KOutSeconds])))
    else None
  }

  function Read<T>(m: Fields, k: Key, as_: Value -> T): Option<T> {
    if k in m then Some(as_(m[k])) else None
  }

  function ReadChanges(m: Fields): Changes {
    Changes(Read(m, KTrackId, AsTrack), Read(m, KPlaying, AsBool), Read(m, KPositionSeconds, AsNum),
            Read(m, KGain, AsNum), Read(m, KPlaybackRate, AsNum), Read(m, KPitchOffsetSemitones, AsNum),
            Read(m, KLoop, AsLoop), Read(m, KRepeat, AsBool))
  }

  /** A deck object: what it leaves out is at its default. */
  function ReadDeck(m: Fields): Deck { Merge(DEFAULT_DECK, ReadChanges(m)) }

  function AsDeckId(v: Value): DeckId { if v == Str("A") then A else B }

  predicate LoopShape(v: Value) {
    v.Obj? && v.fields.Keys == {KInSeconds, KOutSeconds} && v.fields[KInSeconds].Num? && v.fields[KOutSeconds].Num?
  }

  /** The client's strict parsing of one field: its type, a usable track id, an ordered loop. */
  predicate FieldParses(k: Key, v: Value) {
    match k
    case KTrackId => v.Null? || (v.Str? && ValidTrackId(v.s))
    case KPlaying => v.Bool?
    case KRepeat => v.Bool?
    case KLoop => v.Null? || (LoopShape(v) && v.fields[KInSeconds].n < v.fields[KOutSeconds].n)
    case _ => k in CHANGE_KEYS && v.Num?
  }

  predicate FieldsParse(m: Fields) {
    forall k :: k in m ==> FieldParses(k, m[k])
  }

  // ---------------------------------------------------------------- the correspondence is exact

  lemma WriteThenRead(c: Changes)
    ensures ReadChanges(ChangesFields(c)) == c
  {
    LoopRoundTrip(c);
  }

  lemma WrittenFieldParses(c: Changes, k: Key)
    requires Has(c, k)
    ensures k != KTrackId && k != KLoop ==> FieldParses(k, FieldJson(c, k))
    ensures k == KTrackId ==> (FieldParses(k, FieldJson(c, k)) <==> GoodTrack(c))
    ensures k == KLoop ==> (FieldParses(k, FieldJson(c, k)) <==> GoodLoop(c))
  {
    LoopRoundTrip(c);
  }

  predicate GoodLoop(c: Changes) {
    c.loop.Some? && c.loop.value.Some? ==> c.loop.value.value.inSeconds < c.loop.value.value.outSeconds
  }

  /** What the client writes is readable exactly when its track id and its loop are usable. */
  lemma WrittenParses(c: Changes)
    ensures FieldsParse(ChangesFields(c)) <==> ParsesChanges(c)
  {
    var m := ChangesFields(c);
    if c.trackId.Some? { assert KTrackId in m; WrittenFieldParses(c, KTrackId); }
    if c.loop.Some? { assert KLoop in m; WrittenFieldParses(c, KLoop); }
    forall k | k in m && k != KTrackId && k != KLoop ensures FieldParses(k, m[k]) { WrittenFieldParses(c, k); }
  }

  lemma LoopRoundTrip(c: Changes)
    ensures c.loop.Some? ==> AsLoop(LoopJson(c.loop.value)) == c.loop.value
    ensures c.loop.Some? && c.loop.value.Some? ==> LoopShape(LoopJson(c.loop.value))
  {}

  lemma ReadField(m: Fields, k: Key)
    requires k in CHANGE_KEYS && (k in m ==> FieldParses(k, m[k]))
    ensures Has(ReadChanges(m), k) <==> k in m
    ensures k in m ==> FieldJson(ReadChanges(m), k) == m[k]
  {
    if k == KLoop && k in m { LoopReadThenWrite(m[k]); }
  }

  lemma ReadParses(m: Fields)
    requires FieldsParse(m)
    ensures ParsesChanges(ReadChanges(m))
  {
    assert KTrackId in m ==> FieldParses(KTrackId, m[KTrackId]);
    assert KLoop in m ==> FieldParses(KLoop, m[KLoop]);
  }

  /** Every readable object is exactly what the client would write for what it read. */
  lemma ReadThenWrite(m: Fields)
    requires FieldsParse(m)
    ensures ParsesChanges(ReadChanges(m))
    ensures ChangesFields(ReadChanges(m)) == m
  {
    ReadParses(m);
    var w := ChangesFields(ReadChanges(m));
    forall k | k in w ensures k in m && w[k] == m[k] { ReadField(m, k); }
    forall k | k in m ensures k in w {
      assert FieldParses(k, m[k]);
      ReadField(m, k);
    }
  }

  lemma LoopReadThenWrite(v: Value)
    requires FieldParses(KLoop, v)
    ensures LoopJson(AsLoop(v)) == v
  {
    if v.Obj? {
      assert LoopJson(AsLoop(v)).fields == v.fields;
    }
  }

  lemma MergedField(s: Deck, c: Changes, k: Key)
    requires k in CHANGE_KEYS
    ensures Has(FullResync(s), k)
    ensures FieldJson(FullResync(Merge(s, c)), k) == if Has(c, k) then FieldJson(c, k) else FieldJson(FullResync(s), k)
  {}

  /** Overwriting the written fields of a deck by written changes writes the merged deck. */
  lemma MergeOnTheWire(s: Deck, c: Changes)
    ensures DeckFields(s) + ChangesFields(c) == DeckFields(Merge(s, c))
  {
    var l, r := DeckFields(s) + ChangesFields(c), DeckFields(Merge(s, c));
    forall k | k in CHANGE_KEYS ensures k in l && k in r && l[k] == r[k] {
      MergedField(s, c, k);
      MergedField(Merge(s, c), c, k);
    }
  }
}
