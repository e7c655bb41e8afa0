/** The server's strict checks on inbound messages, server/src/validate.js, and the field-by-field merge of
    an accepted delta, server/src/room.js. */
module Validation {
  import opened Playback
  import opened Messages
  import opened Json
  import opened WireForm
  import Rooms

  const NUMERIC_CHANGE_KEYS := [KPositionSeconds, KGain, KPlaybackRate, KPitchOffsetSemitones]

  function Range(k: Key): (real, real) {
    match k
    case KPositionSeconds => (0.0, 86400.0)
    case KGain => (0.0, 2.0)
    case KPlaybackRate => (0.5, 2.0)
    case KPitchOffsetSemitones => (-12.0, 12.0)
    case _ => (0.0, 86400.0)
  }

  predicate InRange(k: Key, x: real) { Range(k).0 <= x <= Range(k).1 }

  /** One field of a delta as the server wants it. */
  predicate FieldOk(k: Key, v: Value) {
    && FieldParses(k, v)
    && (k in NUMERIC_CHANGE_KEYS ==> InRange(k, v.n))
    && (k == KLoop && v.Obj? ==>
          InRange(KInSeconds, v.fields[KInSeconds].n) && InRange(KOutSeconds, v.fields[KOutSeconds].n))
  }

  predicate ChangesOk(v: Value) {
    && v.Obj? && v.fields != map[]
    && (forall k :: k in v.fields ==> FieldOk(k, v.fields[k]))
    && (KPlaying in v.fields && v.fields[KPlaying] == Bool(true) ==> KPositionSeconds in v.fields)
  }

  predicate DeltaOk(m: Value) {
    && m.Obj? && m.fields.Keys == {KType, KDeck, KChanges}
    && m.fields[KType] == Str("delta")
    && (m.fields[KDeck] == Str("A") || m.fields[KDeck] == Str("B"))
    && ChangesOk(m.fields[KChanges])
  }

  method ValidateTrackId(v: Value) returns (r: Option<Value>)
    ensures r == if FieldOk(KTrackId, v) then Some(v) else None
  {
    if v.Null? { return Some(Null); }
    if !v.Str? || !(1 <= |v.s| <= 64) { return None; }
    for i := 0 to |v.s|
      invariant forall j :: 0 <= j < i ==> TrackIdChar(v.s[j])
    {
      if !TrackIdChar(v.s[i]) { return None; }
    }
    if v.s == "." { return None; }
    for i := 0 to |v.s| - 1
      invariant forall j :: 0 <= j < i ==> !(v.s[j] == '.' && v.s[j + 1] == '.')
    {
      if v.s[i] == '.' && v.s[i + 1] == '.' { return None; }
    }
    r := Some(v);
  }

  method ValidateNumericField(k: Key, v: Value) returns (r: Option<Value>)
    requires k in NUMERIC_CHANGE_KEYS
    ensures r == if FieldOk(k, v) then Some(v) else None
  {
    if !v.Num? || !InRange(k, v.n) { return None; }
    r := Some(v);
  }

  /** The accepted loop is rebuilt from its two bounds, so that it shares nothing with the message. */
  method ValidateLoop(v: Value) returns (r: Option<Value>)
    ensures r == if FieldOk(KLoop, v) then Some(v) else None
  {
    if v.Null? { return Some(Null); }
    if !v.Obj? || v.fields.Keys != {KInSeconds, KOutSeconds} { return None; }
    var i, o := v.fields[KInSeconds], v.fields[KOutSeconds];
    if !i.Num? || !o.Num? || !InRange(KInSeconds, i.n) || !InRange(KOutSeconds, o.n) || !(i.n < o.n) { return None; }
    r := Some(Obj(map[KInSeconds := i, KOutSeconds := o]));
    assert r.value.fields == v.fields;
  }

  /** Assembles the accepted fields one by one; the result has exactly the fields of the input. */
  method ValidateChanges(changes: Value) returns (r: Option<Fields>)
    ensures r.Some? <==> ChangesOk(changes)
    ensures r.Some? ==> r.value == changes.fields
  {
    if !changes.Obj? || changes.fields == map[] { return None; }
    var fields := changes.fields;
    if !(fields.Keys <= CHANGE_KEYS) {
      ghost var k :| k in fields && k !in CHANGE_KEYS;
      assert !FieldOk(k, fields[k]);
      return None;
    }
    var value: Fields := map[];
    if KTrackId in fields {
      var t := ValidateTrackId(fields[KTrackId]);
      if t.None? { return None; }
      value := value[KTrackId := t.value];
    }
    ghost var v1 := value;
    Extended(map[], v1, fields, {}, KTrackId);
    if KPlaying in fields {
      if !fields[KPlaying].Bool? { assert !FieldOk(KPlaying, fields[KPlaying]); return None; }
      value := value[KPlaying := fields[KPlaying]];
    }
    ghost var v2 := value;
    Extended(v1, v2, fields, {KTrackId}, KPlaying);
    if KRepeat in fields {
      if !fields[KRepeat].Bool? { assert !FieldOk(KRepeat, fields[KRepeat]); return None; }
      value := value[KRepeat := fields[KRepeat]];
    }
    Extended(v2, value, fields, {KTrackId, KPlaying}, KRepeat);
    var rest := ValidateNumericFields(fields);
    if rest.None? { return None; }
    AssembledUnion(value, rest.value, fields, {KTrackId, KPlaying, KRepeat}, NUMERIC_CHANGE_SET);
    value := value + rest.value;
    ghost var v3 := value;
    if KLoop in fields {
      var l := ValidateLoop(fields[KLoop]);
      if l.None? { return None; }
      value := value[KLoop := l.value];
    }
    Extended(v3, value, fields, {KTrackId, KPlaying, KRepeat} + NUMERIC_CHANGE_SET, KLoop);
    AllAssembled(value, fields);
    if KPlaying in value && value[KPlaying] == Bool(true) && KPositionSeconds !in value { return None; }
    r := Some(value);
  }

  ghost const NUMERIC_CHANGE_SET: set<Key> := set k | k in NUMERIC_CHANGE_KEYS

  lemma Extended(value: Fields, value': Fields, fields: Fields, done: set<Key>, k: Key)
    requires Assembled(value, fields, done)
    requires k in fields ==> FieldOk(k, fields[k])
    requires value' == if k in fields then value[k := fields[k]] else value
    ensures Assembled(value', fields, done + {k})
  {}

  lemma AssembledUnion(v: Fields, w: Fields, fields: Fields, s: set<Key>, t: set<Key>)
    requires Assembled(v, fields, s) && Assembled(w, fields, t)
    ensures Assembled(v + w, fields, s + t)
  {}

  lemma AllAssembled(value: Fields, fields: Fields)
    requires fields.Keys <= CHANGE_KEYS
    requires Assembled(value, fields, {KTrackId, KPlaying, KRepeat} + NUMERIC_CHANGE_SET + {KLoop})
    ensures value == fields && forall k :: k in fields ==> FieldOk(k, fields[k])
  {
    assert KPositionSeconds == NUMERIC_CHANGE_KEYS[0] && KGain == NUMERIC_CHANGE_KEYS[1]
        && KPlaybackRate == NUMERIC_CHANGE_KEYS[2] && KPitchOffsetSemitones == NUMERIC_CHANGE_KEYS[3];
  }

  /** `value` holds the fields of `fields` among `done`, each of them acceptable. */
  ghost predicate Assembled(value: Fields, fields: Fields, done: set<Key>) {
    && (forall k :: k in value ==> k in done && k in fields && value[k] == fields[k] && FieldOk(k, fields[k]))
    && (forall k :: k in done && k in fields ==> k in value)
  }

  method ValidateNumericFields(fields: Fields) returns (r: Option<Fields>)
    ensures r.Some? ==> Assembled(r.value, fields, NUMERIC_CHANGE_SET)
    ensures r.None? ==> exists k :: k in fields && !FieldOk(k, fields[k])
  {
    var value: Fields := map[];
    for i := 0 to |NUMERIC_CHANGE_KEYS|
      invariant Assembled(value, fields, set k | k in NUMERIC_CHANGE_KEYS[..i])
    {
      var name := NUMERIC_CHANGE_KEYS[i];
      assert NUMERIC_CHANGE_KEYS[..i + 1] == NUMERIC_CHANGE_KEYS[..i] + [name];
      if name in fields {
        var n := ValidateNumericField(name, fields[name]);
        if n.None? { return None; }
        value := value[name := n.value];
      }
    }
    assert NUMERIC_CHANGE_KEYS[..|NUMERIC_CHANGE_KEYS|] == NUMERIC_CHANGE_KEYS;
    r := Some(value);
  }

  method ValidateDelta(m: Value) returns (r: Option<(DeckId, Fields)>)
    ensures r.Some? <==> DeltaOk(m)
    ensures r.Some? ==> m.fields[KDeck] == Str(DeckName(r.value.0)) && r.value.1 == m.fields[KChanges].fields
  {
    if !m.Obj? || KType !in m.fields || m.fields[KType] != Str("delta") { return None; }
    if m.fields.Keys != {KType, KDeck, KChanges} { return None; }
    if m.fields[KDeck] != Str("A") && m.fields[KDeck] != Str("B") { return None; }
    var changes := ValidateChanges(m.fields[KChanges]);
    if changes.None? { return None; }
    r := Some((AsDeckId(m.fields[KDeck]), changes.value));
  }

  /** The deck's stored object is overwritten entry by entry. */
  method MergeChanges(target: Fields, changes: Fields) returns (merged: Fields)
    ensures merged == target + changes
  {
    merged := target;
    var left := changes.Keys;
    while left != {}
      invariant left <= changes.Keys
      invariant merged.Keys == target.Keys + (changes.Keys - left)
      invariant forall k :: k in merged ==>
        merged[k] == if k in changes && k !in left then changes[k] else target[k]
      decreases |left|
    {
      var k :| k in left;
      merged, left := merged[k := changes[k]], left - {k};
    }
  }

  // ---------------------------------------------------------------- hello and the other types

  const TYPES := ["hello", "claimControl", "releaseControl", "delta", "requestSnapshot"]

  function TypeOf(m: Value): Option<string> {
    if m.Obj? && KType in m.fields && m.fields[KType].Str? then Some(m.fields[KType].s) else None
  }

  /** A protocol version is a number without a fraction. */
  function VersionOf(m: Value): Option<int>
    requires m.Obj?
  {
    if KProtocolVersion in m.fields && m.fields[KProtocolVersion].Num?
      && m.fields[KProtocolVersion].n.Floor as real == m.fields[KProtocolVersion].n
    then Some(m.fields[KProtocolVersion].n.Floor)
    else None
  }

  predicate HelloShape(m: Value)
    requires m.Obj?
  {
    && m.fields.Keys == {KType, KProtocolVersion, KName, KRoom}
    && m.fields[KName].Str? && m.fields[KRoom].Str?
  }

  /** The typed form of a message: what the room's meaning (module Rooms) is defined on.  A hello of the wrong
      shape reads as one with an unusable name, every other unusable message as Malformed. */
  function ReadUp(m: Value): Up {
    var t := TypeOf(m);
    if t.None? then Malformed
    else if t.value == "hello" then
      if HelloShape(m) then Hello(VersionOf(m), m.fields[KName].s, m.fields[KRoom].s)
      else Hello(VersionOf(m), "", "")
    else if t.value == "delta" && DeltaOk(m) then
      DeltaUp(Delta(AsDeckId(m.fields[KDeck]), ReadChanges(m.fields[KChanges].fields)))
    else if m.fields.Keys != {KType} then Malformed
    else if t.value == "claimControl" then ClaimControl
    else if t.value == "releaseControl" then ReleaseControl
    else if t.value == "requestSnapshot" then RequestSnapshot
    else Malformed
  }

  predicate EnvelopeOk(m: Value) {
    TypeOf(m).Some? && TypeOf(m).value in TYPES
    && (TypeOf(m).value in ["claimControl", "releaseControl", "requestSnapshot"] ==> m.fields.Keys == {KType})
  }

  /** An object of a known type, and no fields beside the type where none are taken. */
  method ValidateEnvelope(m: Value) returns (r: Option<string>)
    ensures r == if EnvelopeOk(m) then TypeOf(m) else None
  {
    if !m.Obj? || KType !in m.fields || !m.fields[KType].Str? { return None; }
    var t := m.fields[KType].s;
    if t !in TYPES { return None; }
    if t in ["claimControl", "releaseControl", "requestSnapshot"] && m.fields.Keys != {KType} { return None; }
    r := Some(t);
  }

  /** Reading loses no rejection: a message reads as malformed exactly when its envelope, or the delta in it, is
      rejected; and a hello never does. */
  lemma MalformedIffRejected(m: Value)
    ensures ReadUp(m).Malformed? <==> !EnvelopeOk(m) || (TypeOf(m) == Some("delta") && !DeltaOk(m))
  {
    assert "hello" == TYPES[0] && "claimControl" == TYPES[1] && "releaseControl" == TYPES[2]
        && "delta" == TYPES[3] && "requestSnapshot" == TYPES[4];
    if TypeOf(m) == Some("delta") && !DeltaOk(m) && m.fields.Keys == {KType} {
      assert m.fields[KType].s == "delta";
    }
  }

  /** The checks of a hello in the server's order give the close code of its typed form. */
  method ValidateHello(cfg: Rooms.Config, m: Value) returns (fault: Option<int>)
    requires TypeOf(m) == Some("hello")
    ensures var u := ReadUp(m);
      u.Hello? && fault == Rooms.HelloFault(cfg, u.version, u.name, u.room)
  {
    if KProtocolVersion !in m.fields || !m.fields[KProtocolVersion].Num? { return Some(Rooms.CLOSE_VERSION_MISMATCH); }
    if m.fields[KProtocolVersion].n != PROTOCOL_VERSION as real { return Some(Rooms.CLOSE_VERSION_MISMATCH); }
    if m.fields.Keys != {KType, KProtocolVersion, KName, KRoom} { return Some(Rooms.CLOSE_BAD_HANDSHAKE); }
    var name, room := m.fields[KName], m.fields[KRoom];
    if !name.Str? || !(1 <= Utf16Length(name.s) <= 32) { return Some(Rooms.CLOSE_BAD_HANDSHAKE); }
    for i := 0 to |name.s|
      invariant forall j :: 0 <= j < i ==> !ControlChar(name.s[j]) && !FormatChar(name.s[j])
    {
      if ControlChar(name.s[i]) || FormatChar(name.s[i]) { return Some(Rooms.CLOSE_BAD_HANDSHAKE); }
    }
    if !room.Str? || !(1 <= Utf16Length(room.s) <= 64) { return Some(Rooms.CLOSE_BAD_HANDSHAKE); }
    if room.s != cfg.roomCode { return Some(Rooms.CLOSE_WRONG_ROOM); }
    fault := None;
  }

  /** The server's acceptance of a delta is exactly acceptability of the changes it carries: the message is one
      the client could have written, for acceptable changes, and nothing else. */
  lemma OkIsAcceptable(m: Fields)
    ensures ChangesOk(Obj(m)) <==> FieldsParse(m) && Acceptable(ReadChanges(m))
  {
    if FieldsParse(m) && Acceptable(ReadChanges(m)) {
      ReadThenWrite(m);
      forall k | k in m ensures FieldOk(k, m[k]) { AcceptableField(m, k); }
    }
    if ChangesOk(Obj(m)) { OkReads(m); }
  }

  lemma OkReads(m: Fields)
    requires ChangesOk(Obj(m))
    ensures FieldsParse(m) && Acceptable(ReadChanges(m))
  {
    var c := ReadChanges(m);
    forall k | k in m ensures FieldParses(k, m[k]) { assert FieldOk(k, m[k]); }
    NonEmptyReads(m);
    forall k | k in CHANGE_KEYS ensures FieldAcceptable(c, k) {
      if k in m { OkField(m, k); }
    }
    assert FieldAcceptable(c, KTrackId) && FieldAcceptable(c, KPositionSeconds) && FieldAcceptable(c, KGain);
    assert FieldAcceptable(c, KPlaybackRate) && FieldAcceptable(c, KPitchOffsetSemitones) && FieldAcceptable(c, KLoop);
  }

  lemma NonEmptyReads(m: Fields)
    requires FieldsParse(m) && m != map[]
    ensures !ReadChanges(m).Empty()
  {
    var k :| k in m;
    assert FieldParses(k, m[k]);
  }

  /** The part of Acceptable that concerns one field. */
  predicate FieldAcceptable(c: Changes, k: Key) {
    match k
    case KTrackId => GoodTrack(c)
    case KPositionSeconds => c.positionSeconds.Some? ==> ValidPosition(c.positionSeconds.value)
    case KGain => c.gain.Some? ==> ValidGain(c.gain.value)
    case KPlaybackRate => c.playbackRate.Some? ==> ValidRate(c.playbackRate.value)
    case KPitchOffsetSemitones => c.pitchOffsetSemitones.Some? ==> ValidPitch(c.pitchOffsetSemitones.value)
    case KLoop => c.loop.Some? && c.loop.value.Some? ==> ValidLoop(c.loop.value.value)
    case _ => true
  }

  lemma AcceptableField(m: Fields, k: Key)
    requires k in m && FieldParses(k, m[k]) && Acceptable(ReadChanges(m))
    ensures FieldOk(k, m[k])
  {}

  lemma OkField(m: Fields, k: Key)
    requires k in m && FieldOk(k, m[k])
    ensures FieldAcceptable(ReadChanges(m), k)
  {}
}
