/** The two ends agree on the wire: what the client writes, the server accepts, relays and merges, and the
    receiving client reads. */
module Wire {
  import opened Playback
  import opened Messages
  import opened Json
  import opened WireForm
  import opened Validation
  import opened Serialization

  /** A delta the client writes is parsed back to itself if its track id and loop are usable, and rejected if not. */
  lemma DeltaRoundTrip(d: Delta)
    ensures ParsesChanges(d.changes) ==> ParsedDelta(DeltaMessage(d)) == Some(d)
    ensures !ParsesChanges(d.changes) ==> ParsedDelta(DeltaMessage(d)).None?
  {
    var m := ChangesFields(d.changes);
    WriteThenRead(d.changes);
    WrittenParses(d.changes);
    FlatRest(Str(DeckName(d.deck)), m);
    FlattenedIsFlat(d);
  }

  lemma FlattenedIsFlat(d: Delta)
    ensures Flattened(DeltaMessage(d)) == Some(Obj(Flat(d)))
    ensures Flat(d)[KDeck] == Str(DeckName(d.deck)) && AsDeckId(Str(DeckName(d.deck))) == d.deck
  {}

  lemma FlatRest(deck: Value, m: Fields)
    requires KDeck !in m
    ensures (map[KDeck := deck] + m) - {KDeck} == m
  {}

  /** The server accepts a delta the client writes exactly when its changes are acceptable. */
  lemma AcceptedIffAcceptable(d: Delta)
    ensures DeltaOk(DeltaMessage(d)) <==> Acceptable(d.changes)
  {
    WriteThenRead(d.changes);
    WrittenParses(d.changes);
    OkIsAcceptable(ChangesFields(d.changes));
  }

  /** Every message the server accepts is one the client could have written: typed deltas lose nothing. */
  lemma AcceptedIsWritten(m: Value) returns (d: Delta)
    requires DeltaOk(m)
    ensures m == DeltaMessage(d) && Acceptable(d.changes)
    ensures ReadUp(m) == DeltaUp(d)
  {
    var fields := m.fields[KChanges].fields;
    d := Delta(AsDeckId(m.fields[KDeck]), ReadChanges(fields));
    OkIsAcceptable(fields);
    ReadThenWrite(fields);
    assert m.fields == DeltaMessage(d).fields;
  }

  /** What the server broadcasts for an accepted delta. */
  function Relayed(m: Value, serverSeq: nat, source: string): Value
    requires DeltaOk(m)
  {
    Obj(map[KType := Str("delta"), KServerSeq := Num(serverSeq as real), KSourceClientId := Str(source),
            KDeck := m.fields[KDeck], KChanges := m.fields[KChanges]])
  }

  /** Whatever the server accepts and relays, the receiving client parses, to the very delta that was sent, and
      its clamp leaves that unchanged. */
  lemma RelayedIsParsed(m: Value, serverSeq: nat, source: string) returns (d: Delta)
    requires DeltaOk(m)
    ensures m == DeltaMessage(d)
    ensures ParsedDelta(Relayed(m, serverSeq, source)) == Some(d)
    ensures ClampChanges(d.changes) == d.changes
    ensures Carries(Relayed(m, serverSeq, source), serverSeq)
  {
    d := AcceptedIsWritten(m);
    AcceptableIsClean(DEFAULT_DECK, d.changes);
    DeltaRoundTrip(d);
    OnlyDeckAndChanges(m, Relayed(m, serverSeq, source));
  }

  lemma OnlyDeckAndChanges(m: Value, r: Value)
    requires m.Obj? && KDeck in m.fields && KChanges in m.fields
    requires r.Obj? && KDeck in r.fields && KChanges in r.fields
    requires r.fields[KDeck] == m.fields[KDeck] && r.fields[KChanges] == m.fields[KChanges]
    ensures ParsedDelta(r) == ParsedDelta(m)
  {}

  /** A deck's wire form is read back to the deck exactly when its track id and loop are usable. */
  lemma SnapshotRoundTrip(s: Deck)
    ensures ReadDeck(DeckFields(s)) == s
    ensures FieldsParse(DeckFields(s)) <==> ParsesDeck(s)
  {
    WriteThenRead(FullResync(s));
    WrittenParses(FullResync(s));
  }

  /** Merging the relayed delta after parsing gives the deck that parsing gives after the server merged it:
      JSON-level and typed merging commute with reading. */
  lemma MergesAgree(s: Deck, m: Value, serverSeq: nat, source: string) returns (d: Delta)
    requires ValidDeck(s) && DeltaOk(m)
    ensures ParsedDelta(Relayed(m, serverSeq, source)) == Some(d)
    ensures var stored := DeckFields(s) + m.fields[KChanges].fields;
      && FieldsParse(stored) && stored == DeckFields(Merge(s, d.changes))
      && ReadDeck(stored) == Merge(s, ClampChanges(d.changes))
      && ClampDeck(ReadDeck(stored)) == ReadDeck(stored)
  {
    d := RelayedIsParsed(m, serverSeq, source);
    var t := Merge(s, d.changes);
    var _ := AcceptedIsWritten(m);
    MergeOnTheWire(s, d.changes);
    SnapshotRoundTrip(t);
    AcceptedIffAcceptable(d);
    AcceptableIsClean(s, d.changes);
    ResyncExact(t, t);
  }

  /** A message is more than one kind only in form: reading a written delta gives the delta or, if the server
      would reject it, a malformed message. */
  lemma WrittenIsRead(d: Delta)
    ensures ReadUp(DeltaMessage(d)) == if Acceptable(d.changes) then DeltaUp(d) else Malformed
  {
    AcceptedIffAcceptable(d);
    WriteThenRead(d.changes);
  }

  // ---------------------------------------------------------------- the messages of the protocol, spelled out

  /** Pressing play on deck B at 12.5 seconds. */
  lemma DeltaSpelledOut()
    ensures var c := Changes(None, Some(true), Some(12.5), None, None, None, None, None);
      DeltaMessage(Delta(B, c)) == Obj(map[KType := Str("delta"), KDeck := Str("B"),
        KChanges := Obj(map[KPlaying := Bool(true), KPositionSeconds := Num(12.5)])])
    ensures var c := Changes(Some(""), None, None, Some(0.5), None, None, Some(Some(LoopPoints(1.0, 2.0))), Some(false));
      DeltaMessage(Delta(A, c)) == Obj(map[KType := Str("delta"), KDeck := Str("A"),
        KChanges := Obj(map[KTrackId := Null, KGain := Num(0.5), KRepeat := Bool(false),
                            KLoop := Obj(map[KInSeconds := Num(1.0), KOutSeconds := Num(2.0)])])])
  {
    var c := Changes(None, Some(true), Some(12.5), None, None, None, None, None);
    assert ChangesFields(c) == map[KPlaying := Bool(true), KPositionSeconds := Num(12.5)];
    var d := Changes(Some(""), None, None, Some(0.5), None, None, Some(Some(LoopPoints(1.0, 2.0))), Some(false));
    assert ChangesFields(d) == map[KTrackId := Null, KGain := Num(0.5), KRepeat := Bool(false),
                                   KLoop := Obj(map[KInSeconds := Num(1.0), KOutSeconds := Num(2.0)])];
  }

  /** The messages that carry nothing. */
  lemma PlainMessages()
    ensures ReadUp(Obj(map[KType := Str("claimControl")])) == ClaimControl
    ensures ReadUp(Obj(map[KType := Str("releaseControl")])) == ReleaseControl
    ensures ReadUp(Obj(map[KType := Str("requestSnapshot")])) == RequestSnapshot
  {
    assert "claimControl"[0] != "hello"[0] && "releaseControl"[0] != "hello"[0] && "requestSnapshot"[0] != "hello"[0];
    assert "releaseControl"[0] != "claimControl"[0] && "requestSnapshot"[0] != "claimControl"[0];
    assert "requestSnapshot"[2] != "releaseControl"[2];
    assert "claimControl"[0] != "delta"[0] && "releaseControl"[0] != "delta"[0] && "requestSnapshot"[0] != "delta"[0];
  }

  /** A hello as it is written is heard as it is meant: refused with 4001 unless its version is 2, with 4000 for a bad
      name or an impossible room code, and with 4004 for the wrong one. */
  lemma HelloIsHeard(cfg: Rooms.Config, version: real, name: string, room: string)
    ensures var u := ReadUp(Obj(map[KType := Str("hello"), KProtocolVersion := Num(version), KName := Str(name),
                                    KRoom := Str(room)]));
      && u.Hello? && u.name == name && u.room == room
      && Rooms.HelloFault(cfg, u.version, u.name, u.room)
         == (if version != 2.0 then Some(4001)
             else if !ServerAcceptsName(name) || !(1 <= Utf16Length(room) <= 64) then Some(4000)
             else if room != cfg.roomCode then Some(4004) else None)
  {
    var m := Obj(map[KType := Str("hello"), KProtocolVersion := Num(version), KName := Str(name), KRoom := Str(room)]);
    assert HelloShape(m);
  }

  /** A deck object leaves out what is at its default: no track, stopped at zero, unit gain and rate, no pitch offset, no
      loop, repeating. */
  lemma AbsentIsDefault(m: Fields)
    ensures var s := ReadDeck(m);
      && (KTrackId !in m ==> s.trackId == "") && (KPlaying !in m ==> !s.playing)
      && (KPositionSeconds !in m ==> s.positionSeconds == 0.0) && (KGain !in m ==> s.gain == 1.0)
      && (KPlaybackRate !in m ==> s.playbackRate == 1.0)
      && (KPitchOffsetSemitones !in m ==> s.pitchOffsetSemitones == 0.0)
      && (KLoop !in m ==> s.loop.None?) && (KRepeat !in m ==> s.repeat)
  {}
}
