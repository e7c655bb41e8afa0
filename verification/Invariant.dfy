/** What holds in every reachable state of the whole system: each conforming client, once it has handled
    the frames already on their way to it, knows its own identity and role; what is on its way makes sense to
    it; and as long as the sequence number fits, nothing on its way can surprise it. */
module Invariant {
  import opened Playback
  import opened Messages
  import opened Publishing
  import opened Rooms
  import opened Clients
  import opened Replication

  ghost predicate ClientOk(c: Client) {
    && ValidDeck(c.a) && ValidDeck(c.b) && PendingAcceptable(c.publisher)
    && c.publisher.role == c.role && c.publisher.connected == c.connected
    && (c.connected <==> c.ownId.Some?)
    && (c.role == Controller ==> c.connected)
    && |c.peers| <= MAX_PEERS
  }

  /** What a conforming client may have on its way to the server; a snapshot is asked for only once the
      sequence number no longer fits. */
  predicate Sendable(m: Up, tight: bool) {
    m != Malformed && (tight ==> m != RequestSnapshot) && (m.DeltaUp? ==> Acceptable(m.delta.changes))
  }

  ghost predicate UpOk(up: seq<Up>, tight: bool) {
    forall i :: 0 <= i < |up| ==> Sendable(up[i], tight)
  }

  ghost predicate SessionOk(room: Room<nat>, k: nat, ses: Session) {
    && (ses.live && ses.id.Some? ==> IsMember(room, k, ses.id))
    && (ses.conforming ==> UpOk(ses.up, Fits(room)))
    && (ses.conforming && ses.open ==>
          ClientOk(ses.client) && AllExpected(ViewOf(ses.client), ses.down, Fits(room)))
    && (ses.conforming && ses.open && ses.live ==> InTouch(room, ses))
  }

  ghost predicate InTouch(room: Room<nat>, ses: Session) {
    && (ses.id.None? ==> ses.down == [] && !ses.client.connected && ses.client.lastSeen.None?)
    && (ses.id.Some? ==> Agrees(ObserveAll(ViewOf(ses.client), ses.down), room, ses.id.value))
  }

  ghost predicate MembersOk(room: Room<nat>, sessions: map<nat, Session>) {
    forall i :: 0 <= i < |room.clients| ==>
      room.clients[i].conn in sessions && sessions[room.clients[i].conn].id == Some(room.clients[i].id)
  }

  function ChangesTo(log: seq<Delta>, d: DeckId): seq<Changes> {
    if log == [] then []
    else (if log[0].deck == d then [log[0].changes] else []) + ChangesTo(log[1..], d)
  }

  /** The canonical decks are the accepted deltas merged in order, and the sequence number counts them. */
  ghost predicate LogOk(room: Room<nat>, log: seq<Delta>) {
    && room.serverSeq == |log|
    && forall d :: Canonical(room.decks, d) == MergeAll(DEFAULT_DECK, ChangesTo(log, d))
  }

  ghost predicate SystemOk(cfg: Config, s: System) {
    && RoomOk(cfg, s.room)
    && MembersOk(s.room, s.sessions)
    && LogOk(s.room, s.accepted)
    && forall k :: k in s.sessions ==> SessionOk(s.room, k, s.sessions[k])
  }

  lemma {:induction false} ChangesToConcat(xs: seq<Delta>, ys: seq<Delta>, d: DeckId)
    ensures ChangesTo(xs + ys, d) == ChangesTo(xs, d) + ChangesTo(ys, d)
  {
    if xs == [] {
      assert xs + ys == ys;
    } else {
      assert (xs + ys)[0] == xs[0] && (xs + ys)[1..] == xs[1..] + ys;
      ChangesToConcat(xs[1..], ys, d);
      var head := if xs[0].deck == d then [xs[0].changes] else [];
      assert head + (ChangesTo(xs[1..], d) + ChangesTo(ys, d)) == (head + ChangesTo(xs[1..], d)) + ChangesTo(ys, d);
    }
  }

  // ---------------------------------------------------------------- what each broadcast does to a view

  lemma SeesJoin(room: Room<nat>, v: View, me: ClientId, m: Member<nat>)
    requires Agrees(v, room, me)
    ensures var frame := PeerJoined(Peer(m.id, m.name, RoleOf(room.controllerId, m.id)));
      Expected(v, frame, Fits(room)) && Agrees(Observe(v, frame), room.(clients := room.clients + [m]), me)
  {}

  lemma SeesRole(room: Room<nat>, v: View, me: ClientId, ctl: Option<ClientId>, id: ClientId)
    requires Agrees(v, room, me)
    requires (room.controllerId == Some(id) && ctl.None?) || (room.controllerId.None? && ctl == Some(id))
    ensures var frame := RoleChanged(id, RoleOf(ctl, id));
      Expected(v, frame, Fits(room)) && Agrees(Observe(v, frame), room.(controllerId := ctl), me)
  {}

  lemma SeesLeave(room: Room<nat>, v: View, me: ClientId, id: ClientId)
    requires Agrees(v, room, me) && me != id
    ensures var room' := room.(clients := Without(room.clients, id),
                               controllerId := if room.controllerId == Some(id) then None else room.controllerId);
      Expected(v, PeerLeft(id), Fits(room)) && Agrees(Observe(v, PeerLeft(id)), room', me)
  {}

  lemma SeesDelta(room: Room<nat>, v: View, me: ClientId, delta: Delta, room': Room<nat>)
    requires Agrees(v, room, me) && room.controllerId.Some? && room.controllerId != Some(me)
    requires Acceptable(delta.changes)
    requires room'.clients == room.clients && room'.controllerId == room.controllerId
    requires room'.serverSeq == room.serverSeq + 1
    ensures var frame := DeltaDown(room.serverSeq + 1, room.controllerId.value, delta);
      Expected(v, frame, Fits(room')) && Agrees(Observe(v, frame), room', me)
  {}

  lemma SeesWelcome(room: Room<nat>, v: View, me: ClientId, peers: seq<Peer>)
    requires !v.connected && v.lastSeen.None? && DecksOk(room.decks) && room.controllerId != Some(me)
    ensures var frame := Welcome(me, Observer, room.serverSeq, room.decks, peers);
      Expected(v, frame, Fits(room)) && Agrees(Observe(v, frame), room, me)
  {}

  lemma SeesRepair(room: Room<nat>, v: View, me: ClientId, tight: bool)
    requires Agrees(v, room, me) && DecksOk(room.decks) && (tight ==> room.controllerId != Some(me))
    ensures var frame := Snapshot(room.serverSeq, room.decks);
      Expected(v, frame, tight) && Agrees(Observe(v, frame), room, me)
  {}

  // ---------------------------------------------------------------- the server handles one frame

  /** Where a session stands in the room it is handled against. */
  lemma Standing(room: Room<nat>, sessions: map<nat, Session>, j: nat)
    requires MembersOk(room, sessions) && j in sessions && SessionOk(room, j, sessions[j])
    ensures sessions[j].id.None? ==> !InRoom(room.clients, j)
    ensures sessions[j].live && sessions[j].id.Some? ==> InRoom(room.clients, j)
  {}

  lemma MemberPersists(room: Room<nat>, m: Member<nat>, j: nat, id: Option<ClientId>)
    requires IsMember(room, j, id) && !HasId(room.clients, m.id)
    ensures IsMember(room.(clients := room.clients + [m]), j, id)
  {
    var i := IndexOf(room.clients, id.value);
    var clients := room.clients + [m];
    assert clients[i] == room.clients[i];
    assert forall x :: 0 <= x < i ==> clients[x] == room.clients[x];
  }

  /** Two members have different ids. */
  lemma OtherMember(cfg: Config, room: Room<nat>, k: nat, kid: Option<ClientId>, j: nat, jid: Option<ClientId>)
    requires RoomOk(cfg, room) && IsMember(room, k, kid) && IsMember(room, j, jid) && j != k
    ensures kid != jid
  {}

  /** The room's sequence number only grows. */
  lemma NumberGrows(room: Room<nat>, k: nat, kid: Option<ClientId>, e: Effect<nat>, room': Room<nat>, bcast: Option<Down>)
    requires Causes(room, k, kid, e, room', bcast)
    ensures room.serverSeq <= room'.serverSeq && (Fits(room') ==> Fits(room))
    ensures Fits(room) && !e.Applies? ==> Fits(room')
  {}

  /** Everyone but the sender: the frame broadcast, if any, brings the session up to date. */
  lemma Bystander(
    cfg: Config, room: Room<nat>, k: nat, kid: Option<ClientId>, e: Effect<nat>, room': Room<nat>,
    bcast: Option<Down>, j: nat, ses: Session)
    requires Causes(room, k, kid, e, room', bcast) && j != k
    requires RoomOk(cfg, room)
    requires SessionOk(room, j, ses) && ses.live && ses.id.Some?
    ensures SessionOk(room', j, ses.(down := ses.down + if bcast.Some? then [bcast.value] else []))
  {
    var id := ses.id.value;
    NumberGrows(room, k, kid, e, room', bcast);
    if bcast.None? {
      assert ses.down + [] == ses.down;
    } else {
      if e.Joins? { MemberPersists(room, e.m, j, ses.id); }
      if ses.conforming && ses.open {
        SeesBroadcast(cfg, room, k, kid, e, room', bcast.value, j, ses);
        Loosen(ViewOf(ses.client), ses.down, Fits(room), Fits(room'));
        OneMore(ViewOf(ses.client), ses.down, bcast.value, Fits(room'));
      }
    }
  }

  lemma SeesBroadcast(
    cfg: Config, room: Room<nat>, k: nat, kid: Option<ClientId>, e: Effect<nat>, room': Room<nat>,
    frame: Down, j: nat, ses: Session)
    requires Causes(room, k, kid, e, room', Some(frame)) && j != k && RoomOk(cfg, room)
    requires SessionOk(room, j, ses) && ses.live && ses.id.Some? && ses.conforming && ses.open
    ensures var v := ObserveAll(ViewOf(ses.client), ses.down);
      Expected(v, frame, Fits(room')) && Agrees(Observe(v, frame), room', ses.id.value)
  {
    var id := ses.id.value;
    var v := ObserveAll(ViewOf(ses.client), ses.down);
    match e
    case Joins(m) => SeesJoin(room, v, id, m);
    case Hands(to) =>
      OtherMember(cfg, room, k, kid, j, ses.id);
      SeesRole(room, v, id, to, kid.value);
    case Applies(delta) =>
      OtherMember(cfg, room, k, kid, j, ses.id);
      SeesDelta(room, v, id, delta, room');
    case Nothing =>
  }

  /** A newcomer's first frame is its welcome. */
  lemma Newcomer(cfg: Config, room: Room<nat>, k: nat, ses: Session, m: Member<nat>)
    requires RoomOk(cfg, room) && m.conn == k && !HasId(room.clients, m.id)
    requires ses.conforming && ses.open && ses.live && ses.id.None? && SessionOk(room, k, ses)
    ensures var room' := room.(clients := room.clients + [m]);
      var welcome := Welcome(m.id, RoleOf(room.controllerId, m.id), room.serverSeq, room.decks,
                             Others(room'.clients, m.id, room.controllerId));
      && AllExpected(ViewOf(ses.client), ses.down + [welcome], Fits(room'))
      && Agrees(ObserveAll(ViewOf(ses.client), ses.down + [welcome]), room', m.id)
  {
    var room' := room.(clients := room.clients + [m]);
    var peers := Others(room'.clients, m.id, room.controllerId);
    SeesWelcome(room', ViewOf(ses.client), m.id, peers);
    OneMore(ViewOf(ses.client), [], Welcome(m.id, Observer, room.serverSeq, room.decks, peers), Fits(room'));
  }

  /** A member's own frames: role changes it asked for, refusals, and snapshots it asked for. */
  lemma OwnFrames(room: Room<nat>, k: nat, e: Effect<nat>, ses: Session, o: Outcome<nat>)
    requires ses.up != [] && Causes(room, k, ses.id, e, o.room, o.bcast) && Answers(room, k, ses.id, e, ses.up[0], o)
    requires DecksOk(room.decks) && !e.Joins?
    requires ses.conforming && ses.open && ses.live && ses.id.Some? && SessionOk(room, k, ses)
    ensures AllExpected(ViewOf(ses.client), ses.down + Delivered(o, k, k), Fits(o.room))
    ensures Agrees(ObserveAll(ViewOf(ses.client), ses.down + Delivered(o, k, k)), o.room, ses.id.value)
  {
    var w := ViewOf(ses.client);
    var v := ObserveAll(w, ses.down);
    assert Sendable(ses.up[0], Fits(room));
    NumberGrows(room, k, ses.id, e, o.room, o.bcast);
    Loosen(w, ses.down, Fits(room), Fits(o.room));
    match e
    case Hands(to) =>
      SeesRole(room, v, ses.id.value, to, ses.id.value);
      assert Delivered(o, k, k) == [o.bcast.value];
      OneMore(w, ses.down, o.bcast.value, Fits(o.room));
    case Applies(_) =>
      assert ses.down + [] == ses.down;
    case Nothing => Refused(room, k, ses, o);
  }

  lemma Refused(room: Room<nat>, k: nat, ses: Session, o: Outcome<nat>)
    requires ses.up != [] && Answers(room, k, ses.id, Nothing, ses.up[0], o) && o.room == room && o.bcast.None?
    requires DecksOk(room.decks) && Sendable(ses.up[0], Fits(room)) && ses.id.Some?
    requires AllExpected(ViewOf(ses.client), ses.down, Fits(room))
    requires Agrees(ObserveAll(ViewOf(ses.client), ses.down), room, ses.id.value)
    ensures AllExpected(ViewOf(ses.client), ses.down + o.reply, Fits(room))
    ensures Agrees(ObserveAll(ViewOf(ses.client), ses.down + o.reply), room, ses.id.value)
  {
    var w := ViewOf(ses.client);
    var v := ObserveAll(w, ses.down);
    var first := o.reply[0];
    if first.Snapshot? { SeesRepair(room, v, ses.id.value, Fits(room)); }
    OneMore(w, ses.down, first, Fits(room));
    if |o.reply| == 2 {
      SeesRepair(room, v, ses.id.value, Fits(room));
      OneMore(w, ses.down + [first], o.reply[1], Fits(room));
      assert ses.down + [first] + [o.reply[1]] == ses.down + o.reply;
    } else {
      assert o.reply == [first];
    }
  }

  /** The sender's session after its frame has been handled. */
  function AfterOwn(ses: Session, o: Outcome<nat>, k: nat): Session
    requires ses.up != []
  {
    ses.(down := ses.down + Delivered(o, k, k), id := o.id, up := ses.up[1..], live := !o.verdict.Closed?)
  }

  lemma Sender(cfg: Config, room: Room<nat>, k: nat, e: Effect<nat>, ses: Session, o: Outcome<nat>)
    requires ses.up != [] && Causes(room, k, ses.id, e, o.room, o.bcast) && Answers(room, k, ses.id, e, ses.up[0], o)
    requires RoomOk(cfg, room)
    requires SessionOk(room, k, ses) && ses.live && (e.Joins? ==> ses.id.None?)
    ensures SessionOk(o.room, k, AfterOwn(ses, o, k))
  {
    var frames := Delivered(o, k, k);
    NumberGrows(room, k, ses.id, e, o.room, o.bcast);
    if ses.id.Some? {
      if ses.conforming && ses.open { OwnFrames(room, k, e, ses, o); }
    } else if e.Joins? {
      Enters(room.clients, e.m);
      assert frames == o.reply;
      if ses.conforming && ses.open { Newcomer(cfg, room, k, ses, e.m); }
    } else {
      assert ses.down + frames == ses.down;
    }
  }

  lemma Enters(clients: seq<Member<nat>>, m: Member<nat>)
    requires !HasId(clients, m.id)
    ensures IndexOf(clients + [m], m.id) == |clients|
  {
    assert (clients + [m])[|clients|] == m;
    assert forall i :: 0 <= i < |clients| ==> (clients + [m])[i] == clients[i];
  }

  // ---------------------------------------------------------------- a client's own steps

  lemma {:induction false} FramesOk(sent: seq<Sent>)
    requires forall x :: x in sent ==> Acceptable(x.delta.changes)
    ensures UpOk(Frames(sent), true)
  {
    if sent != [] {
      FramesOk(sent[1..]);
      assert sent[0] in sent;
    }
  }

  lemma ChangeOk(c: Client, delta: Delta, now: real)
    requires ClientOk(c) && GoodTrack(delta.changes)
    ensures var (c', frames) := ChangeLocally(c, delta, now);
      ClientOk(c') && ViewOf(c') == ViewOf(c) && UpOk(frames, true)
  {
    if !delta.changes.Empty() {
      var s := c.At(delta.deck);
      PreparedAcceptable(s, delta.changes);
      var e := Applied(Delta(delta.deck, Prepared(s, delta.changes)), Local, now);
      StepAcceptable(c.publisher, e);
      FramesOk(Publishing.Step(c.publisher, e).1);
    }
  }

  lemma TimerOk(c: Client, now: real)
    requires ClientOk(c) && c.publisher.timer
    ensures var (c', frames) := TimerFires(c, now);
      ClientOk(c') && ViewOf(c') == ViewOf(c) && UpOk(frames, true)
  {
    StepAcceptable(c.publisher, Tick(now));
    FramesOk(Publishing.Step(c.publisher, Tick(now)).1);
  }

  lemma SnapshotOk(c: Client, decks: map<DeckId, Deck>)
    requires DecksOk(decks) && ValidDeck(c.a) && ValidDeck(c.b)
    ensures var c' := ApplySnapshot(c, decks);
      c'.a == decks[A] && c'.b == (if B in decks then decks[B] else c.b)
  {
    ResyncExact(decks[A], c.a);
    if B in decks { ResyncExact(decks[B], c.b); }
  }

  lemma ReceiveOk(c: Client, m: Down, tight: bool)
    requires ClientOk(c) && Expected(ViewOf(c), m, tight)
    ensures ClientOk(Receive(c, m).0) && UpOk(Receive(c, m).1, tight)
  {
    ObserveStaysShort(ViewOf(c), m);
    ReceiveObserves(c, m);
    if m.Welcome? || m.Snapshot? { TakesDecksOk(c, m, tight); }
    else if m.DeltaDown? { AcceptableIsClean(c.At(m.delta.deck), m.delta.changes); }
    else if m.RoleChanged? {
      ResyncExact(c.a, c.a);
      ResyncExact(c.b, c.b);
    }
  }

  lemma TakesDecksOk(c: Client, m: Down, tight: bool)
    requires ClientOk(c) && Expected(ViewOf(c), m, tight) && (m.Welcome? || m.Snapshot?)
    requires |Receive(c, m).0.peers| <= MAX_PEERS
    ensures ClientOk(Receive(c, m).0) && Receive(c, m).1 == []
  {
    if m.Welcome? {
      var c1 := c.(lastSeen := Noted(c.lastSeen, m.serverSeq), connected := true,
                   publisher := c.publisher.(connected := true), ownId := Some(m.id));
      SnapshotOk(c1, m.decks);
    } else {
      SnapshotOk(c.(lastSeen := Noted(c.lastSeen, m.serverSeq)), m.decks);
    }
  }

  lemma UpOkConcat(xs: seq<Up>, ys: seq<Up>, tight: bool)
    requires UpOk(xs, tight) && (UpOk(ys, true) || UpOk(ys, tight))
    ensures UpOk(xs + ys, tight)
  {}

  /** A session in order stays in order through every step its own client takes. */
  lemma OwnStep(cfg: Config, s: System, step: Step)
    requires SystemOk(cfg, s) && Enabled(s, step)
    requires step.Changes? || step.Ticks? || step.Asks? || step.ClientTakes?
    ensures SessionOk(s.room, step.k, Next(cfg, s, step).sessions[step.k])
  {
    var ses := s.sessions[step.k];
    var c := ses.client;
    match step
    case Changes(k, delta, now) =>
      ChangeOk(c, delta, now);
      UpOkConcat(ses.up, ChangeLocally(c, delta, now).1, Fits(s.room));
    case Ticks(k, now) =>
      TimerOk(c, now);
      UpOkConcat(ses.up, TimerFires(c, now).1, Fits(s.room));
    case Asks(k, msg) =>
    case ClientTakes(k) =>
      ReceiveObserves(c, ses.down[0]);
      ReceiveOk(c, ses.down[0], Fits(s.room));
      UpOkConcat(ses.up, Receive(c, ses.down[0]).1, Fits(s.room));
  }

  // ---------------------------------------------------------------- every step

  lemma MemberAfterLeave(cfg: Config, room: Room<nat>, k: nat, kid: Option<ClientId>, j: nat, jid: Option<ClientId>)
    requires RoomOk(cfg, room) && IsMember(room, k, kid) && IsMember(room, j, jid) && j != k
    ensures IsMember(HandleDisconnect(room, k, kid).0, j, jid) && InRoom(HandleDisconnect(room, k, kid).0.clients, j)
  {
    OtherMember(cfg, room, k, kid, j, jid);
    var left := Without(room.clients, kid.value);
    var m := room.clients[IndexOf(room.clients, jid.value)];
    WithoutMembers(room.clients, kid.value);
    WithoutDistinct(room.clients, kid.value);
    assert m in left;
    var i :| 0 <= i < |left| && left[i] == m;
    DistinctAt(left, i, IndexOf(left, jid.value));
  }

  /** Everyone else's session after k has gone. */
  lemma Remains(cfg: Config, s: System, k: nat, j: nat)
    requires SystemOk(cfg, s) && k in s.sessions && j in s.sessions && j != k
    ensures var (room, bcast) := HandleDisconnect(s.room, k, s.sessions[k].id);
      SessionOk(room, j, Delivers(s.sessions[j], Gone(room, bcast, j)))
  {
    var ses := s.sessions[j];
    var kid := s.sessions[k].id;
    var (room, bcast) := HandleDisconnect(s.room, k, kid);
    Standing(s.room, s.sessions, j);
    assert ses.down + [] == ses.down;
    if bcast.Some? && ses.live && ses.id.Some? {
      MemberAfterLeave(cfg, s.room, k, kid, j, ses.id);
      OtherMember(cfg, s.room, k, kid, j, ses.id);
      if ses.conforming && ses.open {
        SeesLeave(s.room, ObserveAll(ViewOf(ses.client), ses.down), ses.id.value, kid.value);
        OneMore(ViewOf(ses.client), ses.down, bcast.value, Fits(s.room));
      }
    } else if bcast.Some? {
      StillOutside(s.room.clients, kid.value, j);
    }
  }

  lemma StillOutside(clients: seq<Member<nat>>, id: ClientId, j: nat)
    ensures InRoom(Without(clients, id), j) ==> InRoom(clients, j)
  {
    WithoutMembers(clients, id);
    if InRoom(Without(clients, id), j) {
      var i :| 0 <= i < |Without(clients, id)| && Without(clients, id)[i].conn == j;
      assert Without(clients, id)[i] in clients;
    }
  }

  lemma MembersAfterLeave(s: System, k: nat, after: map<nat, Session>)
    requires MembersOk(s.room, s.sessions) && k in s.sessions
    requires after.Keys == s.sessions.Keys && forall j :: j in after ==> after[j].id == s.sessions[j].id
    ensures MembersOk(HandleDisconnect(s.room, k, s.sessions[k].id).0, after)
  {
    var room := HandleDisconnect(s.room, k, s.sessions[k].id).0;
    if room != s.room {
      var id := s.sessions[k].id.value;
      WithoutMembers(s.room.clients, id);
      forall i | 0 <= i < |room.clients|
        ensures room.clients[i].conn in after && after[room.clients[i].conn].id == Some(room.clients[i].id)
      {
        assert room.clients[i] in Without(s.room.clients, id);
        var x :| 0 <= x < |s.room.clients| && s.room.clients[x] == room.clients[i];
      }
    }
  }

  lemma LeaveStep(cfg: Config, s: System, k: nat)
    requires SystemOk(cfg, s) && Enabled(s, SocketCloses(k))
    ensures SystemOk(cfg, Next(cfg, s, SocketCloses(k)))
  {
    var t := Next(cfg, s, SocketCloses(k));
    DisconnectKeepsRoom(cfg, s.room, k, s.sessions[k].id);
    MembersAfterLeave(s, k, t.sessions);
    forall j | j in t.sessions ensures SessionOk(t.room, j, t.sessions[j]) {
      if j != k { Remains(cfg, s, k, j); }
    }
  }

  lemma LogStep(room: Room<nat>, log: seq<Delta>, delta: Delta, room': Room<nat>)
    requires LogOk(room, log) && room'.serverSeq == room.serverSeq + 1
    requires room'.decks == room.decks[delta.deck := Merge(Canonical(room.decks, delta.deck), delta.changes)]
    ensures LogOk(room', log + [delta])
  {
    forall d ensures Canonical(room'.decks, d) == MergeAll(DEFAULT_DECK, ChangesTo(log + [delta], d)) {
      ChangesToConcat(log, [delta], d);
      if d == delta.deck {
        assert ChangesTo([delta], d) == [delta.changes];
        MergeAllSnoc(DEFAULT_DECK, ChangesTo(log, d), delta.changes);
      } else {
        assert ChangesTo([delta], d) == [];
        assert ChangesTo(log, d) + [] == ChangesTo(log, d);
      }
    }
  }

  lemma OtherSession(cfg: Config, s: System, k: nat, e: Effect<nat>, o: Outcome<nat>, j: nat)
    requires SystemOk(cfg, s) && j in s.sessions && k in s.sessions && j != k
    requires Causes(s.room, k, s.sessions[k].id, e, o.room, o.bcast)
    ensures SessionOk(o.room, j, Delivers(s.sessions[j], Delivered(o, k, j)))
  {
    var ses := s.sessions[j];
    Standing(s.room, s.sessions, j);
    NumberGrows(s.room, k, s.sessions[k].id, e, o.room, o.bcast);
    if ses.live && ses.id.Some? {
      Bystander(cfg, s.room, k, s.sessions[k].id, e, o.room, o.bcast, j, ses);
    } else {
      assert ses.down + [] == ses.down;
      if e.Joins? { assert o.room.clients == s.room.clients + [e.m]; }
      if ses.conforming && ses.open { Loosen(ViewOf(ses.client), ses.down, Fits(s.room), Fits(o.room)); }
    }
  }

  lemma MembersAfter(s: System, k: nat, e: Effect<nat>, o: Outcome<nat>)
    requires MembersOk(s.room, s.sessions) && k in s.sessions && s.sessions[k].up != []
    requires Causes(s.room, k, s.sessions[k].id, e, o.room, o.bcast)
    requires Answers(s.room, k, s.sessions[k].id, e, s.sessions[k].up[0], o)
    requires e.Joins? ==> s.sessions[k].id.None?
    ensures MembersOk(o.room, AfterServer(s, k, o))
  {}

  lemma ServerStep(cfg: Config, s: System, k: nat, draws: seq<ClientId>)
    requires SystemOk(cfg, s) && Enabled(s, ServerTakes(k, draws))
    ensures SystemOk(cfg, Next(cfg, s, ServerTakes(k, draws)))
  {
    var ses := s.sessions[k];
    var t := Next(cfg, s, ServerTakes(k, draws));
    Standing(s.room, s.sessions, k);
    MessageKeepsRoom(cfg, s.room, k, ses.id, ses.up[0], draws);
    var e := Classify(cfg, s.room, k, ses.id, ses.up[0], draws);
    FrameHandled(cfg, s, k, e, HandleMessage(cfg, s.room, k, ses.id, ses.up[0], draws), t);
  }

  lemma FrameHandled(cfg: Config, s: System, k: nat, e: Effect<nat>, o: Outcome<nat>, t: System)
    requires SystemOk(cfg, s) && k in s.sessions && s.sessions[k].live && s.sessions[k].up != []
    requires Causes(s.room, k, s.sessions[k].id, e, o.room, o.bcast)
    requires Answers(s.room, k, s.sessions[k].id, e, s.sessions[k].up[0], o)
    requires e.Joins? ==> s.sessions[k].id.None?
    requires RoomOk(cfg, o.room)
    requires t == System(o.room, AfterServer(s, k, o), if e.Applies? then s.accepted + [e.delta] else s.accepted)
    ensures SystemOk(cfg, t)
  {
    MembersAfter(s, k, e, o);
    if e.Applies? { LogStep(s.room, s.accepted, e.delta, o.room); }
    forall j | j in t.sessions ensures SessionOk(o.room, j, t.sessions[j]) {
      if j == k {
        Sender(cfg, s.room, k, e, s.sessions[k], o);
      } else {
        OtherSession(cfg, s, k, e, o, j);
      }
    }
  }

  lemma NewSession(cfg: Config, s: System, k: nat, ses: Session)
    requires SystemOk(cfg, s) && SessionOk(s.room, k, ses)
    requires k in s.sessions ==> ses.id == s.sessions[k].id
    ensures SystemOk(cfg, s.(sessions := s.sessions[k := ses]))
  {}

  /** Every step of the system keeps everything in order. */
  lemma StepKeepsOrder(cfg: Config, s: System, step: Step)
    requires SystemOk(cfg, s) && Enabled(s, step)
    ensures SystemOk(cfg, Next(cfg, s, step))
    ensures s.room.serverSeq <= Next(cfg, s, step).room.serverSeq
  {
    match step
    case ServerTakes(k, draws) => ServerStep(cfg, s, k, draws);
    case SocketCloses(k) => LeaveStep(cfg, s, k);
    case _ =>
      var ses := Next(cfg, s, step).sessions[step.k];
      if step.Changes? || step.Ticks? || step.Asks? || step.ClientTakes? { OwnStep(cfg, s, step); }
      NewSession(cfg, s, step.k, ses);
  }
}
