/** The room of server/src/room.js: membership, control and canonical decks.  The functions below are
    its meaning on values, for any type `C` of connections; class `RoomServer` is the program that
    updates them in place, proved against those functions. */
module Rooms {
  import opened Playback
  import opened Messages

  const ID_ATTEMPTS := 100

  const CLOSE_BAD_HANDSHAKE := 4000
  const CLOSE_VERSION_MISMATCH := 4001
  const CLOSE_ROOM_FULL := 4002
  const CLOSE_WRONG_ROOM := 4004
  const CLOSE_INTERNAL_ERROR := 1011

  datatype Config = Config(roomCode: string, maxClients: nat)

  datatype Member<C> = Member(id: ClientId, conn: C, name: string)

  /** `clients` lists the members in the order they joined. */
  datatype Room<C> = Room(
    clients: seq<Member<C>>,
    decks: map<DeckId, Deck>,
    serverSeq: nat,
    controllerId: Option<ClientId>)

  /** Whether the message was applied, answered with an error frame, or cost the connection. */
  datatype Verdict = Fine | Rejected(code: ErrorCode) | Closed(closeCode: int)

  /** One handled message: the new room, the identity of the sender's connection, the frames sent to
      the sender alone and the frame sent to every other member (and to the sender if `toSelf`). */
  datatype Outcome<C> = Outcome(
    room: Room<C>,
    id: Option<ClientId>,
    reply: seq<Down>,
    bcast: Option<Down>,
    toSelf: bool,
    verdict: Verdict)

  function NewRoom<C>(): Room<C> {
    Room([], map[A := DEFAULT_DECK], 0, None)
  }

  function IndexOf<C>(clients: seq<Member<C>>, id: ClientId): (i: nat)
    ensures i <= |clients|
    ensures i < |clients| ==> clients[i].id == id
    ensures forall j :: 0 <= j < i ==> clients[j].id != id
  {
    if clients == [] || clients[0].id == id then 0 else 1 + IndexOf(clients[1..], id)
  }

  predicate HasId<C>(clients: seq<Member<C>>, id: ClientId) {
    IndexOf(clients, id) < |clients|
  }

  /** The connection is the live entry for its id, not merely one that once had an id. */
  predicate IsMember<C(==)>(r: Room<C>, conn: C, id: Option<ClientId>) {
    id.Some? && HasId(r.clients, id.value) && r.clients[IndexOf(r.clients, id.value)].conn == conn
  }

  function RoleOf(controllerId: Option<ClientId>, id: ClientId): Role {
    if controllerId == Some(id) then Controller else Observer
  }

  /** Everyone in `clients` but `me`, as the peer list of a client. */
  function Others<C>(clients: seq<Member<C>>, me: ClientId, controllerId: Option<ClientId>): seq<Peer> {
    if clients == [] then []
    else
      var m := clients[0];
      (if m.id == me then [] else [Peer(m.id, m.name, RoleOf(controllerId, m.id))])
      + Others(clients[1..], me, controllerId)
  }

  function Without<C>(clients: seq<Member<C>>, id: ClientId): seq<Member<C>> {
    if clients == [] then []
    else (if clients[0].id == id then [] else [clients[0]]) + Without(clients[1..], id)
  }

  /** The first unused id among the draws. */
  function Allocate<C>(clients: seq<Member<C>>, draws: seq<ClientId>): (id: Option<ClientId>)
    ensures id.Some? ==> !HasId(clients, id.value) && id.value in draws
    ensures id.None? ==> forall i :: 0 <= i < |draws| ==> HasId(clients, draws[i])
  {
    if draws == [] then None
    else if !HasId(clients, draws[0]) then Some(draws[0])
    else Allocate(clients, draws[1..])
  }

  /** The allocation gives up after a hundred draws. */
  function Tried(draws: seq<ClientId>): seq<ClientId> {
    if |draws| > ID_ATTEMPTS then draws[..ID_ATTEMPTS] else draws
  }

  /** A deck the room has not touched yet is at its defaults. */
  function Canonical(decks: map<DeckId, Deck>, d: DeckId): Deck {
    if d in decks then decks[d] else DEFAULT_DECK
  }

  /** The close code for a bad hello, if it is bad. */
  function HelloFault(cfg: Config, version: Option<int>, name: string, room: string): Option<int> {
    if version != Some(PROTOCOL_VERSION) then Some(CLOSE_VERSION_MISMATCH)
    else if !ServerAcceptsName(name) then Some(CLOSE_BAD_HANDSHAKE)
    else if !(1 <= Utf16Length(room) <= 64) then Some(CLOSE_BAD_HANDSHAKE)
    else if room != cfg.roomCode then Some(CLOSE_WRONG_ROOM)
    else None
  }

  function Refuse<C>(r: Room<C>, id: Option<ClientId>, code: ErrorCode, more: seq<Down>): Outcome<C> {
    Outcome(r, id, [ErrorDown(code)] + more, None, false, Rejected(code))
  }

  /** The newcomer is welcomed with the state of the room, and announced to the others. */
  function Joined<C>(r: Room<C>, conn: C, id: ClientId, name: string): Outcome<C> {
    var clients := r.clients + [Member(id, conn, name)];
    var role := RoleOf(r.controllerId, id);
    Outcome(
      r.(clients := clients), Some(id),
      [Welcome(id, role, r.serverSeq, r.decks, Others(clients, id, r.controllerId))],
      Some(PeerJoined(Peer(id, name, role))), false, Fine)
  }

  /** The close code for a hello the room will not admit: capacity is looked at only once the hello is valid. */
  function HelloRefusal<C>(cfg: Config, r: Room<C>, version: Option<int>, name: string, room: string): (code: Option<int>)
    ensures code.None? ==> ServerAcceptsName(name) && |r.clients| < cfg.maxClients
  {
    var fault := HelloFault(cfg, version, name, room);
    if fault.Some? then fault
    else if |r.clients| >= cfg.maxClients then Some(CLOSE_ROOM_FULL)
    else None
  }

  /** A refusal depends on the room only for a hello that knows the room code: nobody else learns whether it is full. */
  lemma CapacityTellsNothing<C>(cfg: Config, r: Room<C>, other: Room<C>, version: Option<int>, name: string, room: string)
    requires HelloRefusal(cfg, r, version, name, room) != HelloRefusal(cfg, other, version, name, room)
    ensures version == Some(PROTOCOL_VERSION) && ServerAcceptsName(name) && room == cfg.roomCode
  {}

  function Closing<C>(r: Room<C>, code: int): Outcome<C> { Outcome(r, None, [], None, false, Closed(code)) }

  function AnswerHello<C>(r: Room<C>, conn: C, refusal: Option<int>, name: string, draws: seq<ClientId>): Outcome<C> {
    var drawn := Allocate(r.clients, Tried(draws));
    if refusal.Some? then Closing(r, refusal.value)
    else if drawn.None? then Closing(r, CLOSE_INTERNAL_ERROR)
    else Joined(r, conn, drawn.value, name)
  }

  function HandleHello<C>(
    cfg: Config, r: Room<C>, conn: C, version: Option<int>, name: string, room: string, draws: seq<ClientId>)
    : Outcome<C>
  {
    AnswerHello(r, conn, HelloRefusal(cfg, r, version, name, room), name, draws)
  }

  function HandleClaim<C(==)>(r: Room<C>, conn: C, id: Option<ClientId>): Outcome<C> {
    if !IsMember(r, conn, id) then Refuse(r, id, BadMessage, [])
    else if r.controllerId.Some? then Refuse(r, id, ControlTaken, [])
    else Outcome(r.(controllerId := id), id, [], Some(RoleChanged(id.value, Controller)), true, Fine)
  }

  function HandleRelease<C(==)>(r: Room<C>, conn: C, id: Option<ClientId>): Outcome<C> {
    if !IsMember(r, conn, id) then Refuse(r, id, BadMessage, [])
    else if r.controllerId != id then Refuse(r, id, NotController, [])
    else Outcome(r.(controllerId := None), id, [], Some(RoleChanged(id.value, Observer)), true, Fine)
  }

  function HandleDelta<C(==)>(r: Room<C>, conn: C, id: Option<ClientId>, delta: Delta): Outcome<C> {
    if !IsMember(r, conn, id) || !Acceptable(delta.changes) then Refuse(r, id, BadMessage, [])
    else if r.controllerId != id then Refuse(r, id, NotController, [Snapshot(r.serverSeq, r.decks)])
    else
      var deck := Merge(Canonical(r.decks, delta.deck), delta.changes);
      var seq' := r.serverSeq + 1;
      Outcome(
        r.(decks := r.decks[delta.deck := deck], serverSeq := seq'), id,
        [], Some(DeltaDown(seq', id.value, delta)), false, Fine)
  }

  function HandleMessage<C(==)>(
    cfg: Config, r: Room<C>, conn: C, id: Option<ClientId>, msg: Up, draws: seq<ClientId>)
    : Outcome<C>
  {
    if id.None? then
      match msg
      case Hello(version, name, room) => HandleHello(cfg, r, conn, version, name, room, draws)
      case _ => Outcome(r, None, [], None, false, Closed(CLOSE_BAD_HANDSHAKE))
    else
      match msg
      case Hello(_, _, _) => Refuse(r, id, BadMessage, [])
      case Malformed => Refuse(r, id, BadMessage, [])
      case ClaimControl => HandleClaim(r, conn, id)
      case ReleaseControl => HandleRelease(r, conn, id)
      case DeltaUp(delta) => HandleDelta(r, conn, id, delta)
      case RequestSnapshot => Outcome(r, id, [Snapshot(r.serverSeq, r.decks)], None, false, Fine)
  }

  /** The room after a connection went away, and what the remaining members are sent. */
  function HandleDisconnect<C(==)>(r: Room<C>, conn: C, id: Option<ClientId>): (Room<C>, Option<Down>) {
    if !IsMember(r, conn, id) then (r, None)
    else
      (r.(clients := Without(r.clients, id.value),
          controllerId := if r.controllerId == id then None else r.controllerId),
       Some(PeerLeft(id.value)))
  }

  predicate InRoom<C(==)>(clients: seq<Member<C>>, conn: C) {
    exists i :: 0 <= i < |clients| && clients[i].conn == conn
  }

  /** What one handled message puts on the channel to `to`. */
  function Delivered<C(==)>(o: Outcome<C>, from: C, to: C): seq<Down> {
    if o.bcast.None? || !InRoom(o.room.clients, to) then (if to == from then o.reply else [])
    else if to != from then [o.bcast.value]
    else if o.toSelf then o.reply + [o.bcast.value]
    else o.reply
  }

  // ---------------------------------------------------------------- what every handled message keeps

  ghost predicate Distinct<C>(clients: seq<Member<C>>) {
    forall i, j :: 0 <= i < j < |clients| ==>
      clients[i].id != clients[j].id && clients[i].conn != clients[j].conn
  }

  /** Ids and connections are each used once, control belongs to a member, names are presentable and
      the decks are in range. */
  ghost predicate RoomOk<C>(cfg: Config, r: Room<C>) {
    && |r.clients| <= cfg.maxClients
    && Distinct(r.clients)
    && (forall i :: 0 <= i < |r.clients| ==> ServerAcceptsName(r.clients[i].name))
    && (r.controllerId.Some? ==> HasId(r.clients, r.controllerId.value))
    && A in r.decks
    && (forall d :: d in r.decks ==> ValidDeck(r.decks[d]))
  }

  lemma {:induction false} WithoutMembers<C>(clients: seq<Member<C>>, id: ClientId)
    ensures forall m :: m in Without(clients, id) ==> m in clients && m.id != id
    ensures forall m :: m in clients && m.id != id ==> m in Without(clients, id)
    ensures |Without(clients, id)| <= |clients|
  {
    if clients != [] { WithoutMembers(clients[1..], id); }
  }

  lemma {:induction false} WithoutDistinct<C>(clients: seq<Member<C>>, id: ClientId)
    requires Distinct(clients)
    ensures Distinct(Without(clients, id))
  {
    if clients != [] {
      WithoutDistinct(clients[1..], id);
      WithoutMembers(clients[1..], id);
      var rest := Without(clients[1..], id);
      forall j | 0 <= j < |rest|
        ensures rest[j].id != clients[0].id && rest[j].conn != clients[0].conn
      {
        assert rest[j] in Without(clients[1..], id);
      }
    }
  }

  lemma DistinctAt<C>(clients: seq<Member<C>>, i: nat, j: nat)
    requires Distinct(clients) && i < |clients| && j < |clients|
    requires clients[i].id == clients[j].id || clients[i].conn == clients[j].conn
    ensures i == j
  {}

  lemma AdmitKeepsRoom<C>(cfg: Config, r: Room<C>, m: Member<C>)
    requires RoomOk(cfg, r) && |r.clients| < cfg.maxClients
    requires !HasId(r.clients, m.id) && !InRoom(r.clients, m.conn) && ServerAcceptsName(m.name)
    ensures RoomOk(cfg, r.(clients := r.clients + [m]))
    ensures IsMember(r.(clients := r.clients + [m]), m.conn, Some(m.id))
  {
    var clients := r.clients + [m];
    assert clients[|r.clients|].id == m.id;
    if r.controllerId.Some? {
      assert clients[IndexOf(r.clients, r.controllerId.value)].id == r.controllerId.value;
    }
  }

  /** In every room that is well formed, a message keeps it well formed, and whatever the sender's
      connection is afterwards, it is either the live member of the room under its id or it changed
      nothing in the room's membership. */
  lemma MessageKeepsRoom<C>(
    cfg: Config, r: Room<C>, conn: C, id: Option<ClientId>, msg: Up, draws: seq<ClientId>)
    requires RoomOk(cfg, r)
    requires id.None? ==> !InRoom(r.clients, conn)
    ensures var o := HandleMessage(cfg, r, conn, id, msg, draws);
      && RoomOk(cfg, o.room)
      && (id.Some? ==> o.id == id && o.room.clients == r.clients)
      && (id.None? && o.id.Some? ==>
            IsMember(o.room, conn, o.id) && o.room.controllerId == r.controllerId
            && o.room.decks == r.decks && o.room.serverSeq == r.serverSeq
            && msg.Hello? && ServerAcceptsName(msg.name)
            && o.room.clients == r.clients + [Member(o.id.value, conn, msg.name)])
      && (id.None? && o.id.None? ==> o.room == r && o.verdict.Closed?)
  {
    if id.None? {
      HelloKeepsRoom(cfg, r, conn, msg, draws);
    } else {
      MemberKeepsRoom(cfg, r, conn, id, msg, draws);
    }
  }

  /** Before the handshake: a valid hello admits its sender, anything else costs the connection. */
  lemma HelloKeepsRoom<C>(cfg: Config, r: Room<C>, conn: C, msg: Up, draws: seq<ClientId>)
    requires RoomOk(cfg, r) && !InRoom(r.clients, conn)
    ensures var o := HandleMessage(cfg, r, conn, None, msg, draws);
      if o.id.Some? then
        && RoomOk(cfg, o.room) && IsMember(o.room, conn, o.id)
        && msg.Hello? && ServerAcceptsName(msg.name)
        && o.room == r.(clients := r.clients + [Member(o.id.value, conn, msg.name)])
      else o.room == r && o.verdict.Closed?
  {
    var o := HandleMessage(cfg, r, conn, None, msg, draws);
    if o.id.Some? { AdmitKeepsRoom(cfg, r, Member(o.id.value, conn, msg.name)); }
  }

  /** After it: membership stays, control moves between none and the sender, decks stay in range. */
  lemma MemberKeepsRoom<C>(
    cfg: Config, r: Room<C>, conn: C, id: Option<ClientId>, msg: Up, draws: seq<ClientId>)
    requires RoomOk(cfg, r) && id.Some?
    ensures var o := HandleMessage(cfg, r, conn, id, msg, draws);
      RoomOk(cfg, o.room) && o.id == id && o.room.clients == r.clients
  {
    if msg.DeltaUp? && Acceptable(msg.delta.changes) {
      AcceptableIsClean(Canonical(r.decks, msg.delta.deck), msg.delta.changes);
    }
  }

  lemma DisconnectKeepsRoom<C>(cfg: Config, r: Room<C>, conn: C, id: Option<ClientId>)
    requires RoomOk(cfg, r)
    ensures RoomOk(cfg, HandleDisconnect(r, conn, id).0)
  {
    if IsMember(r, conn, id) {
      var left := HandleDisconnect(r, conn, id).0;
      WithoutMembers(r.clients, id.value);
      WithoutDistinct(r.clients, id.value);
      forall i | 0 <= i < |left.clients| ensures ServerAcceptsName(left.clients[i].name) {
        assert left.clients[i] in Without(r.clients, id.value);
      }
      if left.controllerId.Some? {
        var m := r.clients[IndexOf(r.clients, left.controllerId.value)];
        assert m in left.clients;
      }
    }
  }

  /** A connection that is no longer the live entry for its id can change nothing: neither the room
      nor what anyone else is sent. */
  lemma RetiredChangesNothing<C>(
    cfg: Config, r: Room<C>, conn: C, id: Option<ClientId>, msg: Up, draws: seq<ClientId>, to: C)
    requires id.Some? && !IsMember(r, conn, id)
    ensures var o := HandleMessage(cfg, r, conn, id, msg, draws);
      o.room == r && (to != conn ==> Delivered(o, conn, to) == [])
    ensures HandleDisconnect(r, conn, id) == (r, None)
  {}

  // ---------------------------------------------------------------- the four things a frame can do

  datatype Effect<C> = Nothing | Joins(m: Member<C>) | Hands(to: Option<ClientId>) | Applies(delta: Delta)

  /** `room'` and the broadcast are those of effect `e`, caused by connection `conn` with identity `id`. */
  ghost predicate Causes<C>(
    r: Room<C>, conn: C, id: Option<ClientId>, e: Effect<C>, room': Room<C>, bcast: Option<Down>)
  {
    match e
    case Nothing => room' == r && bcast.None?
    case Joins(m) =>
      && room' == r.(clients := r.clients + [m]) && m.conn == conn && !HasId(r.clients, m.id)
      && bcast == Some(PeerJoined(Peer(m.id, m.name, RoleOf(r.controllerId, m.id))))
    case Hands(to) =>
      && IsMember(r, conn, id) && room' == r.(controllerId := to)
      && ((r.controllerId.None? && to == id) || (r.controllerId == id && to.None?))
      && bcast == Some(RoleChanged(id.value, RoleOf(to, id.value)))
    case Applies(delta) =>
      && IsMember(r, conn, id) && r.controllerId == id && Acceptable(delta.changes)
      && room' == r.(decks := r.decks[delta.deck := Merge(Canonical(r.decks, delta.deck), delta.changes)],
                     serverSeq := r.serverSeq + 1)
      && bcast == Some(DeltaDown(r.serverSeq + 1, id.value, delta))
  }

  /** What effect `e` puts on the sender's own channel, and what becomes of its connection. */
  ghost predicate Answers<C>(r: Room<C>, conn: C, id: Option<ClientId>, e: Effect<C>, msg: Up, o: Outcome<C>) {
    && (id.Some? ==> o.id == id && !o.verdict.Closed?)
    && (o.toSelf <==> e.Hands?)
    && (id.Some? && !e.Nothing? ==> o.reply == [])
    && (id.Some? && e.Nothing? && msg == RequestSnapshot ==> o.reply == [Snapshot(r.serverSeq, r.decks)])
    && (id.Some? && e.Nothing? && msg != RequestSnapshot ==>
          || (exists code :: o.reply == [ErrorDown(code)])
          || (o.reply == [ErrorDown(NotController), Snapshot(r.serverSeq, r.decks)] && r.controllerId != id))
    && (id.None? ==>
          if e.Joins? then
            && o.id == Some(e.m.id) && !o.verdict.Closed?
            && o.reply == [Welcome(e.m.id, RoleOf(r.controllerId, e.m.id), r.serverSeq, r.decks,
                                   Others(o.room.clients, e.m.id, r.controllerId))]
          else e.Nothing? && o.id.None? && o.verdict.Closed? && o.reply == [])
  }

  /** Every message does one of four things to the room, and a delta is applied in exactly one case: it is
      acceptable and comes from the member in control. */
  lemma Classify<C>(cfg: Config, r: Room<C>, conn: C, id: Option<ClientId>, msg: Up, draws: seq<ClientId>)
    returns (e: Effect<C>)
    ensures var o := HandleMessage(cfg, r, conn, id, msg, draws);
      && Causes(r, conn, id, e, o.room, o.bcast)
      && (e.Applies? <==> msg.DeltaUp? && o.verdict.Fine?)
      && (e.Applies? ==> e.delta == msg.delta)
      && (e.Applies? <==> msg.DeltaUp? && Acceptable(msg.delta.changes) && IsMember(r, conn, id) && r.controllerId == id)
      && (e.Joins? ==> id.None?)
      && (e.Hands? ==> msg == if e.to.None? then ReleaseControl else ClaimControl)
      && Answers(r, conn, id, e, msg, o)
  {
    var o := HandleMessage(cfg, r, conn, id, msg, draws);
    if o.bcast.None? {
      e := Nothing;
    } else if msg.Hello? {
      e := Joins(Member(o.id.value, conn, msg.name));
    } else if msg.DeltaUp? {
      e := Applies(msg.delta);
    } else {
      e := Hands(o.room.controllerId);
    }
  }

  // ---------------------------------------------------------------- who is answered what

  /** Every refusal, and nothing else, is answered by exactly one error code; a delta of a member who is not in control
      is also repaired by a snapshot of the canonical state, and a snapshot asked for is sent. */
  lemma Refusals<C>(cfg: Config, r: Room<C>, conn: C, id: Option<ClientId>, msg: Up, draws: seq<ClientId>)
    requires id.Some?
    ensures var o := HandleMessage(cfg, r, conn, id, msg, draws);
      var member, state := IsMember(r, conn, id), Snapshot(r.serverSeq, r.decks);
      && (o.reply == [ErrorDown(NotController), state] <==>
            msg.DeltaUp? && member && Acceptable(msg.delta.changes) && r.controllerId != id)
      && (o.reply == [ErrorDown(NotController)] <==> msg.ReleaseControl? && member && r.controllerId != id)
      && (o.reply == [ErrorDown(ControlTaken)] <==> msg.ClaimControl? && member && r.controllerId.Some?)
      && (o.reply == [ErrorDown(BadMessage)] <==>
            || msg.Hello? || msg.Malformed?
            || ((msg.ClaimControl? || msg.ReleaseControl?) && !member)
            || (msg.DeltaUp? && !(member && Acceptable(msg.delta.changes))))
      && (o.reply == [state] <==> msg.RequestSnapshot?)
      && (o.reply == [] <==> o.bcast.Some?)
      && (o.verdict.Rejected? <==> |o.reply| > 0 && o.reply[0].ErrorDown?)
      && (o.verdict.Rejected? ==> o.reply[0] == ErrorDown(o.verdict.code))
  {
    var none: seq<Down> := [];
    assert forall code :: [ErrorDown(code)] + none == [ErrorDown(code)];
    var state := Snapshot(r.serverSeq, r.decks);
    assert [ErrorDown(NotController)] + [state] == [ErrorDown(NotController), state];
  }

  /** Control changes hands exactly when a member claims it while it is free, or the one in control releases it. */
  lemma ControlChanges<C>(cfg: Config, r: Room<C>, conn: C, id: Option<ClientId>, msg: Up, draws: seq<ClientId>)
    requires id.Some?
    ensures var o := HandleMessage(cfg, r, conn, id, msg, draws);
      o.room.controllerId != r.controllerId <==>
        && IsMember(r, conn, id)
        && ((msg.ClaimControl? && r.controllerId.None?) || (msg.ReleaseControl? && r.controllerId == id))
    ensures var o := HandleMessage(cfg, r, conn, id, msg, draws);
      o.room.controllerId != r.controllerId ==>
        && o.room.controllerId == (if msg.ClaimControl? then id else None)
        && o.toSelf && o.bcast == Some(RoleChanged(id.value, if msg.ClaimControl? then Controller else Observer))
  {}

  /** The first unused one is drawn, and a hundred draws are tried. */
  ghost predicate DrawnAt<C>(clients: seq<Member<C>>, draws: seq<ClientId>, i: nat) {
    i < |draws| && i < 100 && !HasId(clients, draws[i]) && forall j :: 0 <= j < i ==> HasId(clients, draws[j])
  }

  lemma {:induction false} FirstDrawn<C>(clients: seq<Member<C>>, draws: seq<ClientId>, i: nat)
    requires i < |draws| && !HasId(clients, draws[i]) && forall j :: 0 <= j < i ==> HasId(clients, draws[j])
    ensures Allocate(clients, draws) == Some(draws[i])
    decreases i
  {
    if i > 0 { FirstDrawn(clients, draws[1..], i - 1); }
  }

  lemma {:induction false} NothingDrawn<C>(clients: seq<Member<C>>, draws: seq<ClientId>)
    requires forall j :: 0 <= j < |draws| ==> HasId(clients, draws[j])
    ensures Allocate(clients, draws).None?
  {
    if draws != [] { NothingDrawn(clients, draws[1..]); }
  }

  /** A connection that has not said hello is admitted exactly with a hello of the right version, a good name and the
      right room code, while there is room, under the first unused of a hundred draws; otherwise it is closed with the
      code of the first of these that fails. */
  lemma Handshake<C>(cfg: Config, r: Room<C>, conn: C, msg: Up, draws: seq<ClientId>, i: nat)
    requires DrawnAt(r.clients, draws, i) || forall j :: 0 <= j < |draws| && j < 100 ==> HasId(r.clients, draws[j])
    ensures var o := HandleMessage(cfg, r, conn, None, msg, draws);
      var drawn := DrawnAt(r.clients, draws, i);
      var length := if msg.Hello? then Utf16Length(msg.room) else 0;
      if !msg.Hello? then o.verdict == Closed(4000)
      else if msg.version != Some(2) then o.verdict == Closed(4001)
      else if !ServerAcceptsName(msg.name) || length < 1 || length > 64 then o.verdict == Closed(4000)
      else if msg.room != cfg.roomCode then o.verdict == Closed(4004)
      else if |r.clients| >= cfg.maxClients then o.verdict == Closed(4002)
      else if !drawn then o.verdict == Closed(1011)
      else o.verdict.Fine? && o.id == Some(draws[i])
    ensures var o := HandleMessage(cfg, r, conn, None, msg, draws);
      o.verdict.Closed? ==> o.room == r && o.id.None? && o.reply == [] && o.bcast.None?
  {
    var tried := Tried(draws);
    if DrawnAt(r.clients, draws, i) {
      FirstDrawn(r.clients, tried, i);
    } else {
      NothingDrawn(r.clients, tried);
    }
  }

  /** A departure removes exactly the live member, frees control exactly if it held it, and is told to those who stay;
      decks and numbers stay as they are. */
  lemma Departure<C>(cfg: Config, r: Room<C>, conn: C, id: Option<ClientId>, m: Member<C>)
    requires RoomOk(cfg, r)
    ensures var (left, bcast) := HandleDisconnect(r, conn, id);
      && (m in left.clients <==> m in r.clients && !(IsMember(r, conn, id) && m.conn == conn))
      && left.decks == r.decks && left.serverSeq == r.serverSeq
      && left.controllerId == (if r.controllerId.Some? && HasId(left.clients, r.controllerId.value)
                               then r.controllerId else None)
      && (bcast.Some? <==> IsMember(r, conn, id)) && (bcast.Some? ==> bcast == Some(PeerLeft(id.value)))
  {
    var left := HandleDisconnect(r, conn, id).0;
    if IsMember(r, conn, id) {
      WithoutMembers(r.clients, id.value);
      var i := IndexOf(r.clients, id.value);
      if m in r.clients && (m.conn == conn || m.id == id.value) {
        var j :| 0 <= j < |r.clients| && r.clients[j] == m;
        DistinctAt(r.clients, i, j);
      }
      if r.controllerId.Some? {
        var c := r.clients[IndexOf(r.clients, r.controllerId.value)];
        if r.controllerId != id { assert c in left.clients; }
        if HasId(left.clients, r.controllerId.value) {
          assert left.clients[IndexOf(left.clients, r.controllerId.value)] in left.clients;
        }
      }
    }
  }
}
