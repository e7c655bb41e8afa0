/** The whole system: one room and any number of sessions, each a client joined to the room by a lossless
    first-in first-out channel in each direction, interleaved in every possible way.  A session is one
    connection of one client; a client that reconnects starts a new session with the decks and the
    pending changes it still had.  Sessions that do not conform may send any message at any time. */
module Replication {
  import opened Playback
  import opened Messages
  import opened Publishing
  import opened Rooms
  import opened Clients

  /** `open`: the client still uses the connection.  `live`: the server has not ejected it and its socket
      has not gone.  `id`: the identity the room gave it. */
  datatype Session = Session(
    conforming: bool,
    client: Client,
    open: bool,
    live: bool,
    id: Option<ClientId>,
    up: seq<Up>,
    down: seq<Down>)

  /** `accepted` records every delta the room has applied. */
  datatype System = System(room: Room<nat>, sessions: map<nat, Session>, accepted: seq<Delta>)

  const START := System(NewRoom(), map[], [])

  datatype Step =
    | Connects(k: nat, client: Client, hello: Up)
    | Intrudes(k: nat)
    | Changes(k: nat, delta: Delta, now: real)
    | Ticks(k: nat, now: real)
    | Asks(k: nat, msg: Up)
    | ServerTakes(k: nat, draws: seq<ClientId>)
    | ClientTakes(k: nat)
    | ClientCloses(k: nat)
    | Ejected(k: nat)
    | SocketCloses(k: nat)

  ghost predicate Enabled(s: System, step: Step) {
    match step
    case Connects(k, client, hello) =>
      && k !in s.sessions && Idle(client) && hello.Hello?
      && ValidDeck(client.a) && ValidDeck(client.b) && PendingAcceptable(client.publisher)
    case Intrudes(k) => k !in s.sessions
    case Changes(k, delta, _) =>
      k in s.sessions && s.sessions[k].conforming && s.sessions[k].open && GoodTrack(delta.changes)
    case Ticks(k, _) =>
      k in s.sessions && s.sessions[k].conforming && s.sessions[k].open && s.sessions[k].client.publisher.timer
    case Asks(k, msg) =>
      && k in s.sessions && s.sessions[k].open
      && (s.sessions[k].conforming ==> msg == ClaimControl || msg == ReleaseControl)
    case ServerTakes(k, _) => k in s.sessions && s.sessions[k].live && s.sessions[k].up != []
    case ClientTakes(k) =>
      k in s.sessions && s.sessions[k].conforming && s.sessions[k].open && s.sessions[k].down != []
    case ClientCloses(k) => k in s.sessions
    case Ejected(k) => k in s.sessions
    case SocketCloses(k) => k in s.sessions
  }

  /** The effect of one client's own step. */
  function ClientSteps(ses: Session, o: (Client, seq<Up>)): Session {
    ses.(client := o.0, up := ses.up + o.1)
  }

  /** The sender's frame is gone; everyone still live has what the room sent them. */
  function AfterServer(s: System, k: nat, o: Outcome<nat>): map<nat, Session>
    requires k in s.sessions && s.sessions[k].up != []
  {
    map j | j in s.sessions ::
      var ses := Delivers(s.sessions[j], Delivered(o, k, j));
      if j == k then ses.(id := o.id, up := ses.up[1..], live := ses.live && !o.verdict.Closed?) else ses
  }

  function Delivers(ses: Session, frames: seq<Down>): Session {
    if ses.live then ses.(down := ses.down + frames) else ses
  }

  function Gone(room: Room<nat>, bcast: Option<Down>, j: nat): seq<Down> {
    if bcast.Some? && InRoom(room.clients, j) then [bcast.value] else []
  }

  ghost function Next(cfg: Config, s: System, step: Step): System
    requires Enabled(s, step)
  {
    match step
    case Connects(k, client, hello) =>
      s.(sessions := s.sessions[k := Session(true, client, true, true, None, [hello], [])])
    case Intrudes(k) =>
      s.(sessions := s.sessions[k := Session(false, NEW_CLIENT, true, true, None, [], [])])
    case Changes(k, delta, now) =>
      var ses := s.sessions[k];
      s.(sessions := s.sessions[k := ClientSteps(ses, ChangeLocally(ses.client, delta, now))])
    case Ticks(k, now) =>
      var ses := s.sessions[k];
      s.(sessions := s.sessions[k := ClientSteps(ses, TimerFires(ses.client, now))])
    case Asks(k, msg) =>
      s.(sessions := s.sessions[k := ClientSteps(s.sessions[k], (s.sessions[k].client, [msg]))])
    case ServerTakes(k, draws) =>
      var ses := s.sessions[k];
      var o := HandleMessage(cfg, s.room, k, ses.id, ses.up[0], draws);
      System(o.room, AfterServer(s, k, o),
             if ses.up[0].DeltaUp? && o.verdict.Fine? then s.accepted + [ses.up[0].delta] else s.accepted)
    case ClientTakes(k) =>
      var ses := s.sessions[k];
      s.(sessions := s.sessions[k := ClientSteps(ses, Receive(ses.client, ses.down[0])).(down := ses.down[1..])])
    case ClientCloses(k) => s.(sessions := s.sessions[k := s.sessions[k].(open := false)])
    case Ejected(k) => s.(sessions := s.sessions[k := s.sessions[k].(live := false)])
    case SocketCloses(k) =>
      var (room, bcast) := HandleDisconnect(s.room, k, s.sessions[k].id);
      System(room,
             map j | j in s.sessions ::
               if j == k then s.sessions[j].(live := false)
               else Delivers(s.sessions[j], Gone(room, bcast, j)),
             s.accepted)
  }

  // ---------------------------------------------------------------- a client's view of the room

  /** The part of a client that the membership and role frames determine. */
  datatype View = View(connected: bool, ownId: Option<ClientId>, role: Role, peers: seq<Peer>, lastSeen: Option<nat>)

  function ViewOf(c: Client): View { View(c.connected, c.ownId, c.role, c.peers, c.lastSeen) }

  function Observe(v: View, m: Down): View {
    match m
    case Welcome(id, role, serverSeq, _, peers) =>
      View(true, Some(id), role, AddPeers([], peers), Noted(v.lastSeen, serverSeq))
    case DeltaDown(serverSeq, _, delta) =>
      if ParsesChanges(delta.changes) then v.(lastSeen := Noted(v.lastSeen, serverSeq)) else v
    case Snapshot(serverSeq, _) => v.(lastSeen := Noted(v.lastSeen, serverSeq))
    case RoleChanged(id, role) =>
      if v.ownId == Some(id) then v.(role := role) else v.(peers := SetPeerRole(v.peers, id, role))
    case PeerJoined(peer) => v.(peers := AddOrUpdatePeer(v.peers, peer))
    case PeerLeft(id) => v.(peers := RemovePeer(v.peers, id))
    case ErrorDown(_) => v
  }

  /** The view once everything in flight has been handled. */
  function ObserveAll(v: View, ms: seq<Down>): View
    decreases |ms|
  {
    if ms == [] then v else ObserveAll(Observe(v, ms[0]), ms[1..])
  }

  /** A frame the client can make sense of: never a delta while in control, and deltas whose number fits strictly in
      sequence; and, if `tight`, no number that does not fit and no snapshot while in control. */
  ghost predicate Expected(v: View, m: Down, tight: bool) {
    && (m.Welcome? <==> !v.connected)
    && (m.Welcome? ==> m.role == Observer && DecksOk(m.decks))
    && (m.Snapshot? ==> DecksOk(m.decks))
    && (m.DeltaDown? ==> Acceptable(m.delta.changes) && v.role == Observer)
    && (m.DeltaDown? && m.serverSeq <= INT_MAX ==> Advances(v.lastSeen, m.serverSeq))
    && (tight && m.DeltaDown? ==> m.serverSeq <= INT_MAX)
    && (tight && m.Snapshot? ==> v.role == Observer)
  }

  ghost predicate DecksOk(decks: map<DeckId, Deck>) {
    A in decks && forall d :: d in decks ==> ValidDeck(decks[d])
  }

  ghost predicate AllExpected(v: View, ms: seq<Down>, tight: bool)
    decreases |ms|
  {
    ms != [] ==> Expected(v, ms[0], tight) && AllExpected(Observe(v, ms[0]), ms[1..], tight)
  }

  lemma {:induction false} OneMore(v: View, ms: seq<Down>, m: Down, tight: bool)
    ensures ObserveAll(v, ms + [m]) == Observe(ObserveAll(v, ms), m)
    ensures AllExpected(v, ms + [m], tight) <==> AllExpected(v, ms, tight) && Expected(ObserveAll(v, ms), m, tight)
    decreases |ms|
  {
    if ms == [] {
      assert (ms + [m])[1..] == [];
    } else {
      assert (ms + [m])[1..] == ms[1..] + [m];
      OneMore(Observe(v, ms[0]), ms[1..], m, tight);
    }
  }

  lemma {:induction false} Loosen(v: View, ms: seq<Down>, tight: bool, looser: bool)
    requires AllExpected(v, ms, tight) && (looser ==> tight)
    ensures AllExpected(v, ms, looser)
    decreases |ms|
  {
    if ms != [] { Loosen(Observe(v, ms[0]), ms[1..], tight, looser); }
  }

  lemma ReceiveObserves(c: Client, m: Down)
    ensures ViewOf(Receive(c, m).0) == Observe(ViewOf(c), m)
  {}

  /** While the sequence number fits the client's 32-bit integer. */
  ghost predicate Fits(room: Room<nat>) { room.serverSeq <= INT_MAX }

  /** What a member should know of itself and of the sequence. */
  ghost predicate Agrees(v: View, room: Room<nat>, id: ClientId) {
    && v.connected && v.ownId == Some(id)
    && v.role == RoleOf(room.controllerId, id)
    && (v.lastSeen.Some? ==> v.lastSeen.value <= room.serverSeq)
    && (Fits(room) ==> v.lastSeen.Some?)
  }

  /** The member's list is everyone else, in the order they joined, with names and roles. */
  ghost predicate Lists(v: View, room: Room<nat>, id: ClientId) {
    v.peers == Others(room.clients, id, room.controllerId)
  }

  // ---------------------------------------------------------------- a client's list has a bound of its own

  lemma {:induction false} ListStaysShort(peers: seq<Peer>, more: seq<Peer>)
    requires |peers| <= MAX_PEERS
    ensures |AddPeers(peers, more)| <= MAX_PEERS
    decreases |more|
  {
    if more != [] { ListStaysShort(AddOrUpdatePeer(peers, more[0]), more[1..]); }
  }

  lemma {:induction false} RemovedIsShorter(peers: seq<Peer>, id: ClientId, role: Role)
    ensures |RemovePeer(peers, id)| <= |peers| && |SetPeerRole(peers, id, role)| == |peers|
  {
    if peers != [] { RemovedIsShorter(peers[1..], id, role); }
  }

  lemma ObserveStaysShort(v: View, m: Down)
    requires |v.peers| <= MAX_PEERS
    ensures |Observe(v, m).peers| <= MAX_PEERS
  {
    match m
    case Welcome(_, _, _, _, peers) => ListStaysShort([], peers);
    case RoleChanged(id, role) => RemovedIsShorter(v.peers, id, role);
    case PeerLeft(id) => RemovedIsShorter(v.peers, id, Observer);
    case _ =>
  }

  lemma {:induction false} ViewStaysShort(v: View, ms: seq<Down>)
    requires |v.peers| <= MAX_PEERS
    ensures |ObserveAll(v, ms).peers| <= MAX_PEERS
    decreases |ms|
  {
    if ms != [] {
      ObserveStaysShort(v, ms[0]);
      ViewStaysShort(Observe(v, ms[0]), ms[1..]);
    }
  }

  // ---------------------------------------------------------------- peer lists follow the room

  lemma {:induction false} OthersAppend(clients: seq<Member<nat>>, m: Member<nat>, me: ClientId, ctl: Option<ClientId>)
    ensures Others(clients + [m], me, ctl)
         == Others(clients, me, ctl) + if m.id == me then [] else [Peer(m.id, m.name, RoleOf(ctl, m.id))]
  {
    if clients == [] {
      assert (clients + [m])[1..] == [];
    } else {
      assert (clients + [m])[1..] == clients[1..] + [m];
      OthersAppend(clients[1..], m, me, ctl);
    }
  }

  /** Peers are members, in the members' order; so ids stay distinct and names stay good. */
  lemma {:induction false} OthersFrom(clients: seq<Member<nat>>, me: ClientId, ctl: Option<ClientId>)
    ensures |Others(clients, me, ctl)| <= |clients|
    ensures HasId(clients, me) ==> |Others(clients, me, ctl)| < |clients|
    ensures forall p :: p in Others(clients, me, ctl) ==>
      exists m :: m in clients && m.id == p.id && m.name == p.name && p.id != me
  {
    if clients != [] { OthersFrom(clients[1..], me, ctl); }
  }

  lemma OthersHead(clients: seq<Member<nat>>, me: ClientId, ctl: Option<ClientId>)
    requires clients != []
    ensures var m := clients[0]; var rest := Others(clients[1..], me, ctl);
      && (m.id == me ==> Others(clients, me, ctl) == rest)
      && (m.id != me ==>
            && Others(clients, me, ctl) != [] && Others(clients, me, ctl)[1..] == rest
            && Others(clients, me, ctl)[0] == Peer(m.id, m.name, RoleOf(ctl, m.id)))
  {}

  lemma {:induction false} OthersRole(
    clients: seq<Member<nat>>, me: ClientId, ctl: Option<ClientId>, ctl': Option<ClientId>, id: ClientId)
    requires (ctl == Some(id) && ctl'.None?) || (ctl.None? && ctl' == Some(id))
    ensures Others(clients, me, ctl') == SetPeerRole(Others(clients, me, ctl), id, RoleOf(ctl', id))
    ensures me == id ==> Others(clients, me, ctl') == Others(clients, me, ctl)
  {
    if clients != [] {
      OthersRole(clients[1..], me, ctl, ctl', id);
      OthersHead(clients, me, ctl);
      OthersHead(clients, me, ctl');
    }
  }

  lemma {:induction false} OthersWithout(clients: seq<Member<nat>>, me: ClientId, ctl: Option<ClientId>, id: ClientId)
    requires me != id
    ensures Others(Without(clients, id), me, if ctl == Some(id) then None else ctl)
         == RemovePeer(Others(clients, me, ctl), id)
  {
    if clients != [] {
      OthersWithout(clients[1..], me, ctl, id);
      OthersHead(clients, me, ctl);
      if clients[0].id == id {
        assert Without(clients, id) == Without(clients[1..], id);
      } else {
        assert Without(clients, id)[1..] == Without(clients[1..], id);
        OthersHead(Without(clients, id), me, if ctl == Some(id) then None else ctl);
      }
    }
  }

  /** A fresh, presentable peer fits at the end of a list with room to spare. */
  lemma AddFresh(peers: seq<Peer>, peer: Peer)
    requires ClientAcceptsName(peer.name) && |peers| < MAX_PEERS
    requires forall p :: p in peers ==> p.id != peer.id
    ensures AddOrUpdatePeer(peers, peer) == peers + [peer]
  {}

  lemma {:induction false} AddAllFresh(peers: seq<Peer>, more: seq<Peer>)
    requires |peers| + |more| <= MAX_PEERS
    requires forall p :: p in more ==> ClientAcceptsName(p.name)
    requires forall i, j :: 0 <= i < j < |peers + more| ==> (peers + more)[i].id != (peers + more)[j].id
    ensures AddPeers(peers, more) == peers + more
    decreases |more|
  {
    if more == [] {
      assert peers + more == peers;
    } else {
      assert (peers + more)[|peers|] == more[0];
      assert forall i :: 0 <= i < |peers| ==> (peers + more)[i] == peers[i];
      AddFresh(peers, more[0]);
      assert (peers + [more[0]]) + more[1..] == peers + more;
      AddAllFresh(peers + [more[0]], more[1..]);
    }
  }

  lemma {:induction false} OthersDistinct(clients: seq<Member<nat>>, me: ClientId, ctl: Option<ClientId>)
    requires Distinct(clients)
    ensures var ps := Others(clients, me, ctl); forall i, j :: 0 <= i < j < |ps| ==> ps[i].id != ps[j].id
  {
    if clients != [] {
      OthersDistinct(clients[1..], me, ctl);
      OthersFrom(clients[1..], me, ctl);
      var rest := Others(clients[1..], me, ctl);
      forall j | 0 <= j < |rest| ensures rest[j].id != clients[0].id {
        assert rest[j] in rest;
      }
    }
  }

  /** The peer list a newcomer is welcomed with is the one it shows, as long as it fits: the list holds
      MAX_PEERS others, so the room may hold one more than that. */
  lemma WelcomedPeers(cfg: Config, room: Room<nat>, me: ClientId)
    requires RoomOk(cfg, room) && HasId(room.clients, me) && |room.clients| <= MAX_PEERS + 1
    ensures AddPeers([], Others(room.clients, me, room.controllerId)) == Others(room.clients, me, room.controllerId)
  {
    var ps := Others(room.clients, me, room.controllerId);
    OthersFrom(room.clients, me, room.controllerId);
    OthersDistinct(room.clients, me, room.controllerId);
    assert [] + ps == ps;
    forall p | p in ps ensures ClientAcceptsName(p.name) {
      var m :| m in room.clients && m.id == p.id && m.name == p.name;
      AdmittedNamesAreShown(p.name);
    }
    AddAllFresh([], ps);
  }
}
