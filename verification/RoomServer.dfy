/** The program form of the room: the closure state of `createRoom`, updated in place. Every handler
    is proved to do to the state, to the sender's connection and to every other connection exactly
    what the functions of module Rooms say. */
module RoomServers {
  import opened Playback
  import opened Messages
  import opened Rooms

  /** The connection object the transport hands to the room. */
  class Conn {
    var id: Option<ClientId>
    var name: string
    var sent: seq<Down>
    var closed: Option<int>

    constructor ()
      ensures id.None? && sent == [] && closed.None?
    {
      id, name, sent, closed := None, "", [], None;
    }

    method Send(msg: Down)
      modifies this`sent
      ensures sent == old(sent) + [msg]
    {
      sent := sent + [msg];
    }

    /** Only the first close decides the code. */
    method Close(code: int)
      modifies this`closed
      ensures closed == if old(closed).Some? then old(closed) else Some(code)
    {
      if closed.None? { closed := Some(code); }
    }
  }

  lemma OthersStep(clients: seq<Member<Conn>>, k: nat, me: ClientId, ctl: Option<ClientId>, peers: seq<Peer>)
    requires k < |clients|
    ensures var m := clients[k];
      peers + Others(clients[k..], me, ctl)
      == (if m.id == me then peers else peers + [Peer(m.id, m.name, RoleOf(ctl, m.id))])
         + Others(clients[k + 1..], me, ctl)
  {
    assert clients[k..][1..] == clients[k + 1..];
  }

  class RoomServer {
    const cfg: Config
    var clients: seq<Member<Conn>>
    var decks: map<DeckId, Deck>
    var serverSeq: nat
    var controllerId: Option<ClientId>

    ghost function View(): Room<Conn>
      reads this
    {
      Room(clients, decks, serverSeq, controllerId)
    }

    ghost function Conns(): set<Conn>
      reads this
    {
      set i | 0 <= i < |clients| :: clients[i].conn
    }

    ghost predicate Valid()
      reads this, Conns()`id, Conns()`name
    {
      && RoomOk(cfg, View())
      && forall i :: 0 <= i < |clients| ==>
           clients[i].conn.id == Some(clients[i].id) && clients[i].conn.name == clients[i].name
    }

    constructor (cfg: Config)
      ensures this.cfg == cfg && View() == NewRoom() && Valid()
    {
      this.cfg := cfg;
      clients, decks, serverSeq, controllerId := [], map[A := DEFAULT_DECK], 0, None;
    }

    lemma ConnsInRoom()
      ensures forall c: Conn :: c in Conns() <==> InRoom(clients, c)
    {}

    predicate Registered(conn: Conn)
      reads this, conn
      ensures Registered(conn) == IsMember(View(), conn, conn.id)
    {
      conn.id.Some?
      && var i := IndexOf(clients, conn.id.value); i < |clients| && clients[i].conn == conn
    }

    /** Fans out to every member except `except`. */
    method Broadcast(msg: Down, except: Conn?)
      requires Distinct(clients)
      modifies Conns()`sent
      ensures forall c :: c in Conns() ==>
        c.sent == old(c.sent) + if c == except then [] else [msg]
    {
      for k := 0 to |clients|
        invariant forall i :: 0 <= i < k ==>
          clients[i].conn.sent == old(clients[i].conn.sent) + if clients[i].conn == except then [] else [msg]
        invariant forall i :: k <= i < |clients| ==> clients[i].conn.sent == old(clients[i].conn.sent)
      {
        if clients[k].conn != except {
          clients[k].conn.Send(msg);
        }
      }
    }

    method AllocateClientId(draws: seq<ClientId>) returns (id: Option<ClientId>)
      ensures id == Allocate(clients, Tried(draws))
    {
      ghost var tried := Tried(draws);
      var attempt := 0;
      while attempt < ID_ATTEMPTS && attempt < |draws|
        invariant 0 <= attempt <= |tried|
        invariant Allocate(clients, tried) == Allocate(clients, tried[attempt..])
      {
        if !HasId(clients, draws[attempt]) { return Some(draws[attempt]); }
        attempt := attempt + 1;
      }
      id := None;
    }

    method PeersBut(conn: Conn) returns (peers: seq<Peer>)
      requires Valid() && Registered(conn)
      ensures peers == Others(clients, conn.id.value, controllerId)
    {
      peers := [];
      for k := 0 to |clients|
        invariant Others(clients, conn.id.value, controllerId)
               == peers + Others(clients[k..], conn.id.value, controllerId)
      {
        SameMember(conn, k);
        OthersStep(clients, k, conn.id.value, controllerId, peers);
        if clients[k].conn != conn {
          peers := peers + [Peer(clients[k].id, clients[k].name, RoleOf(controllerId, clients[k].id))];
        }
      }
    }

    /** A member is the registered connection exactly if it has its id. */
    lemma SameMember(conn: Conn, k: nat)
      requires Distinct(clients) && Registered(conn) && k < |clients|
      ensures clients[k].conn == conn <==> clients[k].id == conn.id.value
    {
      var i := IndexOf(clients, conn.id.value);
      if clients[k].conn == conn || clients[k].id == conn.id.value { DistinctAt(clients, k, i); }
    }

    /** The room, the sender's connection and every member's outgoing frames are as `o` says. */
    twostate predicate Did(conn: Conn, o: Outcome<Conn>, verdict: Verdict)
      reads this, conn, Conns()
    {
      && View() == o.room && conn.id == o.id && verdict == o.verdict
      && (forall c :: c in Conns() + {conn} ==> c.sent == old(c.sent) + Delivered(o, conn, c))
      && conn.closed == (if verdict.Closed? && old(conn.closed).None? then Some(verdict.closeCode) else old(conn.closed))
    }

    method SendError(conn: Conn, code: ErrorCode) returns (verdict: Verdict)
      modifies conn`sent
      ensures conn.sent == old(conn.sent) + [ErrorDown(code)]
      ensures verdict == Rejected(code)
    {
      conn.Send(ErrorDown(code));
      verdict := Rejected(code);
    }

    method CloseHandshake(conn: Conn, code: int) returns (verdict: Verdict)
      requires Valid() && conn.id.None?
      modifies conn`closed
      ensures Valid()
      ensures Did(conn, Closing(old(View()), code), verdict)
    {
      conn.Close(code);
      verdict := Closed(code);
    }

    method Register(conn: Conn, id: ClientId, name: string)
      requires Valid() && conn.id.None? && conn !in Conns()
      requires !HasId(clients, id) && ServerAcceptsName(name) && |clients| < cfg.maxClients
      modifies this`clients, conn`id, conn`name
      ensures Valid() && conn.id == Some(id) && Registered(conn)
      ensures clients == old(clients) + [Member(id, conn, name)]
      ensures Conns() == old(Conns()) + {conn}
    {
      AdmitKeepsRoom(cfg, View(), Member(id, conn, name));
      conn.id, conn.name := Some(id), name;
      clients := clients + [Member(id, conn, name)];
      assert clients[|clients| - 1].conn == conn;
      assert forall i :: 0 <= i < |old(clients)| ==> clients[i] == old(clients)[i];
    }

    /** Registers the connection, welcomes it and announces it to everyone else. */
    method Admit(conn: Conn, id: ClientId, name: string)
      requires Valid() && conn.id.None? && conn !in Conns()
      requires !HasId(clients, id) && ServerAcceptsName(name) && |clients| < cfg.maxClients
      modifies this`clients, conn`id, conn`name, conn`sent, Conns()`sent
      ensures Valid()
      ensures conn.id == Some(id) && conn.closed == old(conn.closed)
      ensures clients == old(clients) + [Member(id, conn, name)] && Conns() == old(Conns()) + {conn}
      ensures conn.sent == old(conn.sent)
        + [Welcome(id, RoleOf(controllerId, id), serverSeq, decks, Others(clients, id, controllerId))]
      ensures forall c :: c in old(Conns()) ==>
        c.sent == old(c.sent) + [PeerJoined(Peer(id, name, RoleOf(controllerId, id)))]
    {
      Register(conn, id, name);
      var peers := PeersBut(conn);
      var role := RoleOf(controllerId, id);
      conn.Send(Welcome(id, role, serverSeq, decks, peers));
      Broadcast(PeerJoined(Peer(id, name, role)), conn);
    }

    method Join(conn: Conn, id: ClientId, name: string) returns (verdict: Verdict)
      requires Valid() && conn.id.None? && conn !in Conns()
      requires !HasId(clients, id) && ServerAcceptsName(name) && |clients| < cfg.maxClients
      modifies this`clients, conn`id, conn`name, conn`sent, Conns()`sent
      ensures Valid()
      ensures Did(conn, Joined(old(View()), conn, id, name), verdict)
    {
      Admit(conn, id, name);
      ConnsInRoom();
      verdict := Fine;
    }

    /** Capacity is looked at only once the hello has proved it knows the room code. */
    method Refusal(version: Option<int>, name: string, room: string) returns (code: Option<int>)
      ensures code == HelloRefusal(cfg, View(), version, name, room)
    {
      code := HelloFault(cfg, version, name, room);
      if code.None? && |clients| >= cfg.maxClients { code := Some(CLOSE_ROOM_FULL); }
    }

    method HandleHello(conn: Conn, version: Option<int>, name: string, room: string, draws: seq<ClientId>)
      returns (verdict: Verdict)
      requires Valid() && conn.id.None? && conn !in Conns()
      modifies this, conn, Conns()`sent
      ensures Valid()
      ensures Did(conn, Rooms.HandleHello(cfg, old(View()), conn, version, name, room, draws), verdict)
    {
      var refusal := Refusal(version, name, room);
      verdict := AnswerHello(conn, refusal, name, draws);
    }

    method AnswerHello(conn: Conn, refusal: Option<int>, name: string, draws: seq<ClientId>) returns (verdict: Verdict)
      requires Valid() && conn.id.None? && conn !in Conns()
      requires refusal.None? ==> ServerAcceptsName(name) && |clients| < cfg.maxClients
      modifies this, conn, Conns()`sent
      ensures Valid()
      ensures Did(conn, Rooms.AnswerHello(old(View()), conn, refusal, name, draws), verdict)
    {
      if refusal.Some? {
        verdict := CloseHandshake(conn, refusal.value);
        return;
      }
      var id := AllocateClientId(draws);
      if id.None? {
        verdict := CloseHandshake(conn, CLOSE_INTERNAL_ERROR);
        return;
      }
      verdict := Join(conn, id.value, name);
    }

    method HandleClaimControl(conn: Conn) returns (verdict: Verdict)
      requires conn.id.Some? && Distinct(clients)
      modifies this`controllerId, conn`sent, Conns()`sent
      ensures Did(conn, HandleClaim(old(View()), conn, old(conn.id)), verdict)
    {
      if !Registered(conn) {
        verdict := SendError(conn, BadMessage);
      } else if controllerId.Some? {
        verdict := SendError(conn, ControlTaken);
      } else {
        ConnsInRoom();
        controllerId := conn.id;
        Broadcast(RoleChanged(conn.id.value, Controller), null);
        verdict := Fine;
      }
    }

    method HandleReleaseControl(conn: Conn) returns (verdict: Verdict)
      requires conn.id.Some? && Distinct(clients)
      modifies this`controllerId, conn`sent, Conns()`sent
      ensures Did(conn, HandleRelease(old(View()), conn, old(conn.id)), verdict)
    {
      if !Registered(conn) {
        verdict := SendError(conn, BadMessage);
      } else if controllerId != conn.id {
        verdict := SendError(conn, NotController);
      } else {
        ConnsInRoom();
        controllerId := None;
        Broadcast(RoleChanged(conn.id.value, Observer), null);
        verdict := Fine;
      }
    }

    method Store(delta: Delta)
      modifies this`decks, this`serverSeq
      ensures decks == old(decks)[delta.deck := Merge(Canonical(old(decks), delta.deck), delta.changes)]
      ensures serverSeq == old(serverSeq) + 1
    {
      if delta.deck !in decks { decks := decks[delta.deck := DEFAULT_DECK]; }
      decks := decks[delta.deck := Merge(decks[delta.deck], delta.changes)];
      serverSeq := serverSeq + 1;
    }

    method HandleDelta(conn: Conn, delta: Delta) returns (verdict: Verdict)
      requires conn.id.Some? && Distinct(clients)
      modifies this`decks, this`serverSeq, conn`sent, Conns()`sent
      ensures Did(conn, Rooms.HandleDelta(old(View()), conn, old(conn.id), delta), verdict)
    {
      if !Registered(conn) || !Acceptable(delta.changes) {
        verdict := SendError(conn, BadMessage);
      } else if controllerId != conn.id {
        verdict := SendError(conn, NotController);
        // Repairs the sender's optimistic state.
        conn.Send(Snapshot(serverSeq, decks));
        assert conn.sent == old(conn.sent) + [ErrorDown(NotController), Snapshot(serverSeq, decks)];
      } else {
        ConnsInRoom();
        Store(delta);
        Broadcast(DeltaDown(serverSeq, conn.id.value, delta), conn);
        verdict := Fine;
      }
    }

    /** Always answered, even to a connection the room has retired. */
    method HandleRequestSnapshot(conn: Conn) returns (verdict: Verdict)
      modifies conn`sent
      ensures Did(conn, Outcome(View(), conn.id, [Snapshot(serverSeq, decks)], None, false, Fine), verdict)
    {
      conn.Send(Snapshot(serverSeq, decks));
      verdict := Fine;
    }

    method RefuseMessage(conn: Conn) returns (verdict: Verdict)
      modifies conn`sent
      ensures Did(conn, Refuse(View(), conn.id, BadMessage, []), verdict)
    {
      verdict := SendError(conn, BadMessage);
    }

    /** `draws` are the random ids the allocation may try. */
    method HandleMessage(conn: Conn, msg: Up, draws: seq<ClientId>) returns (verdict: Verdict)
      requires Valid() && (conn.id.None? ==> conn !in Conns())
      modifies this, conn, Conns()`sent
      ensures Valid()
      ensures Did(conn, Rooms.HandleMessage(cfg, old(View()), conn, old(conn.id), msg, draws), verdict)
    {
      if conn.id.None? {
        verdict := HandleFirst(conn, msg, draws);
      } else {
        verdict := HandleLater(conn, msg, draws);
      }
    }

    /** Nothing but a hello is heard before the handshake. */
    method HandleFirst(conn: Conn, msg: Up, draws: seq<ClientId>) returns (verdict: Verdict)
      requires Valid() && conn.id.None? && conn !in Conns()
      modifies this, conn, Conns()`sent
      ensures Valid()
      ensures Did(conn, Rooms.HandleMessage(cfg, old(View()), conn, None, msg, draws), verdict)
    {
      match msg
      case Hello(version, name, room) => verdict := HandleHello(conn, version, name, room, draws);
      case _ => verdict := CloseHandshake(conn, CLOSE_BAD_HANDSHAKE);
    }

    method HandleLater(conn: Conn, msg: Up, draws: seq<ClientId>) returns (verdict: Verdict)
      requires Valid() && conn.id.Some?
      modifies this, conn`sent, Conns()`sent
      ensures Valid()
      ensures Did(conn, Rooms.HandleMessage(cfg, old(View()), conn, old(conn.id), msg, draws), verdict)
    {
      MessageKeepsRoom(cfg, View(), conn, conn.id, msg, draws);
      match msg
      case ClaimControl => verdict := HandleClaimControl(conn);
      case ReleaseControl => verdict := HandleReleaseControl(conn);
      case DeltaUp(delta) => verdict := HandleDelta(conn, delta);
      case RequestSnapshot => verdict := HandleRequestSnapshot(conn);
      case _ => verdict := RefuseMessage(conn);
    }

    /** Safe to call twice: a departed connection must not evict whoever has since drawn its id. */
    method HandleDisconnect(conn: Conn)
      requires Valid()
      modifies this`clients, this`controllerId, Conns()`sent
      ensures Valid()
      ensures var (room, bcast) := Rooms.HandleDisconnect(old(View()), conn, conn.id);
        && View() == room
        && forall c :: c in old(Conns()) ==>
             c.sent == old(c.sent) + if bcast.Some? && c in Conns() then [bcast.value] else []
    {
      if !Registered(conn) { return; }
      var id := conn.id.value;
      Remove(conn);
      Broadcast(PeerLeft(id), null);
    }

    method Remove(conn: Conn)
      requires Valid() && Registered(conn)
      modifies this`clients, this`controllerId
      ensures Valid()
      ensures View() == Rooms.HandleDisconnect(old(View()), conn, conn.id).0
      ensures Conns() <= old(Conns())
    {
      DisconnectKeepsRoom(cfg, View(), conn, conn.id);
      WithoutMembers(clients, conn.id.value);
      clients := Without(clients, conn.id.value);
      assert forall i :: 0 <= i < |clients| ==> clients[i] in old(clients);
      controllerId := if controllerId == conn.id then None else controllerId;
    }
  }
}
