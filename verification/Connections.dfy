/** The connection layer of server/src/server.js around the room: one record per socket, the ceiling on
    sockets that have not said hello, the rate limiter, the three-strike rule, and ejection.  Records are
    numbered in the order they are opened; the room's connections are those numbers. */
module Connections {
  import opened Playback
  import opened Messages
  import opened Rooms
  import opened RateLimiting

  const PRE_HELLO_CEILING_FACTOR := 4
  const MAX_CONSECUTIVE_INVALID := 3
  const CLOSE_RATE_LIMIT_BAN := 4003
  const CLOSE_POLICY_VIOLATION := 1008
  const CLOSE_GOING_AWAY := 1001

  /** `ejectCode` is the code of the first close; `notices` are the error frames this layer itself has sent, the room's
      replies apart. */
  datatype Record = Record(
    id: Option<ClientId>,
    helloTimer: bool,
    pendingHello: bool,
    bucket: Bucket,
    consecutiveInvalid: nat,
    ejected: bool,
    ejectCode: int,
    notices: seq<ErrorCode>)

  datatype Hub = Hub(room: Room<nat>, records: map<nat, Record>, preHelloCount: int, nextKey: nat)

  datatype Setup = Setup(cfg: Config, limit: Limit)
  {
    function Ceiling(): nat { cfg.maxClients * PRE_HELLO_CEILING_FACTOR }
  }

  /** A frame is binary, or text that is not JSON, or a JSON message. */
  datatype Data = Binary | Garbage | Text(msg: Up)

  const NEW_HUB := Hub(NewRoom(), map[], 0, 0)

  function With(h: Hub, k: nat, r: Record): Hub { h.(records := h.records[k := r]) }

  /** Ends the pre-hello phase; the second time it does nothing. */
  function ReleaseHelloWatch(h: Hub, k: nat): Hub
    requires k in h.records
  {
    var r := h.records[k];
    With(h, k, r.(helloTimer := false, pendingHello := false))
    .(preHelloCount := if r.pendingHello then h.preHelloCount - 1 else h.preHelloCount)
  }

  /** Only the first close of a connection counts. */
  function Close(h: Hub, k: nat, code: int): Hub
    requires k in h.records
  {
    if h.records[k].ejected then h
    else ReleaseHelloWatch(With(h, k, h.records[k].(ejected := true, ejectCode := code)), k)
  }

  /** Those among `ks` whose closing frees a slot. */
  function Holding(h: Hub, ks: set<nat>): set<nat>
    requires ks <= h.records.Keys
  {
    set k | k in ks && !h.records[k].ejected && h.records[k].pendingHello
  }

  /** Closing a set of connections, in whatever order. */
  function CloseAll(h: Hub, ks: set<nat>, code: int): Hub
    requires ks <= h.records.Keys
  {
    Hub(h.room,
        map k | k in h.records ::
          if k in ks && !h.records[k].ejected
          then h.records[k].(ejected := true, ejectCode := code, helloTimer := false, pendingHello := false)
          else h.records[k],
        h.preHelloCount - |Holding(h, ks)|,
        h.nextKey)
  }

  function ChargeRecord(s: Setup, h: Hub, k: nat, now: real): (Hub, bool)
    requires k in h.records
  {
    var (b, c) := ChargeOne(s.limit, h.records[k].bucket, now);
    var r := h.records[k];
    var h1 := With(h, k, r.(bucket := b, notices := r.notices + if c.reply then [RateLimited] else []));
    if c.ban then (Close(h1, k, CLOSE_RATE_LIMIT_BAN), false) else (h1, c.served)
  }

  /** An error frame from this layer. */
  function Notice(h: Hub, k: nat, code: ErrorCode): Hub
    requires k in h.records
  {
    With(h, k, h.records[k].(notices := h.records[k].notices + [code]))
  }

  function CountInvalid(h: Hub, k: nat): Hub
    requires k in h.records
  {
    var n := h.records[k].consecutiveInvalid + 1;
    var h1 := With(h, k, h.records[k].(consecutiveInvalid := n));
    if n < MAX_CONSECUTIVE_INVALID then h1 else Close(h1, k, CLOSE_POLICY_VIOLATION)
  }

  /** A new socket, unless too many have yet to say hello. */
  function Open(s: Setup, h: Hub, now: real): Hub {
    if h.preHelloCount >= s.Ceiling() then h
    else Hub(h.room,
             h.records[h.nextKey := Record(None, true, true, NewBucket(s.limit, now), 0, false, 0, [])],
             h.preHelloCount + 1, h.nextKey + 1)
  }

  /** Error frames are short; any other frame may turn out too large to send. */
  predicate MayBeTooLarge(ms: seq<Down>) {
    exists i :: 0 <= i < |ms| && !ms[i].ErrorDown?
  }

  /** Those whose copy of what the room sends exceeds the frame limit. */
  function Oversized(h: Hub, o: Outcome<nat>, from: nat, tooLarge: set<nat>): set<nat> {
    set k | k in tooLarge && k in h.records && MayBeTooLarge(Delivered(o, from, k))
  }

  /** What a verdict does to the strikes of a member. */
  function Settle(h: Hub, k: nat, v: Verdict): Hub
    requires k in h.records
  {
    match v
    case Fine => With(h, k, h.records[k].(consecutiveInvalid := 0))
    case Rejected(code) => if code == BadMessage then CountInvalid(h, k) else h
    case Closed(_) => h
  }

  /** What becomes of the connections once the room has handled a message of connection k. */
  function AfterRoom(h: Hub, k: nat, o: Outcome<nat>, tooLarge: set<nat>): Hub
    requires k in h.records
  {
    var h1 := With(h, k, h.records[k].(id := o.id)).(room := o.room);
    var h2 := if o.verdict.Closed? then Close(h1, k, o.verdict.closeCode) else h1;
    var h3 := CloseAll(h2, Oversized(h2, o, k, tooLarge), CLOSE_INTERNAL_ERROR);
    var h4 := if o.id.Some? then ReleaseHelloWatch(h3, k) else h3;
    Settle(h4, k, o.verdict)
  }

  /** One message handed to the room. */
  function Handle(s: Setup, h: Hub, k: nat, msg: Up, draws: seq<ClientId>, tooLarge: set<nat>): Hub
    requires k in h.records
  {
    AfterRoom(h, k, HandleMessage<nat>(s.cfg, h.room, k, h.records[k].id, msg, draws), tooLarge)
  }

  function OnMessage(
    s: Setup, h: Hub, k: nat, now: real, data: Data, draws: seq<ClientId>, tooLarge: set<nat>): Hub
    requires k in h.records
  {
    if h.records[k].ejected then h
    else if data.Binary? then Close(h, k, CLOSE_POLICY_VIOLATION)
    else
      var (h1, served) := ChargeRecord(s, h, k, now);
      if !served then h1
      else if data.Text? then Handle(s, h1, k, data.msg, draws, tooLarge)
      else if h1.records[k].id.None? then Close(h1, k, CLOSE_BAD_HANDSHAKE)
      else CountInvalid(Notice(h1, k, BadMessage), k)
  }

  /** A ping or a pong. */
  function OnControlFrame(s: Setup, h: Hub, k: nat, now: real): Hub
    requires k in h.records
  {
    if h.records[k].ejected then h else ChargeRecord(s, h, k, now).0
  }

  function OnHelloTimeout(h: Hub, k: nat): Hub
    requires k in h.records && h.records[k].helloTimer
  {
    var h1 := With(h, k, h.records[k].(helloTimer := false));
    if h1.records[k].id.Some? then h1 else Close(h1, k, CLOSE_BAD_HANDSHAKE)
  }

  function OnSocketClosed(h: Hub, k: nat): Hub
    requires k in h.records
  {
    var h1 := ReleaseHelloWatch(h, k);
    h1.(records := h1.records - {k}, room := HandleDisconnect(h1.room, k, h1.records[k].id).0)
  }

  // ---------------------------------------------------------------- runs

  datatype Event =
    | Opens(now: real)
    | Receives(k: nat, now: real, data: Data, draws: seq<ClientId>, tooLarge: set<nat>)
    | Control(k: nat, now: real)
    | HelloTimeout(k: nat)
    | SocketClosed(k: nat)
    | Shutdown

  function Step(s: Setup, h: Hub, e: Event): Hub {
    match e
    case Opens(now) => Open(s, h, now)
    case Receives(k, now, data, draws, tooLarge) =>
      if k in h.records then OnMessage(s, h, k, now, data, draws, tooLarge) else h
    case Control(k, now) => if k in h.records then OnControlFrame(s, h, k, now) else h
    case HelloTimeout(k) => if k in h.records && h.records[k].helloTimer then OnHelloTimeout(h, k) else h
    case SocketClosed(k) => if k in h.records then OnSocketClosed(h, k) else h
    case Shutdown => CloseAll(h, h.records.Keys, CLOSE_GOING_AWAY)
  }

  function Run(s: Setup, es: seq<Event>): Hub {
    if es == [] then NEW_HUB else Step(s, Run(s, es[..|es| - 1]), es[|es| - 1])
  }

  // ---------------------------------------------------------------- the invariant

  ghost function Pending(h: Hub): set<nat> {
    set k | k in h.records && h.records[k].pendingHello
  }

  /** One record: it holds a pre-hello slot, and a running hello timer, exactly while it has neither joined nor
      been ejected; it has fewer than three strikes unless it was ejected; and if it has joined it is the
      room's member of that id. */
  ghost predicate RecordOk(room: Room<nat>, k: nat, r: Record) {
    SlotOk(r) && (r.id.Some? ==> IsMember(room, k, r.id))
  }

  ghost predicate SlotOk(r: Record) {
    && (r.pendingHello <==> r.id.None? && !r.ejected)
    && r.helloTimer == r.pendingHello
    && (r.consecutiveInvalid >= MAX_CONSECUTIVE_INVALID ==> r.ejected)
  }

  ghost predicate RecordsOk(h: Hub) {
    forall k :: k in h.records ==> k < h.nextKey && RecordOk(h.room, k, h.records[k])
  }

  /** Every member of the room has a record, under its own id. */
  ghost predicate MembersHaveRecords(h: Hub) {
    forall i :: 0 <= i < |h.room.clients| ==>
      h.room.clients[i].conn in h.records && h.records[h.room.clients[i].conn].id == Some(h.room.clients[i].id)
  }

  ghost predicate HubOk(s: Setup, h: Hub) {
    && RoomOk(s.cfg, h.room)
    && RecordsOk(h)
    && MembersHaveRecords(h)
    && h.preHelloCount == |Pending(h)| && h.preHelloCount <= s.Ceiling()
  }

  lemma DropPending(x: set<nat>, k: nat)
    ensures k in x ==> |x - {k}| == |x| - 1
    ensures k !in x ==> x - {k} == x
  {}

  lemma DropAll(x: set<nat>, y: set<nat>)
    requires y <= x
    ensures |x - y| == |x| - |y|
  {
    assert x == (x - y) + y;
  }

  /** What only changes a record, not its identity, keeps the invariant if it keeps the slot accounting. */
  lemma Framed(s: Setup, h: Hub, h1: Hub, k: nat)
    requires HubOk(s, h) && h1.room == h.room && h1.nextKey == h.nextKey
    requires k in h.records && k in h1.records && h1.records == h.records[k := h1.records[k]]
    requires h1.records[k].id == h.records[k].id && SlotOk(h1.records[k])
    requires h1.preHelloCount == h.preHelloCount - (if k in Pending(h) && k !in Pending(h1) then 1 else 0)
    requires k in Pending(h1) ==> k in Pending(h)
    ensures HubOk(s, h1)
  {
    SlotFreed(h, h1, k);
    forall j | j in h1.records ensures j < h1.nextKey && RecordOk(h1.room, j, h1.records[j]) {
      assert j in h.records && RecordOk(h.room, j, h.records[j]);
    }
  }

  lemma SlotFreed(h: Hub, h1: Hub, k: nat)
    requires k in h.records && k in h1.records && h1.records == h.records[k := h1.records[k]]
    requires k in Pending(h1) ==> k in Pending(h)
    ensures |Pending(h1)| == |Pending(h)| - (if k in Pending(h) && k !in Pending(h1) then 1 else 0)
  {
    assert Pending(h1) == if k in Pending(h) && k !in Pending(h1) then Pending(h) - {k} else Pending(h);
    DropPending(Pending(h), k);
  }

  /** Closing never touches the room, and frees the slot if there was one. */
  lemma CloseKeeps(s: Setup, h: Hub, k: nat, code: int)
    requires HubOk(s, h) && k in h.records
    ensures HubOk(s, Close(h, k, code))
  {
    if !h.records[k].ejected { Framed(s, h, Close(h, k, code), k); }
  }

  lemma CloseAllKeeps(s: Setup, h: Hub, ks: set<nat>, code: int)
    requires HubOk(s, h) && ks <= h.records.Keys
    ensures HubOk(s, CloseAll(h, ks, code))
  {
    var h1 := CloseAll(h, ks, code);
    assert Pending(h1) == Pending(h) - Holding(h, ks);
    DropAll(Pending(h), Holding(h, ks));
  }

  lemma ChargeKeeps(s: Setup, h: Hub, k: nat, now: real)
    requires HubOk(s, h) && k in h.records
    ensures HubOk(s, ChargeRecord(s, h, k, now).0) && k in ChargeRecord(s, h, k, now).0.records
  {
    var (b, c) := ChargeOne(s.limit, h.records[k].bucket, now);
    var r := h.records[k];
    var h1 := With(h, k, r.(bucket := b, notices := r.notices + if c.reply then [RateLimited] else []));
    Framed(s, h, h1, k);
    CloseKeeps(s, h1, k, CLOSE_RATE_LIMIT_BAN);
  }

  lemma ChargeOnly(s: Setup, h: Hub, k: nat, now: real)
    requires k in h.records && ChargeRecord(s, h, k, now).1
    ensures var h1 := ChargeRecord(s, h, k, now).0;
      k in h1.records && h1.records[k].ejected == h.records[k].ejected
  {}

  lemma InvalidKeeps(s: Setup, h: Hub, k: nat)
    requires HubOk(s, h) && k in h.records && h.records[k].id.Some?
    ensures HubOk(s, CountInvalid(h, k))
  {
    Framed(s, h, CountInvalid(h, k), k);
  }

  lemma OpenKeeps(s: Setup, h: Hub, now: real)
    requires HubOk(s, h)
    ensures HubOk(s, Open(s, h, now))
  {
    if h.preHelloCount < s.Ceiling() {
      assert Pending(Open(s, h, now)) == Pending(h) + {h.nextKey};
    }
  }

  lemma TimeoutKeeps(s: Setup, h: Hub, k: nat)
    requires HubOk(s, h) && k in h.records && h.records[k].helloTimer
    ensures HubOk(s, OnHelloTimeout(h, k))
  {
    Framed(s, h, OnHelloTimeout(h, k), k);
  }

  lemma SocketClosedKeeps(s: Setup, h: Hub, k: nat)
    requires HubOk(s, h) && k in h.records
    ensures HubOk(s, OnSocketClosed(h, k))
  {
    var id := h.records[k].id;
    var h1 := OnSocketClosed(h, k);
    DisconnectKeepsRoom(s.cfg, h.room, k, id);
    assert Pending(h1) == Pending(h) - {k};
    DropPending(Pending(h), k);
    MembersLeft(h, k);
    forall j | j in h1.records ensures RecordOk(h1.room, j, h1.records[j]) {
      if h1.records[j].id.Some? && id.Some? { StaysMember(h.room, k, id.value, j, h1.records[j].id.value); }
    }
  }

  lemma MembersLeft(h: Hub, k: nat)
    requires RecordsOk(h) && MembersHaveRecords(h) && k in h.records
    ensures MembersHaveRecords(OnSocketClosed(h, k))
  {
    var id := h.records[k].id;
    var h1 := OnSocketClosed(h, k);
    assert id.Some? ==> IsMember(h.room, k, id);
    if id.Some? { WithoutMembers(h.room.clients, id.value); }
    forall i | 0 <= i < |h1.room.clients|
      ensures h1.room.clients[i].conn in h1.records
      ensures h1.records[h1.room.clients[i].conn].id == Some(h1.room.clients[i].id)
    {
      var m := h1.room.clients[i];
      assert m in h1.room.clients;
      assert m in h.room.clients;
    }
  }

  /** A disconnect leaves every other member in the room. */
  lemma StaysMember(r: Room<nat>, k: nat, id: ClientId, j: nat, other: ClientId)
    requires Distinct(r.clients) && j != k
    requires IsMember(r, k, Some(id)) && IsMember(r, j, Some(other))
    ensures IsMember(HandleDisconnect(r, k, Some(id)).0, j, Some(other))
  {
    var left := HandleDisconnect(r, k, Some(id)).0.clients;
    WithoutMembers(r.clients, id);
    var m := r.clients[IndexOf(r.clients, other)];
    assert m in left;
    var at := IndexOf(left, other);
    var l := left[at];
    assert l in r.clients;
    var x, y :| 0 <= x < |r.clients| && 0 <= y < |r.clients| && r.clients[x] == l && r.clients[y] == m;
    DistinctAt(r.clients, x, y);
  }

  // ---------------------------------------------------------------- one message

  lemma CloseNone(h: Hub, code: int)
    ensures CloseAll(h, {}, code) == h
  {
    assert CloseAll(h, {}, code).records == h.records;
  }

  /** Releasing a slot before or after others are closed comes to the same. */
  lemma ReleaseCommutes(h: Hub, k: nat, ks: set<nat>, code: int)
    requires k in h.records && ks <= h.records.Keys
    ensures ReleaseHelloWatch(CloseAll(h, ks, code), k) == CloseAll(ReleaseHelloWatch(h, k), ks, code)
  {
    var h1 := ReleaseHelloWatch(h, k);
    var l, r := ReleaseHelloWatch(CloseAll(h, ks, code), k), CloseAll(h1, ks, code);
    assert Holding(h1, ks) == Holding(h, ks) - {k};
    DropPending(Holding(h, ks), k);
    assert l.records == r.records;
    assert l.preHelloCount == r.preHelloCount;
  }

  lemma AlreadyReleased(s: Setup, h: Hub, k: nat)
    requires HubOk(s, h) && k in h.records && h.records[k].id.Some?
    ensures ReleaseHelloWatch(h, k) == h
  {
    assert ReleaseHelloWatch(h, k).records == h.records;
  }

  /** A connection that joins: the room gains a member, and the slot is freed. */
  lemma JoinKeeps(s: Setup, h: Hub, k: nat, msg: Up, draws: seq<ClientId>)
    requires HubOk(s, h) && k in h.records && h.records[k].id.None? && !h.records[k].ejected
    requires HandleMessage<nat>(s.cfg, h.room, k, None, msg, draws).id.Some?
    ensures var o := HandleMessage<nat>(s.cfg, h.room, k, None, msg, draws);
      HubOk(s, ReleaseHelloWatch(With(h, k, h.records[k].(id := o.id)).(room := o.room), k))
  {
    var o := HandleMessage<nat>(s.cfg, h.room, k, None, msg, draws);
    NotYetMember(s, h, k);
    MessageKeepsRoom<nat>(s.cfg, h.room, k, None, msg, draws);
    var h1 := ReleaseHelloWatch(With(h, k, h.records[k].(id := o.id)).(room := o.room), k);
    assert Pending(h1) == Pending(h) - {k};
    DropPending(Pending(h), k);
    forall j | j in h1.records ensures RecordOk(h1.room, j, h1.records[j]) {
      if j != k && h1.records[j].id.Some? {
        JoinStays(h.room, Member(o.id.value, k, msg.name), j, h1.records[j].id.value);
      }
    }
    MembersAfterJoin(h, h1, k, o);
  }

  lemma MembersAfterJoin(h: Hub, h1: Hub, k: nat, o: Outcome<nat>)
    requires MembersHaveRecords(h) && !InRoom(h.room.clients, k) && o.id.Some?
    requires exists name :: h1.room.clients == h.room.clients + [Member(o.id.value, k, name)]
    requires k in h1.records && h1.records[k].id == o.id
    requires forall j :: j != k && j in h.records ==> j in h1.records && h1.records[j].id == h.records[j].id
    ensures MembersHaveRecords(h1)
  {
    forall i | 0 <= i < |h1.room.clients|
      ensures h1.room.clients[i].conn in h1.records
      ensures h1.records[h1.room.clients[i].conn].id == Some(h1.room.clients[i].id)
    {
      if i < |h.room.clients| { assert h1.room.clients[i] == h.room.clients[i]; }
    }
  }

  lemma NotYetMember(s: Setup, h: Hub, k: nat)
    requires HubOk(s, h) && k in h.records && h.records[k].id.None?
    ensures !InRoom(h.room.clients, k)
  {}

  lemma JoinStays(r: Room<nat>, m: Member<nat>, j: nat, id: ClientId)
    requires IsMember(r, j, Some(id))
    ensures IsMember(r.(clients := r.clients + [m]), j, Some(id))
  {
    var i := IndexOf(r.clients, id);
    var clients := r.clients + [m];
    assert clients[i] == r.clients[i] && IndexOf(clients, id) == i;
  }

  /** A message of a member: the membership stays as it is. */
  lemma MemberMessageKeeps(s: Setup, h: Hub, k: nat, msg: Up, draws: seq<ClientId>)
    requires HubOk(s, h) && k in h.records && h.records[k].id.Some?
    ensures var o := HandleMessage<nat>(s.cfg, h.room, k, h.records[k].id, msg, draws);
      var h1 := With(h, k, h.records[k].(id := o.id)).(room := o.room);
      HubOk(s, h1) && h1.records == h.records && !o.verdict.Closed? && o.id == h.records[k].id
  {
    var o := HandleMessage<nat>(s.cfg, h.room, k, h.records[k].id, msg, draws);
    MessageKeepsRoom<nat>(s.cfg, h.room, k, h.records[k].id, msg, draws);
    var h1 := With(h, k, h.records[k].(id := o.id)).(room := o.room);
    assert h1.records == h.records && o.room.clients == h.room.clients;
    assert Pending(h1) == Pending(h);
  }

  /** A message that is refused before hello costs the connection and changes nothing else. */
  lemma RefusedKeeps(s: Setup, h: Hub, k: nat, msg: Up, draws: seq<ClientId>, tooLarge: set<nat>)
    requires HubOk(s, h) && k in h.records && h.records[k].id.None?
    requires HandleMessage<nat>(s.cfg, h.room, k, None, msg, draws).id.None?
    ensures var o := HandleMessage<nat>(s.cfg, h.room, k, None, msg, draws);
      && o.verdict.Closed?
      && Handle(s, h, k, msg, draws, tooLarge) == Close(h, k, o.verdict.closeCode)
  {
    var o := HandleMessage<nat>(s.cfg, h.room, k, None, msg, draws);
    NotYetMember(s, h, k);
    MessageKeepsRoom<nat>(s.cfg, h.room, k, None, msg, draws);
    var e := Classify<nat>(s.cfg, h.room, k, None, msg, draws);
    var h1 := With(h, k, h.records[k].(id := o.id)).(room := o.room);
    assert h1.records == h.records && h1 == h;
    var h2 := Close(h1, k, o.verdict.closeCode);
    assert Oversized(h2, o, k, tooLarge) == {};
    CloseNone(h2, CLOSE_INTERNAL_ERROR);
  }

  /** Otherwise the sender is a member afterwards; its slot is free, those whose frames did not fit are closed
      and its strikes are settled. */
  lemma HandleAsMember(s: Setup, h: Hub, k: nat, msg: Up, draws: seq<ClientId>, tooLarge: set<nat>)
    requires k in h.records
    requires var o := HandleMessage<nat>(s.cfg, h.room, k, h.records[k].id, msg, draws);
      o.id.Some? && !o.verdict.Closed?
    ensures var o := HandleMessage<nat>(s.cfg, h.room, k, h.records[k].id, msg, draws);
      var h1 := With(h, k, h.records[k].(id := o.id)).(room := o.room);
      && Oversized(h1, o, k, tooLarge) <= h1.records.Keys
      && Handle(s, h, k, msg, draws, tooLarge)
         == Settle(CloseAll(ReleaseHelloWatch(h1, k), Oversized(h1, o, k, tooLarge), CLOSE_INTERNAL_ERROR), k, o.verdict)
  {
    var o := HandleMessage<nat>(s.cfg, h.room, k, h.records[k].id, msg, draws);
    var h1 := With(h, k, h.records[k].(id := o.id)).(room := o.room);
    ReleaseCommutes(h1, k, Oversized(h1, o, k, tooLarge), CLOSE_INTERNAL_ERROR);
  }

  lemma HandleKeeps(s: Setup, h: Hub, k: nat, msg: Up, draws: seq<ClientId>, tooLarge: set<nat>)
    requires HubOk(s, h) && k in h.records && !h.records[k].ejected
    ensures HubOk(s, Handle(s, h, k, msg, draws, tooLarge))
  {
    var o := HandleMessage<nat>(s.cfg, h.room, k, h.records[k].id, msg, draws);
    if o.id.None? {
      RefusedKeeps(s, h, k, msg, draws, tooLarge);
      CloseKeeps(s, h, k, o.verdict.closeCode);
    } else {
      var h1 := With(h, k, h.records[k].(id := o.id)).(room := o.room);
      AdmittedKeeps(s, h, k, msg, draws);
      HandleAsMember(s, h, k, msg, draws, tooLarge);
      var h2 := ReleaseHelloWatch(h1, k);
      var ks := Oversized(h1, o, k, tooLarge);
      CloseAllKeeps(s, h2, ks, CLOSE_INTERNAL_ERROR);
      SettleKeeps(s, CloseAll(h2, ks, CLOSE_INTERNAL_ERROR), k, o.verdict);
    }
  }

  lemma AdmittedKeeps(s: Setup, h: Hub, k: nat, msg: Up, draws: seq<ClientId>)
    requires HubOk(s, h) && k in h.records && !h.records[k].ejected
    requires HandleMessage<nat>(s.cfg, h.room, k, h.records[k].id, msg, draws).id.Some?
    ensures var o := HandleMessage<nat>(s.cfg, h.room, k, h.records[k].id, msg, draws);
      && !o.verdict.Closed?
      && HubOk(s, ReleaseHelloWatch(With(h, k, h.records[k].(id := o.id)).(room := o.room), k))
  {
    if h.records[k].id.None? {
      JoinKeeps(s, h, k, msg, draws);
      MessageFine(s, h, k, msg, draws);
    } else {
      MemberMessageKeeps(s, h, k, msg, draws);
      var o := HandleMessage<nat>(s.cfg, h.room, k, h.records[k].id, msg, draws);
      AlreadyReleased(s, With(h, k, h.records[k].(id := o.id)).(room := o.room), k);
    }
  }

  lemma MessageFine(s: Setup, h: Hub, k: nat, msg: Up, draws: seq<ClientId>)
    requires HandleMessage<nat>(s.cfg, h.room, k, None, msg, draws).id.Some?
    ensures HandleMessage<nat>(s.cfg, h.room, k, None, msg, draws).verdict == Fine
  {}

  lemma SettleKeeps(s: Setup, h: Hub, k: nat, v: Verdict)
    requires HubOk(s, h) && k in h.records && h.records[k].id.Some?
    ensures HubOk(s, Settle(h, k, v))
  {
    match v
    case Fine => Framed(s, h, Settle(h, k, v), k);
    case Rejected(_) => InvalidKeeps(s, h, k);
    case Closed(_) =>
  }

  /** Every step keeps all of it. */
  lemma StepKeeps(s: Setup, h: Hub, e: Event)
    requires HubOk(s, h)
    ensures HubOk(s, Step(s, h, e))
  {
    match e
    case Opens(now) => OpenKeeps(s, h, now);
    case Receives(k, now, data, draws, tooLarge) => if k in h.records { FrameKeeps(s, h, k, now, data, draws, tooLarge); }
    case Control(k, now) => if k in h.records { ChargeKeeps(s, h, k, now); }
    case HelloTimeout(k) => if k in h.records && h.records[k].helloTimer { TimeoutKeeps(s, h, k); }
    case SocketClosed(k) => if k in h.records { SocketClosedKeeps(s, h, k); }
    case Shutdown => CloseAllKeeps(s, h, h.records.Keys, CLOSE_GOING_AWAY);
  }

  lemma FrameKeeps(
    s: Setup, h: Hub, k: nat, now: real, data: Data, draws: seq<ClientId>, tooLarge: set<nat>)
    requires HubOk(s, h) && k in h.records
    ensures HubOk(s, OnMessage(s, h, k, now, data, draws, tooLarge))
  {
    if h.records[k].ejected {
    } else if data.Binary? {
      CloseKeeps(s, h, k, CLOSE_POLICY_VIOLATION);
    } else {
      ChargeKeeps(s, h, k, now);
      if ChargeRecord(s, h, k, now).1 { ChargeOnly(s, h, k, now); }
      var (h1, served) := ChargeRecord(s, h, k, now);
      if served {
        if data.Text? {
          HandleKeeps(s, h1, k, data.msg, draws, tooLarge);
        } else if h1.records[k].id.None? {
          CloseKeeps(s, h1, k, CLOSE_BAD_HANDSHAKE);
        } else {
          var h2 := Notice(h1, k, BadMessage);
          Framed(s, h1, h2, k);
          InvalidKeeps(s, h2, k);
        }
      }
    }
  }

  /** Slot accounting and membership, in every reachable state: the pre-hello count is the number of records that
      hold a slot and never exceeds its ceiling; those are exactly the records that have neither joined nor been
      ejected; and records with an id and members of the room are in one-to-one correspondence. */
  lemma {:induction false} Reachable(s: Setup, es: seq<Event>)
    ensures HubOk(s, Run(s, es))
    decreases |es|
  {
    if es == [] {
      assert Pending(NEW_HUB) == {};
    } else {
      Reachable(s, es[..|es| - 1]);
      StepKeeps(s, Run(s, es[..|es| - 1]), es[|es| - 1]);
    }
  }

  /** Every member has exactly one record, and every record with an id is that member's. */
  lemma OneRecordEach(s: Setup, es: seq<Event>, k: nat, id: ClientId)
    ensures var h := Run(s, es);
      IsMember(h.room, k, Some(id)) <==> k in h.records && h.records[k].id == Some(id)
    ensures var h := Run(s, es);
      forall j :: j in h.records && k in h.records && h.records[j].id == h.records[k].id == Some(id) ==> j == k
  {
    Reachable(s, es);
  }

  // ---------------------------------------------------------------- ejection

  /** Nothing an ejected connection sends, and no timer of its, changes anything. */
  lemma EjectedIsInert(s: Setup, h: Hub, e: Event, k: nat)
    requires HubOk(s, h) && k in h.records && h.records[k].ejected
    requires (e.Receives? && e.k == k) || (e.Control? && e.k == k) || (e.HelloTimeout? && e.k == k)
    ensures Step(s, h, e) == h
  {}

  lemma RoomAfter(h: Hub, k: nat, o: Outcome<nat>, tooLarge: set<nat>)
    requires k in h.records
    ensures AfterRoom(h, k, o, tooLarge).room == o.room
  {}

  /** The room moves in exactly two ways: it handles a served text message of a connection that is not ejected,
      under the identity it gave that connection itself, or it hears that a connection is gone. */
  lemma RoomMoves(s: Setup, h: Hub, e: Event)
    ensures Step(s, h, e).room
         == if e.Receives? && e.k in h.records && !h.records[e.k].ejected && e.data.Text?
              && ChargeOne(s.limit, h.records[e.k].bucket, e.now).1.served
            then HandleMessage<nat>(s.cfg, h.room, e.k, h.records[e.k].id, e.data.msg, e.draws).room
            else if e.SocketClosed? && e.k in h.records then HandleDisconnect(h.room, e.k, h.records[e.k].id).0
            else h.room
  {
    if e.Receives? && e.k in h.records && !h.records[e.k].ejected && e.data.Text? {
      var (h1, served) := ChargeRecord(s, h, e.k, e.now);
      if served {
        RoomAfter(h1, e.k, HandleMessage<nat>(s.cfg, h1.room, e.k, h1.records[e.k].id, e.data.msg, e.draws), e.tooLarge);
      }
    }
  }

  /** What a step leaves of a record it does not concern: everything but possibly its ejection. */
  ghost predicate Aside(r: Record, r': Record) {
    && r'.id == r.id && r'.bucket == r.bucket && r'.consecutiveInvalid == r.consecutiveInvalid && r'.notices == r.notices
    && (r.ejected ==> r' == r)
    && (!r.ejected && r'.ejected ==> r'.ejectCode == CLOSE_INTERNAL_ERROR || r'.ejectCode == CLOSE_GOING_AWAY)
  }

  lemma CloseAside(h: Hub, j: nat, code: int, k: nat)
    requires j in h.records && k in h.records && k != j
    ensures k in Close(h, j, code).records && Close(h, j, code).records[k] == h.records[k]
  {}

  lemma CloseAllAside(h: Hub, ks: set<nat>, k: nat)
    requires ks <= h.records.Keys && k in h.records
    ensures k in CloseAll(h, ks, CLOSE_INTERNAL_ERROR).records
    ensures Aside(h.records[k], CloseAll(h, ks, CLOSE_INTERNAL_ERROR).records[k])
  {}

  lemma SettleAside(h: Hub, j: nat, v: Verdict, k: nat)
    requires j in h.records && k in h.records && k != j
    ensures k in Settle(h, j, v).records && Settle(h, j, v).records[k] == h.records[k]
  {}

  lemma RoomAside(h: Hub, j: nat, o: Outcome<nat>, tooLarge: set<nat>, k: nat)
    requires j in h.records && k in h.records && k != j
    ensures k in AfterRoom(h, j, o, tooLarge).records
    ensures Aside(h.records[k], AfterRoom(h, j, o, tooLarge).records[k])
  {
    var h1 := With(h, j, h.records[j].(id := o.id)).(room := o.room);
    if o.verdict.Closed? { CloseAside(h1, j, o.verdict.closeCode, k); }
    var h2 := if o.verdict.Closed? then Close(h1, j, o.verdict.closeCode) else h1;
    CloseAllAside(h2, Oversized(h2, o, j, tooLarge), k);
    var h3 := CloseAll(h2, Oversized(h2, o, j, tooLarge), CLOSE_INTERNAL_ERROR);
    var h4 := if o.id.Some? then ReleaseHelloWatch(h3, j) else h3;
    SettleAside(h4, j, o.verdict, k);
  }

  lemma ChargeAside(s: Setup, h: Hub, j: nat, now: real, k: nat)
    requires j in h.records && k in h.records && k != j
    ensures var h1 := ChargeRecord(s, h, j, now).0;
      j in h1.records && k in h1.records && h1.records[k] == h.records[k]
  {}

  lemma FrameAside(
    s: Setup, h: Hub, j: nat, now: real, data: Data, draws: seq<ClientId>, tooLarge: set<nat>, k: nat)
    requires j in h.records && k in h.records && k != j
    ensures k in OnMessage(s, h, j, now, data, draws, tooLarge).records
    ensures Aside(h.records[k], OnMessage(s, h, j, now, data, draws, tooLarge).records[k])
  {
    ChargeAside(s, h, j, now, k);
    var (h1, served) := ChargeRecord(s, h, j, now);
    CloseAside(h, j, CLOSE_POLICY_VIOLATION, k);
    CloseAside(h1, j, CLOSE_BAD_HANDSHAKE, k);
    SettleAside(Notice(h1, j, BadMessage), j, Rejected(BadMessage), k);
    if data.Text? {
      var o := HandleMessage<nat>(s.cfg, h1.room, j, h1.records[j].id, data.msg, draws);
      RoomAside(h1, j, o, tooLarge, k);
    }
  }

  lemma OthersAside(s: Setup, h: Hub, e: Event, k: nat)
    requires k in h.records
    requires (e.Receives? || e.Control? || e.HelloTimeout? || e.SocketClosed?) && e.k != k
    ensures k in Step(s, h, e).records && Aside(h.records[k], Step(s, h, e).records[k])
  {
    if e.k in h.records {
      match e
      case Receives(j, now, data, draws, tooLarge) => FrameAside(s, h, j, now, data, draws, tooLarge, k);
      case Control(j, now) => ChargeAside(s, h, j, now, k);
      case HelloTimeout(j) =>
      case SocketClosed(j) =>
    }
  }

  /** An ejected connection stays as it was, until its socket is gone. */
  lemma EjectedStays(s: Setup, h: Hub, e: Event, k: nat)
    requires HubOk(s, h) && k in h.records && h.records[k].ejected
    ensures k in Step(s, h, e).records ==> Step(s, h, e).records[k] == h.records[k]
    ensures h.nextKey <= Step(s, h, e).nextKey
  {
    match e
    case Opens(_) => assert h.nextKey !in h.records;
    case Shutdown =>
    case _ =>
      if e.k != k { OthersAside(s, h, e, k); } else if !e.SocketClosed? { EjectedIsInert(s, h, e, k); }
      KeysGrow(s, h, e);
  }

  lemma RoomKeys(h: Hub, k: nat, o: Outcome<nat>, tooLarge: set<nat>)
    requires k in h.records
    ensures AfterRoom(h, k, o, tooLarge).nextKey == h.nextKey
    ensures AfterRoom(h, k, o, tooLarge).records.Keys == h.records.Keys
  {}

  /** Keys are never reused, and only opening makes a record. */
  lemma KeysGrow(s: Setup, h: Hub, e: Event)
    ensures h.nextKey <= Step(s, h, e).nextKey
    ensures forall k :: k in Step(s, h, e).records ==> k in h.records || (e.Opens? && k == h.nextKey)
  {
    if e.Receives? && e.k in h.records && !h.records[e.k].ejected && e.data.Text? {
      var (h1, served) := ChargeRecord(s, h, e.k, e.now);
      assert h1.records.Keys == h.records.Keys;
      if served {
        var o := HandleMessage<nat>(s.cfg, h1.room, e.k, h1.records[e.k].id, e.data.msg, e.draws);
        RoomKeys(h1, e.k, o, e.tooLarge);
      }
    }
  }

  /** The record was ejected before it joined, or is gone without having joined. */
  ghost predicate ShutOut(h: Hub, k: nat) {
    k < h.nextKey && (k in h.records ==> h.records[k].ejected && h.records[k].id.None?)
  }

  /** A connection ejected before its hello never becomes a member, whatever happens afterwards. */
  lemma {:induction false} NeverJoins(s: Setup, es: seq<Event>, k: nat, more: seq<Event>)
    requires ShutOut(Run(s, es), k) && !InRoom(Run(s, es).room.clients, k)
    ensures ShutOut(Run(s, es + more), k) && !InRoom(Run(s, es + more).room.clients, k)
    decreases |more|
  {
    if more == [] {
      assert es + more == es;
    } else {
      var rest, e := more[..|more| - 1], more[|more| - 1];
      NeverJoins(s, es, k, rest);
      assert (es + more)[..|es + more| - 1] == es + rest && (es + more)[|es + more| - 1] == e;
      var h := Run(s, es + rest);
      Reachable(s, es + rest);
      Reachable(s, es + more);
      KeysGrow(s, h, e);
      if k in h.records { EjectedStays(s, h, e, k); }
    }
  }

  // ---------------------------------------------------------------- histories

  /** When step `e` charges record k. */
  function Charges(h: Hub, e: Event, k: nat): seq<real> {
    if k !in h.records || h.records[k].ejected then []
    else if e.Receives? && e.k == k && !e.data.Binary? then [e.now]
    else if e.Control? && e.k == k then [e.now]
    else []
  }

  datatype Mark = Good | Bad

  /** How a served frame counts for the strikes of its connection: a handled message is good, a malformed one is bad,
      any other rejection counts neither way. */
  function ServedMarks(s: Setup, h: Hub, k: nat, data: Data, draws: seq<ClientId>): seq<Mark>
    requires k in h.records && !data.Binary?
  {
    if data.Garbage? then (if h.records[k].id.None? then [] else [Bad])
    else
      match HandleMessage<nat>(s.cfg, h.room, k, h.records[k].id, data.msg, draws).verdict
      case Fine => [Good]
      case Rejected(code) => if code == BadMessage then [Bad] else []
      case Closed(_) => []
  }

  /** How step `e` counts for the strikes of record k. */
  function Marks(s: Setup, h: Hub, e: Event, k: nat): seq<Mark> {
    if Charges(h, e, k) == [] || e.Control? then []
    else
      var (h1, served) := ChargeRecord(s, h, k, e.now);
      if !served then [] else ServedMarks(s, h1, k, e.data, e.draws)
  }

  /** Bad marks since the last good one. */
  function Strikes(ms: seq<Mark>): nat {
    if ms == [] || ms[|ms| - 1] == Good then 0 else Strikes(ms[..|ms| - 1]) + 1
  }

  function ChargesOf(s: Setup, es: seq<Event>, k: nat): seq<real> {
    if es == [] then []
    else ChargesOf(s, es[..|es| - 1], k) + Charges(Run(s, es[..|es| - 1]), es[|es| - 1], k)
  }

  function MarksOf(s: Setup, es: seq<Event>, k: nat): seq<Mark> {
    if es == [] then []
    else MarksOf(s, es[..|es| - 1], k) + Marks(s, Run(s, es[..|es| - 1]), es[|es| - 1], k)
  }

  /** When record k was opened. */
  function OpenedAt(s: Setup, es: seq<Event>, k: nat): real {
    if es == [] then 0.0
    else if es[|es| - 1].Opens? && Run(s, es[..|es| - 1]).nextKey == k then es[|es| - 1].now
    else OpenedAt(s, es[..|es| - 1], k)
  }

  /** How often the connection was told that it is rate limited. */
  function Limited(notices: seq<ErrorCode>): nat {
    if notices == [] then 0
    else Limited(notices[..|notices| - 1]) + if notices[|notices| - 1] == RateLimited then 1 else 0
  }

  lemma LimitedNext(notices: seq<ErrorCode>, code: ErrorCode)
    ensures Limited(notices + [code]) == Limited(notices) + if code == RateLimited then 1 else 0
  {
    assert (notices + [code])[..|notices|] == notices;
  }

  /** What a record remembers is exactly its history: its bucket, its strikes, and one rate-limited notice for every
      unbroken run of denied charges. */
  ghost predicate Remembers(s: Setup, r: Record, start: real, ts: seq<real>, ms: seq<Mark>) {
    && r.bucket == After(s.limit, start, ts) && r.consecutiveInvalid == Strikes(ms)
    && Limited(r.notices) == DenialRuns(s.limit, start, ts)
  }

  lemma ChargeRemembers(s: Setup, h: Hub, k: nat, now: real, start: real, ts: seq<real>, ms: seq<Mark>)
    requires k in h.records && Remembers(s, h.records[k], start, ts, ms)
    ensures k in ChargeRecord(s, h, k, now).0.records
    ensures Remembers(s, ChargeRecord(s, h, k, now).0.records[k], start, ts + [now], ms)
  {
    assert (ts + [now])[..|ts|] == ts;
    RunsNext(s.limit, start, ts, now);
    LimitedNext(h.records[k].notices, RateLimited);
    assert h.records[k].notices + [] == h.records[k].notices;
  }

  lemma StrikesNext(ms: seq<Mark>, m: Mark)
    ensures Strikes(ms + [m]) == if m == Good then 0 else Strikes(ms) + 1
  {
    assert (ms + [m])[..|ms|] == ms;
  }

  /** What handling a message does to the sender's own record. */
  lemma RoomOwn(h: Hub, k: nat, o: Outcome<nat>, tooLarge: set<nat>)
    requires k in h.records
    ensures var r, h' := h.records[k], AfterRoom(h, k, o, tooLarge);
      && k in h'.records && h'.records[k].bucket == r.bucket && h'.records[k].notices == r.notices
      && h'.records[k].consecutiveInvalid
         == (match o.verdict
             case Fine => 0
             case Rejected(code) => if code == BadMessage then r.consecutiveInvalid + 1 else r.consecutiveInvalid
             case Closed(_) => r.consecutiveInvalid)
  {}

  lemma GarbageRemembers(s: Setup, h: Hub, k: nat, start: real, ts: seq<real>, ms: seq<Mark>)
    requires k in h.records && Remembers(s, h.records[k], start, ts, ms)
    ensures k in Close(h, k, CLOSE_BAD_HANDSHAKE).records
    ensures Remembers(s, Close(h, k, CLOSE_BAD_HANDSHAKE).records[k], start, ts, ms)
    ensures k in CountInvalid(Notice(h, k, BadMessage), k).records
    ensures Remembers(s, CountInvalid(Notice(h, k, BadMessage), k).records[k], start, ts, ms + [Bad])
  {
    StrikesNext(ms, Bad);
    LimitedNext(h.records[k].notices, BadMessage);
  }

  lemma TextRemembers(
    s: Setup, h: Hub, k: nat, o: Outcome<nat>, tooLarge: set<nat>, start: real, ts: seq<real>, ms: seq<Mark>)
    requires k in h.records && Remembers(s, h.records[k], start, ts, ms)
    ensures var h' := AfterRoom(h, k, o, tooLarge);
      k in h'.records && Remembers(s, h'.records[k], start, ts,
        ms + match o.verdict
             case Fine => [Good]
             case Rejected(code) => if code == BadMessage then [Bad] else []
             case Closed(_) => [])
  {
    StrikesNext(ms, Good);
    StrikesNext(ms, Bad);
    assert ms + [] == ms;
    RoomOwn(h, k, o, tooLarge);
  }

  lemma HandledTextRemembers(
    s: Setup, h: Hub, k: nat, msg: Up, draws: seq<ClientId>, tooLarge: set<nat>, start: real, ts: seq<real>,
    ms: seq<Mark>)
    requires k in h.records && Remembers(s, h.records[k], start, ts, ms)
    ensures var h' := Handle(s, h, k, msg, draws, tooLarge);
      k in h'.records && Remembers(s, h'.records[k], start, ts, ms + ServedMarks(s, h, k, Text(msg), draws))
  {
    TextRemembers(s, h, k, HandleMessage<nat>(s.cfg, h.room, k, h.records[k].id, msg, draws), tooLarge, start, ts, ms);
  }

  lemma OwnFrameRemembers(s: Setup, h: Hub, e: Event, k: nat, start: real, ts: seq<real>, ms: seq<Mark>)
    requires k in h.records && Remembers(s, h.records[k], start, ts, ms)
    requires e.Receives? && e.k == k && !h.records[k].ejected && !e.data.Binary?
    ensures k in Step(s, h, e).records
    ensures Remembers(s, Step(s, h, e).records[k], start, ts + [e.now], ms + Marks(s, h, e, k))
  {
    ChargeRemembers(s, h, k, e.now, start, ts, ms);
    var (h1, served) := ChargeRecord(s, h, k, e.now);
    assert ms + [] == ms;
    if served {
      if e.data.Text? {
        HandledTextRemembers(s, h1, k, e.data.msg, e.draws, e.tooLarge, start, ts + [e.now], ms);
      } else {
        GarbageRemembers(s, h1, k, start, ts + [e.now], ms);
      }
    }
  }

  lemma StepRemembers(s: Setup, h: Hub, e: Event, k: nat, start: real, ts: seq<real>, ms: seq<Mark>)
    requires HubOk(s, h) && k in h.records && Remembers(s, h.records[k], start, ts, ms)
    requires k in Step(s, h, e).records
    ensures Remembers(s, Step(s, h, e).records[k], start, ts + Charges(h, e, k), ms + Marks(s, h, e, k))
  {
    assert ms + [] == ms && ts + [] == ts;
    match e
    case Opens(_) =>
    case Shutdown =>
    case Receives(j, _, data, _, _) =>
      if j != k { OthersAside(s, h, e, k); }
      else if h.records[k].ejected { EjectedIsInert(s, h, e, k); }
      else if !data.Binary? { OwnFrameRemembers(s, h, e, k, start, ts, ms); }
    case Control(j, now) =>
      if j != k { OthersAside(s, h, e, k); } else { ChargeRemembers(s, h, k, now, start, ts, ms); }
    case HelloTimeout(j) => if j != k { OthersAside(s, h, e, k); }
    case SocketClosed(j) => if j != k { OthersAside(s, h, e, k); }
  }

  lemma {:induction false} NoHistoryYet(s: Setup, es: seq<Event>, k: nat)
    requires k >= Run(s, es).nextKey
    ensures ChargesOf(s, es, k) == [] && MarksOf(s, es, k) == []
    decreases |es|
  {
    if es != [] {
      var h, e := Run(s, es[..|es| - 1]), es[|es| - 1];
      Reachable(s, es[..|es| - 1]);
      KeysGrow(s, h, e);
      NoHistoryYet(s, es[..|es| - 1], k);
    }
  }

  /** On every run, a record's bucket is that of a fresh bucket charged at the times of the record's frames, and
      its count is the number of its bad messages since its last good one. */
  lemma {:induction false} RecordIsItsHistory(s: Setup, es: seq<Event>, k: nat)
    requires k in Run(s, es).records
    ensures Remembers(s, Run(s, es).records[k], OpenedAt(s, es, k), ChargesOf(s, es, k), MarksOf(s, es, k))
    decreases |es|
  {
    var prev, e := es[..|es| - 1], es[|es| - 1];
    var h := Run(s, prev);
    Reachable(s, prev);
    KeysGrow(s, h, e);
    if k in h.records {
      RecordIsItsHistory(s, prev, k);
      StepRemembers(s, h, e, k, OpenedAt(s, prev, k), ChargesOf(s, prev, k), MarksOf(s, prev, k));
    } else {
      NoHistoryYet(s, prev, k);
    }
  }

  // ---------------------------------------------------------------- why a connection is closed

  /** Step `e` ejects record k with this code. */
  ghost predicate Ejects(s: Setup, h: Hub, e: Event, k: nat, code: int)
    requires k in h.records
  {
    var h' := Step(s, h, e);
    !h.records[k].ejected && k in h'.records && h'.records[k].ejected && h'.records[k].ejectCode == code
  }

  /** A ban and a third strike happen to a record only in a step of its own. */
  lemma OwnSteps(s: Setup, h: Hub, e: Event, k: nat, code: int)
    requires HubOk(s, h) && k in h.records && Ejects(s, h, e, k, code)
    requires code == CLOSE_RATE_LIMIT_BAN || code == CLOSE_POLICY_VIOLATION
    ensures (e.Receives? || e.Control?) && e.k == k
  {
    match e
    case Opens(_) =>
    case Shutdown =>
    case HelloTimeout(j) => if j != k { OthersAside(s, h, e, k); }
    case SocketClosed(j) => if j != k { OthersAside(s, h, e, k); }
    case Receives(j, _, _, _, _) => if j != k { OthersAside(s, h, e, k); }
    case Control(j, _) => if j != k { OthersAside(s, h, e, k); }
  }

  /** The room closes with handshake codes only, and answers a malformed message with one error frame. */
  ghost predicate Ordinary(o: Outcome<nat>) {
    && (o.verdict.Closed? ==>
          o.verdict.closeCode != CLOSE_RATE_LIMIT_BAN && o.verdict.closeCode != CLOSE_POLICY_VIOLATION)
    && (o.verdict == Rejected(BadMessage) ==> o.reply == [ErrorDown(BadMessage)] && o.bcast.None?)
  }

  lemma RoomIsOrdinary(s: Setup, r: Room<nat>, k: nat, id: Option<ClientId>, msg: Up, draws: seq<ClientId>)
    ensures Ordinary(HandleMessage<nat>(s.cfg, r, k, id, msg, draws))
  {}

  /** How handling a message may end for the sender's connection. */
  lemma RoomEjects(h: Hub, k: nat, o: Outcome<nat>, tooLarge: set<nat>)
    requires k in h.records && !h.records[k].ejected && Ordinary(o)
    ensures var r, h' := h.records[k], AfterRoom(h, k, o, tooLarge);
      && k in h'.records
      && (h'.records[k].ejected ==> h'.records[k].ejectCode != CLOSE_RATE_LIMIT_BAN)
      && (h'.records[k].ejected && h'.records[k].ejectCode == CLOSE_POLICY_VIOLATION
          <==> o.verdict == Rejected(BadMessage) && r.consecutiveInvalid + 1 >= MAX_CONSECUTIVE_INVALID)
  {
    if o.verdict == Rejected(BadMessage) {
      var h1 := With(h, k, h.records[k].(id := o.id)).(room := o.room);
      assert !MayBeTooLarge(Delivered(o, k, k)) && k !in Oversized(h1, o, k, tooLarge);
    }
  }

  /** A frame of a connection ejects it with the ban code exactly when its charge bans, and with the policy code
      exactly when it is binary or its mark is the third bad one in a row. */
  lemma FrameEjects(s: Setup, h: Hub, e: Event, k: nat, start: real, ts: seq<real>, ms: seq<Mark>)
    requires HubOk(s, h) && k in h.records && Remembers(s, h.records[k], start, ts, ms) && !h.records[k].ejected
    requires (e.Receives? || e.Control?) && e.k == k
    ensures Ejects(s, h, e, k, CLOSE_RATE_LIMIT_BAN)
      <==> Charges(h, e, k) == [e.now] && ChargeOne(s.limit, After(s.limit, start, ts), e.now).1.ban
    ensures Ejects(s, h, e, k, CLOSE_POLICY_VIOLATION)
      <==> (e.Receives? && e.data.Binary?)
           || (Marks(s, h, e, k) == [Bad] && Strikes(ms + [Bad]) == MAX_CONSECUTIVE_INVALID)
  {
    StrikesNext(ms, Bad);
    if e.Receives? && !e.data.Binary? { MeteredEjects(s, h, k, e.now, e.data, e.draws, e.tooLarge); }
  }

  lemma MeteredEjects(
    s: Setup, h: Hub, k: nat, now: real, data: Data, draws: seq<ClientId>, tooLarge: set<nat>)
    requires RecordsOk(h) && k in h.records && !h.records[k].ejected && !data.Binary?
    ensures var r := h.records[k];
      var h' := OnMessage(s, h, k, now, data, draws, tooLarge);
      var marks := Marks(s, h, Receives(k, now, data, draws, tooLarge), k);
      && k in h'.records
      && (h'.records[k].ejected && h'.records[k].ejectCode == CLOSE_RATE_LIMIT_BAN
          <==> ChargeOne(s.limit, r.bucket, now).1.ban)
      && (h'.records[k].ejected && h'.records[k].ejectCode == CLOSE_POLICY_VIOLATION
          <==> marks == [Bad] && r.consecutiveInvalid + 1 == MAX_CONSECUTIVE_INVALID)
  {
    assert RecordOk(h.room, k, h.records[k]);
    var (h1, served) := ChargeRecord(s, h, k, now);
    if served && data.Text? {
      var o := HandleMessage<nat>(s.cfg, h1.room, k, h1.records[k].id, data.msg, draws);
      RoomIsOrdinary(s, h1.room, k, h1.records[k].id, data.msg, draws);
      RoomEjects(h1, k, o, tooLarge);
    }
  }

  /** The step charges the record, and that charge bans it. */
  ghost predicate Bans(s: Setup, es: seq<Event>, e: Event, k: nat) {
    Charges(Run(s, es), e, k) != []
    && LongDenial(s.limit, OpenedAt(s, es, k), ChargesOf(s, es, k) + Charges(Run(s, es), e, k))
  }

  /** The last of the charges ends an unbroken run of denied ones that has lasted longer than the limit allows. */
  ghost predicate LongDenial(l: Limit, start: real, ts: seq<real>) {
    |ts| > 0 && var i := |ts| - 1;
    !At(l, start, ts, i).served && ts[i] - ts[EpisodeStart(l, start, ts, i)] > l.banAfterMs
  }

  lemma BanIsLongDenial(l: Limit, start: real, ts: seq<real>, now: real)
    ensures LongDenial(l, start, ts + [now]) <==> ChargeOne(l, After(l, start, ts), now).1.ban
  {
    assert (ts + [now])[..|ts|] == ts;
    Episodes(l, start, ts + [now], |ts|);
  }

  ghost predicate ThirdStrike(s: Setup, es: seq<Event>, e: Event, k: nat) {
    Marks(s, Run(s, es), e, k) == [Bad] && Strikes(MarksOf(s, es, k) + [Bad]) == 3
  }

  /** The same for a record with a given history. */
  lemma EjectionsAfter(s: Setup, h: Hub, e: Event, k: nat, start: real, ts: seq<real>, ms: seq<Mark>)
    requires HubOk(s, h) && k in h.records && !h.records[k].ejected && Remembers(s, h.records[k], start, ts, ms)
    ensures Ejects(s, h, e, k, CLOSE_RATE_LIMIT_BAN)
      <==> Charges(h, e, k) != [] && LongDenial(s.limit, start, ts + Charges(h, e, k))
    ensures Ejects(s, h, e, k, CLOSE_POLICY_VIOLATION)
      <==> (e.Receives? && e.k == k && e.data.Binary?)
           || (Marks(s, h, e, k) == [Bad] && Strikes(ms + [Bad]) == MAX_CONSECUTIVE_INVALID)
  {
    if (e.Receives? || e.Control?) && e.k == k {
      BanIsLongDenial(s.limit, start, ts, e.now);
      FrameEjects(s, h, e, k, start, ts, ms);
    } else {
      if Ejects(s, h, e, k, CLOSE_RATE_LIMIT_BAN) { OwnSteps(s, h, e, k, CLOSE_RATE_LIMIT_BAN); }
      if Ejects(s, h, e, k, CLOSE_POLICY_VIOLATION) { OwnSteps(s, h, e, k, CLOSE_POLICY_VIOLATION); }
    }
  }

  /** Ejection traces, on every run: a connection is closed with 4003 exactly when an unbroken run of denied
      charges has lasted longer than the limit allows, and with 1008 exactly for a binary frame or for the third
      malformed message with no handled one in between. */
  lemma EjectionTraces(s: Setup, es: seq<Event>, e: Event, k: nat)
    requires k in Run(s, es).records && !Run(s, es).records[k].ejected
    ensures Ejects(s, Run(s, es), e, k, 4003) <==> Bans(s, es, e, k)
    ensures Ejects(s, Run(s, es), e, k, 1008)
      <==> (e.Receives? && e.k == k && e.data.Binary?) || ThirdStrike(s, es, e, k)
  {
    Reachable(s, es);
    RecordIsItsHistory(s, es, k);
    EjectionsAfter(s, Run(s, es), e, k, OpenedAt(s, es, k), ChargesOf(s, es, k), MarksOf(s, es, k));
  }

  // ---------------------------------------------------------------- sockets

  /** A socket is taken on exactly if fewer than four times the room's capacity have yet to say hello; it starts with a
      full bucket, no id and no strikes. */
  lemma TakenOnIff(s: Setup, es: seq<Event>, now: real)
    ensures var h := Run(s, es);
      var h' := Step(s, h, Opens(now));
      && (h.nextKey in h'.records <==> |Pending(h)| < 4 * s.cfg.maxClients)
      && (h.nextKey in h'.records ==> var r := h'.records[h.nextKey];
            r.id.None? && !r.ejected && r.consecutiveInvalid == 0 && r.notices == []
            && r.bucket.tokens == s.limit.burst && r.bucket.lastRefillMs == now && r.bucket.limitedSince.None?)
      && (forall k :: k in h.records ==> k in h'.records && h'.records[k] == h.records[k])
  {
    Reachable(s, es);
  }

  /** A hello timer closes with 4000 a connection that has not joined, and is nothing to one that has. */
  lemma TimeoutCloses(s: Setup, es: seq<Event>, k: nat)
    ensures var h := Run(s, es);
      k in h.records ==>
        (Ejects(s, h, HelloTimeout(k), k, 4000) <==> h.records[k].id.None? && !h.records[k].ejected)
    ensures var h := Run(s, es);
      k in h.records && (h.records[k].id.Some? || h.records[k].ejected) ==> Step(s, h, HelloTimeout(k)) == h
  {
    Reachable(s, es);
    var h := Run(s, es);
    assert k in h.records ==> RecordOk(h.room, k, h.records[k]);
  }

  /** A shutdown closes every connection that is not closed yet with 1001, and nothing else does. */
  lemma ShutdownCloses(s: Setup, h: Hub, e: Event, k: nat)
    requires HubOk(s, h) && k in h.records && !h.records[k].ejected
    ensures e.Shutdown? ==> Ejects(s, h, e, k, 1001)
    ensures Step(s, h, Shutdown).room == h.room && Step(s, h, Shutdown).preHelloCount == 0
  {
    CloseAllKeeps(s, h, h.records.Keys, CLOSE_GOING_AWAY);
    assert Pending(Step(s, h, Shutdown)) == {};
  }

  /** Once its socket is gone, a connection has no record and is no member, and every other record is as it was. */
  lemma GoneForGood(s: Setup, h: Hub, k: nat)
    requires HubOk(s, h) && k in h.records
    ensures var h' := Step(s, h, SocketClosed(k));
      && h'.records == h.records - {k}
      && !InRoom(h'.room.clients, k)
  {
    SocketClosedKeeps(s, h, k);
  }

  /** Text that is not JSON costs a connection that has not joined its socket, with 4000; a member is told and has a
      strike more. */
  lemma GarbageIsAnswered(
    s: Setup, h: Hub, k: nat, now: real, draws: seq<ClientId>, tooLarge: set<nat>)
    requires HubOk(s, h) && k in h.records && !h.records[k].ejected
    requires ChargeOne(s.limit, h.records[k].bucket, now).1.served
    ensures var r, h' := h.records[k], Step(s, h, Receives(k, now, Garbage, draws, tooLarge));
      && k in h'.records && h'.room == h.room
      && var r' := h'.records[k];
         if r.id.None? then r'.ejected && r'.ejectCode == 4000 && r'.notices == r.notices
         else r'.notices == r.notices + [BadMessage] && r'.consecutiveInvalid == r.consecutiveInvalid + 1
              && (r'.ejected <==> r.consecutiveInvalid + 1 >= 3)
  {
    assert RecordOk(h.room, k, h.records[k]);
    assert h.records[k].notices + [] == h.records[k].notices;
  }

  /** Whether connection j was closed with 1011 in between. */
  ghost predicate ClosedFor(h: Hub, h': Hub, j: nat, why: bool)
    requires j in h.records
  {
    && j in h'.records && (h'.records[j].ejected <==> why)
    && (h'.records[j].ejected ==> h'.records[j].ejectCode == 1011)
  }

  lemma TooLargeSet(h: Hub, o: Outcome<nat>, k: nat, tooLarge: set<nat>, j: nat)
    requires j in h.records && !h.records[j].ejected
    ensures ClosedFor(h, CloseAll(h, Oversized(h, o, k, tooLarge), CLOSE_INTERNAL_ERROR), j,
                      j in tooLarge && MayBeTooLarge(Delivered(o, k, j)))
  {}

  /** What the room sends may be too large for some: whoever is sent more than error frames and has no room for it is
      closed with 1011, everybody else is not closed by it. */
  lemma TooLargeCloses(h: Hub, k: nat, o: Outcome<nat>, tooLarge: set<nat>, j: nat)
    requires k in h.records && j in h.records && j != k && !h.records[j].ejected
    ensures ClosedFor(h, AfterRoom(h, k, o, tooLarge), j,
      j in tooLarge && exists i :: 0 <= i < |Delivered(o, k, j)| && !Delivered(o, k, j)[i].ErrorDown?)
  {
    var h1 := With(h, k, h.records[k].(id := o.id)).(room := o.room);
    var h2 := if o.verdict.Closed? then Close(h1, k, o.verdict.closeCode) else h1;
    TooLargeSet(h2, o, k, tooLarge, j);
    var h3 := CloseAll(h2, Oversized(h2, o, k, tooLarge), CLOSE_INTERNAL_ERROR);
    var h4 := if o.id.Some? then ReleaseHelloWatch(h3, k) else h3;
    SettleAside(h4, k, o.verdict, j);
    assert Settle(h4, k, o.verdict).records[j] == h3.records[j];
  }
}
