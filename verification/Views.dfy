/** Membership: on every run, what a client's peer list becomes is exactly the room's other members for as long as
    the room stays within what the list can hold, and for no longer. */
module Views {
  import opened Playback
  import opened Messages
  import opened Publishing
  import opened Rooms
  import opened Clients
  import opened Replication
  import opened Invariant
  import opened Agreement

  const MAX_ROOM: nat := MAX_PEERS + 1

  ghost predicate Small(room: Room<nat>) { |room.clients| <= MAX_ROOM }

  /** Once client k has handled what is on its way to it, its list shows the room. */
  ghost predicate ShowsRoom(s: System, k: nat) {
    && k in s.sessions && s.sessions[k].id.Some?
    && Lists(ObserveAll(ViewOf(s.sessions[k].client), s.sessions[k].down), s.room, s.sessions[k].id.value)
  }

  // ---------------------------------------------------------------- what each frame does to a list

  lemma ListsJoin(cfg: Config, room: Room<nat>, v: View, me: ClientId, m: Member<nat>)
    requires RoomOk(cfg, room) && HasId(room.clients, me) && !HasId(room.clients, m.id) && ServerAcceptsName(m.name)
    requires Lists(v, room, me) && Small(room.(clients := room.clients + [m]))
    ensures Lists(Observe(v, PeerJoined(Peer(m.id, m.name, RoleOf(room.controllerId, m.id)))),
                  room.(clients := room.clients + [m]), me)
  {
    OthersAppend(room.clients, m, me, room.controllerId);
    OthersFrom(room.clients, me, room.controllerId);
    AdmittedNamesAreShown(m.name);
    forall p | p in v.peers ensures p.id != m.id {
      var x :| x in room.clients && x.id == p.id && x.name == p.name;
    }
    AddFresh(v.peers, Peer(m.id, m.name, RoleOf(room.controllerId, m.id)));
  }

  lemma ListsRole(room: Room<nat>, v: View, me: ClientId, ctl: Option<ClientId>, id: ClientId)
    requires Agrees(v, room, me) && Lists(v, room, me)
    requires (room.controllerId == Some(id) && ctl.None?) || (room.controllerId.None? && ctl == Some(id))
    ensures Lists(Observe(v, RoleChanged(id, RoleOf(ctl, id))), room.(controllerId := ctl), me)
  {
    OthersRole(room.clients, me, room.controllerId, ctl, id);
  }

  lemma ListsLeave(room: Room<nat>, v: View, me: ClientId, id: ClientId)
    requires Lists(v, room, me) && me != id
    ensures Lists(Observe(v, PeerLeft(id)),
                  room.(clients := Without(room.clients, id),
                        controllerId := if room.controllerId == Some(id) then None else room.controllerId), me)
  {
    OthersWithout(room.clients, me, room.controllerId, id);
  }

  /** Frames that are not about members leave the list alone. */
  predicate AboutMembers(m: Down) { m.Welcome? || m.RoleChanged? || m.PeerJoined? || m.PeerLeft? }

  lemma {:induction false} OtherFrames(v: View, ms: seq<Down>)
    requires forall i :: 0 <= i < |ms| ==> !AboutMembers(ms[i])
    ensures ObserveAll(v, ms).peers == v.peers
    decreases |ms|
  {
    if ms != [] {
      assert !AboutMembers(ms[0]);
      OtherFrames(Observe(v, ms[0]), ms[1..]);
    }
  }

  lemma {:induction false} ObserveMore(v: View, xs: seq<Down>, ys: seq<Down>)
    ensures ObserveAll(v, xs + ys) == ObserveAll(ObserveAll(v, xs), ys)
    decreases |xs|
  {
    if xs == [] {
      assert xs + ys == ys;
    } else {
      assert (xs + ys)[0] == xs[0] && (xs + ys)[1..] == xs[1..] + ys;
      ObserveMore(Observe(v, xs[0]), xs[1..], ys);
    }
  }

  lemma ObserveOne(v: View, m: Down)
    ensures ObserveAll(v, [m]) == Observe(v, m)
  {
    assert [m][1..] == [];
  }

  // ---------------------------------------------------------------- every step

  /** A frame the room broadcast, someone else's or one's own, on a list that showed the room. */
  lemma ListsBroadcast(
    cfg: Config, room: Room<nat>, j: nat, jid: Option<ClientId>, e: Effect<nat>, room': Room<nat>, frame: Down,
    v: View, me: ClientId)
    requires RoomOk(cfg, room) && RoomOk(cfg, room') && Causes(room, j, jid, e, room', Some(frame))
    requires HasId(room.clients, me) && Agrees(v, room, me) && Lists(v, room, me) && Small(room')
    ensures Lists(Observe(v, frame), room', me)
  {
    match e
    case Joins(m) =>
      assert room'.clients[|room.clients|] == m;
      ListsJoin(cfg, room, v, me, m);
    case Hands(to) => ListsRole(room, v, me, to, jid.value);
    case Applies(_) =>
    case Nothing =>
  }

  lemma ListsServer(cfg: Config, s: System, j: nat, draws: seq<ClientId>, t: System, k: nat)
    requires SystemOk(cfg, s) && SystemOk(cfg, t) && Takes(cfg, s, ServerTakes(j, draws), t)
    requires Present(s, k) && ShowsRoom(s, k) && Small(t.room)
    ensures ShowsRoom(t, k)
  {
    var from, ses := s.sessions[j], s.sessions[k];
    var v := ObserveAll(ViewOf(ses.client), ses.down);
    assert SessionOk(s.room, k, ses);
    var e := Classify(cfg, s.room, j, from.id, from.up[0], draws);
    var o := HandleMessage(cfg, s.room, j, from.id, from.up[0], draws);
    var frames := Delivered(o, j, k);
    MemberHears(cfg, s, j, e, o, k);
    ObserveMore(ViewOf(ses.client), ses.down, frames);
    if o.bcast.Some? && (j != k || o.toSelf) {
      ObserveOne(v, o.bcast.value);
      ListsBroadcast(cfg, s.room, j, from.id, e, o.room, o.bcast.value, v, ses.id.value);
    } else {
      OtherFrames(v, frames);
    }
  }

  /** A member is sent the broadcast, and of its own replies none is about members. */
  lemma MemberHears(cfg: Config, s: System, j: nat, e: Effect<nat>, o: Outcome<nat>, k: nat)
    requires Present(s, k) && IsMember(s.room, k, s.sessions[k].id) && j in s.sessions && s.sessions[j].up != []
    requires Causes(s.room, j, s.sessions[j].id, e, o.room, o.bcast)
    requires Answers(s.room, j, s.sessions[j].id, e, s.sessions[j].up[0], o)
    ensures o.bcast.Some? && (j != k || o.toSelf) ==> Delivered(o, j, k) == [o.bcast.value]
    ensures !(o.bcast.Some? && (j != k || o.toSelf)) ==>
      forall i :: 0 <= i < |Delivered(o, j, k)| ==> !AboutMembers(Delivered(o, j, k)[i])
  {
    var i := IndexOf(s.room.clients, s.sessions[k].id.value);
    assert o.room.clients[i] == s.room.clients[i] && InRoom(o.room.clients, k);
  }

  lemma ListsGone(cfg: Config, s: System, j: nat, t: System, k: nat)
    requires SystemOk(cfg, s) && Takes(cfg, s, SocketCloses(j), t)
    requires Present(s, k) && ShowsRoom(s, k) && j != k
    ensures ShowsRoom(t, k)
  {
    var ses, jid := s.sessions[k], s.sessions[j].id;
    assert SessionOk(s.room, k, ses);
    assert ses.down + [] == ses.down;
    var (room, bcast) := HandleDisconnect(s.room, j, jid);
    if bcast.Some? {
      OtherMember(cfg, s.room, j, jid, k, ses.id);
      MemberAfterLeave(cfg, s.room, j, jid, k, ses.id);
      ObserveMore(ViewOf(ses.client), ses.down, [bcast.value]);
      var v := ObserveAll(ViewOf(ses.client), ses.down);
      ObserveOne(v, bcast.value);
      ListsLeave(s.room, v, ses.id.value, jid.value);
    }
  }

  lemma ListsOwn(cfg: Config, s: System, step: Replication.Step, t: System, k: nat)
    requires SystemOk(cfg, s) && Takes(cfg, s, step, t) && step.k == k && ShowsRoom(s, k) && Present(s, k)
    requires step.Changes? || step.Ticks? || step.Asks? || step.ClientTakes?
    ensures ShowsRoom(t, k)
  {
    var ses := s.sessions[k];
    assert SessionOk(s.room, k, ses);
    match step
    case Changes(_, delta, now) => ChangeOk(ses.client, delta, now);
    case Ticks(_, now) => Invariant.TimerOk(ses.client, now);
    case ClientTakes(_) => ReceiveObserves(ses.client, ses.down[0]);
    case _ =>
  }

  /** A step of another client, or of the network, does not concern client k. */
  lemma ListsElsewhere(cfg: Config, s: System, step: Replication.Step, t: System, k: nat)
    requires Takes(cfg, s, step, t) && !step.ServerTakes? && !step.SocketCloses?
    requires step.k != k || step.Connects? || step.Intrudes? || step.ClientCloses? || step.Ejected?
    requires Present(s, k) && Present(t, k) && ShowsRoom(s, k)
    ensures ShowsRoom(t, k)
  {}

  lemma ListsKept(cfg: Config, s: System, step: Replication.Step, t: System, k: nat)
    requires SystemOk(cfg, s) && SystemOk(cfg, t) && Takes(cfg, s, step, t)
    requires Present(s, k) && Present(t, k) && ShowsRoom(s, k) && Small(t.room)
    ensures ShowsRoom(t, k)
  {
    match step
    case ServerTakes(j, draws) => ListsServer(cfg, s, j, draws, t, k);
    case SocketCloses(j) => ListsGone(cfg, s, j, t, k);
    case _ =>
      if step.k == k && (step.Changes? || step.Ticks? || step.Asks? || step.ClientTakes?) {
        ListsOwn(cfg, s, step, t, k);
      } else {
        ListsElsewhere(cfg, s, step, t, k);
      }
  }

  /** A client becomes present only by being admitted. */
  lemma OnlyByAdmission(cfg: Config, s: System, step: Replication.Step, t: System, k: nat)
    requires Takes(cfg, s, step, t) && !Present(s, k) && Present(t, k)
    ensures step.ServerTakes? && step.k == k
    ensures s.sessions[k].conforming && s.sessions[k].open && s.sessions[k].live && s.sessions[k].id.None?
  {}

  /** Its welcome then shows it the room. */
  lemma ListsNewcomer(cfg: Config, s: System, step: Replication.Step, t: System, k: nat)
    requires SystemOk(cfg, s) && SystemOk(cfg, t) && Takes(cfg, s, step, t)
    requires !Present(s, k) && Present(t, k) && Small(t.room)
    ensures ShowsRoom(t, k)
  {
    OnlyByAdmission(cfg, s, step, t, k);
    var ses := s.sessions[k];
    assert SessionOk(s.room, k, ses) && SessionOk(t.room, k, t.sessions[k]);
    var e := Classify(cfg, s.room, k, None, ses.up[0], step.draws);
    var o := HandleMessage(cfg, s.room, k, None, ses.up[0], step.draws);
    Enters(s.room.clients, e.m);
    assert Delivered(o, k, k) == o.reply;
    assert ses.down + o.reply == [o.reply[0]];
    ObserveOne(ViewOf(ses.client), o.reply[0]);
    WelcomedPeers(cfg, t.room, e.m.id);
  }

  // ---------------------------------------------------------------- the result

  /** Whatever a client is sent, its list cannot be that of a member of a larger room. */
  lemma LargerRoomsAreNotSeen(cfg: Config, s: System, k: nat)
    requires SystemOk(cfg, s) && Present(s, k) && !Small(s.room)
    ensures !ShowsRoom(s, k)
  {
    var ses := s.sessions[k];
    assert SessionOk(s.room, k, ses);
    ViewStaysShort(ViewOf(ses.client), ses.down);
    EveryoneElse(s.room.clients, ses.id.value, s.room.controllerId);
  }

  lemma {:induction false} EveryoneElse(clients: seq<Member<nat>>, me: ClientId, ctl: Option<ClientId>)
    requires Distinct(clients)
    ensures |Others(clients, me, ctl)| == |clients| - (if HasId(clients, me) then 1 else 0)
  {
    if clients != [] { EveryoneElse(clients[1..], me, ctl); }
  }

  /** While client k has been present, the room has been small. */
  ghost predicate SmallThroughout(tr: seq<System>, k: nat, i: nat)
    requires i < |tr|
  {
    forall j :: 0 <= j <= i && Present(tr[j], k) ==> Small(tr[j].room)
  }

  ghost predicate ShownThroughout(tr: seq<System>, k: nat, i: nat)
    requires i < |tr|
  {
    forall j :: 0 <= j <= i && Present(tr[j], k) ==> ShowsRoom(tr[j], k)
  }

  lemma {:induction false} SmallRoomsAreShown(
    cfg: Config, tr: seq<System>, steps: seq<Replication.Step>, k: nat, i: nat)
    requires IsRun(cfg, tr, steps) && i <= |steps| && SmallThroughout(tr, k, i) && Present(tr[i], k)
    ensures ShowsRoom(tr[i], k)
  {
    assert i > 0;
    var s, step, t := tr[i - 1], steps[i - 1], tr[i];
    if Present(s, k) { SmallRoomsAreShown(cfg, tr, steps, k, i - 1); }
    AtStep(cfg, tr, steps, i - 1);
    ShownNext(cfg, s, step, t, k);
  }

  lemma ShownNext(cfg: Config, s: System, step: Replication.Step, t: System, k: nat)
    requires SystemOk(cfg, s) && SystemOk(cfg, t) && Takes(cfg, s, step, t)
    requires Present(t, k) && Small(t.room) && (Present(s, k) ==> ShowsRoom(s, k))
    ensures ShowsRoom(t, k)
  {
    if Present(s, k) { ListsKept(cfg, s, step, t, k); } else { ListsNewcomer(cfg, s, step, t, k); }
  }

  /** View agreement: on every run, a client that handles what is on its way to it sees exactly the room's other
      members in the order they joined, with names and roles, at every moment since it joined, if and only if the
      room has never held more than nine members since then. */
  lemma ViewAgreement(cfg: Config, tr: seq<System>, steps: seq<Replication.Step>, k: nat, i: nat)
    requires IsRun(cfg, tr, steps) && i <= |steps|
    ensures ShownThroughout(tr, k, i) <==> SmallThroughout(tr, k, i)
  {
    if SmallThroughout(tr, k, i) {
      forall j | 0 <= j <= i && Present(tr[j], k) ensures ShowsRoom(tr[j], k) {
        SmallRoomsAreShown(cfg, tr, steps, k, j);
      }
    }
    if ShownThroughout(tr, k, i) {
      forall j | 0 <= j <= i && Present(tr[j], k) ensures Small(tr[j].room) {
        RunInOrder(cfg, tr, steps, j);
        if !Small(tr[j].room) { LargerRoomsAreNotSeen(cfg, tr[j], k); }
      }
    }
  }
}
