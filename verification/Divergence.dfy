/** What the hypotheses of the agreement results are for: concrete runs on which, without them, decks differ. */
module Divergence {
  import opened Playback
  import opened Messages
  import opened Publishing
  import opened Rooms
  import opened Clients
  import opened Replication
  import opened Agreement
  import opened Following

  /** A configuration and a name with which a client can join at all. */
  ghost predicate Admits(cfg: Config, name: string) {
    1 <= cfg.maxClients && 1 <= Utf16Length(cfg.roomCode) <= 64 && ServerAcceptsName(name)
  }

  function HelloOf(cfg: Config, name: string): Up { Hello(Some(PROTOCOL_VERSION), name, cfg.roomCode) }

  const FIRST_WELCOME := Welcome(0, Observer, 0, map[A := DEFAULT_DECK], [])

  function OneMember(name: string): Room<nat> { Room([Member(0, 0, name)], map[A := DEFAULT_DECK], 0, None) }

  function OneSession(c: Client, id: Option<ClientId>, up: seq<Up>, down: seq<Down>): map<nat, Session> {
    map[0 := Session(true, c, true, true, id, up, down)]
  }

  lemma FirstHello(cfg: Config, name: string)
    requires Admits(cfg, name)
    ensures HandleMessage<nat>(cfg, NewRoom(), 0, None, HelloOf(cfg, name), [0])
         == Outcome(OneMember(name), Some(0), [FIRST_WELCOME], Some(PeerJoined(Peer(0, name, Observer))), false, Fine)
  {
    var clients: seq<Member<nat>> := [];
    assert Allocate(clients, [0]) == Some(0);
    var one: seq<Member<nat>> := [Member(0, 0, name)];
    assert clients + one == one;
    assert one[1..] == clients;
    assert Others(one, 0, None) == [];
  }

  lemma FirstHelloStep(cfg: Config, name: string, c: Client)
    requires Admits(cfg, name)
    ensures var s := System(NewRoom(), OneSession(c, None, [HelloOf(cfg, name)], []), []);
      Takes(cfg, s, ServerTakes(0, [0]), System(OneMember(name), OneSession(c, Some(0), [], [FIRST_WELCOME]), []))
  {
    FirstHello(cfg, name);
    var s := System(NewRoom(), OneSession(c, None, [HelloOf(cfg, name)], []), []);
    var o := HandleMessage<nat>(cfg, NewRoom(), 0, None, HelloOf(cfg, name), [0]);
    assert o.room.clients[0].conn == 0 && InRoom(o.room.clients, 0);
    assert Delivered(o, 0, 0) == o.reply == [FIRST_WELCOME];
    assert s.sessions[0].down + o.reply == [FIRST_WELCOME];
    assert [HelloOf(cfg, name)][1..] == [];
    assert AfterServer(s, 0, o) == OneSession(c, Some(0), [], [FIRST_WELCOME]);
  }

  /** The system when one client is alone in it. */
  function Alone(room: Room<nat>, c: Client, up: seq<Up>, down: seq<Down>, accepted: seq<Delta>): System {
    System(room, OneSession(c, Some(0), up, down), accepted)
  }

  lemma TakeStep(cfg: Config, room: Room<nat>, c: Client, up: seq<Up>, m: Down, accepted: seq<Delta>)
    ensures var (c', frames) := Receive(c, m);
      Takes(cfg, Alone(room, c, up, [m], accepted), ClientTakes(0), Alone(room, c', up + frames, [], accepted))
  {
    var s := Alone(room, c, up, [m], accepted);
    var (c', frames) := Receive(c, m);
    assert [m][1..] == [];
    assert Next(cfg, s, ClientTakes(0)).sessions == OneSession(c', Some(0), up + frames, []);
  }

  lemma ChangeStep(
    cfg: Config, room: Room<nat>, c: Client, up: seq<Up>, accepted: seq<Delta>, delta: Delta, now: real)
    requires GoodTrack(delta.changes)
    ensures var (c', frames) := ChangeLocally(c, delta, now);
      Takes(cfg, Alone(room, c, up, [], accepted), Replication.Step.Changes(0, delta, now),
            Alone(room, c', up + frames, [], accepted))
  {
    var s := Alone(room, c, up, [], accepted);
    var (c', frames) := ChangeLocally(c, delta, now);
    assert Next(cfg, s, Replication.Step.Changes(0, delta, now)).sessions == OneSession(c', Some(0), up + frames, []);
  }

  lemma AskStep(cfg: Config, room: Room<nat>, c: Client, up: seq<Up>, accepted: seq<Delta>, msg: Up)
    requires msg == ClaimControl || msg == ReleaseControl
    ensures Takes(cfg, Alone(room, c, up, [], accepted), Asks(0, msg), Alone(room, c, up + [msg], [], accepted))
  {
    var s := Alone(room, c, up, [], accepted);
    assert Next(cfg, s, Asks(0, msg)).sessions == OneSession(c, Some(0), up + [msg], []);
  }

  /** The sole member is handed control, or gives it up. */
  lemma HandStep(cfg: Config, room: Room<nat>, name: string, c: Client, accepted: seq<Delta>, msg: Up)
    requires room.clients == [Member(0, 0, name)]
    requires (msg == ClaimControl && room.controllerId.None?) || (msg == ReleaseControl && room.controllerId == Some(0))
    ensures var to := if msg == ClaimControl then Some(0) else None;
      Takes(cfg, Alone(room, c, [msg], [], accepted), ServerTakes(0, []),
            Alone(room.(controllerId := to), c, [], [RoleChanged(0, RoleOf(to, 0))], accepted))
  {
    var to := if msg == ClaimControl then Some(0) else None;
    var s := Alone(room, c, [msg], [], accepted);
    var o := HandleMessage(cfg, room, 0, Some(0), msg, []);
    assert IndexOf(room.clients, 0) == 0;
    assert o.room.clients[0].conn == 0 && InRoom(o.room.clients, 0);
    assert [] + Delivered(o, 0, 0) == [RoleChanged(0, RoleOf(to, 0))];
    assert [msg][1..] == [];
    assert AfterServer(s, 0, o) == OneSession(c, Some(0), [], [RoleChanged(0, RoleOf(to, 0))]);
  }

  function Applied(room: Room<nat>, delta: Delta): Room<nat> {
    room.(decks := room.decks[delta.deck := Merge(Canonical(room.decks, delta.deck), delta.changes)],
          serverSeq := room.serverSeq + 1)
  }

  /** The room applies a delta of its sole member, who is in control; nobody else is there to be told. */
  lemma ApplyStep(
    cfg: Config, room: Room<nat>, name: string, c: Client, delta: Delta, rest: seq<Up>, accepted: seq<Delta>)
    requires room.clients == [Member(0, 0, name)] && room.controllerId == Some(0) && Acceptable(delta.changes)
    ensures Takes(cfg, Alone(room, c, [DeltaUp(delta)] + rest, [], accepted), ServerTakes(0, []),
                  Alone(Applied(room, delta), c, rest, [], accepted + [delta]))
  {
    var s := Alone(room, c, [DeltaUp(delta)] + rest, [], accepted);
    var o := HandleMessage(cfg, room, 0, Some(0), DeltaUp(delta), []);
    assert IndexOf(room.clients, 0) == 0;
    assert [] + Delivered(o, 0, 0) == [];
    assert ([DeltaUp(delta)] + rest)[1..] == rest;
    assert AfterServer(s, 0, o) == OneSession(c, Some(0), rest, []);
  }

  lemma Extended(cfg: Config, tr: seq<System>, steps: seq<Replication.Step>, step: Replication.Step, t: System)
    returns (tr': seq<System>, steps': seq<Replication.Step>)
    requires IsRun(cfg, tr, steps)
    requires Takes(cfg, tr[|steps|], step, t)
    ensures tr' == tr + [t] && steps' == steps + [step]
    ensures IsRun(cfg, tr', steps')
  {
    tr', steps' := tr + [t], steps + [step];
    forall i | 0 <= i < |steps'| ensures TakenAt(cfg, tr', steps', i) {
      if i < |steps| { assert TakenAt(cfg, tr, steps, i); }
    }
  }

  /** One client joins an empty room and takes its welcome. */
  lemma JoinEmptyRoom(cfg: Config, name: string, c: Client) returns (tr: seq<System>, steps: seq<Replication.Step>)
    requires Admits(cfg, name) && Enabled(START, Connects(0, c, HelloOf(cfg, name)))
    ensures |steps| == 3 && IsRun(cfg, tr, steps) && steps[0] == Connects(0, c, HelloOf(cfg, name))
    ensures tr[3] == System(OneMember(name), OneSession(Receive(c, FIRST_WELCOME).0, Some(0), [], []), [])
  {
    tr, steps := [START], [];
    FirstHelloStep(cfg, name, c);
    TakeStep(cfg, OneMember(name), c, [], FIRST_WELCOME, []);
    assert Receive(c, FIRST_WELCOME).1 == [] && [] + Receive(c, FIRST_WELCOME).1 == [];
    var hello := HelloOf(cfg, name);
    assert Next(cfg, START, Connects(0, c, hello)).sessions == OneSession(c, None, [hello], []);
    tr, steps := Extended(cfg, tr, steps, Connects(0, c, hello), System(NewRoom(), OneSession(c, None, [hello], []), []));
    tr, steps := Extended(cfg, tr, steps, ServerTakes(0, [0]),
                          System(OneMember(name), OneSession(c, Some(0), [], [FIRST_WELCOME]), []));
    tr, steps := Extended(cfg, tr, steps, ClientTakes(0),
                          System(OneMember(name), OneSession(Receive(c, FIRST_WELCOME).0, Some(0), [], []), []));
  }

  /** The protocol document says a snapshot replaces local state wholesale; it does not replace a deck the
      room has never touched. A client that has changed its deck B before it connects keeps it, with nothing on
      its way that would change that. */
  lemma UntouchedDeckStays(cfg: Config, name: string) returns (tr: seq<System>, steps: seq<Replication.Step>)
    requires Admits(cfg, name)
    ensures IsRun(cfg, tr, steps)
    ensures var s := tr[|steps|];
      && Present(s, 0) && s.sessions[0].up == [] && s.sessions[0].down == []
      && s.sessions[0].client.b != Canonical(s.room.decks, B)
  {
    var c := ChangeLocally(NEW_CLIENT, Delta(B, GainOf(2.0)), 0.0).0;
    tr, steps := JoinEmptyRoom(cfg, name, c);
  }

  // ---------------------------------------------------------------- a change that outlives its term

  function GainOf(x: real): Changes { Playback.Changes.Changes(None, None, None, Some(x), None, None, None, None) }

  const TOLD := RoleChanged(0, Controller)
  const DISMISSED := RoleChanged(0, Observer)

  /** The client of the run below: it joins, is given control, sets the gain twice within one throttle window, is
      dismissed, and sets the gain once more while nobody is in control. */
  function Joined(): Client { Receive(NEW_CLIENT, FIRST_WELCOME).0 }
  function InCharge(): Client { Receive(Joined(), TOLD).0 }
  function Louder(): Client { ChangeLocally(InCharge(), Delta(A, GainOf(1.5)), 0.0).0 }
  function Loudest(): Client { ChangeLocally(Louder(), Delta(A, GainOf(2.0)), 10.0).0 }
  function Dismissed(): Client { Receive(Loudest(), DISMISSED).0 }
  function OnItsOwn(): Client { ChangeLocally(Dismissed(), Delta(A, GainOf(1.0)), 20.0).0 }

  lemma FirstTerm()
    ensures var c := InCharge();
      && c.role == Controller && c.ownId == Some(0) && c.publisher.connected && c.publisher.role == Controller
      && c.publisher.a == Slot(None, 0.0, false) && c.a == DEFAULT_DECK && c.b == DEFAULT_DECK
    ensures Receive(Joined(), TOLD).1 == Resync(Joined())
    ensures Joined().a == DEFAULT_DECK && Joined().b == DEFAULT_DECK
  {}

  lemma TwoChanges()
    ensures ChangeLocally(InCharge(), Delta(A, GainOf(1.5)), 0.0).1 == [DeltaUp(Delta(A, GainOf(1.5)))]
    ensures ChangeLocally(Louder(), Delta(A, GainOf(2.0)), 10.0).1 == []
    ensures Loudest().publisher.a.pending == Some(GainOf(2.0)) && Loudest().ownId == Some(0)
  {
    FirstTerm();
    var sent := [Sent(Delta(A, GainOf(1.5)), 0.0)];
    assert sent[1..] == [];
    assert Frames(sent) == [DeltaUp(Delta(A, GainOf(1.5)))];
  }

  /** What was pending when the term ended is pending still, and would now undo the last change. */
  lemma SecondTerm()
    ensures Receive(Loudest(), DISMISSED).1 == []
    ensures ChangeLocally(Dismissed(), Delta(A, GainOf(1.0)), 20.0).1 == []
    ensures OnItsOwn().role == Observer && OnItsOwn().ownId == Some(0) && !PendingIdle(OnItsOwn(), A)
  {
    TwoChanges();
    assert Dismissed().publisher.a.pending == Some(GainOf(2.0)) && Dismissed().role == Observer;
    assert OnItsOwn().a.gain == 1.0 && OnItsOwn().publisher.a.pending == Some(GainOf(2.0));
  }

  /** It joins and is given control. */
  lemma GivenControl(cfg: Config, name: string) returns (tr: seq<System>, steps: seq<Replication.Step>)
    requires Admits(cfg, name)
    ensures |steps| == 6 && IsRun(cfg, tr, steps) && steps[0] == Connects(0, NEW_CLIENT, HelloOf(cfg, name))
    ensures tr[6] == Alone(OneMember(name).(controllerId := Some(0)), InCharge(), Resync(Joined()), [], [])
  {
    var room := OneMember(name);
    var held := room.(controllerId := Some(0));
    var none: seq<Up> := [];
    assert none + [ClaimControl] == [ClaimControl] && none + Resync(Joined()) == Resync(Joined());
    tr, steps := JoinEmptyRoom(cfg, name, NEW_CLIENT);
    FirstTerm();
    AskStep(cfg, room, Joined(), [], [], ClaimControl);
    tr, steps := Extended(cfg, tr, steps, Asks(0, ClaimControl), Alone(room, Joined(), [ClaimControl], [], []));
    HandStep(cfg, room, name, Joined(), [], ClaimControl);
    tr, steps := Extended(cfg, tr, steps, ServerTakes(0, []), Alone(held, Joined(), [], [TOLD], []));
    TakeStep(cfg, held, Joined(), [], TOLD, []);
    tr, steps := Extended(cfg, tr, steps, ClientTakes(0), Alone(held, InCharge(), Resync(Joined()), [], []));
  }

  /** ... and changes the gain twice. */
  lemma TermBegins(cfg: Config, name: string) returns (tr: seq<System>, steps: seq<Replication.Step>)
    requires Admits(cfg, name)
    ensures |steps| == 8 && IsRun(cfg, tr, steps) && steps[0] == Connects(0, NEW_CLIENT, HelloOf(cfg, name))
    ensures tr[8] == Alone(OneMember(name).(controllerId := Some(0)), Loudest(),
                           [DeltaUp(Delta(A, FullResync(DEFAULT_DECK))), DeltaUp(Delta(B, FullResync(DEFAULT_DECK))),
                            DeltaUp(Delta(A, GainOf(1.5)))], [], [])
  {
    var held := OneMember(name).(controllerId := Some(0));
    tr, steps := GivenControl(cfg, name);
    FirstTerm();
    TwoChanges();
    var resync := Resync(Joined());
    var more := [DeltaUp(Delta(A, FullResync(DEFAULT_DECK))), DeltaUp(Delta(B, FullResync(DEFAULT_DECK))),
                 DeltaUp(Delta(A, GainOf(1.5)))];
    assert resync + [DeltaUp(Delta(A, GainOf(1.5)))] == more && more + [] == more;
    ChangeStep(cfg, held, InCharge(), resync, [], Delta(A, GainOf(1.5)), 0.0);
    tr, steps := Extended(cfg, tr, steps, Replication.Step.Changes(0, Delta(A, GainOf(1.5)), 0.0),
                          Alone(held, Louder(), more, [], []));
    ChangeStep(cfg, held, Louder(), more, [], Delta(A, GainOf(2.0)), 10.0);
    tr, steps := Extended(cfg, tr, steps, Replication.Step.Changes(0, Delta(A, GainOf(2.0)), 10.0),
                          Alone(held, Loudest(), more, [], []));
  }

  /** The room once it has applied what the client sent in its term. */
  function RoomAfterTerm(name: string): Room<nat> {
    Applied(Applied(Applied(OneMember(name).(controllerId := Some(0)), Delta(A, FullResync(DEFAULT_DECK))),
                    Delta(B, FullResync(DEFAULT_DECK))), Delta(A, GainOf(1.5)))
  }

  /** The client gives control up, and the room takes what it sent before. */
  lemma TermIsServed(cfg: Config, name: string) returns (tr: seq<System>, steps: seq<Replication.Step>, log: seq<Delta>)
    requires Admits(cfg, name)
    ensures |steps| == 12 && IsRun(cfg, tr, steps) && steps[0] == Connects(0, NEW_CLIENT, HelloOf(cfg, name))
    ensures tr[12] == Alone(RoomAfterTerm(name), Loudest(), [ReleaseControl], [], log)
  {
    tr, steps := TermBegins(cfg, name);
    var c := Loudest();
    var x, y, z := Delta(A, FullResync(DEFAULT_DECK)), Delta(B, FullResync(DEFAULT_DECK)), Delta(A, GainOf(1.5));
    var room := OneMember(name).(controllerId := Some(0));
    ResyncExact(DEFAULT_DECK, DEFAULT_DECK);
    var up := [DeltaUp(x), DeltaUp(y), DeltaUp(z)];
    AskStep(cfg, room, c, up, [], ReleaseControl);
    var up2, up3, up4 := [DeltaUp(y), DeltaUp(z), ReleaseControl], [DeltaUp(z), ReleaseControl], [ReleaseControl];
    assert up + [ReleaseControl] == [DeltaUp(x)] + up2 && up2 == [DeltaUp(y)] + up3 && up3 == [DeltaUp(z)] + up4;
    tr, steps := Extended(cfg, tr, steps, Asks(0, ReleaseControl), Alone(room, c, [DeltaUp(x)] + up2, [], []));
    ApplyStep(cfg, room, name, c, x, up2, []);
    var room1, log1 := Applied(room, x), [] + [x];
    tr, steps := Extended(cfg, tr, steps, ServerTakes(0, []), Alone(room1, c, up2, [], log1));
    ApplyStep(cfg, room1, name, c, y, up3, log1);
    var room2, log2 := Applied(room1, y), log1 + [y];
    tr, steps := Extended(cfg, tr, steps, ServerTakes(0, []), Alone(room2, c, up3, [], log2));
    ApplyStep(cfg, room2, name, c, z, up4, log2);
    log := log2 + [z];
    tr, steps := Extended(cfg, tr, steps, ServerTakes(0, []), Alone(Applied(room2, z), c, up4, [], log));
  }

  lemma TermEnds(cfg: Config, name: string) returns (tr: seq<System>, steps: seq<Replication.Step>, log: seq<Delta>)
    requires Admits(cfg, name)
    ensures |steps| == 13 && IsRun(cfg, tr, steps) && steps[0] == Connects(0, NEW_CLIENT, HelloOf(cfg, name))
    ensures tr[13] == Alone(RoomAfterTerm(name).(controllerId := None), Loudest(), [], [DISMISSED], log)
  {
    tr, steps, log := TermIsServed(cfg, name);
    var room := RoomAfterTerm(name);
    HandStep(cfg, room, name, Loudest(), log, ReleaseControl);
    tr, steps := Extended(cfg, tr, steps, ServerTakes(0, []),
                          Alone(room.(controllerId := None), Loudest(), [], [DISMISSED], log));
  }

  /** Back among the observers, the client makes its last change. */
  lemma OnItsOwnAgain(cfg: Config, name: string)
    returns (tr: seq<System>, steps: seq<Replication.Step>, log: seq<Delta>)
    requires Admits(cfg, name)
    ensures |steps| == 15 && IsRun(cfg, tr, steps) && steps[0] == Connects(0, NEW_CLIENT, HelloOf(cfg, name))
    ensures tr[15] == Alone(RoomAfterTerm(name).(controllerId := None), OnItsOwn(), [], [], log)
  {
    tr, steps, log := TermEnds(cfg, name);
    var room := RoomAfterTerm(name).(controllerId := None);
    SecondTerm();
    var none: seq<Up> := [];
    assert none + [] == none;
    TakeStep(cfg, room, Loudest(), [], DISMISSED, log);
    tr, steps := Extended(cfg, tr, steps, ClientTakes(0), Alone(room, Dismissed(), [], [], log));
    ChangeStep(cfg, room, Dismissed(), [], log, Delta(A, GainOf(1.0)), 20.0);
    tr, steps := Extended(cfg, tr, steps, Replication.Step.Changes(0, Delta(A, GainOf(1.0)), 20.0),
                          Alone(room, OnItsOwn(), [], [], log));
  }

  /** The hypothesis of controller agreement is needed. On this run of one client alone in a room, a change still
      waiting for its throttle window when the client gives control up is waiting still when it is given control
      again, and behind the full resync it will go out with its old value. */
  lemma StalePendingDiverges(cfg: Config, name: string) returns (tr: seq<System>, steps: seq<Replication.Step>)
    requires Admits(cfg, name)
    ensures |steps| == 18 && IsRun(cfg, tr, steps) && steps[0] == Connects(0, NEW_CLIENT, HelloOf(cfg, name))
    ensures steps[17] == ClientTakes(0) && 0 in tr[17].sessions && LearnsOfControl(tr[17].sessions[0])
    ensures HasControl(tr[18], 0) && !CarriedIn(tr[18], 0, A)
  {
    var log;
    tr, steps, log := OnItsOwnAgain(cfg, name);
    SecondTerm();
    tr, steps := ClaimsAgain(cfg, name, tr, steps, OnItsOwn(), log);
    assert TakenAt(cfg, tr, steps, 17);
    StaleTakes(cfg, tr[17], tr[18], OnItsOwn());
  }

  lemma ClaimsAgain(
    cfg: Config, name: string, tr0: seq<System>, steps0: seq<Replication.Step>, c: Client, log: seq<Delta>)
    returns (tr: seq<System>, steps: seq<Replication.Step>)
    requires |steps0| == 15 && IsRun(cfg, tr0, steps0)
    requires tr0[15] == Alone(RoomAfterTerm(name).(controllerId := None), c, [], [], log)
    ensures |steps| == 18 && IsRun(cfg, tr, steps) && steps[0] == steps0[0] && steps[17] == ClientTakes(0)
    ensures Takes(cfg, tr[17], ClientTakes(0), tr[18])
    ensures tr[17].sessions == OneSession(c, Some(0), [], [TOLD])
    ensures tr[18].sessions == OneSession(Receive(c, TOLD).0, Some(0), Receive(c, TOLD).1, [])
  {
    var room := RoomAfterTerm(name).(controllerId := None);
    var held := room.(controllerId := Some(0));
    var none: seq<Up> := [];
    var taken := Receive(c, TOLD);
    assert none + [ClaimControl] == [ClaimControl] && none + taken.1 == taken.1;
    AskStep(cfg, room, c, [], log, ClaimControl);
    tr, steps := Extended(cfg, tr0, steps0, Asks(0, ClaimControl), Alone(room, c, [ClaimControl], [], log));
    HandStep(cfg, room, name, c, log, ClaimControl);
    tr, steps := Extended(cfg, tr, steps, ServerTakes(0, []), Alone(held, c, [], [TOLD], log));
    TakeStep(cfg, held, c, [], TOLD, log);
    tr, steps := Extended(cfg, tr, steps, ClientTakes(0), Alone(held, taken.0, taken.1, [], log));
  }

  lemma StaleTakes(cfg: Config, s: System, t: System, c: Client)
    requires c.role == Observer && c.ownId == Some(0) && !PendingIdle(c, A)
    requires Takes(cfg, s, ClientTakes(0), t)
    requires s.sessions == OneSession(c, Some(0), [], [TOLD])
    requires t.sessions == OneSession(Receive(c, TOLD).0, Some(0), Receive(c, TOLD).1, [])
    ensures LearnsOfControl(s.sessions[0]) && HasControl(t, 0) && !CarriedIn(t, 0, A)
  {
    TakingControl(cfg, s, t, 0, A);
    assert Receive(c, TOLD).1 == Resync(c);
  }
}
