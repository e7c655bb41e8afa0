/** A snapshot can be on its way to a client that learns of control: a run on which the sequence number passes the
    largest 32-bit integer, and what then becomes of the client's change. */
module Overflow {
  import opened Playback
  import opened Messages
  import opened Publishing
  import opened Rooms
  import opened Clients
  import opened Replication
  import opened Agreement
  import opened Following
  import opened Divergence
  import opened Repairs

  /** A change that leaves a deck at its defaults as it is. */
  const SAME := Delta(A, GainOf(1.0))

  // ---------------------------------------------------------------- counting up

  function BothDecks(): map<DeckId, Deck> { map[A := DEFAULT_DECK, B := DEFAULT_DECK] }

  function Counted(name: string, n: nat): Room<nat> { Room([Member(0, 0, name)], BothDecks(), n, Some(0)) }

  /** The controller between two of its deltas. */
  ghost predicate Ready(c: Client) {
    && c.role == Controller && c.ownId == Some(0) && c.connected && c.publisher.connected
    && c.publisher.role == Controller && c.publisher.a.pending.None? && c.a == DEFAULT_DECK
  }

  function Later(c: Client): real { c.publisher.a.lastSendMs + 100.0 }

  lemma SendsAtOnce(c: Client)
    requires Ready(c)
    ensures var (c', frames) := ChangeLocally(c, SAME, Later(c)); Ready(c') && frames == [DeltaUp(SAME)]
  {
    var sent := [Sent(SAME, Later(c))];
    assert Prepared(c.a, GainOf(1.0)) == GainOf(1.0) && Merge(c.a, GainOf(1.0)) == DEFAULT_DECK;
    assert sent[1..] == [];
    assert Frames(sent) == [DeltaUp(SAME)];
  }

  /** For every number from two on there is a run that gets the room there. */
  lemma {:induction false} CountsUp(cfg: Config, name: string, n: nat)
    returns (tr: seq<System>, steps: seq<Replication.Step>, c: Client, log: seq<Delta>)
    requires Admits(cfg, name) && n >= 2
    ensures IsRun(cfg, tr, steps) && tr[|steps|] == Alone(Counted(name, n), c, [], [], log) && Ready(c)
    decreases n
  {
    if n == 2 {
      tr, steps, c, log := CountsTwo(cfg, name);
    } else {
      tr, steps, c, log := CountsUp(cfg, name, n - 1);
      SendsAtOnce(c);
      var none: seq<Up> := [];
      assert none + [DeltaUp(SAME)] == [DeltaUp(SAME)] && [DeltaUp(SAME)] + none == [DeltaUp(SAME)];
      ChangeStep(cfg, Counted(name, n - 1), c, [], log, SAME, Later(c));
      var c' := ChangeLocally(c, SAME, Later(c)).0;
      tr, steps := Extended(cfg, tr, steps, Replication.Step.Changes(0, SAME, Later(c)),
                            Alone(Counted(name, n - 1), c', [DeltaUp(SAME)], [], log));
      ApplyStep(cfg, Counted(name, n - 1), name, c', SAME, [], log);
      SameRoom(name, n - 1);
      tr, steps := Extended(cfg, tr, steps, ServerTakes(0, []), Alone(Counted(name, n), c', [], [], log + [SAME]));
      c, log := c', log + [SAME];
    }
  }

  lemma SameRoom(name: string, n: nat)
    ensures Divergence.Applied(Counted(name, n), SAME) == Counted(name, n + 1)
  {
    assert Merge(DEFAULT_DECK, GainOf(1.0)) == DEFAULT_DECK;
    assert BothDecks()[A := DEFAULT_DECK] == BothDecks();
  }

  /** The full resync of the first term counts for two. */
  lemma CountsTwo(cfg: Config, name: string)
    returns (tr: seq<System>, steps: seq<Replication.Step>, c: Client, log: seq<Delta>)
    requires Admits(cfg, name)
    ensures IsRun(cfg, tr, steps) && tr[|steps|] == Alone(Counted(name, 2), c, [], [], log) && Ready(c)
  {
    tr, steps := GivenControl(cfg, name);
    FirstTerm();
    c := InCharge();
    var room := OneMember(name).(controllerId := Some(0));
    var x, y := Delta(A, FullResync(DEFAULT_DECK)), Delta(B, FullResync(DEFAULT_DECK));
    ResyncExact(DEFAULT_DECK, DEFAULT_DECK);
    var room1, room2 := Divergence.Applied(room, x), Divergence.Applied(Divergence.Applied(room, x), y);
    assert room1.decks == map[A := DEFAULT_DECK] && room2.decks == BothDecks();
    assert [DeltaUp(y)] + [] == [DeltaUp(y)] && Resync(Divergence.Joined()) == [DeltaUp(x)] + [DeltaUp(y)];
    ApplyStep(cfg, room, name, c, x, [DeltaUp(y)], []);
    tr, steps := Extended(cfg, tr, steps, ServerTakes(0, []), Alone(room1, c, [DeltaUp(y)], [], [] + [x]));
    ApplyStep(cfg, room1, name, c, y, [], [] + [x]);
    log := [] + [x] + [y];
    tr, steps := Extended(cfg, tr, steps, ServerTakes(0, []), Alone(room2, c, [], [], log));
  }

  // ---------------------------------------------------------------- two clients

  function Sess(c: Client, id: Option<ClientId>, up: seq<Up>, down: seq<Down>): Session {
    Session(true, c, true, true, id, up, down)
  }

  ghost predicate Two(s: System, room: Room<nat>, x0: Session, x1: Session) {
    s.room == room && s.sessions.Keys == {0, 1} && s.sessions[0] == x0 && s.sessions[1] == x1
  }

  lemma Do(cfg: Config, tr: seq<System>, steps: seq<Replication.Step>, step: Replication.Step)
    returns (tr': seq<System>, steps': seq<Replication.Step>)
    requires IsRun(cfg, tr, steps) && Enabled(tr[|steps|], step)
    ensures tr' == tr + [Next(cfg, tr[|steps|], step)] && steps' == steps + [step] && IsRun(cfg, tr', steps')
  {
    tr', steps' := Extended(cfg, tr, steps, step, Next(cfg, tr[|steps|], step));
  }

  /** The second client takes its next frame. */
  function Took(x: Session): Session
    requires x.down != []
  {
    var (c, frames) := Receive(x.client, x.down[0]);
    x.(client := c, up := x.up + frames, down := x.down[1..])
  }

  lemma SecondTakes(
    cfg: Config, tr0: seq<System>, steps0: seq<Replication.Step>, room: Room<nat>, x0: Session, x1: Session,
    after: Session)
    returns (tr: seq<System>, steps: seq<Replication.Step>)
    requires IsRun(cfg, tr0, steps0) && Two(tr0[|steps0|], room, x0, x1)
    requires x1.conforming && x1.open && x1.down != [] && after == Took(x1)
    ensures IsRun(cfg, tr, steps) && steps == steps0 + [ClientTakes(1)] && |tr| == |tr0| + 1 && tr[..|tr0|] == tr0
    ensures Two(tr[|steps|], room, x0, after)
  {
    tr, steps := Do(cfg, tr0, steps0, ClientTakes(1));
  }

  /** A session after the room has handled a message of session k. */
  function Served(x: Session, j: nat, k: nat, o: Outcome<nat>): Session
    requires j == k ==> x.up != []
  {
    var ses := Delivers(x, Delivered(o, k, j));
    if j == k then ses.(id := o.id, up := x.up[1..], live := ses.live && !o.verdict.Closed?) else ses
  }

  lemma ServeTwo(
    cfg: Config, s: System, room: Room<nat>, x0: Session, x1: Session, k: nat, draws: seq<ClientId>, o: Outcome<nat>)
    requires Two(s, room, x0, x1) && k < 2
    requires var x := if k == 0 then x0 else x1;
      x.live && x.up != [] && o == HandleMessage(cfg, room, k, x.id, x.up[0], draws)
    ensures Enabled(s, ServerTakes(k, draws))
    ensures Two(Next(cfg, s, ServerTakes(k, draws)), o.room, Served(x0, 0, k, o), Served(x1, 1, k, o))
  {}

  function Both(name: string, n: nat, ctl: Option<ClientId>): Room<nat> {
    Room([Member(0, 0, name), Member(1, 1, name)], BothDecks(), n, ctl)
  }

  lemma BothPresent(name: string, n: nat, ctl: Option<ClientId>)
    ensures var r := Both(name, n, ctl);
      IsMember(r, 0, Some(0)) && IsMember(r, 1, Some(1)) && InRoom(r.clients, 0) && InRoom(r.clients, 1)
  {
    var r := Both(name, n, ctl);
    assert r.clients[0].conn == 0 && r.clients[1].conn == 1;
    assert IndexOf(r.clients, 0) == 0;
    assert r.clients[1..][0].id == 1 && IndexOf(r.clients, 1) == 1;
  }

  const WELCOME_TWO := (name: string, n: nat) => Welcome(1, Observer, n, BothDecks(), [Peer(0, name, Controller)])

  /** A second client's hello is answered. */
  lemma SecondHello(cfg: Config, name: string, n: nat)
    requires Admits(cfg, name) && cfg.maxClients >= 2
    ensures var o := HandleMessage(cfg, Counted(name, n), 1, None, HelloOf(cfg, name), [1]);
      && o == Outcome(Both(name, n, Some(0)), Some(1), [WELCOME_TWO(name, n)],
                      Some(PeerJoined(Peer(1, name, Observer))), false, Fine)
      && Delivered(o, 1, 1) == [WELCOME_TWO(name, n)]
  {
    var room := Counted(name, n);
    var clients := room.clients + [Member(1, 1, name)];
    assert IndexOf(room.clients, 1) == 1;
    assert Allocate(room.clients, [1]) == Some(1);
    assert clients == [Member(0, 0, name), Member(1, 1, name)];
    OthersAppend(room.clients, Member(1, 1, name), 1, Some(0));
    assert room.clients[1..] == [];
    assert Others(room.clients[1..], 1, Some(0)) == [];
    assert Others(room.clients, 1, Some(0)) == [Peer(0, name, Controller)];
    assert Others(clients, 1, Some(0)) == [Peer(0, name, Controller)] + [];
    BothPresent(name, n, Some(0));
  }

  function Second(name: string, n: nat): Client { Receive(NEW_CLIENT, WELCOME_TWO(name, n)).0 }

  lemma SecondJoined(name: string, n: nat)
    ensures var (c, frames) := Receive(NEW_CLIENT, WELCOME_TWO(name, n));
      && frames == [] && c.role == Observer && c.ownId == Some(1) && c.connected && c.a == DEFAULT_DECK
      && c.b == DEFAULT_DECK && c.publisher.connected && c.publisher.a == Slot(None, 0.0, false)
      && (n <= INT_MAX ==> c.lastSeen == Some(n))
  {
    ResyncExact(DEFAULT_DECK, DEFAULT_DECK);
  }

  /** A second client connects to a room whose number is the largest that fits. */
  lemma SecondConnects(cfg: Config, name: string)
    returns (tr: seq<System>, steps: seq<Replication.Step>, c0: Client)
    requires Admits(cfg, name) && cfg.maxClients >= 2
    ensures IsRun(cfg, tr, steps) && Ready(c0)
    ensures Two(tr[|steps|], Counted(name, INT_MAX), Sess(c0, Some(0), [], []),
                Sess(NEW_CLIENT, None, [HelloOf(cfg, name)], []))
  {
    var log;
    tr, steps, c0, log := CountsUp(cfg, name, INT_MAX);
    tr, steps := Do(cfg, tr, steps, Connects(1, NEW_CLIENT, HelloOf(cfg, name)));
  }

  /** ... and joins. */
  lemma SecondJoins(cfg: Config, name: string)
    returns (tr: seq<System>, steps: seq<Replication.Step>, c0: Client, d0: seq<Down>)
    requires Admits(cfg, name) && cfg.maxClients >= 2
    ensures IsRun(cfg, tr, steps) && Ready(c0)
    ensures Two(tr[|steps|], Both(name, INT_MAX, Some(0)), Sess(c0, Some(0), [], d0),
                Sess(Second(name, INT_MAX), Some(1), [], []))
  {
    tr, steps, c0 := SecondConnects(cfg, name);
    var hello, room := HelloOf(cfg, name), Counted(name, INT_MAX);
    var x0, x1 := Sess(c0, Some(0), [], []), Sess(NEW_CLIENT, None, [hello], []);
    SecondHello(cfg, name, INT_MAX);
    var o := HandleMessage(cfg, room, 1, None, hello, [1]);
    ServeTwo(cfg, tr[|steps|], room, x0, x1, 1, [1], o);
    tr, steps := Do(cfg, tr, steps, ServerTakes(1, [1]));
    d0 := Served(x0, 0, 1, o).down;
    var y0, y1 := Sess(c0, Some(0), [], d0), Sess(NEW_CLIENT, Some(1), [], [WELCOME_TWO(name, INT_MAX)]);
    ServedHello(cfg, name, INT_MAX, o, x0, x1);
    SecondJoined(name, INT_MAX);
    var none: seq<Up> := [];
    assert none + none == none;
    tr, steps := SecondTakes(cfg, tr, steps, o.room, y0, y1, Took(y1));
  }

  lemma ServedHello(cfg: Config, name: string, n: nat, o: Outcome<nat>, x0: Session, x1: Session)
    requires o.id == Some(1) && Delivered(o, 1, 1) == [WELCOME_TWO(name, n)] && o.verdict == Fine
    requires x0.up == [] && x0 == Sess(x0.client, Some(0), [], [])
    requires x1 == Sess(NEW_CLIENT, None, [HelloOf(cfg, name)], [])
    ensures Served(x0, 0, 1, o) == Sess(x0.client, Some(0), [], Served(x0, 0, 1, o).down)
    ensures Served(x1, 1, 1, o) == Sess(NEW_CLIENT, Some(1), [], [WELCOME_TWO(name, n)])
  {
    assert [] + [WELCOME_TWO(name, n)] == [WELCOME_TWO(name, n)];
    assert [HelloOf(cfg, name)][1..] == [];
  }

  // ---------------------------------------------------------------- one delta too many

  const TOO_FAR: nat := INT_MAX + 1
  const LATE := DeltaDown(TOO_FAR, 0, SAME)
  const FIRST_OUT := RoleChanged(0, Observer)
  const SECOND_IN := RoleChanged(1, Controller)

  /** The first client sends one more delta and gives control up. */
  lemma OneTooMany(cfg: Config, name: string)
    returns (tr: seq<System>, steps: seq<Replication.Step>, x0: Session)
    requires Admits(cfg, name) && cfg.maxClients >= 2
    ensures IsRun(cfg, tr, steps)
    ensures Two(tr[|steps|], Both(name, TOO_FAR, None), x0,
                Sess(Second(name, INT_MAX), Some(1), [], [LATE, FIRST_OUT]))
  {
    var c0, d0;
    tr, steps, c0, d0 := SecondJoins(cfg, name);
    var c1 := Second(name, INT_MAX);
    SendsAtOnce(c0);
    tr, steps := Do(cfg, tr, steps, Replication.Step.Changes(0, SAME, Later(c0)));
    var c := ChangeLocally(c0, SAME, Later(c0)).0;
    var none: seq<Up> := [];
    assert none + [DeltaUp(SAME)] == [DeltaUp(SAME)];
    var y0, y1 := Sess(c, Some(0), [DeltaUp(SAME)], d0), Sess(c1, Some(1), [], []);
    assert Two(tr[|steps|], Both(name, INT_MAX, Some(0)), y0, y1);
    tr, steps := DeltaServed(cfg, name, tr, steps, y0, y1);
    tr, steps, x0 := FirstReleases(cfg, name, tr, steps, y0.(up := []), y1.(down := [LATE]));
  }

  lemma DeltaServed(
    cfg: Config, name: string, tr0: seq<System>, steps0: seq<Replication.Step>, y0: Session, y1: Session)
    returns (tr: seq<System>, steps: seq<Replication.Step>)
    requires IsRun(cfg, tr0, steps0) && Two(tr0[|steps0|], Both(name, INT_MAX, Some(0)), y0, y1)
    requires y0.id == Some(0) && y0.up == [DeltaUp(SAME)] && y0.live && y1.live && y1.down == []
    ensures IsRun(cfg, tr, steps)
    ensures Two(tr[|steps|], Both(name, TOO_FAR, Some(0)), y0.(up := []), y1.(down := [LATE]))
  {
    var room := Both(name, INT_MAX, Some(0));
    BothPresent(name, INT_MAX, Some(0));
    BothPresent(name, TOO_FAR, Some(0));
    assert Merge(DEFAULT_DECK, GainOf(1.0)) == DEFAULT_DECK && BothDecks()[A := DEFAULT_DECK] == BothDecks();
    var o := HandleMessage(cfg, room, 0, Some(0), DeltaUp(SAME), []);
    assert o == Outcome(Both(name, TOO_FAR, Some(0)), Some(0), [], Some(LATE), false, Fine);
    ServeTwo(cfg, tr0[|steps0|], room, y0, y1, 0, [], o);
    tr, steps := Do(cfg, tr0, steps0, ServerTakes(0, []));
    assert y0.down + [] == y0.down && [] + [LATE] == [LATE] && [DeltaUp(SAME)][1..] == [];
  }

  lemma FirstAsks(
    cfg: Config, tr0: seq<System>, steps0: seq<Replication.Step>, room: Room<nat>, y0: Session, y1: Session)
    returns (tr: seq<System>, steps: seq<Replication.Step>)
    requires IsRun(cfg, tr0, steps0) && Two(tr0[|steps0|], room, y0, y1) && y0.conforming && y0.open && y0.up == []
    ensures IsRun(cfg, tr, steps) && Two(tr[|steps|], room, y0.(up := [ReleaseControl]), y1)
  {
    tr, steps := Do(cfg, tr0, steps0, Asks(0, ReleaseControl));
    assert y0.up + [ReleaseControl] == [ReleaseControl];
  }

  lemma FirstReleases(
    cfg: Config, name: string, tr0: seq<System>, steps0: seq<Replication.Step>, y0: Session, y1: Session)
    returns (tr: seq<System>, steps: seq<Replication.Step>, x0: Session)
    requires IsRun(cfg, tr0, steps0) && Two(tr0[|steps0|], Both(name, TOO_FAR, Some(0)), y0, y1)
    requires y0.conforming && y0.open && y0.id == Some(0) && y0.up == [] && y0.live && y1.live && y1.down == [LATE]
    ensures IsRun(cfg, tr, steps)
    ensures Two(tr[|steps|], Both(name, TOO_FAR, None), x0, y1.(down := [LATE, FIRST_OUT]))
  {
    var room := Both(name, TOO_FAR, Some(0));
    tr, steps := FirstAsks(cfg, tr0, steps0, room, y0, y1);
    var z0 := y0.(up := [ReleaseControl]);
    BothPresent(name, TOO_FAR, Some(0));
    BothPresent(name, TOO_FAR, None);
    var o := HandleMessage(cfg, room, 0, Some(0), ReleaseControl, []);
    assert o == Outcome(Both(name, TOO_FAR, None), Some(0), [], Some(FIRST_OUT), true, Fine);
    ServeTwo(cfg, tr[|steps|], room, z0, y1, 0, [], o);
    tr, steps := Do(cfg, tr, steps, ServerTakes(0, []));
    x0 := Served(z0, 0, 0, o);
    assert [LATE] + [FIRST_OUT] == [LATE, FIRST_OUT];
  }

  /** The second client claims control, and then takes the delta: it asks for a snapshot, too late. */
  lemma AsksTooLate(cfg: Config, name: string)
    returns (tr: seq<System>, steps: seq<Replication.Step>, x0: Session)
    requires Admits(cfg, name) && cfg.maxClients >= 2
    ensures IsRun(cfg, tr, steps)
    ensures Two(tr[|steps|], Both(name, TOO_FAR, None), x0,
                Sess(Second(name, INT_MAX), Some(1), [ClaimControl, RequestSnapshot], [FIRST_OUT]))
  {
    tr, steps, x0 := OneTooMany(cfg, name);
    var c := Second(name, INT_MAX);
    SecondJoined(name, INT_MAX);
    tr, steps := Do(cfg, tr, steps, Asks(1, ClaimControl));
    var none: seq<Up> := [];
    assert none + [ClaimControl] == [ClaimControl];
    assert Two(tr[|steps|], Both(name, TOO_FAR, None), x0, Sess(c, Some(1), [ClaimControl], [LATE, FIRST_OUT]));
    TakesLate(name);
    tr, steps := Do(cfg, tr, steps, ClientTakes(1));
    assert [LATE, FIRST_OUT][1..] == [FIRST_OUT];
    assert [ClaimControl] + [RequestSnapshot] == [ClaimControl, RequestSnapshot];
  }

  lemma TakesLate(name: string)
    ensures Receive(Second(name, INT_MAX), LATE) == (Second(name, INT_MAX), [RequestSnapshot])
  {
    var c := Second(name, INT_MAX);
    SecondJoined(name, INT_MAX);
    assert ParsesChanges(GainOf(1.0)) && ClampChanges(GainOf(1.0)) == GainOf(1.0);
    assert Merge(c.a, GainOf(1.0)) == c.a;
  }

  /** The room hands control over, and answers the request behind it. */
  lemma AnsweredTooLate(cfg: Config, name: string)
    returns (tr: seq<System>, steps: seq<Replication.Step>, x0: Session)
    requires Admits(cfg, name) && cfg.maxClients >= 2
    ensures IsRun(cfg, tr, steps)
    ensures Two(tr[|steps|], Both(name, TOO_FAR, Some(1)), x0,
                Sess(Second(name, INT_MAX), Some(1), [], [FIRST_OUT, SECOND_IN, Snapshot(TOO_FAR, BothDecks())]))
  {
    tr, steps, x0 := AsksTooLate(cfg, name);
    var c := Second(name, INT_MAX);
    var x1 := Sess(c, Some(1), [ClaimControl, RequestSnapshot], [FIRST_OUT]);
    var room, held := Both(name, TOO_FAR, None), Both(name, TOO_FAR, Some(1));
    BothPresent(name, TOO_FAR, None);
    BothPresent(name, TOO_FAR, Some(1));
    var o := HandleMessage(cfg, room, 1, Some(1), ClaimControl, []);
    assert o == Outcome(held, Some(1), [], Some(SECOND_IN), true, Fine);
    ServeTwo(cfg, tr[|steps|], room, x0, x1, 1, [], o);
    tr, steps := Do(cfg, tr, steps, ServerTakes(1, []));
    x0 := Served(x0, 0, 1, o);
    assert [FIRST_OUT] + ([] + [SECOND_IN]) == [FIRST_OUT, SECOND_IN];
    assert [ClaimControl, RequestSnapshot][1..] == [RequestSnapshot];
    var x2 := Sess(c, Some(1), [RequestSnapshot], [FIRST_OUT, SECOND_IN]);
    assert Two(tr[|steps|], held, x0, x2);
    var p := HandleMessage(cfg, held, 1, Some(1), RequestSnapshot, []);
    ServeTwo(cfg, tr[|steps|], held, x0, x2, 1, [], p);
    tr, steps := Do(cfg, tr, steps, ServerTakes(1, []));
    x0 := Served(x0, 0, 1, p);
    assert [FIRST_OUT, SECOND_IN] + [Snapshot(TOO_FAR, BothDecks())]
        == [FIRST_OUT, SECOND_IN, Snapshot(TOO_FAR, BothDecks())];
    assert [RequestSnapshot][1..] == [];
  }

  // ---------------------------------------------------------------- the snapshot comes too late

  function Told(name: string): Client { Receive(Second(name, INT_MAX), FIRST_OUT).0 }
  function Empowered(name: string): Client { Receive(Told(name), SECOND_IN).0 }

  lemma Life(name: string)
    ensures Receive(Second(name, INT_MAX), FIRST_OUT).1 == []
    ensures Told(name).role == Observer && Told(name).ownId == Some(1) && Told(name).publisher.a.pending.None?
    ensures Receive(Told(name), SECOND_IN).1 == Resync(Told(name)) && Empowered(name).role == Controller
  {
    SecondJoined(name, INT_MAX);
  }

  /** The second client's session, before and after it is told that the first is out, and that it is in control. */
  function Stage(name: string, n: nat): Session
    requires n <= 2
  {
    var snap := Snapshot(TOO_FAR, BothDecks());
    if n == 0 then Sess(Second(name, INT_MAX), Some(1), [], [FIRST_OUT, SECOND_IN, snap])
    else if n == 1 then Sess(Told(name), Some(1), [], [SECOND_IN, snap])
    else Sess(Empowered(name), Some(1), Resync(Told(name)), [snap])
  }

  lemma Stages(name: string)
    ensures Took(Stage(name, 0)) == Stage(name, 1) && Took(Stage(name, 1)) == Stage(name, 2)
  {
    Life(name);
    var none: seq<Up> := [];
    var up := Resync(Told(name));
    assert none + none == none && none + up == up;
    assert Took(Stage(name, 0)).down == Stage(name, 1).down;
    assert Took(Stage(name, 1)).down == Stage(name, 2).down;
  }

  lemma HoldsControl(name: string)
    ensures InControl(Stage(name, 2)) && !Unrepaired(Stage(name, 2))
  {
    Life(name);
    assert Stage(name, 2).down[0].Snapshot?;
  }

  /** The second client is about to learn that it is in control. */
  lemma AboutToKnow(cfg: Config, name: string)
    returns (tr: seq<System>, steps: seq<Replication.Step>, x0: Session)
    requires Admits(cfg, name) && cfg.maxClients >= 2
    ensures IsRun(cfg, tr, steps) && Two(tr[|steps|], Both(name, TOO_FAR, Some(1)), x0, Stage(name, 1))
    ensures 1 in tr[|steps|].sessions && LearnsOfControl(tr[|steps|].sessions[1])
    ensures PendingIdle(tr[|steps|].sessions[1].client, A)
  {
    tr, steps, x0 := AnsweredTooLate(cfg, name);
    Stages(name);
    Life(name);
    tr, steps := SecondTakes(cfg, tr, steps, Both(name, TOO_FAR, Some(1)), x0, Stage(name, 0), Stage(name, 1));
  }

  lemma KnowsTooSoon(cfg: Config, name: string)
    returns (tr: seq<System>, steps: seq<Replication.Step>, i: nat)
    requires Admits(cfg, name) && cfg.maxClients >= 2
    ensures IsRun(cfg, tr, steps) && |steps| == i + 1 && steps[i] == ClientTakes(1)
    ensures 1 in tr[i].sessions && LearnsOfControl(tr[i].sessions[1]) && PendingIdle(tr[i].sessions[1].client, A)
    ensures HasControl(tr[i + 1], 1) && !Unrepaired(tr[i + 1].sessions[1])
  {
    var tr0, steps0, x0 := AboutToKnow(cfg, name);
    i := |steps0|;
    Stages(name);
    HoldsControl(name);
    tr, steps := SecondTakes(cfg, tr0, steps0, Both(name, TOO_FAR, Some(1)), x0, Stage(name, 1), Stage(name, 2));
    assert tr[i] == tr[..|tr0|][i] == tr0[i];
  }

  /** The condition of controller agreement is needed. On this run the number no longer fits, and a client learns of
      control with nothing pending and a snapshot it has asked for on its way; the run goes on within its control until
      its own deck is not what is canonical, on its way and pending. */
  lemma OverflowDiverges(cfg: Config, name: string) returns (tr: seq<System>, steps: seq<Replication.Step>, i: nat)
    requires Admits(cfg, name) && cfg.maxClients >= 2
    ensures IsRun(cfg, tr, steps) && i < |steps| && steps[i] == ClientTakes(1)
    ensures 1 in tr[i].sessions && LearnsOfControl(tr[i].sessions[1]) && PendingIdle(tr[i].sessions[1].client, A)
    ensures HasControl(tr[i + 1], 1) && !Unrepaired(tr[i + 1].sessions[1])
    ensures Kept(tr, steps, 1, i + 1, |steps|) && !CarriedIn(tr[|steps|], 1, A)
  {
    var tr1, steps1;
    tr1, steps1, i := KnowsTooSoon(cfg, name);
    tr, steps := RepairUndoes(cfg, tr1, steps1, 1);
    assert tr[i] == tr[..|tr1|][i] == tr1[i] && tr[i + 1] == tr[..|tr1|][i + 1] == tr1[i + 1];
    assert steps[i] == steps[..|steps1|][i] == steps1[i];
  }
}
