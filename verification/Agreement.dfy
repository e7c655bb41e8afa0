/** The main results about the whole system: on every run, the client in control and the room agree up to
    what is still on its way, and so does every client that follows; hand-over keeps that. */
module Agreement {
  import opened Playback
  import opened Messages
  import opened Publishing
  import opened Rooms
  import opened Clients
  import opened Replication
  import opened Invariant

  // ---------------------------------------------------------------- runs

  ghost predicate IsRun(cfg: Config, tr: seq<System>, steps: seq<Replication.Step>) {
    && |tr| == |steps| + 1 && tr[0] == START
    && forall i :: 0 <= i < |steps| ==> TakenAt(cfg, tr, steps, i)
  }

  ghost predicate TakenAt(cfg: Config, tr: seq<System>, steps: seq<Replication.Step>, i: nat)
    requires i < |steps| && |tr| == |steps| + 1
  {
    Takes(cfg, tr[i], steps[i], tr[i + 1])
  }

  ghost predicate Takes(cfg: Config, s: System, step: Replication.Step, t: System) {
    Enabled(s, step) && t == Next(cfg, s, step)
  }

  lemma {:induction false} RunInOrder(cfg: Config, tr: seq<System>, steps: seq<Replication.Step>, i: nat)
    requires IsRun(cfg, tr, steps) && i <= |steps|
    ensures SystemOk(cfg, tr[i])
  {
    if i > 0 {
      RunInOrder(cfg, tr, steps, i - 1);
      assert TakenAt(cfg, tr, steps, i - 1);
      StepKeepsOrder(cfg, tr[i - 1], steps[i - 1]);
    }
  }

  /** One step of a run, with what holds before and after it. */
  lemma AtStep(cfg: Config, tr: seq<System>, steps: seq<Replication.Step>, i: nat)
    requires IsRun(cfg, tr, steps) && i < |steps|
    ensures SystemOk(cfg, tr[i]) && SystemOk(cfg, tr[i + 1]) && Takes(cfg, tr[i], steps[i], tr[i + 1])
  {
    RunInOrder(cfg, tr, steps, i);
    var s, step := tr[i], steps[i];
    assert TakenAt(cfg, tr, steps, i);
    StepKeepsOrder(cfg, s, step);
  }

  /** Session k has a conforming client on a live connection that the room has admitted. */
  ghost predicate Present(s: System, k: nat) {
    && k in s.sessions
    && var ses := s.sessions[k]; ses.conforming && ses.open && ses.live && ses.id.Some?
  }

  /** Identity and role: in every reachable state, a client that handles what is on its way to it knows its own id
      and whether it is in control; with nothing on its way it knows already. */
  lemma RoleAgreement(cfg: Config, tr: seq<System>, steps: seq<Replication.Step>, i: nat, k: nat)
    requires IsRun(cfg, tr, steps) && i <= |steps| && Present(tr[i], k)
    ensures var ses := tr[i].sessions[k]; var room := tr[i].room;
      var seen := ObserveAll(ViewOf(ses.client), ses.down);
      && IsMember(room, k, ses.id)
      && seen.ownId == ses.id
      && (seen.role == Controller <==> room.controllerId == ses.id)
      && (ses.down == [] ==> ses.client.ownId == seen.ownId && ses.client.role == seen.role)
  {
    RunInOrder(cfg, tr, steps, i);
    assert SessionOk(tr[i].room, k, tr[i].sessions[k]);
  }

  /** The drift check is exact: on every run, a delta a conforming client is about to take makes it ask for a snapshot
      if and only if the number of that delta does not fit 32 bits. */
  lemma QuietGapCheck(cfg: Config, tr: seq<System>, steps: seq<Replication.Step>, i: nat, k: nat)
    requires IsRun(cfg, tr, steps) && i <= |steps| && k in tr[i].sessions
    requires var ses := tr[i].sessions[k]; ses.conforming && ses.open && ses.down != [] && ses.down[0].DeltaDown?
    ensures var ses := tr[i].sessions[k];
      Receive(ses.client, ses.down[0]).1 == (if ses.down[0].serverSeq <= INT_MAX then [] else [RequestSnapshot])
  {
    RunInOrder(cfg, tr, steps, i);
    var ses := tr[i].sessions[k];
    assert SessionOk(tr[i].room, k, ses);
  }

  /** So while the room's number fits, no such request is on its way. */
  lemma NoRequests(cfg: Config, tr: seq<System>, steps: seq<Replication.Step>, i: nat, k: nat)
    requires IsRun(cfg, tr, steps) && i <= |steps| && Fits(tr[i].room)
    requires k in tr[i].sessions && tr[i].sessions[k].conforming
    ensures RequestSnapshot !in tr[i].sessions[k].up
  {
    RunInOrder(cfg, tr, steps, i);
    var ses := tr[i].sessions[k];
    assert SessionOk(tr[i].room, k, ses);
    forall x | 0 <= x < |ses.up| ensures ses.up[x] != RequestSnapshot {
      assert Sendable(ses.up[x], true);
    }
  }

  /** Position x of session k's outgoing channel holds a delta from a conforming client. */
  ghost predicate AwaitsRoom(s: System, k: nat, x: nat) {
    && k in s.sessions && s.sessions[k].conforming
    && x < |s.sessions[k].up| && s.sessions[k].up[x].DeltaUp?
  }

  /** Everything a conforming client ever has on its way is acceptable to the server, and the canonical
      decks are the accepted deltas merged in order, counted by the sequence number. */
  lemma RoomIsItsLog(cfg: Config, tr: seq<System>, steps: seq<Replication.Step>, i: nat)
    requires IsRun(cfg, tr, steps) && i <= |steps|
    ensures tr[i].room.serverSeq == |tr[i].accepted|
    ensures forall d :: Canonical(tr[i].room.decks, d) == MergeAll(DEFAULT_DECK, ChangesTo(tr[i].accepted, d))
    ensures forall k: nat, x: nat :: AwaitsRoom(tr[i], k, x) ==> Acceptable(tr[i].sessions[k].up[x].delta.changes)
  {
    RunInOrder(cfg, tr, steps, i);
    forall k: nat, x: nat | AwaitsRoom(tr[i], k, x)
      ensures Acceptable(tr[i].sessions[k].up[x].delta.changes)
    {
      assert SessionOk(tr[i].room, k, tr[i].sessions[k]);
      assert Sendable(tr[i].sessions[k].up[x], Fits(tr[i].room));
    }
  }

  // ---------------------------------------------------------------- the client in control

  function UpChanges(up: seq<Up>, d: DeckId): seq<Changes> {
    if up == [] then []
    else (if up[0].DeltaUp? && up[0].delta.deck == d then [up[0].delta.changes] else []) + UpChanges(up[1..], d)
  }

  lemma {:induction false} UpChangesConcat(xs: seq<Up>, ys: seq<Up>, d: DeckId)
    ensures UpChanges(xs + ys, d) == UpChanges(xs, d) + UpChanges(ys, d)
  {
    if xs == [] {
      assert xs + ys == ys;
    } else {
      assert (xs + ys)[0] == xs[0] && (xs + ys)[1..] == xs[1..] + ys;
      UpChangesConcat(xs[1..], ys, d);
      var head := if xs[0].DeltaUp? && xs[0].delta.deck == d then [xs[0].delta.changes] else [];
      assert head + (UpChanges(xs[1..], d) + UpChanges(ys, d)) == (head + UpChanges(xs[1..], d)) + UpChanges(ys, d);
    }
  }

  lemma {:induction false} FramesCarry(sent: seq<Sent>, d: DeckId)
    ensures UpChanges(Frames(sent), d) == SentOf(sent, d)
  {
    if sent != [] {
      FramesCarry(sent[1..], d);
      assert Frames(sent)[1..] == Frames(sent[1..]);
    }
  }

  /** The client has been told it is in control and the room has not yet sent it word that it no longer is. */
  ghost predicate InControl(ses: Session) {
    && ses.conforming && ses.open && ses.live && ses.id.Some?
    && ses.client.role == Controller
    && forall i :: 0 <= i < |ses.down| ==> ses.down[i] != RoleChanged(ses.id.value, Observer)
  }

  ghost predicate HasControl(s: System, k: nat) { k in s.sessions && InControl(s.sessions[k]) }

  /** Canonical deck + deltas on their way + pending delta = local deck. */
  ghost predicate Carried(room: Room<nat>, ses: Session, d: DeckId) {
    WithPending(MergeAll(Canonical(room.decks, d), UpChanges(ses.up, d)), ses.client.publisher.At(d).pending)
    == ses.client.At(d)
  }

  ghost predicate CarriedIn(s: System, k: nat, d: DeckId) { k in s.sessions && Carried(s.room, s.sessions[k], d) }

  /** Nothing is pending, or nothing that would change the deck. */
  ghost predicate PendingIdle(c: Client, d: DeckId) {
    WithPending(c.At(d), c.publisher.At(d).pending) == c.At(d)
  }

  predicate TouchesDecks(m: Down) {
    m.Welcome? || m.DeltaDown? || m.Snapshot?
  }

  /** A client in control stays so until it is told otherwise, and keeps its id. */
  lemma {:induction false} StaysInControl(v: View, ms: seq<Down>, id: ClientId, tight: bool)
    requires AllExpected(v, ms, tight) && v.connected && v.role == Controller && v.ownId == Some(id)
    requires forall i :: 0 <= i < |ms| ==> ms[i] != RoleChanged(id, Observer)
    ensures ObserveAll(v, ms).role == Controller && ObserveAll(v, ms).ownId == Some(id)
    decreases |ms|
  {
    if ms != [] {
      assert ms[0] != RoleChanged(id, Observer);
      StaysInControl(Observe(v, ms[0]), ms[1..], id, tight);
    }
  }

  /** No welcome or delta can be on its way to a client in control, and no snapshot either while numbers fit. */
  lemma {:induction false} NothingOverwrites(v: View, ms: seq<Down>, id: ClientId, tight: bool)
    requires AllExpected(v, ms, tight) && v.connected && v.role == Controller && v.ownId == Some(id)
    requires forall i :: 0 <= i < |ms| ==> ms[i] != RoleChanged(id, Observer)
    ensures forall i :: 0 <= i < |ms| && TouchesDecks(ms[i]) ==> ms[i].Snapshot? && !tight
    decreases |ms|
  {
    if ms != [] {
      assert ms[0] != RoleChanged(id, Observer);
      NothingOverwrites(Observe(v, ms[0]), ms[1..], id, tight);
    }
  }

  lemma {:induction false} OwnIdKept(v: View, ms: seq<Down>, tight: bool)
    requires AllExpected(v, ms, tight) && v.connected
    ensures ObserveAll(v, ms).ownId == v.ownId
    decreases |ms|
  {
    if ms != [] { OwnIdKept(Observe(v, ms[0]), ms[1..], tight); }
  }

  /** Who the clients believe to be in control is in control; and nothing but a snapshot asked for can be on its way
      to it that touches a deck, and not even that while the sequence number fits. */
  lemma ControlIsReal(cfg: Config, s: System, k: nat)
    requires SystemOk(cfg, s) && k in s.sessions && InControl(s.sessions[k])
    ensures s.room.controllerId == s.sessions[k].id && IsMember(s.room, k, s.sessions[k].id)
    ensures s.sessions[k].client.ownId == s.sessions[k].id && s.sessions[k].client.connected
    ensures forall i :: 0 <= i < |s.sessions[k].down| && TouchesDecks(s.sessions[k].down[i]) ==>
      s.sessions[k].down[i].Snapshot? && !Fits(s.room)
  {
    var ses := s.sessions[k];
    assert SessionOk(s.room, k, ses);
    OwnIdKept(ViewOf(ses.client), ses.down, Fits(s.room));
    StaysInControl(ViewOf(ses.client), ses.down, ses.id.value, Fits(s.room));
    NothingOverwrites(ViewOf(ses.client), ses.down, ses.id.value, Fits(s.room));
  }

  // ---------------------------------------------------------------- how long control lasts

  /** The step ends k's control: the room handles its release, or its connection goes. */
  ghost predicate EndsControl(s: System, step: Replication.Step, k: nat) {
    || (step.ServerTakes? && step.k == k && k in s.sessions
        && s.sessions[k].up != [] && s.sessions[k].up[0] == ReleaseControl)
    || ((step.ClientCloses? || step.Ejected? || step.SocketCloses?) && step.k == k)
  }

  lemma Released(cfg: Config, r: Room<nat>, k: nat, id: Option<ClientId>, draws: seq<ClientId>)
    requires IsMember(r, k, id) && r.controllerId == id
    ensures HandleMessage(cfg, r, k, id, ReleaseControl, draws)
         == Outcome(r.(controllerId := None), id, [], Some(RoleChanged(id.value, Observer)), true, Fine)
    ensures InRoom(r.clients, k)
  {}

  lemma ReleaseStep(cfg: Config, s: System, k: nat, draws: seq<ClientId>, t: System)
    requires Takes(cfg, s, ServerTakes(k, draws), t) && s.sessions[k].up[0] == ReleaseControl
    requires InRoom(s.room.clients, k)
    requires IsMember(s.room, k, s.sessions[k].id) && s.room.controllerId == s.sessions[k].id
    ensures k in t.sessions && t.sessions[k].client == s.sessions[k].client && t.room.decks == s.room.decks
    ensures t.sessions[k].id == s.sessions[k].id && t.room.controllerId.None?
    ensures t.sessions[k].down == s.sessions[k].down + [RoleChanged(s.sessions[k].id.value, Observer)]
  {
    Released(cfg, s.room, k, s.sessions[k].id, draws);
  }

  /** What handling the next message of session j puts on the channel to k. */
  function SentTo(cfg: Config, s: System, j: nat, draws: seq<ClientId>, k: nat): seq<Down>
    requires j in s.sessions && s.sessions[j].up != []
  {
    Delivered(HandleMessage(cfg, s.room, j, s.sessions[j].id, s.sessions[j].up[0], draws), j, k)
  }

  /** A client in control is sent no word of its end but for its release, and a snapshot only if it asked for one. */
  lemma SentInControl(cfg: Config, s: System, j: nat, draws: seq<ClientId>, k: nat)
    requires SystemOk(cfg, s) && Enabled(s, ServerTakes(j, draws)) && HasControl(s, k)
    requires !EndsControl(s, ServerTakes(j, draws), k)
    ensures var frames := SentTo(cfg, s, j, draws, k);
      && (forall i :: 0 <= i < |frames| ==> frames[i] != RoleChanged(s.sessions[k].id.value, Observer))
      && (if j == k && s.sessions[k].up[0] == RequestSnapshot then frames == [Snapshot(s.room.serverSeq, s.room.decks)]
          else forall i :: 0 <= i < |frames| ==> !frames[i].Snapshot?)
    ensures j == k ==> var o := HandleMessage(cfg, s.room, k, s.sessions[k].id, s.sessions[k].up[0], draws);
      o.id == s.sessions[k].id && !o.verdict.Closed?
  {
    var from := s.sessions[j];
    ControlIsReal(cfg, s, k);
    var e := Classify(cfg, s.room, j, from.id, from.up[0], draws);
    OneConnectionEach(cfg, s.room, j, from.id, k, s.sessions[k].id);
    assert !e.Hands?;
  }

  /** An id belongs to one connection. */
  lemma OneConnectionEach(cfg: Config, r: Room<nat>, j: nat, jid: Option<ClientId>, k: nat, kid: Option<ClientId>)
    requires RoomOk(cfg, r)
    ensures IsMember(r, j, jid) && IsMember(r, k, kid) && jid == kid ==> j == k
  {}

  lemma RoomSends(cfg: Config, s: System, j: nat, draws: seq<ClientId>, t: System, k: nat)
    requires SystemOk(cfg, s) && Takes(cfg, s, ServerTakes(j, draws), t) && HasControl(s, k)
    requires !EndsControl(s, ServerTakes(j, draws), k)
    ensures HasControl(t, k) && t.sessions[k].client == s.sessions[k].client
    ensures t.sessions[k].up == if j == k then s.sessions[k].up[1..] else s.sessions[k].up
    ensures t.sessions[k].down == s.sessions[k].down + SentTo(cfg, s, j, draws, k)
  {
    SentInControl(cfg, s, j, draws, k);
    var ses, frames := s.sessions[k], SentTo(cfg, s, j, draws, k);
    assert t.sessions[k].down == ses.down + frames;
  }

  /** The end of control: a release that is handled is announced to the client, a connection that goes is gone. */
  lemma ControlEnds(cfg: Config, s: System, step: Replication.Step, t: System, k: nat)
    requires SystemOk(cfg, s) && Takes(cfg, s, step, t) && HasControl(s, k) && EndsControl(s, step, k)
    ensures !HasControl(t, k)
  {
    if step.ServerTakes? {
      ControlIsReal(cfg, s, k);
      Released(cfg, s.room, k, s.sessions[k].id, step.draws);
      ReleaseStep(cfg, s, k, step.draws, t);
      assert t.sessions[k].down[|s.sessions[k].down|] == RoleChanged(s.sessions[k].id.value, Observer);
    }
  }

  lemma OwnKeepsControl(cfg: Config, s: System, step: Replication.Step, t: System)
    requires SystemOk(cfg, s) && Takes(cfg, s, step, t) && HasControl(s, step.k)
    requires step.Changes? || step.Ticks? || step.Asks? || step.ClientTakes?
    ensures HasControl(t, step.k)
  {
    var ses := s.sessions[step.k];
    assert SessionOk(s.room, step.k, ses);
    ControlIsReal(cfg, s, step.k);
    match step
    case Changes(_, delta, now) => ChangeOk(ses.client, delta, now);
    case Ticks(_, now) => Invariant.TimerOk(ses.client, now);
    case ClientTakes(_) =>
      ReceiveObserves(ses.client, ses.down[0]);
      assert ses.down[0] != RoleChanged(ses.id.value, Observer);
    case _ =>
  }

  /** Control ends in exactly two ways: the room handles the client's own release, or its connection goes. Nobody else's
      claim, delta, snapshot, arrival or departure takes it away. */
  lemma ControlStep(cfg: Config, s: System, step: Replication.Step, t: System, k: nat)
    requires SystemOk(cfg, s) && Takes(cfg, s, step, t) && HasControl(s, k)
    ensures HasControl(t, k) <==> !EndsControl(s, step, k)
  {
    if EndsControl(s, step, k) {
      ControlEnds(cfg, s, step, t, k);
    } else {
      match step
      case ServerTakes(j, draws) => RoomSends(cfg, s, j, draws, t, k);
      case SocketCloses(j) => HearsLeave(cfg, s, j, t, k);
      case _ =>
        if step.k == k && (step.Changes? || step.Ticks? || step.Asks? || step.ClientTakes?) {
          OwnKeepsControl(cfg, s, step, t);
        }
    }
  }

  lemma HearsLeave(cfg: Config, s: System, j: nat, t: System, k: nat)
    requires SystemOk(cfg, s) && Takes(cfg, s, SocketCloses(j), t) && HasControl(s, k) && j != k
    ensures HasControl(t, k)
    ensures t.sessions[k].client == s.sessions[k].client && t.sessions[k].up == s.sessions[k].up
    ensures s.sessions[k].down <= t.sessions[k].down
    ensures forall i :: |s.sessions[k].down| <= i < |t.sessions[k].down| ==> !t.sessions[k].down[i].Snapshot?
  {}

  ghost predicate HeldFrom(tr: seq<System>, k: nat, i: nat, n: nat)
    requires n < |tr|
  {
    forall j :: i <= j <= n ==> HasControl(tr[j], k)
  }

  /** No step from i up to n ends k's control. */
  ghost predicate Kept(tr: seq<System>, steps: seq<Replication.Step>, k: nat, i: nat, n: nat)
    requires |tr| == |steps| + 1 && n <= |steps|
  {
    forall j :: i <= j < n ==> KeptAt(tr, steps, k, j)
  }

  ghost predicate KeptAt(tr: seq<System>, steps: seq<Replication.Step>, k: nat, j: nat)
    requires |tr| == |steps| + 1 && j < |steps|
  {
    !EndsControl(tr[j], steps[j], k)
  }

  /** How long control lasts: on every run, a client in control stays in control for exactly as long as the room
      handles no release of its own and its connection stays. */
  lemma {:induction false} ControlLasts(
    cfg: Config, tr: seq<System>, steps: seq<Replication.Step>, k: nat, i: nat, n: nat)
    requires IsRun(cfg, tr, steps) && i <= n <= |steps| && HasControl(tr[i], k)
    ensures HeldFrom(tr, k, i, n) <==> Kept(tr, steps, k, i, n)
    decreases n - i
  {
    if i < n {
      ControlLasts(cfg, tr, steps, k, i, n - 1);
      HeldOneMore(tr, k, i, n);
      KeptOneMore(tr, steps, k, i, n);
      if HasControl(tr[n - 1], k) { ControlAt(cfg, tr, steps, k, n - 1); }
    }
  }

  lemma ControlAt(cfg: Config, tr: seq<System>, steps: seq<Replication.Step>, k: nat, j: nat)
    requires IsRun(cfg, tr, steps) && j < |steps| && HasControl(tr[j], k)
    ensures HasControl(tr[j + 1], k) <==> KeptAt(tr, steps, k, j)
  {
    AtStep(cfg, tr, steps, j);
    var s, step, t := tr[j], steps[j], tr[j + 1];
    ControlStep(cfg, s, step, t, k);
  }

  lemma HeldOneMore(tr: seq<System>, k: nat, i: nat, n: nat)
    requires i < n < |tr|
    ensures HeldFrom(tr, k, i, n) <==> HeldFrom(tr, k, i, n - 1) && HasControl(tr[n], k)
    ensures HeldFrom(tr, k, i, n - 1) ==> HasControl(tr[n - 1], k)
  {}

  lemma KeptOneMore(tr: seq<System>, steps: seq<Replication.Step>, k: nat, i: nat, n: nat)
    requires |tr| == |steps| + 1 && i < n <= |steps|
    ensures Kept(tr, steps, k, i, n) <==> Kept(tr, steps, k, i, n - 1) && KeptAt(tr, steps, k, n - 1)
  {}

  // ---------------------------------------------------------------- snapshots asked for

  /** No snapshot is on its way to the client, and none that it asked for will be sent before it gives control up. */
  ghost predicate Unrepaired(ses: Session) {
    && (forall i :: 0 <= i < |ses.down| ==> !ses.down[i].Snapshot?)
    && forall i :: 0 <= i < |ses.up| && ses.up[i] == RequestSnapshot ==> ReleaseControl in ses.up[..i]
  }

  lemma {:induction false} FramesAreDeltas(sent: seq<Sent>)
    ensures forall i :: 0 <= i < |Frames(sent)| ==> Frames(sent)[i].DeltaUp?
  {
    if sent != [] { FramesAreDeltas(sent[1..]); }
  }

  /** While the sequence number fits, it is so. */
  lemma FitsIsUnrepaired(cfg: Config, s: System, k: nat)
    requires SystemOk(cfg, s) && HasControl(s, k) && Fits(s.room)
    ensures Unrepaired(s.sessions[k])
  {
    var ses := s.sessions[k];
    ControlIsReal(cfg, s, k);
    assert SessionOk(s.room, k, ses);
    forall i | 0 <= i < |ses.up| ensures ses.up[i] != RequestSnapshot { assert Sendable(ses.up[i], true); }
    forall i | 0 <= i < |ses.down| ensures !ses.down[i].Snapshot? { assert !TouchesDecks(ses.down[i]); }
  }

  /** Sending something that is no request. */
  lemma SendsMore(ses: Session, frames: seq<Up>, after: Session)
    requires Unrepaired(ses) && after.up == ses.up + frames && after.down == ses.down
    requires forall i :: 0 <= i < |frames| ==> frames[i] != RequestSnapshot
    ensures Unrepaired(after)
  {
    forall i | 0 <= i < |after.up| && after.up[i] == RequestSnapshot ensures ReleaseControl in after.up[..i] {
      assert i < |ses.up|;
      assert after.up[..i] == ses.up[..i];
    }
  }

  lemma TakesMore(ses: Session, after: Session)
    requires Unrepaired(ses) && ses.down != [] && after.up == ses.up && after.down == ses.down[1..]
    ensures Unrepaired(after)
  {}

  lemma OwnStaysUnrepaired(cfg: Config, s: System, step: Replication.Step, t: System)
    requires SystemOk(cfg, s) && Takes(cfg, s, step, t) && HasControl(s, step.k) && Unrepaired(s.sessions[step.k])
    requires step.Changes? || step.Ticks? || step.Asks? || step.ClientTakes?
    ensures Unrepaired(t.sessions[step.k])
  {
    var ses, after := s.sessions[step.k], t.sessions[step.k];
    ControlIsReal(cfg, s, step.k);
    match step
    case Changes(_, delta, now) =>
      if !delta.changes.Empty() {
        var d := Delta(delta.deck, Prepared(ses.client.At(delta.deck), delta.changes));
        FramesAreDeltas(OnApplied(ses.client.publisher, d, Local, now).1);
      }
      SendsMore(ses, ChangeLocally(ses.client, delta, now).1, after);
    case Ticks(_, now) =>
      FramesAreDeltas(Drain(ses.client.publisher, now, false).1);
      SendsMore(ses, TimerFires(ses.client, now).1, after);
    case Asks(_, msg) => SendsMore(ses, [msg], after);
    case ClientTakes(_) =>
      assert !ses.down[0].Snapshot?;
      TakeCarries(ses.client, ses.down[0], A);
      assert ses.up + [] == ses.up;
      TakesMore(ses, after);
  }

  /** The room takes the first message; it was neither a release nor, if nothing is to come, a request. */
  lemma ServedMore(ses: Session, after: Session, frames: seq<Down>)
    requires Unrepaired(ses) && ses.up != [] && ses.up[0] != ReleaseControl
    requires after.up == ses.up[1..] && after.down == ses.down + frames
    requires forall i :: 0 <= i < |frames| ==> !frames[i].Snapshot?
    ensures Unrepaired(after)
  {
    forall i | 0 <= i < |after.up| && after.up[i] == RequestSnapshot ensures ReleaseControl in after.up[..i] {
      assert ses.up[i + 1] == RequestSnapshot;
      assert ses.up[..i + 1] == [ses.up[0]] + after.up[..i];
    }
  }

  lemma NoRequestFirst(ses: Session)
    requires Unrepaired(ses) && ses.up != []
    ensures ses.up[0] != RequestSnapshot
  {
    assert ses.up[..0] == [];
  }

  lemma RoomStaysUnrepaired(cfg: Config, s: System, j: nat, draws: seq<ClientId>, t: System, k: nat)
    requires SystemOk(cfg, s) && Takes(cfg, s, ServerTakes(j, draws), t) && HasControl(s, k)
    requires !EndsControl(s, ServerTakes(j, draws), k) && Unrepaired(s.sessions[k])
    ensures k in t.sessions && Unrepaired(t.sessions[k])
  {
    var ses, after := s.sessions[k], t.sessions[k];
    RoomSends(cfg, s, j, draws, t, k);
    SentInControl(cfg, s, j, draws, k);
    if j == k {
      NoRequestFirst(ses);
      ServedMore(ses, after, SentTo(cfg, s, j, draws, k));
    }
  }

  /** As long as control lasts it stays so. */
  lemma StaysUnrepaired(cfg: Config, s: System, step: Replication.Step, t: System, k: nat)
    requires SystemOk(cfg, s) && Takes(cfg, s, step, t) && HasControl(s, k) && HasControl(t, k)
    requires Unrepaired(s.sessions[k])
    ensures Unrepaired(t.sessions[k])
  {
    match step
    case ServerTakes(j, draws) =>
      ControlStep(cfg, s, step, t, k);
      RoomStaysUnrepaired(cfg, s, j, draws, t, k);
    case SocketCloses(j) =>
      ControlStep(cfg, s, step, t, k);
      HearsLeave(cfg, s, j, t, k);
    case _ =>
      if step.k == k && (step.Changes? || step.Ticks? || step.Asks? || step.ClientTakes?) {
        OwnStaysUnrepaired(cfg, s, step, t);
      }
  }

  // ---------------------------------------------------------------- every step carries

  /** A forwarded local change moves both sides of the equation alike. */
  lemma ChangeCarries(m: Deck, c: Client, delta: Delta, now: real, d: DeckId)
    requires c.publisher.connected && c.publisher.role == Controller
    requires WithPending(m, c.publisher.At(d).pending) == c.At(d)
    ensures var (c', frames) := ChangeLocally(c, delta, now);
      WithPending(MergeAll(m, UpChanges(frames, d)), c'.publisher.At(d).pending) == c'.At(d)
  {
    if !delta.changes.Empty() {
      var applied := Delta(delta.deck, Prepared(c.At(delta.deck), delta.changes));
      HandleMeaning(c.publisher, applied, now, d, m);
      FramesCarry(HandleLocalDelta(c.publisher, applied, now).1, d);
    }
  }

  lemma TimerCarries(m: Deck, c: Client, now: real, d: DeckId)
    requires WithPending(m, c.publisher.At(d).pending) == c.At(d)
    ensures var (c', frames) := TimerFires(c, now);
      WithPending(MergeAll(m, UpChanges(frames, d)), c'.publisher.At(d).pending) == c'.At(d)
  {
    DrainMeaning(c.publisher, now, false, d, m);
    FramesCarry(Drain(c.publisher, now, false).1, d);
  }

  lemma UpCarries(canon: Deck, up: seq<Up>, frames: seq<Up>, d: DeckId)
    ensures MergeAll(canon, UpChanges(up + frames, d))
         == MergeAll(MergeAll(canon, UpChanges(up, d)), UpChanges(frames, d))
  {
    UpChangesConcat(up, frames, d);
    MergeAllConcat(canon, UpChanges(up, d), UpChanges(frames, d));
  }

  lemma ClientStepCarries(room: Room<nat>, ses: Session, o: (Client, seq<Up>), d: DeckId)
    requires var m := MergeAll(Canonical(room.decks, d), UpChanges(ses.up, d));
      WithPending(MergeAll(m, UpChanges(o.1, d)), o.0.publisher.At(d).pending) == o.0.At(d)
    ensures Carried(room, ClientSteps(ses, o), d)
  {
    UpCarries(Canonical(room.decks, d), ses.up, o.1, d);
  }

  /** A frame that touches no deck, taken by a client already in control, changes nothing here. */
  lemma TakeCarries(c: Client, m: Down, d: DeckId)
    requires !TouchesDecks(m) && c.role == Controller
    ensures Receive(c, m).0.At(d) == c.At(d) && Receive(c, m).1 == []
    ensures Receive(c, m).0.publisher.At(d) == c.publisher.At(d)
  {}

  lemma OwnStepCarries(cfg: Config, s: System, step: Replication.Step, d: DeckId)
    requires SystemOk(cfg, s) && Enabled(s, step)
    requires step.Changes? || step.Ticks? || step.Asks? || step.ClientTakes?
    requires InControl(s.sessions[step.k]) && Unrepaired(s.sessions[step.k]) && Carried(s.room, s.sessions[step.k], d)
    ensures Carried(s.room, Next(cfg, s, step).sessions[step.k], d)
  {
    var ses := s.sessions[step.k];
    ControlIsReal(cfg, s, step.k);
    assert SessionOk(s.room, step.k, ses);
    match step
    case Changes(_, delta, now) => ChangesCarry(s.room, ses, delta, now, d);
    case Ticks(_, now) => TicksCarry(s.room, ses, now, d);
    case Asks(_, msg) => ClientStepCarries(s.room, ses, (ses.client, [msg]), d);
    case ClientTakes(_) => TakesCarry(s.room, ses, d);
  }

  lemma ChangesCarry(room: Room<nat>, ses: Session, delta: Delta, now: real, d: DeckId)
    requires ses.client.publisher.connected && ses.client.publisher.role == Controller && Carried(room, ses, d)
    ensures Carried(room, ClientSteps(ses, ChangeLocally(ses.client, delta, now)), d)
  {
    ChangeCarries(MergeAll(Canonical(room.decks, d), UpChanges(ses.up, d)), ses.client, delta, now, d);
    ClientStepCarries(room, ses, ChangeLocally(ses.client, delta, now), d);
  }

  lemma TicksCarry(room: Room<nat>, ses: Session, now: real, d: DeckId)
    requires Carried(room, ses, d)
    ensures Carried(room, ClientSteps(ses, TimerFires(ses.client, now)), d)
  {
    TimerCarries(MergeAll(Canonical(room.decks, d), UpChanges(ses.up, d)), ses.client, now, d);
    ClientStepCarries(room, ses, TimerFires(ses.client, now), d);
  }

  lemma TakesCarry(room: Room<nat>, ses: Session, d: DeckId)
    requires ses.down != [] && !TouchesDecks(ses.down[0]) && ses.client.role == Controller && Carried(room, ses, d)
    ensures Carried(room, ClientSteps(ses, Receive(ses.client, ses.down[0])).(down := ses.down[1..]), d)
  {
    TakeCarries(ses.client, ses.down[0], d);
    ClientStepCarries(room, ses, Receive(ses.client, ses.down[0]), d);
  }

  lemma UpHead(canon: Deck, up: seq<Up>, d: DeckId)
    requires up != []
    ensures MergeAll(canon, UpChanges(up, d))
         == if up[0].DeltaUp? && up[0].delta.deck == d
            then MergeAll(Merge(canon, up[0].delta.changes), UpChanges(up[1..], d))
            else MergeAll(canon, UpChanges(up[1..], d))
  {
    var rest := UpChanges(up[1..], d);
    if up[0].DeltaUp? && up[0].delta.deck == d {
      assert UpChanges(up, d)[1..] == rest;
    } else {
      assert [] + rest == rest;
    }
  }

  /** The room applies what the client in control sends, in order. */
  lemma RoomStepCarries(cfg: Config, s: System, j: nat, draws: seq<ClientId>, k: nat, d: DeckId)
    requires SystemOk(cfg, s) && Enabled(s, ServerTakes(j, draws)) && k in s.sessions
    requires InControl(s.sessions[k]) && Carried(s.room, s.sessions[k], d)
    ensures var t := Next(cfg, s, ServerTakes(j, draws)); Carried(t.room, t.sessions[k], d)
  {
    var from := s.sessions[j];
    ControlIsReal(cfg, s, k);
    var e := Classify(cfg, s.room, j, from.id, from.up[0], draws);
    if j == k {
      assert SessionOk(s.room, k, from);
      assert Sendable(from.up[0], Fits(s.room));
      UpHead(Canonical(s.room.decks, d), from.up, d);
    } else if e.Applies? {
      OtherMember(cfg, s.room, j, from.id, k, s.sessions[k].id);
    }
  }

  /** One step, whoever takes it. */
  lemma StepCarries(cfg: Config, s: System, step: Replication.Step, t: System, k: nat, d: DeckId)
    requires SystemOk(cfg, s) && Takes(cfg, s, step, t)
    requires HasControl(s, k) && Unrepaired(s.sessions[k]) && Carried(s.room, s.sessions[k], d) && HasControl(t, k)
    ensures Carried(t.room, t.sessions[k], d)
  {
    match step
    case ServerTakes(j, draws) => RoomStepCarries(cfg, s, j, draws, k, d);
    case SocketCloses(_) => AsideCarries(cfg, s, step, t, k, d);
    case _ =>
      if step.k == k && (step.Changes? || step.Ticks? || step.Asks? || step.ClientTakes?) {
        OwnStepCarries(cfg, s, step, d);
      } else {
        AsideCarries(cfg, s, step, t, k, d);
      }
  }

  /** A step of another client, or of none that is in control, leaves all three parts alone. */
  lemma AsideCarries(cfg: Config, s: System, step: Replication.Step, t: System, k: nat, d: DeckId)
    requires Takes(cfg, s, step, t) && !step.ServerTakes?
    requires !(step.Changes? || step.Ticks? || step.Asks? || step.ClientTakes?) || step.k != k
    requires HasControl(s, k) && Carried(s.room, s.sessions[k], d) && HasControl(t, k)
    ensures Carried(t.room, t.sessions[k], d)
  {}

  lemma ResyncChanges(c: Client, d: DeckId)
    ensures UpChanges(Resync(c), d) == [FullResync(c.At(d))]
  {
    var x, y := DeltaUp(Delta(A, FullResync(c.a))), DeltaUp(Delta(B, FullResync(c.b)));
    UpChangesConcat([x], [y], d);
    assert Resync(c) == [x] + [y];
  }

  /** The next frame tells an observing client that it now has control. */
  ghost predicate LearnsOfControl(ses: Session) {
    && ses.client.role == Observer && ses.client.ownId.Some? && ses.down != []
    && ses.down[0] == RoleChanged(ses.client.ownId.value, Controller)
  }

  /** Taking control: the full resync settles the equation at once, whatever was true before, exactly when
      nothing that would change the deck is still pending from earlier. */
  lemma TakingControl(cfg: Config, s: System, t: System, k: nat, d: DeckId)
    requires Takes(cfg, s, ClientTakes(k), t) && LearnsOfControl(s.sessions[k])
    ensures
      && k in t.sessions && t.sessions[k].client.role == Controller
      && (Carried(t.room, t.sessions[k], d) <==> PendingIdle(s.sessions[k].client, d))
  {
    var ses := s.sessions[k];
    var frames := Resync(ses.client);
    var canon := Canonical(s.room.decks, d);
    UpCarries(canon, ses.up, frames, d);
    ResyncChanges(ses.client, d);
    MergeAllOne(MergeAll(canon, UpChanges(ses.up, d)), FullResync(ses.client.At(d)));
    ResyncExact(ses.client.At(d), MergeAll(canon, UpChanges(ses.up, d)));
  }

  /** On every run the equation lasts as long as control does, unless a snapshot comes. */
  lemma {:induction false} ControlCarries(
    cfg: Config, tr: seq<System>, steps: seq<Replication.Step>, k: nat, i: nat, n: nat, d: DeckId)
    requires IsRun(cfg, tr, steps) && i <= n <= |steps| && Kept(tr, steps, k, i, n)
    requires HasControl(tr[i], k) && Unrepaired(tr[i].sessions[k]) && CarriedIn(tr[i], k, d)
    ensures HasControl(tr[n], k) && Unrepaired(tr[n].sessions[k]) && CarriedIn(tr[n], k, d)
    decreases n - i
  {
    if i < n {
      AtStep(cfg, tr, steps, i);
      var s, step, t := tr[i], steps[i], tr[i + 1];
      assert KeptAt(tr, steps, k, i);
      ControlStep(cfg, s, step, t, k);
      StepCarries(cfg, s, step, t, k, d);
      StaysUnrepaired(cfg, s, step, t, k);
      ControlCarries(cfg, tr, steps, k, i + 1, n, d);
    }
  }

  /** Controller agreement: on every run, from the moment a client is told it has control until the room handles its
      release or its connection goes, canonical decks + its deltas on their way + its pending delta = its local
      decks, if nothing stale was pending at that moment and no snapshot was asked for or on its way; and if something
      was pending, not even then. */
  lemma ControllerAgreement(
    cfg: Config, tr: seq<System>, steps: seq<Replication.Step>, k: nat, i: nat, n: nat, d: DeckId)
    requires IsRun(cfg, tr, steps) && i < n <= |steps|
    requires steps[i] == ClientTakes(k) && k in tr[i].sessions && LearnsOfControl(tr[i].sessions[k])
    requires HasControl(tr[i + 1], k) && Unrepaired(tr[i + 1].sessions[k]) && Kept(tr, steps, k, i + 1, n)
    ensures HasControl(tr[n], k)
    ensures PendingIdle(tr[i].sessions[k].client, d) ==> CarriedIn(tr[n], k, d)
    ensures !PendingIdle(tr[i].sessions[k].client, d) ==> !CarriedIn(tr[i + 1], k, d)
  {
    assert TakenAt(cfg, tr, steps, i);
    TakingControl(cfg, tr[i], tr[i + 1], k, d);
    ControlLasts(cfg, tr, steps, k, i + 1, n);
    if PendingIdle(tr[i].sessions[k].client, d) { ControlCarries(cfg, tr, steps, k, i + 1, n, d); }
  }
}
