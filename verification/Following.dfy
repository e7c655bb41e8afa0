/** Every client that follows agrees with the room up to what is still on its way to it; control passes
    between clients without breaking that; and once the channels are empty all decks are equal. */
module Following {
  import opened Playback
  import opened Messages
  import opened Publishing
  import opened Rooms
  import opened Clients
  import opened Replication
  import opened Invariant
  import opened Agreement

  // ---------------------------------------------------------------- what the frames on their way do to a deck

  function SnapshotDeck(s: Deck, decks: map<DeckId, Deck>, d: DeckId): Deck {
    if d in decks && ParsesDeck(decks[d]) then ClampDeck(decks[d]) else s
  }

  /** The effect of one frame on a client's deck d. */
  function DeckAfter(s: Deck, m: Down, d: DeckId): Deck {
    match m
    case Welcome(_, _, _, decks, _) => SnapshotDeck(s, decks, d)
    case Snapshot(_, decks) => SnapshotDeck(s, decks, d)
    case DeltaDown(_, _, delta) =>
      if delta.deck == d && ParsesChanges(delta.changes)
      then ApplyDelta(s, ClampChanges(delta.changes), Remote).0 else s
    case _ => s
  }

  function DeckAfterAll(s: Deck, ms: seq<Down>, d: DeckId): Deck
    decreases |ms|
  {
    if ms == [] then s else DeckAfterAll(DeckAfter(s, ms[0], d), ms[1..], d)
  }

  /** Clamping twice is clamping once, so a snapshot's deck arrives as the clamped deck. */
  lemma SnapshotArrives(s: Deck, t: Deck)
    ensures ApplyDelta(t, FullResync(ClampDeck(s)), Remote).0 == ClampDeck(s)
  {}

  lemma ApplySnapshotDeck(c: Client, decks: map<DeckId, Deck>, d: DeckId)
    ensures ApplySnapshot(c, decks).At(d) == SnapshotDeck(c.At(d), decks, d)
  {
    if d in decks { SnapshotArrives(decks[d], c.At(d)); }
  }

  /** What the handlers do to a deck is what the frame says. */
  lemma ReceiveDeck(c: Client, m: Down, d: DeckId)
    ensures Receive(c, m).0.At(d) == DeckAfter(c.At(d), m, d)
  {
    match m
    case Welcome(id, _, serverSeq, decks, _) =>
      var c1 := c.(lastSeen := Noted(c.lastSeen, serverSeq), connected := true,
                   publisher := c.publisher.(connected := true), ownId := Some(id));
      ApplySnapshotDeck(c1, decks, d);
    case Snapshot(serverSeq, decks) =>
      ApplySnapshotDeck(c.(lastSeen := Noted(c.lastSeen, serverSeq)), decks, d);
    case _ =>
  }

  lemma {:induction false} DeckAfterMore(s: Deck, xs: seq<Down>, ys: seq<Down>, d: DeckId)
    ensures DeckAfterAll(s, xs + ys, d) == DeckAfterAll(DeckAfterAll(s, xs, d), ys, d)
    decreases |xs|
  {
    if xs == [] {
      assert xs + ys == ys;
    } else {
      assert (xs + ys)[0] == xs[0] && (xs + ys)[1..] == xs[1..] + ys;
      DeckAfterMore(DeckAfter(s, xs[0], d), xs[1..], ys, d);
    }
  }

  lemma DeckAfterOne(s: Deck, m: Down, d: DeckId)
    ensures DeckAfterAll(s, [m], d) == DeckAfter(s, m, d)
  {
    assert [m][1..] == [];
  }

  /** The frame determines deck d on its own. */
  ghost predicate Covers(m: Down, d: DeckId) {
    match m
    case Welcome(_, _, _, decks, _) => d in decks && ParsesDeck(decks[d])
    case Snapshot(_, decks) => d in decks && ParsesDeck(decks[d])
    case DeltaDown(_, _, delta) => delta.deck == d && ParsesChanges(delta.changes) && delta.changes.Full()
    case _ => false
  }

  ghost predicate SomeCovers(ms: seq<Down>, d: DeckId) {
    exists i :: 0 <= i < |ms| && Covers(ms[i], d)
  }

  /** Behind a covering frame, what the client does to the deck meanwhile is forgotten. */
  lemma {:induction false} CoveredForgets(s: Deck, t: Deck, ms: seq<Down>, d: DeckId)
    requires SomeCovers(ms, d)
    ensures DeckAfterAll(s, ms, d) == DeckAfterAll(t, ms, d)
    decreases |ms|
  {
    if !Covers(ms[0], d) {
      var i :| 0 <= i < |ms| && Covers(ms[i], d);
      assert ms[1..][i - 1] == ms[i];
      CoveredForgets(DeckAfter(s, ms[0], d), DeckAfter(t, ms[0], d), ms[1..], d);
    }
  }

  // ---------------------------------------------------------------- following

  /** Once the client has taken what is on its way, its deck d is the room's. */
  ghost predicate Follows(s: System, k: nat, d: DeckId) {
    && k in s.sessions
    && DeckAfterAll(s.sessions[k].client.At(d), s.sessions[k].down, d) == Canonical(s.room.decks, d)
  }

  /** The step is not k's own doing: it neither changes deck d locally (unless a frame on its way will
      overwrite that anyway) nor is it the room applying k's own delta for d. */
  ghost predicate NotOwnDoing(s: System, step: Replication.Step, k: nat, d: DeckId) {
    && (step.Changes? && step.k == k && step.delta.deck == d ==>
          step.delta.changes.Empty() || (k in s.sessions && SomeCovers(s.sessions[k].down, d)))
    && (step.ServerTakes? && step.k == k ==>
          k in s.sessions && (s.room.controllerId == s.sessions[k].id && s.sessions[k].up != [] ==>
            !(s.sessions[k].up[0].DeltaUp? && s.sessions[k].up[0].delta.deck == d)))
  }

  /** One broadcast reaches a follower. */
  lemma FollowsBroadcast(s: System, t: System, j: nat, e: Effect<nat>, bcast: Option<Down>, k: nat, d: DeckId)
    requires Follows(s, k, d) && k in t.sessions && j in s.sessions
    requires Causes(s.room, j, s.sessions[j].id, e, t.room, bcast)
    requires t.sessions[k].client == s.sessions[k].client
    requires t.sessions[k].down == s.sessions[k].down + if bcast.Some? then [bcast.value] else []
    ensures Follows(t, k, d)
  {
    var ses := s.sessions[k];
    if bcast.Some? {
      DeckAfterMore(ses.client.At(d), ses.down, [bcast.value], d);
      DeckAfterOne(Canonical(s.room.decks, d), bcast.value, d);
      if e.Applies? { AcceptableIsClean(Canonical(s.room.decks, d), e.delta.changes); }
    } else {
      assert ses.down + [] == ses.down;
    }
  }

  /** A follower's own frames: refusals and their repair snapshots. */
  lemma FollowsOwn(cfg: Config, s: System, t: System, e: Effect<nat>, o: Outcome<nat>, k: nat, d: DeckId)
    requires SystemOk(cfg, s) && Present(s, k) && Follows(s, k, d) && k in t.sessions
    requires s.sessions[k].up != [] && t.room == o.room
    requires Causes(s.room, k, s.sessions[k].id, e, o.room, o.bcast)
    requires Answers(s.room, k, s.sessions[k].id, e, s.sessions[k].up[0], o)
    requires e.Applies? ==> e.delta.deck != d
    requires !e.Joins?
    requires t.sessions[k].client == s.sessions[k].client
    requires t.sessions[k].down == s.sessions[k].down + Delivered(o, k, k)
    ensures Follows(t, k, d)
  {
    var ses := s.sessions[k];
    var canon := Canonical(s.room.decks, d);
    DeckAfterMore(ses.client.At(d), ses.down, Delivered(o, k, k), d);
    match e
    case Hands(_) =>
      assert Delivered(o, k, k) == [o.bcast.value];
      DeckAfterOne(canon, o.bcast.value, d);
    case Applies(_) =>
    case Nothing => ReplyKeeps(s.room, k, ses.id, ses.up[0], o, d);
  }

  /** A refusal, or a snapshot asked for, leaves a deck that is the room's as it is. */
  lemma ReplyKeeps(room: Room<nat>, k: nat, id: Option<ClientId>, msg: Up, o: Outcome<nat>, d: DeckId)
    requires Answers(room, k, id, Nothing, msg, o) && id.Some? && DecksOk(room.decks)
    ensures DeckAfterAll(Canonical(room.decks, d), o.reply, d) == Canonical(room.decks, d)
  {
    var canon := Canonical(room.decks, d);
    if d in room.decks { ResyncExact(room.decks[d], canon); }
    if |o.reply| == 2 {
      assert o.reply == [o.reply[0]] + [o.reply[1]];
      DeckAfterMore(canon, [o.reply[0]], [o.reply[1]], d);
      DeckAfterOne(canon, o.reply[0], d);
      DeckAfterOne(canon, o.reply[1], d);
    } else {
      assert o.reply == [o.reply[0]];
      DeckAfterOne(canon, o.reply[0], d);
    }
  }

  lemma FollowsServer(cfg: Config, s: System, j: nat, draws: seq<ClientId>, t: System, k: nat, d: DeckId)
    requires SystemOk(cfg, s) && Takes(cfg, s, ServerTakes(j, draws), t)
    requires Present(s, k) && Follows(s, k, d) && NotOwnDoing(s, ServerTakes(j, draws), k, d)
    ensures Follows(t, k, d)
  {
    var from := s.sessions[j];
    assert SessionOk(s.room, k, s.sessions[k]);
    MessageKeepsRoom(cfg, s.room, j, from.id, from.up[0], draws);
    var e := Classify(cfg, s.room, j, from.id, from.up[0], draws);
    var o := HandleMessage(cfg, s.room, j, from.id, from.up[0], draws);
    if j == k {
      FollowsOwn(cfg, s, t, e, o, k, d);
    } else {
      StaysIn(cfg, s, j, e, o, k);
      FollowsBroadcast(s, t, j, e, o.bcast, k, d);
    }
  }

  /** A member stays a member when someone else's frame is handled, so the broadcast reaches it. */
  lemma StaysIn(cfg: Config, s: System, j: nat, e: Effect<nat>, o: Outcome<nat>, k: nat)
    requires Present(s, k) && IsMember(s.room, k, s.sessions[k].id) && j in s.sessions && j != k
    requires Causes(s.room, j, s.sessions[j].id, e, o.room, o.bcast)
    ensures InRoom(o.room.clients, k)
    ensures Delivered(o, j, k) == if o.bcast.Some? then [o.bcast.value] else []
  {
    var i := IndexOf(s.room.clients, s.sessions[k].id.value);
    assert o.room.clients[i] == s.room.clients[i];
  }

  lemma FollowsLeave(cfg: Config, s: System, j: nat, t: System, k: nat, d: DeckId)
    requires SystemOk(cfg, s) && Takes(cfg, s, SocketCloses(j), t)
    requires Follows(s, k, d)
    ensures Follows(t, k, d)
  {
    var ses := s.sessions[k];
    var frames := Gone(t.room, HandleDisconnect(s.room, j, s.sessions[j].id).1, k);
    assert ses.down + [] == ses.down;
    if j != k && ses.live && frames != [] {
      DeckAfterMore(ses.client.At(d), ses.down, frames, d);
      assert frames == [frames[0]];
      DeckAfterOne(Canonical(s.room.decks, d), frames[0], d);
    }
  }

  lemma FollowsClient(s: System, cfg: Config, step: Replication.Step, t: System, k: nat, d: DeckId)
    requires Takes(cfg, s, step, t) && step.k == k && Follows(s, k, d) && NotOwnDoing(s, step, k, d)
    requires step.Changes? || step.Ticks? || step.Asks? || step.ClientTakes?
    ensures Follows(t, k, d)
  {
    var ses := s.sessions[k];
    match step
    case Changes(_, delta, now) =>
      var c' := ChangeLocally(ses.client, delta, now).0;
      if delta.deck == d && !delta.changes.Empty() {
        CoveredForgets(ses.client.At(d), c'.At(d), ses.down, d);
      }
    case ClientTakes(_) => ReceiveDeck(ses.client, ses.down[0], d);
    case _ =>
  }

  /** A follower keeps following through every step that is not its own doing. */
  lemma StepFollows(cfg: Config, s: System, step: Replication.Step, t: System, k: nat, d: DeckId)
    requires SystemOk(cfg, s) && Takes(cfg, s, step, t)
    requires Present(s, k) && Follows(s, k, d) && NotOwnDoing(s, step, k, d)
    ensures Follows(t, k, d)
  {
    match step
    case ServerTakes(j, draws) => FollowsServer(cfg, s, j, draws, t, k, d);
    case SocketCloses(j) => FollowsLeave(cfg, s, j, t, k, d);
    case Connects(_, _, _) =>
    case Intrudes(_) =>
    case ClientCloses(_) =>
    case Ejected(_) =>
    case _ =>
      if step.k == k { FollowsClient(s, cfg, step, t, k, d); }
  }

  /** From step i up to step n, k is present and none of the steps is its own doing. */
  ghost predicate Undisturbed(tr: seq<System>, steps: seq<Replication.Step>, k: nat, i: nat, n: nat, d: DeckId)
    requires |tr| == |steps| + 1 && n <= |steps|
  {
    forall j :: i <= j < n ==> UndisturbedAt(tr, steps, k, j, d)
  }

  ghost predicate UndisturbedAt(tr: seq<System>, steps: seq<Replication.Step>, k: nat, j: nat, d: DeckId)
    requires |tr| == |steps| + 1 && j < |steps|
  {
    Present(tr[j], k) && NotOwnDoing(tr[j], steps[j], k, d)
  }

  /** Observer agreement: on every run, a client that follows at some moment still follows after any number
      of steps of the whole system, none of them its own doing. */
  lemma {:induction false} ObserverAgreement(
    cfg: Config, tr: seq<System>, steps: seq<Replication.Step>, k: nat, i: nat, n: nat, d: DeckId)
    requires IsRun(cfg, tr, steps) && i <= n <= |steps|
    requires Undisturbed(tr, steps, k, i, n, d)
    requires Follows(tr[i], k, d)
    ensures Follows(tr[n], k, d)
    decreases n - i
  {
    if i < n {
      assert UndisturbedAt(tr, steps, k, i, d);
      FollowsAt(cfg, tr, steps, k, i, d);
      ObserverAgreement(cfg, tr, steps, k, i + 1, n, d);
    }
  }

  lemma FollowsAt(cfg: Config, tr: seq<System>, steps: seq<Replication.Step>, k: nat, i: nat, d: DeckId)
    requires IsRun(cfg, tr, steps) && i < |steps| && UndisturbedAt(tr, steps, k, i, d) && Follows(tr[i], k, d)
    ensures Follows(tr[i + 1], k, d)
  {
    AtStep(cfg, tr, steps, i);
    var s, step, t := tr[i], steps[i], tr[i + 1];
    StepFollows(cfg, s, step, t, k, d);
  }

  // ---------------------------------------------------------------- how following starts

  /** A covering frame carries the deck the room has once it has sent it. */
  lemma CoverIsCurrent(
    room: Room<nat>, j: nat, jid: Option<ClientId>, e: Effect<nat>, msg: Up, o: Outcome<nat>, m: Down, s: Deck, d: DeckId)
    requires DecksOk(room.decks) && Causes(room, j, jid, e, o.room, o.bcast)
    requires m.Snapshot? || m.Welcome? ==> m.decks == room.decks && room.decks == o.room.decks
    requires m.DeltaDown? ==> o.bcast == Some(m)
    requires Covers(m, d)
    ensures DeckAfter(s, m, d) == Canonical(o.room.decks, d)
  {
    if m.DeltaDown? {
      AcceptableIsClean(s, m.delta.changes);
    } else {
      ResyncExact(room.decks[d], s);
    }
  }

  /** The frames one handled message puts on a channel, and the decks they carry. */
  lemma FramesCurrent(cfg: Config, room: Room<nat>, j: nat, jid: Option<ClientId>, msg: Up, draws: seq<ClientId>, k: nat)
    returns (e: Effect<nat>)
    ensures var o := HandleMessage(cfg, room, j, jid, msg, draws);
      && Causes(room, j, jid, e, o.room, o.bcast)
      && forall m :: m in Delivered(o, j, k) ==>
           && (m.Snapshot? || m.Welcome? ==> m.decks == room.decks && room.decks == o.room.decks)
           && (m.DeltaDown? ==> o.bcast == Some(m))
  {
    e := Classify(cfg, room, j, jid, msg, draws);
  }

  /** Whatever the client did before, it follows from the moment the room sends it a frame that covers the
      deck: a snapshot that has it, or another client's full resync of it. */
  lemma CoverStartsFollowing(cfg: Config, s: System, j: nat, draws: seq<ClientId>, t: System, k: nat, d: DeckId)
    requires SystemOk(cfg, s) && Takes(cfg, s, ServerTakes(j, draws), t) && k in s.sessions
    requires t.sessions[k].down != s.sessions[k].down && Covers(t.sessions[k].down[|t.sessions[k].down| - 1], d)
    ensures Follows(t, k, d)
  {
    var from := s.sessions[j];
    var ses := s.sessions[k];
    var e := FramesCurrent(cfg, s.room, j, from.id, from.up[0], draws, k);
    var o := HandleMessage(cfg, s.room, j, from.id, from.up[0], draws);
    var frames := Delivered(o, j, k);
    AppendedLast(ses.down, frames, t.sessions[k].down);
    var last := frames[|frames| - 1];
    var front := ses.down + frames[..|frames| - 1];
    var was := DeckAfterAll(ses.client.At(d), front, d);
    DeckAfterMore(ses.client.At(d), front, [last], d);
    DeckAfterOne(was, last, d);
    assert last in frames;
    CoverIsCurrent(s.room, j, from.id, e, from.up[0], o, last, was, d);
  }

  lemma AppendedLast<T>(down: seq<T>, frames: seq<T>, after: seq<T>)
    requires after == down || after == down + frames
    requires after != down
    ensures frames != [] && after == (down + frames[..|frames| - 1]) + [frames[|frames| - 1]]
  {
    assert down + [] == down;
  }

  /** The room answers with its state: a welcome, or a snapshot asked for or sent to repair. */
  ghost predicate SendsState(s: System, step: Replication.Step, t: System, k: nat) {
    && step.ServerTakes? && k in s.sessions && k in t.sessions && t.sessions[k].down != s.sessions[k].down
    && t.sessions[k].down != []
    && var last := t.sessions[k].down[|t.sessions[k].down| - 1]; last.Welcome? || last.Snapshot?
  }

  /** A client that is sent the room's state follows a deck from then on exactly if the room has touched that deck or
      the client's own, after the frames already on their way to it, is at its defaults: neither a welcome nor a
      snapshot replaces decks it does not mention. */
  lemma StateFollows(cfg: Config, s: System, step: Replication.Step, t: System, k: nat, d: DeckId)
    requires SystemOk(cfg, s) && Takes(cfg, s, step, t) && SendsState(s, step, t, k)
    ensures Follows(t, k, d) <==>
      d in t.room.decks || DeckAfterAll(s.sessions[k].client.At(d), s.sessions[k].down, d) == DEFAULT_DECK
  {
    var j, draws := step.k, step.draws;
    var from, ses := s.sessions[j], s.sessions[k];
    var o := HandleMessage(cfg, s.room, j, from.id, from.up[0], draws);
    var frames := Delivered(o, j, k);
    AppendedLast(ses.down, frames, t.sessions[k].down);
    StateFrames(cfg, s.room, j, from.id, from.up[0], draws, k);
    var last := frames[|frames| - 1];
    var was := DeckAfterAll(ses.client.At(d), ses.down, d);
    DeckAfterMore(ses.client.At(d), ses.down, frames, d);
    assert ses.down + frames == (ses.down + frames[..|frames| - 1]) + [last];
    StateDeck(s.room, frames, was, d);
  }

  /** The frames that carry the room's state: alone, or behind a refusal. */
  ghost predicate IsState(room: Room<nat>, frames: seq<Down>) {
    exists m :: StateFrame(room, m) && (frames == [m] || exists code :: frames == [ErrorDown(code), m])
  }

  ghost predicate StateFrame(room: Room<nat>, m: Down) {
    (m.Welcome? || m.Snapshot?) && m.decks == room.decks
  }

  lemma StateFrames(cfg: Config, room: Room<nat>, j: nat, jid: Option<ClientId>, msg: Up, draws: seq<ClientId>, k: nat)
    requires var o := HandleMessage(cfg, room, j, jid, msg, draws);
      var frames := Delivered(o, j, k);
      frames != [] && (frames[|frames| - 1].Welcome? || frames[|frames| - 1].Snapshot?)
    ensures var o := HandleMessage(cfg, room, j, jid, msg, draws);
      IsState(room, Delivered(o, j, k)) && o.room.decks == room.decks
  {
    var o := HandleMessage(cfg, room, j, jid, msg, draws);
    var e := Classify(cfg, room, j, jid, msg, draws);
    var frames := Delivered(o, j, k);
    assert e.Joins? || e.Nothing?;
    if e.Joins? && j == k { assert o.reply == frames; }
    assert StateFrame(room, frames[|frames| - 1]);
  }

  lemma StateDeck(room: Room<nat>, frames: seq<Down>, was: Deck, d: DeckId)
    requires DecksOk(room.decks) && IsState(room, frames)
    ensures DeckAfterAll(was, frames, d) == if d in room.decks then room.decks[d] else was
  {
    var m :| StateFrame(room, m) && (frames == [m] || exists code :: frames == [ErrorDown(code), m]);
    DeckAfterOne(was, m, d);
    assert frames != [m] ==> frames[1..] == [m] && DeckAfter(was, frames[0], d) == was;
    if d in room.decks { ResyncExact(room.decks[d], was); }
  }

  /** In particular a newcomer, to whom nothing was on its way before. */
  lemma JoiningFollows(cfg: Config, s: System, k: nat, draws: seq<ClientId>, t: System, d: DeckId)
    requires SystemOk(cfg, s) && Takes(cfg, s, ServerTakes(k, draws), t)
    requires s.sessions[k].conforming && s.sessions[k].open && s.sessions[k].id.None? && t.sessions[k].id.Some?
    ensures SendsState(s, ServerTakes(k, draws), t, k)
    ensures Follows(t, k, d) <==> d in t.room.decks || s.sessions[k].client.At(d) == DEFAULT_DECK
  {
    var ses := s.sessions[k];
    assert SessionOk(s.room, k, ses);
    var e := Classify(cfg, s.room, k, None, ses.up[0], draws);
    var o := HandleMessage(cfg, s.room, k, None, ses.up[0], draws);
    assert ses.down == [] && t.sessions[k].down == [o.reply[0]];
    StateFollows(cfg, s, ServerTakes(k, draws), t, k, d);
  }

  // ---------------------------------------------------------------- hand-over and convergence

  lemma {:induction false} NoFrames(s: Deck, ms: seq<Down>, d: DeckId)
    requires forall i :: 0 <= i < |ms| ==> !TouchesDecks(ms[i])
    ensures DeckAfterAll(s, ms, d) == s
    decreases |ms|
  {
    if ms != [] {
      assert !TouchesDecks(ms[0]);
      NoFrames(s, ms[1..], d);
    }
  }

  /** Hand-over: when the room handles a release, the client that was in control becomes a follower at that moment,
      exactly if what it sent after the release, which will be refused, and what is still pending would not change the
      deck. */
  lemma HandOver(cfg: Config, s: System, k: nat, draws: seq<ClientId>, t: System, d: DeckId)
    requires SystemOk(cfg, s) && Takes(cfg, s, ServerTakes(k, draws), t) && Unrepaired(s.sessions[k])
    requires HasControl(s, k) && CarriedIn(s, k, d) && s.sessions[k].up[0] == ReleaseControl
    ensures Follows(t, k, d) <==> NothingLeft(s.room, s.sessions[k], d)
  {
    var ses := s.sessions[k];
    ControlIsReal(cfg, s, k);
    Released(cfg, s.room, k, ses.id, draws);
    ReleaseStep(cfg, s, k, draws, t);
    assert forall i :: 0 <= i < |ses.down| ==> !TouchesDecks(ses.down[i]);
    NoFrames(ses.client.At(d), t.sessions[k].down, d);
  }

  /** What is on its way to the room and what is pending would leave the deck as it is. */
  ghost predicate NothingLeft(room: Room<nat>, ses: Session, d: DeckId) {
    var canon := Canonical(room.decks, d);
    WithPending(MergeAll(canon, UpChanges(ses.up, d)), ses.client.publisher.At(d).pending) == canon
  }

  // ---------------------------------------------------------------- from the start

  /** The step sends client k a frame that determines deck d, or sends it the room's state when its own deck d is what
      the room has. */
  ghost predicate StartsFollowing(s: System, step: Replication.Step, t: System, k: nat, d: DeckId) {
    && step.ServerTakes? && k in s.sessions && k in t.sessions
    && var before, after := s.sessions[k], t.sessions[k];
       || (after.down != before.down && after.down != [] && Covers(after.down[|after.down| - 1], d))
       || (SendsState(s, step, t, k)
           && (d in t.room.decks || DeckAfterAll(before.client.At(d), before.down, d) == DEFAULT_DECK))
  }

  lemma Starts(cfg: Config, s: System, step: Replication.Step, t: System, k: nat, d: DeckId)
    requires SystemOk(cfg, s) && Takes(cfg, s, step, t) && StartsFollowing(s, step, t, k, d)
    ensures Follows(t, k, d)
  {
    var before, after := s.sessions[k], t.sessions[k];
    if after.down != before.down && after.down != [] && Covers(after.down[|after.down| - 1], d) {
      CoverStartsFollowing(cfg, s, step.k, step.draws, t, k, d);
    } else {
      StateFollows(cfg, s, step, t, k, d);
    }
  }

  lemma StartsAt(cfg: Config, tr: seq<System>, steps: seq<Replication.Step>, k: nat, i: nat, d: DeckId)
    requires IsRun(cfg, tr, steps) && i < |steps| && StartsFollowing(tr[i], steps[i], tr[i + 1], k, d)
    ensures Follows(tr[i + 1], k, d)
  {
    var s, step, t := tr[i], steps[i], tr[i + 1];
    AtStep(cfg, tr, steps, i);
    Starts(cfg, s, step, t, k, d);
  }

  /** Observer agreement from its start: on every run, from the step that sends a client a frame determining a deck,
      or the room's state when its deck is as the room has it, through any number of steps none of which is its own doing,
      the client's deck after the frames on its way to it is the room's. */
  lemma ObserverAgreementFrom(
    cfg: Config, tr: seq<System>, steps: seq<Replication.Step>, k: nat, i: nat, n: nat, d: DeckId)
    requires IsRun(cfg, tr, steps) && i < n <= |steps|
    requires StartsFollowing(tr[i], steps[i], tr[i + 1], k, d)
    requires Undisturbed(tr, steps, k, i + 1, n, d)
    ensures Follows(tr[n], k, d)
  {
    StartsAt(cfg, tr, steps, k, i, d);
    ObserverAgreement(cfg, tr, steps, k, i + 1, n, d);
  }

  /** The room takes a delta of a member that is not in control: one sent too early, or still on its way when the
      member's own release was handled. */
  ghost predicate Strays(s: System, step: Replication.Step, k: nat) {
    && step.ServerTakes? && step.k == k && Present(s, k)
    && s.sessions[k].up != [] && s.sessions[k].up[0].DeltaUp? && s.room.controllerId != s.sessions[k].id
  }

  /** It changes nothing in the room, and is answered by a refusal and the room's state. */
  lemma StrayIsAnswered(cfg: Config, s: System, step: Replication.Step, t: System, k: nat)
    requires SystemOk(cfg, s) && Takes(cfg, s, step, t) && Strays(s, step, k)
    ensures t.room == s.room && SendsState(s, step, t, k)
    ensures t.sessions[k].down
         == s.sessions[k].down + [ErrorDown(NotController), Snapshot(s.room.serverSeq, s.room.decks)]
  {
    var ses := s.sessions[k];
    assert SessionOk(s.room, k, ses);
    assert Sendable(ses.up[0], Fits(s.room));
    Refusals(cfg, s.room, k, ses.id, ses.up[0], step.draws);
  }

  /** Optimism is repaired: on every run, a client whose delta strays agrees from then on, until its own doing, on every
      deck the room has touched, whatever it had done to its own. */
  lemma StrayIsRepaired(
    cfg: Config, tr: seq<System>, steps: seq<Replication.Step>, k: nat, i: nat, n: nat, d: DeckId)
    requires IsRun(cfg, tr, steps) && i < n <= |steps| && Strays(tr[i], steps[i], k) && d in tr[i].room.decks
    requires Undisturbed(tr, steps, k, i + 1, n, d)
    ensures Follows(tr[n], k, d)
  {
    AtStep(cfg, tr, steps, i);
    var s, step, t := tr[i], steps[i], tr[i + 1];
    StrayIsAnswered(cfg, s, step, t, k);
    assert StartsFollowing(s, step, t, k, d);
    ObserverAgreementFrom(cfg, tr, steps, k, i, n, d);
  }

  /** Client k learned of control at step i with nothing stale pending, kept it, and at step r its release is handled. */
  ghost predicate ReleasesAt(
    tr: seq<System>, steps: seq<Replication.Step>, k: nat, i: nat, r: nat, d: DeckId)
    requires |tr| == |steps| + 1 && i < r < |steps|
  {
    && steps[i] == ClientTakes(k) && k in tr[i].sessions && LearnsOfControl(tr[i].sessions[k])
    && PendingIdle(tr[i].sessions[k].client, d)
    && HasControl(tr[i + 1], k) && Unrepaired(tr[i + 1].sessions[k]) && Kept(tr, steps, k, i + 1, r)
    && steps[r].ServerTakes? && EndsControl(tr[r], steps[r], k)
  }

  lemma AtRelease(cfg: Config, tr: seq<System>, steps: seq<Replication.Step>, k: nat, i: nat, r: nat, d: DeckId)
    requires IsRun(cfg, tr, steps) && i < r < |steps| && ReleasesAt(tr, steps, k, i, r, d)
    ensures HasControl(tr[r], k) && Unrepaired(tr[r].sessions[k]) && CarriedIn(tr[r], k, d)
  {
    var s, t := tr[i], tr[i + 1];
    assert TakenAt(cfg, tr, steps, i);
    TakingControl(cfg, s, t, k, d);
    ControlCarries(cfg, tr, steps, k, i + 1, r, d);
  }

  lemma ReleaseHandled(cfg: Config, tr: seq<System>, steps: seq<Replication.Step>, k: nat, i: nat, r: nat, d: DeckId)
    requires IsRun(cfg, tr, steps) && i < r < |steps| && ReleasesAt(tr, steps, k, i, r, d)
    ensures k in tr[r].sessions && (Follows(tr[r + 1], k, d) <==> NothingLeft(tr[r].room, tr[r].sessions[k], d))
  {
    AtRelease(cfg, tr, steps, k, i, r, d);
    AtStep(cfg, tr, steps, r);
    var s, step, t := tr[r], steps[r], tr[r + 1];
    HandOver(cfg, s, k, step.draws, t, d);
  }

  /** From control to following: on every run, a client that learned of control at step i with nothing stale pending
      and kept it until the room handled its release at step r agrees with the room from then on, once it has handled
      what is on its way to it and until its own doing, exactly if at the release it had nothing left to send that would
      have changed the deck. */
  lemma ReleasedFollows(
    cfg: Config, tr: seq<System>, steps: seq<Replication.Step>, k: nat, i: nat, r: nat, n: nat, d: DeckId)
    requires IsRun(cfg, tr, steps) && i < r < n <= |steps| && ReleasesAt(tr, steps, k, i, r, d)
    requires Undisturbed(tr, steps, k, r + 1, n, d)
    ensures k in tr[r].sessions
    ensures Follows(tr[r + 1], k, d) <==> NothingLeft(tr[r].room, tr[r].sessions[k], d)
    ensures NothingLeft(tr[r].room, tr[r].sessions[k], d) ==> Follows(tr[n], k, d)
  {
    ReleaseHandled(cfg, tr, steps, k, i, r, d);
    if Follows(tr[r + 1], k, d) { ObserverAgreement(cfg, tr, steps, k, r + 1, n, d); }
  }

  /** Convergence: on every run in which client k learned of control at step a with nothing stale pending and has not
      lost it since, and client j started following at step b and did nothing to the deck since: as soon as k has
      nothing pending or on its way and nothing is on its way to j, the decks of k, of the room and of j are equal. */
  lemma Converged(
    cfg: Config, tr: seq<System>, steps: seq<Replication.Step>, k: nat, a: nat, j: nat, b: nat, n: nat, d: DeckId)
    requires IsRun(cfg, tr, steps) && a < n <= |steps| && b < n
    requires steps[a] == ClientTakes(k) && k in tr[a].sessions && LearnsOfControl(tr[a].sessions[k])
    requires PendingIdle(tr[a].sessions[k].client, d)
    requires HasControl(tr[a + 1], k) && Unrepaired(tr[a + 1].sessions[k]) && Kept(tr, steps, k, a + 1, n)
    requires StartsFollowing(tr[b], steps[b], tr[b + 1], j, d)
    requires Undisturbed(tr, steps, j, b + 1, n, d)
    requires k in tr[n].sessions && tr[n].sessions[k].up == []
    requires tr[n].sessions[k].client.publisher.At(d).pending.None?
    requires j in tr[n].sessions && tr[n].sessions[j].down == []
    ensures tr[n].sessions[k].client.At(d) == Canonical(tr[n].room.decks, d) == tr[n].sessions[j].client.At(d)
  {
    ControllerAgreement(cfg, tr, steps, k, a, n, d);
    ObserverAgreementFrom(cfg, tr, steps, j, b, n, d);
  }
}
