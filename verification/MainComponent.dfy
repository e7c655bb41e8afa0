/** The state manager of client/src/state/StateManager.cpp: two decks merged in place. */
module StateManagers {
  import opened Playback
  import opened Messages
  import opened Publishing
  import Clients

  class StateManager {
    const states: array<Deck>

    ghost predicate Valid() {
      states.Length == 2
    }

    static function IndexOf(d: DeckId): nat { if d == A then 0 else 1 }

    function State(d: DeckId): Deck
      requires Valid()
      reads states
    {
      states[IndexOf(d)]
    }

    constructor ()
      ensures Valid() && fresh(states)
      ensures State(A) == State(B) == DEFAULT_DECK
    {
      states := new Deck[2](_ => DEFAULT_DECK);
    }

    /** Out-of-range fields are pulled into range one by one. */
    static method Clamped(changes: Changes) returns (c: Changes)
      ensures c == ClampChanges(changes)
    {
      c := changes;
      if c.positionSeconds.Some? { c := c.(positionSeconds := Some(Clamp(c.positionSeconds.value, 0.0, 86400.0))); }
      if c.gain.Some? { c := c.(gain := Some(Clamp(c.gain.value, 0.0, 2.0))); }
      if c.playbackRate.Some? { c := c.(playbackRate := Some(Clamp(c.playbackRate.value, 0.5, 2.0))); }
      if c.pitchOffsetSemitones.Some? {
        c := c.(pitchOffsetSemitones := Some(Clamp(c.pitchOffsetSemitones.value, -12.0, 12.0)));
      }
      if c.loop.Some? && c.loop.value.Some? {
        var l := c.loop.value.value;
        l := l.(inSeconds := Clamp(l.inSeconds, 0.0, 86400.0), outSeconds := Clamp(l.outSeconds, 0.0, 86400.0));
        c := c.(loop := Some(if l.inSeconds >= l.outSeconds then None else Some(l)));
      }
    }

    /** Present fields overwrite the stored ones, field by field. */
    static method Merged(s: Deck, c: Changes) returns (t: Deck)
      ensures t == Merge(s, c)
    {
      t := s;
      t := t.(trackId := OrValue(c.trackId, t.trackId));
      t := t.(playing := OrValue(c.playing, t.playing));
      t := t.(positionSeconds := OrValue(c.positionSeconds, t.positionSeconds));
      t := t.(gain := OrValue(c.gain, t.gain));
      t := t.(playbackRate := OrValue(c.playbackRate, t.playbackRate));
      t := t.(pitchOffsetSemitones := OrValue(c.pitchOffsetSemitones, t.pitchOffsetSemitones));
      t := t.(loop := OrValue(c.loop, t.loop));
      t := t.(repeat := OrValue(c.repeat, t.repeat));
    }

    /** Merges the changes into their deck; `told` is what the listeners are given, if anything. */
    method ApplyDelta(delta: Delta, source: Source) returns (told: Option<Changes>)
      requires Valid()
      modifies states
      ensures (State(delta.deck), told) == Clients.ApplyDelta(old(State(delta.deck)), delta.changes, source)
      ensures forall d :: d != delta.deck ==> State(d) == old(State(d))
    {
      if delta.changes.Empty() { return None; }
      var c := Clamped(delta.changes);
      var i := IndexOf(delta.deck);
      if source == Local && c.playing == Some(true) && c.positionSeconds.None? {
        c := c.(positionSeconds := Some(states[i].positionSeconds));
      }
      states[i] := Merged(states[i], c);
      told := Some(c);
    }
  }
}

/** The program form of a client: the protocol handlers of client/src/app/MainComponent.cpp and the dispatch
    of client/src/sync/WebSocketTransport.cpp, driving a state manager and a publisher, proved against the
    functions of module Clients. */
module MainComponents {
  import opened Playback
  import opened Messages
  import opened Publishing
  import opened Clients
  import opened StateManagers
  import opened SyncPublishers

  class MainComponent {
    const stateManager: StateManager
    const publisher: SyncPublisher
    var role: Role
    var ownId: Option<ClientId>
    var peers: seq<Peer>
    var connected: bool
    var lastSeen: Option<nat>
    /** Every frame handed to the socket. */
    var outbox: seq<Up>

    ghost const Repr: set<object>

    ghost predicate Valid() {
      && stateManager.Valid() && publisher.Valid()
      && Repr == {this, publisher, stateManager.states, publisher.pending, publisher.lastSendMs, publisher.hasSent}
      && (publisher.pending as object) != stateManager.states
      && (publisher.lastSendMs as object) != stateManager.states
      && (publisher.hasSent as object) != stateManager.states
    }

    ghost function View(): Client
      requires Valid()
      reads Repr
    {
      Client(stateManager.State(A), stateManager.State(B), publisher.View(), role, ownId, peers, connected, lastSeen)
    }

    constructor ()
      ensures Valid() && fresh(Repr) && View() == NEW_CLIENT && outbox == []
    {
      var s := new StateManager();
      var p := new SyncPublisher();
      stateManager, publisher := s, p;
      role, ownId, peers, connected, lastSeen, outbox := Observer, None, [], false, None, [];
      Repr := {this, p, s.states, p.pending, p.lastSendMs, p.hasSent};
    }

    /** What the publisher handed over since it had sent `n` deltas goes out. */
    method Forward(n: nat)
      requires Valid() && n <= |publisher.sent|
      modifies this`outbox
      ensures Valid() && View() == old(View()) && outbox == old(outbox) + Frames(publisher.sent[n..])
    {
      outbox := outbox + Frames(publisher.sent[n..]);
    }

    /** A change made by the user: merged, then offered to the publisher. */
    method ChangeLocally(delta: Delta, now: real)
      requires Valid()
      modifies Repr
      ensures Valid()
      ensures (View(), outbox) == (Clients.ChangeLocally(old(View()), delta, now).0,
                                   old(outbox) + Clients.ChangeLocally(old(View()), delta, now).1)
    {
      var told := stateManager.ApplyDelta(delta, Local);
      label Merged:
      if told.Some? {
        var n := |publisher.sent|;
        publisher.OnApplied(Delta(delta.deck, told.value), Local, now);
        assert publisher.sent[n..]
            == Publishing.OnApplied(old(publisher.View()), Delta(delta.deck, told.value), Local, now).1;
        assert stateManager.State(A) == old@Merged(stateManager.State(A));
        assert stateManager.State(B) == old@Merged(stateManager.State(B));
        Forward(n);
      } else {
        assert outbox + [] == outbox && View() == old(View());
      }
    }

    method TimerFires(now: real)
      requires Valid()
      modifies Repr
      ensures Valid()
      ensures (View(), outbox) == (Clients.TimerFires(old(View()), now).0,
                                   old(outbox) + Clients.TimerFires(old(View()), now).1)
    {
      var n := |publisher.sent|;
      publisher.TimerCallback(now);
      assert publisher.sent[n..] == Drain(old(publisher.View()), now, false).1;
      Forward(n);
    }

    /** A change that came from the server: merged; the publisher's gate lets nothing of it through. */
    method ApplyRemote(delta: Delta)
      requires Valid()
      modifies Repr
      ensures Valid() && outbox == old(outbox)
      ensures View() == old(View()).With(delta.deck,
                Clients.ApplyDelta(old(View()).At(delta.deck), delta.changes, Remote).0)
    {
      var told := stateManager.ApplyDelta(delta, Remote);
      if told.Some? {
        publisher.OnApplied(Delta(delta.deck, told.value), Remote, 0.0);
      }
    }

    method ApplyDeckSnapshot(d: DeckId, s: Deck)
      requires Valid()
      modifies Repr
      ensures Valid() && outbox == old(outbox)
      ensures View() == Clients.ApplyDeckSnapshot(old(View()), d, s)
    {
      if !ParsesDeck(s) { return; }
      ApplyRemote(Delta(d, FullResync(ClampDeck(s))));
    }

    method ApplySnapshot(decks: map<DeckId, Deck>)
      requires Valid()
      modifies Repr
      ensures Valid() && outbox == old(outbox)
      ensures View() == Clients.ApplySnapshot(old(View()), decks)
    {
      if A in decks { ApplyDeckSnapshot(A, decks[A]); }
      if B in decks { ApplyDeckSnapshot(B, decks[B]); }
    }

    method AddOrUpdatePeer(peer: Peer)
      requires Valid()
      modifies this`peers
      ensures Valid() && View() == old(View()).(peers := Clients.AddOrUpdatePeer(old(peers), peer))
    {
      if !ClientAcceptsName(peer.name) { return; }
      var i := 0;
      while i < |peers|
        invariant 0 <= i <= |peers| && peers == old(peers)
        invariant forall j :: 0 <= j < i ==> peers[j].id != peer.id
      {
        if peers[i].id == peer.id {
          peers := peers[i := peer];
          return;
        }
        i := i + 1;
      }
      if |peers| >= MAX_PEERS { return; }
      peers := peers + [peer];
    }

    method AddPeers(more: seq<Peer>)
      requires Valid()
      modifies this`peers
      ensures Valid() && View() == old(View()).(peers := Clients.AddPeers(old(peers), more))
    {
      var i := 0;
      assert more[0..] == more;
      while i < |more|
        invariant 0 <= i <= |more| && Valid()
        invariant View() == old(View()).(peers := peers)
        invariant Clients.AddPeers(peers, more[i..]) == Clients.AddPeers(old(peers), more)
      {
        assert more[i..][0] == more[i] && more[i..][1..] == more[i + 1..];
        AddOrUpdatePeer(more[i]);
        i := i + 1;
      }
    }

    method SetPeerRole(id: ClientId, newRole: Role)
      requires Valid()
      modifies this`peers
      ensures Valid() && View() == old(View()).(peers := Clients.SetPeerRole(old(peers), id, newRole))
    {
      var i := 0;
      assert peers[0..] == peers;
      while i < |peers|
        invariant 0 <= i <= |peers| == |old(peers)| && peers[i..] == old(peers)[i..]
        invariant peers[..i] + Clients.SetPeerRole(peers[i..], id, newRole)
                  == Clients.SetPeerRole(old(peers), id, newRole)
      {
        ghost var before, rest := peers[..i], peers[i + 1..];
        ghost var p := if peers[i].id == id then peers[i].(role := newRole) else peers[i];
        assert peers[i..][0] == peers[i] && peers[i..][1..] == rest;
        assert before + ([p] + Clients.SetPeerRole(rest, id, newRole))
            == (before + [p]) + Clients.SetPeerRole(rest, id, newRole);
        if peers[i].id == id {
          peers := peers[i := peers[i].(role := newRole)];
        }
        assert peers[..i + 1] == before + [p] && peers[i + 1..] == rest;
        i := i + 1;
      }
      assert peers[..i] == peers && peers[i..] == [];
    }

    method ErasePeer(id: ClientId)
      requires Valid()
      modifies this`peers
      ensures Valid() && View() == old(View()).(peers := RemovePeer(old(peers), id))
    {
      var kept, i := [], 0;
      assert peers[0..] == peers;
      while i < |peers|
        invariant 0 <= i <= |peers|
        invariant kept + RemovePeer(peers[i..], id) == RemovePeer(peers, id)
      {
        assert peers[i..][0] == peers[i] && peers[i..][1..] == peers[i + 1..];
        ghost var rest := RemovePeer(peers[i + 1..], id);
        assert kept + ([peers[i]] + rest) == (kept + [peers[i]]) + rest && kept + ([] + rest) == kept + rest;
        if peers[i].id != id { kept := kept + [peers[i]]; }
        i := i + 1;
      }
      peers := kept;
    }

    /** The publisher is the one consumer of the role that the model keeps. */
    method ApplyRole()
      requires Valid()
      modifies publisher`role
      ensures Valid() && View() == InRole(old(View()), role)
    {
      publisher.SetRole(role);
    }

    method PushFullResync()
      requires Valid()
      modifies this`outbox
      ensures Valid() && View() == old(View()) && outbox == old(outbox) + Resync(View())
    {
      outbox := outbox + [DeltaUp(Delta(A, FullResync(stateManager.State(A))))];
      outbox := outbox + [DeltaUp(Delta(B, FullResync(stateManager.State(B))))];
    }

    method HandleConnectionChange(up: bool)
      requires Valid()
      modifies Repr
      ensures Valid() && outbox == old(outbox)
      ensures up ==> View() == old(View()).(connected := true,
                                            publisher := old(View()).publisher.(connected := true))
      ensures !up ==> View() == Disconnected(old(View()))
    {
      connected := up;
      publisher.SetConnected(up);
      if !up {
        role, ownId, peers := Observer, None, [];
        ApplyRole();
      }
    }

    method HandleWelcome(id: ClientId, newRole: Role, serverSeq: nat, decks: map<DeckId, Deck>, roster: seq<Peer>)
      requires Valid()
      modifies Repr
      ensures Valid() && outbox == old(outbox)
      ensures View() == Clients.HandleWelcome(old(View()), id, newRole, serverSeq, decks, roster)
    {
      if MessageServerSeq(serverSeq).Some? { lastSeen := MessageServerSeq(serverSeq); }
      HandleConnectionChange(true);
      ownId := Some(id);
      ApplySnapshot(decks);
      role := newRole;
      peers := [];
      AddPeers(roster);
      ApplyRole();
    }

    method HandleDelta(serverSeq: nat, source: ClientId, delta: Delta)
      requires Valid()
      modifies Repr
      ensures Valid()
      ensures var o := Clients.Receive(old(View()), DeltaDown(serverSeq, source, delta));
        View() == o.0 && outbox == old(outbox) + o.1
    {
      if !ParsesChanges(delta.changes) { return; }
      var n := MessageServerSeq(serverSeq);
      if n.None? || lastSeen.None? || !(n.value > lastSeen.value) {
        outbox := outbox + [RequestSnapshot];
      }
      var clamped := StateManager.Clamped(delta.changes);
      if n.Some? { lastSeen := n; }
      ApplyRemote(Delta(delta.deck, clamped));
    }

    method HandleRoleChanged(id: ClientId, newRole: Role)
      requires Valid()
      modifies Repr
      ensures Valid()
      ensures var o := Clients.Receive(old(View()), RoleChanged(id, newRole));
        View() == o.0 && outbox == old(outbox) + o.1
    {
      if ownId == Some(id) {
        var becameController := newRole == Controller && role != Controller;
        role := newRole;
        ApplyRole();
        if becameController { PushFullResync(); }
      } else {
        SetPeerRole(id, newRole);
        ApplyRole();
      }
    }

    method Receive(m: Down)
      requires Valid()
      modifies Repr
      ensures Valid()
      ensures var o := Clients.Receive(old(View()), m);
        View() == o.0 && outbox == old(outbox) + o.1
    {
      match m
      case Welcome(id, newRole, serverSeq, decks, roster) => HandleWelcome(id, newRole, serverSeq, decks, roster);
      case DeltaDown(serverSeq, source, delta) => HandleDelta(serverSeq, source, delta);
      case Snapshot(serverSeq, decks) =>
        if MessageServerSeq(serverSeq).Some? { lastSeen := MessageServerSeq(serverSeq); }
        ApplySnapshot(decks);
      case RoleChanged(id, newRole) => HandleRoleChanged(id, newRole);
      case PeerJoined(peer) => AddOrUpdatePeer(peer);
      case PeerLeft(id) =>
        ErasePeer(id);
        ApplyRole();
      case ErrorDown(_) =>
    }
  }
}
