/** One client's side of the protocol: the local decks of client/src/state/StateManager.cpp, the sequence
    check of client/src/sync/WebSocketTransport.cpp and the handlers of client/src/app/MainComponent.cpp,
    as functions from a client and an event to the new client and the frames it sends. */
module Clients {
  import opened Playback
  import opened Messages
  import opened Publishing

  const INT_MAX: nat := 0x7FFF_FFFF

  datatype Client = Client(
    a: Deck,
    b: Deck,
    publisher: Publisher,
    role: Role,
    ownId: Option<ClientId>,
    peers: seq<Peer>,
    connected: bool,
    lastSeen: Option<nat>)
  {
    function At(d: DeckId): Deck { if d == A then a else b }
    function With(d: DeckId, s: Deck): Client { if d == A then this.(a := s) else this.(b := s) }
  }

  /** The sequence number of a message, as far as it fits a 32-bit integer. */
  function MessageServerSeq(n: nat): Option<nat> {
    if n <= INT_MAX then Some(n) else None
  }

  const NEW_CLIENT := Client(DEFAULT_DECK, DEFAULT_DECK, NEW_PUBLISHER, Observer, None, [], false, None)

  // ---------------------------------------------------------------- local decks

  /** The deck after `applyDelta`, and what its listeners are told; nothing happens to empty changes. */
  function ApplyDelta(s: Deck, c: Changes, source: Source): (Deck, Option<Changes>) {
    if c.Empty() then (s, None)
    else
      var applied := if source == Local then Prepared(s, c) else ClampChanges(c);
      (Merge(s, applied), Some(applied))
  }

  function Frames(sent: seq<Sent>): seq<Up> {
    if sent == [] then [] else [DeltaUp(sent[0].delta)] + Frames(sent[1..])
  }

  /** A change made by the user of this client. */
  function ChangeLocally(c: Client, delta: Delta, now: real): (Client, seq<Up>) {
    var (s, applied) := ApplyDelta(c.At(delta.deck), delta.changes, Local);
    if applied.None? then (c, [])
    else
      var (p, sent) := OnApplied(c.publisher, Delta(delta.deck, applied.value), Local, now);
      (c.With(delta.deck, s).(publisher := p), Frames(sent))
  }

  function TimerFires(c: Client, now: real): (Client, seq<Up>) {
    var (p, sent) := Drain(c.publisher, now, false);
    (c.(publisher := p), Frames(sent))
  }

  // ---------------------------------------------------------------- the peer list

  function PeerIndex(peers: seq<Peer>, id: ClientId): (i: nat)
    ensures i <= |peers|
    ensures i < |peers| ==> peers[i].id == id
    ensures forall j :: 0 <= j < i ==> peers[j].id != id
  {
    if peers == [] || peers[0].id == id then 0 else 1 + PeerIndex(peers[1..], id)
  }

  function AddOrUpdatePeer(peers: seq<Peer>, peer: Peer): seq<Peer> {
    var i := PeerIndex(peers, peer.id);
    if !ClientAcceptsName(peer.name) then peers
    else if i < |peers| then peers[i := peer]
    else if |peers| >= MAX_PEERS then peers
    else peers + [peer]
  }

  function AddPeers(peers: seq<Peer>, more: seq<Peer>): seq<Peer>
    decreases |more|
  {
    if more == [] then peers else AddPeers(AddOrUpdatePeer(peers, more[0]), more[1..])
  }

  function RemovePeer(peers: seq<Peer>, id: ClientId): seq<Peer> {
    if peers == [] then []
    else (if peers[0].id == id then [] else [peers[0]]) + RemovePeer(peers[1..], id)
  }

  function SetPeerRole(peers: seq<Peer>, id: ClientId, role: Role): seq<Peer> {
    if peers == [] then []
    else [if peers[0].id == id then peers[0].(role := role) else peers[0]] + SetPeerRole(peers[1..], id, role)
  }

  // ---------------------------------------------------------------- messages from the server

  /** One deck of a snapshot replaces the local deck, if it parses. */
  function ApplyDeckSnapshot(c: Client, d: DeckId, s: Deck): Client {
    if ParsesDeck(s)
    then c.With(d, ApplyDelta(c.At(d), FullResync(ClampDeck(s)), Remote).0)
    else c
  }

  /** A deck the snapshot does not mention keeps its local state. */
  function ApplySnapshot(c: Client, decks: map<DeckId, Deck>): Client {
    var c1 := if A in decks then ApplyDeckSnapshot(c, A, decks[A]) else c;
    if B in decks then ApplyDeckSnapshot(c1, B, decks[B]) else c1
  }

  function Noted(lastSeen: Option<nat>, serverSeq: nat): Option<nat> {
    Or(MessageServerSeq(serverSeq), lastSeen)
  }

  /** The drift check: anything but a strictly greater number asks for a snapshot. */
  predicate Advances(lastSeen: Option<nat>, serverSeq: nat) {
    var n := MessageServerSeq(serverSeq);
    n.Some? && lastSeen.Some? && n.value > lastSeen.value
  }

  function InRole(c: Client, role: Role): Client {
    c.(role := role, publisher := c.publisher.(role := role))
  }

  function Resync(c: Client): seq<Up> {
    [DeltaUp(Delta(A, FullResync(c.a))), DeltaUp(Delta(B, FullResync(c.b)))]
  }

  function HandleWelcome(
    c: Client, id: ClientId, role: Role, serverSeq: nat, decks: map<DeckId, Deck>, peers: seq<Peer>): Client
  {
    var c1 := c.(lastSeen := Noted(c.lastSeen, serverSeq), connected := true,
                 publisher := c.publisher.(connected := true), ownId := Some(id));
    InRole(ApplySnapshot(c1, decks).(peers := AddPeers([], peers)), role)
  }

  function Receive(c: Client, m: Down): (Client, seq<Up>) {
    match m
    case Welcome(id, role, serverSeq, decks, peers) =>
      (HandleWelcome(c, id, role, serverSeq, decks, peers), [])
    case DeltaDown(serverSeq, _, delta) =>
      if !ParsesChanges(delta.changes) then (c, [])
      else
        var s := ApplyDelta(c.At(delta.deck), ClampChanges(delta.changes), Remote).0;
        (c.With(delta.deck, s).(lastSeen := Noted(c.lastSeen, serverSeq)),
         if Advances(c.lastSeen, serverSeq) then [] else [RequestSnapshot])
    case Snapshot(serverSeq, decks) =>
      (ApplySnapshot(c.(lastSeen := Noted(c.lastSeen, serverSeq)), decks), [])
    case RoleChanged(id, role) =>
      if c.ownId == Some(id) then
        (InRole(c, role), if role == Controller && c.role != Controller then Resync(c) else [])
      else (InRole(c.(peers := SetPeerRole(c.peers, id, role)), c.role), [])
    case PeerJoined(peer) => (c.(peers := AddOrUpdatePeer(c.peers, peer)), [])
    case PeerLeft(id) => (InRole(c.(peers := RemovePeer(c.peers, id)), c.role), [])
    case ErrorDown(_) => (c, [])
  }

  /** The connection is gone, whoever ended it. */
  function Disconnected(c: Client): Client {
    InRole(c.(connected := false, publisher := c.publisher.(connected := false), ownId := None, peers := []),
           Observer)
  }

  /** A client about to connect; its decks and whatever is still pending are left from before. */
  ghost predicate Idle(c: Client) {
    && c.role == Observer && c.ownId.None? && c.peers == [] && !c.connected && c.lastSeen.None?
    && !c.publisher.connected && c.publisher.role == Observer
  }

  // ---------------------------------------------------------------- what the handlers mean

  /** A client sends nothing in answer to the room but a request for a snapshot after a delta, and both decks in full
      on being given control: what it hears is never echoed. */
  lemma NoEcho(c: Client, m: Down)
    ensures var frames := Receive(c, m).1;
      || frames == []
      || (m.DeltaDown? && ParsesChanges(m.delta.changes) && frames == [RequestSnapshot]
          && !(c.lastSeen.Some? && c.lastSeen.value < m.serverSeq <= 0x7FFF_FFFF))
      || (m.RoleChanged? && m.role == Controller && c.ownId == Some(m.id) && c.role == Observer && frames == Resync(c))
  {}

  /** Whatever is applied to a deck, by the user or from outside, leaves it in range. */
  lemma AppliedStaysInRange(s: Deck, c: Changes, source: Source)
    requires ValidDeck(s) && GoodTrack(c)
    ensures ValidDeck(ApplyDelta(s, c, source).0)
  {
    if !c.Empty() { EditStaysClose(s, c); }
  }

  lemma SnapshotStaysInRange(c: Client, d: DeckId, s: Deck)
    requires ValidDeck(c.a) && ValidDeck(c.b)
    ensures var c' := ApplyDeckSnapshot(c, d, s); ValidDeck(c'.a) && ValidDeck(c'.b)
    ensures !ParsesDeck(s) ==> ApplyDeckSnapshot(c, d, s) == c
    ensures ValidDeck(s) ==> ApplyDeckSnapshot(c, d, s) == c.With(d, s)
  {
    if ParsesDeck(s) { AppliedStaysInRange(c.At(d), FullResync(ClampDeck(s)), Remote); }
    ResyncExact(s, c.At(d));
  }

  /** Whatever the room sends, even what no room should, a client's decks stay in range; and changes that cannot be read
      leave the client exactly as it was. */
  lemma DecksStayInRange(c: Client, m: Down)
    requires ValidDeck(c.a) && ValidDeck(c.b)
    ensures ValidDeck(Receive(c, m).0.a) && ValidDeck(Receive(c, m).0.b)
    ensures m.DeltaDown? && !ParsesChanges(m.delta.changes) ==> Receive(c, m) == (c, [])
  {
    match m
    case Welcome(id, _, serverSeq, decks, _) =>
      var c1 := c.(lastSeen := Noted(c.lastSeen, serverSeq), connected := true,
                   publisher := c.publisher.(connected := true), ownId := Some(id));
      SnapshotsStayInRange(c1, decks);
    case Snapshot(serverSeq, decks) => SnapshotsStayInRange(c.(lastSeen := Noted(c.lastSeen, serverSeq)), decks);
    case DeltaDown(_, _, delta) =>
      if ParsesChanges(delta.changes) {
        AppliedStaysInRange(c.At(delta.deck), ClampChanges(delta.changes), Remote);
      }
    case _ =>
  }

  lemma SnapshotsStayInRange(c: Client, decks: map<DeckId, Deck>)
    requires ValidDeck(c.a) && ValidDeck(c.b)
    ensures var c' := ApplySnapshot(c, decks); ValidDeck(c'.a) && ValidDeck(c'.b)
  {
    var c1 := if A in decks then ApplyDeckSnapshot(c, A, decks[A]) else c;
    if A in decks { SnapshotStaysInRange(c, A, decks[A]); }
    if B in decks { SnapshotStaysInRange(c1, B, decks[B]); }
  }

  /** Only the client in control sends its user's changes; everybody's own deck changes alike. */
  lemma OnlyControllersSend(c: Client, delta: Delta, now: real, later: real)
    ensures !c.publisher.connected || c.publisher.role != Controller ==> ChangeLocally(c, delta, now).1 == []
    ensures ChangeLocally(c, delta, now).0.At(delta.deck) == ChangeLocally(c, delta, later).0.At(delta.deck)
    ensures forall d :: d != delta.deck ==> ChangeLocally(c, delta, now).0.At(d) == c.At(d)
    ensures InRange(delta.changes) ==>
      ChangeLocally(c, delta, now).0.At(delta.deck) == Merge(c.At(delta.deck), delta.changes)
  {
    if InRange(delta.changes) { EditChangesWhatItNames(c.At(delta.deck), delta.changes); }
    if delta.changes.Empty() { MergeWhatIsThere(c.At(delta.deck), delta.changes); }
  }

  /** A lost connection leaves decks and pending changes as they were, and a client that is nobody, observes, sees nobody
      and sends nothing. */
  lemma DisconnectedKeeps(c: Client, delta: Delta, now: real)
    ensures var g := Disconnected(c);
      && g.a == c.a && g.b == c.b && g.publisher.a == c.publisher.a && g.publisher.b == c.publisher.b
      && g.publisher.timer == c.publisher.timer
      && g.role == Observer && g.ownId.None? && g.peers == [] && !g.connected
      && ChangeLocally(g, delta, now).1 == []
    ensures Idle(Disconnected(c).(lastSeen := None))
  {}

  /** An entry of the list, by id. */
  function Lookup(peers: seq<Peer>, id: ClientId): Option<Peer> {
    var i := PeerIndex(peers, id); if i < |peers| then Some(peers[i]) else None
  }

  lemma {:induction false} LookupAppended(peers: seq<Peer>, peer: Peer, id: ClientId)
    ensures Lookup(peers + [peer], id)
         == if Lookup(peers, id).Some? then Lookup(peers, id) else if peer.id == id then Some(peer) else None
  {
    if peers == [] {
      assert peers + [peer] == [peer];
    } else {
      assert (peers + [peer])[0] == peers[0] && (peers + [peer])[1..] == peers[1..] + [peer];
      LookupAppended(peers[1..], peer, id);
    }
  }

  lemma {:induction false} LookupReplaced(peers: seq<Peer>, peer: Peer, id: ClientId)
    requires PeerIndex(peers, peer.id) < |peers|
    ensures Lookup(peers[PeerIndex(peers, peer.id) := peer], id)
         == if peer.id == id then Some(peer) else Lookup(peers, id)
  {
    var i := PeerIndex(peers, peer.id);
    var after := peers[i := peer];
    if i == 0 {
      assert after[1..] == peers[1..];
    } else {
      assert after[0] == peers[0] && after[1..] == peers[1..][i - 1 := peer];
      LookupReplaced(peers[1..], peer, id);
    }
  }

  /** A peer that is announced is in the list under its id, unless its name is unusable or the list is full without it;
      nobody else's entry changes. */
  lemma AnnouncedIsListed(peers: seq<Peer>, peer: Peer, id: ClientId)
    ensures var shown := ClientAcceptsName(peer.name) && (Lookup(peers, peer.id).Some? || |peers| < 8);
      && Lookup(AddOrUpdatePeer(peers, peer), id)
         == (if shown && id == peer.id then Some(peer) else Lookup(peers, id))
      && |AddOrUpdatePeer(peers, peer)| == |peers| + if shown && Lookup(peers, peer.id).None? then 1 else 0
  {
    LookupAppended(peers, peer, id);
    if PeerIndex(peers, peer.id) < |peers| { LookupReplaced(peers, peer, id); }
  }

  lemma LookupHead(peer: Peer, rest: seq<Peer>, id: ClientId)
    ensures Lookup([peer] + rest, id) == if peer.id == id then Some(peer) else Lookup(rest, id)
  {
    assert ([peer] + rest)[1..] == rest;
  }

  /** A departure takes every entry of that id. */
  lemma {:induction false} GoneIsUnlisted(peers: seq<Peer>, id: ClientId, other: ClientId)
    ensures Lookup(RemovePeer(peers, id), other) == if other == id then None else Lookup(peers, other)
  {
    if peers != [] {
      GoneIsUnlisted(peers[1..], id, other);
      assert peers == [peers[0]] + peers[1..];
      LookupHead(peers[0], peers[1..], other);
      LookupHead(peers[0], RemovePeer(peers[1..], id), other);
      var none: seq<Peer> := [];
      assert none + RemovePeer(peers[1..], id) == RemovePeer(peers[1..], id);
    }
  }

  /** A change of role changes the role of that id alone. */
  lemma {:induction false} RoleIsListed(peers: seq<Peer>, id: ClientId, role: Role, other: ClientId)
    ensures var p := Lookup(peers, other);
      Lookup(SetPeerRole(peers, id, role), other) == if p.Some? && other == id then Some(p.value.(role := role)) else p
  {
    if peers != [] {
      RoleIsListed(peers[1..], id, role, other);
      var head := if peers[0].id == id then peers[0].(role := role) else peers[0];
      assert peers == [peers[0]] + peers[1..];
      assert SetPeerRole(peers, id, role) == [head] + SetPeerRole(peers[1..], id, role);
      LookupHead(peers[0], peers[1..], other);
      LookupHead(head, SetPeerRole(peers[1..], id, role), other);
    }
  }
}
