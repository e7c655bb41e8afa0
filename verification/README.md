# A verified model of DJ-App

A model of the parts of DJ-App that keep replicated playback state, and the sound made from it, right. It has
five parts, each a specification in functions, the program form of the stateful code proved against it, and the
results proved about it:

1. **The replicated room** (`Playback`, `Messages`, `Rooms`, `RoomServer`, `Publishing`, `SyncPublisher`, `Clients`,
   `MainComponent`, `Replication`, `Invariant`, `Agreement`, `Following`, `Views`, `Divergence`, `Repairs`, `Overflow`).
   One room and any number of clients, joined by lossless first-in first-out channels, every interleaving; sessions may
   also misbehave arbitrarily. The classes `RoomServer`, `SyncPublisher`, `StateManager` and `MainComponent` are the
   programs; the functions they are proved equal to are the steps of the system model.
2. **The wire** (`Json`, `Validation`, `Serialization`, `Wire`). JSON values on both ends; it justifies the typed
   messages of part 1.
3. **The connection layer** (`RateLimiting`, `Connections`, `ConnectionServer`). The token bucket, the three-strike
   rule, ejection and the pre-hello slots.
4. **The audio core** (`RealMath`, `Engine`, `Hearing`, `Stretching`, `PlaybackSource`, `Reclaim`, `BeatSync`). The
   block loop against one ideal stream of positions, tempo, tail, what is heard when, the hand-over of buffers between
   two threads, and beat sync.
5. **Listener notification** (`Listeners`, `CrossfaderState`). A walk that its own callbacks may re-enter.

Seconds, gains, rates and times are reals. Random ids, clocks, stretchers and what listeners do are parameters over
which the results quantify.

## Where the code falls short of its documentation

- **A stale pending change survives losing control.** A change still throttled when a client loses its role or its
  connection stays in the publisher; if the client is given control again, it goes out behind the full resync with its
  old value (`Divergence.StalePendingDiverges`). It survives at most until the first timer tick after its throttle
  window, since `timerCallback` asks neither role nor connection before it sends
  (client/src/sync/SyncPublisher.cpp:100-125), so control must be lost and regained within about one timer period of
  33 ms. Right after the full resync the equation of controller agreement holds exactly if nothing that would change
  the deck is pending when the client learns it is in control (`Agreement.TakingControl`).
- **A snapshot does not replace local state wholesale** (docs/plan/02-protocol.md:51). The room leaves out a deck it has
  never touched (line 87 of the same document), and the client keeps its own (`Divergence.UntouchedDeckStays`). After a
  welcome or any snapshot a client agrees on a deck exactly if the room has touched it or the client's own is at its
  defaults by then (`Following.StateFollows`).
- **The tempo is exact only for blocks due at least a frame.** A block always pulls one frame, so blocks that bring the
  sum due past no whole number run fast (`Engine.TinyBlocksDrift`); `Engine.RunKeepsTempo` gives the exact condition for
  whole runs. The comment in client/src/engine/BufferPlaybackSource.h:114-116 claims it without one.
- **The peer list holds eight.** A room may be configured for up to 64 clients (server/src/config.js:15-21); a client's
  view is exact for as long as the room stays within nine members, and for no longer (`Views.ViewAgreement`).
- **The drift check asks for a snapshot exactly for deltas numbered beyond 2^31-1** (`Agreement.QuietGapCheck`). The
  answer may arrive after the client has been given control, and undo its change (`Overflow.OverflowDiverges`): a client
  in control keeps agreeing with the room exactly if it agrees and no snapshot is on its way to it or asked for ahead of
  a release (`Repairs.AgreementIsExact`), as is always so while numbers fit (`Agreement.FitsIsUnrepaired`).
- **Two decks at full rate leave the limiter no spare rate.** Pings and other frames then live off the burst alone
  (`RateLimiting.OtherFramesMustFit`); with one deck at full rate sessions of any length are served
  (`RateLimiting.LongSessionsNeverLimited`).

## Main results

- A controller's deck is the canonical one plus what is on its way and pending: `Agreement.ControllerAgreement`, exactly:
  `Repairs.AgreementIsExact`; how long control lasts: `Agreement.ControlLasts`.
- A follower's deck after the frames on its way is the canonical one: `Following.ObserverAgreementFrom`; both together
  with empty channels: `Following.Converged`; from control to following: `Following.ReleasedFollows`; peer lists:
  `Views.ViewAgreement`.
- Canonical state is the accepted deltas in order: `Agreement.RoomIsItsLog`; when a snapshot is asked for:
  `Agreement.QuietGapCheck`.
- The publisher loses and invents nothing, keeps its distance and keeps nothing for long: `Publishing.RunMeaning`,
  `Publishing.RunSpaced`, `Publishing.ForwardedLeaves`. A local edit changes what it names:
  `Playback.EditChangesWhatItNames`.
- Who is answered what: `Rooms.Refusals`, `Rooms.Handshake`; optimism is repaired: `Following.StrayIsRepaired`.
- Both ends of the wire agree: `Wire.DeltaRoundTrip`, `Wire.AcceptedIffAcceptable`, `Wire.RelayedIsParsed`,
  `Wire.MergesAgree`.
- The token bucket is its envelope: `RateLimiting.ServedIffWithinEnvelope`; who is ejected and when:
  `Connections.EjectionTraces`; slots and members: `Connections.Reachable`.
- Rendering does not depend on block boundaries: `Engine.RawHeadContinues`, `Engine.SplitIndependence`,
  `Hearing.ReadAfter`, `Stretching.UnitPlayback`; tempo and tail: `Engine.RunKeepsTempo`, `Engine.SelfStop`; the
  position shown: `Hearing.PositionIsHeard`.
- Buffers are never freed while read: `Reclaim.NeverFreedWhileRead`.
- Beat sync: `BeatSync.SyncWorksAnywhere`, `BeatSync.NudgeIsSmallest`. Listeners: `Listeners.AlwaysSettled`,
  `Listeners.SetFollows`.

## Model

| member | source | states |
|---|---|---|
| `Agreement.ControllerAgreement` | client/src/app/MainComponent.cpp:246-260 | On every run of a room of any size, from the step in which a client learns it is in control until the room handles its release or its connection goes, it is in control; and canonical deck, then its deltas on their way, then its pending delta, give its local deck, if then nothing pending would have changed the deck and no snapshot was on its way to it or asked for; if something pending would have, the equation is false right after that step |
| `Repairs.AgreementIsExact` | client/src/app/MainComponent.cpp:233-243 | At any moment of any run, for a client in control: the equation holds for both decks in every continuation within its control if and only if it holds now and no snapshot is on its way to the client or asked for ahead of a release |
| `Repairs.RepairUndoes` | client/src/app/MainComponent.cpp:365-401 | Otherwise there is a continuation, within control, on which a snapshot undoes a change of the client |
| `Agreement.ControlLasts` | server/src/room.js:119-147 | On every run a client stays in control for exactly as long as the room handles no release of its own and its connection stays: nobody else's claim, delta, snapshot, arrival or departure takes control away |
| `Agreement.ControlStep` | server/src/room.js:119-147 | Every step of the system ends the control of a client if and only if it is the room handling that client's release, or the end of its connection |
| `Agreement.FitsIsUnrepaired` | client/src/model/Serialization.cpp:528-542 | While the sequence number fits 32 bits, no snapshot is on its way to a client in control, and none is asked for |
| `Agreement.TakingControl` | client/src/app/MainComponent.cpp:340-348 | The full resync establishes the equation whatever the decks were, if and only if nothing that would change the deck is still pending in the publisher |
| `Agreement.ControlCarries` | client/src/sync/SyncPublisher.cpp:68-98 | On every run the equation lasts as long as control does, if no snapshot is on its way or asked for; and then that stays so too |
| `Agreement.ControlIsReal` | server/src/room.js:119-132 | A client that believes it is in control is the room's controller under its own id; no welcome or delta is on its way to it, and a snapshot only once the sequence number no longer fits 32 bits |
| `Agreement.NothingOverwrites` | server/src/room.js:161-170 | Frames a client in control can expect contain no welcome or delta until it is told it lost control, and no snapshot while the sequence number fits |
| `Overflow.OverflowDiverges` | client/src/model/Serialization.cpp:528-542 | A concrete run of two clients, past 2^31-1 applied deltas, on which a client learns of control with nothing pending and a snapshot on its way that it asked for because the number no longer fits; within its control the run goes on until the equation of controller agreement is false |
| `Divergence.StalePendingDiverges` | client/src/sync/SyncPublisher.cpp:68-78 | A concrete run of eighteen steps from a fresh client in which a change still waiting for its throttle window when the client releases control is still pending when it is given control again, and makes the equation false right after the full resync |
| `Divergence.UntouchedDeckStays` | client/src/app/MainComponent.cpp:391-401 | A concrete run after which an idle client with empty channels, which had changed its deck B before connecting, has a deck B that differs from the room's: a snapshot does not replace decks it does not mention |
| `Following.ObserverAgreement` | client/src/app/MainComponent.cpp:228-231 | On every run, a client whose deck, after the frames on its way, is the room's keeps that property through all steps that are not its own change to the deck |
| `Following.CoverStartsFollowing` | server/src/room.js:161-170 | Whatever a client did before, its deck after the frames on its way is the room's from the moment the room sends it a frame that determines the deck (snapshot, welcome or another client's full resync) |
| `Following.StateFollows` | server/src/room.js:149-190 | A client that is sent the room's state, by a welcome, a repair snapshot or one it asked for, agrees on a deck from then on if and only if the room has touched that deck or the client's own, after the frames already on their way, is at its defaults |
| `Following.StrayIsRepaired` | server/src/room.js:161-170 | On every run, a client whose delta reaches the room while it is not in control agrees from then on, until its own doing, on every deck the room has touched, whatever it had done to its own |
| `Following.StrayIsAnswered` | server/src/room.js:161-170 | Such a delta changes nothing in the room and is answered by a not-controller error and a snapshot of the room's state |
| `Following.JoiningFollows` | server/src/room.js:94-112 | In particular a newcomer agrees on a deck from its welcome on if and only if the room has touched that deck or the client still has it at the defaults |
| `Following.HandOver` | server/src/room.js:134-147 | When the room handles the release of a client in control, that client agrees with the room as a follower if and only if what it sent behind the release and what is pending would not change the deck |
| `Following.ReleasedFollows` | server/src/room.js:134-147 | On every run: a client that learned of control with nothing stale pending and kept it until its release was handled agrees with the room from then on, until its own doing, if and only if at the release it had nothing left to send that would have changed the deck |
| `Following.Converged` | server/src/room.js:149-183 | On every run: once a client that learned of control with nothing stale pending, no snapshot on its way and control not ended since has nothing pending or on its way, and nothing is on its way to a client that started following (by a covering frame or the room's state) and has left the deck alone since, their decks and the room's are equal |
| `Following.ObserverAgreementFrom` | client/src/app/MainComponent.cpp:228-231 | On every run, from the step that sends a client a frame determining a deck, or the room's state when its deck is as the room has it, its deck after the frames on its way stays the room's through all steps that are not its own doing |
| `Following.ReceiveDeck` | client/src/app/MainComponent.cpp:365-401 | A client's handlers change each deck exactly as the frame says |
| `Views.ViewAgreement` | client/src/app/MainComponent.cpp:193-311 | On every run, after handling the frames on their way a client's peer list is exactly the room's other members, in joining order with names and roles, at every moment since it joined if and only if the room has never held more than nine members since then |
| `Views.SmallRoomsAreShown` | client/src/app/MainComponent.cpp:204-221 | At any moment, if the room has stayed within nine members while the client was present, the list shows the room |
| `Views.LargerRoomsAreNotSeen` | client/src/app/MainComponent.cpp:41-74 | Whatever is sent, no list can be that of a member of a room that holds more than nine |
| `Agreement.RoleAgreement` | client/src/app/MainComponent.cpp:246-260 | In every reachable state of a room of any size, after handling the frames on their way a client's id and role are the room's, and with nothing on its way they already are |
| `Agreement.QuietGapCheck` | client/src/sync/WebSocketTransport.cpp:232-254 | On every run, a delta a client is about to take makes it ask for a snapshot if and only if the number of that delta does not fit 32 bits |
| `Agreement.NoRequests` | client/src/sync/WebSocketTransport.cpp:232-254 | On every run, while the room's number fits 32 bits, no conforming client has a request for a snapshot on its way |
| `Publishing.DecksInOrder` | client/src/sync/SyncPublisher.cpp:100-125 | What goes out together goes out in the order of the decks |
| `Hearing.BeforeTheStart` | client/src/engine/BufferPlaybackSource.cpp:318-322 | A head before the start of the track hears silence and stays |
| `PlaybackSources.RegionWithoutTrack` | client/src/engine/BufferPlaybackSource.cpp:102-124 | Without a sample rate no loop is set; without a track the region is the loop asked for, unlimited |
| `Agreement.RoomIsItsLog` | server/src/room.js:172-180 | On every run the canonical decks are the accepted deltas merged in order, serverSeq is their number, and every delta a conforming client has on its way is acceptable |
| `Agreement.RunInOrder` | server/src/room.js:33-58 | The system invariant (room well formed, members and sessions correspond, log, views, expected frames) holds in every state of every run |
| `Rooms.Classify` | server/src/room.js:200-236 | Every message does exactly one of four things to the room, with exactly these replies; a delta is applied if and only if it is acceptable and its sender is the live member in control |
| `Rooms.Refusals` | server/src/room.js:119-236 | Every refusal and nothing else is answered by exactly one error code, each code exactly in its case: an acceptable delta of a member not in control, and no other message, gets not-controller and a snapshot |
| `Rooms.ControlChanges` | server/src/room.js:119-147 | Control changes hands exactly when a live member claims it while it is free or the one in control releases it, and everybody is told |
| `Rooms.Handshake` | server/src/room.js:62-117 | A connection that has not joined is admitted exactly with a hello of version 2, a good name and the right room code, while there is room, under the first unused of a hundred draws; otherwise closed with 4000, 4001, 4004, 4002 or 1011 by the first of these that fails |
| `Rooms.Departure` | server/src/room.js:239-250 | A departure removes exactly the live member, frees control exactly if it held it, and changes neither decks nor numbers |
| `Rooms.MessageKeepsRoom` | server/src/room.js:200-236 | A message keeps ids and connections distinct, the controller a member, names presentable, decks in range and the room within its capacity; it changes membership only by admitting its sender |
| `Rooms.DisconnectKeepsRoom` | server/src/room.js:239-250 | A disconnect keeps the room well formed; control held by the departed is freed |
| `Rooms.RetiredChangesNothing` | server/src/room.js:43-46 | A connection that is not the live entry for its id changes neither the room nor what anybody else is sent, by any message or disconnect |
| `Rooms.Allocate` | server/src/room.js:62-69 | An allocated id was drawn and is unused; none is allocated only if every draw is in use |
| `Rooms.CapacityTellsNothing` | server/src/room.js:83-85 | Whether a hello is refused depends on how full the room is only if it has the right version, a good name and the right room code |
| `RoomServers.RoomServer.Broadcast` | server/src/room.js:48-53 | Every member but the excepted one gets the message once, nobody else anything |
| `RoomServers.RoomServer.AllocateClientId` | server/src/room.js:62-69 | The loop returns the first unused of at most a hundred draws, or nothing |
| `RoomServers.RoomServer.PeersBut` | server/src/room.js:98-101 | The loop collects every other member with name and role, in joining order |
| `RoomServers.RoomServer.HandleHello` | server/src/room.js:77-117 | Room, sender's connection and everybody's frames become exactly those of the specification: fault order, capacity after validity, welcome then announcement |
| `RoomServers.RoomServer.HandleClaimControl` | server/src/room.js:119-132 | As specified: only a live member, only if control is free, announced to all |
| `RoomServers.RoomServer.HandleReleaseControl` | server/src/room.js:134-147 | As specified: only the member in control, announced to all |
| `RoomServers.RoomServer.HandleDelta` | server/src/room.js:149-183 | As specified: refusal before role check, repair snapshot for non-controllers, merge and relay to all others otherwise |
| `RoomServers.RoomServer.HandleMessage` | server/src/room.js:200-236 | The dispatch as a whole does to room, sender and every other connection what the specification function says, and keeps the room valid |
| `RoomServers.RoomServer.HandleDisconnect` | server/src/room.js:239-250 | The departed member is removed, its control freed and its departure announced to the rest; a second call does nothing |
| `RoomServers.RoomServer.HandleRequestSnapshot` | server/src/room.js:185-190 | Always answered with the canonical state, and nothing changes |
| `Playback.OverlayMeaning` | client/src/sync/SyncPublisher.cpp:14-36 | Applying coalesced changes equals applying the two in order, on every deck |
| `Playback.OverlayAllMeaning` | client/src/sync/SyncPublisher.cpp:14-36 | A whole run of changes collapses into one overlay with the same meaning |
| `Playback.FullDecides` | client/src/model/FullResyncDelta.h:15-28 | Changes determine the deck regardless of what it was if and only if they name every field |
| `Playback.ResyncExact` | client/src/model/FullResyncDelta.h:15-28 | Merging the full resync of a deck into any deck gives that deck; it is acceptable exactly if the deck is in range, and then clamping changes nothing |
| `Playback.PreparedAcceptable` | client/src/state/StateManager.cpp:27-39 | Any non-empty local edit with a usable track id becomes acceptable to the server by clamping and position injection, and keeps the deck in range |
| `Playback.EditChangesWhatItNames` | client/src/state/StateManager.cpp:23-64 | A local edit within range changes exactly the fields it names; pressing play keeps the position |
| `Playback.EditTellsPosition` | client/src/state/StateManager.cpp:37-39 | What listeners and peers are told names one field more exactly if playing is set to true without a position, and that is the deck's own position |
| `Playback.EditStaysClose` | client/src/state/StateManager.cpp:27-39 | Out of range, each number named goes to its clamp and a loop to its part inside; everything else is as asked, or as it was |
| `Playback.ClampIsNearest` | client/src/model/Ranges.h:30-68 | A clamped number is the number of the range nearest to it |
| `Playback.ClampedLoopIsPart` | client/src/model/Ranges.h:43-48 | A clamped loop is the part of it inside the range of positions, or none |
| `Playback.MergeWhatIsThere` | client/src/state/StateManager.cpp:41-56 | Changes that name nothing change nothing, and merging twice is merging once |
| `Playback.UsualIdsAreValid` | server/src/validate.js:59-66 | Every id of up to 64 letters, digits, hyphens, underscores and single inner dots is a track id |
| `Playback.IdsAreFileNames` | server/src/validate.js:59-66 | A track id is a plain file name: no separator, no other directory, no space or control character |
| `Playback.OverlayAcceptable` | client/src/sync/SyncPublisher.cpp:14-36 | Coalescing acceptable changes gives acceptable changes; in particular playing:true keeps its position |
| `Playback.AcceptableIsClean` | client/src/model/Ranges.h:51-68 | Acceptable changes pass the receiver's clamp unchanged and keep a deck in range |
| `Publishing.StepMeaning` | client/src/sync/SyncPublisher.cpp:68-140 | One event: what it sends, then what stays pending, means what was pending, then what it forwarded; a pending delta has a running timer |
| `Publishing.RunMeaning` | client/src/sync/SyncPublisher.cpp:68-140 | On every run, per deck: deltas sent so far followed by the pending one fold to the same deck as all forwarded local changes; a pending delta always has a running timer |
| `Publishing.RunSpaced` | client/src/sync/SyncPublisher.cpp:80-125 | Without a forced flush, two sends for one deck are never less than 1000/30 ms apart, on every run and however the clock moves |
| `Publishing.ForwardedLeaves` | client/src/sync/SyncPublisher.cpp:68-125 | On every run: by the first tick at least 1000/30 ms after a change was forwarded there has been a moment since at which everything forwarded for its deck had left, whatever happened meanwhile, if the clock had not stepped back behind the deck's last send |
| `Publishing.LeavesByTick` | client/src/sync/SyncPublisher.cpp:100-125 | What waits leaves by the first tick at least 1000/30 ms after the deck's last send |
| `Publishing.TickSends` | client/src/sync/SyncPublisher.cpp:100-125 | After a tick no deck has a change pending whose last send is 1000/30 ms ago or longer, or that has never sent; decks with nothing to send are untouched, and the timer runs on exactly if something waits |
| `Publishing.SendsAtOnce` | client/src/sync/SyncPublisher.cpp:80-98 | A local change of a connected controller leaves at once, with all that was pending, exactly if the deck's last send is at least 1000/30 ms ago or there was none; otherwise it waits with a running timer |
| `Publishing.OthersSendNothing` | client/src/sync/SyncPublisher.cpp:43-50 | A change that is remote, or of a client that is not connected or not in control, is neither sent nor kept |
| `Publishing.FlushSends` | client/src/sync/SyncPublisher.cpp:127-140 | A flush leaves nothing pending and stops the timer |
| `Publishing.StepAcceptable` | client/src/sync/SyncPublisher.cpp:68-140 | If what the publisher is given is acceptable, so is everything it keeps pending and everything it sends |
| `SyncPublishers.SyncPublisher.OnApplied` | client/src/sync/SyncPublisher.cpp:43-50 | The listener gate: only local changes of a connected controller are handled, everything else leaves all state and the sent deltas alone |
| `SyncPublishers.SyncPublisher.HandleLocalDelta` | client/src/sync/SyncPublisher.cpp:68-78 | Arrays, timer and sent deltas become those of the specification function |
| `SyncPublishers.SyncPublisher.MaybeSend` | client/src/sync/SyncPublisher.cpp:80-98 | Sends through an open window, otherwise keeps the delta and makes sure the timer runs |
| `SyncPublishers.SyncPublisher.TimerCallback` | client/src/sync/SyncPublisher.cpp:100-125 | The loop over both decks equals the specification: it sends what has waited its window and stops the timer only if nothing is left |
| `SyncPublishers.SyncPublisher.FlushNow` | client/src/sync/SyncPublisher.cpp:127-145 | The loop sends everything pending and stops the timer |
| `StateManagers.StateManager.Merged` | client/src/state/StateManager.cpp:41-56 | Overwriting field by field is merging the present fields |
| `StateManagers.StateManager.Clamped` | client/src/model/Ranges.h:51-68 | The field-by-field clamp equals the specification; a loop no longer ordered after clamping is dropped |
| `StateManagers.StateManager.ApplyDelta` | client/src/state/StateManager.cpp:23-64 | Empty changes do nothing; otherwise the deck named is clamped, completed by its position if playback starts locally, merged, and listeners are told exactly what was merged; the other deck is untouched |
| `MainComponents.MainComponent.Receive` | client/src/sync/WebSocketTransport.cpp:207-297 | Dispatch and handler of every server message: client state and outgoing frames become exactly those of the function the system model runs on |
| `MainComponents.MainComponent.HandleWelcome` | client/src/app/MainComponent.cpp:193-226 | Identity, role, decks and the rebuilt peer list as specified, marked connected first |
| `MainComponents.MainComponent.HandleDelta` | client/src/sync/WebSocketTransport.cpp:232-267 | An unparsable delta is dropped; otherwise the drift check, the clamp, the sequence number and the merge, in that order |
| `MainComponents.MainComponent.HandleRoleChanged` | client/src/app/MainComponent.cpp:246-271 | Own role: updated, and exactly on becoming controller both full resyncs go out; other roles: the peer list |
| `MainComponents.MainComponent.HandleConnectionChange` | client/src/app/MainComponent.cpp:313-333 | Losing the connection makes the client a nameless observer without peers; decks and pending changes stay |
| `MainComponents.MainComponent.ApplyDeckSnapshot` | client/src/app/MainComponent.cpp:365-389 | A deck that parses replaces the local deck, clamped; any other leaves it |
| `MainComponents.MainComponent.ApplySnapshot` | client/src/app/MainComponent.cpp:391-401 | Only the decks mentioned are replaced |
| `MainComponents.MainComponent.AddOrUpdatePeer` | client/src/app/MainComponent.cpp:49-74 | The search loop updates the entry of that id in place, or appends if the list has room; unusable names are skipped |
| `MainComponents.MainComponent.SetPeerRole` | client/src/app/MainComponent.cpp:262-269 | The loop sets the role of every entry with that id and nothing else |
| `MainComponents.MainComponent.ErasePeer` | client/src/app/MainComponent.cpp:287-296 | The loop removes exactly the entries with that id, keeping the order |
| `MainComponents.MainComponent.PushFullResync` | client/src/app/MainComponent.cpp:340-348 | Both decks go out in full, A first, and no local state changes |
| `MainComponents.MainComponent.ChangeLocally` | client/src/state/StateManager.cpp:23-64 | A user change is merged and then offered to the publisher; state and outgoing frames as specified |
| `MainComponents.MainComponent.TimerFires` | client/src/sync/SyncPublisher.cpp:100-125 | A timer tick sends what the specification sends and changes nothing else of the client |
| `Clients.NoEcho` | client/src/app/MainComponent.cpp:228-296 | A client answers the room with nothing but a request for a snapshot after a readable delta whose number does not advance, and both resyncs on being given control |
| `Clients.DecksStayInRange` | client/src/app/MainComponent.cpp:365-401 | Whatever the room sends, even what no room should, both decks stay in range; unreadable changes leave the client exactly as it was |
| `Clients.AppliedStaysInRange` | client/src/state/StateManager.cpp:23-64 | Whatever is applied to a deck, locally or from outside, leaves it in range |
| `Clients.OnlyControllersSend` | client/src/sync/SyncPublisher.cpp:43-50 | A local change alters its own deck alone, by exactly the fields named if they are in range, and is sent only by the client in control |
| `Clients.DisconnectedKeeps` | client/src/app/MainComponent.cpp:313-333 | A lost connection keeps decks, pending changes and timer, and leaves a client that is nobody, observes, sees nobody and sends nothing |
| `Clients.AnnouncedIsListed` | client/src/app/MainComponent.cpp:49-74 | A peer announced is listed under its id unless its name is unusable or eight others are; no other entry changes |
| `Clients.GoneIsUnlisted` | client/src/app/MainComponent.cpp:287-296 | A peer that left is not listed, every other is as it was |
| `Clients.RoleIsListed` | client/src/app/MainComponent.cpp:262-269 | A change of role changes the role of that peer alone |
| `Wire.DeltaRoundTrip` | client/src/model/Serialization.cpp:438-526 | Parsing what the client builds gives the delta back if its track id and loop are usable, and fails otherwise |
| `Wire.AcceptedIffAcceptable` | server/src/validate.js:131-195 | The server accepts a delta the client builds if and only if its changes are acceptable |
| `Wire.AcceptedIsWritten` | server/src/validate.js:186-195 | Every message the server accepts as a delta is the one the client builds for acceptable changes, so the typed form loses nothing |
| `Wire.RelayedIsParsed` | server/src/room.js:180 | What the server relays for an accepted delta parses at the receiver to the very delta sent, the clamp leaves it unchanged, and it carries the sequence number |
| `Wire.MergesAgree` | server/src/room.js:172-178 | Reading the deck object after the server overwrote its fields equals merging the parsed delta into the deck, and clamping the result changes nothing |
| `Wire.SnapshotRoundTrip` | client/src/model/Serialization.cpp:209-327 | A deck's wire form reads back to the deck, and parses exactly if its track id and loop are usable |
| `Wire.WrittenIsRead` | server/src/validate.js:204-211 | A built delta reads at the server as that delta, or as malformed exactly if unacceptable |
| `Wire.DeltaSpelledOut` | client/src/model/Serialization.cpp:438-465 | Two messages in full: pressing play on deck B, and clearing the track, setting gain and loop and stopping repeat on deck A |
| `Wire.PlainMessages` | server/src/validate.js:204-211 | The messages that carry nothing read as what their type names |
| `Wire.HelloIsHeard` | server/src/validate.js:102-122 | A written hello reads as it is meant, and is refused with 4001 unless its version is 2, then with 4000 or 4004 |
| `Wire.AbsentIsDefault` | client/src/model/Serialization.cpp:248-327 | What a deck object leaves out is no track, stopped, zero position, unit gain and rate, no pitch offset, no loop, repeating |
| `WireForm.WriteThenRead` | client/src/model/Serialization.cpp:223-246 | Reading the fields written for any changes gives the changes back |
| `WireForm.WrittenParses` | client/src/model/Serialization.cpp:128-197 | Written fields parse if and only if track id and loop are usable |
| `WireForm.ReadThenWrite` | client/src/model/Serialization.cpp:128-197 | Every object that parses is exactly what would be written for what it reads as |
| `WireForm.MergeOnTheWire` | server/src/room.js:175-177 | Overwriting the fields of a written deck by written changes gives the written merged deck |
| `Validation.ValidateTrackId` | server/src/validate.js:59-66 | The scans accept null or 1-64 allowed characters with no dot-only or dot-dot id, and nothing else |
| `Validation.ValidateNumericField` | server/src/validate.js:53-57 | Accepts exactly numbers within the range of the field |
| `Validation.ValidateLoop` | server/src/validate.js:68-90 | Accepts null or exactly two ordered bounds in range, and rebuilds an equal object |
| `Validation.ValidateChanges` | server/src/validate.js:131-178 | Accepts if and only if the object is non-empty, has known acceptable fields only and a position with playing:true; the assembled result has exactly the input's fields |
| `Validation.ValidateDelta` | server/src/validate.js:186-195 | Accepts if and only if keys, type, deck and changes are right, and returns that deck and those fields |
| `Validation.ValidateEnvelope` | server/src/validate.js:204-211 | Accepts exactly objects of a known type with no extra fields where none are taken |
| `Validation.MalformedIffRejected` | server/src/room.js:214-218 | The typed reading of a message is malformed if and only if its envelope or its delta is rejected |
| `Validation.ValidateHello` | server/src/validate.js:102-122 | The checks in the server's order yield the close code the room assigns to the typed hello, or none |
| `Validation.OkIsAcceptable` | server/src/validate.js:131-178 | A JSON object of changes is accepted if and only if it parses and its typed reading is acceptable |
| `Validation.MergeChanges` | server/src/room.js:174-177 | The entry-by-entry overwrite is the map union |
| `Serialization.WriteChanges` | client/src/model/Serialization.cpp:223-246 | The object filled field by field is the written form: exactly the present fields |
| `Serialization.ToVar` | client/src/model/Serialization.cpp:223-246 | The flat object: the deck beside exactly the present fields |
| `Serialization.BuildDelta` | client/src/model/Serialization.cpp:438-465 | The loop moves the deck to the top level and every other property under changes |
| `Serialization.ParseTrackId` | client/src/model/Serialization.cpp:128-138 | Null is the empty id; otherwise only usable ids are returned |
| `Serialization.ParseLoopValue` | client/src/model/Serialization.cpp:164-197 | Null is no loop; otherwise exactly two numbers in order |
| `Serialization.ParseFields` | client/src/model/Serialization.cpp:353-417 | The field-by-field parser succeeds if and only if every field parses, with the typed reading as result |
| `Serialization.FromVarState` | client/src/model/Serialization.cpp:248-327 | A deck object is read with absent fields at their defaults, or rejected |
| `Serialization.FromVarDelta` | client/src/model/Serialization.cpp:329-420 | A flat delta is read if and only if deck and fields parse |
| `Serialization.ParseDeltaMessage` | client/src/model/Serialization.cpp:506-526 | Only deck and changes are read; a deck property inside changes overrides |
| `Serialization.MessageServerSeq` | client/src/model/Serialization.cpp:528-542 | A number is returned if and only if the field is a whole number a 32-bit integer can hold, and then it is that number |
| `Messages.AdmittedNamesAreShown` | client/src/model/Serialization.cpp:488-491 | Every name the server admits passes the client's check on peers |
| `Messages.PlainNamesAreGood` | server/src/validate.js:115-116 | Every name of 1 to 32 printable ASCII characters is good for both ends |
| `Messages.AdmittedNamesHideNothing` | server/src/validate.js:115-116 | A name the server admits fits 32 UTF-16 units and holds no line break, zero-width character or change of direction |
| `Messages.ShownNamesAreOneLine` | client/src/model/Serialization.cpp:488-491 | What a client shows of a peer is one line of 1 to 32 characters |
| `RateLimiting.LevelIsLeastAllowance` | server/src/server.js:106-129 | The bucket is exact: its level at a charge is the least, over all windows starting at an earlier charge or itself, of burst + rate * elapsed - served, and some window attains it |
| `RateLimiting.ServedIffWithinEnvelope` | server/src/server.js:125-129 | A frame is served if and only if serving it keeps every window within burst + rate * elapsed |
| `RateLimiting.WindowBound` | server/src/server.js:106-129 | No window is ever served more than burst + rate * elapsed, even if the clock steps back |
| `RateLimiting.SteadyClock` | server/src/server.js:106-109 | On a clock that never steps back the elapsed time is that of the clock |
| `RateLimiting.Episodes` | server/src/server.js:131-154 | A ban comes if and only if an unbroken run of denied charges has lasted longer than the limit; the limiter replies exactly to the first charge of each run |
| `RateLimiting.BannedAfterFiveSeconds` | server/src/server.js:131-154 | By default a connection is banned exactly when it has been denied without a break for more than five seconds |
| `RateLimiting.PublisherNeverLimited` | client/src/sync/SyncPublisher.cpp:80-125 | For every run of any publisher without flush, fresh or of a client that reconnects, any in-order channel with bounded jitter and a bounded number of other frames fitting 2 + 0.06 * jitter + extra <= 120: every frame is served |
| `RateLimiting.LongSessionsNeverLimited` | client/src/sync/SyncPublisher.cpp:80-125 | However long the session: if all frames that are not one deck's deltas (the other deck's, pings, claims) stay within half the sustained rate plus extra in every window, and 1 + 0.03 * jitter + extra <= 120, every frame is served |
| `RateLimiting.OtherFramesMustFit` | server/src/server.js:106-129 | Two decks at full rate use up the sustained rate: in any window of theirs served throughout, the other frames, pings included, are at most the burst |
| `Connections.Reachable` | server/src/server.js:172-210 | In every reachable state the pre-hello count is the number of records holding a slot and at most four times the capacity; a record holds a slot and a hello timer exactly while it has neither joined nor been ejected; records with an id and members correspond; three strikes imply ejection |
| `Connections.OneRecordEach` | server/src/server.js:245-261 | A connection is the member of an id if and only if its record has that id, and no two records share one |
| `Connections.RoomMoves` | server/src/server.js:272-311 | The room changes exactly when it handles a served text message of a connection that is not ejected, under that connection's own id, or when a socket is gone |
| `Connections.EjectedIsInert` | server/src/server.js:272-283 | No frame, ping or timer of an ejected connection changes anything |
| `Connections.NeverJoins` | server/src/server.js:195-210 | A connection ejected before its hello is in the room in no later state of any run |
| `Connections.RecordIsItsHistory` | server/src/server.js:125-167 | On every run a record's bucket is that of its charges, its count is the number of malformed messages since the last handled one, and it has been sent one rate-limited notice for every unbroken run of denied charges |
| `Connections.EjectionTraces` | server/src/server.js:125-167 | On every run: closed with 4003 if and only if a charge ends an unbroken run of denied ones longer than the limit; closed with 1008 if and only if the frame is binary or is the third malformed message with no handled one in between |
| `Connections.TakenOnIff` | server/src/server.js:183-261 | On every run a socket is taken on exactly if fewer than four times the room's capacity have yet to join; it starts with a full bucket and nothing else, and no other record changes |
| `Connections.TimeoutCloses` | server/src/server.js:263-270 | On every run the hello timer closes with 4000 exactly a connection that has neither joined nor been closed, and changes nothing otherwise |
| `Connections.GarbageIsAnswered` | server/src/server.js:284-299 | Text that is no JSON costs a connection that has not joined its socket with 4000; a member gets one bad-message frame and one strike, and is closed exactly at the third |
| `Connections.TooLargeCloses` | server/src/server.js:225-240 | Handling a message closes with 1011 exactly those others who are sent a frame too large for them |
| `Connections.ShutdownCloses` | server/src/server.js:381-387 | A shutdown closes every open connection with 1001 and frees every slot |
| `Connections.GoneForGood` | server/src/server.js:339-354 | Once its socket is gone a connection has no record and is no member; every other record stays |
| `ConnectionServers.ConnectionServer.ReleaseHelloWatch` | server/src/server.js:172-181 | Timer and slot are released and counted once |
| `ConnectionServers.ConnectionServer.Close` | server/src/server.js:195-210 | Only the first close takes effect, and it releases the slot |
| `ConnectionServers.ConnectionServer.Charge` | server/src/server.js:125-155 | Bucket, episode start, rate-limited notice, ban and result as specified |
| `ConnectionServers.ConnectionServer.CountInvalid` | server/src/server.js:157-167 | The third strike closes with 1008 |
| `ConnectionServers.ConnectionServer.OnConnection` | server/src/server.js:183-261 | A record is created unless the ceiling is reached |
| `ConnectionServers.ConnectionServer.CloseEach` | server/src/server.js:381-387 | Closing connections one by one, in any order, is closing the set |
| `ConnectionServers.ConnectionServer.Shutdown` | server/src/server.js:381-387 | Every connection is closed with 1001 and every slot freed |
| `ConnectionServers.ConnectionServer.HandleText` | server/src/server.js:301-309 | Room, closures during sending, slot and strikes after one message as specified |
| `ConnectionServers.ConnectionServer.OnMessage` | server/src/server.js:272-311 | The whole frame handler as specified: ejected, binary, charge, malformed text with its notice, message |
| `ConnectionServers.ConnectionServer.OnPingOrPong` | server/src/server.js:316-329 | Control frames are charged unless the connection is ejected |
| `ConnectionServers.ConnectionServer.OnHelloTimer` | server/src/server.js:263-270 | The hello timer closes a connection that has not joined |
| `ConnectionServers.ConnectionServer.OnClose` | server/src/server.js:339-354 | The record is dropped, its slot freed, and the member removed from the room |
| `Engine.RawHeadContinues` | client/src/engine/BufferPlaybackSource.cpp:287-295 | On every run, whatever rate, loop, repeat, pitch and ratio do between blocks and whatever the latency, the frames pulled are one stream, each block going on exactly where the raw head stopped |
| `Engine.SplitIndependence` | client/src/engine/BufferPlaybackSource.cpp:275-335 | While parameters stay, however rendering is split into blocks and whatever the latency, the frames pulled are those of one uninterrupted pull and the raw head ends where it ends |
| `Engine.RunKeepsTempo` | client/src/engine/BufferPlaybackSource.cpp:277-285 | On every run of announced blocks at rates that may change from block to block, the frames pulled by every prefix are floor(sum of n_i * rate_i) if and only if each block brings that sum past another whole number |
| `Engine.FullRunKeepsTempo` | client/src/engine/BufferPlaybackSource.cpp:277-285 | On every run whose blocks are each due at least a frame, the frames pulled are floor(sum of n_i * rate_i) |
| `Engine.BlockPulls` | client/src/engine/BufferPlaybackSource.cpp:287-295 | One block: adding back what was subtracted restores the raw head exactly |
| `Engine.BetweenNeighbours` | client/src/engine/BufferPlaybackSource.cpp:324-343 | The value read at a position lies between the two frames around it, and at a whole position is the frame there |
| `Engine.ClosedForm` | client/src/model/LoopWrap.h:17-25 | The k-th position read under a loop or repeat is start + k * ratio, wrapped once by the remainder |
| `Hearing.ReadAt` | client/src/engine/BufferPlaybackSource.cpp:302-335 | Under a loop or repeat, frame k is read at p + k * ratio less a whole number of turns of the loop or the track, none before its first end, and always inside the track |
| `Hearing.ReadAfter` | client/src/engine/BufferPlaybackSource.cpp:275-335 | With the ratio of the two sample rates, after t seconds of frames at the device rate the track is read t seconds further on, at its own rate, less whole turns |
| `Hearing.SecondsForSeconds` | client/src/engine/BufferPlaybackSource.cpp:275 | A second of device time is a second of audio |
| `PlaybackSources.BufferPlaybackSource.RatioIsThatOfTheRates` | client/src/engine/BufferPlaybackSource.cpp:245-275 | The ratio times the device's rate is the track's rate; without one of the two it is one |
| `PlaybackSources.BufferPlaybackSource.SetupConverts` | client/src/engine/BufferPlaybackSource.cpp:245-275 | So blocks are rendered with a setup that plays the track at its own speed |
| `Hearing.PlaysToTheEnd` | client/src/engine/BufferPlaybackSource.cpp:306-347 | Without loop and repeat, frame k is read at p + k * ratio while that is before the last frame, and is silence from there on |
| `Hearing.EndsWhenOver` | client/src/engine/BufferPlaybackSource.cpp:318-354 | And a pull runs dry exactly if its last frame would be read there |
| `Hearing.PositionIsHeard` | client/src/engine/BufferPlaybackSource.cpp:397-412 | On every run from a fresh start, while nothing wraps or runs out: the published position is where the rate takes the start in the output frames rendered beyond the latency, short only of the carry, which is less than a frame |
| `Hearing.WhereABlockBegins` | client/src/engine/BufferPlaybackSource.cpp:201-219 | A reset and only a reset drops what the stretcher holds back, and the head goes on from where the sound was; a seek puts the published position where it was asked for; neither starts or stops playback |
| `Hearing.SilentBlocks` | client/src/engine/BufferPlaybackSource.cpp:222-243 | A source not playing, an empty block or one larger than announced is silent and moves nothing; an empty track stops |
| `Hearing.RenderedBlock` | client/src/engine/BufferPlaybackSource.cpp:355-371 | A rendered block asks the stretcher once, for its own length at its own pitch, and what that returns is heard at its own gain |
| `Hearing.AudioAgain` | client/src/engine/BufferPlaybackSource.cpp:378-395 | A block that finds audio to its end keeps playing and calls off a tail that had begun |
| `Hearing.LinesAreKept` | client/src/engine/BufferPlaybackSource.cpp:324-343 | A signal that is a straight line between two frames is read as that line |
| `Hearing.SidesHeard` | client/src/engine/BufferPlaybackSource.cpp:262-270 | The left side hears the first channel, the right side the second, or the only one |
| `Engine.NeverDry` | client/src/engine/BufferPlaybackSource.cpp:306-322 | With a non-empty loop inside the track, or repeat on a track of at least two frames, no pull from a head at or after zero runs dry |
| `Engine.TinyBlocksDrift` | client/src/engine/BufferPlaybackSource.cpp:281 | A run of two one-frame blocks at half speed feeds the stretcher two frames where one is due |
| `Engine.RunPulls` | client/src/engine/BufferPlaybackSource.cpp:280-285 | On every run of a playing source with announced block sizes, at rates that may change from block to block, the frames fed to the stretcher and the carry are those of the tempo arithmetic |
| `Engine.CapacityNeverBinds` | client/src/engine/BufferPlaybackSource.cpp:185-190 | For announced block sizes and rates in range the capacity never limits a pull |
| `Engine.SelfStop` | client/src/engine/BufferPlaybackSource.cpp:378-395 | While every block runs dry, whatever parameters do between blocks, the source is still playing if and only if the blocks hold no more output frames than the latency: it stops after at least L+1 frames and in the first block that reaches that |
| `Engine.TailStops` | client/src/engine/BufferPlaybackSource.cpp:318-395 | Once a block has run dry and parameters stay, every further block runs dry and the source stops by that count |
| `Stretching.UnitPlayback` | client/src/engine/BufferPlaybackSource.cpp:362-371 | Unit rate, equal sample rates, repeat, identity stretcher, whole start p: for every split into blocks, output frame k is the gain times frame (p+k) mod (N-1) of the track |
| `Stretching.IdentityTimeStretcher.Process` | client/src/engine/IdentityTimeStretcher.cpp:25-53 | The output is the linear resampling of the input at equal steps from the read position, nothing else is written, and the read position ends where it was |
| `Stretching.IdentityCopies` | client/src/engine/IdentityTimeStretcher.cpp:25-53 | As many frames out as in come out unchanged |
| `Stretching.ResampledLine` | client/src/engine/IdentityTimeStretcher.cpp:34-47 | An input that is a straight line between two frames is resampled as that line, on either side |
| `Stretching.ResampledEnd` | client/src/engine/IdentityTimeStretcher.cpp:37-45 | Past its last frame an input is held |
| `PlaybackSources.SetLoopIsSafe` | client/src/engine/BufferPlaybackSource.cpp:102-124 | A loop set on a loaded track is one that never runs dry exactly if its points are ordered and it starts inside the track, and inert otherwise |
| `PlaybackSources.RegionIsTheLoop` | client/src/engine/BufferPlaybackSource.cpp:102-124 | Within the track, the region set is the loop asked for; no loop asked for is none set |
| `PlaybackSources.BufferPlaybackSource.PrepareToPlay` | client/src/engine/BufferPlaybackSource.cpp:172-191 | Sizes the scratch buffer and keeps the render state |
| `PlaybackSources.BufferPlaybackSource.Load` | client/src/engine/BufferPlaybackSource.cpp:34-72 | The next block starts at zero with a reset stretcher and no loop; the repeat setting survives |
| `PlaybackSources.BufferPlaybackSource.SetLoop` | client/src/engine/BufferPlaybackSource.cpp:102-124 | The inactive slot gets the region in frames, limited to the track, and becomes active; the other slot is untouched |
| `PlaybackSources.BufferPlaybackSource.RequestSeek` | client/src/engine/BufferPlaybackSource.cpp:133-154 | The next block starts at the requested position; the stretcher is reset exactly for jumps over a second (or if already requested) |
| `PlaybackSources.BufferPlaybackSource.Pull` | client/src/engine/BufferPlaybackSource.cpp:295-354 | The scratch buffer holds the ideal stream from the raw head, silence after it runs dry; head and dryness as in the stream |
| `PlaybackSources.BufferPlaybackSource.WriteOut` | client/src/engine/BufferPlaybackSource.cpp:364-371 | For a destination of any number of channels: at most two are written, scaled, further ones are cleared, and nothing outside the block changes |
| `PlaybackSources.BufferPlaybackSource.Settle` | client/src/engine/BufferPlaybackSource.cpp:378-412 | The tail's countdown, the self-stop and the latency-compensated position |
| `PlaybackSources.BufferPlaybackSource.RenderInto` | client/src/engine/BufferPlaybackSource.cpp:272-412 | A rendered block leaves state and destination as specified |
| `PlaybackSources.BufferPlaybackSource.TakeQuota` | client/src/engine/BufferPlaybackSource.cpp:277-285 | Whole frames due, at least one, limited by the buffer; the rest is carried |
| `PlaybackSources.BufferPlaybackSource.GetNextAudioBlock` | client/src/engine/BufferPlaybackSource.cpp:195-413 | State and destination, of any number of channels, after a block are those of the specification: requests, early outs, pull, stretch at the pitch set, gain, tail, audible position; nothing outside the block is written |
| `Reclaim.NeverFreedWhileRead` | client/src/engine/BufferPlaybackSource.cpp:26-72 | In every interleaving of load and render steps, for every margin, the buffer being read is owned by the current slot, the retire list or the running load |
| `Reclaim.DroppedOnlyWhenOver` | client/src/engine/BufferPlaybackSource.cpp:26-32 | A dropped entry is older than the margin, and if its buffer is being read something else still owns it |
| `Reclaim.KeptExactly` | client/src/engine/BufferPlaybackSource.cpp:26-32 | The sweep keeps exactly the entries no older than the margin |
| `Reclaim.SweepIsExact` | client/src/engine/BufferPlaybackSource.cpp:26-72 | In every interleaving a load drops exactly the entries that more than the margin of blocks have begun after, counted when the load begins: old buffers are freed |
| `Reclaim.RetiredWhenReplaced` | client/src/engine/BufferPlaybackSource.cpp:34-72 | What a load replaces is retired with the number of blocks begun when it was replaced, and nothing else is |
| `BeatSync.SyncWorks` | client/src/model/BeatSync.h:49-105 | With both tempos known and the playhead from half a beat before the track's start on: the decks are in phase at every later time if and only if the matching rate is in range and the nudge was neither dropped nor clamped, or was zero for a playhead in range, or, half a beat before the start, points half a beat back |
| `BeatSync.SyncWorksAnywhere` | client/src/model/BeatSync.h:49-105 | With both tempos known, wherever the playhead is: the decks are in phase at every later time if and only if the matching rate is in range and the nudge is neither dropped nor clamped or the playhead, moved into the range of positions, was in phase already |
| `BeatSync.SyncStaysInTrack` | client/src/model/BeatSync.h:92-105 | A playhead in a track of known length stays in it, moves at most half a beat, and only to where beats align; the nudge is taken exactly if it stays in the track |
| `BeatSync.TempoIsNearest` | client/src/model/BeatSync.h:54-59 | The rate is the one in range nearest to the matching rate |
| `BeatSync.NudgeAligns` | client/src/model/BeatSync.h:64-90 | The nudge aligns the beats and is at most half a beat |
| `BeatSync.NudgeIsSmallest` | client/src/model/BeatSync.h:84-90 | No aligning correction is smaller in magnitude |
| `BeatSync.ForeverIff` | client/src/model/BeatSync.h:54-59 | Two decks stay in phase for ever if and only if they are in phase now and their beat rates are equal |
| `Listeners.AlwaysSettled` | client/src/state/CrossfaderState.cpp:8-26 | Whatever listeners do when called (set, add, remove, nested), whenever an outermost call has returned every listener registered at the last change and still registered was last given the current position |
| `Listeners.SetFollows` | client/src/state/CrossfaderState.cpp:8-26 | Setting sets the value asked for, moved to the nearer end if out of range, and with nested calls everybody is left with the last position anybody set |
| `Listeners.SetTells` | client/src/state/CrossfaderState.cpp:8-26 | If its callbacks set nothing, setting a new position leaves it, changes it once, and every listener registered throughout has been told it |
| `Listeners.SetAgain` | client/src/state/CrossfaderState.cpp:12-16 | Setting the position there is changes nothing and calls nobody |
| `Listeners.WhoIsRegistered` | client/src/state/TokenListenerList.h:21-28 | Registering adds a token never handed out, deregistering takes that one alone, neither calls anybody |
| `Listeners.AlwaysInRange` | client/src/state/CrossfaderState.cpp:8-26 | The crossfader starts in the middle and stays between its ends |
| `Listeners.WalkSettles` | client/src/state/TokenListenerList.h:41-63 | A walk that starts at the announced position, with all earlier listeners told, ends with everybody told, superseded or not |
| `Listeners.VisitsIncrease` | client/src/state/TokenListenerList.h:41-63 | One walk calls listeners in strictly increasing token order |
| `Listeners.NobodyMissed` | client/src/state/TokenListenerList.h:41-63 | A walk that is not superseded calls every listener that stays registered |
| `CrossfaderStates.CrossfaderState.SetPosition` | client/src/state/CrossfaderState.cpp:8-26 | The re-entrant method ends in the state of the specification |
| `CrossfaderStates.CrossfaderState.Notify` | client/src/state/TokenListenerList.h:41-63 | The walk loop, with a fresh lookup at every step, ends in the state of the specification |

## Left out

- Sockets, TLS, origin check, heartbeat, buffered-byte limit: a socket may close at any time in the models instead.
- Threads and marshalling in the client: a dispatched message and its marshalled callback are one in-order step.
- StateManagers.StateManager.ApplyDelta: the walk over its listeners is represented by the change it hands out, which its one modelled listener, the publisher, is given.
- RateLimiting.PublisherNeverLimited: bounds the other frames of the whole session, which two decks at full rate need (`RateLimiting.OtherFramesMustFit`); neither it nor `RateLimiting.LongSessionsNeverLimited` is composed with the system model, in which no frame is dropped by the limiter; the two meet in the assumption that channels are lossless for a conforming client.
- Replication: ejection of a client is a step that may happen at any time; `Connections` says when the server does it.
- Connections.Reachable: a handler that throws (server/src/server.js:97-104) is not modelled.
- ConnectionServers.ConnectionServer.OnMessage: a throwing handler is left out; records are values in a map the methods reassign, so aliasing of record objects is not captured; closures during a broadcast are applied after the room's call, which they cannot influence.
- Serialization.ParseFields: stands for the two copies of the field parsers in `fromVar<PlaybackState>` and `fromVar<StateDelta>`; reason texts of rejections are left out on both sides.
- Server messages other than deltas, decks of snapshots and the sequence number are modelled after parsing; JSON text, UTF-8, unpaired surrogates and the 4096-byte limit of the client are left out, and which outgoing server frames are too large is a parameter.
- IEEE floating point, NaN and the narrowing of doubles to floats: reals instead.
- Engine.RawHeadContinues: about the frames pulled between resets, seeks and loads; the output of a stretcher may depend on how it is called, and what a real stretcher computes is a parameter (SignalsmithTimeStretcher is not part of this model).
- PlaybackSources.BufferPlaybackSource.GetNextAudioBlock: message-thread calls do not overlap a block.
- PlaybackSources.BufferPlaybackSource.PrepareToPlay: the call that prepares the stretcher for a sample rate is left out; a stretcher is a function of the calls made to it.
- Reclaim.NeverFreedWhileRead: sequentially consistent; weak memory and the seek-flag and loop-slot handshakes under overlapping publishes are left out.
- Hearing.PositionIsHeard: about a stretcher whose one latency figure is right, at unchanging parameters and away from wraps; the source calls its compensation an approximation.
- Engine self-stop and clock corrections reach the shared state only as local changes; an observer that makes one is outside `Following.ObserverAgreement` until a covering frame.
- Publishing.RunMeaning: the 30 Hz timer is a tick at any time while it runs.
- Listeners.AlwaysSettled: for the crossfader; the state manager uses the same list.
- Hosts of the model's values: user interface, track repository (valid track ids are a hypothesis), beat detection, device handling, configuration and logging.
- Cosine and sine crossfader gains, control gating, close-code texts: easy or transcendental members.
