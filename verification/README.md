# Verification of the file-sharing signaling server and its browser clients

A Dafny model of the parts of the system where state, branching and arithmetic meet:
the signaling hub with the clients' view of a room, the encrypted data relay from the
sender's file to the receiver's, relay sessions and their login, the rate limiter, the
direct transfer, the relay key handshake and the transport fallback.

`dafny verify dfyconfig.toml` checks everything.

## How it is laid out

| Part | Files |
|---|---|
| Rate limiter | `Limiter`, `LimiterRuns` |
| Hub (four tables under one lock) | `HubState` (each critical section as a function), `HubInvariant`, `HubLaws`, `Hub` (the class) |
| Hub, connections and clients together | `Client`, `Roster`, `RosterTheorems`, `RosterWitness`, `RoomLife`, `Joining` |
| Passwords and session tokens | `Store`, `StoreRuns`, `Auth` |
| Relay sessions | `RelaySession` |
| Hub, login and relay together | `Server` |
| Files, chunks, progress | `Transfer` |
| Relay path | `RelayTransfer` (sender), `Bridge`, `RelayReceiver`, `RelayPicks`, `RelayEndToEnd` |
| Direct path | `Direct` (sender), `DirectReceiver` (receiver and round trip) |
| Relay key handshake | `KeyExchange`, `KeyAgreement`, `QuietHandshake`, `Orphans` |
| Transport fallback | `Orchestrator` |

Everything the program updates in place is a class whose methods loop and assign as the
program does. Each method is proved equal to a step function on a value (`View() ==
Step(old(View()), ...)`); the properties are then proved of whole runs of those steps, or of
all interleavings of them. What an operation is for is stated from outside: from the events of
a run, from who is where and from the numbers of the design, without naming the step functions,
so a step function and its method that were wrong together would not meet it.

## Where the code and its documentation, or a hoped-for property, part ways

The model follows the code. In each case the exact condition is proved.

- **Five relay sessions.** The design document wants at most five active sessions. The count is tested
  when a session is approved and not when it becomes active. `RelaySession.WithinCapIff`: the
  cap holds in exactly those runs in which, while it is reached, no peer takes its free side of
  an approved session in time with the other side there.
  `RelaySession.AnyNumberAtOnce`: any number of bridges can run.
- **50 MB.** The design document limits the file; the bridge counts wire bytes, so a 50 MB file never
  arrives. `RelayEndToEnd.CompletesIffItFits` is the exact limit.
- **The join acknowledgement.** The room is listed outside the hub's lock and the
  acknowledgement is queued later. `Roster` keeps the three steps apart: `RosterLaw` and
  `OfferLaw` say exactly who is believed present and who offers; roster agreement and the
  single offerer follow when every acknowledgement is queued while its list is still current,
  as when both are one step (`AtomicIsUntorn`).
  `RosterWitness` has a run in which nobody offers and one with a ghost member.
- **Generated codes.** After five collisions the loop falls through and overwrites a room:
  `HubInvariant.JoinKeepsInvIffCodeFree`. Registration trusts ids to be fresh:
  `HubInvariant.RegisterKeepsInvIffFresh`. `RosterWitness.FiveCollisions` is a run.
- **Expiry boundary.** `Consume` accepts at the very instant at which `Prune` removes:
  `Store.PruneUnobservableOffTheEdge` says when exactly the difference shows.
- **Names given twice.** `Remove` takes the first record of a name, which may be one that a
  prune would have dropped: `StoreRuns.AlikeIffRemovalsMatch` is the exact condition under which
  a pruned store stays indistinguishable, `RemovalShows` a run, and names never given twice
  meet it (`FreshNamesMatch`).
- **Exchanged or repeated frames.** The relay's frames carry no numbers and the receiver checks a
  byte count: `RelayPicks.PicksCompleteIffTheyAdd` says when any selection of a stream's frames,
  in any order, completes, `PicksIntactIff` when the guest then has the sender's file, and
  `ExchangedChunks` is a case in which it has not.
- **Empty file names.** The direct receiver ignores an announcement whose name is empty:
  `DirectReceiver.IntactIffNamed`; `NamelessVanishes` and `NamelessEndsTheOther` say what
  becomes of such a file.
- **Left-over relay keys.** A relay-key of an earlier send settles the next one:
  `KeyAgreement.AgreesIffOwnKeyAnswered` is the exact condition for both sides to hold one key,
  `QuietHandshake.LateKeyMismatch` a run in which they do not. The retry after login-required
  carries no public key, so a send begun with nothing left over that had to retry never gets a
  key (`QuietHandshake.RetriesGetNoKey`).
- **Promises that nothing settles.** The timers of the handshake look the guest up and not the
  send, and a guest's departure settles nothing. `Orphans.KeyTimeoutRejectsIffWatched` and
  `Orphans.RelayTimeoutRejectsIffWatched` say exactly when a timer settles its own promise;
  `WhyKeyOrphaned` and `WhyTokenOrphaned` name the causes, `LeftHanging`, `StaleTimerOrphans`
  and `RetriedOrphans` are runs.
- **A channel that closes under backpressure.** A direct send that is parked when its channel
  closes wakes if and only if the channel still flushes its buffer down to the threshold
  (`Direct.CloseStrandsUnlessFlushed`); if it drops the buffer, the promise never settles
  (`Direct.ParkedWhenItCloses`).

## What is assumed of the outside

- AES-GCM is a seal with an inverse and 16 bytes of tag (`Cipher.Lawful`); JSON is an encoding
  that gives back the announcements and the end mark, whose text has 14 characters
  (`Codec.Lawful`). In ECDH both sides get the same key (`Dh.Lawful`); where the converse matters,
  two public keys give one key exactly when they are the same point or opposite ones, as the key
  is an x-coordinate (`Dh.Exact`). A password digest is any function of secret and salt.
- Random ids, tokens, codes, IVs and secrets are inputs. Ids, tokens and codes do not repeat
  where an event is said to be enabled; the theorems named above say what happens when ids or
  codes do.
- Time is an input that does not go back: real seconds in the limiter and the bridge, integer
  nanoseconds elsewhere. The limiter's and the bridge's floating point is exact arithmetic
  over reals; the truncation of a sleep to whole nanoseconds is modelled.
- A data channel that closes may go on flushing its buffer, and then raises its event as an open
  one does, or drop it.
- What the network, the file reader, the timers and the users do is a script, an event
  sequence or a choice over which every theorem quantifies.

## Model

| member | source | states |
|---|---|---|
| Limiter.TokenBucket.constructor | server/limiter.go:18-26 | a bucket starts full |
| Limiter.TokenBucket.Allow | server/limiter.go:28-47 | one call refills up to the capacity, then grants and spends a token if a whole one is there |
| Limiter.TokensStayInRange | server/limiter.go:28-47 | in every run tokens stay between 0 and the capacity |
| Limiter.LevelIsTightestWindow | server/limiter.go:28-47 | the level kept in constant space is the smallest room left by any window ending now |
| Limiter.GrantedIffEveryWindowHasRoom | server/limiter.go:28-47 | a request is granted if and only if in every window ending now the grants and one more are at most capacity + rate times the window |
| Limiter.WindowBound | server/limiter.go:28-47 | in every run and window the grants are at most capacity + rate times the window |
| Limiter.IPRateLimiter.Allow | server/limiter.go:73-87 | creates the address's bucket on demand, asks it and stamps the access; other entries are untouched |
| Limiter.IPRateLimiter.Prune | server/limiter.go:89-99 | removes exactly the entries idle for longer than the limit |
| LimiterRuns.PruningIsUnobservable | server/limiter.go:73-99 | if a whole burst refills within the idle limit, the pruned limiter answers every request as a family of independent, never-pruned buckets does |
| LimiterRuns.UnobservableIffRefilled | server/limiter.go:73-99 | the condition is exact: otherwise some run tells the two apart |
| LimiterRuns.ProbeIsObservable | server/limiter.go:89-99 | such a run: drain, prune, drain again |
| LimiterRuns.AddressWindowBound | server/limiter.go:73-99 | with prunes anywhere, no address is admitted more than burst + rate times the window in any window |
| LimiterRuns.EntryIffRecent | server/limiter.go:73-99 | in every run exactly those addresses have an entry whose last request no prune since found idle for longer than its limit |
| LimiterRuns.ServerLimitersMeetTheCondition | server/hub.go:73 | 2 a second, burst 10, pruned after an hour: the condition holds |
| Hub.Hub.RegisterPeer | server/hub.go:95-112 | caps, then the peer and its address's count are entered |
| Hub.Hub.UnregisterPeer | server/hub.go:115-159 | the peer, its count and its place in the room go; the rest are told; an empty room is deleted |
| Hub.Hub.DeleteRoomInternal | server/hub.go:162-168 | the room and its host address's count go, a count at zero is removed |
| Hub.Hub.Broadcast | server/hub.go:138-149 | every target whose queue has room gets the message, no other queue changes |
| Hub.Hub.GenerateCode | server/hub.go:213-222 | the loop's choice among five tries |
| Hub.Hub.JoinOrCreateRoom | server/hub.go:179-279 | creating or entering a room, with every refusal |
| Hub.Hub.RouteMessage | server/hub.go:282-336 | forwards to a member of the sender's room and nobody else, with every refusal |
| Hub.Hub.ReapRooms | server/hub.go:339-365 | the nested loops delete exactly the idle rooms and put exactly their members out |
| HubInvariant.RegisterKeepsInvIffFresh | server/hub.go:95-112 | an accepted registration keeps the books if and only if its id is fresh |
| HubInvariant.UnregisterKeepsInv | server/hub.go:115-159 | counts, caps, mirroring and no empty room survive a departure |
| HubInvariant.CreateKeepsInvIffFree | server/hub.go:224-240 | creating a room keeps the books if and only if the code is free |
| HubInvariant.PickedCodeIsFree | server/hub.go:213-222 | the loop takes a code in use if and only if all five tries are in use |
| HubInvariant.JoinKeepsInvIffCodeFree | server/hub.go:179-279 | a refused join changes nothing; a join keeps the books except exactly when a peer that may open a room asks for a generated code and all five tries are in use |
| HubInvariant.EnterKeepsInv | server/hub.go:244-278 | entering a room keeps counts, caps and mirroring |
| HubInvariant.RouteKeepsInv | server/hub.go:282-336 | routing keeps the books |
| HubInvariant.NotifyKeepsInv | server/hub.go:421-456 | queueing a message for any peers keeps the books |
| HubInvariant.ReapKeepsInv | server/hub.go:339-365 | reaping any set of idle rooms keeps the books |
| HubInvariant.NothingLeaks | server/hub.go:115-159 | once no peer is registered all four tables are empty |
| HubLaws.RoutedIffTogether | server/hub.go:282-336 | a message is forwarded if and only if both share a room, the named room fits and the queue has room; then exactly the recipient gets it, from its true sender |
| HubLaws.LeavingTellsTheRest | server/hub.go:115-159 | exactly the room's other members are told; the room goes with its last member |
| HubLaws.ReapsExactlyTheIdle | server/hub.go:339-365 | exactly the idle rooms go, exactly their members are put out and told, and a second reaping does nothing |
| HubLaws.RegistrationIsUndone | server/hub.go:95-132 | registering and leaving restores the four tables |
| HubLaws.CreationIsUndone | server/hub.go:115-168 | opening a room and leaving ends as leaving alone would |
| RoomLife.StampIsLastStir | server/hub.go:282-309 | in every run a room's activity stamp is the time of the last activity in it: an entry, a member's departure, or a member's message that names it or no room |
| RoomLife.RoomGoesIff | server/hub.go:339-365 | whatever happens next, a room goes if and only if its last member leaves or it is reaped more than the limit after the last activity in it |
| Joining.ConnectedIff | server/hub.go:95-112 | in every run a connection is taken in, in no room, if and only if fewer than the maximum are connected, and fewer than the maximum from its address |
| Joining.OpensIff | server/hub.go:179-240 | in every run a joiner gets a room of its own, as its host, if and only if both caps leave space and the code it asks for, or one of five generated, is free; it is the first free one; otherwise the hub stays as it is |
| Joining.EntersIff | server/hub.go:244-278 | in every run a joiner enters, as a guest, if and only if the room exists and fewer than five are in it; exactly those are told |
| Joining.AcknowledgedTruthfully | server/ws.go:258-274 | every acknowledgement in a queue names the room its peer was let into, its role there and exactly the others then in it when it was listed |
| Client.GoClient.HandleJoined | web/src/go-transport.ts:64-73 | on the acknowledgement the client learns its id and its list and offers to the larger ids listed |
| Client.GoClient.HandlePeerJoined | web/src/peer.ts:28-32 | a newcomer is offered to only if the own id is known and smaller |
| Client.GoClient.HandleMessage | web/src/signaling.ts:255-298 | the dispatch of one queued event |
| Roster.StepKeepsInv | server/ws.go:239-292 | every step of hub, reader or client keeps, for every peer, what its queue and client together say about its room |
| Roster.AlwaysInv | server/ws.go:239-292 | so it holds in every reachable state, under any interleaving |
| RosterTheorems.BooksBalance | server/hub.go:95-279 | in every reachable state counts equal what they count, caps hold, no room is empty, rooms and peers mirror each other; with no peer nothing remains |
| RosterTheorems.RosterLaw | server/ws.go:258-274 | a member's roster, its queue delivered, is its room without itself plus exactly those listed who had left before the acknowledgement was queued |
| RosterTheorems.OfferLaw | web/src/go-transport.ts:64-77 | of two members the larger never offers; the smaller offers once, or not at all exactly if the other entered between its list and its acknowledgement |
| RosterTheorems.RosterAgreement | server/ws.go:258-274 | with acknowledgements queued while current, every roster is exactly the room without its owner |
| RosterTheorems.ExactlyOneOfferer | web/src/peer.ts:28-32 | then, queues drained, exactly one of two members has initiated, exactly once, whatever the join order |
| RosterTheorems.AtomicIsUntorn | server/ws.go:258-274 | in every run in which each acknowledgement is queued right after its list is taken, each is queued while current: taking both in one step is enough |
| RosterTheorems.ForwardedTruthfully | server/hub.go:282-336 | every forwarded message in any queue was sent by the peer it names, to this recipient, unaltered, while both shared a room |
| RosterWitness.NobodyOffers | server/ws.go:258-274 | a reachable state in which neither of two settled members will ever offer |
| RosterWitness.GhostOfTheHost | server/ws.go:258-274 | a reachable state in which a member believes in a departed peer |
| RosterWitness.FiveCollisions | server/hub.go:213-222 | a reachable state in which five collisions overwrite a room that still has its host |
| Store.PasswordStore.Add | server/store.go:81-86 | appends the record |
| Store.PasswordStore.Remove | server/store.go:89-99 | removes the first record of that id, keeping the order |
| Store.PasswordStore.Consume | server/store.go:112-133 | opens with the first usable matching record and removes it if one-time |
| Store.PasswordStore.Prune | server/store.go:160-175 | the compaction in place is the order-preserving filter of the unexpired |
| Store.PruneUnobservableOffTheEdge | server/store.go:112-133 | a later secret opens the same record as without the prune if and only if that record does not expire at the instant of the prune and of the use |
| Store.EdgeShows | server/store.go:160-175 | a password refused after a prune at the instant at which it was still accepted before |
| Store.OpensTheFirst | server/store.go:112-139 | a password opens the first unexpired record whose hash is that of the password with the record's salt |
| Store.OpensNone | server/store.go:112-139 | it opens none if and only if no record fits |
| Store.OwnSecretOpens | server/store.go:112-139 | a record made from a secret and alone in the store is opened by it until it expires, and used up if it is for one use |
| Store.PrunedStoreAnswersAlike | server/store.go:160-175 | at every strictly later time the pruned store opens the same record, and the two stores still agree afterwards |
| StoreRuns.AlikeIffRemovalsMatch | server/store.go:81-133 | over whole runs with every password tried strictly after the prunes before it, the store and the same store never pruned agree on the living records after each step if and only if each removal takes a living record from both or from neither |
| StoreRuns.PruningIsUnobservable | server/store.go:112-175 | then every password opens the very record that it would have opened had nothing been pruned |
| StoreRuns.FreshNamesMatch | server/store.go:177-183 | names never given twice make every removal match |
| StoreRuns.RemovalShows | server/store.go:89-99 | a run with a name given twice after which the two stores answer differently |
| StoreRuns.StoredIffStands | server/store.go:81-175 | in every run without repeated names exactly those records are stored that were added and since neither removed, nor expired at a prune, nor (one-time) used |
| StoreRuns.AcceptedIff | server/store.go:112-133 | so a password is accepted if and only if it fits such a record |
| Auth.AuthManager.Login | server/auth.go:43-57 | a password used at the first clock reading yields the token for its lifetime from the second, any other yields none |
| Auth.AuthManager.Validate | server/auth.go:60-76 | answers whether the token is held and unexpired, and drops it when expired |
| Auth.AuthManager.Prune | server/auth.go:79-90 | drops the tokens expired at the first clock reading and the records expired at the second |
| Auth.RecordsAreConserved | server/store.go:81-133 | over every run each copy of a record ever added is stored, was removed, was pruned, or (one-time) was used |
| Auth.OneTimeMeansOnce | server/store.go:112-133 | a one-time record accounts for at most one success for each time it was added |
| Auth.TokenValidIffIssued | server/auth.go:60-90 | a token is accepted if and only if it was entered at most its lifetime ago: deletion cannot be seen |
| Auth.TokensAreEarned | server/auth.go:43-57 | behind every token entered, whatever happened between the two halves of its login, is an earlier password that the store accepted |
| Auth.OneTokenALogin | server/auth.go:43-57 | no login earns two tokens |
| Auth.WaitsIffAccepted | server/auth.go:43-57 | in every run a login's token is still to be entered if and only if its password fitted a stored record and none was entered for it since |
| Auth.LoginIsItsSteps | server/auth.go:43-57 | a login that nothing interrupts is its two halves, and hands out its token if and only if the password was accepted |
| Auth.PruneIsItsSteps | server/auth.go:79-90 | a prune is the sweep and then the store's prune |
| Auth.SweptTableIff | server/auth.go:60-90 | after a sweep the table holds exactly the tokens entered at most their lifetime ago; a token that was tried is held exactly if it was |
| RelaySession.RelayManager.CreateSession | server/relay.go:58-97 | approves under the cap test, or refuses and changes nothing |
| RelaySession.RelayManager.TokenTimer | server/relay.go:84-93 | a token's timer drops it if still inactive |
| RelaySession.RelayManager.ConnectPeer | server/relay.go:100-143 | attaches one side, with every refusal; the second side starts the bridge and uses the token up |
| RelaySession.RelayManager.BridgeEnded | server/relay.go:149-158 | the count goes down once for each bridge |
| RelaySession.AlwaysInv | server/relay.go:58-158 | the approved table holds only inactive sessions waiting for a side; a token starts at most one bridge; host and guest differ; the count is the bridges running |
| RelaySession.BridgeOrigin | server/relay.go:100-143 | a bridge joins exactly the approved host and guest, each attached after the approval and within its 30 seconds |
| RelaySession.AttachedIffOwnSideFree | server/relay.go:100-143 | an attach is accepted if and only if the token is approved and in time and the peer's own side free, and starts the bridge if and only if the other side is there |
| RelaySession.SlotsAreWriteOnce | server/relay.go:117-131 | a slot once filled never changes |
| RelaySession.CountMovesIff | server/relay.go:134-158 | in every run the count rises, by one, exactly when a peer takes its free side in time while the other side is there, and falls, by one, exactly at the first stop of a bridge that was started |
| RelaySession.CountIsStartedLessEnded | server/relay.go:149-158 | in every run the count is the number of bridges started less the number of those stopped since |
| RelaySession.ApprovedIffFewerThanFive | server/relay.go:58-97 | in every run a fresh request is approved, for its two peers, if and only if fewer than five bridges started have not stopped |
| RelaySession.AllStoppedAdmits | server/relay.go:58-64 | once every bridge started has stopped the count is zero and a fresh request is approved |
| RelaySession.WaitingIffStands | server/relay.go:84-143 | in every run an approved token stands if and only if none of its own events ended it: its timer, an attach after 30 seconds, or the completion |
| RelaySession.WithinCapIff | server/relay.go:62-64 | the cap of five holds in exactly the runs in which, while it is reached, no peer takes its free side of an approved session in time with the other side there |
| RelaySession.AnyNumberAtOnce | server/relay.go:134-140 | any number of bridges can run at once |
| Server.SignalingServer.RequestedRoom | server/hub.go:369-385 | the room both are in, under the hub's lock |
| Server.SignalingServer.Decide | server/hub.go:387-444 | login, then session, and exactly what is to be told to whom |
| Server.SignalingServer.Tell | server/hub.go:446-456 | the answers are queued one after the other |
| Server.SignalingServer.HandleRelayRequest | server/hub.go:368-457 | a handling that nothing interrupts: nothing unless both are in one room; then, by login and cap, the refusal in the host's queue, or the session and the approval in both queues, the host's key in the guest's alone |
| Server.ApprovalsAreRequested | server/hub.go:368-457 | with anything between the steps of a request: every session ever approved was asked for by its host while both were in its room, and after that found logged in |
| Server.ApprovalsReachTheirTwo | server/hub.go:427-456 | whoever ever finds a relay approval in its queue is the host or the guest of a granted request, and only the guest finds the host's key |
| Server.AskIsTaken | server/hub.go:369-385 | in every run a relay request is taken up if and only if both are in one room |
| Server.LoginDecides | server/hub.go:387-401 | it goes on if and only if its login is valid; otherwise the host is to be told so |
| Server.ApprovalDecides | server/hub.go:412-444 | with fewer than five relays active the session stands for the two, and the host and then, with the host's key, the guest are to be told; otherwise the host alone, of the limit |
| Server.ToldInOrder | server/hub.go:446-456 | whatever else happens a request's answers are told in order, none twice and none left out |
| Server.BothWereTold | server/hub.go:427-456 | in every run, once an approved request has been answered, the approval was sent to the host and then, with the host's key, to the guest |
| Server.TellsArrive | server/hub.go:446-456 | and what was sent is in the two queues, unless they were full |
| Server.NoBridgeWithoutLogin | server/auth.go:43-76 | behind every bridge ever started is a login with an accepted password, whose token its host presented within the token's lifetime |
| Transfer.ChunksRebuild | web/src/relay-transfer.ts:93-108 | the chunks put together are the file |
| Transfer.ChunkCount | web/src/relay-transfer.ts:93-108 | ceil(size / 16384) chunks, none empty, none over 16384 |
| Transfer.OffsetsClimb | web/src/relay-transfer.ts:108-117 | progress rises strictly with every chunk and ends at the size |
| RelayTransfer.FrameOpens | web/src/crypto.ts:33-47 | opening a frame gives back what was sealed; a frame is 28 bytes longer than its plain text |
| RelayTransfer.EncryptFrame | web/src/crypto.ts:33-40 | the buffer filled in place is the IV and then the ciphertext |
| RelayTransfer.EncryptTagged | web/src/relay-transfer.ts:37-50 | the sealed frame of the type byte and the payload |
| RelayTransfer.WireLength | web/src/relay-transfer.ts:73-118 | ceil(size / 16384) + 2 frames of size + 29 a frame + the announcement + 14 bytes |
| RelayTransfer.WaitForRoom | web/src/relay-transfer.ts:95-103 | ends with the buffer at or under 1048576, or with the socket closed, and at once if it was under |
| RelayTransfer.SendChunks | web/src/relay-transfer.ts:93-112 | the chunk loop sends the stream's frames in order, total - offset falling, under the buffer's bound |
| RelayTransfer.SendFileOverRelay | web/src/relay-transfer.ts:73-118 | whatever the network does, what left is the stream's first frames, all of them if the socket stayed open; progress is the offsets and then the size; if the announcement leaves the buffer under the mark it never exceeds 1048576 + 16413 + 43 |
| Bridge.CutIsTheLongestFit | server/relay.go:190-198 | a prefix of the messages is within the cap if and only if it is no longer than the cut |
| Bridge.Throttle | server/relay.go:200-206 | after the sleep the bytes so far are at most 1048576 a second of elapsed time, up to a nanosecond |
| Bridge.RunBridge | server/relay.go:146-227 | the guest gets a prefix, at most 52428800 bytes, every write in its time; it is the longest prefix within the cap unless a read or write fails or outside delays reach 550 s |
| RelayReceiver.Receiver.OnMessage | web/src/relay-transfer.ts:133-182 | one frame's effect, with every error, and the socket closed at the first verdict |
| RelayReceiver.AlwaysInv | web/src/relay-transfer.ts:123-185 | for any frames from anyone: at most one verdict, the last event; what completes is the chunks and has its announced size |
| RelayReceiver.StreamRun | web/src/relay-transfer.ts:123-185 | the receiver's exact state after any prefix of the stream |
| RelayReceiver.PrefixReceived | web/src/relay-transfer.ts:123-185 | on any prefix one event a frame, no error, and completion with the sender's name, type and bytes on the last frame only |
| RelayReceiver.LossIsDetected | web/src/relay-transfer.ts:164-170 | whichever frames are lost, the guest completes if and only if none was |
| RelayReceiver.FirstDecides | web/src/relay-transfer.ts:133-182 | for any frames from anyone: the receiver is open up to the first frame that does not open, has no known type, is an unreadable control message or the end mark, and that frame has the last word, with its reason |
| RelayPicks.PicksCompleteIffTheyAdd | web/src/relay-transfer.ts:147-181 | whichever frames arrive, in whatever order and however often: the guest completes if and only if the metadata precedes the first end mark and the chunks up to it have the announced size in all, and it completes those chunks in that order |
| RelayPicks.PicksIntactIff | web/src/relay-transfer.ts:164-173 | it has the sender's file if and only if, moreover, those chunks put together are the content |
| RelayPicks.ExchangedChunks | web/src/relay-transfer.ts:164-173 | a file of two chunks whose data frames are exchanged completes as the second and then the first |
| RelayEndToEnd.CompletesIffItFits | server/relay.go:194-198 | through an untroubled bridge the guest completes, with the sender's file, if and only if the wire bytes are at most 52428800 |
| RelayEndToEnd.FiftyMegabytesNeverArrive | server/relay.go:194-198 | a file of 52428800 bytes or more never completes |
| RelayEndToEnd.AlmostFiftyMegabytesFit | server/relay.go:194-198 | one of 52335000 with an ordinary announcement fits |
| RelayEndToEnd.RelayFile | web/src/go-transport.ts:131-140 | sender, bridge and receiver run one after the other: what the guest is told is a prefix of the file's script, all of it exactly if the file fits, given an open socket and no trouble |
| Direct.FileSender.constructor | web/src/transfer.ts:18-91 | the announcement is sent and the first chunk asked for, or the send is rejected |
| Direct.FileSender.ReadNextChunk | web/src/transfer.ts:41-87 | end mark, pause or read |
| Direct.FileSender.OnLoadEvent | web/src/transfer.ts:64-84 | a loaded chunk is sent and the next asked for |
| Direct.FileSender.OnBufferDrained | web/src/transfer.ts:53-59 | a parked sender wakes when the buffer falls through the threshold |
| Direct.AlwaysBuffered | web/src/transfer.ts:38-86 | in every run that starts with room for the announcement the buffer never exceeds 1048576 + 16384 + 14, and a parked sender is above the threshold, so its wake-up is still to come |
| Direct.ParksIff | web/src/transfer.ts:49-60 | after a chunk the send stops for the network if and only if more than 1048576 bytes are buffered, and goes on exactly when they fall to 65536 or below |
| Direct.RejectedIff | web/src/transfer.ts:18-76 | in every run a send is rejected if and only if the channel was closed when it began, or the file reader failed or answered on a closed channel |
| Direct.EveryWakingStepWorks | web/src/transfer.ts:41-87 | every load and every full drain brings the send strictly nearer its end |
| Direct.CanAlwaysFinish | web/src/transfer.ts:41-87 | from anywhere in a send whose channel is open, loads and drains finish it |
| Direct.CloseRejectsTheReading | web/src/transfer.ts:64-76 | after a close a reading sender is rejected by its next load and by nothing else |
| Direct.CloseStrandsUnlessFlushed | web/src/transfer.ts:53-59 | after a close a parked sender wakes if and only if the channel still flushes its buffer down to the threshold, and never finishes |
| Direct.ParkedWhenItCloses | web/src/transfer.ts:53-59 | a send of any file that is not empty, begun over the mark on a channel that then closes: parked for as long as too little is flushed, for ever if nothing is |
| Direct.AlwaysOwed | web/src/transfer.ts:18-91 | in every run the channel carried the file's first messages in order, all of them if and only if the send finished |
| DirectReceiver.FileReceiver.HandleMessage | web/src/transfer.ts:114-149 | one message's effect, with the announcements that are ignored |
| DirectReceiver.FileReceiver.FinalizeTransfer | web/src/transfer.ts:151-173 | the integrity check, the completion and the reset that leaves the counter |
| DirectReceiver.AlwaysCounted | web/src/transfer.ts:99-173 | with an announcement accepted the counter is the chunks' total, so what completes has its announced size |
| DirectReceiver.StandsThen | web/src/transfer.ts:114-173 | whatever messages arrive: an announcement that was made, with none since and no end mark that completed it, is the one held, with exactly the data since |
| DirectReceiver.StandingWasAnnounced | web/src/transfer.ts:114-173 | and what is held was announced so |
| DirectReceiver.EndMarkDecides | web/src/transfer.ts:151-173 | an end mark completes exactly the file that stands with all its bytes, under its announced name, size and type; otherwise it reports a mismatch, or nothing when no file stands |
| DirectReceiver.NamedFileTold | web/src/transfer.ts:114-173 | from any state at all a named file is told one event a message, up to any point |
| DirectReceiver.IntactIffNamed | web/src/transfer.ts:118 | a file arrives intact whatever came before if and only if its name is not empty |
| DirectReceiver.NamelessVanishes | web/src/transfer.ts:118 | an unnamed file with nothing under way leaves no trace |
| DirectReceiver.NamelessEndsTheOther | web/src/transfer.ts:118-171 | an unnamed file continues the one under way and completes it, under that one's name, if the sizes add up |
| DirectReceiver.DeliversExactlyTheFinished | web/src/transfer.ts:99-173 | after any sequence of sends, complete or cut anywhere, exactly the complete files were delivered, in order and identical |
| DirectReceiver.CompletesWhatResolved | web/src/transfer.ts:18-173 | with both ends: what the guest completes is what `sendFile` resolved for, in order, whatever the network did to each send |
| KeyExchange.GoTransport.PrepareKeyExchange | web/src/go-transport.ts:265-278 | the entry, its promise and the public key for the next request |
| KeyExchange.GoTransport.RequestRelay | web/src/go-transport.ts:310-323 | takes the public key, once |
| KeyExchange.GoTransport.HandleRelayApproved | web/src/go-transport.ts:195-206 | the host's pending request gets the token |
| KeyExchange.GoTransport.HandleRelayKey | web/src/go-transport.ts:209-211 | the send whose entry the peer has, up to the first await |
| KeyExchange.GoTransport.SettleRelayKey | web/src/go-transport.ts:212-221 | after the awaits that send gets its key, or is rejected when the text is no key, and whatever entry the peer then has is deleted |
| KeyExchange.GoTransport.RejectPendingRelays | web/src/go-transport.ts:325-330 | every pending request is rejected: a first one goes back to log in, a second one fails |
| KeyExchange.GoTransport.OnKeyTimer | web/src/go-transport.ts:269-274 | the timer deletes whatever entry the peer has and rejects only its own promise |
| KeyExchange.GoTransport.OnRelayTimer | web/src/go-transport.ts:316-321 | likewise for a request |
| KeyExchange.GoTransport.HandlePeerLeft | web/src/go-transport.ts:78-83 | a guest's departure drops the key entry it had and settles nothing, so a pending key keeps waiting |
| KeyAgreement.AgreesIfOwnKeyAnswered | web/src/go-transport.ts:209-234 | in every run a send's key is its guest's for the session answered if that session was asked for with the send's own public key |
| KeyAgreement.AgreesIffOwnKeyAnswered | web/src/go-transport.ts:209-234 | and only then, or if it was asked for with the opposite point |
| KeyAgreement.RefusedRetriesOnce | web/src/go-transport.ts:282-294 | in every run a send makes at most two requests: refused on the first for want of a login it waits for one, refused on the second it is rejected, and no other send is touched |
| QuietHandshake.QuietSendsAgree | web/src/go-transport.ts:118-131 | a send begun with nothing left over: whenever its key resolves the guest holds the same key for that session, and a resolved token is that session's |
| QuietHandshake.RetriesGetNoKey | web/src/go-transport.ts:282-294 | a send begun with nothing left over that had to retry never gets a key |
| QuietHandshake.ArrivesAndAgrees | web/src/go-transport.ts:118-131 | such a run: the send ends with its session's token and its guest's key |
| QuietHandshake.LateKeyMismatch | web/src/go-transport.ts:209-221 | a run in which host and guest end with different keys |
| Orphans.EntryIffWatched | web/src/go-transport.ts:46-54 | in every run a guest has an entry if and only if one was set and none of the events that clear it came since |
| Orphans.KeyTimeoutRejectsIffWatched | web/src/go-transport.ts:269-274 | in every run a key timer rejects its pending promise if and only if the guest has an entry, whichever send's; otherwise nothing can settle it any more, unless the key is being made |
| Orphans.OrphanedIff | web/src/go-transport.ts:265-278 | in every run a key promise is orphaned if and only if it is pending, its timer is spent and its key is not being made |
| Orphans.WhyKeyOrphaned | web/src/go-transport.ts:78-83 | every orphaned key has its cause in the run: the guest left, the timer of another send to it fired, or another send's key was made |
| Orphans.OrphansStayForEver | web/src/go-transport.ts:209-278 | nothing that can happen later settles an orphaned key |
| Orphans.RelayTimeoutRejectsIffWatched | web/src/go-transport.ts:316-321 | in every run the timer of an awaited request rejects it if and only if the guest has an entry; otherwise it is orphaned |
| Orphans.WhyTokenOrphaned | web/src/go-transport.ts:310-330 | its cause: the timer of another request to the guest, or an answer to another send |
| Orphans.OrphanedTokensStayForEver | web/src/go-transport.ts:195-206 | nothing later, an approval included, settles an orphaned request |
| Orphans.HangsForEver | web/src/go-transport.ts:126-129 | a send with its token and an orphaned key never settles |
| Orphans.LeftHanging | web/src/go-transport.ts:78-83 | a run in which a guest leaves after the approval and the send hangs |
| Orphans.StaleTimerOrphans | web/src/go-transport.ts:269-274 | a run in which the first send's key timer orphans the second send |
| Orphans.RetriedOrphans | web/src/go-transport.ts:316-321 | a run in which the first request's timer orphans the retried one |
| Orchestrator.ConnectionOrchestrator.FallbackGuestToGo | web/src/orchestrator.ts:168-185 | the timer, the closing of Trystero's peers, the leave and the Go start |
| Orchestrator.ConnectionOrchestrator.JoinRoomAsGuest | web/src/orchestrator.ts:58-65 | a guest's start, with Trystero failing at once or not |
| Orchestrator.ConnectionOrchestrator.CreateRoomAsHost | web/src/orchestrator.ts:47-55 | a host's start on both transports |
| Orchestrator.ConnectionOrchestrator.HandleTrysteroState | web/src/orchestrator.ts:87-108 | a Trystero peer's state, by role |
| Orchestrator.ConnectionOrchestrator.HandleGoState | web/src/orchestrator.ts:132-137 | a Go peer's state |
| Orchestrator.ConnectionOrchestrator.LeaveRoom | web/src/orchestrator.ts:75-82 | leaves what is held and forgets the peers |
| Orchestrator.ConnectionOrchestrator.SendFile | web/src/orchestrator.ts:67-73 | a file goes to the transport that last reported its peer up, which was not left; nowhere if and only if none has, or the peer was forgotten since |
| Orchestrator.AlwaysInv | web/src/orchestrator.ts:25-193 | the invariant of every run: which transports are held, live and left, who owns which peer, whether the timer runs |
| Orchestrator.SendFileReachesALiveTransport | web/src/orchestrator.ts:67-73 | a file always goes to a transport that was not left, and every peer believed up has one |
| Orchestrator.OwnerReported | web/src/orchestrator.ts:87-108 | in every run whoever is known belongs to the transport that last reported it connecting or connected |
| Orchestrator.ReportedIsOwned | web/src/orchestrator.ts:87-137 | and whoever was reported so, and not dropped by a failure, a fallback or a leave since, is known |
| Orchestrator.ShownWasSaid | web/src/orchestrator.ts:87-108 | in every run what the consumer last heard of a peer is what the last event about it says: a failed Trystero link, and every known peer at a fallback, as closed |
| Orchestrator.FallsBackIff | web/src/orchestrator.ts:58-130 | a guest's session is on Go if and only if Trystero failed at once, reported an error or a failed peer, or the timer fired; and the timer is to fire if and only if none of that happened and no Trystero peer connected |
| Orchestrator.OneFallbackASession | web/src/orchestrator.ts:126-185 | a guest's session starts one Trystero transport and then at most one Go transport |
| Orchestrator.GoStartsClean | web/src/orchestrator.ts:174-184 | when Go starts for a guest no peer is believed up any more |
| Orchestrator.LateTimerDoesNothing | web/src/orchestrator.ts:63-64 | the timer set after Trystero failed at once, like any late one, changes nothing |
| Orchestrator.NobodyIsStranded | web/src/orchestrator.ts:64 | a guest that met nobody has its timer running, and the timer takes it to Go |
| Orchestrator.LiveTransports | web/src/orchestrator.ts:75-82 | only the session's own transports are ever live, none between sessions |
| Orchestrator.LeaveKeepsInv | web/src/orchestrator.ts:75-82 | after a leave every transport ever started has been left |

## Left out

- One `Peer` object shared by `Hub.peers` and `Room.Peers`: the hub's tables hold value records, so aliasing between the two is not captured; a room holds the ids of its members.
- Ids, codes, addresses and tokens of the hub are numbers: they are only compared, and 16-byte hexadecimal ids of one length compare as numbers do.
- The rounding of floating-point seconds and tokens, and the two clock readings inside one limiter call.
- Overflow of integer byte counts and clocks: the counts stay far below 63 bits.
- The list of a room (server/ws.go:259-264) is one atomic read, and the list a peer expelled meanwhile would get is empty.
- A blocked acknowledgement (server/ws.go:274 waits when the queue is full) does not happen until the queue has room.
- A second join on a connection after its room was reaped closes its channel twice and ends the connection: the reader stops there.
- RosterTheorems.RosterLaw: says nothing of members for which a membership message was dropped because their queue was full.
- Membership messages dropped, and everything else about slow readers, beyond being recorded.
- Handshake timeout, ping and pong, deadlines, origins, HTTP handlers, logging, room-code words.
- A server without an auth manager or without a relay manager.
- RelaySession.RelayManager.CreateSession: a failing random generator, which refuses the request.
- Persistence of the password file, `ReloadIfChanged` and sharing of the file between processes.
- Automatic reconnect of the signaling client.
- Answers, ICE and connection states of WebRTC; what Trystero does inside.
- Closing of the relay sockets at the end of a bridge beyond the count going down.
- Frames decrypted out of order: the relay receiver handles them in order of arrival, and nothing that arrives after its socket closed.
- A JSON text that is not an object.
- Overlapping direct sends on one channel, and overlapping relay sends of one host.
- RelayTransfer.SendFileOverRelay: `requires` lawful encryption and encoding only; its resolving says nothing of delivery, as the socket may have closed after the last check.
- KeyExchange: messages between host, server and guest may overtake each other, which is more than the connections allow; the runs given as witnesses keep the order.
- KeyExchange.GoTransport.PrepareKeyExchange: sets the entry and the public key in one step; the source awaits between the two, and what can happen there has the same effect before or after.
- KeyExchange: `leave`, which rejects every pending promise, and the transfer that follows a settled handshake.
- Orchestrator: the login prompt, and the trimming of a typed room code.
- Orchestrator: a transport raises no event once left, and a session begins only when none is under way; path labels and progress are passed on unseen.
