# DJ Yusaku session and queue core, in Dafny

DJ Yusaku lets one iPhone act as the DJ. The DJ drives the shared music
player. Nearby listener phones browse for DJs, connect to one, and send it
song requests. The DJ pushes its queue to each listener that connects. This
project models the two stateful objects behind those screens and proves
properties about them:

- **PlayerQueue** (`DJYusaku/PlayerQueue.swift`). The DJ's local copy
  `items` of the player device's queue, the flag `isQueueCreated`, and the
  one-permit semaphore that serialises the mutations. The mutations are
  `add`, `remove(at:)` and the two-step `swap(from:to:)`.
- **ConnectionController** (`DJYusaku/ConnectionController.swift`). The
  local role, the remembered DJ, the candidate DJs found by browsing, the
  listener's mirror `receivedSongs`, and the per-peer profiles. Role
  transitions and transport callbacks update these fields.

## Layout

| file | module | contents |
|---|---|---|
| `wrappers.dfy` | `Wrappers` | `Option`, for Swift optionals |
| `music.dfy` | `Music` | `Song`, `Profile`, `Url` (a non-empty string) |
| `queue_spec.dfy` | `QueueSpec` | the queue as a state machine over values, plus the lemmas about it |
| `player_queue.dfy` | `Playback` | classes `Player` (the device) and `PlayerQueue` (the controller), proved against `QueueSpec` |
| `session_spec.dfy` | `SessionSpec` | peers, roles, messages, effects; the list and dictionary updates, with lemmas |
| `connection_controller.dfy` | `Connection` | class `ConnectionController` and two client scenarios |

## How the asynchrony is modelled

Each mutation of `PlayerQueue` is split where it blocks or waits for the
device:

- A call event evaluates what the Swift code reads before the semaphore
  wait, then blocks in the wait. Each blocked call is kept, with what it
  read, in the list `waiting`. Concretely:
  - `add` decides between `create` and `insert` on `isQueueCreated`, and
    computes `items.count - 1`;
  - `swap` reads `items[from]`;
  - `remove` keeps its index.
- The end of a wait (`WaitEnds(k)`, the method `Resume`) either takes the
  permit, when the count is 1, or times out and drops the call, when the
  permit is held. A call that takes the permit goes on with what it read
  when it was called, however the queue changed while it waited, and
  performs the part of the call up to its first callback. A call that times
  out is dropped.
- One method per completion handler follows. The device's success or error
  arrives as the flag `ok`. `create`'s refresh transaction gets its own
  completion (`RefreshCompleted`). It holds no permit and writes `items`
  after `create` has already released the permit and set `isQueueCreated`.

`QueueSpec.QState` pairs the controller's fields with the device queue.
`QueueSpec.Next` gives each call, wait end or callback as a transition.
`Add`, `Remove`, `Swap`, `Resume` and the completion methods of
`Playback.PlayerQueue` are each proved to perform exactly their transition
(`State() == Next(old(State()), e)`) and to keep `QueueSpec.Inv`. `Create`
and `Insert` are the two calls `Add` chooses between. Each is proved to
perform the `QueueSpec.Called` step that appends it to `waiting`, and to
keep `Inv`. `Wait` and `Signal` are the semaphore's two halves. They are
used inside those methods, and neither keeps `Inv` on its own. `Inv` says
five things:

- the semaphore count is 0 or 1;
- the count is 0 exactly while one completion is owed, so at most one
  device mutation is in flight;
- device entries have distinct identities;
- the device hands out identities that have never been used;
- the entries of the local copy `items` have distinct identities.

Entries of the device queue are `Item(key, song)`. The `key` stands for the
identity of the `MPMediaItem` object. The device removes an item by that
identity.

Where the Swift code would crash, the model states the condition as a
requirement, either a `requires` clause or a condition in `Enabled`:

- `items[from]` in `swap` (PlayerQueue.swift:125), which can be out of range;
- `mutableQueue.items[index]` inside the insert and remove transactions
  (PlayerQueue.swift:85, :111, :152), which can be out of range;
- the force-unwrap `isDJ!` when a peer connects or a message arrives
  (ConnectionController.swift:133, :156). This becomes `requires role != Unset`
  on `PeerStateChanged` (for the connected state) and on `Receive`;
- the force-unwraps `info!["name"]!` and `info!["imageUrl"]!` of a found peer
  (ConnectionController.swift:225-226). These become `FoundPeer`'s requirement
  that both keys are present.

Several lemmas show sequences of events that break the device-side
requirement, i.e. sequences in which an insert's reference index is out of
range or the queue is replaced:

- `QueueSpec.AddAfterLostEntryOutOfRange`: a swap whose reinsert fails
  leaves the device one entry short, a gap in `swap`. The next `add` then
  picks `items.count - 1` as its reference index, which is past the end of
  the device queue.
- `QueueSpec.RemoveInFlightAddCalled` and `QueueSpec.AddAfterRemoveOutOfRange`:
  an `add` called while a removal of the last entry is in flight keeps the
  old `items.count - 1`.
- `QueueSpec.AddBeforeRefreshOutOfRange`: an `add` called after `create`'s
  preparation but before its refresh reads `items.count - 1 == -1`.
- `QueueSpec.SecondCreateReplacesQueue`: two `add`s on a fresh queue both
  take the `create` branch, so the second replaces the device queue.
- `QueueSpec.ConcurrentAddsReorder`: two `add`s called one while the
  other's insert is in flight both insert after the same index, so the
  later song lands first.

The model follows the code in these places:

- `disconnect` does not clear the role.
- `startListener` stops advertising only if an advertiser was ever created.
- Device errors are swallowed. The completion methods return nothing; the
  state simply stays as it was.
- A listener's now-playing index is passed on in a notification. It is never
  stored or checked against the list length.
- A `PeerProfile` message carrying nil removes the sender's entry, because
  assigning nil through a Swift dictionary subscript deletes the key.

## Model

| member | source | states |
|---|---|---|
| `QueueSpec.Anchor` | DJYusaku/PlayerQueue.swift:85 | the reference entry of an insert is nil exactly when the device queue is empty, and an in-range position otherwise |
| `QueueSpec.InsertAfterAt` | DJYusaku/PlayerQueue.swift:86 | the device's insert puts the new entry right after the reference entry (at the front after nil); the entries before keep their positions, and those after shift up by one |
| `QueueSpec.WithoutKeyMembers` | DJYusaku/PlayerQueue.swift:111 | the device's remove of an item object keeps exactly the entries with another identity |
| `QueueSpec.Next` | DJYusaku/PlayerQueue.swift:43-176 | the transitions of the queue. A call only appends itself to the waiting calls and changes nothing else. Only the end of its own wait removes a waiting call. The device queue changes only when a wait takes the permit or the device calls back, and identities are never reused |
| `QueueSpec.NextKeepsInv` | DJYusaku/PlayerQueue.swift:43-166 | every call, wait end and callback keeps the semaphore count in {0,1}, with the count 0 exactly while one completion is owed, and keeps device identities distinct |
| `QueueSpec.RunKeepsInv` | DJYusaku/PlayerQueue.swift:27 | along any feasible run of calls, wait ends and callbacks, at most one device mutation is in flight |
| `QueueSpec.BusyRequestDropped` | DJYusaku/PlayerQueue.swift:44-53 | a wait that ends while the permit is held is a timeout: that call is dropped, and nothing else changes (not the device, not `items`, not `isQueueCreated`, not the other waiting calls) |
| `QueueSpec.AcceptedRequestTakesToken` | DJYusaku/PlayerQueue.swift:43-55 | a wait that ends with the permit free takes it and goes on with the branch, index or entry its call read before waiting; it leaves `items` and `isQueueCreated` alone, and only create touches the device, replacing its queue with the one song |
| `QueueSpec.CompletionReleasesToken` | DJYusaku/PlayerQueue.swift:56-157 | every device callback signals exactly once, on success and on error, leaving the count at 1; the one exception is a successful swap removal, which keeps the permit for the reinsert it issues |
| `QueueSpec.FailedCompletionKeepsState` | DJYusaku/PlayerQueue.swift:56-161 | in every completion handler, a device error leaves `items`, `isQueueCreated` and the device queue unchanged |
| `QueueSpec.SuccessAdoptsDeviceQueue` | DJYusaku/PlayerQueue.swift:62-162 | after every successful insert, remove or swap reinsert, and after `create`'s refresh, `items` is the list the device reports |
| `QueueSpec.AddCreates` | DJYusaku/PlayerQueue.swift:43-68 | `add` on a queue not yet created sets the device queue to the single song. The queue becomes created only if preparation succeeds, and `items` stays as it was until the refresh then issued completes, when it becomes that song |
| `QueueSpec.AddAppends` | DJYusaku/PlayerQueue.swift:171-176 | `add` on a created queue whose copy matches the device, with the wait ending at once, puts the new song last; on an empty queue it inserts after nil |
| `QueueSpec.InsertAfterLast` | DJYusaku/PlayerQueue.swift:85-86 | inserting after the last entry is appending |
| `QueueSpec.RemoveDeletes` | DJYusaku/PlayerQueue.swift:110-120 | `remove(at: i)` makes `items` the device queue with position i deleted and all other entries in their original order |
| `QueueSpec.WithoutKeyAt` | DJYusaku/PlayerQueue.swift:111 | removing the item object at position i deletes exactly that position when identities are distinct |
| `QueueSpec.SwapMoves` | DJYusaku/PlayerQueue.swift:123-166 | `swap(from, to)` takes the entry at `from`, removes it from the device, and reinserts its song after position `to` of the shortened queue, all under one permit; `items` is refreshed only after the reinsert |
| `QueueSpec.SwapReinsertFailureLosesEntry` | DJYusaku/PlayerQueue.swift:150-161 | if the removal succeeds and the reinsert fails, the device has lost the entry while `items` still holds the list from before the swap; the permit is released |
| `QueueSpec.AddAfterLostEntryOutOfRange` | DJYusaku/PlayerQueue.swift:83-86 | after such a loss in a queue of two or more, the next `add` references index `items.count - 1`, which is past the end of the device queue |
| `QueueSpec.SecondCreateReplacesQueue` | DJYusaku/PlayerQueue.swift:172-173 | a second `add` on a fresh queue, called while the first is preparing, also takes the `create` branch: after the first finishes, its `setQueue` replaces the device queue and the first song's entry is gone |
| `QueueSpec.ConcurrentAddsReorder` | DJYusaku/PlayerQueue.swift:174-175 | an `add` called while another `add`'s insert is in flight reads the same `items.count - 1`, so the later song lands before the earlier one |
| `QueueSpec.RemoveInFlightAddCalled` | DJYusaku/PlayerQueue.swift:98-99 | from a created queue in sync with the device, a removal of the last entry takes the permit, and an `add` called meanwhile waits with the old `items.count - 1` |
| `QueueSpec.AddAfterRemoveOutOfRange` | DJYusaku/PlayerQueue.swift:175 | in that state, once the removal completes, the waiting `add` takes the permit with an index that is past the end of the device queue |
| `QueueSpec.AddBeforeRefreshOutOfRange` | DJYusaku/PlayerQueue.swift:62-65 | `create` sets `isQueueCreated` and releases the permit before its refresh writes `items`; an `add` in that window reads index -1, which the one-entry device queue cannot subscript |
| `Playback.Player.constructor` | DJYusaku/PlayerQueue.swift:22 | the application queue player starts with an empty queue |
| `Playback.Player.SetQueue` | DJYusaku/PlayerQueue.swift:55 | the device queue becomes the one new entry |
| `Playback.Player.PerformInsert` | DJYusaku/PlayerQueue.swift:83-87 | on success a new entry follows the reference entry (nil when the queue is empty) and the new queue is reported; on error nothing changes |
| `Playback.Player.PerformRemove` | DJYusaku/PlayerQueue.swift:138-140 | on success the entry with that identity is gone and the new queue is reported; on error nothing changes |
| `Playback.PlayerQueue.constructor` | DJYusaku/PlayerQueue.swift:24-33 | empty `items`, not created, semaphore count 1, nothing in flight, no call waiting |
| `Playback.PlayerQueue.Wait` | DJYusaku/PlayerQueue.swift:44 | the bounded wait takes the permit exactly when the count is positive |
| `Playback.PlayerQueue.Signal` | DJYusaku/PlayerQueue.swift:58 | signalling adds one to the count |
| `Playback.PlayerQueue.Create` | DJYusaku/PlayerQueue.swift:43-44 | a `create` call blocks in the wait with its song, and nothing else changes |
| `Playback.PlayerQueue.Insert` | DJYusaku/PlayerQueue.swift:71-72 | an `insert` call blocks in the wait with its index and song, and nothing else changes |
| `Playback.PlayerQueue.Add` | DJYusaku/PlayerQueue.swift:171-176 | performs the `AddCalled` transition: the create-or-insert choice and the index are taken from the state at the call, before the wait |
| `Playback.PlayerQueue.Remove` | DJYusaku/PlayerQueue.swift:98-99 | a `remove` call blocks in the wait with its index |
| `Playback.PlayerQueue.Swap` | DJYusaku/PlayerQueue.swift:123-126 | reads `items[from]` before waiting, then blocks in the wait with that entry |
| `Playback.PlayerQueue.Resume` | DJYusaku/PlayerQueue.swift:44-55 | the end of a wait: the call is accepted exactly when the permit was free, and then goes on as `Next` says; it keeps the invariant |
| `Playback.PlayerQueue.PrepareCompleted` | DJYusaku/PlayerQueue.swift:56-68 | performs the preparation callback and keeps the invariant; on success it issues the refresh and marks the queue created without writing `items` |
| `Playback.PlayerQueue.RefreshCompleted` | DJYusaku/PlayerQueue.swift:62-64 | the refresh's completion writes the device queue into `items`, holding no permit, and keeps the invariant |
| `Playback.PlayerQueue.InsertCompleted` | DJYusaku/PlayerQueue.swift:83-95 | runs the insert transaction and its callback, and keeps the invariant |
| `Playback.PlayerQueue.RemoveCompleted` | DJYusaku/PlayerQueue.swift:110-120 | runs the remove transaction and its callback, and keeps the invariant |
| `Playback.PlayerQueue.SwapRemoveCompleted` | DJYusaku/PlayerQueue.swift:138-153 | performs the removal callback; on success it keeps the permit and issues the reinsert |
| `Playback.PlayerQueue.SwapReinsertCompleted` | DJYusaku/PlayerQueue.swift:150-165 | performs the reinsert callback and keeps the invariant |
| `Playback.PlayerQueue.Count` | DJYusaku/PlayerQueue.swift:179-181 | `count()` is the number of local entries |
| `Playback.PlayerQueue.Get` | DJYusaku/PlayerQueue.swift:183-186 | `get(at: i)` is nil exactly when `i < 0` or `i >= count()`, and `items[i]` otherwise |
| `SessionSpec.AppendIfAbsent` | DJYusaku/ConnectionController.swift:221-223 | the found peer is in the list afterwards; the members are the old ones plus that peer; the list is unchanged if the peer was present, and otherwise gains it at the end; no duplicates are introduced |
| `SessionSpec.AppendIfAbsentIdempotent` | DJYusaku/ConnectionController.swift:221-223 | discovering the same peer twice gives the same list as discovering it once |
| `SessionSpec.Without` | DJYusaku/ConnectionController.swift:233 | after `lostPeer`, the list holds exactly the peers other than the lost one |
| `SessionSpec.WithoutCounts` | DJYusaku/ConnectionController.swift:233 | `lostPeer` removes every occurrence of the peer, and no occurrence of any other peer |
| `SessionSpec.WithoutConcat` | DJYusaku/ConnectionController.swift:233 | the filter distributes over concatenation, so the remaining peers keep their relative order |
| `SessionSpec.WithoutNoDuplicates` | DJYusaku/ConnectionController.swift:233 | a list without duplicates stays without duplicates |
| `SessionSpec.SetProfile` | DJYusaku/ConnectionController.swift:161-164 | a profile assignment changes only the sender's entry: it is set to the profile, or removed when the profile is nil |
| `SessionSpec.ParseUrl` | DJYusaku/ConnectionController.swift:226 | `URL(string:)` gives nil exactly for the empty string, and otherwise a URL of that text |
| `SessionSpec.ProfileFromInfo` | DJYusaku/ConnectionController.swift:225-226 | a found peer's profile takes its name from the `name` key, and its image URL from the `imageUrl` key (none when that is empty) |
| `SessionSpec.AdvertisedInfo` | DJYusaku/ConnectionController.swift:78-87 | the advertised discovery info has both keys, and a browsing peer reads back the DJ's profile, or the device name with no image when no profile is set |
| `Connection.ConnectionController.constructor` | DJYusaku/ConnectionController.swift:32-54 | starts initialised, with no role, no DJ, no candidates, an empty mirror and no profiles |
| `Connection.ConnectionController.HandleViewWillEnterForeground` | DJYusaku/ConnectionController.swift:56-59 | re-invites the remembered DJ exactly when one is set |
| `Connection.ConnectionController.Disconnect` | DJYusaku/ConnectionController.swift:69-73 | closes the session and leaves `connectedDJ` nil and every other field as it was, so a second call changes no field (it logs one more session close) |
| `Connection.ConnectionController.StartDJ` | DJYusaku/ConnectionController.swift:75-93 | ends with the DJ role and no remembered DJ; disconnects first, then advertises the profile info |
| `Connection.ConnectionController.StartListener` | DJYusaku/ConnectionController.swift:95-106 | ends with the listener role and `connectedDJ == selectedDJ`; disconnects first only when the selected DJ differs from the remembered one; invites it; stops advertising if an advertiser exists |
| `Connection.ConnectionController.FoundPeer` | DJYusaku/ConnectionController.swift:220-229 | lists the peer once (no duplicates) and overwrites only its profile entry with the advertised name and image URL |
| `Connection.ConnectionController.LostPeer` | DJYusaku/ConnectionController.swift:232-236 | filters the peer out of the candidates and keeps them free of duplicates |
| `Connection.ConnectionController.QueueSnapshot` | DJYusaku/ConnectionController.swift:133-137 | the loop collects the songs of queue entries `0 ..< count()`, in order |
| `Connection.ConnectionController.PeerStateChanged` | DJYusaku/ConnectionController.swift:114-149 | only `.connected` acts: it sends the own profile if set; on the DJ side it sends exactly one `requestSongs` with the whole queue to that peer |
| `Connection.ConnectionController.Receive` | DJYusaku/ConnectionController.swift:152-186 | DJ side: a song request is exactly one `add` call, which blocks in the semaphore wait on the receiving thread, and a profile updates only the sender's entry. Listener side: a song list replaces the mirror wholesale, and a profile updates only the sender's entry. Every other combination leaves all state unchanged |
| `Connection.SongListTwice` | DJYusaku/ConnectionController.swift:170-172 | delivering the same song list twice leaves the mirror as one delivery does |
| `Connection.ConnectListener` | DJYusaku/ConnectionController.swift:133-140 | once a listener receives the snapshot sent on its connection, its mirror equals the songs of the DJ's queue |

## Left out

- The MultipeerConnectivity transport: sessions, the advertiser, the browser, invitations and delivery. The controller's requests to it are recorded in `effects`. `startBrowse` and `stopBrowse` only start or stop the browser, so they are not modelled.
- The invitation handler (ConnectionController.swift:210-212) always accepts and changes no state of the controller.
- The stream and resource callbacks (ConnectionController.swift:189-204) do nothing.
- JSON encoding and decoding. Messages are the datatype `SessionSpec.Msg`. The crash of `try!` on a malformed payload is not modelled.
- The profile from `DefaultsController` and the device name from `UIDevice` become parameters: `own`, and `deviceName`.
- `URL(string:)` is modelled as nil only for the empty string. Other malformed strings are taken as valid.
- The delegate of the connectable-device list is weak and may be nil. The model records the delegate call whether or not a delegate is set.
- The player device's internals: playback (`play()`, the playing side of `prepareToPlay`), repeat mode, and the now-playing and playback-state observers (PlayerQueue.swift:30-41).
- The device is assumed to leave its queue untouched when a transaction reports an error. It is also assumed to apply a transaction exactly as written, with no reordering of its own.
- The reinsert of `swap` resolves the entry's `persistentID` as a store id. The model assumes this yields the same song.
- Connection.ConnectionController.QueueSnapshot: the snapshot loop, like every controller callback, is one step with respect to the queue's completion handlers, although in the source it runs on the session's delegate queue while those handlers write `items` from another thread. The model therefore does not capture two outcomes of an interleaving. A removal that completes mid-loop makes `get(at:)` return nil, and the force-unwrap at ConnectionController.swift:136 crashes. A swap that completes mid-loop yields a snapshot mixing the old and new order.
- Real time. The 4 s of the semaphore wait are not counted. A waiting call's wait may end at any step: it takes the permit if it is free, and otherwise times out. Which of several waiting calls takes a freed permit is left open.
- The order in which the device runs transactions handed to it from different calls is taken to be the order of their callbacks in the model. A refresh's completion reports the device queue as it is when the completion runs.
- Alerts on dropped calls are represented only by `accepted == false` from `Resume`. The `completion` closures, the notifications posted by `PlayerQueue`, and the `print` calls are not modelled.
- `Playback.PlayerQueue.Get` returns the entry; the Swift snapshot loop appends it to a song list. An entry is modelled as carrying the song it was created from.
