# Tattler: the watchlist Reader, its bookmark store and the entry pipeline

Tattler reads Kubernetes objects from an API server and hands them, as entries, to data processors. A Reader watches
each resource with a stream. When a stream breaks, the Reader resumes from the last version (a *bookmark*) it was told
is safe, and after a restart from the one it stored in a ConfigMap; when the server rejects that version, it recovers
with snapshots of all objects. The entries then pass through user preprocessors, a scrubber that redacts environment
variables, and a router that offers each of them to every processor over a bounded channel.

The project models these parts and proves what they promise, for every input, every run and every interleaving.

| file | what it holds |
|---|---|
| `Wrappers.dfy`, `Data.dfy` | option and result types; objects, entries and their constructors |
| `History.dfy` | the server's history, what a consumer folds out of the entries, coverage of a version, replay |
| `Requests.dfy` | watch options and the classes of API errors |
| `Protocol.dfy` | one resource of the Reader as a state machine over what its environment does |
| `ProtocolControl.dfy` | what every run keeps of the handler's variables, without any assumption |
| `ProtocolCoverage.dfy` | what every fair run keeps of the consumer's view and the stored bookmark |
| `ProtocolSnapshots.dfy` | what a recovery has delivered when its gap closes, without any assumption |
| `ProtocolGhosts.dfy` | which objects are ghosts, exactly, and where they come from |
| `ProtocolEarly.dfy` | bookmarks before the initial objects of a stream that is not a recovery: exactly which are harmless |
| `ProtocolProgress.dfy` | what each input does, and that nothing but the named errors keeps a Reader from streaming |
| `ProtocolTheorems.dfy` | the Reader's promises, and example runs |
| `Reader.dfy` | the Reader's nested loops over mutable state, proved to take exactly the state machine's steps |
| `Spawner.dfy` | `connectWatcher`'s loop over shared options, and recovery lists |
| `BookmarkCheck.dfy` | the comparison of a stored bookmark with the server's version |
| `ConfigMapStore.dfy`, `BookmarkCalls.dfy` | the ConfigMap store: any interleaving of calls, and the calls' own loops |
| `CallOutcomes.dfy` | how calls on the store end |
| `BookmarkKey.dfy` | the keys of the ConfigMap |
| `BookmarkEntries.dfy` | the entry of one resource, across all calls: the link between store and state machine |
| `Relist.dfy` | listing with pagination and retries, and the duplicate filter across attempts |
| `Pipeline.dfy` | preprocessing, scrubbing and routing as a network of stages and bounded channels |
| `PipelineFates.dfy` | what becomes of each entry, and when a channel takes one |
| `Stages.dfy` | the stages' own loops, running inside that network |
| `Safety.dfy` | redaction, as a function and in place on shared arrays |
| `Routing.dfy`, `DropLog.dfy` | the router's loops over its routes, and its logarithmic drop log |

## How to read the model

*Versions and history.* The server's history is a sequence of revisions; a version is a number of revisions. A revision
puts or deletes one object of the watched resource, or concerns something else (`Elsewhere`), so the versions at which
the watched resource changes have gaps, and a bookmark may name any of them. `Option<nat>` stands for the string:
`None` is the empty one.

*The environment.* Everything outside the Reader is an input: what the server sends on a stream, its replies, the
replies of the store (which may commit an update and still report an error), other writers, cancellation, crashes and
restarts. An input that the current state does not wait for changes nothing, so every sequence of inputs is a run, and
a crash may come after any step. The server behaves as the Kubernetes documentation says under "Efficient detection of
changes", "Watch bookmarks" and "Streaming lists": a resumed stream sends the changes after its version in order; any
other stream first sends all objects; a bookmark follows every change up to its version, except that while objects are
being sent an ordinary one may come at any moment.

*Delivered* means put on the Reader's output channel. A consumer folds what is delivered by UID.

*Assumptions of the coverage theorems* (`ProtocolCoverage.Fair`). Nobody else writes the Reader's own key of the store.
On a stream that is not a recovery the code does not filter bookmarks, so the server must send no harmful one before the
initial objects are through. `Fair` allows any that the consumer has caught up with and that takes nothing behind the
store, and `ProtocolEarly.dfy` proves that this is exactly what is needed,
whether or not the store takes the bookmark: the handler resumes from it either way.
`ProtocolTheorems.EarlyBookmarkOnFreshStreamIsUnsafe` and `RefusedEarlyBookmarkIsUnsafe` are two runs that lose an object.
On recovery streams the filter is proved, not assumed. A list, or a stream of all objects, reflects the server's latest
version when it is opened, which is no older than anything seen before; the control and snapshot theorems use none of
this beyond the server's side of the state machine.

*Ghosts.* An object deleted while a recovery was due is in no later snapshot, and nothing tells the consumer that it is
gone. A caught-up view is therefore exact on every object that is alive, and exact altogether if and only if there is no
ghost; `RecoveryLeavesGhosts` says, of any run without early bookmarks, which objects are ghosts. Without a second stream of all objects there
are none.

*Loops and machine.* `Reader.dfy` has the source's methods with their loops, fields and local variables. They consume
the inputs one by one while a ghost copy of the state machine does the same, and their contracts say that variables and
machine agree; `Reader.Lifetime` closes the argument for whole lives of several runs and processes.
`BookmarkCalls.dfy` does the same for `Store` and `Delete`, which change a fetched ConfigMap in place, and `Stages.dfy`
for the pipeline: the loops of preprocessing, scrubbing and the router make exactly their stage's moves in the network,
and the router's loop works on the same routes, with their counters and logs, as `Routing.dfy`.

*Documentation and code.* `docs/highlevel.md:52` puts the scrubber before preprocessing and a batcher before the router.
The code (`tattler.go:105-138`) runs preprocessing first and has no batcher; the model follows the code. This order is
what makes `Pipeline.ProcessorsSeeCleanEntries` hold whatever a preprocessor writes into an object.

## Model

| member | source | states |
|---|---|---|
| Data.NewEntryConstructs | data/data.go:119-161 | An entry is made exactly for a non-nil pointer to one of the twelve kinds, holds that object under its UID, is tagged with the type named after its kind, and an accessor succeeds exactly when the tag names its kind |
| Data.WatchEventsConvert | data/data.go:173-188 | Exactly added, modified and deleted events become entries, as additions, updates and deletions of the object they carry |
| History.DeliverChange | data/data.go:173-188 | Folding the entry of a change brings exactly the changed object to the server's state after the change |
| History.SentCovers | readers/apiserver/watchlist/watchlist.go:262-274 | A stream resumed at a covered version keeps the view covering its position, even when later states had been shown before |
| History.LegsCover | readers/apiserver/watchlist/watchlist.go:497-531 | Any number of connections, each resumed at a version an earlier one acknowledged, leaves every object at its state at the last position or later |
| History.ReplayConverges | readers/apiserver/watchlist/watchlist.go:497-531 | However often the stream breaks and replays, once it has caught up the folded view is the one an unbroken stream gives, which is the server's state |
| Requests.RequestsWellFormed | readers/apiserver/watchlist/watchlist.go:262-274 | Every request declines or asks for initial events exactly when it sets ResourceVersionMatch, asks exactly when it has no version, keeps the version it was made for, and asks for bookmarks with bookmarking even after the fallback |
| ProtocolControl.RunKeepsControl | readers/apiserver/watchlist/watchlist.go:493-560 | The invariant of handler and startup variables over all runs, with no assumption on other writers, store replies or bookmarks |
| ProtocolControl.GapInvariant | readers/apiserver/watchlist/watchlist.go:493-550 | In every state a gap implies an empty version, and the watcher being read is a recovery exactly when there is a gap |
| ProtocolSnapshots.GapClosesOnlyAfterSnapshots | readers/apiserver/watchlist/watchlist.go:497-516 | A gap closes only over a recovery stream whose output begins with its full snapshot: exactly the objects alive at the version it opened at, at their state there, before any live change of the stream; the version resumed from is the last one received on it |
| ProtocolControl.SnapshotsComeFirst | readers/apiserver/watchlist/watchlist.go:660-689 | On every stream the entries split at one point: none after it is a snapshot, on a list recovery all before it are, and a stream that is not a recovery has nothing before it; a recovery keeps no version while objects are outstanding |
| ProtocolControl.BookmarksDieOnlyByRejection | readers/apiserver/watchlist/watchlist.go:303-312 | A step of this Reader that takes a stored version away replaces it with one just received or follows the server's rejection of exactly that version |
| ProtocolControl.GateReplyTakesBookmark | readers/apiserver/watchlist/watchlist.go:593-598 | A feature-gate reply takes the stored version away exactly when the spawner has fallen back before, the reply answers a request that resumes from that version, and the store clears it; such a request does not mention initial events, and the gate's reply to one that does only makes the spawner fall back |
| ProtocolCoverage.StepKeepsSafe | readers/apiserver/watchlist/watchlist.go:650-769 | Each single step of a fair environment keeps the coverage of the view, of the handler's version and of the stored bookmark |
| ProtocolCoverage.RunIsSafe | readers/apiserver/watchlist/watchlist.go:493-560 | The coverage invariant holds in every state of every fair run |
| ProtocolTheorems.ConsumerView | readers/apiserver/watchlist/watchlist.go:493-560 | Once initial objects are through, every object alive at the stream's position is held at its state there or later, exactly so at the latest version, and anything else held is a ghost; if the server sends no early bookmarks, the ghosts are exactly what is held beyond the server's state, and the view is the server's state if and only if there are none |
| ProtocolTheorems.SafeBookmark | readers/apiserver/watchlist/watchlist.go:657-713 | In every state, so after any crash, every object alive at the stored version was delivered at that version or later, and resuming from it misses nothing |
| ProtocolSnapshots.InterruptedRecoveryPersistsNothing | readers/apiserver/watchlist/watchlist.go:729-738 | While a recovery's snapshots are incomplete no step of this Reader changes the store, whatever bookmarks arrive; a step that does change it stores the stream's version, with the full snapshot in the output |
| ProtocolTheorems.NoResurrection | readers/apiserver/watchlist/watchlist.go:660-755 | An object deleted after a stream opened and not put again is absent from the view once the stream has passed the deletion |
| ProtocolTheorems.RecoveryLeavesGhosts | readers/apiserver/watchlist/watchlist.go:504-529 | With a server that sends no early bookmarks: a caught-up consumer holds a deleted object if and only if a stream of all objects once opened at a version at which it was gone while it was held, and nothing was delivered of it since; the view is exact if and only if no object met that |
| ProtocolGhosts.GhostsAreObjectsLostSightOf | readers/apiserver/watchlist/watchlist.go:493-560 | In every run, with no assumption, an object is noted as a ghost if and only if the consumer lost sight of it in that way |
| ProtocolGhosts.RunGhosts | readers/apiserver/watchlist/watchlist.go:650-769 | With such a server, a ghost noted up to a version the handler, the store or the stream stands at is gone at that version |
| ProtocolEarly.EarlyBookmarkHarmlessExactly | readers/apiserver/watchlist/watchlist.go:699-738 | Whether or not the store takes an early bookmark: no fair continuation, with reconnects and restarts, can end with a stored version the consumer is not up to, if and only if the consumer has caught up with the bookmark's version and resuming from it takes nothing behind the store |
| ProtocolEarly.EarlyBookmarkOnFirstStream | readers/apiserver/watchlist/watchlist.go:699-738 | For a consumer that started with nothing the condition is the history's: the bookmark is not newer than the stream, each outstanding object was absent at some version from the bookmark's to the stream's, and nothing is taken behind the store |
| ProtocolEarly.EarlyBookmarkAtStreamVersion | readers/apiserver/watchlist/watchlist.go:699-738 | At the stream's own version: if and only if every outstanding object is already held as it is |
| ProtocolEarly.UncoveredLoses | readers/apiserver/watchlist/watchlist.go:497-503 | A version the consumer has not caught up with is stored after one reconnect and one ordinary bookmark; if an object alive at it is the reason, a crash then loses that object |
| ProtocolEarly.NothingResumedWithoutBookmarking | readers/apiserver/watchlist/watchlist.go:422-429 | Without bookmarking no version is loaded and every stream opens with all objects, so no stored version is ever resumed from |
| ProtocolProgress.RefusalEndsExactly | readers/apiserver/watchlist/watchlist.go:521-549 | In any run a refused watch ends the handler exactly for Forbidden or Unauthorized, or for BadRequest or Invalid without a version; any other error leaves it connecting, unchanged or, when it rejects the version, with that entry cleared and a recovery due |
| ProtocolProgress.FailedListEndsExactly | readers/apiserver/watchlist/utils.go:121-155 | A failed recovery list ends the handler exactly when it is no list at one version or its error is named as hopeless or bad; otherwise nothing changes |
| ProtocolProgress.PassingErrorsOnlyDelay | readers/apiserver/watchlist/watchlist.go:521-549 | Any number of refusals for passing reasons leaves a connecting handler where it was |
| ProtocolProgress.ConnectingStreams | readers/apiserver/watchlist/watchlist.go:524-533 | A connecting handler streams as soon as the server lets it: after its version if it has one, otherwise everything, and in a gap as a recovery with WatchList or with a list |
| ProtocolProgress.StoredBookmarkIsResumed | readers/apiserver/watchlist/watchlist.go:419-449 | From any stopped or crashed state a stored bookmark is loaded and, unless found ahead, the stream that opens sends the changes after it and no object again |
| ProtocolProgress.StartupGivesUpExactly | readers/apiserver/watchlist/watchlist.go:430-456 | A stored bookmark is given up at startup, and cleared, when it is found ahead or refused as expired or invalid; any other refusal fails the start and leaves it |
| ProtocolProgress.StartupRecovers | readers/apiserver/watchlist/watchlist.go:474-488 | Startup's recovery opens initial events, or leaves the gap for the handler to close with a list |
| ProtocolProgress.StartsWithEverything | readers/apiserver/watchlist/watchlist.go:419-445 | Without a bookmark a Reader starts with every object; a new process tries WatchList again |
| ProtocolProgress.BookmarkIsKept | readers/apiserver/watchlist/watchlist.go:697-704 | A bookmark that counts is stored, unless it is the one stored last, and is what the next stream resumes from whatever became of the store |
| ProtocolProgress.ListVersionIsKept | readers/apiserver/watchlist/watchlist.go:680-684 | A list's version is stored once its objects are delivered |
| ProtocolProgress.NoiseChangesNothing | readers/apiserver/watchlist/watchlist.go:728-760 | Other error events, unusable events and ordinary bookmarks during initial events change nothing |
| ProtocolProgress.StaleStreamRecovers | readers/apiserver/watchlist/watchlist.go:499-512 | A stream rejected as stale clears exactly the version it stood for and makes a recovery due |
| ProtocolProgress.ClosedStreamReconnects | readers/apiserver/watchlist/watchlist.go:497-503 | A stream that brought no version leaves the handler with the one it had |
| ProtocolProgress.ObjectIsDelivered | readers/apiserver/watchlist/watchlist.go:750-768 | Each initial object is delivered as it is, as a snapshot on a recovery and as an addition otherwise |
| ProtocolProgress.ChangeIsDelivered | readers/apiserver/watchlist/watchlist.go:750-768 | Each change is delivered in its turn, as an addition, an update or a deletion of what the server stored |
| ProtocolProgress.GapCanClose | readers/apiserver/watchlist/watchlist.go:493-560 | From every gap in every run there is a continuation that delivers everything and closes the gap over the server's latest version, which is then stored |
| Reader.Reader.Get | readers/apiserver/watchlist/watchlist.go:722-726 | Waits for the stream's next event, its end or the end of the context, in step with the machine |
| Reader.Reader.Handle | readers/apiserver/watchlist/watchlist.go:728-768 | Every kind of event is delivered, recorded, skipped or taken as the stream's rejection exactly as the machine says |
| Reader.Reader.WatchEvent | readers/apiserver/watchlist/watchlist.go:719-769 | One event: the watcher is stopped on every return that does not go on reading, and a version is returned only for a bookmark to keep |
| Reader.Reader.DeliverList | readers/apiserver/watchlist/watchlist.go:667-684 | All listed objects are delivered before the list's version may be recorded |
| Reader.Reader.StoreBookmark | readers/apiserver/watchlist/watchlist.go:699-704 | A version is written unless it is the one stored last, and only an acknowledged write counts as stored |
| Reader.Reader.WatchEvents | readers/apiserver/watchlist/watchlist.go:650-713 | Reads a watcher to its end: it is stopped on every path, and the returned version and error put the handler where the machine is |
| Reader.Reader.OpenPlainWatcher | readers/apiserver/watchlist/watchlist.go:529-532 | A watcher that is not a recovery, from the handler's version or from none; it is opened only when every earlier watcher is stopped |
| Reader.Reader.OpenInitialEventsWatcher | readers/apiserver/watchlist/utils.go:94-105 | A WatchList recovery watcher, with all objects outstanding and their end still owed; every earlier watcher is stopped |
| Reader.Reader.OpenListWatcher | readers/apiserver/watchlist/utils.go:114-118 | A recovery watcher that carries the listed objects and starts at the list's version; every earlier watcher is stopped |
| Reader.Reader.GetRecoveryWatcher | readers/apiserver/watchlist/utils.go:84-105 | A recovery uses WatchList while the spawner has it, and otherwise a completed list and then a watch |
| Reader.Reader.WatchFromList | readers/apiserver/watchlist/utils.go:109-119 | The watch of a list recovery, or the error it was refused with |
| Reader.Reader.GetPlainWatcher | readers/apiserver/watchlist/utils.go:158-173 | A requested watch opens, is refused, or is given up with the context |
| Reader.Reader.ClearRejected | readers/apiserver/watchlist/watchlist.go:303-312 | The store's entry goes only if it still is the rejected version; a failure leaves it |
| Reader.Reader.AfterError | readers/apiserver/watchlist/watchlist.go:534-548 | What each error makes of gap and version, and exactly which errors, by name, end the handler |
| Reader.Reader.Reconnect | readers/apiserver/watchlist/watchlist.go:521-550 | The retry loop ends with one new watcher, a permanent error or the context; it never leaves an unstopped watcher behind |
| Reader.Reader.ReadWatcher | readers/apiserver/watchlist/watchlist.go:498-516 | After a watcher has ended, gap and version are the machine's, and no watcher is left running |
| Reader.Reader.HandleWatcher | readers/apiserver/watchlist/watchlist.go:493-560 | The whole loop keeps up with the machine and returns with no unstopped watcher; the openers it calls require that none is, so it never has two |
| Reader.Reader.CheckBookmark | readers/apiserver/watchlist/watchlist.go:430-441 | Only a verdict of "ahead" disqualifies a loaded bookmark; a check that cannot be made does not |
| Reader.Reader.ResumeBookmark | readers/apiserver/watchlist/watchlist.go:442-449 | The startup request opens, turns into a recovery when its version is rejected, or fails |
| Reader.Reader.RecoverStartup | readers/apiserver/watchlist/watchlist.go:480-488 | Startup recovery returns a WatchList watcher, or none when the handler has to list |
| Reader.Reader.Watch | readers/apiserver/watchlist/watchlist.go:410-472 | Startup and handler together, with every watcher stopped in the end |
| Reader.Reader.RunOnce | readers/apiserver/watchlist/watchlist.go:315-351 | One run of a Reader, from loading the bookmark to its end for whatever reason |
| Reader.Reader.Live | readers/apiserver/watchlist/watchlist.go:315-351 | Any number of runs, in one or several processes, end with the machine's output and store |
| Reader.Lifetime | readers/apiserver/watchlist/watchlist.go:315-560 | The loops produce the machine's output and store for every sequence of inputs, and a fair environment finds a safe bookmark in the store |
| Spawner.Connector.RunCallback | readers/apiserver/watchlist/utils.go:94-105 | A callback sends well-formed options of its own; of the heap it changes only the log, so neither the shared options nor the variable they point to |
| Spawner.WithVersion | readers/apiserver/watchlist/watchlist.go:262-274 | The edited copy asks for what the version implies, through a new variable and never by writing to the shared one |
| Spawner.Connector.Serve | readers/apiserver/watchlist/watchlist.go:591-604 | A request runs its callback once, and once more exactly when its reply was the gate's and the spawner fell back |
| Spawner.ConnectWatcher | readers/apiserver/watchlist/watchlist.go:579-611 | For n requests: n answers, each from the request's own last callback, at most n+1 callbacks, WatchList never enabled again, and bookmarks asked for throughout |
| Spawner.ListRecoveryObjects | readers/apiserver/watchlist/utils.go:122-155 | Succeeds exactly when the replies begin with a whole list at one non-empty version, and returns all its objects in order |
| Spawner.GetRecoveryWatcher | readers/apiserver/watchlist/utils.go:84-119 | After the fallback a recovery lists, requests no watch before the list is complete, and its watch, granted or refused, starts at that list's version, whatever other requests are served in between |
| BookmarkCheck.ParseUint | readers/apiserver/watchlist/utils.go:42-45 | Accepts exactly non-empty strings of digits below 2^64 and returns their value |
| BookmarkCheck.VersionRoundTrips | readers/apiserver/watchlist/utils.go:33-41 | A written version reads back as itself exactly below 2^64 |
| BookmarkCheck.BookmarkAhead | readers/apiserver/watchlist/utils.go:41-76 | There is a verdict exactly when the bookmark is a version and one of the first three attempts, all before it failing transiently, finds the server's; it is the comparison of the two |
| BookmarkCheck.CheckVersions | readers/apiserver/watchlist/utils.go:50-75 | On written versions the verdict compares the numbers; a permanent failure or three failures never find a bookmark ahead |
| ConfigMapStore.DecideIsAtomic | readers/apiserver/watchlist/bookmarks/store/configmap/configmap.go:94-137 | What a call makes of fetched data is the atomic put or compare-and-delete, and only a change is sent |
| ConfigMapStore.OtherKeysKept | readers/apiserver/watchlist/bookmarks/store/configmap/configmap.go:76-100 | A key no call operates on keeps its value |
| ConfigMapStore.RunOk | readers/apiserver/watchlist/bookmarks/store/configmap/configmap.go:77-165 | The invariant of every interleaving: data is the replay of the history, and a client with current data holds its own operation's result |
| ConfigMapStore.HistoryIsAtomic | readers/apiserver/watchlist/bookmarks/store/configmap/configmap.go:77-149 | For any interleaving the ConfigMap's history is a sequence of single-key puts and compare-and-deletes by the calls themselves, so no other key is lost |
| ConfigMapStore.CallsLinearize | readers/apiserver/watchlist/bookmarks/store/configmap/configmap.go:77-165 | A call that returns normally took effect at one point within the call, reported what the atomic operation reports there, and committed at most once more than it had commits reported as errors, which may come at any later time while their version is current |
| ConfigMapStore.ReturnedCallsAreOver | readers/apiserver/watchlist/bookmarks/store/configmap/configmap.go:77-165 | Once a call has returned normally none of its updates commits any more, whatever happens later |
| ConfigMapStore.DeletionsSpareReplacements | readers/apiserver/watchlist/bookmarks/store/configmap/configmap.go:117-148 | A committed deletion removed the value it names, and the reported outcome tells what value the deletion met |
| CallOutcomes.FailureHasCause | readers/apiserver/watchlist/bookmarks/store/configmap/configmap.go:151-165 | For any interleaving, a call that returned an error was cancelled, met an error that no retry can help, or failed five times, a refused outdated update being one failure |
| CallOutcomes.OutdatedFetchesAgain | readers/apiserver/watchlist/bookmarks/store/configmap/configmap.go:151-165 | A call that fails for a passing reason before the fifth time, such as being outdated, fetches again |
| CallOutcomes.UndisturbedCallSucceeds | readers/apiserver/watchlist/bookmarks/store/configmap/configmap.go:86-148 | A call that fetches undisturbed does what it was called for, with one commit or none, and says so |
| BookmarkCalls.Cluster.Reply | readers/apiserver/watchlist/bookmarks/store/configmap/configmap.go:89-92 | A call sees only replies to its own requests, while all other calls go on |
| BookmarkCalls.NextAttempt | readers/apiserver/watchlist/bookmarks/store/configmap/configmap.go:151-165 | Another attempt follows exactly when the error is not one of the hopeless ones, by name, and fewer than five were made |
| BookmarkCalls.SendUpdate | readers/apiserver/watchlist/bookmarks/store/configmap/configmap.go:102-103 | The in-place changed copy is what the client of the interleaving sends, refused when it is outdated |
| BookmarkCalls.Store | readers/apiserver/watchlist/bookmarks/store/configmap/configmap.go:77-106 | The get, modify, update loop takes exactly its client's steps, returns what that client finishes with, and returns an error only with its cause |
| BookmarkCalls.Delete | readers/apiserver/watchlist/bookmarks/store/configmap/configmap.go:109-149 | The same for the compare-and-delete loop |
| BookmarkKey.KeyRoundTrips | readers/apiserver/watchlist/bookmarks/store/configmap/configmap.go:169-178 | A key can be split back into its resource exactly when version and resource have no dot and the group is not the literal "core" |
| BookmarkKey.KeysDistinct | readers/apiserver/watchlist/bookmarks/store/configmap/configmap.go:169-178 | Two such resources share a key exactly when they are the same, dotted groups included |
| BookmarkEntries.CallEffect | readers/apiserver/watchlist/watchlist.go:289-312 | The atomic operation on the ConfigMap does to a resource's entry what the Reader's state machine says, and nothing to any other resource's |
| BookmarkEntries.EntriesFollowProtocol | readers/apiserver/watchlist/bookmarks/store/configmap/configmap.go:77-178 | For any interleaving of any Readers' calls, commit by commit, each resource's entry is what the state machine's updates make of it |
| BookmarkEntries.CallIsOneStep | readers/apiserver/watchlist/bookmarks/store/configmap/configmap.go:77-165 | A whole finished call, with its conflicts, retries and lost replies, has moved its entry by the state machine's one step for its outcome so far, if no other call has committed to that entry since it began |
| Relist.RetryableList | readers/apiserver/watchlist/relist/relist.go:158-173 | All attempts but the last failed for a passing reason, at most ten are made, and the last decides: the page with its token, a hopeless error or the tenth error, or the end of the context |
| Relist.ListOne | readers/apiserver/watchlist/relist/relist.go:130-151 | Without an error all pages of a lister were sent in order; with one, a prefix of them, and the error occurred: for good, ten times in a row, or as the end of the context |
| Relist.SendErr | readers/apiserver/watchlist/relist/relist.go:120-126 | The error becomes the last value unless the context is done |
| Relist.ListAll | readers/apiserver/watchlist/relist/relist.go:89-115 | A closed channel under a live context carried exactly all pages of all listers in order, or a prefix of them and one final error that has its cause; when nothing fails it is complete |
| Relist.Relisting.Attempt | readers/apiserver/watchlist/watchlist.go:832-861 | One attempt sends nothing twice and nothing unlisted; without an error the output covers the whole listing, and an error has its cause |
| Relist.RelistType | readers/apiserver/watchlist/watchlist.go:825-867 | Across all attempts each UID is sent at most once; without an error the last attempt's listing is covered; an error has its cause and comes only when no other attempt may follow; when nothing fails the first attempt is enough |
| DropLog.BitTest | internal/routing/routing.go:150-154 | The bit test holds exactly at powers of two |
| DropLog.LogIsLogarithmic | internal/routing/routing.go:149-155 | d drops are logged floor(log2 d) + 1 times, the i-th time at 2^i, and the last message is less than a factor of two behind |
| Routing.Router.Register | internal/routing/routing.go:88-101 | A route is added, of its own, exactly before Start, under a name and with a channel |
| Routing.Router.Push | internal/routing/routing.go:161-171 | An entry is delivered in order, or counted and the count returned; blocking drops nothing |
| Routing.Router.RouteEntry | internal/routing/routing.go:147-156 | Every route is offered the entry, whatever became of the others |
| Routing.Router.HandleInput | internal/routing/routing.go:140-144 | Every entry is offered to every route in order |
| Routing.Router.Start | internal/routing/routing.go:114-137 | Refused without routes; otherwise all routes are closed, and only after the whole input was offered to each |
| Routing.RouteAll | internal/routing/routing.go:114-171 | For every outcome of the single pushes: each route delivers a subsequence of the input, delivered plus dropped is the input, blocking delivers all, and the log has its logarithmic length |
| Routing.KeptLength | internal/routing/routing.go:161-171 | A subsequence that lost nothing is the whole input |
| Safety.ScrubCleans | internal/safety/safety.go:75-93 | A correctly tagged entry is never dropped, comes out without values and otherwise unchanged, other types untouched, and scrubbing twice is scrubbing once |
| Safety.ScrubDropsExactly | internal/safety/safety.go:75-93 | An entry is dropped exactly when its tag claims a pod or a deployment that its object is not |
| Safety.ScrubEnv | internal/safety/safety.go:135-141 | Every variable's value is overwritten in place, names and order kept |
| Safety.ScrubContainers | internal/safety/safety.go:102-111 | One kind of container is redacted in place, even when containers share variable lists |
| Safety.ScrubPodSpec | internal/safety/safety.go:101-113 | The spec's value after the in-place loops is the redaction of its value before, whatever is shared |
| Pipeline.ProcessEntry | internal/preprocess/preprocessing.go:54-61 | All preprocessors accept the entry in order, each working on what the one before it left, and the result is what the last one leaves; or one of them refuses it |
| Pipeline.ProcessedExactly | internal/preprocess/preprocessing.go:54-61 | An entry comes out of preprocessing as x if and only if there is such a chain of acceptances ending in x, and is dropped if and only if a chain ends in a refusal |
| PipelineFates.RoutedAreAccepted | tattler.go:105-138 | In every interleaving the entries routed are, in order, the ends of such chains from the first entries the readers sent, scrubbed; refused ones are never routed and no other is left out, and of all entries once a processor's channel is closed |
| PipelineFates.PushesExactly | internal/routing/routing.go:161-171 | An entry is delivered if and only if the channel has room or its processor is waiting; otherwise a blocking router waits and any other counts a drop |
| PipelineFates.OnlyPushesPut | internal/routing/routing.go:161-171 | Nothing but a push delivers or drops |
| PipelineFates.RunBounded | internal/routing/routing.go:161-171 | In every run a processor's channel holds no more than its capacity, or the one entry handed to a waiting processor |
| Stages.RunPreprocess | internal/preprocess/preprocessing.go:43-52 | The loop makes exactly the stage's moves while the rest of the network goes on: it received the first entries the readers sent, in order, and what it sent on is what the preprocessors accept of them and what safety has received or will receive next |
| Stages.RunSafety | internal/safety/safety.go:66-72 | The same for the scrubbing loop: what it received is what came to safety, and what it sent on, those entries scrubbed, is what the router has received or will receive next |
| Stages.RunRouter | internal/routing/routing.go:114-144 | The router's loops make exactly its moves in the network while its routes carry, count and close what the network's outputs do; once all are closed every accepted entry was delivered or counted on each |
| Stages.RoutePipeline | internal/routing/routing.go:114-171 | From its registration on, at any point of any interleaving, each route has carried what the network's output has |
| Pipeline.FlowKept | tattler.go:105-138 | No move of any stage loses, repeats or reorders an entry between the readers and the router |
| Pipeline.PipelineRefines | tattler.go:105-138 | In every interleaving the router's input is a prefix of the scrubbed accepted entries, and each processor's channel carries an in-order subsequence of what its route was offered with the rest counted, all of it when blocking |
| Pipeline.ProcessorsSeeCleanEntries | tattler.go:122-128 | No processor receives an environment value, whatever the preprocessors did |
| Pipeline.ClosedMeansDrained | internal/routing/routing.go:123-129 | A closed processor channel means every accepted entry was delivered to it or counted; no channel is closed twice |
| Pipeline.CanMove | internal/routing/routing.go:146-171 | With the input closed and a channel still open, some stage can move, or the processor a blocking router waits for can receive |
| Pipeline.ShutdownCompletes | internal/routing/routing.go:123-137 | After the input is closed every effective move lessens a well-founded measure and one exists until all channels are closed, so the shutdown cascade ends |

## Left out

- Reader.Lifetime: one resource at a time; a `Run` over several resource types is a run of each, and the failure of another type's startup is a `Cancel` here.
- Relist.RelistType: covers the output of one call; periodic relists are a separate producer on the same channel and are kept out of the ordering and view claims.
- ProtocolTheorems.ConsumerView: assumes that the server's history is never rewritten; after an etcd restore only the "ahead" verdict of the startup check is modelled.
- ProtocolTheorems.SafeBookmark: a store update that was reported as an error counts as committed then or never; one that lands only after the call has returned, which `ConfigMapStore.dfy` allows, is another writer here (`Foreign`).
- ProtocolControl.GapInvariant: a gap is not remembered across a failed `Run` or a restart, as in the code; the stored version then decides.
- Reader.Reader.GetPlainWatcher: a watch that the spawner opens after its requester has given up with its context is never handed over, and is in no set of watchers here.
- Reader.Reader.Reconnect: says nothing about such a watch either; every watcher handed to the handler is stopped.
- BookmarkCalls.Store: a `nil` data map is an empty one, and the refusals of an empty resource or version before the loop are left out, as are those of `Delete`; `Load` is a plain read.
- Pipeline.PipelineRefines: entries are values, so sharing of one object between entries in flight is not captured; redaction in place on shared arrays is proved in `Safety.dfy`.
- Events that are not of the twelve kinds, and events without an object: they are logged and skipped while bookmarks still advance (`SendUnusable`). A listed object that cannot be converted, which would end a list recovery, does not occur with the modelled kinds.
- A Reader without a bookmark store, and the fake store.
- The retry library: whether it marks the error of its last attempt so that an outer retry stops is a parameter of relisting (`Env.exhaustedStops`); its source is not part of this model.
- Time: the spawn delay, the startup watchdog, the relist timer, the check's time budget and backoff. Each is "may be cancelled at any step" or a limit on attempts.
- Metrics, log texts other than the number of drop messages, error wrapping, generated code, the tables of pagers and watchers.
- Discovery, server version parsing, option ranges and argument checks of the constructors.
- Promises, worker pools and channels themselves: they are replies, moves of a network and bounded queues. `Exists` on the router, a second `Close`, and one channel registered under two names.
