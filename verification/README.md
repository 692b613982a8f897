# Verified model of pulumi-engine

This Dafny project models the parts of pulumi-engine that own state, concurrency or a text format, and
proves what they promise. `dafny verify dfyconfig.toml` checks all of it.

Concurrent code is modelled as atomic steps over shared state, one step per lock region or channel
operation. `Step` gives the successor of a state or `None` where a goroutine would block; `Run` folds any
finite list of steps, so a statement about `Run` is a statement about every interleaving. Code that changes
fields, arrays or files in place is a class or a method with a loop, proved against the functions the
theorems are about.

| file | models |
|---|---|
| `EventPipeline.dfy` | stamping, the unbounded event queue, its pump and consumer |
| `OperationLifecycle.dfy`, `StreamEnd.dfy`, `OperationWait.dfy` | the sources `execute` starts and joins, the terminator `finish` writes, and what `Wait` waits for |
| `Joins.dfy`, `Delivery.dfy` | the stdout pump and the event forwarder as goroutines, why their joins leave them quiet, and what becomes of every event |
| `CancelProtocol.dfy` | two-phase cancellation and the per-scope watchers |
| `StackHandle.dfy` | `start`, the `TryLock`, the running set, `finish`, `Stack.Cancel` |
| `Banner.dfy` | the banner format, its parser, the listener table |
| `StdoutPump.dfy` | the reader loop between the captured and the original stdout |
| `FlushBarrier.dfy`, `FlushForgery.dfy` | flush sentinels and their waiters, and what a host can do to them |
| `Redaction.dfy` | rendering of property values and stack outputs |
| `Credentials.dfy` | the save, overwrite, use and restore protocol on the credentials file |
| `Headers.dfy`, `HeaderPatterns.dfy`, `Drift.dfy`, `CopiedFile.dfy`, `DriftUpdate.dfy` | header and marker lines, the unit parser, copied files as texts, `Check` and `Update` |
| `LanguageServer.dfy` | the four-state monitor of the language runtime server |
| `Diagnostics.dfy`, `Classification.dfy` | what an operation records of its events, and the error it reports |
| `Errors.dfy` | typed errors, their kinds, the wire form and the classes of the Node binding |
| `ProjectSettings.dfy`, `SettingsRoundTrip.dfy`, `SettingsFile.dfy`, `SettingsNewlines.dfy` | the settings line parser, the printer, and their round trip |
| `Events.dfy`, `Seqs.dfy`, `Strings.dfy`, `Wrappers.dfy` | event values, sequence and string functions, `Option` and `Result` |

## Where the code and its promises differ

Each of these, those about a failing write and `pulumi login` excepted, is a lemma, with the exact condition where there is one.

- "The channel closes before Wait returns" (`engine/operation.go:123-125`) is guaranteed to no operation: from
  the start of `finish` on, `Wait` may return with the channel open if and only if it is open then
  (`OperationWait.WaitMayReturnEarlyIff`), and when `finish` starts it always is
  (`OperationWait.NoOperationClosesBeforeWait`). The terminator is the last event exactly when no
  `handleEvent` call is under way as `finish` starts (`StreamEnd.EndsWithTerminatorIffQuiet`); a banner
  routed between the flush and the unlisten breaks that (`StreamEnd.LateBannerCanFollowTheTerminator`).
- "Do not hold it back" (`engine/stdout.go:109-110`): `ReadString` returns without a newline only at the end of
  the stream, so every unterminated prompt is held until its line ends (`StdoutPump.PromptIsHeldBack`).
- A flush sentinel glued to an unterminated line is forwarded as text and its flush never returns
  (`FlushBarrier.GluedFlushNeverReturns`, `FlushBarrier.GluedFlushIsReachable`).
- "Waits until the pump has read it" (`engine/stdout.go:136-138`): a waiting flush that is still unreleased can
  return with its sentinel unread if and only if a line in front of the sentinel begins with the sentinel text and
  carries the flush's id, and one that was released already if and only if the pump is still in front of the
  sentinel (`FlushForgery.ReturnsUnreadIff`); it can return with something before the sentinel unread if and
  only if such a line ends, or the pump stands, before the sentinel begins (`FlushForgery.BarrierFailsIff`).
  Only the host can write such a line. A host without NUL characters never does
  (`FlushForgery.NulFreeHostForgesNothing`), which is sufficient and not necessary.
- A flush whose write fails returns at once (`engine/stdout.go:151-153`), so "everything printed before has been
  routed" (`engine/stdout.go:136-138`) is claimed of the flushes that waited. In the lifecycle this is the step
  `FlushFails`, and stdout may then still be routing as `finish` starts.
- A stack-not-found or stack-exists error that travels with pending operations, inside them or joined to them,
  loses its name on the wire (`Errors.WireRoundTrip`, `Errors.LostName`), because `errorJSON` and `KindOf` test
  the types in different orders (`Errors.AttachedAgreesWithKind`). The two stack errors wrap nothing, and they are
  built where a stack is opened or fetched (`engine/errors.go:224-226`, `engine/stack.go:112`,
  `engine/stack.go:392`) while pending operations wrap an engine error (`engine/errors.go:262`), so no path is
  known that combines them.
- The cancelled flag and the kind of the error would differ exactly for a raw error that carries a `Cancelled`
  and about which nothing else is known (`Classification.FlagAgreesWithKind`). Only `classifyOperationError`
  builds a `Cancelled` (`engine/errors.go:250`, `engine/errors.go:260`), so no run is known to return one.
- A `Close` that waits for a running program gets through if and only if no other `Close` has claimed the
  cancellation (`LanguageServer.WaitingCloseGetsThroughIff`); of two that wait, one stays blocked
  (`LanguageServer.TwoClosersOneStaysBlocked`). Overlapping `Run` requests break the monitor
  (`LanguageServer.OverlappingRunsBreakIt`): without a further `Run`, a `Close` can be past the lock beside a
  running program if and only if a program runs and the state is not "running", or a second program runs, or some
  `Close` has claimed the cancellation (`LanguageServer.ExposedIff`); the exact condition for closing the cancel
  channel twice is `LanguageServer.ClaimedTwiceIff`.
- A header whose version has an "@" before its last character is not read back as written
  (`Headers.RenderedHeaderIsRead`): what stands before that "@" becomes part of the module
  (`Headers.InnerAtMovesTheSplit`).
- "Never from a `pulumi login`" (`README.md:189`): an open without a token uses the stored credentials
  (`engine/stack.go:192-195`); such opens are outside the credential theorems.
- Runtime options are printed one level deeper than the settings parser reads: they come back as fields of the
  runtime (`SettingsFile.OptionsAreFlattened`), and an option called `name` replaces its name
  (`SettingsFile.OptionShadowsName`). The name survives if and only if the last readable option called `name` is
  read as that name, or there is none and the name is plain or empty (`SettingsFile.RuntimeNameSurvivesIff`).
  A description with a Unicode line or paragraph separator is lost, since JSON does not escape those and `.` does
  not match them (`SettingsRoundTrip.QuotedReads`).

## Model

| member | source | states |
|---|---|---|
| `EventPipeline.EventQueue.Push` | engine/operation.go:648-655 | an open queue gets the event at its end, a closed one drops it |
| `EventPipeline.EventQueue.Close` | engine/operation.go:657-662 | the queue accepts nothing more and keeps its items |
| `EventPipeline.EventQueue.Take` | engine/operation.go:667-677 | the oldest item is taken out; nothing is left to take exactly when the queue is empty |
| `EventPipeline.PumpAll` | engine/operation.go:664-680 | whatever is pushed between the rounds of the pump, and however long it waits, it hands over every accepted event once and in order until the queue is closed and empty |
| `EventPipeline.EveryRunConserves` | engine/operation.go:633-680 | on every interleaving delivered, in flight and queued together are the accepted events in order, and the channel is closed only when all of them were delivered |
| `EventPipeline.StampsAreExactlyTheIssued` | engine/operation.go:505-510 | on every interleaving the stamps are pairwise distinct and are exactly 0 to k-1 |
| `EventPipeline.DeliveredStampsDiffer` | engine/operation.go:505-514 | no two delivered events carry the same sequence number |
| `EventPipeline.DeliveredByNumber` | engine/operation.go:505-514 | when no two pushes overlap, the i-th delivered event has sequence number i |
| `EventPipeline.OverlapCanSwap` | engine/operation.go:506-513 | stamping and queueing are two lock regions: with two overlapping pushes the order of delivery can differ from the numbers |
| `EventPipeline.StepRefinesFifo` | engine/operation.go:633-680 | queue, pump and consumer together are one FIFO: every step is an append, a removal at the front, or invisible |
| `EventPipeline.ClosedFreezesAccepted` | engine/operation.go:648-662 | after close no continuation accepts another event |
| `EventPipeline.ChannelClosesAfterTheLastEvent` | engine/operation.go:664-680 | once the channel is closed no continuation delivers anything more |
| `EventPipeline.ClosedQueueDrains` | engine/operation.go:664-680 | from every state with a closed queue the pump alone can hand over everything accepted and close the channel |
| `OperationLifecycle.ExactlyOneCancelEvent` | engine/operation.go:517-523 | on every run, also one that fails at once, no cancel event of another origin is accepted, and a finished run has accepted the terminator, once |
| `OperationLifecycle.SourcesNest` | engine/operation.go:300-307 | the open sources are the first of stdout, plugin host and engine on every run: the engine is joined before the host and the host before stdout, and a joined source is quiet but for late stdout lines |
| `Delivery.EventsAreConserved` | engine/operation.go:516-561 | on every run the events handed to `handleEvent`, cancels excepted, and the terminator once stamped are all there is, in a call, on the way to the queue, in the stream, or dropped after `close` |
| `Delivery.EveryEventIsInTheStream` | engine/operation.go:516-561 | when the operation is done, no call is under way and none came too late, the stream is as a multiset exactly the events handed over, cancels excepted, and the terminator; so is what was delivered once the channel is closed |
| `Delivery.CallsNeverWait` | engine/operation.go:648-655 | from every reachable state a call of an open source goes through in three steps of its own and appends its event with the next number |
| `Delivery.SourceKeepsItsOrder` | engine/operation.go:423-434 | the events of the stdout pump, and those of the engine channel, are in the stream in the order in which their goroutine handled them |
| `StreamEnd.JoinsLeaveSourcesQuiet` | engine/operation.go:300-307 | when each join waits for its source to be quiet, no call is under way as `finish` starts, unless stdout was routed after the flush, or while a flush whose write failed returned |
| `StreamEnd.TerminatorEndsTheStream` | engine/operation.go:254-259 | then every continuation that completes ends with the terminator, which has the largest sequence number |
| `StreamEnd.EndsWithTerminatorIffQuiet` | engine/operation.go:254-259 | the stream always ends with the terminator if and only if no call is under way when `finish` starts |
| `StreamEnd.LateBannerCanFollowTheTerminator` | engine/operation.go:304-307 | a reachable run on which an event is accepted after the terminator |
| `OperationWait.FinishNeedsNoConsumer` | engine/operation.go:123-124 | `finish` completes without any delivery: nobody has to read the events |
| `OperationWait.EveryOperationCanFinish` | engine/operation.go:123-124 | from every state a run reaches the operation can come to its end without a step of the pump or of a consumer |
| `OperationWait.WaitMayReturnEarlyIff` | engine/operation.go:181-184 | from the start of `finish` on, some continuation lets Wait return with the channel open if and only if it is open now |
| `OperationWait.NoOperationClosesBeforeWait` | engine/operation.go:123-125 | so the promise that the channel closes before Wait returns is guaranteed to no operation, whatever ran before |
| `OperationWait.WaitCanReturnBeforeTheChannelCloses` | engine/operation.go:257-259 | such an operation: it fails at once and is done with its terminator undelivered and the channel open |
| `Joins.RunRefines` | engine/operation.go:423-450 | the pump and the forwarder make their calls one at a time and their joins ask only where they are; every run of them is a run of the lifecycle machine |
| `Joins.JoinsSuffice` | engine/operation.go:300-307 | hence when `finish` starts no call is under way and the stream always ends with the terminator, unless stdout was routed after the flush, or while a flush whose write failed returned |
| `Joins.WorkersNeverWait` | engine/operation.go:423-450 | a goroutine in a call is out of it after two steps that are always possible; out of a call it can begin the next or let its join through |
| `CancelProtocol.Switch.Cancel` | engine/operation.go:190-196 | the first call closes the cancel channel, every later one at most the terminate channel |
| `CancelProtocol.CancelTimes` | engine/operation.go:186-196 | n calls close the cancel channel once if n is at least 1 and the terminate channel once if n is at least 2 |
| `CancelProtocol.ClosesAtMostOnce` | engine/operation.go:190-196 | with any number of concurrent callers each channel is closed at most once, terminate only after two calls were made |
| `CancelProtocol.TerminateOnlyAfterOwnCancel` | engine/operation.go:605-622 | what a scope has called is nothing, Cancel, or Cancel and then Terminate |
| `CancelProtocol.OpenScopesGetBothSignals` | engine/operation.go:608-620 | a watcher that leaves before its scope is closed has passed both signals on |
| `CancelProtocol.OpenScopeTakesTheSignals` | engine/operation.go:608-620 | from any state that keeps the invariant, the watcher of an open scope has a continuation on which it passes on exactly the signals that were given |
| `CancelProtocol.LateScopeTakesTheSignals` | engine/operation.go:601-622 | a scope opened after the signals were given gets them all the same |
| `CancelProtocol.ClosedScopeIsLeft` | engine/operation.go:608-620 | the watcher of a closed scope can leave by at most two steps of its own |
| `CancelProtocol.TerminateCanCloseFirst` | engine/operation.go:190-196 | the terminate channel can be closed before the cancel channel |
| `StackHandle.MutualExclusion` | engine/operation.go:285-288 | at most one operation of a handle is between its lock and its unlock |
| `StackHandle.AdmittedIffFree` | engine/operation.go:285-288 | an operation that tries the lock gets it if and only if no other one has it |
| `StackHandle.RefusedReportsConcurrentUpdate` | engine/operation.go:285-287 | an operation that tries the lock while another has it reports a concurrent update, whatever happens until it is classified, unless it is asked to cancel by then |
| `StackHandle.OperationCanFinish` | engine/operation.go:262-266 | no operation waits for another: each can come to its end by steps of its own |
| `StackHandle.RunningExactlyUntilFinish` | engine/operation.go:219-252 | an operation is in the running set exactly from its start until `finish` removes it, and its done channel is closed at most once |
| `StackHandle.PublishedOutcomeIsFixed` | engine/operation.go:181-184 | once done is closed no step of any continuation changes the result or the error |
| `StackHandle.PublishedIsWhatHappened` | engine/operation.go:219-252 | what is published are the outputs set last, and an error exactly if the run failed |
| `StackHandle.RawIsWhatWasReturned` | engine/operation.go:262-266 | the error that is classified is the one the run returned |
| `StackHandle.CancelReachesEveryRunningOperation` | engine/stack.go:523-534 | when a cancel has worked through its snapshot, every operation running at the snapshot was asked to cancel |
| `StackHandle.CancelGoesOn` | engine/stack.go:531-533 | as long as operations of its snapshot are left, a cancel can ask the next one, once |
| `StackHandle.RequestsAreCounted` | engine/operation.go:190-196 | every request to cancel counts, whether the user or `Stack.Cancel` made it, and nothing else does |
| `StackHandle.RequestedCancelIsReported` | engine/operation.go:245-248 | on every run an operation that was asked to cancel at any time before its classification reports `Cancelled` if it failed, in error and flag; one that did not fail reports neither |
| `Banner.BannerMatchIff` | engine/stdout.go:70 | the greedy pattern matches with a verb and a reference exactly when the line reads as that verb and that reference |
| `Banner.PrintedBannerIsRead` | engine/stdout.go:157-175 | a banner printed with any reference, parentheses and colons in it included, is read back as exactly that verb and reference |
| `Banner.BackendBannerIsRead` | engine/stdout.go:30-37 | the line a backend prints for an operation is read back with its verb and reference |
| `Banner.MatchedIffPrinted` | engine/stdout.go:171-172 | whatever its line end, a line is matched with a verb and a reference if and only if it is the verb, the reference in parentheses, a colon or none, and white space |
| `Banner.PrefixMaybeBanner` | engine/stdout.go:124-134 | every prefix of a banner or sentinel line may still become one |
| `Banner.MaybeBannerIff` | engine/stdout.go:124-134 | a partial line passes the test if and only if it can still become a sentinel line or one that starts with the first word of a banner verb |
| `Banner.VerbTellsApart` | engine/stdout.go:197-215 | two operations have the same verb exactly when they have the same kind and, for refresh and destroy, are both dry or both not |
| `Banner.VerbSaysWhat` | engine/stdout.go:197-215 | the verb names the kind of the operation, and says "Previewing" exactly for previews and for dry refreshes and destroys |
| `Banner.Capture.Listen` | engine/stdout.go:217-222 | the operation is appended to the listeners of its reference |
| `Banner.Capture.Unlisten` | engine/stdout.go:224-239 | its first entry is taken out, and an empty entry leaves the table |
| `Banner.Capture.Route` | engine/stdout.go:159-194 | a sentinel line is consumed for nobody, a banner with a target for that target, and any other line is not consumed |
| `Banner.TargetIsFirst` | engine/stdout.go:176-184 | the target is the first listener with the verb, and there is none exactly when no listener has it |
| `Banner.TableHoldsTheLive` | engine/stdout.go:217-239 | after any history of listening and leaving the table holds exactly the live operations, in order |
| `Banner.ConsumedIff` | engine/stdout.go:157-194 | after any history of listening and leaving, a line is consumed if and only if it begins with the sentinel or is the printed banner of an operation that is listening |
| `Banner.BannerReachesFirstLive` | engine/stdout.go:176-184 | a printed banner goes to the first live operation that listens on its reference with its verb, and to none exactly when there is none |
| `StdoutPump.Reader.ReadString` | engine/stdout.go:96-99 | the contract of `bufio.Reader.ReadString` over arbitrary pieces: the next line, or at the end the rest |
| `StdoutPump.PumpStdout` | engine/stdout.go:95-122 | for every stream and fragmentation the writes are the lines routing did not consume, in order, and the unterminated tail exactly once at the end |
| `StdoutPump.PumpRouted` | engine/stdout.go:95-122 | with routing wired in and any history of listeners: the original stdout gets exactly the lines that are no sentinel and no banner of an operation then listening, in order, and the tail; those lines are taken out |
| `StdoutPump.PromptIsHeldBack` | engine/stdout.go:108-113 | any prompt read in a piece of its own is written only together with the rest of its line |
| `StdoutPump.LinesReassemble` | engine/stdout.go:94-107 | the lines and the tail put together are the stream |
| `StdoutPump.LinesAreLines` | engine/stdout.go:99-102 | every line has its one newline at its end, and the tail has none |
| `StdoutPump.OrdinaryTextPassesThrough` | engine/stdout.go:35-37 | text without banners and sentinels goes through byte for byte, whoever is listening |
| `StdoutPump.NothingLost` | engine/stdout.go:35-37 | every line is forwarded or consumed, once |
| `FlushBarrier.Waiters.Register` | engine/stdout.go:145-150 | a flush gets the next id and its own channel under that id |
| `FlushBarrier.Waiters.Route` | engine/stdout.go:161-168 | the channel of the id, if one waits, is handed out for closing and the id leaves the map |
| `FlushBarrier.ReleasedAtMostOnce` | engine/stdout.go:159-170 | whatever the host writes, each waiter is released at most once |
| `FlushBarrier.ReleasedOnlyByItsId` | engine/stdout.go:160-168 | a step releases a waiter only by a sentinel line with that waiter's id |
| `FlushBarrier.FlushIsABarrier` | engine/stdout.go:136-155 | with a host that writes no NUL, a flush that waited and has returned was released by its own sentinel, and everything written before it has been read and handled |
| `FlushBarrier.ReleasedIffItStartsALine` | engine/stdout.go:139-170 | once the pump is past a sentinel its waiter is released if and only if the sentinel began a line |
| `FlushBarrier.GluedFlushNeverReturns` | engine/stdout.go:151-160 | a sentinel behind an unterminated line leaves its flush blocked on every continuation |
| `FlushBarrier.GluedFlushIsReachable` | engine/stdout.go:151-154 | one unterminated write in front of a flush leads there |
| `FlushForgery.ReturnsUnreadIff` | engine/stdout.go:136-170 | for any host and every waiting flush: it can return with its sentinel unread if and only if a line in front of it begins with the sentinel text and carries its id or, once it is released, if and only if the pump is still in front of the sentinel |
| `FlushForgery.BarrierFailsIff` | engine/stdout.go:136-170 | for any host and every waiting flush: it can return with something before its sentinel unread if and only if such a line ends before the sentinel begins or, once it is released, if and only if the pump has not come to where the sentinel begins |
| `FlushForgery.UnreadMeansInFront` | engine/stdout.go:99-104 | the pump never stops inside a sentinel: it is in front of it until it has read it to its end |
| `FlushForgery.NulFreeHostForgesNothing` | engine/stdout.go:57 | a host that writes no NUL character never writes such a line, and no waiting flush was released early |
| `FlushForgery.ForgedSentinelBreaksTheBarrier` | engine/stdout.go:160-168 | a reachable state in which a line of the host lets the flush return early |
| `FlushBarrier.RoutedForgetsItsId` | engine/stdout.go:160-165 | a sentinel line takes its id out of the map, whether somebody waits for it or not |
| `FlushBarrier.PumpReleases` | engine/stdout.go:159-170 | a sentinel that began a line is reached and its waiter released after finitely many lines |
| `Redaction.Noninterference` | engine/stack.go:427-476 | values that differ only inside secrets, at any depth, render alike when secrets are hidden |
| `Redaction.SameIffMaskedSame` | engine/stack.go:427-476 | two values are the same outside secrets if and only if they are equal with the insides of secrets blanked out |
| `Redaction.PlainRoundTrip` | engine/stack.go:431-450 | null, booleans, numbers, texts, arrays and objects are read back from their rendering unchanged, under either flag |
| `Redaction.RenderedAt` | engine/stack.go:427-476 | position by position: arrays keep length and order and objects their keys, every hidden secret shows as the redaction text, unknown and computed values as null, assets, archives and references as hash or URN |
| `Redaction.ShowingIsStripping` | engine/stack.go:451-464 | showing secrets is rendering the value with every secret wrapper stripped |
| `Redaction.NothingToHide` | engine/stack.go:427-476 | a value without secrets renders the same under both flags |
| `Redaction.Render` | engine/stack.go:407-424 | the reported values are the renderings of the root outputs, and the secret keys are exactly the sorted keys whose value contains secrets |
| `Redaction.StackOutputs` | engine/stack.go:398-425 | the outputs of the resource at the first index that is a root stack without a parent; none without a snapshot or such a resource |
| `Redaction.UnlistedKeysAgree` | engine/stack.go:415-420 | a key that is not listed as secret reports the same value whether secrets are shown or not |
| `Redaction.OutputsHideSecrets` | engine/stack.go:398-425 | outputs that differ only inside secrets are reported alike, values and key list |
| `Redaction.IncreasingIsUnique` | engine/stack.go:423 | the sorted key list does not depend on the order in which the map was iterated |
| `Credentials.CredentialsFile.WithSpecCredentials` | engine/stack.go:191-222 | the result for every combination of failures; the backend gets the spec's token and the file is as before unless restoring failed |
| `Credentials.StoreKeepsOthers` | engine/stack.go:203-207 | storing the account sets the token of its URL and leaves the others alone |
| `Credentials.BackendsHoldTheirOwnToken` | engine/stack.go:182-190 | for every interleaving of opens with tokens each constructed backend holds its own spec's token |
| `Credentials.FreeLockMeansSettledFile` | engine/stack.go:185-187 | whenever the lock is free the file is the original, or absent if it was absent, up to what a failed restore left |
| `Credentials.OneInside` | engine/stack.go:173-198 | at most one open is inside the hand-off |
| `Credentials.FreeLockLetsIn` | engine/stack.go:191-222 | whenever the lock is free a waiting open can go through, get a backend with its token, and leave the file as it was |
| `Headers.RenderedHeaderIsRead` | internal/upstream/drift/drift.go:79 | the written header line is parsed as its own fields if and only if the version has no white space and no inner "@" |
| `Headers.InnerAtMovesTheSplit` | internal/upstream/drift/drift.go:79 | a version with an inner "@" is read with everything before that "@" in the module |
| `Headers.RewrittenHeaderIsRead` | internal/upstream/drift/drift.go:318 | rewriting a parsed header line with a version without white space and inner "@" and a hash of 64 hex digits gives a line parsed as the same entry with these two changed |
| `HeaderPatterns.ClassifyIff` | internal/upstream/drift/drift.go:79-83 | a line is read as an entry, a reason, a delete-when text, a begin or an end marker with given fields if and only if it is put together from comment sign, keyword, white space and those fields; as text if and only if it has none of these forms |
| `CopiedFile.PrintedIsParsed` | internal/upstream/drift/drift.go:111-167 | a file printed from entries, texts and marked regions with other text in and between them is accepted if and only if the header is complete and declares every region, and is parsed into exactly the unit it was printed from |
| `Drift.ParseUnit` | internal/upstream/drift/drift.go:111-167 | parsing a file is parsing the kinds of its lines |
| `Drift.ParseLines` | internal/upstream/drift/drift.go:116-167 | the loop, writing through a pointer into the growing region slice, computes the line-by-line meaning with the same first error |
| `Drift.Append` | internal/upstream/drift/drift.go:132 | appending to the region slice, with or without a new buffer, keeps the regions and adds one |
| `Drift.CloseRegion` | internal/upstream/drift/drift.go:141 | the write through the pointer sets the end of that one region and nothing else |
| `Drift.CheckDeclared` | internal/upstream/drift/drift.go:157-166 | a region under an undeclared path is an error at the first such region |
| `Drift.ScanMeans` | internal/upstream/drift/drift.go:118-144 | the loop succeeds exactly when begin and end markers alternate with equal paths, and has then collected the entries, regions and texts |
| `Drift.AcceptsExactlyWellFormed` | internal/upstream/drift/drift.go:111-167 | a file is accepted exactly when its header is complete and its markers pair up under declared paths, and the unit is what its lines say |
| `Drift.RejectedIff` | internal/upstream/drift/drift.go:118-166 | a file is rejected with an error if and only if that is the error of the first marker out of turn or, if none is, of the first thing its header lacks |
| `Drift.RegionIsNotEmpty` | internal/upstream/drift/drift.go:46-51 | an accepted region begins before it ends |
| `Drift.RegionsAreDisjointAndOrdered` | internal/upstream/drift/drift.go:128-143 | accepted regions are disjoint and in the order of their lines |
| `DriftUpdate.Check` | internal/upstream/drift/drift.go:243-276 | the findings of all sources in order, or the first failure |
| `DriftUpdate.NoFindingsIff` | internal/upstream/drift/drift.go:239-276 | nothing is found exactly when every source has its recorded hash in the pinned module |
| `DriftUpdate.FindingsSay` | internal/upstream/drift/drift.go:243-276 | when all sources can be resolved there is one finding for each stale one, in order, which says whether it is gone or changed, and in which version |
| `DriftUpdate.FirstFailureIsReported` | internal/upstream/drift/drift.go:247-262 | otherwise checking fails with the first source that is not pinned or cannot be read |
| `DriftUpdate.SourceFile.Update` | internal/upstream/drift/drift.go:300-328 | for any unit: the file is the one with the header lines rewritten, written back only if an edit found another text; on an error, a line outside the file included, it is untouched |
| `DriftUpdate.UpdateLines` | internal/upstream/drift/drift.go:308-323 | assigning into the lines in place gives exactly the rewritten lines, and `changed` records whether an edit found another text |
| `DriftUpdate.ChangeIsReported` | internal/upstream/drift/drift.go:324-327 | for a unit parsed from the file a change is reported exactly when some line differs |
| `DriftUpdate.UpdateFailsIff` | internal/upstream/drift/drift.go:309-316 | an update fails if and only if some source cannot be resolved, and with the first such source |
| `DriftUpdate.UpdateReadsBack` | internal/upstream/drift/drift.go:300-328 | re-parsing gives the same unit with only versions and hashes renewed, all other lines are unchanged, a second update changes nothing, and checking finds nothing |
| `DriftUpdate.WrittenFileSplits` | internal/upstream/drift/drift.go:327 | the written text splits into exactly the rewritten lines |
| `DriftUpdate.ParsedUnitIsListed` | internal/upstream/drift/drift.go:123 | the sources of a parsed unit are in line order within the file, so updating it never indexes outside |
| `LanguageServer.LanguageRuntimeServer.EnterClose` | internal/upstream/langserver.go:110-124 | on its first look `Close` goes on when no program has run or the last has finished, waits while one runs, and returns when the server is cancelled |
| `LanguageServer.LanguageRuntimeServer.RetryClose` | internal/upstream/langserver.go:119-124 | a waiting `Close` goes on only in the finished state |
| `LanguageServer.LanguageRuntimeServer.BeginRun` | internal/upstream/langserver.go:137-144 | a program is admitted exactly when the server is not cancelled |
| `LanguageServer.LanguageRuntimeServer.EndRun` | internal/upstream/langserver.go:146-151 | the end of a program leaves the finished state |
| `LanguageServer.CancelSignalOnce` | internal/upstream/langserver.go:123-128 | with one `Run` at a time and any number of `Close` calls the cancel channel is sent to and closed at most once, and never while the program runs |
| `LanguageServer.NoProgramAfterCancel` | internal/upstream/langserver.go:139-142 | once cancelled no continuation starts a program |
| `LanguageServer.NoProgramAfterClose` | internal/upstream/langserver.go:110-142 | after any `Close` call that is not waiting, also one before any program, no continuation runs a program |
| `LanguageServer.CloseWaitsOnlyForAProgram` | internal/upstream/langserver.go:112-121 | a `Close` call waits if and only if a program runs |
| `LanguageServer.ClaimantSignals` | internal/upstream/langserver.go:126-127 | the call that has claimed the cancellation can send, and then close the channel whatever happens in between |
| `LanguageServer.WaitingCloseGetsThroughIff` | internal/upstream/langserver.go:110-129 | a waiting `Close` can get through if and only if no other call has claimed the cancellation |
| `LanguageServer.OvertakenCloserStaysBlocked` | internal/upstream/langserver.go:119-121 | a `Close` that waits while another takes the finished state waits on every continuation |
| `LanguageServer.TwoClosersOneStaysBlocked` | internal/upstream/langserver.go:110-129 | two `Close` calls during one program lead to that state |
| `LanguageServer.OverlappingRunsBreakIt` | internal/upstream/langserver.go:137-151 | with overlapping `Run` requests a `Close` can claim the cancellation while a program still runs |
| `LanguageServer.ExposedIff` | internal/upstream/langserver.go:110-151 | after any runs, overlapping or not: a continuation without a new `Run` puts a claiming `Close` beside a running program if and only if one runs now and the state is not "running", or two run, or a `Close` has claimed the cancellation |
| `LanguageServer.ClaimedTwiceIff` | internal/upstream/langserver.go:110-151 | after any runs, a continuation without a new `Run` lets two `Close` calls claim the cancellation if and only if two have, or one has and the state is finished, or the condition of the row above holds |
| `Diagnostics.Operation.HandleEvent` | engine/operation.go:544-559 | the recorded fields after one more event |
| `Diagnostics.HandleEvents` | engine/operation.go:432-438 | handling events one after the other records exactly what they say |
| `Diagnostics.Operation.FillFailureMessages` | engine/operation.go:565-581 | whatever order the map is iterated in, failures get the messages of their URN and the others are gathered |
| `Diagnostics.RecordedByUrn` | engine/operation.go:553-557 | each URN's list is its error messages in order |
| `Diagnostics.NoDiagnosticLostOrDoubled` | engine/operation.go:563-581 | after any events, every non-blank error diagnostic is either in the message of the failures with its URN or a program-level error once, in order within its URN |
| `Diagnostics.FailuresAreReported` | engine/operation.go:544-581 | after any events the failures are those of the events in order, each with its own URN, type, operation, provider and diagnostics; the summary is the last one |
| `Diagnostics.RefillChangesNothing` | engine/operation.go:563-581 | filling again changes no failure |
| `Classification.PlanViolations` | engine/plan.go:142-153 | the violations of all URNs, sorted by URN, each message once |
| `Classification.GatherViolations` | engine/plan.go:143-151 | before sorting: for some enumeration of the URNs, the violations of one URN after the other |
| `Classification.Violating` | engine/plan.go:145-149 | the messages of one URN that name a plan constraint, trimmed and in order |
| `Classification.CollectedMeans` | engine/plan.go:142-153 | reported violations are exactly the messages that name a plan constraint, trimmed, with their URNs |
| `Classification.Finish` | engine/operation.go:240-248 | the reported error is the classification of the raw one, and the flag is set exactly when that is `Cancelled`, which is when cancel was requested, the context was cancelled, or the backend reported a cancel that is not an update conflict |
| `Classification.RawErrorIsWrapped` | engine/errors.go:247-282 | a conflict, pending operations and an unexplained error are reported with the raw error as the rest of their chain; violations with all of them |
| `Classification.CarriedErrorsDecide` | engine/errors.go:249-263 | a cancel is reported if and only if one was requested, the context was cancelled, or the chain holds the backend's cancel and nothing says conflict; a concurrent update if and only if there is no such request and something does |
| `Classification.FirstFailureIsReported` | engine/errors.go:274-276 | when nothing else explains the error, the first resource failure of the events is reported with its own fields and all the diagnostics of its URN |
| `Classification.ProgramErrorsAreReported` | engine/errors.go:277-279 | without a failure all the error diagnostics of the events are, joined |
| `Classification.WrappingKeepsTests` | engine/errors.go:84-103 | wrapping an error hides nothing of what classification looks for |
| `Classification.TextsThatCount` | engine/errors.go:236-240 | an error is a lock conflict or pending operations, and a message a violation, if and only if one of the texts stands somewhere in it |
| `Classification.PendingTextIsPending` | engine/errors.go:261-262 | an untyped error with the text of pending operations is classified as that |
| `Classification.TextsShow` | engine/errors.go:52-166 | the texts of errors hold the names, fields and inner texts they are about |
| `Classification.RefusalKeepsItsKind` | engine/operation.go:285-287 | the error of an operation refused the lock keeps its kind through classification, unless a cancel was requested |
| `Classification.KindOfClassified` | engine/errors.go:245-282 | for a raw error without a type of its own, the kind callers see is that of the branch taken |
| `Classification.TypedErrorsKeepTheirKind` | engine/errors.go:245-282 | a typed raw error that reaches the last branch keeps its kind under the `Unclassified` wrapper |
| `Classification.FlagAgreesWithKind` | engine/operation.go:245-248 | the flag is set exactly when the kind is cancelled, except exactly when no test applies, nothing was observed, and the raw error carries a `Cancelled` as its first-ranked type |
| `Classification.CarriedCancelIsNotFlagged` | engine/errors.go:281 | such a raw error, classified without the flag and with the cancelled kind |
| `Errors.AsIsFirstInChain` | engine/errors.go:172-209 | `errors.As` finds the first error of the type in the depth-first chain |
| `Errors.KindIsFirstCarried` | engine/errors.go:172-209 | the kind is the first, in the order of precedence, of which the chain carries an error |
| `Errors.ErrorJson` | capi/capi.go:107-140 | the map filled by assignment is the wire form |
| `Errors.WireRoundTrip` | capi/capi.go:107-143 | decoding the wire form gives the class of the kind with the fields of the first such error, if and only if no named stack error travels with pending operations |
| `Errors.MissingFieldsAreEmpty` | bindings/nodejs/src/errors.ts:160-194 | an object without fields gives an error of its kind with empty fields and the message "unknown error" |
| `Errors.LostName` | capi/capi.go:130-133 | a stack-not-found error inside pending operations arrives without its name |
| `Errors.AttachedAgreesWithKind` | capi/capi.go:119-140 | the attached fields are those of the reported kind exactly when no fieldless or named kind outranks another attached one |
| `Errors.UnclassifiedIsTransparent` | engine/errors.go:160-169 | wrapping in `Unclassified` does not change the kind |
| `Errors.WrapperIsNotSent` | capi/capi.go:107-143 | nor anything in the wire form |
| `Errors.PickIsReported` | bindings/nodejs/src/errors.ts:152-195 | the error the kind was picked from is the first of that kind in the chain |
| `ProjectSettings.QuoteIsRead` | bindings/nodejs/src/automation-compat.ts:519-520 | parsing inverts the JSON quoting of every string |
| `ProjectSettings.AnySpellingIsRead` | bindings/nodejs/src/automation-compat.ts:519-520 | every spelling of a JSON string is read: plain characters, short escapes, and numbers in either case |
| `ProjectSettings.DoubleQuotesAreParsed` | bindings/nodejs/src/automation-compat.ts:517-523 | between double quotes stands a JSON string, or else the text as it is |
| `ProjectSettings.SingleQuotesAreTakenOff` | bindings/nodejs/src/automation-compat.ts:517-520 | single quotes are taken off, whatever is between them |
| `ProjectSettings.EscapeBreaks` | bindings/nodejs/src/automation-compat.ts:588-592 | a quoted string has no line break exactly when it has no line or paragraph separator |
| `ProjectSettings.ParsesToItself` | bindings/nodejs/src/automation-compat.ts:516-526 | a scalar is read as itself exactly when it is trimmed and not quoted |
| `ProjectSettings.ReadProjectSettings` | bindings/nodejs/src/automation-compat.ts:533-572 | the loop over lines computes the line-by-line meaning, and settings without a name are none |
| `ProjectSettings.NamedIff` | bindings/nodejs/src/automation-compat.ts:571 | a file is read as settings if and only if its last line for the name has a text, which is then the name |
| `ProjectSettings.LineEndingsDoNotMatter` | bindings/nodejs/src/automation-compat.ts:548 | files with either line ending are read alike |
| `SettingsRoundTrip.KeyValueIff` | bindings/nodejs/src/automation-compat.ts:552 | a text is read as a key with a value exactly when it is letters, digits, underscores and inner hyphens, a colon, and that value after white space |
| `SettingsRoundTrip.TopKind` | bindings/nodejs/src/automation-compat.ts:552-556 | a line with a key is read as that key with the trimmed rest, or ignored when the rest has a stray break |
| `SettingsRoundTrip.NestedKind` | bindings/nodejs/src/automation-compat.ts:566-569 | the same for an indented line |
| `SettingsRoundTrip.ReadBlocks` | bindings/nodejs/src/automation-compat.ts:549-570 | each printed setting is read on its own, whatever section the parser was left in |
| `SettingsRoundTrip.UnquotedReads` | bindings/nodejs/src/automation-compat.ts:574-597 | a scalar written as it is comes back exactly when it is plain |
| `SettingsRoundTrip.QuotedReads` | bindings/nodejs/src/automation-compat.ts:588-592 | a quoted scalar comes back exactly when it has no line or paragraph separator |
| `SettingsFile.WriteProjectSettings` | bindings/nodejs/src/automation-compat.ts:574-598 | the pushed lines are the printed form of the settings |
| `SettingsFile.OneLineSettingsReadBack` | bindings/nodejs/src/automation-compat.ts:533-598 | the same as the next row for scalars without newlines |
| `SettingsNewlines.SettingsReadBack` | bindings/nodejs/src/automation-compat.ts:533-598 | without runtime options, reading the printed file returns exactly the name, runtime, main, description and URL that were written if and only if the unquoted ones are plain and the quoted ones have no line or paragraph separator |
| `SettingsNewlines.NewlinesAreLost` | bindings/nodejs/src/automation-compat.ts:574-598 | settings with a newline in name, runtime or URL never come back, whatever the other lines say |
| `SettingsFile.OptionsAreFlattened` | bindings/nodejs/src/automation-compat.ts:579-586 | for a plain name, one-line scalars and options with word keys, the options are read as fields of the runtime |
| `SettingsFile.OptionShadowsName` | bindings/nodejs/src/automation-compat.ts:581-584 | for the same settings, what is read has a last option called `name` in place of the runtime's name |
| `SettingsFile.RuntimeNameSurvivesIff` | bindings/nodejs/src/automation-compat.ts:574-586 | for one-line scalars and word keys, the runtime's name is read back if and only if the last readable option called `name` is read as that name, or there is none and the name is plain or empty |

## Left out

- SettingsNewlines.SettingsReadBack: settings with runtime options are outside the equivalence; what they come back as is SettingsFile.OptionsAreFlattened.
- SettingsFile.OptionsAreFlattened: for options with word keys and scalars on one line each.
- ProjectSettings.ReadProjectSettings: the js-yaml branch is a library call; the key `__proto__`, lone surrogates and escapes that denote surrogates are not modelled.
- SettingsFile.WriteProjectSettings: an option's value is given as its JSON text; file names and writing the file are not modelled.
- StdoutPump.PumpStdout: the test for held-back lines is a parameter; bufio's "no progress" error is not modelled.
- FlushBarrier.FlushIsABarrier: for hosts that write no NUL character; for all hosts FlushForgery.ReturnsUnreadIff and FlushForgery.BarrierFailsIff give the exact condition. Writes to the pipe are atomic and the pump is the only reader.
- FlushBarrier.GluedFlushNeverReturns: for hosts that write no NUL character; another could still release the flush with a line of its own.
- StreamEnd.JoinsLeaveSourcesQuiet: that a join waits is its guard. Joins.RunRefines derives it for stdout and for the engine's channel of preview and up; that closing the event sink and the plugin host waits for their calls is library behaviour and stays assumed.
- Banner.Capture.Route: colour markup is assumed to be stripped already; the event it makes of a banner is not built.
- Redaction.Noninterference: `ContainsSecrets` and the property types are SDK library code, modelled from their documented meaning.
- Credentials.BackendsHoldTheirOwnToken: opens without a token bypass the lock and are outside the claim; they use the stored credentials.
- Credentials.FreeLockMeansSettledFile: a failed store leaves the file as it was, and no other process writes it.
- Errors.ErrorJson: errors of JSON marshalling, `%q` escapes in messages and the operation result that travels beside the error are not modelled.
- Classification.PlanViolations: `sort.Slice` is not stable; the result is specified up to the order within one URN.
- DriftUpdate.Check: the go tool, the module cache, hashing and the diff text are a resolver given as a map.
- DriftUpdate.SourceFile.Update: an index outside the file panics in the original; here it is an error that leaves the file untouched.
- LanguageServer.CancelSignalOnce: gRPC serving, the wait for the server's end and panics inside the program are not modelled.
- Operation timestamps, durations, event payloads beyond what classification reads, and the conversion of engine events.
- `sync.Once`, atomics, condition variables and channels are taken as their documented atomic steps; fairness is assumed nowhere.
- Pulumi's engine, backends, plan codec and secrets; a backend call is any sequence of events and any returned error.
- Configuration, tags, history, listing, import and export of stacks: they only add easy members.
- The C handle registry, the FFI layers and the Python binding.
