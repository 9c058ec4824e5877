# Verified model of the build backend

This project models the concurrent protocols of the backend, and the algorithms they rest on, and proves what they
keep in every interleaving. `dafny verify dfyconfig.toml` checks all of it.

Each protocol is a state machine cut at its `await`s. A state holds the shared data and the suspended operations with
their local variables; a choice says which operation runs next and what the world answers; a run is a sequence of
choices. A theorem over all sequences of choices is a theorem over all schedules, crashes and answers. Where the source
updates an object in place, a class with the same fields and loops is proved to compute the functions that the machines
are built from.

- **The gated build pipeline** (`Session`, `OptimisticWrite`, `MergeFiles`, `Pipeline`, `PipelineSafety`,
  `PipelineVerified`, `PipelineEdits`, `PipelineCode`, `PipelineCalls`). Starts, approvals, runs, recoveries, confirms,
  cancels, chat turns, ledger writes and publishes all write one optimistically locked row. What is pushed was verified
  after an approval; a cancel is final; chat is never lost; the base application survives every edit; what is stored and
  given to Trace is exactly what the rounds and the README writer emitted. When two recoveries overlap, the push gate can
  open on code that is not the stored code: this is shown on a concrete run, and excluded when they do not overlap.
- **External writes** (`JsonValue`, `JsonPrinter`, `JsonReader`, `CanonicalJson`, `ExternalWriteGate`, `ExternalWriteLedger`,
  `ExternalWriteProtocol`, `ExternalWriteOutcome`). Propose, confirm, execute at most once, with crashes anywhere, and a ledger
  that says of every record what happened to it. The digest pre-image is a canonical form, proved down to the printed
  characters, which an RFC 8259 reader reads back.
- **Resumable events** (`EventBus`, `SseStream`). Bounded replay buffers, eviction, and one client that drops and
  reconnects at will.
- **Previews** (`PreviewRegistry`, `PreviewCap`, `PreviewLeak`, `PreviewPolicy`, `PreviewLaunch`, `PreviewBoot`,
  `PreviewCoordinator`, `PreviewFresh`, `PreviewRestart`, `PreviewServe`). Ownership tokens, the cap, processes and ports as
  resources, who may evict whom, the coordinator that serializes starts, and what a `ready` preview serves. Two things the
  tokens alone do not give are shown on concrete runs: overlapping starts can leak a process, and a superseded launch in the
  eviction loop can stop its own successor.
- **Algorithms** (`DeepFreeze`, `SmtpReplies`, `SmtpGrammar`, `SmtpReaders`, `SmtpMessage`, `RateLimiter`).

Two kinds of theorem go together. Safety over every interleaving says what can never go wrong; the `Undisturbed` theorems say
what each operation achieves, exactly, when nobody interferes, so that doing nothing does not count as safe.

Where the code and its own comments differ, the model follows the code:

- `sortKeys` assigns `out[k]`, so a key named `__proto__` never becomes a member of the copy, and keys that look like array
  indices come first in numeric order. The comment promises key-order independence only; `PreimageCanonical` states
  exactly which proposals share a pre-image.
- A `done` that finds an empty code, or whose read or materialize fails, leaves the old preview `ready`; the coordinator's
  comment promises no stale bytes without that exception. Both are shown on concrete runs, and `RestartEndsFreshIff` says
  exactly when a restart ends fresh.
- Section 4.2.1 of RFC 5321 lets a server end a reply with the bare code; the socket, like its comment, waits for a code and
  a space, so such a reply is never framed. Any line without that form counts as a continuation.
- A read that follows the close of the SMTP connection and finds no complete reply buffered is never settled: the close
  records no error to reject it with.
- A session whose replay buffer was evicted and that emits again starts an empty buffer: it is retained, but without the
  events from before the eviction, so a replay can be dropped although fewer than `cap` events followed the cursor.
- A superseded launch is said never to touch shared state; in the eviction loop it may stop another preview.

The digest functions are arbitrary functions; where a result needs a collision-free hash it says so. The seed conversation of
a session has at most 200 turns, as its only caller guarantees (`backend/src/api/sessions.routes.ts:205`).

## Model

| member | source | states |
|---|---|---|
| JsonReader.StringReadsBack | backend/src/gates/externalWriteGate.ts:57 | a printed string is read back, whatever follows it: escapes, surrogate pairs and lone surrogates included |
| JsonReader.RoundTrip | backend/src/gates/externalWriteGate.ts:57 | a reader written from RFC 8259 reads back the printed value, member order included |
| JsonReader.PrintInjective | backend/src/gates/externalWriteGate.ts:57 | two well-formed values print to the same text only if they are the same value, member order included |
| CanonicalJson.LexSortProperties | backend/src/gates/externalWriteGate.ts:70 | sorting members by key gives sorted keys and loses and invents nothing |
| CanonicalJson.SortKeysCanonical | backend/src/gates/externalWriteGate.ts:61-74 | two values have the same canonical copy if and only if, `__proto__` members aside, they are equal up to key order at every depth, array order kept |
| CanonicalJson.Canonicalize | backend/src/gates/externalWriteGate.ts:65-74 | the recursion that fills a fresh object key by key computes the canonical copy |
| CanonicalJson.CanonicalizeArray | backend/src/gates/externalWriteGate.ts:66 | arrays are canonicalized element by element, order kept |
| CanonicalJson.CanonicalizeObject | backend/src/gates/externalWriteGate.ts:67-71 | sorting the keys first and canonicalizing values while filling gives the canonical object |
| CanonicalJson.PreimageCanonical | backend/src/gates/externalWriteGate.ts:54-59 | two proposals have the same digest pre-image if and only if provider and action agree and target and payload are equal up to key order, `__proto__` members aside |
| CanonicalJson.PreimageCanonicalWithoutProto | backend/src/gates/externalWriteGate.ts:54-59 | without `__proto__` keys the pre-image is canonical for the values themselves |
| CanonicalJson.ProtoMemberIsNotDigested | backend/src/gates/externalWriteGate.ts:69-70 | two payloads that differ only in a `__proto__` member have the same pre-image |
| CanonicalJson.PreimageReads | backend/src/gates/externalWriteGate.ts:57 | parsed again, the pre-image is an object of exactly provider, action, canonical target and canonical payload |
| ExternalWriteGate.MintedMayExecute | backend/src/gates/externalWriteGate.ts:219-256 | a token is minted exactly for an allow-listed action, disjoint keys and the confirmed digest, and then passes the checks repeated before the call |
| ExternalWriteGate.ArgumentsAreDisjointUnion | backend/src/gates/externalWriteGate.ts:105-110 | without colliding keys the call's arguments are the disjoint union of target and payload |
| ExternalWriteGate.ConfirmedContentIsRecordedContent | backend/src/gates/externalWriteGate.ts:214-229 | with a collision-free hash, a digest shown for one proposal can only approve a record with the same content |
| ExternalWriteLedger.RefusedOnlyWhenAllInFlight | backend/src/gates/appendExternalWrite.ts:66-76 | an append is refused exactly when the ledger is full of writes in flight |
| ExternalWriteLedger.MakeRoomKeeps | backend/src/gates/appendExternalWrite.ts:69-77 | making room drops at most the oldest terminal record, only from a full ledger, and keeps the order of the rest |
| ExternalWriteLedger.AppendExternalWrite | backend/src/gates/appendExternalWrite.ts:49-92 | under any interference: reuse of a duplicate, refusal or an append on top of the last row read; a conflict needs six disturbed attempts |
| ExternalWriteLedger.PatchExternalWrite | backend/src/api/sessions.routes.ts:425-443 | it reports true exactly when the record was still at the expected status in the row it wrote to, and replaces only that record |
| ExternalWriteProtocol.AtMostOnceAndAsConfirmed | backend/src/api/sessions.routes.ts:430-498 | over every interleaving of proposals, confirms, foreign commits and crashes, the tool runs at most once per write id, with the issued record's own allow-listed action and disjoint arguments, whose digest was confirmed |
| ExternalWriteProtocol.CallGoesOut | backend/src/gates/externalWriteGate.ts:239-258 | at the moment of the call the record is claimed by this confirm alone and has never been called before |
| ExternalWriteProtocol.LedgerStaysInOrder | backend/src/gates/appendExternalWrite.ts:58-80 | over every run the ledger holds at most 50 records, in the order they were made, contents untouched, and open GitHub proposals have distinct digests |
| ExternalWriteProtocol.NoInFlightWriteIsLost | backend/src/gates/appendExternalWrite.ts:66-76 | no step of any run removes a `proposed` or `executing` record |
| ExternalWriteOutcome.LedgerTellsTheTruth | backend/src/api/sessions.routes.ts:482-493 | over every run a record marked executed has a call that answered well with that result, one marked failed has none, and if it was called its result is the error, and an open one was never called |
| ExternalWriteOutcome.UndisturbedProposal | backend/src/gates/appendExternalWrite.ts:49-92 | a proposal nobody interferes with is appended exactly once unless an open GitHub record repeats it or the ledger is full of writes in flight; a full ledger loses its oldest terminal record |
| ExternalWriteOutcome.UndisturbedConfirm | backend/src/api/sessions.routes.ts:447-498 | a confirm nobody interferes with: refused without effect, marked failed without a call, or one call with the record's arguments whose answer decides between executed and failed |
| ExternalWriteOutcome.StaleWritesRetry | backend/src/api/sessions.routes.ts:425-443 | a stale append or patch is tried again, six times in all |
| Session.LastNAppend | backend/src/api/server.ts:627 | cutting the chat to the last n after every append equals cutting it once |
| OptimisticWrite.SessionStore.Update | backend/src/store/MockSessionStore.ts:18-38 | a write commits exactly at the expected version and then bumps it; a conflict writes nothing |
| OptimisticWrite.ReadModifyWrite | backend/src/orchestrator/Orchestrator.ts:444-459 | the retry loop: the first undisturbed attempt decides on the row as it then is, and a conflict means every attempt met a foreign commit |
| OptimisticWrite.UpdateResilient | backend/src/orchestrator/Orchestrator.ts:440-460 | six attempts at most; a success is the patch on top of all foreign commits; a cancelled row is left alone; a conflict needs a commit in each of six windows |
| OptimisticWrite.RecordToken | backend/src/orchestrator/Orchestrator.ts:622-632 | the minted token lands on top of all foreign commits, never on a cancelled row |
| OptimisticWrite.ChatAppend | backend/src/api/server.ts:622-634 | the turns land after all turns committed before, or are dropped after two disturbed attempts and nothing else changes |
| MergeFiles.MergeFiles | backend/src/orchestrator/mergeFiles.ts:20-27 | the map-and-push method computes the merge |
| MergeFiles.MergeIsOverride | backend/src/orchestrator/mergeFiles.ts:20-27 | under last-wins lookup the merge is map override, for all inputs, duplicates included |
| MergeFiles.MergeAssociative | backend/src/orchestrator/mergeFiles.ts:20-27 | merging is associative under lookup |
| MergeFiles.MergeIdempotent | backend/src/orchestrator/mergeFiles.ts:20-27 | merging the same emission again changes no lookup |
| MergeFiles.MergeKeepsOrder | backend/src/orchestrator/mergeFiles.ts:23 | base paths keep their positions, and a base file that was not emitted is unchanged there |
| MergeFiles.MergeAppendsNewFiles | backend/src/orchestrator/mergeFiles.ts:24-27 | behind the base come exactly the emitted files with new paths, in emitted order |
| MergeFiles.EditedBase | backend/src/orchestrator/Orchestrator.ts:482-568 | after any number of edit rounds each path has its latest emission, else its base content, and no base path is gone |
| MergeFiles.ProduceLoop | backend/src/orchestrator/Orchestrator.ts:482-568 | Proto is called at most budget + 1 times, the loop stops exactly at approval, a critical finding, required resolution or an exhausted budget, and returns the accumulated application |
| MergeFiles.ReadmeMerge | backend/src/orchestrator/Orchestrator.ts:591-600 | the README overrides at most its own path |
| PipelineSafety.PushedWasVerifiedAfterApproval | backend/src/orchestrator/Orchestrator.ts:585-632 | every file set pushed has the digest of a token recorded earlier, minted by a test run on files with that digest, after an approval; every approval is bound to the session's spec |
| PipelineSafety.PushedIsATestedFileSet | backend/src/gates/pushGate.ts:38-53 | if equal digests mean equal files, what is pushed is a file set that passed at least one test |
| PipelineSafety.CancelIsFinal | backend/src/orchestrator/Orchestrator.ts:361-373 | once cancelled, status, spec, approval, code, token, evidence, passport and delivery never change again, whatever was in flight |
| PipelineSafety.CancelSparesImmune | shared/src/session.ts:28-34 | no step of any run writes `cancelled` over `done`, `failed`, `push_failed` or `verify_failed` |
| PipelineSafety.NoChatTurnIsLost | backend/src/api/server.ts:622-634 | the stored chat is always the last 200 turns of the seed and all committed appends |
| PipelineSafety.ResilientWritesGiveUpLate | backend/src/orchestrator/Orchestrator.ts:440-460 | a conflict surfaces only after at least six foreign commits, and no write makes a seventh attempt |
| PipelineVerified.GateHoldsVerifiedCode | backend/src/orchestrator/Orchestrator.ts:585-656 | when recoveries do not overlap, a row that waits for confirmation, failed to push or is done has a token for exactly the stored code |
| PipelineVerified.ConfirmIsNeverRefused | backend/src/orchestrator/Orchestrator.ts:764-772 | under the same condition a confirm never fails with NotVerified or CodeMismatch |
| PipelineVerified.DriversExclude | backend/src/orchestrator/Orchestrator.ts:462-469 | on a live row two drivers at once can only be two confirms |
| PipelineVerified.OverlappingRetriesBreakTheGate | backend/src/orchestrator/Orchestrator.ts:715-725 | two overlapping retries reach a row that waits for confirmation and refuses it with CodeMismatch |
| PipelineEdits.EditsKeepTheBase | backend/src/orchestrator/Orchestrator.ts:482-600 | in every interleaving the stored code and every pushed file set keep each base path, and a base file whose path nobody emits keeps its content |
| PipelineCode.StoredCodeIsAsEmitted | backend/src/orchestrator/Orchestrator.ts:482-600 | in every interleaving, whatever changes the stored code holds for each path the saving operation's README, else the latest emission of its own rounds, else the base content; without a base the last round alone; a recovery starts from the code it found |
| PipelineCode.TestedFilesAreAsEmitted | backend/src/orchestrator/Orchestrator.ts:585-605 | the files Trace tests are that very set, README included |
| PipelineCode.RoundsDecide | backend/src/orchestrator/Orchestrator.ts:545-568 | Proto is called again only after rejected rounds within the budget, a session is parked exactly on a round that is not approved and critical, tightened or last, and README and Trace come only after an approved round |
| PipelineCalls.UndisturbedRounds | backend/src/orchestrator/Orchestrator.ts:482-568 | a build nobody interferes with stores exactly what its rounds built, or parks it |
| PipelineCalls.UndisturbedReadme | backend/src/orchestrator/Orchestrator.ts:591-600 | the README joins the stored code and the files that go to Trace |
| PipelineCalls.UndisturbedPass | backend/src/orchestrator/Orchestrator.ts:604-656 | a pass of at least one test records a token for exactly these files and opens the push gate with evidence, passport and destination |
| PipelineCalls.UndisturbedFail | backend/src/orchestrator/Orchestrator.ts:656-670 | without a pass there is no token and the session can be retried with the evidence |
| PipelineCalls.UndisturbedConfirm | backend/src/orchestrator/Orchestrator.ts:764-888 | a confirm of a verified row pushes exactly the stored code and finishes, or parks the failure, with the destination pinned |
| PipelineCalls.UndisturbedConfirmRefusals | backend/src/orchestrator/Orchestrator.ts:764-772 | which error each row that may not be pushed gets |
| PipelineCalls.UndisturbedCancel | backend/src/orchestrator/Orchestrator.ts:361-373 | a cancel ends a row that is not immune as cancelled and refuses any other |
| PipelineCalls.UndisturbedApprove | backend/src/orchestrator/Orchestrator.ts:375-406 | an approval is bound to the row's spec and opens the build |
| PipelineCalls.UndisturbedSeededStart | backend/src/orchestrator/Orchestrator.ts:249-305 | a start with a spec approved in chat records it, approves it and kicks the run |
| PipelineVerified.RunnerIsInFlight | backend/src/orchestrator/Orchestrator.ts:462-469 | over every run a session counts as running exactly while the run that claimed it is in flight, and no other run is |
| PipelineCalls.StalePins | backend/src/api/server.ts:622-634 | a write locked on an old row fails, a chat append is tried once more |
| EventBus.BuffersAreExact | backend/src/events/bus.ts:78-93 | over any history of emits a buffer holds exactly the last `cap` events its session emitted since it was last out of the most recent emitters |
| EventBus.HoldsTheLastIff | backend/src/events/bus.ts:78-93 | a buffer holds the last `cap` events of its session if and only if the session was never evicted since its first event or `cap` events came since |
| EventBus.ReturningSessionStartsAfresh | backend/src/events/bus.ts:88-93 | an evicted session that emits again is retained with what it emitted since only |
| EventBus.BuffersAreContiguous | backend/src/events/bus.ts:78-93 | every buffer is a contiguous block of the session's history that ends at the head, within the cap |
| EventBus.ReplayIsExact | backend/src/events/bus.ts:126-141 | for every cursor, the events are the buffered ones after it, and `dropped` says exactly that one after it is gone |
| EventBus.ReplayIsHonest | backend/src/events/bus.ts:126-141 | for a cursor up to the head, `dropped` is false exactly when the events are the whole history after the cursor |
| EventBus.RetainedAreMostRecent | backend/src/events/bus.ts:84-93 | the sessions with a buffer are exactly the `maxSessions` most recent emitters |
| EventBus.HydrateSnapshot | backend/src/events/bus.ts:46-63 | hydrating a bus's own snapshot gives the same bus |
| EventBus.FilterIsExact | backend/src/events/bus.ts:61 | the event filter keeps every well-formed value, at increasing positions, and nothing else |
| EventBus.HydratedRestores | backend/src/events/bus.ts:54-63 | for every snapshot, what is restored are exactly the well-formed heads and the last well-formed events of the well-formed buffers, within the cap |
| EventBus.EventBus.PushAndTouch | backend/src/events/bus.ts:79-88 | push, splice and re-insert compute the buffered state |
| EventBus.EventBus.Evict | backend/src/events/bus.ts:89-93 | the loop keeps exactly the most recent buffers |
| EventBus.EventBus.Emit | backend/src/events/bus.ts:78-93 | an emit extends the history, numbers the event one past its session's history, keeps it as the newest buffered one, and leaves every buffer with exactly the events that are not gone |
| EventBus.EventBus.Replay | backend/src/events/bus.ts:126-141 | the resume query on the object, exact for every cursor |
| EventBus.EventBus.Hydrate | backend/src/events/bus.ts:54-63 | the filter and slice loops keep exactly the well-formed heads and, of each well-formed buffer, the last `cap` of exactly its well-formed events in order; from the snapshot of a bus that saw a history they give a valid bus with that history |
| SseStream.WriteTail | backend/src/api/sessions.routes.ts:706-710 | writing the history from anywhere up to what was already sent brings an open connection to the head without repeating a frame |
| SseStream.ReplayReachesHead | backend/src/api/sessions.routes.ts:717-732 | after the replay an open connection stands at the head, by the events themselves or by a reset |
| SseStream.ReplaySendsTheEvents | backend/src/api/sessions.routes.ts:717-732 | in any run, the replay of an open connection sends the events after the cursor themselves, up to the first failing write, and one reset exactly when one of them is gone |
| SseStream.WriteAllUpToFailure | backend/src/api/sessions.routes.ts:697-710 | which frames get onto the wire for every sequence of write outcomes |
| SseStream.EveryEventAccountedOnce | backend/src/api/sessions.routes.ts:718-732 | in a faithful log every event number is carried by exactly one frame: its own or one reset |
| SseStream.ClientMissesNothingSilently | backend/src/api/sessions.routes.ts:674-734 | over any run of emits, connects, drops and reconnects, each event after the first cursor reaches the client exactly once, in order and unchanged, or lies under exactly one reset |
| SseStream.WithoutResetLogIsHistory | backend/src/api/sessions.routes.ts:674-734 | a log without resets is exactly the history after the first cursor |
| SseStream.LiveConnectionIsAtHead | backend/src/api/sessions.routes.ts:706-715 | a live open connection has `maxSent` equal to the bus head |
| SseStream.NextLiveFrameIffCursorUpToHead | backend/src/api/sessions.routes.ts:706-710 | after a connect the next live event is sent if and only if the cursor was at most the head |
| SseStream.SseConnection.Put | backend/src/api/sessions.routes.ts:697-703 | a write is a no-op when closed; overflow and exceptions close the connection |
| SseStream.SseConnection.Write | backend/src/api/sessions.routes.ts:706-710 | only newer events go out, and `maxSent` moves only while the connection stays open |
| SseStream.SseConnection.Receive | backend/src/api/sessions.routes.ts:711-715 | live events are queued during the replay and written afterwards |
| SseStream.SseConnection.WriteEach | backend/src/api/sessions.routes.ts:731-734 | the write loop folds the single write |
| SseStream.SseConnection.ReplayAndGoLive | backend/src/api/sessions.routes.ts:717-734 | reset or replay, then the flush of the queue |
| PreviewCap.CapNeverExceeded | backend/src/preview/PreviewRegistry.ts:189-265 | in every interleaving, overlapping starts of one session included, at most `maxConcurrent` heavy previews are live |
| PreviewCap.SupersededWritesNothing | backend/src/preview/PreviewRegistry.ts:209-214 | a step of a superseded launch changes the shared maps exactly when it is in the eviction loop at capacity |
| PreviewCap.SupersededForGood | backend/src/preview/PreviewRegistry.ts:209-221 | a launch that lost its session never owns it again, whatever runs next |
| PreviewPolicy.OthersAreSpared | backend/src/preview/PreviewRegistry.ts:216-371 | in any run a start, stop, exit or launch step outside the eviction loop leaves every other session's entry, process and token alone |
| PreviewPolicy.BackgroundStartSparesOthers | backend/src/preview/PreviewRegistry.ts:241-249 | no step of a background launch ever touches another session |
| PreviewLaunch.BackgroundStartDeclines | backend/src/preview/PreviewRegistry.ts:241-249 | a background start at capacity ends `stopped` if it still owns its session, whatever ran meanwhile |
| PreviewLaunch.ExplicitStartEvictsTheOldest | backend/src/preview/PreviewRegistry.ts:250-262 | an explicit start nobody interferes with stops exactly the first surplus heavy previews in insertion order, no other entry, and writes `starting` |
| PreviewLaunch.RunOrdered | backend/src/preview/PreviewRegistry.ts:203 | in every run the registry lists every key once |
| PreviewLaunch.OrderGrows | backend/src/preview/PreviewRegistry.ts:203 | entries are never reordered or dropped; a new key goes to the end |
| PreviewCap.StopEffect | backend/src/preview/PreviewRegistry.ts:362-371 | a stop supersedes the session's launches, kills and untracks its process, releases the entry's port and marks it stopped, nothing else |
| PreviewBoot.ClaimsBelowTheCap | backend/src/preview/PreviewRegistry.ts:233-261 | a verify boot, or any start below the cap, claims its session and stops nobody |
| PreviewBoot.BootSucceeds | backend/src/preview/PreviewRegistry.ts:262-347 | when every call succeeds the entry is `ready` on the port with the digest, and the running process is tracked |
| PreviewBoot.ServedTakesASlot | backend/src/preview/PreviewRegistry.ts:189-195 | a served preview counts toward the cap unless it is a verify boot, a failed one does not |
| PreviewBoot.StaticIsReadyAtOnce | backend/src/preview/PreviewRegistry.ts:223-227 | a static app is ready at once, without a process and without a slot under the cap |
| PreviewBoot.UnsupportedIsReported | backend/src/preview/PreviewRegistry.ts:228-233 | an app without a start command is reported as unsupported |
| PreviewBoot.UnansweredProbeIsInvisible | backend/src/preview/PreviewRegistry.ts:317-351 | an unanswered probe and its sleep change nothing |
| PreviewBoot.FailsBeforeLaunch | backend/src/preview/PreviewRegistry.ts:263-276 | a failed preflight or install ends `failed` with nothing held |
| PreviewBoot.ProbeTimesOut | backend/src/preview/PreviewRegistry.ts:351-358 | out of time: killed, released, untracked, `failed` |
| PreviewBoot.EarlyExitFails | backend/src/preview/PreviewRegistry.ts:307-316 | a process that dies early: released, untracked, `failed` |
| PreviewBoot.CrashAfterReadyFails | backend/src/preview/PreviewRegistry.ts:335-345 | a crash after ready: released, untracked, `failed` |
| PreviewLeak.NothingLeaks | backend/src/preview/PreviewRegistry.ts:216-371 | with serialized starts and stops, evictions and exits anywhere, an idle session holds at most the process and port of its tracked, `ready` launch |
| PreviewLeak.RunningWithinCap | backend/src/preview/PreviewRegistry.ts:189-201 | in every state with the invariants that serialized starts keep, at most `maxConcurrent` processes of non-verify sessions run |
| PreviewLeak.OverlappingStartsLeak | backend/src/preview/PreviewRegistry.ts:216-221 | two overlapping starts reach an idle state with an untracked running process and an unreleased port |
| PreviewLeak.SupersededLaunchStopsItsSuccessor | backend/src/preview/PreviewRegistry.ts:251-255 | a reachable run where a superseded launch, resuming its eviction loop, stops the launch that superseded it |
| PreviewRegistry.Registry.CheckCapacity | backend/src/preview/PreviewRegistry.ts:189-201 | counting over the entries decides capacity |
| PreviewRegistry.Registry.FindOldest | backend/src/preview/PreviewRegistry.ts:252 | the first heavy entry in insertion order |
| PreviewRegistry.Registry.StopSession | backend/src/preview/PreviewRegistry.ts:362-371 | stop bumps the token, kills and untracks, releases the entry's port and marks it stopped |
| PreviewRegistry.Registry.StartCall | backend/src/preview/PreviewRegistry.ts:216-217 | a start begins with a stop |
| PreviewRegistry.Registry.ClaimSession | backend/src/preview/PreviewRegistry.ts:258-261 | the owner writes `starting`, a superseded launch stands down |
| PreviewRegistry.Registry.EvictOrClaim | backend/src/preview/PreviewRegistry.ts:251-262 | one turn of the eviction loop |
| PreviewRegistry.Registry.AfterOwnStop | backend/src/preview/PreviewRegistry.ts:218-261 | minting, the static and unsupported branches, and the capacity policy |
| PreviewRegistry.Registry.GiveUp | backend/src/preview/PreviewRegistry.ts:304-306 | a launch gives back its own process and port only |
| PreviewRegistry.Registry.ProbeLoopTop | backend/src/preview/PreviewRegistry.ts:299-317 | superseded, dead or next probe |
| PreviewRegistry.Registry.PortAllocated | backend/src/preview/PreviewRegistry.ts:278-289 | the owner launches and tracks its process, a superseded launch releases the port |
| PreviewRegistry.Registry.ProbeReturned | backend/src/preview/PreviewRegistry.ts:318-347 | ready with a crash watch, stand down, time out or sleep |
| PreviewRegistry.Registry.UntrackAndFail | backend/src/preview/PreviewRegistry.ts:309-352 | only the owner untracks and writes `failed` |
| PreviewRegistry.Registry.ProcessExited | backend/src/preview/PreviewRegistry.ts:287-339 | the early-death flag and the guarded crash watch |
| PreviewCoordinator.OneStartPerSession | backend/src/api/preview.routes.ts:161-172 | at most one launch per session is in flight, and pending dones belong to sessions with a job |
| PreviewCoordinator.IdleSessionLeaksNothing | backend/src/api/preview.routes.ts:161-172 | the coordinator serializes starts, so an idle session leaks no process and no port in any run of the whole system |
| PreviewCoordinator.SystemStaysWithinCap | backend/src/api/preview.routes.ts:118-132 | with background prewarms and restarts too, neither the live heavy entries nor the running processes behind heavy previews exceed the cap |
| PreviewCoordinator.Coordinator.StartPreview | backend/src/api/preview.routes.ts:112-114 | an explicit start joins the job in flight or becomes it |
| PreviewCoordinator.Coordinator.RestartPreview | backend/src/api/preview.routes.ts:144-156 | liveness is re-checked and the recorded digest decides what is read |
| PreviewCoordinator.Coordinator.TapDone | backend/src/api/preview.routes.ts:118-132 | a done is noted, dropped, or starts a restart or prewarm |
| PreviewCoordinator.Coordinator.Drain | backend/src/api/preview.routes.ts:164-168 | the settled job leaves the map and drains one pending done |
| PreviewFresh.ReadyEntryServesItsDigest | backend/src/api/preview.routes.ts:144-156 | in every run, the files behind a `ready` entry have the digest it records |
| PreviewFresh.IdleReadyPreviewIsFresh | backend/src/api/preview.routes.ts:118-171 | in every interleaving in which the session's calls succeed and its stored code is never empty, an idle session with a `ready` preview serves files with the digest of a store version current at or after the last done |
| PreviewRestart.PendingIffDone | backend/src/api/preview.routes.ts:118-124 | while a job is in flight, whatever else runs, the session owes a restart exactly if it did before or a done of it landed |
| PreviewRestart.DonesCoalesce | backend/src/api/preview.routes.ts:118-168 | over any stretch of a run with one job in flight, settling that job starts exactly one restart if at least one done landed, none otherwise, and leaves nothing owed |
| PreviewRestart.DoneBeginsRestart | backend/src/api/preview.routes.ts:144-168 | a done for a `ready` session, at once or when the job in flight settles, begins the comparison with the live entry's digest and owes nothing |
| PreviewRestart.RestartEndsFreshIff | backend/src/api/preview.routes.ts:144-156 | such a restart, whatever runs beside it and with no further done, ends fresh if and only if all its reads and materializations succeed with code to serve or a store version since the last done has the old digest |
| PreviewRestart.FailedReadLeavesStalePreview | backend/src/api/preview.routes.ts:144-156 | a run from the empty system ends idle and `ready` with an entry whose digest no version since the done has, after one failed read |
| PreviewRestart.RestartWithoutCodeKeepsStaleEntry | backend/src/api/preview.routes.ts:144-156 | so does a run in which nothing fails but the new code is empty |
| PreviewServe.DonesNeverDisturbOthers | backend/src/api/preview.routes.ts:118-156 | in any run of the whole system, a session that only dones started never touches another session's preview |
| PreviewServe.UnchangedCodeIsLeftRunning | backend/src/api/preview.routes.ts:148-152 | a done for code with the digest being served stops and starts nothing |
| PreviewServe.DoneIsDropped | backend/src/api/preview.routes.ts:123-128 | a done is dropped during an untracked boot and, without a live preview, at capacity |
| PreviewServe.UndisturbedStartServes | backend/src/api/preview.routes.ts:112-114 | a user's start nobody interferes with serves the current code |
| PreviewServe.UndisturbedDoneServes | backend/src/api/preview.routes.ts:118-132 | so does a done without a live preview |
| PreviewServe.UndisturbedRestartServes | backend/src/api/preview.routes.ts:144-156 | and a done with new code for a live preview, even at capacity, in the session's own slot |
| PreviewServe.UserStartMayEvict | backend/src/api/preview.routes.ts:112-114 | a user's start leads to an explicit launch |
| DeepFreeze.Visit | backend/src/context/assemble.ts:24-32 | the walk terminates on cycles and sharing, marks only what it reaches, closes under references and freezes exactly what it newly marked |
| DeepFreeze.DeepFreeze | backend/src/context/assemble.ts:24-32 | on every finite graph, exactly the objects reachable from the root become frozen |
| SmtpReplies.ResolvedAreTheFirstReplies | backend/src/mail/SmtpSocket.ts:47-68 | whatever the chunks, reads, errors and closes, the i-th resolved reply is the i-th reply of the stream, and delivered text and buffer are what was received |
| SmtpReplies.EachReadGetsItsReply | backend/src/mail/SmtpSocket.ts:81-87 | while nothing fails the i-th read gets the i-th reply, and as many are answered as there are both |
| SmtpReplies.ChunkingDoesNotMatter | backend/src/mail/SmtpSocket.ts:41-55 | two conversations with the same stream and number of reads end the same |
| SmtpGrammar.FramingIsTheGrammar | backend/src/mail/SmtpSocket.ts:58-68 | the loop frames exactly the texts of the form: lines that are no last line, then one line of three digits and a space |
| SmtpGrammar.EachReadGetsTheServersReply | backend/src/mail/SmtpSocket.ts:81-87 | when the server sends multi-line replies of the standard's form and perhaps part of one more, in any chunks, the i-th read gets the text of the i-th reply |
| SmtpGrammar.BareCodeIsNotFramed | backend/src/mail/SmtpSocket.ts:58-68 | a reply that is the code alone is never framed |
| SmtpReaders.EveryReadIsAccountedFor | backend/src/mail/SmtpSocket.ts:47-87 | over any run each read is resolved, rejected or waiting, exactly one of them, and resolved at most once |
| SmtpReaders.NobodyWaitsAfterAnError | backend/src/mail/SmtpSocket.ts:42-82 | once the socket failed nobody waits |
| SmtpReaders.OnlyLaterReadsWaitAfterAClose | backend/src/mail/SmtpSocket.ts:43-74 | a close settles every read asked before it |
| SmtpReaders.ReadAfterCloseWaits | backend/src/mail/SmtpSocket.ts:81-87 | a read after a close waits |
| SmtpReplies.RealSmtpSocket.CompleteReplyEnd | backend/src/mail/SmtpSocket.ts:58-68 | the offset loop finds the end of the first complete reply |
| SmtpReplies.RealSmtpSocket.DrainWaiters | backend/src/mail/SmtpSocket.ts:47-55 | the loop hands complete replies to waiters in order |
| SmtpReplies.RealSmtpSocket.OnData | backend/src/mail/SmtpSocket.ts:41 | data is buffered and drained |
| SmtpReplies.RealSmtpSocket.ReadReply | backend/src/mail/SmtpSocket.ts:81-87 | a read waits and drains, or is rejected after an error |
| SmtpReplies.RealSmtpSocket.RejectWaiters | backend/src/mail/SmtpSocket.ts:70-74 | all waiters are rejected and none is left |
| SmtpReplies.RealSmtpSocket.OnError | backend/src/mail/SmtpSocket.ts:42 | an error is kept and fails the waiters |
| SmtpReplies.RealSmtpSocket.OnClose | backend/src/mail/SmtpSocket.ts:43 | a close fails the waiters |
| SmtpMessage.RoundTripIffPlain | backend/src/mail/SmtpMailer.ts:56-62 | the receiver gets back exactly the lines meant, and the lone dot is the very end, if and only if no line contains CRLF |
| SmtpMessage.ResetMailArrives | backend/src/mail/SmtpMailer.ts:83-100 | the reset mail arrives line for line exactly when neither address nor link contains CRLF |
| SmtpMessage.ResetMailReads | backend/src/mail/SmtpMailer.ts:83-100 | the receiver reads the sender in From, the user in To, and the link at the end of a line of the text |
| RateLimiter.ForgettingIsInvisible | backend/src/auth/rateLimit.ts:20-37 | sweep and pruning never change an answer compared with a limiter that keeps every accepted hit |
| RateLimiter.NoWindowExceedsMax | backend/src/auth/rateLimit.ts:28-34 | no window of length `windowMs` holds more than `max` accepted hits of a key |
| RateLimiter.FullUntilOldestLeaves | backend/src/auth/rateLimit.ts:28-31 | at a full window the next hit gets in exactly when the oldest live hit has left it |
| RateLimiter.WaitingRetryAfterGetsIn | backend/src/auth/rateLimit.ts:30-32 | a key that waits the returned seconds is accepted next |
| RateLimiter.RetryAfterIsLeast | backend/src/auth/rateLimit.ts:30-32 | and no shorter wait does: the returned seconds are the least positive number that works |
| RateLimiter.AcceptedIffRoom | backend/src/auth/rateLimit.ts:28-35 | a hit gets in exactly when fewer than `max` were accepted in the window that ends with it |
| RateLimiter.OnlyRecentKeysAreHeld | backend/src/auth/rateLimit.ts:20-26 | only keys hit within the last two windows are held in memory |
| RateLimiter.RateLimiter.HitNow | backend/src/auth/rateLimit.ts:21-36 | the sweep loop and the pruning compute one step of the limiter |

## Left out

- HTTP routing, authentication, sockets, child processes, workspaces on disk and the SQL and file stores: they are the choices and answers of the machines. Workspace directories and their teardown are not resources of the model.
- Cryptography, agents, critic scores, validators, test runners, GitHub and MCP transports: arbitrary answers of the world.
- Narration, advisory agents, passport signatures and grounding ingestion: off the gate path.
- Liveness and real time: nothing says that a suspended operation ever runs again.
- PipelineVerified.GateHoldsVerifiedCode: one `runner` per session stands for one orchestrator's set of runs in flight; the server can build one per workflow (`backend/src/api/server.ts:376`), and runs of one session through two of them are not modelled.
- The in-process `confirmingWrites` guard: at-most-once is proved without it.
- Numbers in the JSON printer are the text JavaScript prints; numeric conversion itself, `-0` included, is not modelled.
- `projectPreviewLiveness`, which may rewrite the content of one replayed frame and never its number: replayed frames carry their recorded content.
- Listener isolation and re-entrant emits in the bus.
- EventBus.HydrateSnapshot: session ids are taken not to be array indices, which an object snapshot would reorder; both maps are taken to be present.
- PreviewFresh.IdleReadyPreviewIsFresh: freshness is stated for digests; the digest does not depend on the order of the files.
- PreviewLeak.NothingLeaks: `launch` is taken to return a process and the probe to answer; rejections of the preflight, the install and the port allocation are modelled.
- The reserved-port set of `allocatePort`: a port counts as released once `releasePort` was called on it, and two launches may be given the same port.
- The teardown of the SMTP conversation, AUTH and status checks: only reply framing and the mail data are modelled.
- DeepFreeze.DeepFreeze: getters, proxies and exceptions of `Object.freeze` are not modelled.
- HttpMetrics, pricing, cookies, environment flags, lexical heuristics and the frontend: no invariant across operations.
