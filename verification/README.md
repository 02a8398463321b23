# nbreq, modelled and proved in Dafny

nbreq is a bounded, non-blocking request engine; its `smtp` crate submits mail over the engine's TCP
and TLS connections. This project models four connected parts of the two crates and proves what they
promise over every run, in Dafny 4.11. `dafny verify dfyconfig.toml` checks everything.

**The SMTP submission engine.** `Bytes`, `DotStuffing`, `DataEncoder`, `Request` and `Reply` hold the
encodings and validators. `Client` is the polled protocol machine as a function of its state and of a
`World` that answers for transport, server and clock; the octets that cross each transport are logged
beside it. `Wire` defines the one transcript a submission may send and the invariant of every state,
`ClientProof` proves that every step keeps it, and `ClientRuns`, `Ruling`, `Endings`, `Causes`, `Session`,
`ClientWork`, `Throughput`, `ClientProgress` and `Acceptance` state the theorems about whole runs. `Session` reads the log
through an RFC 5321 server; `Ruling` says what replies decide, `Endings` and `Causes` what everything else
does; `Acceptance` plays a server whose replies are fixed beforehand. `SendOperation` is the object of the
source, each method proved equal to its engine function.

**The lifecycle kernel.** `Lifecycle` interleaves the critical sections of admission, completion,
cancellation and shutdown; a state object is its index, which is what an `Arc` identity check compares,
and what a thread still owes after leaving a lock is a task. `LifecycleProof` and `LifecycleRuns` prove
arbitration, delivery and shutdown, `Decisions`, `Leaks` and `Sweeps` who decides an operation, that none is left
behind and what a sweep reaches, `Progress` what a run can always get done. `StateObjects` are the per-operation objects. `Budgets`,
`BudgetsProof`, `BudgetsRuns` and `Admissions` are every shared counter at the level of single atomic operations.
`LifecycleFrames` and `Transports` say which sections touch a transport, and `Accounts` runs registry and
budgets as one machine, in which permits belong to operations and connections. `Dispatch`,
`DispatchProof`, `DispatchProgress` and `CallbackDomain` are the callback domain with its threads, and `Callbacks` runs it
together with the registry. `CommandQueue` is the owner's wake-up.

**The streaming channels.** `Upload` and `Response` are the two bounded channels as objects with ghost
histories. What the other side does between two holds of the lock is an argument (`turns`), so each
contract speaks about every interleaving; `Transfer` and `Exchange` run any calls in any order and
state the end-to-end property on what the callers see.

**The body ledger.** `Ledger` runs any number of buffers against one compare-exchange budget, one
atomic operation at a time; `BodyBuffer` holds the budget and buffer objects, with what other buffers do
to the budget between two atomic operations as an argument (`others`). `Returns` winds a ledger up.

Where code and documentation differ the model follows the code. Three results are worth knowing:

- Dot-stuffing treats a bare LF as a line start, a receiver does not. So recovery holds exactly when
  no dot follows a bare LF (`RecoveryExactlyWithoutBareDots`, with a counterexample beside it); a message
  that `validate_message` accepts has no bare LF, and for those recovery is unconditional.
- The defensive overflow branch of `enqueue_terminal` is unreachable for a job that owns a callback
  permit (`PermitGetsRoom`, and over runs of registry and domain together `EnqueueSucceeds`).
- A reader asks for cancellation exactly when it has not been told of the end, so it may do so although
  everything was delivered and the response is complete (`UnseenCompletion`). It does no harm: a recorded
  terminal stays as it is (`Leave`).

## Model

| member | source | states |
|---|---|---|
| `DotStuffing.RecoveryExactlyWithoutBareDots` | smtp/src/data.rs:10-43 | an RFC 5321 receiver always finds the end of the section, and recovers the message with its final CRLF if and only if no dot follows a bare LF |
| `DotStuffing.BareLfIsNotRecovered` | smtp/src/data.rs:31-40 | the concrete message LF dot CRLF comes back with two dots |
| `DotStuffing.NoEarlyTerminator` | smtp/src/data.rs:23-43 | no proper prefix of the section shows a receiver a whole mail, for any message |
| `DotStuffing.ReceiveStuffed` | smtp/src/data.rs:23-43 | what a receiver makes of stuffed text in every case, and that octets after the terminator stay outside |
| `DataEncoding.UnsentIsStuffed` | smtp/src/data.rs:23-43 | from a clean state the cursor automaton still owes exactly the one-shot stuffing of what it has not read |
| `DataEncoding.DataEncoder.constructor` | smtp/src/data.rs:10-17 | a new encoder owes the whole stuffed message |
| `DataEncoding.DataEncoder.Finished` | smtp/src/data.rs:19-21 | finished if and only if nothing is owed |
| `DataEncoding.DataEncoder.NextChunk` | smtp/src/data.rs:23-43 | chunk and remainder are exactly what was owed; the chunk is as long as the limit unless nothing is left; terminates on twice the unread octets less the pending dot |
| `DataEncoding.EncodeAll` | smtp/src/data.rs:10-43 | for any positive limits the chunks concatenate to a prefix of the one-shot stuffing, and to all of it exactly when finished |
| `SmtpRequest.ValidateMessage` | smtp/src/request.rs:263-319 | accepts if and only if the message is headers, a blank line and a body of legal lines within 8 MiB |
| `SmtpRequest.ValidateLine` | smtp/src/request.rs:321-354 | one line moves the header state exactly as the grammar says, or is refused |
| `SmtpRequest.ScanMeansHeaders` | smtp/src/request.rs:263-354 | the flag-driven scan accepts if and only if a header section with its blank line exists |
| `SmtpRequest.PreparedIsRecovered` | smtp/src/request.rs:263-354 | a message the validator accepts is recovered exactly by an RFC 5321 receiver |
| `SmtpRequest.ValidateMailbox` | smtp/src/request.rs:191-218 | accepts if and only if the address is a dot-atom, one at-sign and a domain, within the length limits |
| `SmtpRequest.MailboxStaysInLine` | smtp/src/request.rs:191-237 | no octet of an accepted mailbox can end its command line or leave its angle brackets |
| `SmtpRequest.EhloStaysInLine` | smtp/src/request.rs:239-261 | the same for an accepted EHLO name |
| `SmtpReply.ReplyParser.Push` | smtp/src/reply.rs:42-98 | the octet-at-a-time object equals the parser function |
| `SmtpReply.ParsePrinted` | smtp/src/reply.rs:42-98 | feeding the rendering of any list of replies within the limits yields exactly those replies and a parser in its initial state |
| `SmtpReply.ParsePrintedEarly` | smtp/src/reply.rs:42-98 | a reply is reported at its last octet and not before |
| `SmtpReply.ParsedIsPrinted` | smtp/src/reply.rs:42-98 | any octets that are not refused are printed replies within the limits, reported in order, and a bounded incomplete rest counted by `total` |
| `SmtpReply.AdvertisesMeans` | smtp/src/reply.rs:24-30 | an extension is advertised if and only if a line after the first opens with its keyword, blanks before it, in whatever case, and followed by a blank or the end of the line |
| `SmtpReply.SummaryTells` | smtp/src/reply.rs:17-22 | the summary of a reply within the limits has its code, its text cut at LF gives back every line, and it is at most 8192 octets long |
| `SmtpProof.ActiveIsReady` | smtp/src/client.rs:433-438 | in every reachable unfinished state no index, slice or `expect` of the source can fail |
| `SmtpProof.AdvanceKeeps` | smtp/src/client.rs:612-879 | every step, whatever the world answers, keeps the transcript, lock-step, gate, recipient and honesty invariant |
| `SmtpRuns.Run` | smtp/src/client.rs:146-276 | any sequence of polls and cancellations of a submission stays within the invariant |
| `SmtpRuns.WireRefinement` | smtp/src/client.rs:391-423 | in every run the octets on each transport are a prefix of its one transcript: EHLO, STARTTLS on plain; EHLO, MAIL, each RCPT in order, DATA, stuffed message, terminator, QUIT on TLS |
| `SmtpRuns.LockStep` | smtp/src/client.rs:612-739 | no octet of a unit goes out before the greeting and every earlier answer are completely parsed, and replies are what that transport's octets spell |
| `SmtpRuns.StartTlsGate` | smtp/src/client.rs:755-795 | nothing crosses TLS before the plain dialogue was exactly EHLO, STARTTLS and a third reply 220; mail commands run on TLS only and STARTTLS never again after the upgrade; the parser is in its initial state outside reply phases |
| `SmtpRuns.OutcomeIsFinal` | smtp/src/client.rs:480-491 | no poll or cancellation changes an outcome |
| `SmtpRuns.OutcomeLetsGo` | smtp/src/client.rs:480-491 | with its outcome an operation has given up request, transports and everything staged |
| `SmtpRuns.AcceptanceSurvives` | smtp/src/client.rs:493-507 | once the final 2xx is read, any later failure, timeout or cancellation still ends as `Accepted` with that answer |
| `SmtpRuns.CancelEnds` | smtp/src/client.rs:271-275 | a cancelled run has an outcome |
| `SmtpRuns.RecipientReports` | smtp/src/client.rs:805-849 | reports keep request order: server answers, at most one unresolved, then unattempted; DATA is on the wire only if the policy allows it for those answers |
| `SmtpRuling.RepliesDecide` | smtp/src/client.rs:741-879 | in every run, if the last complete reply rules how the submission ends (a rejection of its stage, no STARTTLS, no or too few recipients, a reply out of place), it has ended so; otherwise it has not ended in a way that only a reply can bring about |
| `SmtpRuling.RejectedIffLastReplyRejects` | smtp/src/client.rs:741-879 | in every run the outcome is `Rejected(stage, reply)` if and only if the last complete reply the server sent is that 4xx or 5xx and answers that stage by its place in the dialogue; not so for QUIT, and for RCPT only with 421 |
| `SmtpEndings.DeadlineEnds` | smtp/src/client.rs:254-260 | in every run, a deadline noticed at any step of a poll ends the submission with `Timeout`: `Accepted` if the server has said so, `Uncertain` if it has the whole message, otherwise `NotAccepted` at the stage told by replies read and units admitted; nothing more crosses a transport |
| `SmtpEndings.CancellationEnds` | smtp/src/client.rs:271-275 | cancelling an unfinished submission ends it at once in the same way, with `Cancelled` |
| `SmtpCauses.CauseIsReported` | smtp/src/client.rs:516-702 | at any step of a poll that goes on, the answer of the world decides whether the submission ends with it and how: connect, read and send failures by their kind, malformed octets, ruling replies, a refused upgrade, and nothing else |
| `SmtpEndings.PollIsNotCutShort` | smtp/src/client.rs:249-268 | a poll that is not told to wait, has no outcome and has admitted fewer than 16384 octets of the message takes all of up to 64 steps, each of them progress |
| `SmtpSession.TranscriptIsTheRequest` | smtp/src/client.rs:723-739 | a server reads the transcript of a valid request as exactly its commands and its message |
| `SmtpSession.HonestOutcome` | smtp/src/client.rs:480-507 | `Accepted` and `Uncertain` mean a server has every command and the exact message; `NotAccepted` means no server has a whole mail; `Uncertain` only at the data result; `Accepted` repeats the server's own 2xx, `Rejected` the last reply the server sent, at the stage it answers |
| `SmtpSession.NoMailBeforeTerminator` | smtp/src/client.rs:860-876 | a log short of the terminator never completes a mail for a server |
| `SmtpWork.RepliesAreBounded` | smtp/src/client.rs:741-879 | a run reads at most recipients + 8 replies |
| `SmtpWork.PollAdmitsBoundedBody` | smtp/src/client.rs:653-683 | one poll admits at most 16384 octets of the message, a chunk staged earlier included |
| `SmtpThroughput.PollFillsAllowance` | smtp/src/client.rs:653-683 | and no fewer: a poll that begins while the message is being sent, over a transport that takes every piece and has not asked for pieces below 2048 octets, admits exactly 16384 octets or all that is left, within ten steps |
| `SmtpProgress.StepGoes` | smtp/src/client.rs:612-702 | a step that asks to go on, however much of the poll's byte allowance is used, lowers phases left, octets left or send limit, in that order |
| `SmtpProgress.ResponsivePollsEnd` | smtp/src/client.rs:249-268 | more polls than a bound computed from request and send window, in which nothing says wait, whatever else fails or times out in them, end every submission with an outcome |
| `SmtpAcceptance.OnlyAcceptance` | smtp/src/client.rs:249-268 | for any server whose fixed replies, within the parser's limits, accept the request, and any run of polls over working transports that reads a prefix of those octets, however reads, sends and polls are cut and as long as pieces are not found too large more often than the send window can be halved, the only outcome is `Accepted` with the server's final answer |
| `SmtpAcceptance.GoodServerAccepts` | smtp/src/client.rs:249-268 | when in addition nothing says wait, the submission is `Accepted` within the bound on polls |
| `SmtpAcceptance.ServerHasMore` | smtp/src/client.rs:581-603 | a client that waits for a reply has not read everything such a server says |
| `SmtpAcceptance.AcceptedRunExists` | smtp/src/client.rs:249-268 | for every request and every server that accepts it there is such a run, ending `Accepted` |
| `SmtpClient.SendOperation.SendBody` | smtp/src/client.rs:653-683 | equals the body step, with the incremental encoder standing for its remaining octets |
| `SmtpClient.SendOperation.Read` | smtp/src/client.rs:581-603 | equals the read step for every result of the transport |
| `SmtpClient.SendOperation.Step` | smtp/src/client.rs:612-702 | equals one step of the engine |
| `SmtpClient.SendOperation.Poll` | smtp/src/client.rs:249-268 | equals the poll of at most 64 steps, keeps the invariant, and is ready exactly with an outcome |
| `BodyLedger.StepKeeps` | src/body_budget.rs:25-57 | every atomic step of any buffer, the refund of a replaced reservation a step of its own, keeps the books, and no refund wraps |
| `BodyLedger.BooksBalance` | src/body_budget.rs:105-208 | at every moment `used` is the sum of live permits, within the limit, and covers all storage, old and new storage mid-growth included; an idle buffer holds its capacity plus its reservation |
| `BodyLedger.PeakIsHighest` | src/body_budget.rs:47-48 | when no acquisition is between exchange and `fetch_max`, `peak` is the largest `used` of the whole run |
| `BodyLedger.BytesSurvive` | src/body_budget.rs:137-167 | no step but an ending changes a byte of any buffer, and a failed acquisition leaves it exactly as it was |
| `BodyReturns.BudgetComesBack` | src/body_budget.rs:76-103 | from every reachable ledger each buffer can end by its own steps, whatever it is in the middle of, and then nothing is charged and nothing stored |
| `BodyBuffers.BodyBudget.Acquire` | src/body_budget.rs:25-57 | whatever others do to `used` and `peak` between two rounds, the exchange loop wins on the value of its first round that meets no interference and raises `peak` to it, or fails exactly when a round finds no room and then changes nothing of its own |
| `BodyBuffers.LonePlan` | src/body_budget.rs:124-132 | the atomic steps of a reservation, uninterrupted, amount to the reservation in one go |
| `BodyBuffers.LoneGrow` | src/body_budget.rs:137-167 | the atomic steps of a growth, uninterrupted, amount to the growth in one go |
| `BodyBuffers.Target` | src/body_budget.rs:184-193 | without a plan the least number that has room for what is needed, for twice the capacity and for 4096, cut at the ceiling; with a plan the larger of plan and need |
| `BodyBuffers.BodyBuffer.PlanCapacity` | src/body_budget.rs:124-132 | under any interference succeeds if and only if the new reservation fits beside everything charged at the deciding round; others' charge moves by their own work alone |
| `BodyBuffers.BodyBuffer.ReserveCapacity` | src/body_budget.rs:137-167 | under any interference succeeds if and only if old and new storage fit together at the deciding round, a reservation counted once; bytes preserved; failure changes nothing; alone it is the growth in one go |
| `BodyBuffers.BodyBuffer.Extend` | src/body_budget.rs:169-198 | appends exactly or changes nothing, under any interference; succeeds if and only if within the ceiling and, where it must grow, the new capacity, written out, fits the budget; no charge while there is room |
| `BodyBuffers.BodyBuffer.Push` | src/body_budget.rs:201-208 | appends one byte if and only if there is room, ceiling and budget not consulted, or growth fits ceiling and budget; otherwise changes nothing |
| `BodyBuffers.BodyBuffer.PushEach` | src/body_budget.rs:184-208 | bytes pushed one at a time are all there up to the first refusal, and the buffer grows logarithmically often: after k growths more than 4096 * 2^(k-2) bytes have arrived |
| `BodyBuffers.BodyBuffer.IntoVec` | src/body_budget.rs:211-213 | returns the bytes and ends the whole charge |
| `UploadChannel.Upload.Bind` | src/stream.rs:114-172 | binds once, only an open or finished body within all limits; a refusal changes nothing |
| `UploadChannel.Upload.TryPop` | src/stream.rs:174-200 | a chunk if and only if the body is open and not everything accepted is taken, and then the oldest; `Pending`, the end and failure exactly by the sender's state after that; the end at the exact fixed length; what is taken and what is queued is what was accepted, within capacity |
| `UploadChannel.Upload.CloseBody` | src/stream.rs:208-215 | closing keeps what was taken a prefix of what was accepted |
| `UploadChannel.Upload.TryPush` | src/stream.rs:260-309 | accepts whole if and only if open, within both limits and with room; `WouldBlock` if and only if only room is missing; a refusal returns the chunk |
| `UploadChannel.Upload.Push` | src/stream.rs:317-390 | under any receiver, the accepted bytes are a prefix of the chunk and a failure returns exactly the rest; limits are decided before the first byte; closed only if receiver or sender is gone; a receiver that pops before each hold of the lock is enough for it to return |
| `UploadChannel.Upload.PopEach` | src/stream.rs:174-200 | pops in a row take everything queued, and report the end exactly if the sender has finished and there is a pop left |
| `UploadChannel.Upload.Finish` | src/stream.rs:397-426 | succeeds if and only if the receiver lives and a fixed length is met; a mismatch is recorded with both counts |
| `UploadChannel.Upload.DropSender` | src/stream.rs:458-470 | an unfinished sender that goes away abandons the body, a finished one changes nothing |
| `UploadChannel.Transfer` | src/stream.rs:114-426 | for any calls in any order and any pops after them: bytes popped are a prefix of bytes accepted, within fixed length and bound limit, all of them when the end is reported; an unclosed body arrives whole after as many pops as pieces, and one pop more reports the end of a finished one |
| `ResponseChannel.Response.PublishHead` | src/stream.rs:968-984 | publishes once, while open; a head without body completes at once |
| `ResponseChannel.Response.TryPush` | src/stream.rs:986-1012 | takes the chunk if and only if open, after the head, within limit and room; `WouldBlock` if and only if only room is missing |
| `ResponseChannel.Response.Commit` | src/stream.rs:948-964 | the first terminal wins, is recorded once, and wakes the reader |
| `ResponseChannel.Response.EndBySink` | src/stream.rs:1035-1051 | the sink's terminal loses to an earlier one; only completion keeps queued bytes |
| `ResponseChannel.Response.DropSink` | src/stream.rs:1054-1063 | a dropped sink leaves the terminal there is, or the failure of an unfinished response |
| `ResponseChannel.Response.Produce` | src/stream.rs:936-1063 | a call that decides the outcome decides it as it says; whatever a producer changes for the reader changes the generation |
| `ResponseChannel.Response.TryHead` | src/stream.rs:719-733 | ready, pending or failed exactly by head and terminal; the end is known with the head exactly of a response without body; pending samples the current generation |
| `ResponseChannel.Response.TryRead` | src/stream.rs:755-816 | exact in every case, with any producer between its two holds of the lock: bytes if and only if some are undelivered and nothing failed, the end if and only if complete and all delivered, failure if and only if there is one, pending otherwise; bytes continue what was delivered; the end is known as soon as it can be |
| `ResponseChannel.Response.WouldSleep` | src/stream.rs:874-882 | a reader that found nothing sleeps only while there is still nothing |
| `ResponseChannel.Response.DropReader` | src/stream.rs:897-911 | asks for cancellation if and only if the reader has not been told of the end; without a request everything was delivered and the response is complete |
| `ResponseChannel.Response.Leave` | src/stream.rs:897-911 | the whole drop, other calls before its request is served: a terminal recorded before, completion included, stays as it is; without one the response ends, cancelled unless someone else decided it |
| `ResponseChannel.UnseenCompletion` | src/stream.rs:897-911 | a reader that took the last byte before completion was recorded leaves a complete, completely delivered response with a request for cancellation |
| `ResponseChannel.Response.Collect` | src/stream.rs:836-852 | under any producers collects exactly the pushed bytes if and only if the response is complete, fails with the terminal's own error, and still waits only if no producer has decided the outcome; refused in manual mode or after a read |
| `ResponseChannel.Exchange` | src/stream.rs:719-1063 | for any calls of sink, control and reader in any order, and any reads after them: delivered is a prefix of pushed, all of it at the end; at most one terminal, exactly one after any deciding call; a complete response whose reader stays arrives whole with its end after one read more than it has bytes |
| `CallbackProof.StepKeeps` | src/dispatch.rs:87-232 | every critical section keeps exclusion, order, counts and the completion condition |
| `CallbackProof.DispatchIsSound` | src/dispatch.rs:87-163 | in every run: queue within capacity and equal to its gauge, `running` equals active requests, one callback per request at a time, terminal jobs of a request start in order and none is lost |
| `CallbackProof.PermitGetsRoom` | src/dispatch.rs:87-113 | a job that owns a permit is accepted last in the queue within capacity; only in a full queue another gives way, the oldest progress job |
| `CallbackProof.CompletionIsFinal` | src/dispatch.rs:227-232 | completion means sealed, empty, idle and without workers, and stays |
| `CallbackProof.SomeStepIsEffective` | src/dispatch.rs:166-196 | a sealed domain that is not complete always has a thread that can go on |
| `CallbackProof.SealedDomainDrains` | src/dispatch.rs:166-232 | every schedule after the seal takes at most 2 queued + running + workers steps, and one that cannot go on is complete with every accepted terminal job started once in order |
| `CallbackProgress.QueuedJobsCanStart` | src/dispatch.rs:140-196 | in every run, sealed or not, a queued job is started by callbacks returning and one living thread taking jobs |
| `CallbackProgress.SealThenDrain` | src/dispatch.rs:215-232 | from every reachable state sealing and letting the threads go on completes the domain in exactly 2 queued + running + workers steps, every accepted terminal job started once in order, and no job is accepted any more |
| `CallbackDomains.CallbackDomain.DrainInline` | src/dispatch.rs:198-213 | alone, runs everything queued in order and completes a sealed domain without workers |
| `LifecycleProof.StepKeeps` | src/registry.rs:2353-2656 | every critical section keeps maps, arbitration, publication duty, abort-before-visible, reactor coverage, shutdown coverage and the activation count |
| `LifecycleProof.AdmittedKeeps` | src/registry.rs:1198-1288 | admission inserts, queues and counts its activation without disturbing any of these |
| `LifecycleProof.SweepKeeps` | src/registry.rs:2087-2274 | one critical section decides every pending connect and lists everything else that is live |
| `LifecycleProof.PublicationKeeps` | src/registry.rs:647-701 | publication pays exactly the duty of its task, after the transport is cut |
| `LifecycleProof.ActivateKeeps` | src/registry.rs:201-229 | activation takes the job if its time has come and keeps the counter exact |
| `LifecycleRuns.StepEvolves` | src/registry.rs:183-229 | one critical section never changes a terminal outcome, takes nothing back, and a failing TLS operation notes the transport live at that moment |
| `LifecycleRuns.OneWinner` | src/registry.rs:2529-2630 | under every interleaving one commit wins, a connect in its map is undecided, publication happens once or is owed by exactly one task, the callback job is taken at most once, only from an active and deliverable operation, and is taken when due |
| `LifecycleDecisions.DecidedBy` | src/registry.rs:2353-2630 | in every run a section decides an undecided operation if and only if it is its failure, its success while running, its completion, or sweeps it; as failed exactly by the failures; and so it stays |
| `LifecycleDecisions.AbortedBeforeVisible` | src/registry.rs:2547-2585 | a TLS operation that fails, is cancelled or is swept is failed from then on, and a waiter or its callback sees it only after the transport live for it at that moment is aborted |
| `LifecycleDecisions.CallbackIsKept` | src/registry.rs:207-229 | a callback is never lost and never doubled: it is with its operation, or its one job has been taken out |
| `LifecycleProgress.AdmissionEnters` | src/registry.rs:1198-1288 | an admission enters, undecided, mapped and queued under a fresh identity, if and only if the Engine runs and the queue has room; an upgrade if and only if its connection is live without one |
| `LifecycleProgress.VisibleInTheEnd` | src/registry.rs:2529-2630 | a decided connect is visible, or the one thread that owes it makes it visible by its own steps |
| `LifecycleProgress.RequestsCanComplete` | src/reactor.rs:36-174 | every undecided request is completed by drain, submit and completion steps of the reactor alone |
| `LifecycleLeaks.NoLeaks` | src/registry.rs:2646-2656 | connect maps hold undecided operations only, and a decided request has left its map or is about to be removed by the thread that completed it |
| `LifecycleRuns.NothingIsForgotten` | src/reactor.rs:36-174 | a nonterminal operation is in its map; a nonterminal request is queued or active between drives |
| `LifecycleRuns.StopIsComplete` | src/registry.rs:2189-2274 | once `begin_shutdown` stores the stop flag every operation ever accepted is terminal and none is accepted later |
| `LifecycleRuns.ShutdownCanFinish` | src/registry.rs:2238-2273 | a shutdown under way can always finish by its own steps |
| `LifecycleSweeps.SweepCompletes` | src/registry.rs:2087-2274 | a cancel_all or begin_shutdown that has run to its end has reached everything there was when it began: registered requests are decided, undecided connects failed and visible, live transports aborted |
| `LifecycleSweeps.SweepCanFinish` | src/registry.rs:2155-2185 | and it can always run to its end by its own steps |
| `LifecycleSweeps.ShutdownCanSeal` | src/engine.rs:518-552 | from every state of a shutdown the activations under way can finish, and then the dispatcher is sealed |
| `LifecycleRuns.ActivationBeatsSeal` | src/engine.rs:518-552 | the counter is the number of activations under way; the seal comes after a moment at which it was zero and none follows, so an enqueue on the activation path never meets a sealed dispatcher |
| `RegistryCallbacks.EnqueueSucceeds` | src/dispatch.rs:87-113 | in every run of registry and callback domain together the permits in existence are the callbacks still owed plus the jobs queued and running, within capacity; every enqueue on the activation path finds the domain unsealed, and every enqueue before the seal puts its job into the queue within capacity |
| `StateObjects.RequestState.Decide` | src/registry.rs:183-199 | first result wins; the job appears exactly when active; permits live as long as the callback needs them |
| `StateObjects.RequestState.ActivateCallback` | src/registry.rs:201-205 | activation yields the job exactly when already terminal, with the stored completion |
| `StateObjects.RequestState.TakeJob` | src/registry.rs:207-229 | the three extractions cannot fail, and happen once |
| `StateObjects.RequestState.TryCompletion` | src/registry.rs:141-143 | consuming the completion leaves the operation terminal, and takes it from a callback exactly when the operation is decided and the callback not yet taken out |
| `StateObjects.ConnectState.Decide` | src/registry.rs:647-660 | first result wins, gives transport permits back, stays invisible |
| `StateObjects.ConnectState.Publish` | src/registry.rs:662-676 | makes the result deliverable and yields the job exactly when active |
| `StateObjects.ConnectState.ActivateCallback` | src/registry.rs:678-682 | yields the job exactly when already published |
| `BudgetsProof.StepKeeps` | src/registry.rs:37-81 | every single acquisition, rejection, hand-over and release keeps each counter equal to the permits held, within its limit |
| `BudgetsAdmission.RecipeTable` | src/registry.rs:1360-1461 | what a complete admission of each kind holds of each of the seven budgets |
| `BudgetsAdmission.AdmissionDecides` | src/registry.rs:1360-1461 | an uninterrupted admission succeeds if and only if all of that fits beside everything held, then holds exactly that with every counter grown by it; otherwise it gives back |
| `BudgetsAdmission.AllReturned` | src/registry.rs:59-70 | from every reachable state all operations can end, and then every counter is zero |
| `BudgetsAdmission.LoosePermitsGoAlone` | src/registry.rs:59-70 | inflight, resolver and callback permits are given back on their own by an operation that goes on |
| `BudgetsRuns.BudgetsBalance` | src/registry.rs:37-81 | in every run each counter is the permits held against it, within its limit; whenever no admission or release of bytes or slots is between two of its steps, callback and resolver permits aside, queued bytes are stream plus TCP bytes and connections are the settled slots |
| `Accounts.ConnectionsCounted` | src/registry.rs:2353-2494 | in every run of registry and budgets together, at those moments, the connection counter is the number of pending connects, of TLS connects without a transport, and of live connections, less those that have given their permits back and are about to leave the live map |
| `Accounts.OpeningFindsPermits` | src/registry.rs:2376-2387 | whenever the registry opens a transport its connect holds the permits the transport takes over |
| `Accounts.AdmissionTakesPermits` | src/registry.rs:1425-1461 | a complete admission enters with its permits if and only if the Engine runs and the queue has room; otherwise it gives them back |
| `Accounts.ConnectionCanClose` | src/registry.rs:2388-2399 | every open connection can close by its own steps, and then its slot is free and its live entry gone |
| `Transports.LiveTransports` | src/registry.rs:2353-2494 | in every run the live map is exactly the transports opened and not released; a section opens one, new and under the identity of its connect, if and only if the connect waits for it and the Engine runs; a release takes exactly its own entry away |
| `BudgetsRuns.RejectionLeavesNothing` | src/registry.rs:1360-1461 | in any run an admission turned down at any of its acquisitions, interleaved with anything, ends with no permits once it has given each back, and every counter is its value at the rejection, less what it had taken, plus the net change of the others |
| `BudgetsRuns.ReleaseCanFinish` | src/registry.rs:59-70 | a holder that is giving back can always finish by its own steps, without touching another |
| `BudgetsProof.HandOverKeeps` | src/registry.rs:2374-2399 | hand-over to a live connection moves permits without touching a counter |
| `BudgetsAdmission.HandOverSplits` | src/registry.rs:2374-2399 | slot and byte windows go to the connection, everything else stays with the connect, nobody else is touched |
| `BudgetsAdmission.AttachJoins` | src/registry.rs:1684-1714 | the reserve of an upgrade goes to the connection it upgrades, its callback permit stays with it |
| `OwnerWakeup.CommandQueue.TryPush` | src/registry.rs:824-836 | a push within capacity is queued last and moves the generation |
| `OwnerWakeup.CommandQueue.ManualTurn` | src/engine.rs:424-443 | the manual owner sleeps if and only if nothing was pushed or woken between sample and drain, during the drive or before the wait; an owner that sleeps has drained everything |
| `OwnerWakeup.Spawned` | src/reactor.rs:347-378 | under any interleaving, transports that want polling included, submissions are drained in order, an owner asleep has drained everything pushed and driven after every wake, and after four quiet steps it is asleep |

## Left out

- Sockets, TLS records, DNS and HTTP decoding, `src/tcp` and the poll backend: a transport is its answers, a live connection an object with abort and release.
- Real time, deadlines and thread scheduling: a deadline may pass at any step, and steps interleave arbitrarily.
- `transport_diagnostic`, error texts, Debug output, metrics other than the dispatcher's gauge, builders and getters.
- `SmtpRequest.EhloStaysInLine`: any bracketed text over the command-argument alphabet counts as an address literal, where `validate_ehlo` parses an IP address; the lemma covers more names than the source accepts.
- Rollback of a stream admission and of a TLS upgrade at a full command queue; a stream's record of accepted against finished.
- Callbacks enqueued by a foreign `cancel` after its commit are only claimed to run at most once across `seal`.
- `fail_all` followed by `mark_stopped`: shutdown completeness is claimed for `begin_shutdown` only.
- Unbudgeted body buffers, whose storage no budget counts.
- The generation counters are unbounded; their 64-bit wrap is not modelled.
- The `expect` on the TCP byte metric, whose limit is the largest `usize`; the limit is a parameter of `Budgets`.
- Condition-variable fairness: `turns` that run out leave the caller waiting, which the results call `StillWaiting`.
- Following HTTP redirects, DNS name syntax and caching, the thread-local stack that forbids blocking waits inside a callback, and callback handles that outlive their engine.
