# HoursX protocols in Dafny

HoursX runs agents as rows of a database that many processes change at once, delivers their answers through
chat channels, changes the host under a dead-man switch, and talks to a privileged helper over a small wire
protocol. This project models those protocols and codecs and proves what they keep.

`dafny verify dfyconfig.toml` checks everything.

## How the model is built

- **Protocols are state machines.** A database session (`async with services.db.session()`) is one action, an
  access to the host or a message sent is one action, and any other process may act between two of them. A session
  is cut where it accesses the host in between, and where it reads a row and later writes it by id alone, with
  nothing in the write that looks at the row again. `RunMachine`, `Dispatch`, `Router` and `GuardMachine`
  define the actions, `Legal` and `Execute` define their sequences, and the theorems are about every legal
  sequence.
- **Processes follow courses.** What an activation does in such a sequence is read off the tables as its deeds
  (`RunCourses`): the flag it found, the conversation it gave to the model, the message it took over, the execution,
  the columns it wrote. Its methods are proved to do exactly the deeds that the world's answers prescribe, and the
  theorems about courses say what that comes to.
- **Objects that change in place are classes.** `RunStore.Store`, `DispatchStore.ReplyTable`,
  `RouterStore.Tables`, `Guard.ChangeService`, `Daemon.Server`, `Breaker.CircuitBreaker` and
  `Delegation.Activation` follow the source's methods step by step. The methods of the first four are proved to
  be legal runs of their machine under any schedule of the other processes: each await takes a batch of foreign
  actions from an arbitrary `schedule`. The theorems about the machines therefore hold of the methods.
- **Loops and codecs are methods proved against functions**: base64, the request parser, the line framer, the
  two splitters, condition evaluation.

What lies outside is a parameter: the model's turns, tool outcomes, channel sends, clocks, probes, the helper's
policy tables and the kernel's answers. Texts on the wire are their UTF-8 bytes; times are integers (real
seconds in `Breaker`).

Facts about a deployment are parameters of the run protocol: `publishMayFail`, whether publishing an event can
raise, as it can on the Redis bus; `jobsMayRepeat`, whether the queue delivers a resume job more than once;
`deciders` and `cancellers`, how many operators may sit at once between reading and writing the row of one approval
they decide, or of one run they cancel; and `window`, how many submissions of a workspace sit between quota check and
insert. Theorems assume something of these only where they are false without it, and then they say exactly what. A
stale heartbeat is taken to mean that the owner is dead, as `src/hoursx/recovery.py` says of itself; a resume job may
be lost.

## Where the code does not do what one might expect

- **A terminal status can be overwritten**, by a publication that raises after its commit, inside the block whose
  handler records a failure, and by a cancel that read the run while it waited and writes it when it is over.
  Statuses are final exactly when publishing cannot raise and nobody cancels
  (`RunFaults.TerminalIsFinalIffNothingIsLate`); the outcome of one settled run is final exactly when neither is under
  way to change it (`RunSafety.OutcomeIsFinalIffUndisputed`). Even a failed or a cancelled run can go on to execute a
  tool (`RunFaults.FailedRunCanStillExecute`, `RunFaults.CancelledRunCanStillExecute`), as long as it has an owner;
  once it has none, it is never worked on again (`RunSafety.SettledForGood`).
- **A second resume job of an approval runs a call that nobody approved**: it finds the checkpoint of a later pause
  (`RunFaults.SecondJobRunsTheNextCall`). Such a job comes from a queue that repeats, or from two operators who decide
  the approval at once, each having found it undecided. The gate holds exactly when neither happens
  (`RunFaults.GateHoldsIffOneJobEach`).
- **The concurrency quota overshoots** by one less than the number of submissions between check and insert, and
  by one for every publication that fails, or cancel that is written, under a new owner's hands, and no further
  (`RunQuota.ActiveRunsAreBounded`, `RunQuotaReached.BoundIsReached`).
- **Reply attempts pass their maximum** by one less than the number of dispatchers
  (`Dispatch.AttemptsAreBounded`, `DispatchBounds.AttemptsBoundIsReached`); `sent` and `abandoned` overwrite
  each other unless one dispatcher sweeps (`DispatchBounds.SettledIsFinalIffOneDispatcher`); and a final answer
  can be about a run that is still at work, when its reply was listed for the note of a pause that then ended
  (`DispatchBounds.PrematureAnswer`, `Dispatch.AnswersAreTruthful`).
- **A confirmation can come too late although it succeeds**: a sweep that has already loaded the change still
  reverts it (`GuardSafety.ConfirmationCanComeTooLate`). It is respected exactly when no automatic revert has
  loaded the change and, while its guard may still want to undo it, no revert at all is under way that could leave
  its row open (`GuardSafety.ConfirmedIsKeptIff`). One that is reverted between the confirmation's reading and writing
  ends up as confirmed (`GuardSafety.RevertedChangeIsConfirmed`).
- **A verified change keeps no timer**, although the summary in `src/hoursx/remediation/guard.py` says that it
  still reverts (`GuardSafety.VerifiedIsKeptIff`). A change confirmed while its guard settles is reported as
  reverted when its conditions fail, although it stays (`Guard.KeptChangeIsReportedAsReverted`); the report is
  wrong exactly when a confirmation was the last to write the row (`Guard.ChangeService.ApplyGuarded`).
- **Due changes are undone in no particular order**, and of two due changes of one parameter the last one
  undone decides (`Guard.SweepOrderDecides`); newest first would restore (`Ledger.NewestFirstRestores`).
- **The base64 decoder is not strict**, against its header: it accepts set bits under the padding and
  `AA=A` (`Base64.DecoderIsNotStrict`). The texts that are encodings are exactly the canonical ones
  (`Base64.EncodingsAreExactlyCanonical`).
- **A line of exactly the parser's maximum is never served**, because the newline after it overflows the buffer
  (`Framing.LongestServedLine`); lines up to 4096 bytes shorter are served however they are cut
  (`Framing.ShortLinesAreSafe`), and `Framing.SafeIffEveryCuttingFits` says exactly which streams are.
- **A document that fits into one chunk is still cut in two** when it is longer than the overlap
  (`Chunking.ShortTexts`).
- **Overlapping deliveries of one message can make as many runs** as are between lookup and insertion at one time,
  since only the lookup guards the idempotency key (`Router.RunsPerKeyAreBounded`, `Router.BoundIsReached`); one
  run per key is guaranteed exactly when that is never more than one (`Router.OneRunPerKeyIffWindowOne`).
- **A helper reply beyond the stream reader's limit raises an error that the client does not expect**, long before
  its own limit refuses it (`Protocol.RepliesArriveUnchanged`).
- **A cancelled trial call leaves the circuit breaker on trial**, with no outcome recorded
  (`Breaker.CancelledTrialStaysOnTrial`).

## Model

| member | source | states |
|---|---|---|
| RunSafety.GatedToolsRunOncePerApproval | src/hoursx/tools/executor.py:62-83 | in every run of the protocol in which operators decide an approval one after the other and jobs are not repeated, a tool that needs approval executes only for a call whose own approval record (same run, name and arguments) was granted, and once per approval |
| RunSafety.UngrantedApprovalsRunNothing | src/hoursx/agents.py:119-127 | where no approval gets a second resume job, one that is denied or undecided lets nothing execute |
| RunSafety.ParkedRunHasOneTicket | src/hoursx/agents.py:384-413 | where no approval gets a second resume job, a parked run waits for exactly one thing, its undecided approval or one resume job, made for the first pending call of its checkpoint; only a lost job leaves it without |
| RunSafety.RunningIffOneOwner | src/hoursx/agents.py:308-315 | a running run has exactly one owner and no run ever has two; only a run that was failed by a late publication or cancelled by a late operator is owned without running |
| RunSafety.OrphansCanBeRequeued | src/hoursx/recovery.py:42-67 | a run whose owner died can be requeued once its heartbeat is stale, unless it was failed or cancelled late |
| RunSafety.RequeuedRunsStartOver | src/hoursx/recovery.py:55-67 | only a running run whose heartbeat is stale is requeued; it is queued with nothing else of it lost, has no owner, and any new worker can claim it and goes on from its step count |
| RunSafety.OnlyOwnersAct | src/hoursx/agents.py:434-449 | turns, tools, pauses and outcomes come only from the single live owner of a run that is running or was failed or cancelled late, though the writes check no status |
| RunSafety.ActionSettles | src/hoursx/orchestration.py:111-128 | no step reopens a run that has its outcome and no owner, takes a turn or executes a tool for it, or withdraws its cancellation; only a publication or a cancel that is under way may change its outcome, and none joins them |
| RunSafety.SettledForGood | src/hoursx/agents.py:426-449 | such a run is never worked on again in any continuation, and its status can only become failed or cancelled |
| RunSafety.OutcomeIsFinalIffUndisputed | src/hoursx/orchestration.py:117-128 | in every reachable state, the outcome of such a run stays in every continuation if and only if no publication that can still fail it and no cancel that found it waiting is under way to another outcome |
| RunSafety.TerminalIsFinal | src/hoursx/agents.py:426-449 | after succeeded, failed or cancelled nothing changes the status, takes a turn or executes a tool, where publishing cannot raise and nobody cancels |
| RunSafety.EveryTurnIsWellPaired | src/hoursx/agents.py:147-188 | at every model turn each call of each assistant message is followed by exactly its result, in order, through any pauses |
| RunSafety.CheckpointsResumeWhereTheyStopped | src/hoursx/agents.py:402-413 | answered calls followed by the checkpoint's pending calls are the last assistant message's calls |
| RunSafety.TurnsAreBounded | src/hoursx/agents.py:145-166 | a run makes at most max_steps turns through any pauses, and one such round more per requeue |
| RunSafety.AtMostOneTurnAfterCancel | src/hoursx/agents.py:158-165 | after cancellation is requested at most one turn starts, whatever parks, resumes and requeues follow |
| RunSafety.CancelledWhileWaitingStartsNothing | src/hoursx/orchestration.py:117-128 | a cancel that read the run while it waited, and finds it without an owner when it writes, settles it, and no turn and no tool follows, an in-flight resume notwithstanding |
| RunFaults.TerminalIsFinalIffNothingIsLate | src/hoursx/agents.py:189-197 | terminal statuses are final if and only if publishing cannot raise and nobody cancels |
| RunFaults.LateCancelOverwritesSuccess | src/hoursx/orchestration.py:114-125 | a cancel that read a run as queued overwrites its success |
| RunFaults.FailedRunCanStillExecute | src/hoursx/agents.py:414-424 | a pause whose publication raises late fails a run under its new owner, who then executes the tool |
| RunFaults.CancelledRunCanStillExecute | src/hoursx/orchestration.py:114-125 | a cancel that read a run as queued is written under its owner, who then executes a tool |
| RunFaults.SecondJobRunsTheNextCall | src/hoursx/orchestration.py:169-203 | a second resume job of an approval, repeated by the queue or made by a second operator who had read it undecided, runs the next pause's call, whose approval is undecided |
| RunFaults.GateHoldsIffOneJobEach | src/hoursx/agents.py:103-133 | the approval gate holds in every run if and only if no two operators decide one approval at once and resume jobs are not repeated |
| RunQuota.ActiveRunsAreBounded | src/hoursx/quotas.py:79-86 | active top-level runs of a workspace never exceed limit + N - 1 with N submissions in the window, plus one per publication that failed or cancel that was written under a new owner's hands; there are none of these where publishing cannot raise and nobody cancels |
| RunQuotaReached.BoundIsReached | src/hoursx/orchestration.py:51-93 | that many are reached, for every number of such hits, of either kind |
| RunQuotaReached.PlainBoundHoldsIffNothingHits | src/hoursx/orchestration.py:114-125 | limit + N - 1 is never exceeded if and only if publishing cannot raise and nobody cancels |
| RunSteps.CoreKept | src/hoursx/agents.py:300-326 | every action keeps the invariant of owners, conversations, checkpoints, steps and cancellation, also when publishing raises, operators write late and jobs repeat |
| RunGate.GateKept | src/hoursx/agents.py:384-413 | every action keeps the invariant of tickets, approvals and executions where no approval gets a second resume job |
| Transcript.NoneOutstandingIsWellPaired | src/hoursx/agents.py:176-188 | a conversation with no outstanding call pairs every call with its result |
| Transcript.OutstandingIsTail | src/hoursx/agents.py:147-156 | outstanding calls are a tail of the last assistant message's calls |
| RunStore.Store.RequestCancel | src/hoursx/orchestration.py:111-143 | not found, already settled, or read and, after an await, written: the flag, and for a run found waiting that it is cancelled, whatever it is by then; alone at work, exactly these columns |
| RunStore.Store.DecideApproval | src/hoursx/orchestration.py:169-203 | an approval found undecided is, after an await, written as decided, whatever it is by then, and a resume job is made for it; one found decided is left alone |
| RunStore.Store.SubmitMessage | src/hoursx/orchestration.py:51-93 | refused exactly at the concurrency quota, counting queued, running and parked runs, or the hourly one; otherwise just a check and, after an await, the insert of a new queued run |
| RunCourses.OutcomesHaveTheirCauses | src/hoursx/agents.py:137-197 | of the deeds of every loop, whatever the world answers: succeeded is written exactly when the model's last turn has no calls, cancelled exactly when the flag was read as set; a caught exception is the world's, of the last turn or tool asked, and fails the run; without one only the step limit fails it; a loop parks or writes one outcome, and nothing twice |
| RunCourses.CallsStartUnlessRefused | src/hoursx/tools/executor.py:62-83 | a pending call that needs no approval is executed exactly unless the executor refuses it, and no other call is; one that needs approval is not |
| RunCourses.CallsAreAnswered | src/hoursx/agents.py:147-156 | pending calls are answered in order, each by its own result, all of them or all before the one that ends the activation |
| RunCourses.DecidedCallComesFirst | src/hoursx/agents.py:119-131 | a resumed activation begins with its decided call: started under its approval, refused by the executor, or answered with the denial |
| RunCourses.ExecutionsAreDeeds | src/hoursx/agents.py:230-246 | in every run of the protocol, what was executed is exactly what activations have started |
| RunStore.Store.ExecuteRun | src/hoursx/agents.py:87-101 | does nothing unless the claim is won, and without a profile fails the run; otherwise, under any schedule of the others, the activation does exactly its claim, with the columns it writes, and the course of its loop |
| RunStore.Store.Loop | src/hoursx/agents.py:137-197 | the activation's own deeds, the questions it asks and the conversation it keeps are exactly those of rounds that go on until an outcome, a pause or the step limit, given the world's answers and what its reads of the flag found; alone at work, nothing else happens |
| RunStore.Store.WorkOff | src/hoursx/agents.py:176-186 | does exactly the course of the pending calls, one after the other, up to one that ends the activation |
| RunStore.Store.ModelTurn | src/hoursx/agents.py:166-175 | the model is asked once, with the whole conversation; its message and calls are taken over and one step counted; an exception fails the run, a turn without calls concludes it |
| RunStore.Store.TakeTurn | src/hoursx/agents.py:158-175 | the cancellation flag is read before every turn, as it is in the table: with it set the run is cancelled and the model is not asked, without it the turn is taken |
| RunStore.Store.Continue | src/hoursx/agents.py:114-133 | exactly the decided call and then the course of the loop with the other pending calls |
| RunStore.Store.GatedCall | src/hoursx/agents.py:114-131 | the decided call is executed under its approval, refused or denied, answered and recorded, or its exception ends the activation outside the guarded block |
| RunStore.Store.NextCall | src/hoursx/agents.py:176-186 | one pending call: refused, parked at, or executed with the child run that it inserts if it delegates, answered and recorded; an exception fails the run |
| RunStore.Store.ClaimParked | src/hoursx/agents.py:110-133 | one claim and no more by the job, which is then gone for good; lost it changes nothing, without a profile it fails the run, won the activation goes exactly its course from the checkpoint that was read |
| RunStore.Store.ResumeRun | src/hoursx/agents.py:103-133 | the job reads status and checkpoint and, if the run was parked, claims it, and does nothing else; it is gone at the end; if the claim finds the run still parked the activation goes its course; with nobody else at work, an approved call that the executor does not refuse has been executed |
| RunStore.Store.RequeueOrphanedRuns | src/hoursx/recovery.py:33-72 | exactly the running runs whose heartbeat is older than the limit become queued, without heartbeat and otherwise as they were; all other rows stay |
| Dispatch.ClaimsAreSingleWinner | src/hoursx/channels/dispatch.py:182-201 | no two final claims use one token, attempts counts them, the interim note is claimed at most once and costs none |
| Dispatch.AttemptsAreBounded | src/hoursx/channels/dispatch.py:87-102 | attempts never exceed max + N - 1 with N dispatchers |
| Dispatch.SentMeansDelivered | src/hoursx/channels/dispatch.py:162-169 | a reply marked sent has been sent |
| Dispatch.AnswersAreTruthful | src/hoursx/channels/dispatch.py:87-124 | in every interleaving a final message is about a finished run, or about one that was parked when its reply was listed and at work again when it was looked at; where outcomes are final, a reply listed after its run finished is always answered truthfully |
| DispatchBounds.AttemptsBoundIsReached | src/hoursx/channels/dispatch.py:144-145 | max + N - 1 attempts are reached |
| DispatchBounds.SettledIsFinalIffOneDispatcher | src/hoursx/channels/dispatch.py:162-177 | a settled reply stays so if and only if one dispatcher sweeps |
| DispatchBounds.PrematureAnswer | src/hoursx/channels/dispatch.py:116-124 | from a run at work: it is parked, listed, resumed, and reported as if it had failed |
| DispatchBounds.NeverPrematureIffOver | src/hoursx/channels/dispatch.py:87-124 | no schedule gives a premature answer if and only if the run is gone or finished for good when dispatchers begin to sweep |
| DispatchStore.ReplyTable.ClaimDelivery | src/hoursx/channels/dispatch.py:182-201 | the claim is won exactly by compare-and-swap, bumping attempts or setting the interim flag |
| DispatchStore.ReplyTable.Settle | src/hoursx/channels/dispatch.py:110-180 | the exact steps of one delivery among other dispatchers, sending with the answer that the channel gives; alone at work, the exact reply and count: sent if accepted, abandoned if refused at the maximum or if run or channel is gone, otherwise pending with one attempt more; a note costs none |
| DispatchStore.ReplyTable.Deliver | src/hoursx/channels/dispatch.py:147-180 | the send behind a claim goes out exactly when the channel accepts it; a final delivery is recorded, a note is not |
| DispatchStore.ReplyTable.SweepOnce | src/hoursx/channels/dispatch.py:48-53 | the reply is listed and settled exactly when it is due, by exactly these steps, and is alone at work left as a settling leaves it |
| Router.InboundIsIdempotent | src/hoursx/channels/router.py:166-208 | with any redeliveries, overlaps of other messages, and crashes after any commit: a key whose deliveries are never two between lookup and insertion has one run at most, every delivery that returned names it, and one at most calls it new |
| Router.ReturnsAreHonest | src/hoursx/channels/router.py:166-208 | however deliveries overlap, each that returned has left run and owed reply behind in the session of its conversation and of no other, and no run is reported as new twice |
| Router.KeysMeet | src/hoursx/channels/base.py:60-72 | two messages share a key exactly if they are the same message, by the provider's id or else by text, of the same conversation, or if one runs into the other where conversation names contain the separator |
| Router.RunsPerKeyAreBounded | src/hoursx/orchestration.py:58-93 | a key never gets more runs than deliveries of it were between lookup and insertion at one time |
| Router.BoundIsReached | src/hoursx/orchestration.py:58-93 | for every number of such deliveries, that many runs are reached |
| Router.OneRunPerKeyIffWindowOne | src/hoursx/orchestration.py:58-93 | one run per key in every schedule if and only if never more than one delivery of a key is between the two |
| RouterStore.Tables.HandleInbound | src/hoursx/channels/router.py:166-179 | one delivery among others: exactly its own steps in order, refused only by the quota, and otherwise session, run, owed reply, and whether it was a duplicate |
| RouterStore.Tables.SessionFor | src/hoursx/channels/router.py:210-272 | the conversation's session, created once |
| RouterStore.Tables.OweReply | src/hoursx/channels/router.py:183-208 | records the debt, and reports whether it was new |
| RouterStore.Tables.SubmitMessage | src/hoursx/orchestration.py:58-93 | a retried key returns its run, even over quota; a new one is inserted after the others had time to act |
| GuardSafety.AutomationEndsExactlyWhenOver | src/hoursx/remediation/ledger.py:99-153 | in every reachable state, nothing automatic will ever access the host for a change again if and only if it cannot be undone, or it has no timer, no automatic revert has loaded it, and its guard cannot come to undo it |
| GuardSafety.ConfirmedIsKeptIff | src/hoursx/remediation/guard.py:218-242 | a confirmation that is written ends all automation for the change, also inside the settle window and whatever became of the row since it was read, if and only if no automatic revert has loaded it and no revert under way can reopen it for its guard |
| GuardSafety.ConfirmedIsKept | src/hoursx/remediation/guard.py:218-242 | in particular if no revert of the change is under way |
| GuardSafety.VerifiedIsKeptIff | src/hoursx/remediation/guard.py:276-284 | a verified change is never reverted automatically, if and only if no automatic revert has already loaded it |
| GuardSafety.ConfirmationCanComeTooLate | src/hoursx/remediation/ledger.py:202-219 | a sweep that has loaded a change reverts it after a confirmation that succeeded |
| GuardSafety.RevertedChangeIsConfirmed | src/hoursx/remediation/guard.py:224-236 | a change reverted between the confirmation's reading and writing ends up as confirmed |
| GuardTimer.SweepsRespectTheWindow | src/hoursx/remediation/ledger.py:202-219 | a change whose row is inserted at time t to be reverted after r seconds is loaded or attempted by no sweep up to t + r, in every run; after t + r a sweep can load it exactly while its row says applied; without seconds or undo, never |
| GuardHost.RowsTellTheHost | src/hoursx/remediation/guard.py:110-205 | in every schedule in which nobody else writes the parameter or the row of a sysctl change, its row says reverted only if the parameter is what it was when the guard began, and verified or revert-failed only if it is what was asked for |
| GuardMachine.ActionKept | src/hoursx/remediation/ledger.py:71-91 | a timer implies an applied, revertible change, and a loaded row differs from its record in status and timer at most, through every step |
| GuardMachine.RowsTellTheirWriter | src/hoursx/remediation/ledger.py:124-134 | a row's status is that of whoever wrote it last: confirmed exactly after a confirmation, as inserted exactly until somebody writes it |
| Guard.ChangeService.ApplyGuarded | src/hoursx/remediation/guard.py:72-215 | under any schedule, what is reported is what the row says, except that a change is reported as reverted and is not exactly when a confirmation wrote its row last; where nobody else writes the parameter or the row, reverted leaves a sysctl as before and verified leaves it as asked; alone at work, every outcome has its cause, and exactly one row tells so |
| Guard.KeptChangeIsReportedAsReverted | src/hoursx/remediation/guard.py:187-205 | a schedule on which the guard finds its change confirmed and reports it as reverted |
| Guard.ChangeService.Begin | src/hoursx/remediation/guard.py:86-123 | prior state, row, then the write, in this order |
| Guard.ChangeService.Judge | src/hoursx/remediation/guard.py:148-215 | verified exactly if all conditions hold, otherwise undone from the row or left as unrevertible |
| Guard.ChangeService.ConfirmChange | src/hoursx/remediation/guard.py:218-242 | refused exactly for changes found unknown, reverted or revert-failed; otherwise, after an await, the row is confirmed, and all automation for the change is over exactly if it was safe to confirm |
| Guard.ChangeService.RevertExpiredChanges | src/hoursx/remediation/ledger.py:187-219 | exactly the applied rows whose deadline lies before now are loaded, undone one by one with others at work in between, and recorded at the end, reverted exactly those it returns; alone at work it does what sequential reverts do, leaves all other rows alone and nothing due |
| Guard.SweptRow | src/hoursx/remediation/ledger.py:120-134 | each due row ends reverted or revert-failed, its timer cleared |
| Guard.SweptParameter | src/hoursx/remediation/ledger.py:146-153 | each parameter is left with the prior value of the last change undone on it |
| Guard.SweepOrderDecides | src/hoursx/remediation/ledger.py:202-216 | of two due changes of one parameter the order decides |
| Guard.ClampRevertAfter | src/hoursx/remediation/guard.py:88-92 | absent or zero sets no timer, others are brought to the nearest number from 1 to 3600 |
| Ledger.NewestFirstRestores | src/hoursx/remediation/ledger.py:99-153 | reverting any successful changes newest first restores the host; a second revert changes nothing |
| Ledger.OldestFirstDoesNotRestore | src/hoursx/remediation/ledger.py:146-151 | oldest first does not |
| Ledger.ServicesAreUndoneByTheOpposite | src/hoursx/remediation/ledger.py:40-49 | starting, stopping, enabling and disabling a unit are undone by the opposite action on it, and nothing else is undone |
| Conditions.EvaluateConditions | src/hoursx/remediation/conditions.py:237-270 | one result per condition, met exactly if observed to hold; never fails |
| Conditions.OperatorsMean | src/hoursx/remediation/conditions.py:172-234 | numbers and texts that read as numbers compare as numbers, other texts are equal or not, truth values make both sides truth values, and what has no order is not ordered |
| Conditions.SysctlsAreRead | src/hoursx/remediation/conditions.py:237-258 | a parameter is read as the text the table has for it; a probe without its target sees nothing |
| Base64.SymbolsSpellTheBytes | native/src/protocol.cpp:29-57 | the symbols spell, to base 64, the number that the bytes spell to base 256, filled up with zero bits |
| Base64.EncodedLength | native/src/protocol.cpp:31-31 | 4 * ceil(n / 3) characters |
| Base64.EncodeBytes | native/src/protocol.cpp:29-57 | the block loop computes the encoding |
| Base64.DecodeText | native/src/protocol.cpp:59-102 | the decoder's exact result on every text, refusals included |
| Base64.DecodeQuanta | native/src/protocol.cpp:78-99 | the quantum loop accepts exactly the texts whose characters are in place |
| Base64.DecodeInvertsEncode | native/src/protocol.cpp:29-102 | decoding inverts encoding, for all bytes and both alphabets |
| Base64.EncodingsAreExactlyCanonical | native/src/protocol.cpp:59-102 | the encodings are exactly the canonical texts, those that decode and encode to themselves |
| Base64.DecoderIsNotStrict | native/src/protocol.hpp:20-22 | texts that the decoder accepts though they are no encodings |
| Protocol.ParseRequest | native/src/protocol.cpp:104-146 | the parser's exact result on every line |
| Protocol.ParseFields | native/src/protocol.cpp:112-145 | the token loop, field by field |
| Protocol.RequestsArriveUnchanged | src/hoursx/system/helper.py:43-45 | a client's line parses to its verb and arguments if and only if the verb is legal, there are at most 8 and the line fits |
| Protocol.RepliesArriveUnchanged | src/hoursx/system/helper.py:46-77 | the client reads back the very flag and payload, the empty one included, exactly unless the line exceeds its stream reader's limit, which raises, or its own |
| Daemon.CallsAreFaithful | native/src/main.cpp:138-222 | a call performs its operation exactly if the policy allows it, and the client learns its result or the refusal, exactly unless the reply is too long to be read |
| Daemon.RequestsAskFor | native/src/main.cpp:138-222 | a ping is answered with the version and performs nothing; unknown verbs, wrong argument counts and numbers that name no signal are refused and perform nothing; every other request asks for its verb's operation on its arguments in order |
| Daemon.OtherLinesAskNothing | native/src/main.cpp:138-142 | a line that is no request is refused as malformed and performs nothing |
| Daemon.Server.HandleRequest | native/src/main.cpp:138-222 | reply and operation of every line; nothing is performed that was not asked for and allowed |
| Daemon.Server.ServeConnection | native/src/main.cpp:230-256 | the lines handled are exactly the stream's, up to the read that overflows; the buffer never exceeds the cap by more than one read |
| Daemon.Server.Drain | native/src/main.cpp:246-254 | all complete lines are answered in order and the unfinished tail remains |
| Daemon.Server.AcceptRead | native/src/main.cpp:235-254 | one read: refused exactly if it overflows, else no newline stays in the buffer |
| Framing.SafeIffEveryCuttingFits | native/src/main.cpp:239-244 | a stream is served whole under every cutting if and only if every place of it leaves room for a full read |
| Framing.ShortLinesAreSafe | native/src/protocol.hpp:37-37 | lines and tail up to the cap less one read are safe however cut |
| Framing.LongestServedLine | native/src/main.cpp:239-244 | a line is served under some cutting if and only if it is shorter than the cap |
| Cursors.CursorsNameTheirRow | src/hoursx/pagination.py:32-46 | a cursor decodes to its row if and only if the row has an id |
| Cursors.RepadInvertsStrip | src/hoursx/pagination.py:35-40 | stripping the padding loses nothing |
| Pagination.LastingRowsReturnedOnce | src/hoursx/pagination.py:72-105 | following the cursors while rows come and go returns each row present throughout exactly once |
| Pagination.WalksDescend | src/hoursx/pagination.py:86-94 | rows come strictly newest first, none twice |
| Pagination.ReturnedWereThere | src/hoursx/pagination.py:97-105 | nothing is returned that was in no table |
| PageWalks.OneAnswer | src/hoursx/pagination.py:86-105 | every table answers every fetch, and in one way only |
| PageWalks.WalksGoOn | src/hoursx/pagination.py:97-105 | a walk that has not ended goes on with one more page, whatever the table is by then |
| PageWalks.FixedTableIsListed | src/hoursx/pagination.py:97-105 | on a fixed table following the cursors always ends, always with the same pages: put together they are the sorted table, and there are max(1, ceil(n / limit)) of them |
| Pagination.ResolvePageSize | src/hoursx/pagination.py:63-69 | refused below one, the standard if none is requested, otherwise the lesser of request and maximum |
| Pagination.NewestFirst | src/hoursx/pagination.py:86-94 | rows that descend have descending creation times, and those created together descending ids, by their first difference |
| Chunking.SplitText | src/hoursx/knowledge.py:24-52 | the chunks of every text; a chunk size within the overlap is refused |
| Chunking.WindowsCover | src/hoursx/knowledge.py:38-51 | starts increase, no window is too long, none leaves a gap, neighbours share just the overlap, or nothing where the first is no longer than that |
| Chunking.WindowsRebuildTheText | src/hoursx/knowledge.py:34-51 | without what they share, the windows are the stripped text |
| Chunking.ChunksAreTidy | src/hoursx/knowledge.py:46-48 | no chunk is too long, blank or untrimmed |
| Chunking.CutsAreBest | src/hoursx/knowledge.py:41-45 | the first kind of boundary that occurs past the middle decides, with its last occurrence; without one the whole window is taken |
| Chunking.ShortTexts | src/hoursx/knowledge.py:49-51 | a text within one chunk is cut in two exactly when it is longer than a positive overlap |
| TelegramSplit.Split | src/hoursx/channels/telegram.py:140-155 | the pieces of every text, and the stand-in for an empty one |
| TelegramSplit.NextCut | src/hoursx/channels/telegram.py:150-152 | a message ends at the last line end within the limit if that is in the second half, and otherwise at the limit |
| TelegramSplit.PiecesAreFair | src/hoursx/channels/telegram.py:146-154 | pieces are within the limit and, with the newlines dropped after breaks, are the text; lines break inside only where no line end offers itself |
| TelegramSplit.OnlyNewlinesAreLost | src/hoursx/channels/telegram.py:146-154 | splitting loses nothing but newlines |
| Breaker.CircuitBreaker.AllowsCall | src/hoursx/resilience.py:95-110 | admits exactly what the history admits |
| Breaker.CircuitBreaker.RecordFailure | src/hoursx/resilience.py:117-130 | the fields keep summing up the history: not closed exactly if enough failures since the last success |
| Breaker.CircuitBreaker.RecordSuccess | src/hoursx/resilience.py:112-115 | a success closes the circuit |
| Breaker.LastOpening | src/hoursx/resilience.py:117-130 | there is an opening exactly while enough failures were recorded since the last success |
| Breaker.NobodyIsAdmittedDuringRecovery | src/hoursx/resilience.py:96-110 | from an opening no call is admitted for the recovery period, unless a success is recorded |
| Breaker.AdmittedOnceRecovered | src/hoursx/resilience.py:96-110 | everybody is admitted once the recovery period is over since every recorded failure, or while too few failures stand |
| Breaker.CallWithResilience | src/hoursx/resilience.py:144-182 | one to `attempts` tries, stopping at the first that is no passing failure, exactly one outcome recorded unless the call is cancelled, and then none, with whatever others record meanwhile before it, and the policy's delay slept between each two tries |
| Breaker.CancelledTrialStaysOnTrial | src/hoursx/resilience.py:104-125 | after a cancelled trial call everybody is admitted, and one failure opens the circuit anew |
| Breaker.DelayFor | src/hoursx/resilience.py:66-69 | a delay is between zero and the maximum |
| Breaker.DelaysDouble | src/hoursx/resilience.py:66-69 | the greatest delay is the base delay first, doubles from retry to retry up to the maximum, and the delay is the share of it that chance gives |
| Delegation.Activation.ExecuteRun | src/hoursx/agents.py:87-101 | the mutual recursion ends, nests at most two deep, makes no more turns than steps and calls per turn allow, and executes one run for every delegating call of its own turns |
| Delegation.Activation.Loop | src/hoursx/agents.py:137-197 | the run's own turns, none begun with the flag set and all but the last worked through, with one child run for every call that delegates, and an ending that the last turn, the flag, an exception or the step limit makes |
| Delegation.Activation.RunCalls | src/hoursx/agents.py:176-186 | stops exactly at a call that needs approval, having executed one run for each delegating call before it |
| Delegation.Activation.Delegate | src/hoursx/agents.py:259-296 | executes a run one deeper, unless the depth limit is reached or the agent unknown |

## Left out

- RunSafety.TurnsAreBounded: counts turns that start, and allows a further round per requeue, because the step count is not saved across a crash; a run's step limit, which the code reads from its profile at every claim, and the set of gated tools are taken not to change.
- RunStore.Store.RequeueOrphanedRuns: the owner of a run with a stale heartbeat is taken to be dead, as the module says of itself.
- RunStore.Store.SubmitMessage: planning and dispatching the job are not modelled, nor is a run that is committed but never enqueued; how many runs were started in the last hour is a parameter.
- RunStore.Store.Loop: an exception of an event or a step record between two commits counts as one of the turn or tool it belongs to; which of them raises is the world's choice.
- RunStore.Store.Continue: an exception of the approved tool ends the activation outside the guarded block, so the run waits for its heartbeat to go stale.
- Delegation.Activation.ExecuteRun: speaks of one activation; a resumed or requeued run starts at depth 0 again, so nesting across resumes is not bounded.
- Dispatch.AttemptsAreBounded: nothing is said of delivery itself; a dispatcher that dies on its last attempt leaves the reply pending for ever.
- Router.InboundIsIdempotent: a binding whose session was deleted is not modelled, and the digest of the key is taken to be injective.
- Guard.ChangeService.ApplyGuarded: the claims about the host are for sysctl changes; a service revert runs the inverse action and restores nothing in particular. Seconds are whole numbers.
- Guard.ChangeService.RevertExpiredChanges: a sweep whose session is rolled back is one that never records its reverts, as the machine allows at any time; that rows written but not committed block other writers is not modelled.
- Conditions.EvaluateConditions: numbers are reals, without the floating-point value that equals nothing, not even itself.
- Protocol.RepliesArriveUnchanged: the library decoder is any function that inverts the encoder; lossy decoding of payloads that are not UTF-8 is not modelled.
- Daemon.Server.ServeConnection: stopping on a signal is the end of the reads; the reply to an oversized request and system log entries are not kept.
- Cursors.CursorsNameTheirRow: texts that no encoder produced are left to the library decoder.
- Chunking.SplitText: overlaps are not negative, as the documentation has it; white space beyond the ASCII characters is not trimmed.
- Breaker.CircuitBreaker.AllowsCall: admits any number of trial calls once the recovery period is over, as the code does.
- HTTP, WebSocket and console code, provider adapters, channel adapters, authentication, scheduling, memory and retrieval ranking, policy tables and probes of the host: interfaces to the outside, or settled by reading one branch.
- Token totals, heartbeat intervals, titles, summaries and log texts: no other property rests on them.
