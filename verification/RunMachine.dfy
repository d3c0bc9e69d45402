// The run protocol as a state machine. One action is one database transaction, or one moment at
// which a process starts, ends or dies; between actions any other process may act. The actions
// are those of the agent runtime, the conductor, the quota check and orphan recovery.
module RunMachine {
  import opened Options
  import opened RunTypes
  import opened Transcript

  // Where an activation of the runtime stands. All but Announcing own their run.
  datatype Pc =
    | Decided(approval: ApprovalId, approved: bool) // resumed; calls[0] is the gated call
    | Draining                                      // working off calls; the loop head once none is left
    | InTool(via: Option<ApprovalId>)               // calls[0] is executing
    | Cleared                                       // the cancellation flag was read as unset
    | InTurn                                        // the model is being called
    | Answered(answer: string)                      // a turn without calls: about to succeed
    | Cancelling                                    // the cancellation flag was read as set
    | Broken                                        // an exception was caught: about to fail
    | Announcing(guarded: bool)                     // outcome or pause committed, not yet published; whether
                                                    // an exception here would still be caught
    | Dead                                          // the process died while it owned the run
  {
    predicate Owning() { !Announcing? }
  }

  datatype Worker = Worker(
    run: RunId, pc: Pc, transcript: seq<Message>, calls: seq<ToolCall>, steps: nat)

  // An operator who has read a row and not yet written it: an approval found undecided, or a run found in that
  // status.
  datatype Intent = ToDecide(approval: ApprovalId, approved: bool) | ToCancel(run: RunId, seen: Status)

  // A resume job; `read` is the checkpoint that its first transaction saw.
  datatype Resume = Resume(run: RunId, approved: bool, read: Option<Checkpoint>)

  // One tool execution, and the approval that let it through.
  datatype Execution = Execution(run: RunId, call: ToolCall, approval: Option<ApprovalId>)

  // What an observer counts for a run; no column of the database holds it. Late turns are those that
  // start after cancellation was requested; a requeue forgives the turns of the activation it replaces.
  datatype Tally = Tally(turns: nat, lateTurns: nat, requeues: nat, forgiven: nat)

  // The jobs that wait or have read their checkpoint are in `resumes`, all that were ever made in `issued`.
  datatype State = State(
    now: nat,
    runs: map<RunId, Run>,
    approvals: map<ApprovalId, Approval>,
    resumes: map<JobId, Resume>,
    issued: set<JobId>,
    operators: map<OperatorId, Intent>,
    workers: map<WorkerId, Worker>,
    submissions: map<SubmissionId, WorkspaceId>,
    executions: seq<Execution>,
    tallies: map<RunId, Tally>,
    strandedRuns: set<RunId>)

  // A submission: quota check, then the insert of the run, in two transactions.
  datatype SubmissionStep =
    | CheckQuota(workspace: WorkspaceId)
    | InsertRun(run: RunId)
    | Abandon

  // The owner of a run between tool calls.
  datatype TurnStep =
    | CheckCancel
    | StartTurn
    | EndTurn(content: string, calls: seq<ToolCall>)
    | Break
    | Beat

  // The owner of a run working off its calls.
  datatype ToolStep =
    | StartTool
    | RefuseTool(text: string)
    | EndTool(text: string)
    | Deny(text: string)
    | InsertChild(run: RunId)

  // How an activation gets and loses its run.
  datatype OwnershipStep =
    | Claim(run: RunId, transcript: seq<Message>)
    | Park(approval: ApprovalId)
    | Finish
    | Announce
    | AnnounceFails
    | Die

  // What others do to a run.
  datatype RunStep =
    | ClaimOrphaned
    | Requeue(dead: WorkerId)

  // Operators decide approvals and cancel runs. They read the row and later write it whatever it is by then;
  // nothing but their own reading guards the write.
  datatype OperatorStep =
    | ReadApproval(approval: ApprovalId, approved: bool)
    | WriteDecision(copy: nat)
    | ReadRun(run: RunId)
    | WriteCancel
    | Withdraw

  // The resume job that a decision starts.
  datatype JobStep =
    | ReadCheckpoint
    | ClaimResumed(w: WorkerId)
    | ClaimResumedOrphaned
    | LoseResume
    | RepeatJob(copy: nat)

  datatype Action =
    | Tick
    | Submission(u: SubmissionId, submission: SubmissionStep)
    | Turn(w: WorkerId, turn: TurnStep)
    | Tool(w: WorkerId, tool: ToolStep)
    | Ownership(w: WorkerId, ownership: OwnershipStep)
    | OnRun(run: RunId, step: RunStep)
    | Operator(o: OperatorId, intent: OperatorStep)
    | OnJob(job: JobId, errand: JobStep)

  const INIT := State(0, map[], map[], map[], {}, map[], map[], map[], [], map[], {})

  // ------------------------------------------------------------ rows

  function NewRun(workspace: WorkspaceId, parent: Option<RunId>): Run {
    Run(workspace, parent, Queued, None, 0, false, None)
  }

  function ClaimedRow(run: Run, now: nat): Run {
    run.(status := Running, checkpoint := None, heartbeat := Some(now))
  }

  function ParkedRow(run: Run, steps: nat, checkpoint: Checkpoint): Run {
    run.(status := AwaitingApproval, stepCount := steps, checkpoint := Some(checkpoint))
  }

  function FinishedRow(run: Run, outcome: Status, steps: nat): Run {
    run.(status := outcome, checkpoint := None, stepCount := steps, heartbeat := None)
  }

  // Only the columns that differ from the row as it was read are written.
  function CancelledRow(run: Run, seen: Status): Run {
    var flagged := run.(cancelRequested := true);
    match seen
    case Queued => flagged.(status := Cancelled)
    case AwaitingApproval => flagged.(status := Cancelled, checkpoint := None)
    case _ => flagged
  }

  function RequeuedRow(run: Run): Run {
    run.(status := Queued, heartbeat := None)
  }

  // ------------------------------------------------------------ reading a state

  predicate OwnerOf(workers: map<WorkerId, Worker>, w: WorkerId, r: RunId) {
    w in workers && workers[w].run == r && workers[w].pc.Owning()
  }

  // Inside the part of the runtime whose exceptions are caught and recorded as a failure.
  predicate InLoop(pc: Pc) {
    pc.Draining? || pc == InTool(None) || pc.Cleared? || pc.InTurn? || pc.Answered? || pc.Cancelling?
  }

  predicate Stale(c: Config, s: State, r: RunId)
    requires r in s.runs
  {
    s.runs[r].heartbeat.Some? && s.runs[r].heartbeat.value + c.staleAfter < s.now
  }

  // How many active runs a workspace has, as the quota check counts them.
  function ActiveIn(runs: map<RunId, Run>, workspace: WorkspaceId): set<RunId> {
    set r | r in runs && runs[r].workspace == workspace && runs[r].status.Active()
  }

  function ActiveTopLevel(runs: map<RunId, Run>, workspace: WorkspaceId): set<RunId> {
    set r | r in runs && runs[r].workspace == workspace && runs[r].status.Active() && runs[r].parent.None?
  }

  function InWindow(submissions: map<SubmissionId, WorkspaceId>, workspace: WorkspaceId): set<SubmissionId> {
    set u | u in submissions && submissions[u] == workspace
  }

  // The operators who are deciding this approval, and those who are cancelling this run.
  function DecidersOf(operators: map<OperatorId, Intent>, a: ApprovalId): set<OperatorId> {
    set o | o in operators && operators[o].ToDecide? && operators[o].approval == a
  }

  function CancellersOf(operators: map<OperatorId, Intent>, r: RunId): set<OperatorId> {
    set o | o in operators && operators[o].ToCancel? && operators[o].run == r
  }

  // The outcome that the runtime is about to record, if it is about to record one.
  function PendingOutcome(c: Config, w: Worker): Option<Status> {
    match w.pc
    case Answered(_) => Some(Succeeded)
    case Cancelling => Some(Cancelled)
    case Broken => Some(Failed)
    case Draining => if w.calls == [] && w.steps >= c.maxSteps(w.run) then Some(Failed) else None
    case _ => None
  }

  // ------------------------------------------------------------ when an action may happen

  predicate SubmissionEnabled(c: Config, s: State, u: SubmissionId, step: SubmissionStep) {
    match step
    case CheckQuota(workspace) =>
      && u !in s.submissions
      && |InWindow(s.submissions, workspace)| < c.window
      && (c.limit > 0 ==> |ActiveIn(s.runs, workspace)| < c.limit)
    case InsertRun(run) => u in s.submissions && run !in s.runs && run !in s.tallies
    case Abandon => u in s.submissions
  }

  predicate TurnEnabled(c: Config, s: State, w: WorkerId, step: TurnStep) {
    && w in s.workers && s.workers[w].run in s.runs && s.workers[w].run in s.tallies
    && match step
       case CheckCancel =>
         s.workers[w].pc.Draining? && s.workers[w].calls == [] && s.workers[w].steps < c.maxSteps(s.workers[w].run)
       case StartTurn => s.workers[w].pc.Cleared?
       case EndTurn(_, _) => s.workers[w].pc.InTurn?
       case Break => InLoop(s.workers[w].pc)
       case Beat => InLoop(s.workers[w].pc)
  }

  predicate ToolEnabled(c: Config, s: State, w: WorkerId, step: ToolStep) {
    && w in s.workers && s.workers[w].run in s.runs && s.workers[w].calls != []
    && var pc := s.workers[w].pc;
    && match step
       case StartTool =>
         (pc.Draining? && s.workers[w].calls[0].name !in c.gated) || (pc.Decided? && pc.approved)
       case RefuseTool(_) => pc.Draining? || (pc.Decided? && pc.approved)
       case EndTool(_) => pc.InTool?
       case Deny(_) => pc.Decided? && !pc.approved
       case InsertChild(run) => pc.InTool? && run !in s.runs && run !in s.tallies
  }

  predicate OwnershipEnabled(c: Config, s: State, w: WorkerId, step: OwnershipStep) {
    match step
    case Claim(run, transcript) =>
      w !in s.workers && run in s.runs && s.runs[run].status.Queued? && CarriesNoCalls(transcript)
    case Park(approval) =>
      && w in s.workers && s.workers[w].run in s.runs
      && s.workers[w].pc.Draining? && s.workers[w].calls != [] && s.workers[w].calls[0].name in c.gated
      && approval !in s.approvals
    case Finish => w in s.workers && s.workers[w].run in s.runs && PendingOutcome(c, s.workers[w]).Some?
    case Announce => w in s.workers && s.workers[w].pc.Announcing?
    case AnnounceFails =>
      && c.publishMayFail
      && w in s.workers && s.workers[w].run in s.runs && s.workers[w].pc.Announcing? && s.workers[w].pc.guarded
    case Die => w in s.workers
  }

  predicate RunEnabled(c: Config, s: State, run: RunId, step: RunStep) {
    && run in s.runs
    && match step
       case ClaimOrphaned => s.runs[run].status.Queued?
       case Requeue(dead) =>
         && s.runs[run].status.Running? && run in s.tallies && Stale(c, s, run)
         && OwnerOf(s.workers, dead, run)
         // Assumption A: a heartbeat goes stale only once the owner is dead.
         && (forall w | w in s.workers :: OwnerOf(s.workers, w, run) ==> s.workers[w].pc.Dead?)
  }

  predicate OperatorEnabled(c: Config, s: State, o: OperatorId, step: OperatorStep) {
    match step
    case ReadApproval(a, _) =>
      && o !in s.operators && a in s.approvals && s.approvals[a].status.Pending?
      && |DecidersOf(s.operators, a)| < c.deciders
    case WriteDecision(copy) =>
      && o in s.operators && s.operators[o].ToDecide? && s.operators[o].approval in s.approvals
      && (s.approvals[s.operators[o].approval].status.Pending? <==> copy == 0)
      && JobId(s.operators[o].approval, copy) !in s.issued
    case ReadRun(r) =>
      && o !in s.operators && r in s.runs && !s.runs[r].status.Terminal()
      && |CancellersOf(s.operators, r)| < c.cancellers
    case WriteCancel => o in s.operators && s.operators[o].ToCancel? && s.operators[o].run in s.runs
    case Withdraw => o in s.operators
  }

  predicate JobEnabled(c: Config, s: State, j: JobId, step: JobStep) {
    && j in s.resumes && s.resumes[j].run in s.runs
    && match step
       case ReadCheckpoint => s.resumes[j].read.None?
       case ClaimResumed(w) => s.resumes[j].read.Some? && w !in s.workers
       case ClaimResumedOrphaned => s.resumes[j].read.Some?
       case LoseResume => true
       case RepeatJob(copy) => c.jobsMayRepeat && copy > 0 && JobId(j.approval, copy) !in s.issued
  }

  predicate Enabled(c: Config, s: State, a: Action) {
    match a
    case Tick => true
    case Submission(u, step) => SubmissionEnabled(c, s, u, step)
    case Turn(w, step) => TurnEnabled(c, s, w, step)
    case Tool(w, step) => ToolEnabled(c, s, w, step)
    case Ownership(w, step) => OwnershipEnabled(c, s, w, step)
    case OnRun(run, step) => RunEnabled(c, s, run, step)
    case Operator(o, step) => OperatorEnabled(c, s, o, step)
    case OnJob(j, step) => JobEnabled(c, s, j, step)
  }

  // ------------------------------------------------------------ what an action does

  function SetWorker(s: State, w: WorkerId, worker: Worker): State {
    s.(workers := s.workers[w := worker])
  }

  function SetRun(s: State, r: RunId, run: Run): State {
    s.(runs := s.runs[r := run])
  }

  // A resumed activation; one that finds no pending call returns at once, leaving its run without an owner.
  function ResumedWorker(job: Resume, checkpoint: Checkpoint, approval: ApprovalId, steps: nat): Worker {
    var pc := if checkpoint.pending == [] then Dead else Decided(approval, job.approved);
    Worker(job.run, pc, checkpoint.messages, checkpoint.pending, steps)
  }

  function Answer(worker: Worker, text: string): Worker
    requires worker.calls != []
  {
    worker.(pc := Draining,
            transcript := worker.transcript + [ToolResult(worker.calls[0].id, text)],
            calls := worker.calls[1..])
  }

  function Insert(s: State, run: RunId, row: Run): State {
    s.(runs := s.runs[run := row], tallies := s.tallies[run := Tally(0, 0, 0, 0)])
  }

  function SubmissionApply(c: Config, s: State, u: SubmissionId, step: SubmissionStep): State
    requires SubmissionEnabled(c, s, u, step)
  {
    match step
    case CheckQuota(workspace) => s.(submissions := s.submissions[u := workspace])
    case InsertRun(run) =>
      Insert(s, run, NewRun(s.submissions[u], None)).(submissions := s.submissions - {u})
    case Abandon => s.(submissions := s.submissions - {u})
  }

  function TurnApply(c: Config, s: State, w: WorkerId, step: TurnStep): State
    requires TurnEnabled(c, s, w, step)
  {
    var worker := s.workers[w];
    match step
    case CheckCancel =>
      SetWorker(s, w, worker.(pc := if s.runs[worker.run].cancelRequested then Cancelling else Cleared))
    case StartTurn =>
      var t := s.tallies[worker.run];
      var late := if s.runs[worker.run].cancelRequested then 1 else 0;
      s.(workers := s.workers[w := worker.(pc := InTurn)],
         tallies := s.tallies[worker.run := t.(turns := t.turns + 1, lateTurns := t.lateTurns + late)])
    case EndTurn(content, calls) =>
      SetWorker(s, w, worker.(
        pc := if calls == [] then Answered(content) else Draining,
        transcript := worker.transcript + [Assistant(content, calls)],
        calls := calls,
        steps := worker.steps + 1))
    case Break => SetWorker(s, w, worker.(pc := Broken))
    case Beat => SetRun(s, worker.run, s.runs[worker.run].(heartbeat := Some(s.now)))
  }

  function ToolApply(c: Config, s: State, w: WorkerId, step: ToolStep): State
    requires ToolEnabled(c, s, w, step)
  {
    var worker := s.workers[w];
    match step
    case StartTool =>
      var via := if worker.pc.Decided? then Some(worker.pc.approval) else None;
      s.(workers := s.workers[w := worker.(pc := InTool(via))],
         executions := s.executions + [Execution(worker.run, worker.calls[0], via)])
    case RefuseTool(text) => SetWorker(s, w, Answer(worker, text))
    case EndTool(text) => SetWorker(s, w, Answer(worker, text))
    case Deny(text) => SetWorker(s, w, Answer(worker, text))
    case InsertChild(run) =>
      Insert(s, run, NewRun(s.runs[worker.run].workspace, Some(worker.run)))
  }

  function OwnershipApply(c: Config, s: State, w: WorkerId, step: OwnershipStep): State
    requires OwnershipEnabled(c, s, w, step)
  {
    match step
    case Claim(run, transcript) =>
      s.(runs := s.runs[run := ClaimedRow(s.runs[run], s.now)],
         workers := s.workers[w := Worker(run, Draining, transcript, [], s.runs[run].stepCount)])
    case Park(approval) =>
      var worker := s.workers[w];
      var call := worker.calls[0];
      var checkpoint := Checkpoint(worker.transcript, worker.calls);
      s.(runs := s.runs[worker.run := ParkedRow(s.runs[worker.run], worker.steps, checkpoint)],
         workers := s.workers[w := worker.(pc := Announcing(true))],
         approvals := s.approvals[approval := Approval(worker.run, call.name, call.arguments, Pending)],
         strandedRuns := s.strandedRuns - {worker.run})
    case Finish =>
      var worker := s.workers[w];
      var outcome := PendingOutcome(c, worker).value;
      s.(runs := s.runs[worker.run := FinishedRow(s.runs[worker.run], outcome, worker.steps)],
         workers := s.workers[w := worker.(pc := Announcing(!worker.pc.Broken?))])
    case Announce => s.(workers := s.workers - {w})
    case AnnounceFails =>
      var worker := s.workers[w];
      s.(runs := s.runs[worker.run := FinishedRow(s.runs[worker.run], Failed, worker.steps)],
         workers := s.workers - {w})
    case Die =>
      if s.workers[w].pc.Owning() then SetWorker(s, w, s.workers[w].(pc := Dead))
      else s.(workers := s.workers - {w})
  }

  function Requeued(c: Config, s: State, run: RunId, dead: WorkerId): State
    requires run in s.runs && run in s.tallies
  {
    var t := s.tallies[run];
    s.(runs := s.runs[run := RequeuedRow(s.runs[run])],
       workers := s.workers - {dead},
       tallies := s.tallies[run := t.(requeues := t.requeues + 1, forgiven := t.forgiven + c.maxSteps(run))])
  }

  function RunApply(c: Config, s: State, run: RunId, step: RunStep): State
    requires RunEnabled(c, s, run, step)
  {
    match step
    case ClaimOrphaned => SetRun(s, run, ClaimedRow(s.runs[run], s.now).(status := Failed))
    case Requeue(dead) => Requeued(c, s, run, dead)
  }

  function OperatorApply(c: Config, s: State, o: OperatorId, step: OperatorStep): State
    requires OperatorEnabled(c, s, o, step)
  {
    match step
    case ReadApproval(a, approved) => s.(operators := s.operators[o := ToDecide(a, approved)])
    case WriteDecision(copy) =>
      var ToDecide(a, approved) := s.operators[o];
      var row := s.approvals[a];
      s.(approvals := s.approvals[a := row.(status := DecisionOf(approved))],
         resumes := s.resumes[JobId(a, copy) := Resume(row.run, approved, None)],
         issued := s.issued + {JobId(a, copy)},
         operators := s.operators - {o})
    case ReadRun(r) => s.(operators := s.operators[o := ToCancel(r, s.runs[r].status)])
    case WriteCancel =>
      var ToCancel(r, seen) := s.operators[o];
      s.(runs := s.runs[r := CancelledRow(s.runs[r], seen)], operators := s.operators - {o})
    case Withdraw => s.(operators := s.operators - {o})
  }

  function DropJob(s: State, j: JobId): State {
    s.(resumes := s.resumes - {j})
  }

  function JobApply(c: Config, s: State, j: JobId, step: JobStep): State
    requires JobEnabled(c, s, j, step)
  {
    var job := s.resumes[j];
    var run := s.runs[job.run];
    match step
    case ReadCheckpoint =>
      if run.status.AwaitingApproval? && run.checkpoint.Some?
      then s.(resumes := s.resumes[j := job.(read := run.checkpoint)])
      else DropJob(s, j)
    case ClaimResumed(w) =>
      if run.status.AwaitingApproval?
      then s.(resumes := s.resumes - {j},
              runs := s.runs[job.run := ClaimedRow(run, s.now)],
              workers := s.workers[w := ResumedWorker(job, job.read.value, j.approval, run.stepCount)])
      else DropJob(s, j)
    case ClaimResumedOrphaned =>
      if run.status.AwaitingApproval?
      then s.(resumes := s.resumes - {j}, runs := s.runs[job.run := ClaimedRow(run, s.now).(status := Failed)])
      else DropJob(s, j)
    case LoseResume =>
      s.(resumes := s.resumes - {j},
         strandedRuns := if run.status.AwaitingApproval? then s.strandedRuns + {job.run} else s.strandedRuns)
    case RepeatJob(copy) =>
      var copied := JobId(j.approval, copy);
      s.(resumes := s.resumes[copied := job.(read := None)], issued := s.issued + {copied})
  }

  function Apply(c: Config, s: State, a: Action): State
    requires Enabled(c, s, a)
  {
    match a
    case Tick => s.(now := s.now + 1)
    case Submission(u, step) => SubmissionApply(c, s, u, step)
    case Turn(w, step) => TurnApply(c, s, w, step)
    case Tool(w, step) => ToolApply(c, s, w, step)
    case Ownership(w, step) => OwnershipApply(c, s, w, step)
    case OnRun(run, step) => RunApply(c, s, run, step)
    case Operator(o, step) => OperatorApply(c, s, o, step)
    case OnJob(j, step) => JobApply(c, s, j, step)
  }

  // ------------------------------------------------------------ runs of the machine

  ghost predicate Legal(c: Config, s: State, actions: seq<Action>)
    decreases |actions|
  {
    actions == [] ||
    (Enabled(c, s, actions[0]) && Legal(c, Apply(c, s, actions[0]), actions[1..]))
  }

  ghost function Execute(c: Config, s: State, actions: seq<Action>): State
    requires Legal(c, s, actions)
    decreases |actions|
  {
    if actions == [] then s else Execute(c, Apply(c, s, actions[0]), actions[1..])
  }

  lemma {:induction false} ExecuteAppend(c: Config, s: State, actions: seq<Action>, a: Action)
    requires Legal(c, s, actions) && Enabled(c, Execute(c, s, actions), a)
    ensures Legal(c, s, actions + [a])
    ensures Execute(c, s, actions + [a]) == Apply(c, Execute(c, s, actions), a)
    decreases |actions|
  {
    if actions != [] {
      ExecuteAppend(c, Apply(c, s, actions[0]), actions[1..], a);
      assert (actions + [a])[1..] == actions[1..] + [a];
    }
  }
}
