// What every reachable state of the run protocol satisfies, part by part. Each part names the tables it
// speaks about. The core holds of every deployment; the gate holds as long as no approval gets a second resume
// job.
module RunInvariant {
  import opened Options
  import opened RunTypes
  import opened Transcript
  import opened RunMachine

  type Runs = map<RunId, Run>
  type Workers = map<WorkerId, Worker>
  type Approvals = map<ApprovalId, Approval>
  type Resumes = map<JobId, Resume>
  type Operators = map<OperatorId, Intent>
  type Tallies = map<RunId, Tally>

  // How a run can stand while somebody owns it: the late failure of a publication can fail it under its owner's
  // hands, and an operator who found it waiting can cancel it there.
  predicate Ownable(c: Config, status: Status) {
    status.Running? || (c.publishMayFail && status.Failed?) || (c.cancellers > 0 && status.Cancelled?)
  }

  // Every running run has an owner, alive or dead, and no run has two.
  ghost predicate Owned(c: Config, runs: Runs, workers: Workers) {
    && (forall w :: w in workers ==> workers[w].run in runs)
    && (forall w, r :: OwnerOf(workers, w, r) ==> r in runs && Ownable(c, runs[r].status))
    && (forall v, w, r :: OwnerOf(workers, v, r) && OwnerOf(workers, w, r) ==> v == w)
    && (forall r :: r in runs && runs[r].status.Running? ==> exists w :: OwnerOf(workers, w, r))
  }

  // A conversation that stops before calls of its last assistant message.
  predicate CheckpointOk(checkpoint: Checkpoint) {
    checkpoint.pending != [] && Outstanding(checkpoint.messages) == Some(checkpoint.pending)
  }

  // A parked run has a checkpoint, which has a pending call, and so has at most one that was cancelled late; a
  // running one has a heartbeat.
  predicate RowOk(run: Run) {
    && (run.status.Running? ==> run.heartbeat.Some?)
    && (run.status.AwaitingApproval? ==> run.checkpoint.Some?)
    && (run.checkpoint.Some? ==> run.status.AwaitingApproval? || run.status.Cancelled?)
    && (run.checkpoint.Some? ==> CheckpointOk(run.checkpoint.value))
  }

  // What a resume job has read is a checkpoint.
  ghost predicate Reads(resumes: Resumes) {
    forall j :: j in resumes && resumes[j].read.Some? ==> CheckpointOk(resumes[j].read.value)
  }

  // Operators have found the runs that they are about to cancel, in a status that could be cancelled.
  ghost predicate Sightings(c: Config, runs: Runs, operators: Operators) {
    forall o :: o in operators && operators[o].ToCancel? ==>
      c.cancellers > 0 && operators[o].run in runs && !operators[o].seen.Terminal()
  }

  ghost predicate Rows(runs: Runs, tallies: Tallies) {
    && runs.Keys == tallies.Keys
    && forall r :: r in runs ==> RowOk(runs[r])
  }

  // An approval that can still let a parked run go on: undecided, or decided with its resume job in flight.
  predicate Ticket(approvals: Approvals, resumes: Resumes, a: ApprovalId) {
    a in approvals && (approvals[a].status.Pending? || First(a) in resumes)
  }

  function First(a: ApprovalId): JobId { JobId(a, 0) }

  // The ticket of a parked run is for the checkpoint's first pending call, and a resume job that
  // has read a checkpoint has read this one.
  ghost predicate TicketFits(run: Run, approval: Approval, job: Option<Resume>) {
    && (run.status.AwaitingApproval? || run.status.Terminal())
    && (run.status.AwaitingApproval? ==>
          && run.checkpoint.Some? && run.checkpoint.value.pending != []
          && approval.For(run.checkpoint.value.pending[0])
          && (job.Some? && job.value.read.Some? ==> job.value.read == run.checkpoint))
  }

  function JobOf(resumes: Resumes, a: ApprovalId): Option<Resume> {
    if First(a) in resumes then Some(resumes[First(a)]) else None
  }

  predicate JobFits(approvals: Approvals, j: JobId, job: Resume) {
    && j.approval in approvals && approvals[j.approval].run == job.run
    && approvals[j.approval].status == DecisionOf(job.approved)
  }

  // A queued or running run has no ticket, and no run has two. Every resume job is the first of its approval.
  ghost predicate Tickets(runs: Runs, approvals: Approvals, resumes: Resumes) {
    && (forall a :: a in approvals ==> approvals[a].run in runs)
    && (forall j :: j in resumes ==> j == First(j.approval) && JobFits(approvals, j, resumes[j]))
    && (forall a :: Ticket(approvals, resumes, a) ==>
          TicketFits(runs[approvals[a].run], approvals[a], JobOf(resumes, a)))
    && (forall a, b | Ticket(approvals, resumes, a) && Ticket(approvals, resumes, b) ::
          approvals[a].run == approvals[b].run ==> a == b)
  }

  // Nor has a run that somebody owns.
  ghost predicate OwnersHoldNoTicket(workers: Workers, approvals: Approvals, resumes: Resumes) {
    forall w, a :: w in workers && workers[w].pc.Owning() && Ticket(approvals, resumes, a) ==>
      approvals[a].run != workers[w].run
  }

  // The resume job of a parked run can be lost in a crash; short of that the run has its ticket.
  ghost predicate TicketsExist(runs: Runs, approvals: Approvals, resumes: Resumes, stranded: set<RunId>) {
    forall r :: r in runs && runs[r].status.AwaitingApproval? && r !in stranded ==>
      exists a :: Ticket(approvals, resumes, a) && approvals[a].run == r
  }

  predicate Spent(executions: seq<Execution>, a: ApprovalId) {
    exists i :: 0 <= i < |executions| && executions[i].approval == Some(a)
  }

  // The claim of a resumed run used its ticket up; the approval is unspent, and is for calls[0].
  ghost predicate DecisionFits(worker: Worker, approvals: Approvals, resumes: Resumes, executions: seq<Execution>) {
    worker.pc.Decided? ==>
      var a := worker.pc.approval;
      && a in approvals && !Ticket(approvals, resumes, a) && !Spent(executions, a)
      && approvals[a].run == worker.run
      && approvals[a].status == DecisionOf(worker.pc.approved)
      && worker.calls != [] && approvals[a].For(worker.calls[0])
  }

  ghost predicate Decisions(workers: Workers, approvals: Approvals, resumes: Resumes, executions: seq<Execution>) {
    forall w :: w in workers ==> DecisionFits(workers[w], approvals, resumes, executions)
  }

  // A gated tool ran only for a call whose own approval was granted.
  ghost predicate ExecutionFits(gated: set<string>, approvals: Approvals, resumes: Resumes, e: Execution) {
    && (e.call.name in gated ==> e.approval.Some?)
    && (e.approval.Some? ==>
          var a := e.approval.value;
          && a in approvals && !Ticket(approvals, resumes, a) && approvals[a].status.Approved?
          && approvals[a].run == e.run && approvals[a].For(e.call))
  }

  ghost predicate Executions(gated: set<string>, approvals: Approvals, resumes: Resumes, executions: seq<Execution>) {
    && (forall i :: 0 <= i < |executions| ==> ExecutionFits(gated, approvals, resumes, executions[i]))
    && (forall i, j :: 0 <= i < j < |executions| && executions[i].approval.Some? ==>
          executions[i].approval != executions[j].approval)
  }

  // The calls that a worker still has to answer are the ones its conversation leaves outstanding.
  ghost predicate ConversationFits(worker: Worker) {
    && (worker.pc.Owning() ==> Outstanding(worker.transcript) == Some(worker.calls))
    && (worker.pc.InTool? ==> worker.calls != [])
    && (worker.pc.Cleared? || worker.pc.InTurn? ==> worker.calls == [])
  }

  ghost predicate Conversations(workers: Workers) {
    forall w :: w in workers ==> ConversationFits(workers[w])
  }

  ghost predicate WorkerSteps(max: nat, t: Tally, w: Worker) {
    && w.steps <= max
    && (w.pc.Cleared? ==> w.steps < max)
    && (!w.pc.Dead? && !w.pc.Broken? && w.pc.Owning() ==>
          var inTurn := if w.pc.InTurn? then 1 else 0;
          w.steps + inTurn <= max && t.turns <= t.forgiven + w.steps + inTurn)
  }

  ghost predicate RowSteps(max: nat, t: Tally, run: Run) {
    && t.turns <= t.forgiven + max
    && run.stepCount <= max
    && (run.status.Queued? || run.status.AwaitingApproval? ==> t.turns <= t.forgiven + run.stepCount)
  }

  ghost predicate Steps(c: Config, runs: Runs, workers: Workers, tallies: Tallies) {
    && (forall w :: w in workers && workers[w].run in tallies ==>
          WorkerSteps(c.maxSteps(workers[w].run), tallies[workers[w].run], workers[w]))
    && (forall r :: r in runs && r in tallies ==> RowSteps(c.maxSteps(r), tallies[r], runs[r]))
  }

  // Every requeue forgives the most turns an activation can make.
  predicate ForgivenOk(max: nat, t: Tally) { t.forgiven == t.requeues * max }

  ghost predicate Forgiveness(c: Config, tallies: Tallies) {
    forall r :: r in tallies ==> ForgivenOk(c.maxSteps(r), tallies[r])
  }

  // After cancellation was requested, only a turn whose check had already passed can still start.
  ghost predicate Cancellation(runs: Runs, workers: Workers, tallies: Tallies) {
    && (forall r :: r in runs && r in tallies ==>
          tallies[r].lateTurns <= if runs[r].cancelRequested then 1 else 0)
    && (forall w :: w in workers && workers[w].pc.Cleared? && workers[w].run in tallies ==>
          tallies[workers[w].run].lateTurns == 0)
  }

  // What the rows, tallies and workers say together about steps and cancellation.
  ghost predicate Accounts(c: Config, runs: Runs, workers: Workers, tallies: Tallies) {
    && Rows(runs, tallies) && Forgiveness(c, tallies)
    && Steps(c, runs, workers, tallies) && Cancellation(runs, workers, tallies)
  }

  // Ownership, conversations, steps and cancellation.
  ghost predicate Core(c: Config, s: State) {
    && Owned(c, s.runs, s.workers)
    && Reads(s.resumes) && Conversations(s.workers) && Sightings(c, s.runs, s.operators)
    && Accounts(c, s.runs, s.workers, s.tallies)
  }

  predicate Decides(operators: Operators, o: OperatorId, a: ApprovalId) {
    o in operators && operators[o].ToDecide? && operators[o].approval == a
  }

  // An approval that somebody is about to decide is undecided, and nobody else is about to decide it.
  ghost predicate Deciders(approvals: Approvals, operators: Operators) {
    && (forall o, a :: Decides(operators, o, a) ==> a in approvals && approvals[a].status.Pending?)
    && (forall o, p, a :: Decides(operators, o, a) && Decides(operators, p, a) ==> o == p)
  }

  // No approval gets a second resume job: operators decide it one after the other, and jobs are not repeated.
  predicate OneJobEach(c: Config) { c.deciders <= 1 && !c.jobsMayRepeat }

  // Approvals, the tickets they give, and what was executed on their strength.
  ghost predicate Gate(c: Config, s: State) {
    && Tickets(s.runs, s.approvals, s.resumes)
    && OwnersHoldNoTicket(s.workers, s.approvals, s.resumes)
    && TicketsExist(s.runs, s.approvals, s.resumes, s.strandedRuns)
    && Deciders(s.approvals, s.operators)
    && Decisions(s.workers, s.approvals, s.resumes, s.executions)
    && Executions(c.gated, s.approvals, s.resumes, s.executions)
  }

  ghost predicate Inv(c: Config, s: State) {
    Core(c, s) && (OneJobEach(c) ==> Gate(c, s))
  }
}
