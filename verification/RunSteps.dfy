// Every action of the run protocol keeps the core of the invariant: ownership, conversations, steps and
// cancellation, whether or not publishing can raise and jobs are repeated.
module RunSteps {
  import opened Options
  import opened RunTypes
  import opened Transcript
  import opened RunMachine
  import opened RunInvariant
  import opened RunPreserve

  // ------------------------------------------------------------ new runs

  lemma InsertKept(c: Config, s: State, r: RunId, row: Run)
    requires Core(c, s)
    requires r !in s.runs && row.status.Queued? && row.checkpoint.None? && row.stepCount == 0
    ensures Core(c, Insert(s, r, row))
  {
    OwnershipRow(c, s.runs, s.workers, r, row);
    AccountsInsert(c, s.runs, s.workers, s.tallies, r, row);
  }

  lemma SubmissionKept(c: Config, s: State, u: SubmissionId, step: SubmissionStep)
    requires Core(c, s) && SubmissionEnabled(c, s, u, step)
    ensures Core(c, SubmissionApply(c, s, u, step))
  {
    if step.InsertRun? {
      InsertKept(c, s, step.run, NewRun(s.submissions[u], None));
    }
  }

  // ------------------------------------------------------------ the owner's own steps

  // A step of the owner of a run that leaves the run's row as it is, heartbeat aside.
  lemma OwnStepKept(c: Config, s: State, s': State, w: WorkerId, worker: Worker, row: Run, tally: Tally)
    requires Core(c, s)
    requires w in s.workers && s.workers[w].pc.Owning() && worker.pc.Owning() && worker.run == s.workers[w].run
    requires worker.run in s.runs && row == s.runs[worker.run].(heartbeat := row.heartbeat)
    requires RowOk(row) && ConversationFits(worker)
    requires s'.runs == s.runs[worker.run := row] && s'.tallies == s.tallies[worker.run := tally]
    requires s'.workers == s.workers[w := worker] && s'.resumes == s.resumes && s'.operators == s.operators
    requires WorkerSteps(c.maxSteps(worker.run), tally, worker) && RowSteps(c.maxSteps(worker.run), tally, row)
    requires ForgivenOk(c.maxSteps(worker.run), tally)
    requires tally.lateTurns <= if row.cancelRequested then 1 else 0
    requires worker.pc.Cleared? ==> tally.lateTurns == 0
    ensures Core(c, s')
  {
    OwnershipWorker(c, s.runs, s.workers, w, worker);
    OwnershipRow(c, s.runs, s'.workers, worker.run, row);
    AccountsOwn(c, s.runs, s.workers, s.tallies, w, worker, row, tally);
  }

  // What the core says about one owner.
  lemma OwnerFacts(c: Config, s: State, w: WorkerId)
    requires Core(c, s)
    requires w in s.workers && s.workers[w].pc.Owning()
    ensures
      var r := s.workers[w].run;
      && r in s.runs && r in s.tallies && RowOk(s.runs[r])
      && Ownable(c, s.runs[r].status)
      && s.runs == s.runs[r := s.runs[r]] && s.tallies == s.tallies[r := s.tallies[r]]
      && ConversationFits(s.workers[w])
      && WorkerSteps(c.maxSteps(r), s.tallies[r], s.workers[w])
      && RowSteps(c.maxSteps(r), s.tallies[r], s.runs[r])
      && ForgivenOk(c.maxSteps(r), s.tallies[r])
      && s.tallies[r].lateTurns <= (if s.runs[r].cancelRequested then 1 else 0)
      && (s.workers[w].pc.Cleared? ==> s.tallies[r].lateTurns == 0)
  {
    assert OwnerOf(s.workers, w, s.workers[w].run);
  }

  lemma WorkerKept(c: Config, s: State, s': State, w: WorkerId, worker: Worker)
    requires Core(c, s)
    requires w in s.workers && s.workers[w].pc.Owning() && worker.pc.Owning() && worker.run == s.workers[w].run
    requires s'.workers == s.workers[w := worker] && s'.runs == s.runs && s'.tallies == s.tallies
    requires s'.resumes == s.resumes && s'.operators == s.operators && ConversationFits(worker)
    requires worker.run in s.tallies ==> WorkerSteps(c.maxSteps(worker.run), s.tallies[worker.run], worker)
    requires worker.run in s.tallies && worker.pc.Cleared? ==> s.tallies[worker.run].lateTurns == 0
    ensures Core(c, s')
  {
    OwnerFacts(c, s, w);
    OwnStepKept(c, s, s', w, worker, s.runs[worker.run], s.tallies[worker.run]);
  }

  lemma StartTurnKept(c: Config, s: State, w: WorkerId)
    requires Core(c, s) && TurnEnabled(c, s, w, StartTurn)
    ensures Core(c, TurnApply(c, s, w, StartTurn))
  {
    OwnerFacts(c, s, w);
    var s' := TurnApply(c, s, w, StartTurn);
    var worker := s'.workers[w];
    OwnStepKept(c, s, s', w, worker, s.runs[worker.run], s'.tallies[worker.run]);
  }

  lemma EndTurnKept(c: Config, s: State, w: WorkerId, content: string, calls: seq<ToolCall>)
    requires Core(c, s) && TurnEnabled(c, s, w, EndTurn(content, calls))
    ensures Core(c, TurnApply(c, s, w, EndTurn(content, calls)))
  {
    OwnerFacts(c, s, w);
    var s' := TurnApply(c, s, w, EndTurn(content, calls));
    TurnFits(s.workers[w], content, calls, s'.workers[w]);
    WorkerKept(c, s, s', w, s'.workers[w]);
  }

  lemma StopKept(c: Config, s: State, w: WorkerId, pc: Pc)
    requires Core(c, s)
    requires w in s.workers && s.workers[w].pc.Owning() && (pc.Broken? || pc.Dead?)
    ensures Core(c, SetWorker(s, w, s.workers[w].(pc := pc)))
  {
    OwnerFacts(c, s, w);
    var s' := SetWorker(s, w, s.workers[w].(pc := pc));
    WorkerKept(c, s, s', w, s'.workers[w]);
  }

  lemma BeatKept(c: Config, s: State, w: WorkerId)
    requires Core(c, s) && TurnEnabled(c, s, w, Beat)
    ensures Core(c, TurnApply(c, s, w, Beat))
  {
    OwnerFacts(c, s, w);
    var s' := TurnApply(c, s, w, Beat);
    var r := s.workers[w].run;
    assert s.workers == s.workers[w := s.workers[w]];
    OwnStepKept(c, s, s', w, s.workers[w], s'.runs[r], s.tallies[r]);
  }

  lemma TurnKept(c: Config, s: State, w: WorkerId, step: TurnStep)
    requires Core(c, s) && TurnEnabled(c, s, w, step)
    ensures Core(c, TurnApply(c, s, w, step))
  {
    match step
    case CheckCancel =>
      OwnerFacts(c, s, w);
      var s' := TurnApply(c, s, w, step);
      WorkerKept(c, s, s', w, s'.workers[w]);
    case StartTurn => StartTurnKept(c, s, w);
    case EndTurn(content, calls) => EndTurnKept(c, s, w, content, calls);
    case Break => StopKept(c, s, w, Broken);
    case Beat => BeatKept(c, s, w);
  }

  lemma StartToolKept(c: Config, s: State, w: WorkerId)
    requires Core(c, s) && ToolEnabled(c, s, w, StartTool)
    ensures Core(c, ToolApply(c, s, w, StartTool))
  {
    OwnerFacts(c, s, w);
    var s' := ToolApply(c, s, w, StartTool);
    WorkerKept(c, s, s', w, s'.workers[w]);
  }

  // The end of a tool call, its refusal by the executor, and the operator's denial all answer calls[0].
  lemma AnswerKept(c: Config, s: State, w: WorkerId, text: string)
    requires Core(c, s)
    requires w in s.workers && s.workers[w].calls != []
    requires s.workers[w].pc.Draining? || s.workers[w].pc.InTool? || s.workers[w].pc.Decided?
    ensures Core(c, SetWorker(s, w, Answer(s.workers[w], text)))
  {
    OwnerFacts(c, s, w);
    AnswerFits(s.workers[w], text);
    WorkerKept(c, s, SetWorker(s, w, Answer(s.workers[w], text)), w, Answer(s.workers[w], text));
  }

  lemma ToolKept(c: Config, s: State, w: WorkerId, step: ToolStep)
    requires Core(c, s) && ToolEnabled(c, s, w, step)
    ensures Core(c, ToolApply(c, s, w, step))
  {
    match step
    case StartTool => StartToolKept(c, s, w);
    case RefuseTool(text) => AnswerKept(c, s, w, text);
    case EndTool(text) => AnswerKept(c, s, w, text);
    case Deny(text) => AnswerKept(c, s, w, text);
    case InsertChild(run) =>
      var parent := s.workers[w].run;
      InsertKept(c, s, run, NewRun(s.runs[parent].workspace, Some(parent)));
  }

  // ------------------------------------------------------------ taking and releasing a run

  lemma ClaimKept(c: Config, s: State, w: WorkerId, r: RunId, worker: Worker)
    requires Core(c, s)
    requires w !in s.workers && r in s.runs && s.runs[r].status.Queued?
    requires worker.run == r && worker.pc.Draining? && worker.calls == []
    requires worker.steps == s.runs[r].stepCount && CarriesNoCalls(worker.transcript)
    ensures Core(c, SetWorker(SetRun(s, r, ClaimedRow(s.runs[r], s.now)), w, worker))
  {
    var row := ClaimedRow(s.runs[r], s.now);
    OwnershipTake(c, s.runs, s.workers, w, worker, row);
    NoCallsNoneOutstanding(worker.transcript);
    AccountsTake(c, s.runs, s.workers, s.tallies, w, worker, row);
  }

  // The owner lets go of its run, by finishing or by parking it.
  lemma ReleaseKept(c: Config, s: State, s': State, w: WorkerId, worker: Worker, row: Run)
    requires Core(c, s)
    requires w in s.workers && s.workers[w].pc.Owning() && worker.run == s.workers[w].run && worker.run in s.runs
    requires worker.pc.Announcing? && RowOk(row) && row.stepCount == worker.steps == s.workers[w].steps
    requires row.status.Terminal() || (row.status.AwaitingApproval? && s.workers[w].pc.Draining?)
    requires row.cancelRequested == s.runs[worker.run].cancelRequested
    requires s'.runs == s.runs[worker.run := row] && s'.workers == s.workers[w := worker]
    requires s'.tallies == s.tallies && s'.resumes == s.resumes && s'.operators == s.operators
    ensures Core(c, s')
  {
    assert OwnerOf(s.workers, w, worker.run);
    OwnershipRelease(c, s.runs, s.workers, w, worker, row);
    AccountsRelease(c, s.runs, s.workers, s.tallies, w, worker, row);
  }

  lemma FinishKept(c: Config, s: State, w: WorkerId)
    requires Core(c, s) && OwnershipEnabled(c, s, w, Finish)
    ensures Core(c, OwnershipApply(c, s, w, Finish))
  {
    OwnerFacts(c, s, w);
    hide Core;
    var s' := OwnershipApply(c, s, w, Finish);
    ReleaseKept(c, s, s', w, s'.workers[w], s'.runs[s.workers[w].run]);
  }

  lemma ParkKept(c: Config, s: State, w: WorkerId, a: ApprovalId)
    requires Core(c, s) && OwnershipEnabled(c, s, w, Park(a))
    ensures Core(c, OwnershipApply(c, s, w, Park(a)))
  {
    OwnerFacts(c, s, w);
    var s' := OwnershipApply(c, s, w, Park(a));
    ReleaseKept(c, s, s', w, s'.workers[w], s'.runs[s.workers[w].run]);
  }

  lemma DropKept(c: Config, s: State, w: WorkerId)
    requires Core(c, s)
    requires w in s.workers && !s.workers[w].pc.Owning()
    ensures Core(c, s.(workers := s.workers - {w}))
  {
    OwnershipDrop(c, s.runs, s.workers, w);
  }

  // The publication of an outcome or a pause fails after the run has moved on.
  lemma FailKept(c: Config, s: State, w: WorkerId)
    requires Core(c, s) && OwnershipEnabled(c, s, w, AnnounceFails)
    ensures Core(c, OwnershipApply(c, s, w, AnnounceFails))
  {
    var r := s.workers[w].run;
    var row := FinishedRow(s.runs[r], Failed, s.workers[w].steps);
    assert WorkerSteps(c.maxSteps(r), s.tallies[r], s.workers[w]);
    OwnershipFate(c, s.runs, s.workers, r, row);
    AccountsRow(c, s.runs, s.workers, s.tallies, r, row);
    DropKept(c, SetRun(s, r, row), w);
  }

  lemma OwnershipKept(c: Config, s: State, w: WorkerId, step: OwnershipStep)
    requires Core(c, s) && OwnershipEnabled(c, s, w, step)
    ensures Core(c, OwnershipApply(c, s, w, step))
  {
    match step
    case Claim(r, transcript) => ClaimKept(c, s, w, r, OwnershipApply(c, s, w, step).workers[w]);
    case Park(approval) => ParkKept(c, s, w, approval);
    case Finish => FinishKept(c, s, w);
    case Announce => DropKept(c, s, w);
    case AnnounceFails => FailKept(c, s, w);
    case Die =>
      if s.workers[w].pc.Owning() { StopKept(c, s, w, Dead); } else { DropKept(c, s, w); }
  }

  // ------------------------------------------------------------ what others do to a run

  // A row that settles a waiting run.
  lemma SettledKept(c: Config, s: State, r: RunId, row: Run)
    requires Core(c, s)
    requires r in s.runs && s.runs[r].status.Waiting() && row.status.Terminal()
    requires row.checkpoint.None? && row.stepCount == s.runs[r].stepCount
    requires s.runs[r].cancelRequested ==> row.cancelRequested
    ensures Core(c, SetRun(s, r, row))
  {
    OwnershipRow(c, s.runs, s.workers, r, row);
    AccountsRow(c, s.runs, s.workers, s.tallies, r, row);
  }

  lemma RequeueKept(c: Config, s: State, r: RunId, dead: WorkerId)
    requires Core(c, s)
    requires r in s.runs && r in s.tallies && OwnerOf(s.workers, dead, r) && s.runs[r].status.Running?
    ensures Core(c, Requeued(c, s, r, dead))
  {
    var s' := Requeued(c, s, r, dead);
    OwnershipRequeue(c, s.runs, s.workers, r, s'.runs[r], dead);
    AccountsRequeue(c, s.runs, s.workers, s.tallies, r, s'.runs[r], s'.tallies[r], dead);
  }

  lemma RunKept(c: Config, s: State, r: RunId, step: RunStep)
    requires Core(c, s) && RunEnabled(c, s, r, step)
    ensures Core(c, RunApply(c, s, r, step))
  {
    match step
    case ClaimOrphaned => SettledKept(c, s, r, ClaimedRow(s.runs[r], s.now).(status := Failed));
    case Requeue(dead) => RequeueKept(c, s, r, dead);
  }

  // ------------------------------------------------------------ operators

  // A cancel writes the row of a run in whatever status it finds it.
  lemma CancelKept(c: Config, s: State, o: OperatorId)
    requires Core(c, s) && OperatorEnabled(c, s, o, WriteCancel)
    ensures Core(c, OperatorApply(c, s, o, WriteCancel))
  {
    var ToCancel(r, seen) := s.operators[o];
    var row := CancelledRow(s.runs[r], seen);
    assert RowOk(s.runs[r]);
    if seen.Waiting() {
      OwnershipFate(c, s.runs, s.workers, r, row);
    } else {
      OwnershipRow(c, s.runs, s.workers, r, row);
    }
    AccountsRow(c, s.runs, s.workers, s.tallies, r, row);
  }

  lemma OperatorKept(c: Config, s: State, o: OperatorId, step: OperatorStep)
    requires Core(c, s) && OperatorEnabled(c, s, o, step)
    ensures Core(c, OperatorApply(c, s, o, step))
  {
    if step.WriteCancel? {
      CancelKept(c, s, o);
    }
  }

  // ------------------------------------------------------------ resume jobs

  // A new owner takes a waiting run, on the strength of a job that is used up.
  lemma TakeKept(c: Config, s: State, s': State, w: WorkerId, worker: Worker, row: Run)
    requires Core(c, s)
    requires w !in s.workers && worker.pc.Decided? && ConversationFits(worker) && worker.run in s.runs
    requires s.runs[worker.run].status.AwaitingApproval? && RowOk(row) && row.status.Running?
    requires row.stepCount == worker.steps == s.runs[worker.run].stepCount
    requires row.cancelRequested == s.runs[worker.run].cancelRequested
    requires s'.runs == s.runs[worker.run := row] && s'.workers == s.workers[w := worker]
    requires s'.resumes.Keys <= s.resumes.Keys && forall j :: j in s'.resumes ==> s'.resumes[j] == s.resumes[j]
    requires s'.tallies == s.tallies && s'.operators == s.operators
    ensures Core(c, s')
  {
    OwnershipTake(c, s.runs, s.workers, w, worker, row);
    AccountsTake(c, s.runs, s.workers, s.tallies, w, worker, row);
    hide Owned, Accounts, ConversationFits;
  }

  lemma ResumeKept(c: Config, s: State, j: JobId, w: WorkerId)
    requires Core(c, s) && JobEnabled(c, s, j, ClaimResumed(w))
    requires s.runs[s.resumes[j].run].status.AwaitingApproval?
    ensures Core(c, JobApply(c, s, j, ClaimResumed(w)))
  {
    assert CheckpointOk(s.resumes[j].read.value);
    hide Core, CheckpointOk, ConversationFits, ResumedWorker;
    var s' := JobApply(c, s, j, ClaimResumed(w));
    ResumedConversation(s.resumes[j], j.approval, s.runs[s.resumes[j].run].stepCount);
    TakeKept(c, s, s', w, s'.workers[w], s'.runs[s.resumes[j].run]);
  }

  lemma ReadKept(c: Config, s: State, j: JobId)
    requires Core(c, s) && JobEnabled(c, s, j, ReadCheckpoint)
    ensures Core(c, JobApply(c, s, j, ReadCheckpoint))
  {
    assert RowOk(s.runs[s.resumes[j].run]);
  }

  lemma JobKept(c: Config, s: State, j: JobId, step: JobStep)
    requires Core(c, s) && JobEnabled(c, s, j, step)
    ensures Core(c, JobApply(c, s, j, step))
  {
    match step
    case ReadCheckpoint => ReadKept(c, s, j);
    case ClaimResumed(w) =>
      if s.runs[s.resumes[j].run].status.AwaitingApproval? { ResumeKept(c, s, j, w); }
    case ClaimResumedOrphaned =>
      var r := s.resumes[j].run;
      if s.runs[r].status.AwaitingApproval? {
        SettledKept(c, DropJob(s, j), r, ClaimedRow(s.runs[r], s.now).(status := Failed));
      }
    case LoseResume =>
    case RepeatJob(_) =>
  }

  // ------------------------------------------------------------ every action

  lemma CoreKept(c: Config, s: State, a: Action)
    requires Core(c, s) && Enabled(c, s, a)
    ensures Core(c, Apply(c, s, a))
  {
    match a
    case Tick =>
    case Submission(u, step) => SubmissionKept(c, s, u, step);
    case Turn(w, step) => TurnKept(c, s, w, step);
    case Tool(w, step) => ToolKept(c, s, w, step);
    case Ownership(w, step) => OwnershipKept(c, s, w, step);
    case OnRun(r, step) => RunKept(c, s, r, step);
    case Operator(o, step) => OperatorKept(c, s, o, step);
    case OnJob(j, step) => JobKept(c, s, j, step);
  }
}
