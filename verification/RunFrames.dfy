// What a process holds, and whose action is whose: every action keeps the rows that processes are about, and leaves
// every process but its own alone.
module RunFrames {
  import opened RunTypes
  import opened RunMachine

  // A process that awaits: an activation of the runtime, a resume job that has not claimed its run yet, a
  // submission between its quota check and its insert, or an operator between reading a row and writing it.
  datatype Process = Activation(w: WorkerId) | Job(j: JobId) | Submitter(u: SubmissionId) | Person(o: OperatorId)

  // The action is one of this very process.
  predicate By(a: Action, me: Process) {
    match me
    case Activation(w) => (a.Turn? && a.w == w) || (a.Tool? && a.w == w) || (a.Ownership? && a.w == w)
    case Job(j) => a.OnJob? && a.job == j
    case Submitter(u) => a.Submission? && a.u == u
    case Person(o) => a.Operator? && a.o == o
  }

  // The process's own actions among these.
  ghost function Own(actions: seq<Action>, me: Process): seq<Action> {
    if actions == [] then []
    else
      var last := actions[|actions| - 1];
      Own(actions[..|actions| - 1], me) + if By(last, me) then [last] else []
  }

  lemma {:induction false} OwnSplits(first: seq<Action>, rest: seq<Action>, me: Process)
    ensures Own(first + rest, me) == Own(first, me) + Own(rest, me)
    decreases |rest|
  {
    if rest == [] {
      assert first + rest == first;
    } else {
      assert (first + rest)[..|first| + |rest| - 1] == first + rest[..|rest| - 1];
      OwnSplits(first, rest[..|rest| - 1], me);
    }
  }

  lemma OwnOne(a: Action, me: Process)
    ensures Own([a], me) == if By(a, me) then [a] else []
  {
    assert [a][..0] == [];
  }

  // None of the actions that were added is one of this process.
  ghost predicate OnlyOthers(before: seq<Action>, after: seq<Action>, me: Process) {
    before <= after && forall i :: |before| <= i < |after| ==> !By(after[i], me)
  }

  lemma {:induction false} OthersAddNone(before: seq<Action>, after: seq<Action>, me: Process)
    requires OnlyOthers(before, after, me)
    ensures Own(after, me) == Own(before, me)
    decreases |after|
  {
    if before == after {
    } else {
      var n := |after| - 1;
      assert before <= after[..n];
      OthersAddNone(before, after[..n], me);
    }
  }

  lemma {:induction false} ExecuteSplits(c: Config, s: State, first: seq<Action>, rest: seq<Action>)
    requires Legal(c, s, first + rest)
    ensures Legal(c, s, first) && Legal(c, Execute(c, s, first), rest)
    ensures Execute(c, s, first + rest) == Execute(c, Execute(c, s, first), rest)
    decreases |first|
  {
    if first == [] {
      assert first + rest == rest;
    } else {
      assert (first + rest)[1..] == first[1..] + rest;
      ExecuteSplits(c, Apply(c, s, first[0]), first[1..], rest);
    }
  }

  ghost predicate WorkersOk(workers: map<WorkerId, Worker>, runs: set<RunId>) {
    forall w :: w in workers ==> workers[w].run in runs
  }

  ghost predicate ApprovalsOk(approvals: map<ApprovalId, Approval>, runs: set<RunId>) {
    forall a :: a in approvals ==> approvals[a].run in runs
  }

  ghost predicate JobsOk(resumes: map<JobId, Resume>, runs: set<RunId>) {
    forall j :: j in resumes ==> resumes[j].run in runs
  }

  // Jobs that were made are of decided approvals, and their ids are not used again.
  ghost predicate IssuedOk(resumes: set<JobId>, issued: set<JobId>, approvals: map<ApprovalId, Approval>) {
    resumes <= issued && forall j :: j in issued ==> j.approval in approvals && !approvals[j.approval].status.Pending?
  }

  ghost predicate OperatorsOk(operators: map<OperatorId, Intent>, approvals: set<ApprovalId>, runs: set<RunId>) {
    forall o :: o in operators ==>
      match operators[o]
      case ToDecide(a, _) => a in approvals
      case ToCancel(r, _) => r in runs
  }

  // Workers, approvals, resume jobs and operators are about rows that exist, and only decided approvals have jobs.
  ghost predicate RowsExist(s: State) {
    && s.runs.Keys == s.tallies.Keys
    && WorkersOk(s.workers, s.runs.Keys) && ApprovalsOk(s.approvals, s.runs.Keys)
    && JobsOk(s.resumes, s.runs.Keys) && IssuedOk(s.resumes.Keys, s.issued, s.approvals)
    && OperatorsOk(s.operators, s.approvals.Keys, s.runs.Keys)
  }

  ghost predicate Present(s: State, me: Process) {
    match me
    case Activation(w) => w in s.workers && !s.workers[w].pc.Dead?
    case Job(j) => j in s.resumes
    case Submitter(u) => u in s.submissions
    case Person(o) => o in s.operators
  }

  // The run that a process is about exists.
  ghost predicate RowOf(s: State, me: Process) {
    match me
    case Activation(w) => w in s.workers ==> s.workers[w].run in s.runs && s.workers[w].run in s.tallies
    case Job(j) => j in s.resumes ==> s.resumes[j].run in s.runs
    case Submitter(_) => true
    case Person(o) =>
      o in s.operators ==>
        match s.operators[o]
        case ToDecide(a, _) =>
          a in s.approvals && (s.approvals[a].status.Pending? ==> JobId(a, 0) !in s.issued)
        case ToCancel(r, _) => r in s.runs
  }

  // What a process holds is as it left it.
  ghost predicate Untouched(s: State, s': State, me: Process) {
    Present(s, me) ==>
      && Present(s', me)
      && match me
         case Activation(w) => s'.workers[w] == s.workers[w]
         case Job(j) => s'.resumes[j] == s.resumes[j]
         case Submitter(u) => s'.submissions[u] == s.submissions[u]
         case Person(o) => s'.operators[o] == s.operators[o]
  }

  lemma UntouchedStill(one: State, two: State, three: State, me: Process)
    requires Untouched(one, two, me) && Untouched(two, three, me)
    ensures Untouched(one, three, me)
  {
  }

  lemma SubmissionFramed(c: Config, s: State, u: SubmissionId, step: SubmissionStep, me: Process)
    requires SubmissionEnabled(c, s, u, step) && RowsExist(s)
    ensures RowsExist(SubmissionApply(c, s, u, step))
    ensures me != Submitter(u) ==> Untouched(s, SubmissionApply(c, s, u, step), me)
  {
  }

  lemma TurnFramed(c: Config, s: State, v: WorkerId, step: TurnStep, me: Process)
    requires TurnEnabled(c, s, v, step) && RowsExist(s)
    ensures RowsExist(TurnApply(c, s, v, step))
    ensures me != Activation(v) ==> Untouched(s, TurnApply(c, s, v, step), me)
  {
  }

  lemma ToolFramed(c: Config, s: State, v: WorkerId, step: ToolStep, me: Process)
    requires ToolEnabled(c, s, v, step) && RowsExist(s)
    ensures RowsExist(ToolApply(c, s, v, step))
    ensures me != Activation(v) ==> Untouched(s, ToolApply(c, s, v, step), me)
  {
  }

  // Rows exist after a step, and the step leaves a process alone unless it is its own.
  ghost predicate Framed(s: State, s': State, me: Process, actor: Process) {
    RowsExist(s') && (me != actor ==> Untouched(s, s', me))
  }

  lemma ClaimFramed(c: Config, s: State, v: WorkerId, run: RunId, transcript: seq<Message>, me: Process)
    requires OwnershipEnabled(c, s, v, Claim(run, transcript)) && RowsExist(s)
    ensures Framed(s, OwnershipApply(c, s, v, Claim(run, transcript)), me, Activation(v))
  {
    assert OwnershipApply(c, s, v, Claim(run, transcript)).runs.Keys == s.runs.Keys;
    hide ApprovalsOk, OperatorsOk, JobsOk;
  }

  lemma ParkFramed(c: Config, s: State, v: WorkerId, a: ApprovalId, me: Process)
    requires OwnershipEnabled(c, s, v, Park(a)) && RowsExist(s)
    ensures Framed(s, OwnershipApply(c, s, v, Park(a)), me, Activation(v))
  {
  }

  lemma FinishFramed(c: Config, s: State, v: WorkerId, me: Process)
    requires OwnershipEnabled(c, s, v, Finish) && RowsExist(s)
    ensures Framed(s, OwnershipApply(c, s, v, Finish), me, Activation(v))
  {
    assert OwnershipApply(c, s, v, Finish).runs.Keys == s.runs.Keys;
    hide ApprovalsOk, OperatorsOk, JobsOk;
  }

  lemma AnnounceFramed(c: Config, s: State, v: WorkerId, me: Process)
    requires OwnershipEnabled(c, s, v, Announce) && RowsExist(s)
    ensures Framed(s, OwnershipApply(c, s, v, Announce), me, Activation(v))
  {
    hide ApprovalsOk, OperatorsOk, JobsOk;
  }

  lemma FailFramed(c: Config, s: State, v: WorkerId, me: Process)
    requires OwnershipEnabled(c, s, v, AnnounceFails) && RowsExist(s)
    ensures Framed(s, OwnershipApply(c, s, v, AnnounceFails), me, Activation(v))
  {
    assert OwnershipApply(c, s, v, AnnounceFails).runs.Keys == s.runs.Keys;
    hide ApprovalsOk, OperatorsOk, JobsOk;
  }

  lemma DieFramed(c: Config, s: State, v: WorkerId, me: Process)
    requires OwnershipEnabled(c, s, v, Die) && RowsExist(s)
    ensures Framed(s, OwnershipApply(c, s, v, Die), me, Activation(v))
  {
    hide ApprovalsOk, OperatorsOk, JobsOk;
  }

  lemma OwnershipFramed(c: Config, s: State, v: WorkerId, step: OwnershipStep, me: Process)
    requires OwnershipEnabled(c, s, v, step) && RowsExist(s)
    ensures Framed(s, OwnershipApply(c, s, v, step), me, Activation(v))
  {
    hide OwnershipApply, Framed;
    match step
    case Claim(run, transcript) => ClaimFramed(c, s, v, run, transcript, me);
    case Park(a) => ParkFramed(c, s, v, a, me);
    case Finish => FinishFramed(c, s, v, me);
    case Announce => AnnounceFramed(c, s, v, me);
    case AnnounceFails => FailFramed(c, s, v, me);
    case Die => DieFramed(c, s, v, me);
  }

  lemma RunFramed(c: Config, s: State, run: RunId, step: RunStep, me: Process)
    requires RunEnabled(c, s, run, step) && RowsExist(s)
    ensures RowsExist(RunApply(c, s, run, step))
    ensures Untouched(s, RunApply(c, s, run, step), me)
  {
  }

  lemma OperatorFramed(c: Config, s: State, o: OperatorId, step: OperatorStep, me: Process)
    requires OperatorEnabled(c, s, o, step) && RowsExist(s)
    ensures RowsExist(OperatorApply(c, s, o, step))
    ensures me != Person(o) ==> Untouched(s, OperatorApply(c, s, o, step), me)
  {
  }

  lemma DropFramed(s: State, j: JobId, me: Process)
    requires RowsExist(s)
    ensures Framed(s, DropJob(s, j), me, Job(j))
  {
    hide WorkersOk, ApprovalsOk, OperatorsOk;
  }

  lemma ReadFramed(c: Config, s: State, j: JobId, me: Process)
    requires JobEnabled(c, s, j, ReadCheckpoint) && RowsExist(s)
    ensures Framed(s, JobApply(c, s, j, ReadCheckpoint), me, Job(j))
  {
    DropFramed(s, j, me);
    hide WorkersOk, ApprovalsOk, OperatorsOk;
  }

  // The row of the run of a job that leaves.
  lemma RowFramed(s: State, j: JobId, r: RunId, row: Run, me: Process)
    requires RowsExist(s) && r in s.runs
    ensures Framed(s, DropJob(s, j).(runs := s.runs[r := row]), me, Job(j))
  {
    assert s.runs[r := row].Keys == s.runs.Keys;
    hide WorkersOk, ApprovalsOk, OperatorsOk;
  }

  lemma WorkerFramed(s: State, w: WorkerId, worker: Worker, me: Process)
    requires RowsExist(s) && w !in s.workers && worker.run in s.runs
    ensures RowsExist(s.(workers := s.workers[w := worker]))
    ensures Untouched(s, s.(workers := s.workers[w := worker]), me)
  {
    hide ApprovalsOk, OperatorsOk, JobsOk;
  }

  lemma ResumeFramed(c: Config, s: State, j: JobId, w: WorkerId, me: Process)
    requires JobEnabled(c, s, j, ClaimResumed(w)) && RowsExist(s)
    ensures Framed(s, JobApply(c, s, j, ClaimResumed(w)), me, Job(j))
  {
    var s' := JobApply(c, s, j, ClaimResumed(w));
    var r := s.resumes[j].run;
    if s.runs[r].status.AwaitingApproval? {
      RowFramed(s, j, r, s'.runs[r], me);
      var middle := DropJob(s, j).(runs := s.runs[r := s'.runs[r]]);
      hide RowsExist, Untouched;
      WorkerFramed(middle, w, s'.workers[w], me);
      if me != Job(j) {
        UntouchedStill(s, middle, s', me);
      }
    } else {
      DropFramed(s, j, me);
    }
  }

  lemma ResumeOrphanedFramed(c: Config, s: State, j: JobId, me: Process)
    requires JobEnabled(c, s, j, ClaimResumedOrphaned) && RowsExist(s)
    ensures Framed(s, JobApply(c, s, j, ClaimResumedOrphaned), me, Job(j))
  {
    var r := s.resumes[j].run;
    hide RowsExist, Untouched;
    if s.runs[r].status.AwaitingApproval? {
      RowFramed(s, j, r, JobApply(c, s, j, ClaimResumedOrphaned).runs[r], me);
    } else {
      DropFramed(s, j, me);
    }
  }

  lemma LoseFramed(c: Config, s: State, j: JobId, me: Process)
    requires JobEnabled(c, s, j, LoseResume) && RowsExist(s)
    ensures Framed(s, JobApply(c, s, j, LoseResume), me, Job(j))
  {
    hide WorkersOk, ApprovalsOk, OperatorsOk;
  }

  lemma RepeatFramed(c: Config, s: State, j: JobId, copy: nat, me: Process)
    requires JobEnabled(c, s, j, RepeatJob(copy)) && RowsExist(s)
    ensures Framed(s, JobApply(c, s, j, RepeatJob(copy)), me, Job(j))
  {
    hide WorkersOk, ApprovalsOk, OperatorsOk;
  }

  lemma JobFramed(c: Config, s: State, j: JobId, step: JobStep, me: Process)
    requires JobEnabled(c, s, j, step) && RowsExist(s)
    ensures Framed(s, JobApply(c, s, j, step), me, Job(j))
  {
    hide JobApply, Framed;
    match step
    case ReadCheckpoint => ReadFramed(c, s, j, me);
    case ClaimResumed(w) => ResumeFramed(c, s, j, w, me);
    case ClaimResumedOrphaned => ResumeOrphanedFramed(c, s, j, me);
    case LoseResume => LoseFramed(c, s, j, me);
    case RepeatJob(copy) => RepeatFramed(c, s, j, copy, me);
  }

  // An action keeps the rows that workers work on, and leaves every process but its own alone.
  lemma ActionFramed(c: Config, s: State, a: Action, me: Process)
    requires Enabled(c, s, a) && RowsExist(s)
    ensures RowsExist(Apply(c, s, a))
    ensures !By(a, me) ==> Untouched(s, Apply(c, s, a), me)
  {
    match a
    case Tick =>
    case Submission(u, step) => SubmissionFramed(c, s, u, step, me);
    case Turn(v, step) => TurnFramed(c, s, v, step, me);
    case Tool(v, step) => ToolFramed(c, s, v, step, me);
    case Ownership(v, step) => OwnershipFramed(c, s, v, step, me);
    case OnRun(run, step) => RunFramed(c, s, run, step, me);
    case Operator(o, step) => OperatorFramed(c, s, o, step, me);
    case OnJob(j, step) => JobFramed(c, s, j, step, me);
  }

  lemma {:induction false} RowsExistFrom(c: Config, s: State, actions: seq<Action>)
    requires RowsExist(s) && Legal(c, s, actions)
    ensures RowsExist(Execute(c, s, actions))
    decreases |actions|
  {
    if actions != [] {
      ActionFramed(c, s, actions[0], Submitter(0));
      RowsExistFrom(c, Apply(c, s, actions[0]), actions[1..]);
    }
  }

  lemma RowsExistHolds(c: Config, actions: seq<Action>)
    requires Legal(c, INIT, actions)
    ensures RowsExist(Execute(c, INIT, actions))
  {
    RowsExistFrom(c, INIT, actions);
  }

  // A job that has been made and is no longer there.
  predicate Gone(s: State, j: JobId) { j in s.issued && j !in s.resumes }

  // Only ids that are new are made.
  ghost predicate Makes(s: State, s': State) {
    s.issued <= s'.issued && forall j :: j in s'.resumes ==> j in s.resumes || j !in s.issued
  }

  lemma OperatorMakes(c: Config, s: State, o: OperatorId, step: OperatorStep)
    requires OperatorEnabled(c, s, o, step)
    ensures Makes(s, OperatorApply(c, s, o, step))
  {
  }

  lemma JobMakes(c: Config, s: State, j: JobId, step: JobStep)
    requires JobEnabled(c, s, j, step)
    ensures Makes(s, JobApply(c, s, j, step))
  {
  }

  lemma OwnershipMakes(c: Config, s: State, w: WorkerId, step: OwnershipStep)
    requires OwnershipEnabled(c, s, w, step)
    ensures Makes(s, OwnershipApply(c, s, w, step))
  {
  }

  lemma TurnMakes(c: Config, s: State, w: WorkerId, step: TurnStep)
    requires TurnEnabled(c, s, w, step)
    ensures Makes(s, TurnApply(c, s, w, step))
  {
  }

  lemma ToolMakes(c: Config, s: State, w: WorkerId, step: ToolStep)
    requires ToolEnabled(c, s, w, step)
    ensures Makes(s, ToolApply(c, s, w, step))
  {
  }

  // It does not come back, and does nothing more.
  lemma GoneStays(c: Config, s: State, a: Action, j: JobId)
    requires Enabled(c, s, a) && Gone(s, j)
    ensures Gone(Apply(c, s, a), j) && !By(a, Job(j))
  {
    hide TurnApply, ToolApply, OwnershipApply, OperatorApply, JobApply;
    hide TurnEnabled, ToolEnabled, OwnershipEnabled, OperatorEnabled;
    match a
    case Operator(o, step) => OperatorMakes(c, s, o, step);
    case OnJob(i, step) => JobMakes(c, s, i, step);
    case Turn(w, step) => TurnMakes(c, s, w, step);
    case Tool(w, step) => ToolMakes(c, s, w, step);
    case Ownership(w, step) => OwnershipMakes(c, s, w, step);
    case _ =>
  }

  lemma {:induction false} GoneForGood(c: Config, s: State, actions: seq<Action>, j: JobId)
    requires Legal(c, s, actions) && Gone(s, j)
    ensures Gone(Execute(c, s, actions), j) && Own(actions, Job(j)) == []
    decreases |actions|
  {
    if actions != [] {
      GoneStays(c, s, actions[0], j);
      GoneForGood(c, Apply(c, s, actions[0]), actions[1..], j);
      OwnSplits([actions[0]], actions[1..], Job(j));
      assert [actions[0]][..0] == [] && actions == [actions[0]] + actions[1..];
    }
  }

  // A job that is gone after its own action stays gone, and does nothing more.
  lemma StillGone(c: Config, before: seq<Action>, a: Action, later: seq<Action>, j: JobId)
    requires Legal(c, INIT, later) && before + [a] <= later && By(a, Job(j))
    requires Legal(c, INIT, before + [a]) && Gone(Execute(c, INIT, before + [a]), j)
    ensures Gone(Execute(c, INIT, later), j) && Own(later, Job(j)) == Own(before, Job(j)) + [a]
  {
    hide Own, By, Gone;
    var claimed := before + [a];
    var rest := later[|claimed|..];
    assert later == claimed + rest;
    ExecuteSplits(c, INIT, claimed, rest);
    GoneForGood(c, Execute(c, INIT, claimed), rest, j);
    hide Legal, Execute;
    OwnSplits(claimed, rest, Job(j));
    OwnSplits(before, [a], Job(j));
    OwnOne(a, Job(j));
  }
}
