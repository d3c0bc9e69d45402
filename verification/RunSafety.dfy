// What holds of every run of the protocol, in any interleaving of workers, operators, crashes, requeues and
// late failures of publications. Operators may write an approval or a run long after they have read it.
module RunSafety {
  import opened Options
  import opened RunTypes
  import opened Transcript
  import opened RunMachine
  import opened RunInvariant
  import opened RunGate

  lemma {:induction false} InvHolds(c: Config, s: State, actions: seq<Action>)
    requires Inv(c, s) && Legal(c, s, actions)
    ensures Inv(c, Execute(c, s, actions))
    decreases |actions|
  {
    if actions != [] {
      ActionKept(c, s, actions[0]);
      InvHolds(c, Apply(c, s, actions[0]), actions[1..]);
    }
  }

  lemma ReachableInv(c: Config, actions: seq<Action>)
    requires Legal(c, INIT, actions)
    ensures Inv(c, Execute(c, INIT, actions))
  {
    InvHolds(c, INIT, actions);
  }

  // ------------------------------------------------------------ the approval gate

  // A tool that needs approval ran only for a call whose own approval was granted, and no approval let two
  // executions through.
  ghost predicate GateHeld(c: Config, s: State, i: nat)
    requires i < |s.executions|
  {
    var e := s.executions[i];
    e.call.name in c.gated ==>
      && e.approval.Some? && e.approval.value in s.approvals
      && s.approvals[e.approval.value] == Approval(e.run, e.call.name, e.call.arguments, Approved)
      && forall j :: 0 <= j < |s.executions| && s.executions[j].approval == e.approval ==> j == i
  }

  lemma GatedToolsRunOncePerApproval(c: Config, actions: seq<Action>, i: nat)
    requires OneJobEach(c) && Legal(c, INIT, actions)
    requires i < |Execute(c, INIT, actions).executions|
    ensures GateHeld(c, Execute(c, INIT, actions), i)
  {
    ReachableInv(c, actions);
    var s := Execute(c, INIT, actions);
    assert ExecutionFits(c.gated, s.approvals, s.resumes, s.executions[i]);
    if s.executions[i].approval.Some? {
      forall j | 0 <= j < |s.executions| && s.executions[j].approval == s.executions[i].approval
        ensures j == i
      {
        assert s.executions[j].approval.Some?;
      }
    }
  }

  // Nothing runs on the strength of an approval that was denied or is still undecided.
  lemma UngrantedApprovalsRunNothing(c: Config, actions: seq<Action>, a: ApprovalId)
    requires OneJobEach(c) && Legal(c, INIT, actions)
    requires a in Execute(c, INIT, actions).approvals
    requires !Execute(c, INIT, actions).approvals[a].status.Approved?
    ensures !Spent(Execute(c, INIT, actions).executions, a)
  {
    ReachableInv(c, actions);
    var s := Execute(c, INIT, actions);
    forall i | 0 <= i < |s.executions|
      ensures s.executions[i].approval != Some(a)
    {
      assert ExecutionFits(c.gated, s.approvals, s.resumes, s.executions[i]);
    }
  }

  // A parked run waits for exactly one thing: its undecided approval, or the resume job of the decided
  // one. Only a resume job lost in a crash leaves it without.
  lemma ParkedRunHasOneTicket(c: Config, actions: seq<Action>, r: RunId)
    requires OneJobEach(c) && Legal(c, INIT, actions)
    requires r in Execute(c, INIT, actions).runs
    requires Execute(c, INIT, actions).runs[r].status.AwaitingApproval?
    ensures
      var s := Execute(c, INIT, actions);
      && (forall a, b | Ticket(s.approvals, s.resumes, a) && Ticket(s.approvals, s.resumes, b) ::
            s.approvals[a].run == r && s.approvals[b].run == r ==> a == b)
      && (r !in s.strandedRuns ==> exists a :: Ticket(s.approvals, s.resumes, a) && s.approvals[a].run == r)
      && (forall a :: Ticket(s.approvals, s.resumes, a) && s.approvals[a].run == r ==>
            s.runs[r].checkpoint.Some? && s.runs[r].checkpoint.value.pending != []
            && s.approvals[a].For(s.runs[r].checkpoint.value.pending[0]))
  {
    ReachableInv(c, actions);
    var s := Execute(c, INIT, actions);
    forall a | Ticket(s.approvals, s.resumes, a) && s.approvals[a].run == r
      ensures s.runs[r].checkpoint.Some? && s.runs[r].checkpoint.value.pending != []
              && s.approvals[a].For(s.runs[r].checkpoint.value.pending[0])
    {
      assert TicketFits(s.runs[r], s.approvals[a], JobOf(s.resumes, a));
    }
  }

  // ------------------------------------------------------------ ownership

  // A running run has exactly one owner, and no run ever has two. Only a run that a late publication has failed,
  // or an operator has cancelled late, is owned without running.
  lemma RunningIffOneOwner(c: Config, actions: seq<Action>, r: RunId)
    requires Legal(c, INIT, actions) && r in Execute(c, INIT, actions).runs
    ensures
      var s := Execute(c, INIT, actions);
      && (forall v, w :: OwnerOf(s.workers, v, r) && OwnerOf(s.workers, w, r) ==> v == w)
      && (s.runs[r].status.Running? ==> exists w :: OwnerOf(s.workers, w, r))
      && ((exists w :: OwnerOf(s.workers, w, r)) ==> Ownable(c, s.runs[r].status))
  {
    ReachableInv(c, actions);
  }

  // A run whose owner died is not lost: once enough time has passed it can be requeued, unless it has been
  // failed or cancelled meanwhile.
  lemma OrphansCanBeRequeued(c: Config, actions: seq<Action>, dead: WorkerId, now: nat)
    requires Legal(c, INIT, actions)
    requires dead in Execute(c, INIT, actions).workers && Execute(c, INIT, actions).workers[dead].pc.Dead?
    ensures
      var s := Execute(c, INIT, actions);
      var r := s.workers[dead].run;
      && r in s.runs && Ownable(c, s.runs[r].status)
      && (s.runs[r].status.Running? ==>
            && s.runs[r].heartbeat.Some?
            && (s.runs[r].heartbeat.value + c.staleAfter < now ==>
                  RunEnabled(c, s.(now := now), r, Requeue(dead))))
  {
    ReachableInv(c, actions);
    var s := Execute(c, INIT, actions);
    var r := s.workers[dead].run;
    assert OwnerOf(s.workers, dead, r) && RowOk(s.runs[r]);
  }

  // Only a running run whose heartbeat is stale is requeued. It is queued again with nothing else of it lost, nobody
  // owns it, and any new worker can claim it and goes on from its step count.
  lemma RequeuedRunsStartOver(c: Config, actions: seq<Action>, r: RunId, dead: WorkerId, w: WorkerId,
                              transcript: seq<Message>)
    requires Legal(c, INIT, actions) && RunEnabled(c, Execute(c, INIT, actions), r, Requeue(dead))
    requires w !in Execute(c, INIT, actions).workers && CarriesNoCalls(transcript)
    ensures
      var s := Execute(c, INIT, actions);
      var s', row := RunApply(c, s, r, Requeue(dead)), s.runs[r];
      && row.status.Running? && row.heartbeat.Some? && row.heartbeat.value + c.staleAfter < s.now
      && s'.runs == s.runs[r := Run(row.workspace, row.parent, Queued, row.checkpoint, row.stepCount,
                                    row.cancelRequested, None)]
      && s'.executions == s.executions
      && (forall v :: !OwnerOf(s'.workers, v, r))
      && OwnershipEnabled(c, s', w, Claim(r, transcript))
      && var claimed := OwnershipApply(c, s', w, Claim(r, transcript));
         && claimed.workers == s'.workers[w := Worker(r, Draining, transcript, [], row.stepCount)]
         && claimed.runs == s.runs[r := row.(checkpoint := None, heartbeat := Some(s.now))]
  {
    ReachableInv(c, actions);
    var s := Execute(c, INIT, actions);
    assert OwnerOf(s.workers, dead, r);
    hide Legal, Execute;
  }

  // The worker and the run that an action of the runtime acts for.
  function ActsFor(s: State, a: Action): Option<(WorkerId, RunId)> {
    match a
    case Turn(w, _) => if w in s.workers then Some((w, s.workers[w].run)) else None
    case Tool(w, _) => if w in s.workers then Some((w, s.workers[w].run)) else None
    case Ownership(w, step) =>
      if (step.Park? || step.Finish?) && w in s.workers then Some((w, s.workers[w].run)) else None
    case _ => None
  }

  // Model turns, tool executions, pauses and outcomes all come from the one owner of a run that is running, or that
  // was failed or cancelled late.
  lemma OnlyOwnersAct(c: Config, s: State, a: Action)
    requires Core(c, s) && Enabled(c, s, a) && ActsFor(s, a).Some?
    ensures
      var (w, r) := ActsFor(s, a).value;
      && OwnerOf(s.workers, w, r) && r in s.runs
      && Ownable(c, s.runs[r].status) && !s.workers[w].pc.Dead?
      && forall v :: OwnerOf(s.workers, v, r) ==> v == w
  {
    var (w, r) := ActsFor(s, a).value;
    assert OwnerOf(s.workers, w, r);
  }

  // ------------------------------------------------------------ settled runs

  // The run has its outcome, and nobody is at work on it any more.
  ghost predicate Settled(s: State, r: RunId) {
    && r in s.runs && r in s.tallies && s.runs[r].status.Terminal()
    && forall w :: !OwnerOf(s.workers, w, r)
  }

  // The publication of this worker can still fail late and take the run with it.
  predicate FailsLate(c: Config, s: State, w: WorkerId, r: RunId) {
    c.publishMayFail && w in s.workers && s.workers[w].run == r
    && s.workers[w].pc.Announcing? && s.workers[w].pc.guarded
  }

  // This operator found the run waiting, and has not yet written that it is cancelled.
  predicate CancelsLate(s: State, o: OperatorId, r: RunId) {
    o in s.operators && s.operators[o].ToCancel? && s.operators[o].run == r && s.operators[o].seen.Waiting()
  }

  // What a step may still do to a settled run: overwrite its outcome, and flag it as cancelled. Nobody joins those
  // who can do so.
  ghost predicate StaysSettled(c: Config, s: State, s': State, a: Action, r: RunId)
    requires Settled(s, r)
  {
    && Settled(s', r) && s'.tallies[r] == s.tallies[r]
    && (|| s'.runs[r].status == s.runs[r].status
        || (a.Ownership? && FailsLate(c, s, a.w, r) && s'.runs[r].status.Failed?)
        || (a.Operator? && CancelsLate(s, a.o, r) && s'.runs[r].status.Cancelled?))
    && (forall w :: FailsLate(c, s', w, r) ==> FailsLate(c, s, w, r))
    && (forall o :: CancelsLate(s', o, r) ==> CancelsLate(s, o, r))
    && (s.runs[r].cancelRequested ==> s'.runs[r].cancelRequested)
    && (s'.executions == s.executions
        || (s'.executions != [] && s.executions == s'.executions[..|s'.executions| - 1]
            && s'.executions[|s'.executions| - 1].run != r))
  }

  // The status that it may come to.
  predicate Outcome(c: Config, before: Status, after: Status) {
    after == before || (c.publishMayFail && after.Failed?) || (c.cancellers > 0 && after.Cancelled?)
  }

  // A step that leaves the run, its tally, the workers and the operators alone.
  lemma NothingSettles(c: Config, s: State, s': State, a: Action, r: RunId)
    requires Settled(s, r)
    requires r in s'.runs && s'.runs[r] == s.runs[r] && r in s'.tallies && s'.tallies[r] == s.tallies[r]
    requires s'.workers == s.workers && s'.operators == s.operators && s'.executions == s.executions
    ensures StaysSettled(c, s, s', a, r)
  {
  }

  lemma SubmissionSettles(c: Config, s: State, u: SubmissionId, step: SubmissionStep, r: RunId)
    requires SubmissionEnabled(c, s, u, step) && Settled(s, r)
    ensures StaysSettled(c, s, SubmissionApply(c, s, u, step), Submission(u, step), r)
  {
    NothingSettles(c, s, SubmissionApply(c, s, u, step), Submission(u, step), r);
  }

  lemma TurnSettles(c: Config, s: State, w: WorkerId, step: TurnStep, r: RunId)
    requires TurnEnabled(c, s, w, step) && Settled(s, r)
    ensures StaysSettled(c, s, TurnApply(c, s, w, step), Turn(w, step), r)
  {
    assert OwnerOf(s.workers, w, s.workers[w].run) && s.workers[w].run != r;
    assert forall v :: OwnerOf(TurnApply(c, s, w, step).workers, v, r) ==> OwnerOf(s.workers, v, r);
  }

  lemma ToolSettles(c: Config, s: State, w: WorkerId, step: ToolStep, r: RunId)
    requires ToolEnabled(c, s, w, step) && Settled(s, r)
    ensures StaysSettled(c, s, ToolApply(c, s, w, step), Tool(w, step), r)
  {
    assert OwnerOf(s.workers, w, s.workers[w].run) && s.workers[w].run != r;
    assert forall v :: OwnerOf(ToolApply(c, s, w, step).workers, v, r) ==> OwnerOf(s.workers, v, r);
  }

  lemma OwnershipSettles(c: Config, s: State, w: WorkerId, step: OwnershipStep, r: RunId)
    requires OwnershipEnabled(c, s, w, step) && Settled(s, r)
    ensures StaysSettled(c, s, OwnershipApply(c, s, w, step), Ownership(w, step), r)
  {
    assert step.Park? || step.Finish? ==> OwnerOf(s.workers, w, s.workers[w].run);
    assert forall v :: OwnerOf(OwnershipApply(c, s, w, step).workers, v, r) ==> OwnerOf(s.workers, v, r);
  }

  lemma OthersSettle(c: Config, s: State, run: RunId, step: RunStep, r: RunId)
    requires RunEnabled(c, s, run, step) && Settled(s, r)
    ensures StaysSettled(c, s, RunApply(c, s, run, step), OnRun(run, step), r)
  {
    assert forall v :: OwnerOf(RunApply(c, s, run, step).workers, v, r) ==> OwnerOf(s.workers, v, r);
  }

  lemma OperatorSettles(c: Config, s: State, o: OperatorId, step: OperatorStep, r: RunId)
    requires OperatorEnabled(c, s, o, step) && Settled(s, r)
    ensures StaysSettled(c, s, OperatorApply(c, s, o, step), Operator(o, step), r)
  {
  }

  lemma JobSettles(c: Config, s: State, j: JobId, step: JobStep, r: RunId)
    requires JobEnabled(c, s, j, step) && Settled(s, r)
    ensures StaysSettled(c, s, JobApply(c, s, j, step), OnJob(j, step), r)
  {
    var s' := JobApply(c, s, j, step);
    if step.ClaimResumed? && s.runs[s.resumes[j].run].status.AwaitingApproval? {
      assert s.resumes[j].run != r && s'.workers == s.workers[step.w := s'.workers[step.w]];
      hide JobApply;
      assert forall v :: OwnerOf(s'.workers, v, r) ==> OwnerOf(s.workers, v, r);
    } else {
      NothingSettles(c, s, s', OnJob(j, step), r);
    }
  }

  lemma ActionSettles(c: Config, s: State, a: Action, r: RunId)
    requires Enabled(c, s, a) && Settled(s, r)
    ensures StaysSettled(c, s, Apply(c, s, a), a, r)
  {
    hide StaysSettled, TurnApply, ToolApply, OwnershipApply, RunApply, OperatorApply, JobApply;
    match a
    case Tick => NothingSettles(c, s, s.(now := s.now + 1), a, r);
    case Submission(u, step) => SubmissionSettles(c, s, u, step, r);
    case Turn(w, step) => TurnSettles(c, s, w, step, r);
    case Tool(w, step) => ToolSettles(c, s, w, step, r);
    case Ownership(w, step) => OwnershipSettles(c, s, w, step, r);
    case OnRun(run, step) => OthersSettle(c, s, run, step, r);
    case Operator(o, step) => OperatorSettles(c, s, o, step, r);
    case OnJob(j, step) => JobSettles(c, s, j, step, r);
  }

  function ExecutionsOf(executions: seq<Execution>, r: RunId): seq<Execution> {
    if executions == [] then []
    else
      var before := ExecutionsOf(executions[..|executions| - 1], r);
      var last := executions[|executions| - 1];
      if last.run == r then before + [last] else before
  }

  // Once a run is settled and its owner has let go, it is never worked on again: no turn, no tool, no way back.
  // A late publication may still turn its outcome into a failure, and a late operator into a cancellation.
  lemma {:induction false} SettledForGood(c: Config, s: State, actions: seq<Action>, r: RunId)
    requires Inv(c, s) && Legal(c, s, actions) && Settled(s, r)
    ensures
      var s' := Execute(c, s, actions);
      && Settled(s', r) && s'.tallies[r] == s.tallies[r]
      && ExecutionsOf(s'.executions, r) == ExecutionsOf(s.executions, r)
      && Outcome(c, s.runs[r].status, s'.runs[r].status)
    decreases |actions|
  {
    if actions != [] {
      ActionSettles(c, s, actions[0], r);
      ActionKept(c, s, actions[0]);
      SettledForGood(c, Apply(c, s, actions[0]), actions[1..], r);
    }
  }

  // Where publishing cannot raise and nobody cancels, a terminal status is the last word at once.
  lemma TerminalIsFinal(c: Config, s: State, actions: seq<Action>, r: RunId)
    requires !c.publishMayFail && c.cancellers == 0 && Inv(c, s) && Legal(c, s, actions)
    requires r in s.runs && s.runs[r].status.Terminal()
    ensures
      var s' := Execute(c, s, actions);
      && r in s'.runs && s'.runs[r].status == s.runs[r].status
      && r in s.tallies && r in s'.tallies && s'.tallies[r] == s.tallies[r]
      && ExecutionsOf(s'.executions, r) == ExecutionsOf(s.executions, r)
  {
    SettledForGood(c, s, actions, r);
  }

  // Nothing is under way that could give a settled run another outcome than the one it has.
  ghost predicate Undisputed(c: Config, s: State, r: RunId)
    requires r in s.runs
  {
    && (forall w :: FailsLate(c, s, w, r) ==> s.runs[r].status.Failed?)
    && (forall o :: CancelsLate(s, o, r) ==> s.runs[r].status.Cancelled?)
  }

  // From here on the outcome of the run stays what it is, whatever happens.
  ghost predicate OutcomeIsFinal(c: Config, s: State, r: RunId)
    requires r in s.runs
  {
    forall later | Legal(c, s, later) ::
      r in Execute(c, s, later).runs && Execute(c, s, later).runs[r].status == s.runs[r].status
  }

  lemma UndisputedStays(c: Config, s: State, a: Action, r: RunId)
    requires Core(c, s) && Enabled(c, s, a) && Settled(s, r) && Undisputed(c, s, r)
    ensures Settled(Apply(c, s, a), r) && Apply(c, s, a).runs[r].status == s.runs[r].status
    ensures Undisputed(c, Apply(c, s, a), r)
  {
    ActionSettles(c, s, a, r);
    hide Core, Enabled, Apply, FailsLate, CancelsLate, Settled;
  }

  lemma {:induction false} UndisputedForGood(c: Config, s: State, actions: seq<Action>, r: RunId)
    requires Inv(c, s) && Legal(c, s, actions) && Settled(s, r) && Undisputed(c, s, r)
    ensures r in Execute(c, s, actions).runs && Execute(c, s, actions).runs[r].status == s.runs[r].status
    decreases |actions|
  {
    if actions != [] {
      UndisputedStays(c, s, actions[0], r);
      ActionKept(c, s, actions[0]);
      UndisputedForGood(c, Apply(c, s, actions[0]), actions[1..], r);
    }
  }

  lemma OneStep(c: Config, s: State, a: Action)
    requires Enabled(c, s, a)
    ensures Legal(c, s, [a]) && Execute(c, s, [a]) == Apply(c, s, a)
  {
    var s' := Apply(c, s, a);
    assert [a][1..] == [] && Legal(c, s', []) && Execute(c, s', []) == s';
  }

  // In every reachable state, the outcome of a settled run is final exactly when nothing under way disputes it.
  lemma OutcomeIsFinalIffUndisputed(c: Config, s: State, r: RunId)
    requires Inv(c, s) && Settled(s, r)
    ensures OutcomeIsFinal(c, s, r) <==> Undisputed(c, s, r)
  {
    if Undisputed(c, s, r) {
      forall later | Legal(c, s, later)
        ensures r in Execute(c, s, later).runs && Execute(c, s, later).runs[r].status == s.runs[r].status
      {
        UndisputedForGood(c, s, later, r);
      }
    } else if w :| FailsLate(c, s, w, r) && !s.runs[r].status.Failed? {
      hide Core, Gate;
      OneStep(c, s, Ownership(w, AnnounceFails));
    } else {
      var o :| CancelsLate(s, o, r) && !s.runs[r].status.Cancelled?;
      hide Core, Gate;
      OneStep(c, s, Operator(o, WriteCancel));
    }
  }

  // ------------------------------------------------------------ conversations

  // The request of every model turn pairs each call with its result, through any number of pauses.
  lemma EveryTurnIsWellPaired(c: Config, actions: seq<Action>, w: WorkerId)
    requires Legal(c, INIT, actions) && TurnEnabled(c, Execute(c, INIT, actions), w, StartTurn)
    ensures WellPaired(Execute(c, INIT, actions).workers[w].transcript)
  {
    ReachableInv(c, actions);
    var s := Execute(c, INIT, actions);
    assert ConversationFits(s.workers[w]);
    NoneOutstandingIsWellPaired(s.workers[w].transcript);
  }

  // The checkpoint of a parked run stops inside the answers to its last assistant message: the
  // answered calls followed by the pending ones are that message's calls.
  lemma CheckpointsResumeWhereTheyStopped(c: Config, actions: seq<Action>, r: RunId)
    requires Legal(c, INIT, actions)
    requires r in Execute(c, INIT, actions).runs
    requires Execute(c, INIT, actions).runs[r].checkpoint.Some?
    ensures
      var checkpoint := Execute(c, INIT, actions).runs[r].checkpoint.value;
      exists i :: OpenAt(checkpoint.messages, i, checkpoint.pending)
  {
    ReachableInv(c, actions);
    var s := Execute(c, INIT, actions);
    assert RowOk(s.runs[r]);
    var i := OutstandingIsTail(s.runs[r].checkpoint.value.messages);
  }

  // ------------------------------------------------------------ steps and cancellation

  // Every requeue costs at most one more round of max_steps turns; pauses cost none.
  lemma TurnsAreBounded(c: Config, actions: seq<Action>, r: RunId)
    requires Legal(c, INIT, actions) && r in Execute(c, INIT, actions).runs
    ensures
      var s := Execute(c, INIT, actions);
      r in s.tallies && s.tallies[r].turns <= (s.tallies[r].requeues + 1) * c.maxSteps(r)
  {
    ReachableInv(c, actions);
    var s := Execute(c, INIT, actions);
    assert RowSteps(c.maxSteps(r), s.tallies[r], s.runs[r]);
    assert ForgivenOk(c.maxSteps(r), s.tallies[r]);
    assert (s.tallies[r].requeues + 1) * c.maxSteps(r) == s.tallies[r].requeues * c.maxSteps(r) + c.maxSteps(r);
  }

  // A step adds to the late turns of a run only by starting a turn after cancellation was requested.
  lemma AtMostOneTurnAfterCancel(c: Config, actions: seq<Action>, r: RunId)
    requires Legal(c, INIT, actions) && r in Execute(c, INIT, actions).runs
    ensures
      var s := Execute(c, INIT, actions);
      r in s.tallies && s.tallies[r].lateTurns <= if s.runs[r].cancelRequested then 1 else 0
  {
    ReachableInv(c, actions);
  }

  // A cancel that found the run waiting, and finds nobody at work on it when it is written, settles it at once: no
  // turn and no tool follows, and no resume claims it.
  lemma CancelledWhileWaitingStartsNothing(c: Config, s: State, o: OperatorId, later: seq<Action>)
    requires Inv(c, s) && OperatorEnabled(c, s, o, WriteCancel) && s.operators[o].seen.Waiting()
    requires forall w :: !OwnerOf(s.workers, w, s.operators[o].run)
    requires Legal(c, OperatorApply(c, s, o, WriteCancel), later)
    ensures
      var r := s.operators[o].run;
      var s' := Execute(c, OperatorApply(c, s, o, WriteCancel), later);
      && Settled(s', r) && r in s.tallies && s'.tallies[r].turns == s.tallies[r].turns
      && ExecutionsOf(s'.executions, r) == ExecutionsOf(s.executions, r)
      && (s'.runs[r].status.Cancelled? || (c.publishMayFail && s'.runs[r].status.Failed?))
  {
    ActionKept(c, s, Operator(o, WriteCancel));
    SettledForGood(c, OperatorApply(c, s, o, WriteCancel), later, s.operators[o].run);
  }
}
