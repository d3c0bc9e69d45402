// What goes wrong when publishing an event can raise, when operators act on rows that have moved on, and when an
// approval gets a second resume job. The runtime publishes after it has committed an outcome or a pause, inside the
// block whose exceptions are recorded as a failure; so a publish that raises overwrites the committed status.
module RunFaults {
  import opened Options
  import opened RunTypes
  import opened RunMachine
  import opened RunInvariant
  import opened RunSafety

  ghost predicate TerminalIsKept(c: Config, actions: seq<Action>, a: Action, r: RunId)
    requires Legal(c, INIT, actions) && Enabled(c, Execute(c, INIT, actions), a)
  {
    var s := Execute(c, INIT, actions);
    r in s.runs && s.runs[r].status.Terminal() ==>
      r in Apply(c, s, a).runs && Apply(c, s, a).runs[r].status == s.runs[r].status
  }

  // The settings that every deployment has: at least one step per run, room for one submission, and an operator
  // who decides approvals.
  ghost predicate Usable(c: Config) {
    c.window > 0 && c.deciders > 0 && forall r :: c.maxSteps(r) > 0
  }

  lemma Extend(c: Config, actions: seq<Action>, a: Action) returns (longer: seq<Action>)
    requires Legal(c, INIT, actions) && Enabled(c, Execute(c, INIT, actions), a)
    ensures Legal(c, INIT, longer) && Execute(c, INIT, longer) == Apply(c, Execute(c, INIT, actions), a)
  {
    ExecuteAppend(c, INIT, actions, a);
    longer := actions + [a];
  }

  lemma FirstRun(c: Config) returns (actions: seq<Action>)
    requires Usable(c)
    ensures Legal(c, INIT, actions)
    ensures Execute(c, INIT, actions) == Insert(INIT, 0, NewRun(0, None))
  {
    assert InWindow(INIT.submissions, 0) == {} && ActiveIn(INIT.runs, 0) == {};
    actions := Extend(c, [], Submission(0, CheckQuota(0)));
    actions := Extend(c, actions, Submission(0, InsertRun(0)));
    assert map[0 := 0] - {0} == map[];
  }

  // One run, claimed and in its first model turn. An operator may have found it queued, and be about to write that
  // it is cancelled.
  ghost predicate InFirstTurn(s: State, cancelling: bool) {
    && s.runs == map[0 := ClaimedRow(NewRun(0, None), 0)] && s.tallies.Keys == {0}
    && s.approvals == map[] && s.resumes == map[] && s.issued == {}
    && s.operators == (if cancelling then map[0 := ToCancel(0, Queued)] else map[])
    && s.workers == map[0 := Worker(0, InTurn, [], [], 0)]
    && s.executions == []
  }

  lemma FirstTurn(c: Config, cancelling: bool) returns (actions: seq<Action>)
    requires Usable(c) && (cancelling ==> c.cancellers > 0)
    ensures Legal(c, INIT, actions) && InFirstTurn(Execute(c, INIT, actions), cancelling)
  {
    actions := FirstRun(c);
    if cancelling {
      assert CancellersOf(INIT.operators, 0) == {};
      actions := Extend(c, actions, Operator(0, ReadRun(0)));
    }
    actions := Extend(c, actions, Ownership(0, Claim(0, [])));
    actions := Extend(c, actions, Turn(0, CheckCancel));
    actions := Extend(c, actions, Turn(0, StartTurn));
  }

  // ------------------------------------------------------------ terminal statuses

  // A run that has succeeded and whose success is about to be published.
  lemma SuccessBeforePublish(c: Config, cancelling: bool) returns (actions: seq<Action>)
    requires Usable(c) && (cancelling ==> c.cancellers > 0)
    ensures Legal(c, INIT, actions)
    ensures
      var s := Execute(c, INIT, actions);
      && 0 in s.runs && s.runs[0].status.Succeeded?
      && 0 in s.workers && s.workers[0].run == 0 && s.workers[0].pc == Announcing(true)
      && s.operators == (if cancelling then map[0 := ToCancel(0, Queued)] else map[])
  {
    actions := FirstTurn(c, cancelling);
    actions := Extend(c, actions, Turn(0, EndTurn("done", [])));
    actions := Extend(c, actions, Ownership(0, Finish));
  }

  // A cancel that found a run queued is written after the run has succeeded: the run ends up cancelled.
  lemma LateCancelOverwritesSuccess(c: Config) returns (actions: seq<Action>)
    requires Usable(c) && c.cancellers > 0
    ensures Legal(c, INIT, actions) && Enabled(c, Execute(c, INIT, actions), Operator(0, WriteCancel))
    ensures
      var s := Execute(c, INIT, actions);
      && 0 in s.runs && s.runs[0].status.Succeeded?
      && Apply(c, s, Operator(0, WriteCancel)).runs[0].status.Cancelled?
  {
    actions := SuccessBeforePublish(c, true);
  }

  // Terminal statuses are final exactly when publishing an event cannot raise and nobody cancels.
  lemma TerminalIsFinalIffNothingIsLate(c: Config)
    requires Usable(c)
    ensures
      (forall actions, a, r | Legal(c, INIT, actions) && Enabled(c, Execute(c, INIT, actions), a) ::
         TerminalIsKept(c, actions, a, r))
      <==> !c.publishMayFail && c.cancellers == 0
  {
    if c.publishMayFail {
      var actions := SuccessBeforePublish(c, false);
      assert !TerminalIsKept(c, actions, Ownership(0, AnnounceFails), 0);
    } else if c.cancellers > 0 {
      var actions := LateCancelOverwritesSuccess(c);
      assert !TerminalIsKept(c, actions, Operator(0, WriteCancel), 0);
    } else {
      forall actions, a, r | Legal(c, INIT, actions) && Enabled(c, Execute(c, INIT, actions), a)
        ensures TerminalIsKept(c, actions, a, r)
      {
        NothingIsLate(c, actions, a, r);
      }
    }
  }

  lemma NothingIsLate(c: Config, actions: seq<Action>, a: Action, r: RunId)
    requires Legal(c, INIT, actions) && Enabled(c, Execute(c, INIT, actions), a)
    requires !c.publishMayFail && c.cancellers == 0
    ensures TerminalIsKept(c, actions, a, r)
  {
    var s := Execute(c, INIT, actions);
    if r in s.runs && s.runs[r].status.Terminal() {
      ReachableInv(c, actions);
      OneStep(c, s, a);
      TerminalIsFinal(c, s, [a], r);
    }
  }

  // A pause whose publication raises only after the run was approved and resumed fails the run under
  // its new owner's hands; the owner goes on and executes the approved tool of a failed run.
  lemma FailedRunCanStillExecute(c: Config, name: string) returns (actions: seq<Action>)
    requires Usable(c) && c.publishMayFail && name in c.gated
    ensures Legal(c, INIT, actions)
    ensures
      var s := Execute(c, INIT, actions);
      && 0 in s.runs && s.runs[0].status.Failed?
      && OwnerOf(s.workers, 1, 0) && s.workers[1].pc == InTool(Some(0))
  {
    actions := DecidedOnce(c, [ToolCall("c", name, "")]);
    actions := Extend(c, actions, OnJob(JobId(0, 0), ReadCheckpoint));
    actions := Extend(c, actions, OnJob(JobId(0, 0), ClaimResumed(1)));
    actions := Extend(c, actions, Ownership(0, AnnounceFails));
    actions := Extend(c, actions, Tool(1, StartTool));
  }

  // A cancel that found a run queued is written after the run was claimed: its owner goes on, and executes the tool
  // of a cancelled run.
  lemma CancelledRunCanStillExecute(c: Config, name: string) returns (actions: seq<Action>)
    requires Usable(c) && c.cancellers > 0 && name !in c.gated
    ensures Legal(c, INIT, actions)
    ensures
      var s := Execute(c, INIT, actions);
      && 0 in s.runs && s.runs[0].status.Cancelled?
      && OwnerOf(s.workers, 0, 0) && s.workers[0].pc == InTool(None)
  {
    actions := FirstTurn(c, true);
    actions := Extend(c, actions, Turn(0, EndTurn("", [ToolCall("c", name, "")])));
    actions := Extend(c, actions, Operator(0, WriteCancel));
    actions := Extend(c, actions, Tool(0, StartTool));
  }

  // ------------------------------------------------------------ a second resume job

  // A run that waits for the approval of the first of these calls.
  ghost predicate FirstPause(s: State, calls: seq<ToolCall>)
    requires calls != []
  {
    && s.approvals == map[0 := Approval(0, calls[0].name, calls[0].arguments, Pending)]
    && s.resumes == map[] && s.issued == {} && s.operators == map[] && s.executions == []
    && s.runs.Keys == {0} && s.tallies.Keys == {0} && s.runs[0].status.AwaitingApproval?
    && s.runs[0].checkpoint.Some? && s.runs[0].checkpoint.value.pending == calls
    && s.workers.Keys == {0} && s.workers[0].run == 0 && s.workers[0].pc == Announcing(true)
  }

  lemma Paused(c: Config, calls: seq<ToolCall>) returns (actions: seq<Action>)
    requires Usable(c) && calls != [] && calls[0].name in c.gated
    ensures Legal(c, INIT, actions) && FirstPause(Execute(c, INIT, actions), calls)
  {
    actions := FirstTurn(c, false);
    actions := Extend(c, actions, Turn(0, EndTurn("", calls)));
    actions := Extend(c, actions, Ownership(0, Park(0)));
  }

  // The resume jobs of an approval that was granted so many times.
  function Jobs(copies: nat): map<JobId, Resume> {
    map copy | 0 <= copy < copies :: JobId(0, copy) := Resume(0, true, None)
  }

  // That run, approved, with so many resume jobs.
  ghost predicate Granted(s: State, calls: seq<ToolCall>, copies: nat)
    requires calls != []
  {
    && s.approvals == map[0 := Approval(0, calls[0].name, calls[0].arguments, Approved)]
    && s.resumes == Jobs(copies) && s.issued == s.resumes.Keys && s.operators == map[] && s.executions == []
    && s.runs.Keys == {0} && s.tallies.Keys == {0} && s.runs[0].status.AwaitingApproval?
    && s.runs[0].checkpoint.Some? && s.runs[0].checkpoint.value.pending == calls
    && s.workers.Keys == {0} && s.workers[0].run == 0 && s.workers[0].pc == Announcing(true)
  }

  lemma DecidedOnce(c: Config, calls: seq<ToolCall>) returns (actions: seq<Action>)
    requires Usable(c) && calls != [] && calls[0].name in c.gated
    ensures Legal(c, INIT, actions) && Granted(Execute(c, INIT, actions), calls, 1)
  {
    actions := Paused(c, calls);
    assert DecidersOf(map[], 0) == {};
    actions := Extend(c, actions, Operator(0, ReadApproval(0, true)));
    actions := Extend(c, actions, Operator(0, WriteDecision(0)));
  }

  // Two operators have found the same call undecided, and are about to approve it.
  ghost predicate TwoDeciding(s: State, calls: seq<ToolCall>)
    requires calls != []
  {
    && s.operators == map[0 := ToDecide(0, true), 1 := ToDecide(0, true)]
    && FirstPause(s.(operators := map[]), calls)
  }

  lemma BothRead(c: Config, calls: seq<ToolCall>) returns (actions: seq<Action>)
    requires Usable(c) && c.deciders > 1 && calls != [] && calls[0].name in c.gated
    ensures Legal(c, INIT, actions) && TwoDeciding(Execute(c, INIT, actions), calls)
  {
    actions := Paused(c, calls);
    assert DecidersOf(map[], 0) == {} && DecidersOf(map[0 := ToDecide(0, true)], 0) == {0};
    actions := Extend(c, actions, Operator(0, ReadApproval(0, true)));
    actions := Extend(c, actions, Operator(1, ReadApproval(0, true)));
  }

  lemma DecidedTwice(c: Config, calls: seq<ToolCall>) returns (actions: seq<Action>)
    requires Usable(c) && c.deciders > 1 && calls != [] && calls[0].name in c.gated
    ensures Legal(c, INIT, actions) && Granted(Execute(c, INIT, actions), calls, 2)
  {
    actions := BothRead(c, calls);
    actions := Extend(c, actions, Operator(0, WriteDecision(0)));
    actions := Extend(c, actions, Operator(1, WriteDecision(1)));
  }

  lemma TwoJobs(c: Config, calls: seq<ToolCall>) returns (actions: seq<Action>)
    requires Usable(c) && !OneJobEach(c) && calls != [] && calls[0].name in c.gated
    ensures Legal(c, INIT, actions) && Granted(Execute(c, INIT, actions), calls, 2)
  {
    if c.deciders > 1 {
      actions := DecidedTwice(c, calls);
    } else {
      actions := DecidedOnce(c, calls);
      actions := Extend(c, actions, OnJob(JobId(0, 0), RepeatJob(1)));
    }
  }

  // The first job is worked off: the run executes its first gated call under approval 0 and waits for the second
  // one's approval, while the second job has not yet been looked at.
  ghost predicate WaitsAgain(s: State, first: ToolCall, second: ToolCall) {
    && s.approvals == map[0 := Approval(0, first.name, first.arguments, Approved),
                          1 := Approval(0, second.name, second.arguments, Pending)]
    && s.resumes == map[JobId(0, 1) := Resume(0, true, None)] && s.executions == [Execution(0, first, Some(0))]
    && s.runs.Keys == {0} && s.runs[0].status.AwaitingApproval?
    && s.runs[0].checkpoint.Some? && s.runs[0].checkpoint.value.pending == [second]
    && s.workers.Keys == {0, 1}
  }

  lemma FirstJob(c: Config, first: ToolCall, second: ToolCall) returns (actions: seq<Action>)
    requires Usable(c) && !OneJobEach(c) && first.name in c.gated && second.name in c.gated
    ensures Legal(c, INIT, actions)
    ensures
      var s := Execute(c, INIT, actions);
      && s.approvals == map[0 := Approval(0, first.name, first.arguments, Approved)]
      && s.resumes == map[JobId(0, 1) := Resume(0, true, None)] && s.executions == []
      && s.runs.Keys == {0} && s.workers.Keys == {0, 1}
      && s.workers[1].run == 0 && s.workers[1].pc == Decided(0, true) && s.workers[1].calls == [first, second]
  {
    actions := TwoJobs(c, [first, second]);
    actions := Extend(c, actions, OnJob(JobId(0, 0), ReadCheckpoint));
    actions := Extend(c, actions, OnJob(JobId(0, 0), ClaimResumed(1)));
  }

  lemma SecondPause(c: Config, first: ToolCall, second: ToolCall) returns (actions: seq<Action>)
    requires Usable(c) && !OneJobEach(c) && first.name in c.gated && second.name in c.gated
    ensures Legal(c, INIT, actions) && WaitsAgain(Execute(c, INIT, actions), first, second)
  {
    actions := FirstJob(c, first, second);
    actions := Extend(c, actions, Tool(1, StartTool));
    actions := Extend(c, actions, Tool(1, EndTool("")));
    actions := Extend(c, actions, Ownership(1, Park(1)));
  }

  // The second job of the first approval, repeated by the queue or made by a second operator, finds the checkpoint
  // of the second pause and runs the second call, which nobody has approved.
  lemma SecondJobRunsTheNextCall(c: Config, first: ToolCall, second: ToolCall) returns (actions: seq<Action>)
    requires Usable(c) && !OneJobEach(c) && first.name in c.gated && second.name in c.gated
    ensures Legal(c, INIT, actions)
    ensures
      var s := Execute(c, INIT, actions);
      && s.executions == [Execution(0, first, Some(0)), Execution(0, second, Some(0))]
      && 1 in s.approvals && s.approvals[1] == Approval(0, second.name, second.arguments, Pending)
  {
    actions := SecondPause(c, first, second);
    actions := Extend(c, actions, OnJob(JobId(0, 1), ReadCheckpoint));
    actions := Extend(c, actions, OnJob(JobId(0, 1), ClaimResumed(2)));
    actions := Extend(c, actions, Tool(2, StartTool));
  }

  // The approval gate holds exactly when no two operators decide one approval at once and no resume job is repeated.
  lemma GateHoldsIffOneJobEach(c: Config)
    requires Usable(c) && c.gated != {}
    ensures
      (forall actions, i: nat | Legal(c, INIT, actions) && i < |Execute(c, INIT, actions).executions| ::
         GateHeld(c, Execute(c, INIT, actions), i))
      <==> c.deciders <= 1 && !c.jobsMayRepeat
  {
    if !OneJobEach(c) {
      var name :| name in c.gated;
      var actions := SecondJobRunsTheNextCall(c, ToolCall("a", name, ""), ToolCall("b", name, ""));
      var s := Execute(c, INIT, actions);
      assert s.executions[0].approval == s.executions[1].approval;
      assert !GateHeld(c, s, 1);
    } else {
      forall actions, i: nat | Legal(c, INIT, actions) && i < |Execute(c, INIT, actions).executions|
        ensures GateHeld(c, Execute(c, INIT, actions), i)
      {
        GatedToolsRunOncePerApproval(c, actions, i);
      }
    }
  }
}
