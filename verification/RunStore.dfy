// The database of the run protocol and the processes around it, as objects that change in place. Every method
// takes the source's steps in the source's order, with an await wherever the source has one, and is proved to be
// a legal run of the state machine, so that everything proved of legal runs holds of it. What an activation does is
// proved to be exactly the course that the world's answers and the cancellation flag prescribe (RunCourses), whatever
// others do meanwhile.
module RunStore {
  import opened Options
  import opened RunTypes
  import opened Transcript
  import opened RunMachine
  import opened RunSafety
  import opened RunFrames
  import opened RunCourses
  import opened Sizes

  datatype CancelResult = Accepted | AlreadySettled | RunNotFound
  datatype DecideResult = Recorded | AlreadyDecided | ApprovalNotFound

  class Store {
    const config: Config
    var now: nat
    var runs: map<RunId, Run>
    var approvals: map<ApprovalId, Approval>
    var resumes: map<JobId, Resume>
    var issued: set<JobId>
    var operators: map<OperatorId, Intent>
    var workers: map<WorkerId, Worker>
    var submissions: map<SubmissionId, WorkspaceId>
    var executions: seq<Execution>
    var tallies: map<RunId, Tally>
    var strandedRuns: set<RunId>
    // What the world answers, question by question.
    const world: nat -> Reply
    var asked: nat
    // What the other processes do at each await, in order; any schedule at all.
    var schedule: seq<seq<Action>>
    ghost var history: seq<Action>

    function View(): State reads this {
      State(now, runs, approvals, resumes, issued, operators, workers, submissions, executions, tallies,
            strandedRuns)
    }

    // The tables are what the history of actions made of them.
    ghost predicate Valid() reads this {
      Legal(config, INIT, history) && Execute(config, INIT, history) == View()
    }

    constructor (config: Config, world: nat -> Reply, schedule: seq<seq<Action>>)
      ensures Valid() && this.config == config && this.schedule == schedule && View() == INIT
    {
      this.config := config;
      this.world := world;
      this.asked := 0;
      this.schedule := schedule;
      now, runs, approvals, resumes, issued, operators, workers := 0, map[], map[], map[], {}, map[], map[];
      submissions, executions, tallies, strandedRuns := map[], [], map[], {};
      history := [];
    }

    // The deeds of worker w in all of the history.
    ghost function Done(w: WorkerId): seq<Deed>
      requires Valid()
      reads this
    {
      Deeds(config, INIT, history, w)
    }

    // Any one action, as one transaction.
    method Perform(a: Action)
      requires Valid() && Enabled(config, View(), a)
      modifies this
      ensures Valid() && View() == Apply(config, old(View()), a)
      ensures history == old(history) + [a] && schedule == old(schedule) && asked == old(asked)
      ensures forall w :: Done(w) == old(Done(w)) + DeedsIn(config, old(View()), a, w)
    {
      ExecuteAppend(config, INIT, history, a);
      forall w
        ensures Deeds(config, INIT, history + [a], w) == Deeds(config, INIT, history, w) + DeedsIn(config, View(), a, w)
      {
        DeedsMore(config, INIT, history, a, w);
      }
      Become(Apply(config, View(), a));
      history := history + [a];
    }

    // The tables as they are in this state.
    method Become(s: State)
      modifies this
      ensures View() == s && history == old(history) && schedule == old(schedule) && asked == old(asked)
    {
      BecomeInRows(s);
      now, operators, workers, submissions := s.now, s.operators, s.workers, s.submissions;
      executions, tallies, strandedRuns := s.executions, s.tallies, s.strandedRuns;
    }

    method BecomeInRows(s: State)
      modifies `runs, `approvals, `resumes, `issued
      ensures runs == s.runs && approvals == s.approvals && resumes == s.resumes && issued == s.issued
    {
      runs, approvals, resumes, issued := s.runs, s.approvals, s.resumes, s.issued;
    }

    // ---------------------------------------------------------- operators and recovery

    // Reads the run, and later writes what it found to be needed: the flag, and, for a run found waiting, that it is
    // cancelled. Nothing guards the write.
    method RequestCancel(run: RunId, workspace: WorkspaceId) returns (result: CancelResult)
      requires Valid() && |CancellersOf(operators, run)| < config.cancellers
      modifies this
      ensures Valid() && old(history) <= history
      ensures result.RunNotFound? <==> run !in old(runs) || old(runs)[run].workspace != workspace
      ensures result.AlreadySettled? <==>
                !result.RunNotFound? && old(runs)[run].status in {Succeeded, Failed, Cancelled}
      ensures !result.Accepted? ==> View() == old(View()) && history == old(history)
      ensures result.Accepted? ==>
                && run in runs && runs[run].cancelRequested
                && (old(runs)[run].status in {Queued, AwaitingApproval} ==> runs[run].status.Cancelled?)
                && exists o :: o !in old(operators)
                               && ReadsThenWrites(old(history), history, o, ReadRun(run), WriteCancel)
      ensures result.Accepted? && old(schedule) == [] ==>
                var row := old(runs)[run].(cancelRequested := true);
                && |history| == |old(history)| + 2
                && runs == old(runs)[run := match row.status
                                            case Queued => row.(status := Cancelled)
                                            case AwaitingApproval => row.(status := Cancelled, checkpoint := None)
                                            case _ => row]
    {
      if run !in runs || runs[run].workspace != workspace {
        return RunNotFound;
      }
      if runs[run].status.Terminal() {
        return AlreadySettled;
      }
      var o := Fresh(operators.Keys);
      Perform(Operator(o, ReadRun(run)));
      Await(Person(o));
      Perform(Operator(o, WriteCancel));
      result := Accepted;
    }

    // Reads the approval, and later writes the decision and enqueues the resume job. Nothing guards the write.
    method DecideApproval(approval: ApprovalId, approved: bool) returns (result: DecideResult)
      requires Valid() && |DecidersOf(operators, approval)| < config.deciders
      modifies this
      ensures Valid() && old(history) <= history
      ensures result.ApprovalNotFound? <==> approval !in old(approvals)
      ensures result.Recorded? <==> approval in old(approvals) && old(approvals)[approval].status.Pending?
      ensures !result.Recorded? ==> View() == old(View()) && history == old(history)
      ensures result.Recorded? ==>
                && approval in approvals && approvals[approval].status == DecisionOf(approved)
                && (exists copy :: JobId(approval, copy) in resumes
                                   && resumes[JobId(approval, copy)]
                                      == Resume(approvals[approval].run, approved, None))
                && exists o, copy :: o !in old(operators)
                                     && ReadsThenWrites(old(history), history, o, ReadApproval(approval, approved),
                                                        OperatorStep.WriteDecision(copy))
      ensures result.Recorded? && old(schedule) == [] ==>
                var row := old(approvals)[approval];
                && |history| == |old(history)| + 2 && runs == old(runs)
                && approvals == old(approvals)[approval := row.(status := if approved then Approved else Denied)]
    {
      if approval !in approvals {
        return ApprovalNotFound;
      }
      if !approvals[approval].status.Pending? {
        return AlreadyDecided;
      }
      hide Legal, Execute;
      var o := Fresh(operators.Keys);
      Perform(Operator(o, ReadApproval(approval, approved)));
      Await(Person(o));
      var copy := WriteDecision(o);
      assert ReadsThenWrites(old(history), history, o, ReadApproval(approval, approved),
                             OperatorStep.WriteDecision(copy));
      result := Recorded;
    }

    // The write of a decision, and the resume job behind it: the first of its approval, unless somebody has decided
    // it meanwhile.
    method WriteDecision(o: OperatorId) returns (copy: nat)
      requires Valid() && o in operators && operators[o].ToDecide? && RowOf(View(), Person(o))
      modifies this
      ensures Valid() && history == old(history) + [Operator(o, OperatorStep.WriteDecision(copy))]
      ensures
        var ToDecide(a, approved) := old(operators)[o];
        && a in old(approvals) && approvals == old(approvals)[a := old(approvals)[a].(status := DecisionOf(approved))]
        && runs == old(runs)
        && JobId(a, copy) in resumes && resumes[JobId(a, copy)] == Resume(approvals[a].run, approved, None)
    {
      var a := operators[o].approval;
      copy := 0;
      if !approvals[a].status.Pending? {
        copy := Fresh((set j | j in issued :: j.copy) + {0});
      }
      Perform(Operator(o, OperatorStep.WriteDecision(copy)));
    }

    // The operator's own actions among those added are these two, the first and the last of all.
    static ghost predicate ReadsThenWrites(before: seq<Action>, after: seq<Action>, o: OperatorId,
                                           read: OperatorStep, write: OperatorStep)
    {
      && |before| + 2 <= |after| && before <= after
      && after[|before|] == Operator(o, read) && after[|after| - 1] == Operator(o, write)
      && forall i :: |before| < i < |after| - 1 ==> !By(after[i], Person(o))
    }

    // ---------------------------------------------------------- the agent loop

    method Ask() returns (reply: Reply)
      modifies this`asked
      ensures reply == world(old(asked)) && asked == old(asked) + 1
    {
      reply := world(asked);
      asked := asked + 1;
    }

    // An await: the next batch of the schedule, as far as its actions are those of others and may
    // happen at all.
    method Await(me: Process)
      requires Valid() && Present(View(), me)
      modifies this
      ensures Valid() && OnlyOthers(old(history), history, me) && asked == old(asked)
      ensures me.Activation? ==> Done(me.w) == old(Done(me.w))
      ensures Untouched(old(View()), View(), me) && RowOf(View(), me)
      ensures old(schedule) == [] ==> schedule == [] && history == old(history) && View() == old(View())
    {
      if schedule != [] {
        var batch := schedule[0];
        schedule := schedule[1..];
        for i := 0 to |batch|
          invariant Valid() && OnlyOthers(old(history), history, me) && asked == old(asked)
          invariant me.Activation? ==> Done(me.w) == old(Done(me.w))
          invariant Untouched(old(View()), View(), me)
        {
          hide Valid, Untouched;
          ghost var before := View();
          Admit(batch[i], me);
          UntouchedStill(old(View()), before, View(), me);
        }
      }
      RowsExistHolds(config, history);
      hide Legal, Execute, Untouched;
    }

    // One action of somebody else, if it may happen.
    method Admit(a: Action, me: Process)
      requires Valid() && Present(View(), me)
      modifies this
      ensures Valid() && OnlyOthers(old(history), history, me) && |history| <= |old(history)| + 1
      ensures me.Activation? ==> Done(me.w) == old(Done(me.w))
      ensures schedule == old(schedule) && asked == old(asked)
      ensures Untouched(old(View()), View(), me)
    {
      if !By(a, me) && Enabled(config, View(), a) {
        RowsExistHolds(config, history);
        ActionFramed(config, View(), a, me);
        hide Apply, Enabled, RowsExist, Untouched;
        Perform(a);
      }
    }

    // How far worker w has got.
    ghost function Standing(w: WorkerId): Progress
      requires Valid() && w in workers
      reads this
    {
      Progress(Done(w), asked, false, workers[w].transcript, workers[w].calls, workers[w].steps)
    }

    // Worker w is at work on this run, and stands at pc.
    ghost predicate At(w: WorkerId, run: RunId, pc: Pc) reads this {
      w in workers && workers[w].run == run && workers[w].pc == pc && run in runs && run in tallies
    }

    // Worker w has got this far with this run: it has left, or it stands between two calls or turns.
    ghost predicate Reached(w: WorkerId, run: RunId, p: Progress)
      requires Valid()
      reads this
    {
      && asked == p.asked && Done(w) == p.deeds
      && if p.over then w !in workers else At(w, run, Draining) && Standing(w) == p
    }

    // Whatever the history has that is not a deed of worker w.
    ghost function Others(w: WorkerId): int
      requires Valid()
      reads this
    {
      |history| - |Done(w)|
    }

    ghost function SceneOf(run: RunId): Scene { Scene(config, world, run) }

    // A step of worker w, and the await behind it.
    method DoTurn(w: WorkerId, step: TurnStep)
      requires Valid() && TurnEnabled(config, View(), w, step) && !workers[w].pc.Dead?
      modifies this
      ensures Valid() && old(history) <= history && asked == old(asked)
      ensures Done(w) == old(Done(w)) + [TurnDeed(config, old(View()), w, step)]
      ensures w in workers && workers[w] == TurnApply(config, old(View()), w, step).workers[w]
      ensures workers[w].run in runs && workers[w].run in tallies
      ensures old(schedule) == [] ==> schedule == [] && Others(w) == old(Others(w))
    {
      Perform(Turn(w, step));
      Await(Activation(w));
    }

    method DoTool(w: WorkerId, step: ToolStep)
      requires Valid() && ToolEnabled(config, View(), w, step) && !workers[w].pc.Dead?
      modifies this
      ensures Valid() && old(history) <= history && asked == old(asked)
      ensures Done(w) == old(Done(w)) + [ToolDeed(config, old(View()), w, step)]
      ensures w in workers && workers[w] == ToolApply(config, old(View()), w, step).workers[w]
      ensures workers[w].run in runs && workers[w].run in tallies
      ensures old(schedule) == [] ==> schedule == [] && Others(w) == old(Others(w))
    {
      Perform(Tool(w, step));
      Await(Activation(w));
    }

    // The approval that lets the first call run, if it needed one.
    static function Via(pc: Pc): Option<ApprovalId> { if pc.Decided? then Some(pc.approval) else None }

    // A tool starts; one that delegates inserts its child run on the way.
    method StartCall(w: WorkerId, run: RunId, ghost pc: Pc, delegates: bool)
      requires Valid() && At(w, run, pc) && ToolEnabled(config, View(), w, StartTool)
      modifies this
      ensures Valid() && old(history) <= history && At(w, run, InTool(Via(pc)))
      ensures Standing(w) == old(Standing(w)).Did([Starts(Execution(run, old(workers)[w].calls[0], Via(pc)))])
                             .Did(if delegates then [Delegates(Some(run), Queued, true)] else [])
      ensures old(schedule) == [] ==> schedule == [] && Others(w) == old(Others(w))
    {
      hide Legal, Execute, Deeds, Apply, Enabled;
      DoTool(w, StartTool);
      if delegates {
        var child := Fresh(runs.Keys + tallies.Keys);
        DoTool(w, InsertChild(child));
      }
    }

    // The call that is first in line is answered, and the step recorded.
    method AnswerCall(w: WorkerId, run: RunId, ghost pc: Pc, step: ToolStep)
      requires Valid() && At(w, run, pc) && ToolEnabled(config, View(), w, step)
      requires step.RefuseTool? || step.EndTool? || step.Deny?
      modifies this
      ensures Valid() && old(history) <= history
      ensures Reached(w, run, old(Standing(w)).Answered(step.text))
      ensures old(schedule) == [] ==> schedule == [] && Others(w) == old(Others(w))
    {
      hide Legal, Execute, Deeds, Apply, Enabled;
      DoTool(w, step);
      DoTurn(w, Beat);
    }

    // A tool that runs to its end.
    method CompleteTool(w: WorkerId, run: RunId, ghost pc: Pc, text: string, delegates: bool)
      requires Valid() && At(w, run, pc) && ToolEnabled(config, View(), w, StartTool)
      modifies this
      ensures Valid() && old(history) <= history
      ensures Reached(w, run, SceneOf(run).Executed(old(Standing(w)), Via(pc), text, delegates))
      ensures old(schedule) == [] ==> schedule == [] && Others(w) == old(Others(w))
    {
      hide Legal, Execute, Deeds, Apply, Enabled;
      StartCall(w, run, pc, delegates);
      AnswerCall(w, run, InTool(Via(pc)), EndTool(text));
    }

    // Publishes a committed outcome or pause. A publish that raises is caught, if it still can be, and
    // recorded as a failure.
    method Publish(w: WorkerId)
      requires Valid() && w in workers && workers[w].pc.Announcing? && workers[w].run in runs
      modifies this
      ensures Valid() && old(history) <= history
      ensures
        var run, guarded := old(workers)[w].run, old(workers)[w].pc.guarded;
        Reached(w, run, SceneOf(run).Published(old(Standing(w)), guarded))
      ensures old(schedule) == [] ==> schedule == [] && Others(w) == old(Others(w))
    {
      hide Legal, Execute, Deeds;
      var reply := Ask();
      if config.publishMayFail && reply.publishRaises && workers[w].pc.guarded {
        Perform(Ownership(w, AnnounceFails));
      } else {
        Perform(Ownership(w, Announce));
      }
    }

    // Commits the outcome or the pause that step records, then publishes it.
    method Commit(w: WorkerId, run: RunId, step: OwnershipStep)
      requires Valid() && OwnershipEnabled(config, View(), w, step) && (step.Finish? || step.Park?)
      requires workers[w].run == run
      modifies this
      ensures Valid() && old(history) <= history
      ensures
        var p := old(Standing(w)).Did([OwnershipDeed(config, old(View()), w, step)]);
        Reached(w, run, SceneOf(run).Published(p, !old(workers)[w].pc.Broken?))
      ensures old(schedule) == [] ==> schedule == [] && Others(w) == old(Others(w))
    {
      hide Legal, Execute, Deeds, Enabled;
      Perform(Ownership(w, step));
      Await(Activation(w));
      hide Apply, OwnershipEnabled;
      Publish(w);
    }

    // The outcome that the loop has come to.
    method FinishRun(w: WorkerId, run: RunId, status: Status)
      requires Valid() && w in workers && workers[w].run == run && run in runs
      requires PendingOutcome(config, workers[w]) == Some(status) && !workers[w].pc.Broken?
      modifies this
      ensures Valid() && old(history) <= history
      ensures Reached(w, run, SceneOf(run).Ended(old(Standing(w)), status))
      ensures old(schedule) == [] ==> schedule == [] && Others(w) == old(Others(w))
    {
      hide Legal, Execute, Deeds, Apply, Enabled;
      Commit(w, run, Finish);
    }

    // An exception inside the loop is caught, and the run is recorded as failed.
    method FailRun(w: WorkerId, run: RunId)
      requires Valid() && TurnEnabled(config, View(), w, Break) && workers[w].run == run
      modifies this
      ensures Valid() && old(history) <= history
      ensures Reached(w, run, SceneOf(run).Broken(old(Standing(w))))
      ensures old(schedule) == [] ==> schedule == [] && Others(w) == old(Others(w))
    {
      hide Legal, Execute, Deeds, Apply, Enabled;
      DoTurn(w, Break);
      Commit(w, run, Finish);
    }

    // A gated call parks the run, with that call still first among the pending ones.
    method ParkRun(w: WorkerId, run: RunId)
      requires Valid() && At(w, run, Draining) && workers[w].calls != [] && workers[w].calls[0].name in config.gated
      modifies this
      ensures Valid() && old(history) <= history
      ensures Reached(w, run, SceneOf(run).Parked(old(Standing(w))))
      ensures old(schedule) == [] ==> schedule == [] && Others(w) == old(Others(w))
    {
      hide Legal, Execute, Deeds, Apply, Enabled;
      var approval := Fresh(approvals.Keys);
      Commit(w, run, Park(approval));
    }

    // The call that is first in line: answered, or the end of the activation.
    method NextCall(w: WorkerId, run: RunId) returns (over: bool)
      requires Valid() && At(w, run, Draining) && workers[w].calls != []
      modifies this
      ensures Valid() && old(history) <= history
      ensures
        var p := SceneOf(run).Called(old(Standing(w)));
        Reached(w, run, p) && over == p.over
      ensures old(schedule) == [] ==> schedule == [] && Others(w) == old(Others(w))
    {
      hide Legal, Execute, Deeds, Apply, Enabled, Scene.Executed, Scene.Broken, Scene.Parked;
      var reply := Ask();
      over := true;
      if reply.tool.ToolRefused? {
        AnswerCall(w, run, Draining, RefuseTool(reply.tool.text));
        over := false;
      } else if workers[w].calls[0].name in config.gated {
        ParkRun(w, run);
      } else if reply.tool.ToolReturns? {
        CompleteTool(w, run, Draining, reply.tool.text, reply.tool.delegates);
        over := false;
      } else {
        BreakInTool(w, run);
      }
    }

    // The tool raises, and the run fails of it.
    method BreakInTool(w: WorkerId, run: RunId)
      requires Valid() && At(w, run, Draining) && ToolEnabled(config, View(), w, StartTool)
      modifies this
      ensures Valid() && old(history) <= history
      ensures
        var started := Starts(Execution(run, old(workers)[w].calls[0], None));
        Reached(w, run, SceneOf(run).Broken(old(Standing(w)).Did([started])))
      ensures old(schedule) == [] ==> schedule == [] && Others(w) == old(Others(w))
    {
      hide Legal, Execute, Deeds, Apply, Enabled, Scene.Broken;
      DoTool(w, StartTool);
      FailRun(w, run);
    }

    // Works off the calls of the last model turn, one tool after the other, up to one that ends the activation.
    method WorkOff(w: WorkerId, run: RunId) returns (over: bool)
      requires Valid() && At(w, run, Draining)
      modifies this
      ensures Valid() && old(history) <= history
      ensures
        var p := SceneOf(run).WorkedOff(old(Standing(w)));
        Reached(w, run, p) && over == p.over
      ensures old(schedule) == [] ==> schedule == [] && Others(w) == old(Others(w))
    {
      hide Legal, Execute, Deeds, Apply, Enabled;
      over := false;
      ghost var p := Standing(w);
      while !over && workers[w].calls != []
        invariant Valid() && old(history) <= history
        invariant Reached(w, run, p) && over == p.over
        invariant SceneOf(run).WorkedOff(p) == SceneOf(run).WorkedOff(old(Standing(w)))
        invariant old(schedule) == [] ==> schedule == [] && Others(w) == old(Others(w))
        decreases !over, |p.calls|
      {
        p := SceneOf(run).Called(p);
        over := NextCall(w, run);
      }
    }

    // The model call itself, and the step record behind it. A turn that raises or has no calls ends the activation.
    method ModelTurn(w: WorkerId, run: RunId) returns (over: bool)
      requires Valid() && At(w, run, Cleared) && workers[w].calls == []
      modifies this
      ensures Valid() && old(history) <= history
      ensures
        var p := SceneOf(run).Asked(old(Standing(w)));
        Reached(w, run, p) && over == p.over
      ensures old(schedule) == [] ==> schedule == [] && Others(w) == old(Others(w))
    {
      hide Legal, Execute, Deeds, Apply, Enabled, Scene.Broken, Scene.Returned;
      DoTurn(w, StartTurn);
      var reply := Ask();
      ghost var p := old(Standing(w)).Did([Asks(old(workers)[w].transcript)]).(asked := asked);
      assert Standing(w) == p;
      if reply.turn.TurnRaises? {
        FailRun(w, run);
        over := true;
      } else {
        over := ReturnTurn(w, run, reply.turn.content, reply.turn.calls);
      }
    }

    // The model has answered: a turn without calls finishes the run.
    method ReturnTurn(w: WorkerId, run: RunId, content: string, calls: seq<ToolCall>) returns (over: bool)
      requires Valid() && At(w, run, InTurn) && workers[w].calls == []
      modifies this
      ensures Valid() && old(history) <= history
      ensures
        var p := SceneOf(run).Returned(old(Standing(w)), content, calls);
        Reached(w, run, p) && over == p.over
      ensures old(schedule) == [] ==> schedule == [] && Others(w) == old(Others(w))
    {
      hide Legal, Execute, Deeds, Apply, Enabled, Scene.Ended;
      RecordTurn(w, run, content, calls);
      over := calls == [];
      if over {
        FinishRun(w, run, Succeeded);
      }
    }

    // The answer is taken over, and the step recorded.
    method RecordTurn(w: WorkerId, run: RunId, content: string, calls: seq<ToolCall>)
      requires Valid() && At(w, run, InTurn) && workers[w].calls == []
      modifies this
      ensures Valid() && old(history) <= history
      ensures At(w, run, if calls == [] then Pc.Answered(content) else Draining)
      ensures Standing(w) == old(Standing(w)).Told(content, calls)
      ensures old(schedule) == [] ==> schedule == [] && Others(w) == old(Others(w))
    {
      hide Legal, Execute, Deeds, Apply, Enabled;
      DoTurn(w, EndTurn(content, calls));
      DoTurn(w, Beat);
    }

    // The head of the loop and the turn behind it. The cancellation flag is read before every turn, and ends the
    // activation when it is set.
    method TakeTurn(w: WorkerId, run: RunId) returns (over: bool, ghost flag: bool)
      requires Valid() && At(w, run, Draining) && workers[w].calls == []
      requires workers[w].steps < config.maxSteps(run)
      modifies this
      ensures Valid() && old(history) <= history
      ensures flag == old(runs)[run].cancelRequested
      ensures
        var p := SceneOf(run).Turned(old(Standing(w)), flag);
        Reached(w, run, p) && over == p.over
      ensures old(schedule) == [] ==> schedule == [] && Others(w) == old(Others(w))
    {
      hide Legal, Execute, Deeds, Apply, Enabled;
      flag := runs[run].cancelRequested;
      DoTurn(w, CheckCancel);
      if workers[w].pc.Cancelling? {
        FinishRun(w, run, Cancelled);
        over := true;
      } else {
        over := ModelTurn(w, run);
      }
    }

    // One round of the loop: a turn, and its calls.
    method Round(w: WorkerId, run: RunId) returns (over: bool, ghost flag: bool)
      requires Valid() && At(w, run, Draining) && workers[w].calls == []
      requires workers[w].steps < config.maxSteps(run)
      modifies this
      ensures Valid() && old(history) <= history
      ensures flag == old(runs)[run].cancelRequested
      ensures
        var p := SceneOf(run).WorkedOff(SceneOf(run).Turned(old(Standing(w)), flag));
        Reached(w, run, p) && over == p.over
      ensures old(schedule) == [] ==> schedule == [] && Others(w) == old(Others(w))
    {
      hide Legal, Execute, Deeds, Apply, Enabled, Scene.Turned;
      over, flag := TakeTurn(w, run);
      if !over {
        over := WorkOff(w, run);
      }
    }

    // The model-and-tools loop of one activation, from the calls it was left with to the end of its
    // ownership of the run. `flags` is what its reads of the cancellation flag found.
    method Loop(w: WorkerId, run: RunId) returns (ghost flags: seq<bool>)
      requires Valid() && At(w, run, Draining)
      modifies this
      ensures Valid() && old(history) <= history && w !in workers
      ensures SceneOf(run).Suffice(old(Standing(w)), flags)
      ensures Reached(w, run, SceneOf(run).Looped(old(Standing(w)), flags))
      ensures old(schedule) == [] ==> schedule == [] && Others(w) == old(Others(w))
    {
      hide Legal, Execute, Deeds, Apply, Enabled, Scene.Turned, Scene.WorkedOff;
      flags := [];
      var over := WorkOff(w, run);
      ghost var first := SceneOf(run).WorkedOff(old(Standing(w)));
      ghost var p := first;
      while !over && workers[w].steps < config.maxSteps(run)
        invariant Valid() && old(history) <= history
        invariant Reached(w, run, p) && over == p.over && (!over ==> p.calls == [])
        invariant p == SceneOf(run).Rounds(first, flags)
        invariant old(schedule) == [] ==> schedule == [] && Others(w) == old(Others(w))
        decreases !over, config.maxSteps(run) - p.steps
      {
        hide Scene.Rounds;
        ghost var flag;
        over, flag := Round(w, run);
        RoundsMore(SceneOf(run), first, flags, flag);
        p, flags := SceneOf(run).WorkedOff(SceneOf(run).Turned(p, flag)), flags + [flag];
      }
      if !over {
        FinishRun(w, run, Failed);
      }
    }

    // Drives a queued run to an outcome or a pause. Nothing happens unless the claim is won; once it is, the activation
    // does exactly what the world's answers and the cancellation flag prescribe, from its claim to its end.
    method ExecuteRun(w: WorkerId, run: RunId, profileExists: bool, transcript: seq<Message>)
      returns (ghost flags: seq<bool>)
      requires Valid() && w !in workers && CarriesNoCalls(transcript)
      modifies this
      ensures Valid() && old(history) <= history && w !in workers
      ensures
        if run !in old(runs) || !old(runs)[run].status.Queued? then View() == old(View()) && history == old(history)
        else if !profileExists then
          && history == old(history) + [OnRun(run, ClaimOrphaned)]
          && var row := old(runs)[run].(status := Failed, checkpoint := None, heartbeat := Some(old(now)));
             View() == old(View()).(runs := old(runs)[run := row])
        else
          var row := old(runs)[run];
          var claimed := row.(status := Running, checkpoint := None, heartbeat := Some(old(now)));
          var start := Progress(old(Done(w)) + [Claims(claimed)], old(asked), false, transcript, [], row.stepCount);
          SceneOf(run).Suffice(start, flags) && Reached(w, run, SceneOf(run).Looped(start, flags))
      ensures old(schedule) == [] && profileExists ==> schedule == [] && Others(w) == old(Others(w))
    {
      hide Legal, Execute, Deeds;
      flags := [];
      if run !in runs || !runs[run].status.Queued? {
        return;
      }
      if !profileExists {
        Perform(OnRun(run, ClaimOrphaned));
        return;
      }
      RowsExistHolds(config, history);
      Perform(Ownership(w, Claim(run, transcript)));
      hide Enabled, Apply, RowsExist;
      flags := Loop(w, run);
    }

    // The gated call of a resumed run: it runs if it was approved, unless the executor refuses it, and is answered with
    // the denial if not.
    method GatedCall(w: WorkerId, run: RunId, approval: ApprovalId, approved: bool) returns (died: bool)
      requires Valid() && At(w, run, Pc.Decided(approval, approved)) && workers[w].calls != []
      modifies this
      ensures Valid() && old(history) <= history
      ensures
        var p := SceneOf(run).Decided(old(Standing(w)), approval, approved);
        && died == p.over
        && if died then asked == p.asked && Done(w) == p.deeds && w in workers && workers[w].pc.Dead?
           else Reached(w, run, p)
      ensures old(schedule) == [] ==> schedule == [] && Others(w) == old(Others(w))
    {
      hide Legal, Execute, Deeds, Enabled, Apply, Scene.Executed;
      died := false;
      if !approved {
        AnswerCall(w, run, Pc.Decided(approval, approved), Deny(DENIAL));
        return;
      }
      var reply := Ask();
      if reply.tool.ToolRefused? {
        AnswerCall(w, run, Pc.Decided(approval, approved), RefuseTool(reply.tool.text));
      } else if reply.tool.ToolReturns? {
        CompleteTool(w, run, Pc.Decided(approval, approved), reply.tool.text, reply.tool.delegates);
      } else {
        DieInTool(w, run, approval);
        died := true;
      }
    }

    // The approved tool raises, and the activation dies of it.
    method DieInTool(w: WorkerId, run: RunId, approval: ApprovalId)
      requires Valid() && At(w, run, Pc.Decided(approval, true)) && workers[w].calls != []
      modifies this
      ensures Valid() && old(history) <= history && asked == old(asked)
      ensures Done(w) == old(Done(w)) + [Starts(Execution(run, old(workers)[w].calls[0], Some(approval))), Dies]
      ensures w in workers && workers[w].pc.Dead?
      ensures old(schedule) == [] ==> schedule == [] && Others(w) == old(Others(w))
    {
      hide Legal, Execute, Deeds;
      DoTool(w, StartTool);
      Perform(Ownership(w, Die));
    }

    // The decided call, and then the loop with the other pending calls.
    method Continue(w: WorkerId, run: RunId, approval: ApprovalId, approved: bool) returns (ghost flags: seq<bool>)
      requires Valid() && At(w, run, Pc.Decided(approval, approved)) && workers[w].calls != []
      modifies this
      ensures Valid() && old(history) <= history
      ensures SceneOf(run).SufficeResumed(old(Standing(w)), approval, approved, flags)
      ensures
        var p := SceneOf(run).Resumed(old(Standing(w)), approval, approved, flags);
        asked == p.asked && Done(w) == p.deeds && (w in workers ==> workers[w].pc.Dead?)
      ensures old(schedule) == [] ==> schedule == [] && Others(w) == old(Others(w))
    {
      hide Legal, Execute, Deeds, Enabled, Apply, Scene.Decided, Scene.Looped, Scene.Suffice;
      Await(Activation(w));
      flags := [];
      var died := GatedCall(w, run, approval, approved);
      if !died {
        flags := Loop(w, run);
      }
    }

    // The claim itself, by compare-and-swap. One that is lost changes nothing, and one without a profile fails the run.
    method TryClaim(j: JobId, profileExists: bool) returns (w: WorkerId)
      requires Valid() && j in resumes && resumes[j].read.Some? && resumes[j].run in runs && resumes[j].run in tallies
      requires resumes[j].read.value.pending != []
      modifies this
      ensures Valid() && history == old(history) + [OnJob(j, JobClaim(profileExists, w))]
      ensures schedule == old(schedule) && asked == old(asked) && w !in old(workers)
      ensures
        var job := old(resumes)[j];
        var row := old(runs)[job.run];
        var claimed := row.(status := Running, checkpoint := None, heartbeat := Some(old(now)));
        if !row.status.AwaitingApproval? then
          View() == old(View()).(resumes := old(resumes) - {j}) && Done(w) == old(Done(w))
        else if !profileExists then
          && View() == old(View()).(resumes := old(resumes) - {j},
                                    runs := old(runs)[job.run := claimed.(status := Failed)])
          && Done(w) == old(Done(w))
        else
          && At(w, job.run, Pc.Decided(j.approval, job.approved))
          && Standing(w) == Progress(old(Done(w)) + [Claims(claimed)], old(asked), false,
                                     job.read.value.messages, job.read.value.pending, row.stepCount)
          && issued == old(issued) && j !in resumes
    {
      hide Legal, Execute, Deeds;
      w := Fresh(workers.Keys);
      if profileExists {
        Perform(OnJob(j, ClaimResumed(w)));
      } else {
        Perform(OnJob(j, ClaimResumedOrphaned));
      }
    }

    // The claim of a resumed run, and what follows if it is won by the activation w.
    method ClaimParked(j: JobId, profileExists: bool) returns (ghost w: WorkerId, ghost flags: seq<bool>)
      requires Valid() && j in resumes && resumes[j].read.Some? && resumes[j].run in runs
      modifies this
      ensures Valid() && old(history) + [OnJob(j, JobClaim(profileExists, w))] <= history
      ensures Own(history, Job(j)) == Own(old(history), Job(j)) + [OnJob(j, JobClaim(profileExists, w))]
      ensures Gone(View(), j)
      ensures AfterClaim(old(View()), old(Done(w)), old(asked), j, profileExists, w, flags)
      ensures old(schedule) == [] ==> NothingElse(|history| - |old(history)|, |Done(w)| - |old(Done(w))|)
    {
      hide Legal, Execute, Deeds, Own, Enabled, Apply;
      JobHasRead(j);
      var job := resumes[j];
      ghost var before := history;
      flags := [];
      var v := TryClaim(j, profileExists);
      w := v;
      ghost var claimed := history;
      if v in workers && workers[v].calls != [] {
        flags := Continue(v, job.run, j.approval, job.approved);
      }
      StillGone(config, before, claimed[|before|], history, j);
    }

    // A job that has read a checkpoint is about a run that exists, and a call that is pending.
    lemma JobHasRead(j: JobId)
      requires Valid() && j in resumes && resumes[j].read.Some?
      ensures resumes[j].run in runs && resumes[j].run in tallies && resumes[j].read.value.pending != []
      ensures j in issued
    {
      ReachableInv(config, history);
      RowsExistHolds(config, history);
    }

    // The actions that were added are the deeds of an activation that started, or the claim alone.
    static predicate NothingElse(actions: int, deeds: int) { actions == if deeds > 0 then deeds else 1 }

    // What has become of a job that claimed its run in state s, when worker w had these deeds and so many questions had
    // been asked. A claim that is lost changes nothing, and one without a profile fails the run; after one that is won,
    // the new activation goes its course from the checkpoint that the job has read.
    ghost predicate AfterClaim(s: State, done: seq<Deed>, questions: nat, j: JobId, profileExists: bool, w: WorkerId,
                               flags: seq<bool>)
      requires Valid() && j in s.resumes && s.resumes[j].read.Some? && s.resumes[j].run in s.runs
      reads this
    {
      var job := s.resumes[j];
      var row := s.runs[job.run];
      var claimed := row.(status := Running, checkpoint := None, heartbeat := Some(s.now));
      if !row.status.AwaitingApproval? then View() == s.(resumes := s.resumes - {j}) && Done(w) == done
      else if !profileExists then
        && View() == s.(resumes := s.resumes - {j}, runs := s.runs[job.run := claimed.(status := Failed)])
        && Done(w) == done
      else
        && job.read.value.pending != [] && w !in s.workers
        && var start := Progress(done + [Claims(claimed)], questions, false,
                                 job.read.value.messages, job.read.value.pending, row.stepCount);
           Resumes(w, job.run, start, j.approval, job.approved, flags)
    }

    // A resumed activation has come to its end.
    ghost predicate Resumes(w: WorkerId, run: RunId, start: Progress, approval: ApprovalId, approved: bool,
                            flags: seq<bool>)
      requires Valid() && start.calls != []
      reads this
    {
      && SceneOf(run).SufficeResumed(start, approval, approved, flags)
      && var p := SceneOf(run).Resumed(start, approval, approved, flags);
         asked == p.asked && Done(w) == p.deeds && (w in workers ==> workers[w].pc.Dead?)
    }

    static ghost function JobClaim(profileExists: bool, w: WorkerId): JobStep {
      if profileExists then ClaimResumed(w) else ClaimResumedOrphaned
    }

    // The approved call of a claim that is won has been executed.
    lemma ApprovedCallRan(s: State, done: seq<Deed>, questions: nat, j: JobId, w: WorkerId, flags: seq<bool>)
      requires Valid() && j in s.resumes && s.resumes[j].read.Some? && s.resumes[j].run in s.runs
      requires AfterClaim(s, done, questions, j, true, w, flags)
      requires s.runs[s.resumes[j].run].status.AwaitingApproval? && s.resumes[j].approved
      requires !world(questions).tool.ToolRefused?
      ensures
        var job := s.resumes[j];
        && job.read.value.pending != []
        && Execution(job.run, job.read.value.pending[0], Some(j.approval)) in executions
    {
      hide Legal, Execute, Deeds;
      var job := s.resumes[j];
      var row := s.runs[job.run];
      var claimed := row.(status := Running, checkpoint := None, heartbeat := Some(s.now));
      var start := Progress(done + [Claims(claimed)], questions, false,
                            job.read.value.messages, job.read.value.pending, row.stepCount);
      var e := Execution(job.run, job.read.value.pending[0], Some(j.approval));
      DecidedCallComesFirst(SceneOf(job.run), start, j.approval, true, flags);
      hide Scene.Resumed, Scene.SufficeResumed;
      assert Starts(e) in Done(w);
      assert StartedBy(config, INIT, history, e, w);
      ExecutionsAreDeeds(config, INIT, history, e);
    }

    lemma JobIsAboutRun(j: JobId)
      requires Valid() && j in resumes
      ensures resumes[j].run in runs && j in issued
    {
      RowsExistHolds(config, history);
    }

    // Status and checkpoint are read; a job whose run is not parked ends here.
    method ReadParked(j: JobId)
      requires Valid() && j in resumes && resumes[j].read.None?
      modifies this
      ensures Valid() && old(history) + [OnJob(j, ReadCheckpoint)] <= history && asked == old(asked)
      ensures Own(history, Job(j)) == Own(old(history), Job(j)) + [OnJob(j, ReadCheckpoint)]
      ensures old(resumes)[j].run in old(runs)
      ensures
        var row := old(runs)[old(resumes)[j].run];
        if !row.status.AwaitingApproval? || row.checkpoint.None? then
          && history == old(history) + [OnJob(j, ReadCheckpoint)]
          && View() == old(View()).(resumes := old(resumes) - {j}) && Gone(View(), j)
        else
          j in resumes && resumes[j] == old(resumes)[j].(read := row.checkpoint) && resumes[j].run in runs
      ensures
        var row := old(runs)[old(resumes)[j].run];
        old(schedule) == [] && row.status.AwaitingApproval? && row.checkpoint.Some? ==>
          && schedule == [] && history == old(history) + [OnJob(j, ReadCheckpoint)]
          && View() == old(View()).(resumes := old(resumes)[j := old(resumes)[j].(read := row.checkpoint)])
    {
      hide Legal, Execute, Deeds, Own;
      JobIsAboutRun(j);
      Perform(OnJob(j, ReadCheckpoint));
      ghost var read := history;
      OwnSplits(old(history), [OnJob(j, ReadCheckpoint)], Job(j));
      OwnOne(OnJob(j, ReadCheckpoint), Job(j));
      if j in resumes {
        Await(Job(j));
        OthersAddNone(read, history, Job(j));
      }
    }

    // Continues a parked run once its approval has been decided. The approval itself is not looked at again: status and
    // checkpoint are read in one transaction, and the run is claimed in another. `read` is the history up to the claim.
    method ResumeRun(j: JobId, profileExists: bool)
      returns (ghost read: seq<Action>, ghost w: WorkerId, ghost flags: seq<bool>)
      requires Valid() && j in resumes && resumes[j].read.None?
      modifies this
      ensures Valid() && old(history) + [OnJob(j, ReadCheckpoint)] <= read <= history
      ensures Gone(View(), j) && old(resumes)[j].run in old(runs)
      ensures
        var row := old(runs)[old(resumes)[j].run];
        if !row.status.AwaitingApproval? || row.checkpoint.None? then
          && history == old(history) + [OnJob(j, ReadCheckpoint)]
          && View() == old(View()).(resumes := old(resumes) - {j})
        else
          && Own(history, Job(j))
             == Own(old(history), Job(j)) + [OnJob(j, ReadCheckpoint), OnJob(j, JobClaim(profileExists, w))]
          && ClaimedAt(read, j, old(resumes)[j].(read := row.checkpoint))
          && AfterClaim(Execute(config, INIT, read), Deeds(config, INIT, read, w), old(asked), j, profileExists, w,
                        flags)
      ensures old(schedule) == [] ==> read == old(history) + [OnJob(j, ReadCheckpoint)]
      ensures
        var job := old(resumes)[j];
        var row := old(runs)[job.run];
        old(schedule) == [] && profileExists && job.approved && row.status.AwaitingApproval? && row.checkpoint.Some?
        && !world(old(asked)).tool.ToolRefused? ==>
          row.checkpoint.value.pending != []
          && Execution(job.run, row.checkpoint.value.pending[0], Some(j.approval)) in executions
    {
      hide Legal, Execute, Deeds, Own, AfterClaim;
      flags, w := [], 0;
      ReadParked(j);
      read := history;
      ghost var s := View();
      if j in resumes {
        w, flags := ClaimParked(j, profileExists);
        if profileExists && s.resumes[j].approved && s.runs[s.resumes[j].run].status.AwaitingApproval?
           && !world(old(asked)).tool.ToolRefused? {
          ApprovedCallRan(s, Deeds(config, INIT, read, w), old(asked), j, w, flags);
        }
      }
    }

    // When this much had happened, the job had read its checkpoint and claimed its run.
    ghost predicate ClaimedAt(read: seq<Action>, j: JobId, job: Resume) {
      && Legal(config, INIT, read)
      && var s := Execute(config, INIT, read);
         j in s.resumes && s.resumes[j] == job && job.read.Some? && job.run in s.runs
    }

    // ---------------------------------------------------------- submission and recovery

    // Checks both quotas and, in a later transaction, inserts the run. At most `window` submissions of a
    // workspace are between the two at any time. How many runs the workspace has started in the last hour is
    // counted for the hourly quota.
    method SubmitMessage(workspace: WorkspaceId, lastHour: nat, hourlyLimit: int) returns (run: Option<RunId>)
      requires Valid() && |InWindow(submissions, workspace)| < config.window
      modifies this
      ensures Valid() && old(history) <= history
      ensures
        var active := set r | r in old(runs) && old(runs)[r].workspace == workspace
                              && old(runs)[r].status in {Queued, Running, AwaitingApproval};
        run.None? <==> (config.limit > 0 && |active| >= config.limit) || (hourlyLimit > 0 && lastHour >= hourlyLimit)
      ensures run.None? ==> View() == old(View()) && history == old(history)
      ensures run.Some? ==>
                && run.value in runs && runs[run.value] == Run(workspace, None, Queued, None, 0, false, None)
                && exists u :: u !in old(submissions)
                               && Own(history, Submitter(u)) == Own(old(history), Submitter(u))
                                  + [Submission(u, CheckQuota(workspace)), Submission(u, InsertRun(run.value))]
      ensures run.Some? && old(schedule) == [] ==>
                |history| == |old(history)| + 2 && runs == old(runs)[run.value := runs[run.value]]
    {
      hide Legal, Execute, Deeds, Own;
      assert ActiveIn(runs, workspace) == set r | r in runs && runs[r].workspace == workspace
                                                  && runs[r].status in {Queued, Running, AwaitingApproval};
      if config.limit > 0 && |ActiveIn(runs, workspace)| >= config.limit {
        return None;
      }
      if hourlyLimit > 0 && lastHour >= hourlyLimit {
        return None;
      }
      var u := Fresh(submissions.Keys);
      Perform(Submission(u, CheckQuota(workspace)));
      OwnSplits(old(history), [Submission(u, CheckQuota(workspace))], Submitter(u));
      OwnOne(Submission(u, CheckQuota(workspace)), Submitter(u));
      var id := InsertLater(u);
      run := Some(id);
    }

    // Others act, and then the run of a checked submission is inserted.
    method InsertLater(u: SubmissionId) returns (run: RunId)
      requires Valid() && u in submissions
      modifies this
      ensures Valid() && old(history) <= history
      ensures run in runs && runs[run] == Run(old(submissions)[u], None, Queued, None, 0, false, None)
      ensures Own(history, Submitter(u)) == Own(old(history), Submitter(u)) + [Submission(u, InsertRun(run))]
      ensures old(schedule) == [] ==>
                history == old(history) + [Submission(u, InsertRun(run))] && runs == old(runs)[run := runs[run]]
    {
      hide Legal, Execute, Deeds, Own;
      Await(Submitter(u));
      OthersAddNone(old(history), history, Submitter(u));
      ghost var waited := history;
      run := Fresh(runs.Keys + tallies.Keys);
      Perform(Submission(u, InsertRun(run)));
      OwnSplits(waited, [Submission(u, InsertRun(run))], Submitter(u));
      OwnOne(Submission(u, InsertRun(run)), Submitter(u));
    }

    predicate Orphaned(runs: map<RunId, Run>, r: RunId) reads this {
      r in runs && runs[r].status.Running?
      && runs[r].heartbeat.Some? && runs[r].heartbeat.value + config.staleAfter < now
    }

    method RequeueOne(r: RunId)
      requires Valid() && Orphaned(runs, r)
      requires forall w :: OwnerOf(workers, w, r) ==> workers[w].pc.Dead?
      modifies this
      ensures Valid() && old(history) <= history && now == old(now)
      ensures runs == old(runs)[r := old(runs)[r].(status := Queued, heartbeat := None)]
      ensures workers.Keys <= old(workers).Keys && forall w :: w in workers ==> workers[w] == old(workers)[w]
    {
      hide Deeds;
      ReachableInv(config, history);
      assert exists w :: OwnerOf(workers, w, r);
      var dead :| dead in workers && OwnerOf(workers, dead, r);
      Perform(OnRun(r, Requeue(dead)));
    }

    // Returns every orphaned run to the queue and leaves all other runs alone. Assumption A: the owner of
    // a run whose heartbeat is stale is dead.
    method RequeueOrphanedRuns() returns (requeued: seq<RunId>)
      requires Valid()
      requires forall w, r :: OwnerOf(workers, w, r) && Orphaned(runs, r) ==> workers[w].pc.Dead?
      modifies this
      ensures Valid() && old(history) <= history
      ensures
        var orphans := set r | r in old(runs) && old(runs)[r].status.Running? && old(runs)[r].heartbeat.Some?
                               && old(runs)[r].heartbeat.value + config.staleAfter < old(now);
        && (forall r :: r in requeued <==> r in orphans)
        && runs == map r | r in old(runs) ::
             if r in orphans then old(runs)[r].(status := Queued, heartbeat := None) else old(runs)[r]
    {
      var orphans := set r | r in runs && Orphaned(runs, r);
      var todo := orphans;
      requeued := [];
      while todo != {}
        invariant Valid() && old(history) <= history && now == old(now) && todo <= orphans
        invariant runs.Keys == old(runs).Keys
        invariant forall r :: r in runs ==>
                    runs[r] == if r in orphans && r !in todo then old(runs)[r].(status := Queued, heartbeat := None)
                               else old(runs)[r]
        invariant forall r :: r in requeued <==> r in orphans && r !in todo
        invariant workers.Keys <= old(workers).Keys
        invariant forall w :: w in workers ==> workers[w] == old(workers)[w]
        decreases |todo|
      {
        hide Valid, Legal, Execute, Deeds;
        var r :| r in todo;
        forall w | OwnerOf(workers, w, r)
          ensures workers[w].pc.Dead?
        {
          assert OwnerOf(old(workers), w, r);
        }
        RequeueOne(r);
        requeued := requeued + [r];
        todo := todo - {r};
      }
    }
  }
}
