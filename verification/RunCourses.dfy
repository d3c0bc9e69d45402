// What an activation of the runtime must do, question by question that it asks of the model and the tools. A deed
// is one action of an activation as it shows in the tables; a course is the deeds that the source prescribes.
module RunCourses {
  import opened Options
  import opened RunTypes
  import opened RunMachine

  // What lies outside the platform: the model, the tools, and the event bus. A turn or a tool may raise;
  // a tool may also be refused by the executor, for want of a grant or for invalid arguments, and the tool that
  // delegates inserts a child run.
  datatype TurnResult = TurnRaises | TurnReturns(content: string, calls: seq<ToolCall>)
  datatype ToolOutcome = ToolRefused(text: string) | ToolRaises | ToolReturns(text: string, delegates: bool)
  datatype Reply = Reply(turn: TurnResult, tool: ToolOutcome, publishRaises: bool)

  const DENIAL := "The human operator denied this action. Choose another approach."

  // What an action of an activation reads or leaves behind: the flag it found, the conversation the model is given,
  // the message that was added, the execution, and the columns that were written.
  datatype Deed =
    | Checks(flag: bool)
    | Asks(conversation: seq<Message>)
    | Tells(message: Message)
    | Starts(execution: Execution)
    | Delegates(parent: Option<RunId>, status: Status, sameWorkspace: bool)
    | Beats(alive: bool)
    | Breaks
    | Claims(row: Run)
    | Parks(approval: Approval, status: Status, checkpoint: Option<Checkpoint>, steps: nat)
    | Finishes(status: Status, checkpoint: Option<Checkpoint>, steps: nat, heartbeat: Option<nat>)
    | Announces
    | Overwrites(status: Status)
    | Dies

  // ------------------------------------------------------------ the deeds of a history

  ghost function TurnDeed(c: Config, s: State, w: WorkerId, step: TurnStep): Deed
    requires TurnEnabled(c, s, w, step)
  {
    var worker, s' := s.workers[w], TurnApply(c, s, w, step);
    match step
    case CheckCancel => Checks(s.runs[worker.run].cancelRequested)
    case StartTurn => Asks(worker.transcript)
    case EndTurn(_, _) => Tells(s'.workers[w].transcript[|worker.transcript|])
    case Break => Breaks
    case Beat => Beats(s'.runs[worker.run].heartbeat == Some(s.now))
  }

  ghost function ToolDeed(c: Config, s: State, w: WorkerId, step: ToolStep): Deed
    requires ToolEnabled(c, s, w, step)
  {
    var worker, s' := s.workers[w], ToolApply(c, s, w, step);
    match step
    case StartTool => Starts(s'.executions[|s.executions|])
    case InsertChild(child) =>
      var row := s'.runs[child];
      Delegates(row.parent, row.status, row.workspace == s.runs[worker.run].workspace)
    case _ => Tells(s'.workers[w].transcript[|worker.transcript|])
  }

  ghost function OwnershipDeed(c: Config, s: State, w: WorkerId, step: OwnershipStep): Deed
    requires OwnershipEnabled(c, s, w, step)
  {
    var s' := OwnershipApply(c, s, w, step);
    match step
    case Claim(run, _) => Claims(s'.runs[run])
    case Park(a) =>
      var row := s'.runs[s.workers[w].run];
      Parks(s'.approvals[a], row.status, row.checkpoint, row.stepCount)
    case Finish =>
      var row := s'.runs[s.workers[w].run];
      Finishes(row.status, row.checkpoint, row.stepCount, row.heartbeat)
    case Announce => Announces
    case AnnounceFails => Overwrites(s'.runs[s.workers[w].run].status)
    case Die => Dies
  }

  // What an action adds to the deeds of this activation: nothing, if it is not one of its own. A resume job's claim is
  // one of the activation that it starts.
  ghost function DeedsIn(c: Config, s: State, a: Action, w: WorkerId): seq<Deed>
    requires Enabled(c, s, a)
  {
    match a
    case Turn(v, step) => if v == w then [TurnDeed(c, s, w, step)] else []
    case Tool(v, step) => if v == w then [ToolDeed(c, s, w, step)] else []
    case Ownership(v, step) => if v == w then [OwnershipDeed(c, s, w, step)] else []
    case OnJob(j, ClaimResumed(v)) =>
      var run := s.resumes[j].run;
      if v == w && s.runs[run].status.AwaitingApproval? then [Claims(Apply(c, s, a).runs[run])] else []
    case _ => []
  }

  ghost function Deeds(c: Config, s: State, actions: seq<Action>, w: WorkerId): seq<Deed>
    requires Legal(c, s, actions)
    decreases |actions|
  {
    if actions == [] then []
    else DeedsIn(c, s, actions[0], w) + Deeds(c, Apply(c, s, actions[0]), actions[1..], w)
  }

  lemma {:induction false} DeedsMore(c: Config, s: State, actions: seq<Action>, a: Action, w: WorkerId)
    requires Legal(c, s, actions) && Enabled(c, Execute(c, s, actions), a)
    ensures Legal(c, s, actions + [a])
    ensures Deeds(c, s, actions + [a], w) == Deeds(c, s, actions, w) + DeedsIn(c, Execute(c, s, actions), a, w)
    decreases |actions|
  {
    hide Apply, Enabled, DeedsIn;
    ExecuteAppend(c, s, actions, a);
    if actions == [] {
      assert (actions + [a])[1..] == [];
      assert Deeds(c, Apply(c, s, a), [], w) == [];
    } else {
      DeedsMore(c, Apply(c, s, actions[0]), actions[1..], a, w);
      assert (actions + [a])[1..] == actions[1..] + [a];
    }
  }

  // ------------------------------------------------------------ courses

  // How far an activation has got: its deeds so far, how many questions have been asked, whether it is over, and
  // what it holds.
  datatype Progress = Progress(
    deeds: seq<Deed>, asked: nat, over: bool, transcript: seq<Message>, calls: seq<ToolCall>, steps: nat)
  {
    function Did(more: seq<Deed>): Progress { this.(deeds := deeds + more) }

    // The model's answer is taken over, and the step recorded.
    function Told(content: string, more: seq<ToolCall>): Progress {
      var message := Assistant(content, more);
      Did([Tells(message), Beats(true)]).(transcript := transcript + [message], calls := more, steps := steps + 1)
    }

    // The first pending call is answered, and the answer recorded.
    function Answered(text: string): Progress
      requires calls != []
    {
      var message := ToolResult(calls[0].id, text);
      Did([Tells(message), Beats(true)]).(transcript := transcript + [message], calls := calls[1..])
    }
  }

  function Final(status: Status, steps: nat): Deed { Finishes(status, None, steps, None) }

  // One run, the deployment, and what the world answers.
  datatype Scene = Scene(config: Config, world: nat -> Reply, run: RunId) {
    // A committed outcome or pause is published.
    ghost function Published(p: Progress, guarded: bool): Progress {
      var fails := config.publishMayFail && world(p.asked).publishRaises && guarded;
      p.Did([if fails then Overwrites(Failed) else Announces]).(asked := p.asked + 1, over := true)
    }

    ghost function Ended(p: Progress, status: Status): (next: Progress)
      ensures next.over
    {
      Published(p.Did([Final(status, p.steps)]), true)
    }

    // An exception inside the loop.
    ghost function Broken(p: Progress): (next: Progress)
      ensures next.over
    {
      Published(p.Did([Breaks, Final(Failed, p.steps)]), false)
    }

    ghost function Parked(p: Progress): (next: Progress)
      requires p.calls != []
      ensures next.over
    {
      var approval := Approval(run, p.calls[0].name, p.calls[0].arguments, Pending);
      Published(p.Did([Parks(approval, AwaitingApproval, Some(Checkpoint(p.transcript, p.calls)), p.steps)]), true)
    }

    // The first pending call runs to its end.
    ghost function Executed(p: Progress, via: Option<ApprovalId>, text: string, delegates: bool): (next: Progress)
      requires p.calls != []
      ensures next.over == p.over && next.steps == p.steps
    {
      p.Did([Starts(Execution(run, p.calls[0], via))])
      .Did(if delegates then [Delegates(Some(run), Queued, true)] else [])
      .Answered(text)
    }

    // The first pending call: refused, parked at, cut short, or executed.
    ghost function Called(p: Progress): (next: Progress)
      requires p.calls != []
      ensures next.steps == p.steps
    {
      var outcome, next := world(p.asked).tool, p.(asked := p.asked + 1);
      if outcome.ToolRefused? then next.Answered(outcome.text)
      else if p.calls[0].name in config.gated then Parked(next)
      else if outcome.ToolReturns? then Executed(next, None, outcome.text, outcome.delegates)
      else Broken(next.Did([Starts(Execution(run, p.calls[0], None))]))
    }

    // All pending calls, up to one that ends the activation.
    ghost function WorkedOff(p: Progress): (last: Progress)
      ensures (last.over || last.calls == []) && (p.over ==> last.over) && last.steps == p.steps
      decreases |p.calls|
    {
      if p.over || p.calls == [] then p
      else
        var next := Called(p);
        if next.over then next else WorkedOff(next)
    }

    // The model has answered the turn.
    ghost function Returned(p: Progress, content: string, calls: seq<ToolCall>): Progress {
      var told := p.Told(content, calls);
      if calls == [] then Ended(told, Succeeded) else told
    }

    // The model's turn.
    ghost function Asked(p: Progress): Progress {
      var next := p.Did([Asks(p.transcript)]).(asked := p.asked + 1);
      match world(p.asked).turn
      case TurnRaises => Broken(next)
      case TurnReturns(content, calls) => Returned(next, content, calls)
    }

    // The head of the loop, with the flag as it is read, and the turn behind it.
    ghost function Turned(p: Progress, flag: bool): (next: Progress)
      ensures !next.over ==> next.steps == p.steps + 1
    {
      var checked := p.Did([Checks(flag)]);
      if flag then Ended(checked, Cancelled) else Asked(checked)
    }

    ghost predicate Stops(p: Progress) { p.over || p.steps >= config.maxSteps(run) }

    // As many rounds as there are flags.
    ghost function Rounds(p: Progress, flags: seq<bool>): Progress
      decreases |flags|
    {
      if flags == [] then p
      else
        var before := Rounds(p, flags[..|flags| - 1]);
        if Stops(before) then before else WorkedOff(Turned(before, flags[|flags| - 1]))
    }

    // These are enough rounds to bring the loop to its end.
    ghost predicate Suffice(p: Progress, flags: seq<bool>) { Stops(Rounds(WorkedOff(p), flags)) }

    // The whole loop: pending calls first, then rounds, then the step limit.
    ghost function Looped(p: Progress, flags: seq<bool>): Progress {
      var last := Rounds(WorkedOff(p), flags);
      if last.over then last else Ended(last, Failed)
    }

    // The decided call of a resumed run. An exception of the tool is outside the guarded part of the loop, and ends the
    // activation.
    ghost function Decided(p: Progress, approval: ApprovalId, approved: bool): Progress
      requires p.calls != []
    {
      if !approved then p.Answered(DENIAL)
      else
        var next := p.(asked := p.asked + 1);
        match world(p.asked).tool
        case ToolRefused(text) => next.Answered(text)
        case ToolReturns(text, delegates) => Executed(next, Some(approval), text, delegates)
        case ToolRaises =>
          next.Did([Starts(Execution(run, p.calls[0], Some(approval))), Dies]).(over := true)
    }

    // Then the loop goes on with the other pending calls.
    ghost function Resumed(p: Progress, approval: ApprovalId, approved: bool, flags: seq<bool>): Progress
      requires p.calls != []
    {
      var next := Decided(p, approval, approved);
      if next.over then next else Looped(next, flags)
    }

    ghost predicate SufficeResumed(p: Progress, approval: ApprovalId, approved: bool, flags: seq<bool>)
      requires p.calls != []
    {
      var next := Decided(p, approval, approved);
      next.over || Suffice(next, flags)
    }
  }

  lemma RoundsMore(x: Scene, p: Progress, flags: seq<bool>, flag: bool)
    requires !x.Stops(x.Rounds(p, flags))
    ensures x.Rounds(p, flags + [flag]) == x.WorkedOff(x.Turned(x.Rounds(p, flags), flag))
  {
    assert (flags + [flag])[..|flags|] == flags;
  }

  // ------------------------------------------------------------ how a loop ends

  // A deed that settles nothing about how the loop ends.
  predicate Passing(d: Deed) {
    match d
    case Checks(flag) => !flag
    case Tells(message) => message.Assistant? ==> message.calls != []
    case Asks(_) => true
    case Starts(_) => true
    case Delegates(_, _, _) => true
    case Beats(_) => true
    case _ => false
  }

  predicate AllPassing(deeds: seq<Deed>) { forall i :: 0 <= i < |deeds| ==> Passing(deeds[i]) }

  // How many turns the model was asked for.
  function Turns(deeds: seq<Deed>): nat {
    if deeds == [] then 0 else Turns(deeds[..|deeds| - 1]) + if deeds[|deeds| - 1].Asks? then 1 else 0
  }

  lemma {:induction false} TurnsMore(deeds: seq<Deed>, more: seq<Deed>)
    ensures Turns(deeds + more) == Turns(deeds) + Turns(more)
  {
    if more == [] {
      assert deeds + more == deeds;
    } else {
      var n := |more| - 1;
      assert (deeds + more)[..|deeds| + n] == deeds + more[..n];
      TurnsMore(deeds, more[..n]);
    }
  }

  lemma {:induction false} NoTurns(deeds: seq<Deed>)
    requires forall i :: 0 <= i < |deeds| ==> !deeds[i].Asks?
    ensures Turns(deeds) == 0
  {
    if deeds != [] { NoTurns(deeds[..|deeds| - 1]); }
  }

  datatype Cause = Gate | CallRaised | FlagSet | TurnRaised | NoCalls | StepLimit

  // The last deeds of a loop that ended for this cause, up to the publication, with what the world answered.
  ghost predicate EndsBy(x: Scene, p: Progress, cause: Cause, tail: seq<Deed>) {
    match cause
    case Gate => |tail| == 1 && tail[0].Parks? && tail[0].status.AwaitingApproval?
    case CallRaised =>
      && |tail| == 3 && tail[0].Starts? && tail[1..] == [Breaks, Final(Failed, p.steps)]
      && p.asked >= 2 && x.world(p.asked - 2).tool.ToolRaises?
    case FlagSet => tail == [Checks(true), Final(Cancelled, p.steps)]
    case TurnRaised =>
      && |tail| == 4 && tail[0] == Checks(false) && tail[1].Asks? && tail[2..] == [Breaks, Final(Failed, p.steps)]
      && p.asked >= 2 && x.world(p.asked - 2).turn.TurnRaises?
    case NoCalls =>
      && |tail| == 5 && tail[0] == Checks(false) && tail[1].Asks? && p.asked >= 2
      && x.world(p.asked - 2).turn.TurnReturns? && x.world(p.asked - 2).turn.calls == []
      && tail[2..] == [Tells(Assistant(x.world(p.asked - 2).turn.content, [])), Beats(true), Final(Succeeded, p.steps)]
    case StepLimit => tail == [Final(Failed, p.steps)] && p.steps >= x.config.maxSteps(x.run)
  }

  // From `start`, nothing but passing deeds, one turn for each step.
  ghost predicate GoesOn(start: Progress, p: Progress, passed: seq<Deed>) {
    && !p.over && p.deeds == start.deeds + passed && AllPassing(passed)
    && start.steps <= p.steps && Turns(passed) == p.steps - start.steps && start.asked <= p.asked
  }

  ghost predicate Publishes(d: Deed) { d.Announces? || d == Overwrites(Failed) }

  // Then it ended for this cause.
  ghost predicate IsOver(x: Scene, start: Progress, p: Progress, passed: seq<Deed>, cause: Cause, tail: seq<Deed>,
                         last: Deed)
  {
    && p.over && p.deeds == start.deeds + passed + tail + [last]
    && AllPassing(passed) && start.steps <= p.steps && Publishes(last)
    && Turns(passed) == p.steps - start.steps - (if cause.NoCalls? then 1 else 0)
    && EndsBy(x, p, cause, tail)
  }

  // What came of a stretch of the loop.
  datatype Fate = Fate(passed: seq<Deed>, cause: Cause, tail: seq<Deed>, last: Deed)

  ghost predicate Fits(x: Scene, start: Progress, p: Progress, fate: Fate) {
    if p.over then IsOver(x, start, p, fate.passed, fate.cause, fate.tail, fate.last)
    else GoesOn(start, p, fate.passed)
  }

  // More deeds of the loop that ask for no turn.
  lemma PassingMore(passed: seq<Deed>, more: seq<Deed>)
    requires AllPassing(passed) && AllPassing(more) && forall i :: 0 <= i < |more| ==> !more[i].Asks?
    ensures AllPassing(passed + more) && Turns(passed + more) == Turns(passed)
  {
    TurnsMore(passed, more);
    NoTurns(more);
  }

  // An answered call: refused or executed.
  lemma CallPasses(x: Scene, p: Progress) returns (more: seq<Deed>)
    requires p.calls != [] && !p.over && !x.Called(p).over
    ensures x.Called(p).deeds == p.deeds + more && AllPassing(more)
    ensures forall i :: 0 <= i < |more| ==> !more[i].Asks?
    ensures x.Called(p).steps == p.steps && x.Called(p).asked == p.asked + 1
  {
    more := x.Called(p).deeds[|p.deeds|..];
  }

  lemma CallEnds(x: Scene, p: Progress) returns (cause: Cause, tail: seq<Deed>, last: Deed)
    requires p.calls != [] && !p.over && x.Called(p).over
    ensures x.Called(p).deeds == p.deeds + tail + [last] && Publishes(last)
    ensures (cause.Gate? || cause.CallRaised?) && EndsBy(x, x.Called(p), cause, tail)
    ensures x.Called(p).steps == p.steps
  {
    var deeds := x.Called(p).deeds;
    last := deeds[|deeds| - 1];
    if p.calls[0].name in x.config.gated {
      cause, tail := Gate, [deeds[|p.deeds|]];
      assert p.deeds + tail + [last] == deeds;
    } else {
      var started := Starts(Execution(x.run, p.calls[0], None));
      cause, tail := CallRaised, [started] + [Breaks, Final(Failed, p.steps)];
      assert tail[1..] == [Breaks, Final(Failed, p.steps)];
      assert p.deeds + tail + [last] == deeds;
    }
  }

  lemma CallFate(x: Scene, start: Progress, p: Progress, passed: seq<Deed>) returns (fate: Fate)
    requires GoesOn(start, p, passed) && p.calls != []
    ensures Fits(x, start, x.Called(p), fate) && x.Called(p).steps == p.steps && !fate.cause.TurnRaised?
  {
    hide x.Called, EndsBy;
    if x.Called(p).over {
      var cause, tail, last := CallEnds(x, p);
      assert p.deeds + tail + [last] == start.deeds + passed + tail + [last];
      fate := Fate(passed, cause, tail, last);
    } else {
      var more := CallPasses(x, p);
      PassingMore(passed, more);
      assert p.deeds + more == start.deeds + (passed + more);
      fate := Fate(passed + more, Gate, [], Announces);
    }
  }

  lemma {:induction false} CallsFate(x: Scene, start: Progress, p: Progress, passed: seq<Deed>) returns (fate: Fate)
    requires GoesOn(start, p, passed)
    ensures Fits(x, start, x.WorkedOff(p), fate)
    ensures x.WorkedOff(p).steps == p.steps && !fate.cause.TurnRaised?
    decreases |p.calls|
  {
    fate := Fate(passed, Gate, [], Announces);
    if p.calls != [] {
      fate := CallFate(x, start, p, passed);
      var next := x.Called(p);
      if !next.over {
        fate := CallsFate(x, start, next, fate.passed);
      }
    }
  }

  lemma TurnPasses(x: Scene, p: Progress, flag: bool) returns (more: seq<Deed>)
    requires !p.over && !x.Turned(p, flag).over
    ensures x.Turned(p, flag).deeds == p.deeds + more && AllPassing(more) && Turns(more) == 1
    ensures x.Turned(p, flag).steps == p.steps + 1 && x.Turned(p, flag).asked == p.asked + 1
  {
    more := x.Turned(p, flag).deeds[|p.deeds|..];
    assert more[..3] == [more[0], more[1]] + [more[2]];
    TurnsMore([more[0]], [more[1]]);
    TurnsMore([more[0]] + [more[1]], [more[2], more[3]]);
    NoTurns([more[0]]);
    NoTurns([more[2], more[3]]);
    assert [more[1]][..0] == [] && more == [more[0]] + [more[1]] + [more[2], more[3]];
  }

  lemma TurnEnds(x: Scene, p: Progress, flag: bool) returns (cause: Cause, tail: seq<Deed>, last: Deed)
    requires !p.over && x.Turned(p, flag).over
    ensures x.Turned(p, flag).deeds == p.deeds + tail + [last] && Publishes(last)
    ensures (cause.FlagSet? || cause.TurnRaised? || cause.NoCalls?) && EndsBy(x, x.Turned(p, flag), cause, tail)
    ensures x.Turned(p, flag).steps == p.steps + if cause.NoCalls? then 1 else 0
  {
    last := x.Turned(p, flag).deeds[|x.Turned(p, flag).deeds| - 1];
    if flag {
      cause, tail := FlagSet, [Checks(true), Final(Cancelled, p.steps)];
      assert p.deeds + tail + [last] == x.Turned(p, true).deeds;
    } else if x.world(p.asked).turn.TurnRaises? {
      cause, tail := TurnRaised, [Checks(false), Asks(p.transcript)] + [Breaks, Final(Failed, p.steps)];
      assert tail[2..] == [Breaks, Final(Failed, p.steps)];
      assert p.deeds + tail + [last] == x.Turned(p, false).deeds;
    } else {
      var told := [Tells(Assistant(x.world(p.asked).turn.content, [])), Beats(true), Final(Succeeded, p.steps + 1)];
      cause, tail := NoCalls, [Checks(false), Asks(p.transcript)] + told;
      assert tail[2..] == told;
      assert p.deeds + tail + [last] == x.Turned(p, false).deeds;
    }
  }

  lemma TurnFate(x: Scene, start: Progress, p: Progress, passed: seq<Deed>, flag: bool) returns (fate: Fate)
    requires GoesOn(start, p, passed)
    ensures Fits(x, start, x.Turned(p, flag), fate)
    ensures
      var next := x.Turned(p, flag);
      next.steps == if next.over && !fate.cause.NoCalls? then p.steps else p.steps + 1
  {
    hide x.Turned, EndsBy;
    if x.Turned(p, flag).over {
      var cause, tail, last := TurnEnds(x, p, flag);
      assert p.deeds + tail + [last] == start.deeds + passed + tail + [last];
      fate := Fate(passed, cause, tail, last);
    } else {
      var more := TurnPasses(x, p, flag);
      TurnsMore(passed, more);
      assert p.deeds + more == start.deeds + (passed + more);
      fate := Fate(passed + more, Gate, [], Announces);
    }
  }

  // The steps that a loop may end at.
  ghost function Limit(x: Scene, start: Progress): nat {
    if start.steps < x.config.maxSteps(x.run) then x.config.maxSteps(x.run) else start.steps
  }

  // No round begins once the steps are used up.
  ghost predicate WithinSteps(x: Scene, start: Progress, p: Progress, cause: Cause) {
    p.steps <= Limit(x, start) && (p.over && cause.TurnRaised? ==> p.steps < Limit(x, start))
  }

  lemma {:induction false} RoundsFate(x: Scene, start: Progress, flags: seq<bool>) returns (fate: Fate)
    requires !start.over
    ensures Fits(x, start, x.Rounds(x.WorkedOff(start), flags), fate)
    ensures WithinSteps(x, start, x.Rounds(x.WorkedOff(start), flags), fate.cause)
    decreases |flags|
  {
    if flags == [] {
      fate := CallsFate(x, start, start, []);
    } else {
      fate := RoundsFate(x, start, flags[..|flags| - 1]);
      var before, flag := x.Rounds(x.WorkedOff(start), flags[..|flags| - 1]), flags[|flags| - 1];
      if !x.Stops(before) {
        fate := TurnFate(x, start, before, fate.passed, flag);
        var next := x.Turned(before, flag);
        if !next.over {
          fate := CallsFate(x, start, next, fate.passed);
        }
      }
    }
  }

  // What a loop that has run to its end has come to.
  lemma LoopFate(x: Scene, start: Progress, flags: seq<bool>) returns (fate: Fate)
    requires !start.over && x.Suffice(start, flags)
    ensures
      var p := x.Looped(start, flags);
      IsOver(x, start, p, fate.passed, fate.cause, fate.tail, fate.last) && WithinSteps(x, start, p, fate.cause)
  {
    fate := RoundsFate(x, start, flags);
    var p := x.Rounds(x.WorkedOff(start), flags);
    if !p.over {
      var last := x.Looped(start, flags).deeds[|p.deeds| + 1];
      fate := Fate(fate.passed, StepLimit, [Final(Failed, p.steps)], last);
      assert p.deeds + [Final(Failed, p.steps)] + [last] == start.deeds + fate.passed + fate.tail + [last];
    }
  }

  predicate Writes(deeds: seq<Deed>, status: Status) {
    exists i :: 0 <= i < |deeds| && deeds[i].Finishes? && deeds[i].status == status
  }

  predicate Parking(deeds: seq<Deed>) { exists i :: 0 <= i < |deeds| && deeds[i].Parks? }

  // The model answered without calls.
  predicate Concludes(deeds: seq<Deed>) {
    exists i :: 0 <= i < |deeds| && deeds[i].Tells? && deeds[i].message.Assistant? && deeds[i].message.calls == []
  }

  // The exception was that of the last turn or tool, and the world raised it.
  ghost predicate RaisedByWorld(x: Scene, asked: nat, deeds: seq<Deed>) {
    && asked >= 2 && |deeds| >= 4 && deeds[|deeds| - 3] == Breaks
    && (   (deeds[|deeds| - 4].Asks? && x.world(asked - 2).turn.TurnRaises?)
        || (deeds[|deeds| - 4].Starts? && x.world(asked - 2).tool.ToolRaises?))
  }

  lemma TailTurns(x: Scene, p: Progress, cause: Cause, tail: seq<Deed>)
    requires EndsBy(x, p, cause, tail)
    ensures Turns(tail) == if cause.TurnRaised? || cause.NoCalls? then 1 else 0
  {
    if cause.TurnRaised? || cause.NoCalls? {
      var asked := [tail[1]];
      assert asked[..0] == [] && Turns(asked) == 1;
      NoTurns([tail[0]]);
      NoTurns(tail[2..]);
      TurnsMore([tail[0]], asked);
      TurnsMore([tail[0]] + asked, tail[2..]);
      assert tail == [tail[0]] + asked + tail[2..];
    } else {
      NoTurns(tail);
    }
  }

  lemma FateTurns(x: Scene, start: Progress, p: Progress, fate: Fate)
    requires IsOver(x, start, p, fate.passed, fate.cause, fate.tail, fate.last)
    ensures Turns(fate.passed + fate.tail + [fate.last])
            == p.steps - start.steps + (if fate.cause.TurnRaised? then 1 else 0)
  {
    TailTurns(x, p, fate.cause, fate.tail);
    TurnsMore(fate.passed, fate.tail);
    TurnsMore(fate.passed + fate.tail, [fate.last]);
    NoTurns([fate.last]);
  }

  // What the end of a loop says of its outcome is in its tail alone.
  lemma TailDecides(passed: seq<Deed>, tail: seq<Deed>, last: Deed)
    requires AllPassing(passed) && Publishes(last)
    ensures
      var deeds := passed + tail + [last];
      && (forall status :: Writes(deeds, status) <==> Writes(tail, status))
      && (Concludes(deeds) <==> Concludes(tail)) && (Parking(deeds) <==> Parking(tail))
      && (Breaks in deeds <==> Breaks in tail) && (Checks(true) in deeds <==> Checks(true) in tail)
  {
    var deeds, n := passed + tail + [last], |passed|;
    assert forall i :: 0 <= i < n ==> deeds[i] == passed[i];
    assert forall i :: 0 <= i < |tail| ==> deeds[n + i] == tail[i];
    assert forall i :: n <= i < n + |tail| ==> deeds[i] == tail[i - n];
    assert deeds[|deeds| - 1] == last;
  }

  lemma TailTells(x: Scene, p: Progress, cause: Cause, tail: seq<Deed>)
    requires EndsBy(x, p, cause, tail)
    ensures Writes(tail, Succeeded) <==> cause.NoCalls?
    ensures Writes(tail, Cancelled) <==> cause.FlagSet?
    ensures Writes(tail, Failed) <==> cause.CallRaised? || cause.TurnRaised? || cause.StepLimit?
    ensures Concludes(tail) <==> cause.NoCalls?
    ensures Parking(tail) <==> cause.Gate?
    ensures Breaks in tail <==> cause.CallRaised? || cause.TurnRaised?
    ensures Checks(true) in tail <==> cause.FlagSet?
    ensures tail != [] && (tail[|tail| - 1].Parks? || tail[|tail| - 1].Finishes?)
    ensures forall i :: 0 <= i < |tail| - 1 ==> !tail[i].Parks? && !tail[i].Finishes?
  {
    var end := tail[|tail| - 1];
    assert end.Parks? || end.Finishes?;
    match cause
    case Gate =>
    case CallRaised => assert tail[1] == tail[1..][0] == Breaks && tail[2] == tail[1..][1];
    case FlagSet => assert tail[0] == Checks(true);
    case TurnRaised => assert tail[2] == tail[2..][0] == Breaks && tail[3] == tail[2..][1];
    case NoCalls =>
      assert tail[2] == tail[2..][0] && tail[3] == tail[2..][1] && tail[4] == tail[2..][2];
    case StepLimit =>
  }

  lemma FateSpan(x: Scene, start: Progress, p: Progress, fate: Fate)
    requires IsOver(x, start, p, fate.passed, fate.cause, fate.tail, fate.last)
    ensures p.over && start.deeds <= p.deeds && start.steps <= p.steps
    ensures p.deeds[|start.deeds|..] == fate.passed + fate.tail + [fate.last]
    ensures AllPassing(fate.passed) && Publishes(fate.last) && EndsBy(x, p, fate.cause, fate.tail)
    ensures fate.cause.NoCalls? ==>
              p.asked >= 2 && x.world(p.asked - 2).turn.TurnReturns? && x.world(p.asked - 2).turn.calls == []
    ensures fate.cause.StepLimit? ==> p.steps >= x.config.maxSteps(x.run)
  {
    assert p.deeds == start.deeds + (fate.passed + fate.tail + [fate.last]);
  }

  lemma EndIsLast(passed: seq<Deed>, tail: seq<Deed>, last: Deed)
    requires AllPassing(passed) && Publishes(last) && tail != []
    requires forall i :: 0 <= i < |tail| - 1 ==> !tail[i].Parks? && !tail[i].Finishes?
    ensures
      var deeds := passed + tail + [last];
      forall i :: 0 <= i < |deeds| && (deeds[i].Parks? || deeds[i].Finishes?) ==> i == |deeds| - 2
  {
    var deeds := passed + tail + [last];
    assert forall i :: 0 <= i < |passed| ==> deeds[i] == passed[i];
    assert forall i :: |passed| <= i < |deeds| - 1 ==> deeds[i] == tail[i - |passed|];
    assert deeds[|deeds| - 1] == last;
  }

  lemma RaisedInTail(x: Scene, p: Progress, cause: Cause, tail: seq<Deed>)
    requires EndsBy(x, p, cause, tail) && (cause.CallRaised? || cause.TurnRaised?)
    ensures |tail| >= 3 && tail[|tail| - 2] == Breaks && p.asked >= 2
    ensures
      || (tail[|tail| - 3].Asks? && x.world(p.asked - 2).turn.TurnRaises?)
      || (tail[|tail| - 3].Starts? && x.world(p.asked - 2).tool.ToolRaises?)
  {
    assert tail[|tail| - 2] == tail[|tail| - 2..][0];
  }

  // Where the end is.
  lemma FateEnds(x: Scene, start: Progress, p: Progress, fate: Fate, deeds: seq<Deed>)
    requires IsOver(x, start, p, fate.passed, fate.cause, fate.tail, fate.last)
    requires deeds == fate.passed + fate.tail + [fate.last]
    ensures fate.cause.CallRaised? || fate.cause.TurnRaised? ==> RaisedByWorld(x, p.asked, deeds)
    ensures |deeds| >= 2
    ensures forall i :: 0 <= i < |deeds| && (deeds[i].Parks? || deeds[i].Finishes?) ==> i == |deeds| - 2
  {
    TailTells(x, p, fate.cause, fate.tail);
    EndIsLast(fate.passed, fate.tail, fate.last);
    if fate.cause.CallRaised? || fate.cause.TurnRaised? {
      RaisedInTail(x, p, fate.cause, fate.tail);
      var n, k := |fate.passed|, |fate.tail|;
      assert deeds[n + k - 3] == fate.tail[k - 3] && deeds[n + k - 2] == fate.tail[k - 2];
    }
  }

  // What a loop does in the end has its cause, and every cause its end. The run is recorded as succeeded exactly when
  // the model's last turn has no calls, and as cancelled exactly when the flag was read as set; an exception that is
  // caught is one that the world raised, and fails the run; without one, only the step limit does. A loop parks its
  // run or records an outcome, and does neither twice.
  lemma OutcomesHaveTheirCauses(x: Scene, start: Progress, flags: seq<bool>)
    requires !start.over && x.Suffice(start, flags)
    ensures
      var p := x.Looped(start, flags);
      && p.over && start.deeds <= p.deeds
      && var deeds := p.deeds[|start.deeds|..];
         && (Writes(deeds, Succeeded) <==> Concludes(deeds))
         && (Concludes(deeds) ==>
               p.asked >= 2 && x.world(p.asked - 2).turn.TurnReturns? && x.world(p.asked - 2).turn.calls == [])
         && (Writes(deeds, Cancelled) <==> Checks(true) in deeds)
         && (Breaks in deeds ==> Writes(deeds, Failed) && RaisedByWorld(x, p.asked, deeds))
         && (Writes(deeds, Failed) && Breaks !in deeds ==> Turns(deeds) == Limit(x, start) - start.steps)
         && (Parking(deeds)
             <==> !Writes(deeds, Succeeded) && !Writes(deeds, Cancelled) && !Writes(deeds, Failed))
         && |deeds| >= 2 && Turns(deeds) <= Limit(x, start) - start.steps
         && forall i :: 0 <= i < |deeds| && (deeds[i].Parks? || deeds[i].Finishes?) ==> i == |deeds| - 2
  {
    hide x.Looped, x.Suffice, IsOver, EndsBy, Writes, Concludes, Parking, Turns;
    var fate := LoopFate(x, start, flags);
    var p := x.Looped(start, flags);
    FateSpan(x, start, p, fate);
    FateTurns(x, start, p, fate);
    FateEnds(x, start, p, fate, p.deeds[|start.deeds|..]);
    TailDecides(fate.passed, fate.tail, fate.last);
    TailTells(x, p, fate.cause, fate.tail);
  }

  // ------------------------------------------------------------ calls

  // A call that needs no approval starts exactly unless the executor refuses it, and it alone; one that needs approval
  // never does.
  lemma CallsStartUnlessRefused(x: Scene, p: Progress)
    requires p.calls != []
    ensures
      var deeds := x.Called(p).deeds;
      && p.deeds <= deeds
      && ((exists i :: |p.deeds| <= i < |deeds| && deeds[i].Starts?)
          <==> p.calls[0].name !in x.config.gated && !x.world(p.asked).tool.ToolRefused?)
      && forall i :: |p.deeds| <= i < |deeds| && deeds[i].Starts? ==>
           i == |p.deeds| && deeds[i].execution == Execution(x.run, p.calls[0], None)
  {
    var deeds, n := x.Called(p).deeds, |p.deeds|;
    if p.calls[0].name !in x.config.gated && !x.world(p.asked).tool.ToolRefused? {
      assert deeds[n] == Starts(Execution(x.run, p.calls[0], None));
    }
  }

  // One result for each of these calls, in order, was added to the conversation.
  ghost predicate Answers(before: seq<Message>, after: seq<Message>, calls: seq<ToolCall>) {
    && |after| == |before| + |calls| && before <= after
    && forall k :: |before| <= k < |after| ==> after[k].ToolResult? && after[k].callId == calls[k - |before|].id
  }

  lemma AnswersMore(before: seq<Message>, call: ToolCall, text: string, after: seq<Message>, calls: seq<ToolCall>)
    requires Answers(before + [ToolResult(call.id, text)], after, calls)
    ensures Answers(before, after, [call] + calls)
  {
    var told := before + [ToolResult(call.id, text)];
    assert after[|before|] == told[|before|];
  }

  // Pending calls are answered in order, each by its own result, and leave; all of them, or all before the one at which
  // the activation ended.
  lemma {:induction false} CallsAreAnswered(x: Scene, p: Progress) returns (n: nat)
    requires !p.over
    ensures n <= |p.calls| && (n == |p.calls| <==> !x.WorkedOff(p).over)
    ensures x.WorkedOff(p).calls == p.calls[n..]
    ensures Answers(p.transcript, x.WorkedOff(p).transcript, p.calls[..n])
    decreases |p.calls|
  {
    if p.calls == [] {
      n := 0;
    } else {
      var next := x.Called(p);
      if next.over {
        n := 0;
      } else {
        var later := CallsAreAnswered(x, next);
        n := later + 1;
        assert p.calls[..n] == [p.calls[0]] + next.calls[..later];
        AnswersMore(p.transcript, p.calls[0], x.world(p.asked).tool.text, x.WorkedOff(p).transcript,
                    next.calls[..later]);
      }
    }
  }

  // A resumed activation begins with its decided call: an approved one starts unless the executor refuses it, a denied
  // one is answered with the denial.
  lemma DecidedCallComesFirst(x: Scene, p: Progress, approval: ApprovalId, approved: bool, flags: seq<bool>)
    requires !p.over && p.calls != [] && x.SufficeResumed(p, approval, approved, flags)
    ensures
      var deeds, outcome := x.Resumed(p, approval, approved, flags).deeds, x.world(p.asked).tool;
      && p.deeds < deeds
      && deeds[|p.deeds|] ==
         if !approved then Tells(ToolResult(p.calls[0].id, DENIAL))
         else if outcome.ToolRefused? then Tells(ToolResult(p.calls[0].id, outcome.text))
         else Starts(Execution(x.run, p.calls[0], Some(approval)))
  {
    var next := x.Decided(p, approval, approved);
    assert p.deeds < next.deeds;
    if !next.over {
      var fate := LoopFate(x, next, flags);
      FateSpan(x, next, x.Looped(next, flags), fate);
    }
  }

  // ------------------------------------------------------------ deeds and executions

  lemma ToolStarts(c: Config, s: State, w: WorkerId, step: ToolStep)
    requires ToolEnabled(c, s, w, step)
    ensures ToolApply(c, s, w, step).executions ==
            s.executions + if step.StartTool? then [ToolDeed(c, s, w, step).execution] else []
    ensures ToolDeed(c, s, w, step).Starts? <==> step.StartTool?
  {
  }

  lemma OnlyToolsStart(c: Config, s: State, a: Action, w: WorkerId)
    requires Enabled(c, s, a) && !a.Tool?
    ensures forall d :: d in DeedsIn(c, s, a, w) ==> !d.Starts?
  {
  }

  lemma OnlyToolsExecute(c: Config, s: State, a: Action)
    requires Enabled(c, s, a) && !a.Tool?
    ensures Apply(c, s, a).executions == s.executions
  {
    hide OwnershipApply, JobApply, OperatorApply, OwnershipEnabled, JobEnabled, OperatorEnabled;
    match a
    case Ownership(w, step) => OwnershipExecutesNone(c, s, w, step);
    case OnJob(j, step) => JobExecutesNone(c, s, j, step);
    case Operator(o, step) => OperatorExecutesNone(c, s, o, step);
    case _ =>
  }

  lemma OwnershipExecutesNone(c: Config, s: State, w: WorkerId, step: OwnershipStep)
    requires OwnershipEnabled(c, s, w, step)
    ensures OwnershipApply(c, s, w, step).executions == s.executions
  {
    match step
    case Claim(_, _) =>
    case Park(_) =>
    case Finish =>
    case Announce =>
    case AnnounceFails =>
    case Die =>
  }

  lemma JobExecutesNone(c: Config, s: State, j: JobId, step: JobStep)
    requires JobEnabled(c, s, j, step)
    ensures JobApply(c, s, j, step).executions == s.executions
  {
    match step
    case ReadCheckpoint =>
    case ClaimResumed(_) =>
    case ClaimResumedOrphaned =>
    case LoseResume =>
    case RepeatJob(_) =>
  }

  lemma OperatorExecutesNone(c: Config, s: State, o: OperatorId, step: OperatorStep)
    requires OperatorEnabled(c, s, o, step)
    ensures OperatorApply(c, s, o, step).executions == s.executions
  {
  }

  lemma ExecutionIsDeed(c: Config, s: State, a: Action, e: Execution)
    requires Enabled(c, s, a)
    ensures e in Apply(c, s, a).executions <==> e in s.executions || exists w :: Starts(e) in DeedsIn(c, s, a, w)
  {
    hide ToolEnabled, ToolApply, ToolDeed;
    if a.Tool? {
      ToolStarts(c, s, a.w, a.tool);
      assert DeedsIn(c, s, a, a.w) == [ToolDeed(c, s, a.w, a.tool)];
    } else {
      hide Enabled, Apply, DeedsIn;
      OnlyToolsExecute(c, s, a);
      forall w
        ensures Starts(e) !in DeedsIn(c, s, a, w)
      {
        OnlyToolsStart(c, s, a, w);
      }
    }
  }

  ghost predicate StartedBy(c: Config, s: State, actions: seq<Action>, e: Execution, w: WorkerId)
    requires Legal(c, s, actions)
  {
    Starts(e) in Deeds(c, s, actions, w)
  }

  // What was executed is what activations have started.
  lemma {:induction false} ExecutionsAreDeeds(c: Config, s: State, actions: seq<Action>, e: Execution)
    requires Legal(c, s, actions)
    ensures e in Execute(c, s, actions).executions <==>
              e in s.executions || exists w :: StartedBy(c, s, actions, e, w)
    decreases |actions|
  {
    hide Apply, Enabled, DeedsIn;
    if actions == [] {
      assert forall w :: !StartedBy(c, s, actions, e, w);
    } else {
      var next, rest := Apply(c, s, actions[0]), actions[1..];
      ExecutionIsDeed(c, s, actions[0], e);
      ExecutionsAreDeeds(c, next, rest, e);
      assert forall w :: StartedBy(c, s, actions, e, w) <==>
                           Starts(e) in DeedsIn(c, s, actions[0], w) || StartedBy(c, next, rest, e, w);
    }
  }
}
