// The run tree of one activation: executing a run, its loop, its tools, and the delegation that executes runs
// inside a tool call. What the model says, turn after turn, is any series of turns at all.
module Delegation {
  import opened Options

  const MAX_DEPTH := 2

  type AgentId = nat

  datatype Call = Call(needsApproval: bool, delegateTo: Option<AgentId>)
  datatype Turn = TurnRaises | TurnReturns(calls: seq<Call>)
  datatype Ending = Succeeded | Failed | Cancelled | AwaitingApproval | NotClaimed

  datatype Agents = Agents(known: AgentId -> bool, canDelegate: AgentId -> bool, maxSteps: AgentId -> nat)

  // The most model turns of a run at that depth and everything under it, when no run makes more than `steps`
  // turns and no turn has more than `calls` calls.
  function MostTurns(steps: nat, calls: nat, depth: nat): nat
    requires depth <= MAX_DEPTH
    decreases MAX_DEPTH - depth
  {
    if depth == MAX_DEPTH then steps else steps * (1 + calls * MostTurns(steps, calls, depth + 1))
  }

  // What one call may lead to.
  function MostTurnsOfCall(steps: nat, calls: nat, depth: nat): nat
    requires depth <= MAX_DEPTH
  {
    if depth == MAX_DEPTH then 0 else MostTurns(steps, calls, depth + 1)
  }

  lemma MostTurnsIs(steps: nat, calls: nat, depth: nat)
    requires depth <= MAX_DEPTH
    ensures MostTurns(steps, calls, depth) == steps * (1 + calls * MostTurnsOfCall(steps, calls, depth))
  {
  }

  // How many runs were executed at that depth.
  function CountAt(executed: seq<nat>, depth: nat): nat {
    if executed == [] then 0
    else CountAt(executed[..|executed| - 1], depth) + if executed[|executed| - 1] == depth then 1 else 0
  }

  lemma {:induction false} NoneAt(before: seq<nat>, after: seq<nat>, depth: nat)
    requires before <= after && forall i :: |before| <= i < |after| ==> after[i] != depth
    ensures CountAt(after, depth) == CountAt(before, depth)
    decreases |after|
  {
    if before != after {
      NoneAt(before, after[..|after| - 1], depth);
    }
  }

  predicate Gated(calls: seq<Call>) { exists i :: 0 <= i < |calls| && calls[i].needsApproval }

  class Activation {
    const agents: Agents
    const model: nat -> Turn
    const cancelled: nat -> bool
    const claimed: nat -> bool
    ghost const steps: nat
    ghost const calls: nat
    // The model turns completed so far, and the runs executed, by depth.
    var turns: nat
    var executed: seq<nat>

    ghost predicate Bounded() {
      (forall a: AgentId :: agents.maxSteps(a) <= steps)
      && (forall n: nat :: model(n).TurnReturns? ==> |model(n).calls| <= calls)
    }

    constructor (agents: Agents, model: nat -> Turn, cancelled: nat -> bool, claimed: nat -> bool,
                 ghost steps: nat, ghost calls: nat)
      ensures turns == 0 && executed == [] && this.agents == agents && this.model == model
      ensures this.steps == steps && this.calls == calls
    {
      this.agents, this.model, this.cancelled, this.claimed := agents, model, cancelled, claimed;
      this.steps, this.calls := steps, calls;
      turns, executed := 0, [];
    }

    // The call executes a run one deeper.
    predicate Delegates(agent: AgentId, depth: nat, call: Call) {
      call.delegateTo.Some? && agents.canDelegate(agent) && depth < MAX_DEPTH && agents.known(call.delegateTo.value)
    }

    // How many of these calls do.
    function Delegations(agent: AgentId, depth: nat, pending: seq<Call>): nat {
      if pending == [] then 0
      else
        var n := |pending| - 1;
        Delegations(agent, depth, pending[..n]) + if Delegates(agent, depth, pending[n]) then 1 else 0
    }

    // How many calls do in all of these turns, each up to the first one that needs approval.
    ghost function DelegationsOf(agent: AgentId, depth: nat, own: seq<nat>): nat {
      if own == [] then 0
      else
        var n := |own| - 1;
        DelegationsOf(agent, depth, own[..n])
        + if model(own[n]).TurnReturns? then Delegations(agent, depth, Worked(model(own[n]).calls)) else 0
    }

    // The calls before the first one that needs approval.
    static function Worked(pending: seq<Call>): (worked: seq<Call>)
      ensures worked <= pending && !Gated(worked)
      ensures |worked| < |pending| ==> pending[|worked|].needsApproval
    {
      if pending == [] || pending[0].needsApproval then [] else [pending[0]] + Worked(pending[1..])
    }

    // No run is nested deeper than the limit, and all of this ends: under each run only runs one deeper.
    ghost predicate Deeper(before: seq<nat>, depth: nat) reads this {
      before <= executed && forall i :: |before| <= i < |executed| ==> depth <= executed[i] <= MAX_DEPTH
    }

    method ExecuteRun(agent: AgentId, depth: nat) returns (ending: Ending, ghost own: seq<nat>)
      requires Bounded() && depth <= MAX_DEPTH
      modifies this
      ensures Deeper(old(executed), depth) && |executed| > |old(executed)| && executed[|old(executed)|] == depth
      ensures CountAt(executed, depth) == CountAt(old(executed), depth) + 1
      ensures old(turns) <= turns <= old(turns) + MostTurns(steps, calls, depth)
      ensures ending.NotClaimed? <==> !claimed(|old(executed)|)
      ensures ending.NotClaimed? ==> turns == old(turns) && executed == old(executed) + [depth]
      ensures !ending.NotClaimed? ==>
                EndsBy(agent, own, ending) && Accounted(agent, depth, old(turns), old(executed) + [depth], own)
      decreases MAX_DEPTH - depth, 4
    {
      var mine := claimed(|executed|);
      executed := executed + [depth];
      assert executed[..|executed| - 1] == old(executed);
      if !mine {
        return NotClaimed, [];
      }
      ghost var started := executed;
      ending, own := Loop(agent, depth);
      NoneAt(started, executed, depth);
    }

    // `own` is the turns of this run itself, by their number among all the turns of the activation. The flag is read
    // before each; each but the last has calls, all of which were worked off; and the ending is what the last one, the
    // flag or the step limit makes it.
    method Loop(agent: AgentId, depth: nat) returns (ending: Ending, ghost own: seq<nat>)
      requires Bounded() && depth <= MAX_DEPTH
      modifies this
      ensures old(turns) <= turns <= old(turns) + MostTurns(steps, calls, depth)
      ensures Accounted(agent, depth, old(turns), old(executed), own) && EndsBy(agent, own, ending)
      decreases MAX_DEPTH - depth, 3
    {
      var count, max := 0, agents.maxSteps(agent);
      own := [];
      while count < max
        invariant count == |own| <= max && WorkedThrough(own)
        invariant Accounted(agent, depth, old(turns), old(executed), own)
        decreases max - count
      {
        hide Accounted, WorkedThrough;
        LastWorked(own);
        AccountedBounds(agent, depth, old(turns), old(executed), own);
        if cancelled(turns) {
          return Cancelled, own;
        }
        var turn := model(turns);
        if turn.TurnRaises? {
          return Failed, own;
        }
        ghost var before, earlier := turns, own;
        var gated := TakeTurn(agent, depth, old(turns), old(executed), own);
        own := own + [before];
        assert own[..|own| - 1] == earlier && own[|own| - 1] == before;
        count := count + 1;
        AccountedBounds(agent, depth, old(turns), old(executed), own);
        if turn.calls == [] {
          return Succeeded, own;
        }
        if gated {
          return AwaitingApproval, own;
        }
        WorkedThroughMore(earlier, before);
      }
      LastWorked(own);
      AccountedBounds(agent, depth, old(turns), old(executed), own);
      ending := Failed;
    }

    // Every turn of the run but the last was worked through; and it ended as the last one, the flag, an exception or
    // the step limit makes it.
    ghost predicate EndsBy(agent: AgentId, own: seq<nat>, ending: Ending) reads this {
      && |own| <= agents.maxSteps(agent) && (own != [] ==> WorkedThrough(own[..|own| - 1]))
      && (forall i :: 0 <= i < |own| ==> model(own[i]).TurnReturns?)
      && (ending.Succeeded? <==> own != [] && model(own[|own| - 1]).calls == [])
      && (ending.AwaitingApproval? <==> own != [] && Gated(model(own[|own| - 1]).calls))
      && (ending.Cancelled? ==> cancelled(turns) && |own| < agents.maxSteps(agent))
      && (ending.Failed? ==>
            (model(turns).TurnRaises? && !cancelled(turns)) || |own| == agents.maxSteps(agent))
      && !ending.NotClaimed?
    }

    // Since `first` turns had been made and these runs executed, the run has made its own turns and executed a run for
    // each of their calls that delegates.
    ghost predicate Accounted(agent: AgentId, depth: nat, first: nat, before: seq<nat>, own: seq<nat>)
      requires depth <= MAX_DEPTH
      reads this
    {
      && Deeper(before, depth + 1)
      && Within(steps, calls, depth, first, |own|, turns) && OwnTurns(first, own, turns)
      && CountAt(executed, depth + 1) == CountAt(before, depth + 1) + DelegationsOf(agent, depth, own)
    }

    lemma AccountedBounds(agent: AgentId, depth: nat, first: nat, before: seq<nat>, own: seq<nat>)
      requires depth <= MAX_DEPTH && Accounted(agent, depth, first, before, own) && |own| <= steps
      ensures first <= turns <= first + MostTurns(steps, calls, depth)
      ensures forall i :: 0 <= i < |own| ==> model(own[i]).TurnReturns?
    {
      WithinSteps(steps, calls, depth, first, |own|, turns);
    }

    // One turn that returns, and its calls.
    method TakeTurn(agent: AgentId, depth: nat, ghost first: nat, ghost before: seq<nat>, ghost own: seq<nat>)
      returns (gated: bool)
      requires Bounded() && depth <= MAX_DEPTH && model(turns).TurnReturns? && !cancelled(turns)
      requires Accounted(agent, depth, first, before, own)
      modifies this
      ensures Accounted(agent, depth, first, before, own + [old(turns)])
      ensures gated <==> Gated(model(old(turns)).calls)
      decreases MAX_DEPTH - depth, 2
    {
      var turn := model(turns);
      turns := turns + 1;
      gated := RunCalls(agent, depth, turn.calls);
      CallsAreFew(|turn.calls|, calls, MostTurnsOfCall(steps, calls, depth));
      WithinMore(steps, calls, depth, first, |own|, old(turns), turns);
      OwnMore(agent, depth, first, own, old(turns), turns);
      hide Within, OwnTurns, DelegationsOf, CountAt, Worked;
    }

    lemma OwnMore(agent: AgentId, depth: nat, first: nat, own: seq<nat>, t: nat, end: nat)
      requires OwnTurns(first, own, t) && first <= t < end && model(t).TurnReturns? && !cancelled(t)
      ensures OwnTurns(first, own + [t], end)
      ensures DelegationsOf(agent, depth, own + [t])
              == DelegationsOf(agent, depth, own) + Delegations(agent, depth, Worked(model(t).calls))
    {
      assert (own + [t])[..|own|] == own;
    }

    // All of these turns had calls, and none that needs approval.
    ghost predicate WorkedThrough(own: seq<nat>) {
      forall i :: 0 <= i < |own| ==>
        model(own[i]).TurnReturns? && model(own[i]).calls != [] && !Gated(model(own[i]).calls)
    }

    lemma LastWorked(own: seq<nat>)
      requires WorkedThrough(own)
      ensures own != [] ==>
                var n := |own| - 1;
                && WorkedThrough(own[..n]) && model(own[n]).TurnReturns?
                && model(own[n]).calls != [] && !Gated(model(own[n]).calls)
    {
    }

    lemma WorkedThroughMore(own: seq<nat>, t: nat)
      requires WorkedThrough(own) && model(t).TurnReturns? && model(t).calls != [] && !Gated(model(t).calls)
      ensures WorkedThrough(own + [t])
    {
    }

    // Turns of one run, in order, among those from `first` to `end`, none of them begun with the flag set.
    ghost predicate OwnTurns(first: nat, own: seq<nat>, end: nat) {
      && (forall i :: 0 <= i < |own| ==>
            first <= own[i] < end && model(own[i]).TurnReturns? && !cancelled(own[i]))
      && (forall i, j :: 0 <= i < j < |own| ==> own[i] < own[j])
    }

    // The calls of one turn, in order, up to the first one that waits for an approval.
    method RunCalls(agent: AgentId, depth: nat, pending: seq<Call>) returns (gated: bool)
      requires Bounded() && depth <= MAX_DEPTH
      modifies this
      ensures Deeper(old(executed), depth + 1)
      ensures old(turns) <= turns <= old(turns) + |pending| * MostTurnsOfCall(steps, calls, depth)
      ensures gated <==> Gated(pending)
      ensures CountAt(executed, depth + 1)
              == CountAt(old(executed), depth + 1) + Delegations(agent, depth, Worked(pending))
      decreases MAX_DEPTH - depth, 1
    {
      ghost var each := MostTurnsOfCall(steps, calls, depth);
      for i := 0 to |pending|
        invariant Deeper(old(executed), depth + 1)
        invariant old(turns) <= turns <= old(turns) + i * each
        invariant forall k :: 0 <= k < i ==> !pending[k].needsApproval
        invariant CountAt(executed, depth + 1)
                  == CountAt(old(executed), depth + 1) + Delegations(agent, depth, pending[..i])
      {
        CallsAreFew(i + 1, |pending|, each);
        if pending[i].needsApproval {
          CallsAreFew(i, |pending|, each);
          WorkedIs(pending, i);
          return true;
        }
        assert pending[..i + 1][..i] == pending[..i];
        if pending[i].delegateTo.Some? && agents.canDelegate(agent) {
          Delegate(pending[i].delegateTo.value, depth);
        }
      }
      WorkedIs(pending, |pending|);
      gated := false;
    }

    static lemma {:induction false} WorkedIs(pending: seq<Call>, i: nat)
      requires i <= |pending| && (i < |pending| ==> pending[i].needsApproval)
      requires forall k :: 0 <= k < i ==> !pending[k].needsApproval
      ensures Worked(pending) == pending[..i]
    {
      if i > 0 {
        WorkedIs(pending[1..], i - 1);
        assert pending[..i] == [pending[0]] + pending[1..][..i - 1];
      }
    }

    method Delegate(agent: AgentId, depth: nat)
      requires Bounded() && depth <= MAX_DEPTH
      modifies this
      ensures Deeper(old(executed), depth + 1)
      ensures old(turns) <= turns <= old(turns) + MostTurnsOfCall(steps, calls, depth)
      ensures if depth >= MAX_DEPTH || !agents.known(agent) then turns == old(turns) && executed == old(executed)
              else |executed| > |old(executed)| && executed[|old(executed)|] == depth + 1
      ensures CountAt(executed, depth + 1)
              == CountAt(old(executed), depth + 1) + if depth >= MAX_DEPTH || !agents.known(agent) then 0 else 1
      decreases MAX_DEPTH - depth, 0
    {
      if depth >= MAX_DEPTH || !agents.known(agent) {
        return;
      }
      ghost var own;
      var ending;
      ending, own := ExecuteRun(agent, depth + 1);
    }
  }

  // So many turns have made no more than they may, with everything under them.
  ghost predicate Within(steps: nat, calls: nat, depth: nat, first: nat, count: nat, turns: nat)
    requires depth <= MAX_DEPTH
  {
    first <= turns <= first + count * (1 + calls * MostTurnsOfCall(steps, calls, depth))
  }

  lemma WithinMore(steps: nat, calls: nat, depth: nat, first: nat, count: nat, before: nat, turns: nat)
    requires depth <= MAX_DEPTH && Within(steps, calls, depth, first, count, before)
    requires before <= turns <= before + (1 + calls * MostTurnsOfCall(steps, calls, depth))
    ensures Within(steps, calls, depth, first, count + 1, turns)
  {
    var each := 1 + calls * MostTurnsOfCall(steps, calls, depth);
    assert (count + 1) * each == count * each + each;
  }

  lemma WithinSteps(steps: nat, calls: nat, depth: nat, first: nat, count: nat, turns: nat)
    requires depth <= MAX_DEPTH && Within(steps, calls, depth, first, count, turns) && count <= steps
    ensures first <= turns <= first + MostTurns(steps, calls, depth)
  {
    MostTurnsIs(steps, calls, depth);
    MoreSteps(count, steps, 1 + calls * MostTurnsOfCall(steps, calls, depth));
  }

  lemma MoreSteps(count: nat, steps: nat, each: nat)
    requires count <= steps
    ensures count * each <= steps * each
  {
    assert steps * each == count * each + (steps - count) * each;
  }

  lemma CallsAreFew(n: nat, most: nat, each: nat)
    requires n <= most
    ensures n * each <= most * each && (n >= 1 ==> n * each == (n - 1) * each + each)
  {
    assert most * each == n * each + (most - n) * each;
  }
}
