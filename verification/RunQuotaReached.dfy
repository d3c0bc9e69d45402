// The bound of RunQuota is reached, for every number of hits: some runs are failed by a late publication, or
// cancelled by a late operator, under their owners' hands; the workspace is filled past its limit by submissions
// that overlap; and then those owners pause their runs.
module RunQuotaReached {
  import opened Options
  import opened RunTypes
  import opened RunMachine
  import opened RunInvariant
  import opened RunFaults
  import opened RunQuota

  // `s` can be reached after so many hits in workspace 0.
  ghost predicate Reached(c: Config, actions: seq<Action>, s: State, hits: nat) {
    Legal(c, INIT, actions) && Execute(c, INIT, actions) == s && Hits(c, INIT, actions, 0) == hits
  }

  lemma {:induction false} HitsAppend(c: Config, s: State, actions: seq<Action>, a: Action, ws: WorkspaceId)
    requires Legal(c, s, actions) && Enabled(c, Execute(c, s, actions), a) && Legal(c, s, actions + [a])
    ensures Hits(c, s, actions + [a], ws) ==
            Hits(c, s, actions, ws) + if IsHit(Execute(c, s, actions), a, ws) then 1 else 0
    decreases |actions|
  {
    if actions == [] {
      assert ([] + [a])[1..] == [] && Hits(c, Apply(c, s, a), [], ws) == 0;
      assert [] + [a] == [a];
    } else {
      assert (actions + [a])[1..] == actions[1..] + [a];
      HitsAppend(c, Apply(c, s, actions[0]), actions[1..], a, ws);
    }
  }

  lemma Step(c: Config, actions: seq<Action>, s: State, hits: nat, a: Action)
    returns (longer: seq<Action>, s': State)
    requires Reached(c, actions, s, hits) && Enabled(c, s, a)
    ensures s' == Apply(c, s, a) && Reached(c, longer, s', hits + if IsHit(s, a, 0) then 1 else 0)
  {
    longer := Extend(c, actions, a);
    s' := Apply(c, s, a);
    ExecuteAppend(c, INIT, actions, a);
    HitsAppend(c, INIT, actions, a, 0);
    longer := actions + [a];
  }

  // ------------------------------------------------------------ stray runs with owners

  // A run that has been failed or cancelled while its owner has a call before it that needs approval.
  predicate Revenant(row: Run, worker: Worker, run: RunId, call: ToolCall) {
    && row.status.Terminal() && row.workspace == 0 && row.parent.None?
    && worker.run == run && worker.pc.Draining? && worker.calls == [call]
  }

  // Runs 0 to k - 1 are like that, each owned by the worker of its number; there is nothing else.
  ghost predicate Revenants(s: State, k: nat, call: ToolCall) {
    && (forall r: nat :: r in s.runs <==> r < k) && s.tallies.Keys == s.runs.Keys
    && s.workers.Keys == s.runs.Keys && (forall a :: a in s.approvals ==> a < k)
    && (forall j :: j in s.issued ==> j.approval < k)
    && s.resumes == map[] && s.submissions == map[] && s.operators == map[]
    && forall r :: r in s.runs ==> Revenant(s.runs[r], s.workers[r], r, call)
  }

  // Everything but one more run, its resume job, and what an operator is about to do to it, is as it was.
  ghost predicate Beside(s: State, s': State, k: nat, row: Run, operators: Operators, issued: set<JobId>) {
    && s'.runs == s.runs[k := row] && s'.tallies.Keys == s'.runs.Keys
    && s'.resumes == map[] && s'.submissions == map[] && s'.operators == operators && s'.now == s.now
    && s'.issued == issued
  }

  // The operators, if one has found run k queued.
  function Cancelling(k: nat, cancelling: bool): Operators {
    if cancelling then map[0 := ToCancel(k, Queued)] else map[]
  }

  lemma NextQueued(c: Config, actions: seq<Action>, s: State, k: nat, call: ToolCall, cancelling: bool)
    returns (longer: seq<Action>, s': State)
    requires Usable(c) && c.limit > 0 && Reached(c, actions, s, k) && Revenants(s, k, call)
    requires cancelling ==> c.cancellers > 0
    ensures Reached(c, longer, s', k) && Beside(s, s', k, NewRun(0, None), Cancelling(k, cancelling), s.issued)
    ensures s'.workers == s.workers && s'.approvals == s.approvals
  {
    hide Reached;
    assert InWindow(s.submissions, 0) == {} && ActiveIn(s.runs, 0) == {} && CancellersOf(s.operators, k) == {};
    longer, s' := Step(c, actions, s, k, Submission(0, CheckQuota(0)));
    longer, s' := Step(c, longer, s', k, Submission(0, InsertRun(k)));
    assert s'.submissions == map[];
    if cancelling {
      longer, s' := Step(c, longer, s', k, Operator(0, ReadRun(k)));
    }
  }

  // One more run, claimed by worker `w`.
  lemma NextClaimed(c: Config, actions: seq<Action>, s: State, k: nat, call: ToolCall, cancelling: bool, w: WorkerId)
    returns (longer: seq<Action>, s': State)
    requires Usable(c) && c.limit > 0 && Reached(c, actions, s, k) && Revenants(s, k, call) && w >= k
    requires cancelling ==> c.cancellers > 0
    ensures Reached(c, longer, s', k)
    ensures Beside(s, s', k, ClaimedRow(NewRun(0, None), s.now), Cancelling(k, cancelling), s.issued)
    ensures s'.workers == s.workers[w := Worker(k, Draining, [], [], 0)] && s'.approvals == s.approvals
  {
    hide Reached;
    longer, s' := NextQueued(c, actions, s, k, call, cancelling);
    assert w !in s'.workers;
    hide Revenants;
    longer, s' := Step(c, longer, s', k, Ownership(w, Claim(k, [])));
    assert s'.runs == s.runs[k := ClaimedRow(NewRun(0, None), s.now)];
  }

  lemma NextCleared(c: Config, actions: seq<Action>, s: State, k: nat, call: ToolCall, cancelling: bool, w: WorkerId)
    returns (longer: seq<Action>, s': State)
    requires Usable(c) && c.limit > 0 && Reached(c, actions, s, k) && Revenants(s, k, call) && w >= k
    requires cancelling ==> c.cancellers > 0
    ensures Reached(c, longer, s', k)
    ensures Beside(s, s', k, ClaimedRow(NewRun(0, None), s.now), Cancelling(k, cancelling), s.issued)
    ensures s'.workers == s.workers[w := Worker(k, Cleared, [], [], 0)] && s'.approvals == s.approvals
  {
    hide Reached;
    longer, s' := NextClaimed(c, actions, s, k, call, cancelling, w);
    hide Revenants;
    longer, s' := Step(c, longer, s', k, Turn(w, CheckCancel));
  }

  // And in its first turn.
  lemma NextRun(c: Config, actions: seq<Action>, s: State, k: nat, call: ToolCall, cancelling: bool, w: WorkerId)
    returns (longer: seq<Action>, s': State)
    requires Usable(c) && c.limit > 0 && Reached(c, actions, s, k) && Revenants(s, k, call) && w >= k
    requires cancelling ==> c.cancellers > 0
    ensures Reached(c, longer, s', k)
    ensures Beside(s, s', k, ClaimedRow(NewRun(0, None), s.now), Cancelling(k, cancelling), s.issued)
    ensures s'.workers == s.workers[w := Worker(k, InTurn, [], [], 0)] && s'.approvals == s.approvals
  {
    hide Reached;
    longer, s' := NextCleared(c, actions, s, k, call, cancelling, w);
    hide Revenants;
    longer, s' := Step(c, longer, s', k, Turn(w, StartTurn));
  }

  // Its turn asks for a call that needs approval.
  lemma NextCalls(c: Config, actions: seq<Action>, s: State, k: nat, call: ToolCall)
    returns (longer: seq<Action>, s': State)
    requires Usable(c) && c.limit > 0 && c.cancellers > 0
    requires Reached(c, actions, s, k) && Revenants(s, k, call)
    ensures Reached(c, longer, s', k)
    ensures Beside(s, s', k, ClaimedRow(NewRun(0, None), s.now), Cancelling(k, true), s.issued)
    ensures s'.approvals == s.approvals
    ensures k in s'.workers && s'.workers == s.workers[k := s'.workers[k]]
    ensures s'.workers[k].run == k && s'.workers[k].pc.Draining? && s'.workers[k].calls == [call]
  {
    hide Reached;
    longer, s' := NextRun(c, actions, s, k, call, true, k);
    hide Revenants;
    longer, s' := Step(c, longer, s', k, Turn(k, EndTurn("", [call])));
  }

  // The operator who found it queued writes that it is cancelled, when its owner is about to pause it.
  lemma NextCancelled(c: Config, actions: seq<Action>, s: State, k: nat, call: ToolCall)
    returns (longer: seq<Action>, s': State)
    requires Usable(c) && c.limit > 0 && c.cancellers > 0
    requires Reached(c, actions, s, k) && Revenants(s, k, call)
    ensures Reached(c, longer, s', k + 1) && Revenants(s', k + 1, call)
  {
    hide Reached;
    longer, s' := NextCalls(c, actions, s, k, call);
    longer, s' := Step(c, longer, s', k, Operator(0, WriteCancel));
    assert s'.operators == map[];
  }

  // It pauses at a gated call.
  lemma NextPause(c: Config, actions: seq<Action>, s: State, k: nat, call: ToolCall)
    returns (longer: seq<Action>, s': State)
    requires Usable(c) && c.limit > 0 && call.name in c.gated
    requires Reached(c, actions, s, k) && Revenants(s, k, call)
    ensures Reached(c, longer, s', k) && k in s'.runs && Beside(s, s', k, s'.runs[k], map[], s.issued)
    ensures s'.runs[k].status.AwaitingApproval? && s'.runs[k].workspace == 0 && s'.runs[k].parent.None?
    ensures s'.runs[k].checkpoint.Some? && s'.runs[k].checkpoint.value.pending == [call, call]
    ensures k + 1 in s'.workers && s'.workers == s.workers[k + 1 := s'.workers[k + 1]]
    ensures s'.workers[k + 1].run == k && s'.workers[k + 1].pc == Announcing(true)
    ensures s'.approvals == s.approvals[k := Approval(k, call.name, call.arguments, Pending)]
  {
    hide Reached;
    assert k !in s.approvals;
    longer, s' := NextRun(c, actions, s, k, call, false, k + 1);
    hide Revenants;
    longer, s' := Step(c, longer, s', k, Turn(k + 1, EndTurn("", [call, call])));
    longer, s' := Step(c, longer, s', k, Ownership(k + 1, Park(k)));
  }

  // It is approved.
  lemma NextApproved(c: Config, actions: seq<Action>, s: State, k: nat, call: ToolCall)
    returns (longer: seq<Action>, s': State)
    requires Usable(c) && c.limit > 0 && call.name in c.gated
    requires Reached(c, actions, s, k) && Revenants(s, k, call)
    ensures Reached(c, longer, s', k) && k in s'.runs && s'.runs == s.runs[k := s'.runs[k]]
    ensures s'.tallies.Keys == s'.runs.Keys && s'.submissions == map[] && s'.operators == map[] && s'.now == s.now
    ensures s'.runs[k].status.AwaitingApproval? && s'.runs[k].workspace == 0 && s'.runs[k].parent.None?
    ensures s'.runs[k].checkpoint.Some? && s'.runs[k].checkpoint.value.pending == [call, call]
    ensures k + 1 in s'.workers && s'.workers == s.workers[k + 1 := s'.workers[k + 1]]
    ensures s'.workers[k + 1].run == k && s'.workers[k + 1].pc == Announcing(true)
    ensures s'.resumes == map[JobId(k, 0) := Resume(k, true, None)] && s'.issued == s.issued + {JobId(k, 0)}
    ensures s'.approvals == s.approvals[k := Approval(k, call.name, call.arguments, Approved)]
  {
    hide Reached;
    longer, s' := NextPause(c, actions, s, k, call);
    assert JobId(k, 0) !in s'.issued;
    hide Revenants;
    assert DecidersOf(s'.operators, k) == {};
    longer, s' := Step(c, longer, s', k, Operator(0, ReadApproval(k, true)));
    longer, s' := Step(c, longer, s', k, Operator(0, WriteDecision(0)));
    assert s'.operators == map[];
  }

  // It is claimed by its next owner, worker k.
  lemma NextResumed(c: Config, actions: seq<Action>, s: State, k: nat, call: ToolCall)
    returns (longer: seq<Action>, s': State)
    requires Usable(c) && c.limit > 0 && call.name in c.gated
    requires Reached(c, actions, s, k) && Revenants(s, k, call)
    ensures Reached(c, longer, s', k) && k in s'.runs && Beside(s, s', k, s'.runs[k], map[], s.issued + {JobId(k, 0)})
    ensures s'.runs[k].status.Running? && s'.runs[k].workspace == 0 && s'.runs[k].parent.None?
    ensures k in s'.workers && k + 1 in s'.workers
    ensures s'.workers == s.workers[k + 1 := s'.workers[k + 1]][k := s'.workers[k]]
    ensures s'.workers[k + 1].run == k && s'.workers[k + 1].pc == Announcing(true)
    ensures s'.workers[k].run == k && s'.workers[k].pc == Decided(k, true) && s'.workers[k].calls == [call, call]
    ensures s'.approvals == s.approvals[k := Approval(k, call.name, call.arguments, Approved)]
  {
    hide Reached;
    longer, s' := NextApproved(c, actions, s, k, call);
    assert k !in s'.workers;
    hide Revenants;
    longer, s' := Step(c, longer, s', k, OnJob(JobId(k, 0), ReadCheckpoint));
    longer, s' := Step(c, longer, s', k, OnJob(JobId(k, 0), ClaimResumed(k)));
  }

  // Only then the publication of the pause fails.
  lemma NextFailed(c: Config, actions: seq<Action>, s: State, k: nat, call: ToolCall)
    returns (longer: seq<Action>, s': State)
    requires Usable(c) && c.limit > 0 && c.publishMayFail && call.name in c.gated
    requires Reached(c, actions, s, k) && Revenants(s, k, call)
    ensures Reached(c, longer, s', k + 1)
    ensures k in s'.runs && Beside(s, s', k, s'.runs[k], map[], s.issued + {JobId(k, 0)})
    ensures s'.runs[k].status.Failed? && s'.runs[k].workspace == 0 && s'.runs[k].parent.None?
    ensures k in s'.workers && s'.workers == s.workers[k := s'.workers[k]]
    ensures s'.workers[k].run == k && s'.workers[k].pc == Decided(k, true) && s'.workers[k].calls == [call, call]
    ensures s'.approvals.Keys == s.approvals.Keys + {k}
  {
    hide Reached;
    assert k + 1 !in s.workers;
    longer, s' := NextResumed(c, actions, s, k, call);
    hide Revenants;
    longer, s' := Step(c, longer, s', k, Ownership(k + 1, AnnounceFails));
  }

  // And the owner works off its approved call.
  lemma NextRevenant(c: Config, actions: seq<Action>, s: State, k: nat, call: ToolCall)
    returns (longer: seq<Action>, s': State)
    requires Usable(c) && c.limit > 0 && c.publishMayFail && call.name in c.gated
    requires Reached(c, actions, s, k) && Revenants(s, k, call)
    ensures Reached(c, longer, s', k + 1) && Revenants(s', k + 1, call)
  {
    hide Reached;
    longer, s' := NextFailed(c, actions, s, k, call);
    longer, s' := Step(c, longer, s', k + 1, Tool(k, StartTool));
    longer, s' := Step(c, longer, s', k + 1, Tool(k, EndTool("")));
  }

  lemma AllRevenants(c: Config, k: nat, call: ToolCall) returns (actions: seq<Action>, s: State)
    requires Usable(c) && c.limit > 0
    requires k > 0 ==> (c.publishMayFail || c.cancellers > 0) && call.name in c.gated
    ensures Reached(c, actions, s, k) && Revenants(s, k, call)
  {
    actions, s := [], INIT;
    for i := 0 to k
      invariant Reached(c, actions, s, i) && Revenants(s, i, call)
    {
      if c.publishMayFail {
        actions, s := NextRevenant(c, actions, s, i, call);
      } else {
        actions, s := NextCancelled(c, actions, s, i, call);
      }
    }
  }

  // ------------------------------------------------------------ filling the workspace

  lemma {:induction false} IntervalSize(a: set<nat>, lo: nat, hi: nat)
    requires lo <= hi && forall x :: x in a <==> lo <= x < hi
    ensures |a| == hi - lo
    decreases hi
  {
    if lo < hi {
      IntervalSize(a - {hi - 1}, lo, hi - 1);
    } else {
      assert a == {};
    }
  }

  // Of the k stray runs the first `back` are parked again, and n more runs are queued.
  ghost predicate Crowd(s: State, k: nat, back: nat, n: nat, call: ToolCall) {
    && back <= k
    && (forall r: nat :: r in s.runs <==> r < k + n) && s.tallies.Keys == s.runs.Keys
    && (forall a :: a in s.approvals ==> a < k + back)
    && (forall r :: r in s.runs ==> s.runs[r].workspace == 0 && s.runs[r].parent.None?)
    && (forall r :: 0 <= r < back ==> s.runs[r].status.AwaitingApproval?)
    && (forall r :: back <= r < k ==> r in s.workers && Revenant(s.runs[r], s.workers[r], r, call))
    && (forall r :: k <= r < k + n ==> s.runs[r].status.Queued?)
  }

  // Submissions k + n to k + n + waiting - 1 of workspace 0 are past their check.
  ghost predicate Waiting(submissions: map<SubmissionId, WorkspaceId>, n: nat, waiting: nat) {
    && (forall u: nat :: u in submissions <==> n <= u < n + waiting)
    && (forall u :: u in submissions ==> submissions[u] == 0)
  }

  lemma CrowdCount(s: State, k: nat, n: nat, call: ToolCall)
    requires Crowd(s, k, 0, n, call)
    ensures |ActiveIn(s.runs, 0)| == n
  {
    IntervalSize(ActiveIn(s.runs, 0), k, k + n);
  }

  lemma CheckOne(c: Config, s: State, k: nat, n: nat, waiting: nat, call: ToolCall)
    requires Crowd(s, k, 0, n, call) && Waiting(s.submissions, k + n, waiting)
    requires n < c.limit && waiting < c.window
    ensures SubmissionEnabled(c, s, k + n + waiting, CheckQuota(0))
    ensures
      var s' := SubmissionApply(c, s, k + n + waiting, CheckQuota(0));
      Crowd(s', k, 0, n, call) && Waiting(s'.submissions, k + n, waiting + 1)
  {
    CrowdCount(s, k, n, call);
    IntervalSize(InWindow(s.submissions, 0), k + n, k + n + waiting);
  }

  lemma InsertOne(c: Config, s: State, k: nat, n: nat, waiting: nat, call: ToolCall)
    requires Crowd(s, k, 0, n, call) && Waiting(s.submissions, k + n, waiting) && waiting > 0
    ensures SubmissionEnabled(c, s, k + n, InsertRun(k + n))
    ensures
      var s' := SubmissionApply(c, s, k + n, InsertRun(k + n));
      Crowd(s', k, 0, n + 1, call) && Waiting(s'.submissions, k + n + 1, waiting - 1)
  {
  }

  lemma CheckMany(c: Config, actions: seq<Action>, s: State, k: nat, n: nat, waiting: nat, call: ToolCall)
    returns (longer: seq<Action>, s': State)
    requires Reached(c, actions, s, k) && Crowd(s, k, 0, n, call) && Waiting(s.submissions, k + n, 0)
    requires n < c.limit && waiting <= c.window
    ensures Reached(c, longer, s', k) && Crowd(s', k, 0, n, call) && Waiting(s'.submissions, k + n, waiting)
  {
    hide Reached, Crowd, Waiting;
    longer, s' := actions, s;
    for i := 0 to waiting
      invariant Reached(c, longer, s', k) && Crowd(s', k, 0, n, call) && Waiting(s'.submissions, k + n, i)
    {
      CheckOne(c, s', k, n, i, call);
      longer, s' := Step(c, longer, s', k, Submission(k + n + i, CheckQuota(0)));
    }
  }

  // So many submissions pass their check, and then insert their runs.
  lemma Overlap(c: Config, actions: seq<Action>, s: State, k: nat, n: nat, waiting: nat, call: ToolCall)
    returns (longer: seq<Action>, s': State)
    requires Reached(c, actions, s, k) && Crowd(s, k, 0, n, call) && Waiting(s.submissions, k + n, 0)
    requires n < c.limit && waiting <= c.window
    ensures Reached(c, longer, s', k) && Crowd(s', k, 0, n + waiting, call)
    ensures Waiting(s'.submissions, k + n + waiting, 0)
  {
    hide Reached, Crowd, Waiting;
    longer, s' := CheckMany(c, actions, s, k, n, waiting, call);
    for i := 0 to waiting
      invariant Reached(c, longer, s', k) && Crowd(s', k, 0, n + i, call)
      invariant Waiting(s'.submissions, k + n + i, waiting - i)
    {
      InsertOne(c, s', k, n + i, waiting - i, call);
      longer, s' := Step(c, longer, s', k, Submission(k + n + i, InsertRun(k + n + i)));
    }
  }

  // Fill the workspace up to one below its limit, one submission after the other; then let a whole window of
  // submissions pass its check before any inserts.
  lemma Fill(c: Config, actions: seq<Action>, s: State, k: nat, call: ToolCall)
    returns (longer: seq<Action>, s': State)
    requires c.limit > 0 && c.window > 0 && Reached(c, actions, s, k) && Revenants(s, k, call)
    ensures Reached(c, longer, s', k) && Crowd(s', k, 0, c.limit + c.window - 1, call)
  {
    longer, s' := actions, s;
    for i := 0 to c.limit - 1
      invariant Reached(c, longer, s', k) && Crowd(s', k, 0, i, call) && Waiting(s'.submissions, k + i, 0)
    {
      longer, s' := Overlap(c, longer, s', k, i, 1, call);
    }
    longer, s' := Overlap(c, longer, s', k, c.limit - 1, c.window, call);
  }

  // ------------------------------------------------------------ the stray runs come back

  // The owner of a stray run pauses it at its gated call.
  lemma ComeBack(c: Config, actions: seq<Action>, s: State, k: nat, back: nat, n: nat, call: ToolCall)
    returns (longer: seq<Action>, s': State)
    requires call.name in c.gated && Reached(c, actions, s, k) && Crowd(s, k, back, n, call) && back < k
    ensures Reached(c, longer, s', k) && Crowd(s', k, back + 1, n, call)
  {
    hide Reached;
    longer, s' := Step(c, actions, s, k, Ownership(back, Park(k + back)));
  }

  lemma EverybodyIsActive(s: State, k: nat, n: nat, call: ToolCall)
    requires Crowd(s, k, k, n, call)
    ensures |ActiveTopLevel(s.runs, 0)| == k + n
  {
    IntervalSize(ActiveTopLevel(s.runs, 0), 0, k + n);
  }

  // The quota overshoots by as much as the bound allows, whatever the number of hits.
  lemma BoundIsReached(c: Config, hits: nat) returns (actions: seq<Action>)
    requires Usable(c) && c.limit > 0
    requires hits > 0 ==> (c.publishMayFail || c.cancellers > 0) && c.gated != {}
    ensures Legal(c, INIT, actions) && Hits(c, INIT, actions, 0) == hits
    ensures |ActiveTopLevel(Execute(c, INIT, actions).runs, 0)| == c.limit + c.window - 1 + hits
  {
    var name := "";
    if hits > 0 {
      name :| name in c.gated;
    }
    var call := ToolCall("", name, "");
    var s;
    actions, s := AllRevenants(c, hits, call);
    actions, s := Fill(c, actions, s, hits, call);
    var n := c.limit + c.window - 1;
    for i := 0 to hits
      invariant Reached(c, actions, s, hits) && Crowd(s, hits, i, n, call)
    {
      actions, s := ComeBack(c, actions, s, hits, i, n, call);
    }
    EverybodyIsActive(s, hits, n, call);
  }

  // Where some tool needs approval, the plain bound holds exactly if publishing cannot raise and nobody cancels.
  lemma PlainBoundHoldsIffNothingHits(c: Config)
    requires Usable(c) && c.limit > 0 && c.gated != {}
    ensures
      (forall actions, ws | Legal(c, INIT, actions) ::
         |ActiveTopLevel(Execute(c, INIT, actions).runs, ws)| <= c.limit + c.window - 1)
      <==> !c.publishMayFail && c.cancellers == 0
  {
    if !c.publishMayFail && c.cancellers == 0 {
      forall actions, ws | Legal(c, INIT, actions)
        ensures |ActiveTopLevel(Execute(c, INIT, actions).runs, ws)| <= c.limit + c.window - 1
      {
        ActiveRunsAreBounded(c, actions, ws);
      }
    } else {
      var actions := BoundIsReached(c, 1);
    }
  }
}
