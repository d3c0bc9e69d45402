// The concurrency quota is checked in one transaction and acted on in another, and a run that a late publication
// has failed, or a late operator has cancelled, is not counted although its owner may still bring it back. This
// module says how far a workspace can overshoot its quota.
module RunQuota {
  import opened Options
  import opened RunTypes
  import opened RunMachine
  import opened RunInvariant
  import opened RunGate
  import opened Sizes

  // The owners of top-level runs of a workspace that have been failed or cancelled under their hands: each may yet
  // park its run.
  function StrayOwners(runs: Runs, workers: Workers, ws: WorkspaceId): set<WorkerId> {
    set w | w in workers && workers[w].pc.Owning() && workers[w].run in runs
            && runs[workers[w].run].workspace == ws && runs[workers[w].run].parent.None?
            && runs[workers[w].run].status.Terminal()
  }

  // Active top-level runs, the stray ones that may come back, and the submissions that may still add one.
  function Load(s: State, ws: WorkspaceId): nat {
    |ActiveTopLevel(s.runs, ws)| + |StrayOwners(s.runs, s.workers, ws)| + |InWindow(s.submissions, ws)|
  }

  // A running top-level run of the workspace.
  predicate Runs(s: State, r: RunId, ws: WorkspaceId) {
    r in s.runs && s.runs[r].status.Running? && s.runs[r].workspace == ws && s.runs[r].parent.None?
  }

  // A publication that fails, or a cancel that is written, late: under the hands of the run's next owner.
  predicate IsHit(s: State, a: Action, ws: WorkspaceId) {
    || (a.Ownership? && a.ownership.AnnounceFails? && a.w in s.workers && Runs(s, s.workers[a.w].run, ws))
    || (a.Operator? && a.intent.WriteCancel? && a.o in s.operators && s.operators[a.o].ToCancel?
        && s.operators[a.o].seen.Waiting() && Runs(s, s.operators[a.o].run, ws))
  }

  ghost function Hits(c: Config, s: State, actions: seq<Action>, ws: WorkspaceId): nat
    requires Legal(c, s, actions)
    decreases |actions|
  {
    if actions == [] then 0
    else (if IsHit(s, actions[0], ws) then 1 else 0) + Hits(c, Apply(c, s, actions[0]), actions[1..], ws)
  }

  // ------------------------------------------------------------ steps that add nothing

  ghost predicate Calm(s: State, s': State, ws: WorkspaceId) {
    && ActiveTopLevel(s'.runs, ws) <= ActiveTopLevel(s.runs, ws)
    && StrayOwners(s'.runs, s'.workers, ws) <= StrayOwners(s.runs, s.workers, ws)
    && s'.submissions == s.submissions
  }

  lemma TurnCalm(c: Config, s: State, w: WorkerId, step: TurnStep, ws: WorkspaceId)
    requires TurnEnabled(c, s, w, step)
    ensures Calm(s, TurnApply(c, s, w, step), ws)
  {
  }

  lemma ToolCalm(c: Config, s: State, w: WorkerId, step: ToolStep, ws: WorkspaceId)
    requires Core(c, s) && ToolEnabled(c, s, w, step)
    ensures Calm(s, ToolApply(c, s, w, step), ws)
  {
  }

  // Another row for a run: it counts only if it counted, and has a stray owner only if it had.
  lemma CalmRow(s: State, s': State, r: RunId, row: Run, ws: WorkspaceId)
    requires r in s.runs && s'.runs == s.runs[r := row] && s'.submissions == s.submissions
    requires row.workspace == s.runs[r].workspace && row.parent == s.runs[r].parent
    requires row.status.Active() ==> s.runs[r].status.Active()
    requires forall w, q :: OwnerOf(s'.workers, w, q) && q != r ==> OwnerOf(s.workers, w, q)
    requires row.status.Terminal() ==> forall w :: !OwnerOf(s'.workers, w, r)
    ensures Calm(s, s', ws)
  {
    forall w | w in StrayOwners(s'.runs, s'.workers, ws)
      ensures w in StrayOwners(s.runs, s.workers, ws)
    {
      assert OwnerOf(s'.workers, w, s'.workers[w].run);
      assert OwnerOf(s.workers, w, s'.workers[w].run);
    }
  }

  // Once its worker lets go of a run, nobody owns it.
  lemma Released(c: Config, s: State, w: WorkerId, after: Workers)
    requires Core(c, s) && w in s.workers && s.workers[w].pc.Owning()
    requires w in after && !after[w].pc.Owning() && after == s.workers[w := after[w]]
    ensures forall v, q :: OwnerOf(after, v, q) ==> OwnerOf(s.workers, v, q)
    ensures forall v :: !OwnerOf(after, v, s.workers[w].run)
  {
    assert OwnerOf(s.workers, w, s.workers[w].run);
    forall v, q | OwnerOf(after, v, q)
      ensures OwnerOf(s.workers, v, q)
    {
    }
  }

  lemma FinishCalm(c: Config, s: State, w: WorkerId, ws: WorkspaceId)
    requires Core(c, s) && OwnershipEnabled(c, s, w, Finish)
    ensures Calm(s, OwnershipApply(c, s, w, Finish), ws)
  {
    hide Core, Calm;
    var s' := OwnershipApply(c, s, w, Finish);
    var r := s.workers[w].run;
    Released(c, s, w, s'.workers);
    CalmRow(s, s', r, s'.runs[r], ws);
  }

  lemma OwnershipCalm(c: Config, s: State, w: WorkerId, step: OwnershipStep, ws: WorkspaceId)
    requires Core(c, s) && OwnershipEnabled(c, s, w, step) && !step.Park? && !step.AnnounceFails?
    ensures Calm(s, OwnershipApply(c, s, w, step), ws)
  {
    if step.Finish? {
      FinishCalm(c, s, w, ws);
    } else if step.Claim? {
      var s' := OwnershipApply(c, s, w, step);
      CalmRow(s, s', step.run, s'.runs[step.run], ws);
    }
  }

  lemma OthersCalm(c: Config, s: State, r: RunId, step: RunStep, ws: WorkspaceId)
    requires Core(c, s) && RunEnabled(c, s, r, step)
    ensures Calm(s, RunApply(c, s, r, step), ws)
  {
    var s' := RunApply(c, s, r, step);
    forall w, q | OwnerOf(s'.workers, w, q)
      ensures OwnerOf(s.workers, w, q)
    {
    }
    CalmRow(s, s', r, s'.runs[r], ws);
  }

  lemma ResumeCalm(c: Config, s: State, j: JobId, w: WorkerId, ws: WorkspaceId)
    requires Core(c, s) && JobEnabled(c, s, j, ClaimResumed(w))
    requires s.runs[s.resumes[j].run].status.AwaitingApproval?
    ensures Calm(s, JobApply(c, s, j, ClaimResumed(w)), ws)
  {
    var s' := JobApply(c, s, j, ClaimResumed(w));
    var r := s.resumes[j].run;
    hide Core;
    CalmRow(s, s', r, s'.runs[r], ws);
  }

  lemma ResumeOrphanedCalm(c: Config, s: State, j: JobId, ws: WorkspaceId)
    requires Core(c, s) && JobEnabled(c, s, j, ClaimResumedOrphaned)
    requires s.runs[s.resumes[j].run].status.AwaitingApproval?
    ensures Calm(s, JobApply(c, s, j, ClaimResumedOrphaned), ws)
  {
    var s' := JobApply(c, s, j, ClaimResumedOrphaned);
    var r := s.resumes[j].run;
    assert forall w :: !OwnerOf(s.workers, w, r);
    hide Core;
    CalmRow(s, s', r, s'.runs[r], ws);
  }

  // A job claims or settles a parked run, which nobody owns.
  lemma JobCalm(c: Config, s: State, j: JobId, step: JobStep, ws: WorkspaceId)
    requires Core(c, s) && JobEnabled(c, s, j, step)
    ensures Calm(s, JobApply(c, s, j, step), ws)
  {
    hide Core;
    if s.runs[s.resumes[j].run].status.AwaitingApproval? && step.ClaimResumed? {
      ResumeCalm(c, s, j, step.w, ws);
    } else if s.runs[s.resumes[j].run].status.AwaitingApproval? && step.ClaimResumedOrphaned? {
      ResumeOrphanedCalm(c, s, j, ws);
    }
  }

  lemma CalmLoad(s: State, s': State, ws: WorkspaceId)
    requires Calm(s, s', ws)
    ensures Load(s', ws) <= Load(s, ws)
    ensures |StrayOwners(s'.runs, s'.workers, ws)| <= |StrayOwners(s.runs, s.workers, ws)|
  {
    SubsetSize(ActiveTopLevel(s'.runs, ws), ActiveTopLevel(s.runs, ws));
    SubsetSize(StrayOwners(s'.runs, s'.workers, ws), StrayOwners(s.runs, s.workers, ws));
  }

  // ------------------------------------------------------------ pauses and late failures

  // A pause brings a failed run back, and takes its owner away.
  lemma ParkLoad(c: Config, s: State, w: WorkerId, a: ApprovalId, ws: WorkspaceId)
    requires Core(c, s) && OwnershipEnabled(c, s, w, Park(a))
    ensures
      var s' := OwnershipApply(c, s, w, Park(a));
      && Load(s', ws) <= Load(s, ws)
      && |StrayOwners(s'.runs, s'.workers, ws)| <= |StrayOwners(s.runs, s.workers, ws)|
  {
    var s' := OwnershipApply(c, s, w, Park(a));
    var r := s.workers[w].run;
    Released(c, s, w, s'.workers);
    assert OwnerOf(s.workers, w, r);
    if s.runs[r].status.Active() {
      hide Core, Calm;
      CalmRow(s, s', r, s'.runs[r], ws);
      CalmLoad(s, s', ws);
    } else {
      ParkStray(s, s', w, r, s'.runs[r], ws);
    }
  }

  lemma ParkStray(s: State, s': State, w: WorkerId, r: RunId, row: Run, ws: WorkspaceId)
    requires OwnerOf(s.workers, w, r) && r in s.runs && s.runs[r].status.Terminal() && row.status.Active()
    requires s'.runs == s.runs[r := row] && s'.submissions == s.submissions
    requires row.workspace == s.runs[r].workspace && row.parent == s.runs[r].parent
    requires forall v, q :: OwnerOf(s'.workers, v, q) ==> OwnerOf(s.workers, v, q)
    requires forall v :: !OwnerOf(s'.workers, v, r)
    ensures Load(s', ws) <= Load(s, ws)
    ensures |StrayOwners(s'.runs, s'.workers, ws)| <= |StrayOwners(s.runs, s.workers, ws)|
  {
    var owners, owners' := StrayOwners(s.runs, s.workers, ws), StrayOwners(s'.runs, s'.workers, ws);
    forall v | v in owners'
      ensures v in owners && v != w
    {
      assert OwnerOf(s'.workers, v, s'.workers[v].run);
      assert OwnerOf(s.workers, v, s'.workers[v].run);
    }
    var own, back := if w in owners then {w} else {}, if w in owners then {r} else {};
    SubsetSize(owners', owners - own);
    SubsetSize(ActiveTopLevel(s'.runs, ws), ActiveTopLevel(s.runs, ws) + back);
  }

  // A run is failed or cancelled, whoever owns it: if it was running it no longer counts, and it leaves an owner who
  // may bring it back.
  lemma StrayLoad(c: Config, s: State, s': State, r: RunId, row: Run, ws: WorkspaceId)
    requires Core(c, s) && r in s.runs && s'.runs == s.runs[r := row] && s'.submissions == s.submissions
    requires row.status.Terminal() && row.workspace == s.runs[r].workspace && row.parent == s.runs[r].parent
    requires forall w, q :: OwnerOf(s'.workers, w, q) ==> OwnerOf(s.workers, w, q)
    ensures Load(s', ws) <= Load(s, ws)
    ensures |StrayOwners(s'.runs, s'.workers, ws)| <=
            |StrayOwners(s.runs, s.workers, ws)| + if Runs(s, r, ws) then 1 else 0
  {
    hide Reads, Conversations, Accounts, Sightings;
    var owners, owners' := StrayOwners(s.runs, s.workers, ws), StrayOwners(s'.runs, s'.workers, ws);
    if Runs(s, r, ws) {
      var v :| OwnerOf(s.workers, v, r);
      forall x | x in owners'
        ensures x in owners + {v}
      {
        assert OwnerOf(s'.workers, x, s'.workers[x].run);
        assert OwnerOf(s.workers, x, s.workers[x].run);
      }
      SubsetSize(owners', owners + {v});
      SubsetSize(ActiveTopLevel(s'.runs, ws), ActiveTopLevel(s.runs, ws) - {r});
    } else {
      forall x | x in owners'
        ensures x in owners
      {
        assert OwnerOf(s'.workers, x, s'.workers[x].run);
        assert OwnerOf(s.workers, x, s.workers[x].run);
      }
      CalmLoad(s, s', ws);
    }
  }

  lemma FailLoad(c: Config, s: State, w: WorkerId, ws: WorkspaceId)
    requires Core(c, s) && OwnershipEnabled(c, s, w, AnnounceFails)
    ensures Adds(s, OwnershipApply(c, s, w, AnnounceFails), Ownership(w, AnnounceFails), ws)
  {
    var s' := OwnershipApply(c, s, w, AnnounceFails);
    var r := s.workers[w].run;
    assert forall v, q :: OwnerOf(s'.workers, v, q) ==> OwnerOf(s.workers, v, q);
    StrayLoad(c, s, s', r, s'.runs[r], ws);
  }

  // A step adds to the load nothing, and to the stray owners one at most, if it is a hit.
  predicate Adds(s: State, s': State, a: Action, ws: WorkspaceId) {
    && Load(s', ws) <= Load(s, ws)
    && |StrayOwners(s'.runs, s'.workers, ws)| <=
       |StrayOwners(s.runs, s.workers, ws)| + if IsHit(s, a, ws) then 1 else 0
  }

  lemma OperatorLoad(c: Config, s: State, o: OperatorId, step: OperatorStep, ws: WorkspaceId)
    requires Core(c, s) && OperatorEnabled(c, s, o, step)
    ensures Adds(s, OperatorApply(c, s, o, step), Operator(o, step), ws)
  {
    var s' := OperatorApply(c, s, o, step);
    if step.WriteCancel? && s.operators[o].seen.Waiting() {
      var r := s.operators[o].run;
      StrayLoad(c, s, s', r, s'.runs[r], ws);
    } else {
      CalmLoad(s, s', ws);
    }
  }

  // ------------------------------------------------------------ submissions

  lemma EnterWindow(submissions: map<SubmissionId, WorkspaceId>, u: SubmissionId, workspace: WorkspaceId,
                    ws: WorkspaceId)
    requires u !in submissions
    ensures |InWindow(submissions[u := workspace], ws)|
            == |InWindow(submissions, ws)| + if workspace == ws then 1 else 0
  {
    var added := if workspace == ws then {u} else {};
    assert InWindow(submissions[u := workspace], ws) == InWindow(submissions, ws) + added;
  }

  lemma InsertActive(runs: Runs, r: RunId, row: Run, ws: WorkspaceId)
    requires r !in runs && row.status.Active() && row.parent.None?
    ensures |ActiveTopLevel(runs[r := row], ws)|
            == |ActiveTopLevel(runs, ws)| + if row.workspace == ws then 1 else 0
  {
    var added := if row.workspace == ws then {r} else {};
    assert ActiveTopLevel(runs[r := row], ws) == ActiveTopLevel(runs, ws) + added;
  }

  lemma LeaveWindow(submissions: map<SubmissionId, WorkspaceId>, u: SubmissionId, ws: WorkspaceId)
    requires u in submissions
    ensures |InWindow(submissions - {u}, ws)| == |InWindow(submissions, ws)| - if submissions[u] == ws then 1 else 0
  {
    var left := if submissions[u] == ws then {u} else {};
    assert InWindow(submissions - {u}, ws) == InWindow(submissions, ws) - left;
    assert left <= InWindow(submissions, ws);
  }

  // Children count in the check though they bypass it, so passing it leaves room for a top-level run.
  lemma CheckLoad(c: Config, s: State, u: SubmissionId, workspace: WorkspaceId, ws: WorkspaceId)
    requires SubmissionEnabled(c, s, u, CheckQuota(workspace)) && c.limit > 0
    ensures
      var s' := SubmissionApply(c, s, u, CheckQuota(workspace));
      Load(s', ws) <= Load(s, ws)
      || Load(s', ws) <= c.limit + c.window - 1 + |StrayOwners(s.runs, s.workers, ws)|
  {
    EnterWindow(s.submissions, u, workspace, ws);
    if workspace == ws {
      SubsetSize(ActiveTopLevel(s.runs, ws), ActiveIn(s.runs, ws));
    }
  }

  lemma InsertLoad(c: Config, s: State, u: SubmissionId, r: RunId, ws: WorkspaceId)
    requires Core(c, s) && SubmissionEnabled(c, s, u, InsertRun(r))
    ensures
      var s' := SubmissionApply(c, s, u, InsertRun(r));
      Load(s', ws) <= Load(s, ws) && StrayOwners(s'.runs, s'.workers, ws) == StrayOwners(s.runs, s.workers, ws)
  {
    var s' := SubmissionApply(c, s, u, InsertRun(r));
    assert forall w :: w in s.workers ==> s'.runs[s.workers[w].run] == s.runs[s.workers[w].run];
    assert StrayOwners(s'.runs, s'.workers, ws) == StrayOwners(s.runs, s.workers, ws);
    InsertActive(s.runs, r, NewRun(s.submissions[u], None), ws);
    LeaveWindow(s.submissions, u, ws);
  }

  lemma AbandonLoad(c: Config, s: State, u: SubmissionId, ws: WorkspaceId)
    requires SubmissionEnabled(c, s, u, Abandon)
    ensures Load(SubmissionApply(c, s, u, Abandon), ws) <= Load(s, ws)
  {
    LeaveWindow(s.submissions, u, ws);
  }

  // ------------------------------------------------------------ the bound

  // After so many hits.
  predicate Within(c: Config, s: State, ws: WorkspaceId, hits: nat) {
    && |StrayOwners(s.runs, s.workers, ws)| <= hits
    && Load(s, ws) <= c.limit + c.window - 1 + hits
  }

  lemma LoadKept(c: Config, s: State, a: Action, ws: WorkspaceId, hits: nat)
    requires c.limit > 0 && Core(c, s) && Enabled(c, s, a) && Within(c, s, ws, hits)
    ensures Within(c, Apply(c, s, a), ws, hits + if IsHit(s, a, ws) then 1 else 0)
  {
    var s' := Apply(c, s, a);
    match a
    case Tick =>
    case Submission(u, step) =>
      if step.CheckQuota? {
        CheckLoad(c, s, u, step.workspace, ws);
      } else if step.InsertRun? {
        InsertLoad(c, s, u, step.run, ws);
      } else {
        AbandonLoad(c, s, u, ws);
      }
    case Turn(w, step) => TurnCalm(c, s, w, step, ws); CalmLoad(s, s', ws);
    case Tool(w, step) => ToolCalm(c, s, w, step, ws); CalmLoad(s, s', ws);
    case Ownership(w, step) => OwnershipLoad(c, s, w, step, ws);
    case OnRun(r, step) => OthersCalm(c, s, r, step, ws); CalmLoad(s, s', ws);
    case Operator(o, step) => OperatorLoad(c, s, o, step, ws);
    case OnJob(j, step) => JobCalm(c, s, j, step, ws); CalmLoad(s, s', ws);
  }

  lemma OwnershipLoad(c: Config, s: State, w: WorkerId, step: OwnershipStep, ws: WorkspaceId)
    requires Core(c, s) && OwnershipEnabled(c, s, w, step)
    ensures Adds(s, OwnershipApply(c, s, w, step), Ownership(w, step), ws)
  {
    if step.Park? {
      ParkLoad(c, s, w, step.approval, ws);
    } else if step.AnnounceFails? {
      FailLoad(c, s, w, ws);
    } else {
      OwnershipCalm(c, s, w, step, ws);
      CalmLoad(s, OwnershipApply(c, s, w, step), ws);
    }
  }

  lemma {:induction false} LoadHolds(c: Config, s: State, actions: seq<Action>, ws: WorkspaceId, hits: nat)
    requires c.limit > 0 && Inv(c, s) && Legal(c, s, actions) && Within(c, s, ws, hits)
    ensures Within(c, Execute(c, s, actions), ws, hits + Hits(c, s, actions, ws))
    decreases |actions|
  {
    if actions != [] {
      LoadKept(c, s, actions[0], ws, hits);
      ActionKept(c, s, actions[0]);
      LoadHolds(c, Apply(c, s, actions[0]), actions[1..], ws, hits + if IsHit(s, actions[0], ws) then 1 else 0);
    }
  }

  // With at most `window` submissions at a time between check and insert, a workspace never has more active
  // top-level runs than limit + window - 1 and one for each publication or cancel that hit a new owner's run; where
  // publishing cannot raise, nobody cancels and submissions are serial, never more than the limit.
  lemma ActiveRunsAreBounded(c: Config, actions: seq<Action>, ws: WorkspaceId)
    requires c.limit > 0 && c.window > 0 && Legal(c, INIT, actions)
    ensures |ActiveTopLevel(Execute(c, INIT, actions).runs, ws)| <=
            c.limit + c.window - 1 + Hits(c, INIT, actions, ws)
    ensures !c.publishMayFail && c.cancellers == 0 ==> Hits(c, INIT, actions, ws) == 0
  {
    assert ActiveTopLevel(INIT.runs, ws) == {} && InWindow(INIT.submissions, ws) == {};
    assert StrayOwners(INIT.runs, INIT.workers, ws) == {};
    LoadHolds(c, INIT, actions, ws, 0);
    if !c.publishMayFail && c.cancellers == 0 {
      NoHits(c, INIT, actions, ws);
    }
  }

  lemma {:induction false} NoHits(c: Config, s: State, actions: seq<Action>, ws: WorkspaceId)
    requires !c.publishMayFail && c.cancellers == 0 && Inv(c, s) && Legal(c, s, actions)
    ensures Hits(c, s, actions, ws) == 0
    decreases |actions|
  {
    if actions != [] {
      ActionKept(c, s, actions[0]);
      NoHits(c, Apply(c, s, actions[0]), actions[1..], ws);
    }
  }
}
