// When nothing automatic will ever again access the host for a change: the exact condition, and what it means
// for confirmed and for verified changes.
module GuardSafety {
  import opened Options
  import opened Ledger
  import opened GuardMachine

  function AutomaticAttempts(attempts: seq<Attempt>, id: ChangeId): nat {
    if attempts == [] then 0
    else
      var last := attempts[|attempts| - 1];
      AutomaticAttempts(attempts[..|attempts| - 1], id)
      + if last.id == id && last.cause.Automatic() then 1 else 0
  }

  // From here on, whatever happens, nothing automatic attempts to write the host for the change.
  ghost predicate NoMoreAutomation(s: State, id: ChangeId) {
    forall later | Legal(s, later) ::
      AutomaticAttempts(Execute(s, later).attempts, id) == AutomaticAttempts(s.attempts, id)
  }

  // The action happens, and from then on nothing automatic attempts to write the host for the change.
  ghost predicate EndsAutomation(s: State, a: Action, id: ChangeId)
    requires Enabled(s, a)
  {
    && AutomaticAttempts(Apply(s, a).attempts, id) == AutomaticAttempts(s.attempts, id)
    && NoMoreAutomation(Apply(s, a), id)
  }

  // There is a way to undo the change. This never changes.
  predicate HasUndo(record: Record) { record.revertible && Undo(record).Some? }

  // A guard that may yet decide to undo its change.
  predicate MayUndo(g: GuardMachine.Guard) {
    g.stage.Undoing? || g.stage.Settling? || (g.stage.Recorded? && g.hasConditions)
  }

  // A revert under way that will access the host by itself.
  predicate Loaded(e: Errand, id: ChangeId) {
    e.id == id && e.cause.Automatic() && e.step.Read? && Touches(e.step.row)
  }

  // A revert under way that may leave the row as one whose revert has failed.
  predicate MayReopen(e: Errand, id: ChangeId) {
    e.id == id && match e.step
    case Read(row) => Open(row)
    case Wrote(status) => status.RevertFailed?
  }

  ghost predicate NoneLoaded(s: State, id: ChangeId) {
    forall j :: j in s.errands ==> !Loaded(s.errands[j], id)
  }

  ghost predicate NoneMayReopen(s: State, id: ChangeId) {
    forall j :: j in s.errands ==> !MayReopen(s.errands[j], id)
  }

  predicate GuardMayUndo(s: State, id: ChangeId) { id in s.guards && MayUndo(s.guards[id]) }

  // It has no timer, no automatic revert has loaded it to undo it, and its guard, if it may still want to undo it, will
  // find that it needs no revert.
  ghost predicate Quiet(s: State, id: ChangeId)
    requires id in s.records
  {
    && s.records[id].expiresAt.None? && NoneLoaded(s, id)
    && (GuardMayUndo(s, id) ==> NeedsNoRevert(s.records[id]) && NoneMayReopen(s, id))
  }

  // The change cannot be undone, or all is quiet about it.
  ghost predicate Over(s: State, id: ChangeId) {
    id in s.records && (HasUndo(s.records[id]) ==> Quiet(s, id))
  }

  // ------------------------------------------------------------ enough

  lemma AttemptsGrow(s: State, a: Action, id: ChangeId)
    requires Enabled(s, a)
    ensures AutomaticAttempts(Apply(s, a).attempts, id) == AutomaticAttempts(s.attempts, id)
            + if a.UndoLoaded? && Loaded(s.errands[a.j], id) then 1 else 0
  {
    var s' := Apply(s, a);
    if s'.attempts != s.attempts {
      assert s'.attempts[..|s.attempts|] == s.attempts;
    }
  }

  lemma NothingLoadedWithoutUndo(s: State, id: ChangeId)
    requires Inv(s) && id in s.records && !HasUndo(s.records[id])
    ensures NoneLoaded(s, id)
  {
  }

  // Steps of reverts.
  lemma ErrandsStayQuiet(s: State, a: Action, id: ChangeId)
    requires Inv(s) && Enabled(s, a) && id in s.records && HasUndo(s.records[id]) && Quiet(s, id)
    requires a.LoadForRevert? || a.UndoLoaded? || a.RecordRevert?
    ensures Quiet(Apply(s, a), id)
  {
  }

  // Steps of guards, people and the world.
  lemma OthersStayQuiet(s: State, a: Action, id: ChangeId)
    requires Inv(s) && Enabled(s, a) && id in s.records && HasUndo(s.records[id]) && Quiet(s, id)
    requires !a.LoadForRevert? && !a.UndoLoaded? && !a.RecordRevert?
    ensures Quiet(Apply(s, a), id)
  {
    assert Apply(s, a).errands == s.errands;
    hide NoneLoaded, NoneMayReopen, ErrandsOk;
  }

  lemma OverStays(s: State, a: Action, id: ChangeId)
    requires Inv(s) && Enabled(s, a) && Over(s, id)
    ensures Over(Apply(s, a), id)
    ensures AutomaticAttempts(Apply(s, a).attempts, id) == AutomaticAttempts(s.attempts, id)
  {
    AttemptsGrow(s, a, id);
    ActionKeepsRows(s, a);
    if !HasUndo(s.records[id]) {
      NothingLoadedWithoutUndo(s, id);
    } else if a.LoadForRevert? || a.UndoLoaded? || a.RecordRevert? {
      ErrandsStayQuiet(s, a, id);
    } else {
      OthersStayQuiet(s, a, id);
    }
    hide Apply, Enabled, Inv, Quiet;
  }

  lemma {:induction false} OverForever(s: State, actions: seq<Action>, id: ChangeId)
    requires Inv(s) && Over(s, id) && Legal(s, actions)
    ensures AutomaticAttempts(Execute(s, actions).attempts, id) == AutomaticAttempts(s.attempts, id)
    decreases |actions|
  {
    if actions != [] {
      OverStays(s, actions[0], id);
      ActionKept(s, actions[0]);
      OverForever(Apply(s, actions[0]), actions[1..], id);
    }
  }

  // ------------------------------------------------------------ necessary

  // One step back from a state with automation ahead.
  lemma StepBack(s: State, a: Action, id: ChangeId)
    requires Enabled(s, a) && !NoMoreAutomation(Apply(s, a), id)
    requires !(a.UndoLoaded? && Loaded(s.errands[a.j], id))
    ensures !NoMoreAutomation(s, id)
  {
    var s' := Apply(s, a);
    var later :| Legal(s', later)
                 && AutomaticAttempts(Execute(s', later).attempts, id) != AutomaticAttempts(s'.attempts, id);
    AttemptsGrow(s, a, id);
    assert ([a] + later)[1..] == later;
    assert Legal(s, [a] + later) && Execute(s, [a] + later) == Execute(s', later);
  }

  lemma LoadedUndoes(s: State, j: nat, id: ChangeId)
    requires j in s.errands && Loaded(s.errands[j], id)
    ensures !NoMoreAutomation(s, id)
  {
    var undo := UndoLoaded(j, Works);
    AttemptsGrow(s, undo, id);
    assert [undo][1..] == [];
    assert Legal(Apply(s, undo), []) && Legal(s, [undo]) && Execute(s, [undo]) == Apply(s, undo);
  }

  // Whoever automatic may load the row to undo it will do so.
  lemma LoadsAndUndoes(s: State, id: ChangeId, cause: Cause)
    requires WantsRevert(s, id, cause) && cause.Automatic() && Touches(s.records[id])
    ensures !NoMoreAutomation(s, id)
  {
    var s' := Apply(s, LoadForRevert(id, cause));
    LoadedUndoes(s', s.next, id);
    StepBack(s, LoadForRevert(id, cause), id);
  }

  // A guard that may want to undo its change can come to do so.
  lemma GuardUndoes(s: State, id: ChangeId)
    requires Inv(s) && GuardMayUndo(s, id) && id in s.records && Touches(s.records[id])
    ensures !NoMoreAutomation(s, id)
    decreases if s.guards[id].stage.Recorded? then 2 else if s.guards[id].stage.Settling? then 1 else 0
  {
    var g := s.guards[id];
    if g.stage.Undoing? {
      LoadsAndUndoes(s, id, ByGuard);
    } else if g.stage.Settling? {
      ActionKept(s, Verify(id, false));
      GuardUndoes(Apply(s, Verify(id, false)), id);
      StepBack(s, Verify(id, false), id);
    } else {
      var host := s.host.(sysctls := s.host.sysctls[g.target := ""]);
      var s1 := Apply(s, Outside(host));
      ActionKept(s, Outside(host));
      ActionKept(s1, ApplyChange(id, Works));
      GuardUndoes(Apply(s1, ApplyChange(id, Works)), id);
      StepBack(s1, ApplyChange(id, Works), id);
      StepBack(s, Outside(host), id);
    }
  }

  // A revert under way fails, and leaves the row open to the guard.
  lemma ReopenedForTheGuard(s: State, id: ChangeId, j: nat)
    requires Inv(s) && GuardMayUndo(s, id) && id in s.records && HasUndo(s.records[id])
    requires j in s.errands && MayReopen(s.errands[j], id)
    ensures !NoMoreAutomation(s, id)
    decreases if s.errands[j].step.Read? then 1 else 0
  {
    var e := s.errands[j];
    if Loaded(e, id) {
      LoadedUndoes(s, j, id);
    } else if e.step.Read? {
      ActionKept(s, UndoLoaded(j, Fails));
      ReopenedForTheGuard(Apply(s, UndoLoaded(j, Fails)), id, j);
      StepBack(s, UndoLoaded(j, Fails), id);
    } else {
      ActionKept(s, RecordRevert(j, id));
      GuardUndoes(Apply(s, RecordRevert(j, id)), id);
      StepBack(s, RecordRevert(j, id), id);
    }
  }

  // A timer runs out.
  lemma {:induction false} TimerFires(s: State, id: ChangeId)
    requires Inv(s) && id in s.records && HasUndo(s.records[id]) && s.records[id].expiresAt.Some?
    ensures !NoMoreAutomation(s, id)
    decreases s.records[id].expiresAt.value - s.now
  {
    if Due(s.records[id], s.now) {
      LoadsAndUndoes(s, id, BySweep);
    } else {
      TimerFires(Apply(s, Tick), id);
      StepBack(s, Tick, id);
    }
  }

  // In every reachable state, a change is left alone by everything automatic for good exactly when it is over.
  lemma AutomationEndsExactlyWhenOver(s: State, id: ChangeId)
    requires Inv(s) && id in s.records
    ensures NoMoreAutomation(s, id) <==> Over(s, id)
  {
    if Over(s, id) {
      forall later | Legal(s, later)
        ensures AutomaticAttempts(Execute(s, later).attempts, id) == AutomaticAttempts(s.attempts, id)
      {
        OverForever(s, later, id);
      }
    } else if s.records[id].expiresAt.Some? {
      TimerFires(s, id);
    } else if !NoneLoaded(s, id) {
      var j :| j in s.errands && Loaded(s.errands[j], id);
      LoadedUndoes(s, j, id);
    } else if !NeedsNoRevert(s.records[id]) {
      GuardUndoes(s, id);
    } else {
      var j :| j in s.errands && MayReopen(s.errands[j], id);
      ReopenedForTheGuard(s, id, j);
    }
  }

  // ------------------------------------------------------------ confirmation

  // What can be checked when a confirmation is written: the change cannot be undone anyway; or no automatic revert
  // has loaded it to undo it, and while its guard may still want to undo it, no revert at all is under way that could
  // leave its row open.
  ghost predicate SafeToConfirm(s: State, id: ChangeId) {
    id in s.records && HasUndo(s.records[id]) ==>
      NoneLoaded(s, id) && (GuardMayUndo(s, id) ==> NoneMayReopen(s, id))
  }

  // A confirmation that is written keeps everything automatic from the change, also inside the settle window,
  // exactly when it was safe, whatever has become of the row since it was read.
  lemma ConfirmedIsKeptIff(host: Host, actions: seq<Action>, k: nat, id: ChangeId)
    requires Legal(Init(host), actions) && Enabled(Execute(Init(host), actions), Confirm(k, id))
    ensures
      var s := Execute(Init(host), actions);
      EndsAutomation(s, Confirm(k, id), id) <==> SafeToConfirm(s, id)
  {
    InvHolds(Init(host), actions);
    var s := Execute(Init(host), actions);
    ActionKept(s, Confirm(k, id));
    AttemptsGrow(s, Confirm(k, id), id);
    AutomationEndsExactlyWhenOver(Apply(s, Confirm(k, id)), id);
  }

  // In particular it does when no revert of the change is under way.
  lemma ConfirmedIsKept(host: Host, actions: seq<Action>, k: nat, id: ChangeId)
    requires Legal(Init(host), actions) && Enabled(Execute(Init(host), actions), Confirm(k, id))
    requires forall j :: j in Execute(Init(host), actions).errands ==> Execute(Init(host), actions).errands[j].id != id
    ensures EndsAutomation(Execute(Init(host), actions), Confirm(k, id), id)
  {
    ConfirmedIsKeptIff(host, actions, k, id);
  }

  // A verified change has lost its timer: it is never reverted automatically, confirmed or not, exactly unless an
  // automatic revert has already loaded it.
  lemma VerifiedIsKeptIff(host: Host, actions: seq<Action>, id: ChangeId)
    requires Legal(Init(host), actions)
    requires AtStage(Execute(Init(host), actions), id, Closing(Verified))
    requires Enabled(Execute(Init(host), actions), CloseRecord(id))
    ensures
      var s := Execute(Init(host), actions);
      EndsAutomation(s, CloseRecord(id), id) <==> NoneLoaded(s, id)
  {
    InvHolds(Init(host), actions);
    var s := Execute(Init(host), actions);
    ActionKept(s, CloseRecord(id));
    AttemptsGrow(s, CloseRecord(id), id);
    AutomationEndsExactlyWhenOver(Apply(s, CloseRecord(id)), id);
    if !HasUndo(s.records[id]) {
      NothingLoadedWithoutUndo(s, id);
    }
  }

  // ------------------------------------------------------------ runs on which it is too late

  lemma Extend(host: Host, actions: seq<Action>, a: Action) returns (longer: seq<Action>)
    requires Legal(Init(host), actions) && Enabled(Execute(Init(host), actions), a)
    ensures Legal(Init(host), longer) && Execute(Init(host), longer) == Apply(Execute(Init(host), actions), a)
    ensures longer == actions + [a]
  {
    ExecuteAppend(Init(host), actions, a);
    longer := actions + [a];
  }

  // A change with a timer is applied, and nothing happens until the timer has run out.
  lemma TimerRunsOut(key: string, value: string) returns (actions: seq<Action>)
    ensures Legal(Init(Host(map[key := ""], [])), actions)
    ensures
      var s := Execute(Init(Host(map[key := ""], [])), actions);
      && s.next == 0 && s.errands == map[] && s.confirming == map[] && s.guards == map[]
      && 0 in s.records && Due(s.records[0], s.now) && Touches(s.records[0])
      && s.records[0] == NewRecord(Sysctl, key, Some(""), value, Some(1), 0) && s.host.sysctls == map[key := value]
  {
    var host := Host(map[key := ""], []);
    actions := Extend(host, [], ReadPrior(0, Sysctl, key, value, Some(1), false));
    actions := Extend(host, actions, InsertRecord(0));
    actions := Extend(host, actions, ApplyChange(0, Works));
    actions := Extend(host, actions, Tick);
    actions := Extend(host, actions, Tick);
  }

  // The sweep then loads it; a confirmation still succeeds, and the sweep reverts.
  lemma ConfirmationCanComeTooLate(key: string, value: string) returns (actions: seq<Action>)
    ensures
      var host := Host(map[key := ""], []);
      && Legal(Init(host), actions)
      && Enabled(Execute(Init(host), actions), Confirm(0, 0))
      && !EndsAutomation(Execute(Init(host), actions), Confirm(0, 0), 0)
  {
    var host := Host(map[key := ""], []);
    actions := TimerRunsOut(key, value);
    actions := Extend(host, actions, LoadForRevert(0, BySweep));
    actions := Extend(host, actions, ReadToConfirm(0, 0));
    ConfirmedIsKeptIff(host, actions, 0, 0);
    assert Loaded(Execute(Init(host), actions).errands[0], 0);
  }

  // Or the sweep reverts it between the confirmation's reading and writing: the row says confirmed, and nothing
  // automatic comes back to the change, which is not there any more.
  lemma RevertedChangeIsConfirmed(key: string, value: string) returns (actions: seq<Action>)
    ensures
      var host := Host(map[key := ""], []);
      && Legal(Init(host), actions)
      && var s := Execute(Init(host), actions);
         && 0 in s.records && s.records[0].status.Confirmed? && s.records[0].newValue == value
         && s.host.sysctls == map[key := ""]
         && NoMoreAutomation(s, 0)
  {
    var host := Host(map[key := ""], []);
    actions := TimerRunsOut(key, value);
    actions := Extend(host, actions, ReadToConfirm(0, 0));
    actions := Extend(host, actions, LoadForRevert(0, BySweep));
    actions := Extend(host, actions, UndoLoaded(0, Works));
    actions := Extend(host, actions, RecordRevert(0, 0));
    ConfirmedIsKeptIff(host, actions, 0, 0);
    actions := Extend(host, actions, Confirm(0, 0));
  }
}
