// What the row of a guarded sysctl change says of the host, whatever else goes on, as long as nobody else writes the
// parameter or the row.
module GuardHost {
  import opened Options
  import opened Ledger
  import opened GuardMachine

  // The reverts that the guard of this change has begun.
  predicate OwnErrand(s: State, j: nat, id: ChangeId) {
    j in s.errands && s.errands[j].id == id && s.errands[j].cause.ByGuard?
  }

  // A step of the guard of this change once it has begun, or of the revert that it has begun.
  predicate IsOwn(s: State, a: Action, id: ChangeId) {
    match a
    case InsertRecord(i) => i == id
    case ApplyChange(i, _) => i == id
    case Verify(i, _) => i == id
    case CloseRecord(i) => i == id
    case LoadForRevert(i, cause) => i == id && cause.ByGuard?
    case UndoLoaded(j, _) => OwnErrand(s, j, id)
    case RecordRevert(j, _) => OwnErrand(s, j, id)
    case Die(i) => i == id
    case _ => false
  }

  // Everybody else leaves the parameter as it is, does not write the row of the change, and takes another id.
  ghost predicate Spares(s: State, a: Action, id: ChangeId, key: string)
    requires Enabled(s, a)
  {
    IsOwn(s, a, id)
    || (PriorState(Apply(s, a).host, Sysctl, key) == PriorState(s.host, Sysctl, key) && WriterOf(a, id).None?
        && (a.ReadPrior? ==> a.id != id))
  }

  ghost predicate Undisturbed(s: State, actions: seq<Action>, id: ChangeId, key: string)
    requires Legal(s, actions)
    decreases |actions|
  {
    actions == [] ||
    (Spares(s, actions[0], id, key) && Undisturbed(Apply(s, actions[0]), actions[1..], id, key))
  }

  // The change: what it sets, and what was there before.
  datatype Setting = Setting(id: ChangeId, key: string, value: string, prior: Option<string>)

  // What the parameter is.
  function Now(s: State, c: Setting): Option<string> { PriorState(s.host, Sysctl, c.key) }

  // While the guard is at work.
  predicate GuardTells(s: State, c: Setting, g: Guard) {
    && g.kind.Sysctl? && g.target == c.key && g.value == c.value
    && match g.stage
       case Prior(previous) => previous == c.prior && Now(s, c) == c.prior
       case Recorded => Now(s, c) == c.prior
       case Settling => Now(s, c) == Some(c.value) && c.prior.Some?
       case Undoing => Now(s, c) == Some(c.value) && c.prior.Some?
       case Closing(status) =>
         if status.Reverted? then Now(s, c) == c.prior else status.Verified? && Now(s, c) == Some(c.value)
  }

  // While the revert that it has begun is under way.
  predicate ErrandTells(s: State, c: Setting, e: Errand) {
    match e.step
    case Read(row) => row.status.Applied? && Now(s, c) == Some(c.value) && c.prior.Some?
    case Wrote(status) => Now(s, c) == if status.Reverted? then c.prior else Some(c.value)
  }

  // Once the row is settled.
  predicate RowTells(s: State, c: Setting, row: Record) {
    match row.status
    case Applied => true
    case Verified => Now(s, c) == Some(c.value)
    case Reverted => Now(s, c) == c.prior
    case RevertFailed => Now(s, c) == Some(c.value)
    case _ => false
  }

  ghost predicate AtWork(s: State, id: ChangeId) {
    id in s.guards || exists j :: OwnErrand(s, j, id)
  }

  // The change has been begun; its guard, then at most one revert of its guard's, and its row all tell the parameter.
  ghost predicate Follows(s: State, c: Setting) {
    && (c.id in s.guards ==> GuardTells(s, c, s.guards[c.id]) && forall j :: !OwnErrand(s, j, c.id))
    && (forall i, j :: OwnErrand(s, i, c.id) && OwnErrand(s, j, c.id) ==> i == j)
    && (forall j :: OwnErrand(s, j, c.id) ==> ErrandTells(s, c, s.errands[j]))
    && (c.id in s.records ==>
          var row := s.records[c.id];
          && row.kind.Sysctl? && row.target == c.key && row.previous == c.prior && row.revertible
          && RowTells(s, c, row) && (AtWork(s, c.id) ==> row.status.Applied?))
  }

  // ------------------------------------------------------------ the guard's own steps

  lemma GuardStepFollows(s: State, a: Action, c: Setting)
    requires Inv(s) && Enabled(s, a) && Follows(s, c) && IsOwn(s, a, c.id)
    requires a.InsertRecord? || a.ApplyChange? || a.Verify? || a.CloseRecord? || a.Die?
    ensures Follows(Apply(s, a), c)
  {
    assert Apply(s, a).errands == s.errands;
    assert forall j :: OwnErrand(Apply(s, a), j, c.id) <==> OwnErrand(s, j, c.id);
    hide ErrandsOk, ErrandTells;
  }

  lemma LoadFollows(s: State, c: Setting)
    requires Inv(s) && Follows(s, c) && Enabled(s, LoadForRevert(c.id, ByGuard))
    ensures Follows(Apply(s, LoadForRevert(c.id, ByGuard)), c)
  {
    var s' := Apply(s, LoadForRevert(c.id, ByGuard));
    assert forall j :: OwnErrand(s', j, c.id) <==> j == s.next;
  }

  lemma UndoFollows(s: State, j: nat, fortune: Fortune, c: Setting)
    requires Inv(s) && Follows(s, c) && Enabled(s, UndoLoaded(j, fortune)) && OwnErrand(s, j, c.id)
    ensures Follows(Apply(s, UndoLoaded(j, fortune)), c)
  {
    var s' := Apply(s, UndoLoaded(j, fortune));
    assert forall i :: OwnErrand(s', i, c.id) ==> OwnErrand(s, i, c.id);
    assert SameChange(s.errands[j].step.row, s.records[c.id]);
  }

  lemma RecordFollows(s: State, j: nat, c: Setting)
    requires Inv(s) && Follows(s, c) && Enabled(s, RecordRevert(j, c.id)) && OwnErrand(s, j, c.id)
    ensures Follows(Apply(s, RecordRevert(j, c.id)), c)
  {
    var s' := Apply(s, RecordRevert(j, c.id));
    assert forall i :: OwnErrand(s', i, c.id) ==> OwnErrand(s, i, c.id) && i != j;
  }

  // ------------------------------------------------------------ everybody else's

  lemma OthersFollow(s: State, a: Action, c: Setting)
    requires Inv(s) && Enabled(s, a) && Follows(s, c) && !IsOwn(s, a, c.id) && Spares(s, a, c.id, c.key)
    ensures Follows(Apply(s, a), c)
  {
    var s' := Apply(s, a);
    OthersSpareRow(s, a, c.id, c.key);
    assert Now(s', c) == Now(s, c);
    hide Apply, Enabled, Spares, IsOwn, Inv, GuardTells, ErrandTells, RowTells;
  }

  lemma OthersSpareRow(s: State, a: Action, id: ChangeId, key: string)
    requires Inv(s) && Enabled(s, a) && !IsOwn(s, a, id) && Spares(s, a, id, key)
    ensures
      var s' := Apply(s, a);
      && (id in s.records ==> id in s'.records && s'.records[id] == s.records[id])
      && (id !in s.records ==> id !in s'.records)
      && (id in s'.guards <==> id in s.guards) && (id in s.guards ==> s'.guards[id] == s.guards[id])
      && forall j :: OwnErrand(s', j, id) ==> OwnErrand(s, j, id) && s'.errands[j] == s.errands[j]
  {
  }

  lemma StepFollows(s: State, a: Action, c: Setting)
    requires Inv(s) && Enabled(s, a) && Follows(s, c) && Spares(s, a, c.id, c.key)
    ensures Follows(Apply(s, a), c)
  {
    if !IsOwn(s, a, c.id) {
      OthersFollow(s, a, c);
    } else if a.LoadForRevert? {
      LoadFollows(s, c);
    } else if a.UndoLoaded? {
      UndoFollows(s, a.j, a.fortune, c);
    } else if a.RecordRevert? {
      RecordFollows(s, a.j, c);
    } else {
      GuardStepFollows(s, a, c);
    }
  }

  lemma {:induction false} RunFollows(s: State, actions: seq<Action>, c: Setting)
    requires Inv(s) && Legal(s, actions) && Follows(s, c) && Undisturbed(s, actions, c.id, c.key)
    ensures Follows(Execute(s, actions), c)
    decreases |actions|
  {
    if actions != [] {
      StepFollows(s, actions[0], c);
      ActionKept(s, actions[0]);
      RunFollows(Apply(s, actions[0]), actions[1..], c);
    }
  }

  // In every schedule in which nobody else writes the parameter or the row of a guarded sysctl change, a row that says
  // reverted means that the parameter is what it was when the guard began, and one that says verified, or that the
  // revert has failed, that it is what the change made of it.
  lemma RowsTellTheHost(s: State, id: ChangeId, key: string, value: string, revertAfter: Option<nat>, watched: bool,
                        later: seq<Action>)
    requires Inv(s) && Enabled(s, ReadPrior(id, Sysctl, key, value, revertAfter, watched))
    requires
      var s1 := Apply(s, ReadPrior(id, Sysctl, key, value, revertAfter, watched));
      Legal(s1, later) && Undisturbed(s1, later, id, key)
    ensures
      var s' := Execute(Apply(s, ReadPrior(id, Sysctl, key, value, revertAfter, watched)), later);
      id in s'.records ==>
        && !s'.records[id].status.Confirmed?
        && (s'.records[id].status.Reverted? ==>
              PriorState(s'.host, Sysctl, key) == PriorState(s.host, Sysctl, key))
        && (s'.records[id].status.Verified? || s'.records[id].status.RevertFailed? ==>
              PriorState(s'.host, Sysctl, key) == Some(value))
  {
    var a := ReadPrior(id, Sysctl, key, value, revertAfter, watched);
    ActionKept(s, a);
    assert forall j :: j in s.errands ==> ErrandOk(s.records, s.errands[j]);
    assert forall j :: !OwnErrand(Apply(s, a), j, id);
    RunFollows(Apply(s, a), later, Setting(id, key, value, PriorState(s.host, Sysctl, key)));
  }
}
