// Guarded changes among operators, the dead-man sweep and each other. One action is one statement of a database
// session or one access to the host. A revert reads its row, accesses the host, and writes the row, as three
// actions with others in between, and a confirmation reads the row and writes it, as two; guards, reverts and
// confirmations may die between any two of theirs.
module GuardMachine {
  import opened Options
  import opened Ledger

  type ChangeId = nat

  // Who attempts a write of the host: the guard applying, the guard undoing, the sweep, or a person.
  datatype Cause = Applying | ByGuard | BySweep | ByHand {
    predicate Automatic() { ByGuard? || BySweep? }
  }

  datatype Attempt = Attempt(id: ChangeId, cause: Cause)

  // Where a guard stands: prior state read; row written; applied and settling; about to close the row; or
  // about to undo an unverified change.
  datatype Stage = Prior(previous: Option<string>) | Recorded | Settling | Closing(status: ChangeStatus) | Undoing

  datatype Guard = Guard(
    kind: ChangeKind, target: string, value: string, revertAfter: Option<nat>, hasConditions: bool, stage: Stage)

  // A revert under way: it holds the row it has read, or the status it is about to write.
  datatype Step = Read(row: Record) | Wrote(status: ChangeStatus)

  datatype Errand = Errand(id: ChangeId, cause: Cause, step: Step)

  // A confirmation that has read its row, in that status, and not yet written it.
  datatype Confirmation = Confirmation(id: ChangeId, seen: ChangeStatus)

  // `errands` holds the reverts under way, by the number they were given when they read their row. One that has
  // died stays, and does nothing any more.
  datatype State = State(
    now: nat, host: Host, records: map<ChangeId, Record>, guards: map<ChangeId, Guard>,
    errands: map<nat, Errand>, next: nat, confirming: map<nat, Confirmation>, attempts: seq<Attempt>)

  datatype Action =
    | Tick
    | Outside(host: Host)
    | ReadPrior(id: ChangeId, kind: ChangeKind, target: string, value: string, revertAfter: Option<nat>,
                hasConditions: bool)
    | InsertRecord(id: ChangeId)
    | ApplyChange(id: ChangeId, fortune: Fortune)
    | Verify(id: ChangeId, met: bool)
    | CloseRecord(id: ChangeId)
    | LoadForRevert(id: ChangeId, cause: Cause)
    | UndoLoaded(j: nat, fortune: Fortune)
    | RecordRevert(j: nat, id: ChangeId)
    | ReadToConfirm(k: nat, id: ChangeId)
    | Confirm(k: nat, id: ChangeId)
    | Reconfirm(k: nat)
    | Die(id: ChangeId)

  function Init(host: Host): State { State(0, host, map[], map[], map[], 0, map[], []) }

  predicate AtStage(s: State, id: ChangeId, stage: Stage) {
    id in s.guards && s.guards[id].stage == stage
  }

  // Whether that party now wants the change undone.
  predicate WantsRevert(s: State, id: ChangeId, cause: Cause) {
    id in s.records && match cause
    case Applying => false
    case ByGuard => AtStage(s, id, Undoing)
    case BySweep => Due(s.records[id], s.now)
    case ByHand => true
  }

  // Whether a confirmation that reads this status goes on to write the row.
  predicate Confirmable(status: ChangeStatus) { !status.Reverted? && !status.RevertFailed? }

  // A confirmation writes only what differs from what it has read: nothing if the row was confirmed before.
  predicate Enabled(s: State, a: Action) {
    match a
    case Tick => true
    case Outside(_) => true
    case ReadPrior(id, _, _, _, _, _) => id !in s.guards && id !in s.records
    case InsertRecord(id) => id in s.guards && s.guards[id].stage.Prior? && id !in s.records
    case ApplyChange(id, _) => AtStage(s, id, Recorded)
    case Verify(id, _) => AtStage(s, id, Settling) && id in s.records
    case CloseRecord(id) => id in s.guards && s.guards[id].stage.Closing? && id in s.records
    case LoadForRevert(id, cause) => WantsRevert(s, id, cause)
    case UndoLoaded(j, _) => j in s.errands && s.errands[j].step.Read?
    case RecordRevert(j, id) =>
      j in s.errands && s.errands[j].id == id && s.errands[j].step.Wrote? && id in s.records
    case ReadToConfirm(k, id) => k !in s.confirming && id in s.records && Confirmable(s.records[id].status)
    case Confirm(k, id) =>
      k in s.confirming && s.confirming[k].id == id && !s.confirming[k].seen.Confirmed? && id in s.records
    case Reconfirm(k) => k in s.confirming && s.confirming[k].seen.Confirmed?
    case Die(id) => id in s.guards
  }

  function SetStage(s: State, id: ChangeId, stage: Stage): State
    requires id in s.guards
  {
    s.(guards := s.guards[id := s.guards[id].(stage := stage)])
  }

  function Leave(s: State, id: ChangeId): State { s.(guards := s.guards - {id}) }

  function Settle(s: State, id: ChangeId, status: ChangeStatus): State
    requires id in s.records
  {
    s.(records := s.records[id := s.records[id].(status := status, expiresAt := None)])
  }

  // Whether there is anything to undo, as far as this row says.
  predicate Open(record: Record) { !NeedsNoRevert(record) && record.revertible }

  // Whether undoing this row accesses the host at all.
  predicate Touches(record: Record) { Open(record) && Undo(record).Some? }

  function Apply(s: State, a: Action): State
    requires Enabled(s, a)
  {
    match a
    case Tick => s.(now := s.now + 1)
    case Outside(host) => s.(host := host)
    case ReadPrior(id, kind, target, value, revertAfter, hasConditions) =>
      s.(guards := s.guards[id := Guard(kind, target, value, revertAfter, hasConditions,
                                        Prior(PriorState(s.host, kind, target)))])
    case InsertRecord(id) =>
      var g := s.guards[id];
      SetStage(s, id, Recorded)
      .(records := s.records[id := NewRecord(g.kind, g.target, g.stage.previous, g.value, g.revertAfter, s.now)])
    case ApplyChange(id, fortune) =>
      var g := s.guards[id];
      var applied := s.(host := Write(s.host, g.kind, g.target, g.value, fortune),
                        attempts := s.attempts + [Attempt(id, Applying)]);
      if !Succeeds(s.host, g.kind, g.target, fortune) then SetStage(applied, id, Closing(Reverted))
      else if g.hasConditions then SetStage(applied, id, Settling)
      else Leave(applied, id)
    case Verify(id, met) =>
      SetStage(s, id, if met then Closing(Verified)
                      else if s.records[id].revertible then Undoing else Closing(Unrevertible))
    case CloseRecord(id) => Leave(Settle(s, id, s.guards[id].stage.status), id)
    case LoadForRevert(id, cause) =>
      var loaded := s.(errands := s.errands[s.next := Errand(id, cause, Read(s.records[id]))], next := s.next + 1);
      if cause.ByGuard? then Leave(loaded, id) else loaded
    case UndoLoaded(j, fortune) =>
      var Errand(id, cause, step) := s.errands[j];
      var (host, undone, _) := Revert(s.host, step.row, fortune);
      s.(host := host,
         errands := if Open(step.row) then s.errands[j := Errand(id, cause, Wrote(undone.status))] else s.errands - {j},
         attempts := if Touches(step.row) then s.attempts + [Attempt(id, cause)] else s.attempts)
    case RecordRevert(j, id) => Settle(s, id, s.errands[j].step.status).(errands := s.errands - {j})
    case ReadToConfirm(k, id) => s.(confirming := s.confirming[k := Confirmation(id, s.records[id].status)])
    case Confirm(k, id) => Settle(s, id, Confirmed).(confirming := s.confirming - {k})
    case Reconfirm(k) => s.(confirming := s.confirming - {k})
    case Die(id) => Leave(s, id)
  }

  ghost predicate Legal(s: State, actions: seq<Action>)
    decreases |actions|
  {
    actions == [] || (Enabled(s, actions[0]) && Legal(Apply(s, actions[0]), actions[1..]))
  }

  ghost function Execute(s: State, actions: seq<Action>): State
    requires Legal(s, actions)
    decreases |actions|
  {
    if actions == [] then s else Execute(Apply(s, actions[0]), actions[1..])
  }

  lemma {:induction false} ExecuteAppend(s: State, actions: seq<Action>, a: Action)
    requires Legal(s, actions) && Enabled(Execute(s, actions), a)
    ensures Legal(s, actions + [a])
    ensures Execute(s, actions + [a]) == Apply(Execute(s, actions), a)
    decreases |actions|
  {
    if actions != [] {
      ExecuteAppend(Apply(s, actions[0]), actions[1..], a);
      assert (actions + [a])[1..] == actions[1..] + [a];
    }
  }

  lemma {:induction false} LegalSplits(s: State, first: seq<Action>, rest: seq<Action>)
    requires Legal(s, first + rest)
    ensures Legal(s, first) && Legal(Execute(s, first), rest)
    ensures Execute(s, first + rest) == Execute(Execute(s, first), rest)
    decreases |first|
  {
    if first == [] {
      assert first + rest == rest;
    } else {
      assert (first + rest)[1..] == first[1..] + rest;
      LegalSplits(Apply(s, first[0]), first[1..], rest);
    }
  }

  // ------------------------------------------------------------ the invariant

  // Only an applied, revertible change has a timer.
  predicate TimerOk(record: Record) {
    record.expiresAt.Some? ==> record.status.Applied? && record.revertible
  }

  // The same change: rows only ever get another status, and lose their timer.
  predicate SameChange(one: Record, other: Record) {
    other == one.(status := other.status, expiresAt := other.expiresAt)
  }

  predicate GuardOk(records: map<ChangeId, Record>, id: ChangeId, g: Guard) {
    && (g.stage.Prior? <==> id !in records)
    && (g.stage.Undoing? ==> records[id].revertible)
    && (g.stage.Closing? ==> g.stage.status.Verified? || g.stage.status.Reverted? || g.stage.status.Unrevertible?)
    && (id in records ==> records[id].kind == g.kind && records[id].target == g.target)
  }

  predicate ErrandOk(records: map<ChangeId, Record>, e: Errand) {
    && e.id in records && !e.cause.Applying?
    && match e.step
       case Read(row) => SameChange(row, records[e.id])
       case Wrote(status) => (status.Reverted? || status.RevertFailed?) && records[e.id].revertible
  }

  ghost predicate Inv(s: State) {
    && (forall id :: id in s.records ==> TimerOk(s.records[id]))
    && (forall id :: id in s.guards ==> GuardOk(s.records, id, s.guards[id]))
    && ErrandsOk(s.records, s.errands, s.next)
  }

  ghost predicate ErrandsOk(records: map<ChangeId, Record>, errands: map<nat, Errand>, next: nat) {
    forall j :: j in errands ==> j < next && ErrandOk(records, errands[j])
  }

  // The rows of changes stay: only their status and timer are ever written.
  ghost predicate RowsStay(before: map<ChangeId, Record>, after: map<ChangeId, Record>) {
    forall id :: id in before ==> id in after && SameChange(before[id], after[id])
  }

  lemma ActionKeepsRows(s: State, a: Action)
    requires Enabled(s, a)
    ensures RowsStay(s.records, Apply(s, a).records)
  {
  }

  // Reverts under way fit whatever is written into rows.
  lemma ErrandsKept(records: map<ChangeId, Record>, errands: map<nat, Errand>, next: nat,
                    records': map<ChangeId, Record>)
    requires ErrandsOk(records, errands, next) && RowsStay(records, records')
    ensures ErrandsOk(records', errands, next)
  {
  }

  lemma SettleKept(s: State, id: ChangeId, status: ChangeStatus)
    requires Inv(s) && id in s.records
    ensures Inv(Settle(s, id, status))
  {
    ErrandsKept(s.records, s.errands, s.next, Settle(s, id, status).records);
    hide ErrandsOk;
  }

  lemma InsertKept(s: State, id: ChangeId)
    requires Inv(s) && Enabled(s, InsertRecord(id))
    ensures Inv(Apply(s, InsertRecord(id)))
  {
    ErrandsKept(s.records, s.errands, s.next, Apply(s, InsertRecord(id)).records);
    hide ErrandsOk;
  }

  // The steps of a guard that write no row.
  lemma GuardKept(s: State, a: Action)
    requires Inv(s) && Enabled(s, a) && (a.ReadPrior? || a.ApplyChange? || a.Verify? || a.Die?)
    ensures Inv(Apply(s, a))
  {
    hide ErrandsOk, TimerOk;
  }

  lemma CloseKept(s: State, id: ChangeId)
    requires Inv(s) && Enabled(s, CloseRecord(id))
    ensures Inv(Apply(s, CloseRecord(id)))
  {
    SettleKept(s, id, s.guards[id].stage.status);
    hide ErrandsOk, Settle;
  }

  lemma LoadKept(s: State, id: ChangeId, cause: Cause)
    requires Inv(s) && Enabled(s, LoadForRevert(id, cause))
    ensures Inv(Apply(s, LoadForRevert(id, cause)))
  {
  }

  lemma UndoKept(s: State, j: nat, fortune: Fortune)
    requires Inv(s) && Enabled(s, UndoLoaded(j, fortune))
    ensures Inv(Apply(s, UndoLoaded(j, fortune)))
  {
  }

  lemma RecordKept(s: State, j: nat, id: ChangeId)
    requires Inv(s) && Enabled(s, RecordRevert(j, id))
    ensures Inv(Apply(s, RecordRevert(j, id)))
  {
    SettleKept(s, id, s.errands[j].step.status);
    hide Settle;
  }

  lemma ActionKept(s: State, a: Action)
    requires Inv(s) && Enabled(s, a)
    ensures Inv(Apply(s, a))
  {
    hide Inv;
    match a
    case Tick => OtherTablesKept(s, Apply(s, a));
    case Outside(_) => OtherTablesKept(s, Apply(s, a));
    case ReadPrior(_, _, _, _, _, _) => GuardKept(s, a);
    case InsertRecord(id) => InsertKept(s, id);
    case ApplyChange(_, _) => GuardKept(s, a);
    case Verify(_, _) => GuardKept(s, a);
    case CloseRecord(id) => CloseKept(s, id);
    case LoadForRevert(id, cause) => LoadKept(s, id, cause);
    case UndoLoaded(j, fortune) => UndoKept(s, j, fortune);
    case RecordRevert(j, id) => RecordKept(s, j, id);
    case ReadToConfirm(_, _) => OtherTablesKept(s, Apply(s, a));
    case Confirm(_, id) => SettleKept(s, id, Confirmed); OtherTablesKept(Settle(s, id, Confirmed), Apply(s, a));
    case Reconfirm(_) => OtherTablesKept(s, Apply(s, a));
    case Die(_) => GuardKept(s, a);
  }

  // A step that leaves rows, guards and reverts alone.
  lemma OtherTablesKept(s: State, s': State)
    requires Inv(s) && s'.records == s.records && s'.guards == s.guards
    requires s'.errands == s.errands && s'.next == s.next
    ensures Inv(s')
  {
  }

  lemma {:induction false} InvHolds(s: State, actions: seq<Action>)
    requires Inv(s) && Legal(s, actions)
    ensures Inv(Execute(s, actions))
    decreases |actions|
  {
    if actions != [] {
      ActionKept(s, actions[0]);
      InvHolds(Apply(s, actions[0]), actions[1..]);
    }
  }

  // ------------------------------------------------------------ who wrote a row last

  datatype Writer = Confirming | Reverting | Finishing

  function WriterOf(a: Action, id: ChangeId): Option<Writer> {
    match a
    case Confirm(_, i) => if i == id then Some(Confirming) else None
    case RecordRevert(_, i) => if i == id then Some(Reverting) else None
    case CloseRecord(i) => if i == id then Some(Finishing) else None
    case _ => None
  }

  // None as long as the row is as it was inserted.
  function LastWriter(actions: seq<Action>, id: ChangeId): Option<Writer> {
    if actions == [] then None
    else
      var last := WriterOf(actions[|actions| - 1], id);
      if last.Some? then last else LastWriter(actions[..|actions| - 1], id)
  }

  lemma LastWriterMore(actions: seq<Action>, a: Action, id: ChangeId)
    ensures LastWriter(actions + [a], id) ==
            if WriterOf(a, id).Some? then WriterOf(a, id) else LastWriter(actions, id)
  {
    assert (actions + [a])[..|actions|] == actions;
  }

  // What the row says, given who wrote it last.
  predicate Tells(row: Record, writer: Option<Writer>) {
    match writer
    case None => row.status == if row.revertible then Applied else Unrevertible
    case Some(Confirming) => row.status.Confirmed? && row.expiresAt.None?
    case Some(Reverting) => (row.status.Reverted? || row.status.RevertFailed?) && row.expiresAt.None?
    case Some(Finishing) =>
      (row.status.Verified? || row.status.Reverted? || row.status.Unrevertible?) && row.expiresAt.None?
  }

  ghost predicate AllTell(s: State, actions: seq<Action>) {
    && (forall id :: id in s.records ==> Tells(s.records[id], LastWriter(actions, id)))
    && (forall id :: id !in s.records ==> LastWriter(actions, id).None?)
  }

  lemma TellingKept(s: State, actions: seq<Action>, a: Action)
    requires Inv(s) && AllTell(s, actions) && Enabled(s, a)
    ensures AllTell(Apply(s, a), actions + [a])
  {
    var s' := Apply(s, a);
    forall id
      ensures if id in s'.records then Tells(s'.records[id], LastWriter(actions + [a], id))
              else LastWriter(actions + [a], id).None?
    {
      LastWriterMore(actions, a, id);
    }
  }

  lemma {:induction false} TellingHolds(s: State, before: seq<Action>, actions: seq<Action>)
    requires Inv(s) && AllTell(s, before) && Legal(s, actions)
    ensures AllTell(Execute(s, actions), before + actions)
    decreases |actions|
  {
    if actions != [] {
      TellingKept(s, before, actions[0]);
      ActionKept(s, actions[0]);
      TellingHolds(Apply(s, actions[0]), before + [actions[0]], actions[1..]);
      assert before + [actions[0]] + actions[1..] == before + actions;
    } else {
      assert before + actions == before;
    }
  }

  // The status of a row is that of its last writer: a row is confirmed exactly when the last to write it was a
  // confirmation, and as it was inserted exactly as long as nobody has written it.
  lemma RowsTellTheirWriter(host: Host, actions: seq<Action>, id: ChangeId)
    requires Legal(Init(host), actions)
    ensures
      var s := Execute(Init(host), actions);
      && (id in s.records ==> Tells(s.records[id], LastWriter(actions, id)))
      && (id in s.records ==> (s.records[id].status.Confirmed? <==> LastWriter(actions, id) == Some(Confirming)))
      && (id !in s.records ==> LastWriter(actions, id).None?)
  {
    TellingHolds(Init(host), [], actions);
    assert [] + actions == actions;
  }
}
