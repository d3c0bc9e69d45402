// The guard, confirmation and the dead-man sweep, written as the source writes them, over the database and
// host that the guard machine describes. Every method is a legal run of that machine, so what is proved
// there holds here; what a guarded change leaves behind when nobody else acts meanwhile is stated here.
module Guard {
  import opened Options
  import opened Ledger
  import opened GuardMachine
  import opened GuardSafety
  import opened GuardHost
  import opened Conditions
  import opened Sizes

  const MAX_REVERT_AFTER := 3600

  // A number of seconds that is absent or zero sets no timer.
  function ClampRevertAfter(seconds: Option<int>): (r: Option<nat>)
    ensures r.None? <==> seconds.None? || seconds.value == 0
    ensures r.Some? ==> 1 <= r.value <= MAX_REVERT_AFTER
    ensures r.Some? && 1 <= seconds.value <= MAX_REVERT_AFTER ==> r.value == seconds.value
    ensures r.Some? && seconds.value > MAX_REVERT_AFTER ==> r.value == 3600
    ensures r.Some? && seconds.value < 1 ==> r.value == 1
  {
    if seconds.None? || seconds.value == 0 then None
    else if seconds.value < 1 then Some(1)
    else if seconds.value > MAX_REVERT_AFTER then Some(MAX_REVERT_AFTER)
    else Some(seconds.value)
  }

  datatype GuardOutcome = GuardOutcome(ok: bool, status: ChangeStatus, results: seq<ConditionResult>)

  datatype ConfirmResult = Kept | TooLate(status: ChangeStatus) | NotFound

  // What a guarded change asks for.
  datatype Request = Request(
    kind: ChangeKind, target: string, value: string, conditions: seq<Condition>, revertAfter: Option<int>)
  {
    predicate Revertible() { kind.Sysctl? || Inverse(value).Some? }
  }

  // How probes and texts are read, and how the two writes of the host turn out.
  datatype World = World(formats: Formats, others: Condition -> Observation, apply: Fortune, undo: Fortune)

  ghost predicate AllHold(w: World, sysctls: map<string, string>, conditions: seq<Condition>) {
    forall i :: 0 <= i < |conditions| ==> Holds(w.formats, conditions[i], Observe(sysctls, w.others, conditions[i]))
  }

  // The row that a guarded change starts with.
  function FirstRow(host: Host, now: nat, request: Request): Record {
    NewRecord(request.kind, request.target, PriorState(host, request.kind, request.target), request.value,
              ClampRevertAfter(request.revertAfter), now)
  }

  predicate IsFor(g: GuardMachine.Guard, request: Request) {
    && g.kind == request.kind && g.target == request.target && g.value == request.value
    && (g.hasConditions <==> request.conditions != [])
  }

  // What the guard reports, and what the row says when it reports it; `writer` is who wrote the row last. A change
  // reported as reverted is reverted exactly unless a confirmation was the last to write its row. One reported as
  // applied is as it was asked for until somebody writes its row.
  predicate RowAgrees(outcome: GuardOutcome, row: Record, writer: Option<Writer>, request: Request) {
    match outcome.status
    case Applied =>
      && Tells(row, writer) && writer != Some(Finishing)
      && (writer.None? ==>
            (row.expiresAt.Some? <==> request.Revertible() && ClampRevertAfter(request.revertAfter).Some?))
    case Reverted =>
      && (row.status.Reverted? <==> writer != Some(Confirming))
      && (row.status.Confirmed? <==> writer == Some(Confirming))
    case status => row.status == status && row.expiresAt.None?
  }

  // A report is true, and its row agrees with it.
  predicate Reports(outcome: GuardOutcome, request: Request, row: Record, writer: Option<Writer>) {
    && (outcome.ok <==> outcome.status.Applied? || outcome.status.Verified?)
    && (outcome.status.Verified? ==> AllMet(outcome.results) && |outcome.results| == |request.conditions|)
    && RowAgrees(outcome, row, writer, request)
  }

  // What a guard reports of undoing its change, from the row it has loaded.
  function Reported(host: Host, row: Record, fortune: Fortune): ChangeStatus {
    if Revert(host, row, fortune).2.ok then Reverted else RevertFailed
  }

  // A change is applied, and its guard settles.
  lemma AppliedAndSettling(key: string, value: string) returns (actions: seq<Action>)
    ensures Legal(Init(Host(map[key := ""], [])), actions)
    ensures
      var s := Execute(Init(Host(map[key := ""], [])), actions);
      && s.next == 0 && s.confirming == map[] && AtStage(s, 0, Settling)
      && 0 in s.records && s.records[0].status.Applied? && s.records[0].revertible
      && s.host.sysctls == map[key := value]
  {
    var host := Host(map[key := ""], []);
    actions := Extend(host, [], ReadPrior(0, Sysctl, key, value, None, true));
    actions := Extend(host, actions, InsertRecord(0));
    actions := Extend(host, actions, ApplyChange(0, Works));
  }

  // Meanwhile it is confirmed.
  lemma ConfirmedWhileSettling(key: string, value: string) returns (actions: seq<Action>)
    ensures Legal(Init(Host(map[key := ""], [])), actions)
    ensures
      var s := Execute(Init(Host(map[key := ""], [])), actions);
      && s.next == 0 && AtStage(s, 0, Settling)
      && 0 in s.records && s.records[0].status.Confirmed? && s.records[0].revertible
      && s.host.sysctls == map[key := value]
  {
    var host := Host(map[key := ""], []);
    actions := AppliedAndSettling(key, value);
    actions := Extend(host, actions, ReadToConfirm(0, 0));
    actions := Extend(host, actions, Confirm(0, 0));
  }

  // Its conditions fail, and the guard is about to report it as reverted, although it stays.
  lemma KeptChangeIsReportedAsReverted(key: string, value: string) returns (actions: seq<Action>)
    ensures Legal(Init(Host(map[key := ""], [])), actions)
    ensures
      var s := Execute(Init(Host(map[key := ""], [])), actions);
      && 0 in s.records && s.records[0].status.Confirmed?
      && 0 in s.errands && s.errands[0] == Errand(0, ByGuard, Read(s.records[0]))
      && s.host.sysctls == map[key := value]
      && forall fortune: Fortune :: Reported(s.host, s.records[0], fortune).Reverted?
  {
    var host := Host(map[key := ""], []);
    actions := ConfirmedWhileSettling(key, value);
    actions := Extend(host, actions, Verify(0, false));
    actions := Extend(host, actions, LoadForRevert(0, ByGuard));
  }

  // Who is at work: the guard of a change; that guard when it has loaded the change under this number; a sweep
  // that has loaded its changes under these numbers; or a person who has read a change to confirm it.
  datatype Party =
    | GuardOf(id: ChangeId)
    | Undoer(id: ChangeId, j: nat)
    | Sweep(first: nat, end: nat)
    | Confirmer(k: nat)
  {
    predicate Runs(j: nat) { (Undoer? && j == this.j) || (Sweep? && first <= j < end) }

    predicate Below(next: nat) { (Undoer? ==> j < next) && (Sweep? ==> end <= next) }
  }

  // What the outcome of a guarded change says of the host, when nobody else was at work.
  ghost predicate HostTold(request: Request, world: World, before: Host, after: Host, outcome: GuardOutcome) {
    var changed := Write(before, request.kind, request.target, request.value, Works);
    var applied := Succeeds(before, request.kind, request.target, world.apply);
    && (outcome.status.Applied? <==> applied && request.conditions == [])
    && (outcome.status.Verified? <==>
          applied && request.conditions != [] && AllHold(world, changed.sysctls, request.conditions))
    && (outcome.status.Unrevertible? ==> !request.Revertible())
    && (outcome.status.RevertFailed? ==> request.Revertible() && !world.undo.Works?)
    && (!outcome.status.Reverted? ==> applied && after == changed)
    && (outcome.status.Reverted? && request.kind.Sysctl? ==> after == before)
  }

  function RowLeft(row: Record, outcome: GuardOutcome): Record {
    if outcome.status.Applied? then row else row.(status := outcome.status, expiresAt := None)
  }

  // What judging a change that is on the host comes to, when nobody else is at work.
  ghost predicate JudgedAlone(request: Request, world: World, before: Host, rows: map<ChangeId, Record>, id: ChangeId,
                              after: Host, rows': map<ChangeId, Record>, outcome: GuardOutcome)
    requires id in rows
  {
    var row := rows[id];
    && !outcome.status.Applied?
    && (outcome.status.Verified? <==> AllHold(world, before.sysctls, request.conditions))
    && (outcome.status.Unrevertible? ==> !row.revertible)
    && (outcome.status.Verified? || outcome.status.Unrevertible? ==>
          after == before && rows' == rows[id := row.(status := outcome.status, expiresAt := None)])
    && (!outcome.status.Verified? && !outcome.status.Unrevertible? ==>
          var (undone, reverted, o) := Revert(before, row, world.undo);
          && row.revertible && outcome.status == o.status && after == undone && rows' == rows[id := reverted])
  }

  lemma ToldByJudge(request: Request, world: World, before: Host, now: nat, rows: map<ChangeId, Record>, id: ChangeId,
                    after: Host, rows': map<ChangeId, Record>, outcome: GuardOutcome)
    requires request.conditions != [] && Succeeds(before, request.kind, request.target, world.apply)
    requires
      var changed := Write(before, request.kind, request.target, request.value, world.apply);
      JudgedAlone(request, world, changed, rows[id := FirstRow(before, now, request)], id, after, rows', outcome)
    ensures HostTold(request, world, before, after, outcome)
    ensures rows' == rows[id := RowLeft(FirstRow(before, now, request), outcome)]
  {
    hide AllHold;
    if request.kind.Sysctl? {
      var key := request.target;
      assert before.sysctls[key := request.value][key := before.sysctls[key]] == before.sysctls;
    }
  }

  // The first step of the guard of this change.
  function FirstStep(id: ChangeId, request: Request): Action {
    ReadPrior(id, request.kind, request.target, request.value, ClampRevertAfter(request.revertAfter),
              request.conditions != [])
  }

  // Since the guard began, nobody else has written the parameter or the row.
  ghost predicate LeftAlone(s: State, added: seq<Action>, id: ChangeId, key: string) {
    added != [] && Legal(s, added) && Undisturbed(Apply(s, added[0]), added[1..], id, key)
  }

  // Then a sysctl change that is reported as reverted has left the parameter as it was, and one that is reported as
  // verified, or as one whose revert has failed, as it was asked for.
  ghost predicate ToldTrue(before: Host, after: Host, request: Request, outcome: GuardOutcome) {
    && (outcome.status.Reverted? ==>
          PriorState(after, Sysctl, request.target) == PriorState(before, Sysctl, request.target))
    && (outcome.status.Verified? || outcome.status.RevertFailed? ==>
          PriorState(after, Sysctl, request.target) == Some(request.value))
  }

  lemma ReportsTellTheHost(start: Host, before: seq<Action>, added: seq<Action>, id: ChangeId, request: Request,
                           outcome: GuardOutcome)
    requires Legal(Init(start), before + added) && request.kind.Sysctl?
    requires added != [] && added[0] == FirstStep(id, request)
    requires Legal(Init(start), before) && LeftAlone(Execute(Init(start), before), added, id, request.target)
    requires
      var s := Execute(Init(start), before + added);
      id in s.records && RowAgrees(outcome, s.records[id], LastWriter(before + added, id), request)
    ensures ToldTrue(Execute(Init(start), before).host, Execute(Init(start), before + added).host, request, outcome)
  {
    LegalSplits(Init(start), before, added);
    InvHolds(Init(start), before);
    RowsTellTheHost(Execute(Init(start), before), id, request.target, request.value,
                    ClampRevertAfter(request.revertAfter), request.conditions != [], added[1..]);
  }

  // Is this a step of that party?
  predicate IsBy(a: Action, party: Party) {
    match party
    case Undoer(_, _) => (a.UndoLoaded? || a.RecordRevert?) && party.Runs(a.j)
    case Sweep(_, _) => (a.UndoLoaded? || a.RecordRevert?) && party.Runs(a.j)
    case Confirmer(k) => (a.Confirm? || a.Reconfirm?) && a.k == k
    case GuardOf(id) =>
      match a
      case ReadPrior(i, _, _, _, _, _) => i == id
      case InsertRecord(i) => i == id
      case ApplyChange(i, _) => i == id
      case Verify(i, _) => i == id
      case CloseRecord(i) => i == id
      case LoadForRevert(i, cause) => i == id && cause.ByGuard?
      case Die(i) => i == id
      case _ => false
  }

  ghost predicate Untouched(before: map<nat, Errand>, after: map<nat, Errand>, first: nat, end: nat) {
    forall j :: first <= j < end && j in before ==> j in after && after[j] == before[j]
  }

  // Where the party stands.
  ghost predicate SamePlace(before: State, after: State, party: Party) {
    && before.next <= after.next
    && match party
       case GuardOf(id) =>
         (id in after.guards <==> id in before.guards) && (id in after.guards ==> after.guards[id] == before.guards[id])
       case Undoer(id, j) =>
         && (id in before.records && id !in before.guards ==> id !in after.guards)
         && (j in before.errands ==> j in after.errands && after.errands[j] == before.errands[j])
       case Sweep(first, end) => Untouched(before.errands, after.errands, first, end)
       case Confirmer(k) =>
         k in before.confirming ==> k in after.confirming && after.confirming[k] == before.confirming[k]
  }

  // Others leave a party where it stands.
  lemma OthersKeepPlace(s: State, a: Action, party: Party)
    requires Enabled(s, a) && !IsBy(a, party) && party.Below(s.next)
    ensures SamePlace(s, Apply(s, a), party)
  {
  }

  lemma SamePlaceStill(one: State, two: State, three: State, party: Party)
    requires SamePlace(one, two, party) && SamePlace(two, three, party) && RowsStay(one.records, two.records)
    ensures SamePlace(one, three, party)
  {
  }

  // What the others may have made of the row of a change meanwhile.
  ghost predicate RowMeanwhile(id: ChangeId, before: map<ChangeId, Record>, after: map<ChangeId, Record>,
                               writer: Option<Writer>, later: Option<Writer>) {
    && (later == writer || later == Some(Confirming) || later == Some(Reverting))
    && (later.None? && id in before ==> id in after && after[id] == before[id])
  }

  lemma OthersWriteTheRow(s: State, actions: seq<Action>, a: Action, id: ChangeId)
    requires Enabled(s, a) && !IsBy(a, GuardOf(id))
    ensures RowMeanwhile(id, s.records, Apply(s, a).records, LastWriter(actions, id), LastWriter(actions + [a], id))
    ensures LastWriter(actions, id).Some? ==> LastWriter(actions + [a], id).Some?
  {
    LastWriterMore(actions, a, id);
  }

  // ------------------------------------------------------------ the sweep

  // Can the change be undone on this host?
  predicate Undoable(host: Host, record: Record, fortune: Fortune) {
    Undo(record).Some? && Succeeds(host, record.kind, record.target, fortune)
  }

  // The due changes, each once.
  ghost predicate Lists(s: State, due: seq<ChangeId>) {
    && (forall id :: id in due ==> id in s.records && Due(s.records[id], s.now))
    && (forall i, j :: 0 <= i < j < |due| ==> due[i] != due[j])
  }

  // These, and all of them.
  ghost predicate ListsAll(s: State, due: seq<ChangeId>) {
    Lists(s, due) && forall id :: id in s.records && Due(s.records[id], s.now) ==> id in due
  }

  // Undoing one change from its row.
  function RevertRow(s: State, id: ChangeId, fortune: Fortune): State
    requires id in s.records
  {
    var (host, row, _) := Revert(s.host, s.records[id], fortune);
    s.(host := host, records := s.records[id := row])
  }

  // The state after undoing these changes in this order.
  ghost function AfterSweep(s: State, due: seq<ChangeId>, fortune: ChangeId -> Fortune): (after: State)
    requires forall id :: id in due ==> id in s.records
    ensures after.records.Keys == s.records.Keys && after.host.sysctls.Keys == s.host.sysctls.Keys
    decreases |due|
  {
    if due == [] then s
    else
      var n := |due| - 1;
      RevertRow(AfterSweep(s, due[..n], fortune), due[n], fortune(due[n]))
  }

  // What the sweep does not change.
  lemma {:induction false} Unswept(s: State, due: seq<ChangeId>, fortune: ChangeId -> Fortune)
    requires forall id :: id in due ==> id in s.records
    ensures
      var after := AfterSweep(s, due, fortune);
      && after.now == s.now
      && forall id :: id in s.records && id !in due ==> after.records[id] == s.records[id]
    decreases |due|
  {
    if due != [] {
      Unswept(s, due[..|due| - 1], fortune);
    }
  }

  // What the sweep makes of one row.
  lemma {:induction false} SweptRow(s: State, due: seq<ChangeId>, fortune: ChangeId -> Fortune, id: ChangeId)
    requires Inv(s) && Lists(s, due) && id in due
    ensures
      var status := if Undoable(s.host, s.records[id], fortune(id)) then Reverted else RevertFailed;
      AfterSweep(s, due, fortune).records[id] == s.records[id].(status := status, expiresAt := None)
    decreases |due|
  {
    var n := |due| - 1;
    assert due == due[..n] + [due[n]];
    Unswept(s, due[..n], fortune);
    if id != due[n] {
      SweptRow(s, due[..n], fortune, id);
    }
  }

  // Does undoing these changes in this order take the parameter from `before` to `after`?
  ghost predicate Leaves(s: State, order: seq<ChangeId>, fortune: ChangeId -> Fortune,
                         key: string, before: string, after: string)
    requires forall id :: id in order ==> id in s.records
    decreases |order|
  {
    if order == [] then before == after
    else
      var id := order[|order| - 1];
      var row := s.records[id];
      if row.kind.Sysctl? && row.target == key && Undoable(s.host, row, fortune(id)) then row.previous == Some(after)
      else Leaves(s, order[..|order| - 1], fortune, key, before, after)
  }

  // A parameter is left with the prior value of the last change undone on it, and otherwise alone.
  lemma {:induction false} SweptParameter(s: State, due: seq<ChangeId>, fortune: ChangeId -> Fortune, key: string)
    requires Inv(s) && Lists(s, due) && key in s.host.sysctls
    ensures Leaves(s, due, fortune, key, s.host.sysctls[key], AfterSweep(s, due, fortune).host.sysctls[key])
    decreases |due|
  {
    if due != [] {
      var n := |due| - 1;
      SweptParameter(s, due[..n], fortune, key);
      Unswept(s, due[..n], fortune);
      hide RevertRow, Undoable;
      var before := AfterSweep(s, due[..n], fortune);
      var row := s.records[due[n]];
      assert before.records[due[n]] == row && Due(row, s.now);
      UndoneParameter(before, due[n], fortune(due[n]), key);
      UndoableByKeys(before.host, s.host, row, fortune(due[n]));
    }
  }

  lemma UndoableByKeys(one: Host, other: Host, row: Record, fortune: Fortune)
    requires one.sysctls.Keys == other.sysctls.Keys
    ensures Undoable(one, row, fortune) == Undoable(other, row, fortune)
  {
  }

  // What undoing one due change does to a parameter.
  lemma UndoneParameter(s: State, id: ChangeId, fortune: Fortune, key: string)
    requires id in s.records && s.records[id].status.Applied? && s.records[id].revertible && key in s.host.sysctls
    ensures RevertRow(s, id, fortune).host.sysctls.Keys == s.host.sysctls.Keys
    ensures RevertRow(s, id, fortune).host.sysctls[key] ==
            var row := s.records[id];
            if row.kind.Sysctl? && row.target == key && Undoable(s.host, row, fortune) then row.previous.value
            else s.host.sysctls[key]
  {
  }

  // The database lists due changes in no particular order, and the order decides: of two due changes of one
  // parameter, the one undone last leaves its prior value.
  lemma SweepOrderDecides(s: State, a: ChangeId, b: ChangeId, fortune: ChangeId -> Fortune, key: string)
    requires Inv(s) && Lists(s, [a, b]) && key in s.host.sysctls
    requires forall id :: id in {a, b} ==>
               s.records[id].kind.Sysctl? && s.records[id].target == key && Undoable(s.host, s.records[id], fortune(id))
    ensures Some(AfterSweep(s, [a, b], fortune).host.sysctls[key]) == s.records[b].previous
    ensures Some(AfterSweep(s, [b, a], fortune).host.sysctls[key]) == s.records[a].previous
  {
    assert [a, b][0] == a && [a, b][1] == b;
    assert Lists(s, [b, a]);
    SweptParameter(s, [a, b], fortune, key);
    SweptParameter(s, [b, a], fortune, key);
  }

  class ChangeService {
    var now: nat
    var host: Host
    var records: map<ChangeId, Record>
    var guards: map<ChangeId, GuardMachine.Guard>
    var errands: map<nat, Errand>
    var next: nat
    var confirming: map<nat, Confirmation>
    var attempts: seq<Attempt>
    // What operators, sweeps and other guards do at each await, in order; any schedule at all.
    var schedule: seq<seq<Action>>
    ghost const start: Host
    ghost var history: seq<Action>

    function View(): State reads this { State(now, host, records, guards, errands, next, confirming, attempts) }

    ghost predicate Valid() reads this {
      Legal(Init(start), history) && Execute(Init(start), history) == View()
    }

    constructor (host: Host, schedule: seq<seq<Action>>)
      ensures Valid() && View() == Init(host) && start == host && this.schedule == schedule
    {
      start := host;
      this.host, this.schedule := host, schedule;
      now, records, guards, errands, next, confirming, attempts := 0, map[], map[], map[], 0, map[], [];
      history := [];
    }

    lemma InvNow()
      requires Valid()
      ensures Inv(View())
    {
      InvHolds(Init(start), history);
    }

    method Perform(a: Action)
      requires Valid() && Enabled(View(), a)
      modifies this
      ensures Valid() && View() == Apply(old(View()), a)
      ensures history == old(history) + [a] && schedule == old(schedule)
    {
      ExecuteAppend(Init(start), history, a);
      var s := Apply(View(), a);
      now, host, records, guards := s.now, s.host, s.records, s.guards;
      errands, next, confirming, attempts := s.errands, s.next, s.confirming, s.attempts;
      history := history + [a];
    }

    // An await of this party: the next batch of the schedule, as far as its actions may happen.
    method Await(party: Party)
      requires Valid() && party.Below(next)
      modifies this
      ensures Valid() && old(history) <= history
      ensures RowsStay(old(records), records) && SamePlace(old(View()), View(), party)
      ensures party.GuardOf? ==>
                RowMeanwhile(party.id, old(records), records, LastWriter(old(history), party.id),
                             LastWriter(history, party.id))
      ensures old(schedule) == [] ==> schedule == [] && View() == old(View()) && history == old(history)
    {
      if schedule == [] {
        return;
      }
      var batch := schedule[0];
      schedule := schedule[1..];
      for i := 0 to |batch|
        invariant Valid() && old(history) <= history
        invariant RowsStay(old(records), records) && SamePlace(old(View()), View(), party) && party.Below(next)
        invariant party.GuardOf? ==>
                    RowMeanwhile(party.id, old(records), records, LastWriter(old(history), party.id),
                                 LastWriter(history, party.id))
      {
        if !IsBy(batch[i], party) && Enabled(View(), batch[i]) {
          hide Legal, Execute, Enabled, Apply, LastWriter, IsBy, SamePlace;
          ghost var before := View();
          ActionKeepsRows(before, batch[i]);
          OthersKeepPlace(before, batch[i], party);
          SamePlaceStill(old(View()), before, Apply(before, batch[i]), party);
          if party.GuardOf? {
            OthersWriteTheRow(View(), history, batch[i], party.id);
          }
          Perform(batch[i]);
        }
      }
    }

    // The row of a change that its guard has not closed; it has its timer as long as nobody has written it.
    ghost predicate IsNew(id: ChangeId, request: Request) reads this {
      && id in records && records[id].revertible == request.Revertible()
      && LastWriter(history, id) != Some(Finishing)
      && (LastWriter(history, id).None? ==>
            (records[id].expiresAt.Some? <==> request.Revertible() && ClampRevertAfter(request.revertAfter).Some?))
    }

    // The first of the actions that were added is the guard's first.
    static ghost predicate Begun(before: seq<Action>, after: seq<Action>, id: ChangeId, request: Request) {
      before <= after && |before| < |after| && after[|before|] == FirstStep(id, request)
    }

    // Prior state read, and then the row written, with its timer running.
    method Register(id: ChangeId, request: Request)
      requires Valid() && id !in guards && id !in records
      modifies this
      ensures Valid() && Begun(old(history), history, id, request) && IsNew(id, request)
      ensures id in guards && guards[id].stage.Recorded? && IsFor(guards[id], request)
      ensures old(schedule) == [] ==>
                schedule == [] && host == old(host)
                && records == old(records)[id := FirstRow(old(host), old(now), request)]
    {
      Perform(FirstStep(id, request));
      Await(GuardOf(id));
      InvNow();
      RowsTellTheirWriter(start, history, id);
      LastWriterMore(history, InsertRecord(id), id);
      Perform(InsertRecord(id));
    }

    // The first half of ApplyGuarded: prior state read, row written, change attempted.
    method Begin(id: ChangeId, request: Request, world: World) returns (applied: bool)
      requires Valid() && id !in guards && id !in records
      modifies this
      ensures Valid() && Begun(old(history), history, id, request) && IsNew(id, request)
      ensures id in guards <==> !applied || request.conditions != []
      ensures id in guards ==> guards[id].stage == if applied then Settling else Closing(Reverted)
      ensures old(schedule) == [] ==>
                && schedule == []
                && applied == Succeeds(old(host), request.kind, request.target, world.apply)
                && host == Write(old(host), request.kind, request.target, request.value, world.apply)
                && records == old(records)[id := FirstRow(old(host), old(now), request)]
    {
      Register(id, request);
      Await(GuardOf(id));
      applied := Succeeds(host, request.kind, request.target, world.apply);
      LastWriterMore(history, ApplyChange(id, world.apply), id);
      Perform(ApplyChange(id, world.apply));
    }

    // Applies a change under verification, and undoes it if it does not hold.
    method ApplyGuarded(id: ChangeId, request: Request, world: World) returns (outcome: GuardOutcome)
      requires Valid() && id !in guards && id !in records
      modifies this
      ensures Valid() && old(history) <= history && id !in guards && id in records
      ensures Reports(outcome, request, records[id], LastWriter(history, id))
      // With nobody else at the parameter or the row, in any schedule: what the outcome says of the parameter.
      ensures request.kind.Sysctl? && LeftAlone(old(View()), history[|old(history)|..], id, request.target) ==>
                ToldTrue(old(host), host, request, outcome)
      // With nobody else at work: what the outcome says of the host, and the row that is left behind, and only that.
      ensures old(schedule) == [] ==>
                && HostTold(request, world, old(host), host, outcome)
                && records == old(records)[id := RowLeft(FirstRow(old(host), old(now), request), outcome)]
    {
      hide HostTold, RowLeft, FirstRow, LeftAlone, ToldTrue, Legal, Execute, LastWriter, FirstStep;
      outcome := TakeCourse(id, request, world);
      ghost var before, added := old(history), history[|old(history)|..];
      if request.kind.Sysctl? && LeftAlone(old(View()), added, id, request.target) {
        assert before + added == history && added[0] == FirstStep(id, request);
        ReportsTellTheHost(start, before, added, id, request, outcome);
      }
    }

    method TakeCourse(id: ChangeId, request: Request, world: World) returns (outcome: GuardOutcome)
      requires Valid() && id !in guards && id !in records
      modifies this
      ensures Valid() && Begun(old(history), history, id, request) && id !in guards && id in records
      ensures Reports(outcome, request, records[id], LastWriter(history, id))
      ensures old(schedule) == [] ==>
                && HostTold(request, world, old(host), host, outcome)
                && records == old(records)[id := RowLeft(FirstRow(old(host), old(now), request), outcome)]
    {
      var applied := Begin(id, request, world);
      if !applied {
        outcome := CloseFailed(id, request);
      } else if request.conditions == [] {
        outcome := LeaveApplied(id, request);
      } else {
        Await(GuardOf(id));
        outcome := Judge(id, request, world);
        if old(schedule) == [] {
          ToldByJudge(request, world, old(host), old(now), old(records), id, host, records, outcome);
        }
      }
    }

    // The change did not take: its row is closed.
    method CloseFailed(id: ChangeId, request: Request) returns (outcome: GuardOutcome)
      requires Valid() && id in guards && guards[id].stage == Closing(Reverted) && id in records
      modifies this
      ensures Valid() && old(history) <= history && id !in guards && id in records
      ensures outcome == GuardOutcome(false, Reverted, [])
      ensures RowAgrees(outcome, records[id], LastWriter(history, id), request)
      ensures old(schedule) == [] ==>
                && host == old(host)
                && records == old(records)[id := old(records)[id].(status := Reverted, expiresAt := None)]
    {
      Await(GuardOf(id));
      LastWriterMore(history, CloseRecord(id), id);
      Perform(CloseRecord(id));
      outcome := GuardOutcome(false, Reverted, []);
    }

    // There is nothing to verify.
    method LeaveApplied(id: ChangeId, request: Request) returns (outcome: GuardOutcome)
      requires Valid() && id !in guards && IsNew(id, request)
      modifies this
      ensures Valid() && old(history) <= history && id !in guards && id in records
      ensures outcome == GuardOutcome(true, Applied, [])
      ensures RowAgrees(outcome, records[id], LastWriter(history, id), request)
      ensures old(schedule) == [] ==> host == old(host) && records == old(records)
    {
      Await(GuardOf(id));
      RowsTellTheirWriter(start, history, id);
      outcome := GuardOutcome(true, Applied, []);
    }

    // The second half of ApplyGuarded: the change is on the host and has settled.
    method Judge(id: ChangeId, request: Request, world: World) returns (outcome: GuardOutcome)
      requires Valid() && id in guards && guards[id].stage.Settling? && id in records
      requires records[id].revertible == request.Revertible() && request.conditions != []
      modifies this
      ensures Valid() && old(history) <= history && id !in guards && id in records
      ensures outcome.ok <==> outcome.status.Verified?
      ensures !outcome.status.Applied?
      ensures outcome.status.Verified? ==> AllMet(outcome.results) && |outcome.results| == |request.conditions|
      ensures RowAgrees(outcome, records[id], LastWriter(history, id), request)
      ensures old(schedule) == [] && !NeedsNoRevert(old(records)[id]) ==>
                JudgedAlone(request, world, old(host), old(records), id, host, records, outcome)
    {
      var results := EvaluateConditions(world.formats, host.sysctls, world.others, request.conditions);
      var met := AllMet(results);
      Perform(Verify(id, met));
      Await(GuardOf(id));
      if met || !request.Revertible() {
        LastWriterMore(history, CloseRecord(id), id);
        Perform(CloseRecord(id));
        return GuardOutcome(met, if met then Verified else Unrevertible, results);
      }
      var status := UndoOwn(id, world.undo);
      outcome := GuardOutcome(false, status, results);
    }

    // The guard undoes its own change, from the row as it now finds it.
    method UndoOwn(id: ChangeId, fortune: Fortune) returns (status: ChangeStatus)
      requires Valid() && AtStage(View(), id, Undoing) && id in records && records[id].revertible
      modifies this
      ensures Valid() && old(history) <= history && id !in guards && id in records
      ensures status.Reverted? || status.RevertFailed?
      ensures status.RevertFailed? ==> records[id].status.RevertFailed? && records[id].expiresAt.None?
      ensures status.Reverted? ==>
                && (records[id].status.Reverted? <==> LastWriter(history, id) != Some(Confirming))
                && (records[id].status.Confirmed? <==> LastWriter(history, id) == Some(Confirming))
      ensures NeedsNoRevert(old(records)[id]) ==> status.Reverted? && records == old(records) && host == old(host)
      ensures old(schedule) == [] && !NeedsNoRevert(old(records)[id]) ==>
                var (undone, reverted, o) := Revert(old(host), old(records)[id], fortune);
                status == o.status && host == undone && records == old(records)[id := reverted]
    {
      var row, j := records[id], next;
      Perform(LoadForRevert(id, ByGuard));
      if NeedsNoRevert(row) {
        Perform(UndoLoaded(j, fortune));
        RowsTellTheirWriter(start, history, id);
        return Reported(host, row, fortune);
      }
      status := UndoOpen(id, j, fortune);
    }

    // The guard has loaded an open row: it accesses the host, and writes the row.
    method UndoOpen(id: ChangeId, j: nat, fortune: Fortune) returns (status: ChangeStatus)
      requires Valid() && id !in guards && id in records && j < next
      requires j in errands && errands[j].id == id && errands[j].step.Read? && Open(errands[j].step.row)
      modifies this
      ensures Valid() && old(history) <= history && id !in guards && id in records
      ensures status.Reverted? || status.RevertFailed?
      ensures records[id].status == status && records[id].expiresAt.None?
      ensures LastWriter(history, id) == Some(Reverting)
      ensures old(schedule) == [] && old(errands)[j].step.row == old(records)[id] ==>
                var (undone, reverted, o) := Revert(old(host), old(records)[id], fortune);
                status == o.status && host == undone && records == old(records)[id := reverted]
    {
      Await(Undoer(id, j));
      status := Reported(host, errands[j].step.row, fortune);
      Perform(UndoLoaded(j, fortune));
      Await(Undoer(id, j));
      LastWriterMore(history, RecordRevert(j, id), id);
      Perform(RecordRevert(j, id));
    }

    // One query loads the due rows.
    method LoadAll(due: seq<ChangeId>) returns (first: nat)
      requires Valid() && Lists(View(), due)
      modifies this
      ensures Valid() && old(history) <= history && schedule == old(schedule)
      ensures first == old(next) && next == first + |due|
      ensures host == old(host) && records == old(records) && now == old(now)
      ensures InHand(errands, due, first, 0, records, [])
    {
      first := next;
      for i := 0 to |due|
        invariant Valid() && old(history) <= history && schedule == old(schedule)
        invariant next == first + i
        invariant host == old(host) && records == old(records) && now == old(now)
        invariant forall k :: 0 <= k < i ==> HasLoaded(errands, first + k, due[k], records[due[k]])
      {
        Perform(LoadForRevert(due[i], BySweep));
      }
    }

    // How far a sweep that began at s has come. If it is alone, it has done to the host what sequential reverts do.
    ghost predicate Sweeping(s: State, due: seq<ChangeId>, first: nat, i: nat, fortune: ChangeId -> Fortune,
                             reverted: seq<ChangeId>, alone: bool)
      requires i <= |due| && Lists(s, due)
      reads this
    {
      && first + |due| <= next && RowsStay(s.records, records)
      && InHand(errands, due, first, i, s.records, reverted)
      && (alone ==>
            && schedule == [] && records == s.records && now == s.now
            && host == AfterSweep(s, due[..i], fortune).host
            && AreUndoable(s, due[..i], fortune, reverted))
    }

    // The sweep accesses the host for one row after the other, with others at work in between.
    method UndoAll(ghost s: State, due: seq<ChangeId>, first: nat, fortune: ChangeId -> Fortune, ghost alone: bool)
      returns (reverted: seq<ChangeId>)
      requires Valid() && Inv(s) && Lists(s, due) && Sweeping(s, due, first, 0, fortune, [], alone)
      modifies this
      ensures Valid() && old(history) <= history
      ensures Sweeping(s, due, first, |due|, fortune, reverted, alone)
    {
      reverted := [];
      for i := 0 to |due|
        invariant Valid() && old(history) <= history
        invariant Sweeping(s, due, first, i, fortune, reverted, alone)
      {
        var ok := UndoNext(s, due, first, i, fortune, reverted, alone);
        reverted := if ok then reverted + [due[i]] else reverted;
      }
    }

    method UndoNext(ghost s: State, due: seq<ChangeId>, first: nat, i: nat, fortune: ChangeId -> Fortune,
                    ghost reverted: seq<ChangeId>, ghost alone: bool)
      returns (ok: bool)
      requires Valid() && Inv(s) && Lists(s, due) && i < |due|
      requires Sweeping(s, due, first, i, fortune, reverted, alone)
      modifies this
      ensures Valid() && old(history) <= history
      ensures Sweeping(s, due, first, i + 1, fortune, if ok then reverted + [due[i]] else reverted, alone)
    {
      hide InHand, AreUndoable, Undoable, RowsStay, Untouched, AfterSweep, Valid, Inv, Legal, Execute, AboutToRecord;
      ghost var before, rows := errands, records;
      InHandNext(before, due, first, i, s.records, reverted);
      SweepStep(s, due, i, fortune);
      ok := UndoOne(first, first + |due|, first + i, due[i], s.records[due[i]], fortune(due[i]));
      InHandMore(before, errands, due, first, i, s.records, reverted, ok);
      RowsStayStill(s.records, rows, records);
      AreUndoableMore(s, due, i, fortune, reverted, ok);
    }

    // One of these reverts accesses the host.
    method UndoOne(first: nat, end: nat, j: nat, ghost id: ChangeId, ghost row: Record, fortune: Fortune)
      returns (ok: bool)
      requires Valid() && first <= j < end <= next && HasLoaded(errands, j, id, row) && Open(row)
      modifies this
      ensures Valid() && old(history) <= history && end <= next
      ensures RowsStay(old(records), records)
      ensures AboutToRecord(errands, j, id, ok)
      ensures Untouched(old(errands), errands, first, j) && Untouched(old(errands), errands, j + 1, end)
      ensures old(schedule) == [] ==>
                && schedule == [] && records == old(records) && now == old(now)
                && (host, ok) == (Revert(old(host), row, fortune).0, Revert(old(host), row, fortune).2.ok)
    {
      Await(Sweep(first, end));
      var (_, _, o) := Revert(host, errands[j].step.row, fortune);
      ok := o.ok;
      Perform(UndoLoaded(j, fortune));
    }

    // The sweep's session is committed.
    method RecordAll(ghost s: State, due: seq<ChangeId>, first: nat, reverted: seq<ChangeId>)
      requires Valid() && Lists(s, due) && RowsStay(s.records, records)
      requires InHand(errands, due, first, |due|, s.records, reverted)
      modifies this
      ensures Valid() && old(history) <= history && host == old(host) && now == old(now)
      ensures AllClosed(old(records), records, due, reverted)
    {
      for i := 0 to |due|
        invariant Valid() && old(history) <= history && host == old(host) && now == old(now)
        invariant AllClosed(old(records), records, due[..i], reverted)
        invariant ToRecord(errands, due, first, i, reverted)
      {
        AllClosedMore(old(records), records, due, i, reverted);
        ToRecordMore(errands, due, first, i, reverted);
        Perform(RecordRevert(first + i, due[i]));
      }
      assert due[..|due|] == due;
    }

    // Keeps a change past its window: reads the row, and later writes that it is confirmed, whatever it is by then.
    method ConfirmChange(id: ChangeId) returns (result: ConfirmResult)
      requires Valid()
      modifies this
      ensures Valid() && old(history) <= history
      ensures result.NotFound? <==> id !in old(records)
      ensures result.TooLate? <==> id in old(records) && old(records)[id].status in {Reverted, RevertFailed}
      ensures !result.Kept? ==> View() == old(View()) && history == old(history)
      ensures result.Kept? && !old(records)[id].status.Confirmed? ==>
                && id in records && records[id].status.Confirmed? && records[id].expiresAt.None?
                && LastWriter(history, id) == Some(Confirming)
                && (NoMoreAutomation(View(), id) <==> SafeToConfirm(View(), id))
    {
      if id !in records {
        return NotFound;
      }
      var seen := records[id].status;
      if !Confirmable(seen) {
        return TooLate(seen);
      }
      var k := Fresh(confirming.Keys);
      Perform(ReadToConfirm(k, id));
      FinishConfirmation(k);
      result := ConfirmResult.Kept;
    }

    // The row has been read, and is written after an await.
    method FinishConfirmation(k: nat)
      requires Valid() && k in confirming && confirming[k].id in records
      modifies this
      ensures Valid() && old(history) <= history
      ensures
        var Confirmation(id, seen) := old(confirming)[k];
        !seen.Confirmed? ==>
          && id in records && records[id].status.Confirmed? && records[id].expiresAt.None?
          && LastWriter(history, id) == Some(Confirming)
          && (NoMoreAutomation(View(), id) <==> SafeToConfirm(View(), id))
    {
      var Confirmation(id, seen) := confirming[k];
      Await(Confirmer(k));
      hide Legal, Execute, NoMoreAutomation, SafeToConfirm, LastWriter;
      if seen.Confirmed? {
        Perform(Reconfirm(k));
      } else {
        WriteConfirmation(k, id);
      }
    }

    method WriteConfirmation(k: nat, id: ChangeId)
      requires Valid() && Enabled(View(), Confirm(k, id))
      modifies this
      ensures Valid() && history == old(history) + [Confirm(k, id)] && LastWriter(history, id) == Some(Confirming)
      ensures View() == Apply(old(View()), Confirm(k, id))
      ensures NoMoreAutomation(View(), id) <==> SafeToConfirm(View(), id)
    {
      ConfirmedIsKeptIff(start, history, k, id);
      AttemptsGrow(View(), Confirm(k, id), id);
      LastWriterMore(history, Confirm(k, id), id);
      Perform(Confirm(k, id));
    }

    // The changes whose window has run out, in the order in which the database lists them, which is none in particular.
    method ListDue() returns (due: seq<ChangeId>)
      requires Valid()
      ensures ListsAll(View(), due)
      ensures forall id :: id in due <==>
                id in records && records[id].status.Applied? && records[id].expiresAt.Some?
                && records[id].expiresAt.value < now
    {
      var expired := set id | id in records && records[id].status.Applied? && records[id].expiresAt.Some?
                              && records[id].expiresAt.value < now;
      var left := expired;
      due := [];
      while left != {}
        invariant left <= expired && forall id :: id in due <==> id in expired && id !in left
        invariant forall i, j :: 0 <= i < j < |due| ==> due[i] != due[j]
        decreases |left|
      {
        var id :| id in left;
        due, left := due + [id], left - {id};
      }
    }

    // The dead-man switch: loads every change whose window has run out, undoes one after the other on the host, and
    // then writes all their rows.
    method RevertExpiredChanges(fortune: ChangeId -> Fortune) returns (reverted: seq<ChangeId>, due: seq<ChangeId>)
      requires Valid()
      modifies this
      ensures Valid() && old(history) <= history && RowsStay(old(records), records)
      ensures forall id :: id in due <==>
                id in old(records) && old(records)[id].status.Applied? && old(records)[id].expiresAt.Some?
                && old(records)[id].expiresAt.value < old(now)
      ensures forall i, j :: 0 <= i < j < |due| ==> due[i] != due[j]
      ensures forall id :: id in reverted ==> id in due
      ensures forall id :: id in due ==>
                id in records && records[id].expiresAt.None?
                && records[id].status == if id in reverted then Reverted else RevertFailed
      // With nobody else at work.
      ensures old(schedule) == [] ==>
                && host == AfterSweep(old(View()), due, fortune).host
                && records == AfterSweep(old(View()), due, fortune).records
                && (forall id :: id in records && id !in due ==> records[id] == old(records)[id])
                && forall id :: id in records && records[id].status.Applied? && records[id].expiresAt.Some? ==>
                     now <= records[id].expiresAt.value
    {
      ghost var s := View();
      InvNow();
      due := ListDue();
      NothingSwept(s, due, fortune);
      var first := LoadAll(due);
      reverted := UndoAll(s, due, first, fortune, old(schedule) == []);
      assert due[..|due|] == due;
      RecordAll(s, due, first, reverted);
      if old(schedule) == [] {
        SweepResult(s, due, fortune, reverted, records);
        NothingIsDue(s, due, fortune);
        Unswept(s, due, fortune);
      }
    }
  }

  // A row whose revert is recorded.
  function Closed(row: Record, reverted: bool): Record {
    row.(status := if reverted then Reverted else RevertFailed, expiresAt := None)
  }

  predicate HasLoaded(errands: map<nat, Errand>, j: nat, id: ChangeId, row: Record) {
    j in errands && errands[j] == Errand(id, BySweep, Read(row))
  }

  predicate AboutToRecord(errands: map<nat, Errand>, j: nat, id: ChangeId, reverted: bool) {
    j in errands && errands[j] == Errand(id, BySweep, Wrote(if reverted then Reverted else RevertFailed))
  }

  lemma NothingSwept(s: State, due: seq<ChangeId>, fortune: ChangeId -> Fortune)
    requires Lists(s, due)
    ensures AfterSweep(s, due[..0], fortune) == s && AreUndoable(s, due[..0], fortune, [])
    ensures RowsStay(s.records, s.records)
  {
  }

  lemma RowsStayStill(one: map<ChangeId, Record>, two: map<ChangeId, Record>, three: map<ChangeId, Record>)
    requires RowsStay(one, two) && RowsStay(two, three)
    ensures RowsStay(one, three)
  {
  }

  // A sweep has undone the first i of its changes, and holds the rows of the others as it has read them.
  ghost predicate InHand(errands: map<nat, Errand>, due: seq<ChangeId>, first: nat, i: nat,
                         rows: map<ChangeId, Record>, reverted: seq<ChangeId>)
    requires i <= |due| && forall id :: id in due ==> id in rows
  {
    && (forall id :: id in reverted ==> id in due[..i])
    && (forall k :: 0 <= k < i ==> AboutToRecord(errands, first + k, due[k], due[k] in reverted))
    && (forall k :: i <= k < |due| ==> HasLoaded(errands, first + k, due[k], rows[due[k]]))
  }

  lemma InHandNext(errands: map<nat, Errand>, due: seq<ChangeId>, first: nat, i: nat,
                   rows: map<ChangeId, Record>, reverted: seq<ChangeId>)
    requires i < |due| && forall id :: id in due ==> id in rows
    requires InHand(errands, due, first, i, rows, reverted)
    ensures HasLoaded(errands, first + i, due[i], rows[due[i]]) && forall id :: id in reverted ==> id in due[..i]
  {
  }

  lemma InHandMore(before: map<nat, Errand>, after: map<nat, Errand>, due: seq<ChangeId>, first: nat, i: nat,
                   rows: map<ChangeId, Record>, reverted: seq<ChangeId>, ok: bool)
    requires i < |due| && (forall id :: id in due ==> id in rows) && due[i] !in due[..i]
    requires forall k :: i < k < |due| ==> due[k] != due[i]
    requires InHand(before, due, first, i, rows, reverted) && AboutToRecord(after, first + i, due[i], ok)
    requires Untouched(before, after, first, first + i) && Untouched(before, after, first + i + 1, first + |due|)
    ensures InHand(after, due, first, i + 1, rows, if ok then reverted + [due[i]] else reverted)
  {
    assert due[..i + 1] == due[..i] + [due[i]];
  }

  // The reverts of these changes are recorded, and nothing else.
  ghost predicate AllClosed(before: map<ChangeId, Record>, after: map<ChangeId, Record>, due: seq<ChangeId>,
                            reverted: seq<ChangeId>)
  {
    && after.Keys == before.Keys
    && forall id :: id in after ==> after[id] == if id in due then Closed(before[id], id in reverted) else before[id]
  }

  lemma AllClosedMore(before: map<ChangeId, Record>, after: map<ChangeId, Record>, due: seq<ChangeId>, i: nat,
                      reverted: seq<ChangeId>)
    requires i < |due| && due[i] in before && AllClosed(before, after, due[..i], reverted)
    requires forall k :: 0 <= k < i ==> due[k] != due[i]
    ensures due[i] in after
    ensures AllClosed(before, after[due[i] := Closed(after[due[i]], due[i] in reverted)], due[..i + 1], reverted)
  {
    assert due[..i + 1] == due[..i] + [due[i]];
  }

  ghost predicate ToRecord(errands: map<nat, Errand>, due: seq<ChangeId>, first: nat, i: nat,
                           reverted: seq<ChangeId>)
  {
    forall k :: i <= k < |due| ==> AboutToRecord(errands, first + k, due[k], due[k] in reverted)
  }

  lemma ToRecordMore(errands: map<nat, Errand>, due: seq<ChangeId>, first: nat, i: nat, reverted: seq<ChangeId>)
    requires i < |due| && ToRecord(errands, due, first, i, reverted)
    ensures AboutToRecord(errands, first + i, due[i], due[i] in reverted)
    ensures ToRecord(errands - {first + i}, due, first, i + 1, reverted)
  {
  }

  lemma SweepStep(s: State, due: seq<ChangeId>, i: nat, fortune: ChangeId -> Fortune)
    requires Inv(s) && Lists(s, due) && i < |due|
    ensures due[..i + 1] == due[..i] + [due[i]] && due[i] !in due[..i]
    ensures Open(s.records[due[i]])
    ensures
      var before := AfterSweep(s, due[..i], fortune);
      var (host, _, o) := Revert(before.host, s.records[due[i]], fortune(due[i]));
      && AfterSweep(s, due[..i + 1], fortune).host == host
      && (o.ok <==> Undoable(s.host, s.records[due[i]], fortune(due[i])))
  {
    assert due[..i + 1][..i] == due[..i];
    Unswept(s, due[..i], fortune);
  }

  // Exactly the changes that can be undone on this host were.
  ghost predicate AreUndoable(s: State, due: seq<ChangeId>, fortune: ChangeId -> Fortune, reverted: seq<ChangeId>)
    requires forall id :: id in due ==> id in s.records
  {
    forall id :: id in due ==> (id in reverted <==> Undoable(s.host, s.records[id], fortune(id)))
  }

  lemma AreUndoableMore(s: State, due: seq<ChangeId>, i: nat, fortune: ChangeId -> Fortune, reverted: seq<ChangeId>,
                        ok: bool)
    requires Lists(s, due) && i < |due| && forall id :: id in reverted ==> id in due[..i]
    ensures
      AreUndoable(s, due[..i], fortune, reverted)
      && ok == Undoable(s.host, s.records[due[i]], fortune(due[i])) ==>
        AreUndoable(s, due[..i + 1], fortune, if ok then reverted + [due[i]] else reverted)
  {
    assert due[..i + 1] == due[..i] + [due[i]];
  }

  // Writing all the rows at the end comes to the same as writing each after its change was undone.
  lemma SweepResult(s: State, due: seq<ChangeId>, fortune: ChangeId -> Fortune, reverted: seq<ChangeId>,
                    records: map<ChangeId, Record>)
    requires Inv(s) && Lists(s, due)
    requires AreUndoable(s, due, fortune, reverted) && AllClosed(s.records, records, due, reverted)
    ensures records == AfterSweep(s, due, fortune).records
  {
    var after := AfterSweep(s, due, fortune).records;
    Unswept(s, due, fortune);
    forall id | id in records
      ensures records[id] == after[id]
    {
      if id in due {
        SweptRow(s, due, fortune, id);
      }
    }
  }

  lemma NothingIsDue(s: State, due: seq<ChangeId>, fortune: ChangeId -> Fortune)
    requires Inv(s) && ListsAll(s, due)
    ensures
      var after := AfterSweep(s, due, fortune);
      forall id :: id in after.records ==> !Due(after.records[id], after.now)
  {
    var after := AfterSweep(s, due, fortune);
    Unswept(s, due, fortune);
    forall id | id in after.records
      ensures !Due(after.records[id], after.now)
    {
      if id in due {
        SweptRow(s, due, fortune, id);
      }
    }
  }
}
