// The change ledger: what was changed on the host, and how to put it back.
module Ledger {
  import opened Options

  datatype ChangeKind = Sysctl | Service

  datatype ChangeStatus = Applied | Verified | Confirmed | Reverted | RevertFailed | Unrevertible

  datatype Record = Record(
    kind: ChangeKind, target: string, previous: Option<string>, newValue: string,
    revertible: bool, status: ChangeStatus, expiresAt: Option<nat>)

  // The host: its kernel parameters by key, and the service actions that were run on it.
  datatype Host = Host(sysctls: map<string, string>, actions: seq<(string, string)>)

  // What becomes of one attempt to write the host.
  datatype Fortune = Works | Fails | Refused

  // The inverse of a service action; restart and reload have none.
  function Inverse(action: string): Option<string> {
    if action == "start" then Some("stop")
    else if action == "stop" then Some("start")
    else if action == "enable" then Some("disable")
    else if action == "disable" then Some("enable")
    else None
  }

  function PriorState(host: Host, kind: ChangeKind, target: string): Option<string> {
    if kind.Sysctl? && target in host.sysctls then Some(host.sysctls[target]) else None
  }

  // Does the write take effect? A parameter the kernel does not have cannot be written.
  predicate Succeeds(host: Host, kind: ChangeKind, target: string, fortune: Fortune) {
    fortune.Works? && (kind.Sysctl? ==> target in host.sysctls)
  }

  // A write that does not succeed changes nothing.
  function Write(host: Host, kind: ChangeKind, target: string, value: string, fortune: Fortune): Host {
    if !Succeeds(host, kind, target, fortune) then host
    else if kind.Sysctl? then host.(sysctls := host.sysctls[target := value])
    else host.(actions := host.actions + [(target, value)])
  }

  // The row for a change that is about to be applied; only what can be undone gets a timer.
  function NewRecord(kind: ChangeKind, target: string, previous: Option<string>, value: string,
                     revertAfter: Option<nat>, now: nat): Record
  {
    var revertible := kind.Sysctl? || Inverse(value).Some?;
    Record(kind, target, previous, value, revertible,
           if revertible then Applied else Unrevertible,
           if revertible && revertAfter.Some? then Some(now + revertAfter.value) else None)
  }

  predicate NeedsNoRevert(record: Record) {
    record.status.Reverted? || record.status.Confirmed?
  }

  // The value or action that undoes the change, if one is known.
  function Undo(record: Record): Option<string> {
    if record.kind.Sysctl? then record.previous else Inverse(record.newValue)
  }

  datatype RevertOutcome = RevertOutcome(ok: bool, status: ChangeStatus)

  // Undoing one change from its record.
  function Revert(host: Host, record: Record, fortune: Fortune): (Host, Record, RevertOutcome) {
    if NeedsNoRevert(record) then (host, record, RevertOutcome(true, record.status))
    else if !record.revertible then (host, record, RevertOutcome(false, Unrevertible))
    else
      var undo := Undo(record);
      var ok := undo.Some? && Succeeds(host, record.kind, record.target, fortune);
      var status := if ok then Reverted else RevertFailed;
      (if undo.Some? then Write(host, record.kind, record.target, undo.value, fortune) else host,
       record.(status := status, expiresAt := None),
       RevertOutcome(ok, status))
  }

  predicate Due(record: Record, now: nat) {
    record.status.Applied? && record.expiresAt.Some? && record.expiresAt.value < now
  }

  // ------------------------------------------------------------ undoing in order

  datatype Change = Change(key: string, value: string)

  function SysctlRecord(host: Host, change: Change): Record {
    NewRecord(Sysctl, change.key, PriorState(host, Sysctl, change.key), change.value, None, 0)
  }

  // Applies sysctl changes one after the other, each with its record.
  function ApplyAll(host: Host, changes: seq<Change>): (Host, seq<Record>)
    decreases |changes|
  {
    if changes == [] then (host, [])
    else
      var record := SysctlRecord(host, changes[0]);
      var (last, records) := ApplyAll(Write(host, Sysctl, changes[0].key, changes[0].value, Works), changes[1..]);
      (last, [record] + records)
  }

  function RevertNewestFirst(host: Host, records: seq<Record>): (Host, seq<Record>)
    decreases |records|
  {
    if records == [] then (host, [])
    else
      var n := |records| - 1;
      var (next, record, _) := Revert(host, records[n], Works);
      var (last, earlier) := RevertNewestFirst(next, records[..n]);
      (last, earlier + [record])
  }

  function RevertOldestFirst(host: Host, records: seq<Record>): Host
    decreases |records|
  {
    if records == [] then host else RevertOldestFirst(Revert(host, records[0], Works).0, records[1..])
  }

  lemma {:induction false} RevertNewestFirstSplit(host: Host, first: Record, rest: seq<Record>)
    ensures
      var (middle, later) := RevertNewestFirst(host, rest);
      var (last, record, _) := Revert(middle, first, Works);
      RevertNewestFirst(host, [first] + rest) == (last, [record] + later)
    decreases |rest|
  {
    if rest == [] {
      var (next, record, _) := Revert(host, first, Works);
      assert [first] + rest == [first] && [first][..0] == [];
      assert RevertNewestFirst(next, []) == (next, []);
      assert [] + [record] == [record] + [];
    } else {
      var n := |rest| - 1;
      var (next, record, _) := Revert(host, rest[n], Works);
      RevertNewestFirstSplit(next, first, rest[..n]);
      assert ([first] + rest)[..n + 1] == [first] + rest[..n];
      var (middle, later) := RevertNewestFirst(next, rest[..n]);
      var firstReverted := Revert(middle, first, Works).1;
      assert ([firstReverted] + later) + [record] == [firstReverted] + (later + [record]);
    }
  }

  // The record is reverted for good: trying again, with whatever luck, changes nothing.
  ghost predicate StaysReverted(record: Record) {
    record.status.Reverted?
    && forall host, fortune :: Revert(host, record, fortune) == (host, record, RevertOutcome(true, Reverted))
  }

  // Reverting any sequence of successful changes newest first gives back the host they started from, and
  // reverting any of them a second time changes nothing.
  lemma {:induction false} NewestFirstRestores(host: Host, changes: seq<Change>)
    requires forall i :: 0 <= i < |changes| ==> changes[i].key in host.sysctls
    ensures
      var (changed, records) := ApplyAll(host, changes);
      var (restored, reverted) := RevertNewestFirst(changed, records);
      && restored == host
      && |reverted| == |changes|
      && forall i :: 0 <= i < |reverted| ==> StaysReverted(reverted[i])
    decreases |changes|
  {
    if changes != [] {
      var key, value := changes[0].key, changes[0].value;
      var record := SysctlRecord(host, changes[0]);
      var next := Write(host, Sysctl, key, value, Works);
      NewestFirstRestores(next, changes[1..]);
      var (changed, records) := ApplyAll(next, changes[1..]);
      RevertNewestFirstSplit(changed, record, records);
      var later := RevertNewestFirst(changed, records).1;
      assert next.sysctls[key := host.sysctls[key]] == host.sysctls;
      var (last, reverted, _) := Revert(next, record, Works);
      assert last == host && StaysReverted(reverted);
      forall i | 0 <= i < |[reverted] + later|
        ensures StaysReverted(([reverted] + later)[i])
      {
        if i > 0 { assert StaysReverted(later[i - 1]); }
      }
    }
  }

  // What undoes a service action is the opposite action on the same unit; only starting, stopping, enabling and
  // disabling have one.
  lemma ServicesAreUndoneByTheOpposite(host: Host, unit: string, action: string, now: nat)
    ensures
      var record := NewRecord(Service, unit, PriorState(host, Service, unit), action, None, now);
      var applied := Write(host, Service, unit, action, Works);
      var (undone, _, outcome) := Revert(applied, record, Works);
      && applied == Host(host.sysctls, host.actions + [(unit, action)])
      && (outcome.ok <==> action in {"start", "stop", "enable", "disable"})
      && (action == "start" ==> undone.actions == applied.actions + [(unit, "stop")])
      && (action == "stop" ==> undone.actions == applied.actions + [(unit, "start")])
      && (action == "enable" ==> undone.actions == applied.actions + [(unit, "disable")])
      && (action == "disable" ==> undone.actions == applied.actions + [(unit, "enable")])
      && (!outcome.ok ==> undone == applied && outcome.status.Unrevertible?)
  {
  }

  // The order matters: two changes of one parameter, reverted oldest first, leave the first one's value.
  lemma OldestFirstDoesNotRestore(key: string, a: string, b: string, c: string)
    requires a != b
    ensures
      var host := Host(map[key := a], []);
      var (changed, records) := ApplyAll(host, [Change(key, b), Change(key, c)]);
      RevertOldestFirst(changed, records).sysctls == map[key := b] != host.sysctls
  {
    var host := Host(map[key := a], []);
    var changes := [Change(key, b), Change(key, c)];
    assert changes[1..] == [Change(key, c)] && changes[1..][1..] == [];
    var next := Write(host, Sysctl, key, b, Works);
    var last := Write(next, Sysctl, key, c, Works);
    var first, second := SysctlRecord(host, changes[0]), SysctlRecord(next, changes[1]);
    assert ApplyAll(last, []) == (last, []) && [second] + [] == [second];
    assert ApplyAll(next, changes[1..]) == (last, [second]);
    assert ApplyAll(host, changes) == (last, [first] + [second]);
    var records := [first] + [second];
    assert records[0] == first && records[1..] == [second] && records[1..][1..] == [];
    var undone := Revert(last, first, Works).0;
    assert undone.sysctls == map[key := a];
    assert RevertOldestFirst(last, records) == RevertOldestFirst(undone, [second]);
    assert RevertOldestFirst(undone, [second]) == RevertOldestFirst(Revert(undone, second, Works).0, []);
    assert Revert(undone, second, Works).0.sysctls == map[key := b];
    assert host.sysctls[key] == a && map[key := b][key] == b;
  }
}
