// The window of a change: the dead-man sweep leaves a change alone until its time is up, and may revert it from then
// on, as long as nobody has written its row.
module GuardTimer {
  import opened Options
  import opened Ledger
  import opened GuardMachine

  // No sweep has loaded the change, and none has attempted to write the host for it since there were n attempts.
  ghost predicate Spared(s: State, id: ChangeId, n: nat) {
    && (forall j :: j in s.errands && s.errands[j].id == id ==> !s.errands[j].cause.BySweep?)
    && n <= |s.attempts|
    && forall i :: n <= i < |s.attempts| ==> s.attempts[i] != Attempt(id, BySweep)
  }

  // The time has not come.
  predicate Early(s: State, deadline: Option<nat>) { deadline.None? || s.now <= deadline.value }

  // As long as the row of the change is as it was inserted it has this deadline, and the time it has is respected.
  ghost predicate Ticking(s: State, id: ChangeId, deadline: Option<nat>, n: nat) {
    && id in s.records
    && (s.records[id].status.Applied? ==> s.records[id].expiresAt == deadline)
    && (s.records[id].expiresAt.Some? ==> s.records[id].expiresAt == deadline)
    && (Early(s, deadline) ==> Spared(s, id, n))
  }

  // Whatever is written into a row later takes its timer and is no first status.
  lemma WritesEndTheTimer(s: State, a: Action, id: ChangeId)
    requires Inv(s) && Enabled(s, a) && id in s.records
    ensures
      var row := Apply(s, a).records[id];
      id in Apply(s, a).records && (row == s.records[id] || (row.expiresAt.None? && !row.status.Applied?))
  {
  }

  lemma SparedStill(s: State, a: Action, id: ChangeId, n: nat)
    requires Inv(s) && Enabled(s, a) && id in s.records && Spared(s, id, n) && a != LoadForRevert(id, BySweep)
    ensures Spared(Apply(s, a), id, n)
  {
  }

  lemma TickingKept(s: State, a: Action, id: ChangeId, deadline: Option<nat>, n: nat)
    requires Inv(s) && Enabled(s, a) && Ticking(s, id, deadline, n)
    ensures Ticking(Apply(s, a), id, deadline, n)
  {
    WritesEndTheTimer(s, a, id);
    assert Apply(s, a).now >= s.now;
    if Early(s, deadline) {
      assert a != LoadForRevert(id, BySweep);
      SparedStill(s, a, id, n);
    }
    hide Apply, Enabled, Inv, Spared;
  }

  lemma {:induction false} TickingHolds(s: State, actions: seq<Action>, id: ChangeId, deadline: Option<nat>, n: nat)
    requires Inv(s) && Legal(s, actions) && Ticking(s, id, deadline, n)
    ensures Ticking(Execute(s, actions), id, deadline, n) && Inv(Execute(s, actions))
    decreases |actions|
  {
    if actions != [] {
      TickingKept(s, actions[0], id, deadline, n);
      ActionKept(s, actions[0]);
      TickingHolds(Apply(s, actions[0]), actions[1..], id, deadline, n);
    }
  }

  lemma TimerStarts(s: State, id: ChangeId, deadline: Option<nat>)
    requires Inv(s) && Enabled(s, InsertRecord(id))
    requires
      var g := s.guards[id];
      var revertible := g.kind.Sysctl? || g.value in {"start", "stop", "enable", "disable"};
      deadline == if revertible && g.revertAfter.Some? then Some(s.now + g.revertAfter.value) else None
    ensures Ticking(Apply(s, InsertRecord(id)), id, deadline, |s.attempts|)
  {
    assert forall j :: j in s.errands ==> ErrandOk(s.records, s.errands[j]);
  }

  // A change whose row is inserted at some time, to be reverted after r seconds, has just these r seconds: until they
  // are over, whatever happens, no sweep loads it and none attempts to write the host for it; from then on, a sweep can
  // load it at any time while its row still says applied. Without a number of seconds, or with a change that cannot be
  // undone, none ever does.
  lemma SweepsRespectTheWindow(host: Host, before: seq<Action>, id: ChangeId, later: seq<Action>)
    requires Legal(Init(host), before) && Enabled(Execute(Init(host), before), InsertRecord(id))
    requires Legal(Apply(Execute(Init(host), before), InsertRecord(id)), later)
    ensures
      var s := Execute(Init(host), before);
      var s' := Execute(Apply(s, InsertRecord(id)), later);
      var g := s.guards[id];
      var revertible := g.kind.Sysctl? || g.value in {"start", "stop", "enable", "disable"};
      var swept := || (exists j :: j in s'.errands && s'.errands[j].id == id && s'.errands[j].cause.BySweep?)
                   || (exists i :: |s.attempts| <= i < |s'.attempts| && s'.attempts[i] == Attempt(id, BySweep));
      && id in s'.records
      && (!revertible || g.revertAfter.None? || s'.now <= s.now + g.revertAfter.value ==>
            !swept && !Enabled(s', LoadForRevert(id, BySweep)))
      && (revertible && g.revertAfter.Some? && s'.now > s.now + g.revertAfter.value ==>
            (Enabled(s', LoadForRevert(id, BySweep)) <==> s'.records[id].status.Applied?))
  {
    InvHolds(Init(host), before);
    var s := Execute(Init(host), before);
    var g := s.guards[id];
    var revertible := g.kind.Sysctl? || g.value in {"start", "stop", "enable", "disable"};
    var deadline := if revertible && g.revertAfter.Some? then Some(s.now + g.revertAfter.value) else None;
    TimerStarts(s, id, deadline);
    ActionKept(s, InsertRecord(id));
    TickingHolds(Apply(s, InsertRecord(id)), later, id, deadline, |s.attempts|);
    hide Legal, Execute, Inv;
  }
}
