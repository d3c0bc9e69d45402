// Settling one reply that is owed to a conversation, with any number of dispatchers sweeping at once.
// Every database session of a sweep is one action; any dispatcher may act, or die, between two actions.
module Dispatch {
  datatype ReplyStatus = Pending | Sent | Abandoned

  datatype Reply = Reply(status: ReplyStatus, attempts: nat, interimSent: bool)

  // What the reply's run looks like to a sweep.
  datatype RunView = Working | AwaitingApproval | Finished | Missing

  // How often a reply is tried, and whether a finished run may pause again, as one does that was failed or cancelled
  // under its owner's hands (RunFaults).
  datatype Settings = Settings(max: nat, reopens: bool)

  // How the run was when the reply was listed, and when the text about it was composed.
  datatype Sight = Sight(listed: RunView, looked: RunView)

  // Where a dispatcher stands with the reply. The token is the attempts count it has read; a stranded one has found
  // the run gone, and is about to give the reply up.
  datatype Phase =
    | Idle
    | Listed(run: RunView)
    | Stranded
    | Looked(token: nat, interim: bool, sight: Sight)
    | Claimed(token: nat, interim: bool, sight: Sight)
    | Delivered(ok: bool)
  {
    // Can still claim a final delivery on the strength of the listing it has made.
    predicate Armed() { Listed? || (Looked? && !interim) }
  }

  // finals: the tokens of the successful final claims; notes: how many interim notes were claimed;
  // answers: for every final message that went out, what it was about.
  datatype State = State(
    reply: Reply, run: RunView, configured: bool, phases: seq<Phase>,
    finals: seq<nat>, notes: nat, answers: seq<Sight>)

  datatype Action =
    | World(run: RunView, configured: bool)
    | List(d: nat)
    | Look(d: nat)
    | Forsake(d: nat)
    | GiveUpChannel(d: nat)
    | Claim(d: nat)
    | Send(d: nat, ok: bool)
    | Record(d: nat)
    | Die(d: nat)

  function Init(n: nat, run: RunView): State {
    State(Reply(Pending, 0, false), run, true, seq(n, _ => Idle), [], 0, [])
  }

  // What may become of a run: it works, pauses and goes on, and ends; its row may be deleted.
  predicate MayBecome(c: Settings, before: RunView, after: RunView) {
    after == before || after.Missing? || before.Working? || before.AwaitingApproval?
    || (c.reopens && before.Finished?)
  }

  predicate Enabled(c: Settings, s: State, a: Action) {
    match a
    case World(run, _) => MayBecome(c, s.run, run) && (s.run.Missing? ==> run.Missing?)
    case List(d) =>
      d < |s.phases| && s.phases[d].Idle? && s.reply.status.Pending? && s.reply.attempts < c.max && !s.run.Working?
    case Look(d) => d < |s.phases| && s.phases[d].Listed?
    case Forsake(d) => d < |s.phases| && s.phases[d].Stranded?
    case GiveUpChannel(d) => d < |s.phases| && s.phases[d].Looked? && !s.configured
    case Claim(d) => d < |s.phases| && s.phases[d].Looked? && s.configured
    case Send(d, _) => d < |s.phases| && s.phases[d].Claimed?
    case Record(d) => d < |s.phases| && s.phases[d].Delivered?
    case Die(d) => d < |s.phases|
  }

  function To(s: State, d: nat, phase: Phase): State
    requires d < |s.phases|
  {
    s.(phases := s.phases[d := phase])
  }

  // The compare-and-swap of a claim: pending, and the note unsent or the token current.
  predicate Wins(reply: Reply, token: nat, interim: bool) {
    reply.status.Pending? && if interim then !reply.interimSent else reply.attempts == token
  }

  function Apply(c: Settings, s: State, a: Action): State
    requires Enabled(c, s, a)
  {
    match a
    case World(run, configured) => s.(run := run, configured := configured)
    case List(d) => To(s, d, Listed(s.run))
    case Look(d) =>
      var interim := s.run.AwaitingApproval?;
      if !s.reply.status.Pending? then To(s, d, Idle)
      else if s.run.Missing? then To(s, d, Stranded)
      else if interim && s.reply.interimSent then To(s, d, Idle)
      else To(s, d, Looked(s.reply.attempts, interim, Sight(s.phases[d].run, s.run)))
    case Forsake(d) => To(s, d, Idle).(reply := s.reply.(status := Abandoned))
    case GiveUpChannel(d) =>
      To(s, d, Idle).(reply := if s.reply.status.Pending? then s.reply.(status := Abandoned) else s.reply)
    case Claim(d) =>
      var Looked(token, interim, sight) := s.phases[d];
      if !Wins(s.reply, token, interim) then To(s, d, Idle)
      else if interim then
        To(s, d, Claimed(token, interim, sight)).(reply := s.reply.(interimSent := true), notes := s.notes + 1)
      else
        To(s, d, Claimed(token, interim, sight))
        .(reply := s.reply.(attempts := token + 1), finals := s.finals + [token])
    case Send(d, ok) =>
      var Claimed(_, interim, sight) := s.phases[d];
      if interim then To(s, d, Idle)
      else To(s, d, Delivered(ok)).(answers := if ok then s.answers + [sight] else s.answers)
    case Record(d) =>
      To(s, d, Idle).(reply :=
        if s.phases[d].ok then s.reply.(status := Sent)
        else if s.reply.attempts >= c.max then s.reply.(status := Abandoned)
        else s.reply)
    case Die(d) => To(s, d, Idle)
  }

  ghost predicate Legal(c: Settings, s: State, actions: seq<Action>)
    decreases |actions|
  {
    actions == [] || (Enabled(c, s, actions[0]) && Legal(c, Apply(c, s, actions[0]), actions[1..]))
  }

  ghost function Execute(c: Settings, s: State, actions: seq<Action>): State
    requires Legal(c, s, actions)
    decreases |actions|
  {
    if actions == [] then s else Execute(c, Apply(c, s, actions[0]), actions[1..])
  }

  lemma {:induction false} ExecuteAppend(c: Settings, s: State, actions: seq<Action>, a: Action)
    requires Legal(c, s, actions) && Enabled(c, Execute(c, s, actions), a)
    ensures Legal(c, s, actions + [a])
    ensures Execute(c, s, actions + [a]) == Apply(c, Execute(c, s, actions), a)
    decreases |actions|
  {
    if actions != [] {
      ExecuteAppend(c, Apply(c, s, actions[0]), actions[1..], a);
      assert (actions + [a])[1..] == actions[1..] + [a];
    }
  }

  // ------------------------------------------------------------ counting armed dispatchers

  function Armed(phases: seq<Phase>): nat {
    if phases == [] then 0 else Armed(phases[1..]) + if phases[0].Armed() then 1 else 0
  }

  lemma {:induction false} ArmedSet(phases: seq<Phase>, d: nat, phase: Phase)
    requires d < |phases|
    ensures Armed(phases[d := phase])
            == Armed(phases) - (if phases[d].Armed() then 1 else 0) + (if phase.Armed() then 1 else 0)
  {
    if d == 0 {
      assert phases[d := phase][1..] == phases[1..];
    } else {
      ArmedSet(phases[1..], d - 1, phase);
      assert phases[d := phase][1..] == phases[1..][d - 1 := phase];
    }
  }

  lemma {:induction false} ArmedAtMost(phases: seq<Phase>)
    ensures Armed(phases) <= |phases|
  {
    if phases != [] {
      ArmedAtMost(phases[1..]);
    }
  }

  // ------------------------------------------------------------ the invariant

  // Tokens are used up one by one, the note is claimed at most once, a sent reply was delivered, and
  // whoever can still claim once the attempts are used up listed the reply before they were.
  ghost predicate Inv(c: Settings, s: State) {
    && |s.finals| == s.reply.attempts
    && (forall i :: 0 <= i < |s.finals| ==> s.finals[i] == i)
    && s.notes == (if s.reply.interimSent then 1 else 0)
    && (s.reply.status.Sent? ==> s.answers != [])
    && (forall d :: 0 <= d < |s.phases| && s.phases[d].Delivered? && s.phases[d].ok ==> s.answers != [])
    && BudgetKept(c, s)
    && (|s.phases| == 1 && !s.reply.status.Pending? ==> s.phases[0].Idle?)
  }

  ghost predicate BudgetKept(c: Settings, s: State) {
    s.reply.attempts >= c.max ==> s.reply.attempts + Armed(s.phases) <= c.max + |s.phases| - 1
  }

  lemma BudgetIsKept(c: Settings, s: State, a: Action)
    requires c.max > 0 && BudgetKept(c, s) && Enabled(c, s, a)
    ensures BudgetKept(c, Apply(c, s, a)) && |Apply(c, s, a).phases| == |s.phases|
  {
    if !a.World? {
      ArmedSet(s.phases, a.d, Apply(c, s, a).phases[a.d]);
      ArmedAtMost(s.phases);
    }
  }

  lemma ActionKept(c: Settings, s: State, a: Action)
    requires c.max > 0 && Inv(c, s) && Enabled(c, s, a)
    ensures Inv(c, Apply(c, s, a)) && |Apply(c, s, a).phases| == |s.phases|
  {
    BudgetIsKept(c, s, a);
  }

  lemma {:induction false} InvHolds(c: Settings, s: State, actions: seq<Action>)
    requires c.max > 0 && Inv(c, s) && Legal(c, s, actions)
    ensures Inv(c, Execute(c, s, actions)) && |Execute(c, s, actions).phases| == |s.phases|
    decreases |actions|
  {
    if actions != [] {
      ActionKept(c, s, actions[0]);
      InvHolds(c, Apply(c, s, actions[0]), actions[1..]);
    }
  }

  lemma ReachableInv(c: Settings, n: nat, run: RunView, actions: seq<Action>)
    requires c.max > 0 && Legal(c, Init(n, run), actions)
    ensures Inv(c, Execute(c, Init(n, run), actions))
    ensures |Execute(c, Init(n, run), actions).phases| == n
  {
    InvHolds(c, Init(n, run), actions);
  }

  // ------------------------------------------------------------ what follows for every run

  // No two final claims use the same token; the attempts count them; the interim note is claimed once
  // at most and costs no attempt.
  lemma ClaimsAreSingleWinner(c: Settings, n: nat, run: RunView, actions: seq<Action>)
    requires c.max > 0 && Legal(c, Init(n, run), actions)
    ensures
      var s := Execute(c, Init(n, run), actions);
      && s.reply.attempts == |s.finals|
      && (forall i, j :: 0 <= i < j < |s.finals| ==> s.finals[i] != s.finals[j])
      && s.notes <= 1
  {
    ReachableInv(c, n, run, actions);
  }

  lemma AttemptsAreBounded(c: Settings, n: nat, run: RunView, actions: seq<Action>)
    requires c.max > 0 && n > 0 && Legal(c, Init(n, run), actions)
    ensures Execute(c, Init(n, run), actions).reply.attempts <= c.max + n - 1
  {
    ReachableInv(c, n, run, actions);
  }

  // A reply is never marked sent before a message has gone out.
  lemma SentMeansDelivered(c: Settings, n: nat, run: RunView, actions: seq<Action>)
    requires c.max > 0 && Legal(c, Init(n, run), actions)
    requires Execute(c, Init(n, run), actions).reply.status.Sent?
    ensures Execute(c, Init(n, run), actions).answers != []
  {
    ReachableInv(c, n, run, actions);
  }

  // ------------------------------------------------------------ what the answers say

  // What was seen of the run can have been seen in this order, and the second sight bears an answer.
  predicate Plausible(c: Settings, sight: Sight) {
    && !sight.listed.Working? && !sight.looked.Missing?
    && (sight.looked == sight.listed || sight.listed.AwaitingApproval? || (c.reopens && sight.listed.Finished?))
  }

  // A final text is about a run that does not wait for an approval.
  predicate FinalSight(c: Settings, sight: Sight) { Plausible(c, sight) && !sight.looked.AwaitingApproval? }

  ghost predicate Sighted(c: Settings, s: State) {
    && (forall i :: 0 <= i < |s.answers| ==> FinalSight(c, s.answers[i]))
    && (forall d :: 0 <= d < |s.phases| ==>
          match s.phases[d]
          case Listed(seen) => Plausible(c, Sight(seen, s.run)) || s.run.Missing?
          case Looked(_, interim, sight) => interim || FinalSight(c, sight)
          case Claimed(_, interim, sight) => interim || FinalSight(c, sight)
          case _ => true)
  }

  lemma SightKept(c: Settings, s: State, a: Action)
    requires Sighted(c, s) && Enabled(c, s, a)
    ensures Sighted(c, Apply(c, s, a))
  {
  }

  lemma {:induction false} SightHolds(c: Settings, s: State, actions: seq<Action>)
    requires Sighted(c, s) && Legal(c, s, actions)
    ensures Sighted(c, Execute(c, s, actions))
    decreases |actions|
  {
    if actions != [] {
      SightKept(c, s, actions[0]);
      SightHolds(c, Apply(c, s, actions[0]), actions[1..]);
    }
  }

  // In every interleaving, a final message is about a finished run, or about one that was parked when its reply
  // was listed and had gone back to work when it was looked at. Where outcomes are final, a reply listed when its
  // run had finished is always answered truthfully.
  lemma AnswersAreTruthful(c: Settings, n: nat, run: RunView, actions: seq<Action>, i: nat)
    requires Legal(c, Init(n, run), actions)
    requires i < |Execute(c, Init(n, run), actions).answers|
    ensures
      var sight := Execute(c, Init(n, run), actions).answers[i];
      && (sight.looked.Finished? || sight.looked.Working?)
      && (sight.looked.Working? ==> sight.listed.AwaitingApproval? || (c.reopens && sight.listed.Finished?))
      && (!c.reopens && sight.listed.Finished? ==> sight.looked.Finished?)
  {
    SightHolds(c, Init(n, run), actions);
  }

  // The run is over, and whatever is under way to the person says so.
  ghost predicate Over(s: State) {
    && (s.run.Finished? || s.run.Missing?)
    && (forall i :: 0 <= i < |s.answers| ==> s.answers[i].looked.Finished?)
    && (forall d :: 0 <= d < |s.phases| ==>
          match s.phases[d]
          case Looked(_, interim, sight) => interim || sight.looked.Finished?
          case Claimed(_, interim, sight) => interim || sight.looked.Finished?
          case _ => true)
  }

  lemma OverKept(c: Settings, s: State, a: Action)
    requires (c.reopens ==> s.run.Missing?) && Over(s) && Enabled(c, s, a)
    ensures Over(Apply(c, s, a)) && (s.run.Missing? ==> Apply(c, s, a).run.Missing?)
  {
  }

  // A finished run stays finished, or vanishes, and every answer from then on is about a finished run.
  lemma {:induction false} OverStays(c: Settings, s: State, actions: seq<Action>)
    requires (c.reopens ==> s.run.Missing?) && Over(s) && Legal(c, s, actions)
    ensures Over(Execute(c, s, actions))
    decreases |actions|
  {
    if actions != [] {
      OverKept(c, s, actions[0]);
      OverStays(c, Apply(c, s, actions[0]), actions[1..]);
    }
  }
}
