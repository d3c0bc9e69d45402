// The bounds on concurrent dispatch are the best ones: runs of the machine that reach them, and runs on
// which stronger claims fail.
module DispatchBounds {
  import opened Dispatch

  // `s` can be reached by n dispatchers.
  ghost predicate Reached(c: Settings, n: nat, actions: seq<Action>, s: State) {
    ReachedFrom(c, n, Finished, actions, s)
  }

  ghost predicate ReachedFrom(c: Settings, n: nat, run: RunView, actions: seq<Action>, s: State) {
    Legal(c, Init(n, run), actions) && Execute(c, Init(n, run), actions) == s
  }

  lemma Further(c: Settings, n: nat, run: RunView, actions: seq<Action>, s: State, a: Action)
    returns (longer: seq<Action>, s': State)
    requires ReachedFrom(c, n, run, actions, s) && Enabled(c, s, a)
    ensures s' == Apply(c, s, a) && ReachedFrom(c, n, run, longer, s')
  {
    ExecuteAppend(c, Init(n, run), actions, a);
    longer, s' := actions + [a], Apply(c, s, a);
  }

  lemma Extend(c: Settings, n: nat, actions: seq<Action>, s: State, a: Action)
    returns (longer: seq<Action>, s': State)
    requires Reached(c, n, actions, s) && Enabled(c, s, a)
    ensures s' == Apply(c, s, a) && Reached(c, n, longer, s')
  {
    longer, s' := Further(c, n, Finished, actions, s, a);
  }

  // A pending reply of a finished run with the first k dispatchers listed and the others idle.
  predicate Ready(s: State, n: nat, attempts: nat, k: nat) {
    && s.reply.status.Pending? && s.reply.attempts == attempts
    && s.run.Finished? && s.configured
    && |s.phases| == n && forall d :: 0 <= d < n ==> s.phases[d] == if d < k then Listed(Finished) else Idle
  }

  // One delivery fails, below the maximum: the reply stays pending with one attempt more.
  lemma FailOnce(c: Settings, n: nat, actions: seq<Action>, s: State, attempts: nat)
    returns (longer: seq<Action>, s': State)
    requires n > 0 && attempts + 1 < c.max && Reached(c, n, actions, s) && Ready(s, n, attempts, 0)
    ensures Reached(c, n, longer, s') && Ready(s', n, attempts + 1, 0)
  {
    longer, s' := Extend(c, n, actions, s, List(0));
    longer, s' := Extend(c, n, longer, s', Look(0));
    longer, s' := Extend(c, n, longer, s', Claim(0));
    longer, s' := Extend(c, n, longer, s', Send(0, false));
    longer, s' := Extend(c, n, longer, s', Record(0));
  }

  // All but one attempt have failed, and every dispatcher has listed the reply.
  lemma AllListAtTheLastAttempt(c: Settings, n: nat) returns (actions: seq<Action>, s: State)
    requires c.max > 0 && n > 0
    ensures Reached(c, n, actions, s) && Ready(s, n, c.max - 1, n)
  {
    actions, s := [], Init(n, Finished);
    for i := 0 to c.max - 1
      invariant Reached(c, n, actions, s) && Ready(s, n, i, 0)
    {
      actions, s := FailOnce(c, n, actions, s, i);
    }
    for k := 0 to n
      invariant Reached(c, n, actions, s) && Ready(s, n, c.max - 1, k)
    {
      actions, s := Extend(c, n, actions, s, List(k));
    }
  }

  // With n dispatchers the attempts do reach max + n - 1.
  lemma AttemptsBoundIsReached(c: Settings, n: nat) returns (actions: seq<Action>)
    requires c.max > 0 && n > 0
    ensures Legal(c, Init(n, Finished), actions)
    ensures Execute(c, Init(n, Finished), actions).reply.attempts == c.max + n - 1
  {
    var s;
    actions, s := AllListAtTheLastAttempt(c, n);
    for k := 0 to n
      invariant Reached(c, n, actions, s)
      invariant s.reply.status.Pending? && s.reply.attempts == c.max - 1 + k && s.run.Finished? && s.configured
      invariant |s.phases| == n && forall d :: k <= d < n ==> s.phases[d] == Listed(Finished)
    {
      actions, s := Extend(c, n, actions, s, Look(k));
      actions, s := Extend(c, n, actions, s, Claim(k));
    }
  }

  ghost predicate SettledIsKept(c: Settings, n: nat, run: RunView, actions: seq<Action>, a: Action)
    requires Legal(c, Init(n, run), actions) && Enabled(c, Execute(c, Init(n, run), actions), a)
  {
    var s := Execute(c, Init(n, run), actions);
    !s.reply.status.Pending? ==> Apply(c, s, a).reply.status == s.reply.status
  }

  // Two deliveries overlap on the last attempt; the first succeeds, the second fails and is about to
  // overwrite the reply, sent though it is, as abandoned.
  lemma SentIsAboutToBeAbandoned(c: Settings, n: nat) returns (actions: seq<Action>, s: State)
    requires c.max > 0 && n > 1
    ensures Reached(c, n, actions, s)
    ensures s.reply.status.Sent? && s.reply.attempts >= c.max && |s.phases| == n && s.phases[1] == Delivered(false)
  {
    actions, s := AllListAtTheLastAttempt(c, n);
    actions, s := Extend(c, n, actions, s, Look(0));
    actions, s := Extend(c, n, actions, s, Claim(0));
    actions, s := Extend(c, n, actions, s, Look(1));
    actions, s := Extend(c, n, actions, s, Claim(1));
    actions, s := Extend(c, n, actions, s, Send(0, true));
    actions, s := Extend(c, n, actions, s, Record(0));
    actions, s := Extend(c, n, actions, s, Send(1, false));
  }

  // A settled reply stays as it was settled exactly when a single dispatcher sweeps.
  lemma SettledIsFinalIffOneDispatcher(c: Settings, n: nat)
    requires c.max > 0 && n > 0
    ensures
      (forall run, actions, a | Legal(c, Init(n, run), actions)
                                && Enabled(c, Execute(c, Init(n, run), actions), a) ::
         SettledIsKept(c, n, run, actions, a))
      <==> n == 1
  {
    if n == 1 {
      forall run, actions, a | Legal(c, Init(n, run), actions)
                               && Enabled(c, Execute(c, Init(n, run), actions), a)
        ensures SettledIsKept(c, n, run, actions, a)
      {
        ReachableInv(c, n, run, actions);
      }
    } else {
      var actions, s := SentIsAboutToBeAbandoned(c, n);
      assert !SettledIsKept(c, n, Finished, actions, Record(1));
    }
  }

  // The reply of a parked run is listed for its interim note; the run is resumed before the dispatcher
  // looks, and the person is told that a run still at work has failed.
  lemma PrematureAnswer(c: Settings, n: nat, run: RunView) returns (actions: seq<Action>, s: State)
    requires c.max > 0 && n > 0
    requires run.Working? || run.AwaitingApproval? || (run.Finished? && c.reopens)
    ensures ReachedFrom(c, n, run, actions, s)
    ensures s.run.Working? && s.reply.status.Sent? && s.answers == [Sight(AwaitingApproval, Working)]
  {
    actions, s := [], Init(n, run);
    actions, s := Further(c, n, run, actions, s, World(AwaitingApproval, true));
    actions, s := Further(c, n, run, actions, s, List(0));
    actions, s := Further(c, n, run, actions, s, World(Working, true));
    actions, s := Further(c, n, run, actions, s, Look(0));
    actions, s := Further(c, n, run, actions, s, Claim(0));
    actions, s := Further(c, n, run, actions, s, Send(0, true));
    actions, s := Further(c, n, run, actions, s, Record(0));
  }

  ghost predicate NeverPremature(c: Settings, n: nat, run: RunView) {
    forall actions, i: nat | Legal(c, Init(n, run), actions) && i < |Execute(c, Init(n, run), actions).answers| ::
      Execute(c, Init(n, run), actions).answers[i].looked.Finished?
  }

  // A reply is safe from premature answers exactly when its run is gone, or has finished for good, by the time
  // dispatchers begin to sweep.
  lemma NeverPrematureIffOver(c: Settings, n: nat, run: RunView)
    requires c.max > 0 && n > 0
    ensures NeverPremature(c, n, run) <==> run.Missing? || (run.Finished? && !c.reopens)
  {
    if run.Missing? || (run.Finished? && !c.reopens) {
      forall actions, i: nat | Legal(c, Init(n, run), actions) && i < |Execute(c, Init(n, run), actions).answers|
        ensures Execute(c, Init(n, run), actions).answers[i].looked.Finished?
      {
        OverStays(c, Init(n, run), actions);
      }
    } else {
      var actions, s := PrematureAnswer(c, n, run);
      assert !Execute(c, Init(n, run), actions).answers[0].looked.Finished?;
    }
  }
}
