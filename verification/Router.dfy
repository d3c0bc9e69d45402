// Inbound messages. Webhooks are redelivered until they are acknowledged, deliveries are handled side by side,
// and the process may die after any of the transactions that accept a message: the session lookup, the lookup
// of the run, its insertion, and the record of the reply that is owed. Each transaction is one action.
module Router {
  import opened Options

  type RunId = nat

  datatype Message = Message(routingKey: string, externalId: string, text: string)

  // The text whose digest is the idempotency key. The digest is taken to be injective.
  function DedupeKey(m: Message): string {
    m.routingKey + "|" + if m.externalId != "" then m.externalId else "body:" + m.text
  }

  // What the provider says a message is, or else its text.
  ghost predicate IsIdentity(m: Message, identity: string) {
    identity == if m.externalId == "" then "body:" + m.text else m.externalId
  }

  // The conversation of n is named like that of m, a bar and some text, with which the identity of m begins.
  ghost predicate RunsInto(m: Message, i: string, n: Message, j: string) {
    exists x: string :: n.routingKey == m.routingKey + "|" + x && i == x + "|" + j
  }

  // Two messages have the same key exactly if they are the same message of the same conversation, or, where names of
  // conversations contain a bar, if one runs into the other.
  lemma KeysMeet(m: Message, i: string, n: Message, j: string)
    requires IsIdentity(m, i) && IsIdentity(n, j)
    ensures DedupeKey(m) == DedupeKey(n) <==>
              (m.routingKey == n.routingKey && i == j) || RunsInto(m, i, n, j) || RunsInto(n, j, m, i)
    ensures '|' !in m.routingKey && '|' !in n.routingKey ==>
              (DedupeKey(m) == DedupeKey(n) <==> m.routingKey == n.routingKey && i == j)
  {
    assert DedupeKey(m) == m.routingKey + "|" + i && DedupeKey(n) == n.routingKey + "|" + j;
    BarsMeet(m.routingKey, i, n.routingKey, j);
    if DedupeKey(m) == DedupeKey(n) {
      if |m.routingKey| < |n.routingKey| {
        RunsOn(m.routingKey, i, n.routingKey, j);
      } else if |n.routingKey| < |m.routingKey| {
        RunsOn(n.routingKey, j, m.routingKey, i);
      }
    }
  }

  lemma BarsMeet(a: string, i: string, b: string, j: string)
    ensures a == b && i == j ==> a + "|" + i == b + "|" + j
    ensures |a| == |b| && a + "|" + i == b + "|" + j ==> a == b && i == j
    ensures forall x: string :: a + "|" + (x + "|" + j) == (a + "|" + x) + "|" + j
    ensures forall x: string :: b + "|" + (x + "|" + i) == (b + "|" + x) + "|" + i
  {
    if |a| == |b| && a + "|" + i == b + "|" + j {
      assert a == (a + "|" + i)[..|a|] == (b + "|" + j)[..|b|] == b;
      assert i == (a + "|" + i)[|a| + 1..] == (b + "|" + j)[|b| + 1..] == j;
    }
  }

  // The longer of two such names goes on after the bar of the shorter.
  lemma RunsOn(a: string, i: string, b: string, j: string)
    requires a + "|" + i == b + "|" + j && |a| < |b|
    ensures b[|a|] == '|' && exists x: string :: b == a + "|" + x && i == x + "|" + j
  {
    var key, x := a + "|" + i, b[|a| + 1..];
    assert b == key[..|b|] && a == key[..|a|] == b[..|a|];
    assert b[|a|] == key[|a|] == '|';
    assert i == key[|a| + 1..];
    assert b == a + "|" + x && key == a + "|" + (x + "|" + j);
  }

  // Sessions by conversation; runs by id, each with its idempotency key; the runs that owe a reply.
  datatype Inbox = Inbox(sessions: map<string, nat>, runs: seq<string>, replies: set<RunId>)

  datatype RoutedRun = RoutedRun(run: RunId, session: nat, duplicate: bool)

  // How far a delivery has come. A clear one has found no run of its key and is within the quota.
  datatype Stage =
    | Arrived
    | Bound(session: nat)
    | Clear(session: nat)
    | Submitted(session: nat, run: RunId)
    | Owed(routed: RoutedRun)
    | Returned(routed: RoutedRun)
    | Gone
  {
    // Has recorded the debt, as the first to do so.
    predicate New() { (Owed? || Returned?) && !routed.duplicate }
  }

  datatype State = State(box: Inbox, stages: seq<Stage>)

  // A lookup finds some run of the key if there is one, and otherwise reads whether the quota is used up.
  // A delivery that raises or whose process dies is gone; so is one that loses the race to bind its
  // conversation or to record the reply, which uniqueness constraints decide.
  datatype Action =
    | Bind(d: nat)
    | Look(d: nat, found: Option<RunId>, over: bool)
    | Insert(d: nat)
    | Owe(d: nat)
    | Return(d: nat)
    | Die(d: nat)

  function BindSession(box: Inbox, m: Message): Inbox {
    if m.routingKey in box.sessions then box
    else box.(sessions := box.sessions[m.routingKey := |box.sessions|])
  }

  const EMPTY := Inbox(map[], [], {})

  // Any number of deliveries, of any messages, are going to arrive.
  function Init(ms: seq<Message>): State { State(EMPTY, seq(|ms|, _ => Arrived)) }

  predicate Enabled(ms: seq<Message>, s: State, a: Action) {
    && a.d < |ms| == |s.stages|
    && match a
       case Bind(d) => s.stages[d].Arrived?
       case Look(d, found, _) =>
         && s.stages[d].Bound?
         && (found.Some? ==> HasRun(s.box, ms[d], found.value))
         && (found.None? ==> DedupeKey(ms[d]) !in s.box.runs)
       case Insert(d) => s.stages[d].Clear?
       case Owe(d) => s.stages[d].Submitted?
       case Return(d) => s.stages[d].Owed?
       case Die(d) => !s.stages[d].Returned?
  }

  function Apply(ms: seq<Message>, s: State, a: Action): State
    requires Enabled(ms, s, a)
  {
    var stage := s.stages[a.d];
    match a
    case Bind(d) =>
      var box := BindSession(s.box, ms[d]);
      State(box, s.stages[d := Bound(box.sessions[ms[d].routingKey])])
    case Look(d, found, over) =>
      var seen :=
        if found.Some? then Submitted(stage.session, found.value) else if over then Gone else Clear(stage.session);
      State(s.box, s.stages[d := seen])
    case Insert(d) =>
      State(s.box.(runs := s.box.runs + [DedupeKey(ms[d])]),
            s.stages[d := Submitted(stage.session, |s.box.runs|)])
    case Owe(d) =>
      State(s.box.(replies := s.box.replies + {stage.run}),
            s.stages[d := Owed(RoutedRun(stage.run, stage.session, stage.run in s.box.replies))])
    case Return(d) => State(s.box, s.stages[d := Returned(stage.routed)])
    case Die(d) => State(s.box, s.stages[d := Gone])
  }

  ghost predicate Legal(ms: seq<Message>, s: State, actions: seq<Action>)
    decreases |actions|
  {
    actions == [] || (Enabled(ms, s, actions[0]) && Legal(ms, Apply(ms, s, actions[0]), actions[1..]))
  }

  ghost function Execute(ms: seq<Message>, s: State, actions: seq<Action>): State
    requires Legal(ms, s, actions)
    decreases |actions|
  {
    if actions == [] then s else Execute(ms, Apply(ms, s, actions[0]), actions[1..])
  }

  // ------------------------------------------------------------ what holds however deliveries overlap

  predicate HasSession(box: Inbox, m: Message, session: nat) {
    m.routingKey in box.sessions && box.sessions[m.routingKey] == session
  }

  predicate HasRun(box: Inbox, m: Message, run: RunId) {
    run < |box.runs| && box.runs[run] == DedupeKey(m)
  }

  // What a message's acceptance leaves behind.
  predicate Accepted(box: Inbox, m: Message, routed: RoutedRun) {
    HasSession(box, m, routed.session) && HasRun(box, m, routed.run) && routed.run in box.replies
  }

  predicate OnCourse(box: Inbox, m: Message, stage: Stage) {
    match stage
    case Bound(session) => HasSession(box, m, session)
    case Clear(session) => HasSession(box, m, session)
    case Submitted(session, run) => HasSession(box, m, session) && HasRun(box, m, run)
    case Owed(routed) => Accepted(box, m, routed)
    case Returned(routed) => Accepted(box, m, routed)
    case _ => true
  }

  // Conversations have sessions of their own.
  ghost predicate SessionsApart(sessions: map<string, nat>) {
    && (forall k :: k in sessions ==> sessions[k] < |sessions|)
    && (forall k, l :: k in sessions && l in sessions && sessions[k] == sessions[l] ==> k == l)
  }

  // A run is new to one delivery at most.
  ghost predicate NewOnce(stages: seq<Stage>) {
    forall d, e :: 0 <= d < e < |stages| && stages[d].New() && stages[e].New() ==>
      stages[d].routed.run != stages[e].routed.run
  }

  ghost predicate Inv(ms: seq<Message>, s: State) {
    && |s.stages| == |ms|
    && SessionsApart(s.box.sessions) && NewOnce(s.stages)
    && (forall d :: 0 <= d < |ms| ==> OnCourse(s.box, ms[d], s.stages[d]))
  }

  lemma BindKeepsSessionsApart(box: Inbox, m: Message)
    requires SessionsApart(box.sessions)
    ensures SessionsApart(BindSession(box, m).sessions)
  {
  }

  lemma CourseKept(ms: seq<Message>, s: State, a: Action, d: nat)
    requires Enabled(ms, s, a) && d < |ms| && OnCourse(s.box, ms[d], s.stages[d])
    ensures OnCourse(Apply(ms, s, a).box, ms[d], Apply(ms, s, a).stages[d])
  {
  }

  lemma NewStaysOnce(ms: seq<Message>, s: State, a: Action)
    requires Inv(ms, s) && Enabled(ms, s, a)
    ensures NewOnce(Apply(ms, s, a).stages)
  {
    forall d | 0 <= d < |ms| && s.stages[d].New()
      ensures s.stages[d].routed.run in s.box.replies
    {
      assert OnCourse(s.box, ms[d], s.stages[d]);
    }
  }

  lemma ActionKept(ms: seq<Message>, s: State, a: Action)
    requires Inv(ms, s) && Enabled(ms, s, a)
    ensures Inv(ms, Apply(ms, s, a))
  {
    BindKeepsSessionsApart(s.box, ms[a.d]);
    NewStaysOnce(ms, s, a);
    var s' := Apply(ms, s, a);
    hide NewOnce, OnCourse, SessionsApart;
    forall d | 0 <= d < |ms|
      ensures OnCourse(s'.box, ms[d], s'.stages[d])
    {
      CourseKept(ms, s, a, d);
    }
  }

  lemma {:induction false} InvHolds(ms: seq<Message>, s: State, actions: seq<Action>)
    requires Inv(ms, s) && Legal(ms, s, actions)
    ensures Inv(ms, Execute(ms, s, actions))
    decreases |actions|
  {
    if actions != [] {
      ActionKept(ms, s, actions[0]);
      InvHolds(ms, Apply(ms, s, actions[0]), actions[1..]);
    }
  }

  // Every delivery that returned normally has left its run and the debt of a reply behind, in the session of its
  // conversation, which no other conversation shares; and a run is reported as new at most once.
  lemma ReturnsAreHonest(ms: seq<Message>, actions: seq<Action>, d: nat, e: nat)
    requires Legal(ms, Init(ms), actions) && d < |ms| && e < |ms|
    ensures
      var s := Execute(ms, Init(ms), actions);
      && |s.stages| == |ms|
      && (s.stages[d].Returned? ==> Accepted(s.box, ms[d], s.stages[d].routed))
      && (s.stages[d].Returned? && s.stages[e].Returned? ==>
            (s.stages[d].routed.session == s.stages[e].routed.session <==> ms[d].routingKey == ms[e].routingKey))
      && (d != e && s.stages[d].Returned? && s.stages[e].Returned?
          && s.stages[d].routed.run == s.stages[e].routed.run ==>
            s.stages[d].routed.duplicate || s.stages[e].routed.duplicate)
  {
    InvHolds(ms, Init(ms), actions);
    var s := Execute(ms, Init(ms), actions);
    assert OnCourse(s.box, ms[d], s.stages[d]) && OnCourse(s.box, ms[e], s.stages[e]);
    var i, j := if d < e then d else e, if d < e then e else d;
    assert i < j && s.stages[i].New() && s.stages[j].New() ==> s.stages[i].routed.run != s.stages[j].routed.run;
  }

  // ------------------------------------------------------------ how many runs a key gets

  function RunsOf(runs: seq<string>, key: string): nat {
    if runs == [] then 0
    else RunsOf(runs[..|runs| - 1], key) + if runs[|runs| - 1] == key then 1 else 0
  }

  predicate IsBetween(m: Message, stage: Stage, key: string) { stage.Clear? && DedupeKey(m) == key }

  // How many deliveries of a key are between their lookup and their insertion.
  function Between(ms: seq<Message>, stages: seq<Stage>, key: string): nat
    requires |ms| == |stages|
  {
    if ms == [] then 0
    else Between(ms[1..], stages[1..], key) + if IsBetween(ms[0], stages[0], key) then 1 else 0
  }

  // The most there are at any one time.
  ghost function Peak(ms: seq<Message>, s: State, actions: seq<Action>, key: string): nat
    requires |ms| == |s.stages| && Legal(ms, s, actions)
    decreases |actions|
  {
    var now := Between(ms, s.stages, key);
    if actions == [] then now
    else
      var later := Peak(ms, Apply(ms, s, actions[0]), actions[1..], key);
      if now > later then now else later
  }

  lemma {:induction false} BetweenSet(ms: seq<Message>, stages: seq<Stage>, key: string, d: nat, stage: Stage)
    requires |ms| == |stages| && d < |ms|
    ensures Between(ms, stages[d := stage], key)
            == Between(ms, stages, key) - (if IsBetween(ms[d], stages[d], key) then 1 else 0)
               + (if IsBetween(ms[d], stage, key) then 1 else 0)
  {
    if d == 0 {
      assert stages[d := stage][1..] == stages[1..];
    } else {
      BetweenSet(ms[1..], stages[1..], key, d - 1, stage);
      assert stages[d := stage][1..] == stages[1..][d - 1 := stage];
    }
  }

  lemma {:induction false} NoRuns(runs: seq<string>, key: string)
    ensures RunsOf(runs, key) == 0 <==> key !in runs
  {
    if runs != [] {
      NoRuns(runs[..|runs| - 1], key);
      assert runs == runs[..|runs| - 1] + [runs[|runs| - 1]];
    }
  }

  lemma RunsOfMore(runs: seq<string>, more: string, key: string)
    ensures RunsOf(runs + [more], key) == RunsOf(runs, key) + if more == key then 1 else 0
  {
    assert (runs + [more])[..|runs|] == runs;
  }

  lemma {:induction false} TwoRuns(runs: seq<string>, key: string, r: RunId, q: RunId)
    requires r < q < |runs| && runs[r] == key && runs[q] == key
    ensures RunsOf(runs, key) >= 2
  {
    var rest := runs[..|runs| - 1];
    if q == |rest| {
      assert rest[r] == key;
      NoRuns(rest, key);
    } else {
      TwoRuns(rest, key, r, q);
    }
  }

  // Runs and deliveries about to insert one never get more than w together, once there is a run.
  ghost predicate Crowd(ms: seq<Message>, s: State, key: string, w: nat)
    requires |ms| == |s.stages|
  {
    RunsOf(s.box.runs, key) > 0 ==> RunsOf(s.box.runs, key) + Between(ms, s.stages, key) <= w
  }

  lemma CrowdKept(ms: seq<Message>, s: State, a: Action, key: string, w: nat)
    requires |ms| == |s.stages| && Enabled(ms, s, a)
    requires Crowd(ms, s, key, w) && Between(ms, s.stages, key) <= w
    ensures Crowd(ms, Apply(ms, s, a), key, w)
  {
    BetweenSet(ms, s.stages, key, a.d, Apply(ms, s, a).stages[a.d]);
    NoRuns(s.box.runs, key);
    RunsOfMore(s.box.runs, DedupeKey(ms[a.d]), key);
  }

  lemma {:induction false} CrowdHolds(ms: seq<Message>, s: State, actions: seq<Action>, key: string, w: nat)
    requires |ms| == |s.stages| && Legal(ms, s, actions)
    requires Crowd(ms, s, key, w) && Peak(ms, s, actions, key) <= w
    ensures RunsOf(Execute(ms, s, actions).box.runs, key) <= w
    decreases |actions|
  {
    if actions != [] {
      CrowdKept(ms, s, actions[0], key, w);
      CrowdHolds(ms, Apply(ms, s, actions[0]), actions[1..], key, w);
    }
  }

  // A key never gets more runs than deliveries of it were between lookup and insertion at one time.
  lemma RunsPerKeyAreBounded(ms: seq<Message>, actions: seq<Action>, key: string)
    requires Legal(ms, Init(ms), actions)
    ensures RunsOf(Execute(ms, Init(ms), actions).box.runs, key) <= Peak(ms, Init(ms), actions, key)
  {
    CrowdHolds(ms, Init(ms), actions, key, Peak(ms, Init(ms), actions, key));
  }

  // Where no two deliveries of a key are between lookup and insertion together, redeliveries and crashes make no
  // difference: the key has one run at most, every delivery that returned names it, and one at most calls it new.
  lemma InboundIsIdempotent(ms: seq<Message>, actions: seq<Action>, key: string)
    requires Legal(ms, Init(ms), actions) && Peak(ms, Init(ms), actions, key) <= 1
    ensures
      var s := Execute(ms, Init(ms), actions);
      && |s.stages| == |ms|
      && (forall r, q :: 0 <= r < q < |s.box.runs| ==> s.box.runs[r] != key || s.box.runs[q] != key)
      && (forall d, e :: 0 <= d < e < |ms| && DedupeKey(ms[d]) == key && DedupeKey(ms[e]) == key
                         && s.stages[d].Returned? && s.stages[e].Returned? ==>
            s.stages[d].routed.run == s.stages[e].routed.run
            && (s.stages[d].routed.duplicate || s.stages[e].routed.duplicate))
  {
    RunsPerKeyAreBounded(ms, actions, key);
    InvHolds(ms, Init(ms), actions);
    var s := Execute(ms, Init(ms), actions);
    forall r, q | 0 <= r < q < |s.box.runs|
      ensures s.box.runs[r] != key || s.box.runs[q] != key
    {
      if s.box.runs[r] == key && s.box.runs[q] == key {
        TwoRuns(s.box.runs, key, r, q);
      }
    }
    forall d, e | 0 <= d < e < |ms| && DedupeKey(ms[d]) == key && DedupeKey(ms[e]) == key
                  && s.stages[d].Returned? && s.stages[e].Returned?
      ensures s.stages[d].routed.run == s.stages[e].routed.run
              && (s.stages[d].routed.duplicate || s.stages[e].routed.duplicate)
    {
      ReturnsAreHonest(ms, actions, d, e);
    }
  }

  // ------------------------------------------------------------ the bound is the best one

  lemma {:induction false} Further(ms: seq<Message>, s: State, actions: seq<Action>, a: Action, key: string)
    requires |ms| == |s.stages| && Legal(ms, s, actions) && Enabled(ms, Execute(ms, s, actions), a)
    ensures Legal(ms, s, actions + [a])
    ensures Execute(ms, s, actions + [a]) == Apply(ms, Execute(ms, s, actions), a)
    ensures |Execute(ms, s, actions + [a]).stages| == |ms|
    ensures
      var before := Peak(ms, s, actions, key);
      var now := Between(ms, Execute(ms, s, actions + [a]).stages, key);
      Peak(ms, s, actions + [a], key) == if before > now then before else now
    decreases |actions|
  {
    if actions != [] {
      Further(ms, Apply(ms, s, actions[0]), actions[1..], a, key);
      assert (actions + [a])[1..] == actions[1..] + [a];
    } else {
      assert (actions + [a])[1..] == [];
    }
  }

  // `s` can be reached by w deliveries of one message without more than `peak` of them between.
  ghost predicate Reached(m: Message, w: nat, actions: seq<Action>, s: State, peak: nat) {
    var ms := seq(w, _ => m);
    && Legal(ms, Init(ms), actions) && Execute(ms, Init(ms), actions) == s
    && Peak(ms, Init(ms), actions, DedupeKey(m)) == peak
    && |s.stages| == w
  }

  lemma Extend(m: Message, w: nat, actions: seq<Action>, s: State, peak: nat, a: Action)
    returns (longer: seq<Action>, s': State, peak': nat)
    requires Reached(m, w, actions, s, peak) && Enabled(seq(w, _ => m), s, a)
    ensures s' == Apply(seq(w, _ => m), s, a) && Reached(m, w, longer, s', peak')
    ensures
      var now := Between(seq(w, _ => m), s.stages, DedupeKey(m))
                 - (if s.stages[a.d].Clear? then 1 else 0) + (if s'.stages[a.d].Clear? then 1 else 0);
      && now == Between(seq(w, _ => m), s'.stages, DedupeKey(m))
      && peak' == if peak > now then peak else now
  {
    var ms := seq(w, _ => m);
    Further(ms, Init(ms), actions, a, DedupeKey(m));
    BetweenSet(ms, s.stages, DedupeKey(m), a.d, Apply(ms, s, a).stages[a.d]);
    longer, s' := actions + [a], Apply(ms, s, a);
    peak' := Peak(ms, Init(ms), longer, DedupeKey(m));
  }

  lemma {:induction false} NoneBetween(ms: seq<Message>, stages: seq<Stage>, key: string)
    requires |ms| == |stages| && forall d :: 0 <= d < |ms| ==> !stages[d].Clear?
    ensures Between(ms, stages, key) == 0
  {
    if ms != [] {
      NoneBetween(ms[1..], stages[1..], key);
    }
  }

  // With w deliveries between lookup and insertion at once, a key does get w runs.
  lemma BoundIsReached(m: Message, w: nat) returns (actions: seq<Action>)
    ensures
      var ms := seq(w, _ => m);
      && Legal(ms, Init(ms), actions) && Peak(ms, Init(ms), actions, DedupeKey(m)) == w
      && RunsOf(Execute(ms, Init(ms), actions).box.runs, DedupeKey(m)) == w
  {
    var ms, key := seq(w, _ => m), DedupeKey(m);
    var s, peak := Init(ms), 0;
    actions := [];
    NoneBetween(ms, s.stages, key);
    for d := 0 to w
      invariant Reached(m, w, actions, s, peak) && s.box.runs == []
      invariant forall e :: 0 <= e < w ==> if e < d then s.stages[e].Clear? else s.stages[e].Arrived?
      invariant Between(ms, s.stages, key) == peak == d
    {
      actions, s, peak := Extend(m, w, actions, s, peak, Bind(d));
      actions, s, peak := Extend(m, w, actions, s, peak, Look(d, None, false));
    }
    for d := 0 to w
      invariant Reached(m, w, actions, s, peak) && peak == w
      invariant RunsOf(s.box.runs, key) == d && Between(ms, s.stages, key) == w - d
      invariant forall e :: d <= e < w ==> s.stages[e].Clear?
    {
      RunsOfMore(s.box.runs, key, key);
      actions, s, peak := Extend(m, w, actions, s, peak, Insert(d));
    }
  }

  // One run per key is what a deployment gets exactly when it lets no two deliveries of a key be between lookup
  // and insertion together.
  lemma OneRunPerKeyIffWindowOne(w: nat)
    ensures
      (forall ms, actions, key | Legal(ms, Init(ms), actions) && Peak(ms, Init(ms), actions, key) <= w ::
         RunsOf(Execute(ms, Init(ms), actions).box.runs, key) <= 1)
      <==> w <= 1
  {
    if w <= 1 {
      forall ms, actions, key | Legal(ms, Init(ms), actions) && Peak(ms, Init(ms), actions, key) <= w
        ensures RunsOf(Execute(ms, Init(ms), actions).box.runs, key) <= 1
      {
        RunsPerKeyAreBounded(ms, actions, key);
      }
    } else {
      var m := Message("", "", "");
      var actions := BoundIsReached(m, w);
      assert Peak(seq(w, _ => m), Init(seq(w, _ => m)), actions, DedupeKey(m)) <= w;
    }
  }
}
