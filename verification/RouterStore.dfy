// The intake of one message, written as the source writes it, among deliveries that act between any two of its
// database sessions. It is proved to be a legal run of the machine of Router.
module RouterStore {
  import opened Options
  import opened Router

  function RunOf(runs: seq<string>, key: string): (r: Option<RunId>)
    ensures r.Some? ==> r.value < |runs| && runs[r.value] == key
    ensures r.None? ==> key !in runs
  {
    if runs == [] then None
    else if runs[0] == key then Some(0)
    else
      var later := RunOf(runs[1..], key);
      if later.None? then None else Some(later.value + 1)
  }

  // What delivery d did among these actions.
  ghost function Own(actions: seq<Action>, d: nat): seq<Action> {
    if actions == [] then []
    else
      var last := actions[|actions| - 1];
      Own(actions[..|actions| - 1], d) + if last.d == d then [last] else []
  }

  // Nothing that was accepted is ever taken back.
  ghost predicate Grows(box: Inbox, later: Inbox) {
    && box.runs <= later.runs && box.replies <= later.replies
    && (forall k :: k in box.sessions ==> k in later.sessions && later.sessions[k] == box.sessions[k])
  }

  class Tables {
    const messages: seq<Message>
    var sessions: map<string, nat>
    var runs: seq<string>
    var replies: set<RunId>
    var stages: seq<Stage>
    // What the other deliveries do at each await; any schedule at all.
    var schedule: seq<seq<Action>>
    ghost var history: seq<Action>

    function Box(): Inbox reads this { Inbox(sessions, runs, replies) }

    function View(): State reads this { State(Box(), stages) }

    ghost predicate Valid() reads this {
      && Legal(messages, Init(messages), history) && Execute(messages, Init(messages), history) == View()
      && |stages| == |messages|
    }

    constructor (messages: seq<Message>, schedule: seq<seq<Action>>)
      ensures Valid() && View() == Init(messages) && this.messages == messages && history == []
    {
      this.messages, this.schedule, this.history := messages, schedule, [];
      sessions, runs, replies := map[], [], {};
      stages := seq(|messages|, _ => Arrived);
    }

    // Nothing but the addition of one action to the history.
    method Perform(a: Action)
      requires Valid() && Enabled(messages, View(), a)
      modifies this
      ensures Valid() && View() == Apply(messages, old(View()), a)
      ensures history == old(history) + [a] && schedule == old(schedule)
      ensures Own(history, a.d) == Own(old(history), a.d) + [a]
      ensures Grows(old(Box()), Box())
    {
      Further(messages, Init(messages), history, a, "");
      assert (history + [a])[..|history|] == history;
      var s := Apply(messages, View(), a);
      sessions, runs, replies, stages := s.box.sessions, s.box.runs, s.box.replies, s.stages;
      history := history + [a];
    }

    // The others act: any batch of actions that are not delivery d's.
    method Await(d: nat)
      requires Valid() && d < |stages|
      modifies this
      ensures Valid() && stages[d] == old(stages[d]) && Own(history, d) == Own(old(history), d)
      ensures Grows(old(Box()), Box())
    {
      if schedule == [] {
        return;
      }
      var batch := schedule[0];
      schedule := schedule[1..];
      for i := 0 to |batch|
        invariant Valid() && stages[d] == old(stages[d]) && Own(history, d) == Own(old(history), d)
        invariant Grows(old(Box()), Box())
      {
        if batch[i].d != d && Enabled(messages, View(), batch[i]) {
          ghost var before := history;
          Perform(batch[i]);
          assert history[..|before|] == before;
        }
      }
    }

    // The conversation's session, created on first use.
    method SessionFor(d: nat) returns (session: nat)
      requires Valid() && d < |stages| && stages[d].Arrived?
      modifies this
      ensures Valid() && stages == old(stages)[d := Bound(session)]
      ensures Own(history, d) == Own(old(history), d) + [Bind(d)]
      ensures Box() == BindSession(old(Box()), messages[d]) && HasSession(Box(), messages[d], session)
    {
      Perform(Bind(d));
      session := sessions[messages[d].routingKey];
    }

    // True exactly when no reply was owed for the run before.
    method OweReply(d: nat) returns (recorded: bool)
      requires Valid() && d < |stages| && stages[d].Submitted?
      modifies this
      ensures Valid() && Own(history, d) == Own(old(history), d) + [Owe(d)]
      ensures Box() == old(Box()).(replies := old(replies) + {old(stages[d]).run})
      ensures recorded <==> old(stages[d]).run !in old(replies)
      ensures stages == old(stages)[d := Owed(RoutedRun(old(stages[d]).run, old(stages[d]).session, !recorded))]
    {
      recorded := stages[d].run !in replies;
      Perform(Owe(d));
    }

    // The first run of the key, if there is one.
    method FindRun(key: string) returns (found: Option<RunId>)
      ensures found == RunOf(runs, key)
    {
      for i := 0 to |runs|
        invariant key !in runs[..i]
        invariant RunOf(runs, key) ==
                  if RunOf(runs[i..], key).None? then None else Some(RunOf(runs[i..], key).value + i)
      {
        assert runs[i..][1..] == runs[i + 1..];
        if runs[i] == key {
          return Some(i);
        }
      }
      found := None;
    }

    // A retried submission returns the original run; a new one is inserted in a transaction of its own,
    // after others have had the time to insert theirs.
    method SubmitMessage(d: nat, overQuota: bool) returns (run: Option<RunId>)
      requires Valid() && d < |stages| && stages[d].Bound?
      modifies this
      ensures Valid() && d < |stages| && Grows(old(Box()), Box())
      ensures
        var existing := RunOf(old(runs), DedupeKey(messages[d]));
        var look := Look(d, existing, overQuota);
        if existing.Some? then
          run == existing && Box() == old(Box()) && Own(history, d) == Own(old(history), d) + [look]
        else if overQuota then
          run.None? && Box() == old(Box()) && Own(history, d) == Own(old(history), d) + [look]
        else
          && run.Some? && |old(runs)| <= run.value == |runs| - 1
          && Own(history, d) == Own(old(history), d) + [look, Insert(d)]
      ensures run.Some? ==>
                stages[d] == Submitted(old(stages[d]).session, run.value) && HasRun(Box(), messages[d], run.value)
      ensures run.None? ==> stages[d].Gone?
    {
      run := FindRun(DedupeKey(messages[d]));
      Perform(Look(d, run, overQuota));
      if run.None? && !overQuota {
        Await(d);
        run := Some(|runs|);
        Perform(Insert(d));
      }
    }

    // What a delivery of this message does from its arrival to its return, or to the quota's refusal.
    static ghost function Course(d: nat, found: Option<RunId>, over: bool): seq<Action> {
      [Bind(d), Look(d, found, over)]
      + if found.None? && over then [] else (if found.None? then [Insert(d)] else []) + [Owe(d), Return(d)]
    }

    // One delivery. `found` is the run its lookup found.
    method HandleInbound(d: nat, overQuota: bool) returns (routed: Option<RoutedRun>, ghost found: Option<RunId>)
      requires Valid() && d < |stages| && stages[d].Arrived?
      modifies this
      ensures Valid() && d < |stages| && Grows(old(Box()), Box())
      ensures Own(history, d) == Own(old(history), d) + Course(d, found, overQuota)
      ensures routed.None? <==> found.None? && overQuota
      ensures routed.None? ==> stages[d].Gone?
      ensures routed.Some? ==> stages[d] == Returned(routed.value) && Accepted(Box(), messages[d], routed.value)
    {
      hide Legal, Execute, Own, Enabled, Apply, RunOf, Init, Valid;
      var session := SessionFor(d);
      Await(d);
      found := RunOf(runs, DedupeKey(messages[d]));
      var run := SubmitMessage(d, overQuota);
      if run.None? {
        return None, found;
      }
      Await(d);
      var accepted := Acknowledge(d);
      routed := Some(accepted);
    }

    // The debt is recorded, and the delivery returns.
    method Acknowledge(d: nat) returns (routed: RoutedRun)
      requires Valid() && d < |stages| && stages[d].Submitted? && OnCourse(Box(), messages[d], stages[d])
      modifies this
      ensures Valid() && d < |stages| && Grows(old(Box()), Box())
      ensures Own(history, d) == Own(old(history), d) + [Owe(d), Return(d)]
      ensures stages[d] == Returned(routed) && Accepted(Box(), messages[d], routed)
      ensures routed == RoutedRun(old(stages[d]).run, old(stages[d]).session, old(stages[d]).run in old(replies))
    {
      var run, session := stages[d].run, stages[d].session;
      var recorded := OweReply(d);
      Await(d);
      Perform(Return(d));
      routed := RoutedRun(run, session, !recorded);
    }
  }
}
