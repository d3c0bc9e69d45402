// The sweep of one dispatcher, written as the source writes it, among other dispatchers that act between
// any two of its database sessions. It is proved to be a legal run of the dispatch machine.
module DispatchStore {
  import opened Dispatch

  // The action is one of this dispatcher.
  predicate By(a: Action, d: nat) { !a.World? && a.d == d }

  // What dispatcher d did among these actions.
  ghost function Own(actions: seq<Action>, d: nat): seq<Action> {
    if actions == [] then []
    else
      var last := actions[|actions| - 1];
      Own(actions[..|actions| - 1], d) + if By(last, d) then [last] else []
  }

  // What a dispatcher who has listed the reply does when it settles it, after looking at it in that state: nothing, if
  // it is settled, or waits with its note sent; it gives the reply up if the run or the channel is gone; otherwise it
  // claims the delivery, and if it wins it sends, and records a final delivery.
  ghost function Course(d: nat, reply: Reply, run: RunView, channel: bool, won: bool, ok: bool): seq<Action> {
    [Look(d)]
    + if !reply.status.Pending? then []
      else if run.Missing? then [Forsake(d)]
      else if run.AwaitingApproval? && reply.interimSent then []
      else if !channel then [GiveUpChannel(d)]
      else if !won then [Claim(d)]
      else if run.AwaitingApproval? then [Claim(d), Send(d, ok)]
      else [Claim(d), Send(d, ok), Record(d)]
  }

  // What a settling leaves behind when nobody else acts meanwhile.
  predicate SettledAlone(max: nat, before: Reply, run: RunView, channel: bool, ok: bool, after: Reply, sent: nat) {
    if !before.status.Pending? then after == before && sent == 0
    else if run.Missing? then after == Reply(Abandoned, before.attempts, before.interimSent) && sent == 0
    else if run.AwaitingApproval? && before.interimSent then after == before && sent == 0
    else if !channel then after == Reply(Abandoned, before.attempts, before.interimSent) && sent == 0
    else if run.AwaitingApproval? then
      after == Reply(Pending, before.attempts, true) && sent == if ok then 1 else 0
    else if ok then after == Reply(Sent, before.attempts + 1, before.interimSent) && sent == 1
    else if before.attempts + 1 >= max then
      after == Reply(Abandoned, before.attempts + 1, before.interimSent) && sent == 0
    else after == Reply(Pending, before.attempts + 1, before.interimSent) && sent == 0
  }

  class ReplyTable {
    const settings: Settings
    var reply: Reply
    var run: RunView
    var configured: bool
    var phases: seq<Phase>
    var finals: seq<nat>
    var notes: nat
    var answers: seq<Sight>
    // What the others do at each await; any schedule at all.
    var schedule: seq<seq<Action>>
    ghost const start: State
    ghost var history: seq<Action>

    function View(): State reads this {
      State(reply, run, configured, phases, finals, notes, answers)
    }

    ghost predicate Valid() reads this {
      Legal(settings, start, history) && Execute(settings, start, history) == View()
    }

    constructor (settings: Settings, dispatchers: nat, run: RunView, schedule: seq<seq<Action>>)
      ensures Valid() && View() == Init(dispatchers, run) && start == View()
    {
      var s := Init(dispatchers, run);
      this.settings, this.schedule := settings, schedule;
      this.reply, this.run, this.configured, this.phases := s.reply, s.run, s.configured, s.phases;
      this.finals, this.notes, this.answers := s.finals, s.notes, s.answers;
      this.start := s;
      this.history := [];
    }

    method Perform(a: Action)
      requires Valid() && Enabled(settings, View(), a)
      modifies this
      ensures Valid() && View() == Apply(settings, old(View()), a)
      ensures history == old(history) + [a] && schedule == old(schedule)
      ensures forall d :: Own(history, d) == Own(old(history), d) + if By(a, d) then [a] else []
    {
      ExecuteAppend(settings, start, history, a);
      assert (history + [a])[..|history|] == history;
      var s := Apply(settings, View(), a);
      reply, run, configured, phases := s.reply, s.run, s.configured, s.phases;
      finals, notes, answers := s.finals, s.notes, s.answers;
      history := history + [a];
    }

    // The others act: any batch of actions that are not dispatcher d's.
    method Await(d: nat)
      requires Valid() && d < |phases|
      modifies this
      ensures Valid() && Own(history, d) == Own(old(history), d) && old(history) <= history
      ensures d < |phases| && phases[d] == old(phases[d])
      ensures old(schedule) == [] ==> schedule == [] && View() == old(View()) && history == old(history)
    {
      if schedule == [] {
        return;
      }
      var batch := schedule[0];
      schedule := schedule[1..];
      for i := 0 to |batch|
        invariant Valid() && Own(history, d) == Own(old(history), d) && old(history) <= history
        invariant d < |phases| && phases[d] == old(phases[d])
      {
        hide Valid, Own;
        Admit(batch[i], d);
      }
    }

    // One action of somebody else, if it may happen.
    method Admit(a: Action, d: nat)
      requires Valid() && d < |phases|
      modifies this
      ensures Valid() && Own(history, d) == Own(old(history), d) && old(history) <= history
      ensures d < |phases| && phases[d] == old(phases[d])
    {
      if !By(a, d) && Enabled(settings, View(), a) {
        hide Legal, Execute, Own;
        Perform(a);
      }
    }

    // Whatever the history has that is not of dispatcher d.
    ghost function Others(d: nat): int reads this { |history| - |Own(history, d)| }

    // Takes ownership of one delivery: bumping the token in the statement that filters on it, so that
    // of two dispatchers with the same token only one wins.
    method ClaimDelivery(d: nat) returns (won: bool)
      requires Valid() && d < |phases| && phases[d].Looked? && configured
      modifies this
      ensures Valid() && history == old(history) + [Claim(d)] && d < |phases| && schedule == old(schedule)
      ensures Own(history, d) == Own(old(history), d) + [Claim(d)]
      ensures won == Wins(old(reply), old(phases[d]).token, old(phases[d]).interim)
      ensures won ==> phases[d] == Claimed(old(phases[d]).token, old(phases[d]).interim, old(phases[d]).sight)
      ensures !won ==> phases[d].Idle? && reply == old(reply)
      ensures won && !old(phases[d]).interim ==>
                reply == old(reply).(attempts := old(reply).attempts + 1)
      ensures won && old(phases[d]).interim ==> reply == old(reply).(interimSent := true)
    {
      won := Wins(reply, phases[d].token, phases[d].interim);
      Perform(Claim(d));
    }

    // Settles the reply, if there is something to deliver; `ok` is what the channel answers. Returns how many messages
    // went out. Whether the channel was configured and the claim won is what it found when it got there.
    method Settle(d: nat, ok: bool) returns (sent: nat, ghost channel: bool, ghost won: bool)
      requires Valid() && d < |phases| && phases[d].Listed?
      modifies this
      ensures Valid() && old(history) <= history && d < |phases| && phases[d].Idle?
      ensures Own(history, d) == Own(old(history), d) + Course(d, old(reply), old(run), channel, won, ok)
      ensures sent == if Send(d, true) in Course(d, old(reply), old(run), channel, won, ok) then 1 else 0
      ensures old(schedule) == [] ==>
                && schedule == [] && Others(d) == old(Others(d))
                && SettledAlone(settings.max, old(reply), old(run), old(configured), ok, reply, sent)
    {
      hide Legal, Execute, Own;
      channel, won, sent := false, false, 0;
      Perform(Look(d));
      if phases[d].Idle? {
        return;
      }
      Await(d);
      if phases[d].Stranded? {
        Perform(Forsake(d));
        return;
      }
      if !configured {
        Perform(GiveUpChannel(d));
        return;
      }
      channel := true;
      var claimed := ClaimDelivery(d);
      won := claimed;
      if claimed {
        sent := Deliver(d, ok);
      }
    }

    // The send behind a claim, and the record of how it went.
    method Deliver(d: nat, ok: bool) returns (sent: nat)
      requires Valid() && d < |phases| && phases[d].Claimed?
      modifies this
      ensures Valid() && old(history) <= history && d < |phases| && phases[d].Idle?
      ensures sent == if ok then 1 else 0
      ensures Own(history, d)
              == Own(old(history), d) + if old(phases[d]).interim then [Send(d, ok)] else [Send(d, ok), Record(d)]
      ensures old(schedule) == [] ==>
                && schedule == [] && Others(d) == old(Others(d))
                && reply == if old(phases[d]).interim then old(reply)
                            else if ok then old(reply).(status := Sent)
                            else if old(reply).attempts >= settings.max then old(reply).(status := Abandoned)
                            else old(reply)
    {
      hide Legal, Execute, Own;
      Await(d);
      var interim := phases[d].interim;
      Perform(Send(d, ok));
      sent := if ok then 1 else 0;
      if !interim {
        Await(d);
        Perform(Record(d));
      }
    }

    // One sweep, as far as it concerns this reply: nothing unless the reply is due, and then it is settled as it stands
    // after others have acted.
    method SweepOnce(d: nat, ok: bool)
      returns (sent: nat, ghost seen: (Reply, RunView), ghost channel: bool, ghost won: bool)
      requires Valid() && d < |phases| && phases[d].Idle?
      modifies this
      ensures Valid() && old(history) <= history && d < |phases| && phases[d].Idle?
      ensures
        if old(reply).status.Pending? && old(reply).attempts < settings.max && !old(run).Working? then
          && Own(history, d) == Own(old(history), d) + [List(d)] + Course(d, seen.0, seen.1, channel, won, ok)
          && sent == if Send(d, true) in Course(d, seen.0, seen.1, channel, won, ok) then 1 else 0
        else View() == old(View()) && history == old(history) && sent == 0
      ensures old(schedule) == [] ==>
                && schedule == [] && Others(d) == old(Others(d)) && seen == (old(reply), old(run))
                && (old(reply).status.Pending? && old(reply).attempts < settings.max && !old(run).Working? ==>
                      SettledAlone(settings.max, old(reply), old(run), old(configured), ok, reply, sent))
    {
      hide Legal, Execute, Own;
      sent, channel, won, seen := 0, false, false, (reply, run);
      if reply.status.Pending? && reply.attempts < settings.max && !run.Working? {
        Perform(List(d));
        Await(d);
        seen := (reply, run);
        sent, channel, won := Settle(d, ok);
      }
    }
  }
}
