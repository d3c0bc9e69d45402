// The circuit breaker as a summary of its history, and calls under retry and breaker. Times and delays are
// real seconds.
module Breaker {
  import opened Options

  // What happened to a breaker: a call asked whether it may go ahead, or an outcome was recorded.
  datatype Event = Asked(at: real) | Succeeded(at: real) | Failed(at: real)

  // At least this many failures open the circuit; one always suffices for a threshold below one.
  function Enough(threshold: int): int { if threshold < 1 then 1 else threshold }

  // The failures recorded since the last success.
  function Failures(history: seq<Event>): nat {
    if history == [] then 0
    else
      var n := |history| - 1;
      match history[n]
      case Asked(_) => Failures(history[..n])
      case Succeeded(_) => 0
      case Failed(_) => Failures(history[..n]) + 1
  }

  predicate Tripped(threshold: int, history: seq<Event>) { Failures(history) >= Enough(threshold) }

  // The breaker's settings.
  datatype Settings = Settings(threshold: int, recovery: real)

  // When the circuit was last opened, while it is not closed: by the failure that was enough, or by a failure
  // after a trial call was let through.
  ghost function LastOpening(c: Settings, history: seq<Event>): (at: Option<real>)
    ensures at.Some? <==> Tripped(c.threshold, history)
    decreases |history|, 1
  {
    if history == [] then None
    else
      var n := |history| - 1;
      var before := history[..n];
      match history[n]
      case Asked(_) => LastOpening(c, before)
      case Succeeded(_) => None
      case Failed(at) =>
        if !Tripped(c.threshold, history) then None
        else if !Tripped(c.threshold, before) || OnTrial(c, before) then Some(at)
        else LastOpening(c, before)
  }

  // Was a trial call let through since the last recorded outcome?
  ghost predicate OnTrial(c: Settings, history: seq<Event>)
    decreases |history|, 0
  {
    history != [] &&
    var n := |history| - 1;
    history[n].Asked? && (OnTrial(c, history[..n])
                          || (Tripped(c.threshold, history[..n]) && Admits(c, history[..n], history[n].at)))
  }

  // Is a call admitted at that time?
  ghost predicate Admits(c: Settings, history: seq<Event>, now: real)
    decreases |history|, 2
  {
    Tripped(c.threshold, history) ==> now - LastOpening(c, history).value >= c.recovery
  }

  ghost predicate Monotone(history: seq<Event>) {
    forall i, j :: 0 <= i <= j < |history| ==> history[i].at <= history[j].at
  }

  // ------------------------------------------------------------ the recovery period

  lemma {:induction false} OpeningIsPast(c: Settings, history: seq<Event>, i: nat)
    requires Monotone(history) && i < |history|
    requires Tripped(c.threshold, history[..i + 1])
    requires forall k :: i < k < |history| ==> !history[k].Succeeded?
    ensures Tripped(c.threshold, history)
    ensures LastOpening(c, history).value >= LastOpening(c, history[..i + 1]).value
    ensures LastOpening(c, history).value <= history[|history| - 1].at
    decreases |history|
  {
    var n := |history| - 1;
    if i == n {
      assert history[..i + 1] == history;
      OpeningInHistory(c, history);
    } else {
      assert history[..n][..i + 1] == history[..i + 1];
      OpeningIsPast(c, history[..n], i);
    }
  }

  lemma {:induction false} OpeningInHistory(c: Settings, history: seq<Event>)
    requires Monotone(history) && Tripped(c.threshold, history)
    ensures LastOpening(c, history).value <= history[|history| - 1].at
    decreases |history|
  {
    var n := |history| - 1;
    if Tripped(c.threshold, history[..n]) {
      OpeningInHistory(c, history[..n]);
    }
  }

  // The circuit is opened by failures only.
  lemma {:induction false} OpeningIsFailure(c: Settings, history: seq<Event>)
    requires Tripped(c.threshold, history)
    ensures exists i :: 0 <= i < |history| && history[i] == Failed(LastOpening(c, history).value)
    decreases |history|
  {
    var n := |history| - 1;
    var before := history[..n];
    if LastOpening(c, history) == LastOpening(c, before) && Tripped(c.threshold, before) {
      OpeningIsFailure(c, before);
      var i :| 0 <= i < |before| && before[i] == Failed(LastOpening(c, before).value);
      assert history[i] == before[i];
    } else {
      assert history[n] == Failed(LastOpening(c, history).value);
    }
  }

  // Whoever asks is admitted once the recovery period is over since every failure that was recorded, and at any time
  // while too few failures were recorded since the last success.
  lemma AdmittedOnceRecovered(c: Settings, history: seq<Event>, now: real)
    requires Failures(history) < Enough(c.threshold)
             || forall i :: 0 <= i < |history| && history[i].Failed? ==> now >= history[i].at + c.recovery
    ensures Admits(c, history, now)
  {
    if Tripped(c.threshold, history) {
      OpeningIsFailure(c, history);
    }
  }

  // From an opening of the circuit, no call is admitted for the recovery period, unless a success is recorded
  // in between; later failures only prolong it.
  lemma NobodyIsAdmittedDuringRecovery(c: Settings, history: seq<Event>, i: nat, now: real)
    requires Monotone(history) && i < |history|
    requires history[i].Failed? && LastOpening(c, history[..i + 1]) == Some(history[i].at)
    requires forall k :: i < k < |history| ==> !history[k].Succeeded?
    requires now - history[i].at < c.recovery
    ensures !Admits(c, history, now)
  {
    OpeningIsPast(c, history, i);
  }

  class CircuitBreaker {
    const settings: Settings
    var failures: int
    var openedAt: Option<real>
    var halfOpen: bool
    ghost var history: seq<Event>

    // The fields sum up the history.
    ghost predicate Valid() reads this {
      && Monotone(history)
      && openedAt == LastOpening(settings, history)
      && halfOpen == OnTrial(settings, history)
      && (!Tripped(settings.threshold, history) ==> failures == Failures(history))
      && (halfOpen ==> openedAt.Some?)
    }

    // No event lies ahead of the clock.
    ghost predicate UpTo(now: real) reads this {
      history == [] || history[|history| - 1].at <= now
    }

    constructor (settings: Settings)
      ensures Valid() && history == [] && this.settings == settings
    {
      this.settings := settings;
      failures, openedAt, halfOpen := 0, None, false;
      history := [];
    }

    method AllowsCall(now: real) returns (allowed: bool)
      requires Valid() && UpTo(now)
      modifies this
      ensures Valid() && history == old(history) + [Asked(now)]
      ensures allowed <==> Admits(settings, old(history), now)
    {
      ghost var later := history + [Asked(now)];
      assert later[..|history|] == history;
      if openedAt.None? {
        allowed := true;
      } else if now - openedAt.value >= settings.recovery {
        halfOpen := true;
        allowed := true;
      } else {
        allowed := false;
      }
      history := later;
    }

    method RecordSuccess(ghost now: real)
      requires Valid() && UpTo(now)
      modifies this
      ensures Valid() && history == old(history) + [Succeeded(now)] && openedAt.None?
    {
      failures, openedAt, halfOpen := 0, None, false;
      history := history + [Succeeded(now)];
    }

    method RecordFailure(now: real)
      requires Valid() && UpTo(now)
      modifies this
      ensures Valid() && history == old(history) + [Failed(now)]
    {
      ghost var later := history + [Failed(now)];
      assert later[..|history|] == history;
      if halfOpen {
        failures, openedAt, halfOpen := settings.threshold, Some(now), false;
      } else {
        failures := failures + 1;
        if failures >= settings.threshold && openedAt.None? {
          openedAt := Some(now);
        }
      }
      history := later;
    }
  }

  // ------------------------------------------------------------ calls

  datatype Policy = Policy(attempts: nat, baseDelay: real, maxDelay: real)

  function Power(n: nat): (p: real)
    ensures p >= 1.0
  {
    if n == 0 then 1.0 else 2.0 * Power(n - 1)
  }

  // The delay before retry number `attempt`, by the share of it that chance gives.
  function DelayFor(p: Policy, attempt: nat, share: real): (delay: real)
    requires p.baseDelay >= 0.0 && p.maxDelay >= 0.0 && 0.0 <= share <= 1.0 && attempt >= 1
    ensures 0.0 <= delay <= p.maxDelay
  {
    var exponential := p.baseDelay * Power(attempt - 1);
    assert exponential >= 0.0;
    var raw := if exponential < p.maxDelay then exponential else p.maxDelay;
    ShareIsWithin(raw, share);
    raw * share
  }

  // The greatest delay is the base delay first, doubles from one retry to the next, and stays at the maximum once it
  // has reached it; the delay itself is the share of it that chance gives.
  lemma DelaysDouble(p: Policy, attempt: nat, share: real)
    requires p.baseDelay >= 0.0 && p.maxDelay >= 0.0 && 0.0 <= share <= 1.0 && attempt >= 1
    ensures
      var first, now, next := DelayFor(p, 1, 1.0), DelayFor(p, attempt, 1.0), DelayFor(p, attempt + 1, 1.0);
      && first == (if p.baseDelay < p.maxDelay then p.baseDelay else p.maxDelay)
      && next == (if 2.0 * now < p.maxDelay then 2.0 * now else p.maxDelay)
      && now <= next
      && DelayFor(p, attempt, share) == now * share
  {
    assert p.baseDelay * Power(0) == p.baseDelay;
    var exponential := p.baseDelay * Power(attempt - 1);
    assert exponential >= 0.0;
    assert p.baseDelay * Power(attempt) == 2.0 * exponential;
  }

  lemma ShareIsWithin(raw: real, share: real)
    requires raw >= 0.0 && 0.0 <= share <= 1.0
    ensures 0.0 <= raw * share <= raw
  {
    assert raw - raw * share == raw * (1.0 - share);
  }

  // How one attempt turns out. A cancellation is no failure of the operation.
  datatype Attempt = Works | FailsForNow | FailsForGood | Cancelled

  datatype CallResult = Returned | Raised(last: Attempt) | CircuitOpen | NothingTried

  // How the attempts of a call turn out, which sleeps after them are cancelled, and what chance gives each delay.
  datatype Course = Course(operation: nat -> Attempt, cut: nat -> bool, share: nat -> real)

  ghost predicate Shares(c: Course) { forall n: nat :: 0.0 <= c.share(n) <= 1.0 }

  // Every admitted call tries the operation at least once and at most as often as the policy says, stops at
  // the first attempt that is not a passing failure, records exactly one outcome unless it is cancelled, and
  // sleeps before each attempt but its first, never longer than the maximum. What others do to the breaker
  // meanwhile stands in the history between its question and its outcome.
  method CallWithResilience(p: Policy, breaker: CircuitBreaker, c: Course, clock: nat -> real, others: seq<Event>)
    returns (result: CallResult, tries: nat, slept: real)
    requires breaker.Valid() && breaker.UpTo(clock(0)) && clock(0) <= clock(1)
    requires Monotone(others) && forall e :: e in others ==> clock(0) <= e.at <= clock(1)
    requires p.baseDelay >= 0.0 && p.maxDelay >= 0.0 && Shares(c)
    modifies breaker
    ensures breaker.Valid()
    ensures result.CircuitOpen? <==> !Admits(breaker.settings, old(breaker.history), clock(0))
    ensures result.CircuitOpen? ==> tries == 0
    ensures breaker.history == old(breaker.history) + [Asked(clock(0))]
                               + (match result
                                  case CircuitOpen => []
                                  case Returned => others + [Succeeded(clock(1))]
                                  case Raised(last) => if last.Cancelled? then others else others + [Failed(clock(1))]
                                  case NothingTried => others + [Failed(clock(1))])
    ensures !result.CircuitOpen? && p.attempts >= 1 ==> 1 <= tries <= p.attempts
    ensures forall n :: 1 <= n < tries ==> c.operation(n).FailsForNow? && !c.cut(n)
    ensures result.Returned? ==> tries >= 1 && c.operation(tries).Works?
    ensures result.Raised? ==> tries >= 1 && !result.last.Works? && EndedAs(p, c, tries, result.last)
    ensures result.NothingTried? <==> !result.CircuitOpen? && p.attempts == 0
    ensures slept == Slept(p, c, if tries >= 1 then tries - 1 else 0)
  {
    hide LastOpening, OnTrial, Tripped, Failures, Admits, EndedAs;
    var allowed := breaker.AllowsCall(clock(0));
    if !allowed {
      return CircuitOpen, 0, 0.0;
    }
    var last: Option<Attempt>;
    last, tries, slept := TryRepeatedly(p, c);
    Meanwhile(breaker, others, clock(1));
    if last == Some(Works) {
      breaker.RecordSuccess(clock(1));
      return Returned, tries, slept;
    }
    if last == Some(Cancelled) {
      return Raised(Cancelled), tries, slept;
    }
    breaker.RecordFailure(clock(1));
    result := if last.None? then NothingTried else Raised(last.value);
  }

  // Others ask the breaker and record their outcomes.
  method Meanwhile(breaker: CircuitBreaker, others: seq<Event>, ghost now: real)
    requires breaker.Valid() && Monotone(others)
    requires forall e :: e in others ==> breaker.UpTo(e.at) && e.at <= now
    requires breaker.UpTo(now)
    modifies breaker
    ensures breaker.Valid() && breaker.history == old(breaker.history) + others && breaker.UpTo(now)
  {
    hide LastOpening, OnTrial, Tripped, Failures, Admits;
    for i := 0 to |others|
      invariant breaker.Valid() && breaker.history == old(breaker.history) + others[..i] && breaker.UpTo(now)
      invariant i < |others| ==> breaker.UpTo(others[i].at)
    {
      match others[i]
      case Asked(at) =>
        var allowed := breaker.AllowsCall(at);
      case Succeeded(at) => breaker.RecordSuccess(at);
      case Failed(at) => breaker.RecordFailure(at);
      assert others[..i + 1] == others[..i] + [others[i]];
    }
    assert others[..|others|] == others;
  }

  // The call ended with attempt number n, as `last` says: cancelled in the attempt or in the sleep after it; or as
  // the attempt turned out, a passing failure only when there were no more attempts.
  ghost predicate EndedAs(p: Policy, c: Course, n: nat, last: Attempt) {
    if last.Cancelled? then c.operation(n).Cancelled? || (c.operation(n).FailsForNow? && n < p.attempts && c.cut(n))
    else last == c.operation(n) && (last.FailsForNow? ==> n == p.attempts)
  }

  // The sleep after each of the first n attempts, together.
  function Slept(p: Policy, c: Course, n: nat): (total: real)
    requires p.baseDelay >= 0.0 && p.maxDelay >= 0.0 && forall k: nat :: 0.0 <= c.share(k) <= 1.0
    ensures 0.0 <= total <= n as real * p.maxDelay
  {
    if n == 0 then 0.0
    else
      OneMore(n, p.maxDelay);
      Slept(p, c, n - 1) + DelayFor(p, n, c.share(n))
  }

  // The attempts of one call: how the last one turned out, if there was one.
  method TryRepeatedly(p: Policy, c: Course) returns (last: Option<Attempt>, tries: nat, slept: real)
    requires p.baseDelay >= 0.0 && p.maxDelay >= 0.0 && Shares(c)
    ensures tries <= p.attempts && (last.None? <==> tries == 0) && (tries == 0 <==> p.attempts == 0)
    ensures forall n :: 1 <= n < tries ==> c.operation(n).FailsForNow? && !c.cut(n)
    ensures last.Some? ==> EndedAs(p, c, tries, last.value)
    ensures slept == Slept(p, c, if tries >= 1 then tries - 1 else 0)
  {
    last, tries, slept := None, 0, 0.0;
    while tries < p.attempts
      invariant tries > 0 ==> tries < p.attempts && last == Some(FailsForNow)
      invariant tries == 0 ==> last.None?
      invariant forall n :: 1 <= n <= tries ==> c.operation(n).FailsForNow? && !c.cut(n)
      invariant slept == Slept(p, c, tries)
    {
      tries := tries + 1;
      last := Some(c.operation(tries));
      if !last.value.FailsForNow? || tries == p.attempts {
        break;
      }
      if c.cut(tries) {
        last := Some(Cancelled);
        break;
      }
      slept := slept + DelayFor(p, tries, c.share(tries));
    }
  }

  lemma OneMore(n: nat, each: real)
    requires n >= 1
    ensures n as real * each == (n - 1) as real * each + each
  {
  }

  // A trial call that is cancelled leaves the breaker on trial: the next failure, of whichever call, opens the
  // circuit anew, and until then every call is admitted.
  lemma CancelledTrialStaysOnTrial(c: Settings, history: seq<Event>, asked: real, failed: real, now: real)
    requires Tripped(c.threshold, history) && Admits(c, history, asked)
    ensures asked <= now ==> Admits(c, history + [Asked(asked)], now)
    ensures LastOpening(c, history + [Asked(asked)] + [Failed(failed)]) == Some(failed)
  {
    var trial := history + [Asked(asked)];
    var reopened := trial + [Failed(failed)];
    assert trial[..|history|] == history && reopened[..|trial|] == trial;
    assert Failures(trial) == Failures(history) && Failures(reopened) == Failures(trial) + 1;
    assert OnTrial(c, trial);
  }
}
