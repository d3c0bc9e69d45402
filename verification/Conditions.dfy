// Declarative post-conditions over host state, evaluated so that whatever cannot be observed or compared
// counts as unmet.
module Conditions {
  import opened Options

  datatype Value = Number(n: real) | Text(s: string) | Flag(b: bool)

  datatype Operator = Lt | Lte | Gt | Gte | Eq | Ne

  datatype Probe = SysctlValue | OtherProbe(name: string, needsTarget: bool)
  {
    predicate NeedsTarget() { SysctlValue? || needsTarget }
  }

  datatype Condition = Condition(probe: Probe, operator: Operator, value: Value, target: string)

  // What a probe yields: a value, the admission that it cannot be read, or a fault of the probe itself.
  datatype Observation = Observed(value: Value) | Unobservable | ProbeFault

  datatype ConditionResult = ConditionResult(condition: Condition, met: bool, observed: Option<Value>)

  // How the platform reads texts as numbers and truth values, and writes values as trimmed texts.
  datatype Formats = Formats(parse: string -> Option<real>, truthy: string -> bool, show: Value -> string)

  function AsNumber(f: Formats, v: Value): Option<real> {
    match v
    case Number(n) => Some(n)
    case Text(s) => f.parse(s)
    case Flag(_) => None
  }

  function AsBool(f: Formats, v: Value): bool {
    if v.Flag? then v.b else f.truthy(f.show(v))
  }

  function LooselyEqual(f: Formats, a: Value, b: Value): bool {
    if a.Flag? || b.Flag? then AsBool(f, a) == AsBool(f, b)
    else
      var left, right := AsNumber(f, a), AsNumber(f, b);
      if left.Some? && right.Some? then left.value == right.value else f.show(a) == f.show(b)
  }

  predicate InOrder(left: real, operator: Operator, right: real) {
    match operator
    case Lt => left < right
    case Lte => left <= right
    case Gt => left > right
    case Gte => left >= right
    case Eq => left == right
    case Ne => left != right
  }

  // None when the values have no order.
  function Compare(f: Formats, observed: Value, operator: Operator, expected: Value): Option<bool> {
    var left, right := AsNumber(f, observed), AsNumber(f, expected);
    if operator.Eq? then Some(LooselyEqual(f, observed, expected))
    else if operator.Ne? then Some(!LooselyEqual(f, observed, expected))
    else if left.Some? && right.Some? then Some(InOrder(left.value, operator, right.value))
    else None
  }

  // A number, or a text that reads as one.
  ghost predicate ReadsAs(f: Formats, v: Value, n: real) {
    v == Number(n) || (v.Text? && f.parse(v.s) == Some(n))
  }

  // What the operators mean. Numbers, and texts that read as numbers, are compared as numbers; other texts are equal
  // or not; truth values make both sides truth values, and have no order.
  lemma OperatorsMean(f: Formats, observed: Value, expected: Value)
    ensures forall x: real, y: real :: ReadsAs(f, observed, x) && ReadsAs(f, expected, y) ==>
              && Compare(f, observed, Lt, expected) == Some(x < y)
              && Compare(f, observed, Lte, expected) == Some(x <= y)
              && Compare(f, observed, Gt, expected) == Some(x > y)
              && Compare(f, observed, Gte, expected) == Some(x >= y)
              && Compare(f, observed, Eq, expected) == Some(x == y)
              && Compare(f, observed, Ne, expected) == Some(x != y)
    ensures (forall x: real :: !ReadsAs(f, observed, x)) || (forall y: real :: !ReadsAs(f, expected, y)) ==>
              && Compare(f, observed, Lt, expected).None? && Compare(f, observed, Lte, expected).None?
              && Compare(f, observed, Gt, expected).None? && Compare(f, observed, Gte, expected).None?
              && (!observed.Flag? && !expected.Flag? ==>
                    && Compare(f, observed, Eq, expected) == Some(f.show(observed) == f.show(expected))
                    && Compare(f, observed, Ne, expected) == Some(f.show(observed) != f.show(expected)))
    ensures observed.Flag? && expected.Flag? ==>
              && Compare(f, observed, Eq, expected) == Some(observed.b == expected.b)
              && Compare(f, observed, Ne, expected) == Some(observed.b != expected.b)
    ensures observed.Flag? && !expected.Flag? ==>
              && Compare(f, observed, Eq, expected) == Some(observed.b == f.truthy(f.show(expected)))
              && Compare(f, observed, Ne, expected) == Some(observed.b != f.truthy(f.show(expected)))
    ensures !observed.Flag? && expected.Flag? ==>
              && Compare(f, observed, Eq, expected) == Some(f.truthy(f.show(observed)) == expected.b)
              && Compare(f, observed, Ne, expected) == Some(f.truthy(f.show(observed)) != expected.b)
  {
    assert forall v: Value, n: real :: ReadsAs(f, v, n) <==> AsNumber(f, v) == Some(n);
    assert AsNumber(f, observed).Some? ==> ReadsAs(f, observed, AsNumber(f, observed).value);
    assert AsNumber(f, expected).Some? ==> ReadsAs(f, expected, AsNumber(f, expected).value);
  }

  // The values of a sysctl probe come from the host's table; every other probe answers for itself.
  function Observe(sysctls: map<string, string>, others: Condition -> Observation, c: Condition): Observation {
    if c.probe.NeedsTarget() && c.target == "" then Unobservable
    else if c.probe.SysctlValue? then
      if c.target in sysctls then Observed(Text(sysctls[c.target])) else Unobservable
    else others(c)
  }

  // A parameter is read as the text that the table has for it; a probe that needs a target and has none sees nothing.
  lemma SysctlsAreRead(sysctls: map<string, string>, others: Condition -> Observation, c: Condition)
    ensures c.probe.SysctlValue? ==>
              Observe(sysctls, others, c) ==
                if c.target != "" && c.target in sysctls then Observed(Text(sysctls[c.target])) else Unobservable
    ensures c.probe.OtherProbe? ==>
              Observe(sysctls, others, c) ==
                if c.probe.needsTarget && c.target == "" then Unobservable else others(c)
  {
  }

  // The condition was observed to hold.
  predicate Holds(f: Formats, c: Condition, o: Observation) {
    o.Observed? && Compare(f, o.value, c.operator, c.value) == Some(true)
  }

  predicate AllMet(results: seq<ConditionResult>) {
    forall i :: 0 <= i < |results| ==> results[i].met
  }

  // Never fails: one result per condition, in order, and met only if the condition was observed to hold.
  method EvaluateConditions(f: Formats, sysctls: map<string, string>, others: Condition -> Observation,
                            conditions: seq<Condition>)
    returns (results: seq<ConditionResult>)
    ensures |results| == |conditions|
    ensures forall i :: 0 <= i < |conditions| ==>
              && results[i].condition == conditions[i]
              && (results[i].met <==> Holds(f, conditions[i], Observe(sysctls, others, conditions[i])))
    ensures AllMet(results) <==>
            forall i :: 0 <= i < |conditions| ==> Holds(f, conditions[i], Observe(sysctls, others, conditions[i]))
  {
    results := [];
    for i := 0 to |conditions|
      invariant |results| == i
      invariant forall k :: 0 <= k < i ==>
                  && results[k].condition == conditions[k]
                  && (results[k].met <==> Holds(f, conditions[k], Observe(sysctls, others, conditions[k])))
    {
      var condition := conditions[i];
      var observation := Observe(sysctls, others, condition);
      if !observation.Observed? {
        results := results + [ConditionResult(condition, false, None)];
      } else {
        var verdict := Compare(f, observation.value, condition.operator, condition.value);
        var met := if verdict.Some? then verdict.value else false;
        results := results + [ConditionResult(condition, met, Some(observation.value))];
      }
    }
  }
}
