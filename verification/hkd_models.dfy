/** `DurationUnit.to_seconds` (ccres_api/hkd/models/helpers.py). Python floats are exact
    reals here; `int()` truncates toward zero. */
module DurationUnits {

  datatype DurationUnit = Year | Day | Hour | Minute | Second

  /** The value each choice is stored as. */
  function UnitValue(u: DurationUnit): string {
    match u
    case Year => "year"
    case Day => "day"
    case Hour => "hour"
    case Minute => "minute"
    case Second => "second"
  }

  /** `int(x)`: truncation toward zero. */
  function Trunc(x: real): (r: int)
    ensures 0.0 <= x ==> r as real <= x < r as real + 1.0
    ensures x < 0.0 ==> r as real - 1.0 < x <= r as real
  {
    if x >= 0.0 then x.Floor else -((-x).Floor)
  }

  /** `to_seconds` as written: the hour, day and year branches assign a constant to
      `value` instead of scaling it; any other unit, `"second"` included, keeps the value. */
  function ToSecondsAsWritten(unit: string, value: real): int {
    if unit == "minute" then Trunc(value * 60.0)
    else if unit == "hour" then 60 * 60
    else if unit == "day" then 60 * 60 * 24
    else if unit == "year" then 60 * 60 * 24 * 365
    else Trunc(value)
  }

  /** Seconds in one unit (a year is 365 days); an unknown unit counts as seconds. */
  function SecondsPer(unit: string): int {
    if unit == "minute" then 60
    else if unit == "hour" then 60 * 60
    else if unit == "day" then 60 * 60 * 24
    else if unit == "year" then 60 * 60 * 24 * 365
    else 1
  }

  /** The conversion the docstring refers to: `value` units, in whole seconds. */
  function ToSeconds(unit: string, value: real): int {
    Trunc(value * SecondsPer(unit) as real)
  }

  /** As written, the minute and second branches agree with the conversion, but an hour,
      a day or a year ignores its value: two hours come out as 3600 seconds. */
  lemma ToSecondsDiscrepancy(unit: string, value: real)
    ensures unit != "hour" && unit != "day" && unit != "year" ==> ToSecondsAsWritten(unit, value) == ToSeconds(unit, value)
    ensures ToSecondsAsWritten("hour", value) == 3600 && ToSecondsAsWritten("day", value) == 86400
    ensures ToSecondsAsWritten("year", value) == 31536000
    ensures ToSecondsAsWritten("hour", 2.0) == 3600 && ToSeconds("hour", 2.0) == 7200
  {
    if unit != "minute" && unit != "hour" && unit != "day" && unit != "year" {
      assert value * SecondsPer(unit) as real == value;
    }
  }

  /** One unit of each choice is a positive number of seconds. */
  lemma SecondsPerPositive(u: DurationUnit)
    ensures SecondsPer(UnitValue(u)) >= 1
  {
  }

  /** A whole number of units is that many times the unit's seconds. */
  lemma ToSecondsWhole(u: DurationUnit, n: int)
    ensures ToSeconds(UnitValue(u), n as real) == n * SecondsPer(UnitValue(u))
  {
    var k := SecondsPer(UnitValue(u));
    WholeUnits(n, k);
  }

  /** The conversion never decreases as the value grows, whatever the unit. */
  lemma ToSecondsMonotonic(unit: string, a: real, b: real)
    requires a <= b
    ensures ToSeconds(unit, a) <= ToSeconds(unit, b)
  {
    SecondsPerAtLeastOne(unit);
    ScaledTruncMonotonic(a, b, SecondsPer(unit) as real);
  }

  lemma SecondsPerAtLeastOne(unit: string)
    ensures SecondsPer(unit) >= 1
  {
  }

  lemma ScaledTruncMonotonic(a: real, b: real, k: real)
    requires a <= b && 0.0 <= k
    ensures Trunc(a * k) <= Trunc(b * k)
  {
    ScaleMonotonic(a, b, k);
    TruncMonotonic(a * k, b * k);
  }

  lemma WholeUnits(n: int, k: int)
    ensures (n as real) * (k as real) == (n * k) as real
  {
  }

  lemma ScaleMonotonic(a: real, b: real, k: real)
    requires a <= b && 0.0 <= k
    ensures a * k <= b * k
  {
    assert b * k - a * k == (b - a) * k;
  }

  lemma TruncMonotonic(x: real, y: real)
    requires x <= y
    ensures Trunc(x) <= Trunc(y)
  {
  }
}

/** `Alert.clean` (ccres_api/hkd/models/alert.py): an alert needs at least one complete
    trigger pair, a threshold with its condition, and no half-filled pair. Thresholds are
    floats, so a 0 threshold is as good as no threshold. */
module AlertValidation {
  import opened Wrappers
  import opened Exceptions

  datatype Triggers = Triggers(
    minimum: Option<real>, minimumCondition: Option<string>,
    maximum: Option<real>, maximumCondition: Option<string>)

  predicate ThresholdSet(x: Option<real>) {
    x.Some? && x.value != 0.0
  }

  predicate ConditionSet(c: Option<string>) {
    c.Some? && c.value != ""
  }

  /** How filled a pair is, by Python truthiness. */
  datatype PairState = Empty | Partial | Complete

  function State(threshold: Option<real>, condition: Option<string>): PairState {
    if ThresholdSet(threshold) && ConditionSet(condition) then Complete
    else if ThresholdSet(threshold) || ConditionSet(condition) then Partial
    else Empty
  }

  const MinimumFields := ["trigger_minimum", "trigger_minimum_condition"]
  const MaximumFields := ["trigger_maximum", "trigger_maximum_condition"]

  const NeitherMessage := "Either trigger_minimum and trigger_minimum_condition, or trigger_maximum and trigger_maximum_condition, or both must be provided together."
  const MinimumMessage := "Both trigger_minimum and trigger_minimum_condition must be provided together."
  const MaximumMessage := "Both trigger_maximum and trigger_maximum_condition must be provided together."

  function Tag(fields: seq<string>, msg: string): (r: seq<(string, string)>)
    ensures |r| == |fields| && forall i :: 0 <= i < |fields| ==> r[i] == (fields[i], msg)
  {
    seq(|fields|, i requires 0 <= i < |fields| => (fields[i], msg))
  }

  /** `clean`: `None` when the alert is accepted, else the `ValidationError` raised. */
  function Clean(t: Triggers): Option<Error> {
    var anyMin := ThresholdSet(t.minimum) || ConditionSet(t.minimumCondition);
    var allMin := ThresholdSet(t.minimum) && ConditionSet(t.minimumCondition);
    var anyMax := ThresholdSet(t.maximum) || ConditionSet(t.maximumCondition);
    var allMax := ThresholdSet(t.maximum) && ConditionSet(t.maximumCondition);
    if !anyMin && !anyMax then Some(ValidationError(Tag(MinimumFields + MaximumFields, NeitherMessage)))
    else
      var errors := (if anyMin && !allMin then Tag(MinimumFields, MinimumMessage) else [])
                     + (if anyMax && !allMax then Tag(MaximumFields, MaximumMessage) else []);
      if |errors| > 0 then Some(ValidationError(errors)) else None
  }

  /** The fields an error names. */
  function Named(e: Error): seq<string>
    requires e.ValidationError?
  {
    seq(|e.errors|, i requires 0 <= i < |e.errors| => e.errors[i].0)
  }

  /** An alert is accepted exactly when no pair is half filled and some pair is complete.
      Two empty pairs name all four fields; otherwise each half-filled pair names its two
      fields, the minimum pair first, in one error. */
  lemma CleanSpec(t: Triggers)
    ensures var mn := State(t.minimum, t.minimumCondition);
      var mx := State(t.maximum, t.maximumCondition);
      var r := Clean(t);
      && (r.None? <==> mn != Partial && mx != Partial && (mn == Complete || mx == Complete))
      && (r.Some? ==> r.value.ValidationError?)
      && (mn == Empty && mx == Empty ==> Named(r.value) == MinimumFields + MaximumFields)
      && (mn == Empty && mx == Empty ==> forall i :: 0 <= i < 4 ==> r.value.errors[i].1 == NeitherMessage)
      && (r.Some? && !(mn == Empty && mx == Empty) ==>
            Named(r.value) == (if mn == Partial then MinimumFields else []) + (if mx == Partial then MaximumFields else []))
  {
    var mn := State(t.minimum, t.minimumCondition);
    var mx := State(t.maximum, t.maximumCondition);
    var r := Clean(t);
    if r.Some? && !(mn == Empty && mx == Empty) {
      var want := (if mn == Partial then MinimumFields else []) + (if mx == Partial then MaximumFields else []);
      assert |Named(r.value)| == |want|;
      forall i | 0 <= i < |want|
        ensures Named(r.value)[i] == want[i]
      {
      }
    }
  }

  /** A zero threshold counts as unset: with a condition beside it, the pair is half filled. */
  lemma ZeroThresholdIsUnset(cond: string)
    requires cond != ""
    ensures Clean(Triggers(Some(0.0), Some(cond), None, None))
            == Some(ValidationError(Tag(MinimumFields, MinimumMessage)))
  {
    assert Tag(MinimumFields, MinimumMessage) + [] == Tag(MinimumFields, MinimumMessage);
  }
}
