/**
 The alarm evaluator of the serial worker (src/network/modbus/ModbusWorker.cpp).
 A reading is compared with an optional low and an optional high threshold; once a
 threshold has fired, it is released only when the value has moved back past the
 threshold by the hysteresis.
 */
module AlarmTrigger {

  /** The thresholds of one analog sensor; an absent threshold never fires. */
  datatype Thresholds = Thresholds(hasMin: bool, minTh: real, hasMax: bool, maxTh: real)

  /** What the worker remembers of a sensor: in alarm or not, and the alarm type as text. */
  datatype AlarmState = AlarmState(isAlarm: bool, kind: string)

  const QUIET := AlarmState(false, "")

  /** Substring test, as the worker applies it to alarm types. */
  predicate Contains(s: string, part: string) {
    exists i | 0 <= i <= |s| - |part| :: OccursAt(s, part, i)
  }

  predicate OccursAt(s: string, part: string, i: int)
    requires 0 <= i <= |s| - |part|
  {
    s[i..i + |part|] == part
  }

  function NonNegative(hysteresis: real): real {
    if hysteresis >= 0.0 then hysteresis else 0.0
  }

  /** The evaluator itself, on the text-typed state. */
  function Evaluate(value: real, prev: AlarmState, t: Thresholds, hysteresis: real): AlarmState {
    var hyst := NonNegative(hysteresis);
    var prevHadMin := prev.isAlarm && Contains(prev.kind, "min");
    var prevHadMax := prev.isAlarm && Contains(prev.kind, "max");
    var minActive := t.hasMin && (if prevHadMin then value <= t.minTh + hyst else value <= t.minTh);
    var maxActive := t.hasMax && (if prevHadMax then value >= t.maxTh - hyst else value >= t.maxTh);
    var kind := if minActive then "min" else "";
    var kind' := if maxActive then (if kind == "" then "max" else "min+max") else kind;
    AlarmState(minActive || maxActive, kind')
  }

  /** One threshold on its own: fires at or above the level, releases below level - band. */
  predicate Trigger(armed: bool, on: bool, x: real, level: real, band: real) {
    armed && (if on then x >= level - band else x >= level)
  }

  /** The text encoding of the two flags. */
  function Encode(minOn: bool, maxOn: bool): AlarmState {
    AlarmState(minOn || maxOn,
               if minOn then (if maxOn then "min+max" else "min") else if maxOn then "max" else "")
  }

  lemma ContainsFacts()
    ensures !Contains("", "min") && !Contains("", "max")
    ensures Contains("min", "min") && !Contains("min", "max")
    ensures Contains("max", "max") && !Contains("max", "min")
    ensures Contains("min+max", "min") && Contains("min+max", "max")
  {
    assert OccursAt("min", "min", 0) && OccursAt("max", "max", 0);
    assert OccursAt("min+max", "min", 0) && OccursAt("min+max", "max", 4);
    assert "min"[0..3][1] == 'i' && "max"[0..3][1] == 'a';
  }

  /** The flags can be read back from the text, so nothing is lost by encoding them. */
  lemma FlagsReadBack(minOn: bool, maxOn: bool)
    ensures var s := Encode(minOn, maxOn);
            (s.isAlarm && Contains(s.kind, "min") <==> minOn) && (s.isAlarm && Contains(s.kind, "max") <==> maxOn)
  {
    ContainsFacts();
  }

  // ---- Whole runs of readings --------------------------------------------------

  function EvaluateAll(values: seq<real>, t: Thresholds, hysteresis: real): AlarmState {
    if values == [] then QUIET
    else Evaluate(values[|values| - 1], EvaluateAll(values[..|values| - 1], t, hysteresis), t, hysteresis)
  }

  predicate TriggerAll(armed: bool, values: seq<real>, level: real, band: real) {
    values != [] &&
    Trigger(armed, TriggerAll(armed, values[..|values| - 1], level, band), values[|values| - 1], level, band)
  }

  /** The readings mirrored at zero: a low threshold is a high threshold on them. */
  function Negated(values: seq<real>): (r: seq<real>)
    ensures |r| == |values| && forall i :: 0 <= i < |r| ==> r[i] == -values[i]
  {
    seq(|values|, i requires 0 <= i < |values| => -values[i])
  }

  /**
   After any run, the text-typed state is the encoding of two triggers that never
   influence each other: one on the readings, one on the mirrored readings.
   */
  lemma {:induction false} StateIsTwoIndependentTriggers(values: seq<real>, t: Thresholds, hysteresis: real)
    ensures EvaluateAll(values, t, hysteresis) ==
            Encode(TriggerAll(t.hasMin, Negated(values), -t.minTh, NonNegative(hysteresis)),
                   TriggerAll(t.hasMax, values, t.maxTh, NonNegative(hysteresis)))
  {
    if values == [] {
    } else {
      var before := values[..|values| - 1];
      StateIsTwoIndependentTriggers(before, t, hysteresis);
      assert Negated(values)[..|values| - 1] == Negated(before);
      FlagsReadBack(TriggerAll(t.hasMin, Negated(before), -t.minTh, NonNegative(hysteresis)),
                    TriggerAll(t.hasMax, before, t.maxTh, NonNegative(hysteresis)));
    }
  }

  /** With no hysteresis (or a negative setting) history is irrelevant: a plain threshold test. */
  lemma NoHysteresisIsStateless(values: seq<real>, t: Thresholds, hysteresis: real)
    requires values != [] && hysteresis <= 0.0
    ensures var v := values[|values| - 1];
            EvaluateAll(values, t, hysteresis) == Encode(t.hasMin && v <= t.minTh, t.hasMax && v >= t.maxTh)
  {
    StateIsTwoIndependentTriggers(values, t, hysteresis);
  }

  // ---- The chatter bound -------------------------------------------------------

  function Abs(x: real): real { if x >= 0.0 then x else -x }

  function TotalVariation(values: seq<real>): real {
    if |values| <= 1 then 0.0
    else TotalVariation(values[..|values| - 1]) + Abs(values[|values| - 1] - values[|values| - 2])
  }

  /** How often the flag differs from the one before it; it starts off. */
  function Changes(armed: bool, values: seq<real>, level: real, band: real): nat {
    if values == [] then 0
    else
      var before := values[..|values| - 1];
      Changes(armed, before, level, band) +
      if TriggerAll(armed, before, level, band) != TriggerAll(armed, values, level, band) then 1 else 0
  }

  /** Distance already covered towards the next change of the flag. */
  function Headway(on: bool, x: real, level: real, band: real): real {
    if on then (if x < level then level - x else 0.0)
    else (if x > level - band then x - (level - band) else 0.0)
  }

  /** count times the band, by repeated addition. */
  function Toll(count: nat, band: real): real {
    if count == 0 then 0.0 else Toll(count - 1, band) + band
  }

  lemma {:induction false} TollIsProduct(count: nat, band: real)
    ensures Toll(count, band) == count as real * band
  {
    if count > 0 {
      TollIsProduct(count - 1, band);
      assert count as real == (count - 1) as real + 1.0;
      assert ((count - 1) as real + 1.0) * band == (count - 1) as real * band + band;
    }
  }

  lemma {:induction false} ChangesCostTravel(armed: bool, values: seq<real>, level: real, band: real)
    requires band >= 0.0
    ensures var c := Changes(armed, values, level, band);
            c >= 1 ==>
              && values != []
              && Toll(c - 1, band) + Headway(TriggerAll(armed, values, level, band), values[|values| - 1], level, band)
                 <= TotalVariation(values)
    ensures Changes(armed, values, level, band) == 0 ==> !TriggerAll(armed, values, level, band)
  {
    if values == [] {
    } else {
      var before := values[..|values| - 1];
      ChangesCostTravel(armed, before, level, band);
      TotalVariationIsNonNegative(values);
    }
  }

  lemma {:induction false} TotalVariationIsNonNegative(values: seq<real>)
    ensures TotalVariation(values) >= 0.0
  {
    if |values| > 1 {
      TotalVariationIsNonNegative(values[..|values| - 1]);
    }
  }

  /** (changes - 1) times the hysteresis fits into the travel of the signal. */
  predicate ChatterBounded(changes: nat, hyst: real, travel: real) {
    (changes as real - 1.0) * hyst <= travel
  }

  /**
   The chatter bound, for both flags the worker derives from its text state: every
   change but the first costs the signal a travel of at least the hysteresis.
   */
  lemma ChatterBound(values: seq<real>, t: Thresholds, hysteresis: real)
    ensures var h := NonNegative(hysteresis);
            && ChatterBounded(Changes(t.hasMax, values, t.maxTh, h), h, TotalVariation(values))
            && ChatterBounded(Changes(t.hasMin, Negated(values), -t.minTh, h), h, TotalVariation(values))
  {
    var h := NonNegative(hysteresis);
    OneSidedBound(t.hasMax, values, t.maxTh, h);
    OneSidedBound(t.hasMin, Negated(values), -t.minTh, h);
    MirrorKeepsVariation(values);
  }

  lemma OneSidedBound(armed: bool, values: seq<real>, level: real, band: real)
    requires band >= 0.0
    ensures ChatterBounded(Changes(armed, values, level, band), band, TotalVariation(values))
  {
    var c, travel := Changes(armed, values, level, band), TotalVariation(values);
    TotalVariationIsNonNegative(values);
    if c == 0 {
      NoChangeIsBounded(band, travel);
    } else {
      assert Toll(c - 1, band) <= travel by {
        ChangesCostTravel(armed, values, level, band);
      }
      TollBoundsChatter(c, band, travel);
    }
  }

  lemma NoChangeIsBounded(band: real, travel: real)
    requires band >= 0.0 && travel >= 0.0
    ensures ChatterBounded(0, band, travel)
  {
    assert (0.0 - 1.0) * band == -band;
  }

  lemma TollBoundsChatter(count: nat, band: real, travel: real)
    requires count > 0 && Toll(count - 1, band) <= travel
    ensures ChatterBounded(count, band, travel)
  {
    TollIsProduct(count - 1, band);
    assert (count - 1) as real == count as real - 1.0;
  }

  lemma {:induction false} MirrorKeepsVariation(values: seq<real>)
    ensures TotalVariation(Negated(values)) == TotalVariation(values)
  {
    if |values| > 1 {
      MirrorKeepsVariation(values[..|values| - 1]);
      assert Negated(values)[..|values| - 1] == Negated(values[..|values| - 1]);
    }
  }
}
