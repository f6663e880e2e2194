/** Telemetry properties: a registry from property names to accessors over
    the decoded datagram, a rate property that reports a ratio in [0, 1]
    against a maximum (fixed, read from the datagram, or raised as larger
    values are seen), and a score property that reports an integer.
    `f32` arithmetic is carried out on reals. */
module Property {
  import opened Primitives
  import Float32
  import opened Datagram
  import Config

  datatype RateQuery = Speed | Rpm | RpmBaseline | Driveline

  datatype ScoreQuery = Position

  datatype PropertyQuery = RateEntry(rate: RateQuery) | ScoreEntry(score: ScoreQuery)

  /** The registry of property names. */
  const PROPERTIES: map<string, PropertyQuery> := map[
    "speed" := RateEntry(Speed),
    "rpm" := RateEntry(Rpm),
    "rpm-baseline" := RateEntry(RpmBaseline),
    "driveline" := RateEntry(Driveline),
    "position" := ScoreEntry(Position)]

  function F(w: F32Bits): real { Float32.Value(w) }

  /** The current value a rate query reads from a datagram. */
  function RateCurrent(q: RateQuery, d: Horizon4Datagram): real
  {
    match q
    case Speed => F(d.dash.speed)
    case Rpm => F(d.sled.currentEngineRpm)
    case RpmBaseline => F(d.sled.currentEngineRpm) - F(d.sled.engineIdleRpm)
    case Driveline => (d.dash.normalizedDrivingLine as int + 127) as real
  }

  /** The maximum a rate query reads from a datagram, when it has one. */
  function RateMax(q: RateQuery, d: Horizon4Datagram): Option<real>
  {
    match q
    case Speed => None
    case Rpm => Some(F(d.sled.engineMaxRpm))
    case RpmBaseline => Some(F(d.sled.engineMaxRpm) - F(d.sled.engineIdleRpm))
    case Driveline => Some(255.0)
  }

  function Clamp01(x: real): (r: real)
    ensures 0.0 <= r <= 1.0
    ensures 0.0 <= x <= 1.0 ==> r == x
    ensures x > 1.0 ==> r == 1.0
    ensures x < 0.0 ==> r == 0.0
  {
    if x > 1.0 then 1.0 else if x < 0.0 then 0.0 else x
  }

  /** `(current / max).min(1.0).max(0.0)` on `f32`. With a +0.0 maximum
      the quotient is +inf, NaN (0/0) or -inf; `min` and `max` pass over
      NaN, so only a negative current gives 0. Reals have no -0.0, so a
      -0.0 maximum is taken as +0.0 here. */
  function Ratio(current: real, max: real): (r: real)
  {
    if max == 0.0 then (if current < 0.0 then 0.0 else 1.0)
    else Clamp01(current / max)
  }

  /** The ratio is always in [0, 1]; for a positive maximum it is the exact
      quotient within the range, 1 at or above the maximum and 0 at or below
      zero. */
  lemma RatioBounds(current: real, max: real)
    ensures 0.0 <= Ratio(current, max) <= 1.0
    ensures max > 0.0 && 0.0 <= current <= max ==> Ratio(current, max) * max == current
    ensures max > 0.0 && current >= max ==> Ratio(current, max) == 1.0
    ensures max > 0.0 && current <= 0.0 ==> Ratio(current, max) == 0.0
    ensures max == 0.0 ==> (Ratio(current, max) == 0.0 <==> current < 0.0)
  {
    if max > 0.0 {
      if 0.0 <= current <= max {
        assert current / max <= 1.0;
      } else if current > max {
        assert current / max > 1.0;
      } else {
        assert current / max < 0.0;
      }
    }
  }

  lemma RatioInside(current: real, max: real)
    requires 0.0 < current < max
    ensures Ratio(current, max) == current / max
  {
    assert 0.0 <= current / max <= 1.0;
  }

  /** The maximum the property starts with: the configured one, else 0.0
      when it is to be raised, else none. */
  function InitialMax(input: Config.Input): (m: Option<real>)
    ensures input.maxValue.Some? ==> m == input.maxValue
    ensures input.maxValue.None? ==> (m.Some? <==> input.autoRaise)
    ensures input.maxValue.None? && input.autoRaise ==> m == Some(0.0)
  {
    if input.maxValue.Some? then input.maxValue
    else if input.autoRaise then Some(0.0)
    else None
  }

  /** The stored maximum after observing `current`. */
  function Raise(stored: real, current: real, autoRaise: bool): (m: real)
    ensures m >= stored
    ensures autoRaise ==> m >= current
    ensures m == stored || m == current
    ensures !autoRaise ==> m == stored
  {
    if autoRaise && current > stored then current else stored
  }

  /** The stored maximum after observing `currents` in order. */
  function RaiseAll(stored: real, currents: seq<real>, autoRaise: bool): real
  {
    if currents == [] then stored
    else Raise(RaiseAll(stored, currents[..|currents| - 1], autoRaise), currents[|currents| - 1], autoRaise)
  }

  /** With auto-raise the stored maximum after a run of queries is the
      largest of the seed and every observed current. */
  lemma {:induction false} RaiseAllIsMax(stored: real, currents: seq<real>)
    ensures RaiseAll(stored, currents, true) >= stored
    ensures forall i :: 0 <= i < |currents| ==> RaiseAll(stored, currents, true) >= currents[i]
    ensures RaiseAll(stored, currents, true) == stored
         || exists i :: 0 <= i < |currents| && RaiseAll(stored, currents, true) == currents[i]
  {
    if currents != [] {
      var n := |currents| - 1;
      var prefix := currents[..n];
      RaiseAllIsMax(stored, prefix);
      assert forall i :: 0 <= i < n ==> prefix[i] == currents[i];
      var m := RaiseAll(stored, prefix, true);
      if m != stored && RaiseAll(stored, currents, true) == m {
        var i :| 0 <= i < n && m == prefix[i];
        assert RaiseAll(stored, currents, true) == currents[i];
      }
    }
  }

  /** The stored maximum never decreases, and without auto-raise it never
      changes. */
  lemma {:induction false} RaiseAllMonotone(stored: real, currents: seq<real>, autoRaise: bool)
    ensures RaiseAll(stored, currents, autoRaise) >= stored
    ensures !autoRaise ==> RaiseAll(stored, currents, autoRaise) == stored
  {
    if currents != [] {
      RaiseAllMonotone(stored, currents[..|currents| - 1], autoRaise);
    }
  }

  datatype PropertyError =
    | UnknownProperty(name: string)  // indexing the registry with a missing name panics
    | MissingMax                     // `unwrap` of an absent stored maximum panics

  /** The result of one rate query, as a function of the query, the stored
      maximum before it and the datagram: the ratio and the stored maximum
      after it. */
  function RateOutcome(q: RateQuery, stored: Option<real>, autoRaise: bool, d: Horizon4Datagram)
    : Result<(real, Option<real>), PropertyError>
  {
    var current := RateCurrent(q, d);
    match RateMax(q, d)
    case Some(max) => Ok((Ratio(current, max), stored))
    case None =>
      if stored.None? then Err(MissingMax)
      else
        var m := Raise(stored.value, current, autoRaise);
        Ok((Ratio(current, m), Some(m)))
  }

  /** A maximum read from the datagram takes precedence: the stored one is
      neither read nor changed. Only a speed query consults the stored
      maximum, and it fails exactly when there is none. */
  lemma RateOutcomeCases(q: RateQuery, stored: Option<real>, autoRaise: bool, d: Horizon4Datagram)
    ensures q != Speed ==>
      RateOutcome(q, stored, autoRaise, d) == Ok((Ratio(RateCurrent(q, d), RateMax(q, d).value), stored))
    ensures q == Speed ==> (RateOutcome(q, stored, autoRaise, d).Err? <==> stored.None?)
    ensures RateOutcome(q, stored, autoRaise, d).Ok? ==> 0.0 <= RateOutcome(q, stored, autoRaise, d).value.0 <= 1.0
  {
    RatioBounds(RateCurrent(q, d), if RateMax(q, d).Some? then RateMax(q, d).value
      else if stored.Some? then Raise(stored.value, RateCurrent(q, d), autoRaise) else 0.0);
  }

  /** With auto-raise a speed query never reports more than its own share
      of the largest speed seen: the new maximum is at least the current,
      so a non-negative current is reported exactly. */
  lemma AutoRaiseSpeedExact(stored: real, d: Horizon4Datagram)
    requires stored >= 0.0
    ensures var r := RateOutcome(Speed, Some(stored), true, d);
      r.Ok? && r.value.1 == Some(if RateCurrent(Speed, d) > stored then RateCurrent(Speed, d) else stored)
      && (r.value.1.value > 0.0 && RateCurrent(Speed, d) >= 0.0 ==>
            r.value.0 * r.value.1.value == RateCurrent(Speed, d))
  {
    var m := Raise(stored, RateCurrent(Speed, d), true);
    RatioBounds(RateCurrent(Speed, d), m);
  }

  /** "rpm-baseline" measures the engine speed above idle against the range
      above idle. */
  lemma RpmBaselineRatio(d: Horizon4Datagram)
    requires F(d.sled.engineIdleRpm) < F(d.sled.currentEngineRpm) < F(d.sled.engineMaxRpm)
    ensures var r := RateOutcome(RpmBaseline, None, false, d);
      r.Ok? && r.value.0 == (F(d.sled.currentEngineRpm) - F(d.sled.engineIdleRpm))
                          / (F(d.sled.engineMaxRpm) - F(d.sled.engineIdleRpm))
  {
    RatioInside(RateCurrent(RpmBaseline, d), RateMax(RpmBaseline, d).value);
  }

  /** An engine idling at 1000 rpm, turning at 5000 with a 8000 limit, is
      at 4/7 of its range above idle. */
  lemma RpmBaselineScenario(d: Horizon4Datagram)
    requires d.sled.engineIdleRpm == Float32.F32_1000
    requires d.sled.currentEngineRpm == Float32.F32_5000
    requires d.sled.engineMaxRpm == Float32.F32_8000
    ensures RateOutcome(RpmBaseline, None, false, d) == Ok((4.0 / 7.0, None))
  {
    assert F(d.sled.engineIdleRpm) == 1000.0 by { Float32.Value1000(); }
    assert F(d.sled.currentEngineRpm) == 5000.0 by { Float32.Value5000(); }
    assert F(d.sled.engineMaxRpm) == 8000.0 by { Float32.Value8000(); }
    RpmBaselineRatio(d);
  }

  /** "driveline" reads the signed driving-line byte shifted by 127 against
      255; its numerator lies in [-1, 254], and only -128 reports 0 by
      clamping. */
  lemma DrivelineRatio(d: Horizon4Datagram)
    ensures -1.0 <= RateCurrent(Driveline, d) <= 254.0
    ensures var r := RateOutcome(Driveline, None, false, d);
      r.Ok? && (d.dash.normalizedDrivingLine >= -127 ==>
        r.value.0 == (d.dash.normalizedDrivingLine as int + 127) as real / 255.0)
      && (d.dash.normalizedDrivingLine == -128 ==> r.value.0 == 0.0)
  {
    RatioBounds(RateCurrent(Driveline, d), 255.0);
  }

  /** `ScoreProperty::query` for "position": the one-based race position
      made zero-based, as a 32-bit signed value. */
  function Score(q: ScoreQuery, d: Horizon4Datagram): (s: int32)
    ensures -1 <= s <= 254
    ensures s + 1 == d.dash.racePosition as int
  {
    match q
    case Position => d.dash.racePosition as int - 1
  }

  /** `RateProperty`: the query, the stored maximum (a `Cell`, updated in
      place by a query) and whether the stored maximum is raised. */
  class RateProperty {
    const query: RateQuery
    var maxValue: Option<real>
    const autoRaise: bool

    constructor (query: RateQuery, maxValue: Option<real>, autoRaise: bool)
      ensures this.query == query && this.maxValue == maxValue && this.autoRaise == autoRaise
    {
      this.query := query;
      this.maxValue := maxValue;
      this.autoRaise := autoRaise;
    }

    /** `RateProperty::query`. */
    method Query(d: Horizon4Datagram) returns (r: Result<real, PropertyError>)
      modifies this
      ensures match RateOutcome(query, old(maxValue), autoRaise, d)
        case Ok(o) => r == Ok(o.0) && maxValue == o.1
        case Err(e) => r == Err(e) && maxValue == old(maxValue)
    {
      var current := RateCurrent(query, d);
      var max: real;
      match RateMax(query, d) {
        case Some(m) =>
          max := m;
        case None =>
          if maxValue.None? {
            return Err(MissingMax);
          }
          if autoRaise && current > maxValue.value {
            maxValue := Some(current);
          }
          max := maxValue.value;
      }
      r := Ok(Ratio(current, max));
    }
  }

  datatype Property = Rate(rate: RateProperty) | ScoreOf(score: ScoreQuery)

  /** `query_property`: look the name up and build the property. */
  method QueryProperty(input: Config.Input) returns (r: Result<Property, PropertyError>)
    ensures input.property !in PROPERTIES <==> r == Err(UnknownProperty(input.property))
    ensures input.property in PROPERTIES ==> r.Ok?
    ensures r.Ok? ==> (
      match PROPERTIES[input.property]
      case RateEntry(q) =>
        r.value.Rate? && fresh(r.value.rate) && r.value.rate.query == q
        && r.value.rate.maxValue == InitialMax(input) && r.value.rate.autoRaise == input.autoRaise
      case ScoreEntry(q) => r.value == ScoreOf(q))
  {
    if input.property !in PROPERTIES {
      return Err(UnknownProperty(input.property));
    }
    match PROPERTIES[input.property] {
      case RateEntry(q) =>
        var p := new RateProperty(q, InitialMax(input), input.autoRaise);
        r := Ok(Rate(p));
      case ScoreEntry(q) =>
        r := Ok(ScoreOf(q));
    }
  }

  /** The registry: five names, four of them rates, and only "speed" has
      no maximum of its own. */
  lemma Registry()
    ensures PROPERTIES.Keys == {"speed", "rpm", "rpm-baseline", "driveline", "position"}
    ensures forall n :: n in PROPERTIES && PROPERTIES[n].ScoreEntry? ==> n == "position"
    ensures forall n, d ::
      n in PROPERTIES && PROPERTIES[n].RateEntry? && RateMax(PROPERTIES[n].rate, d).None? ==> n == "speed"
  {
  }
}
