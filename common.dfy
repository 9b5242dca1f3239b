/** Shared vocabulary: optional values, dates as seconds, property-list values
    and the substring test the pump code relies on. */
module Common {

  datatype Option<+T> = None | Some(value: T) {
    function GetOr(default: T): T {
      match this
      case Some(v) => v
      case None => default
    }
  }

  datatype Result<+R, +E> = Ok(value: R) | Err(error: E)

  /** A date, as seconds since 1970-01-01 00:00:00 UTC (Foundation's
      `timeIntervalSince1970`); a Swift `Double` is modelled as a `real`. */
  type Time = real

  /** `Date.distantPast` (0001-01-01), in seconds since 1970. */
  const DistantPast: Time := -62135769600.0

  /** Foundation's reference date (2001-01-01), in seconds since 1970. */
  const ReferenceDate: Time := 978307200.0

  const Minute: real := 60.0
  const Hour: real := 3600.0

  function Abs(x: real): (r: real)
    ensures r >= 0.0 && (r == x || r == -x)
  {
    if x < 0.0 then -x else x
  }

  function Max(a: real, b: real): (r: real)
    ensures r >= a && r >= b && (r == a || r == b)
  {
    if a < b then b else a
  }

  function Min(a: real, b: real): (r: real)
    ensures r <= a && r <= b && (r == a || r == b)
  {
    if a < b then a else b
  }

  /** Concatenation regroups; stated once so that proofs about appended
      logs can name the three parts. */
  lemma AppendAssoc<T>(a: seq<T>, b: seq<T>, c: seq<T>)
    ensures (a + b) + c == a + (b + c)
  {
  }

  /** Swift's `String.contains(_:)` for a literal needle. */
  predicate Contains(s: string, needle: string)
    decreases |s|
  {
    |needle| <= |s| && (s[..|needle|] == needle || Contains(s[1..], needle))
  }

  /** A value stored in a `[String: Any]` property list. The raw forms of
      LoopKit's own types are kept as tagged values: each carries what that
      type's `init?(rawValue:)` yields (`None` when it fails). */
  datatype Value =
    | IntV(i: int)
    | BoolV(b: bool)
    | DoubleV(d: real)
    | StringV(s: string)
    | ListV(items: seq<Value>)
    | DictV(entries: map<string, Value>)
    | RangeRaw(range: Option<DoubleRange>)
    | ScheduleRaw(schedule: Option<GlucoseRangeSchedule>, overrideRanges: Option<map<string, Value>>)
    | OverrideRaw(scheduleOverride: Option<TemporaryScheduleOverride>)
    | PresetRaw(preset: Option<OverridePreset>)
    | ThresholdRaw(threshold: Option<GlucoseThreshold>)

  /** LoopKit `DoubleRange` (a target range), opaque here. */
  datatype DoubleRange = DoubleRange(minValue: real, maxValue: real)

  /** LoopKit `GlucoseRangeSchedule`, opaque apart from its glucose unit. */
  datatype GlucoseUnit = MilligramsPerDeciliter | MillimolesPerLiter | OtherUnit
  datatype GlucoseRangeSchedule = GlucoseRangeSchedule(unit: GlucoseUnit, id: nat)

  /** LoopKit `GlucoseThreshold` and `TemporaryScheduleOverridePreset`, opaque. */
  datatype GlucoseThreshold = GlucoseThreshold(unit: GlucoseUnit, value: real)
  datatype OverridePreset = OverridePreset(id: nat)

  /** LoopKit `TemporaryScheduleOverride`. */
  datatype OverrideContext = PreMeal | LegacyWorkout | Preset(preset: OverridePreset) | Custom
  datatype OverrideDuration = Finite(seconds: real) | Indefinite
  datatype EnactTrigger = Local | Remote | Autosense
  datatype OverrideSettings = OverrideSettings(unit: GlucoseUnit, targetRange: Option<DoubleRange>, insulinNeedsScaleFactor: Option<real>)
  datatype TemporaryScheduleOverride = TemporaryScheduleOverride(
    context: OverrideContext,
    settings: OverrideSettings,
    startDate: Time,
    duration: OverrideDuration,
    enactTrigger: EnactTrigger,
    syncIdentifier: nat)
  {
    /** Active from its start date through its end date, both included. */
    predicate IsActive(at: Time)
    {
      startDate <= at && (duration.Indefinite? || at <= startDate + duration.seconds)
    }
  }
}
