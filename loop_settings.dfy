/** The loop's persisted settings record (`LoopSettings`): a Swift struct, so a
    value here, with its versioned `[String: Any]` encoding, the override
    queries and the guardrail value lists. */
module Settings {
  import opened Common

  // ---------------------------------------------------------------------------
  // Dosing strategy
  // ---------------------------------------------------------------------------

  datatype DosingStrategy = TempBasalOnly | AutomaticBolus

  /** `DosingStrategy.rawValue` (an `Int` enum numbered from 0). */
  function StrategyRawValue(d: DosingStrategy): (r: int)
    ensures 0 <= r <= 1
  {
    match d
    case TempBasalOnly => 0
    case AutomaticBolus => 1
  }

  /** `DosingStrategy(rawValue:)`. */
  function StrategyFromRawValue(i: int): (r: Option<DosingStrategy>)
    ensures r.Some? <==> 0 <= i <= 1
    ensures r.Some? ==> StrategyRawValue(r.value) == i
  {
    if i == 0 then Some(TempBasalOnly)
    else if i == 1 then Some(AutomaticBolus)
    else None
  }

  lemma StrategyRoundTrip(d: DosingStrategy)
    ensures StrategyFromRawValue(StrategyRawValue(d)) == Some(d)
  {
  }

  // ---------------------------------------------------------------------------
  // The record
  // ---------------------------------------------------------------------------

  /** The encoding version this code writes and accepts. */
  const Version: int := 1

  const AutosenseInterval: real := 1.0 * Minute
  const AutosenseLookbackInterval: real := 4.0 * Hour
  const AutosenseSuspendInterval: real := 6.0 * Hour
  const AutotuneInterval: real := 24.0 * Hour
  const AutotuneLookbackInterval: real := 7.0 * 24.0 * Hour

  datatype LoopSettings = LoopSettings(
    dosingEnabled: bool,
    glucoseTargetRangeSchedule: Option<GlucoseRangeSchedule>,
    preMealTargetRange: Option<DoubleRange>,
    legacyWorkoutTargetRange: Option<DoubleRange>,
    overridePresets: seq<OverridePreset>,
    scheduleOverride: Option<TemporaryScheduleOverride>,
    maximumBasalRatePerHour: Option<real>,
    maximumBolus: Option<real>,
    maximumInsulinOnBoard: Option<real>,
    suspendThreshold: Option<GlucoseThreshold>,
    dosingStrategy: DosingStrategy,
    lastAutomaticBolus: Time,
    lastCarbChange: Time,
    lastAutosense: Time,
    autosenseFactor: real,
    autosenseEnabled: bool,
    autosenseSuspended: Option<Time>,
    lastAutotune: Time,
    autotuneCarbFactor: real,
    autotuneSensitivityFactor: real,
    autotuneBasalHourlyFactor: seq<real>,
    autotuneEnabled: bool,
    deviceToken: Option<seq<bv8>>)
  {
    /** `glucoseUnit`: the unit of the target range schedule, if any. */
    function GlucoseUnit(): Option<GlucoseUnit>
    {
      match glucoseTargetRangeSchedule
      case Some(s) => Some(s.unit)
      case None => None
    }

    predicate ScheduleOverrideEnabled(at: Time)
    {
      scheduleOverride.Some? && scheduleOverride.value.IsActive(at)
    }

    predicate NonPreMealOverrideEnabled(at: Time)
    {
      scheduleOverride.Some? && scheduleOverride.value.context != PreMeal && scheduleOverride.value.IsActive(at)
    }

    predicate PreMealTargetEnabled(at: Time)
    {
      scheduleOverride.Some? && scheduleOverride.value.context == PreMeal && scheduleOverride.value.IsActive(at)
    }

    predicate FutureOverrideEnabled(relativeTo: Time)
    {
      scheduleOverride.Some? && scheduleOverride.value.startDate > relativeTo
    }

    /** `preMealOverride(beginningAt:for:)`; `id` stands for the fresh `UUID()`. */
    function PreMealOverride(date: Time, duration: real, id: nat): (r: Option<TemporaryScheduleOverride>)
      ensures r.Some? <==> preMealTargetRange.Some? && glucoseTargetRangeSchedule.Some?
      ensures r.Some? ==> r.value.context == PreMeal && r.value.enactTrigger == Local
                          && r.value.startDate == date && r.value.duration == Finite(duration)
                          && r.value.settings.targetRange == preMealTargetRange
                          && r.value.syncIdentifier == id
    {
      match (preMealTargetRange, GlucoseUnit())
      case (Some(range), Some(unit)) =>
        Some(TemporaryScheduleOverride(PreMeal, OverrideSettings(unit, Some(range), None), date, Finite(duration), Local, id))
      case _ => None
    }

    /** `legacyWorkoutOverride(beginningAt:for:)`; an infinite `TimeInterval`
        is passed as `Indefinite`. */
    function LegacyWorkoutOverride(date: Time, duration: OverrideDuration, id: nat): (r: Option<TemporaryScheduleOverride>)
      ensures r.Some? <==> legacyWorkoutTargetRange.Some? && glucoseTargetRangeSchedule.Some?
      ensures r.Some? ==> r.value.context == LegacyWorkout && r.value.enactTrigger == Local
                          && r.value.startDate == date && r.value.duration == duration
                          && r.value.settings.targetRange == legacyWorkoutTargetRange
    {
      match (legacyWorkoutTargetRange, GlucoseUnit())
      case (Some(range), Some(unit)) =>
        Some(TemporaryScheduleOverride(LegacyWorkout, OverrideSettings(unit, Some(range), None), date, duration, Local, id))
      case _ => None
    }

    /** `enablePreMealOverride(at:for:)` (mutating): the override becomes the
        pre-meal override, or nil when there is no pre-meal range or unit. */
    function EnablePreMealOverride(date: Time, duration: real, id: nat): (r: LoopSettings)
      ensures r.scheduleOverride == PreMealOverride(date, duration, id)
      ensures r.(scheduleOverride := scheduleOverride) == this
    {
      this.(scheduleOverride := PreMealOverride(date, duration, id))
    }

    /** `enableLegacyWorkoutOverride(at:for:)` (mutating). */
    function EnableLegacyWorkoutOverride(date: Time, duration: OverrideDuration, id: nat): (r: LoopSettings)
      ensures r.scheduleOverride == LegacyWorkoutOverride(date, duration, id)
      ensures r.(scheduleOverride := scheduleOverride) == this
    {
      this.(scheduleOverride := LegacyWorkoutOverride(date, duration, id))
    }

    /** `clearOverride(matching:)` (mutating): with no context the override is
        always cleared; with a context only an override of that context is. */
    function ClearOverride(matching: Option<OverrideContext>): (r: LoopSettings)
      ensures r.(scheduleOverride := scheduleOverride) == this
      ensures r.scheduleOverride == None || r.scheduleOverride == scheduleOverride
      ensures r.scheduleOverride == None <==>
                (scheduleOverride == None || matching == None || scheduleOverride.value.context == matching.value)
    {
      match scheduleOverride
      case None => this
      case Some(o) =>
        match matching
        case Some(context) => if o.context == context then this.(scheduleOverride := None) else this
        case None => this.(scheduleOverride := None)
    }
  }

  /** The record as Swift's property initialisers leave it. */
  const Defaults: LoopSettings := LoopSettings(
    dosingEnabled := false,
    glucoseTargetRangeSchedule := None,
    preMealTargetRange := None,
    legacyWorkoutTargetRange := None,
    overridePresets := [],
    scheduleOverride := None,
    maximumBasalRatePerHour := None,
    maximumBolus := None,
    maximumInsulinOnBoard := None,
    suspendThreshold := None,
    dosingStrategy := TempBasalOnly,
    lastAutomaticBolus := DistantPast,
    lastCarbChange := DistantPast,
    lastAutosense := DistantPast,
    autosenseFactor := 1.0,
    autosenseEnabled := true,
    autosenseSuspended := None,
    lastAutotune := DistantPast,
    autotuneCarbFactor := 1.0,
    autotuneSensitivityFactor := 1.0,
    autotuneBasalHourlyFactor := [],
    autotuneEnabled := false,
    deviceToken := None)

  // ---------------------------------------------------------------------------
  // Override queries
  // ---------------------------------------------------------------------------

  lemma PreMealAndOtherOverrideExclusive(s: LoopSettings, at: Time)
    ensures !(s.PreMealTargetEnabled(at) && s.NonPreMealOverrideEnabled(at))
    ensures s.ScheduleOverrideEnabled(at) <==> s.PreMealTargetEnabled(at) || s.NonPreMealOverrideEnabled(at)
  {
  }

  lemma FutureOverrideIsNotActive(s: LoopSettings, at: Time)
    ensures s.FutureOverrideEnabled(at) <==> s.scheduleOverride.Some? && s.scheduleOverride.value.startDate > at
    ensures s.FutureOverrideEnabled(at) ==> !s.ScheduleOverrideEnabled(at)
  {
  }

  // ---------------------------------------------------------------------------
  // Guardrails
  // ---------------------------------------------------------------------------

  predicate StrictlyIncreasing(s: seq<real>)
  {
    forall i, j :: 0 <= i < j < |s| ==> s[i] < s[j]
  }

  /** `(lo...hi).map { Double($0) }`. */
  function Units(lo: int, hi: int): (r: seq<real>)
    requires lo <= hi
    ensures |r| == hi - lo + 1
    ensures forall i :: 0 <= i < |r| ==> r[i] == (lo + i) as real
  {
    seq(hi - lo + 1, i requires 0 <= i => (lo + i) as real)
  }

  /** `(lo...hi).map { Double($0) / 10.0 }`. */
  function Tenths(lo: int, hi: int): (r: seq<real>)
    requires lo <= hi
    ensures |r| == hi - lo + 1
    ensures forall i :: 0 <= i < |r| ==> r[i] == (lo + i) as real / 10.0
  {
    seq(hi - lo + 1, i requires 0 <= i => (lo + i) as real / 10.0)
  }

  lemma UnitsIncreasing(lo: int, hi: int)
    requires lo <= hi
    ensures StrictlyIncreasing(Units(lo, hi))
  {
  }

  lemma TenthsIncreasing(lo: int, hi: int)
    requires lo <= hi
    ensures StrictlyIncreasing(Tenths(lo, hi))
  {
  }

  /** `allowedSensitivityValues(for:)`: whole mg/dL from 50 to 200, or mmol/L
      from 0.6 to 27.0 in steps of 0.1, or nothing for another unit. */
  function AllowedSensitivityValues(unit: GlucoseUnit): (r: seq<real>)
    ensures StrictlyIncreasing(r)
    ensures unit == MilligramsPerDeciliter ==>
              |r| == 151 && r[0] == 50.0 && r[150] == 200.0
              && forall i :: 0 <= i < |r| ==> r[i] == (50 + i) as real
    ensures unit == MillimolesPerLiter ==>
              |r| == 265 && r[0] == 0.6 && r[264] == 27.0
              && forall i :: 0 <= i < |r| ==> r[i] * 10.0 == (6 + i) as real
    ensures unit == OtherUnit ==> r == []
  {
    match unit
    case MilligramsPerDeciliter => UnitsIncreasing(50, 200); Units(50, 200)
    case MillimolesPerLiter => TenthsIncreasing(6, 270); Tenths(6, 270)
    case OtherUnit => []
  }

  /** `allowedCorrectionRangeValues(for:)`: whole mg/dL from 60 to 180, or
      mmol/L from 3.3 to 10.0 in steps of 0.1, or nothing for another unit. */
  function AllowedCorrectionRangeValues(unit: GlucoseUnit): (r: seq<real>)
    ensures StrictlyIncreasing(r)
    ensures unit == MilligramsPerDeciliter ==>
              |r| == 121 && r[0] == 60.0 && r[120] == 180.0
              && forall i :: 0 <= i < |r| ==> r[i] == (60 + i) as real
    ensures unit == MillimolesPerLiter ==>
              |r| == 68 && r[0] == 3.3 && r[67] == 10.0
              && forall i :: 0 <= i < |r| ==> r[i] * 10.0 == (33 + i) as real
    ensures unit == OtherUnit ==> r == []
  {
    match unit
    case MilligramsPerDeciliter => UnitsIncreasing(60, 180); Units(60, 180)
    case MillimolesPerLiter => TenthsIncreasing(33, 100); Tenths(33, 100)
    case OtherUnit => []
  }

  // ---------------------------------------------------------------------------
  // Raw value (the `[String: Any]` property list)
  // ---------------------------------------------------------------------------

  /** The keys this record reads and writes; any other key is ignored. */
  datatype Key =
    | VersionKey | DosingEnabledKey | ScheduleKey | PreMealRangeKey | WorkoutRangeKey
    | PresetsKey | OverrideKey | MaxBasalKey | MaxBolusKey | MaxIOBKey | SuspendThresholdKey
    | DosingStrategyKey | LastAutomaticBolusKey | LastCarbChangeKey | LastAutosenseKey
    | LastAutotuneKey | AutosenseFactorKey
  {
    /** The dictionary key as spelled in the Swift code. */
    function Name(): string
    {
      match this
      case VersionKey => "version"
      case DosingEnabledKey => "dosingEnabled"
      case ScheduleKey => "glucoseTargetRangeSchedule"
      case PreMealRangeKey => "preMealTargetRange"
      case WorkoutRangeKey => "legacyWorkoutTargetRange"
      case PresetsKey => "overridePresets"
      case OverrideKey => "scheduleOverride"
      case MaxBasalKey => "maximumBasalRatePerHour"
      case MaxBolusKey => "maximumBolus"
      case MaxIOBKey => "maximumInsulinOnBoard"
      case SuspendThresholdKey => "minimumBGGuard"
      case DosingStrategyKey => "dosingStrategy"
      case LastAutomaticBolusKey => "lastAutomaticBolus"
      case LastCarbChangeKey => "lastCarbChange"
      case LastAutosenseKey => "lastAutosense"
      case LastAutotuneKey => "lastAutotune"
      case AutosenseFactorKey => "autosenseFactor"
    }
  }

  type PropertyList = map<Key, Value>

  /** `raw[key] as? Int` and friends. */
  function IntAt(raw: PropertyList, key: Key): Option<int>
  {
    if key in raw && raw[key].IntV? then Some(raw[key].i) else None
  }

  function BoolAt(raw: PropertyList, key: Key): Option<bool>
  {
    if key in raw && raw[key].BoolV? then Some(raw[key].b) else None
  }

  function DoubleAt(raw: PropertyList, key: Key): Option<real>
  {
    if key in raw && raw[key].DoubleV? then Some(raw[key].d) else None
  }

  /** `m as? [String: DoubleRange.RawValue]`: succeeds only when every value is
      a range's raw value. */
  predicate AllRanges(m: map<string, Value>)
  {
    forall k :: k in m ==> m[k].RangeRaw?
  }

  predicate AllPresets(items: seq<Value>)
  {
    forall i :: 0 <= i < |items| ==> items[i].PresetRaw?
  }

  /** `rawPresets.compactMap(TemporaryScheduleOverridePreset.init(rawValue:))`:
      the presets that decode, in order. */
  function CompactPresets(items: seq<Value>): (r: seq<OverridePreset>)
    requires AllPresets(items)
    ensures |r| <= |items|
  {
    if items == [] then []
    else
      var rest := CompactPresets(items[1..]);
      match items[0].preset
      case Some(p) => [p] + rest
      case None => rest
  }

  lemma {:induction false} CompactPresetsMembers(items: seq<Value>)
    requires AllPresets(items)
    ensures forall p :: p in CompactPresets(items) <==> PresetRaw(Some(p)) in items
  {
    if items != [] {
      CompactPresetsMembers(items[1..]);
      assert forall p :: PresetRaw(Some(p)) in items <==> items[0] == PresetRaw(Some(p)) || PresetRaw(Some(p)) in items[1..];
    }
  }

  /** The legacy `overrideRanges` of the schedule's raw value, when it has a
      dictionary of ranges. */
  function LegacyRanges(raw: PropertyList): Option<map<string, Value>>
  {
    if ScheduleKey in raw && raw[ScheduleKey].ScheduleRaw?
       && raw[ScheduleKey].overrideRanges.Some? && AllRanges(raw[ScheduleKey].overrideRanges.value)
    then raw[ScheduleKey].overrideRanges
    else None
  }

  /** A target range as decoded: the explicit key wins over the range migrated
      from the schedule's legacy `overrideRanges[legacyName]`. */
  function DecodedRange(raw: PropertyList, key: Key, legacyName: string): Option<DoubleRange>
  {
    if key in raw && raw[key].RangeRaw? then raw[key].range
    else if LegacyRanges(raw).Some? && legacyName in LegacyRanges(raw).value
    then LegacyRanges(raw).value[legacyName].range
    else None
  }

  function DecodedPresets(raw: PropertyList): seq<OverridePreset>
  {
    if PresetsKey in raw && raw[PresetsKey].ListV? && AllPresets(raw[PresetsKey].items)
    then CompactPresets(raw[PresetsKey].items)
    else []
  }

  function DecodedStrategy(raw: PropertyList): DosingStrategy
  {
    match IntAt(raw, DosingStrategyKey)
    case Some(i) => StrategyFromRawValue(i).GetOr(TempBasalOnly)
    case None => TempBasalOnly
  }

  /** `Date(timeIntervalSince1970: raw[key] as? TimeInterval ?? 0.0)`. */
  function DecodedDate(raw: PropertyList, key: Key): Time
  {
    DoubleAt(raw, key).GetOr(0.0)
  }

  /** `LoopSettings(rawValue:)`, field by field: nil unless the version is the
      integer 1; a key that is missing or of the wrong type leaves its field
      at the default (dates at 1970, the factor at 1.0, the strategy at
      temp-basal-only); fields that are never encoded take their defaults. */
  function FromRawValue(raw: PropertyList): (r: Option<LoopSettings>)
    ensures r.Some? <==> VersionKey in raw && raw[VersionKey] == IntV(Version)
    ensures r.Some? ==> r.value.autosenseEnabled == Defaults.autosenseEnabled
                        && r.value.autosenseSuspended == None
                        && r.value.autotuneCarbFactor == 1.0
                        && r.value.autotuneSensitivityFactor == 1.0
                        && r.value.autotuneBasalHourlyFactor == []
                        && !r.value.autotuneEnabled
                        && r.value.deviceToken == None
    ensures r.Some? && DosingEnabledKey !in raw ==> !r.value.dosingEnabled
    ensures r.Some? && AutosenseFactorKey !in raw ==> r.value.autosenseFactor == 1.0
    ensures r.Some? && LastAutosenseKey !in raw ==> r.value.lastAutosense == 0.0
    ensures r.Some? && LastAutotuneKey !in raw ==> r.value.lastAutotune == 0.0
    ensures r.Some? && LastAutomaticBolusKey !in raw ==> r.value.lastAutomaticBolus == 0.0
    ensures r.Some? && LastCarbChangeKey !in raw ==> r.value.lastCarbChange == 0.0
    ensures r.Some? && OverrideKey !in raw ==> r.value.scheduleOverride == None
    ensures r.Some? && MaxBolusKey !in raw ==> r.value.maximumBolus == None
    ensures r.Some? && (IntAt(raw, DosingStrategyKey).None?
                        || StrategyFromRawValue(IntAt(raw, DosingStrategyKey).value).None?) ==>
              r.value.dosingStrategy == TempBasalOnly
  {
    if IntAt(raw, VersionKey) != Some(Version) then None
    else Some(Defaults.(
      dosingEnabled := BoolAt(raw, DosingEnabledKey).GetOr(Defaults.dosingEnabled),
      glucoseTargetRangeSchedule :=
        if ScheduleKey in raw && raw[ScheduleKey].ScheduleRaw? then raw[ScheduleKey].schedule else None,
      preMealTargetRange := DecodedRange(raw, PreMealRangeKey, "preMeal"),
      legacyWorkoutTargetRange := DecodedRange(raw, WorkoutRangeKey, "workout"),
      overridePresets := DecodedPresets(raw),
      scheduleOverride :=
        if OverrideKey in raw && raw[OverrideKey].OverrideRaw? then raw[OverrideKey].scheduleOverride else None,
      maximumBasalRatePerHour := DoubleAt(raw, MaxBasalKey),
      maximumBolus := DoubleAt(raw, MaxBolusKey),
      maximumInsulinOnBoard := DoubleAt(raw, MaxIOBKey),
      suspendThreshold :=
        if SuspendThresholdKey in raw && raw[SuspendThresholdKey].ThresholdRaw? then raw[SuspendThresholdKey].threshold else None,
      dosingStrategy := DecodedStrategy(raw),
      lastAutomaticBolus := DecodedDate(raw, LastAutomaticBolusKey),
      lastCarbChange := DecodedDate(raw, LastCarbChangeKey),
      lastAutosense := DecodedDate(raw, LastAutosenseKey),
      lastAutotune := DecodedDate(raw, LastAutotuneKey),
      autosenseFactor := DoubleAt(raw, AutosenseFactorKey).GetOr(1.0)))
  }

  /** `raw[key] = value` on a Swift dictionary, for a key not yet set (the
      only use here): a nil value leaves the key out. */
  function Put(raw: PropertyList, key: Key, v: Option<Value>): PropertyList
  {
    if v.Some? then raw[key := v.value] else raw
  }

  function PresetsRaw(presets: seq<OverridePreset>): (r: seq<Value>)
    ensures |r| == |presets| && forall i :: 0 <= i < |r| ==> r[i] == PresetRaw(Some(presets[i]))
  {
    seq(|presets|, i requires 0 <= i < |presets| => PresetRaw(Some(presets[i])))
  }

  function RangeValue(r: Option<DoubleRange>): Option<Value>
  {
    match r case Some(x) => Some(RangeRaw(Some(x))) case None => None
  }

  function DoubleValue(d: Option<real>): Option<Value>
  {
    match d case Some(x) => Some(DoubleV(x)) case None => None
  }

  /** A schedule's own raw value; it carries no legacy override ranges. */
  function ScheduleValue(g: Option<GlucoseRangeSchedule>): Option<Value>
  {
    match g case Some(x) => Some(ScheduleRaw(Some(x), None)) case None => None
  }

  function OverrideValue(o: Option<TemporaryScheduleOverride>): Option<Value>
  {
    match o case Some(x) => Some(OverrideRaw(Some(x))) case None => None
  }

  function ThresholdValue(t: Option<GlucoseThreshold>): Option<Value>
  {
    match t case Some(x) => Some(ThresholdRaw(Some(x))) case None => None
  }

  /** What `rawValue` writes under one key, `None` when it writes nothing. */
  function Entry(s: LoopSettings, key: Key): Option<Value>
  {
    match key
    case VersionKey => Some(IntV(Version))
    case DosingEnabledKey => Some(BoolV(s.dosingEnabled))
    case ScheduleKey => ScheduleValue(s.glucoseTargetRangeSchedule)
    case PreMealRangeKey => RangeValue(s.preMealTargetRange)
    case WorkoutRangeKey => RangeValue(s.legacyWorkoutTargetRange)
    case PresetsKey => Some(ListV(PresetsRaw(s.overridePresets)))
    case OverrideKey => OverrideValue(s.scheduleOverride)
    case MaxBasalKey => DoubleValue(s.maximumBasalRatePerHour)
    case MaxBolusKey => DoubleValue(s.maximumBolus)
    case MaxIOBKey => DoubleValue(s.maximumInsulinOnBoard)
    case SuspendThresholdKey => ThresholdValue(s.suspendThreshold)
    case DosingStrategyKey => Some(IntV(StrategyRawValue(s.dosingStrategy)))
    case LastAutomaticBolusKey => Some(DoubleV(s.lastAutomaticBolus))
    case LastCarbChangeKey => Some(DoubleV(s.lastCarbChange))
    case LastAutosenseKey => Some(DoubleV(s.lastAutosense))
    case LastAutotuneKey => Some(DoubleV(s.lastAutotune))
    case AutosenseFactorKey => Some(DoubleV(s.autosenseFactor))
  }

  /** The position of a key's assignment in the Swift getter ... */
  function Position(k: Key): (n: nat)
    ensures n < 17
  {
    match k
    case VersionKey => 0
    case DosingEnabledKey => 1
    case PresetsKey => 2
    case ScheduleKey => 3
    case PreMealRangeKey => 4
    case WorkoutRangeKey => 5
    case OverrideKey => 6
    case MaxBasalKey => 7
    case MaxBolusKey => 8
    case MaxIOBKey => 9
    case SuspendThresholdKey => 10
    case DosingStrategyKey => 11
    case LastAutomaticBolusKey => 12
    case LastCarbChangeKey => 13
    case LastAutosenseKey => 14
    case LastAutotuneKey => 15
    case AutosenseFactorKey => 16
  }

  /** ... and the key assigned at a position. */
  function KeyAt(n: nat): (k: Key)
    requires n < 17
    ensures Position(k) == n
  {
    if n == 0 then VersionKey
    else if n == 1 then DosingEnabledKey
    else if n == 2 then PresetsKey
    else if n == 3 then ScheduleKey
    else if n == 4 then PreMealRangeKey
    else if n == 5 then WorkoutRangeKey
    else if n == 6 then OverrideKey
    else if n == 7 then MaxBasalKey
    else if n == 8 then MaxBolusKey
    else if n == 9 then MaxIOBKey
    else if n == 10 then SuspendThresholdKey
    else if n == 11 then DosingStrategyKey
    else if n == 12 then LastAutomaticBolusKey
    else if n == 13 then LastCarbChangeKey
    else if n == 14 then LastAutosenseKey
    else if n == 15 then LastAutotuneKey
    else AutosenseFactorKey
  }

  lemma KeyAtPosition(k: Key)
    ensures KeyAt(Position(k)) == k
  {
  }

  /** The dictionary once the getter has handled its first `n` keys. */
  ghost function Written(s: LoopSettings, n: nat): PropertyList
    requires n <= 17
  {
    if n == 0 then map[] else Put(Written(s, n - 1), KeyAt(n - 1), Entry(s, KeyAt(n - 1)))
  }

  /** Storing under one key leaves every other key as it was. */
  lemma PutAt(raw: PropertyList, key: Key, v: Option<Value>, k: Key)
    ensures k in Put(raw, key, v) <==> (k == key && v.Some?) || k in raw
    ensures k in Put(raw, key, v) ==> Put(raw, key, v)[k] == (if k == key && v.Some? then v.value else raw[k])
  {
  }

  lemma {:induction false} WrittenAt(s: LoopSettings, n: nat, k: Key)
    requires n <= 17
    ensures k in Written(s, n) <==> Position(k) < n && Entry(s, k).Some?
    ensures k in Written(s, n) ==> Written(s, n)[k] == Entry(s, k).value
  {
    if n > 0 {
      WrittenAt(s, n - 1, k);
      var key := KeyAt(n - 1);
      if Position(k) == n - 1 {
        KeyAtPosition(k);
      }
      PutAt(Written(s, n - 1), key, Entry(s, key), k);
    }
  }

  /** `rawValue`: every entry that is not nil, and nothing else. */
  function RawValue(s: LoopSettings): PropertyList
  {
    map k: Key | Entry(s, k).Some? :: Entry(s, k).value
  }

  /** Key by key, the encoding holds exactly the entries that are not nil. */
  lemma RawValueAt(s: LoopSettings, k: Key)
    ensures k in RawValue(s) <==> Entry(s, k).Some?
    ensures k in RawValue(s) ==> RawValue(s)[k] == Entry(s, k).value
  {
  }

  /** Encoding always writes version 1, dosingEnabled and the presets, and
      writes an optional setting's key exactly when that setting is set. */
  lemma EncodingKeys(s: LoopSettings)
    ensures VersionKey in RawValue(s) && RawValue(s)[VersionKey] == IntV(Version)
    ensures DosingEnabledKey in RawValue(s) && RawValue(s)[DosingEnabledKey] == BoolV(s.dosingEnabled)
    ensures PresetsKey in RawValue(s)
    ensures OverrideKey in RawValue(s) <==> s.scheduleOverride.Some?
    ensures MaxBolusKey in RawValue(s) <==> s.maximumBolus.Some?
  {
    RawValueAt(s, VersionKey);
    RawValueAt(s, DosingEnabledKey);
    RawValueAt(s, PresetsKey);
    RawValueAt(s, OverrideKey);
    RawValueAt(s, MaxBolusKey);
  }

  /** What survives a save and reload: the fields that are never encoded
      return to their defaults. */
  function Persisted(s: LoopSettings): LoopSettings
  {
    s.(autosenseEnabled := Defaults.autosenseEnabled,
       autosenseSuspended := Defaults.autosenseSuspended,
       autotuneCarbFactor := Defaults.autotuneCarbFactor,
       autotuneSensitivityFactor := Defaults.autotuneSensitivityFactor,
       autotuneBasalHourlyFactor := Defaults.autotuneBasalHourlyFactor,
       autotuneEnabled := Defaults.autotuneEnabled,
       deviceToken := Defaults.deviceToken)
  }

  lemma {:induction false} CompactPresetsOfEncoding(presets: seq<OverridePreset>)
    ensures AllPresets(PresetsRaw(presets))
    ensures CompactPresets(PresetsRaw(presets)) == presets
  {
    if presets != [] {
      CompactPresetsOfEncoding(presets[1..]);
      assert PresetsRaw(presets)[1..] == PresetsRaw(presets[1..]);
    }
  }

  /** Each decoder reads back what the encoder wrote under its key. */
  lemma DecodesEncodedFields(s: LoopSettings)
    ensures IntAt(RawValue(s), VersionKey) == Some(Version)
    ensures BoolAt(RawValue(s), DosingEnabledKey) == Some(s.dosingEnabled)
    ensures LegacyRanges(RawValue(s)) == None
    ensures DecodedRange(RawValue(s), PreMealRangeKey, "preMeal") == s.preMealTargetRange
    ensures DecodedRange(RawValue(s), WorkoutRangeKey, "workout") == s.legacyWorkoutTargetRange
    ensures DoubleAt(RawValue(s), MaxBasalKey) == s.maximumBasalRatePerHour
    ensures DoubleAt(RawValue(s), MaxBolusKey) == s.maximumBolus
    ensures DoubleAt(RawValue(s), MaxIOBKey) == s.maximumInsulinOnBoard
  {
    RawValueAt(s, VersionKey);
    RawValueAt(s, DosingEnabledKey);
    RawValueAt(s, ScheduleKey);
    RawValueAt(s, PreMealRangeKey);
    RawValueAt(s, WorkoutRangeKey);
    RawValueAt(s, MaxBasalKey);
    RawValueAt(s, MaxBolusKey);
    RawValueAt(s, MaxIOBKey);
  }

  lemma DecodesEncodedChoices(s: LoopSettings)
    ensures DecodedPresets(RawValue(s)) == s.overridePresets
    ensures DecodedStrategy(RawValue(s)) == s.dosingStrategy
  {
    CompactPresetsOfEncoding(s.overridePresets);
    StrategyRoundTrip(s.dosingStrategy);
    RawValueAt(s, PresetsKey);
    RawValueAt(s, DosingStrategyKey);
  }

  lemma DecodesEncodedHistory(s: LoopSettings)
    ensures DecodedDate(RawValue(s), LastAutomaticBolusKey) == s.lastAutomaticBolus
    ensures DecodedDate(RawValue(s), LastCarbChangeKey) == s.lastCarbChange
    ensures DecodedDate(RawValue(s), LastAutosenseKey) == s.lastAutosense
    ensures DecodedDate(RawValue(s), LastAutotuneKey) == s.lastAutotune
    ensures DoubleAt(RawValue(s), AutosenseFactorKey) == Some(s.autosenseFactor)
  {
    RawValueAt(s, LastAutomaticBolusKey);
    RawValueAt(s, LastCarbChangeKey);
    RawValueAt(s, LastAutosenseKey);
    RawValueAt(s, LastAutotuneKey);
    RawValueAt(s, AutosenseFactorKey);
  }

  /** Decoding the encoding gives back every persisted field. */
  lemma RoundTrip(s: LoopSettings)
    ensures FromRawValue(RawValue(s)) == Some(Persisted(s))
  {
    DecodesEncodedFields(s);
    DecodesEncodedChoices(s);
    DecodesEncodedHistory(s);
  }

  /** A second save and reload changes nothing more. */
  lemma ReloadIsIdempotent(s: LoopSettings)
    ensures FromRawValue(RawValue(Persisted(s))) == Some(Persisted(s))
  {
    RoundTrip(Persisted(s));
  }

  /** An explicit `preMealTargetRange` key overrides the range migrated from
      the schedule's legacy `overrideRanges`; without it the migrated one is
      used. */
  lemma ExplicitRangeOverridesMigration(raw: PropertyList, legacy: map<string, Value>, explicit: Option<DoubleRange>, migrated: Option<DoubleRange>)
    requires VersionKey in raw && raw[VersionKey] == IntV(Version)
    requires ScheduleKey in raw && raw[ScheduleKey].ScheduleRaw?
    requires raw[ScheduleKey].overrideRanges == Some(legacy)
    requires AllRanges(legacy) && "preMeal" in legacy && legacy["preMeal"] == RangeRaw(migrated)
    ensures PreMealRangeKey !in raw ==> FromRawValue(raw).value.preMealTargetRange == migrated
    ensures FromRawValue(raw[PreMealRangeKey := RangeRaw(explicit)]).value.preMealTargetRange == explicit
  {
    var raw' := raw[PreMealRangeKey := RangeRaw(explicit)];
    assert raw'[VersionKey] == IntV(Version);
  }

  // ---------------------------------------------------------------------------
  // The Swift code, step by step
  // ---------------------------------------------------------------------------

  /** `init?(rawValue:)`, setting one field after the other as the Swift
      initialiser does; each field starts at its property default. */
  method InitFromRawValue(raw: PropertyList) returns (r: Option<LoopSettings>)
    ensures r == FromRawValue(raw)
  {
    if !(VersionKey in raw && raw[VersionKey].IntV? && raw[VersionKey].i == Version) {
      return None;
    }
    var dosingEnabled := Defaults.dosingEnabled;
    if DosingEnabledKey in raw && raw[DosingEnabledKey].BoolV? {
      dosingEnabled := raw[DosingEnabledKey].b;
    }
    assert dosingEnabled == BoolAt(raw, DosingEnabledKey).GetOr(Defaults.dosingEnabled);
    var glucoseTargetRangeSchedule := Defaults.glucoseTargetRangeSchedule;
    var preMealTargetRange := Defaults.preMealTargetRange;
    var legacyWorkoutTargetRange := Defaults.legacyWorkoutTargetRange;
    if ScheduleKey in raw && raw[ScheduleKey].ScheduleRaw? {
      var scheduleRaw := raw[ScheduleKey];
      glucoseTargetRangeSchedule := scheduleRaw.schedule;
      // Migrate the schedule's legacy override targets.
      if scheduleRaw.overrideRanges.Some? && AllRanges(scheduleRaw.overrideRanges.value) {
        var ranges := scheduleRaw.overrideRanges.value;
        if "preMeal" in ranges {
          preMealTargetRange := ranges["preMeal"].range;
        }
        if "workout" in ranges {
          legacyWorkoutTargetRange := ranges["workout"].range;
        }
      }
    }
    if PreMealRangeKey in raw && raw[PreMealRangeKey].RangeRaw? {
      preMealTargetRange := raw[PreMealRangeKey].range;
    }
    if WorkoutRangeKey in raw && raw[WorkoutRangeKey].RangeRaw? {
      legacyWorkoutTargetRange := raw[WorkoutRangeKey].range;
    }
    assert preMealTargetRange == DecodedRange(raw, PreMealRangeKey, "preMeal");
    assert legacyWorkoutTargetRange == DecodedRange(raw, WorkoutRangeKey, "workout");
    var overridePresets := Defaults.overridePresets;
    if PresetsKey in raw && raw[PresetsKey].ListV? && AllPresets(raw[PresetsKey].items) {
      overridePresets := CompactPresets(raw[PresetsKey].items);
    }
    assert overridePresets == DecodedPresets(raw);
    var scheduleOverride := Defaults.scheduleOverride;
    if OverrideKey in raw && raw[OverrideKey].OverrideRaw? {
      scheduleOverride := raw[OverrideKey].scheduleOverride;
    }
    var maximumBasalRatePerHour := DoubleAt(raw, MaxBasalKey);
    var maximumBolus := DoubleAt(raw, MaxBolusKey);
    var maximumInsulinOnBoard := DoubleAt(raw, MaxIOBKey);
    var suspendThreshold := Defaults.suspendThreshold;
    if SuspendThresholdKey in raw && raw[SuspendThresholdKey].ThresholdRaw? {
      suspendThreshold := raw[SuspendThresholdKey].threshold;
    }
    var dosingStrategy := Defaults.dosingStrategy;
    if DosingStrategyKey in raw && raw[DosingStrategyKey].IntV? {
      var strategy := StrategyFromRawValue(raw[DosingStrategyKey].i);
      if strategy.Some? {
        dosingStrategy := strategy.value;
      }
    }
    assert dosingStrategy == DecodedStrategy(raw);
    var lastAutomaticBolus := DoubleAt(raw, LastAutomaticBolusKey).GetOr(0.0);
    var lastCarbChange := DoubleAt(raw, LastCarbChangeKey).GetOr(0.0);
    var lastAutosense := DoubleAt(raw, LastAutosenseKey).GetOr(0.0);
    var lastAutotune := DoubleAt(raw, LastAutotuneKey).GetOr(0.0);
    var autosenseFactor := DoubleAt(raw, AutosenseFactorKey).GetOr(1.0);
    r := Some(Defaults.(
      dosingEnabled := dosingEnabled,
      glucoseTargetRangeSchedule := glucoseTargetRangeSchedule,
      preMealTargetRange := preMealTargetRange,
      legacyWorkoutTargetRange := legacyWorkoutTargetRange,
      overridePresets := overridePresets,
      scheduleOverride := scheduleOverride,
      maximumBasalRatePerHour := maximumBasalRatePerHour,
      maximumBolus := maximumBolus,
      maximumInsulinOnBoard := maximumInsulinOnBoard,
      suspendThreshold := suspendThreshold,
      dosingStrategy := dosingStrategy,
      lastAutomaticBolus := lastAutomaticBolus,
      lastCarbChange := lastCarbChange,
      lastAutosense := lastAutosense,
      lastAutotune := lastAutotune,
      autosenseFactor := autosenseFactor));
  }

  /** The dictionary literal the getter starts from. */
  lemma HeaderWritten(s: LoopSettings)
    ensures Written(s, 3) == map[VersionKey := IntV(Version),
                                 DosingEnabledKey := BoolV(s.dosingEnabled),
                                 PresetsKey := ListV(PresetsRaw(s.overridePresets))]
  {
    assert Written(s, 1) == map[VersionKey := IntV(Version)];
    assert Written(s, 2) == map[VersionKey := IntV(Version), DosingEnabledKey := BoolV(s.dosingEnabled)];
  }

  lemma WrittenAll(s: LoopSettings)
    ensures Written(s, 17) == RawValue(s)
  {
    forall k: Key ensures (k in Written(s, 17) <==> k in RawValue(s))
                          && (k in RawValue(s) ==> Written(s, 17)[k] == RawValue(s)[k]) {
      WrittenAt(s, 17, k);
    }
  }

  /** `rawValue`, filling a `var raw` dictionary as the Swift getter does. */
  method GetRawValue(s: LoopSettings) returns (raw: PropertyList)
    ensures raw == RawValue(s)
  {
    raw := map[VersionKey := IntV(Version),
               DosingEnabledKey := BoolV(s.dosingEnabled),
               PresetsKey := ListV(PresetsRaw(s.overridePresets))];
    HeaderWritten(s);
    raw := Put(raw, ScheduleKey, ScheduleValue(s.glucoseTargetRangeSchedule));
    assert raw == Written(s, 4);
    raw := Put(raw, PreMealRangeKey, RangeValue(s.preMealTargetRange));
    assert raw == Written(s, 5);
    raw := Put(raw, WorkoutRangeKey, RangeValue(s.legacyWorkoutTargetRange));
    assert raw == Written(s, 6);
    raw := Put(raw, OverrideKey, OverrideValue(s.scheduleOverride));
    assert raw == Written(s, 7);
    raw := Put(raw, MaxBasalKey, DoubleValue(s.maximumBasalRatePerHour));
    assert raw == Written(s, 8);
    raw := Put(raw, MaxBolusKey, DoubleValue(s.maximumBolus));
    assert raw == Written(s, 9);
    raw := Put(raw, MaxIOBKey, DoubleValue(s.maximumInsulinOnBoard));
    assert raw == Written(s, 10);
    raw := Put(raw, SuspendThresholdKey, ThresholdValue(s.suspendThreshold));
    assert raw == Written(s, 11);
    raw := raw[DosingStrategyKey := IntV(StrategyRawValue(s.dosingStrategy))];
    assert raw == Written(s, 12);
    raw := raw[LastAutomaticBolusKey := DoubleV(s.lastAutomaticBolus)];
    assert raw == Written(s, 13);
    raw := raw[LastCarbChangeKey := DoubleV(s.lastCarbChange)];
    assert raw == Written(s, 14);
    raw := raw[LastAutosenseKey := DoubleV(s.lastAutosense)];
    assert raw == Written(s, 15);
    raw := raw[LastAutotuneKey := DoubleV(s.lastAutotune)];
    assert raw == Written(s, 16);
    raw := raw[AutosenseFactorKey := DoubleV(s.autosenseFactor)];
    assert raw == Written(s, 17);
    WrittenAll(s);
  }
}
