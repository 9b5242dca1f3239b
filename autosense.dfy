/** `AutoAdjust.autoSense`: the adaptive sensitivity estimator. It looks at
    the glucose samples of the lookback window, derives an insulin-needs
    factor from the time spent high or low, stores it in the settings and
    installs or clears an autosense override. */
module Autosense {
  import opened Common
  import opened Settings

  /** One cached glucose sample: its start date and its value in mg/dL. */
  datatype GlucoseSample = GlucoseSample(startDate: Time, mgdl: real)

  const HighThreshold: real := 180.0
  const LowThreshold: real := 60.0
  const LowestFactor: real := 0.2
  const HighestFactor: real := 2.0
  const ScaleBack: real := 0.8
  const TriggerLowRatio: real := 0.1
  const TriggerHighRatio: real := 0.1

  // ---------------------------------------------------------------------------
  // What the sample loop accumulates
  // ---------------------------------------------------------------------------

  /** The gap between sample `i` and its predecessor; the first sample is its
      own predecessor, so its gap is 0. */
  function Gap(g: seq<GlucoseSample>, i: nat): real
    requires i < |g|
  {
    if i == 0 then 0.0 else g[i].startDate - g[i - 1].startDate
  }

  /** Total gap ending at a sample above 180 mg/dL, over the first `n` samples. */
  function TimeHigh(g: seq<GlucoseSample>, n: nat): real
    requires n <= |g|
  {
    if n == 0 then 0.0
    else TimeHigh(g, n - 1) + (if g[n - 1].mgdl > HighThreshold then Gap(g, n - 1) else 0.0)
  }

  /** Total gap ending at a sample below 60 mg/dL, over the first `n` samples. */
  function TimeLow(g: seq<GlucoseSample>, n: nat): real
    requires n <= |g|
  {
    if n == 0 then 0.0
    else TimeLow(g, n - 1) + (if g[n - 1].mgdl < LowThreshold then Gap(g, n - 1) else 0.0)
  }

  function SumBG(g: seq<GlucoseSample>, n: nat): real
    requires n <= |g|
  {
    if n == 0 then 0.0 else SumBG(g, n - 1) + g[n - 1].mgdl
  }

  /** With samples in ascending order, the time high and the time low are
      disjoint parts of the span from the first to the `n`-th sample. */
  lemma {:induction false} HighAndLowWithinSpan(g: seq<GlucoseSample>, n: nat)
    requires 0 < n <= |g|
    requires forall i :: 0 < i < |g| ==> g[i - 1].startDate <= g[i].startDate
    ensures 0.0 <= TimeHigh(g, n) && 0.0 <= TimeLow(g, n)
    ensures TimeHigh(g, n) + TimeLow(g, n) <= g[n - 1].startDate - g[0].startDate
  {
    if n > 1 {
      HighAndLowWithinSpan(g, n - 1);
    }
  }

  /** A sample only adds to the time high when it is above 180 mg/dL: samples
      that are all at most 180 give no time high. */
  lemma {:induction false} NoHighWithoutHighSamples(g: seq<GlucoseSample>, n: nat)
    requires n <= |g|
    requires forall i :: 0 <= i < n ==> g[i].mgdl <= HighThreshold
    ensures TimeHigh(g, n) == 0.0
  {
    if n > 0 {
      NoHighWithoutHighSamples(g, n - 1);
    }
  }

  // ---------------------------------------------------------------------------
  // The factor
  // ---------------------------------------------------------------------------

  /** The unclamped factor, branch by branch: the low branch wins over the
      high one; the high branch adds a boost for a current and for a mean
      glucose above 180 mg/dL; otherwise the old factor decays towards 1. */
  function RawFactor(lowRatio: real, highRatio: real, current: real, mean: real, oldFactor: real): (f: real)
    ensures lowRatio > TriggerLowRatio ==> f == 1.0 - lowRatio
    ensures lowRatio <= TriggerLowRatio && highRatio > TriggerHighRatio ==>
              f >= 1.0 + highRatio * 0.5
              && (current <= HighThreshold && mean <= HighThreshold ==> f == 1.0 + highRatio * 0.5)
    ensures lowRatio <= TriggerLowRatio && highRatio <= TriggerHighRatio ==>
              f - 1.0 == (oldFactor - 1.0) * ScaleBack
  {
    if lowRatio > TriggerLowRatio then 1.0 - lowRatio
    else if highRatio > TriggerHighRatio then
      var f := 1.0 + highRatio * 0.5;
      var f := if current > HighThreshold then f + (current - HighThreshold) / 220.0 * 0.5 else f;
      if mean > HighThreshold then f + (mean - HighThreshold) / 100.0 * 0.5 else f
    else 1.0 + (oldFactor - 1.0) * ScaleBack
  }

  /** `max(min(f, 2.0), 0.2)`. */
  function Clamp(f: real): (r: real)
    ensures LowestFactor <= r <= HighestFactor
    ensures LowestFactor <= f <= HighestFactor ==> r == f
    ensures f < LowestFactor ==> r == LowestFactor
    ensures f > HighestFactor ==> r == HighestFactor
  {
    Max(Min(f, HighestFactor), LowestFactor)
  }

  /** `round(f * 10) / 10` for a non-negative `f`: Swift's `round` takes
      halves away from zero, which for non-negative values is
      `floor(x + 0.5)`. */
  function RoundToTenth(f: real): (r: real)
    requires f >= 0.0
    ensures r * 10.0 == (r * 10.0).Floor as real
    ensures -0.05 < r - f <= 0.05
  {
    ((f * 10.0 + 0.5).Floor as real) / 10.0
  }

  /** Rounding a clamped factor stays within the bounds. */
  lemma RoundedFactorInBounds(f: real)
    requires LowestFactor <= f <= HighestFactor
    ensures LowestFactor <= RoundToTenth(f) <= HighestFactor
  {
    var x := f * 10.0 + 0.5;
    assert 2.5 <= x <= 20.5;
    assert 2 <= x.Floor <= 20;
  }

  // ---------------------------------------------------------------------------
  // The whole run
  // ---------------------------------------------------------------------------

  /** The override autosense installs: custom context, mg/dL, no target
      range, the rounded factor as insulin-needs scale, starting now and
      lasting twice the autosense interval. */
  function AutosenseOverride(rounded: real, now: Time, id: nat): TemporaryScheduleOverride
  {
    TemporaryScheduleOverride(
      Custom, OverrideSettings(MilligramsPerDeciliter, None, Some(rounded)),
      now, Finite(AutosenseInterval * 2.0), Autosense, id)
  }

  /** The run is rate-limited by the autosense interval. */
  predicate TooSoon(s: LoopSettings, now: Time)
  {
    Abs(s.lastAutosense - now) < AutosenseInterval
  }

  /** Enough data: more than 12 samples spanning more than half the lookback. */
  predicate EnoughData(g: seq<GlucoseSample>)
  {
    |g| > 12 && g[|g| - 1].startDate - g[0].startDate > AutosenseLookbackInterval / 2.0
  }

  /** The clamped factor for a sample list with enough data. */
  function NewFactor(g: seq<GlucoseSample>, oldFactor: real): (f: real)
    requires EnoughData(g)
    ensures LowestFactor <= f <= HighestFactor
  {
    var analyzed := g[|g| - 1].startDate - g[0].startDate;
    Clamp(RawFactor(TimeLow(g, |g|) / analyzed, TimeHigh(g, |g|) / analyzed,
                    g[|g| - 1].mgdl, SumBG(g, |g|) / (|g| as real), oldFactor))
  }

  /** The override decision once the factor is stored: an override not set by
      autosense is kept; a rounded factor of 1.0 clears an autosense override;
      otherwise a new one is installed when autosense is enabled and was not
      suspended within the last 6 hours. */
  function OverrideAfter(s: LoopSettings, rounded: real, now: Time, id: nat): Option<TemporaryScheduleOverride>
  {
    if s.scheduleOverride.Some? && s.scheduleOverride.value.enactTrigger != Autosense then s.scheduleOverride
    else if rounded == 1.0 then None
    else if s.autosenseEnabled && Abs(s.autosenseSuspended.GetOr(DistantPast) - now) > AutosenseSuspendInterval
    then Some(AutosenseOverride(rounded, now, id))
    else s.scheduleOverride
  }

  /** The settings after a run over the samples `g` (those held once the
      fetch is done). */
  function AutoSenseSettings(s: LoopSettings, now: Time, g: seq<GlucoseSample>, id: nat): LoopSettings
  {
    if TooSoon(s, now) || |g| == 0 || !EnoughData(g) then s
    else
      var f := NewFactor(g, s.autosenseFactor);
      s.(lastAutosense := now, autosenseFactor := f,
         scheduleOverride := OverrideAfter(s, RoundToTenth(f), now, id))
  }

  /** A run that passes the data checks stores the date and the factor `f`,
      then takes the override decision on the settings so updated. */
  lemma RunWithData(s: LoopSettings, now: Time, g: seq<GlucoseSample>, id: nat, f: real)
    requires !TooSoon(s, now) && EnoughData(g) && f == NewFactor(g, s.autosenseFactor)
    ensures var stored := s.(lastAutosense := now, autosenseFactor := f);
            AutoSenseSettings(s, now, g, id)
            == stored.(scheduleOverride := OverrideAfter(stored, RoundToTenth(f), now, id))
  {
  }

  /** A run too soon after the last one, or without samples, or with too
      little data, leaves every setting unchanged. */
  lemma NothingChangesWithoutData(s: LoopSettings, now: Time, g: seq<GlucoseSample>, id: nat)
    requires TooSoon(s, now) || |g| <= 12 || g[|g| - 1].startDate - g[0].startDate <= 2.0 * Hour
    ensures AutoSenseSettings(s, now, g, id) == s
  {
  }

  /** Once the data checks pass, the date and the clamped (unrounded) factor
      are always stored, and nothing but the override changes with them. */
  lemma FactorAlwaysStored(s: LoopSettings, now: Time, g: seq<GlucoseSample>, id: nat)
    requires !TooSoon(s, now) && EnoughData(g)
    ensures AutoSenseSettings(s, now, g, id).lastAutosense == now
    ensures AutoSenseSettings(s, now, g, id).autosenseFactor == NewFactor(g, s.autosenseFactor)
    ensures LowestFactor <= AutoSenseSettings(s, now, g, id).autosenseFactor <= HighestFactor
    ensures AutoSenseSettings(s, now, g, id).(lastAutosense := s.lastAutosense,
                                               autosenseFactor := s.autosenseFactor,
                                               scheduleOverride := s.scheduleOverride) == s
  {
  }

  /** An override that autosense did not set is never replaced or cleared. */
  lemma ForeignOverrideKept(s: LoopSettings, now: Time, g: seq<GlucoseSample>, id: nat)
    requires s.scheduleOverride.Some? && s.scheduleOverride.value.enactTrigger != Autosense
    ensures AutoSenseSettings(s, now, g, id).scheduleOverride == s.scheduleOverride
  {
  }

  /** The override afterwards: cleared exactly when the rounded factor is 1.0
      and there was no override or an autosense one; a new autosense override
      otherwise only when enabled and not recently suspended; else unchanged. */
  lemma OverrideOutcome(s: LoopSettings, now: Time, g: seq<GlucoseSample>, id: nat)
    requires !TooSoon(s, now) && EnoughData(g)
    requires s.scheduleOverride.None? || s.scheduleOverride.value.enactTrigger == Autosense
    ensures var rounded := RoundToTenth(NewFactor(g, s.autosenseFactor));
            var o := AutoSenseSettings(s, now, g, id).scheduleOverride;
            (rounded == 1.0 ==> o == None)
            && (rounded != 1.0 && s.autosenseEnabled && Abs(s.autosenseSuspended.GetOr(DistantPast) - now) > 6.0 * Hour
                ==> o == Some(AutosenseOverride(rounded, now, id)))
            && (rounded != 1.0 && !(s.autosenseEnabled && Abs(s.autosenseSuspended.GetOr(DistantPast) - now) > 6.0 * Hour)
                ==> o == s.scheduleOverride)
  {
  }

  /** An installed override carries the autosense trigger, lasts two minutes
      and scales insulin needs by a factor in [0.2, 2.0] other than 1.0. */
  lemma InstalledOverrideShape(s: LoopSettings, now: Time, g: seq<GlucoseSample>, id: nat)
    requires AutoSenseSettings(s, now, g, id).scheduleOverride != s.scheduleOverride
    requires AutoSenseSettings(s, now, g, id).scheduleOverride.Some?
    ensures var o := AutoSenseSettings(s, now, g, id).scheduleOverride.value;
            o.enactTrigger == Autosense && o.context == Custom && o.startDate == now
            && o.duration == Finite(120.0)
            && o.settings.insulinNeedsScaleFactor.Some?
            && LowestFactor <= o.settings.insulinNeedsScaleFactor.value <= HighestFactor
            && o.settings.insulinNeedsScaleFactor.value != 1.0
  {
    RoundedFactorInBounds(NewFactor(g, s.autosenseFactor));
  }

  /** The object that runs autosense for the loop's data manager; its
      settings are the manager's. The fetched samples are kept in a field:
      a fetch that fails early leaves the previous run's samples in place. */
  class AutoAdjust {
    var settings: LoopSettings
    var glucoseSamples: Option<seq<GlucoseSample>>

    constructor (settings: LoopSettings)
      ensures this.settings == settings && glucoseSamples == None
    {
      this.settings := settings;
      glucoseSamples := None;
    }

    /** `autoSense()`. `fetched` is what the fetch delivers to
        `glucoseSamples` (`None` when the fetch stops before the glucose
        query); `id` stands for the override's fresh `UUID()`. */
    method AutoSense(now: Time, fetched: Option<seq<GlucoseSample>>, id: nat)
      modifies this
      ensures TooSoon(old(settings), now) ==> glucoseSamples == old(glucoseSamples)
      ensures !TooSoon(old(settings), now) ==>
                glucoseSamples == (if fetched.Some? then fetched else old(glucoseSamples))
      ensures settings == AutoSenseSettings(old(settings), now, glucoseSamples.GetOr([]), id)
    {
      if Abs(settings.lastAutosense - now) < AutosenseInterval {
        return;
      }
      if fetched.Some? {
        glucoseSamples := fetched;
      }
      if glucoseSamples.None? || |glucoseSamples.value| == 0 {
        return;
      }
      var g := glucoseSamples.value;
      var oldAutosenseFactor := settings.autosenseFactor;
      var cumulativeTimeLow, cumulativeTimeHigh, sumBG, dataPoints := Accumulate(g);
      var analyzedInterval := g[|g| - 1].startDate - g[0].startDate;
      var averageBG := sumBG / (dataPoints as real);
      var currentBG := g[|g| - 1].mgdl;
      if !(analyzedInterval > AutosenseLookbackInterval / 2.0 && dataPoints > 12) {
        return;
      }
      assert EnoughData(g);
      var lowRatio := cumulativeTimeLow / analyzedInterval;
      var highRatio := cumulativeTimeHigh / analyzedInterval;
      var autosenseFactor := Clamp(RawFactor(lowRatio, highRatio, currentBG, averageBG, oldAutosenseFactor));
      var roundedAutosenseFactor := RoundToTenth(autosenseFactor);
      assert autosenseFactor == NewFactor(g, oldAutosenseFactor);
      RunWithData(settings, now, g, id, autosenseFactor);
      settings := settings.(lastAutosense := now, autosenseFactor := autosenseFactor);
      UpdateOverride(roundedAutosenseFactor, now, id);
    }

    /** The override step of `autoSense()`, once the factor is stored. */
    method UpdateOverride(rounded: real, now: Time, id: nat)
      modifies this
      ensures glucoseSamples == old(glucoseSamples)
      ensures settings == old(settings).(scheduleOverride := OverrideAfter(old(settings), rounded, now, id))
    {
      if settings.scheduleOverride.Some? && settings.scheduleOverride.value.enactTrigger != Autosense {
        return;
      }
      if rounded == 1.0 {
        if settings.scheduleOverride.Some? && settings.scheduleOverride.value.enactTrigger == Autosense {
          settings := settings.(scheduleOverride := None);
        }
        return;
      }
      if settings.autosenseEnabled {
        var suspended := settings.autosenseSuspended.GetOr(DistantPast);
        if Abs(suspended - now) > AutosenseSuspendInterval {
          settings := settings.(scheduleOverride := Some(AutosenseOverride(rounded, now, id)));
        }
      }
    }
  }

  /** The sample loop of `autoSense()`: the time spent high and low, the sum
      of the values and the number of samples. */
  method Accumulate(g: seq<GlucoseSample>) returns (timeLow: real, timeHigh: real, sumBG: real, dataPoints: nat)
    requires |g| > 0
    ensures timeLow == TimeLow(g, |g|) && timeHigh == TimeHigh(g, |g|)
    ensures sumBG == SumBG(g, |g|) && dataPoints == |g|
  {
    timeLow, timeHigh, sumBG, dataPoints := 0.0, 0.0, 0.0, 0;
    var lastSample := g[0].startDate;
    for i := 0 to |g|
      invariant dataPoints == i
      invariant lastSample == if i == 0 then g[0].startDate else g[i - 1].startDate
      invariant timeHigh == TimeHigh(g, i)
      invariant timeLow == TimeLow(g, i)
      invariant sumBG == SumBG(g, i)
    {
      var interval := g[i].startDate - lastSample;
      if g[i].mgdl > HighThreshold {
        timeHigh := timeHigh + interval;
      }
      if g[i].mgdl < LowThreshold {
        timeLow := timeLow + interval;
      }
      lastSample := g[i].startDate;
      sumBG := sumBG + g[i].mgdl;
      dataPoints := dataPoints + 1;
    }
  }
}
