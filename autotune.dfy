/** `AutoTune.run`: a rate-limited entry point whose tuning body is not
    implemented yet. A run only decides whether it may go ahead and which
    window of data it would look at; it writes no setting. */
module Autotune {
  import opened Common
  import opened Settings

  /** The data window a run would look at. */
  datatype Window = Window(start: Time, end: Time)

  /** What one run yields: the settings afterwards and, when it was not
      rate-limited, the window it logs. */
  datatype Outcome = Outcome(settings: LoopSettings, window: Option<Window>)

  /** `run()` at time `now`. */
  function Run(s: LoopSettings, now: Time): (r: Outcome)
    ensures r.settings == s
    ensures r.window.None? <==> Abs(s.lastAutotune - now) < AutotuneInterval
    ensures r.window.Some? ==>
              r.window.value.end == now
              && r.window.value.end - r.window.value.start == 7.0 * 24.0 * Hour
  {
    if Abs(s.lastAutotune - now) < AutotuneInterval then Outcome(s, None)
    else Outcome(s, Some(Window(now - AutotuneLookbackInterval, now)))
  }

  /** `lastAutotune` is never advanced, so a run never rate-limits the next
      one: whatever a first run did, a second run goes ahead exactly when it
      would have gone ahead on the original settings. */
  lemma RunNeverRateLimitsItself(s: LoopSettings, first: Time, second: Time)
    ensures Run(Run(s, first).settings, second).window.Some?
            <==> Run(s, second).window.Some?
    ensures Run(Run(s, first).settings, second).settings.lastAutotune == s.lastAutotune
  {
  }

  /** With the default settings (`lastAutotune` at the distant past) every
      run after 0001-01-02 goes ahead, however many ran before. */
  lemma DefaultsAlwaysRun(now: Time, runs: nat)
    requires now >= DistantPast + 24.0 * Hour
    ensures Repeat(Defaults, now, runs).lastAutotune == DistantPast
    ensures Run(Repeat(Defaults, now, runs), now).window.Some?
  {
    RepeatKeepsSettings(Defaults, now, runs);
  }

  /** The settings after `n` runs at time `now`. */
  function Repeat(s: LoopSettings, now: Time, n: nat): LoopSettings
  {
    if n == 0 then s else Run(Repeat(s, now, n - 1), now).settings
  }

  /** Any number of runs leaves the settings as they were. */
  lemma {:induction false} RepeatKeepsSettings(s: LoopSettings, now: Time, n: nat)
    ensures Repeat(s, now, n) == s
  {
    if n > 0 {
      RepeatKeepsSettings(s, now, n - 1);
    }
  }
}
