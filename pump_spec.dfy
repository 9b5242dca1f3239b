/** The rules of the pump dosing and polling engine, as pure functions over
    what the engine reads: its own flags, the collaborators' state at call
    time (`Environment`) and the pump's replies (`Radio`). Each operation of
    the engine yields a trace of calls into its collaborators; the class in
    module `DeviceData` is proved to produce exactly these traces. */
module PumpSpec {
  import opened Common

  type DeviceId = nat

  // ---------------------------------------------------------------------------
  // Vocabulary
  // ---------------------------------------------------------------------------

  /** The errors the engine reports or receives. `Certain` and `Uncertain`
      are MinimedKit's `SetBolusError`; `PumpOpsError` and `PumpCommandError`
      carry the description of the radio error. */
  datatype Error =
    | ConfigurationError(details: string)
    | ConnectionError
    | InvalidData(details: string)
    | Certain(text: string)
    | Uncertain(text: string)
    | PumpOpsError(text: string)
    | PumpCommandError(text: string)
    | OtherError(text: string)

  /** The part of an error's description (`"\(error)"`) that the substring
      tests look at. */
  function Text(e: Error): string
  {
    match e
    case ConfigurationError(d) => "configurationError(" + d + ")"
    case ConnectionError => "connectionError"
    case InvalidData(d) => "invalidData(" + d + ")"
    case Certain(t) => t
    case Uncertain(t) => t
    case PumpOpsError(t) => t
    case PumpCommandError(t) => t
    case OtherError(t) => t
  }

  datatype LastError = LastError(date: Time, error: Error)

  /** What the engine remembers about one RileyLink. */
  datatype DeviceState = DeviceState(lastTuned: Option<Time>, lastValidFrequency: Option<real>)

  datatype ReservoirValue = ReservoirValue(startDate: Time, unitVolume: real)

  datatype InsulinDataSource = PumpHistory | ReservoirSource

  /** One item of the basal rate schedule, and the pump's schedule entry. */
  datatype ScheduleItem = ScheduleItem(startTime: real, value: real)
  datatype BasalScheduleEntry = BasalScheduleEntry(index: nat, timeOffset: real, rate: real)

  datatype PumpSettings = PumpSettings(pumpID: string, region: nat)

  /** The region a new `PumpSettings(pumpID:)` gets. */
  const DefaultRegion: nat := 0

  /** A pump history event: its date and, for a meter reading received by
      the pump, the reading. */
  datatype HistoryEvent = HistoryEvent(date: Time, bgAmount: Option<real>)

  /** The temp basal dose reported back to the loop. */
  datatype TempBasalDose = TempBasalDose(startDate: Time, endDate: Time, rate: real)

  datatype RestartReason = PumpReason | CgmReason

  /** A call from the engine into a collaborator (store, notifications,
      radio session, RileyLink manager, uploader), in the order made. */
  datatype Effect =
    | BolusFailureNotification(error: Error, units: real, at: Time)
    | BolusCompletion(result: Option<Error>)
    | ReadRemainingInsulin
    | SyncPumpTime
    | AddReservoirValue(units: real, date: Time)
    | AddRequestedBolus(units: real)
    | SetNormalBolus(units: real, attempt: nat)
    | AddConfirmedBolus(units: real)
    | AddFailedBolus(units: real, error: Error, certain: bool, attempts: nat)
    | Troubleshoot(device: DeviceId)
    | PumpDataReadRequested
    | AssertIdleListening
    | GetPumpStatus(attempt: nat)
    | SetPumpTime
    | GetPumpTime
    | PumpBatteryLowNotification
    | PumpBatteryReplaced(oldCharge: real, newCharge: real)
    | UploadLoopStatus(error: Error)
    | UploadDeviceStatus(device: DeviceId)
    | UpdateTimerTick
    | Deprioritize(device: DeviceId)
    | TuneRadio(device: DeviceId, lastValidFrequency: Option<real>)
    | ReservoirEmptyNotification
    | ReservoirLowNotification(units: real, timeLeft: Option<real>)
    | InsulinChange(previous: real, current: real)
    | RunLoop
    | FetchHistoryThenLoop(loopEvenOnError: bool)
    | FetchPumpHistoryRequested
    | GetHistoryEvents(since: Time)
    | AddPumpEvents(count: nat)
    | HistoryCompletion(result: Option<Error>)
    | SetTempBasal(rate: real, duration: real, attempt: nat)
    | TempBasalCompletion(dose: Result<TempBasalDose, Error>)
    | SetBasalSchedule(entries: seq<BasalScheduleEntry>)
    | BasalRateCompletion(result: Option<Error>)
    | ReconnectPump
    | SetupCGM
    | AddPumpGlucose(mgdl: real, date: Time)
    | UpdatePumpOpsSettings(settings: PumpSettings)
    | CreatePumpOps(settings: PumpSettings)
    | ClearPumpState
    | ResetPumpData

  /** The collaborators' state when an operation starts. */
  datatype Environment = Environment(
    lastReservoirValue: Option<ReservoirValue>,
    sentryReservoirDate: Option<Time>,  // MySentry status not yet written; DistantPast when its date is invalid
    idleListeningEnabled: bool,
    lastReservoirVolumeDrop: real,
    recencyInterval: real,
    firstConnectedDevice: Option<DeviceId>,
    lastAddedPumpEvents: Time,
    preferredInsulinDataSource: InsulinDataSource,
    latestGlucoseDate: Option<Time>,
    pumpEventQueryAfterDate: Time,
    basalRateSchedule: Option<seq<ScheduleItem>>,
    batteryCharge: Option<real>,        // `pumpBatteryChargeRemaining` before a status read
    statusReservoirStored: Result<StoredReservoir, Error>)  // the dose store's answer to the reservoir of a good status

  datatype RemainingInsulin = RemainingInsulin(units: real, clockDate: Time)
  datatype PumpStatus = PumpStatus(clockDate: Option<Time>, reservoir: real, batteryCharge: Option<real>)
  datatype TempBasalResponse = TempBasalResponse(rate: real, timeRemaining: real)

  /** The pump's replies to the session commands; commands that are retried
      get one reply per attempt. `None` is a command that succeeded. */
  datatype Radio = Radio(
    getRemainingInsulin: Result<RemainingInsulin, Error>,
    setNormalBolus: nat -> Option<Error>,
    getCurrentPumpStatus: nat -> Result<PumpStatus, Error>,
    setTimeAfterStatus: nat -> Option<Error>,
    setTempBasal: nat -> Result<TempBasalResponse, Error>,
    getTime: Result<Option<Time>, Error>,
    setTimeAfterBasal: Option<Error>,
    tuneRadio: Result<real, Error>,
    setBasalSchedule: Option<Error>)

  // ---------------------------------------------------------------------------
  // Counting effects
  // ---------------------------------------------------------------------------

  function Count(s: seq<Effect>, p: Effect -> bool): (n: nat)
    ensures n <= |s|
  {
    if |s| == 0 then 0 else (if p(s[0]) then 1 else 0) + Count(s[1..], p)
  }

  lemma {:induction false} CountAppend(a: seq<Effect>, b: seq<Effect>, p: Effect -> bool)
    ensures Count(a + b, p) == Count(a, p) + Count(b, p)
  {
    if |a| == 0 {
      assert a + b == b;
    } else {
      assert (a + b)[0] == a[0];
      assert (a + b)[1..] == a[1..] + b;
      CountAppend(a[1..], b, p);
    }
  }

  /** A trace none of whose effects matches counts zero. */
  lemma {:induction false} CountNone(s: seq<Effect>, p: Effect -> bool)
    requires forall i :: 0 <= i < |s| ==> !p(s[i])
    ensures Count(s, p) == 0
  {
    if |s| > 0 {
      CountNone(s[1..], p);
    }
  }

  /** A trace all of whose effects match counts its length. */
  lemma {:induction false} CountAll(s: seq<Effect>, p: Effect -> bool)
    requires forall i :: 0 <= i < |s| ==> p(s[i])
    ensures Count(s, p) == |s|
  {
    if |s| > 0 {
      CountAll(s[1..], p);
    }
  }

  predicate IsBolusCommand(e: Effect) { e.SetNormalBolus? }
  predicate IsBolusCompletion(e: Effect) { e.BolusCompletion? }
  predicate IsStatusRead(e: Effect) { e.GetPumpStatus? }
  predicate IsTempBasalCommand(e: Effect) { e.SetTempBasal? }
  predicate IsTempBasalCompletion(e: Effect) { e.TempBasalCompletion? }
  predicate IsLowNotification(e: Effect) { e.ReservoirLowNotification? }

  // ---------------------------------------------------------------------------
  // Staleness
  // ---------------------------------------------------------------------------

  /** The newest reservoir date: the stored value's, or a MySentry status
      not yet written if it is newer; the distant past without either. */
  function NewestReservoirDate(env: Environment): (d: Time)
    ensures env.lastReservoirValue.Some? ==> d >= env.lastReservoirValue.value.startDate
    ensures env.sentryReservoirDate.Some? ==> d >= env.sentryReservoirDate.value
    ensures env.lastReservoirValue.None? && env.sentryReservoirDate.None? ==> d == DistantPast
    ensures (env.lastReservoirValue.Some? && d == env.lastReservoirValue.value.startDate)
            || (env.sentryReservoirDate.Some? && d == env.sentryReservoirDate.value)
            || d == DistantPast
  {
    var stored := if env.lastReservoirValue.Some? then env.lastReservoirValue.value.startDate else DistantPast;
    if env.sentryReservoirDate.Some? then Max(env.sentryReservoirDate.value, stored) else stored
  }

  /** `isReservoirDataOlderThan(timeIntervalSinceNow:)`: `interval` is
      negative, a date in the past relative to `now`. */
  predicate ReservoirDataOlderThan(env: Environment, needPumpDataRead: bool, now: Time, interval: real)
  {
    NewestReservoirDate(env) - now <= interval || needPumpDataRead
  }

  /** How old pump data may get: 6 minutes with idle listening, 4 without
      (its use is stated by `StaleCharacterized`). */
  function PumpStatusAgeTolerance(env: Environment): real
  {
    if env.idleListeningEnabled then 6.0 * Minute else 4.0 * Minute
  }

  /** `isPumpDataStale()`. */
  predicate PumpDataStale(env: Environment, needPumpDataRead: bool, now: Time)
  {
    ReservoirDataOlderThan(env, needPumpDataRead, now, -PumpStatusAgeTolerance(env))
  }

  /** Stale exactly when a read was requested or the newest reservoir date
      is at least the tolerance old. */
  lemma StaleCharacterized(env: Environment, needPumpDataRead: bool, now: Time)
    ensures PumpDataStale(env, needPumpDataRead, now) <==>
              needPumpDataRead
              || NewestReservoirDate(env) <= now - (if env.idleListeningEnabled then 360.0 else 240.0)
  {
  }

  /** Data that is stale stays stale as time passes, and listening for
      MySentry packets only ever delays staleness. */
  lemma StalenessMonotone(env: Environment, needPumpDataRead: bool, now: Time, later: Time)
    requires now <= later
    ensures PumpDataStale(env, needPumpDataRead, now) ==> PumpDataStale(env, needPumpDataRead, later)
    ensures PumpDataStale(env.(idleListeningEnabled := true), needPumpDataRead, now)
            ==> PumpDataStale(env.(idleListeningEnabled := false), needPumpDataRead, now)
  {
  }

  // ---------------------------------------------------------------------------
  // Clock checks
  // ---------------------------------------------------------------------------

  /** `assertPumpDate`: the pump date is accepted within one minute. */
  predicate PumpDateAcceptable(date: Time, now: Time)
  {
    Abs(date - now) <= 1.0 * Minute
  }

  /** A status read or a temp basal resets a clock more than 20 s off. */
  predicate NeedsClockReset(date: Time, now: Time)
  {
    Abs(date - now) > 20.0
  }

  /** The two thresholds differ: every date `assertPumpDate` rejects is
      also reset after a status read, but a drift between 20 s and one
      minute is reset there and accepted before a bolus. */
  lemma ClockThresholds(date: Time, now: Time)
    ensures !PumpDateAcceptable(date, now) ==> NeedsClockReset(date, now)
    ensures PumpDateAcceptable(now + 30.0, now) && NeedsClockReset(now + 30.0, now)
  {
  }

  // ---------------------------------------------------------------------------
  // Bolus
  // ---------------------------------------------------------------------------

  /** The `notify` closure: a failure notification unless quiet, then the
      completion (clearing `bolusInProgress` is the caller's). */
  function NotifyTrace(error: Option<Error>, quiet: bool, units: real, startDate: Time): (t: seq<Effect>)
    ensures |t| > 0 && t[|t| - 1] == BolusCompletion(error)
    ensures Count(t, IsBolusCompletion) == 1 && Count(t, IsBolusCommand) == 0
    ensures error.None? || quiet ==> t == [BolusCompletion(error)]
    ensures error.Some? && !quiet ==>
              t == [BolusFailureNotification(error.value, units, startDate), BolusCompletion(error)]
  {
    var t := (if error.Some? && !quiet then [BolusFailureNotification(error.value, units, startDate)] else [])
             + [BolusCompletion(error)];
    CountAppend(if error.Some? && !quiet then [BolusFailureNotification(error.value, units, startDate)] else [],
                [BolusCompletion(error)], IsBolusCompletion);
    CountAppend(if error.Some? && !quiet then [BolusFailureNotification(error.value, units, startDate)] else [],
                [BolusCompletion(error)], IsBolusCommand);
    t
  }

  /** A certain error saying the pump is already delivering this bolus. */
  predicate ConfirmsBolus(e: Error)
  {
    e.Certain? && (Contains(Text(e), "bolusInProgress") || Contains(Text(e), "Bolus in progress"))
  }

  /** The `retry` flag after a failed `setNormalBolus`: any other certain
      error, and an uncertain one that shows the pump did not answer the
      power-on. */
  predicate BolusRetryable(e: Error)
  {
    (e.Certain? && !ConfirmsBolus(e))
    || (e.Uncertain? && (Contains(Text(e), "noResponse(") || Contains(Text(e), "unknownResponse("))
        && Contains(Text(e), "powerOn"))
  }

  lemma ConfirmsIsNotRetryable(e: Error)
    ensures ConfirmsBolus(e) ==> !BolusRetryable(e)
  {
  }

  /** Whether the retry loop goes on after `attempt`: the command failed
      with an error it retries and attempts remain. */
  predicate RetriesAfter(setBolus: nat -> Option<Error>, attempt: nat)
  {
    setBolus(attempt).Some? && BolusRetryable(setBolus(attempt).value) && attempt < 5
  }

  /** The attempt the retry loop stops at when it is at `attempt`: every
      attempt before it failed with an error that is retried, and it is the
      first that succeeded, failed otherwise, or was the fifth. */
  function FinalAttempt(setBolus: nat -> Option<Error>, attempt: nat): (k: nat)
    requires 1 <= attempt <= 5
    ensures attempt <= k <= 5 && !RetriesAfter(setBolus, k)
    ensures forall j :: attempt <= j < k ==> RetriesAfter(setBolus, j)
    decreases 5 - attempt
  {
    if RetriesAfter(setBolus, attempt) then FinalAttempt(setBolus, attempt + 1) else attempt
  }

  /** The stopping attempt is the only one with those two properties. */
  lemma {:induction false} FinalAttemptUnique(setBolus: nat -> Option<Error>, attempt: nat, k: nat)
    requires 1 <= attempt <= k <= 5 && !RetriesAfter(setBolus, k)
    requires forall j :: attempt <= j < k ==> RetriesAfter(setBolus, j)
    ensures FinalAttempt(setBolus, attempt) == k
    decreases k - attempt
  {
    if attempt < k {
      assert RetriesAfter(setBolus, attempt);
      FinalAttemptUnique(setBolus, attempt + 1, k);
    }
  }

  /** The reply the retry loop stops at. */
  function FinalReply(setBolus: nat -> Option<Error>, attempt: nat): Option<Error>
    requires 1 <= attempt <= 5
  {
    setBolus(FinalAttempt(setBolus, attempt))
  }

  /** The `setNormalBolus` commands of attempts `first` through `last`. */
  function Attempts(units: real, first: nat, last: nat): (t: seq<Effect>)
    requires first >= 1
    ensures |t| == (if last >= first then last - first + 1 else 0)
    ensures forall i :: 0 <= i < |t| ==> t[i] == SetNormalBolus(units, first + i)
    decreases last
  {
    if last < first then [] else Attempts(units, first, last - 1) + [SetNormalBolus(units, last)]
  }

  /** A bolus the pump took: recorded as confirmed, then completed. */
  function ConfirmedTrace(units: real, quiet: bool, startDate: Time): (t: seq<Effect>)
    ensures Count(t, IsBolusCommand) == 0 && Count(t, IsBolusCompletion) == 1
    ensures |t| > 0 && t[|t| - 1] == BolusCompletion(None)
    ensures forall i :: 0 <= i < |t| ==> !t[i].Troubleshoot?
  {
    CountAppend([AddConfirmedBolus(units)], NotifyTrace(None, quiet, units, startDate), IsBolusCommand);
    CountAppend([AddConfirmedBolus(units)], NotifyTrace(None, quiet, units, startDate), IsBolusCompletion);
    [AddConfirmedBolus(units)] + NotifyTrace(None, quiet, units, startDate)
  }

  /** The end of a bolus the loop gives up on: the failed record, then
      troubleshooting if the last error was one it retries (attempts ran
      out) or a pump data read if not, then the failure completion. */
  function FailedTrace(units: real, quiet: bool, startDate: Time, device: DeviceId, e: Error, attempt: nat)
    : (t: seq<Effect>)
    ensures Count(t, IsBolusCommand) == 0 && Count(t, IsBolusCompletion) == 1
    ensures |t| > 0 && t[|t| - 1] == BolusCompletion(Some(e))
    ensures Troubleshoot(device) in t <==> BolusRetryable(e)
  {
    var record := [AddFailedBolus(units, e, BolusRetryable(e), attempt)]
                  + (if BolusRetryable(e) then [Troubleshoot(device)] else [PumpDataReadRequested]);
    CountNone(record, IsBolusCommand);
    CountNone(record, IsBolusCompletion);
    CountAppend(record, NotifyTrace(Some(e), quiet, units, startDate), IsBolusCommand);
    CountAppend(record, NotifyTrace(Some(e), quiet, units, startDate), IsBolusCompletion);
    var t := record + NotifyTrace(Some(e), quiet, units, startDate);
    assert BolusRetryable(e) ==> t[1] == Troubleshoot(device);
    t
  }

  /** How the loop ends at its final reply: a success is confirmed; a
      certain "bolus in progress" error is confirmed and then fails; any
      other error fails. */
  function Ending(units: real, quiet: bool, startDate: Time, device: DeviceId, reply: Option<Error>, attempt: nat)
    : (t: seq<Effect>)
    ensures Count(t, IsBolusCommand) == 0
    ensures Count(t, IsBolusCompletion) == (if reply.Some? && ConfirmsBolus(reply.value) then 2 else 1)
    ensures |t| > 0 && t[|t| - 1] == BolusCompletion(reply)
    ensures Troubleshoot(device) in t <==> reply.Some? && BolusRetryable(reply.value)
  {
    if reply.None? then ConfirmedTrace(units, quiet, startDate)
    else if !ConfirmsBolus(reply.value) then FailedTrace(units, quiet, startDate, device, reply.value, attempt)
    else
      ConfirmedThenFailed(units, quiet, startDate, device, reply.value, attempt);
      ConfirmedTrace(units, quiet, startDate) + FailedTrace(units, quiet, startDate, device, reply.value, attempt)
  }

  /** A confirmed record followed by a failed one: two completions, no
      command, and troubleshooting only from the failed part. */
  lemma ConfirmedThenFailed(units: real, quiet: bool, startDate: Time, device: DeviceId, e: Error, attempt: nat)
    ensures var t := ConfirmedTrace(units, quiet, startDate) + FailedTrace(units, quiet, startDate, device, e, attempt);
            Count(t, IsBolusCommand) == 0 && Count(t, IsBolusCompletion) == 2
            && |t| > 0 && t[|t| - 1] == BolusCompletion(Some(e))
            && (Troubleshoot(device) in t <==> BolusRetryable(e))
  {
    var confirm := ConfirmedTrace(units, quiet, startDate);
    var failed := FailedTrace(units, quiet, startDate, device, e, attempt);
    CountAppend(confirm, failed, IsBolusCommand);
    CountAppend(confirm, failed, IsBolusCompletion);
    assert Troubleshoot(device) !in confirm;
    assert (confirm + failed)[|confirm + failed| - 1] == failed[|failed| - 1];
  }

  /** The ending for an error reply, after whatever came before it: the
      confirmed record first when the error shows the bolus was delivered,
      then the failed record. */
  lemma EndingOfError(prefix: seq<Effect>, units: real, quiet: bool, startDate: Time, device: DeviceId,
                      e: Error, attempt: nat)
    ensures prefix + Ending(units, quiet, startDate, device, Some(e), attempt)
            == prefix + (if ConfirmsBolus(e) then ConfirmedTrace(units, quiet, startDate) else [])
               + FailedTrace(units, quiet, startDate, device, e, attempt)
  {
    var failed := FailedTrace(units, quiet, startDate, device, e, attempt);
    if ConfirmsBolus(e) {
      AppendAssoc(prefix, ConfirmedTrace(units, quiet, startDate), failed);
    } else {
      assert prefix + [] == prefix;
    }
  }

  /** The retry loop from attempt 1: one command per attempt up to the
      final one, then the ending for its reply. */
  function RetryTrace(units: real, quiet: bool, startDate: Time, device: DeviceId,
                      setBolus: nat -> Option<Error>): seq<Effect>
  {
    var k := FinalAttempt(setBolus, 1);
    Attempts(units, 1, k) + Ending(units, quiet, startDate, device, setBolus(k), k)
  }

  /** Whether the retry loop ends in `triggerPumpDataRead()`: a failure it
      does not retry. */
  predicate RetryTriggersRead(setBolus: nat -> Option<Error>, attempt: nat)
    requires 1 <= attempt <= 5
  {
    FinalReply(setBolus, attempt).Some? && !BolusRetryable(FinalReply(setBolus, attempt).value)
  }

  /** A loop that stops at attempt `k` (every earlier attempt retried, `k`
      did not) has issued `k` commands and then the ending for reply `k`,
      and requests a pump data read exactly when reply `k` is a failure it
      does not retry. */
  lemma RetryStopsAt(units: real, quiet: bool, startDate: Time, device: DeviceId, setBolus: nat -> Option<Error>,
                     k: nat)
    requires 1 <= k <= 5 && !RetriesAfter(setBolus, k)
    requires forall j :: 1 <= j < k ==> RetriesAfter(setBolus, j)
    ensures RetryTrace(units, quiet, startDate, device, setBolus)
            == Attempts(units, 1, k) + Ending(units, quiet, startDate, device, setBolus(k), k)
    ensures RetryTriggersRead(setBolus, 1) <==> setBolus(k).Some? && !BolusRetryable(setBolus(k).value)
  {
    FinalAttemptUnique(setBolus, 1, k);
  }

  /** Whether a reservoir read precedes the bolus: data at least 10 minutes
      old or a read requested, a negative last drop, a reservoir value older
      than the recency interval, or no reservoir value at all. */
  predicate ShouldReadReservoir(env: Environment, needPumpDataRead: bool, now: Time)
  {
    ReservoirDataOlderThan(env, needPumpDataRead, now, -10.0 * Minute)
    || env.lastReservoirVolumeDrop < 0.0
    || (env.lastReservoirValue.Some? && env.lastReservoirValue.value.startDate - now <= -env.recencyInterval)
    || env.lastReservoirValue.None?
  }

  /** How a failed reservoir read is reported: radio and command errors as
      certain bolus errors, anything else as it is. */
  function ReservoirReadError(e: Error): (r: Error)
    ensures e.PumpOpsError? || e.PumpCommandError? ==> r == Certain(e.text)
    ensures !(e.PumpOpsError? || e.PumpCommandError?) ==> r == e
  {
    match e
    case PumpOpsError(t) => Certain(t)
    case PumpCommandError(t) => Certain(t)
    case _ => e
  }

  const ClockDeviationError: Error := Certain("rfCommsFailure(\"Pump clock is deviating too much.\")")

  /** The effects of a phase and the error that ends the operation, if any. */
  datatype Phase = Phase(trace: seq<Effect>, failure: Option<Error>)

  /** The reservoir read before a bolus; `storeError` is the dose store's
      answer to the new reservoir value. */
  function ReservoirPhase(radio: Radio, now: Time, storeError: Option<Error>): (p: Phase)
    ensures |p.trace| > 0 && p.trace[0] == ReadRemainingInsulin
    ensures Count(p.trace, IsBolusCommand) == 0 && Count(p.trace, IsBolusCompletion) == 0
  {
    var p := match radio.getRemainingInsulin
      case Err(e) => Phase([ReadRemainingInsulin], Some(ReservoirReadError(e)))
      case Ok(r) =>
        if !PumpDateAcceptable(r.clockDate, now) then Phase([ReadRemainingInsulin, SyncPumpTime], Some(ClockDeviationError))
        else Phase([ReadRemainingInsulin, AddReservoirValue(r.units, r.clockDate)], storeError);
    assert Count(p.trace, IsBolusCommand) == 0 && Count(p.trace, IsBolusCompletion) == 0 by {
      if |p.trace| == 2 {
        assert p.trace[1..][1..] == [];
      }
    }
    p
  }

  /** The guards of `enactBolus`, in order: nothing to deliver, no pump,
      a bolus already running, no RileyLink. */
  function BolusGuard(units: real, hasPumpOps: bool, bolusInProgress: bool, env: Environment): (r: Option<Option<Error>>)
    ensures r.None? <==> units > 0.0 && hasPumpOps && !bolusInProgress && env.firstConnectedDevice.Some?
    ensures units <= 0.0 ==> r == Some(None)
  {
    if units <= 0.0 then Some(None)
    else if !hasPumpOps then Some(Some(ConfigurationError("Pump ID")))
    else if bolusInProgress then Some(Some(InvalidData("Bolus already in progress")))
    else if env.firstConnectedDevice.None? then Some(Some(ConnectionError))
    else None
  }

  /** Everything one `enactBolus` call does, in order. */
  function BolusTrace(units: real, startDate: Time, quiet: bool, now: Time, hasPumpOps: bool,
                      bolusInProgress: bool, needPumpDataRead: bool, env: Environment, radio: Radio,
                      storeError: Option<Error>): seq<Effect>
  {
    var guard := BolusGuard(units, hasPumpOps, bolusInProgress, env);
    if guard.Some? then NotifyTrace(guard.value, quiet, units, startDate)
    else BolusSession(units, startDate, quiet, ShouldReadReservoir(env, needPumpDataRead, now), now,
                      env.firstConnectedDevice.value, radio, storeError)
  }

  /** The pump session of a bolus: the reservoir read when one is due, then
      the dose store's request record and the retry loop. */
  function BolusSession(units: real, startDate: Time, quiet: bool, readReservoir: bool, now: Time,
                        device: DeviceId, radio: Radio, storeError: Option<Error>): seq<Effect>
  {
    var pre := if readReservoir then ReservoirPhase(radio, now, storeError) else Phase([], None);
    if pre.failure.Some? then pre.trace + NotifyTrace(pre.failure, quiet, units, startDate)
    else pre.trace + [AddRequestedBolus(units)] + RetryTrace(units, quiet, startDate, device, radio.setNormalBolus)
  }

  /** Whether `enactBolus` ends by requesting a pump data read. */
  predicate BolusTriggersRead(units: real, now: Time, hasPumpOps: bool, bolusInProgress: bool,
                              needPumpDataRead: bool, env: Environment, radio: Radio, storeError: Option<Error>)
  {
    BolusGuard(units, hasPumpOps, bolusInProgress, env).None?
    && (ShouldReadReservoir(env, needPumpDataRead, now) ==> ReservoirPhase(radio, now, storeError).failure.None?)
    && RetryTriggersRead(radio.setNormalBolus, 1)
  }

  /** The loop issues between one and five commands, completes once, or
      twice when it stops at a certain "bolus in progress" error (confirmed,
      then reported as failed), and ends with the completion for the reply
      it stopped at. */
  lemma RetryFacts(units: real, quiet: bool, startDate: Time, device: DeviceId, setBolus: nat -> Option<Error>)
    ensures var t := RetryTrace(units, quiet, startDate, device, setBolus);
            var last := FinalReply(setBolus, 1);
            1 <= Count(t, IsBolusCommand) <= 5
            && Count(t, IsBolusCompletion) == (if last.Some? && ConfirmsBolus(last.value) then 2 else 1)
            && t[|t| - 1] == BolusCompletion(last)
  {
    var k := FinalAttempt(setBolus, 1);
    var tries := Attempts(units, 1, k);
    var ending := Ending(units, quiet, startDate, device, setBolus(k), k);
    CountAll(tries, IsBolusCommand);
    CountNone(tries, IsBolusCompletion);
    CountAppend(tries, ending, IsBolusCommand);
    CountAppend(tries, ending, IsBolusCompletion);
  }

  /** Troubleshooting is requested exactly when all five attempts failed
      with errors that are retried. */
  lemma TroubleshootOnlyWhenExhausted(units: real, quiet: bool, startDate: Time, device: DeviceId,
                                      setBolus: nat -> Option<Error>)
    ensures Troubleshoot(device) in RetryTrace(units, quiet, startDate, device, setBolus)
            <==> forall j :: 1 <= j <= 5 ==> setBolus(j).Some? && BolusRetryable(setBolus(j).value)
  {
    var k := FinalAttempt(setBolus, 1);
    var tries := Attempts(units, 1, k);
    var ending := Ending(units, quiet, startDate, device, setBolus(k), k);
    assert RetryTrace(units, quiet, startDate, device, setBolus) == tries + ending;
    assert Troubleshoot(device) !in tries;
    assert Troubleshoot(device) in tries + ending <==> Troubleshoot(device) in ending;
    ExhaustedAtFinal(setBolus);
  }

  /** The loop stops on a retried error only at the fifth attempt, after
      four retried ones. */
  lemma ExhaustedAtFinal(setBolus: nat -> Option<Error>)
    ensures var k := FinalAttempt(setBolus, 1);
            (setBolus(k).Some? && BolusRetryable(setBolus(k).value))
            <==> forall j :: 1 <= j <= 5 ==> setBolus(j).Some? && BolusRetryable(setBolus(j).value)
  {
    var k := FinalAttempt(setBolus, 1);
    if forall j :: 1 <= j <= 5 ==> setBolus(j).Some? && BolusRetryable(setBolus(j).value) {
      if k < 5 {
        assert RetriesAfter(setBolus, k);
      }
    }
  }

  /** A call for zero or negative units completes with no error and talks
      to no pump; a call while a bolus is running fails with "Bolus already
      in progress". */
  lemma BolusGuards(units: real, startDate: Time, quiet: bool, now: Time, hasPumpOps: bool,
                    bolusInProgress: bool, needPumpDataRead: bool, env: Environment, radio: Radio,
                    storeError: Option<Error>)
    ensures units <= 0.0 ==>
              BolusTrace(units, startDate, quiet, now, hasPumpOps, bolusInProgress, needPumpDataRead, env, radio, storeError)
              == [BolusCompletion(None)]
    ensures units > 0.0 && hasPumpOps && bolusInProgress ==>
              var t := BolusTrace(units, startDate, quiet, now, hasPumpOps, bolusInProgress, needPumpDataRead, env, radio, storeError);
              t[|t| - 1] == BolusCompletion(Some(InvalidData("Bolus already in progress")))
              && Count(t, IsBolusCommand) == 0
  {
  }

  /** The reservoir is read first exactly when the guards pass and
      `ShouldReadReservoir` holds; otherwise the bolus is requested at once. */
  lemma ReservoirReadFirst(units: real, startDate: Time, quiet: bool, now: Time, hasPumpOps: bool,
                           bolusInProgress: bool, needPumpDataRead: bool, env: Environment, radio: Radio,
                           storeError: Option<Error>)
    requires BolusGuard(units, hasPumpOps, bolusInProgress, env).None?
    ensures var t := BolusTrace(units, startDate, quiet, now, hasPumpOps, bolusInProgress, needPumpDataRead, env, radio, storeError);
            (t[0] == ReadRemainingInsulin <==> ShouldReadReservoir(env, needPumpDataRead, now))
            && (!ShouldReadReservoir(env, needPumpDataRead, now) ==> t[0] == AddRequestedBolus(units))
  {
    if ShouldReadReservoir(env, needPumpDataRead, now) {
      var pre := ReservoirPhase(radio, now, storeError);
      assert pre.trace[0] == ReadRemainingInsulin;
    }
  }

  /** At most five `setNormalBolus` commands per `enactBolus`, and the call
      always ends with a completion. */
  lemma BolusBounded(units: real, startDate: Time, quiet: bool, now: Time, hasPumpOps: bool,
                     bolusInProgress: bool, needPumpDataRead: bool, env: Environment, radio: Radio,
                     storeError: Option<Error>)
    ensures var t := BolusTrace(units, startDate, quiet, now, hasPumpOps, bolusInProgress, needPumpDataRead, env, radio, storeError);
            Count(t, IsBolusCommand) <= 5 && |t| > 0 && t[|t| - 1].BolusCompletion?
  {
    if BolusGuard(units, hasPumpOps, bolusInProgress, env).None? {
      SessionBounded(units, startDate, quiet, ShouldReadReservoir(env, needPumpDataRead, now), now,
                     env.firstConnectedDevice.value, radio, storeError);
    }
  }

  lemma SessionBounded(units: real, startDate: Time, quiet: bool, readReservoir: bool, now: Time,
                       device: DeviceId, radio: Radio, storeError: Option<Error>)
    ensures var t := BolusSession(units, startDate, quiet, readReservoir, now, device, radio, storeError);
            Count(t, IsBolusCommand) <= 5 && |t| > 0 && t[|t| - 1].BolusCompletion?
  {
    var pre := if readReservoir then ReservoirPhase(radio, now, storeError) else Phase([], None);
    assert Count(pre.trace, IsBolusCommand) == 0;
    if pre.failure.Some? {
      CommandFreePrefix(pre.trace, NotifyTrace(pre.failure, quiet, units, startDate));
    } else {
      RequestedThenRetried(pre.trace, units, startDate, quiet, device, radio.setNormalBolus);
    }
  }

  /** The bolus requested after a command-free phase, then the retry loop. */
  lemma RequestedThenRetried(pre: seq<Effect>, units: real, startDate: Time, quiet: bool, device: DeviceId,
                             setBolus: nat -> Option<Error>)
    requires Count(pre, IsBolusCommand) == 0
    ensures var t := pre + [AddRequestedBolus(units)] + RetryTrace(units, quiet, startDate, device, setBolus);
            Count(t, IsBolusCommand) <= 5 && |t| > 0 && t[|t| - 1].BolusCompletion?
  {
    RetryFacts(units, quiet, startDate, device, setBolus);
    CountAppend(pre, [AddRequestedBolus(units)], IsBolusCommand);
    CommandFreePrefix(pre + [AddRequestedBolus(units)], RetryTrace(units, quiet, startDate, device, setBolus));
  }

  /** Effects without a bolus command in front of a trace change neither
      its command count nor its last effect. */
  lemma CommandFreePrefix(head: seq<Effect>, rest: seq<Effect>)
    requires Count(head, IsBolusCommand) == 0 && |rest| > 0
    ensures Count(head + rest, IsBolusCommand) == Count(rest, IsBolusCommand)
    ensures (head + rest)[|head + rest| - 1] == rest[|rest| - 1]
  {
    CountAppend(head, rest, IsBolusCommand);
  }

  // ---------------------------------------------------------------------------
  // Polling the pump: assertCurrentPumpData
  // ---------------------------------------------------------------------------

  /** The engine state a poll reads and writes. */
  datatype PollState = PollState(pumpDataReadInProgress: bool, needPumpDataRead: bool, lastError: Option<LastError>)

  /** The effects of `observeBatteryDuring` given the charge before and
      after: a low-battery notification at zero, and a battery change when
      the charge rose by at least a half. */
  function BatteryTrace(oldCharge: Option<real>, newCharge: Option<real>): (t: seq<Effect>)
    ensures newCharge.None? ==> t == []
    ensures PumpBatteryLowNotification in t <==> newCharge == Some(0.0)
    ensures (exists o, n :: PumpBatteryReplaced(o, n) in t)
            <==> oldCharge.Some? && newCharge.Some? && newCharge.value - oldCharge.value >= 0.5
  {
    if newCharge.None? then []
    else
      var newVal := newCharge.value;
      var t := (if newVal == 0.0 then [PumpBatteryLowNotification] else [])
               + (if oldCharge.Some? && newVal - oldCharge.value >= 0.5
                  then [PumpBatteryReplaced(oldCharge.value, newVal)] else []);
      assert oldCharge.Some? && newVal - oldCharge.value >= 0.5 ==>
               PumpBatteryReplaced(oldCharge.value, newVal) in t;
      t
  }

  /** With charges as fractions in [0, 1], a battery found empty was never
      just replaced. */
  lemma EmptyBatteryIsNotReplaced(oldCharge: real, newCharge: real)
    requires 0.0 <= oldCharge <= 1.0 && newCharge == 0.0
    ensures BatteryTrace(Some(oldCharge), Some(newCharge)) == [PumpBatteryLowNotification]
  {
  }

  /** The guards of `assertCurrentPumpData(attempt:)`, in order: fresh
      data, no RileyLink, no pump, a read already running. `None` when
      they all pass; otherwise the state the poll stops in (a retry clears
      the in-progress flag it had set). */
  function PollSkip(attempt: nat, s: PollState, hasPumpOps: bool, env: Environment, now: Time): (r: Option<PollState>)
    ensures r.None? <==> PumpDataStale(env, s.needPumpDataRead, now) && env.firstConnectedDevice.Some? && hasPumpOps
                         && !(s.pumpDataReadInProgress && attempt == 0)
  {
    var clearIfRetry := if attempt > 0 then false else s.pumpDataReadInProgress;
    if !PumpDataStale(env, s.needPumpDataRead, now) then Some(s.(pumpDataReadInProgress := clearIfRetry))
    else if env.firstConnectedDevice.None? then
      Some(s.(pumpDataReadInProgress := clearIfRetry, lastError := Some(LastError(now, ConnectionError))))
    else if !hasPumpOps then
      Some(s.(pumpDataReadInProgress := clearIfRetry, lastError := Some(LastError(now, ConfigurationError("Pump ID")))))
    else if s.pumpDataReadInProgress && attempt == 0 then Some(s.(needPumpDataRead := false))
    else None
  }

  /** One status poll from `attempt` on (`assertCurrentPumpData(attempt:)`);
      failed reads are retried until attempt 3. */
  function Poll(attempt: nat, s: PollState, hasPumpOps: bool, env: Environment, radio: Radio, now: Time)
    : (r: (PollState, seq<Effect>))
    requires attempt <= 3
    decreases 3 - attempt, 1
  {
    var skip := PollSkip(attempt, s, hasPumpOps, env, now);
    if skip.Some? then (skip.value, [AssertIdleListening])
    else
      var r := PollSession(attempt, s.(pumpDataReadInProgress := true), hasPumpOps, env, radio, now);
      (r.0, [AssertIdleListening] + r.1)
  }

  /** The pump session of a poll: read the status, reset the clock when it
      drifted, then record battery and reservoir; a failure is retried
      through `Poll` until attempt 3. */
  function PollSession(attempt: nat, s: PollState, hasPumpOps: bool, env: Environment, radio: Radio, now: Time)
    : (r: (PollState, seq<Effect>))
    requires attempt <= 3 && env.firstConnectedDevice.Some?
    decreases 3 - attempt, 0
  {
    var device := env.firstConnectedDevice.value;
    var reply := radio.getCurrentPumpStatus(attempt);
    if reply.Ok? && reply.value.clockDate.None? then
      // the status has no valid date: the read stops with its flag still set
      (s, [GetPumpStatus(attempt)])
    else
      var reset := reply.Ok? && NeedsClockReset(reply.value.clockDate.value, now);
      var t := [GetPumpStatus(attempt)] + (if reset then [SetPumpTime] else []);
      var failure := if reply.Err? then Some(reply.error)
                     else if reset then radio.setTimeAfterStatus(attempt) else None;
      if failure.None? then
        var status := reply.value;
        var stored := env.statusReservoirStored;
        (s.(pumpDataReadInProgress := false, needPumpDataRead := false,
            lastError := if stored.Err? then Some(LastError(now, stored.error)) else s.lastError),
         t + PollSuccessTrace(env, status, device))
      else if attempt < 3 then
        var next := Poll(attempt + 1, s, hasPumpOps, env, radio, now);
        (next.0, t + next.1)
      else
        (PollState(false, false, Some(LastError(now, failure.value))),
         t + [Troubleshoot(device), UploadLoopStatus(failure.value), UploadDeviceStatus(device)])
  }

  /** After a good status: battery observations, the reservoir update
      (without a time left, answered by the dose store) and the device
      status upload. */
  function PollSuccessTrace(env: Environment, status: PumpStatus, device: DeviceId): (t: seq<Effect>)
    requires status.clockDate.Some?
    ensures forall i :: 0 <= i < |t| ==> !IsStatusRead(t[i])
  {
    ReservoirUpdateReadsNoStatus(status.reservoir, status.clockDate.value, None,
                                 env.preferredInsulinDataSource, env.statusReservoirStored);
    BatteryTrace(env.batteryCharge, status.batteryCharge)
    + ReservoirUpdateTrace(status.reservoir, status.clockDate.value, None,
                           env.preferredInsulinDataSource, env.statusReservoirStored)
    + [UploadDeviceStatus(device)]
  }

  /** A poll reads the status at most `4 - attempt` times: at most four
      reads from a first request. */
  lemma {:induction false} PollReadsBounded(attempt: nat, s: PollState, hasPumpOps: bool, env: Environment,
                                            radio: Radio, now: Time)
    requires attempt <= 3
    ensures Count(Poll(attempt, s, hasPumpOps, env, radio, now).1, IsStatusRead) <= 4 - attempt
    decreases 3 - attempt, 1
  {
    if PumpDataStale(env, s.needPumpDataRead, now) && env.firstConnectedDevice.Some? && hasPumpOps
       && !(s.pumpDataReadInProgress && attempt == 0) {
      var s' := s.(pumpDataReadInProgress := true);
      SessionReadsBounded(attempt, s', hasPumpOps, env, radio, now);
      CountAppend([AssertIdleListening], PollSession(attempt, s', hasPumpOps, env, radio, now).1, IsStatusRead);
    }
  }

  lemma {:induction false} SessionReadsBounded(attempt: nat, s: PollState, hasPumpOps: bool, env: Environment,
                                               radio: Radio, now: Time)
    requires attempt <= 3 && env.firstConnectedDevice.Some?
    ensures Count(PollSession(attempt, s, hasPumpOps, env, radio, now).1, IsStatusRead) <= 4 - attempt
    decreases 3 - attempt, 0
  {
    var device := env.firstConnectedDevice.value;
    var reply := radio.getCurrentPumpStatus(attempt);
    if !(reply.Ok? && reply.value.clockDate.None?) {
      var reset := reply.Ok? && NeedsClockReset(reply.value.clockDate.value, now);
      var clock := if reset then [SetPumpTime] else [];
      var t := [GetPumpStatus(attempt)] + clock;
      CountNone(clock, IsStatusRead);
      CountAppend([GetPumpStatus(attempt)], clock, IsStatusRead);
      var failure := if reply.Err? then Some(reply.error)
                     else if reset then radio.setTimeAfterStatus(attempt) else None;
      var tail: seq<Effect>;
      if failure.None? {
        tail := PollSuccessTrace(env, reply.value, device);
        CountNone(tail, IsStatusRead);
      } else if attempt < 3 {
        tail := Poll(attempt + 1, s, hasPumpOps, env, radio, now).1;
        PollReadsBounded(attempt + 1, s, hasPumpOps, env, radio, now);
      } else {
        tail := [Troubleshoot(device), UploadLoopStatus(failure.value), UploadDeviceStatus(device)];
        CountNone(tail, IsStatusRead);
      }
      assert PollSession(attempt, s, hasPumpOps, env, radio, now).1 == t + tail;
      CountAppend(t, tail, IsStatusRead);
    }
  }

  /** A read that is not dropped ends with both flags cleared, unless the
      pump reports a status without a valid date. */
  lemma {:induction false} PollClearsFlags(attempt: nat, s: PollState, hasPumpOps: bool, env: Environment,
                                           radio: Radio, now: Time)
    requires attempt <= 3
    requires PumpDataStale(env, s.needPumpDataRead, now) && env.firstConnectedDevice.Some? && hasPumpOps
    requires !(s.pumpDataReadInProgress && attempt == 0)
    requires forall j :: attempt <= j <= 3 && radio.getCurrentPumpStatus(j).Ok? ==>
                           radio.getCurrentPumpStatus(j).value.clockDate.Some?
    ensures !Poll(attempt, s, hasPumpOps, env, radio, now).0.pumpDataReadInProgress
    ensures !Poll(attempt, s, hasPumpOps, env, radio, now).0.needPumpDataRead
    decreases 3 - attempt
  {
    var reply := radio.getCurrentPumpStatus(attempt);
    var reset := reply.Ok? && NeedsClockReset(reply.value.clockDate.value, now);
    var failure := if reply.Err? then Some(reply.error)
                   else if reset then radio.setTimeAfterStatus(attempt) else None;
    if failure.Some? && attempt < 3 {
      PollClearsFlags(attempt + 1, s.(pumpDataReadInProgress := true), hasPumpOps, env, radio, now);
    }
  }

  /** A first request while a read is running is dropped: the running read
      is left alone and `needPumpDataRead` is cleared. */
  lemma PollDropsOverlappingRequest(s: PollState, hasPumpOps: bool, env: Environment, radio: Radio, now: Time)
    requires PumpDataStale(env, s.needPumpDataRead, now) && env.firstConnectedDevice.Some? && hasPumpOps
    requires s.pumpDataReadInProgress
    ensures Poll(0, s, hasPumpOps, env, radio, now) == (s.(needPumpDataRead := false), [AssertIdleListening])
  {
  }

  /** Data that is not stale starts no read; a retry that finds it fresh
      clears the in-progress flag. */
  lemma PollSkipsFreshData(attempt: nat, s: PollState, hasPumpOps: bool, env: Environment, radio: Radio, now: Time)
    requires attempt <= 3
    requires !PumpDataStale(env, s.needPumpDataRead, now)
    ensures Count(Poll(attempt, s, hasPumpOps, env, radio, now).1, IsStatusRead) == 0
    ensures Poll(attempt, s, hasPumpOps, env, radio, now).0.pumpDataReadInProgress
            == (attempt == 0 && s.pumpDataReadInProgress)
  {
  }

  // ---------------------------------------------------------------------------
  // Reservoir updates
  // ---------------------------------------------------------------------------

  const WarningThresholds: seq<real> := [10.0, 20.0, 30.0]

  /** One low-reservoir notification per threshold the volume fell to or
      below from above it, over the thresholds in order. */
  function LowNotifications(volume: real, previous: real, thresholds: seq<real>, timeLeft: Option<real>): seq<Effect>
  {
    if |thresholds| == 0 then []
    else
      var t := thresholds[|thresholds| - 1];
      LowNotifications(volume, previous, thresholds[..|thresholds| - 1], timeLeft)
      + (if volume <= t && previous > t then [ReservoirLowNotification(volume, timeLeft)] else [])
  }

  /** Taking one more threshold appends that threshold's notification. */
  lemma LowNotificationsStep(volume: real, previous: real, thresholds: seq<real>, i: nat, timeLeft: Option<real>)
    requires i < |thresholds|
    ensures LowNotifications(volume, previous, thresholds[..i + 1], timeLeft)
            == LowNotifications(volume, previous, thresholds[..i], timeLeft)
               + (if volume <= thresholds[i] && previous > thresholds[i] then [ReservoirLowNotification(volume, timeLeft)]
                  else [])
  {
    assert thresholds[..i + 1][..i] == thresholds[..i];
  }

  /** Every notification is for the new volume, there is at most one per
      threshold, and a volume that did not fall sends none. */
  lemma {:induction false} LowNotificationsFacts(volume: real, previous: real, thresholds: seq<real>, timeLeft: Option<real>)
    ensures |LowNotifications(volume, previous, thresholds, timeLeft)| <= |thresholds|
    ensures forall e :: e in LowNotifications(volume, previous, thresholds, timeLeft) ==>
              e == ReservoirLowNotification(volume, timeLeft)
    ensures volume >= previous ==> LowNotifications(volume, previous, thresholds, timeLeft) == []
  {
    if |thresholds| > 0 {
      LowNotificationsFacts(volume, previous, thresholds[..|thresholds| - 1], timeLeft);
    }
  }

  /** For the standard thresholds, one notification for each of 10, 20 and
      30 units crossed. */
  lemma LowNotificationsPerThreshold(volume: real, previous: real, timeLeft: Option<real>)
    ensures |LowNotifications(volume, previous, WarningThresholds, timeLeft)|
            == (if volume <= 10.0 < previous then 1 else 0)
               + (if volume <= 20.0 < previous then 1 else 0)
               + (if volume <= 30.0 < previous then 1 else 0)
  {
    var ts := WarningThresholds;
    assert ts[..2] == [10.0, 20.0] && ts[..2][..1] == [10.0] && ts[..2][..1][..0] == [];
    assert [10.0][..0] == [] && [10.0, 20.0][..1] == [10.0];
    var one := LowNotifications(volume, previous, [10.0], timeLeft);
    assert LowNotifications(volume, previous, [], timeLeft) == [];
    assert one == LowNotifications(volume, previous, [], timeLeft)
                  + (if volume <= 10.0 && previous > 10.0 then [ReservoirLowNotification(volume, timeLeft)] else []);
    assert |one| == (if volume <= 10.0 < previous then 1 else 0);
    var two := LowNotifications(volume, previous, [10.0, 20.0], timeLeft);
    assert two == one + (if volume <= 20.0 && previous > 20.0 then [ReservoirLowNotification(volume, timeLeft)] else []);
  }

  /** What a stored reservoir value reports: nothing without a previous
      value; only the empty notification at zero or below; otherwise the
      low notifications and, after a rise of more than one unit, an insulin
      change. */
  function ReservoirAlerts(volume: real, previous: Option<real>, timeLeft: Option<real>): seq<Effect>
  {
    if previous.None? then []
    else if volume <= 0.0 then [ReservoirEmptyNotification]
    else LowNotifications(volume, previous.value, WarningThresholds, timeLeft)
         + (if volume > previous.value + 1.0 then [InsulinChange(previous.value, volume)] else [])
  }

  /** An empty reservoir sends only the empty notification, and a refill
      logs an insulin change and never a low notification. */
  lemma ReservoirAlertsFacts(volume: real, previous: real, timeLeft: Option<real>)
    ensures volume <= 0.0 ==> ReservoirAlerts(volume, Some(previous), timeLeft) == [ReservoirEmptyNotification]
    ensures volume > 0.0 && volume > previous + 1.0 ==>
              ReservoirAlerts(volume, Some(previous), timeLeft) == [InsulinChange(previous, volume)]
    ensures volume > 0.0 && volume <= previous + 1.0 ==>
              ReservoirAlerts(volume, Some(previous), timeLeft) == LowNotifications(volume, previous, WarningThresholds, timeLeft)
  {
    if volume > previous + 1.0 {
      LowNotificationsFacts(volume, previous, WarningThresholds, timeLeft);
    }
  }

  /** The dose store's answer to a new reservoir value. */
  datatype StoredReservoir = StoredReservoir(newValue: ReservoirValue, lastValue: Option<ReservoirValue>, continuous: bool)

  /** Fresh, reliable data runs the loop at once; otherwise (history is the
      preferred source, or the stored values have a gap) history is fetched
      first, and the loop still runs after a failed fetch only when the
      values are continuous. */
  function LoopTrigger(source: InsulinDataSource, continuous: bool): (e: Effect)
    ensures e == RunLoop <==> source.ReservoirSource? && continuous
    ensures e.FetchHistoryThenLoop? ==> e.loopEvenOnError == continuous
  {
    if source == PumpHistory || !continuous then FetchHistoryThenLoop(continuous) else RunLoop
  }

  /** Everything `updateReservoirVolume` does once the store answered.
      Returning at an empty reservoir skips the timer tick update. */
  function ReservoirUpdateTrace(units: real, date: Time, timeLeft: Option<real>, source: InsulinDataSource,
                                stored: Result<StoredReservoir, Error>): seq<Effect>
  {
    [AddReservoirValue(units, date)]
    + match stored
      case Err(_) => [UpdateTimerTick]
      case Ok(r) =>
        var previous := if r.lastValue.Some? then Some(r.lastValue.value.unitVolume) else None;
        [LoopTrigger(source, r.continuous)]
        + ReservoirAlerts(r.newValue.unitVolume, previous, timeLeft)
        + (if previous.Some? && r.newValue.unitVolume <= 0.0 then [] else [UpdateTimerTick])
  }

  /** A reservoir update sends no command to the pump. */
  lemma ReservoirUpdateReadsNoStatus(units: real, date: Time, timeLeft: Option<real>, source: InsulinDataSource,
                                     stored: Result<StoredReservoir, Error>)
    ensures forall e :: e in ReservoirUpdateTrace(units, date, timeLeft, source, stored) ==> !IsStatusRead(e)
  {
    if stored.Ok? {
      var r := stored.value;
      var previous := if r.lastValue.Some? then Some(r.lastValue.value.unitVolume) else None;
      var alerts := ReservoirAlerts(r.newValue.unitVolume, previous, timeLeft);
      if previous.Some? && r.newValue.unitVolume > 0.0 {
        LowNotificationsFacts(r.newValue.unitVolume, previous.value, WarningThresholds, timeLeft);
      }
      assert forall e :: e in alerts ==> !IsStatusRead(e);
    }
  }

  // ---------------------------------------------------------------------------
  // History
  // ---------------------------------------------------------------------------

  /** The success date after a fetch: the latest of the old one and every
      event date. */
  function LatestOf(start: Time, events: seq<HistoryEvent>): Time
  {
    if |events| == 0 then start else Max(LatestOf(start, events[..|events| - 1]), events[|events| - 1].date)
  }

  /** It never goes back, covers every event, and is the old date or one of
      the event dates. */
  lemma {:induction false} LatestOfFacts(start: Time, events: seq<HistoryEvent>)
    ensures LatestOf(start, events) >= start
    ensures forall i :: 0 <= i < |events| ==> LatestOf(start, events) >= events[i].date
    ensures LatestOf(start, events) == start || exists i :: 0 <= i < |events| && LatestOf(start, events) == events[i].date
  {
    if |events| > 0 {
      var init := events[..|events| - 1];
      LatestOfFacts(start, init);
      assert forall i :: 0 <= i < |init| ==> init[i] == events[i];
    }
  }

  /** The meter readings among the fetched events that go to the glucose
      store: all of them, unless a glucose value was entered in the last
      30 minutes. */
  function PumpGlucose(events: seq<HistoryEvent>, recentGlucose: bool): seq<Effect>
  {
    if |events| == 0 then []
    else
      var e := events[|events| - 1];
      PumpGlucose(events[..|events| - 1], recentGlucose)
      + (if e.bgAmount.Some? && !recentGlucose then [AddPumpGlucose(e.bgAmount.value, e.date)] else [])
  }

  /** Taking one more event moves the latest date to that event's if it is
      later, and appends that event's meter reading. */
  lemma HistoryStep(start: Time, events: seq<HistoryEvent>, i: nat, recentGlucose: bool)
    requires i < |events|
    ensures LatestOf(start, events[..i + 1]) == Max(LatestOf(start, events[..i]), events[i].date)
    ensures PumpGlucose(events[..i + 1], recentGlucose)
            == PumpGlucose(events[..i], recentGlucose)
               + (if events[i].bgAmount.Some? && !recentGlucose
                  then [AddPumpGlucose(events[i].bgAmount.value, events[i].date)] else [])
  {
    assert events[..i + 1][..i] == events[..i];
  }

  /** With recent glucose nothing is added; otherwise one entry per meter
      reading, in order. */
  lemma {:induction false} PumpGlucoseFacts(events: seq<HistoryEvent>, recentGlucose: bool)
    ensures recentGlucose ==> PumpGlucose(events, recentGlucose) == []
    ensures |PumpGlucose(events, recentGlucose)| <= |events|
    ensures forall e :: e in PumpGlucose(events, recentGlucose) ==>
              exists i :: 0 <= i < |events| && events[i].bgAmount.Some?
                          && e == AddPumpGlucose(events[i].bgAmount.value, events[i].date)
  {
    if |events| > 0 {
      var init := events[..|events| - 1];
      PumpGlucoseFacts(init, recentGlucose);
      assert forall i :: 0 <= i < |init| ==> init[i] == events[i];
    }
  }

  /** `fetchPumpHistory`: ask from the earlier of the dose store's query
      date and the last success; store the events and complete with the
      store's error, or troubleshoot and complete with the radio's. */
  function HistoryTrace(hasPumpOps: bool, env: Environment, lastSuccess: Time,
                        events: Result<seq<HistoryEvent>, Error>, storeError: Option<Error>, recentGlucose: bool)
    : seq<Effect>
  {
    if env.firstConnectedDevice.None? then [HistoryCompletion(Some(ConnectionError))]
    else if !hasPumpOps then [HistoryCompletion(Some(ConfigurationError("Pump ID")))]
    else
      [GetHistoryEvents(Min(env.pumpEventQueryAfterDate, lastSuccess))]
      + match events
        case Err(e) => [Troubleshoot(env.firstConnectedDevice.value), HistoryCompletion(Some(e))]
        case Ok(evs) => [AddPumpEvents(|evs|), HistoryCompletion(storeError)] + PumpGlucose(evs, recentGlucose)
  }

  /** The history is asked for from a date no later than the last success,
      so events after it are never skipped. */
  lemma HistoryStartsAtLastSuccess(hasPumpOps: bool, env: Environment, lastSuccess: Time,
                                   events: Result<seq<HistoryEvent>, Error>, storeError: Option<Error>, recentGlucose: bool)
    requires env.firstConnectedDevice.Some? && hasPumpOps
    ensures var t := HistoryTrace(hasPumpOps, env, lastSuccess, events, storeError, recentGlucose);
            t[0].GetHistoryEvents? && t[0].since <= lastSuccess && t[0].since <= env.pumpEventQueryAfterDate
  {
  }

  // ---------------------------------------------------------------------------
  // Temp basal
  // ---------------------------------------------------------------------------

  /** After a temp basal, when the pump events are over 4 minutes old: read
      the pump clock, reset it if it is more than 20 s off, then fetch
      history. An error reading or setting the clock skips the fetch. */
  function PiggyBackTrace(env: Environment, radio: Radio, now: Time): seq<Effect>
  {
    if !(env.lastAddedPumpEvents - now < -4.0 * Minute) then []
    else match radio.getTime
      case Err(_) => [GetPumpTime]
      case Ok(clock) =>
        if clock.Some? && NeedsClockReset(clock.value, now) then
          [GetPumpTime, SetPumpTime] + (if radio.setTimeAfterBasal.None? then [FetchPumpHistoryRequested] else [])
        else [GetPumpTime, FetchPumpHistoryRequested]
  }

  /** The dose a successful temp basal reports: it ends when the pump says
      and started one duration earlier, at the rate the pump echoed. */
  function TempBasalDoseFor(response: TempBasalResponse, duration: real, now: Time): (d: TempBasalDose)
    ensures d.endDate == now + response.timeRemaining
    ensures d.endDate - d.startDate == duration
    ensures d.rate == response.rate
  {
    var endDate := now + response.timeRemaining;
    TempBasalDose(endDate - duration, endDate, response.rate)
  }

  /** `internalSetTempBasal(attempt:)`: failures are retried up to attempt 3
      unless the pump says a bolus is in progress; success and the final
      failure both go on to the history piggy-back. */
  function TempBasalTrace(rate: real, duration: real, attempt: nat, hasPumpOps: bool, env: Environment,
                          radio: Radio, now: Time): seq<Effect>
    requires attempt <= 3
    decreases 3 - attempt
  {
    if !hasPumpOps then [TempBasalCompletion(Err(ConfigurationError("Pump ID")))]
    else if env.firstConnectedDevice.None? then [TempBasalCompletion(Err(ConnectionError))]
    else
      [SetTempBasal(rate, duration, attempt)]
      + match radio.setTempBasal(attempt)
        case Ok(response) =>
          [TempBasalCompletion(Ok(TempBasalDoseFor(response, duration, now)))] + PiggyBackTrace(env, radio, now)
        case Err(e) =>
          if attempt < 3 && !Contains(Text(e), "Bolus in progress") then
            TempBasalTrace(rate, duration, attempt + 1, hasPumpOps, env, radio, now)
          else [TempBasalCompletion(Err(e))] + PiggyBackTrace(env, radio, now)
  }

  lemma PiggyBackQuiet(env: Environment, radio: Radio, now: Time)
    ensures Count(PiggyBackTrace(env, radio, now), IsTempBasalCommand) == 0
    ensures Count(PiggyBackTrace(env, radio, now), IsTempBasalCompletion) == 0
  {
    var t := PiggyBackTrace(env, radio, now);
    CountNone(t, IsTempBasalCommand);
    CountNone(t, IsTempBasalCompletion);
  }

  /** Exactly one completion, and at most `4 - attempt` commands: at most
      four `setTempBasal` commands from a first call. */
  lemma {:induction false} TempBasalBounded(rate: real, duration: real, attempt: nat, hasPumpOps: bool,
                                            env: Environment, radio: Radio, now: Time)
    requires attempt <= 3
    ensures Count(TempBasalTrace(rate, duration, attempt, hasPumpOps, env, radio, now), IsTempBasalCommand) <= 4 - attempt
    ensures Count(TempBasalTrace(rate, duration, attempt, hasPumpOps, env, radio, now), IsTempBasalCompletion) == 1
    decreases 3 - attempt
  {
    var t := TempBasalTrace(rate, duration, attempt, hasPumpOps, env, radio, now);
    if hasPumpOps && env.firstConnectedDevice.Some? {
      var head := [SetTempBasal(rate, duration, attempt)];
      assert t == head + t[1..];
      CountAppend(head, t[1..], IsTempBasalCommand);
      CountAppend(head, t[1..], IsTempBasalCompletion);
      PiggyBackQuiet(env, radio, now);
      match radio.setTempBasal(attempt)
      case Ok(response) =>
        var c := [TempBasalCompletion(Ok(TempBasalDoseFor(response, duration, now)))];
        CountAppend(c, PiggyBackTrace(env, radio, now), IsTempBasalCommand);
        CountAppend(c, PiggyBackTrace(env, radio, now), IsTempBasalCompletion);
      case Err(e) =>
        if attempt < 3 && !Contains(Text(e), "Bolus in progress") {
          TempBasalBounded(rate, duration, attempt + 1, hasPumpOps, env, radio, now);
        } else {
          var c := [TempBasalCompletion(Err(e))];
          CountAppend(c, PiggyBackTrace(env, radio, now), IsTempBasalCommand);
          CountAppend(c, PiggyBackTrace(env, radio, now), IsTempBasalCompletion);
        }
    }
  }

  /** A "Bolus in progress" failure is reported at once, without a retry. */
  lemma TempBasalBolusInProgressNotRetried(rate: real, duration: real, attempt: nat, hasPumpOps: bool,
                                           env: Environment, radio: Radio, now: Time)
    requires attempt <= 3 && hasPumpOps && env.firstConnectedDevice.Some?
    requires radio.setTempBasal(attempt).Err? && Contains(Text(radio.setTempBasal(attempt).error), "Bolus in progress")
    ensures TempBasalTrace(rate, duration, attempt, hasPumpOps, env, radio, now)
            == [SetTempBasal(rate, duration, attempt), TempBasalCompletion(Err(radio.setTempBasal(attempt).error))]
               + PiggyBackTrace(env, radio, now)
  {
  }

  // ---------------------------------------------------------------------------
  // Device health and small helpers
  // ---------------------------------------------------------------------------

  /** What `troubleshootPumpComms` does with a RileyLink. */
  datatype TroubleshootAction = NoPumpOps | DeprioritizeRecentlyTuned | SkipRecentReservoir | TuneDevice

  /** Tuned within the last 14 minutes: deprioritize; else a reservoir
      value under 24 minutes old: leave it; else tune. */
  function TroubleshootDecision(hasPumpOps: bool, lastTuned: Option<Time>, env: Environment, now: Time)
    : (a: TroubleshootAction)
    ensures a == NoPumpOps <==> !hasPumpOps
    ensures a == DeprioritizeRecentlyTuned <==> hasPumpOps && lastTuned.GetOr(DistantPast) - now > -14.0 * Minute
    ensures a == SkipRecentReservoir <==>
              hasPumpOps && lastTuned.GetOr(DistantPast) - now <= -14.0 * Minute
              && env.lastReservoirValue.Some? && env.lastReservoirValue.value.startDate - now > -24.0 * Minute
    ensures a == TuneDevice <==>
              hasPumpOps && lastTuned.GetOr(DistantPast) - now <= -14.0 * Minute
              && (env.lastReservoirValue.None? || env.lastReservoirValue.value.startDate - now <= -24.0 * Minute)
  {
    if !hasPumpOps then NoPumpOps
    else if lastTuned.GetOr(DistantPast) - now <= -14.0 * Minute then
      if env.lastReservoirValue.Some? && env.lastReservoirValue.value.startDate - now > -24.0 * Minute
      then SkipRecentReservoir
      else TuneDevice
    else DeprioritizeRecentlyTuned
  }

  /** The effects of `troubleshootPumpComms` after its timer tick update. */
  function TroubleshootTrace(action: TroubleshootAction, device: DeviceId, state: DeviceState,
                             tune: Result<real, Error>): seq<Effect>
  {
    match action
    case NoPumpOps => []
    case SkipRecentReservoir => []
    case DeprioritizeRecentlyTuned => [Deprioritize(device)]
    case TuneDevice => [TuneRadio(device, state.lastValidFrequency)] + (if tune.Err? then [Deprioritize(device)] else [])
  }

  /** A device is deprioritized when it was tuned recently or its tuning
      failed, and never tuned twice within 14 minutes. */
  lemma TroubleshootFacts(hasPumpOps: bool, env: Environment, now: Time, device: DeviceId, state: DeviceState,
                          tune: Result<real, Error>)
    ensures var t := TroubleshootTrace(TroubleshootDecision(hasPumpOps, state.lastTuned, env, now), device, state, tune);
            (Deprioritize(device) in t <==>
              hasPumpOps && (state.lastTuned.GetOr(DistantPast) - now > -14.0 * Minute
                             || (TroubleshootDecision(hasPumpOps, state.lastTuned, env, now) == TuneDevice && tune.Err?)))
    ensures state.lastTuned.Some? && state.lastTuned.value - now > -14.0 * Minute ==>
              TroubleshootDecision(hasPumpOps, state.lastTuned, env, now) != TuneDevice
  {
  }

  /** A device never tuned is tuned unless pump data is recent. */
  lemma NeverTunedIsTuned(env: Environment, now: Time)
    requires now >= DistantPast + 14.0 * Minute
    requires env.lastReservoirValue.None? || env.lastReservoirValue.value.startDate - now <= -24.0 * Minute
    ensures TroubleshootDecision(true, None, env, now) == TuneDevice
  {
  }

  /** The newest reservoir value is at least 30 minutes old. */
  predicate PumpSilent(env: Environment, now: Time)
  {
    env.lastReservoirValue.Some? && env.lastReservoirValue.value.startDate - now <= -30.0 * Minute
  }

  /** The latest glucose value is at least 30 minutes old. */
  predicate CgmSilent(env: Environment, now: Time)
  {
    env.latestGlucoseDate.Some? && env.latestGlucoseDate.value - now <= -30.0 * Minute
  }

  /** `maybeToggleBluetooth`'s reason: no pump data for 30 minutes, else no
      glucose for 30 minutes, else none. */
  function RestartReasonFor(env: Environment, now: Time): (r: Option<RestartReason>)
    ensures r == Some(PumpReason) <==> PumpSilent(env, now)
    ensures r == Some(CgmReason) <==> !PumpSilent(env, now) && CgmSilent(env, now)
    ensures r.None? <==> !PumpSilent(env, now) && !CgmSilent(env, now)
  {
    if env.lastReservoirValue.Some? && env.lastReservoirValue.value.startDate - now <= -30.0 * Minute then Some(PumpReason)
    else if env.latestGlucoseDate.Some? && env.latestGlucoseDate.value - now <= -30.0 * Minute then Some(CgmReason)
    else None
  }

  /** A restart is allowed when the last one is at least 30 minutes old. */
  predicate RestartAllowed(btMagicDate: Time, now: Time)
  {
    !(btMagicDate - now > -30.0 * Minute)
  }

  /** Two restarts are at least 30 minutes apart: after a restart at
      `first`, none is allowed until 30 minutes later. */
  lemma RestartsRateLimited(first: Time, second: Time)
    ensures RestartAllowed(first, second) <==> second - first >= 30.0 * Minute
  {
  }

  /** `setBasalRate`'s schedule entries: one per item, indexed from zero,
      at the item's start offset and rate. */
  predicate EntriesFor(items: seq<ScheduleItem>, entries: seq<BasalScheduleEntry>)
  {
    |entries| == |items|
    && forall i :: 0 <= i < |entries| ==> entries[i] == BasalScheduleEntry(i, items[i].startTime, items[i].value)
  }

  /** `setBasalRate`'s entries, built from the end. */
  function BasalEntries(items: seq<ScheduleItem>): (entries: seq<BasalScheduleEntry>)
    ensures EntriesFor(items, entries)
  {
    if |items| == 0 then []
    else
      var last := |items| - 1;
      BasalEntries(items[..last]) + [BasalScheduleEntry(last, items[last].startTime, items[last].value)]
  }

  /** The entries are determined by the items. */
  lemma EntriesForUnique(items: seq<ScheduleItem>, a: seq<BasalScheduleEntry>, b: seq<BasalScheduleEntry>)
    requires EntriesFor(items, a) && EntriesFor(items, b)
    ensures a == b
  {
    assert forall i :: 0 <= i < |a| ==> a[i] == b[i];
  }

  /** `setBasalRate`: no schedule, no pump and no RileyLink each complete
      with their error; otherwise the schedule is sent and the pump's answer
      completes the call. */
  function BasalRateTrace(hasPumpOps: bool, env: Environment, radio: Radio): seq<Effect>
  {
    if env.basalRateSchedule.None? then [BasalRateCompletion(Some(ConfigurationError("No basal rate schedule")))]
    else if !hasPumpOps then [BasalRateCompletion(Some(ConfigurationError("No pump ops")))]
    else if env.firstConnectedDevice.None? then [BasalRateCompletion(Some(ConnectionError))]
    else [SetBasalSchedule(BasalEntries(env.basalRateSchedule.value)), BasalRateCompletion(radio.setBasalSchedule)]
  }

  /** One completion always; the schedule is sent exactly when there is a
      schedule, a pump and a RileyLink, and it then carries one entry per
      schedule item. */
  lemma BasalRateFacts(hasPumpOps: bool, env: Environment, radio: Radio)
    ensures var t := BasalRateTrace(hasPumpOps, env, radio);
            t[|t| - 1].BasalRateCompletion? && (forall i :: 0 <= i < |t| - 1 ==> !t[i].BasalRateCompletion?)
    ensures var t := BasalRateTrace(hasPumpOps, env, radio);
            (t[0].SetBasalSchedule? <==> env.basalRateSchedule.Some? && hasPumpOps && env.firstConnectedDevice.Some?)
            && (t[0].SetBasalSchedule? ==> EntriesFor(env.basalRateSchedule.value, t[0].entries))
  {
  }

  /** The state `deviceStates[device, default: DeviceState()]`. */
  function DeviceStateFor(states: map<DeviceId, DeviceState>, device: DeviceId): DeviceState
  {
    if device in states then states[device] else DeviceState(None, None)
  }

  /** `characters` is the number of `Character`s (grapheme clusters) of
      `s`: none for the empty string, otherwise between one and `|s|`.
      Segmentation is Unicode data and comes in as this count. */
  predicate CharacterCount(s: string, characters: nat)
  {
    if |s| == 0 then characters == 0 else 0 < characters <= |s|
  }

  /** `setPumpID`'s filter: only an id of six `Character`s is used;
      `characters` is the id's `count`. */
  function AcceptedPumpID(pumpID: Option<string>, characters: nat): (r: Option<string>)
    requires pumpID.Some? ==> CharacterCount(pumpID.value, characters)
    ensures r.Some? <==> pumpID.Some? && characters == 6
    ensures r.Some? ==> r == pumpID && |r.value| >= 6
  {
    if pumpID.Some? && characters == 6 then pumpID else None
  }
}
