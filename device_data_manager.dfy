/** `DeviceDataManager`: the engine's state and its operations, each proved
    to append to the effect log exactly the trace module `PumpSpec` defines
    and to leave its fields as stated. The radio's replies, the stores'
    answers and the collaborators' state come in as parameters; `now` is
    the clock. */
module DeviceData {
  import opened Common
  import opened PumpSpec

  class DeviceDataManager {
    var bolusInProgress: bool
    var needPumpDataRead: bool
    var pumpDataReadInProgress: bool
    var deviceStates: map<DeviceId, DeviceState>
    var lastPumpHistorySuccess: Time
    var btMagicDate: Time
    var lastError: Option<LastError>
    var pumpSettings: Option<PumpSettings>
    /** Whether `pumpOps` is non-nil. */
    var hasPumpOps: bool
    /** The calls made into collaborators, oldest first. */
    var log: seq<Effect>

    function PollView(): PollState
      reads this`pumpDataReadInProgress, this`needPumpDataRead, this`lastError
    {
      PollState(pumpDataReadInProgress, needPumpDataRead, lastError)
    }

    /** Pump operations exist exactly when pump settings do. */
    predicate Valid()
      reads this
    {
      hasPumpOps <==> pumpSettings.Some?
    }

    /** `init()`: pump operations are created from stored settings, if any;
        history is first fetched from six hours back and the Bluetooth
        restart clock starts at launch. */
    constructor (now: Time, settings: Option<PumpSettings>)
      ensures Valid()
      ensures !bolusInProgress && !needPumpDataRead && !pumpDataReadInProgress
      ensures deviceStates == map[] && lastError == None && pumpSettings == settings
      ensures lastPumpHistorySuccess == now - 6.0 * Hour && btMagicDate == now
      ensures log == []
    {
      bolusInProgress := false;
      needPumpDataRead := false;
      pumpDataReadInProgress := false;
      deviceStates := map[];
      lastPumpHistorySuccess := now - 6.0 * Hour;
      btMagicDate := now;
      lastError := None;
      pumpSettings := settings;
      hasPumpOps := settings.Some?;
      log := [];
    }

    // -------------------------------------------------------------------------
    // Bolus
    // -------------------------------------------------------------------------

    /** `enactBolus`'s `notify`. */
    method Notify(error: Option<Error>, quiet: bool, units: real, startDate: Time)
      modifies this`log, this`bolusInProgress
      ensures log == old(log) + NotifyTrace(error, quiet, units, startDate)
      ensures !bolusInProgress
    {
      if error.Some? && !quiet {
        log := log + [BolusFailureNotification(error.value, units, startDate)];
      }
      bolusInProgress := false;
      log := log + [BolusCompletion(error)];
    }

    /** `assertPumpDate`: a pump date more than a minute off is rejected
        and, with a pump configured, a clock sync is requested.
        `SyncPumpTime` is that request: the "Sync Pump Time" session, which
        runs only when a RileyLink is connected, and the outcome of its
        `setTime` are not modelled. */
    method AssertPumpDate(date: Time, now: Time) returns (ok: bool)
      modifies this`log
      ensures ok == PumpDateAcceptable(date, now)
      ensures log == old(log) + (if !ok && hasPumpOps then [SyncPumpTime] else [])
    {
      var dateDiff := Abs(date - now);
      if dateDiff > 1.0 * Minute {
        if !hasPumpOps {
          return false;
        }
        log := log + [SyncPumpTime];
        return false;
      }
      return true;
    }

    /** The reservoir read inside the bolus session; `ok` is false when the
        bolus was abandoned (and `notify` called). */
    method ReadReservoirForBolus(units: real, startDate: Time, quiet: bool, now: Time, radio: Radio,
                                 storeError: Option<Error>) returns (ok: bool)
      requires hasPumpOps
      modifies this`log, this`bolusInProgress
      ensures var p := ReservoirPhase(radio, now, storeError);
              ok == p.failure.None?
              && log == old(log) + p.trace + (if ok then [] else NotifyTrace(p.failure, quiet, units, startDate))
      ensures bolusInProgress == (ok && old(bolusInProgress))
    {
      ghost var p := ReservoirPhase(radio, now, storeError);
      log := log + [ReadRemainingInsulin];
      match radio.getRemainingInsulin
      case Err(e) =>
        Notify(Some(ReservoirReadError(e)), quiet, units, startDate);
        AppendAssoc(old(log), p.trace, NotifyTrace(p.failure, quiet, units, startDate));
        return false;
      case Ok(reservoir) =>
        var dateOk := AssertPumpDate(reservoir.clockDate, now);
        if !dateOk {
          Notify(Some(ClockDeviationError), quiet, units, startDate);
          AppendAssoc(old(log), p.trace, NotifyTrace(p.failure, quiet, units, startDate));
          return false;
        }
        log := log + [AddReservoirValue(reservoir.units, reservoir.clockDate)];
        assert log == old(log) + p.trace;
        if storeError.Some? {
          Notify(storeError, quiet, units, startDate);
          AppendAssoc(old(log), p.trace, NotifyTrace(p.failure, quiet, units, startDate));
          return false;
        }
        return true;
    }

    /** The `switch (error)` after a failed `setNormalBolus`: a certain
        "bolus in progress" error confirms the bolus (and clears `retry`),
        other certain errors keep `retry`, an uncertain one keeps it only
        when the pump did not answer the power-on, anything else clears it. */
    method ClassifyFailure(units: real, quiet: bool, startDate: Time, error: Error) returns (retry: bool)
      modifies this`log, this`bolusInProgress
      ensures retry == BolusRetryable(error)
      ensures log == old(log) + (if ConfirmsBolus(error) then ConfirmedTrace(units, quiet, startDate) else [])
      ensures bolusInProgress == (!ConfirmsBolus(error) && old(bolusInProgress))
    {
      retry := true;
      var str := Text(error);
      if error.Certain? {
        if Contains(str, "bolusInProgress") || Contains(str, "Bolus in progress") {
          log := log + [AddConfirmedBolus(units)];
          Notify(None, quiet, units, startDate);
          retry := false;
        }
      } else if error.Uncertain? {
        retry := (Contains(str, "noResponse(") || Contains(str, "unknownResponse(")) && Contains(str, "powerOn");
      } else {
        retry := false;
      }
    }

    /** The give-up branch of the retry loop: the failed bolus is recorded,
        then comms are troubleshot when the error was one that is retried
        (attempts ran out) or a pump data read is requested when not, and
        the failure is reported. */
    method RecordFailedBolus(units: real, quiet: bool, startDate: Time, device: DeviceId, error: Error, retry: bool,
                             attempt: nat)
      requires retry == BolusRetryable(error)
      modifies this`log, this`bolusInProgress, this`needPumpDataRead
      ensures log == old(log) + FailedTrace(units, quiet, startDate, device, error, attempt)
      ensures !bolusInProgress
      ensures needPumpDataRead == (old(needPumpDataRead) || !retry)
    {
      log := log + [AddFailedBolus(units, error, retry, attempt)];
      if retry {
        log := log + [Troubleshoot(device)];
      } else {
        log := log + [PumpDataReadRequested];
        needPumpDataRead := true;
      }
      Notify(Some(error), quiet, units, startDate);
    }

    /** One pass of the `while retry` loop: the command, then either the
        confirmation, another attempt, or the ending the loop gives up
        with. `goOn` is whether the loop goes round again. */
    method BolusAttempt(units: real, startDate: Time, quiet: bool, device: DeviceId, setBolus: nat -> Option<Error>,
                        attempt: nat) returns (goOn: bool)
      requires 1 <= attempt <= 5
      modifies this`log, this`bolusInProgress, this`needPumpDataRead
      ensures goOn == RetriesAfter(setBolus, attempt)
      ensures goOn ==> log == old(log) + [SetNormalBolus(units, attempt)]
                       && bolusInProgress == old(bolusInProgress) && needPumpDataRead == old(needPumpDataRead)
      ensures !goOn ==> log == old(log) + [SetNormalBolus(units, attempt)]
                                        + Ending(units, quiet, startDate, device, setBolus(attempt), attempt)
                        && !bolusInProgress
                        && needPumpDataRead == (old(needPumpDataRead)
                                                || (setBolus(attempt).Some? && !BolusRetryable(setBolus(attempt).value)))
    {
      log := log + [SetNormalBolus(units, attempt)];
      ghost var sent := log;
      var reply := setBolus(attempt);
      if reply.None? {
        log := log + [AddConfirmedBolus(units)];
        Notify(None, quiet, units, startDate);
        AppendAssoc(sent, [AddConfirmedBolus(units)], NotifyTrace(None, quiet, units, startDate));
        return false;
      }
      goOn := CatchBolusError(units, startDate, quiet, device, reply.value, attempt);
      if !goOn {
        EndingOfError(sent, units, quiet, startDate, device, reply.value, attempt);
      }
    }

    /** The `catch` block of the retry loop for the error of `attempt`:
        a confirmed record first when the error shows the bolus was
        delivered, then, unless the loop goes on, the failed record. */
    method CatchBolusError(units: real, startDate: Time, quiet: bool, device: DeviceId, error: Error, attempt: nat)
      returns (goOn: bool)
      requires 1 <= attempt <= 5
      modifies this`log, this`bolusInProgress, this`needPumpDataRead
      ensures goOn == (BolusRetryable(error) && attempt < 5)
      ensures goOn ==> log == old(log) && bolusInProgress == old(bolusInProgress)
                       && needPumpDataRead == old(needPumpDataRead)
      ensures !goOn ==> log == old(log) + (if ConfirmsBolus(error) then ConfirmedTrace(units, quiet, startDate) else [])
                                        + FailedTrace(units, quiet, startDate, device, error, attempt)
                        && !bolusInProgress
                        && needPumpDataRead == (old(needPumpDataRead) || !BolusRetryable(error))
    {
      var retry := ClassifyFailure(units, quiet, startDate, error);
      assert needPumpDataRead == old(needPumpDataRead);
      if retry && attempt < 5 {
        return true;
      }
      RecordFailedBolus(units, quiet, startDate, device, error, retry, attempt);
      return false;
    }

    /** The `while retry` loop of `enactBolus`. */
    method RetryBolus(units: real, startDate: Time, quiet: bool, device: DeviceId, setBolus: nat -> Option<Error>)
      modifies this`log, this`bolusInProgress, this`needPumpDataRead
      ensures log == old(log) + RetryTrace(units, quiet, startDate, device, setBolus)
      ensures !bolusInProgress
      ensures needPumpDataRead == (old(needPumpDataRead) || RetryTriggersRead(setBolus, 1))
    {
      var retry := true;
      var attempt := 1;
      while retry
        invariant 1 <= attempt <= 5
        invariant retry ==> log == old(log) + Attempts(units, 1, attempt - 1)
        invariant retry ==> bolusInProgress == old(bolusInProgress) && needPumpDataRead == old(needPumpDataRead)
        invariant retry ==> forall j :: 1 <= j < attempt ==> RetriesAfter(setBolus, j)
        invariant !retry ==> log == old(log) + RetryTrace(units, quiet, startDate, device, setBolus)
        invariant !retry ==> !bolusInProgress
        invariant !retry ==> needPumpDataRead == (old(needPumpDataRead) || RetryTriggersRead(setBolus, 1))
        decreases if retry then 6 - attempt else 0
      {
        ghost var before := log;
        retry := BolusAttempt(units, startDate, quiet, device, setBolus, attempt);
        if retry {
          attempt := attempt + 1;
        } else {
          RetryStopsAt(units, quiet, startDate, device, setBolus, attempt);
          ghost var ending := Ending(units, quiet, startDate, device, setBolus(attempt), attempt);
          AppendAssoc(before, [SetNormalBolus(units, attempt)], ending);
          AppendAssoc(old(log), Attempts(units, 1, attempt - 1), [SetNormalBolus(units, attempt)] + ending);
          AppendAssoc(Attempts(units, 1, attempt - 1), [SetNormalBolus(units, attempt)], ending);
        }
      }
    }

    /** `enactBolus(units:at:quiet:completion:)`. `storeError` is the dose
        store's answer to the reservoir value read before the bolus. */
    method EnactBolus(units: real, startDate: Time, quiet: bool, now: Time, env: Environment, radio: Radio,
                      storeError: Option<Error>)
      modifies this`log, this`bolusInProgress, this`needPumpDataRead
      ensures log == old(log) + BolusTrace(units, startDate, quiet, now, hasPumpOps, old(bolusInProgress),
                                           old(needPumpDataRead), env, radio, storeError)
      ensures bolusInProgress == (units > 0.0 && hasPumpOps && old(bolusInProgress))
      ensures needPumpDataRead == (old(needPumpDataRead)
                                   || BolusTriggersRead(units, now, hasPumpOps, old(bolusInProgress),
                                                        old(needPumpDataRead), env, radio, storeError))
    {
      ghost var guard := BolusGuard(units, hasPumpOps, bolusInProgress, env);
      if units <= 0.0 {
        assert guard == Some(None);
        Notify(None, quiet, units, startDate);
        return;
      }
      if !hasPumpOps {
        assert guard == Some(Some(ConfigurationError("Pump ID")));
        Notify(Some(ConfigurationError("Pump ID")), quiet, units, startDate);
        return;
      }
      if bolusInProgress {
        assert guard == Some(Some(InvalidData("Bolus already in progress")));
        Notify(Some(InvalidData("Bolus already in progress")), quiet, units, startDate);
        bolusInProgress := true;
        return;
      }
      bolusInProgress := true;
      var shouldReadReservoir := ReservoirReadDue(env, now);
      if env.firstConnectedDevice.None? {
        assert guard == Some(Some(ConnectionError));
        Notify(Some(ConnectionError), quiet, units, startDate);
        return;
      }
      assert guard.None?;
      RunBolusSession(units, startDate, quiet, shouldReadReservoir, now, env.firstConnectedDevice.value, radio,
                      storeError);
    }

    /** `shouldReadReservoir` in `enactBolus`: reservoir data older than 10
        minutes (or a read requested), then the three reasons the dose
        store gives, in order. */
    method ReservoirReadDue(env: Environment, now: Time) returns (shouldReadReservoir: bool)
      ensures shouldReadReservoir == ShouldReadReservoir(env, needPumpDataRead, now)
    {
      shouldReadReservoir := ReservoirDataOlderThan(env, needPumpDataRead, now, -10.0 * Minute);
      if env.lastReservoirVolumeDrop < 0.0 {
        shouldReadReservoir := true;
      } else if env.lastReservoirValue.Some? && env.lastReservoirValue.value.startDate - now <= -env.recencyInterval {
        shouldReadReservoir := true;
      } else if env.lastReservoirValue.None? {
        shouldReadReservoir := true;
      }
    }

    /** The `runSession(withName: "Bolus")` block of `enactBolus`: the
        reservoir read when one is due, the dose store's request record,
        then the retry loop. */
    method RunBolusSession(units: real, startDate: Time, quiet: bool, readReservoir: bool, now: Time,
                           device: DeviceId, radio: Radio, storeError: Option<Error>)
      requires hasPumpOps
      modifies this`log, this`bolusInProgress, this`needPumpDataRead
      ensures log == old(log) + BolusSession(units, startDate, quiet, readReservoir, now, device, radio, storeError)
      ensures !bolusInProgress
      ensures needPumpDataRead == (old(needPumpDataRead)
                                   || ((readReservoir ==> ReservoirPhase(radio, now, storeError).failure.None?)
                                       && RetryTriggersRead(radio.setNormalBolus, 1)))
    {
      var pre := if readReservoir then ReservoirPhase(radio, now, storeError) else Phase([], None);
      if readReservoir {
        var ok := ReadReservoirForBolus(units, startDate, quiet, now, radio, storeError);
        if !ok {
          return;
        }
      }
      assert log == old(log) + pre.trace;
      log := log + [AddRequestedBolus(units)];
      ghost var requested := log;
      RetryBolus(units, startDate, quiet, device, radio.setNormalBolus);
      ghost var retries := RetryTrace(units, quiet, startDate, device, radio.setNormalBolus);
      assert log == requested + retries;
      AppendAssoc(old(log), pre.trace, [AddRequestedBolus(units)]);
      AppendAssoc(old(log), pre.trace + [AddRequestedBolus(units)], retries);
    }

    // -------------------------------------------------------------------------
    // Polling
    // -------------------------------------------------------------------------

    /** `triggerPumpDataRead()`: request a read and poll. */
    method TriggerPumpDataRead(env: Environment, radio: Radio, now: Time)
      modifies this`log, this`pumpDataReadInProgress, this`needPumpDataRead, this`lastError
      ensures var r := Poll(0, old(PollView()).(needPumpDataRead := true), hasPumpOps, env, radio, now);
              PollView() == r.0 && log == old(log) + r.1
    {
      needPumpDataRead := true;
      AssertCurrentPumpData(0, env, radio, now);
    }

    /** `assertCurrentPumpData(attempt:)`. */
    method AssertCurrentPumpData(attempt: nat, env: Environment, radio: Radio, now: Time)
      requires attempt <= 3
      modifies this`log, this`pumpDataReadInProgress, this`needPumpDataRead, this`lastError
      ensures var r := Poll(attempt, old(PollView()), hasPumpOps, env, radio, now);
              PollView() == r.0 && log == old(log) + r.1
      decreases 3 - attempt, 1
    {
      log := log + [AssertIdleListening];
      var proceed := CheckPollGuards(attempt, env, now);
      if proceed {
        pumpDataReadInProgress := true;
        ghost var session := PollSession(attempt, PollView(), hasPumpOps, env, radio, now);
        ReadPumpStatus(attempt, env, radio, now);
        AppendAssoc(old(log), [AssertIdleListening], session.1);
      }
    }

    /** The guards at the head of `assertCurrentPumpData(attempt:)`;
        `proceed` is whether the pump is read. */
    method CheckPollGuards(attempt: nat, env: Environment, now: Time) returns (proceed: bool)
      modifies this`pumpDataReadInProgress, this`needPumpDataRead, this`lastError
      ensures var skip := PollSkip(attempt, old(PollView()), hasPumpOps, env, now);
              proceed == skip.None?
              && PollView() == (if skip.Some? then skip.value else old(PollView()))
    {
      if !PumpDataStale(env, needPumpDataRead, now) {
        if attempt > 0 {
          pumpDataReadInProgress := false;
        }
        return false;
      }
      if env.firstConnectedDevice.None? {
        lastError := Some(LastError(now, ConnectionError));
        if attempt > 0 {
          pumpDataReadInProgress := false;
        }
        return false;
      }
      if !hasPumpOps {
        lastError := Some(LastError(now, ConfigurationError("Pump ID")));
        if attempt > 0 {
          pumpDataReadInProgress := false;
        }
        return false;
      }
      if pumpDataReadInProgress && attempt == 0 {
        needPumpDataRead := false;
        return false;
      }
      return true;
    }

    /** The "Get Pump Status" session of `assertCurrentPumpData`. */
    method ReadPumpStatus(attempt: nat, env: Environment, radio: Radio, now: Time)
      requires attempt <= 3 && env.firstConnectedDevice.Some?
      modifies this`log, this`pumpDataReadInProgress, this`needPumpDataRead, this`lastError
      ensures var r := PollSession(attempt, old(PollView()), hasPumpOps, env, radio, now);
              PollView() == r.0 && log == old(log) + r.1
      decreases 3 - attempt, 0
    {
      var device := env.firstConnectedDevice.value;
      var reply := radio.getCurrentPumpStatus(attempt);
      log := log + [GetPumpStatus(attempt)];
      if reply.Ok? && reply.value.clockDate.None? {
        return;
      }
      ghost var reset := reply.Ok? && NeedsClockReset(reply.value.clockDate.value, now);
      var failure: Option<Error> := None;
      if reply.Err? {
        failure := Some(reply.error);
      } else if Abs(reply.value.clockDate.value - now) > 20.0 {
        log := log + [SetPumpTime];
        failure := radio.setTimeAfterStatus(attempt);
      }
      ghost var t := [GetPumpStatus(attempt)] + (if reset then [SetPumpTime] else []);
      ghost var r := PollSession(attempt, old(PollView()), hasPumpOps, env, radio, now);
      assert log == old(log) + t;
      if failure.Some? && attempt < 3 {
        ghost var next := Poll(attempt + 1, old(PollView()), hasPumpOps, env, radio, now);
        assert r == (next.0, t + next.1);
        AssertCurrentPumpData(attempt + 1, env, radio, now);
        AppendAssoc(old(log), t, next.1);
      } else {
        ghost var mid := log;
        FinishPumpStatus(device, env, reply, failure, now);
        ghost var tail := log[|mid|..];
        assert log == mid + tail;
        assert r.1 == t + tail;
        AppendAssoc(old(log), t, tail);
      }
    }

    /** The end of a status session: a failure on the last attempt is
        recorded, troubleshot and reported; a good status is observed and
        recorded; either way the read is over and the device status is
        uploaded. */
    method FinishPumpStatus(device: DeviceId, env: Environment, reply: Result<PumpStatus, Error>,
                            failure: Option<Error>, now: Time)
      requires failure.None? ==> reply.Ok? && reply.value.clockDate.Some?
      modifies this`log, this`pumpDataReadInProgress, this`needPumpDataRead, this`lastError
      ensures failure.Some? ==>
                PollView() == PollState(false, false, Some(LastError(now, failure.value)))
                && log == old(log) + [Troubleshoot(device), UploadLoopStatus(failure.value), UploadDeviceStatus(device)]
      ensures failure.None? ==>
                PollView() == old(PollView()).(pumpDataReadInProgress := false, needPumpDataRead := false,
                                               lastError := if env.statusReservoirStored.Err?
                                                            then Some(LastError(now, env.statusReservoirStored.error))
                                                            else old(lastError))
                && log == old(log) + PollSuccessTrace(env, reply.value, device)
    {
      if failure.Some? {
        lastError := Some(LastError(now, failure.value));
        log := log + [Troubleshoot(device), UploadLoopStatus(failure.value)];
      } else {
        var status := reply.value;
        ObserveBatteryDuring(env.batteryCharge, status.batteryCharge);
        ghost var observed := log;
        UpdateReservoirVolume(status.reservoir, status.clockDate.value, None, now,
                              env.preferredInsulinDataSource, env.statusReservoirStored);
        AppendAssoc(old(log), BatteryTrace(env.batteryCharge, status.batteryCharge), log[|observed|..]);
        needPumpDataRead := false;
      }
      pumpDataReadInProgress := false;
      needPumpDataRead := false;
      log := log + [UploadDeviceStatus(device)];
    }

    /** `observeBatteryDuring`, given the charge before and after the block. */
    method ObserveBatteryDuring(oldCharge: Option<real>, newCharge: Option<real>)
      modifies this`log
      ensures log == old(log) + BatteryTrace(oldCharge, newCharge)
    {
      if newCharge.Some? {
        var newVal := newCharge.value;
        if newVal == 0.0 {
          log := log + [PumpBatteryLowNotification];
        }
        if oldCharge.Some? && newVal - oldCharge.value >= 0.5 {
          log := log + [PumpBatteryReplaced(oldCharge.value, newVal)];
        }
      }
    }

    // -------------------------------------------------------------------------
    // Reservoir updates
    // -------------------------------------------------------------------------

    /** `updateReservoirVolume(_:at:withTimeLeft:)`; `stored` is the dose
        store's answer. */
    method UpdateReservoirVolume(units: real, date: Time, timeLeft: Option<real>, now: Time,
                                 source: InsulinDataSource, stored: Result<StoredReservoir, Error>)
      modifies this`log, this`lastError
      ensures log == old(log) + ReservoirUpdateTrace(units, date, timeLeft, source, stored)
      ensures lastError == if stored.Err? then Some(LastError(now, stored.error)) else old(lastError)
    {
      log := log + [AddReservoirValue(units, date)];
      ghost var added := log;
      ghost var body: seq<Effect> := [];
      match stored {
        case Err(e) =>
          lastError := Some(LastError(now, e));
        case Ok(r) =>
          body := [LoopTrigger(source, r.continuous)]
                  + ReservoirAlerts(r.newValue.unitVolume,
                                    if r.lastValue.Some? then Some(r.lastValue.value.unitVolume) else None, timeLeft);
          var empty := ReservoirStored(r, source, timeLeft);
          if empty {
            AppendAssoc(old(log), [AddReservoirValue(units, date)], body);
            return;
          }
      }
      log := log + [UpdateTimerTick];
      AppendAssoc(added, body, [UpdateTimerTick]);
      AppendAssoc(old(log), [AddReservoirValue(units, date)], body + [UpdateTimerTick]);
    }

    /** The `.success` case of `updateReservoirVolume`: the loop is run,
        after a history fetch unless the values are continuous reservoir
        data, then the alerts; `empty` is whether the update ended at an
        empty reservoir. */
    method ReservoirStored(r: StoredReservoir, source: InsulinDataSource, timeLeft: Option<real>) returns (empty: bool)
      modifies this`log
      ensures empty == (r.lastValue.Some? && r.newValue.unitVolume <= 0.0)
      ensures log == old(log) + ([LoopTrigger(source, r.continuous)]
                                 + ReservoirAlerts(r.newValue.unitVolume,
                                                   if r.lastValue.Some? then Some(r.lastValue.value.unitVolume) else None,
                                                   timeLeft))
    {
      if source == PumpHistory || !r.continuous {
        log := log + [FetchHistoryThenLoop(r.continuous)];
      } else {
        log := log + [RunLoop];
      }
      ghost var triggered := log;
      empty := false;
      if r.lastValue.Some? {
        empty := AlertReservoir(r.newValue.unitVolume, r.lastValue.value.unitVolume, timeLeft);
      }
      AppendAssoc(old(log), [LoopTrigger(source, r.continuous)], log[|triggered|..]);
    }

    /** The `if let previousVolume` block: an empty reservoir is notified
        and ends the update (`empty`); otherwise the low-reservoir warnings
        and, when the volume rose by over a unit, an insulin change. */
    method AlertReservoir(volume: real, previousVolume: real, timeLeft: Option<real>) returns (empty: bool)
      modifies this`log
      ensures empty == !(volume > 0.0)
      ensures log == old(log) + ReservoirAlerts(volume, Some(previousVolume), timeLeft)
    {
      if !(volume > 0.0) {
        log := log + [ReservoirEmptyNotification];
        return true;
      }
      WarnLowReservoir(volume, previousVolume, timeLeft);
      if volume > previousVolume + 1.0 {
        log := log + [InsulinChange(previousVolume, volume)];
      }
      return false;
    }

    /** The `for threshold in warningThresholds` loop. */
    method WarnLowReservoir(volume: real, previousVolume: real, timeLeft: Option<real>)
      modifies this`log
      ensures log == old(log) + LowNotifications(volume, previousVolume, WarningThresholds, timeLeft)
    {
      var warningThresholds := WarningThresholds;
      for i := 0 to |warningThresholds|
        invariant log == old(log) + LowNotifications(volume, previousVolume, warningThresholds[..i], timeLeft)
      {
        var threshold := warningThresholds[i];
        LowNotificationsStep(volume, previousVolume, warningThresholds, i, timeLeft);
        if volume <= threshold && previousVolume > threshold {
          log := log + [ReservoirLowNotification(volume, timeLeft)];
        }
      }
      assert warningThresholds[..|warningThresholds|] == WarningThresholds;
    }

    // -------------------------------------------------------------------------
    // History
    // -------------------------------------------------------------------------

    /** `fetchPumpHistory`: `events` is the pump's reply, `storeError` the
        dose store's answer, `recentGlucose` whether glucose was entered in
        the last 30 minutes. */
    method FetchPumpHistory(env: Environment, events: Result<seq<HistoryEvent>, Error>, storeError: Option<Error>,
                            recentGlucose: bool)
      modifies this`log, this`lastPumpHistorySuccess
      ensures log == old(log) + HistoryTrace(hasPumpOps, env, old(lastPumpHistorySuccess), events, storeError,
                                             recentGlucose)
      ensures lastPumpHistorySuccess == if env.firstConnectedDevice.Some? && hasPumpOps && events.Ok?
                                        then LatestOf(old(lastPumpHistorySuccess), events.value)
                                        else old(lastPumpHistorySuccess)
    {
      if env.firstConnectedDevice.None? {
        log := log + [HistoryCompletion(Some(ConnectionError))];
        return;
      }
      var device := env.firstConnectedDevice.value;
      if !hasPumpOps {
        log := log + [HistoryCompletion(Some(ConfigurationError("Pump ID")))];
        return;
      }
      var startDate := Min(env.pumpEventQueryAfterDate, lastPumpHistorySuccess);
      log := log + [GetHistoryEvents(startDate)];
      match events
      case Err(e) =>
        log := log + [Troubleshoot(device), HistoryCompletion(Some(e))];
        AppendAssoc(old(log), [GetHistoryEvents(startDate)], [Troubleshoot(device), HistoryCompletion(Some(e))]);
      case Ok(evs) =>
        log := log + [AddPumpEvents(|evs|), HistoryCompletion(storeError)];
        RecordHistoryEvents(evs, recentGlucose);
        ghost var stored := [AddPumpEvents(|evs|), HistoryCompletion(storeError)];
        AppendAssoc(old(log) + [GetHistoryEvents(startDate)], stored, PumpGlucose(evs, recentGlucose));
        AppendAssoc(old(log), [GetHistoryEvents(startDate)], stored + PumpGlucose(evs, recentGlucose));
    }

    /** The bookkeeping after the events are stored: the success date moves
        to the latest event date, and each meter reading is added to the
        glucose store unless glucose was entered recently. */
    method RecordHistoryEvents(evs: seq<HistoryEvent>, recentGlucose: bool)
      modifies this`log, this`lastPumpHistorySuccess
      ensures lastPumpHistorySuccess == LatestOf(old(lastPumpHistorySuccess), evs)
      ensures log == old(log) + PumpGlucose(evs, recentGlucose)
    {
      for i := 0 to |evs|
        invariant lastPumpHistorySuccess == LatestOf(old(lastPumpHistorySuccess), evs[..i])
        invariant log == old(log) + PumpGlucose(evs[..i], recentGlucose)
      {
        HistoryStep(old(lastPumpHistorySuccess), evs, i, recentGlucose);
        lastPumpHistorySuccess := Max(lastPumpHistorySuccess, evs[i].date);
        if evs[i].bgAmount.Some? && !recentGlucose {
          log := log + [AddPumpGlucose(evs[i].bgAmount.value, evs[i].date)];
        }
      }
      assert evs[..|evs|] == evs;
    }

    // -------------------------------------------------------------------------
    // Device health
    // -------------------------------------------------------------------------

    /** `troubleshootPumpComms(using:)`; `tune` is the radio's scan result. */
    method TroubleshootPumpComms(device: DeviceId, now: Time, env: Environment, tune: Result<real, Error>)
      modifies this`log, this`deviceStates, this`lastError
      ensures var state := DeviceStateFor(old(deviceStates), device);
              var action := TroubleshootDecision(hasPumpOps, state.lastTuned, env, now);
              log == old(log) + [UpdateTimerTick] + TroubleshootTrace(action, device, state, tune)
              && deviceStates == (if action == TuneDevice && tune.Ok?
                                  then old(deviceStates)[device := DeviceState(Some(now), Some(tune.value))]
                                  else old(deviceStates))
              && lastError == (if action == TuneDevice && tune.Err? then Some(LastError(now, tune.error))
                               else old(lastError))
    {
      log := log + [UpdateTimerTick];
      if !hasPumpOps {
        return;
      }
      var tuneTolerance := 14.0 * Minute;
      var deviceState := if device in deviceStates then deviceStates[device] else DeviceState(None, None);
      var lastTuned := deviceState.lastTuned.GetOr(DistantPast);
      if lastTuned - now <= -tuneTolerance {
        if env.lastReservoirValue.Some? && env.lastReservoirValue.value.startDate - now > -24.0 * Minute {
          return;
        }
        log := log + [TuneRadio(device, deviceState.lastValidFrequency)];
        match tune
        case Ok(bestFrequency) =>
          deviceStates := deviceStates[device := DeviceState(Some(now), Some(bestFrequency))];
        case Err(e) =>
          log := log + [Deprioritize(device)];
          lastError := Some(LastError(now, e));
      } else {
        log := log + [Deprioritize(device)];
      }
    }

    // -------------------------------------------------------------------------
    // Temp basal
    // -------------------------------------------------------------------------

    /** `internalSetTempBasal(_:_:attempt:completion:)`. */
    method InternalSetTempBasal(rate: real, duration: real, attempt: nat, env: Environment, radio: Radio, now: Time)
      requires attempt <= 3
      modifies this`log
      ensures log == old(log) + TempBasalTrace(rate, duration, attempt, hasPumpOps, env, radio, now)
      decreases 3 - attempt
    {
      if !hasPumpOps {
        log := log + [TempBasalCompletion(Err(ConfigurationError("Pump ID")))];
        return;
      }
      if env.firstConnectedDevice.None? {
        log := log + [TempBasalCompletion(Err(ConnectionError))];
        return;
      }
      log := log + [SetTempBasal(rate, duration, attempt)];
      ghost var sent := log;
      match radio.setTempBasal(attempt) {
        case Ok(response) =>
          var endDate := now + response.timeRemaining;
          var startDate := endDate - duration;
          log := log + [TempBasalCompletion(Ok(TempBasalDose(startDate, endDate, response.rate)))];
        case Err(e) =>
          var str := Text(e);
          if attempt < 3 && !Contains(str, "Bolus in progress") {
            InternalSetTempBasal(rate, duration, attempt + 1, env, radio, now);
            AppendAssoc(old(log), [SetTempBasal(rate, duration, attempt)],
                        TempBasalTrace(rate, duration, attempt + 1, hasPumpOps, env, radio, now));
            return;
          }
          log := log + [TempBasalCompletion(Err(e))];
      }
      ghost var completion := log[|sent|..];
      assert log == sent + completion;
      PiggyBackHistory(env, radio, now);
      ghost var piggyBack := PiggyBackTrace(env, radio, now);
      AppendAssoc(sent, completion, piggyBack);
      AppendAssoc(old(log), [SetTempBasal(rate, duration, attempt)], completion + piggyBack);
    }

    /** The history fetch that follows a temp basal. */
    method PiggyBackHistory(env: Environment, radio: Radio, now: Time)
      modifies this`log
      ensures log == old(log) + PiggyBackTrace(env, radio, now)
    {
      if env.lastAddedPumpEvents - now < -4.0 * Minute {
        log := log + [GetPumpTime];
        match radio.getTime
        case Err(_) =>
          return;
        case Ok(clock) =>
          if clock.Some? && Abs(clock.value - now) > 20.0 {
            log := log + [SetPumpTime];
            if radio.setTimeAfterBasal.Some? {
              return;
            }
          }
          log := log + [FetchPumpHistoryRequested];
      }
    }

    // -------------------------------------------------------------------------
    // Basal schedule, pump settings, Bluetooth
    // -------------------------------------------------------------------------

    /** `setBasalRate(_:)`. */
    method SetBasalRate(env: Environment, radio: Radio)
      modifies this`log
      ensures log == old(log) + BasalRateTrace(hasPumpOps, env, radio)
    {
      if env.basalRateSchedule.None? {
        log := log + [BasalRateCompletion(Some(ConfigurationError("No basal rate schedule")))];
        return;
      }
      var entries := BuildBasalEntries(env.basalRateSchedule.value);
      EntriesForUnique(env.basalRateSchedule.value, entries, BasalEntries(env.basalRateSchedule.value));
      if !hasPumpOps {
        log := log + [BasalRateCompletion(Some(ConfigurationError("No pump ops")))];
        return;
      }
      if env.firstConnectedDevice.None? {
        log := log + [BasalRateCompletion(Some(ConnectionError))];
        return;
      }
      log := log + [SetBasalSchedule(entries), BasalRateCompletion(radio.setBasalSchedule)];
    }

    /** The `for item in schedule.items` loop of `setBasalRate`. */
    static method BuildBasalEntries(items: seq<ScheduleItem>) returns (entries: seq<BasalScheduleEntry>)
      ensures EntriesFor(items, entries)
    {
      entries := [];
      var i := 0;
      while i < |items|
        invariant 0 <= i <= |items|
        invariant |entries| == i
        invariant forall k :: 0 <= k < i ==> entries[k] == BasalScheduleEntry(k, items[k].startTime, items[k].value)
      {
        var item := items[i];
        var e := BasalScheduleEntry(i, item.startTime, item.value);
        entries := entries + [e];
        i := i + 1;
      }
    }

    /** The `pumpSettings` setter: new settings update the pump operations
        or create them; nil drops them, clears the pump state and resets the
        dose store's pump data. */
    method SetPumpSettings(newValue: Option<PumpSettings>)
      modifies this`log, this`hasPumpOps, this`pumpSettings
      ensures Valid() && pumpSettings == newValue
      ensures log == old(log) + (if newValue.None? then [ClearPumpState, ResetPumpData]
                                 else if old(hasPumpOps) then [UpdatePumpOpsSettings(newValue.value)]
                                 else [CreatePumpOps(newValue.value)])
    {
      if newValue.Some? {
        if hasPumpOps {
          log := log + [UpdatePumpOpsSettings(newValue.value)];
        } else {
          hasPumpOps := true;
          log := log + [CreatePumpOps(newValue.value)];
        }
      } else {
        hasPumpOps := false;
        log := log + [ClearPumpState, ResetPumpData];
      }
      pumpSettings := newValue;
    }

    /** `setPumpID(_:)`: an id of six `Character`s replaces the id of the
        current settings, keeping their region, or starts new settings; any
        other id changes nothing. `characters` is the id's `count`. */
    method SetPumpID(pumpID: Option<string>, characters: nat)
      requires Valid()
      requires pumpID.Some? ==> CharacterCount(pumpID.value, characters)
      modifies this`log, this`hasPumpOps, this`pumpSettings
      ensures var id := AcceptedPumpID(pumpID, characters);
              pumpSettings == (if id.None? then old(pumpSettings)
                               else if old(pumpSettings).Some? then Some(old(pumpSettings).value.(pumpID := id.value))
                               else Some(PumpSettings(id.value, DefaultRegion)))
      ensures AcceptedPumpID(pumpID, characters).Some? ==> Valid() && hasPumpOps
      ensures AcceptedPumpID(pumpID, characters).Some? ==>
                log == old(log) + [if old(pumpSettings).Some? then UpdatePumpOpsSettings(pumpSettings.value)
                                   else CreatePumpOps(pumpSettings.value)]
      ensures AcceptedPumpID(pumpID, characters).None? ==> hasPumpOps == old(hasPumpOps) && log == old(log)
    {
      var newValue := pumpID;
      if newValue.Some? && characters != 6 {
        newValue := None;
      }
      if newValue.Some? {
        if pumpSettings.Some? {
          SetPumpSettings(Some(pumpSettings.value.(pumpID := newValue.value)));
        } else {
          SetPumpSettings(Some(PumpSettings(newValue.value, DefaultRegion)));
        }
      }
    }

    /** `maybeToggleBluetooth(_:force:)`: with no pump data or no glucose for
        30 minutes, and no restart in the last 30 minutes, restart the pump
        connection or the CGM and remember when. */
    method MaybeToggleBluetooth(now: Time, env: Environment)
      modifies this`log, this`btMagicDate
      ensures var reason := RestartReasonFor(env, now);
              var restart := reason.Some? && RestartAllowed(old(btMagicDate), now);
              btMagicDate == (if restart then now else old(btMagicDate))
              && log == old(log) + (if !restart then [] else if reason == Some(PumpReason) then [ReconnectPump]
                                    else [SetupCGM])
    {
      var restartReason: Option<RestartReason> := None;
      if env.lastReservoirValue.Some? && env.lastReservoirValue.value.startDate - now <= -30.0 * Minute {
        restartReason := Some(PumpReason);
      } else if env.latestGlucoseDate.Some? && env.latestGlucoseDate.value - now <= -30.0 * Minute {
        restartReason := Some(CgmReason);
      }
      if restartReason.None? {
        return;
      }
      if btMagicDate - now > -30.0 * Minute {
        return;
      }
      btMagicDate := now;
      if restartReason.value == PumpReason {
        log := log + [ReconnectPump];
      } else {
        log := log + [SetupCGM];
      }
    }
  }
}
