# Loop: dosing, polling and autosense, modelled in Dafny

This project models the decision logic of the Loop closed-loop insulin app:

- **The pump engine** (`DeviceDataManager`). It enacts a bolus, guarding it and making up to five attempts. It polls the pump when its data is stale, retrying up to attempt 3. It reacts to reservoir readings: low and empty alerts, insulin changes, and the loop-or-history decision. It troubleshoots a RileyLink by tuning or deprioritizing it. It sets a temp basal, with retries and a history fetch afterwards. It keeps the pump clock and the history dates. It also covers the small helpers: the pump ID filter, the basal schedule entries, the Bluetooth restart and the battery observation.
- **The autosense estimator.**
- **The autotune rate limit.**
- **The persisted `LoopSettings` record.**
- **Smaller pure pieces**: bolus recommendation equality and ordering, the Nightscout treatment of a pump event, the `UserDefaults` accessors, the git version description, and the first-character case mappings.

## How it is modelled

- **Dates** are seconds since 1970, as a `real`. A Swift `Double` is a `real`. The clock comes in as a `now` parameter.
- **The radio** is the `PumpSpec.Radio` value. The pump's replies to each command come in as a parameter: one reply per attempt for commands that are retried. A store's answer is also a parameter (`storeError`, `stored`, and `statusReservoirStored` in the environment for the reservoir of a good status read).
- **Collaborator calls** are recorded in order in the manager's `log`. This covers calls into the stores, notifications, uploader, RileyLink manager and radio session.
- **The manager** is the class `DeviceData.DeviceDataManager`. Every one of its methods states:
  - the log it appends, as a trace function of module `PumpSpec`;
  - the new value of every field it may modify.
- **The traces** are pure functions. The engine's properties are proved about them as lemmas: at most five bolus commands, at most four status reads, troubleshooting exactly when the retries run out, and so on.
- **`LoopSettings`** is a Swift struct, so it is a datatype here.
  - Its decoder and encoder are step-by-step methods (`InitFromRawValue`, `GetRawValue`). Each is proved equal to a specification function (`FromRawValue`, `RawValue`).
  - The round trip is proved about those functions.
  - LoopKit's nested types are opaque values. Their raw form carries what their own `init?(rawValue:)` yields.
- **`AutoAdjust`** is a class whose settings are updated in place. Its sample loop is a method (`Accumulate`) proved against recursive sums.

Where the code and its description differ, the model follows the code:

- Autosense keeps any override that autosense did not set, whether or not that override is active. The guard at `Loop/Managers/Autosense.swift:260-262` tests that the override is present, not that it is active.
- A certain "bolus in progress" error confirms the bolus (`notify(nil)`). Control then still reaches the failed-bolus branch, which reports the error: the completion runs twice. `PumpSpec.Ending` and `PumpSpec.ConfirmedThenFailed` state this.

## Model

| member | source | states |
|---|---|---|
| StringCase.MapFirst | Loop/Extensions/String.swift:11-12 | empty stays empty; otherwise the mapping of the first `Character` (its first `n` code points) followed by the rest of the string unchanged |
| StringCase.FirstUppercased | Loop/Extensions/String.swift:11 | equals `MapFirst` with the uppercase mapping of the first `Character`, so `MapFirst`'s contract applies |
| StringCase.FirstCapitalized | Loop/Extensions/String.swift:12 | equals `MapFirst` with the capitalization mapping of the first `Character`, so `MapFirst`'s contract applies |
| StringCase.FixedFirstCharacter | Loop/Extensions/String.swift:11-12 | a first `Character` the mapping keeps leaves the string as it was |
| StringCase.MapFirstIdempotent | Loop/Extensions/String.swift:11-12 | when the mapped `Character` is the first one of the result and the mapping keeps it, mapping again changes nothing |
| GitVersion.Load | Loop/GitVersionInformation.swift:15-25 | a missing or ill-typed property list gives the empty dictionary, otherwise the dictionary read |
| GitVersion.Description | Loop/GitVersionInformation.swift:27-36 | any of the four keys missing gives the placeholder; otherwise describe, a space, commit, a space, build date, character by character |
| GitVersion.BranchOnlyRequired | Loop/GitVersionInformation.swift:28-35 | the branch's value never affects the description, only its presence does |
| GitVersion.MissingPlistGivesPlaceholder | Loop/GitVersionInformation.swift:20-33 | without a property list the description is the placeholder |
| GitVersion.CompleteNeverPlaceholder | Loop/GitVersionInformation.swift:28-35 | with all keys present (and a describe string without '<'), the description differs from the placeholder |
| Autotune.Run | Loop/Managers/Autotune.swift:11-21 | settings unchanged on every path; rate-limited exactly when the last run is under 24 h away; otherwise the window is the 7 days ending now |
| Autotune.RunNeverRateLimitsItself | Loop/Managers/Autotune.swift:12-20 | `lastAutotune` is never written, so after any run a later run goes ahead exactly when it would have without it, and `lastAutotune` is unchanged |
| Autotune.DefaultsAlwaysRun | Loop/Managers/Autotune.swift:11-21 | from the default settings, any number of runs leaves `lastAutotune` at the distant past and the next run goes ahead |
| Autotune.RepeatKeepsSettings | Loop/Managers/Autotune.swift:11-21 | any number of runs leaves the settings as they were |
| LoopDefaults.DoubleFor | Loop/Extensions/UserDefaults+Loop.swift:42 | the stored number; a Boolean as 1 or 0; a string as the number its text holds, else 0; 0 when the key is absent or holds a dictionary or another object |
| LoopDefaults.DictionaryFor | Loop/Extensions/UserDefaults+Loop.swift:18-20 | a dictionary exactly when the key holds one, and that dictionary |
| LoopDefaults.SetObject | Loop/Extensions/UserDefaults+Loop.swift:22-23 | nil removes the key, a value is stored under it, every other key is unchanged |
| LoopDefaults.SensorSessionStartDate | Loop/Extensions/UserDefaults+Loop.swift:41-48 | a date exactly when the stored interval is positive, lying that interval after 2001-01-01 |
| LoopDefaults.WithSensorSessionStartDate | Loop/Extensions/UserDefaults+Loop.swift:49-55 | nil removes the key; a date stores its interval since 2001-01-01 |
| LoopDefaults.StartDateRoundTrip | Loop/Extensions/UserDefaults+Loop.swift:40-55 | a date after 2001-01-01 reads back as written; nil, or a date at or before it, reads back as nil |
| LoopDefaults.StartDateTouchesOnlyItsKey | Loop/Extensions/UserDefaults+Loop.swift:49-55 | writing the start date leaves every other key as it was |
| LoopDefaults.PumpManagerRoundTrip | Loop/Extensions/UserDefaults+Loop.swift:18-25 | the pump manager state reads back as set and the start date is untouched |
| LoopDefaults.Defaults.constructor | Loop/Extensions/UserDefaults+Loop.swift:12-16 | the defaults object holds the given store |
| LoopDefaults.Defaults.SetPumpManagerRawValue | Loop/Extensions/UserDefaults+Loop.swift:22-24 | the store is updated as `set(_:forKey:)` does, and the getter then returns the value set |
| LoopDefaults.Defaults.SetSensorSessionStartDate | Loop/Extensions/UserDefaults+Loop.swift:49-55 | the store becomes the setter's result on the old store |
| BolusRecommendation.Case | Loop/Models/ManualBolusRecommendation.swift:14-19 | each notice has exactly one of the four cases, numbered in declaration order |
| BolusRecommendation.NoticeEqualCharacterized | Loop/Models/ManualBolusRecommendation.swift:53-72 | notices are equal iff same case, not carbOnly, and for predictedGlucoseBelowTarget equal glucose values; other payloads are ignored |
| BolusRecommendation.CarbOnlyNeverEqual | Loop/Models/ManualBolusRecommendation.swift:68-69 | a carbOnly notice equals nothing, itself included |
| BolusRecommendation.NoticeEqualIsPartialEquivalence | Loop/Models/ManualBolusRecommendation.swift:53-72 | notice equality is symmetric and transitive, and reflexive exactly on non-carbOnly notices |
| BolusRecommendation.NewRecommendation | Loop/Models/ManualBolusRecommendation.swift:81-86 | every field is the argument given |
| BolusRecommendation.NewRecommendationDefaults | Loop/Models/ManualBolusRecommendation.swift:81 | without the optional arguments: no carbs and no notice |
| BolusRecommendation.EqualIgnoresPendingAndNotice | Loop/Models/ManualBolusRecommendation.swift:91-93 | equality ignores pending insulin and notice, and is an equivalence |
| BolusRecommendation.LessIrreflexive | Loop/Models/ManualBolusRecommendation.swift:95-97 | `<` never holds between equal recommendations |
| BolusRecommendation.LessBothWays | Loop/Models/ManualBolusRecommendation.swift:95-97 | two unequal recommendations each below the other: the written `<` is not asymmetric |
| BolusRecommendation.LexLessIsStrictTotalOrder | Loop/Models/ManualBolusRecommendation.swift:89-97 | the amount-then-carbs order is irreflexive, asymmetric, transitive and total up to `==` |
| BolusRecommendation.LexLessRefinesLess | Loop/Models/ManualBolusRecommendation.swift:95-97 | the corrected order implies the written one; they differ only on pairs the written one orders both ways |
| PumpEventTreatment.RawTreatment | Loop/Extensions/PersistedPumpEvent.swift:16-82 | a treatment iff the record type is handled and decodes; timestamp the decoded one or the event date; event type per the table; a BG check carries the decoded meter glucose; notes "Automatically added; Amount … Units, Programmed Amount … Units, Type …" for a prime, "Automatically added" for a rewind or battery, "Pump Alarm " + the alarm type for an alarm |
| PumpEventTreatment.DoseTreatment | Loop/Extensions/PersistedPumpEvent.swift:85-121 | a treatment exactly when type and dose exist, the dose's pump event type matches and it is not basal; it starts at the dose start |
| PumpEventTreatment.ToTreatment | Loop/Extensions/PersistedPumpEvent.swift:14-123 | any treatment is entered by the given source |
| PumpEventTreatment.RawRecordWins | Loop/Extensions/PersistedPumpEvent.swift:16-77 | a decodable record of a handled type decides the treatment, following the table |
| PumpEventTreatment.FallsThroughToDose | Loop/Extensions/PersistedPumpEvent.swift:78-85 | no record, an unknown type or a failed decode gives the dose path's answer |
| PumpEventTreatment.BolusDose | Loop/Extensions/PersistedPumpEvent.swift:92-106 | a matching bolus dose gives a bolus with delivered (else programmed) units, the dose length and its sync id |
| PumpEventTreatment.TempBasalDose | Loop/Extensions/PersistedPumpEvent.swift:111-121 | a matching temp basal gives an absolute temp basal with rate = absolute = units per hour |
| PumpEventTreatment.ResumeSuspendDose | Loop/Extensions/PersistedPumpEvent.swift:107-110 | a matching resume dose becomes a pump resume, a suspend dose a pump suspend, both at the dose start |
| PumpEventTreatment.BasalOrMismatchIsDropped | Loop/Extensions/PersistedPumpEvent.swift:85-91 | a basal dose or a mismatched type gives nothing |
| Settings.StrategyRawValue | LoopCore/LoopSettings.swift:11-14 | raw values are 0 and 1 |
| Settings.StrategyFromRawValue | LoopCore/LoopSettings.swift:11-14 | decodes exactly 0 and 1, inverse to the raw value |
| Settings.StrategyRoundTrip | LoopCore/LoopSettings.swift:11-14 | a strategy decodes from its raw value |
| Settings.LoopSettings.PreMealOverride | LoopCore/LoopSettings.swift:203-215 | an override iff there is a pre-meal range and a unit: pre-meal context, local trigger, the given start and duration, the pre-meal range |
| Settings.LoopSettings.LegacyWorkoutOverride | LoopCore/LoopSettings.swift:221-233 | an override iff there is a workout range and a unit, with workout context and that range |
| Settings.LoopSettings.EnablePreMealOverride | LoopCore/LoopSettings.swift:199-201 | the override becomes the pre-meal override; nothing else changes |
| Settings.LoopSettings.EnableLegacyWorkoutOverride | LoopCore/LoopSettings.swift:217-219 | the override becomes the workout override; nothing else changes |
| Settings.LoopSettings.ClearOverride | LoopCore/LoopSettings.swift:235-244 | cleared iff there is none, no context is given, or its context matches; else kept; nothing else changes |
| Settings.PreMealAndOtherOverrideExclusive | LoopCore/LoopSettings.swift:179-192 | pre-meal and non-pre-meal overrides are never both enabled, and together they make up an enabled override |
| Settings.FutureOverrideIsNotActive | LoopCore/LoopSettings.swift:194-197 | a future override is one starting after the date, and it is not enabled then |
| Settings.AllowedSensitivityValues | LoopCore/LoopSettings.swift:132-141 | 50…200 mg/dL, or 0.6…27.0 mmol/L in tenths, strictly increasing; empty for another unit |
| Settings.AllowedCorrectionRangeValues | LoopCore/LoopSettings.swift:143-152 | 60…180 mg/dL, or 3.3…10.0 mmol/L in tenths, strictly increasing; empty for another unit |
| Settings.CompactPresets | LoopCore/LoopSettings.swift:285-287 | no more presets than raw items |
| Settings.CompactPresetsMembers | LoopCore/LoopSettings.swift:285-287 | the decoded presets are exactly those whose raw value decodes |
| Settings.FromRawValue | LoopCore/LoopSettings.swift:251-314 | nil unless the version is the integer 1; fields never encoded take their defaults; a missing key gives its default (dates 1970, factor 1.0, strategy temp-basal-only) |
| Settings.PresetsRaw | LoopCore/LoopSettings.swift:318-320 | one raw value per preset, in order |
| Settings.WrittenAt | LoopCore/LoopSettings.swift:316-340 | after the getter's first n assignments a key is present iff it comes earlier and its value is not nil |
| Settings.RawValueAt | LoopCore/LoopSettings.swift:316-340 | the encoding holds exactly the entries that are not nil |
| Settings.EncodingKeys | LoopCore/LoopSettings.swift:316-340 | version 1, dosingEnabled and presets always written; an optional setting's key exactly when it is set |
| Settings.CompactPresetsOfEncoding | LoopCore/LoopSettings.swift:285-287 | decoding the encoded presets gives them back |
| Settings.DecodesEncodedFields | LoopCore/LoopSettings.swift:259-297 | version, dosingEnabled, ranges and maximums read back as written |
| Settings.DecodesEncodedChoices | LoopCore/LoopSettings.swift:285-306 | presets and dosing strategy read back as written |
| Settings.DecodesEncodedHistory | LoopCore/LoopSettings.swift:308-312 | the four dates and the autosense factor read back as written |
| Settings.RoundTrip | LoopCore/LoopSettings.swift:251-340 | decoding the encoding gives the record with its never-encoded fields at their defaults |
| Settings.ReloadIsIdempotent | LoopCore/LoopSettings.swift:251-340 | a second save and reload changes nothing |
| Settings.ExplicitRangeOverridesMigration | LoopCore/LoopSettings.swift:263-283 | an explicit pre-meal key wins over the range migrated from the schedule; without it the migrated one is used |
| Settings.InitFromRawValue | LoopCore/LoopSettings.swift:251-314 | the field-by-field initialiser yields `FromRawValue` |
| Settings.HeaderWritten | LoopCore/LoopSettings.swift:317-321 | the dictionary literal holds version, dosingEnabled and presets |
| Settings.WrittenAll | LoopCore/LoopSettings.swift:316-340 | after every assignment the dictionary is `RawValue` |
| Settings.GetRawValue | LoopCore/LoopSettings.swift:316-340 | the assignment sequence yields `RawValue` |
| Autosense.HighAndLowWithinSpan | Loop/Managers/Autosense.swift:186-201 | with ascending samples, time high and time low are non-negative and together within the analysed span |
| Autosense.NoHighWithoutHighSamples | Loop/Managers/Autosense.swift:192-194 | samples never above 180 mg/dL give no time high |
| Autosense.RawFactor | Loop/Managers/Autosense.swift:214-238 | low branch first (1 - lowRatio); high branch at least 1 + highRatio/2, exactly that without the boosts; otherwise decay by 0.8 towards 1 |
| Autosense.Clamp | Loop/Managers/Autosense.swift:240 | the result lies in [0.2, 2.0] and equals the input when it already does |
| Autosense.RoundToTenth | Loop/Managers/Autosense.swift:241 | a multiple of 0.1 within 0.05 of the input |
| Autosense.RoundedFactorInBounds | Loop/Managers/Autosense.swift:240-241 | rounding a clamped factor stays in [0.2, 2.0] |
| Autosense.NewFactor | Loop/Managers/Autosense.swift:203-240 | the factor from enough data lies in [0.2, 2.0] |
| Autosense.RunWithData | Loop/Managers/Autosense.swift:258-275 | a run with enough data stores date and factor, then decides the override on the updated settings |
| Autosense.NothingChangesWithoutData | Loop/Managers/Autosense.swift:148-210 | too soon, 12 samples or fewer, or a span of at most 2 h: settings unchanged |
| Autosense.FactorAlwaysStored | Loop/Managers/Autosense.swift:240-259 | once the data checks pass, date and clamped unrounded factor are stored and only the override may change besides |
| Autosense.ForeignOverrideKept | Loop/Managers/Autosense.swift:260-262 | an override not set by autosense is never replaced or cleared |
| Autosense.OverrideOutcome | Loop/Managers/Autosense.swift:263-275 | rounded 1.0 clears; otherwise enabled and not suspended within 6 h installs a new one; otherwise unchanged |
| Autosense.InstalledOverrideShape | Loop/Managers/Autosense.swift:251-257 | an installed override has the autosense trigger, custom context, starts now, lasts 120 s and scales by a factor in [0.2, 2.0] other than 1 |
| Autosense.AutoAdjust.constructor | Loop/Managers/Autosense.swift:15-34 | the estimator starts with the given settings and no samples |
| Autosense.AutoAdjust.AutoSense | Loop/Managers/Autosense.swift:147-276 | samples replaced only by a fetch after the rate limit; settings become `AutoSenseSettings` of the old settings and the samples |
| Autosense.AutoAdjust.UpdateOverride | Loop/Managers/Autosense.swift:260-275 | only the override changes, to the override decision |
| Autosense.Accumulate | Loop/Managers/Autosense.swift:186-201 | the loop yields time low, time high, sum and count as the recursive definitions give them |
| PumpSpec.NewestReservoirDate | Loop/Managers/DeviceDataManager.swift:583-594 | the later of the stored reservoir date and an unwritten MySentry date, else the distant past |
| PumpSpec.StaleCharacterized | Loop/Managers/DeviceDataManager.swift:576-596 | stale iff a read is requested or the newest reservoir date is at least the age tolerance old: 6 minutes with idle listening, 4 without |
| PumpSpec.StalenessMonotone | Loop/Managers/DeviceDataManager.swift:576-596 | stale data stays stale as time passes; idle listening only delays staleness |
| PumpSpec.ClockThresholds | Loop/Managers/DeviceDataManager.swift:274-303 | a date `assertPumpDate` rejects is also reset by the status-read check at lines 653-660; a 30 s drift is accepted there and reset here |
| PumpSpec.NotifyTrace | Loop/Managers/DeviceDataManager.swift:713-722 | an error without quiet gives the failure notification (error, units, start date) and then the completion; otherwise only the completion |
| PumpSpec.ConfirmsIsNotRetryable | Loop/Managers/DeviceDataManager.swift:836-856 | an error confirming the bolus is never retried |
| PumpSpec.FinalAttempt | Loop/Managers/DeviceDataManager.swift:820-878 | the retry loop stops at the first attempt not retried, by the fifth at the latest |
| PumpSpec.FinalAttemptUnique | Loop/Managers/DeviceDataManager.swift:820-878 | that stopping attempt is the only one with those properties |
| PumpSpec.Attempts | Loop/Managers/DeviceDataManager.swift:822-825 | one command per attempt, numbered in order |
| PumpSpec.ConfirmedTrace | Loop/Managers/DeviceDataManager.swift:826-844 | a confirmed bolus: no command, one completion without error, no troubleshooting |
| PumpSpec.FailedTrace | Loop/Managers/DeviceDataManager.swift:862-874 | one completion with the error, no command; troubleshooting iff the error is retried |
| PumpSpec.Ending | Loop/Managers/DeviceDataManager.swift:826-876 | ends with the completion for the reply; two completions for a confirmed in-progress error; troubleshooting iff the reply is a retried error |
| PumpSpec.ConfirmedThenFailed | Loop/Managers/DeviceDataManager.swift:839-874 | confirmed then failed: two completions, no command, the last reporting the error |
| PumpSpec.EndingOfError | Loop/Managers/DeviceDataManager.swift:836-874 | an error ending is the confirmed part, when the bolus was delivered, then the failed part |
| PumpSpec.RetryStopsAt | Loop/Managers/DeviceDataManager.swift:820-878 | a loop stopping at attempt k issues k commands then the ending; it requests a read iff reply k is an error not retried |
| PumpSpec.ReservoirReadError | Loop/Managers/DeviceDataManager.swift:796-811 | radio and command errors become certain bolus errors; others pass through |
| PumpSpec.ReservoirPhase | Loop/Managers/DeviceDataManager.swift:771-813 | the reservoir read comes first and issues no bolus command and no completion |
| PumpSpec.BolusGuard | Loop/Managers/DeviceDataManager.swift:724-760 | the session runs iff units > 0, a pump, no bolus running and a RileyLink; units ≤ 0 completes without error |
| PumpSpec.RetryFacts | Loop/Managers/DeviceDataManager.swift:820-878 | one to five commands; one completion, two for a confirmed in-progress error; last the final reply's completion |
| PumpSpec.TroubleshootOnlyWhenExhausted | Loop/Managers/DeviceDataManager.swift:857-866 | troubleshooting iff all five attempts failed with retried errors |
| PumpSpec.ExhaustedAtFinal | Loop/Managers/DeviceDataManager.swift:857-866 | the loop stops on a retried error only after five of them |
| PumpSpec.BolusGuards | Loop/Managers/DeviceDataManager.swift:724-738 | units ≤ 0: only a successful completion; bolus running: completes with "Bolus already in progress" and sends no command |
| PumpSpec.ReservoirReadFirst | Loop/Managers/DeviceDataManager.swift:742-815 | the reservoir is read first iff a read is due; otherwise the requested bolus comes first |
| PumpSpec.BolusBounded | Loop/Managers/DeviceDataManager.swift:711-881 | at most five bolus commands, and the call always ends with a completion |
| PumpSpec.SessionBounded | Loop/Managers/DeviceDataManager.swift:762-878 | the same for the pump session |
| PumpSpec.RequestedThenRetried | Loop/Managers/DeviceDataManager.swift:814-878 | the request record and the retry loop keep the bound and end with a completion |
| PumpSpec.BatteryTrace | Loop/Managers/DeviceDataManager.swift:72-85 | low-battery notice iff the new charge is 0; a battery change iff the charge rose by at least 0.5; nothing without a new charge |
| PumpSpec.EmptyBatteryIsNotReplaced | Loop/Managers/DeviceDataManager.swift:72-85 | an empty battery only notifies low |
| PumpSpec.PollSkip | Loop/Managers/DeviceDataManager.swift:604-640 | the poll proceeds iff data is stale, a RileyLink and a pump exist, and it is not a first request during a read |
| PumpSpec.PollSuccessTrace | Loop/Managers/DeviceDataManager.swift:661-685 | the success path reads no status: battery observations, then `updateReservoirVolume` with no time left and the store's answer, then the upload |
| PumpSpec.PollReadsBounded | Loop/Managers/DeviceDataManager.swift:604-701 | at most 4 - attempt status reads, so at most four |
| PumpSpec.SessionReadsBounded | Loop/Managers/DeviceDataManager.swift:641-701 | the same for the status session |
| PumpSpec.PollClearsFlags | Loop/Managers/DeviceDataManager.swift:641-701 | a read that goes ahead ends with both flags cleared (unless the pump gives no valid date) |
| PumpSpec.PollDropsOverlappingRequest | Loop/Managers/DeviceDataManager.swift:634-639 | a first request during a read only clears `needPumpDataRead` |
| PumpSpec.PollSkipsFreshData | Loop/Managers/DeviceDataManager.swift:606-612 | fresh data: no read, and a retry clears the in-progress flag |
| PumpSpec.LowNotificationsStep | Loop/Managers/DeviceDataManager.swift:472-476 | one loop step appends that threshold's notification |
| PumpSpec.LowNotificationsFacts | Loop/Managers/DeviceDataManager.swift:470-476 | every notification is for the new volume, at most one per threshold, none when the volume did not fall |
| PumpSpec.LowNotificationsPerThreshold | Loop/Managers/DeviceDataManager.swift:470-476 | one notification per threshold 10, 20, 30 with new ≤ t < previous |
| PumpSpec.ReservoirAlertsFacts | Loop/Managers/DeviceDataManager.swift:464-484 | empty: only the empty notice; a rise over 1 U: only an insulin change; else the low notifications |
| PumpSpec.LoopTrigger | Loop/Managers/DeviceDataManager.swift:449-461 | the loop runs at once iff the reservoir is preferred and continuous; a fetch loops on error iff continuous |
| PumpSpec.LatestOfFacts | Loop/Managers/DeviceDataManager.swift:516-532 | the success date never goes back, covers every event, and is the old date or an event's |
| PumpSpec.HistoryStep | Loop/Managers/DeviceDataManager.swift:516-532 | one loop step moves to the later date and appends that event's reading |
| PumpSpec.PumpGlucoseFacts | Loop/Managers/DeviceDataManager.swift:533-551 | nothing with recent glucose; otherwise only the events' meter readings |
| PumpSpec.HistoryStartsAtLastSuccess | Loop/Managers/DeviceDataManager.swift:516-518 | history is asked from no later than the last success and the query date |
| PumpSpec.TempBasalDoseFor | Loop/Managers/DeviceDataManager.swift:1241-1250 | ends at now + time remaining, lasts the duration, at the echoed rate |
| PumpSpec.PiggyBackQuiet | Loop/Managers/DeviceDataManager.swift:1270-1295 | the history piggy-back sends no temp basal and no completion |
| PumpSpec.TempBasalBounded | Loop/Managers/DeviceDataManager.swift:1238-1297 | exactly one completion and at most 4 - attempt commands |
| PumpSpec.TempBasalBolusInProgressNotRetried | Loop/Managers/DeviceDataManager.swift:1263-1268 | a "Bolus in progress" failure completes at once, without a retry |
| PumpSpec.TroubleshootDecision | Loop/Managers/DeviceDataManager.swift:218-257 | each action exactly when its case holds: no pump ops; tuned under 14 min ago: deprioritize; else a reservoir value under 24 min old: skip; else tune |
| PumpSpec.TroubleshootFacts | Loop/Managers/DeviceDataManager.swift:218-257 | deprioritized iff tuned recently or tuning failed; never tuned twice within 14 min |
| PumpSpec.NeverTunedIsTuned | Loop/Managers/DeviceDataManager.swift:218-257 | a device never tuned is tuned unless pump data is recent |
| PumpSpec.RestartReasonFor | Loop/Managers/DeviceDataManager.swift:1059-1069 | pump iff the reservoir value is 30 min old; CGM iff not that and glucose is 30 min old; none iff neither |
| PumpSpec.RestartsRateLimited | Loop/Managers/DeviceDataManager.swift:1077-1085 | a restart is allowed iff the last one is at least 30 min ago |
| PumpSpec.BasalEntries | Loop/Managers/DeviceDataManager.swift:311-320 | one entry per item, indexed from 0, at its start and rate |
| PumpSpec.EntriesForUnique | Loop/Managers/DeviceDataManager.swift:311-320 | those entries are determined by the items |
| PumpSpec.BasalRateFacts | Loop/Managers/DeviceDataManager.swift:305-342 | one completion, last; the schedule is sent iff schedule, pump and RileyLink exist, with one entry per item |
| PumpSpec.AcceptedPumpID | Loop/Managers/DeviceDataManager.swift:958-963 | an id is accepted, unchanged, exactly when its `Character` count is six (so it has at least six code points) |
| DeviceData.DeviceDataManager.constructor | Loop/Managers/DeviceDataManager.swift:1010-1055 | flags clear, no device state, history from 6 h back, Bluetooth clock at launch, pump ops iff settings |
| DeviceData.DeviceDataManager.Notify | Loop/Managers/DeviceDataManager.swift:713-722 | appends `NotifyTrace` and clears `bolusInProgress` |
| DeviceData.DeviceDataManager.AssertPumpDate | Loop/Managers/DeviceDataManager.swift:274-303 | accepted iff within one minute; a rejected date requests a clock sync (`SyncPumpTime`, the request, not the session) when a pump exists |
| DeviceData.DeviceDataManager.ReadReservoirForBolus | Loop/Managers/DeviceDataManager.swift:765-813 | appends the reservoir phase, and `notify` when it fails; the flag cleared only then |
| DeviceData.DeviceDataManager.ClassifyFailure | Loop/Managers/DeviceDataManager.swift:832-856 | `retry` is `BolusRetryable`; a confirming error records a confirmed bolus and clears the flag |
| DeviceData.DeviceDataManager.RecordFailedBolus | Loop/Managers/DeviceDataManager.swift:857-874 | appends `FailedTrace`; a read is requested iff the error is not retried |
| DeviceData.DeviceDataManager.BolusAttempt | Loop/Managers/DeviceDataManager.swift:823-876 | the command, then either another round or the ending for its reply, with the flags that ending sets |
| DeviceData.DeviceDataManager.CatchBolusError | Loop/Managers/DeviceDataManager.swift:831-876 | goes on iff retried and under five attempts; else the confirmed and failed records |
| DeviceData.DeviceDataManager.RetryBolus | Loop/Managers/DeviceDataManager.swift:820-878 | appends `RetryTrace`, clears the flag, requests a read iff the final reply is an error not retried |
| DeviceData.DeviceDataManager.EnactBolus | Loop/Managers/DeviceDataManager.swift:711-881 | appends `BolusTrace`; the flag stays set only for a call during a bolus; a read is requested per `BolusTriggersRead` |
| DeviceData.DeviceDataManager.ReservoirReadDue | Loop/Managers/DeviceDataManager.swift:742-754 | equals `ShouldReadReservoir` |
| DeviceData.DeviceDataManager.RunBolusSession | Loop/Managers/DeviceDataManager.swift:762-878 | appends `BolusSession` and clears the flag |
| DeviceData.DeviceDataManager.TriggerPumpDataRead | Loop/Managers/DeviceDataManager.swift:569-574 | sets the request flag, then polls as `Poll` from attempt 0 |
| DeviceData.DeviceDataManager.AssertCurrentPumpData | Loop/Managers/DeviceDataManager.swift:604-701 | flags and log follow `Poll` |
| DeviceData.DeviceDataManager.CheckPollGuards | Loop/Managers/DeviceDataManager.swift:604-640 | proceeds iff `PollSkip` is none; otherwise the state it gives |
| DeviceData.DeviceDataManager.ReadPumpStatus | Loop/Managers/DeviceDataManager.swift:641-701 | flags and log follow `PollSession` |
| DeviceData.DeviceDataManager.FinishPumpStatus | Loop/Managers/DeviceDataManager.swift:661-699 | final failure: error recorded, troubleshoot, uploads; success: battery, then `UpdateReservoirVolume` on the status's reservoir and date, so a store failure becomes the last error; both flags cleared |
| DeviceData.DeviceDataManager.ObserveBatteryDuring | Loop/Managers/DeviceDataManager.swift:72-85 | appends `BatteryTrace` |
| DeviceData.DeviceDataManager.UpdateReservoirVolume | Loop/Managers/DeviceDataManager.swift:438-489 | appends `ReservoirUpdateTrace`; a store error is recorded as the last error |
| DeviceData.DeviceDataManager.ReservoirStored | Loop/Managers/DeviceDataManager.swift:449-484 | the loop trigger, then the alerts; `empty` iff a previous value and an empty reservoir |
| DeviceData.DeviceDataManager.AlertReservoir | Loop/Managers/DeviceDataManager.swift:464-484 | appends `ReservoirAlerts`; `empty` iff volume ≤ 0 |
| DeviceData.DeviceDataManager.WarnLowReservoir | Loop/Managers/DeviceDataManager.swift:470-476 | the threshold loop appends `LowNotifications` |
| DeviceData.DeviceDataManager.FetchPumpHistory | Loop/Managers/DeviceDataManager.swift:499-566 | appends `HistoryTrace`; the success date moves to `LatestOf` only after a fetch |
| DeviceData.DeviceDataManager.RecordHistoryEvents | Loop/Managers/DeviceDataManager.swift:516-532 | the loop sets the success date to `LatestOf` and adds the meter readings |
| DeviceData.DeviceDataManager.TroubleshootPumpComms | Loop/Managers/DeviceDataManager.swift:209-257 | log per `TroubleshootDecision`; a good tune stores (now, frequency); a failed tune records the error |
| DeviceData.DeviceDataManager.InternalSetTempBasal | Loop/Managers/DeviceDataManager.swift:1224-1297 | appends `TempBasalTrace` |
| DeviceData.DeviceDataManager.PiggyBackHistory | Loop/Managers/DeviceDataManager.swift:1270-1295 | appends `PiggyBackTrace` |
| DeviceData.DeviceDataManager.SetBasalRate | Loop/Managers/DeviceDataManager.swift:305-342 | appends `BasalRateTrace` |
| DeviceData.DeviceDataManager.BuildBasalEntries | Loop/Managers/DeviceDataManager.swift:311-320 | the `for item` loop builds entries indexed 0..n-1 |
| DeviceData.DeviceDataManager.SetPumpSettings | Loop/Managers/DeviceDataManager.swift:938-956 | settings set; pump ops updated, created, or dropped with the pump state and pump data reset |
| DeviceData.DeviceDataManager.SetPumpID | Loop/Managers/DeviceDataManager.swift:958-972 | an id of six `Character`s replaces the id (keeping the region) or starts new settings, and the log gains the settings setter's update of the existing pump operations or their creation; any other id changes nothing |
| DeviceData.DeviceDataManager.MaybeToggleBluetooth | Loop/Managers/DeviceDataManager.swift:1059-1129 | restarts iff there is a reason and the last restart is 30 min old; the pump or the CGM per the reason; the date updated only then |

## Left out

- Dispatch queues, semaphores, `DispatchGroup`, notification observers and the 11 s `asyncAfter` are not modelled. A store's completion callback runs synchronously, in call order. The calls whose effects happen later are logged as requests rather than run:
  - `triggerPumpDataRead` inside a bolus (`PumpDataReadRequested`, which sets `needPumpDataRead`);
  - `fetchPumpHistory` after a temp basal or a reservoir update;
  - `troubleshootPumpComms` after a failed bolus, poll or fetch.
- Collaborators are not modelled; their calls are recorded as `Effect` values and their answers are parameters. This covers the radio session (`PumpOps.runSession`), the RileyLink manager, the dose, glucose and carb stores, notifications and the Nightscout uploader.
- Each operation reads one `now`; the small time differences between successive `Date()` calls are not modelled.
- The pump clock date that Swift force-unwraps in `enactBolus` is assumed present: a missing date, which traps there, is not modelled.
- `fetchPumpHistory`'s "glucose entered in the last 30 minutes" test is the boolean `recentGlucose`; the glucose store query behind it is not modelled.
- `Contains` is a plain substring test on the error's description text (`Text`). Swift's `"\(error)"` formatting is not modelled beyond that text.
- The `enactBolus` retry loop is split into per-attempt methods (`BolusAttempt`, `CatchBolusError`, `ClassifyFailure`, `RecordFailedBolus`) driven by the `while` loop of `RetryBolus`; the step order is the Swift order.
- `loopDataManager(_:didRecommendBolus:)` (a thin call of `enactBolus`), `setPumpRegion`, `updatePumpStatus` (MySentry packets), CGM setup, battery chemistry, `getStateForDevice` and `debugDescription` are not part of this model.
- `AutoAdjust.fetchSync` (store queries) and `logDebug` are not part of this model. The fetched samples come in as the `fetched` argument.
- Floating point is not modelled: every `Double` is a `real`. Swift's `round` is modelled only as `RoundToTenth` on non-negative values.
- Localized strings are not modelled: the strategy titles and the notice descriptions.
- The nested LoopKit types (`GlucoseRangeSchedule`, `DoubleRange`, `TemporaryScheduleOverride`, presets, thresholds) are opaque. Their raw values carry what their own decoders yield.
- Settings.ScheduleValue: the raw value a `GlucoseRangeSchedule` encodes to is taken to carry no legacy `overrideRanges`. `Settings.RoundTrip` relies on this: if it did carry them, a nil `preMealTargetRange` would come back migrated from them.
- MinimedKit's record type of a first byte, and its per-type decoders, are parameters.
- PumpSpec.AcceptedPumpID: Unicode grapheme segmentation is not modelled. The id's `Character` count is the parameter `characters`; for the digit ids a pump reports it equals the code-point count.
- LoopDefaults.DoubleFor: Foundation's reading of a number from a string's text is not modelled; it is the string object's `numeric` field.
- DeviceData.DeviceDataManager.AssertPumpDate: the "Sync Pump Time" session is not run. It needs a connected RileyLink, and its `setTime` outcome is not modelled. The log records only the request.
- Diagnostics are not modelled: `logger.addError`, `NSLog`, `StatisticsManager.shared.inc`, `loopManager.addInternalNote` and the `AnalyticsManager` calls (`pumpTimeDidDrift`, `reservoirWasRewound`, `didChangeRileyLinkConnectionState`). The one exception is `PumpBatteryReplaced`, which is kept. It stands for the battery-change record `loopManager.addBatteryChange` with the old and new charge, together with its `pumpBatteryWasReplaced` analytics call.
- MapFirst: Unicode grapheme segmentation is not modelled. The length in code points of the first `Character` is the parameter `n`, and Foundation's case mapping of that `Character` is a parameter.
- FirstUppercased: uses the same segmentation parameter and mapping parameter as `MapFirst`.
- FirstCapitalized: uses the same segmentation parameter and mapping parameter as `MapFirst`.
- Reading the GitInfo property list from the bundle is not modelled; its outcome is the `plist` argument.
- AppDelegate, the views, `CarbEntry`, `NightscoutUploader` and the status table view controller are not part of this model.
- PumpEventTreatment.ToTreatment: requires a present raw record to be non-empty, because indexing its first byte traps in Swift.
- PumpSpec.PollClearsFlags: requires every status the pump returns to carry a valid date. A status without one leaves the read flag set, as `PollSession` states.

## Findings

| source | as written | input that shows it | evidently intended | confidence | as-written member | corrected member |
|---|---|---|---|---|---|---|
| Loop/Models/ManualBolusRecommendation.swift:95-97 | `<` is `amount < amount' \|\| carbs < carbs'`, so for two recommendations each can be below the other, which breaks the strict ordering `Comparable` requires | amount 1 with 5 g carbs against amount 2 with 0 g: each is `<` the other, and they are not `==` | order by amount, then by carbs | not executed; high that the relation is not asymmetric, medium on the intended order | BolusRecommendation.LessBothWays | BolusRecommendation.LexLessIsStrictTotalOrder |
