/** `PersistedPumpEvent.treatment(enteredBy:)`: the Nightscout treatment an
    uploaded pump event becomes. A raw MinimedKit record is decoded first,
    by its first byte; whatever that does not cover falls through to the
    event's dose. */
module PumpEventTreatment {
  import opened Common

  type Byte = b: int | 0 <= b < 256

  /** The MinimedKit record types this upload handles; every other first
      byte is `OtherRawType`. */
  datatype RawEventType = BgReceived | Prime | Rewind | AlarmPump | Battery | OtherRawType

  /** What a MinimedKit decoder yields for a record of a handled type. */
  datatype DecodedEvent = DecodedEvent(
    timestamp: Option<Time>,     // `timestamp.date`, nil when not a valid date
    glucose: real,               // bgReceived: the meter reading
    primeAmount: Option<string>, // prime: dictionary entries, as text
    primeProgrammed: Option<string>,
    primeType: Option<string>,
    alarmType: string)           // alarmPump: the alarm's description

  /** The MinimedKit pieces this code calls but does not define: the
      record type of a first byte, and the per-type decoders (`None` when a
      record does not decode). */
  datatype Decoders = Decoders(
    typeOf: Byte -> RawEventType,
    decode: (RawEventType, seq<Byte>) -> Option<DecodedEvent>)

  /** LoopKit pump event and dose types. */
  datatype PumpEventType = AlarmEvent | BasalEvent | BolusEvent | PrimeEvent | ResumeEvent
                         | RewindEvent | SuspendEvent | TempBasalEvent
  datatype DoseType = Basal | Bolus | Resume | Suspend | TempBasal

  datatype DoseEntry = DoseEntry(
    doseType: DoseType,
    startDate: Time,
    endDate: Time,
    unitsPerHour: real,
    programmedUnits: real,
    deliveredUnits: Option<real>,
    syncIdentifier: Option<string>)

  datatype PersistedPumpEvent = PersistedPumpEvent(
    date: Time,
    raw: Option<seq<Byte>>,
    eventType: Option<PumpEventType>,
    dose: Option<DoseEntry>)

  datatype Treatment =
    | BGCheck(timestamp: Time, enteredBy: string, glucose: real)   // glucose type Meter, units mg/dL
    | Note(timestamp: Time, enteredBy: string, notes: string, eventType: string)
    | BolusTreatment(timestamp: Time, enteredBy: string, amount: real, programmed: real,
                     duration: real, id: Option<string>)           // Normal; no unabsorbed, carbs or ratio
    | PumpResume(timestamp: Time, enteredBy: string)
    | PumpSuspend(timestamp: Time, enteredBy: string)
    | AbsoluteTempBasal(timestamp: Time, enteredBy: string, rate: real, absolute: real,
                        duration: real, deliveredAmount: Option<real>, id: Option<string>)

  /** The reference table the raw path follows: a meter reading becomes a
      BG check; the other handled record types become a note with this
      Nightscout event type. */
  function NoteEventType(t: RawEventType): string
  {
    match t
    case Prime => "Site Change"
    case Rewind => "Insulin Change"
    case AlarmPump => "Announcement"
    case Battery => "Pump Battery Change"
    case _ => ""
  }

  predicate FollowsTable(t: RawEventType, r: Treatment)
  {
    if t == BgReceived then r.BGCheck? else r.Note? && r.eventType == NoteEventType(t)
  }

  /** The raw path: a treatment for a record of a handled type that decodes,
      `None` otherwise. */
  function RawTreatment(date: Time, raw: seq<Byte>, source: string, dec: Decoders): (r: Option<Treatment>)
    requires |raw| > 0
    ensures r.Some? <==> dec.typeOf(raw[0]) != OtherRawType && dec.decode(dec.typeOf(raw[0]), raw).Some?
    ensures r.Some? ==> r.value.enteredBy == source
                        && r.value.timestamp == dec.decode(dec.typeOf(raw[0]), raw).value.timestamp.GetOr(date)
                        && FollowsTable(dec.typeOf(raw[0]), r.value)
    ensures r.Some? ==>
              var t := dec.typeOf(raw[0]);
              var e := dec.decode(t, raw).value;
              (t == BgReceived ==> r.value.glucose == e.glucose)
              && (t == Prime ==>
                    r.value.notes == "Automatically added; Amount " + e.primeAmount.GetOr("0")
                                     + " Units, Programmed Amount " + e.primeProgrammed.GetOr("0")
                                     + " Units, Type " + e.primeType.GetOr(""))
              && (t == Rewind || t == Battery ==> r.value.notes == "Automatically added")
              && (t == AlarmPump ==> r.value.notes == "Pump Alarm " + e.alarmType)
  {
    var t := dec.typeOf(raw[0]);
    if t == OtherRawType then None
    else match dec.decode(t, raw)
      case None => None
      case Some(e) =>
        var timestamp := e.timestamp.GetOr(date);
        match t
        case BgReceived => Some(BGCheck(timestamp, source, e.glucose))
        case Prime =>
          Some(Note(timestamp, source,
                    "Automatically added; Amount " + e.primeAmount.GetOr("0")
                    + " Units, Programmed Amount " + e.primeProgrammed.GetOr("0")
                    + " Units, Type " + e.primeType.GetOr(""),
                    "Site Change"))
        case Rewind => Some(Note(timestamp, source, "Automatically added", "Insulin Change"))
        case AlarmPump => Some(Note(timestamp, source, "Pump Alarm " + e.alarmType, "Announcement"))
        case Battery => Some(Note(timestamp, source, "Automatically added", "Pump Battery Change"))
  }

  /** The dose path. `pumpEventType` is LoopKit's `DoseType.pumpEventType`. */
  function DoseTreatment(e: PersistedPumpEvent, source: string, pumpEventType: DoseType -> Option<PumpEventType>)
    : (r: Option<Treatment>)
    ensures r.Some? <==> e.eventType.Some? && e.dose.Some?
                         && pumpEventType(e.dose.value.doseType) == e.eventType
                         && e.dose.value.doseType != Basal
    ensures r.Some? ==> r.value.enteredBy == source && r.value.timestamp == e.dose.value.startDate
  {
    if e.eventType.None? || e.dose.None? || pumpEventType(e.dose.value.doseType) != e.eventType then None
    else
      var dose := e.dose.value;
      match dose.doseType
      case Basal => None
      case Bolus =>
        Some(BolusTreatment(dose.startDate, source, dose.deliveredUnits.GetOr(dose.programmedUnits),
                            dose.programmedUnits, dose.endDate - dose.startDate, dose.syncIdentifier))
      case Resume => Some(PumpResume(dose.startDate, source))
      case Suspend => Some(PumpSuspend(dose.startDate, source))
      case TempBasal =>
        Some(AbsoluteTempBasal(dose.startDate, source, dose.unitsPerHour, dose.unitsPerHour,
                               dose.endDate - dose.startDate, dose.deliveredUnits, dose.syncIdentifier))
  }

  /** `treatment(enteredBy:)`. Indexing the first byte of an empty record
      traps, so a present record must be non-empty. */
  function ToTreatment(e: PersistedPumpEvent, source: string, dec: Decoders,
                       pumpEventType: DoseType -> Option<PumpEventType>): (r: Option<Treatment>)
    requires e.raw.Some? ==> |e.raw.value| > 0
    ensures r.Some? ==> r.value.enteredBy == source
  {
    var fromRaw := if e.raw.Some? then RawTreatment(e.date, e.raw.value, source, dec) else None;
    if fromRaw.Some? then fromRaw else DoseTreatment(e, source, pumpEventType)
  }

  /** A record of a handled type that decodes always wins over the dose,
      as the table says for its record type. */
  lemma RawRecordWins(e: PersistedPumpEvent, source: string, dec: Decoders,
                      pumpEventType: DoseType -> Option<PumpEventType>)
    requires e.raw.Some? && |e.raw.value| > 0
    requires dec.typeOf(e.raw.value[0]) != OtherRawType
    requires dec.decode(dec.typeOf(e.raw.value[0]), e.raw.value).Some?
    ensures var r := ToTreatment(e, source, dec, pumpEventType);
            r.Some? && FollowsTable(dec.typeOf(e.raw.value[0]), r.value)
            && r.value.timestamp == dec.decode(dec.typeOf(e.raw.value[0]), e.raw.value).value.timestamp.GetOr(e.date)
  {
  }

  /** No record, an unknown record type or a record that does not decode:
      the dose decides. */
  lemma FallsThroughToDose(e: PersistedPumpEvent, source: string, dec: Decoders,
                           pumpEventType: DoseType -> Option<PumpEventType>)
    requires e.raw.Some? ==> |e.raw.value| > 0
    requires e.raw.Some? ==> dec.typeOf(e.raw.value[0]) == OtherRawType
                             || dec.decode(dec.typeOf(e.raw.value[0]), e.raw.value).None?
    ensures ToTreatment(e, source, dec, pumpEventType) == DoseTreatment(e, source, pumpEventType)
  {
  }

  /** A bolus dose whose pump event type matches becomes a bolus treatment:
      the delivered units (else the programmed ones), the dose's length and
      its sync identifier. */
  lemma BolusDose(e: PersistedPumpEvent, source: string, pumpEventType: DoseType -> Option<PumpEventType>)
    requires e.eventType.Some? && e.dose.Some? && e.dose.value.doseType == Bolus
    requires pumpEventType(Bolus) == e.eventType
    ensures var r := DoseTreatment(e, source, pumpEventType);
            var d := e.dose.value;
            r.Some? && r.value.BolusTreatment?
            && r.value.amount == (if d.deliveredUnits.Some? then d.deliveredUnits.value else d.programmedUnits)
            && r.value.programmed == d.programmedUnits
            && r.value.duration == d.endDate - d.startDate
            && r.value.id == d.syncIdentifier
  {
  }

  /** A matching temp-basal dose becomes an absolute temp basal whose rate
      and absolute rate are both the dose's units per hour. */
  lemma TempBasalDose(e: PersistedPumpEvent, source: string, pumpEventType: DoseType -> Option<PumpEventType>)
    requires e.eventType.Some? && e.dose.Some? && e.dose.value.doseType == TempBasal
    requires pumpEventType(TempBasal) == e.eventType
    ensures var r := DoseTreatment(e, source, pumpEventType);
            var d := e.dose.value;
            r.Some? && r.value.AbsoluteTempBasal?
            && r.value.rate == d.unitsPerHour && r.value.absolute == d.unitsPerHour
            && r.value.duration == d.endDate - d.startDate
            && r.value.deliveredAmount == d.deliveredUnits && r.value.id == d.syncIdentifier
  {
  }

  /** A matching resume or suspend dose becomes a pump resume or a pump
      suspend at the dose's start. */
  lemma ResumeSuspendDose(e: PersistedPumpEvent, source: string, pumpEventType: DoseType -> Option<PumpEventType>)
    requires e.eventType.Some? && e.dose.Some? && pumpEventType(e.dose.value.doseType) == e.eventType
    ensures e.dose.value.doseType == Resume ==>
              DoseTreatment(e, source, pumpEventType) == Some(PumpResume(e.dose.value.startDate, source))
    ensures e.dose.value.doseType == Suspend ==>
              DoseTreatment(e, source, pumpEventType) == Some(PumpSuspend(e.dose.value.startDate, source))
  {
  }

  /** A basal dose, or a dose whose pump event type differs from the
      event's, is never uploaded by the dose path. */
  lemma BasalOrMismatchIsDropped(e: PersistedPumpEvent, source: string, pumpEventType: DoseType -> Option<PumpEventType>)
    requires e.dose.Some?
    requires e.dose.value.doseType == Basal || pumpEventType(e.dose.value.doseType) != e.eventType
    ensures DoseTreatment(e, source, pumpEventType) == None
  {
  }
}
