/** The app's `UserDefaults` accessors: the pump manager's raw state and the
    sensor session start date, which is stored as seconds since the 2001
    reference date. */
module LoopDefaults {
  import opened Common

  const PumpManagerStateKey: string := "com.loopkit.Loop.PumpManagerState"
  const SensorSessionStartDateKey: string := "com.loopkit.Loop.sensorSessionStartDate"

  /** An object in the defaults store. A string carries the number
      Foundation reads from its text, if any (`numeric`); that parsing is
      not modelled. */
  datatype StoredObject =
    | NumberObject(d: real)
    | BoolObject(b: bool)
    | StringObject(text: string, numeric: Option<real>)
    | DictionaryObject(entries: map<string, Value>)
    | OtherObject

  type Store = map<string, StoredObject>

  /** `double(forKey:)`: the stored number; a Boolean as 1 or 0; a string
      as the number its text holds, or 0; 0 when the key is absent or holds
      anything else. */
  function DoubleFor(store: Store, key: string): (r: real)
    ensures key in store && store[key].NumberObject? ==> r == store[key].d
    ensures key in store && store[key].BoolObject? ==> r == (if store[key].b then 1.0 else 0.0)
    ensures key in store && store[key].StringObject? && store[key].numeric.Some? ==> r == store[key].numeric.value
    ensures (key !in store || store[key].DictionaryObject? || store[key].OtherObject?
             || (store[key].StringObject? && store[key].numeric.None?)) ==> r == 0.0
  {
    if key !in store then 0.0
    else match store[key]
      case NumberObject(d) => d
      case BoolObject(b) => if b then 1.0 else 0.0
      case StringObject(_, numeric) => if numeric.Some? then numeric.value else 0.0
      case _ => 0.0
  }

  /** `dictionary(forKey:)`. */
  function DictionaryFor(store: Store, key: string): (r: Option<map<string, Value>>)
    ensures r.Some? <==> key in store && store[key].DictionaryObject?
    ensures r.Some? ==> store[key] == DictionaryObject(r.value)
  {
    if key in store && store[key].DictionaryObject? then Some(store[key].entries) else None
  }

  /** `set(_:forKey:)` with an optional object: nil removes the key. */
  function SetObject(store: Store, key: string, v: Option<StoredObject>): (r: Store)
    ensures v.None? ==> key !in r
    ensures v.Some? ==> key in r && r[key] == v.value
    ensures forall k :: k != key ==> (k in r <==> k in store) && (k in r ==> r[k] == store[k])
  {
    if v.None? then store - {key} else store[key := v.value]
  }

  /** The sensor session start date getter: a positive stored interval is a
      date after the reference date; zero, a negative value or an absent key
      is nil. */
  function SensorSessionStartDate(store: Store): (r: Option<Time>)
    ensures r.Some? <==> DoubleFor(store, SensorSessionStartDateKey) > 0.0
    ensures r.Some? ==> r.value > ReferenceDate
                        && r.value - ReferenceDate == DoubleFor(store, SensorSessionStartDateKey)
  {
    var value := DoubleFor(store, SensorSessionStartDateKey);
    if value > 0.0 then Some(ReferenceDate + value) else None
  }

  /** The sensor session start date setter. */
  function WithSensorSessionStartDate(store: Store, date: Option<Time>): (r: Store)
    ensures date.None? ==> SensorSessionStartDateKey !in r
    ensures date.Some? ==> SensorSessionStartDateKey in r
                           && r[SensorSessionStartDateKey] == NumberObject(date.value - ReferenceDate)
  {
    if date.None? then SetObject(store, SensorSessionStartDateKey, None)
    else SetObject(store, SensorSessionStartDateKey, Some(NumberObject(date.value - ReferenceDate)))
  }

  /** A date after the reference date reads back as written; nil reads back
      as nil; a date at or before 2001-01-01 is stored but reads back as nil. */
  lemma StartDateRoundTrip(store: Store, date: Option<Time>)
    ensures date.Some? && date.value > ReferenceDate ==>
              SensorSessionStartDate(WithSensorSessionStartDate(store, date)) == date
    ensures date.None? ==> SensorSessionStartDate(WithSensorSessionStartDate(store, date)) == None
    ensures date.Some? && date.value <= ReferenceDate ==>
              SensorSessionStartDate(WithSensorSessionStartDate(store, date)) == None
  {
    var r := WithSensorSessionStartDate(store, date);
    if date.Some? {
      assert DoubleFor(r, SensorSessionStartDateKey) == date.value - ReferenceDate;
    }
  }

  /** Writing the start date touches no other key. */
  lemma StartDateTouchesOnlyItsKey(store: Store, date: Option<Time>, key: string)
    requires key != SensorSessionStartDateKey
    ensures key in WithSensorSessionStartDate(store, date) <==> key in store
    ensures key in store ==> WithSensorSessionStartDate(store, date)[key] == store[key]
  {
  }

  /** The pump manager state is a passthrough: what is set, a dictionary or
      nil, is what is read back, and the start date is left alone. */
  lemma PumpManagerRoundTrip(store: Store, v: Option<map<string, Value>>)
    ensures var r := SetObject(store, PumpManagerStateKey, if v.Some? then Some(DictionaryObject(v.value)) else None);
            DictionaryFor(r, PumpManagerStateKey) == v
            && SensorSessionStartDate(r) == SensorSessionStartDate(store)
  {
    var r := SetObject(store, PumpManagerStateKey, if v.Some? then Some(DictionaryObject(v.value)) else None);
    assert DoubleFor(r, SensorSessionStartDateKey) == DoubleFor(store, SensorSessionStartDateKey);
  }

  /** The defaults store, updated in place by the setters. */
  class Defaults {
    var store: Store

    constructor (store: Store)
      ensures this.store == store
    {
      this.store := store;
    }

    /** `pumpManagerRawValue`'s getter. */
    function PumpManagerRawValue(): Option<map<string, Value>>
      reads this
    {
      DictionaryFor(store, PumpManagerStateKey)
    }

    /** `pumpManagerRawValue`'s setter: what is set is what the getter
        returns next, and no other key changes. */
    method SetPumpManagerRawValue(v: Option<map<string, Value>>)
      modifies this
      ensures store == SetObject(old(store), PumpManagerStateKey,
                                 if v.Some? then Some(DictionaryObject(v.value)) else None)
      ensures PumpManagerRawValue() == v
    {
      if v.None? {
        store := store - {PumpManagerStateKey};
      } else {
        store := store[PumpManagerStateKey := DictionaryObject(v.value)];
      }
    }

    /** `sensorSessionStartDate`'s getter. */
    function GetSensorSessionStartDate(): Option<Time>
      reads this
    {
      SensorSessionStartDate(store)
    }

    /** `sensorSessionStartDate`'s setter: nil removes the key, a date
        stores its interval since the reference date. */
    method SetSensorSessionStartDate(date: Option<Time>)
      modifies this
      ensures store == WithSensorSessionStartDate(old(store), date)
    {
      if date.None? {
        store := store - {SensorSessionStartDateKey};
      } else {
        store := store[SensorSessionStartDateKey := NumberObject(date.value - ReferenceDate)];
      }
    }
  }
}
