/**
 * The raw inputs of one evaluation and their encoding into the six-column
 * feature vector the scaler was fitted on (app.py, lines 33-43).
 */
module Features {
  import opened Wrappers
  import Weekdays

  /** A `datetime.time` reduced to the two fields the encoding reads. */
  datatype ClockTime = ClockTime(hour: int, minute: int) {
    /** The range `datetime.time` itself enforces. */
    predicate Valid() {
      0 <= hour < 24 && 0 <= minute < 60
    }

    /** Minutes since midnight. */
    function Minutes(): (m: int) {
      60 * hour + minute
    }
  }

  /** The default of the time picker, 12:00. */
  const Noon := ClockTime(12, 0)

  /** `time_of_day.hour + time_of_day.minute/60`. */
  function DecimalHours(t: ClockTime): (h: real)
    ensures h == t.Minutes() as real / 60.0
    ensures t.Valid() ==> 0.0 <= h < 24.0
  {
    t.hour as real + t.minute as real / 60.0
  }

  /** Reads a clock time back from its decimal hour. */
  function ClockOf(h: real): (t: ClockTime) {
    ClockTime(h.Floor, ((h - h.Floor as real) * 60.0).Floor)
  }

  lemma ClockRoundTrip(t: ClockTime)
    requires t.Valid()
    ensures ClockOf(DecimalHours(t)) == t
  {
    var h := DecimalHours(t);
    var f := t.minute as real / 60.0;
    assert 0.0 <= f < 1.0;
    assert t.hour as real <= h < t.hour as real + 1.0;
    assert h.Floor == t.hour;
    assert (h - t.hour as real) * 60.0 == t.minute as real;
  }

  /** The encoding preserves the order of clock times, in both directions. */
  lemma DecimalHoursOrder(s: ClockTime, t: ClockTime)
    ensures s.Minutes() < t.Minutes() <==> DecimalHours(s) < DecimalHours(t)
    ensures s.Minutes() == t.Minutes() <==> DecimalHours(s) == DecimalHours(t)
  {
  }

  /** The values read from the sidebar widgets. */
  datatype RawInputs = RawInputs(
    temperature: real,
    humidity: real,
    timeOfDay: ClockTime,
    dayOfWeek: string,
    occupancy: int,
    applianceUsage: real)

  /** Inputs the widgets can produce for the time and the day: a real clock time and one of the seven names. */
  predicate Encodable(x: RawInputs) {
    x.timeOfDay.Valid() && x.dayOfWeek in Weekdays.Names
  }

  /** The initial widget values: 22 °C, 50 %, 12:00, Monday, 2 occupants, usage 5.0. */
  const Defaults := RawInputs(22.0, 50.0, Noon, "Monday", 2, 5.0)

  /** The names of the DataFrame columns, in the order the scaler expects them. */
  const Columns: seq<string> :=
    ["temperature", "humidity", "time_of_day", "day_of_week", "occupancy", "appliance_usage"]

  /** The one way the encoding fails: a day name that is not a key of `day_mapping`. */
  datatype EncodeError = UnknownDay(name: string)

  /** The one-row DataFrame of app.py, as the sequence of its six values. */
  function Encode(x: RawInputs): (r: Result<seq<real>, EncodeError>)
    ensures r.Failure? <==> x.dayOfWeek !in Weekdays.Names
    ensures r.Failure? ==> r.error == UnknownDay(x.dayOfWeek)
    ensures r.Success? ==> |r.value| == |Columns|
    ensures r.Success? ==>
      r.value[0] == x.temperature && r.value[1] == x.humidity &&
      r.value[4] == x.occupancy as real && r.value[5] == x.applianceUsage
    ensures r.Success? ==> r.value[2] == DecimalHours(x.timeOfDay)
    ensures r.Success? && x.timeOfDay.Valid() ==> 0.0 <= r.value[2] < 24.0
    ensures r.Success? ==> r.value[3] == Weekdays.DayIndex(x.dayOfWeek).value as real
  {
    match Weekdays.DayIndex(x.dayOfWeek)
    case None => Failure(UnknownDay(x.dayOfWeek))
    case Some(day) =>
      Success([x.temperature, x.humidity, DecimalHours(x.timeOfDay),
               day as real, x.occupancy as real, x.applianceUsage])
  }

  /** Reads raw inputs back from a feature vector; `None` for a vector no encoding produces. */
  function Decode(v: seq<real>): (x: Option<RawInputs>) {
    if |v| != |Columns| then None
    else
      var day: int := v[3].Floor;
      if 0 <= day < |Weekdays.Names| then
        Some(RawInputs(v[0], v[1], ClockOf(v[2]), Weekdays.Names[day], v[4].Floor, v[5]))
      else None
  }

  /** The encoding loses nothing: every encodable input is read back from its vector. */
  lemma EncodeRoundTrip(x: RawInputs)
    requires Encodable(x)
    ensures Encode(x).Success? && Decode(Encode(x).value) == Some(x)
  {
    var v := Encode(x).value;
    assert v[4].Floor == x.occupancy;
    ClockRoundTrip(x.timeOfDay);
  }

  /** Distinct encodable inputs never share a feature vector. */
  lemma EncodeInjective(x: RawInputs, y: RawInputs)
    requires Encodable(x) && Encodable(y)
    requires Encode(x) == Encode(y)
    ensures x == y
  {
    EncodeRoundTrip(x);
    EncodeRoundTrip(y);
  }

  /** The widget defaults encode as [22.0, 50.0, 12.0, 0, 2, 5.0]. */
  lemma EncodeDefaults()
    ensures Encode(Defaults) == Success([22.0, 50.0, 12.0, 0.0, 2.0, 5.0])
  {
    Weekdays.DayIndexEnds();
  }
}
