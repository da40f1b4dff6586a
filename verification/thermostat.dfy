/** The thermostat: unit conversions of the raw temperature fields, the weekly schedule
    split into time-temperature tokens, and validated mode and set-point commands. */
module Thermostat {
  import opened Wrappers
  import opened Device
  import opened Strings

  /** Follows the weekly plan. */
  const Auto: string := "auto"
  /** Holds the temperature set with `SetTemp`. */
  const Manual: string := "hand"
  const WorkingModes: set<string> := {Auto, Manual}

  /** The shadow holds twice the set-point in degrees. */
  const TempMultiplier: real := 2.0
  /** The shadow holds the room temperature in tenths of a degree. */
  const TempDisplayDivider: real := 10.0

  const CurrentTemperature: string := "air_tem"
  const GoalTemperatureKey: string := "set_tem"
  const Workmode: string := "workmode"
  const WorkingStatus: string := "working_status"

  /** The separator between the actions of one day's schedule string. */
  const ScheduleSeparator: char := ','

  /** The days of `autosettings`, each with the shadow key it reads. */
  const Weekdays: seq<(string, string)> :=
    [("Mon", "Mon"), ("Tue", "Tues"), ("Wed", "Wed"), ("Thu", "Thur"),
     ("Fri", "Fri"), ("Sat", "Sat"), ("Sun", "Sun")]

  /** The shadow key the schedule of `day` is read from. */
  function ScheduleKey(day: string): string
  {
    if day == "Tue" then "Tues" else if day == "Thu" then "Thur" else day
  }

  /** The set-point value published for a temperature in degrees: halving it gives the degrees back. */
  function EncodeTemp(temp: real): (raw: real)
    ensures raw / TempMultiplier == temp
  {
    temp * TempMultiplier
  }

  class Thermostat {
    const device: BaseDevice

    constructor (device: BaseDevice)
      ensures this.device == device
    {
      this.device := device;
    }

    /** `setMode`: an argument outside {auto, hand} fails and publishes nothing. */
    method SetMode(mode: string) returns (r: Outcome)
      modifies device`published
      ensures r.Pass? <==> mode in WorkingModes
      ensures r.Fail? ==> r.error == InvalidValue(WorkingModes) && device.published == old(device.published)
      ensures r.Pass? ==> device.published == old(device.published) + [Message(Workmode, Str(mode))]
    {
      if mode !in WorkingModes {
        return Fail(InvalidValue(WorkingModes));
      }
      device.PublishSingle(Workmode, Str(mode));
      r := Pass;
    }

    /** `setTemp`: switch to manual mode, then publish the encoded set-point, in that order. */
    method SetTemp(temp: real)
      modifies device`published
      ensures device.published == old(device.published)
                + [Message(Workmode, Str(Manual)), Message(GoalTemperatureKey, Num(EncodeTemp(temp)))]
    {
      var switched := SetMode(Manual);
      assert switched.Pass?;
      device.PublishSingle(GoalTemperatureKey, Num(EncodeTemp(temp)));
    }

    /** `is_available`: both branches of the source's conditional give True. */
    function IsAvailable(): (r: bool)
      reads device
      ensures r
    {
      if device.Get("connected") == Some(Str("false")) then true else true
    }

    /** `temperature`: the raw tenths as degrees; None or a string cannot be divided. */
    function Temperature(): (r: Result<real>)
      reads device
      ensures r.Ok? <==> CurrentTemperature in device.shadow && device.shadow[CurrentTemperature].Num?
      ensures r.Ok? ==> device.shadow[CurrentTemperature] == Num(r.value * TempDisplayDivider)
      ensures r.Err? ==> r.error == TypeError
    {
      match device.Get(CurrentTemperature)
      case Some(Num(raw)) => Ok(raw / TempDisplayDivider)
      case _ => Err(TypeError)
    }

    /** `goal_temperature`: the raw set-point halved, so that encoding it gives the raw value back. */
    function GoalTemperature(): (r: Result<real>)
      reads device
      ensures r.Ok? <==> GoalTemperatureKey in device.shadow && device.shadow[GoalTemperatureKey].Num?
      ensures r.Ok? ==> device.shadow[GoalTemperatureKey] == Num(EncodeTemp(r.value))
      ensures r.Err? ==> r.error == TypeError
    {
      match device.Get(GoalTemperatureKey)
      case Some(Num(raw)) => Ok(raw / TempMultiplier)
      case _ => Err(TypeError)
    }

    /** `is_heating`. */
    function IsHeating(): (r: bool)
      reads device
      ensures r <==> WorkingStatus in device.shadow && device.shadow[WorkingStatus] == Str("on")
    {
      if device.Get(WorkingStatus) == Some(Str("on")) then true else false
    }

    /** `format_auto_settings(day)`: the shadow's schedule string for `day`, split at commas.
        A missing key or a number has no `split`. */
    function FormatAutoSettings(day: string): (r: Result<seq<string>>)
      reads device
      ensures r.Ok? <==> day in device.shadow && device.shadow[day].Str?
      ensures r.Err? ==> r.error == AttributeError
      ensures r.Ok? ==> Join(r.value, ScheduleSeparator) == device.shadow[day].s
      ensures r.Ok? ==> |r.value| == Occurrences(device.shadow[day].s, ScheduleSeparator) + 1
      ensures r.Ok? ==> forall i :: 0 <= i < |r.value| ==> ScheduleSeparator !in r.value[i]
    {
      match device.Get(day)
      case Some(Str(commands)) => Ok(Split(commands, ScheduleSeparator))
      case _ => Err(AttributeError)
    }

    /** The schedules of `days`, evaluated in order; the first day that fails fails them all. */
    function CollectSchedules(days: seq<(string, string)>): (r: Result<map<string, seq<string>>>)
      reads device
      ensures r.Ok? <==> forall i :: 0 <= i < |days| ==> FormatAutoSettings(days[i].1).Ok?
      ensures r.Ok? ==> r.value.Keys == set i | 0 <= i < |days| :: days[i].0
      ensures r.Ok? && (forall i, j :: 0 <= i < j < |days| ==> days[i].0 != days[j].0) ==>
                forall i :: 0 <= i < |days| ==> r.value[days[i].0] == FormatAutoSettings(days[i].1).value
      decreases |days|
    {
      if days == [] then Ok(map[])
      else
        match FormatAutoSettings(days[0].1)
        case Err(e) => Err(e)
        case Ok(first) =>
          match CollectSchedules(days[1..])
          case Err(e) => Err(e)
          case Ok(rest) => Ok(rest[days[0].0 := first])
    }

    /** `autosettings`: the seven days Mon to Sun, Tue read from `Tues` and Thu from `Thur`. */
    function AutoSettings(): (r: Result<map<string, seq<string>>>)
      reads device
      ensures r.Ok? <==> forall i :: 0 <= i < |ScheduleKeys| ==>
                          ScheduleKeys[i] in device.shadow && device.shadow[ScheduleKeys[i]].Str?
      ensures r.Ok? ==> r.value.Keys == {"Mon", "Tue", "Wed", "Thu", "Fri", "Sat", "Sun"}
      ensures r.Ok? ==> forall d :: d in r.value ==> FormatAutoSettings(ScheduleKey(d)) == Ok(r.value[d])
    {
      WeekdaysTable();
      CollectSchedules(Weekdays)
    }
  }

  /** The shadow keys `autosettings` reads, in order. */
  const ScheduleKeys: seq<string> := ["Mon", "Tues", "Wed", "Thur", "Fri", "Sat", "Sun"]

  /** The table of days names seven distinct days, each read from its `ScheduleKey`. */
  lemma WeekdaysTable()
    ensures |Weekdays| == |ScheduleKeys|
    ensures forall i :: 0 <= i < |Weekdays| ==> Weekdays[i].1 == ScheduleKeys[i] == ScheduleKey(Weekdays[i].0)
    ensures forall i, j :: 0 <= i < j < |Weekdays| ==> Weekdays[i].0 != Weekdays[j].0
    ensures (set i | 0 <= i < |Weekdays| :: Weekdays[i].0) == {"Mon", "Tue", "Wed", "Thu", "Fri", "Sat", "Sun"}
  {
    var names := set i | 0 <= i < |Weekdays| :: Weekdays[i].0;
    assert Weekdays[0].0 in names && Weekdays[1].0 in names && Weekdays[2].0 in names && Weekdays[3].0 in names;
    assert Weekdays[4].0 in names && Weekdays[5].0 in names && Weekdays[6].0 in names;
  }

  /** Round trip: once the shadow holds the set-point `SetTemp(t)` published, `goal_temperature` is `t`. */
  lemma GoalTemperatureRoundTrip(thermostat: Thermostat, t: real)
    requires GoalTemperatureKey in thermostat.device.shadow
    requires thermostat.device.shadow[GoalTemperatureKey] == Num(EncodeTemp(t))
    ensures thermostat.GoalTemperature() == Ok(t)
  {
  }

  /** The conversions on sample raw values: 250 and 235 tenths, a set-point of 50. */
  lemma ConversionExamples(thermostat: Thermostat)
    ensures thermostat.device.Get(CurrentTemperature) == Some(Num(250.0)) ==> thermostat.Temperature() == Ok(25.0)
    ensures thermostat.device.Get(CurrentTemperature) == Some(Num(235.0)) ==> thermostat.Temperature() == Ok(23.5)
    ensures thermostat.device.Get(GoalTemperatureKey) == Some(Num(50.0)) ==> thermostat.GoalTemperature() == Ok(25.0)
    ensures EncodeTemp(25.0) == 50.0
  {
  }

  /** The day string given as an example beside `format_auto_settings`: six actions joined by commas. */
  const ExampleSchedule: string :=
    "04:50_043C" + "," + "08:00_030C" + "," + "17:00_043C" + "," + "20:00_030C" + "," + "20:00_030C" + "," + "20:00_030C"

  /** The six actions of that day string, in order. */
  const ExampleActions: seq<string> :=
    ["04:50_043C", "08:00_030C", "17:00_043C", "20:00_030C", "20:00_030C", "20:00_030C"]

  /** That day string splits into its six actions, in order. */
  lemma ScheduleExample()
    ensures Split(ExampleSchedule, ',') == ExampleActions
  {
    ExampleActionsJoin();
    SplitJoin(ExampleActions, ',');
  }

  /** The example's actions hold no comma and, joined by commas, give the example's day string. */
  lemma ExampleActionsJoin()
    ensures forall i :: 0 <= i < |ExampleActions| ==> ',' !in ExampleActions[i]
    ensures Join(ExampleActions, ',') == ExampleSchedule
  {
    var actions := ExampleActions;
    assert ExampleSchedule == actions[0] + "," + actions[1] + "," + actions[2] + "," + actions[3] + "," + actions[4] + "," + actions[5];
    assert Join(actions[5..], ',') == actions[5];
    assert Join(actions[4..], ',') == actions[4] + "," + actions[5];
    assert Join(actions[3..], ',') == actions[3] + "," + actions[4] + "," + actions[5];
    assert Join(actions[2..], ',') == actions[2] + "," + actions[3] + "," + actions[4] + "," + actions[5];
    assert Join(actions[1..], ',') == actions[1] + "," + actions[2] + "," + actions[3] + "," + actions[4] + "," + actions[5];
  }

  /** A two-action day string splits into its two actions. */
  lemma TwoActionExample()
    ensures Split("04:50_043C" + "," + "08:00_030C", ',') == ["04:50_043C", "08:00_030C"]
  {
    var actions := ["04:50_043C", "08:00_030C"];
    assert forall i :: 0 <= i < |actions| ==> ',' !in actions[i];
    assert Join(actions[1..], ',') == actions[1];
    SplitJoin(actions, ',');
  }
}
