/** The robot vacuum: a priority chain that classifies the raw `working_status` field, and
    validated single-attribute commands. */
module Vacuum {
  import opened Wrappers
  import opened Device

  const CleanModeAuto: string := "AutoClean"
  const CleanModeEdge: string := "EdgeClean"
  const CleanModeSpot: string := "SpotClean"
  const CleanModeSingleRoom: string := "RoomClean"
  const CleanModeStop: string := "Standby"

  const FanDisabled: string := "Pause"
  const FanSpeedNormal: string := "Normal"
  const FanSpeedHigh: string := "Strong"
  const FanSpeeds: set<string> := {FanSpeedNormal, FanSpeedHigh}

  const ChargeModeReturning: string := "BackCharging"
  const ChargeModeCharging: string := "Charging"
  const ChargeModeDockCharging: string := "PileCharging"
  const ChargeModeDirectCharging: string := "DirCharging"
  const ChargeModeIdle: string := "Hibernating"

  const MopDisabled: string := "None"
  const MopSpeedLow: string := "Low"
  const MopSpeedNormal: string := "Default"
  const MopSpeedHigh: string := "High"
  const MopSpeeds: set<string> := {MopSpeedLow, MopSpeedNormal, MopSpeedHigh}

  const RobotError: string := "Malfunction"

  const CleaningStates: set<string> := {CleanModeAuto, CleanModeEdge, CleanModeSpot, CleanModeSingleRoom}
  const ChargingStates: set<string> := {ChargeModeCharging, ChargeModeDockCharging, ChargeModeDirectCharging}
  const DockedStates: set<string> := {ChargeModeIdle, ChargeModeCharging, ChargeModeDockCharging, ChargeModeDirectCharging}

  const WorkingStatus: string := "working_status"

  /** The seven values `state` can take. */
  const States: set<string> := {"unknown", "error", "cleaning", "docked", "returning", "paused", "idle"}

  /** The docked set is the charging set plus Hibernating, and the five mode groups that
      `state` tests are pairwise disjoint. */
  lemma ModeGroups()
    ensures DockedStates == ChargingStates + {ChargeModeIdle}
    ensures CleaningStates !! DockedStates
    ensures ChargeModeReturning !in CleaningStates + DockedStates
    ensures CleanModeStop !in CleaningStates + DockedStates + {ChargeModeReturning}
    ensures RobotError !in CleaningStates + DockedStates + {ChargeModeReturning, CleanModeStop}
    ensures FanDisabled !in FanSpeeds && MopDisabled !in MopSpeeds
  {
  }

  class CleanRobot {
    const device: BaseDevice

    constructor (device: BaseDevice)
      ensures this.device == device
    {
      this.device := device;
    }

    /** `current_mode`: the raw `working_status`, or None when the shadow lacks it. */
    function CurrentMode(): (r: Option<Value>)
      reads device
      ensures r.Some? <==> WorkingStatus in device.shadow
      ensures r.Some? ==> r.value == device.shadow[WorkingStatus]
    {
      device.Get(WorkingStatus)
    }

    /** Whether the current mode is a string in `modes` (None and numbers are in no set). */
    predicate ModeIn(modes: set<string>)
      reads device
    {
      match CurrentMode()
      case Some(Str(m)) => m in modes
      case _ => false
    }

    /** Whether the shadow's `working_status` is a string in `modes`. */
    predicate RawModeIn(modes: set<string>)
      reads device
    {
      WorkingStatus in device.shadow && device.shadow[WorkingStatus].Str?
      && device.shadow[WorkingStatus].s in modes
    }

    /** `is_cleaning`. */
    function IsCleaning(): (r: bool)
      reads device
      ensures r <==> RawModeIn(CleaningStates)
    {
      ModeIn(CleaningStates)
    }

    /** `is_docked`: charging, or hibernating on the dock. */
    function IsDocked(): (r: bool)
      reads device
      ensures r <==> RawModeIn(ChargingStates) || RawModeIn({ChargeModeIdle})
    {
      ModeIn(DockedStates)
    }

    /** `is_paused`. */
    function IsPaused(): (r: bool)
      reads device
      ensures r <==> RawModeIn({CleanModeStop})
    {
      CurrentMode() == Some(Str(CleanModeStop))
    }

    /** `is_returning`. */
    function IsReturning(): (r: bool)
      reads device
      ensures r <==> RawModeIn({ChargeModeReturning})
    {
      CurrentMode() == Some(Str(ChargeModeReturning))
    }

    /** `is_error`. */
    function IsError(): (r: bool)
      reads device
      ensures r <==> RawModeIn({RobotError})
    {
      CurrentMode() == Some(Str(RobotError))
    }

    /** `is_idle`: none of the five groups matches; true also when the mode is absent. */
    function IsIdle(): (r: bool)
      reads device
      ensures CurrentMode().None? ==> r
      ensures r <==> !(WorkingStatus in device.shadow && device.shadow[WorkingStatus].Str?
                       && device.shadow[WorkingStatus].s in CleaningStates + DockedStates
                          + {CleanModeStop, ChargeModeReturning, RobotError})
    {
      !(IsDocked() || IsCleaning() || IsPaused() || IsReturning() || IsError())
    }

    /** `state`: exactly one of seven values; since the tested groups are disjoint, each value
        other than `unknown` and `idle` holds exactly when its own predicate does. */
    function State(): (r: string)
      reads device
      ensures r in States
      ensures r == "unknown" <==> WorkingStatus !in device.shadow
      ensures r == "error" <==> IsError()
      ensures r == "cleaning" <==> IsCleaning()
      ensures r == "docked" <==> IsDocked()
      ensures r == "returning" <==> IsReturning()
      ensures r == "paused" <==> IsPaused()
      ensures r == "idle" <==> WorkingStatus in device.shadow && IsIdle()
    {
      ModeGroups();
      if CurrentMode() == None then "unknown"
      else if IsError() then "error"
      else if IsCleaning() then "cleaning"
      else if IsDocked() then "docked"
      else if IsReturning() then "returning"
      else if IsPaused() then "paused"
      else "idle"
    }

    /** `is_available`: both branches of the source's conditional give True. */
    function IsAvailable(): (r: bool)
      reads device
      ensures r
    {
      if device.Get("connected") == Some(Str("false")) then true else true
    }

    method TurnOn()
      modifies device`published
      ensures device.published == old(device.published) + [Message(WorkingStatus, Str(CleanModeAuto))]
    {
      device.PublishSingle(WorkingStatus, Str(CleanModeAuto));
    }

    method TurnOff()
      modifies device`published
      ensures device.published == old(device.published) + [Message(WorkingStatus, Str(ChargeModeReturning))]
    {
      device.PublishSingle(WorkingStatus, Str(ChargeModeReturning));
    }

    method ReturnHome()
      modifies device`published
      ensures device.published == old(device.published) + [Message(WorkingStatus, Str(ChargeModeReturning))]
    {
      TurnOff();
    }

    method Stop()
      modifies device`published
      ensures device.published == old(device.published) + [Message(WorkingStatus, Str(CleanModeStop))]
    {
      device.PublishSingle(WorkingStatus, Str(CleanModeStop));
    }

    /** `setFan`: an argument outside {Normal, Strong} fails and publishes nothing. */
    method SetFan(mode: string) returns (r: Outcome)
      modifies device`published
      ensures r.Pass? <==> mode in FanSpeeds
      ensures r.Fail? ==> r.error == InvalidValue(FanSpeeds) && device.published == old(device.published)
      ensures r.Pass? ==> device.published == old(device.published) + [Message("fan_status", Str(mode))]
    {
      if mode !in FanSpeeds {
        return Fail(InvalidValue(FanSpeeds));
      }
      device.PublishSingle("fan_status", Str(mode));
      r := Pass;
    }

    /** `setMop`: an argument outside {Low, Default, High} fails and publishes nothing. */
    method SetMop(mode: string) returns (r: Outcome)
      modifies device`published
      ensures r.Pass? <==> mode in MopSpeeds
      ensures r.Fail? ==> r.error == InvalidValue(MopSpeeds) && device.published == old(device.published)
      ensures r.Pass? ==> device.published == old(device.published) + [Message("water_level", Str(mode))]
    {
      if mode !in MopSpeeds {
        return Fail(InvalidValue(MopSpeeds));
      }
      device.PublishSingle("water_level", Str(mode));
      r := Pass;
    }
  }

  /** The priority chain on each named raw mode, whatever else the shadow holds. */
  lemma StateOfMode(robot: CleanRobot, mode: string)
    requires robot.device.shadow.Keys >= {WorkingStatus} && robot.device.shadow[WorkingStatus] == Str(mode)
    ensures mode == RobotError ==> robot.State() == "error"
    ensures mode in CleaningStates ==> robot.State() == "cleaning"
    ensures mode in DockedStates ==> robot.State() == "docked"
    ensures mode == ChargeModeReturning ==> robot.State() == "returning"
    ensures mode == CleanModeStop ==> robot.State() == "paused"
    ensures mode !in CleaningStates + DockedStates + {RobotError, ChargeModeReturning, CleanModeStop}
            ==> robot.State() == "idle"
  {
  }
}
