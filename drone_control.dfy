/**
 * The drone link session: a controller that holds at most one vehicle link,
 * refuses every command while it is not connected, and builds the mission
 * command list from the home position and a list of waypoints; plus the
 * module-level functions that forward to one lazily created shared
 * controller. The vehicle is an abstract record of the attributes these
 * functions read and set; the autopilot library's `connect` is a function
 * from connection string and timeout to the outcome of the attempt.
 */
module DroneControl {
  import opened Wrappers

  /** `global_relative_frame`: latitude and longitude in degrees, altitude in metres above home. */
  datatype Location = Location(lat: real, lon: real, alt: real)

  datatype Battery = Battery(voltage: real, level: real, current: real)

  datatype HomeLocation = HomeLocation(lat: real, lon: real)

  /**
   * A mission item as `upload_mission` adds it: frame, command, the hold
   * time (its first parameter) and the target; the remaining fields are 0.
   */
  datatype MissionCommand = MissionCommand(frame: int, command: int, holdTime: real, lat: real, lon: real, alt: real)

  /** The MAVLink numbers of the frame and the command every mission item uses. */
  const MAV_FRAME_GLOBAL_RELATIVE_ALT: int := 3
  const MAV_CMD_NAV_WAYPOINT: int := 16

  /**
   * The vehicle as the controller sees it. `mode` is the flight mode last
   * commanded; `commands` is the local mission list and `mission` the list
   * last uploaded to the autopilot; `gotoTarget` and `takeoffTarget` record
   * the last `simple_goto` and `simple_takeoff`; `open` is false once closed.
   */
  datatype Vehicle = Vehicle(
    mode: string,
    armed: bool,
    airspeed: real,
    groundspeed: real,
    location: Location,
    battery: Battery,
    home: HomeLocation,
    commands: seq<MissionCommand>,
    mission: seq<MissionCommand>,
    gotoTarget: Option<Location>,
    takeoffTarget: Option<real>,
    open: bool)

  /** What one `connect(connection_string, timeout)` attempt yields. */
  datatype LinkResult = Linked(vehicle: Vehicle) | LinkFailed(error: string)

  /** A telemetry reading, or the error dict a getter returns. */
  datatype Report<T> = Reading(value: T) | Refused(error: string)

  const NotConnectedError: string := "Not connected to drone"

  /** What a command returns, or the key whose absence makes `wp[key]` raise a KeyError. */
  datatype Status = Done(ok: bool) | KeyMissing(key: string)

  /** A waypoint dict: "lat", "lon" and "alt", and optionally "delay". */
  type Waypoint = map<string, real>

  /** `if connection_string:` — given and non-empty. */
  predicate IsSet(connectionString: Option<string>)
  {
    connectionString.Some? && connectionString.value != ""
  }

  // ---------------------------------------------------------------------
  // The mission command list

  /** The item for one waypoint, or the first of "lat", "lon", "alt" it lacks. */
  function WaypointCommand(wp: Waypoint): (r: Result<MissionCommand, string>)
    ensures r.Ok? <==> "lat" in wp && "lon" in wp && "alt" in wp
    ensures r.Err? ==> r.error !in wp && r.error in {"lat", "lon", "alt"}
    ensures r.Err? ==> r.error == if "lat" !in wp then "lat" else if "lon" !in wp then "lon" else "alt"
    ensures r.Ok? ==> r.value.lat == wp["lat"] && r.value.lon == wp["lon"] && r.value.alt == wp["alt"]
    ensures r.Ok? ==> r.value.holdTime == if "delay" in wp then wp["delay"] else 0.0
  {
    var delay := if "delay" in wp then wp["delay"] else 0.0;
    if "lat" !in wp then Err("lat")
    else if "lon" !in wp then Err("lon")
    else if "alt" !in wp then Err("alt")
    else Ok(MissionCommand(MAV_FRAME_GLOBAL_RELATIVE_ALT, MAV_CMD_NAV_WAYPOINT, delay, wp["lat"], wp["lon"], wp["alt"]))
  }

  /** The first item: the home position at altitude 0. */
  function HomeCommand(home: HomeLocation): MissionCommand
  {
    MissionCommand(MAV_FRAME_GLOBAL_RELATIVE_ALT, MAV_CMD_NAV_WAYPOINT, 0.0, home.lat, home.lon, 0.0)
  }

  /** The items added for the waypoints before the loop stops, and the key it stopped on. */
  datatype Built = Built(commands: seq<MissionCommand>, missing: Option<string>)

  function BuildCommands(waypoints: seq<Waypoint>): Built
  {
    if waypoints == [] then Built([], None)
    else match WaypointCommand(waypoints[0])
      case Err(key) => Built([], Some(key))
      case Ok(c) =>
        var rest := BuildCommands(waypoints[1..]);
        Built([c] + rest.commands, rest.missing)
  }

  /** The whole list `upload_mission` builds: the home item, then one item per waypoint. */
  function MissionCommands(home: HomeLocation, waypoints: seq<Waypoint>): Built
  {
    var b := BuildCommands(waypoints);
    Built([HomeCommand(home)] + b.commands, b.missing)
  }

  /** When every waypoint is complete, there is one item per waypoint, in order. */
  lemma {:induction false} BuildCommandsComplete(waypoints: seq<Waypoint>)
    ensures BuildCommands(waypoints).missing.None? <==>
      forall i :: 0 <= i < |waypoints| ==> WaypointCommand(waypoints[i]).Ok?
    ensures BuildCommands(waypoints).missing.None? ==>
      && |BuildCommands(waypoints).commands| == |waypoints|
      && forall i :: 0 <= i < |waypoints| ==>
           BuildCommands(waypoints).commands[i] == WaypointCommand(waypoints[i]).value
  {
    if waypoints != [] {
      var tail := waypoints[1..];
      BuildCommandsComplete(tail);
      assert forall i :: 1 <= i < |waypoints| ==> waypoints[i] == tail[i - 1];
    }
  }

  /** At the first incomplete waypoint the loop stops with that waypoint's missing key. */
  lemma {:induction false} BuildCommandsStops(waypoints: seq<Waypoint>, n: nat)
    requires n < |waypoints|
    requires forall j :: 0 <= j < n ==> WaypointCommand(waypoints[j]).Ok?
    requires WaypointCommand(waypoints[n]).Err?
    ensures BuildCommands(waypoints).missing == Some(WaypointCommand(waypoints[n]).error)
    ensures |BuildCommands(waypoints).commands| == n
    ensures forall j :: 0 <= j < n ==> BuildCommands(waypoints).commands[j] == WaypointCommand(waypoints[j]).value
  {
    if n > 0 {
      var tail := waypoints[1..];
      assert forall j :: 0 <= j < n - 1 ==> tail[j] == waypoints[j + 1];
      BuildCommandsStops(tail, n - 1);
    }
  }

  /**
   * With complete waypoints the list has one item more than there are
   * waypoints: the home position at altitude 0, then each waypoint's target
   * and hold time (its "delay", or 0), in input order.
   */
  lemma MissionLayout(home: HomeLocation, waypoints: seq<Waypoint>)
    requires forall i :: 0 <= i < |waypoints| ==> WaypointCommand(waypoints[i]).Ok?
    ensures var m := MissionCommands(home, waypoints);
      && m.missing.None?
      && |m.commands| == |waypoints| + 1
      && m.commands[0] == MissionCommand(MAV_FRAME_GLOBAL_RELATIVE_ALT, MAV_CMD_NAV_WAYPOINT, 0.0, home.lat, home.lon, 0.0)
      && forall i :: 0 <= i < |waypoints| ==>
           var c := m.commands[i + 1];
           && c.frame == MAV_FRAME_GLOBAL_RELATIVE_ALT && c.command == MAV_CMD_NAV_WAYPOINT
           && "lat" in waypoints[i] && "lon" in waypoints[i] && "alt" in waypoints[i]
           && c.lat == waypoints[i]["lat"] && c.lon == waypoints[i]["lon"] && c.alt == waypoints[i]["alt"]
           && c.holdTime == (if "delay" in waypoints[i] then waypoints[i]["delay"] else 0.0)
  {
    BuildCommandsComplete(waypoints);
  }

  // ---------------------------------------------------------------------
  // The controller

  class DroneController {
    var vehicle: Option<Vehicle>
    var connectionString: Option<string>
    var connected: bool

    /** The controller only calls itself connected while it holds a vehicle reached through a set connection string. */
    ghost predicate Valid()
      reads this
    {
      connected ==> vehicle.Some? && IsSet(connectionString)
    }

    /** `_ensure_connected`: a vehicle is held and the link is up. */
    predicate IsConnected()
      reads this
    {
      vehicle.Some? && connected
    }

    /** The link flag and the stored connection string are as they were. */
    twostate predicate LinkKept()
      reads this
    {
      connected == old(connected) && connectionString == old(connectionString)
    }

    /**
     * A flight-mode command (`land`, `return_to_launch`): accepted exactly when
     * connected, and then only the mode changes.
     */
    twostate predicate ModeCommanded(mode: string, ok: bool)
      reads this
    {
      && LinkKept()
      && ok == old(IsConnected())
      && vehicle == if ok then Some(old(vehicle).value.(mode := mode)) else old(vehicle)
    }

    /** What `arm_and_takeoff` leaves behind: GUIDED, then armed, then the takeoff, up to the first step not confirmed. */
    twostate predicate TookOff(targetAltitude: real, modeConfirmed: bool, armConfirmed: bool, ok: bool)
      reads this
    {
      && LinkKept()
      && ok == (old(IsConnected()) && modeConfirmed && armConfirmed)
      && (!old(IsConnected()) ==> vehicle == old(vehicle))
      && (old(IsConnected()) ==>
            var v := old(vehicle).value.(mode := "GUIDED");
            vehicle == Some(
              if !modeConfirmed then v
              else if !armConfirmed then v.(armed := true)
              else v.(armed := true, takeoffTarget := Some(targetAltitude))))
    }

    /** What `goto_location` leaves behind: the target is sent once the vehicle is in GUIDED mode. */
    twostate predicate WentTo(latitude: real, longitude: real, altitude: real, modeConfirmed: bool, ok: bool)
      reads this
    {
      && LinkKept()
      && (!old(IsConnected()) ==> !ok && vehicle == old(vehicle))
      && (old(IsConnected()) ==>
            var v := old(vehicle).value;
            var target := Location(latitude, longitude, altitude);
            if v.mode == "GUIDED" then ok && vehicle == Some(v.(gotoTarget := Some(target)))
            else if !modeConfirmed then !ok && vehicle == Some(v.(mode := "GUIDED"))
            else ok && vehicle == Some(v.(mode := "GUIDED", gotoTarget := Some(target))))
    }

    /** A new controller holds no vehicle and is not connected. */
    constructor (connectionString: Option<string> := None)
      ensures Valid()
      ensures vehicle == None && this.connectionString == connectionString && !connected
      ensures !IsConnected()
    {
      vehicle := None;
      this.connectionString := connectionString;
      connected := false;
    }

    /**
     * `connect_to_drone`: a given connection string replaces the stored one;
     * with none stored the call fails without trying; otherwise the outcome
     * of the attempt decides, and a failed attempt leaves the controller
     * disconnected with its old vehicle.
     */
    method ConnectToDrone(connectionString: Option<string>, timeout: int, connect: (string, int) -> LinkResult)
      returns (ok: bool)
      requires Valid()
      modifies this
      ensures Valid()
      ensures this.connectionString == if IsSet(connectionString) then connectionString else old(this.connectionString)
      ensures !IsSet(this.connectionString) ==> !ok && vehicle == old(vehicle) && connected == old(connected)
      ensures IsSet(this.connectionString) ==>
        match connect(this.connectionString.value, timeout)
        case Linked(v) => ok && vehicle == Some(v) && connected
        case LinkFailed(_) => !ok && !connected && vehicle == old(vehicle)
      ensures ok <==> IsConnected()
      ensures !ok ==> !connected
    {
      if IsSet(connectionString) {
        this.connectionString := connectionString;
      }
      if !IsSet(this.connectionString) {
        return false;
      }
      match connect(this.connectionString.value, timeout)
      case Linked(v) =>
        vehicle := Some(v);
        connected := true;
        return true;
      case LinkFailed(_) =>
        connected := false;
        return false;
    }

    /** `disconnect`: closes the link only when connected; the vehicle is kept. */
    method Disconnect()
      requires Valid()
      modifies this
      ensures Valid()
      ensures old(IsConnected()) ==> vehicle == Some(old(vehicle).value.(open := false)) && !connected
      ensures !old(IsConnected()) ==> vehicle == old(vehicle) && connected == old(connected)
      ensures connectionString == old(connectionString)
      ensures !IsConnected()
    {
      if vehicle.Some? && connected {
        vehicle := Some(vehicle.value.(open := false));
        connected := false;
      }
    }

    /**
     * `arm_and_takeoff`. `modeConfirmed` and `armConfirmed` say whether the
     * autopilot reported GUIDED mode and then the armed state before its
     * timeout ran out.
     */
    method ArmAndTakeoff(targetAltitude: real, modeConfirmed: bool, armConfirmed: bool) returns (ok: bool)
      requires Valid()
      modifies this
      ensures Valid()
      ensures TookOff(targetAltitude, modeConfirmed, armConfirmed, ok)
    {
      if !IsConnected() {
        return false;
      }
      vehicle := Some(vehicle.value.(mode := "GUIDED"));
      if !modeConfirmed {
        return false;
      }
      vehicle := Some(vehicle.value.(armed := true));
      if !armConfirmed {
        return false;
      }
      vehicle := Some(vehicle.value.(takeoffTarget := Some(targetAltitude)));
      return true;
    }

    /** `land`: switches to LAND mode. */
    method Land() returns (ok: bool)
      requires Valid()
      modifies this
      ensures Valid()
      ensures ModeCommanded("LAND", ok)
    {
      if !IsConnected() {
        return false;
      }
      vehicle := Some(vehicle.value.(mode := "LAND"));
      return true;
    }

    /** `return_to_launch`: switches to RTL mode. */
    method ReturnToLaunch() returns (ok: bool)
      requires Valid()
      modifies this
      ensures Valid()
      ensures ModeCommanded("RTL", ok)
    {
      if !IsConnected() {
        return false;
      }
      vehicle := Some(vehicle.value.(mode := "RTL"));
      return true;
    }

    /**
     * `goto_location`: outside GUIDED mode it first switches to GUIDED and
     * fails unless `modeConfirmed` (the autopilot reported the mode in time).
     */
    method GotoLocation(latitude: real, longitude: real, altitude: real, modeConfirmed: bool) returns (ok: bool)
      requires Valid()
      modifies this
      ensures Valid()
      ensures WentTo(latitude, longitude, altitude, modeConfirmed, ok)
    {
      if !IsConnected() {
        return false;
      }
      if vehicle.value.mode != "GUIDED" {
        vehicle := Some(vehicle.value.(mode := "GUIDED"));
        if !modeConfirmed {
          return false;
        }
      }
      vehicle := Some(vehicle.value.(gotoTarget := Some(Location(latitude, longitude, altitude))));
      return true;
    }

    /** `get_current_location`. */
    method GetCurrentLocation() returns (r: Report<Location>)
      ensures r == if IsConnected() then Reading(vehicle.value.location) else Refused(NotConnectedError)
    {
      if !IsConnected() {
        return Refused(NotConnectedError);
      }
      return Reading(vehicle.value.location);
    }

    /** `get_battery_status`. */
    method GetBatteryStatus() returns (r: Report<Battery>)
      ensures r == if IsConnected() then Reading(vehicle.value.battery) else Refused(NotConnectedError)
    {
      if !IsConnected() {
        return Refused(NotConnectedError);
      }
      return Reading(vehicle.value.battery);
    }

    /** `get_airspeed`: -1.0 when not connected. */
    method GetAirspeed() returns (speed: real)
      ensures speed == if IsConnected() then vehicle.value.airspeed else -1.0
    {
      if !IsConnected() {
        return -1.0;
      }
      return vehicle.value.airspeed;
    }

    /** `get_groundspeed`: -1.0 when not connected. */
    method GetGroundspeed() returns (speed: real)
      ensures speed == if IsConnected() then vehicle.value.groundspeed else -1.0
    {
      if !IsConnected() {
        return -1.0;
      }
      return vehicle.value.groundspeed;
    }

    /**
     * `upload_mission`: clears the local list, adds the home item and one item
     * per waypoint, then uploads the list. A waypoint without "lat", "lon" or
     * "alt" raises a KeyError part-way: the local list then holds the items
     * added so far and nothing is uploaded.
     */
    method UploadMission(waypoints: seq<Waypoint>) returns (s: Status)
      requires Valid()
      modifies this
      ensures Valid()
      ensures LinkKept()
      ensures !old(IsConnected()) ==> s == Done(false) && vehicle == old(vehicle)
      ensures old(IsConnected()) ==>
        var v := old(vehicle).value;
        var m := MissionCommands(v.home, waypoints);
        if m.missing.Some? then s == KeyMissing(m.missing.value) && vehicle == Some(v.(commands := m.commands))
        else s == Done(true) && vehicle == Some(v.(commands := m.commands, mission := m.commands))
    {
      if !IsConnected() {
        return Done(false);
      }
      ghost var v0 := vehicle.value;
      ghost var m := MissionCommands(v0.home, waypoints);
      vehicle := Some(vehicle.value.(commands := []));
      vehicle := Some(vehicle.value.(commands := vehicle.value.commands + [HomeCommand(vehicle.value.home)]));
      ghost var added: seq<MissionCommand> := [];
      assert vehicle.value.commands == [HomeCommand(v0.home)] + added;
      for i := 0 to |waypoints|
        invariant connected == old(connected) && connectionString == old(connectionString)
        invariant vehicle == Some(v0.(commands := [HomeCommand(v0.home)] + added))
        invariant m.missing == BuildCommands(waypoints[i..]).missing
        invariant m.commands == [HomeCommand(v0.home)] + added + BuildCommands(waypoints[i..]).commands
      {
        var wp := waypoints[i];
        ghost var rest := BuildCommands(waypoints[i..]);
        assert waypoints[i..][0] == wp && waypoints[i..][1..] == waypoints[i + 1..];
        var delay := if "delay" in wp then wp["delay"] else 0.0;
        if "lat" !in wp || "lon" !in wp || "alt" !in wp {
          ghost var key := WaypointCommand(wp).error;
          assert rest == Built([], Some(key));
          assert m.commands == [HomeCommand(v0.home)] + added;
          if "lat" !in wp {
            return KeyMissing("lat");
          }
          if "lon" !in wp {
            return KeyMissing("lon");
          }
          return KeyMissing("alt");
        }
        var c := MissionCommand(MAV_FRAME_GLOBAL_RELATIVE_ALT, MAV_CMD_NAV_WAYPOINT, delay, wp["lat"], wp["lon"], wp["alt"]);
        assert rest.commands == [c] + BuildCommands(waypoints[i + 1..]).commands;
        vehicle := Some(vehicle.value.(commands := vehicle.value.commands + [c]));
        assert [HomeCommand(v0.home)] + added + [c] == [HomeCommand(v0.home)] + (added + [c]);
        assert m.commands == [HomeCommand(v0.home)] + (added + [c]) + BuildCommands(waypoints[i + 1..]).commands;
        added := added + [c];
      }
      assert waypoints[|waypoints|..] == [];
      assert m.commands == [HomeCommand(v0.home)] + added;
      vehicle := Some(vehicle.value.(mission := vehicle.value.commands));
      return Done(true);
    }

    /** `execute_mission`: switches to AUTO; `modeConfirmed` says whether the autopilot reported it in time. */
    method ExecuteMission(modeConfirmed: bool) returns (ok: bool)
      requires Valid()
      modifies this
      ensures Valid()
      ensures LinkKept()
      ensures ok == (old(IsConnected()) && modeConfirmed)
      ensures old(IsConnected()) ==> vehicle == Some(old(vehicle).value.(mode := "AUTO"))
      ensures !old(IsConnected()) ==> vehicle == old(vehicle)
    {
      if !IsConnected() {
        return false;
      }
      vehicle := Some(vehicle.value.(mode := "AUTO"));
      return modeConfirmed;
    }

    /** `set_airspeed`. */
    method SetAirspeed(speed: real) returns (ok: bool)
      requires Valid()
      modifies this
      ensures Valid()
      ensures LinkKept()
      ensures ok == old(IsConnected())
      ensures ok ==> vehicle == Some(old(vehicle).value.(airspeed := speed))
      ensures !ok ==> vehicle == old(vehicle)
    {
      if !IsConnected() {
        return false;
      }
      vehicle := Some(vehicle.value.(airspeed := speed));
      return true;
    }
  }

  // ---------------------------------------------------------------------
  // The module-level functions

  /** The module's shared `_controller`, created by the first `connect_drone`, and the functions that use it. */
  class DroneModule {
    var controller: DroneController?

    ghost predicate Valid()
      reads this, controller
    {
      controller != null ==> controller.Valid()
    }

    constructor ()
      ensures Valid() && controller == null
    {
      controller := null;
    }

    /** `connect_drone`: creates the shared controller if there is none yet, then connects it. */
    method ConnectDrone(connectionString: string, timeout: int, connect: (string, int) -> LinkResult)
      returns (ok: bool)
      requires Valid()
      modifies this, controller
      ensures Valid() && controller != null
      ensures old(controller) != null ==> controller == old(controller)
      ensures old(controller) == null ==> fresh(controller)
      ensures controller.connectionString ==
        if connectionString != "" then Some(connectionString)
        else if old(controller) == null then None
        else old(controller.connectionString)
      ensures ok == (IsSet(controller.connectionString) && connect(controller.connectionString.value, timeout).Linked?)
      ensures ok <==> controller.IsConnected()
      ensures ok ==> controller.vehicle == Some(connect(controller.connectionString.value, timeout).vehicle)
      ensures !ok ==> !controller.connected
      ensures !ok && old(controller) == null ==> controller.vehicle == None
      ensures !ok && old(controller) != null ==> controller.vehicle == old(controller.vehicle)
    {
      if controller == null {
        controller := new DroneController();
      }
      ok := controller.ConnectToDrone(Some(connectionString), timeout, connect);
    }

    /** `disconnect_drone`. */
    method DisconnectDrone()
      requires Valid()
      modifies controller
      ensures Valid()
      ensures controller != null ==> !controller.IsConnected()
      ensures controller != null ==> controller.connectionString == old(controller.connectionString)
      ensures controller != null && old(controller.IsConnected()) ==>
        controller.vehicle == Some(old(controller.vehicle).value.(open := false)) && !controller.connected
      ensures controller != null && !old(controller.IsConnected()) ==>
        controller.vehicle == old(controller.vehicle) && controller.connected == old(controller.connected)
    {
      if controller != null {
        controller.Disconnect();
      }
    }

    /** `takeoff`. */
    method Takeoff(altitude: real, modeConfirmed: bool, armConfirmed: bool) returns (ok: bool)
      requires Valid()
      modifies controller
      ensures Valid()
      ensures controller == null ==> !ok
      ensures controller != null ==> controller.TookOff(altitude, modeConfirmed, armConfirmed, ok)
    {
      if controller != null {
        ok := controller.ArmAndTakeoff(altitude, modeConfirmed, armConfirmed);
        return;
      }
      return false;
    }

    /** `land`. */
    method Land() returns (ok: bool)
      requires Valid()
      modifies controller
      ensures Valid()
      ensures controller == null ==> !ok
      ensures controller != null ==> controller.ModeCommanded("LAND", ok)
    {
      if controller != null {
        ok := controller.Land();
        return;
      }
      return false;
    }

    /** `return_home`. */
    method ReturnHome() returns (ok: bool)
      requires Valid()
      modifies controller
      ensures Valid()
      ensures controller == null ==> !ok
      ensures controller != null ==> controller.ModeCommanded("RTL", ok)
    {
      if controller != null {
        ok := controller.ReturnToLaunch();
        return;
      }
      return false;
    }

    /** `fly_to`. */
    method FlyTo(lat: real, lon: real, alt: real, modeConfirmed: bool) returns (ok: bool)
      requires Valid()
      modifies controller
      ensures Valid()
      ensures controller == null ==> !ok
      ensures controller != null ==> controller.WentTo(lat, lon, alt, modeConfirmed, ok)
    {
      if controller != null {
        ok := controller.GotoLocation(lat, lon, alt, modeConfirmed);
        return;
      }
      return false;
    }

    /** `get_location`. */
    method GetLocation() returns (r: Report<Location>)
      ensures r == if controller != null && controller.IsConnected() then Reading(controller.vehicle.value.location)
                   else Refused(NotConnectedError)
    {
      if controller != null {
        r := controller.GetCurrentLocation();
        return;
      }
      return Refused(NotConnectedError);
    }

    /** `get_battery`. */
    method GetBattery() returns (r: Report<Battery>)
      ensures r == if controller != null && controller.IsConnected() then Reading(controller.vehicle.value.battery)
                   else Refused(NotConnectedError)
    {
      if controller != null {
        r := controller.GetBatteryStatus();
        return;
      }
      return Refused(NotConnectedError);
    }

    /**
     * `execute_mission_plan`: uploads the mission and starts it only when the
     * upload returned True; a KeyError from the upload passes through.
     */
    method ExecuteMissionPlan(waypoints: seq<Waypoint>, modeConfirmed: bool) returns (s: Status)
      requires Valid()
      modifies controller
      ensures Valid()
      ensures controller == null ==> s == Done(false)
      ensures controller != null ==> controller.LinkKept()
      ensures controller != null && !old(controller.IsConnected()) ==>
        s == Done(false) && controller.vehicle == old(controller.vehicle)
      ensures controller != null && old(controller.IsConnected()) ==>
        var v := old(controller.vehicle).value;
        var m := MissionCommands(v.home, waypoints);
        if m.missing.Some? then
          s == KeyMissing(m.missing.value) && controller.vehicle == Some(v.(commands := m.commands))
        else
          s == Done(modeConfirmed) &&
          controller.vehicle == Some(v.(commands := m.commands, mission := m.commands, mode := "AUTO"))
    {
      if controller != null {
        var uploaded := controller.UploadMission(waypoints);
        if uploaded.KeyMissing? {
          return uploaded;
        }
        if uploaded.ok {
          var ok := controller.ExecuteMission(modeConfirmed);
          return Done(ok);
        }
      }
      return Done(false);
    }
  }
}
