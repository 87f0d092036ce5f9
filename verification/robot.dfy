/** The robot registry's `_initial_robot`: projects a robot and its
    teleoperation service into the robot-info record the orchestrator
    starts from, filtering the service's rooms by the robot's capabilities
    and cameras, and registers it. */
module Robot {
  import opened Common
  import JsMap

  datatype RoomData = RoomData(roomId: string, roomName: string, roomType: string, maxUsers: int, role: Option<string>)

  /** A value of the service's rooms object: a room record, or a falsy
      value (null, undefined, empty string). */
  datatype RoomEntry = RoomRecord(data: RoomData) | Falsy

  datatype Camera = Camera(cameraId: string, cameraName: string, cameraType: Option<string>, cameraUrl: Option<string>)

  datatype RobotData = RobotData(
    robotId: string,
    serviceId: JsString,
    robotName: JsString,
    robotType: JsString,
    status: Option<string>,
    cameraNum: int,
    pclSupport: bool,
    audioSupport: bool,
    control: JsString,
    skills: seq<string>,
    camera: Option<seq<Camera>>)

  /** `rooms` is the service's `rooms` member; its own `rooms` member is the
      rooms object, entries in order. */
  datatype ServiceData = ServiceData(
    serviceId: string,
    token: string,
    userId: Option<string>,
    iceServer: IceServer,
    rooms: Option<Option<seq<(string, RoomEntry)>>>,
    status: Option<string>)

  datatype RoboInfo = RoboInfo(
    id: string,
    kind: JsString,
    name: JsString,
    service: JsString,
    rooms: Option<seq<(string, RoomData)>>,
    status: Option<string>,
    iceServers: seq<IceServer>,
    token: string,
    camera: seq<Camera>,
    cameraNum: int,
    skills: seq<string>,
    pclSupport: bool,
    audioSupport: bool,
    control: JsString)

  datatype AllRobotInfo = AllRobotInfo(robots: seq<(string, RoboInfo)>, count: int)

  /** The outcome: the registry, the record returned (None for
      `undefined`), and the robot argument as `_initial_robot` leaves it. */
  datatype Registered = Registered(registry: Option<AllRobotInfo>, robo: Option<RoboInfo>, robot: RobotData)

  const ActiveStatus := "active"
  const StoppedStatus := "stopped"
  const PointCloudRoom := "point_cloud"
  const TestVideoUrl := "https://www.w3schools.com/html/mov_bbb.mp4"

  /** The two test cameras that replace the robot's own camera list. */
  function TestCameras(): (r: seq<Camera>)
    ensures |r| == 2 && r[0].cameraName == "bottom_camera" && r[1].cameraName == "top_camera"
  {
    [Camera("test_camera_1", "bottom_camera", Some("video"), Some(TestVideoUrl)),
     Camera("test_camera_2", "top_camera", Some("video"), Some(TestVideoUrl))]
  }

  /** The camera names the room filter accepts: the non-empty names of the
      camera list. */
  function CameraNames(cameras: seq<Camera>): (r: set<string>)
    ensures forall n :: n in r <==> n != "" && exists i :: 0 <= i < |cameras| && cameras[i].cameraName == n
  {
    set i | 0 <= i < |cameras| && cameras[i].cameraName != "" :: cameras[i].cameraName
  }

  /** The status projection: "stopped" unless the service is active, else
      the robot's status lower-cased (absent if the robot has none). */
  function ProjectStatus(robot: RobotData, service: ServiceData): (r: Option<string>)
    ensures service.status != Some(ActiveStatus) ==> r == Some(StoppedStatus)
    ensures service.status == Some(ActiveStatus) ==>
      r.Some? == robot.status.Some? && (r.Some? ==> r.value == Lower(robot.status.value))
  {
    if service.status != Some(ActiveStatus) then Some(StoppedStatus)
    else if robot.status.Some? then Some(Lower(robot.status.value)) else None
  }

  /** The room filter's verdict, one `else if` test after another: an audio
      room on a robot without audio support fails; failing that, a room
      named "point_cloud" on a robot without point-cloud support fails;
      failing that, a video room fails unless a camera has its name. A room
      that passes one test still meets the next. */
  predicate RoomValid(robot: RobotData, cameras: set<string>, room: RoomData)
  {
    if room.roomType == "audio" && !robot.audioSupport then false
    else if room.roomName == PointCloudRoom && !robot.pclSupport then false
    else if room.roomType == "video" then room.roomName in cameras
    else true
  }

  /** The chain as three independent requirements, each of which a kept
      room meets. */
  lemma RoomValidRequirements(robot: RobotData, cameras: set<string>, room: RoomData)
    ensures RoomValid(robot, cameras, room) <==>
      && (room.roomType == "audio" ==> robot.audioSupport)
      && (room.roomName == PointCloudRoom ==> robot.pclSupport)
      && (room.roomType == "video" ==> room.roomName in cameras)
  {
  }

  /** Walks the rooms object in order, skipping falsy entries and rooms
      that fail the filter, and sets each kept room under its key. */
  function FilterRooms(robot: RobotData, cameras: set<string>, rooms: seq<(string, RoomEntry)>, acc: seq<(string, RoomData)>): (r: seq<(string, RoomData)>)
    ensures JsMap.UniqueKeys(acc) ==> JsMap.UniqueKeys(r)
    decreases |rooms|
  {
    if rooms == [] then acc
    else
      var (key, entry) := rooms[0];
      var acc1 := if entry.RoomRecord? && RoomValid(robot, cameras, entry.data) then JsMap.Set(acc, key, entry.data) else acc;
      FilterRooms(robot, cameras, rooms[1..], acc1)
  }

  /** With distinct keys (as an object's keys are), a room is kept under
      its key exactly when its entry is a room record that passes the
      filter. */
  lemma {:induction false} FilterRoomsKeeps(robot: RobotData, cameras: set<string>, rooms: seq<(string, RoomEntry)>, acc: seq<(string, RoomData)>, key: string)
    requires JsMap.UniqueKeys(rooms)
    requires forall i :: 0 <= i < |rooms| ==> rooms[i].0 !in JsMap.Keys(acc)
    ensures forall i :: 0 <= i < |rooms| && rooms[i].0 == key ==>
      JsMap.Get(FilterRooms(robot, cameras, rooms, acc), key) ==
        (if rooms[i].1.RoomRecord? && RoomValid(robot, cameras, rooms[i].1.data) then Some(rooms[i].1.data) else None)
    ensures (forall i :: 0 <= i < |rooms| ==> rooms[i].0 != key) ==>
      JsMap.Get(FilterRooms(robot, cameras, rooms, acc), key) == JsMap.Get(acc, key)
    decreases |rooms|
  {
    if rooms != [] {
      var (k0, entry) := rooms[0];
      var keep := entry.RoomRecord? && RoomValid(robot, cameras, entry.data);
      var acc1 := if keep then JsMap.Set(acc, k0, entry.data) else acc;
      if keep {
        forall k' { JsMap.SetGet(acc, k0, entry.data, k'); }
      }
      assert forall i :: 0 <= i < |rooms[1..]| ==> rooms[1..][i] == rooms[i + 1];
      forall i | 0 <= i < |rooms[1..]| ensures rooms[1..][i].0 !in JsMap.Keys(acc1) {
        assert rooms[i + 1].0 != k0;
      }
      FilterRoomsKeeps(robot, cameras, rooms[1..], acc1, key);
      if key == k0 {
        assert forall i :: 1 <= i < |rooms| ==> rooms[i].0 != key;
        assert JsMap.Get(acc, key).None?;
      }
    }
  }

  /** The record `_initial_robot` builds. */
  function RoboRecord(robot: RobotData, service: ServiceData, rooms: seq<(string, RoomData)>): RoboInfo
  {
    RoboInfo(
      robot.robotId, robot.robotType, robot.robotName, robot.serviceId, Some(rooms),
      ProjectStatus(robot, service), [service.iceServer], service.token,
      TestCameras(), if robot.camera.Some? then |robot.camera.value| else 0,
      robot.skills, robot.pclSupport, robot.audioSupport, robot.control)
  }

  /** `_initial_robot(robot, service)`. Without a rooms object nothing is
      registered and the result is undefined. Otherwise the robot's cameras
      become the two test cameras, the rooms are filtered against their
      names, and the record is set under the robot id in the registry
      (created empty if absent), whose count grows by one on every call.
      The record's camera count is the length of the original camera
      list. */
  function InitialRobot(registry: Option<AllRobotInfo>, robot: RobotData, service: ServiceData): (r: Registered)
    ensures (service.rooms.None? || service.rooms.value.None?) ==> r == Registered(registry, None, robot)
    ensures service.rooms.Some? && service.rooms.value.Some? ==>
      && r.robo.Some?
      && r.robot == robot.(camera := Some(TestCameras()), cameraNum := 2)
      && r.registry.Some?
      && r.registry.value.count == (if registry.Some? then registry.value.count else 0) + 1
      && JsMap.Get(r.registry.value.robots, robot.robotId) == r.robo
      && r.robo.value.id == robot.robotId
      && r.robo.value.status == ProjectStatus(robot, service)
      && r.robo.value.cameraNum == (if robot.camera.Some? then |robot.camera.value| else 0)
      && r.robo.value.iceServers == [service.iceServer] && r.robo.value.token == service.token
      && r.robo.value.rooms == Some(FilterRooms(robot, CameraNames(TestCameras()), service.rooms.value.value, []))
    ensures service.rooms.Some? && service.rooms.value.Some? ==>
      forall id :: id != robot.robotId ==>
        JsMap.Get(r.registry.value.robots, id) == (if registry.Some? then JsMap.Get(registry.value.robots, id) else None)
  {
    if service.rooms.None? || service.rooms.value.None? then Registered(registry, None, robot)
    else
      var robot1 := robot.(camera := Some(TestCameras()), cameraNum := 2);
      var rooms := FilterRooms(robot, CameraNames(TestCameras()), service.rooms.value.value, []);
      var robo := RoboRecord(robot, service, rooms);
      var info := if registry.Some? then registry.value else AllRobotInfo([], 0);
      var robots := JsMap.Set(info.robots, robot.robotId, robo);
      forall id { JsMap.SetGet(info.robots, robot.robotId, robo, id); }
      Registered(Some(AllRobotInfo(robots, info.count + 1)), Some(robo), robot1)
  }

  /** Only the two test camera names let a video room through, whatever
      cameras the robot reports; a video room named "point_cloud" is
      therefore dropped even on a robot with point-cloud support. */
  lemma VideoRoomsNeedTestCamera(robot: RobotData, room: RoomData)
    requires room.roomType == "video"
    ensures RoomValid(robot, CameraNames(TestCameras()), room) <==>
      room.roomName == "bottom_camera" || room.roomName == "top_camera"
    ensures room.roomName == PointCloudRoom ==> !RoomValid(robot, CameraNames(TestCameras()), room)
  {
    var cams := TestCameras();
    assert cams[0].cameraName == "bottom_camera" && cams[1].cameraName == "top_camera";
  }

  /** Registering the same robot again replaces its record but still counts
      one more, so the count can exceed the number of robots. */
  lemma ReRegisterCounts(registry: Option<AllRobotInfo>, robot: RobotData, service: ServiceData)
    requires service.rooms.Some? && service.rooms.value.Some?
    ensures var once := InitialRobot(registry, robot, service);
      var twice := InitialRobot(once.registry, robot, service);
      && twice.registry.value.count == once.registry.value.count + 1
      && JsMap.Keys(twice.registry.value.robots) == JsMap.Keys(once.registry.value.robots)
  {
    var once := InitialRobot(registry, robot, service);
    assert robot.robotId in JsMap.Keys(once.registry.value.robots);
  }
}
