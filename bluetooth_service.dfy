/** The mock Bluetooth connection service of src/services/BluetoothService.ts:
    a registry of connected devices keyed by id, a scanning flag, and one
    heartbeat interval per successful connection.

    Simulated delays are no-ops, `Math.random()` is a parameter of type
    `UnitReal`, and `Date.now()` is an integer clock parameter. */
module Bluetooth {
  import opened Wrappers
  import opened Types

  /** A value `Math.random()` can return: a real in [0, 1). */
  type UnitReal = r: real | 0.0 <= r < 1.0 witness 0.0

  /** `connectToDevice` fails when its random draw is below this. */
  const ConnectFailureBelow: real := 0.1

  /** The exceptions the service throws, by the message each carries. */
  datatype ServiceError = ScanInProgress | AlreadyConnected | NotConnected | Unreachable
  {
    function Message(): (m: string) {
      match this
      case ScanInProgress => "已在扫描中"
      case AlreadyConnected => "设备已连接"
      case NotConnected => "设备未连接"
      case Unreachable => "连接失败：设备不可达"
    }
  }

  /** The random numbers one `sendCommand` call may draw, in the order it draws them. */
  datatype RandomDraws = RandomDraws(first: UnitReal, second: UnitReal, third: UnitReal)

  /** The value `sendCommand` resolves with. */
  datatype Reply =
    | DeviceStatus(battery: int, temperature: int, isOnline: bool, timestamp: int)
    | Acknowledged(success: bool, message: string)
    | Calibrated(success: bool, x: real, y: real, z: real)

  const LedUpdatedMessage: string := "LED状态已更新"
  const CommandDoneMessage: string := "命令执行成功"

  /** The reply to a command that reached a connected device, by command name. */
  function CommandReply(command: string, draws: RandomDraws, now: int): (r: Reply)
    ensures command == "get_status" ==>
      r.DeviceStatus? && 0 <= r.battery <= 99 && 20 <= r.temperature <= 59 &&
      r.isOnline && r.timestamp == now
    ensures command == "set_led" ==> r == Acknowledged(true, LedUpdatedMessage)
    ensures command == "calibrate" ==>
      r.Calibrated? && r.success &&
      0.0 <= r.x < 1.0 && 0.0 <= r.y < 1.0 && 0.0 <= r.z < 1.0
    ensures command != "get_status" && command != "set_led" && command != "calibrate" ==>
      r == Acknowledged(true, CommandDoneMessage)
  {
    match command
    case "get_status" =>
      DeviceStatus((draws.first * 100.0).Floor, (draws.second * 40.0).Floor + 20, true, now)
    case "set_led" => Acknowledged(true, LedUpdatedMessage)
    case "calibrate" => Calibrated(true, draws.first, draws.second, draws.third)
    case _ => Acknowledged(true, CommandDoneMessage)
  }

  /** The devices every completed scan reports. */
  function ScanFixtures(): (ds: seq<BluetoothDevice>)
    ensures |ds| == 4
    ensures forall i, j :: 0 <= i < j < |ds| ==> ds[i].id != ds[j].id
    ensures forall i :: 0 <= i < |ds| ==> !ds[i].isConnected && ds[i].rssi.Some?
  {
    [ BluetoothDevice("ar_glasses_001", "AR智能眼镜 Pro", "00:11:22:33:44:55", false, Some(-45)),
      BluetoothDevice("sensor_hub_001", "智能传感器集线器", "00:11:22:33:44:66", false, Some(-60)),
      BluetoothDevice("controller_001", "AR控制器", "00:11:22:33:44:77", false, Some(-35)),
      BluetoothDevice("beacon_001", "定位信标", "00:11:22:33:44:88", false, Some(-70)) ]
  }

  /** The command a heartbeat interval sends on every firing. */
  function HeartbeatCommand(deviceId: string, now: int): (c: HardwareCommand) {
    HardwareCommand(deviceId, "heartbeat", map[], now)
  }

  class BluetoothService {
    /** The connection registry: exactly the devices currently connected. */
    var connectedDevices: map<string, BluetoothDevice>
    var isScanning: bool
    /** The device ids whose heartbeat interval is still scheduled, one
        occurrence per interval: `startHeartbeat` never checks for an
        existing interval, and `disconnectDevice` and `cleanup` cancel none. */
    var heartbeats: multiset<string>

    /** Every registry entry is filed under its own id, is marked connected,
        and has a heartbeat interval still scheduled. */
    ghost predicate Valid()
      reads this
    {
      forall id :: id in connectedDevices ==>
        connectedDevices[id].id == id && connectedDevices[id].isConnected && id in heartbeats
    }

    constructor ()
      ensures Valid()
      ensures connectedDevices == map[] && !isScanning && heartbeats == multiset{}
    {
      connectedDevices := map[];
      isScanning := false;
      heartbeats := multiset{};
    }

    /** `scanDevices` up to its first `await`: the guard and the flag. */
    method ScanBegin() returns (r: Result<(), ServiceError>)
      modifies this`isScanning
      ensures isScanning
      ensures r == if old(isScanning) then Failure(ScanInProgress) else Success(())
    {
      if isScanning {
        return Failure(ScanInProgress);
      }
      isScanning := true;
      r := Success(());
    }

    /** `scanDevices` after its delay: the fixture list, and the `finally`
        that clears the flag. */
    method ScanEnd() returns (devices: seq<BluetoothDevice>)
      modifies this`isScanning
      ensures !isScanning
      ensures devices == ScanFixtures()
    {
      devices := ScanFixtures();
      isScanning := false;
    }

    /** `scanDevices` run to completion with nothing interleaved. */
    method ScanDevices() returns (r: Result<seq<BluetoothDevice>, ServiceError>)
      modifies this`isScanning
      ensures old(isScanning) ==> r == Failure(ScanInProgress) && isScanning
      ensures !old(isScanning) ==> r == Success(ScanFixtures()) && !isScanning
    {
      var started := ScanBegin();
      if started.Failure? {
        return Failure(started.error);
      }
      var devices := ScanEnd();
      r := Success(devices);
    }

    /** `connectToDevice`; `draw` is the value of `Math.random()` it tests. */
    method ConnectToDevice(device: BluetoothDevice, draw: UnitReal) returns (r: Result<(), ServiceError>)
      requires Valid()
      modifies this`connectedDevices, this`heartbeats
      ensures Valid()
      ensures device.id in old(connectedDevices) ==>
        r == Failure(AlreadyConnected) &&
        connectedDevices == old(connectedDevices) && heartbeats == old(heartbeats)
      ensures device.id !in old(connectedDevices) && draw < ConnectFailureBelow ==>
        r == Failure(Unreachable) &&
        connectedDevices == old(connectedDevices) && heartbeats == old(heartbeats)
      ensures device.id !in old(connectedDevices) && draw >= ConnectFailureBelow ==>
        r == Success(()) &&
        connectedDevices == old(connectedDevices)[device.id := device.(isConnected := true)] &&
        heartbeats == old(heartbeats) + multiset{device.id}
    {
      if device.id in connectedDevices {
        return Failure(AlreadyConnected);
      }
      if draw < ConnectFailureBelow {
        return Failure(Unreachable);
      }
      connectedDevices := connectedDevices[device.id := device.(isConnected := true)];
      heartbeats := heartbeats + multiset{device.id};
      r := Success(());
    }

    /** `disconnectDevice`: removes the entry; the device's heartbeat
        interval stays scheduled until its next firing. */
    method DisconnectDevice(deviceId: string) returns (r: Result<(), ServiceError>)
      requires Valid()
      modifies this`connectedDevices
      ensures Valid()
      ensures deviceId !in old(connectedDevices) ==>
        r == Failure(NotConnected) && connectedDevices == old(connectedDevices)
      ensures deviceId in old(connectedDevices) ==>
        r == Success(()) && connectedDevices == old(connectedDevices) - {deviceId}
    {
      if deviceId !in connectedDevices {
        return Failure(NotConnected);
      }
      connectedDevices := connectedDevices - {deviceId};
      r := Success(());
    }

    /** `sendCommand`: fails exactly when the device is not in the registry,
        and never changes the service. */
    method SendCommand(deviceId: string, command: HardwareCommand, draws: RandomDraws, now: int)
      returns (r: Result<Reply, ServiceError>)
      ensures deviceId !in connectedDevices ==> r == Failure(NotConnected)
      ensures deviceId in connectedDevices ==> r == Success(CommandReply(command.command, draws, now))
    {
      if deviceId !in connectedDevices {
        return Failure(NotConnected);
      }
      r := Success(CommandReply(command.command, draws, now));
    }

    /** `getConnectedDevices`: the registry's values, one per key. */
    method GetConnectedDevices() returns (devices: seq<BluetoothDevice>)
      requires Valid()
      ensures |devices| == |connectedDevices|
      ensures forall i :: 0 <= i < |devices| ==>
        devices[i].id in connectedDevices && connectedDevices[devices[i].id] == devices[i]
      ensures forall i, j :: 0 <= i < j < |devices| ==> devices[i].id != devices[j].id
      ensures forall id :: id in connectedDevices ==> connectedDevices[id] in devices
    {
      devices := [];
      var rest := connectedDevices.Keys;
      ghost var listed: set<string> := {};
      while rest != {}
        invariant listed !! rest && listed + rest == connectedDevices.Keys
        invariant |devices| == |listed|
        invariant forall i :: 0 <= i < |devices| ==>
          devices[i].id in listed && connectedDevices[devices[i].id] == devices[i]
        invariant forall i, j :: 0 <= i < j < |devices| ==> devices[i].id != devices[j].id
        invariant forall id :: id in listed ==> connectedDevices[id] in devices
        decreases rest
      {
        var id :| id in rest;
        devices := devices + [connectedDevices[id]];
        listed, rest := listed + {id}, rest - {id};
      }
    }

    /** `isDeviceConnected`. */
    method IsDeviceConnected(deviceId: string) returns (connected: bool)
      ensures connected <==> deviceId in connectedDevices
    {
      connected := deviceId in connectedDevices;
    }

    /** `getScanningStatus`. */
    method GetScanningStatus() returns (scanning: bool)
      ensures scanning == isScanning
    {
      scanning := isScanning;
    }

    /** One firing of the interval `startHeartbeat(deviceId)` scheduled;
        `running` is false when the interval clears itself. */
    method HeartbeatTick(deviceId: string, now: int) returns (running: bool)
      requires Valid()
      requires deviceId in heartbeats
      modifies this`connectedDevices, this`heartbeats
      ensures Valid()
      ensures deviceId !in old(connectedDevices) ==>
        !running && connectedDevices == old(connectedDevices) &&
        heartbeats == old(heartbeats) - multiset{deviceId}
      // The eviction path cannot be taken: the heartbeat command can only
      // fail when the device is absent, and the tick has just checked that
      // it is present.
      ensures deviceId in old(connectedDevices) ==>
        running && connectedDevices == old(connectedDevices) && heartbeats == old(heartbeats)
    {
      if deviceId !in connectedDevices {
        heartbeats := heartbeats - multiset{deviceId};
        return false;
      }
      var reply := SendCommand(deviceId, HeartbeatCommand(deviceId, now), RandomDraws(0.0, 0.0, 0.0), now);
      if reply.Failure? {
        // The source's catch evicts the device and clears the interval here.
        assert false;
      }
      running := true;
    }

    /** `cleanup`: empties the registry and clears the flag; scheduled
        heartbeat intervals are not cancelled. */
    method Cleanup()
      modifies this`connectedDevices, this`isScanning
      ensures Valid()
      ensures connectedDevices == map[] && !isScanning
    {
      connectedDevices := map[];
      isScanning := false;
    }
  }

  /** A second scan started while the first is in flight fails; once the
      first completes, a new scan succeeds. */
  method OverlappingScans()
    returns (first: Result<(), ServiceError>, second: Result<(), ServiceError>,
             found: seq<BluetoothDevice>, third: Result<seq<BluetoothDevice>, ServiceError>)
    ensures first == Success(()) && second == Failure(ScanInProgress)
    ensures second.error.Message() == "已在扫描中"
    ensures found == ScanFixtures() && third == Success(ScanFixtures())
  {
    var s := new BluetoothService();
    first := s.ScanBegin();
    second := s.ScanBegin();
    found := s.ScanEnd();
    third := s.ScanDevices();
  }

  /** Connecting one device twice with no disconnect in between: the second
      attempt fails and the device is listed exactly once. */
  method ConnectTwice(device: BluetoothDevice, draw: UnitReal)
    returns (first: Result<(), ServiceError>, second: Result<(), ServiceError>,
             listed: seq<BluetoothDevice>)
    requires draw >= ConnectFailureBelow
    ensures first == Success(()) && second == Failure(AlreadyConnected)
    ensures second.error.Message() == "设备已连接"
    ensures listed == [device.(isConnected := true)]
  {
    var s := new BluetoothService();
    first := s.ConnectToDevice(device, draw);
    second := s.ConnectToDevice(device, draw);
    listed := s.GetConnectedDevices();
  }

  /** A connection attempt that draws a failure leaves the device unconnected. */
  method FailedConnect(device: BluetoothDevice, draw: UnitReal)
    returns (r: Result<(), ServiceError>, connected: bool, listed: seq<BluetoothDevice>)
    requires draw < ConnectFailureBelow
    ensures r == Failure(Unreachable) && !connected && listed == []
    ensures r.error.Message() == "连接失败：设备不可达"
  {
    var s := new BluetoothService();
    r := s.ConnectToDevice(device, draw);
    connected := s.IsDeviceConnected(device.id);
    listed := s.GetConnectedDevices();
  }

  /** After a disconnect the device is no longer connected, and a second
      disconnect or a command to it fails. */
  method ConnectThenDisconnect(device: BluetoothDevice, draw: UnitReal, draws: RandomDraws, now: int)
    returns (disconnected: Result<(), ServiceError>, connected: bool,
             again: Result<(), ServiceError>, reply: Result<Reply, ServiceError>)
    requires draw >= ConnectFailureBelow
    ensures disconnected == Success(()) && !connected
    ensures again == Failure(NotConnected) && reply == Failure(NotConnected)
    ensures again.error.Message() == "设备未连接"
  {
    var s := new BluetoothService();
    var _ := s.ConnectToDevice(device, draw);
    disconnected := s.DisconnectDevice(device.id);
    connected := s.IsDeviceConnected(device.id);
    again := s.DisconnectDevice(device.id);
    reply := s.SendCommand(device.id, HardwareCommand(device.id, "get_status", map[], now), draws, now);
  }

  /** A heartbeat keeps firing while its device is connected and clears
      itself on the first firing after a disconnect. */
  method HeartbeatLifecycle(device: BluetoothDevice, draw: UnitReal, now: int)
    returns (whileConnected: bool, afterDisconnect: bool, remaining: nat)
    requires draw >= ConnectFailureBelow
    ensures whileConnected && !afterDisconnect && remaining == 0
  {
    var s := new BluetoothService();
    var _ := s.ConnectToDevice(device, draw);
    whileConnected := s.HeartbeatTick(device.id, now);
    var _ := s.DisconnectDevice(device.id);
    afterDisconnect := s.HeartbeatTick(device.id, now);
    remaining := s.heartbeats[device.id];
  }

  /** Disconnecting and reconnecting before the old interval fires leaves
      two intervals scheduled for the same device. */
  method ReconnectBeforeHeartbeat(device: BluetoothDevice, draw: UnitReal)
    returns (intervals: nat)
    requires draw >= ConnectFailureBelow
    ensures intervals == 2
  {
    var s := new BluetoothService();
    var _ := s.ConnectToDevice(device, draw);
    var _ := s.DisconnectDevice(device.id);
    var _ := s.ConnectToDevice(device, draw);
    intervals := s.heartbeats[device.id];
  }
}
