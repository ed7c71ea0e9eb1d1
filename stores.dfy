/** The three zustand stores of src/store/index.ts. Each action computes its
    next state with a pure expression (the functions below) and applies it
    with `set`, which replaces the named fields of the store (the classes at
    the end). `Date.now()` and `new Date().toISOString()` are parameters. */
module Stores {
  import opened Wrappers
  import opened Types

  // ---------------------------------------------------------------------
  // The connected-device list
  // ---------------------------------------------------------------------

  /** How many entries of `devices` carry the id `id`. */
  function CountId(devices: seq<BluetoothDevice>, id: string): (n: nat)
    ensures n <= |devices|
    ensures n == 0 <==> forall i :: 0 <= i < |devices| ==> devices[i].id != id
  {
    if devices == [] then 0
    else (if devices[0].id == id then 1 else 0) + CountId(devices[1..], id)
  }

  /** `[...devices, { ...device, isConnected: true }]`. */
  function AppendConnected(devices: seq<BluetoothDevice>, device: BluetoothDevice): (r: seq<BluetoothDevice>)
    ensures |r| == |devices| + 1 && r[..|devices|] == devices
    ensures r[|devices|] == device.(isConnected := true)
  {
    devices + [device.(isConnected := true)]
  }

  /** `devices.filter(d => d.id !== id)`. */
  function RemoveById(devices: seq<BluetoothDevice>, id: string): (r: seq<BluetoothDevice>)
    ensures |r| == |devices| - CountId(devices, id)
    ensures forall x :: x in r <==> x in devices && x.id != id
    ensures CountId(r, id) == 0
  {
    if devices == [] then []
    else (if devices[0].id == id then [] else [devices[0]]) + RemoveById(devices[1..], id)
  }

  lemma {:induction false} CountIdAppend(a: seq<BluetoothDevice>, b: seq<BluetoothDevice>, id: string)
    ensures CountId(a + b, id) == CountId(a, id) + CountId(b, id)
  {
    if a == [] {
      assert a + b == b;
    } else {
      assert (a + b)[1..] == a[1..] + b;
      CountIdAppend(a[1..], b, id);
    }
  }

  /** Filtering keeps the relative order of what it keeps: it distributes
      over concatenation. */
  lemma {:induction false} RemoveByIdAppend(a: seq<BluetoothDevice>, b: seq<BluetoothDevice>, id: string)
    ensures RemoveById(a + b, id) == RemoveById(a, id) + RemoveById(b, id)
  {
    if a == [] {
      assert a + b == b;
    } else {
      assert (a + b)[1..] == a[1..] + b;
      RemoveByIdAppend(a[1..], b, id);
    }
  }

  /** Filtering out an id that no entry carries changes nothing. */
  lemma {:induction false} RemoveByIdAbsent(devices: seq<BluetoothDevice>, id: string)
    requires CountId(devices, id) == 0
    ensures RemoveById(devices, id) == devices
  {
    if devices != [] {
      assert devices == [devices[0]] + devices[1..];
      RemoveByIdAbsent(devices[1..], id);
    }
  }

  /** The store's connect performs no duplicate check: each call adds one
      more entry for the device's id and none for any other id. */
  lemma ConnectAddsOneEntry(devices: seq<BluetoothDevice>, device: BluetoothDevice, id: string)
    ensures CountId(AppendConnected(devices, device), id) ==
            CountId(devices, id) + (if id == device.id then 1 else 0)
  {
    CountIdAppend(devices, [device.(isConnected := true)], id);
  }

  /** Disconnecting removes every entry a connect added, and whatever else
      carried that id, and nothing more. */
  lemma DisconnectUndoesConnect(devices: seq<BluetoothDevice>, device: BluetoothDevice)
    ensures RemoveById(AppendConnected(devices, device), device.id) == RemoveById(devices, device.id)
  {
    RemoveByIdAppend(devices, [device.(isConnected := true)], device.id);
  }

  /** A second disconnect of the same id leaves the list as the first left it. */
  lemma DisconnectIdempotent(devices: seq<BluetoothDevice>, id: string)
    ensures RemoveById(RemoveById(devices, id), id) == RemoveById(devices, id)
  {
    RemoveByIdAbsent(RemoveById(devices, id), id);
  }

  // ---------------------------------------------------------------------
  // The status record map
  // ---------------------------------------------------------------------

  const ConnectBattery: int := 85
  const ConnectTemperature: int := 25

  /** The record `connectToDevice` writes for a device. */
  function OnlineStatus(deviceId: string, now: int): (s: HardwareStatus) {
    HardwareStatus(Some(deviceId), Some(true), Some(ConnectBattery), Some(ConnectTemperature), Some(now))
  }

  /** `{ ...statuses[id] }`: the entry's fields, or no fields when it is missing. */
  function Spread(statuses: map<string, HardwareStatus>, id: string): (s: HardwareStatus) {
    if id in statuses then statuses[id] else NoFields
  }

  /** `{ ...statuses, [id]: status }` with the record of a fresh connection. */
  function RecordConnected(statuses: map<string, HardwareStatus>, deviceId: string, now: int)
    : (r: map<string, HardwareStatus>)
    ensures r.Keys == statuses.Keys + {deviceId}
    ensures r[deviceId].HasRequiredFields() && r[deviceId].deviceId == Some(deviceId)
    ensures r[deviceId].isOnline == Some(true) && r[deviceId].lastUpdate == Some(now)
    ensures r[deviceId].battery == Some(85) && r[deviceId].temperature == Some(25)
    ensures forall k :: k in statuses && k != deviceId ==> r[k] == statuses[k]
  {
    statuses[deviceId := OnlineStatus(deviceId, now)]
  }

  /** `{ ...statuses, [id]: { ...statuses[id], isOnline: false } }`. */
  function MarkOffline(statuses: map<string, HardwareStatus>, deviceId: string)
    : (r: map<string, HardwareStatus>)
    ensures r.Keys == statuses.Keys + {deviceId}
    ensures r[deviceId].isOnline == Some(false)
    ensures deviceId in statuses ==> r[deviceId] == statuses[deviceId].(isOnline := Some(false))
    ensures deviceId !in statuses ==> r[deviceId] == NoFields.(isOnline := Some(false))
    ensures forall k :: k in statuses && k != deviceId ==> r[k] == statuses[k]
  {
    statuses[deviceId := Spread(statuses, deviceId).(isOnline := Some(false))]
  }

  /** `{ ...statuses, [id]: { ...statuses[id], lastUpdate: now } }`. */
  function TouchStatus(statuses: map<string, HardwareStatus>, deviceId: string, now: int)
    : (r: map<string, HardwareStatus>)
    ensures r.Keys == statuses.Keys + {deviceId}
    ensures r[deviceId].lastUpdate == Some(now)
    ensures deviceId in statuses ==> r[deviceId] == statuses[deviceId].(lastUpdate := Some(now))
    ensures deviceId !in statuses ==> r[deviceId] == NoFields.(lastUpdate := Some(now))
    ensures forall k :: k in statuses && k != deviceId ==> r[k] == statuses[k]
  {
    statuses[deviceId := Spread(statuses, deviceId).(lastUpdate := Some(now))]
  }

  /** Every record is filed under its own device id and has every field its
      declared type calls required. */
  ghost predicate RecordsComplete(statuses: map<string, HardwareStatus>) {
    forall k :: k in statuses ==> statuses[k].HasRequiredFields() && statuses[k].deviceId == Some(k)
  }

  /** Connecting always keeps the records complete; disconnecting and
      sending a command keep them complete when the id already has a record. */
  lemma UpdatesOfKnownIdsKeepRecordsComplete(statuses: map<string, HardwareStatus>, deviceId: string, now: int)
    requires RecordsComplete(statuses)
    ensures RecordsComplete(RecordConnected(statuses, deviceId, now))
    ensures deviceId in statuses ==> RecordsComplete(MarkOffline(statuses, deviceId))
    ensures deviceId in statuses ==> RecordsComplete(TouchStatus(statuses, deviceId, now))
  {
  }

  /** Disconnecting or sending a command to an id with no record creates a
      record that lacks `deviceId` and one of `isOnline` or `lastUpdate`. */
  lemma UpdatesOfUnknownIdsMakePartialRecords(statuses: map<string, HardwareStatus>, deviceId: string, now: int)
    requires deviceId !in statuses
    ensures deviceId in MarkOffline(statuses, deviceId)
    ensures MarkOffline(statuses, deviceId)[deviceId] == HardwareStatus(None, Some(false), None, None, None)
    ensures TouchStatus(statuses, deviceId, now)[deviceId] == HardwareStatus(None, None, None, None, Some(now))
    ensures !RecordsComplete(MarkOffline(statuses, deviceId))
    ensures !RecordsComplete(TouchStatus(statuses, deviceId, now))
  {
  }

  /** Connect then disconnect of one device: no entry for it is left in the
      list, and its record stays, offline, with the values connect wrote. */
  lemma ConnectThenDisconnect(devices: seq<BluetoothDevice>, statuses: map<string, HardwareStatus>,
                              device: BluetoothDevice, now: int)
    ensures CountId(RemoveById(AppendConnected(devices, device), device.id), device.id) == 0
    ensures MarkOffline(RecordConnected(statuses, device.id, now), device.id)[device.id] ==
            HardwareStatus(Some(device.id), Some(false), Some(85), Some(25), Some(now))
  {
  }

  // ---------------------------------------------------------------------
  // Fixtures
  // ---------------------------------------------------------------------

  /** The devices `scanBluetoothDevices` reports. */
  function StoreScanFixtures(): (ds: seq<BluetoothDevice>)
    ensures |ds| == 2 && ds[0].id != ds[1].id
    ensures forall i :: 0 <= i < |ds| ==> !ds[i].isConnected
  {
    [ BluetoothDevice("device1", "AR智能眼镜", "00:11:22:33:44:55", false, Some(-45)),
      BluetoothDevice("device2", "智能传感器", "00:11:22:33:44:66", false, Some(-60)) ]
  }

  /** The networks `scanWiFiNetworks` reports. */
  function WiFiFixtures(): (ns: seq<WiFiNetwork>)
    ensures |ns| == 2 && ns[0].ssid != ns[1].ssid
  {
    [ WiFiNetwork("SmartFactory_5G", "00:11:22:33:44:77", -30, 5180, "[WPA2-PSK-CCMP][ESS]"),
      WiFiNetwork("IoT_Network", "00:11:22:33:44:88", -50, 2437, "[WPA2-PSK-CCMP][ESS]") ]
  }

  /** The articles `fetchNews` reports; each `publishDate` is a separate
      reading of the clock. */
  function NewsFixtures(date1: string, date2: string, date3: string): (ns: seq<NewsItem>)
    ensures |ns| == 3
    ensures ns[0].id == "1" && ns[1].id == "2" && ns[2].id == "3"
    ensures ns[0].publishDate == date1 && ns[1].publishDate == date2 && ns[2].publishDate == date3
  {
    [ NewsItem("1", "AR技术在智能制造中的应用", "增强现实技术正在革命性地改变智能制造行业...",
               Some("https://example.com/ar-manufacturing.jpg"), date1, "技术编辑", "AR技术", None),
      NewsItem("2", "蓝牙5.0在IoT设备中的优势", "最新的蓝牙5.0技术为物联网设备带来了更好的连接性...",
               Some("https://example.com/bluetooth-iot.jpg"), date2, "硬件专家", "硬件技术", None),
      NewsItem("3", "WebGL在移动端的性能优化", "React Native中使用WebGL进行3D渲染的最佳实践...",
               Some("https://example.com/webgl-mobile.jpg"), date3, "前端开发", "开发技术", None) ]
  }

  /** The scenes `loadScenes` reports. */
  function SceneFixtures(): (ss: seq<ARScene>)
    ensures |ss| == 1 && ss[0].id == "scene1" && |ss[0].objects| == 1
  {
    [ ARScene(
        "scene1", "设备调试场景",
        [ ARObject("obj1", Cube, Vector3(0.0, 0.0, -2.0), Vector3(0.0, 0.0, 0.0), Vector3(1.0, 1.0, 1.0),
                   MaterialConfig("#ff0000", None, 0.8, Some(0.5), Some(0.2))) ],
        LightingConfig(AmbientLight("#ffffff", 0.4),
                       DirectionalLight("#ffffff", 0.8, Vector3(1.0, 1.0, 1.0)))) ]
  }

  // ---------------------------------------------------------------------
  // The stores
  // ---------------------------------------------------------------------

  /** `useNewsStore`. */
  class NewsStore {
    var news: seq<NewsItem>
    var loading: bool
    var error: Option<string>

    constructor ()
      ensures news == [] && !loading && error == None
    {
      news, loading, error := [], false, None;
    }

    /** `fetchNews`: the loading flag is raised and lowered within the call. */
    method FetchNews(date1: string, date2: string, date3: string)
      modifies this
      ensures news == NewsFixtures(date1, date2, date3) && !loading && error == None
    {
      loading, error := true, None;
      news, loading := NewsFixtures(date1, date2, date3), false;
    }

    /** `refreshNews`: another `fetchNews`. */
    method RefreshNews(date1: string, date2: string, date3: string)
      modifies this
      ensures news == NewsFixtures(date1, date2, date3) && !loading && error == None
    {
      FetchNews(date1, date2, date3);
    }
  }

  /** `useHardwareStore`. */
  class HardwareStore {
    var bluetoothDevices: seq<BluetoothDevice>
    var wifiNetworks: seq<WiFiNetwork>
    var connectedDevices: seq<BluetoothDevice>
    var hardwareStatus: map<string, HardwareStatus>
    var isScanning: bool

    /** Every listed connection is marked connected and has a status record. */
    ghost predicate Valid()
      reads this
    {
      forall i :: 0 <= i < |connectedDevices| ==>
        connectedDevices[i].isConnected && connectedDevices[i].id in hardwareStatus
    }

    constructor ()
      ensures Valid()
      ensures bluetoothDevices == [] && wifiNetworks == [] && connectedDevices == []
      ensures hardwareStatus == map[] && !isScanning
    {
      bluetoothDevices, wifiNetworks, connectedDevices := [], [], [];
      hardwareStatus, isScanning := map[], false;
    }

    /** `scanBluetoothDevices`. */
    method ScanBluetoothDevices()
      modifies this`bluetoothDevices, this`isScanning
      ensures bluetoothDevices == StoreScanFixtures() && !isScanning
    {
      isScanning := true;
      bluetoothDevices, isScanning := StoreScanFixtures(), false;
    }

    /** `connectToDevice`: appends first, then writes the status record. */
    method ConnectToDevice(device: BluetoothDevice, now: int)
      requires Valid()
      modifies this`connectedDevices, this`hardwareStatus
      ensures Valid()
      ensures connectedDevices == AppendConnected(old(connectedDevices), device)
      ensures hardwareStatus == RecordConnected(old(hardwareStatus), device.id, now)
    {
      connectedDevices := AppendConnected(connectedDevices, device);
      hardwareStatus := RecordConnected(hardwareStatus, device.id, now);
    }

    /** `disconnectDevice`: filters the list, then marks the record offline. */
    method DisconnectDevice(deviceId: string)
      requires Valid()
      modifies this`connectedDevices, this`hardwareStatus
      ensures Valid()
      ensures connectedDevices == RemoveById(old(connectedDevices), deviceId)
      ensures hardwareStatus == MarkOffline(old(hardwareStatus), deviceId)
    {
      connectedDevices := RemoveById(connectedDevices, deviceId);
      hardwareStatus := MarkOffline(hardwareStatus, deviceId);
    }

    /** `sendCommand`: only the record's `lastUpdate` changes; there is no
        connection check, and the command and its parameters are only logged. */
    method SendCommand(deviceId: string, command: string, params: map<string, ParamValue>, now: int)
      requires Valid()
      modifies this`hardwareStatus
      ensures Valid()
      ensures hardwareStatus == TouchStatus(old(hardwareStatus), deviceId, now)
    {
      hardwareStatus := TouchStatus(hardwareStatus, deviceId, now);
    }

    /** `scanWiFiNetworks`. */
    method ScanWiFiNetworks()
      modifies this`wifiNetworks
      ensures wifiNetworks == WiFiFixtures()
    {
      wifiNetworks := WiFiFixtures();
    }
  }

  /** `useARStore`. */
  class ARStore {
    var scenes: seq<ARScene>
    var currentScene: Option<ARScene>
    var isARActive: bool

    constructor ()
      ensures scenes == [] && currentScene == None && !isARActive
    {
      scenes, currentScene, isARActive := [], None, false;
    }

    /** `loadScenes`. */
    method LoadScenes()
      modifies this`scenes
      ensures scenes == SceneFixtures()
    {
      scenes := SceneFixtures();
    }

    /** `setCurrentScene`. */
    method SetCurrentScene(scene: ARScene)
      modifies this`currentScene
      ensures currentScene == Some(scene)
    {
      currentScene := Some(scene);
    }

    /** `startAR`. */
    method StartAR()
      modifies this`isARActive
      ensures isARActive
    {
      isARActive := true;
    }

    /** `stopAR`. */
    method StopAR()
      modifies this`isARActive
      ensures !isARActive
    {
      isARActive := false;
    }
  }

  /** The store accepts a second connect of a connected device: it is then
      listed twice, and one disconnect removes both entries. */
  method StoreConnectTwice(device: BluetoothDevice, now: int)
    returns (afterConnects: seq<BluetoothDevice>, afterDisconnect: seq<BluetoothDevice>,
             status: HardwareStatus)
    ensures afterConnects == [device.(isConnected := true), device.(isConnected := true)]
    ensures afterDisconnect == []
    ensures status == HardwareStatus(Some(device.id), Some(false), Some(85), Some(25), Some(now + 1))
  {
    var store := new HardwareStore();
    store.ConnectToDevice(device, now);
    store.ConnectToDevice(device, now + 1);
    afterConnects := store.connectedDevices;
    store.DisconnectDevice(device.id);
    afterDisconnect := store.connectedDevices;
    status := store.hardwareStatus[device.id];
  }

  /** A command to a device the store has never seen creates a status
      record holding only `lastUpdate`. */
  method StoreCommandToUnknownDevice(deviceId: string, now: int)
    returns (statuses: map<string, HardwareStatus>, listed: seq<BluetoothDevice>)
    ensures statuses == map[deviceId := HardwareStatus(None, None, None, None, Some(now))]
    ensures listed == []
  {
    var store := new HardwareStore();
    store.SendCommand(deviceId, "get_status", map[], now);
    statuses := store.hardwareStatus;
    listed := store.connectedDevices;
  }
}
