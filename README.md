# Device connectivity and app stores — a Dafny model

This project models the stateful core of a React Native demo app: the mock
Bluetooth service of `src/services/BluetoothService.ts` and the three zustand
stores of `src/store/index.ts`, with the record shapes of `src/types/index.ts`.

- `wrappers.dfy` — `Option` (optional fields) and `Result` (an operation that
  returns a value or throws).
- `types.dfy` — module `Types`: `BluetoothDevice`, `HardwareCommand`,
  `HardwareStatus`, `WiFiNetwork`, `NewsItem` and the AR scene records.
  `HardwareStatus` has every field optional. The hardware store builds records
  by spreading an entry that may be missing, so at run time any field can be
  absent. `HasRequiredFields` says the fields the TypeScript type calls
  required are present.
- `bluetooth_service.dfy` — module `Bluetooth`: class `BluetoothService`.
  It holds the connection registry (`connectedDevices`, a map from device id
  to device) and the `isScanning` flag. It also tracks `heartbeats`: the
  multiset of device ids whose heartbeat interval is still scheduled.
  Simulated delays are no-ops. Each value of `Math.random()` is a parameter of
  type `UnitReal`, a real in [0, 1). `Date.now()` is an integer parameter.
  `scanDevices` has an `await` between its guard and its `finally`. It is
  therefore modelled as `ScanBegin` (guard and flag) and `ScanEnd` (fixtures,
  then the flag is cleared), and `ScanDevices` runs both. That split is what
  makes "already scanning" reachable. The other operations are atomic.
- `stores.dfy` — module `Stores`. Pure next-state functions cover the
  connected-device list (append, filter by id) and the status map (connect
  record, mark offline, touch `lastUpdate`). Lemmas state the stores' rules.
  The classes `NewsStore`, `HardwareStore` and `ARStore` apply those functions
  to their fields.

Some behaviour of the code is worth noting:
- A `get_status` reply has `battery = floor(r * 100)` in [0, 99] and
  `temperature = floor(r * 40) + 20` in [20, 59].
- The service keeps no status records. `disconnectDevice` cancels no
  heartbeat; the interval clears itself on its next firing. So disconnecting
  and reconnecting before that firing leaves two intervals for one device
  (`ReconnectBeforeHeartbeat`).
- The service's heartbeat eviction (the `catch` in `startHeartbeat`) cannot
  run. The heartbeat command only fails when the device is missing from the
  registry, and the tick has just checked that it is present. That check and
  the command's own check run with no `await` between them.
  `HeartbeatTick` proves this: a tick for a connected device leaves the
  registry unchanged and keeps running.
- The hardware store's `disconnectDevice` and `sendCommand` do not check that
  the device is known. For an id with no status record they create one that
  lacks `deviceId`: `{isOnline: false}` or `{lastUpdate: now}`
  (`UpdatesOfUnknownIdsMakePartialRecords`).

## Model

| member | source | states |
|---|---|---|
| `Bluetooth.CommandReply` | src/services/BluetoothService.ts:133-163 | `get_status` replies online, timestamp `now`, battery in [0,99], temperature in [20,59]; `set_led` acknowledges with the LED message; `calibrate` succeeds with three readings in [0,1); any other command gets the generic success acknowledgement |
| `Bluetooth.ScanFixtures` | src/services/BluetoothService.ts:25-54 | a scan reports four devices with pairwise distinct ids, none connected, each with a signal reading |
| `Bluetooth.BluetoothService.constructor` | src/services/BluetoothService.ts:8-9 | a new service has an empty registry, is not scanning and has no heartbeat scheduled |
| `Bluetooth.BluetoothService.ScanBegin` | src/services/BluetoothService.ts:15-19 | while a scan is in flight, fails with "already scanning" and changes nothing; otherwise raises the scanning flag |
| `Bluetooth.BluetoothService.ScanEnd` | src/services/BluetoothService.ts:23-59 | a scan that resumes returns exactly the four fixture devices and always leaves the flag lowered |
| `Bluetooth.BluetoothService.ScanDevices` | src/services/BluetoothService.ts:14-60 | a scan run to completion fails with "already scanning" (flag kept) or returns the fixtures with the flag lowered; the registry never changes |
| `Bluetooth.BluetoothService.ConnectToDevice` | src/services/BluetoothService.ts:65-94 | an id already in the registry fails with "already connected"; a draw below 0.1 fails as unreachable; both leave registry and heartbeats unchanged; otherwise the device is filed under its id marked connected, every other key is unchanged, and one heartbeat is scheduled; the registry invariant is kept |
| `Bluetooth.BluetoothService.DisconnectDevice` | src/services/BluetoothService.ts:99-115 | an absent id fails with "not connected" and changes nothing; a present id is removed and nothing else is |
| `Bluetooth.BluetoothService.SendCommand` | src/services/BluetoothService.ts:120-168 | fails with "not connected" exactly when the id is not in the registry, otherwise replies according to the command name; it never changes the service |
| `Bluetooth.BluetoothService.GetConnectedDevices` | src/services/BluetoothService.ts:173-175 | lists exactly the registry's values: one per key, each filed under its own id, ids pairwise distinct |
| `Bluetooth.BluetoothService.IsDeviceConnected` | src/services/BluetoothService.ts:180-182 | true exactly when the id is a key of the registry |
| `Bluetooth.BluetoothService.GetScanningStatus` | src/services/BluetoothService.ts:187-189 | reports the scanning flag |
| `Bluetooth.BluetoothService.HeartbeatTick` | src/services/BluetoothService.ts:194-217 | for a device no longer in the registry, the interval clears itself and nothing else changes; for a connected device the registry is unchanged and the interval keeps running (the eviction path is unreachable) |
| `Bluetooth.BluetoothService.Cleanup` | src/services/BluetoothService.ts:229-232 | empties the registry and lowers the scanning flag; scheduled heartbeats are not cancelled |
| `Bluetooth.OverlappingScans` | src/services/BluetoothService.ts:14-60 | a second scan started while one is in flight fails with "already scanning" (message 已在扫描中); once the first completes, a new scan succeeds with the fixtures |
| `Bluetooth.ConnectTwice` | src/services/BluetoothService.ts:65-84 | connecting a device twice fails the second time with "already connected" (message 设备已连接), and the device is then listed exactly once, marked connected |
| `Bluetooth.FailedConnect` | src/services/BluetoothService.ts:75-77 | a connection that draws a failure reports "unreachable" (message 连接失败：设备不可达) and leaves the device unconnected and unlisted |
| `Bluetooth.ConnectThenDisconnect` | src/services/BluetoothService.ts:99-124 | after a disconnect the device is not connected, and a second disconnect and a command to it both fail with "not connected" (message 设备未连接) |
| `Bluetooth.HeartbeatLifecycle` | src/services/BluetoothService.ts:194-216 | a heartbeat keeps running while its device is connected and clears itself on the first firing after a disconnect, leaving no interval for that device |
| `Bluetooth.ReconnectBeforeHeartbeat` | src/services/BluetoothService.ts:84-87 | disconnecting and reconnecting before the old interval fires leaves two intervals scheduled for the one device |
| `Stores.CountId` | src/store/index.ts:141 | the number of list entries carrying an id is zero exactly when no entry carries it |
| `Stores.AppendConnected` | src/store/index.ts:115-116 | connect keeps every earlier entry in place and adds exactly one entry, the device marked connected, at the end |
| `Stores.RemoveById` | src/store/index.ts:141 | disconnect keeps exactly the entries whose id differs and shortens the list by the number of entries carrying the id |
| `Stores.CountIdAppend` | src/store/index.ts:116 | the entries carrying an id in a concatenation are those of both parts |
| `Stores.RemoveByIdAppend` | src/store/index.ts:141 | the filter distributes over concatenation, so the kept entries stay in their relative order |
| `Stores.RemoveByIdAbsent` | src/store/index.ts:141 | filtering out an id no entry carries leaves the list unchanged |
| `Stores.ConnectAddsOneEntry` | src/store/index.ts:112-118 | the store's connect has no duplicate check: it adds one more entry for the device's id and none for any other id |
| `Stores.DisconnectUndoesConnect` | src/store/index.ts:112-142 | disconnecting after a connect gives the list the disconnect alone would have given |
| `Stores.DisconnectIdempotent` | src/store/index.ts:140-142 | a second disconnect of the same id leaves the list as the first left it |
| `Stores.RecordConnected` | src/store/index.ts:121-134 | connect files a complete record under the device id with online, battery 85, temperature 25, last update now, and leaves every other key unchanged |
| `Stores.MarkOffline` | src/store/index.ts:144-152 | disconnect never deletes a key; it sets `isOnline` false, keeps the record's other fields and leaves every other key unchanged; for an unknown id it creates `{isOnline: false}` |
| `Stores.TouchStatus` | src/store/index.ts:161-169 | a command changes only `lastUpdate` of the device's record and leaves every other key unchanged; for an unknown id it creates `{lastUpdate: now}` |
| `Stores.UpdatesOfKnownIdsKeepRecordsComplete` | src/store/index.ts:121-169 | connect keeps every record complete and filed under its own id; disconnect and command do too when the id already has a record |
| `Stores.UpdatesOfUnknownIdsMakePartialRecords` | src/store/index.ts:144-169 | disconnect or command for an id with no record leaves a record lacking required fields |
| `Stores.ConnectThenDisconnect` | src/store/index.ts:112-153 | connect then disconnect leaves no list entry for the device and its record offline with the values connect wrote |
| `Stores.StoreScanFixtures` | src/store/index.ts:89-104 | a store scan reports two devices with distinct ids, none connected |
| `Stores.WiFiFixtures` | src/store/index.ts:178-193 | a Wi-Fi scan reports two networks with distinct SSIDs |
| `Stores.NewsFixtures` | src/store/index.ts:22-50 | the feed is three articles with ids 1, 2, 3, each dated by its own clock reading |
| `Stores.SceneFixtures` | src/store/index.ts:222-253 | one scene, `scene1`, holding one object |
| `Stores.NewsStore.constructor` | src/store/index.ts:14-16 | a new news store is empty, not loading and without error |
| `Stores.NewsStore.FetchNews` | src/store/index.ts:18-56 | afterwards the news is the three fixtures, loading is false and there is no error |
| `Stores.NewsStore.RefreshNews` | src/store/index.ts:58-60 | same outcome as a fetch |
| `Stores.HardwareStore.constructor` | src/store/index.ts:79-83 | a new hardware store holds empty lists and map and is not scanning |
| `Stores.HardwareStore.ScanBluetoothDevices` | src/store/index.ts:85-110 | afterwards the device list is the two fixtures and the flag is lowered; nothing else changes |
| `Stores.HardwareStore.ConnectToDevice` | src/store/index.ts:112-138 | the list gets the device appended and the status map the connect record; only these two fields change; every listed connection keeps a status record |
| `Stores.HardwareStore.DisconnectDevice` | src/store/index.ts:140-153 | the list is filtered by id and the record marked offline; only these two fields change |
| `Stores.HardwareStore.SendCommand` | src/store/index.ts:155-173 | only the status map changes, by touching `lastUpdate`; no connection check |
| `Stores.HardwareStore.ScanWiFiNetworks` | src/store/index.ts:175-199 | afterwards the network list is the two fixtures; nothing else changes |
| `Stores.ARStore.constructor` | src/store/index.ts:215-217 | a new AR store has no scenes, no current scene and AR inactive |
| `Stores.ARStore.LoadScenes` | src/store/index.ts:219-259 | afterwards the scenes are the fixture; nothing else changes |
| `Stores.ARStore.SetCurrentScene` | src/store/index.ts:261-263 | the current scene is the one given; nothing else changes |
| `Stores.ARStore.StartAR` | src/store/index.ts:265-271 | AR becomes active; nothing else changes |
| `Stores.ARStore.StopAR` | src/store/index.ts:273-275 | AR becomes inactive; nothing else changes |
| `Stores.StoreConnectTwice` | src/store/index.ts:112-153 | connecting one device twice lists it twice; one disconnect removes both entries and leaves its latest record offline |
| `Stores.StoreCommandToUnknownDevice` | src/store/index.ts:155-169 | a command to a device the store never saw creates a record holding only `lastUpdate` and lists nothing |

## Left out

- Timing. Delays and the 30-second heartbeat interval are not modelled. A
  heartbeat firing is the explicit `HeartbeatTick`, which requires an interval
  scheduled for that device.
- Interleaving. Apart from the scan split, operations are atomic. In the code
  `connectToDevice` checks the registry before its delay and inserts after it,
  so two overlapping connects of one id both pass the check. The registry still
  ends with one entry, but two heartbeats are scheduled. `disconnectDevice` has
  the same check-then-delay shape.
- Bluetooth.BluetoothService.HeartbeatTick: the `catch` branch (evict the
  device, clear the interval) is proved unreachable and not modelled as a
  transition.
- Bluetooth.BluetoothService.GetConnectedDevices: does not promise the order of
  the list. A JavaScript `Map` iterates in insertion order.
- Console logging in every operation, and the `catch` blocks that only log and
  rethrow. The store actions' `catch` blocks are not modelled either; nothing in
  their `try` blocks can throw.
- Number types. JavaScript numbers are modelled as integers where the code
  stores integers (rssi, timestamps, battery, temperature, Wi-Fi levels). The
  fractional values (random draws, AR fixture geometry) are exact reals.
- Command parameters (`Record<string, any>`) are never inspected. Their values
  are narrowed to text, number or flag.
- The exported singleton `bluetoothService` (line 236). Services and stores are
  created explicitly.
