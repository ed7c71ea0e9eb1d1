/** The record shapes of src/types/index.ts that the services and stores use. */
module Types {
  import opened Wrappers

  /** A Bluetooth peripheral as discovered by a scan (`BluetoothDevice`). */
  datatype BluetoothDevice = BluetoothDevice(
    id: string,
    name: string,
    address: string,
    isConnected: bool,
    rssi: Option<int>)

  /** A value in a command's parameter record. The service and the stores never inspect these. */
  datatype ParamValue = Text(text: string) | Number(number: int) | Flag(flag: bool)

  /** A command addressed to a device (`HardwareCommand`); `timestamp` is a clock reading. */
  datatype HardwareCommand = HardwareCommand(
    deviceId: string,
    command: string,
    parameters: map<string, ParamValue>,
    timestamp: int)

  /** A device's status record (`HardwareStatus`).
      The type declares `deviceId`, `isOnline` and `lastUpdate` as required, but the
      hardware store builds records by spreading an entry that may be missing, so at
      run time any field can be absent; every field is therefore optional here. */
  datatype HardwareStatus = HardwareStatus(
    deviceId: Option<string>,
    isOnline: Option<bool>,
    battery: Option<int>,
    temperature: Option<int>,
    lastUpdate: Option<int>)
  {
    /** The record has every field its declared type calls required. */
    predicate HasRequiredFields() {
      deviceId.Some? && isOnline.Some? && lastUpdate.Some?
    }
  }

  /** The object produced by spreading a missing entry: no fields at all. */
  const NoFields: HardwareStatus := HardwareStatus(None, None, None, None, None)

  /** A Wi-Fi network as reported by a scan (`WiFiNetwork`). */
  datatype WiFiNetwork = WiFiNetwork(
    ssid: string,
    bssid: string,
    level: int,
    frequency: int,
    capabilities: string)

  /** A news article (`NewsItem`). */
  datatype NewsItem = NewsItem(
    id: string,
    title: string,
    content: string,
    imageUrl: Option<string>,
    publishDate: string,
    author: string,
    category: string,
    tags: Option<seq<string>>)

  datatype Vector3 = Vector3(x: real, y: real, z: real)

  datatype ObjectType = Cube | Sphere | Plane | Model

  datatype MaterialConfig = MaterialConfig(
    color: string,
    texture: Option<string>,
    opacity: real,
    metalness: Option<real>,
    roughness: Option<real>)

  datatype ARObject = ARObject(
    id: string,
    objectType: ObjectType,
    position: Vector3,
    rotation: Vector3,
    scale: Vector3,
    material: MaterialConfig)

  datatype AmbientLight = AmbientLight(color: string, intensity: real)

  datatype DirectionalLight = DirectionalLight(color: string, intensity: real, position: Vector3)

  datatype LightingConfig = LightingConfig(ambient: AmbientLight, directional: DirectionalLight)

  /** An AR scene (`ARScene`). */
  datatype ARScene = ARScene(
    id: string,
    name: string,
    objects: seq<ARObject>,
    lighting: LightingConfig)
}
