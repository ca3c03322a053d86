// The fake adapter: the root of the object graph. Every setter overwrites one field and
// nothing else; the getters read that field back. Its devices are held as strings, as the
// adapter declares its list (see the device constructor for how a device is registered).

class FakeBluetoothAdapter {
  var id: string  // the object path
  var isPresent: bool
  var isPowered: bool
  var canStartDiscovery: bool
  var canStopDiscovery: bool
  var devices: seq<string>
  var addatas: seq<string>
  var address: string
  var name: string
  var alias: string
  var classOfDevice: uint32
  var isDiscoverable: bool
  var isPairable: bool
  var pairableTimeout: uint32
  var discoverableTimeout: uint32
  var isDiscovering: bool
  var uuids: seq<string>
  var modalias: Utf8

  /** Every boolean false, every number 0, every string and list empty. */
  ghost predicate IsEmpty()
    reads this
  {
    && id == [] && !isPresent && !isPowered && !canStartDiscovery && !canStopDiscovery
    && devices == [] && addatas == [] && address == [] && name == [] && alias == []
    && classOfDevice == 0 && !isDiscoverable && !isPairable && pairableTimeout == 0
    && discoverableTimeout == 0 && !isDiscovering && uuids == [] && modalias == []
  }

  /** `new`: every field from its argument. */
  constructor New(id: string, isPresent: bool, isPowered: bool, canStartDiscovery: bool,
                  canStopDiscovery: bool, devices: seq<string>, addatas: seq<string>,
                  address: string, name: string, alias: string, classOfDevice: uint32,
                  isDiscoverable: bool, isPairable: bool, pairableTimeout: uint32,
                  discoverableTimeout: uint32, isDiscovering: bool, uuids: seq<string>,
                  modalias: Utf8)
    ensures this.id == id && this.isPresent == isPresent && this.isPowered == isPowered
    ensures this.canStartDiscovery == canStartDiscovery && this.canStopDiscovery == canStopDiscovery
    ensures this.devices == devices && this.addatas == addatas
    ensures this.address == address && this.name == name && this.alias == alias
    ensures this.classOfDevice == classOfDevice && this.isDiscoverable == isDiscoverable
    ensures this.isPairable == isPairable && this.pairableTimeout == pairableTimeout
    ensures this.discoverableTimeout == discoverableTimeout && this.isDiscovering == isDiscovering
    ensures this.uuids == uuids && this.modalias == modalias
  {
    this.id := id;
    this.isPresent := isPresent;
    this.isPowered := isPowered;
    this.canStartDiscovery := canStartDiscovery;
    this.canStopDiscovery := canStopDiscovery;
    this.devices := devices;
    this.addatas := addatas;
    this.address := address;
    this.name := name;
    this.alias := alias;
    this.classOfDevice := classOfDevice;
    this.isDiscoverable := isDiscoverable;
    this.isPairable := isPairable;
    this.pairableTimeout := pairableTimeout;
    this.discoverableTimeout := discoverableTimeout;
    this.isDiscovering := isDiscovering;
    this.uuids := uuids;
    this.modalias := modalias;
  }

  /** `new_empty`: the placeholder adapter. */
  constructor NewEmpty()
    ensures IsEmpty()
  {
    id, isPresent, isPowered, canStartDiscovery, canStopDiscovery := [], false, false, false, false;
    devices, addatas, address, name, alias := [], [], [], [], [];
    classOfDevice, isDiscoverable, isPairable, pairableTimeout := 0, false, false, 0;
    discoverableTimeout, isDiscovering, uuids, modalias := 0, false, [], [];
  }

  // Identifier and scalar attributes

  function GetId(): string reads this { id }

  method SetId(value: string)
    modifies this`id
    ensures GetId() == value
  {
    id := value;
  }

  function IsPresent(): bool reads this { isPresent }

  method SetPresent(value: bool)
    modifies this`isPresent
    ensures IsPresent() == value
  {
    isPresent := value;
  }

  function IsPowered(): bool reads this { isPowered }

  method SetPowered(value: bool)
    modifies this`isPowered
    ensures IsPowered() == value
  {
    isPowered := value;
  }

  function GetCanStartDiscovery(): bool reads this { canStartDiscovery }

  method SetCanStartDiscovery(value: bool)
    modifies this`canStartDiscovery
    ensures GetCanStartDiscovery() == value
  {
    canStartDiscovery := value;
  }

  /** Spelled `get_can_stop_siscovery` in the adapter. */
  function GetCanStopDiscovery(): bool reads this { canStopDiscovery }

  method SetCanStopDiscovery(value: bool)
    modifies this`canStopDiscovery
    ensures GetCanStopDiscovery() == value
  {
    canStopDiscovery := value;
  }

  function GetAddress(): string reads this { address }

  method SetAddress(value: string)
    modifies this`address
    ensures GetAddress() == value
  {
    address := value;
  }

  function GetName(): string reads this { name }

  method SetName(value: string)
    modifies this`name
    ensures GetName() == value
  {
    name := value;
  }

  function GetAlias(): string reads this { alias }

  method SetAlias(value: string)
    modifies this`alias
    ensures GetAlias() == value
  {
    alias := value;
  }

  function GetClass(): uint32 reads this { classOfDevice }

  method SetClass(value: uint32)
    modifies this`classOfDevice
    ensures GetClass() == value
  {
    classOfDevice := value;
  }

  function IsDiscoverable(): bool reads this { isDiscoverable }

  method SetDiscoverable(value: bool)
    modifies this`isDiscoverable
    ensures IsDiscoverable() == value
  {
    isDiscoverable := value;
  }

  function IsPairable(): bool reads this { isPairable }

  method SetPairable(value: bool)
    modifies this`isPairable
    ensures IsPairable() == value
  {
    isPairable := value;
  }

  function GetPairableTimeout(): uint32 reads this { pairableTimeout }

  method SetPairableTimeout(value: uint32)
    modifies this`pairableTimeout
    ensures GetPairableTimeout() == value
  {
    pairableTimeout := value;
  }

  function GetDiscoverableTimeout(): uint32 reads this { discoverableTimeout }

  method SetDiscoverableTimeout(value: uint32)
    modifies this`discoverableTimeout
    ensures GetDiscoverableTimeout() == value
  {
    discoverableTimeout := value;
  }

  function IsDiscovering(): bool reads this { isDiscovering }

  method SetDiscovering(value: bool)
    modifies this`isDiscovering
    ensures IsDiscovering() == value
  {
    isDiscovering := value;
  }

  function GetUuids(): seq<string> reads this { uuids }

  method SetUuids(value: seq<string>)
    modifies this`uuids
    ensures GetUuids() == value
  {
    uuids := value;
  }

  // The device list and the advertising data list

  /** A snapshot of the device list: later changes to the list do not reach it. */
  function GetDevices(): seq<string> reads this { devices }

  method SetDevices(value: seq<string>)
    modifies this`devices
    ensures GetDevices() == value
  {
    devices := value;
  }

  /** Appends at the end; no check for an entry already in the list. */
  method AddDevice(device: string)
    modifies this`devices
    ensures GetDevices() == old(GetDevices()) + [device]
  {
    devices := devices + [device];
  }

  /** The first registered device, by position and not by id; an error on an empty list. */
  function GetFirstDevice(): (r: Result<string>)
    reads this
    ensures r.Ok? <==> GetDevices() != []
    ensures r.Ok? ==> r.value == GetDevices()[0]
    ensures r.Err? ==> r.msg == "No device found."
  {
    if |devices| == 0 then Err("No device found.") else Ok(devices[0])
  }

  function GetAddatas(): seq<string> reads this { addatas }

  method SetAddatas(value: seq<string>)
    modifies this`addatas
    ensures GetAddatas() == value
  {
    addatas := value;
  }

  /** The first advertising data entry; an error on an empty list. */
  function GetFirstAddata(): (r: Result<string>)
    reads this
    ensures r.Ok? <==> GetAddatas() != []
    ensures r.Ok? ==> r.value == GetAddatas()[0]
    ensures r.Err? ==> r.msg == "No addata found."
  {
    if |addatas| == 0 then Err("No addata found.") else Ok(addatas[0])
  }

  // The modalias and the ids derived from it, decoded afresh on every call

  /** The stored modalias decoded; None where the adapter panics. */
  function GetModalias(): (r: Option<Modalias>)
    reads this
    ensures r.Some? ==> r.value.source <= modalias && |r.value.source| < |modalias|
    ensures r.Some? ==> modalias[|r.value.source|] == Colon && Colon !in r.value.source
  {
    DecodeModalias(modalias)
  }

  method SetModalias(value: Utf8)
    modifies this`modalias
    ensures modalias == value
    ensures GetModalias() == DecodeModalias(value)
  {
    modalias := value;
  }

  /** The text before the first ':' of the modalias. */
  function GetVendorIdSource(): (r: Option<Utf8>)
    reads this
    ensures r.Some? <==> GetModalias().Some?
    ensures r.Some? ==> r.value == GetModalias().value.source
    ensures r.Some? ==> r.value <= modalias && Colon !in r.value && modalias[|r.value|] == Colon
  {
    match GetModalias()
    case Some(ids) => Some(ids.source)
    case None => None
  }

  function GetVendorId(): (r: Option<uint32>)
    reads this
    ensures r.Some? <==> GetModalias().Some?
    ensures r.Some? ==> r.value == GetModalias().value.vendor && r.value < 0x1_0000
  {
    match GetModalias()
    case Some(ids) => Some(ids.vendor)
    case None => None
  }

  function GetProductId(): (r: Option<uint32>)
    reads this
    ensures r.Some? <==> GetModalias().Some?
    ensures r.Some? ==> r.value == GetModalias().value.product && r.value < 0x1_0000
  {
    match GetModalias()
    case Some(ids) => Some(ids.product)
    case None => None
  }

  function GetDeviceId(): (r: Option<uint32>)
    reads this
    ensures r.Some? <==> GetModalias().Some?
    ensures r.Some? ==> r.value == GetModalias().value.device && r.value < 0x1_0000
  {
    match GetModalias()
    case Some(ids) => Some(ids.device)
    case None => None
  }
}
