// The fake remote device: owned by an adapter, owner of an ordered list of GATT services.
// Every setter overwrites one field and nothing else. `connect` and `disconnect` are gated on
// the connection flags; `pair`, `cancel_pairing` and the setters are not.

class FakeBluetoothDevice {
  var id: string  // the object path
  const adapter: FakeBluetoothAdapter
  var address: string
  var appearance: uint16
  var classOfDevice: uint32
  var gattServices: seq<FakeBluetoothGattService>
  var isPaired: bool
  var isConnectable: bool
  var isConnected: bool
  var isTrusted: bool
  var isBlocked: bool
  var isLegacyPairing: bool
  var uuids: seq<string>
  var name: string
  var icon: string
  var alias: string
  var productVersion: uint32  // set by the constructors only; there is no accessor
  var rssi: int16
  var txPower: int16
  var modalias: Utf8

  /** Every attribute but the name and the adapter at its default: booleans false, numbers 0,
      strings and lists empty. */
  ghost predicate AttributesCleared()
    reads this
  {
    && id == [] && address == [] && appearance == 0 && classOfDevice == 0 && gattServices == []
    && !isPaired && !isConnectable && !isConnected && !isTrusted && !isBlocked && !isLegacyPairing
    && uuids == [] && icon == [] && alias == [] && productVersion == 0 && rssi == 0 && txPower == 0
    && modalias == []
  }

  /** `new`: a cleared device with the given name, registered with its adapter by that name.
      The lookup of an existing device that the source tries first is not modelled. */
  constructor New(adapter: FakeBluetoothAdapter, name: string)
    modifies adapter`devices
    ensures this.adapter == adapter
    ensures GetName() == name && AttributesCleared()
    ensures adapter.GetDevices() == old(adapter.GetDevices()) + [name]
  {
    this.adapter := adapter;
    this.name := name;
    id, address, appearance, classOfDevice, gattServices := [], [], 0, 0, [];
    isPaired, isConnectable, isConnected, isTrusted, isBlocked, isLegacyPairing := false, false, false, false, false, false;
    uuids, icon, alias, productVersion, rssi, txPower, modalias := [], [], [], 0, 0, 0, [];
    new;
    adapter.AddDevice(name);
  }

  /** `new_empty`: a cleared, unnamed device whose adapter is a fresh placeholder adapter that
      does not list it. */
  constructor NewEmpty()
    ensures GetName() == [] && AttributesCleared()
    ensures fresh(adapter) && adapter.IsEmpty()
  {
    adapter := new FakeBluetoothAdapter.NewEmpty();
    name := [];
    id, address, appearance, classOfDevice, gattServices := [], [], 0, 0, [];
    isPaired, isConnectable, isConnected, isTrusted, isBlocked, isLegacyPairing := false, false, false, false, false, false;
    uuids, icon, alias, productVersion, rssi, txPower, modalias := [], [], [], 0, 0, 0, [];
  }

  function GetId(): string reads this { id }

  method SetId(value: string)
    modifies this`id
    ensures GetId() == value
  {
    id := value;
  }

  /** The adapter given at construction; it is never reassigned. */
  function GetAdapter(): FakeBluetoothAdapter { adapter }

  function GetAddress(): string reads this { address }

  method SetAddress(value: string)
    modifies this`address
    ensures GetAddress() == value
  {
    address := value;
  }

  function GetName(): string reads this { name }

  method SetName(value: string)
    modifies this`name
    ensures GetName() == value
  {
    name := value;
  }

  function GetIcon(): string reads this { icon }

  method SetIcon(value: string)
    modifies this`icon
    ensures GetIcon() == value
  {
    icon := value;
  }

  function GetClass(): uint32 reads this { classOfDevice }

  method SetClass(value: uint32)
    modifies this`classOfDevice
    ensures GetClass() == value
  {
    classOfDevice := value;
  }

  function GetAppearance(): uint16 reads this { appearance }

  method SetAppearance(value: uint16)
    modifies this`appearance
    ensures GetAppearance() == value
  {
    appearance := value;
  }

  function GetUuids(): seq<string> reads this { uuids }

  method SetUuids(value: seq<string>)
    modifies this`uuids
    ensures GetUuids() == value
  {
    uuids := value;
  }

  function IsTrusted(): bool reads this { isTrusted }

  method SetTrusted(value: bool)
    modifies this`isTrusted
    ensures IsTrusted() == value
  {
    isTrusted := value;
  }

  function IsBlocked(): bool reads this { isBlocked }

  method SetBlocked(value: bool)
    modifies this`isBlocked
    ensures IsBlocked() == value
  {
    isBlocked := value;
  }

  function GetAlias(): string reads this { alias }

  method SetAlias(value: string)
    modifies this`alias
    ensures GetAlias() == value
  {
    alias := value;
  }

  function IsLegacyPairing(): bool reads this { isLegacyPairing }

  method SetLegacyPairing(value: bool)
    modifies this`isLegacyPairing
    ensures IsLegacyPairing() == value
  {
    isLegacyPairing := value;
  }

  function GetRssi(): int16 reads this { rssi }

  method SetRssi(value: int16)
    modifies this`rssi
    ensures GetRssi() == value
  {
    rssi := value;
  }

  function GetTxPower(): int16 reads this { txPower }

  method SetTxPower(value: int16)
    modifies this`txPower
    ensures GetTxPower() == value
  {
    txPower := value;
  }

  // Pairing and connection

  function IsPaired(): bool reads this { isPaired }

  /** Marks the device paired whatever its connection state. */
  method Pair() returns (r: Outcome)
    modifies this`isPaired
    ensures r == Pass && IsPaired()
  {
    isPaired := true;
    r := Pass;
  }

  /** Marks the device not paired whatever its connection state. */
  method CancelPairing() returns (r: Outcome)
    modifies this`isPaired
    ensures r == Pass && !IsPaired()
  {
    isPaired := false;
    r := Pass;
  }

  function IsConnected(): bool reads this { isConnected }

  /** Overwrites the flag without looking at `isConnectable`: connecting a device that is not
      connectable breaks `ConnectedOnlyIfConnectable`, disconnecting always restores it. */
  method SetConnected(value: bool)
    modifies this`isConnected
    ensures IsConnected() == value
    ensures ConnectedOnlyIfConnectable() <==> !value || IsConnectable()
  {
    isConnected := value;
  }

  function IsConnectable(): bool reads this { isConnectable }

  /** Overwrites the flag without looking at `isConnected`: making a connected device
      unconnectable breaks `ConnectedOnlyIfConnectable`, making any device connectable restores it. */
  method SetConnectable(value: bool)
    modifies this`isConnectable
    ensures IsConnectable() == value
    ensures ConnectedOnlyIfConnectable() <==> value || !IsConnected()
  {
    isConnectable := value;
  }

  /** A connected device is connectable. `Connect` and `Disconnect` keep this, and so do the
      setters of other fields; only `SetConnected(true)` and `SetConnectable(false)` can break it. */
  predicate ConnectedOnlyIfConnectable()
    reads this
  {
    isConnected ==> isConnectable
  }

  /** Succeeds exactly on a connectable device that is not connected yet, and connects it;
      otherwise reports one error for both causes and changes nothing. */
  method Connect() returns (r: Outcome)
    modifies this`isConnected
    ensures r.Pass? <==> old(IsConnectable()) && !old(IsConnected())
    ensures r.Pass? ==> IsConnected()
    ensures r.Fail? ==> r.msg == "Could not connect to the device." && IsConnected() == old(IsConnected())
    ensures old(ConnectedOnlyIfConnectable()) ==> ConnectedOnlyIfConnectable()
  {
    if IsConnectable() && !IsConnected() {
      SetConnected(true);
      r := Pass;
    } else {
      r := Fail("Could not connect to the device.");
    }
  }

  /** Succeeds exactly on a connected device, and disconnects it; otherwise changes nothing. */
  method Disconnect() returns (r: Outcome)
    modifies this`isConnected
    ensures r.Pass? <==> old(IsConnected())
    ensures !IsConnected()
    ensures r.Fail? ==> r.msg == "The device is not connected."
    ensures old(ConnectedOnlyIfConnectable()) ==> ConnectedOnlyIfConnectable()
  {
    if IsConnected() {
      SetConnected(false);
      r := Pass;
    } else {
      r := Fail("The device is not connected.");
    }
  }

  // The modalias and the ids derived from it, decoded afresh on every call

  /** The stored modalias decoded; None where the device panics. */
  function GetModalias(): (r: Option<Modalias>)
    reads this
    ensures r.Some? ==> r.value.source <= modalias && |r.value.source| < |modalias|
    ensures r.Some? ==> modalias[|r.value.source|] == Colon && Colon !in r.value.source
  {
    DecodeModalias(modalias)
  }

  method SetModalias(value: Utf8)
    modifies this`modalias
    ensures modalias == value
    ensures GetModalias() == DecodeModalias(value)
  {
    modalias := value;
  }

  /** The text before the first ':' of the modalias. */
  function GetVendorIdSource(): (r: Option<Utf8>)
    reads this
    ensures r.Some? <==> GetModalias().Some?
    ensures r.Some? ==> r.value == GetModalias().value.source
    ensures r.Some? ==> r.value <= modalias && Colon !in r.value && modalias[|r.value|] == Colon
  {
    match GetModalias()
    case Some(ids) => Some(ids.source)
    case None => None
  }

  function GetVendorId(): (r: Option<uint32>)
    reads this
    ensures r.Some? <==> GetModalias().Some?
    ensures r.Some? ==> r.value == GetModalias().value.vendor && r.value < 0x1_0000
  {
    match GetModalias()
    case Some(ids) => Some(ids.vendor)
    case None => None
  }

  function GetProductId(): (r: Option<uint32>)
    reads this
    ensures r.Some? <==> GetModalias().Some?
    ensures r.Some? ==> r.value == GetModalias().value.product && r.value < 0x1_0000
  {
    match GetModalias()
    case Some(ids) => Some(ids.product)
    case None => None
  }

  function GetDeviceId(): (r: Option<uint32>)
    reads this
    ensures r.Some? <==> GetModalias().Some?
    ensures r.Some? ==> r.value == GetModalias().value.device && r.value < 0x1_0000
  {
    match GetModalias()
    case Some(ids) => Some(ids.device)
    case None => None
  }

  // The service registry

  /** A snapshot of the service list. */
  function GetGattServices(): seq<FakeBluetoothGattService> reads this { gattServices }

  /** Replaces the whole list (`set_gatt_service`). */
  method SetGattServices(value: seq<FakeBluetoothGattService>)
    modifies this`gattServices
    ensures GetGattServices() == value
  {
    gattServices := value;
  }

  /** Appends at the end, keeping the earlier services in order. */
  method AddService(service: FakeBluetoothGattService)
    modifies this`gattServices
    ensures GetGattServices() == old(GetGattServices()) + [service]
  {
    gattServices := gattServices + [service];
  }
}

/** `set_connected` bypasses the gate of `connect`: a device that cannot connect ends up
    connected, so "connected only if connectable" is not an invariant of the device. */
method SetConnectedBypassesGate() returns (d: FakeBluetoothDevice)
  ensures d.IsConnected() && !d.IsConnectable() && !d.ConnectedOnlyIfConnectable()
{
  d := new FakeBluetoothDevice.NewEmpty();
  d.SetConnected(true);
}

/** On a connectable device, the first `connect` succeeds and the second one fails. */
method ConnectTwice() returns (first: Outcome, second: Outcome)
  ensures first == Pass
  ensures second == Fail("Could not connect to the device.")
{
  var d := new FakeBluetoothDevice.NewEmpty();
  d.SetConnectable(true);
  first := d.Connect();
  second := d.Connect();
}
