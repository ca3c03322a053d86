// The fake GATT service: owned by a device, owner of an ordered list of characteristics, and
// holding a list of the services it includes.

class FakeBluetoothGattService {
  var id: string
  const device: FakeBluetoothDevice
  var gattCharacteristics: seq<FakeBluetoothGattCharacteristic>
  var isPrimary: bool
  var includedServices: seq<FakeBluetoothGattService>
  var uuid: string

  /** `new`: a service with the given id, not primary, with an empty uuid, no characteristics and
      no included services, appended to its device's service list. */
  constructor New(id: string, device: FakeBluetoothDevice)
    modifies device`gattServices
    ensures GetId() == id && GetDevice() == device
    ensures !IsPrimary() && GetUuid() == [] && GetGattCharacteristics() == [] && GetIncludes() == []
    ensures device.GetGattServices() == old(device.GetGattServices()) + [this]
  {
    this.id := id;
    this.device := device;
    gattCharacteristics, isPrimary, includedServices, uuid := [], false, [], [];
    new;
    device.AddService(this);
  }

  /** `new_empty`: an empty service whose device is a fresh placeholder device that does not
      list it. */
  constructor NewEmpty()
    ensures GetId() == [] && !IsPrimary() && GetUuid() == []
    ensures GetGattCharacteristics() == [] && GetIncludes() == []
    ensures fresh(device) && device.GetGattServices() == []
  {
    device := new FakeBluetoothDevice.NewEmpty();
    id, gattCharacteristics, isPrimary, includedServices, uuid := [], [], false, [], [];
  }

  function GetId(): string reads this { id }

  method SetId(value: string)
    modifies this`id
    ensures GetId() == value
  {
    id := value;
  }

  /** The device given at construction; it is never reassigned. */
  function GetDevice(): FakeBluetoothDevice { device }

  /** A snapshot of the characteristic list. */
  function GetGattCharacteristics(): seq<FakeBluetoothGattCharacteristic> reads this { gattCharacteristics }

  /** Replaces the whole list. */
  method SetGattCharacteristics(value: seq<FakeBluetoothGattCharacteristic>)
    modifies this`gattCharacteristics
    ensures GetGattCharacteristics() == value
  {
    gattCharacteristics := value;
  }

  /** Appends at the end, keeping the earlier characteristics in order. */
  method AddCharacteristic(characteristic: FakeBluetoothGattCharacteristic)
    modifies this`gattCharacteristics
    ensures GetGattCharacteristics() == old(GetGattCharacteristics()) + [characteristic]
  {
    gattCharacteristics := gattCharacteristics + [characteristic];
  }

  function IsPrimary(): bool reads this { isPrimary }

  method SetIsPrimary(value: bool)
    modifies this`isPrimary
    ensures IsPrimary() == value
  {
    isPrimary := value;
  }

  /** The included services: references only, never registered with anything. */
  function GetIncludes(): seq<FakeBluetoothGattService> reads this { includedServices }

  method SetIncludes(value: seq<FakeBluetoothGattService>)
    modifies this`includedServices
    ensures GetIncludes() == value
  {
    includedServices := value;
  }

  function GetUuid(): string reads this { uuid }

  method SetUuid(value: string)
    modifies this`uuid
    ensures GetUuid() == value
  {
    uuid := value;
  }
}
