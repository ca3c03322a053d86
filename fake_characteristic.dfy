// The fake GATT characteristic: owned by a service, owner of an ordered list of descriptors.
// Its value is a byte string that `write_value` overwrites without consulting the flags, and
// its notification flag is only a flag: nothing is ever sent to a subscriber.

class FakeBluetoothGattCharacteristic {
  var id: string
  var uuid: string
  const service: FakeBluetoothGattService
  var value: seq<uint8>
  var isNotifying: bool
  var flags: seq<string>
  var gattDescriptors: seq<FakeBluetoothGattDescriptor>

  /** `new`: a characteristic with the given id, an empty uuid, value, flags and descriptor list,
      not notifying, appended to its service's characteristic list. */
  constructor New(id: string, service: FakeBluetoothGattService)
    modifies service`gattCharacteristics
    ensures GetId() == id && GetService() == service
    ensures GetUuid() == [] && GetValue() == [] && !IsNotifying() && GetFlags() == []
    ensures GetGattDescriptors() == []
    ensures service.GetGattCharacteristics() == old(service.GetGattCharacteristics()) + [this]
  {
    this.id := id;
    this.service := service;
    uuid, value, isNotifying, flags, gattDescriptors := [], [], false, [], [];
    new;
    service.AddCharacteristic(this);
  }

  /** `new_empty`: an empty characteristic whose service is a fresh placeholder service that
      does not list it. */
  constructor NewEmpty()
    ensures GetId() == [] && GetUuid() == [] && GetValue() == [] && !IsNotifying()
    ensures GetFlags() == [] && GetGattDescriptors() == []
    ensures fresh(service) && service.GetGattCharacteristics() == []
  {
    service := new FakeBluetoothGattService.NewEmpty();
    id, uuid, value, isNotifying, flags, gattDescriptors := [], [], [], false, [], [];
  }

  function GetId(): string reads this { id }

  method SetId(value: string)
    modifies this`id
    ensures GetId() == value
  {
    id := value;
  }

  function GetUuid(): string reads this { uuid }

  method SetUuid(value: string)
    modifies this`uuid
    ensures GetUuid() == value
  {
    uuid := value;
  }

  /** The service given at construction; it is never reassigned. */
  function GetService(): FakeBluetoothGattService { service }

  // Notification

  function IsNotifying(): bool reads this { isNotifying }

  method SetNotifying(value: bool)
    modifies this`isNotifying
    ensures IsNotifying() == value
  {
    isNotifying := value;
  }

  /** Turns notification on, whatever it was. */
  method StartNotify()
    modifies this`isNotifying
    ensures IsNotifying()
  {
    SetNotifying(true);
  }

  /** Turns notification off, whatever it was. */
  method StopNotify()
    modifies this`isNotifying
    ensures !IsNotifying()
  {
    SetNotifying(false);
  }

  function GetFlags(): seq<string> reads this { flags }

  method SetFlags(value: seq<string>)
    modifies this`flags
    ensures GetFlags() == value
  {
    flags := value;
  }

  // The descriptor registry

  /** A snapshot of the descriptor list. */
  function GetGattDescriptors(): seq<FakeBluetoothGattDescriptor> reads this { gattDescriptors }

  /** Replaces the whole list. */
  method SetGattDescriptors(value: seq<FakeBluetoothGattDescriptor>)
    modifies this`gattDescriptors
    ensures GetGattDescriptors() == value
  {
    gattDescriptors := value;
  }

  /** Appends at the end, keeping the earlier descriptors in order. */
  method AddDescriptor(descriptor: FakeBluetoothGattDescriptor)
    modifies this`gattDescriptors
    ensures GetGattDescriptors() == old(GetGattDescriptors()) + [descriptor]
  {
    gattDescriptors := gattDescriptors + [descriptor];
  }

  // The value

  function GetValue(): seq<uint8> reads this { value }

  /** Reading is getting the stored value: there is no round trip to a device. */
  function ReadValue(): seq<uint8> reads this { GetValue() }

  /** Overwrites the value, whatever the flags say; the flags are not read. */
  method WriteValue(newValue: seq<uint8>)
    modifies this`value
    ensures ReadValue() == newValue
  {
    value := newValue;
  }
}
