// The fake GATT descriptor: owned by a characteristic; a byte value that `write_value`
// overwrites without consulting the flags.

class FakeBluetoothGattDescriptor {
  var id: string  // the object path
  var uuid: string
  const characteristic: FakeBluetoothGattCharacteristic
  var value: seq<uint8>
  var flags: seq<string>

  /** `new`: a descriptor with the given id and an empty uuid, value and flags, appended to its
      characteristic's descriptor list. */
  constructor New(id: string, characteristic: FakeBluetoothGattCharacteristic)
    modifies characteristic`gattDescriptors
    ensures GetId() == id && GetCharacteristic() == characteristic
    ensures GetUuid() == [] && GetValue() == [] && GetFlags() == []
    ensures characteristic.GetGattDescriptors() == old(characteristic.GetGattDescriptors()) + [this]
  {
    this.id := id;
    this.characteristic := characteristic;
    uuid, value, flags := [], [], [];
    new;
    characteristic.AddDescriptor(this);
  }

  /** `new_empty`: an empty descriptor whose characteristic is a fresh placeholder that does
      not list it. */
  constructor NewEmpty()
    ensures GetId() == [] && GetUuid() == [] && GetValue() == [] && GetFlags() == []
    ensures fresh(characteristic) && characteristic.GetGattDescriptors() == []
  {
    characteristic := new FakeBluetoothGattCharacteristic.NewEmpty();
    id, uuid, value, flags := [], [], [], [];
  }

  function GetId(): string reads this { id }

  method SetId(value: string)
    modifies this`id
    ensures GetId() == value
  {
    id := value;
  }

  function GetUuid(): string reads this { uuid }

  method SetUuid(value: string)
    modifies this`uuid
    ensures GetUuid() == value
  {
    uuid := value;
  }

  /** The characteristic given at construction; it is never reassigned. */
  function GetCharacteristic(): FakeBluetoothGattCharacteristic { characteristic }

  function GetFlags(): seq<string> reads this { flags }

  method SetFlags(value: seq<string>)
    modifies this`flags
    ensures GetFlags() == value
  {
    flags := value;
  }

  function GetValue(): seq<uint8> reads this { value }

  /** Reading is getting the stored value. */
  function ReadValue(): seq<uint8> reads this { GetValue() }

  /** Overwrites the value, whatever the flags say; the flags are not read. */
  method WriteValue(newValue: seq<uint8>)
    modifies this`value
    ensures ReadValue() == newValue
  {
    value := newValue;
  }
}
