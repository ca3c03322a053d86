// The ownership tree adapter -> device -> service -> characteristic -> descriptor, built
// bottom-up by the constructors, each of which registers the new node with its parent.

/** Every node built through `new` is found again in the list of the parent its back-reference
    names, and the device is listed by its name on its adapter. */
method BuildChain(name: string, serviceId: string, characteristicId: string, descriptorId: string)
  returns (a: FakeBluetoothAdapter, d: FakeBluetoothDevice, s: FakeBluetoothGattService,
           c: FakeBluetoothGattCharacteristic, x: FakeBluetoothGattDescriptor)
  ensures d.GetAdapter() == a && a.GetDevices() == [d.GetName()]
  ensures s.GetDevice() == d && d.GetGattServices() == [s]
  ensures c.GetService() == s && s.GetGattCharacteristics() == [c]
  ensures x.GetCharacteristic() == c && c.GetGattDescriptors() == [x]
  ensures d.GetName() == name && s.GetId() == serviceId && c.GetId() == characteristicId && x.GetId() == descriptorId
{
  a := new FakeBluetoothAdapter.NewEmpty();
  d := new FakeBluetoothDevice.New(a, name);
  s := new FakeBluetoothGattService.New(serviceId, d);
  c := new FakeBluetoothGattCharacteristic.New(characteristicId, s);
  x := new FakeBluetoothGattDescriptor.New(descriptorId, c);
}
