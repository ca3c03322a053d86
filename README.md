# fake-blurz in Dafny

fake-blurz is an in-memory stand-in for a BlueZ-backed Bluetooth library. It provides a fake
adapter, fake remote devices, and the GATT services, characteristics and descriptors those
devices expose. Each is a plain record of attributes behind getters and setters. Test code fills
in the attributes and the code under test reads them back. Nothing talks to a radio or to D-Bus.

This project models the five fake objects as Dafny classes, one file per Rust source file.

- `fake_adapter.dfy`: `FakeBluetoothAdapter`, the adapter. It holds its attributes, the list of
  device names registered with it, the advertising-data list and a modalias string.
- `fake_device.dfy`: `FakeBluetoothDevice`, a remote device. It has a fixed adapter, an ordered
  list of GATT services, pairing and connection flags, and a modalias.
- `fake_service.dfy`, `fake_characteristic.dfy`, `fake_descriptor.dfy`: the GATT tree. Each node
  keeps a fixed reference to its parent. Its `New` constructor appends it to the parent's list.
- `modalias.dfy`: the modalias decoder shared by the adapter and the device. It decodes text of
  the form `<source>:v<VVVV>p<PPPP>d<DDDD>` into the source and three 16-bit ids. The file also
  holds a reference encoder for that format and the properties of both.
- `object_graph.dfy`: builds the ownership chain adapter → device → service → characteristic →
  descriptor and states that each link is registered in both directions.
- `common.dfy`: fixed-width integer ranges, UTF-8 byte strings, and the `Option`, `Result` and
  `Outcome` types.

How the model works:

- Each setter has a field-granular frame (`modifies this`field`). The frame shows that a setter
  changes only its own attribute. Its postcondition states that the getter returns the value
  written.
- `connect` and `disconnect` are the only gated operations. `connect` succeeds exactly on a device
  that is connectable and not yet connected. `disconnect` succeeds exactly on a connected device.
  Both keep "connected only if connectable". The plain setters `set_connected` and
  `set_connectable` do not keep it, and `SetConnectedBypassesGate` shows this on a concrete device.
- The modalias is modelled as UTF-8 bytes, because the source slices the string at byte offsets.
- Every input on which the source's `get_modalias` panics decodes to `None`. On a valid UTF-8
  string the source panics in these cases:
  - the string has no `:`;
  - the second piece is shorter than 15 bytes;
  - a slice boundary falls inside a multi-byte character;
  - `from_hex` rejects a group.

  In each of these cases at least one of the three four-byte groups, or the piece itself, is
  malformed. `DecodeShape` states the complete decoding function digit by digit.
  `EncodeDecode` proves that decoding inverts the reference encoder.

## Model

| member | source | states |
|---|---|---|
| `Split` | src/fake_device.rs:382 | the pieces of the modalias around every `:` as `split` yields them: at least one, none containing the separator; the first is a prefix of the text, and when there are two or more the byte right after the first piece is the separator |
| `JoinSplit` | src/fake_device.rs:382 | joining the pieces with the separator gives back the text: splitting loses nothing |
| `SplitJoin` | src/fake_device.rs:382 | splitting the join of separator-free pieces gives back the pieces |
| `SplitNoSeparator` | src/fake_device.rs:382 | text without a `:` splits into itself alone, so `ids[1]` does not exist |
| `SplitAtFirst` | src/fake_device.rs:382-384 | the first piece is the text before the first separator and the rest is the split of the text after it |
| `FromHex` | src/fake_device.rs:385 | `from_hex`: succeeds exactly on an even number of hex digits (0-9, a-f, A-F) and yields one byte per two digits, 16 * high + low |
| `ToHex` | src/fake_device.rs:385 | reference encoder for `from_hex`: two hex digits per byte |
| `FromHexToHex` | src/fake_device.rs:385 | `from_hex` of the hex text of any bytes gives back those bytes |
| `HexGroup` | src/fake_device.rs:385-392 | one id: four hex digits decoded to two bytes and combined high * 256 + low; always below 65536 |
| `DecodeModalias` | src/fake_device.rs:382-392 | on success the source is a colon-free prefix of the text followed by the first `:`, and the three ids are below 65536; every panic of the source is None |
| `HexGroupValue` | src/fake_device.rs:385-392 | an id group decodes exactly when its four bytes are hex digits, to 4096*d1 + 256*d2 + 16*d3 + d4 |
| `SecondPiece` | src/fake_device.rs:382-385 | the ids are read from the text between the first and the second `:`; the source is the (possibly empty) text before the first |
| `DecodeAccepts` | src/fake_device.rs:382-392 | for `src:seg...` with a segment of 15 bytes or more and hex digits at 1-4, 6-9 and 11-14, the result is the source `src` and the digit-by-digit values |
| `DecodeRejects` | src/fake_device.rs:382-387 | for `src:seg...` with a segment shorter than 15 bytes or a non-hex byte in a group, decoding fails (the source panics) |
| `DecodeShape` | src/fake_device.rs:376-393 | complete description of decoding any text that contains a `:`: success exactly on a well-formed segment, with source and digit values |
| `NoColonFails` | src/fake_device.rs:382-385 | a modalias without `:` fails (the source indexes the missing second piece) |
| `SameGroup` | src/fake_device.rs:385-387 | two segments equal on four bytes agree on that group, in validity and value |
| `OnlyIdDigitsMatter` | src/fake_device.rs:385-387 | the letters at offsets 0, 5 and 10, bytes past offset 15 and text after the second `:` never change the result |
| `EncodeModalias` | src/fake_device.rs:382-392 | the text `<source>:v<VVVV>p<PPPP>d<DDDD>` of a colon-free source and 16-bit ids is 16 bytes longer than the source |
| `EncodeDecode` | src/fake_device.rs:376-393 | decoding the text of any modalias with a colon-free source and 16-bit ids gives it back |
| `BluetoothExample` | src/fake_device.rs:382-392 | `bluetooth:v1234p5678d9ABC` decodes to source `bluetooth`, 4660, 22136, 39612 |
| `MissingColonExample` | src/fake_device.rs:382-385 | `bluetoothv1234p5678d9ABC` does not decode |
| `FakeBluetoothAdapter.New` | src/fake_adapter.rs:31-70 | every field takes its argument |
| `FakeBluetoothAdapter.NewEmpty` | src/fake_adapter.rs:72-93 | every boolean false, every number 0, every string and list empty |
| `FakeBluetoothAdapter.SetId` | src/fake_adapter.rs:95-109 | afterwards the getter returns the written value for the id; no other field changes |
| `FakeBluetoothAdapter.SetPresent` | src/fake_adapter.rs:111-125 | afterwards the getter returns the written value for `is_present`; no other field changes |
| `FakeBluetoothAdapter.SetPowered` | src/fake_adapter.rs:127-133 | afterwards the getter returns the written value for `is_powered`; no other field changes |
| `FakeBluetoothAdapter.SetCanStartDiscovery` | src/fake_adapter.rs:135-141 | afterwards the getter returns the written value for `can_start_discovery`; no other field changes |
| `FakeBluetoothAdapter.SetCanStopDiscovery` | src/fake_adapter.rs:143-149 | afterwards the getter returns the written value for `can_stop_discovery` (read by `get_can_stop_siscovery`); no other field changes |
| `FakeBluetoothAdapter.SetAddress` | src/fake_adapter.rs:193-199 | afterwards the getter returns the written value for the address; no other field changes |
| `FakeBluetoothAdapter.SetName` | src/fake_adapter.rs:201-207 | afterwards the getter returns the written value for the name; no other field changes |
| `FakeBluetoothAdapter.SetAlias` | src/fake_adapter.rs:213-220 | afterwards the getter returns the written value for the alias; no other field changes |
| `FakeBluetoothAdapter.SetClass` | src/fake_adapter.rs:222-228 | afterwards the getter returns the written value for the class; no other field changes |
| `FakeBluetoothAdapter.SetDiscoverable` | src/fake_adapter.rs:230-236 | afterwards the getter returns the written value for `is_discoverable`; no other field changes |
| `FakeBluetoothAdapter.SetPairable` | src/fake_adapter.rs:238-244 | afterwards the getter returns the written value for `is_pairable`; no other field changes |
| `FakeBluetoothAdapter.SetPairableTimeout` | src/fake_adapter.rs:246-252 | afterwards the getter returns the written value for the pairable timeout; no other field changes |
| `FakeBluetoothAdapter.SetDiscoverableTimeout` | src/fake_adapter.rs:254-260 | afterwards the getter returns the written value for the discoverable timeout; no other field changes |
| `FakeBluetoothAdapter.SetDiscovering` | src/fake_adapter.rs:262-268 | afterwards the getter returns the written value for `is_discovering`; no other field changes |
| `FakeBluetoothAdapter.SetUuids` | src/fake_adapter.rs:270-276 | afterwards the getter returns the written value for the uuid list; no other field changes |
| `FakeBluetoothAdapter.SetDevices` | src/fake_adapter.rs:159-165 | replaces the device list wholesale; `GetDevices` then returns exactly that list |
| `FakeBluetoothAdapter.AddDevice` | src/fake_adapter.rs:167-169 | the list grows by one, the new entry last and the earlier entries unchanged; duplicates are not rejected |
| `FakeBluetoothAdapter.GetFirstDevice` | src/fake_adapter.rs:171-176 | error "No device found." exactly on an empty list, otherwise element 0; the list is only read |
| `FakeBluetoothAdapter.SetAddatas` | src/fake_adapter.rs:178-184 | replaces the advertising data list wholesale; `GetAddatas` then returns exactly that list |
| `FakeBluetoothAdapter.GetFirstAddata` | src/fake_adapter.rs:186-191 | error "No addata found." exactly on an empty list, otherwise element 0 |
| `FakeBluetoothAdapter.GetModalias` | src/fake_adapter.rs:278-290 | re-decodes the stored string: on success the source is a colon-free prefix followed by `:` |
| `FakeBluetoothAdapter.SetModalias` | src/fake_adapter.rs:292-294 | stores the string; `GetModalias` then equals decoding it, so every derived id follows at once |
| `FakeBluetoothAdapter.GetVendorIdSource` | src/fake_adapter.rs:296-299 | fails exactly when decoding fails; otherwise the text before the first `:` |
| `FakeBluetoothAdapter.GetVendorId` | src/fake_adapter.rs:301-304 | fails exactly when decoding fails; otherwise the vendor component, below 65536 |
| `FakeBluetoothAdapter.GetProductId` | src/fake_adapter.rs:306-309 | fails exactly when decoding fails; otherwise the product component, below 65536 |
| `FakeBluetoothAdapter.GetDeviceId` | src/fake_adapter.rs:311-314 | fails exactly when decoding fails; otherwise the device component, below 65536 |
| `FakeBluetoothDevice.New` | src/fake_device.rs:78-108 | name from the argument, every other attribute false, 0 or empty, the adapter fixed; the adapter list gains the name at its end |
| `FakeBluetoothDevice.NewEmpty` | src/fake_device.rs:110-133 | all attributes default and the name empty; its adapter is a fresh empty adapter that does not list it |
| `FakeBluetoothDevice.GetAdapter` | src/fake_device.rs:152-154 | the adapter given at construction (`New` ensures it); a `const`, never reassigned |
| `FakeBluetoothDevice.SetId` | src/fake_device.rs:135-149 | afterwards the getter returns the written value for the id; no other field changes |
| `FakeBluetoothDevice.SetAddress` | src/fake_device.rs:161-175 | afterwards the getter returns the written value for the address; no other field changes |
| `FakeBluetoothDevice.SetName` | src/fake_device.rs:177-191 | afterwards the getter returns the written value for the name; no other field changes |
| `FakeBluetoothDevice.SetIcon` | src/fake_device.rs:193-207 | afterwards the getter returns the written value for the icon; no other field changes |
| `FakeBluetoothDevice.SetClass` | src/fake_device.rs:209-223 | afterwards the getter returns the written value for the class; no other field changes |
| `FakeBluetoothDevice.SetAppearance` | src/fake_device.rs:225-239 | afterwards the getter returns the written value for the appearance; no other field changes |
| `FakeBluetoothDevice.SetUuids` | src/fake_device.rs:241-255 | afterwards the getter returns the written value for the uuid list; no other field changes |
| `FakeBluetoothDevice.SetTrusted` | src/fake_device.rs:312-326 | afterwards the getter returns the written value for `is_trusted`; no other field changes |
| `FakeBluetoothDevice.SetBlocked` | src/fake_device.rs:328-342 | afterwards the getter returns the written value for `is_blocked`; no other field changes |
| `FakeBluetoothDevice.SetAlias` | src/fake_device.rs:344-358 | afterwards the getter returns the written value for the alias; no other field changes |
| `FakeBluetoothDevice.SetLegacyPairing` | src/fake_device.rs:360-374 | afterwards the getter returns the written value for `is_legacy_pairing`; no other field changes |
| `FakeBluetoothDevice.SetRssi` | src/fake_device.rs:422-436 | afterwards the getter returns the written value for the RSSI; no other field changes |
| `FakeBluetoothDevice.SetTxPower` | src/fake_device.rs:438-452 | afterwards the getter returns the written value for the TX power; no other field changes |
| `FakeBluetoothDevice.Pair` | src/fake_device.rs:266-271 | succeeds and leaves the device paired whatever its state, so it is idempotent; only `is_paired` changes |
| `FakeBluetoothDevice.CancelPairing` | src/fake_device.rs:273-278 | succeeds and leaves the device not paired whatever its state; only `is_paired` changes |
| `FakeBluetoothDevice.SetConnected` | src/fake_device.rs:289-294 | overwrites `is_connected` without consulting `is_connectable`; afterwards connected-only-if-connectable holds exactly when the value is false or the device is connectable |
| `FakeBluetoothDevice.SetConnectable` | src/fake_device.rs:305-310 | overwrites `is_connectable` without consulting `is_connected`; afterwards connected-only-if-connectable holds exactly when the value is true or the device is not connected |
| `FakeBluetoothDevice.Connect` | src/fake_device.rs:485-492 | succeeds exactly when connectable and not connected beforehand, and then the device is connected; otherwise the error "Could not connect to the device." and nothing changes; keeps connected-only-if-connectable |
| `FakeBluetoothDevice.Disconnect` | src/fake_device.rs:494-501 | succeeds exactly when connected beforehand; afterwards not connected; otherwise the error "The device is not connected." and nothing changes |
| `FakeBluetoothDevice.GetModalias` | src/fake_device.rs:376-393 | re-decodes the stored string: on success the source is a colon-free prefix followed by `:` |
| `FakeBluetoothDevice.SetModalias` | src/fake_device.rs:395-400 | stores the string; `GetModalias` then equals decoding it, so every derived id follows at once |
| `FakeBluetoothDevice.GetVendorIdSource` | src/fake_device.rs:402-405 | fails exactly when decoding fails; otherwise the text before the first `:` |
| `FakeBluetoothDevice.GetVendorId` | src/fake_device.rs:407-410 | fails exactly when decoding fails; otherwise the vendor component, below 65536 |
| `FakeBluetoothDevice.GetProductId` | src/fake_device.rs:412-415 | fails exactly when decoding fails; otherwise the product component, below 65536 |
| `FakeBluetoothDevice.GetDeviceId` | src/fake_device.rs:417-420 | fails exactly when decoding fails; otherwise the device component, below 65536 |
| `FakeBluetoothDevice.SetGattServices` | src/fake_device.rs:454-468 | replaces the service list; `GetGattServices` then returns exactly that list |
| `FakeBluetoothDevice.AddService` | src/fake_device.rs:470-475 | appends at the end, earlier services kept in order |
| `SetConnectedBypassesGate` | src/fake_device.rs:289-294 | a device that is not connectable can be made connected: connected-only-if-connectable is not an invariant of the device |
| `ConnectTwice` | src/fake_device.rs:485-492 | on a connectable, disconnected device the first `connect` succeeds and the second fails |
| `FakeBluetoothGattService.New` | src/fake_service.rs:35-48 | the id passed in, not primary, empty uuid, no characteristics, no includes, the device fixed; the device list gains the service at its end |
| `FakeBluetoothGattService.NewEmpty` | src/fake_service.rs:50-59 | all empty; its device is a fresh placeholder that does not list it |
| `FakeBluetoothGattService.GetDevice` | src/fake_service.rs:77-79 | the device given at construction (`New` ensures it); a `const`, never reassigned |
| `FakeBluetoothGattService.SetId` | src/fake_service.rs:61-75 | afterwards `GetId` returns the written value; no other field changes |
| `FakeBluetoothGattService.SetGattCharacteristics` | src/fake_service.rs:85-99 | replaces the characteristic list; `GetGattCharacteristics` then returns exactly that list |
| `FakeBluetoothGattService.AddCharacteristic` | src/fake_service.rs:101-106 | appends at the end, earlier characteristics kept in order |
| `FakeBluetoothGattService.SetIsPrimary` | src/fake_service.rs:108-122 | afterwards `IsPrimary` returns the written value; no other field changes |
| `FakeBluetoothGattService.SetIncludes` | src/fake_service.rs:124-138 | afterwards `GetIncludes` returns the written list; the characteristic list is untouched |
| `FakeBluetoothGattService.SetUuid` | src/fake_service.rs:140-154 | afterwards `GetUuid` returns the written value; no other field changes |
| `FakeBluetoothGattCharacteristic.New` | src/fake_characteristic.rs:39-53 | the id passed in, empty uuid, value, flags and descriptors, not notifying, the service fixed; the service list gains it at its end |
| `FakeBluetoothGattCharacteristic.NewEmpty` | src/fake_characteristic.rs:55-65 | all empty; its service is a fresh placeholder that does not list it |
| `FakeBluetoothGattCharacteristic.GetService` | src/fake_characteristic.rs:99-101 | the service given at construction (`New` ensures it); a `const`, never reassigned |
| `FakeBluetoothGattCharacteristic.SetId` | src/fake_characteristic.rs:67-81 | afterwards `GetId` returns the written value; no other field changes |
| `FakeBluetoothGattCharacteristic.SetUuid` | src/fake_characteristic.rs:83-97 | afterwards `GetUuid` returns the written value; no other field changes |
| `FakeBluetoothGattCharacteristic.SetNotifying` | src/fake_characteristic.rs:108-122 | afterwards `IsNotifying` returns the written value; no other field changes |
| `FakeBluetoothGattCharacteristic.StartNotify` | src/fake_characteristic.rs:124-126 | notifying afterwards whatever it was (idempotent); only the flag changes |
| `FakeBluetoothGattCharacteristic.StopNotify` | src/fake_characteristic.rs:128-130 | not notifying afterwards whatever it was (idempotent); only the flag changes |
| `FakeBluetoothGattCharacteristic.SetFlags` | src/fake_characteristic.rs:132-146 | afterwards `GetFlags` returns the written list; no other field changes |
| `FakeBluetoothGattCharacteristic.SetGattDescriptors` | src/fake_characteristic.rs:148-162 | replaces the descriptor list; `GetGattDescriptors` then returns exactly that list |
| `FakeBluetoothGattCharacteristic.AddDescriptor` | src/fake_characteristic.rs:164-169 | appends at the end, earlier descriptors kept in order |
| `FakeBluetoothGattCharacteristic.WriteValue` | src/fake_characteristic.rs:171-189 | `ReadValue` (which is `GetValue`) afterwards returns exactly the written bytes, the empty sequence included; the flags are neither required nor changed |
| `FakeBluetoothGattDescriptor.New` | src/fake_descriptor.rs:31-43 | the id passed in, empty uuid, value and flags, the characteristic fixed; the characteristic list gains it at its end |
| `FakeBluetoothGattDescriptor.NewEmpty` | src/fake_descriptor.rs:45-53 | all empty; its characteristic is a fresh placeholder that does not list it |
| `FakeBluetoothGattDescriptor.GetCharacteristic` | src/fake_descriptor.rs:87-89 | the characteristic given at construction (`New` ensures it); a `const`, never reassigned |
| `FakeBluetoothGattDescriptor.SetId` | src/fake_descriptor.rs:55-69 | afterwards `GetId` returns the written value; no other field changes |
| `FakeBluetoothGattDescriptor.SetUuid` | src/fake_descriptor.rs:71-85 | afterwards `GetUuid` returns the written value; no other field changes |
| `FakeBluetoothGattDescriptor.SetFlags` | src/fake_descriptor.rs:95-109 | afterwards `GetFlags` returns the written list; no other field changes |
| `FakeBluetoothGattDescriptor.WriteValue` | src/fake_descriptor.rs:111-129 | `ReadValue` (which is `GetValue`) afterwards returns exactly the written bytes; the flags are neither required nor changed |
| `BuildChain` | src/fake_service.rs:46 | each node built by `new` is in the list of the parent its back-reference names, with the ids given; the device is listed on its adapter by name |

## Left out

- Mutex poisoning: the device, the GATT objects, and the adapter's id and presence flag each keep an attribute behind an `Arc<Mutex<…>>`. When the lock is poisoned, a getter returns the error "Could not get the value." (`get_id` returns the empty string instead), and a setter panics in `unwrap`. Single-threaded code never poisons a lock, so the model has no such path. Getters are plain functions and setters always succeed.
- Concurrency and sharing: `Arc` clones share one attribute cell between clones of an object. The model has one object per Rust value and no clones. Two threads racing on one attribute are not modelled.
- `Clone` and `Debug` implementations are left out; they copy or print and state nothing.
- `connect_profile` and `disconnect_profile` are left out. Both are `unimplemented!()`, so every call panics.
- `FakeBluetoothDevice.New`: the source first asks the adapter for an existing device with the same name and returns it when one exists. `FakeBluetoothAdapter` defines no `get_device`. Its device list holds strings, while the device constructor appends a device. Also, `add_device` takes `&mut self` (src/fake_adapter.rs:167), but the device constructor calls it through the shared `Arc<FakeBluetoothAdapter>` (src/fake_device.rs:78, 106), and called that way it cannot change the adapter. The model registers the new device by name, always builds a new device, and lets the constructor modify the adapter's list (``modifies adapter`devices``). That is the behaviour the code evidently intends, not the behaviour the code as written can have.
- `FromHex` does not skip whitespace the way `from_hex` does. With whitespace in a four-byte group, `from_hex` yields fewer than two bytes or fails, and the source then panics. So the decoder's result is exact for the groups it reads.
- `DecodeModalias` returns `None` where the source panics. The source has no error path there: it indexes a missing piece, slices out of range or unwraps a failed `from_hex`. A panic and an error are the same "no value" for a caller of the model.
- Invalid UTF-8 is out of scope: a Rust `String` is always valid UTF-8, so the model's byte strings are assumed to come from one.
- `product_version` has no getter or setter in the source. The model keeps the field only for the constructors.
- No lookup of a device, service, characteristic or descriptor by id exists in the source, so none is modelled.
- The adapter's getter `get_can_stop_siscovery` is modelled as `GetCanStopDiscovery`: the misspelling is corrected in the name only.
- Commented-out code and imports in the sources are not modelled.

## Behaviour worth knowing

- A malformed modalias is not an error result: `get_modalias` panics (src/fake_device.rs:382-387, src/fake_adapter.rs:279-284), and the model returns `None`.
- "Connected implies connectable" is not an invariant of the device. `connect`, `disconnect`, `set_connected(false)`, `set_connectable(true)` and every operation that touches neither flag keep it. Only `set_connected(true)` on a device that is not connectable and `set_connectable(false)` on a connected device break it (`FakeBluetoothDevice.SetConnected`, `FakeBluetoothDevice.SetConnectable`, `SetConnectedBypassesGate`).
