# Web Bluetooth test fixtures: characteristic properties, request options, UUID aliases

This project models the three pieces of `bluetooth/resources/bluetooth-fake-devices.js`
that have behaviour of their own. The rest of that file only chains calls into the fake
Bluetooth backend and the Web Bluetooth API. The three pieces are:

- **`TestCharacteristicProperties`**: a record of the nine GATT characteristic-property
  flags (`broadcast`, `read`, `writeWithoutResponse`, `write`, `notify`, `indicate`,
  `authenticatedSignedWrites`, `reliableWrite`, `writableAuxiliaries`). It is built from a
  list of flag names. The constructor starts with every flag false. It then sets the flag
  named by each element. It throws `Invalid member '<name>'` at the first element that is
  not one of the record's own fields. The model (`CharacteristicProperties`) is a pure
  function from `seq<string>` to `Result<Props, string>`. It is proved to set exactly the
  named flags, to fail exactly when some name is unknown, and to report the first unknown
  name. When construction succeeds, repeating or reordering the names does not change the
  record; when it fails, the order decides which bad name is reported. Every flag record
  can be built.
- **`generateRequestDeviceArgsWithServices`**: it builds eight `requestDevice()` option
  records from a `services` list, which defaults to `['heart_rate']`. The model
  (`RequestDeviceArgs`) is proved to return one single-filter record for each combination
  of the filter's `name` / `namePrefix` and the presence of `optionalServices`. Each
  combination appears exactly once, in the source's order.
- **The alias / name / UUID identity triples**: twelve well-known services,
  characteristics and descriptors. `BluetoothUuid` defines the expansion of a 16-bit alias
  into a full UUID under the Bluetooth Base UUID `00000000-0000-1000-8000-00805F9B34FB`
  (Bluetooth Core Specification v4.2, Vol 3, Part B, section 2.5.1). In text form this
  puts the alias's four lower-case hex digits at positions 4-8 of
  `0000xxxx-0000-1000-8000-00805f9b34fb`. It also defines the inverse, which shortens a
  UUID back to its alias. `GattIdentities` and `GattIdentityTable` hold the triples as
  they are declared and prove that every triple's `uuid` is the expansion of its `alias`.

`Wrappers` holds the `Option` and `Result` types. `None` stands for JavaScript's
`undefined`, and `Failure` stands for a thrown string.

## Model

| member | source | states |
|---|---|---|
| `CharacteristicProperties.FlagOf` | bluetooth/resources/bluetooth-fake-devices.js:126-137 | the own-property lookup: a string names a flag exactly when it is one of the nine field names; anything else, including inherited members, names none |
| `CharacteristicProperties.Set` | bluetooth/resources/bluetooth-fake-devices.js:138 | assigning `this[val] = true` makes that flag true and leaves the other eight unchanged |
| `CharacteristicProperties.Apply` | bluetooth/resources/bluetooth-fake-devices.js:136-141 | the `forEach` loop: it succeeds exactly when every name is a flag name; on success a flag is set exactly when it was already set or its name occurs in the list; on failure the error is `Invalid member '<n>'` for the first non-flag element `n` |
| `CharacteristicProperties.Build` | bluetooth/resources/bluetooth-fake-devices.js:123-143 | the constructor: it succeeds exactly when every element is a flag name; on success each flag is true exactly when its name occurs in the list; on failure it reports the first bad element |
| `CharacteristicProperties.BuildEmpty` | bluetooth/resources/bluetooth-fake-devices.js:125-134 | the empty list yields the record with all nine flags false |
| `CharacteristicProperties.BuildFailsAtFirstInvalid` | bluetooth/resources/bluetooth-fake-devices.js:136-141 | if element `i` is the first non-flag name, construction fails with exactly `Invalid member '<element i>'`, whatever follows it |
| `CharacteristicProperties.InheritedMemberRejected` | bluetooth/resources/bluetooth-fake-devices.js:137-140 | `constructor` is not an own field, so `['constructor']` is rejected with `Invalid member 'constructor'` |
| `CharacteristicProperties.InvalidMemberInjective` | bluetooth/resources/bluetooth-fake-devices.js:140 | the thrown message determines the offending name: different names give different messages |
| `CharacteristicProperties.BuildDependsOnlyOnNameSet` | bluetooth/resources/bluetooth-fake-devices.js:136-138 | two lists with the same elements, repeated or reordered, either both fail or both build the same record |
| `CharacteristicProperties.BuildNamesOf` | bluetooth/resources/bluetooth-fake-devices.js:123-143 | every flag record is what the constructor builds from the names of its set flags |
| `RequestDeviceArgs.GenerateRequestDeviceArgsWithServices` | bluetooth/resources/bluetooth-fake-devices.js:154-173 | exactly eight records; each has one filter whose `services` is the argument, or `['heart_rate']` when it is `undefined`; records 0-3 have no `optionalServices` and 4-7 have `['heart_rate']`; `name: 'Name'` is on the odd records and `namePrefix: 'Pre'` on records 2, 3, 6 and 7 |
| `RequestDeviceArgs.GeneratedOptionsDistinct` | bluetooth/resources/bluetooth-fake-devices.js:155-172 | the eight records are pairwise different |
| `RequestDeviceArgs.GeneratedOptionsCoverAllCombinations` | bluetooth/resources/bluetooth-fake-devices.js:155-172 | every combination of name, name prefix and optional services occurs among the records, so the result is the whole cross product |
| `RequestDeviceArgs.DefaultServicesArgument` | bluetooth/resources/bluetooth-fake-devices.js:154 | a call with `undefined`, passed or omitted, is the same as a call with `['heart_rate']` |
| `BluetoothUuid.AliasToUuidShape` | bluetooth/resources/bluetooth-fake-devices.js:38-47 | an alias's UUID starts with `0000`, ends with the Base UUID's `-0000-1000-8000-00805f9b34fb`, and its characters 4-8 are lower-case hex whose value is the alias |
| `BluetoothUuid.UuidToAliasOfAlias` | bluetooth/resources/bluetooth-fake-devices.js:38-47 | shortening the expansion of an alias gives back that alias |
| `BluetoothUuid.AliasToUuidOfShortened` | bluetooth/resources/bluetooth-fake-devices.js:38-47 | a UUID that shortens to an alias is exactly that alias's expansion, so expansion and shortening are inverse |
| `BluetoothUuid.AliasToUuidInjective` | bluetooth/resources/bluetooth-fake-devices.js:38-102 | different aliases expand to different UUIDs |
| `GattIdentities.ServiceTriplesConsistent` | bluetooth/resources/bluetooth-fake-devices.js:43-82 | `generic_access`, `heart_rate`, `health_thermometer`, `glucose` and `battery_service` each have a `uuid` that is the expansion of their `alias` |
| `GattIdentities.CharacteristicTriplesConsistent` | bluetooth/resources/bluetooth-fake-devices.js:48-102 | `gap.device_name`, `gap.reconnection_address`, `body_sensor_location`, `battery_level` and `measurement_interval` each have a `uuid` that is the expansion of their `alias` |
| `GattIdentities.DescriptorTriplesConsistent` | bluetooth/resources/bluetooth-fake-devices.js:88-97 | the two descriptor triples each have a `uuid` that is the expansion of their `alias` |
| `GattIdentityTable.TableConsistent` | bluetooth/resources/bluetooth-fake-devices.js:38-102 | for every triple, `uuid` is the Base UUID expansion of `alias` |
| `GattIdentityTable.TableUuidsShortenToAliases` | bluetooth/resources/bluetooth-fake-devices.js:38-102 | for every triple, shortening `uuid` gives `alias`, so alias and UUID refer to the same attribute |

## Left out

- The promise-chain builders (`setUp*`, `get*Device`, `get*Service`, `get*Characteristic`, `get*Descriptor`, `populateHealthThermometerFakes`, `simulateGATTDisconnectionAndWait`) are not modelled. They only sequence calls into the fake Bluetooth backend and the Web Bluetooth API, which are outside this model.
- The iframe loading, `postMessage` handling and trusted-click helpers are not modelled. They are DOM and test-harness I/O.
- The HCI and GATT error-code constants, the health thermometer advertisement packet and the blocklist and disconnection UUIDs are not modelled. They are static data with no behaviour; blocklist semantics live in an external registry.
- `CharacteristicProperties.Build` takes a list of strings. The source walks any value with a callable `forEach` (an array, but also a `Set`, a `Map`, a `NodeList` or a typed array) and throws a TypeError for a value without one. Non-string elements are converted to property keys before the own-property check. None of these cases is modelled.
- `CharacteristicProperties.Build` cannot take a name holding a lone UTF-16 surrogate. A JavaScript string is a sequence of UTF-16 code units and may hold one, but a Dafny `string` cannot. Such a name is never a flag name, so the source rejects it like any other unknown name.
- `CharacteristicProperties.Build` returns a fresh record or the error. In the source the record is partly updated before the throw, but it is then discarded, so nothing can observe that state.
- `RequestDeviceArgs.GenerateRequestDeviceArgsWithServices` takes `services` as a list. Its elements may be any value: a string, or a value of the type parameter `T`. The source passes on whatever value it is given, lists or not; a value that is not a list is not modelled. The default applies when the argument is `undefined`, whether it was passed explicitly or left out, and `None` stands for both. Every generated filter shares the same `services` object in the source. The model does not track that aliasing, because the records are values.
- `BluetoothUuid.AliasToUuid` is stated in its text form: the Base UUID with the alias's four hex digits in place. The 128-bit arithmetic of the standard (alias times 2^96 plus the base) is not restated as numbers. The text form is the one the triples use.
- The `name` field of each triple is carried as data only. Resolving a GATT name to a UUID is done by the browser's registry, which is not part of this model.
