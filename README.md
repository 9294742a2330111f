# simplipy: v3 sensor properties and the package error hierarchy

This project models two parts of the `simplipy` client for SimpliSafe home-security
systems, and proves properties of them in Dafny.

- **The derived properties of a v3 sensor** (`SensorV3` in `sensor_v3.dfy`). A sensor
  reads its record from its system's sensor data. That data is a dictionary from serial
  number to a record holding a `setting` and a `status` dictionary. `trigger_instantly`,
  `triggered` and `temperature` read those two dictionaries. `as_dict` adds the derived
  values to the base device dictionary. Python dictionaries and their values are the
  datatype `Value`. A raised Python exception (`KeyError`, `TypeError`,
  `AttributeError`) is a `Failure` result, so each error path of the source is modelled
  rather than excluded by a precondition. The datatype `Device.DeviceType` holds the seven
  types the rules name, plus `Keypad` (the type tests/sensor/test_base.py:24 checks).
  Every other member of the `DeviceTypes` enumeration is `OtherType(name)`.
- **The error taxonomy** (`Errors` in `errors.dfy`). Each exception class is a
  constructor of `ErrorKind`. `Parent` gives the base class named in each class
  statement. `IsA(k, a)` is Python's `issubclass(k, a)` restricted to the package.
  `Mro` is the method resolution order inside the package. `Level` is how far below
  the root a class is declared. It is an independent table that `Parent` is checked
  against.

Every sensor property is a Dafny function of the sensor data. So reading a property
cannot change the sensor or the system's data: the functional form proves the
"reading changes nothing" property by construction. `wrappers.dfy` holds the `Option`
and `Result` types.

The `cast(bool, …)` and `cast(int, …)` calls in the source convert nothing at run time.
So the model's properties return the stored value unchanged. For example, a
non-boolean `instantTrigger` entry comes back as it is.

## Model

| member | source | states |
|---|---|---|
| `SensorV3.Subscript` | simplipy/device/sensor/v3.py:24-25 | `value[key]` succeeds exactly when the value is a dictionary holding the key, and returns that entry. On a non-dictionary it raises `TypeError`. On a dictionary without the key it raises `KeyError(key)`. Used for the record lookups at lines 24, 46 and 65. |
| `SensorV3.Get` | simplipy/device/sensor/v3.py:24-27 | `value.get(key, default)` succeeds exactly when the value is a dictionary. It returns the entry when the key is present and the default otherwise. On a non-dictionary it raises `AttributeError`. Used at lines 24-25 and 46-47. |
| `SensorV3.SectionOf` | simplipy/device/sensor/v3.py:24 | `sensor_data[serial][section]` succeeds exactly when the record exists, is a dictionary and holds the section. A missing serial raises `KeyError(serial)`, a non-dictionary record raises `TypeError`, and a missing section raises `KeyError(section)`. |
| `SensorV3.TriggerInstantly` | simplipy/device/sensor/v3.py:16-27 | Succeeds exactly when the setting record is present as a dictionary. Its value is then the `instantTrigger` entry, or `false` when that key is absent. A failed record lookup propagates. A setting that is not a dictionary raises `AttributeError`. |
| `SensorV3.Triggered` | simplipy/device/sensor/v3.py:29-51 | For a type outside the seven sensing types, the result is `false` whatever the data holds, even when there is no record. For a sensing type, it succeeds exactly when the status record is a dictionary. Its value is then the `triggered` entry, or `false` when absent. Lookup failures propagate. |
| `SensorV3.TriggeredTypesExactly` | simplipy/device/sensor/v3.py:35-43 | The tuple of sensing types covers every type except `Keypad` and the `OtherType` members. |
| `SensorV3.Temperature` | simplipy/device/sensor/v3.py:53-66 | A non-temperature sensor always raises `AttributeError`. A temperature sensor succeeds exactly when the status record is a dictionary holding `temperature`, and returns that entry. A missing entry raises `KeyError("temperature")`. Other lookup failures propagate. |
| `SensorV3.AsDict` | simplipy/device/sensor/v3.py:68-79 | Succeeds exactly when `trigger_instantly` and `triggered` succeed and, for a temperature sensor only, `temperature` succeeds. Otherwise it fails with the first failure among those three properties, in the order the source reads them. The result keys are the base keys plus `trigger_instantly` and `triggered`, plus `temperature` for a temperature sensor only. The derived entries equal the property values and override base entries of the same name. Every other base entry is kept. |
| `SensorV3.AsDictSucceedsOnCompleteRecord` | simplipy/device/sensor/v3.py:68-79 | A record with dictionary `setting` and `status` sections always serialises. For a temperature sensor, the status must also hold a reading. |
| `SensorV3.AsDictIgnoresTemperatureElsewhere` | simplipy/device/sensor/v3.py:61-79 | For a non-temperature sensor, `temperature` would raise `AttributeError`. `as_dict` never consults it, and fails only when one of the other two properties fails. |
| `Errors.Level` | simplipy/errors.py:5-68 | No class is declared more than two levels below the root. |
| `Errors.Parent` | simplipy/errors.py:5-68 | Only `SimplipyError` has no package base class. Every other class's base is exactly one level closer to the root. |
| `Errors.IsA` | simplipy/errors.py:5-68 | `issubclass(k, a)` inside the package. It is reflexive, and an ancestor is never declared deeper than its descendant. A proper ancestor is reached through the declared base. Its other properties are proved as `IsAIffInMro`, `IsAReflexive`, `IsATransitive` and `IsAAntisymmetric`. |
| `Errors.Mro` | simplipy/errors.py:5-68 | The resolution order starts at the class and ends at `SimplipyError`. It has one entry per level, and each entry's base is the next entry. |
| `Errors.IsAIffInMro` | simplipy/errors.py:5-68 | `issubclass(k, a)` holds exactly when `a` is in the resolution order of `k`. |
| `Errors.EveryKindIsSimplipyError` | simplipy/errors.py:5-68 | Every package error is a `SimplipyError`. |
| `Errors.RootHasNoPackageParent` | simplipy/errors.py:5-8 | `SimplipyError` has no package base and is a subclass of no other package class. |
| `Errors.IsAReflexive` | simplipy/errors.py:5-68 | Every class is a subclass of itself. |
| `Errors.IsATransitive` | simplipy/errors.py:5-68 | The subclass relation is transitive. |
| `Errors.IsALowersLevel` | simplipy/errors.py:5-68 | An ancestor is never declared deeper than its descendant. At the same depth, only the class itself is its own ancestor. |
| `Errors.IsAAntisymmetric` | simplipy/errors.py:5-68 | Two classes that are subclasses of each other are the same class. |
| `Errors.Acyclic` | simplipy/errors.py:5-68 | No class is an ancestor of its own base class. |
| `Errors.DepthAtMostTwo` | simplipy/errors.py:41-68 | Every resolution order has at most three package classes. A class two levels down has a base whose base is `SimplipyError`. |
| `Errors.AncestorsAreChained` | simplipy/errors.py:5-68 | Single inheritance: any two ancestors of one class are related by the subclass relation. |
| `Errors.WebsocketFamily` | simplipy/errors.py:35-68 | The subclasses of `WebsocketError` are exactly itself and `CannotConnectError`, `ConnectionClosedError`, `ConnectionFailedError`, `InvalidMessageError` and `NotConnectedError`. Each of those five has `WebsocketError` as its direct base. |
| `Errors.DirectChildren` | simplipy/errors.py:11-38 | The direct subclasses of `SimplipyError` are exactly `EndpointUnavailableError`, `InvalidCredentialsError`, `PinError`, `RequestError` and `WebsocketError`. The first four are not websocket errors. |
| `Errors.CredentialsAndRequestAreDisjoint` | simplipy/errors.py:17-32 | `InvalidCredentialsError` and `RequestError` have no subclasses but themselves. No class is both. |

## Left out

- SensorV3.AsDict: does not model the key order of the result. A Dafny map has no insertion order; a Python dict does, and `as_dict` puts base keys first in base order, keeps an overridden key at its base position, appends new derived keys, and appends `temperature` unless the base already holds it. It also assumes the base dictionary from `super().as_dict()` has been computed without raising: that call comes first in source order, and `DeviceV3` is not part of this model.
- The session and credential lifecycle: token exchange, refresh on expiry and on 401, retries on 409, refresh-token callbacks, and quoted-string error bodies. Its implementation, `simplipy/api.py`, is not part of this model. The tests in `tests/test_api.py` show its behaviour only through mocked HTTP servers or a patched request method. It is also asynchronous and reads the wall clock.
- `DeviceV3`: its `as_dict`, and the `name`, `serial` and `type` accessors, are not part of this model. The base dictionary is a parameter of `AsDict`. The serial and type are fields of `Sensor`.
- The full `DeviceTypes` enumeration: `simplipy/device/__init__.py` is not part of this model. `Device.DeviceType` holds the seven types the rules name, plus `Keypad` (the type tests/sensor/test_base.py:24 checks); every other member is `OtherType(name)`.
- JSON lists and floats in the sensor data: they are not modelled. Where they could occur, they behave like the modelled non-dictionary values (a subscript raises `TypeError`, `.get` raises `AttributeError`).
- The websocket behaviour behind the `WebsocketError` family: network I/O and concurrency. Only the error kinds are modelled.
- Python's own classes above `SimplipyError` (`Exception`, `BaseException`, `object`). `Parent` stops at the package root.
- Exception messages: they carry no behaviour.
