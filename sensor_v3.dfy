/** The device types of the v3 sensor rules (DeviceTypes in simplipy.device). */
module Device {

  /** The seven members of DeviceTypes that the sensor rules name, plus Keypad (the type
      tests/sensor/test_base.py:24 checks); every other member of the enumeration is an
      OtherType, told apart by its name. That name is never the name of one of the members
      listed here: those have constructors of their own. */
  datatype DeviceType =
    | CarbonMonoxide
    | Entry
    | GlassBreak
    | Leak
    | Motion
    | Smoke
    | Temperature
    | Keypad
    | OtherType(name: string)
}

/**
 * The derived properties of a v3 sensor (simplipy/device/sensor/v3.py).
 *
 * A sensor reads its record from its system's sensor data, a dictionary from serial
 * number to a JSON-like dictionary with "setting" and "status" sub-dictionaries.
 * Every property is a read of that data, so it is a function here: reading a property
 * cannot change the sensor or the system. A Python exception is a Failure result.
 */
module SensorV3 {
  import opened Wrappers
  import Device

  /** A JSON-like value as held in the sensor data; `cast` in the source does not
      convert, so properties return the stored value as it is. */
  datatype Value =
    | Bool(b: bool)
    | Int(i: int)
    | Text(s: string)
    | Null
    | Dict(entries: map<string, Value>)

  /** The built-in Python exceptions the properties can raise. */
  datatype PyError =
    | KeyError(key: string)   // a dictionary subscript with a missing key
    | TypeError               // a subscript on a value that is not a dictionary
    | AttributeError          // `.get` on a non-dictionary, or `temperature` on a non-temperature sensor

  /** A v3 sensor: the serial under which its system keeps its record, and its type. */
  datatype Sensor = Sensor(serial: string, deviceType: Device.DeviceType)

  /** The types for which `triggered` reads the status record, in the order of the
      tuple at v3.py:35-43. */
  const TriggeredTypes: seq<Device.DeviceType> := [
    Device.CarbonMonoxide, Device.Entry, Device.GlassBreak, Device.Leak,
    Device.Motion, Device.Smoke, Device.Temperature
  ]

  /** `value[key]` on a Python value. */
  function Subscript(v: Value, key: string): (r: Result<Value, PyError>)
    ensures r.Success? <==> v.Dict? && key in v.entries
    ensures r.Success? ==> r.value == v.entries[key]
    ensures !v.Dict? ==> r == Failure(TypeError)
    ensures v.Dict? && key !in v.entries ==> r == Failure(KeyError(key))
  {
    if !v.Dict? then Failure(TypeError)
    else if key in v.entries then Success(v.entries[key])
    else Failure(KeyError(key))
  }

  /** `value.get(key, default)` on a Python value. */
  function Get(v: Value, key: string, default: Value): (r: Result<Value, PyError>)
    ensures r.Success? <==> v.Dict?
    ensures v.Dict? && key in v.entries ==> r.value == v.entries[key]
    ensures v.Dict? && key !in v.entries ==> r.value == default
    ensures !v.Dict? ==> r == Failure(AttributeError)
  {
    if !v.Dict? then Failure(AttributeError)
    else if key in v.entries then Success(v.entries[key])
    else Success(default)
  }

  /** `sensor_data[serial][section]`: the sensor's record is looked up, then one of its sections. */
  function SectionOf(sensorData: map<string, Value>, serial: string, section: string): (r: Result<Value, PyError>)
    ensures r.Success? <==>
      serial in sensorData && sensorData[serial].Dict? && section in sensorData[serial].entries
    ensures r.Success? ==> r.value == sensorData[serial].entries[section]
    ensures serial !in sensorData ==> r == Failure(KeyError(serial))
    ensures serial in sensorData && !sensorData[serial].Dict? ==> r == Failure(TypeError)
    ensures serial in sensorData && sensorData[serial].Dict? && section !in sensorData[serial].entries
      ==> r == Failure(KeyError(section))
  {
    if serial !in sensorData then Failure(KeyError(serial))
    else Subscript(sensorData[serial], section)
  }

  /** The sensor's record exists and holds `section` as a dictionary. */
  predicate HasSection(sensorData: map<string, Value>, serial: string, section: string)
  {
    && serial in sensorData
    && sensorData[serial].Dict?
    && section in sensorData[serial].entries
    && sensorData[serial].entries[section].Dict?
  }

  /** The entries of a section that HasSection says is a dictionary. */
  function Section(sensorData: map<string, Value>, serial: string, section: string): map<string, Value>
    requires HasSection(sensorData, serial, section)
  {
    sensorData[serial].entries[section].entries
  }

  /** `trigger_instantly`: the setting record's "instantTrigger" entry, false when absent. */
  function TriggerInstantly(sensorData: map<string, Value>, s: Sensor): (r: Result<Value, PyError>)
    ensures r.Success? <==> HasSection(sensorData, s.serial, "setting")
    ensures HasSection(sensorData, s.serial, "setting") ==>
      var setting := Section(sensorData, s.serial, "setting");
      && ("instantTrigger" in setting ==> r.value == setting["instantTrigger"])
      && ("instantTrigger" !in setting ==> r.value == Bool(false))
    ensures SectionOf(sensorData, s.serial, "setting").Failure? ==>
      r == SectionOf(sensorData, s.serial, "setting")
    ensures SectionOf(sensorData, s.serial, "setting").Success? && !HasSection(sensorData, s.serial, "setting")
      ==> r == Failure(AttributeError)
  {
    var setting :- SectionOf(sensorData, s.serial, "setting");
    Get(setting, "instantTrigger", Bool(false))
  }

  /** `triggered`: for the seven sensing types, the status record's "triggered" entry
      (false when absent); for every other type, false without reading any data. */
  function Triggered(sensorData: map<string, Value>, s: Sensor): (r: Result<Value, PyError>)
    ensures s.deviceType !in TriggeredTypes ==> r == Success(Bool(false))
    ensures s.deviceType in TriggeredTypes ==>
      (r.Success? <==> HasSection(sensorData, s.serial, "status"))
    ensures s.deviceType in TriggeredTypes && HasSection(sensorData, s.serial, "status") ==>
      var status := Section(sensorData, s.serial, "status");
      && ("triggered" in status ==> r.value == status["triggered"])
      && ("triggered" !in status ==> r.value == Bool(false))
    ensures s.deviceType in TriggeredTypes && SectionOf(sensorData, s.serial, "status").Failure? ==>
      r == SectionOf(sensorData, s.serial, "status")
    ensures (s.deviceType in TriggeredTypes && SectionOf(sensorData, s.serial, "status").Success?
             && !HasSection(sensorData, s.serial, "status"))
      ==> r == Failure(AttributeError)
  {
    if s.deviceType in TriggeredTypes then
      var status :- SectionOf(sensorData, s.serial, "status");
      Get(status, "triggered", Bool(false))
    else
      Success(Bool(false))
  }

  /** `temperature`: AttributeError unless the sensor is a temperature sensor; otherwise
      the status record's "temperature" entry, which must be present. */
  function Temperature(sensorData: map<string, Value>, s: Sensor): (r: Result<Value, PyError>)
    ensures s.deviceType != Device.Temperature ==> r == Failure(AttributeError)
    ensures s.deviceType == Device.Temperature ==>
      (r.Success? <==> HasSection(sensorData, s.serial, "status")
                       && "temperature" in Section(sensorData, s.serial, "status"))
    ensures r.Success? ==> r.value == Section(sensorData, s.serial, "status")["temperature"]
    ensures s.deviceType == Device.Temperature && SectionOf(sensorData, s.serial, "status").Failure? ==>
      r == SectionOf(sensorData, s.serial, "status")
    ensures (s.deviceType == Device.Temperature && HasSection(sensorData, s.serial, "status")
             && "temperature" !in Section(sensorData, s.serial, "status"))
      ==> r == Failure(KeyError("temperature"))
    ensures (s.deviceType == Device.Temperature && SectionOf(sensorData, s.serial, "status").Success?
             && !HasSection(sensorData, s.serial, "status"))
      ==> r == Failure(TypeError)
  {
    if s.deviceType != Device.Temperature then
      Failure(AttributeError)
    else
      var status :- SectionOf(sensorData, s.serial, "status");
      Subscript(status, "temperature")
  }

  /** The keys `as_dict` writes over the base dictionary. */
  const DerivedKeys: set<string> := {"trigger_instantly", "triggered", "temperature"}

  /** `as_dict`: the base device dictionary with "trigger_instantly" and "triggered" set
      to the property values and, for a temperature sensor only, "temperature" set too.
      The properties are read in the source's order and the first exception propagates. */
  function AsDict(sensorData: map<string, Value>, s: Sensor, base: map<string, Value>): (r: Result<map<string, Value>, PyError>)
    ensures r.Success? <==>
      && TriggerInstantly(sensorData, s).Success?
      && Triggered(sensorData, s).Success?
      && (s.deviceType == Device.Temperature ==> Temperature(sensorData, s).Success?)
    ensures r.Failure? ==>
      r.error == (if TriggerInstantly(sensorData, s).Failure? then TriggerInstantly(sensorData, s).error
                  else if Triggered(sensorData, s).Failure? then Triggered(sensorData, s).error
                  else Temperature(sensorData, s).error)
    ensures r.Success? ==>
      r.value.Keys == base.Keys + {"trigger_instantly", "triggered"}
                      + (if s.deviceType == Device.Temperature then {"temperature"} else {})
    ensures r.Success? ==>
      && r.value["trigger_instantly"] == TriggerInstantly(sensorData, s).value
      && r.value["triggered"] == Triggered(sensorData, s).value
    ensures r.Success? && s.deviceType == Device.Temperature ==>
      r.value["temperature"] == Temperature(sensorData, s).value
    ensures r.Success? ==>
      forall k :: k in base && k !in DerivedKeys ==> r.value[k] == base[k]
    ensures r.Success? && s.deviceType != Device.Temperature && "temperature" in base ==>
      r.value["temperature"] == base["temperature"]
  {
    var triggerInstantly :- TriggerInstantly(sensorData, s);
    var triggered :- Triggered(sensorData, s);
    var data := base + map["trigger_instantly" := triggerInstantly, "triggered" := triggered];
    if s.deviceType == Device.Temperature then
      var temperature :- Temperature(sensorData, s);
      Success(data["temperature" := temperature])
    else
      Success(data)
  }

  /** Only Keypad and the OtherType members are outside TriggeredTypes. */
  lemma TriggeredTypesExactly(t: Device.DeviceType)
    ensures t in TriggeredTypes <==> !(t == Device.Keypad || t.OtherType?)
  {
  }

  /** A sensor whose record holds both sections as dictionaries (and, for a temperature
      sensor, a temperature reading) always serialises. */
  lemma AsDictSucceedsOnCompleteRecord(sensorData: map<string, Value>, s: Sensor, base: map<string, Value>)
    requires HasSection(sensorData, s.serial, "setting") && HasSection(sensorData, s.serial, "status")
    requires s.deviceType == Device.Temperature ==> "temperature" in Section(sensorData, s.serial, "status")
    ensures AsDict(sensorData, s, base).Success?
  {
  }

  /** The temperature property never decides whether a non-temperature sensor serialises:
      `as_dict` fails only when `trigger_instantly` or `triggered` would. */
  lemma AsDictIgnoresTemperatureElsewhere(sensorData: map<string, Value>, s: Sensor, base: map<string, Value>)
    requires s.deviceType != Device.Temperature
    ensures Temperature(sensorData, s) == Failure(AttributeError)
    ensures AsDict(sensorData, s, base).Success? <==>
      TriggerInstantly(sensorData, s).Success? && Triggered(sensorData, s).Success?
  {
  }
}
