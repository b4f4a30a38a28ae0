/**
 The identity triples the Web Bluetooth tests use to refer to one GATT
 attribute in three ways: by 16-bit alias, by registered name, and by full UUID.
 */
module GattIdentities {
  import opened BluetoothUuid

  /** One attribute, named three ways. */
  datatype Identity = Identity(alias: Alias, name: string, uuid: string)

  const GenericAccess := Identity(0x1800, "generic_access", "00001800-0000-1000-8000-00805f9b34fb")
  const DeviceName := Identity(0x2a00, "gap.device_name", "00002a00-0000-1000-8000-00805f9b34fb")
  const ReconnectionAddress := Identity(0x2a03, "gap.reconnection_address", "00002a03-0000-1000-8000-00805f9b34fb")
  const HeartRate := Identity(0x180d, "heart_rate", "0000180d-0000-1000-8000-00805f9b34fb")
  const HealthThermometer := Identity(0x1809, "health_thermometer", "00001809-0000-1000-8000-00805f9b34fb")
  const BodySensorLocation := Identity(0x2a38, "body_sensor_location", "00002a38-0000-1000-8000-00805f9b34fb")
  const Glucose := Identity(0x1808, "glucose", "00001808-0000-1000-8000-00805f9b34fb")
  const BatteryService := Identity(0x180f, "battery_service", "0000180f-0000-1000-8000-00805f9b34fb")
  const BatteryLevel := Identity(0x2A19, "battery_level", "00002a19-0000-1000-8000-00805f9b34fb")
  const UserDescription := Identity(0x2901, "gatt.characteristic_user_description", "00002901-0000-1000-8000-00805f9b34fb")
  const ClientCharacteristicConfiguration := Identity(0x2902, "gatt.client_characteristic_configuration", "00002902-0000-1000-8000-00805f9b34fb")
  const MeasurementInterval := Identity(0x2a21, "measurement_interval", "00002a21-0000-1000-8000-00805f9b34fb")

  /** The alias and the UUID of a triple name the same attribute. */
  predicate Consistent(t: Identity) {
    t.uuid == AliasToUuid(t.alias)
  }

  /** A triple is consistent when its UUID is the template filled with its alias's hex digits. */
  lemma ConsistentByParts(t: Identity, h: string)
    requires AliasHex(t.alias) == h
    requires t.uuid == "0000" + h + BaseSuffix
    ensures Consistent(t)
  {
  }

  /*
   The facts below mention literals only, and each 36-character comparison has
   a lemma of its own, so that every proof stays small.
   */

  /** The four hex digits of the services' aliases. */
  lemma ServiceAliasDigits()
    ensures AliasHex(0x1800) == "1800"
    ensures AliasHex(0x180d) == "180d"
    ensures AliasHex(0x1809) == "1809"
    ensures AliasHex(0x1808) == "1808"
    ensures AliasHex(0x180f) == "180f"
  {
  }

  /** The four hex digits of the characteristics' aliases. */
  lemma CharacteristicAliasDigits()
    ensures AliasHex(0x2a00) == "2a00"
    ensures AliasHex(0x2a03) == "2a03"
    ensures AliasHex(0x2a38) == "2a38"
    ensures AliasHex(0x2A19) == "2a19"
    ensures AliasHex(0x2a21) == "2a21"
  {
  }

  /** The four hex digits of the descriptors' aliases. */
  lemma DescriptorAliasDigits()
    ensures AliasHex(0x2901) == "2901"
    ensures AliasHex(0x2902) == "2902"
  {
  }

  lemma GenericAccessText()
    ensures "0000" + "1800" + BaseSuffix == "00001800-0000-1000-8000-00805f9b34fb"
  {
  }

  lemma DeviceNameText()
    ensures "0000" + "2a00" + BaseSuffix == "00002a00-0000-1000-8000-00805f9b34fb"
  {
  }

  lemma ReconnectionAddressText()
    ensures "0000" + "2a03" + BaseSuffix == "00002a03-0000-1000-8000-00805f9b34fb"
  {
  }

  lemma HeartRateText()
    ensures "0000" + "180d" + BaseSuffix == "0000180d-0000-1000-8000-00805f9b34fb"
  {
  }

  lemma HealthThermometerText()
    ensures "0000" + "1809" + BaseSuffix == "00001809-0000-1000-8000-00805f9b34fb"
  {
  }

  lemma BodySensorLocationText()
    ensures "0000" + "2a38" + BaseSuffix == "00002a38-0000-1000-8000-00805f9b34fb"
  {
  }

  lemma GlucoseText()
    ensures "0000" + "1808" + BaseSuffix == "00001808-0000-1000-8000-00805f9b34fb"
  {
  }

  lemma BatteryServiceText()
    ensures "0000" + "180f" + BaseSuffix == "0000180f-0000-1000-8000-00805f9b34fb"
  {
  }

  lemma BatteryLevelText()
    ensures "0000" + "2a19" + BaseSuffix == "00002a19-0000-1000-8000-00805f9b34fb"
  {
  }

  lemma UserDescriptionText()
    ensures "0000" + "2901" + BaseSuffix == "00002901-0000-1000-8000-00805f9b34fb"
  {
  }

  lemma ClientCharacteristicConfigurationText()
    ensures "0000" + "2902" + BaseSuffix == "00002902-0000-1000-8000-00805f9b34fb"
  {
  }

  lemma MeasurementIntervalText()
    ensures "0000" + "2a21" + BaseSuffix == "00002a21-0000-1000-8000-00805f9b34fb"
  {
  }

  /** The services' triples are consistent. */
  lemma ServiceTriplesConsistent()
    ensures Consistent(GenericAccess)
    ensures Consistent(HeartRate)
    ensures Consistent(HealthThermometer)
    ensures Consistent(Glucose)
    ensures Consistent(BatteryService)
  {
    ServiceAliasDigits();
    GenericAccessText();
    ConsistentByParts(GenericAccess, "1800");
    HeartRateText();
    ConsistentByParts(HeartRate, "180d");
    HealthThermometerText();
    ConsistentByParts(HealthThermometer, "1809");
    GlucoseText();
    ConsistentByParts(Glucose, "1808");
    BatteryServiceText();
    ConsistentByParts(BatteryService, "180f");
  }

  /** The characteristics' triples are consistent. */
  lemma CharacteristicTriplesConsistent()
    ensures Consistent(DeviceName)
    ensures Consistent(ReconnectionAddress)
    ensures Consistent(BodySensorLocation)
    ensures Consistent(BatteryLevel)
    ensures Consistent(MeasurementInterval)
  {
    CharacteristicAliasDigits();
    DeviceNameText();
    ConsistentByParts(DeviceName, "2a00");
    ReconnectionAddressText();
    ConsistentByParts(ReconnectionAddress, "2a03");
    BodySensorLocationText();
    ConsistentByParts(BodySensorLocation, "2a38");
    BatteryLevelText();
    ConsistentByParts(BatteryLevel, "2a19");
    MeasurementIntervalText();
    ConsistentByParts(MeasurementInterval, "2a21");
  }

  /** The descriptors' triples are consistent. */
  lemma DescriptorTriplesConsistent()
    ensures Consistent(UserDescription)
    ensures Consistent(ClientCharacteristicConfiguration)
  {
    DescriptorAliasDigits();
    UserDescriptionText();
    ConsistentByParts(UserDescription, "2901");
    ClientCharacteristicConfigurationText();
    ConsistentByParts(ClientCharacteristicConfiguration, "2902");
  }
}

/** The identity triples gathered into one table, and the facts that hold of every row. */
module GattIdentityTable {
  import opened Wrappers
  import opened BluetoothUuid
  import opened GattIdentities

  /** Every triple, in the order they are declared (a function, so that its literal is unfolded only where it is used). */
  function Table(): seq<Identity> {
    [GenericAccess, DeviceName, ReconnectionAddress, HeartRate,
     HealthThermometer, BodySensorLocation, Glucose, BatteryService,
     BatteryLevel, UserDescription, ClientCharacteristicConfiguration,
     MeasurementInterval]
  }

  /** Every triple's UUID is the Base UUID expansion of its alias. */
  lemma TableConsistent()
    ensures forall t :: t in Table() ==> Consistent(t)
  {
    ServiceTriplesConsistent();
    CharacteristicTriplesConsistent();
    DescriptorTriplesConsistent();
  }

  /** Shortening each triple's UUID recovers its alias, so alias and UUID name one attribute. */
  lemma TableUuidsShortenToAliases()
    ensures forall t :: t in Table() ==> UuidToAlias(t.uuid) == Some(t.alias)
  {
    TableConsistent();
    forall t | t in Table()
      ensures UuidToAlias(t.uuid) == Some(t.alias)
    {
      UuidToAliasOfAlias(t.alias);
    }
  }
}
