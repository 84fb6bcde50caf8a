/**
 * The Home Assistant integration `custom_components/pmscan/sensor.py`: five
 * entities, each of which reads one little-endian u16 from the first
 * manufacturer-data entry of a Bluetooth advertisement.
 */
module HaSensor {
  import opened Wrappers
  import opened Bytes
  import opened Frame

  /** The base entity class and its five subclasses. */
  datatype SensorKind = Generic | Pm1 | Pm25 | Pm10 | Temperature | Humidity

  /** The position of a subclass's u16 in the manufacturer data (the base class reads none). */
  function Slot(kind: SensorKind): (slot: nat)
    requires !kind.Generic?
  {
    match kind
    case Pm1 => 0
    case Pm25 => 1
    case Pm10 => 2
    case Temperature => 3
    case Humidity => 4
  }

  /**
   * `_parse_manufacturer_data`: the base class always answers `None`; each
   * subclass reads bytes `2 * slot` and `2 * slot + 1` little-endian and
   * divides by 10, and answers `None` when the data is too short for them.
   */
  function ParseManufacturerData(kind: SensorKind, data: seq<byte>): (v: Option<real>)
    ensures kind.Generic? ==> v == None
    ensures !kind.Generic? ==> (v.Some? <==> 2 * Slot(kind) + 2 <= |data|)
    ensures v.Some? ==> 0.0 <= v.value <= 6553.5
    ensures v.Some? ==> v.value == Tenths(U16At(data, 2 * Slot(kind)))
  {
    match kind
    case Generic => None
    case Pm1 => if |data| >= 2 then Some(Tenths(U16At(data, 0))) else None
    case Pm25 => if |data| >= 4 then Some(Tenths(U16At(data, 2))) else None
    case Pm10 => if |data| >= 6 then Some(Tenths(U16At(data, 4))) else None
    case Temperature => if |data| >= 8 then Some(Tenths(U16At(data, 6))) else None
    case Humidity => if |data| >= 10 then Some(Tenths(U16At(data, 8))) else None
  }

  /** On any data long enough for its slot, a subclass answers the tenths of the u16 stored there. */
  lemma ManufacturerDataOffsets(kind: SensorKind, data: seq<byte>)
    requires !kind.Generic? && 2 * Slot(kind) + 2 <= |data|
    ensures ParseManufacturerData(kind, data) == Some(Tenths(U16At(data, 2 * Slot(kind))))
  {
  }

  /** The advertisement layout the five subclasses assume: five u16 values, little-endian. */
  function EncodeAdvertisement(values: seq<nat>): (data: seq<byte>)
    requires |values| == 5 && forall i :: 0 <= i < 5 ==> values[i] < TWO_16
    ensures |data| == 10
    ensures forall i :: 0 <= i < 5 ==> U16At(data, 2 * i) == values[i]
  {
    var data := EncodeU16(values[0]) + EncodeU16(values[1]) + EncodeU16(values[2])
              + EncodeU16(values[3]) + EncodeU16(values[4]);
    assert data[0..2] == EncodeU16(values[0]);
    assert data[2..4] == EncodeU16(values[1]);
    assert data[4..6] == EncodeU16(values[2]);
    assert data[6..8] == EncodeU16(values[3]);
    assert data[8..10] == EncodeU16(values[4]);
    data
  }

  /** Every entity reads back, in tenths, the value encoded in its own slot. */
  lemma AdvertisementRoundTrip(values: seq<nat>, kind: SensorKind)
    requires |values| == 5 && forall i :: 0 <= i < 5 ==> values[i] < TWO_16
    requires !kind.Generic?
    ensures ParseManufacturerData(kind, EncodeAdvertisement(values)) == Some(Tenths(values[Slot(kind)]))
  {
  }

  /** Trailing bytes never change a reading that already succeeded. */
  lemma ExtraBytesIgnored(kind: SensorKind, data: seq<byte>, extra: seq<byte>)
    requires ParseManufacturerData(kind, data).Some?
    ensures ParseManufacturerData(kind, data + extra) == ParseManufacturerData(kind, data)
  {
    var off := 2 * Slot(kind);
    assert (data + extra)[off] == data[off] && (data + extra)[off + 1] == data[off + 1];
  }

  /** The parts of a `BluetoothServiceInfoBleak` the entities read: the address and the manufacturer data in its order. */
  datatype ServiceInfo = ServiceInfo(address: string, manufacturerData: seq<(nat, seq<byte>)>)

  /** The value `update_from_bluetooth` leaves: unchanged for empty manufacturer data, otherwise parsed from the first entry only. */
  function UpdatedValue(kind: SensorKind, current: Option<real>, s: ServiceInfo): (v: Option<real>)
    ensures s.manufacturerData == [] ==> v == current
    ensures kind.Generic? && s.manufacturerData != [] ==> v == None
    ensures v != current ==> v.None? || 0.0 <= v.value <= 6553.5
    ensures s.manufacturerData != [] && !kind.Generic? ==>
      (v.Some? <==> 2 * Slot(kind) + 2 <= |s.manufacturerData[0].1|)
    ensures s.manufacturerData != [] && !kind.Generic? && v.Some? ==>
      v.value == Tenths(U16At(s.manufacturerData[0].1, 2 * Slot(kind)))
  {
    if s.manufacturerData == [] then current else ParseManufacturerData(kind, s.manufacturerData[0].1)
  }

  /**
   * A non-empty advertisement gives a real entity the tenths of the u16 in
   * its slot of the first manufacturer-data entry, or None when that entry is
   * too short for the slot.
   */
  lemma FirstEntryValue(kind: SensorKind, current: Option<real>, s: ServiceInfo)
    requires s.manufacturerData != []
    ensures !kind.Generic? && 2 * Slot(kind) + 2 <= |s.manufacturerData[0].1| ==>
      UpdatedValue(kind, current, s) == Some(Tenths(U16At(s.manufacturerData[0].1, 2 * Slot(kind))))
    ensures !kind.Generic? && 2 * Slot(kind) + 2 > |s.manufacturerData[0].1| ==>
      UpdatedValue(kind, current, s) == None
  {
    if !kind.Generic? && 2 * Slot(kind) + 2 <= |s.manufacturerData[0].1| {
      ManufacturerDataOffsets(kind, s.manufacturerData[0].1);
    }
  }

  /** Receiving the same advertisement twice leaves what receiving it once left. */
  lemma UpdateIdempotent(kind: SensorKind, current: Option<real>, s: ServiceInfo)
    ensures UpdatedValue(kind, UpdatedValue(kind, current, s), s) == UpdatedValue(kind, current, s)
  {
  }

  /** Only the first manufacturer-data entry matters. */
  lemma LaterEntriesIgnored(kind: SensorKind, current: Option<real>, s: ServiceInfo, more: seq<(nat, seq<byte>)>)
    requires s.manufacturerData != []
    ensures UpdatedValue(kind, current, s.(manufacturerData := s.manufacturerData + more)) == UpdatedValue(kind, current, s)
  {
    assert (s.manufacturerData + more)[0] == s.manufacturerData[0];
  }

  /** One entity: its kind, the discovery record it was built from, and its `_value`. */
  class PMScanSensor {
    const kind: SensorKind
    const discoveryInfo: ServiceInfo
    var value: Option<real>

    constructor (kind: SensorKind, discoveryInfo: ServiceInfo)
      ensures this.kind == kind && this.discoveryInfo == discoveryInfo && value == None
    {
      this.kind := kind;
      this.discoveryInfo := discoveryInfo;
      value := None;
    }

    /** `update_from_bluetooth`: nothing without manufacturer data, otherwise the first entry's reading. */
    method UpdateFromBluetooth(s: ServiceInfo)
      modifies this
      ensures value == UpdatedValue(kind, old(value), s)
    {
      if s.manufacturerData == [] {
        return;
      }
      // the loop over the entries breaks at the end of its first iteration
      value := ParseManufacturerData(kind, s.manufacturerData[0].1);
    }
  }

  /** The entity classes `async_setup_entry` builds, in order. */
  const KINDS: seq<SensorKind> := [Pm1, Pm25, Pm10, Temperature, Humidity]

  /** The index of the first discovered device with the configured address. */
  function FirstMatching(infos: seq<ServiceInfo>, address: string): (r: Option<nat>)
    ensures r.Some? ==> r.value < |infos| && infos[r.value].address == address
    ensures r.Some? ==> forall j :: 0 <= j < r.value ==> infos[j].address != address
    ensures r.None? ==> forall j :: 0 <= j < |infos| ==> infos[j].address != address
  {
    if infos == [] then None
    else if infos[0].address == address then Some(0)
    else match FirstMatching(infos[1..], address)
      case None => None
      case Some(i) => Some(i + 1)
  }

  lemma FirstMatchingIsLeast(infos: seq<ServiceInfo>, address: string, i: nat)
    requires i < |infos| && infos[i].address == address
    requires forall j :: 0 <= j < i ==> infos[j].address != address
    ensures FirstMatching(infos, address) == Some(i)
  {
  }

  /**
   * `async_setup_entry`: five new entities for the first discovered device
   * with the configured address, or none at all (and nothing registered).
   */
  method AsyncSetupEntry(infos: seq<ServiceInfo>, address: string) returns (sensors: seq<PMScanSensor>)
    ensures FirstMatching(infos, address).None? ==> sensors == []
    ensures FirstMatching(infos, address).Some? ==>
      && |sensors| == |KINDS|
      && forall k :: 0 <= k < |KINDS| ==>
           && fresh(sensors[k]) && sensors[k].kind == KINDS[k] && sensors[k].value == None
           && sensors[k].discoveryInfo == infos[FirstMatching(infos, address).value]
    ensures forall a, b :: 0 <= a < b < |sensors| ==> sensors[a] != sensors[b]
  {
    sensors := [];
    var i := 0;
    while i < |infos|
      invariant 0 <= i <= |infos|
      invariant forall j :: 0 <= j < i ==> infos[j].address != address
      invariant sensors == []
    {
      if infos[i].address == address {
        FirstMatchingIsLeast(infos, address, i);
        var s1 := new PMScanSensor(Pm1, infos[i]);
        var s2 := new PMScanSensor(Pm25, infos[i]);
        var s3 := new PMScanSensor(Pm10, infos[i]);
        var s4 := new PMScanSensor(Temperature, infos[i]);
        var s5 := new PMScanSensor(Humidity, infos[i]);
        sensors := sensors + [s1, s2, s3, s4, s5];
        return;
      }
      i := i + 1;
    }
  }

  /**
   * `_async_update_ble`: an advertisement from another address is ignored;
   * otherwise every entity updates from it.
   */
  method OnAdvertisement(sensors: seq<PMScanSensor>, address: string, s: ServiceInfo)
    requires forall a, b :: 0 <= a < b < |sensors| ==> sensors[a] != sensors[b]
    modifies set k | 0 <= k < |sensors| :: sensors[k]
    ensures s.address != address ==> forall k :: 0 <= k < |sensors| ==> sensors[k].value == old(sensors[k].value)
    ensures s.address == address ==>
      forall k :: 0 <= k < |sensors| ==> sensors[k].value == UpdatedValue(sensors[k].kind, old(sensors[k].value), s)
  {
    if s.address != address {
      return;
    }
    var i := 0;
    while i < |sensors|
      invariant 0 <= i <= |sensors|
      invariant forall k :: 0 <= k < i ==> sensors[k].value == UpdatedValue(sensors[k].kind, old(sensors[k].value), s)
      invariant forall k :: i <= k < |sensors| ==> sensors[k].value == old(sensors[k].value)
    {
      sensors[i].UpdateFromBluetooth(s);
      i := i + 1;
    }
  }
}
