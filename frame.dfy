/**
 * The 20-byte real-time telemetry frame of the PMScan sensor, as every decoder
 * in the repository reads it (little-endian):
 *   u32 timestamp | u8 state | u8 command | u16 particles | u16 pm1.0 | u16 pm2.5
 *   | u16 pm10 | u16 temperature | u16 humidity | 2 bytes ignored
 */
module Frame {
  import opened Bytes

  const FRAME_LENGTH: nat := 20

  /** A raw PM value of 0xFFFF means the sensor is still warming up. */
  const STARTUP_SENTINEL: nat := 0xFFFF

  type u16 = x: nat | x < 0x1_0000
  type u32 = x: nat | x < 0x1_0000_0000

  /** The raw integers of one frame, before any unit conversion. */
  datatype RawFrame = RawFrame(
    timestamp: u32, state: byte, command: byte, particles: u16,
    pm1: u16, pm25: u16, pm10: u16, temperature: u16, humidity: u16)

  /** The fields at their fixed offsets 0/4/5/6/8/10/12/14/16; bytes 18-19 are not read. */
  function Fields(data: seq<byte>): (f: RawFrame)
    requires 18 <= |data|
  {
    RawFrame(U32At(data, 0), data[4], data[5], U16At(data, 6), U16At(data, 8),
             U16At(data, 10), U16At(data, 12), U16At(data, 14), U16At(data, 16))
  }

  /** The frame the sensor sends for `f`, with `reserved` as its last two bytes. */
  function Encode(f: RawFrame, reserved: seq<byte>): (data: seq<byte>)
    requires |reserved| == 2
    ensures |data| == FRAME_LENGTH && data[18..] == reserved
    ensures Fields(data) == f
  {
    var data := EncodeU32(f.timestamp) + [f.state, f.command] + EncodeU16(f.particles)
      + EncodeU16(f.pm1) + EncodeU16(f.pm25) + EncodeU16(f.pm10)
      + EncodeU16(f.temperature) + EncodeU16(f.humidity) + reserved;
    assert U32At(data, 0) == U32At(EncodeU32(f.timestamp), 0);
    assert U16At(data, 6) == U16At(EncodeU16(f.particles), 0);
    assert U16At(data, 8) == U16At(EncodeU16(f.pm1), 0);
    assert U16At(data, 10) == U16At(EncodeU16(f.pm25), 0);
    assert U16At(data, 12) == U16At(EncodeU16(f.pm10), 0);
    assert U16At(data, 14) == U16At(EncodeU16(f.temperature), 0);
    assert U16At(data, 16) == U16At(EncodeU16(f.humidity), 0);
    data
  }

  /** Every 20-byte payload is the encoding of its own fields and trailing bytes. */
  lemma EncodeFields(data: seq<byte>)
    requires |data| == FRAME_LENGTH
    ensures Encode(Fields(data), data[18..]) == data
  {
    U32Reencode(data, 0);
    U16Reencode(data, 6);
    U16Reencode(data, 8);
    U16Reencode(data, 10);
    U16Reencode(data, 12);
    U16Reencode(data, 14);
    U16Reencode(data, 16);
    assert data == data[0..4] + [data[4], data[5]] + data[6..8] + data[8..10] + data[10..12]
      + data[12..14] + data[14..16] + data[16..18] + data[18..];
  }

  /** Some PM field carries the warm-up sentinel. */
  predicate StartupPhase(f: RawFrame) {
    f.pm1 == STARTUP_SENTINEL || f.pm25 == STARTUP_SENTINEL || f.pm10 == STARTUP_SENTINEL
  }

  /** The physical value of a raw reading given in tenths (`raw / 10.0`, exactly). */
  function Tenths(raw: int): (r: real) {
    raw as real / 10.0
  }

  /** `min(a, b)` in Python, `Math.min(a, b)` in JavaScript. */
  function Min(a: real, b: real): (m: real) {
    if a <= b then a else b
  }

  /** A decoded frame: PM values in µg/m³, temperature in °C, humidity in %. */
  datatype Measurement = Measurement(
    timestamp: nat, state: byte, command: byte, particles: nat,
    pm1: real, pm25: real, pm10: real, temperature: real, humidity: real)

  /** Every field of `f` converted as the frame format documents it, with no guard or clamp. */
  function Physical(f: RawFrame): (m: Measurement) {
    Measurement(f.timestamp, f.state, f.command, f.particles, Tenths(f.pm1), Tenths(f.pm25),
                Tenths(f.pm10), Tenths(f.temperature), Tenths(f.humidity))
  }
}
