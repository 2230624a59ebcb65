/**
 * Fixed-offset decoding of the register block into the three groups the
 * exporter publishes (voltages, battery data, device data) and the device
 * identity behind the serial number, with the encoder that writes the same
 * layout, so that the layout can be checked by round trip.
 */
module Decoder {
  import opened RegisterBlock

  // Slot of the low byte of each field.
  const PROCESSOR_MV: nat := 1
  const RASPBERRY_PI_MV: nat := 3
  const BATTERY_PORT_MV: nat := 5
  const TYPE_C_MV: nat := 7
  const MICRO_USB_MV: nat := 9
  const TEMPERATURE: nat := 11
  const FULL_VOLTAGE: nat := 13
  const EMPTY_VOLTAGE: nat := 15
  const PROTECTION_VOLTAGE: nat := 17
  const REMAINING_CAPACITY: nat := 19
  const SAMPLING_PERIOD: nat := 21
  const POWER_STATE: nat := 23
  const SHUTDOWN_TIMER: nat := 24
  const TURN_ON_WITH_POWER: nat := 25
  const RESTART_TIMER: nat := 26
  const RUNNING_TIME: nat := 28
  const CHARGE_TIME: nat := 32
  const UPTIME: nat := 36
  const FIRMWARE: nat := 40
  const UID0: nat := 240
  const UID1: nat := 244
  const UID2: nat := 248

  /** Millivolts reported by the UPS micro-controller. The battery-port value is inaccurate while charging. */
  datatype VoltageReadings = VoltageReadings(
    processor: nat, raspberryPi: nat, batteryPort: nat, typeC: nat, microUsb: nat)

  /** Temperature in degrees Celsius, three voltages in millivolts, remaining capacity in percent. */
  datatype BatteryData = BatteryData(
    temperature: nat, fullVoltage: nat, emptyVoltage: nat, protectionVoltage: nat, remainingCapacity: nat)

  /** Sampling period in minutes, four single-byte settings, three times in seconds, the firmware version. */
  datatype DeviceData = DeviceData(
    sampling: nat, powerState: Byte, shutdownTimer: Byte, turnOnWithPower: Byte, restartTimer: Byte,
    runningTime: nat, chargeTime: nat, uptime: nat, firmware: nat)

  /** The three 32-bit words the serial number is printed from. */
  datatype DeviceIdentity = DeviceIdentity(uid0: nat, uid1: nat, uid2: nat)

  datatype Readings = Readings(
    voltages: VoltageReadings, battery: BatteryData, device: DeviceData, identity: DeviceIdentity)

  predicate Fits16(v: nat) { v < 0x1_0000 }

  predicate Fits32(v: nat) { v < 0x1_0000_0000 }

  predicate VoltagesFit(v: VoltageReadings)
  {
    Fits16(v.processor) && Fits16(v.raspberryPi) && Fits16(v.batteryPort) && Fits16(v.typeC) && Fits16(v.microUsb)
  }

  predicate BatteryFits(b: BatteryData)
  {
    Fits16(b.temperature) && Fits16(b.fullVoltage) && Fits16(b.emptyVoltage)
    && Fits16(b.protectionVoltage) && Fits16(b.remainingCapacity)
  }

  predicate DeviceFits(d: DeviceData)
  {
    Fits16(d.sampling) && Fits32(d.runningTime) && Fits32(d.chargeTime) && Fits32(d.uptime) && Fits16(d.firmware)
  }

  predicate IdentityFits(u: DeviceIdentity)
  {
    Fits32(u.uid0) && Fits32(u.uid1) && Fits32(u.uid2)
  }

  /** Every field within the width of the bytes it is stored in. */
  predicate Fits(r: Readings)
  {
    VoltagesFit(r.voltages) && BatteryFits(r.battery) && DeviceFits(r.device) && IdentityFits(r.identity)
  }

  function DecodeVoltages(buf: Block): (v: VoltageReadings)
    ensures VoltagesFit(v)
  {
    VoltageReadings(
      LE16(buf, PROCESSOR_MV), LE16(buf, RASPBERRY_PI_MV), LE16(buf, BATTERY_PORT_MV),
      LE16(buf, TYPE_C_MV), LE16(buf, MICRO_USB_MV))
  }

  function DecodeBattery(buf: Block): (b: BatteryData)
    ensures BatteryFits(b)
  {
    BatteryData(
      LE16(buf, TEMPERATURE), LE16(buf, FULL_VOLTAGE), LE16(buf, EMPTY_VOLTAGE),
      LE16(buf, PROTECTION_VOLTAGE), LE16(buf, REMAINING_CAPACITY))
  }

  function DecodeDevice(buf: Block): (d: DeviceData)
    ensures DeviceFits(d)
  {
    DeviceData(
      LE16(buf, SAMPLING_PERIOD), buf[POWER_STATE], buf[SHUTDOWN_TIMER], buf[TURN_ON_WITH_POWER],
      buf[RESTART_TIMER], LE32(buf, RUNNING_TIME), LE32(buf, CHARGE_TIME), LE32(buf, UPTIME),
      LE16(buf, FIRMWARE))
  }

  function DecodeIdentity(buf: Block): (u: DeviceIdentity)
    ensures IdentityFits(u)
  {
    DeviceIdentity(LE32(buf, UID0), LE32(buf, UID1), LE32(buf, UID2))
  }

  function Decode(buf: Block): (r: Readings)
    ensures Fits(r)
  {
    Readings(DecodeVoltages(buf), DecodeBattery(buf), DecodeDevice(buf), DecodeIdentity(buf))
  }

  /** Byte-level meaning of every decoded field: little-endian, low byte first. */
  lemma DecodeBytes(buf: Block)
    ensures var r := Decode(buf);
      && r.voltages.processor == buf[1] as int + 0x100 * (buf[2] as int)
      && r.voltages.raspberryPi == buf[3] as int + 0x100 * (buf[4] as int)
      && r.voltages.batteryPort == buf[5] as int + 0x100 * (buf[6] as int)
      && r.voltages.typeC == buf[7] as int + 0x100 * (buf[8] as int)
      && r.voltages.microUsb == buf[9] as int + 0x100 * (buf[10] as int)
      && r.battery.temperature == buf[11] as int + 0x100 * (buf[12] as int)
      && r.battery.fullVoltage == buf[13] as int + 0x100 * (buf[14] as int)
      && r.battery.emptyVoltage == buf[15] as int + 0x100 * (buf[16] as int)
      && r.battery.protectionVoltage == buf[17] as int + 0x100 * (buf[18] as int)
      && r.battery.remainingCapacity == buf[19] as int + 0x100 * (buf[20] as int)
      && r.device.sampling == buf[21] as int + 0x100 * (buf[22] as int)
      && r.device.powerState == buf[23]
      && r.device.shutdownTimer == buf[24]
      && r.device.turnOnWithPower == buf[25]
      && r.device.restartTimer == buf[26]
      && r.device.runningTime == buf[28] as int + 0x100 * (buf[29] as int)
                                 + 0x1_0000 * (buf[30] as int) + 0x100_0000 * (buf[31] as int)
      && r.device.chargeTime == buf[32] as int + 0x100 * (buf[33] as int)
                                + 0x1_0000 * (buf[34] as int) + 0x100_0000 * (buf[35] as int)
      && r.device.uptime == buf[36] as int + 0x100 * (buf[37] as int)
                            + 0x1_0000 * (buf[38] as int) + 0x100_0000 * (buf[39] as int)
      && r.device.firmware == buf[40] as int + 0x100 * (buf[41] as int)
      && r.identity.uid0 == buf[240] as int + 0x100 * (buf[241] as int)
                            + 0x1_0000 * (buf[242] as int) + 0x100_0000 * (buf[243] as int)
      && r.identity.uid1 == buf[244] as int + 0x100 * (buf[245] as int)
                            + 0x1_0000 * (buf[246] as int) + 0x100_0000 * (buf[247] as int)
      && r.identity.uid2 == buf[248] as int + 0x100 * (buf[249] as int)
                            + 0x1_0000 * (buf[250] as int) + 0x100_0000 * (buf[251] as int)
  {
  }

  /** True when `a` and `b` hold the same bytes in slots `lo` .. `hi - 1`. */
  predicate SameBytes(a: Block, b: Block, lo: nat, hi: nat)
    requires lo <= hi <= BLOCK_SIZE
  {
    forall i :: lo <= i < hi ==> a[i] == b[i]
  }

  /** The voltage group reads only slots 1..10. */
  lemma VoltagesLocal(a: Block, b: Block)
    requires SameBytes(a, b, 1, 11)
    ensures DecodeVoltages(a) == DecodeVoltages(b)
  {
  }

  /** The battery group reads only slots 11..20. */
  lemma BatteryLocal(a: Block, b: Block)
    requires SameBytes(a, b, 11, 21)
    ensures DecodeBattery(a) == DecodeBattery(b)
  {
  }

  /** The device group reads only slots 21..41. */
  lemma DeviceLocal(a: Block, b: Block)
    requires SameBytes(a, b, 21, 42)
    ensures DecodeDevice(a) == DecodeDevice(b)
  {
    LE32Local(a, b, RUNNING_TIME);
    LE32Local(a, b, CHARGE_TIME);
    LE32Local(a, b, UPTIME);
  }

  /** The identity reads only slots 240..251. */
  lemma IdentityLocal(a: Block, b: Block)
    requires SameBytes(a, b, 240, 252)
    ensures DecodeIdentity(a) == DecodeIdentity(b)
  {
    LE32Local(a, b, UID0);
    LE32Local(a, b, UID1);
    LE32Local(a, b, UID2);
  }

  /** Writes the voltage group at its offsets; nothing outside slots 1..10 changes. */
  function EncodeVoltages(buf: Block, v: VoltageReadings): (r: Block)
    requires VoltagesFit(v)
    ensures DecodeVoltages(r) == v
    ensures SameBytes(r, buf, 0, 1) && SameBytes(r, buf, 11, BLOCK_SIZE)
  {
    var r1 := PutLE16(buf, PROCESSOR_MV, v.processor);
    var r2 := PutLE16(r1, RASPBERRY_PI_MV, v.raspberryPi);
    var r3 := PutLE16(r2, BATTERY_PORT_MV, v.batteryPort);
    var r4 := PutLE16(r3, TYPE_C_MV, v.typeC);
    PutLE16(r4, MICRO_USB_MV, v.microUsb)
  }

  /** Writes the battery group at its offsets; nothing outside slots 11..20 changes. */
  function EncodeBattery(buf: Block, b: BatteryData): (r: Block)
    requires BatteryFits(b)
    ensures DecodeBattery(r) == b
    ensures SameBytes(r, buf, 0, 11) && SameBytes(r, buf, 21, BLOCK_SIZE)
  {
    var r1 := PutLE16(buf, TEMPERATURE, b.temperature);
    var r2 := PutLE16(r1, FULL_VOLTAGE, b.fullVoltage);
    var r3 := PutLE16(r2, EMPTY_VOLTAGE, b.emptyVoltage);
    var r4 := PutLE16(r3, PROTECTION_VOLTAGE, b.protectionVoltage);
    PutLE16(r4, REMAINING_CAPACITY, b.remainingCapacity)
  }

  /** Writes the device group at its offsets; nothing outside slots 21..41 changes. */
  function EncodeDevice(buf: Block, d: DeviceData): (r: Block)
    requires DeviceFits(d)
    ensures DecodeDevice(r) == d
    ensures SameBytes(r, buf, 0, 21) && SameBytes(r, buf, 42, BLOCK_SIZE)
  {
    var r1 := PutLE16(buf, SAMPLING_PERIOD, d.sampling);
    var r2 := r1[POWER_STATE := d.powerState][SHUTDOWN_TIMER := d.shutdownTimer]
                [TURN_ON_WITH_POWER := d.turnOnWithPower][RESTART_TIMER := d.restartTimer];
    var r3 := PutLE32(r2, RUNNING_TIME, d.runningTime);
    var r4 := PutLE32(r3, CHARGE_TIME, d.chargeTime);
    var r5 := PutLE32(r4, UPTIME, d.uptime);
    var r6 := PutLE16(r5, FIRMWARE, d.firmware);
    LE16Local(r6, r1, SAMPLING_PERIOD);
    LE32Local(r6, r3, RUNNING_TIME);
    LE32Local(r6, r4, CHARGE_TIME);
    LE32Local(r6, r5, UPTIME);
    r6
  }

  /** Writes the three identity words; nothing outside slots 240..251 changes. */
  function EncodeIdentity(buf: Block, u: DeviceIdentity): (r: Block)
    requires IdentityFits(u)
    ensures DecodeIdentity(r) == u
    ensures SameBytes(r, buf, 0, 240) && SameBytes(r, buf, 252, BLOCK_SIZE)
  {
    var r1 := PutLE32(buf, UID0, u.uid0);
    var r2 := PutLE32(r1, UID1, u.uid1);
    var r3 := PutLE32(r2, UID2, u.uid2);
    LE32Local(r3, r1, UID0);
    LE32Local(r3, r2, UID1);
    r3
  }

  /**
   * A synthetic register block holding `r` at the documented offsets; the
   * slots no field uses (0, 27, 42..239, 252..254) are taken from `base`.
   */
  function Encode(base: Block, r: Readings): (buf: Block)
    requires Fits(r)
    ensures SameBytes(buf, base, 0, 1) && buf[27] == base[27]
    ensures SameBytes(buf, base, 42, 240) && SameBytes(buf, base, 252, BLOCK_SIZE)
  {
    EncodeIdentity(EncodeDevice(EncodeBattery(EncodeVoltages(base, r.voltages), r.battery), r.device), r.identity)
  }

  /** Decoding a synthetic block gives back exactly the values written into it. */
  lemma DecodeEncode(base: Block, r: Readings)
    requires Fits(r)
    ensures Decode(Encode(base, r)) == r
  {
    var b1 := EncodeVoltages(base, r.voltages);
    var b2 := EncodeBattery(b1, r.battery);
    var b3 := EncodeDevice(b2, r.device);
    var b4 := EncodeIdentity(b3, r.identity);
    VoltagesLocal(b4, b1);
    BatteryLocal(b4, b2);
    DeviceLocal(b4, b3);
  }

  /** Re-encoding what was decoded reproduces the block: decoding loses nothing it reads. */
  lemma EncodeDecode(buf: Block)
    ensures Encode(buf, Decode(buf)) == buf
  {
    var r := Decode(buf);
    PutLE16Read(buf, PROCESSOR_MV);
    PutLE16Read(buf, RASPBERRY_PI_MV);
    PutLE16Read(buf, BATTERY_PORT_MV);
    PutLE16Read(buf, TYPE_C_MV);
    PutLE16Read(buf, MICRO_USB_MV);
    assert EncodeVoltages(buf, r.voltages) == buf;
    PutLE16Read(buf, TEMPERATURE);
    PutLE16Read(buf, FULL_VOLTAGE);
    PutLE16Read(buf, EMPTY_VOLTAGE);
    PutLE16Read(buf, PROTECTION_VOLTAGE);
    PutLE16Read(buf, REMAINING_CAPACITY);
    assert EncodeBattery(buf, r.battery) == buf;
    PutLE16Read(buf, SAMPLING_PERIOD);
    PutLE32Read(buf, RUNNING_TIME);
    PutLE32Read(buf, CHARGE_TIME);
    PutLE32Read(buf, UPTIME);
    PutLE16Read(buf, FIRMWARE);
    assert buf[POWER_STATE := buf[POWER_STATE]][SHUTDOWN_TIMER := buf[SHUTDOWN_TIMER]]
             [TURN_ON_WITH_POWER := buf[TURN_ON_WITH_POWER]][RESTART_TIMER := buf[RESTART_TIMER]] == buf;
    assert EncodeDevice(buf, r.device) == buf;
    PutLE32Read(buf, UID0);
    PutLE32Read(buf, UID1);
    PutLE32Read(buf, UID2);
    assert EncodeIdentity(buf, r.identity) == buf;
  }

  /** The 16-bit fields of the layout. */
  datatype Field16 =
    | ProcessorVoltage | RaspberryPiVoltage | BatteryPortVoltage | TypeCVoltage | MicroUsbVoltage
    | Temperature | FullVoltage | EmptyVoltage | ProtectionVoltage | RemainingCapacity
    | Sampling | Firmware

  /** The 32-bit fields of the layout. */
  datatype Field32 = RunningTime | ChargeTime | Uptime | Uid0 | Uid1 | Uid2

  /** The single-byte settings of the layout. */
  datatype Field8 = PowerStateByte | ShutdownTimerByte | TurnOnWithPowerByte | RestartTimerByte

  function Offset16(f: Field16): (lo: nat)
    ensures lo + 1 < BLOCK_SIZE
  {
    match f
    case ProcessorVoltage => PROCESSOR_MV
    case RaspberryPiVoltage => RASPBERRY_PI_MV
    case BatteryPortVoltage => BATTERY_PORT_MV
    case TypeCVoltage => TYPE_C_MV
    case MicroUsbVoltage => MICRO_USB_MV
    case Temperature => TEMPERATURE
    case FullVoltage => FULL_VOLTAGE
    case EmptyVoltage => EMPTY_VOLTAGE
    case ProtectionVoltage => PROTECTION_VOLTAGE
    case RemainingCapacity => REMAINING_CAPACITY
    case Sampling => SAMPLING_PERIOD
    case Firmware => FIRMWARE
  }

  function Offset32(f: Field32): (lo: nat)
    ensures lo + 3 < BLOCK_SIZE
  {
    match f
    case RunningTime => RUNNING_TIME
    case ChargeTime => CHARGE_TIME
    case Uptime => UPTIME
    case Uid0 => UID0
    case Uid1 => UID1
    case Uid2 => UID2
  }

  function Offset8(f: Field8): (i: nat)
    ensures i < BLOCK_SIZE
  {
    match f
    case PowerStateByte => POWER_STATE
    case ShutdownTimerByte => SHUTDOWN_TIMER
    case TurnOnWithPowerByte => TURN_ON_WITH_POWER
    case RestartTimerByte => RESTART_TIMER
  }

  /** `r` with 16-bit field `f` replaced by `v`. */
  function Set16(r: Readings, f: Field16, v: nat): Readings
  {
    match f
    case ProcessorVoltage => r.(voltages := r.voltages.(processor := v))
    case RaspberryPiVoltage => r.(voltages := r.voltages.(raspberryPi := v))
    case BatteryPortVoltage => r.(voltages := r.voltages.(batteryPort := v))
    case TypeCVoltage => r.(voltages := r.voltages.(typeC := v))
    case MicroUsbVoltage => r.(voltages := r.voltages.(microUsb := v))
    case Temperature => r.(battery := r.battery.(temperature := v))
    case FullVoltage => r.(battery := r.battery.(fullVoltage := v))
    case EmptyVoltage => r.(battery := r.battery.(emptyVoltage := v))
    case ProtectionVoltage => r.(battery := r.battery.(protectionVoltage := v))
    case RemainingCapacity => r.(battery := r.battery.(remainingCapacity := v))
    case Sampling => r.(device := r.device.(sampling := v))
    case Firmware => r.(device := r.device.(firmware := v))
  }

  /** `r` with 32-bit field `f` replaced by `v`. */
  function Set32(r: Readings, f: Field32, v: nat): Readings
  {
    match f
    case RunningTime => r.(device := r.device.(runningTime := v))
    case ChargeTime => r.(device := r.device.(chargeTime := v))
    case Uptime => r.(device := r.device.(uptime := v))
    case Uid0 => r.(identity := r.identity.(uid0 := v))
    case Uid1 => r.(identity := r.identity.(uid1 := v))
    case Uid2 => r.(identity := r.identity.(uid2 := v))
  }

  /** `r` with single-byte setting `f` replaced by `v`. */
  function Set8(r: Readings, f: Field8, v: Byte): Readings
  {
    match f
    case PowerStateByte => r.(device := r.device.(powerState := v))
    case ShutdownTimerByte => r.(device := r.device.(shutdownTimer := v))
    case TurnOnWithPowerByte => r.(device := r.device.(turnOnWithPower := v))
    case RestartTimerByte => r.(device := r.device.(restartTimer := v))
  }

  /** Writing one 16-bit field's bytes changes that decoded field and no other. */
  lemma Write16Isolated(buf: Block, f: Field16, v: nat)
    requires v < 0x1_0000
    ensures Decode(PutLE16(buf, Offset16(f), v)) == Set16(Decode(buf), f, v)
  {
    var b: Block := PutLE16(buf, Offset16(f), v);
    if f.ProcessorVoltage? || f.RaspberryPiVoltage? || f.BatteryPortVoltage? || f.TypeCVoltage? || f.MicroUsbVoltage? {
      BatteryLocal(b, buf);
      DeviceLocal(b, buf);
      IdentityLocal(b, buf);
    } else if f.Sampling? || f.Firmware? {
      VoltagesLocal(b, buf);
      BatteryLocal(b, buf);
      IdentityLocal(b, buf);
      LE32Local(b, buf, RUNNING_TIME);
      LE32Local(b, buf, CHARGE_TIME);
      LE32Local(b, buf, UPTIME);
    } else {
      VoltagesLocal(b, buf);
      DeviceLocal(b, buf);
      IdentityLocal(b, buf);
    }
  }

  /** Writing one 32-bit field's bytes changes that decoded field and no other. */
  lemma Write32Isolated(buf: Block, f: Field32, v: nat)
    requires v < 0x1_0000_0000
    ensures Decode(PutLE32(buf, Offset32(f), v)) == Set32(Decode(buf), f, v)
  {
    var lo := Offset32(f);
    var b: Block := PutLE32(buf, lo, v);
    VoltagesLocal(b, buf);
    BatteryLocal(b, buf);
    if lo != RUNNING_TIME { LE32Local(b, buf, RUNNING_TIME); }
    if lo != CHARGE_TIME { LE32Local(b, buf, CHARGE_TIME); }
    if lo != UPTIME { LE32Local(b, buf, UPTIME); }
    if lo != UID0 { LE32Local(b, buf, UID0); }
    if lo != UID1 { LE32Local(b, buf, UID1); }
    if lo != UID2 { LE32Local(b, buf, UID2); }
  }

  /** Writing one single-byte setting changes that decoded setting and no other. */
  lemma Write8Isolated(buf: Block, f: Field8, v: Byte)
    ensures Decode(buf[Offset8(f) := v]) == Set8(Decode(buf), f, v)
  {
    var b: Block := buf[Offset8(f) := v];
    VoltagesLocal(b, buf);
    BatteryLocal(b, buf);
    IdentityLocal(b, buf);
    LE16Local(b, buf, SAMPLING_PERIOD);
    LE32Local(b, buf, RUNNING_TIME);
    LE32Local(b, buf, CHARGE_TIME);
    LE32Local(b, buf, UPTIME);
    LE16Local(b, buf, FIRMWARE);
  }
}
