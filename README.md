# UPS Plus exporter: register-block decoder

A Dafny model of the device-data step of the UPS Plus exporter
(`UPSPlus-exporter.py`, `publish_device_data`). The step reads registers
1..254 of the UPS micro-controller (I2C address 0x17) one byte at a time into
a 255-slot receive buffer whose slot 0 is a placeholder. It then assembles
little-endian 16- and 32-bit fields at fixed offsets with Python shifts and
ORs, and publishes three groups of fields to InfluxDB: voltages, battery data
and device data. It also prints a console report with derived labels: the
charging source, the power state, the shutdown and restart countdowns,
whether the board turns on with external power, and the serial number built
from three 32-bit identity words. The model also covers the empty-data guard
of `influxdb_publish`.

Modules, one file each:

- `Bits` (`bits.dfy`): Python's `<<` and `|` on unbounded non-negative
  integers. `Or` is a bit-by-bit recursive OR, and `OrDisjoint` proves that
  OR of non-overlapping bit ranges is addition.
- `RegisterBlock` (`register_block.dfy`): bytes, the 255-slot block, `LE16`
  and `LE32` written as the source writes them (`hi << 8 | lo`), and the
  field writers `PutLE16` and `PutLE32` used for round trips.
- `Decoder` (`decoder.dfy`): the offset table, the decoded groups, an
  encoder for the same layout, and the round-trip and field-isolation lemmas.
- `Serial` (`serial.dfy`): Python's `"%08X"` (upper-case hex, zero-padded to
  eight digits) and the hyphen-joined serial number.
- `Labels` (`labels.dfy`): charging source, power state, auto power-on, and
  countdown labels, modelled as values.
- `BlockReader` (`block_reader.dfy`): the buffer fill loop as a method over
  an abstract register read.
- `Publisher` (`publisher.dfy`): the empty-data guard and the failure
  behaviour of `influxdb_publish`.
- `Exporter` (`exporter.dfy`): `publish_device_data` end to end, both as
  written (a publish that raises ends the step) and with the corrected publish.
- `Wrappers` (`wrappers.dfy`): `Option` and `Result`.

The bus is a parameter `read: nat -> Option<Byte>`, where `None` is a
`read_byte_data` call that raises. Each publish reads the wall clock itself, so
the clock is a parameter `clock` giving the whole-second time the publish of
each measurement reads. How each publish fails, if it does, is a parameter
`fault` giving a `Fault` per measurement. The decoder is a set of
functions over an immutable sequence, so decoding cannot change the buffer.

## Model

| member | source | states |
|---|---|---|
| `Bits.OrDisjoint` | UPSPlus-exporter.py:136-162 | OR of a multiple of 2^k with a value below 2^k is their sum, so the shift/OR assembly never mixes bits |
| `Bits.Shl` | UPSPlus-exporter.py:136-162 | Python's `x << n` on a non-negative integer, `x * 2^n`; its use in the field assembly is stated by `Bits.Or16` and `Bits.Or32` |
| `Bits.Or` | UPSPlus-exporter.py:136-162 | Python's bitwise `a` OR `b` on non-negative integers, bit by bit; that it adds disjoint bit ranges is stated by `Bits.OrDisjoint` |
| `Bits.Or16` | UPSPlus-exporter.py:136-140 | `hi << 8` ORed with a byte `lo` equals `lo + 256*hi` |
| `Bits.Or32` | UPSPlus-exporter.py:159-161 | the OR of `b3 << 24`, `b2 << 16`, `b1 << 8` and `b0`, grouped from the left as Python parses it, equals `b0 + 2^8*b1 + 2^16*b2 + 2^24*b3` |
| `RegisterBlock.LE16` | UPSPlus-exporter.py:136-162 | a 16-bit field is `buf[lo] + 256*buf[lo+1]` and lies in 0..65535 |
| `RegisterBlock.LE32` | UPSPlus-exporter.py:159-161 | a 32-bit field is the little-endian value of its four bytes and lies in 0..2^32-1 |
| `RegisterBlock.PutLE16` | UPSPlus-exporter.py:136-162 | writing a 16-bit value as two little-endian bytes reads back as that value and leaves every other slot unchanged |
| `RegisterBlock.PutLE32` | UPSPlus-exporter.py:159-161 | writing a 32-bit value as four little-endian bytes reads back as that value and leaves every other slot unchanged |
| `RegisterBlock.ByteOfSplit` | UPSPlus-exporter.py:159-161 | the four bytes of a 32-bit value, put back together little-endian, give the value |
| `RegisterBlock.PutLE16Read` | UPSPlus-exporter.py:136-162 | writing back a 16-bit field as read leaves the buffer unchanged |
| `RegisterBlock.PutLE32Read` | UPSPlus-exporter.py:159-161 | writing back a 32-bit field as read leaves the buffer unchanged |
| `Decoder.DecodeVoltages` | UPSPlus-exporter.py:135-140 | the five millivolt readings from slots 1..10 all fit in 16 bits |
| `Decoder.DecodeBattery` | UPSPlus-exporter.py:144-149 | the five battery fields from slots 11..20 all fit in 16 bits |
| `Decoder.DecodeDevice` | UPSPlus-exporter.py:153-162 | the sampling period and firmware fit in 16 bits; the running, charge and up times fit in 32 bits |
| `Decoder.DecodeIdentity` | UPSPlus-exporter.py:211-213 | the three identity words from slots 240..251 fit in 32 bits |
| `Decoder.Decode` | UPSPlus-exporter.py:135-213 | every decoded field fits the width of the bytes it is stored in |
| `Decoder.DecodeBytes` | UPSPlus-exporter.py:136-213 | each field equals the little-endian value of the bytes at its documented offsets (1/2 … 21/22, 40/41; 28-31, 32-35, 36-39; 240-251); the four single-byte fields are bytes 23-26 |
| `Decoder.VoltagesLocal` | UPSPlus-exporter.py:136-140 | the voltage group depends only on slots 1..10 |
| `Decoder.BatteryLocal` | UPSPlus-exporter.py:145-149 | the battery group depends only on slots 11..20 |
| `Decoder.DeviceLocal` | UPSPlus-exporter.py:154-162 | the device group depends only on slots 21..41 |
| `Decoder.IdentityLocal` | UPSPlus-exporter.py:211-213 | the identity words depend only on slots 240..251 |
| `Decoder.EncodeVoltages` | UPSPlus-exporter.py:136-140 | writing a voltage group decodes back to it and leaves every slot outside 1..10 unchanged |
| `Decoder.EncodeBattery` | UPSPlus-exporter.py:145-149 | writing a battery group decodes back to it and leaves every slot outside 11..20 unchanged |
| `Decoder.EncodeDevice` | UPSPlus-exporter.py:154-162 | writing a device group decodes back to it and leaves every slot outside 21..41 unchanged |
| `Decoder.EncodeIdentity` | UPSPlus-exporter.py:211-213 | writing the identity words decodes back to them and leaves every slot outside 240..251 unchanged |
| `Decoder.Encode` | UPSPlus-exporter.py:136-213 | a synthetic block keeps the base's bytes in every slot no field uses (0, 27, 42..239, 252..254) |
| `Decoder.DecodeEncode` | UPSPlus-exporter.py:136-213 | decoding a block built from any in-range readings gives back exactly those readings |
| `Decoder.EncodeDecode` | UPSPlus-exporter.py:136-213 | re-encoding the decoded readings into a block gives back that block, so decoding loses nothing it reads |
| `Decoder.Write16Isolated` | UPSPlus-exporter.py:136-162 | writing one 16-bit field's bytes changes that decoded field to the written value and no other field |
| `Decoder.Write32Isolated` | UPSPlus-exporter.py:159-213 | writing one 32-bit field's bytes changes that decoded field to the written value and no other field |
| `Decoder.Write8Isolated` | UPSPlus-exporter.py:155-158 | writing one of the single-byte settings (slots 23-26) changes that decoded setting to the written byte and no other field |
| `Serial.DigitValue` | UPSPlus-exporter.py:211-213 | every upper-case hex digit character is the digit of its value |
| `Serial.DigitRoundTrip` | UPSPlus-exporter.py:211-213 | each digit 0..15 reads back from its character |
| `Serial.Hex` | UPSPlus-exporter.py:211-213 | Python's `%X` on a non-negative integer; stated by `Serial.HexCorrect` and `Serial.HexLength` |
| `Serial.ZeroPad` | UPSPlus-exporter.py:211-213 | the zero padding of `%08X` up to a width; stated by `Serial.ZeroPadCorrect` and `Serial.LeadingZeros` |
| `Serial.Hex8` | UPSPlus-exporter.py:211-213 | `%08X`; eight upper-case hex digits denoting the value, stated by `Serial.Hex8Correct`, unique by `Serial.HexValueInjective` |
| `Serial.SerialNumber` | UPSPlus-exporter.py:211-214 | the printed serial `UID0-UID1-UID2`; its shape and segment values are stated by `Serial.SerialShape`, its injectivity by `Serial.SerialInjective` |
| `Serial.HexCorrect` | UPSPlus-exporter.py:211-213 | `%X` output is non-empty, upper-case hexadecimal and denotes the formatted value |
| `Serial.HexLength` | UPSPlus-exporter.py:211-213 | a value below 16^n takes at most n hex digits |
| `Serial.LeadingZeros` | UPSPlus-exporter.py:211-213 | zero padding does not change the value a hex string denotes |
| `Serial.ZeroPadCorrect` | UPSPlus-exporter.py:211-213 | padding a hex string with zeros up to a width gives exactly that width, stays upper-case hexadecimal and keeps its value |
| `Serial.Hex8Correct` | UPSPlus-exporter.py:211-213 | `%08X` of a 32-bit value is exactly eight upper-case hex digits denoting the value |
| `Serial.HexValueInjective` | UPSPlus-exporter.py:211-213 | two hex strings of equal length that denote the same number are equal, so the eight-digit form is unique |
| `Serial.JoinedSegments` | UPSPlus-exporter.py:214 | three eight-character parts joined with hyphens give 26 characters with the parts at 0..7, 9..16 and 18..25 |
| `Serial.SerialShape` | UPSPlus-exporter.py:211-214 | the serial number has length 26, '-' at positions 8 and 17, and three upper-case hex segments denoting UID0, UID1 and UID2 |
| `Serial.SerialInjective` | UPSPlus-exporter.py:211-214 | equal serial numbers come only from equal identity words |
| `Serial.WantValue` | UPSPlus-exporter.py:211 | the string "12345678" denotes 0x12345678 |
| `Serial.Hex8Example` | UPSPlus-exporter.py:211 | `%08X` of 0x12345678 is "12345678" |
| `Serial.SerialExample` | UPSPlus-exporter.py:211-214 | bytes 0x78, 0x56, 0x34, 0x12 in slots 240..243 print as the first segment "12345678" |
| `Labels.Charging` | UPSPlus-exporter.py:173-178 | Type-C iff its bytes 7/8 give more than 4000 mV; Micro-USB iff Type-C is at most 4000 and bytes 9/10 give more than 4000; otherwise not charging |
| `Labels.ChargingFrom` | UPSPlus-exporter.py:173-178 | the if/elif charging rule on the two interface voltages; stated on the bytes by `Labels.Charging` and against the first-above reference by `Labels.ChargingIsPriority` |
| `Labels.PowerStateOf` | UPSPlus-exporter.py:186-189 | normal iff the byte is 1, otherwise off; stated by `Exporter.ConsoleReport` |
| `Labels.AutoPowerOnOf` | UPSPlus-exporter.py:196-199 | turns on with external power iff the byte is 1; stated by `Exporter.ConsoleReport` |
| `Labels.ChargingIsPriority` | UPSPlus-exporter.py:173-178 | the if/elif chain picks the first interface, Type-C before Micro-USB, that is above the threshold; not charging iff both are at most 4000; Type-C wins when both are above |
| `Labels.ChargingBoundaries` | UPSPlus-exporter.py:173-178 | exactly 4000 mV is not charging (strict `>`); 4500/0 gives Type-C and 0/4500 gives Micro-USB |
| `Labels.CountdownOf` | UPSPlus-exporter.py:191-203 | a timer label is "no countdown" iff the byte is 0; otherwise it carries the byte's value in seconds, 1..255, and the seconds shown are the byte |
| `Labels.CountdownInjective` | UPSPlus-exporter.py:191-203 | distinct timer bytes print distinct labels |
| `BlockReader.ReadBlock` | UPSPlus-exporter.py:129-133 | the fill succeeds iff every register read succeeds; then the buffer has 255 slots, slot 0 is the placeholder 0 and slot i is register i; otherwise it reports the first failing register, all earlier reads having succeeded |
| `BlockReader.BlockOf` | UPSPlus-exporter.py:129-133 | the buffer a complete fill produces (placeholder 0, then register i in slot i); that the fill loop builds it is stated by `BlockReader.ReadBlock` |
| `Publisher.PublishAsWritten` | UPSPlus-exporter.py:41-68 | as written: skipped iff the mapping is empty; an exception leaves the call iff the mapping is non-empty and building the client fails |
| `Publisher.ClientFaultEscapes` | UPSPlus-exporter.py:48-68 | a concrete non-empty publish whose client construction fails raises out of the publish call |
| `Publisher.Publish` | UPSPlus-exporter.py:44-68 | never raises; skipped (no client write) iff the mapping is empty; written iff non-empty and no fault, and the point then carries the event name, the time and exactly the given fields |
| `Publisher.PublishAgreesAsWritten` | UPSPlus-exporter.py:41-68 | the corrected publish agrees with the code as written except when building the client fails |
| `Exporter.VoltageFields` | UPSPlus-exporter.py:135-140 | the `current_voltage_data` mapping; keys and values stated by `Exporter.DeviceEventsComplete` |
| `Exporter.BatteryFields` | UPSPlus-exporter.py:144-149 | the `battery_data` mapping; keys and values stated by `Exporter.DeviceEventsComplete` |
| `Exporter.DeviceFields` | UPSPlus-exporter.py:153-162 | the `device_data` mapping; keys and values stated by `Exporter.DeviceEventsComplete` |
| `Exporter.DeviceEvents` | UPSPlus-exporter.py:135-164 | the three measurements in publish order with their mappings; stated by `Exporter.DeviceEventsComplete` |
| `Exporter.DeviceEventsComplete` | UPSPlus-exporter.py:135-164 | the three groups are sent as "current_voltage_data", "battery_data" and "device_data", are never empty, carry exactly their documented field names, and each of the 19 fields holds the little-endian value of its bytes (the single-byte settings hold bytes 23-26) |
| `Exporter.ConsoleReport` | UPSPlus-exporter.py:166-214 | the printed voltages, battery fields, sampling period, times and firmware are the decoded ones; the charging label is the Type-C-first rule on bytes 7-10; the power state is normal iff byte 23 is 1; auto power-on iff byte 25 is 1; the shutdown (byte 24) and restart (byte 26) labels are "no countdown" iff the byte is 0 and otherwise show the byte in seconds; the serial number is 26 characters with '-' at 8 and 17 and three upper-case hex segments denoting UID0, UID1 and UID2 |
| `Exporter.PublishAllAsWritten` | UPSPlus-exporter.py:141-164 | as written: the groups are published in order, each as the code as written does, and the first one that raises is the last one published |
| `Exporter.PublishAll` | UPSPlus-exporter.py:141-164 | with the corrected publish, every group is published in order |
| `Exporter.RunOnBlockAsWritten` | UPSPlus-exporter.py:141-214 | as written: the publishes and the console report once the buffer is filled, leaving early when a publish raises; stated by `Exporter.RunOnBlockAsWrittenAborts`, `Exporter.ClientFaultAbortsRun` and `Exporter.RunOnBlockAgrees` |
| `Exporter.RunOnBlock` | UPSPlus-exporter.py:141-214 | the same step with the corrected publish; stated by `Exporter.RunOnBlockPublishes`, and equal to the step as written without a client fault by `Exporter.RunOnBlockAgrees` |
| `Exporter.RunOnBlockAsWrittenAborts` | UPSPlus-exporter.py:141-214 | as written: with InfluxDB on, the step leaves early iff some group's client cannot be built; it stops at the first such group, the earlier groups having been published normally, and neither a later group nor the console report follows |
| `Exporter.ClientFaultAbortsRun` | UPSPlus-exporter.py:49-214 | when every client construction fails, the step as written stops after the first group with no report, while the corrected step logs three failures and still prints the report |
| `Exporter.RunOnBlockAgrees` | UPSPlus-exporter.py:141-214 | when no client construction fails (or InfluxDB is off), the step as written and the corrected step give the same outcomes and the same report |
| `Exporter.RunOnBlockPublishes` | UPSPlus-exporter.py:135-214 | with the corrected publish and InfluxDB on, exactly three groups are sent and none is skipped or raises, and each written point carries its measurement name, the time its own publish read and its decoded group; with InfluxDB off, nothing is sent; the report is the console report of the block iff raw output is on, and absent otherwise |
| `Exporter.PublishDeviceData` | UPSPlus-exporter.py:126-214 | as written: the step ends with a read failure iff some register read fails, naming the first failing register with all earlier reads successful, before anything is published or printed; otherwise it is the as-written step on the block the fill produced, including its early exit when a publish raises |

## Left out

- The INA219 supply and battery readings (`publish_raspberry_pi_data`, `publish_battery_data`, lines 77-123) are left out. They call a foreign sensor driver that returns floating-point values.
- The `DeviceRangeError` handler (lines 112-120) is left out. It wraps only the prints, not the sensor reads at lines 101-103. So, unlike a tolerated battery-range condition, a range error raised by `current()` reaches the top-level handler.
- smbus2 is not part of this model. A register read is a pure function of the register number. The fill reads each register once, in order, so the order of reads is not observed.
- The InfluxDB client, `write_points`, `time.time()` and the verbose and failure prints (lines 48-68) are not part of this model. The time each publish reads is the value of the parameter `clock` for its measurement. A failure is a `Fault`, and only its effect on the outcome is modelled, not the text that is printed.
- The `from influxdb import InfluxDBClient` at line 42 runs before the empty-data guard. A missing library therefore raises even for an empty mapping. The model does not include the import.
- The argparse setup, the global `args` and the top-level catch-all at lines 217-244 are left out. The two switches that `publish_device_data` reads are the `Config` parameter. The exit status is not modelled.
- The console wording is left out. The labels are datatype values. Only the serial number string is modelled character by character.
- The unused constants `PROTECT_VOLT` and `SAMPLE_TIME` (lines 74-75) are left out.
- Field values are published as integers. The supply and battery groups, whose values are floats, are not modelled.

## Findings

| source | as written | input that shows it | evidently intended | confidence | as-written member | corrected member |
|---|---|---|---|---|---|---|
| UPSPlus-exporter.py:49-68 | `payload` is first assigned at line 54, after `InfluxDBClient(...)` at line 49. If the constructor raises, the handler's `print(... % payload)` at line 68 raises UnboundLocalError. That error leaves `influxdb_publish` and `publish_device_data`, so the later groups and the console report are skipped, and through the top-level handler it ends the run. | a non-empty mapping, such as `{"processor": 5100}`, with `InfluxDBClient(...)` raising | a publish failure is printed and the call returns normally, so later publishes still happen | not executed; medium (the constructor rarely raises) | `Publisher.PublishAsWritten`, `Publisher.ClientFaultEscapes`, `Exporter.RunOnBlockAsWrittenAborts`, `Exporter.ClientFaultAbortsRun` | `Publisher.Publish`, `Exporter.RunOnBlockPublishes` |
