/**
 * publish_device_data: fill the receive buffer, publish the voltage,
 * battery and device groups when InfluxDB output is on, and produce the
 * console report (with the derived labels and the serial number) when raw
 * output is on.
 */
module Exporter {
  import opened Wrappers
  import opened RegisterBlock
  import opened Decoder
  import opened Serial
  import opened Labels
  import opened BlockReader
  import opened Publisher

  /** The two command-line switches this step consults. */
  datatype Config = Config(raw: bool, influxdb: bool)

  // Each publish reads the clock itself: `clock(event)` is the whole-second
  // time the publish of `event` reads, and `fault(event)` is how it fails.

  function VoltageFields(v: VoltageReadings): map<string, int>
  {
    map[
      "processor" := v.processor,
      "Raspberry_Pi_reported" := v.raspberryPi,
      "Battery_port_reported" := v.batteryPort,
      "Charging_interface_(Type_C)" := v.typeC,
      "Charging_interface_(Micro_USB)" := v.microUsb]
  }

  function BatteryFields(b: BatteryData): map<string, int>
  {
    map[
      "Temperature" := b.temperature,
      "Full_voltage" := b.fullVoltage,
      "Empty_voltage" := b.emptyVoltage,
      "Protection_voltage" := b.protectionVoltage,
      "Remaining_capacity" := b.remainingCapacity]
  }

  function DeviceFields(d: DeviceData): map<string, int>
  {
    map[
      "Sampling" := d.sampling,
      "Power_state" := d.powerState,
      "Shutdown_timer" := d.shutdownTimer,
      "Turn_on_with_power" := d.turnOnWithPower,
      "Restart_timer" := d.restartTimer,
      "Running_time" := d.runningTime,
      "Charge_time" := d.chargeTime,
      "Uptime" := d.uptime,
      "Firmware" := d.firmware]
  }

  /** The three measurements publish_device_data sends, in order. */
  function DeviceEvents(buf: Block): seq<(string, map<string, int>)>
  {
    [("current_voltage_data", VoltageFields(DecodeVoltages(buf))),
     ("battery_data", BatteryFields(DecodeBattery(buf))),
     ("device_data", DeviceFields(DecodeDevice(buf)))]
  }

  /**
   * None of the three groups is ever empty, so the empty-data guard never
   * skips them, and each carries exactly its documented fields with the
   * values of the bytes at their offsets.
   */
  lemma DeviceEventsComplete(buf: Block)
    ensures var ev := DeviceEvents(buf);
      && |ev| == 3
      && ev[0].0 == "current_voltage_data" && ev[1].0 == "battery_data" && ev[2].0 == "device_data"
      && (forall k :: 0 <= k < 3 ==> ev[k].1 != map[])
      && ev[0].1.Keys == {"processor", "Raspberry_Pi_reported", "Battery_port_reported",
                          "Charging_interface_(Type_C)", "Charging_interface_(Micro_USB)"}
      && ev[1].1.Keys == {"Temperature", "Full_voltage", "Empty_voltage", "Protection_voltage",
                          "Remaining_capacity"}
      && ev[2].1.Keys == {"Sampling", "Power_state", "Shutdown_timer", "Turn_on_with_power", "Restart_timer",
                          "Running_time", "Charge_time", "Uptime", "Firmware"}
      && ev[0].1["processor"] == buf[1] as int + 0x100 * (buf[2] as int)
      && ev[0].1["Raspberry_Pi_reported"] == buf[3] as int + 0x100 * (buf[4] as int)
      && ev[0].1["Battery_port_reported"] == buf[5] as int + 0x100 * (buf[6] as int)
      && ev[0].1["Charging_interface_(Type_C)"] == buf[7] as int + 0x100 * (buf[8] as int)
      && ev[0].1["Charging_interface_(Micro_USB)"] == buf[9] as int + 0x100 * (buf[10] as int)
      && ev[1].1["Temperature"] == buf[11] as int + 0x100 * (buf[12] as int)
      && ev[1].1["Full_voltage"] == buf[13] as int + 0x100 * (buf[14] as int)
      && ev[1].1["Empty_voltage"] == buf[15] as int + 0x100 * (buf[16] as int)
      && ev[1].1["Protection_voltage"] == buf[17] as int + 0x100 * (buf[18] as int)
      && ev[1].1["Remaining_capacity"] == buf[19] as int + 0x100 * (buf[20] as int)
      && ev[2].1["Sampling"] == buf[21] as int + 0x100 * (buf[22] as int)
      && ev[2].1["Power_state"] == buf[23]
      && ev[2].1["Shutdown_timer"] == buf[24]
      && ev[2].1["Turn_on_with_power"] == buf[25]
      && ev[2].1["Restart_timer"] == buf[26]
      && ev[2].1["Running_time"] == buf[28] as int + 0x100 * (buf[29] as int)
                                   + 0x1_0000 * (buf[30] as int) + 0x100_0000 * (buf[31] as int)
      && ev[2].1["Charge_time"] == buf[32] as int + 0x100 * (buf[33] as int)
                                  + 0x1_0000 * (buf[34] as int) + 0x100_0000 * (buf[35] as int)
      && ev[2].1["Uptime"] == buf[36] as int + 0x100 * (buf[37] as int)
                             + 0x1_0000 * (buf[38] as int) + 0x100_0000 * (buf[39] as int)
      && ev[2].1["Firmware"] == buf[40] as int + 0x100 * (buf[41] as int)
  {
    var ev := DeviceEvents(buf);
    DecodeBytes(buf);
    assert "processor" in ev[0].1;
    assert "Temperature" in ev[1].1;
    assert "Sampling" in ev[2].1;
  }

  /** What the console lines show, with the labels as values. */
  datatype Report = Report(
    voltages: VoltageReadings, charging: ChargingSource, battery: BatteryData, sampling: nat,
    powerState: PowerState, shutdown: Countdown, autoPowerOn: AutoPowerOn, restart: Countdown,
    runningTime: nat, chargeTime: nat, uptime: nat, firmware: nat, serial: string)

  function ConsoleReport(buf: Block): (r: Report)
    ensures r.powerState == Normal <==> buf[23] == 1
    ensures r.shutdown == NoCountdown <==> buf[24] == 0
    ensures CountdownSeconds(r.shutdown) == buf[24]
    ensures r.autoPowerOn == TurnsOn <==> buf[25] == 1
    ensures r.restart == NoCountdown <==> buf[26] == 0
    ensures CountdownSeconds(r.restart) == buf[26]
    ensures r.voltages == Decode(buf).voltages && r.battery == Decode(buf).battery
    ensures r.charging == Charging(buf)
    ensures var d := Decode(buf).device;
      && r.sampling == d.sampling && r.runningTime == d.runningTime && r.chargeTime == d.chargeTime
      && r.uptime == d.uptime && r.firmware == d.firmware
    ensures |r.serial| == 26 && r.serial[8] == '-' && r.serial[17] == '-'
    ensures var u := Decode(buf).identity;
      && IsUpperHex(r.serial[0..8]) && HexValue(r.serial[0..8]) == u.uid0
      && IsUpperHex(r.serial[9..17]) && HexValue(r.serial[9..17]) == u.uid1
      && IsUpperHex(r.serial[18..26]) && HexValue(r.serial[18..26]) == u.uid2
  {
    var v, b, d := DecodeVoltages(buf), DecodeBattery(buf), DecodeDevice(buf);
    SerialShape(buf);
    Report(
      v, ChargingFrom(v.typeC, v.microUsb), b, d.sampling,
      PowerStateOf(d.powerState), CountdownOf(d.shutdownTimer), AutoPowerOnOf(d.turnOnWithPower),
      CountdownOf(d.restartTimer), d.runningTime, d.chargeTime, d.uptime, d.firmware,
      SerialNumber(buf))
  }

  /** What one run of publish_device_data produces once the buffer is filled. */
  datatype DeviceRun = DeviceRun(published: seq<Outcome>, report: Option<Report>)

  /**
   * How publish_device_data can end early: a register read raises while the
   * buffer is filled, or a publish raises, after the outcomes in `published`.
   */
  datatype Abort = ReadFailed(register: nat) | PublishRaised(published: seq<Outcome>)

  /** Some one of the three measurements cannot build its client. */
  predicate ClientFaultAmong(fault: string -> Fault)
  {
    || fault("current_voltage_data") == ClientFault
    || fault("battery_data") == ClientFault
    || fault("device_data") == ClientFault
  }

  /**
   * The outcomes of publishing `events` in order as written: each group is
   * published as the source does, and the first one that raises ends the
   * sequence, so no later group is published.
   */
  function PublishAllAsWritten(events: seq<(string, map<string, int>)>, clock: string -> int, fault: string -> Fault)
    : (o: seq<Outcome>)
    ensures |o| <= |events|
    ensures forall k :: 0 <= k < |o| ==> o[k] == PublishAsWritten(events[k].0, events[k].1, clock(events[k].0), fault(events[k].0))
    ensures forall k :: 0 <= k < |o| - 1 ==> o[k] != Raised
    ensures |o| < |events| ==> 0 < |o| && o[|o| - 1] == Raised
  {
    if events == [] then []
    else
      var first := PublishAsWritten(events[0].0, events[0].1, clock(events[0].0), fault(events[0].0));
      if first == Raised then [Raised] else [first] + PublishAllAsWritten(events[1..], clock, fault)
  }

  /** The outcomes of publishing `events` with the corrected publish: every group is sent. */
  function PublishAll(events: seq<(string, map<string, int>)>, clock: string -> int, fault: string -> Fault): (o: seq<Outcome>)
    ensures |o| == |events|
    ensures forall k :: 0 <= k < |events| ==> o[k] == Publish(events[k].0, events[k].1, clock(events[k].0), fault(events[k].0))
  {
    if events == [] then []
    else [Publish(events[0].0, events[0].1, clock(events[0].0), fault(events[0].0))] + PublishAll(events[1..], clock, fault)
  }

  /**
   * The rest of publish_device_data as written, once the buffer is filled:
   * a publish that raises leaves the step, so the later groups and the
   * console report never happen.
   */
  function RunOnBlockAsWritten(buf: Block, cfg: Config, clock: string -> int, fault: string -> Fault): Result<DeviceRun, Abort>
  {
    var published := if cfg.influxdb then PublishAllAsWritten(DeviceEvents(buf), clock, fault) else [];
    if Raised in published then Failure(PublishRaised(published))
    else Success(DeviceRun(published, if cfg.raw then Some(ConsoleReport(buf)) else None))
  }

  /** The same step with the corrected publish, which never raises. */
  function RunOnBlock(buf: Block, cfg: Config, clock: string -> int, fault: string -> Fault): DeviceRun
  {
    DeviceRun(
      if cfg.influxdb then PublishAll(DeviceEvents(buf), clock, fault) else [],
      if cfg.raw then Some(ConsoleReport(buf)) else None)
  }

  /**
   * As written, the step leaves early exactly when InfluxDB output is on and
   * one of the three groups cannot build its client. It then stops at the
   * first such group: the groups before it are published as usual and
   * neither a later group nor the report follows.
   */
  lemma {:induction false} RunOnBlockAsWrittenAborts(buf: Block, cfg: Config, clock: string -> int, fault: string -> Fault)
    ensures var r := RunOnBlockAsWritten(buf, cfg, clock, fault);
      && (r.Failure? <==> cfg.influxdb && ClientFaultAmong(fault))
      && (r.Failure? ==>
            && r.error.PublishRaised?
            && 0 < |r.error.published| <= 3
            && var last := |r.error.published| - 1;
            && fault(DeviceEvents(buf)[last].0) == ClientFault
            && (forall k :: 0 <= k < last ==> fault(DeviceEvents(buf)[k].0) != ClientFault)
            && (forall k :: 0 <= k < last ==>
                  var ev := DeviceEvents(buf)[k];
                  r.error.published[k] == Publish(ev.0, ev.1, clock(ev.0), fault(ev.0))))
  {
    DeviceEventsComplete(buf);
    var ev := DeviceEvents(buf);
    var r := RunOnBlockAsWritten(buf, cfg, clock, fault);
    if cfg.influxdb {
      var o := PublishAllAsWritten(ev, clock, fault);
      forall k | 0 <= k < |o|
        ensures o[k] == Raised <==> fault(ev[k].0) == ClientFault
        ensures o[k] != Raised ==> o[k] == Publish(ev[k].0, ev[k].1, clock(ev[k].0), fault(ev[k].0))
      {
        PublishAgreesAsWritten(ev[k].0, ev[k].1, clock(ev[k].0), fault(ev[k].0));
      }
      if ClientFaultAmong(fault) {
        var j :| 0 <= j < 3 && fault(ev[j].0) == ClientFault;
        assert Raised in o by {
          if |o| == 3 { assert o[j] == Raised; } else { assert o[|o| - 1] == Raised; }
        }
      }
      if r.Failure? {
        assert Raised in o;
        var j :| 0 <= j < |o| && o[j] == Raised;
        assert j == |o| - 1;
      }
    }
  }

  /** Without a failure to build a client, the step as written and the corrected step agree. */
  lemma {:induction false} RunOnBlockAgrees(buf: Block, cfg: Config, clock: string -> int, fault: string -> Fault)
    requires !(cfg.influxdb && ClientFaultAmong(fault))
    ensures RunOnBlockAsWritten(buf, cfg, clock, fault) == Success(RunOnBlock(buf, cfg, clock, fault))
  {
    DeviceEventsComplete(buf);
    var ev := DeviceEvents(buf);
    if cfg.influxdb {
      var o := PublishAllAsWritten(ev, clock, fault);
      var c := PublishAll(ev, clock, fault);
      forall k | 0 <= k < |o|
        ensures o[k] == c[k] && o[k] != Raised
      {
        PublishAgreesAsWritten(ev[k].0, ev[k].1, clock(ev[k].0), fault(ev[k].0));
      }
      assert |o| == 3;
      assert o == c;
    }
  }

  /**
   * When the first group's client cannot be built, the step as written stops
   * after that group, with no further publish and no report, while the
   * corrected step sends all three groups and prints the report.
   */
  lemma ClientFaultAbortsRun(buf: Block, clock: string -> int)
    ensures RunOnBlockAsWritten(buf, Config(true, true), clock, _ => ClientFault) == Failure(PublishRaised([Raised]))
    ensures var run := RunOnBlock(buf, Config(true, true), clock, _ => ClientFault);
      run.published == [FailureLogged, FailureLogged, FailureLogged] && run.report.Some?
  {
    DeviceEventsComplete(buf);
  }

  /**
   * With the corrected publish and InfluxDB output on, all three groups are
   * sent (none skipped, none raising), and a group whose write succeeds
   * carries the decoded values; with it off nothing is sent. The report is
   * there exactly when raw output is on.
   */
  lemma RunOnBlockPublishes(buf: Block, cfg: Config, clock: string -> int, fault: string -> Fault)
    ensures var run := RunOnBlock(buf, cfg, clock, fault);
      && (cfg.influxdb ==> |run.published| == 3)
      && (!cfg.influxdb ==> run.published == [])
      && (forall k :: 0 <= k < |run.published| ==> run.published[k] != Skipped && run.published[k] != Raised)
      && (forall k :: 0 <= k < |run.published| && run.published[k].Written? ==>
            run.published[k].point.fields == DeviceEvents(buf)[k].1)
      && (forall k :: 0 <= k < |run.published| && run.published[k].Written? ==>
            && run.published[k].point.measurement == DeviceEvents(buf)[k].0
            && run.published[k].point.time == clock(DeviceEvents(buf)[k].0))
      && (run.report.Some? <==> cfg.raw)
      && run.report == (if cfg.raw then Some(ConsoleReport(buf)) else None)
  {
    DeviceEventsComplete(buf);
  }

  /**
   * publish_device_data as written. A register read that fails aborts it
   * before anything is published or printed; otherwise it publishes and
   * reports from the filled buffer, leaving early if a publish raises.
   */
  method PublishDeviceData(read: RegisterRead, cfg: Config, clock: string -> int, fault: string -> Fault)
    returns (r: Result<DeviceRun, Abort>)
    ensures (r.Failure? && r.error.ReadFailed?) <==> !AllReadsSucceed(read)
    ensures r.Failure? && r.error.ReadFailed? ==>
      && 1 <= r.error.register < BLOCK_SIZE
      && read(r.error.register).None?
      && forall reg :: 1 <= reg < r.error.register ==> read(reg).Some?
    ensures AllReadsSucceed(read) ==> r == RunOnBlockAsWritten(BlockOf(read), cfg, clock, fault)
  {
    var filled := ReadBlock(read);
    if filled.Failure? {
      return Failure(ReadFailed(filled.error.register));
    }
    r := RunOnBlockAsWritten(filled.value, cfg, clock, fault);
  }
}
