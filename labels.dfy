/**
 * The derived classifications printed beside the raw values: charging
 * source, power state, the two countdown timers and power-on behaviour.
 * They are modelled as values rather than the English sentences printed.
 */
module Labels {
  import opened RegisterBlock
  import opened Decoder

  /** An interface counts as supplying power strictly above this many millivolts. */
  const CHARGING_THRESHOLD_MV: nat := 4000

  datatype ChargingSource = TypeC | MicroUsb | NotCharging

  /** Type-C is checked first, then Micro-USB. */
  function ChargingFrom(typeCmV: nat, microUsbmV: nat): ChargingSource
  {
    if typeCmV > CHARGING_THRESHOLD_MV then TypeC
    else if microUsbmV > CHARGING_THRESHOLD_MV then MicroUsb
    else NotCharging
  }

  /** The charging source read from the Type-C and Micro-USB registers of the block. */
  function Charging(buf: Block): (c: ChargingSource)
    ensures c == TypeC <==> buf[7] as int + 0x100 * (buf[8] as int) > 4000
    ensures c == MicroUsb <==>
      buf[7] as int + 0x100 * (buf[8] as int) <= 4000 && buf[9] as int + 0x100 * (buf[10] as int) > 4000
    ensures c == NotCharging <==>
      buf[7] as int + 0x100 * (buf[8] as int) <= 4000 && buf[9] as int + 0x100 * (buf[10] as int) <= 4000
  {
    var v := DecodeVoltages(buf);
    ChargingFrom(v.typeC, v.microUsb)
  }

  /**
   * Reference reading of the rule: the source is the first interface, in the
   * order Type-C then Micro-USB, whose voltage is above the threshold.
   */
  function FirstAbove(candidates: seq<(ChargingSource, nat)>): ChargingSource
  {
    if candidates == [] then NotCharging
    else if candidates[0].1 > CHARGING_THRESHOLD_MV then candidates[0].0
    else FirstAbove(candidates[1..])
  }

  /** The if/elif chain is the priority rule, and the three outcomes split the inputs. */
  lemma ChargingIsPriority(typeCmV: nat, microUsbmV: nat)
    ensures ChargingFrom(typeCmV, microUsbmV) == FirstAbove([(TypeC, typeCmV), (MicroUsb, microUsbmV)])
    ensures ChargingFrom(typeCmV, microUsbmV) == NotCharging <==> typeCmV <= 4000 && microUsbmV <= 4000
    ensures typeCmV > 4000 && microUsbmV > 4000 ==> ChargingFrom(typeCmV, microUsbmV) == TypeC
  {
    var both: seq<(ChargingSource, nat)> := [(TypeC, typeCmV), (MicroUsb, microUsbmV)];
    assert both[1..] == [(MicroUsb, microUsbmV)];
    assert both[1..][1..] == [];
    assert FirstAbove(both[1..]) == if microUsbmV > CHARGING_THRESHOLD_MV then MicroUsb else NotCharging;
  }

  /** Exactly 4000 mV is not charging; 4500 mV on one interface and 0 on the other selects it. */
  lemma ChargingBoundaries()
    ensures ChargingFrom(4000, 4000) == NotCharging
    ensures ChargingFrom(4001, 0) == TypeC && ChargingFrom(4000, 4001) == MicroUsb
    ensures ChargingFrom(4500, 0) == TypeC && ChargingFrom(0, 4500) == MicroUsb
  {
  }

  datatype PowerState = Normal | Off

  /** The power-state byte: 1 is normal, every other value is off. */
  function PowerStateOf(b: Byte): PowerState
  {
    if b == 1 then Normal else Off
  }

  datatype AutoPowerOn = TurnsOn | StaysOff

  /** The turn-on-with-power byte: 1 turns on when external power returns, every other value does not. */
  function AutoPowerOnOf(b: Byte): AutoPowerOn
  {
    if b == 1 then TurnsOn else StaysOff
  }

  /** A shutdown or restart timer: 0 means no countdown is running. */
  datatype Countdown = NoCountdown | Seconds(sec: nat)

  /** The seconds a countdown label stands for, 0 for none. */
  function CountdownSeconds(c: Countdown): nat
  {
    match c
    case NoCountdown => 0
    case Seconds(n) => n
  }

  /** The label loses nothing: the seconds it shows are the byte, and it is "none" exactly for 0. */
  function CountdownOf(b: Byte): (c: Countdown)
    ensures CountdownSeconds(c) == b
    ensures c == NoCountdown <==> b == 0
    ensures c.Seconds? ==> 1 <= c.sec <= 255
  {
    if b == 0 then NoCountdown else Seconds(b)
  }

  /** Distinct timer bytes always print distinct labels. */
  lemma CountdownInjective(a: Byte, b: Byte)
    requires CountdownOf(a) == CountdownOf(b)
    ensures a == b
  {
    assert CountdownSeconds(CountdownOf(a)) == a;
  }
}
