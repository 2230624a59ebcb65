/**
 * The InfluxDB publish step: an empty field mapping is skipped without
 * contacting the database; otherwise one point (measurement, whole-second
 * time, fields) is written, and a failure is printed rather than raised.
 * The client, the clock and the network are outside the model: the time is
 * a parameter and the way the call fails, if it does, is a `Fault`.
 */
module Publisher {

  /** One point: measurement name, time in whole seconds, field values. */
  datatype Point = Point(measurement: string, time: int, fields: map<string, int>)

  /** Where a publish fails: not at all, building the client, or writing the point. */
  datatype Fault = NoFault | ClientFault | WriteFault

  datatype Outcome =
    | Skipped               // empty mapping: no client is built, nothing is written
    | Written(point: Point)
    | FailureLogged         // the failure and the payload are printed; the call returns normally
    | Raised                // an exception leaves the publish call

  /**
   * The publish step as written. `payload` is first assigned after the
   * client is built, so when building the client fails the handler's own
   * print of `payload` raises, and that exception leaves the call.
   */
  function PublishAsWritten(event: string, data: map<string, int>, now: int, fault: Fault): (o: Outcome)
    ensures o == Skipped <==> data == map[]
    ensures o == Raised <==> data != map[] && fault == ClientFault
  {
    if data == map[] then Skipped
    else match fault
      case NoFault => Written(Point(event, now, data))
      case ClientFault => Raised
      case WriteFault => FailureLogged
  }

  /** A non-empty publish whose client cannot be built raises past the publish boundary. */
  lemma ClientFaultEscapes()
    ensures PublishAsWritten("current_voltage_data", map["processor" := 5100], 0, ClientFault) == Raised
  {
    var data := map["processor" := 5100];
    assert "processor" in data;
  }

  /**
   * The publish step with the payload bound before the client is built:
   * no failure leaves the call.
   */
  function Publish(event: string, data: map<string, int>, now: int, fault: Fault): (o: Outcome)
    ensures o != Raised
    ensures o == Skipped <==> data == map[]
    ensures o.Written? <==> data != map[] && fault == NoFault
    ensures o.Written? ==> o.point.measurement == event && o.point.time == now && o.point.fields == data
  {
    if data == map[] then Skipped
    else match fault
      case NoFault => Written(Point(event, now, data))
      case ClientFault => FailureLogged
      case WriteFault => FailureLogged
  }

  /** The two agree on every input except a failure while building the client. */
  lemma PublishAgreesAsWritten(event: string, data: map<string, int>, now: int, fault: Fault)
    ensures fault != ClientFault ==> Publish(event, data, now, fault) == PublishAsWritten(event, data, now, fault)
    ensures fault == ClientFault && data != map[] ==>
      PublishAsWritten(event, data, now, fault) == Raised && Publish(event, data, now, fault) == FailureLogged
  {
  }
}
