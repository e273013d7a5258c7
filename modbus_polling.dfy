/** The edge gateway's Modbus poller (ModbusPollingService.PollDeviceAsync): one
    loop per device that (re)connects, reads a 12-register block, decodes it into
    a telemetry message and queues the message. The network is not modelled: the
    outcome of every connect and read of one loop iteration is an input event. */
module ModbusPolling {
  import opened Common
  import opened RegisterMap
  import opened Telemetry

  /** ReadHoldingRegistersAsync(slaveAddress, startAddress, numberOfPoints). */
  datatype ReadRequest = ReadRequest(SlaveAddress: nat, StartAddress: nat, NumberOfPoints: nat)

  /** The one request every cycle issues. */
  const PollRead: ReadRequest := ReadRequest(1, 0, 12)

  /** ModbusPollingOptions defaults. */
  const DefaultPollIntervalMs: nat := 500
  const DefaultTimeoutMs: nat := 2000

  /** Delays of the two catch blocks. */
  const ConnectRetryDelayMs: nat := 5000
  const ErrorRetryDelayMs: nat := 1000

  const MeasurementKeys: set<string> :=
    {"bloodFlow", "arterialPressure", "venousPressure", "dialysateTemperature", "conductivity", "treatmentTime"}
  const AlarmKeys: set<string> := {"pressureLow", "pressureHigh"}

  /** Decoding of a register reply (lines 94-121). A reply with fewer than 11
      registers makes the indexing throw, which is None here. Nothing is clamped. */
  function Decode(deviceId: string, now: Instant, registers: seq<UInt16>): (r: Option<TelemetryMessage>)
    ensures r.Some? <==> |registers| > TreatmentTimeRegister
    ensures r.Some? ==> r.value.DeviceId == deviceId && r.value.Timestamp == now
    ensures r.Some? ==> r.value.Measurements.Keys == MeasurementKeys && r.value.Alarms.Keys == AlarmKeys
    // every value comes from the address the device's register map gives it, unclamped
    ensures r.Some? ==> r.value.Measurements["bloodFlow"] == registers[BloodFlowRateRegister] as real
    ensures r.Some? ==> r.value.Measurements["arterialPressure"] == registers[ArterialPressureRegister] as real
    ensures r.Some? ==> r.value.Measurements["venousPressure"] == registers[VenousPressureRegister] as real
    ensures r.Some? ==> r.value.Measurements["dialysateTemperature"] * 100.0 == registers[DialysateTemperatureRegister] as real
    ensures r.Some? ==> r.value.Measurements["conductivity"] * 100.0 == registers[ConductivityRegister] as real
    ensures r.Some? ==> r.value.Measurements["treatmentTime"] == registers[TreatmentTimeRegister] as real
    // the two derived alarms
    ensures r.Some? ==> (r.value.Alarms["pressureLow"] <==> r.value.Measurements["arterialPressure"] < 80.0)
    ensures r.Some? ==> (r.value.Alarms["pressureHigh"] <==> r.value.Measurements["venousPressure"] > 200.0)
  {
    if |registers| <= 10 then None
    else
      var bloodFlow := registers[0];
      var arterialPressure := registers[2];
      var venousPressure := registers[4];
      var temperatureRaw := registers[6];
      var conductivityRaw := registers[8];
      var treatmentTime := registers[10];
      var temperature := temperatureRaw as real / 100.0;
      var conductivity := conductivityRaw as real / 100.0;
      Some(TelemetryMessage(
        deviceId,
        now,
        map["bloodFlow" := bloodFlow as real, "arterialPressure" := arterialPressure as real,
            "venousPressure" := venousPressure as real, "dialysateTemperature" := temperature,
            "conductivity" := conductivity, "treatmentTime" := treatmentTime as real],
        map["pressureLow" := arterialPressure < 80, "pressureHigh" := venousPressure > 200]))
  }

  // ----- The connect / read / reset loop -----

  /** How ConnectAsync ends: connected, ConnectFailedException, or any other exception. */
  datatype ConnectOutcome = ConnectOk | ConnectFailed | ConnectFault

  /** How ReadHoldingRegistersAsync ends: a reply, or an exception. */
  datatype ReadOutcome = Reply(registers: seq<UInt16>) | ReadFault

  /** What the world does during one loop iteration: whether cancellation was
      requested at the loop head, whether an existing TCP client still reports
      Connected, and the outcome of a connect (used only if one is made) and of
      the read. */
  datatype PollEvent = PollEvent(
    cancelled: bool,
    linkUp: bool,
    connect: ConnectOutcome,
    read: ReadOutcome,
    now: Instant)

  /** The loop's two locals: whether `client` and `master` are non-null. */
  datatype Link = Link(client: bool, master: bool)

  const Disconnected: Link := Link(false, false)

  /** What one iteration produces: the new locals, the queued message if any,
      and the delay it ends with. */
  datatype CycleResult = CycleResult(link: Link, message: Option<TelemetryMessage>, delayMs: nat)

  /** The read half of an iteration (lines 90-136), once a master exists. */
  function ReadCycle(link: Link, e: PollEvent, deviceId: string, intervalMs: nat): (r: CycleResult)
    // a message is queued exactly when the read returned a decodable reply
    ensures r.message.Some? <==> e.read.Reply? && Decode(deviceId, e.now, e.read.registers).Some?
    ensures r.message.Some? ==> r.message == Decode(deviceId, e.now, e.read.registers)
    ensures r.message.Some? ==> r.link == link && r.delayMs == intervalMs
    // a failed read drops both connections and waits the short retry delay
    ensures r.message.None? ==> r.link == Disconnected && r.delayMs == ErrorRetryDelayMs
  {
    match e.read
    case ReadFault => CycleResult(Disconnected, None, ErrorRetryDelayMs)
    case Reply(registers) =>
      match Decode(deviceId, e.now, registers)
      case None => CycleResult(Disconnected, None, ErrorRetryDelayMs)
      case Some(message) => CycleResult(link, Some(message), intervalMs)
  }

  /** One iteration of the loop body with its two catch blocks (lines 74-153). */
  function Cycle(link: Link, e: PollEvent, deviceId: string, intervalMs: nat): (r: CycleResult)
    // client and master are null together or non-null together
    ensures link.client == link.master ==> r.link.client == r.link.master
    // any exception resets both locals, so the next iteration reconnects
    ensures r.message.None? && link.client == link.master ==> r.link == Disconnected
    ensures r.link == Disconnected ==> r.message.None? && r.delayMs in {ConnectRetryDelayMs, ErrorRetryDelayMs}
    // only a ConnectFailedException waits 5 s; every other exception waits 1 s
    ensures r.link == Disconnected && r.delayMs == ConnectRetryDelayMs ==> e.connect == ConnectFailed
    ensures e.connect == ConnectFailed && (!link.client || !e.linkUp) ==> r.link == Disconnected && r.delayMs == ConnectRetryDelayMs
    // a message is queued exactly when the read delivered a decodable reply over a live link
    ensures r.message.Some? ==> e.read.Reply? && Decode(deviceId, e.now, e.read.registers) == r.message
    ensures r.message.Some? ==> r.link == Link(true, true) && r.delayMs == intervalMs
  {
    if !link.client || !e.linkUp then
      match e.connect
      case ConnectFailed => CycleResult(Disconnected, None, ConnectRetryDelayMs)
      case ConnectFault => CycleResult(Disconnected, None, ErrorRetryDelayMs)
      case ConnectOk => ReadCycle(Link(true, true), e, deviceId, intervalMs)
    else if link.master then
      ReadCycle(link, e, deviceId, intervalMs)
    else
      CycleResult(link, None, intervalMs)
  }

  /** The number of iterations the loop runs: up to the first event at which
      cancellation is requested. */
  function Iterations(events: seq<PollEvent>): (n: nat)
    ensures n <= |events|
    ensures forall i :: 0 <= i < n ==> !events[i].cancelled
    ensures n < |events| ==> events[n].cancelled
  {
    if events == [] || events[0].cancelled then 0 else 1 + Iterations(events[1..])
  }

  /** The locals after running `events` from a fresh start. */
  function LinkAfter(events: seq<PollEvent>, deviceId: string, intervalMs: nat): Link
  {
    if events == [] then Disconnected
    else Cycle(LinkAfter(events[..|events| - 1], deviceId, intervalMs), events[|events| - 1], deviceId, intervalMs).link
  }

  /** The messages queued while running `events` from a fresh start. */
  function Queued(events: seq<PollEvent>, deviceId: string, intervalMs: nat): seq<TelemetryMessage>
  {
    if events == [] then []
    else
      var previous := events[..|events| - 1];
      var c := Cycle(LinkAfter(previous, deviceId, intervalMs), events[|events| - 1], deviceId, intervalMs);
      Queued(previous, deviceId, intervalMs) + (if c.message.Some? then [c.message.value] else [])
  }

  /** Whatever happens, `client` and `master` stay null or non-null together. */
  lemma {:induction false} LinkStaysPaired(events: seq<PollEvent>, deviceId: string, intervalMs: nat)
    ensures LinkAfter(events, deviceId, intervalMs).client == LinkAfter(events, deviceId, intervalMs).master
    decreases |events|
  {
    if events != [] {
      LinkStaysPaired(events[..|events| - 1], deviceId, intervalMs);
    }
  }

  /** PollDeviceAsync for one device: runs iterations until cancellation is
      requested (or the events run out) and returns the channel's contents. */
  method PollDevice(deviceId: string, intervalMs: nat, events: seq<PollEvent>)
    returns (queue: seq<TelemetryMessage>, iterations: nat)
    ensures iterations == Iterations(events)
    ensures queue == Queued(events[..iterations], deviceId, intervalMs)
  {
    var client := false;
    var master := false;
    queue := [];
    iterations := 0;
    while iterations < |events| && !events[iterations].cancelled
      invariant iterations <= |events|
      invariant forall i :: 0 <= i < iterations ==> !events[i].cancelled
      invariant Link(client, master) == LinkAfter(events[..iterations], deviceId, intervalMs)
      invariant queue == Queued(events[..iterations], deviceId, intervalMs)
    {
      var e := events[iterations];
      var failed := false;
      var message: Option<TelemetryMessage> := None;
      if !client || !e.linkUp {
        client := true;
        if e.connect.ConnectOk? {
          master := true;
        } else {
          failed := true;
        }
      }
      if !failed && master {
        if e.read.ReadFault? {
          failed := true;
        } else {
          message := Decode(deviceId, e.now, e.read.registers);
          failed := message.None?;
        }
      }
      if failed {
        client, master := false, false;
      } else if message.Some? {
        queue := queue + [message.value];
      }
      assert events[..iterations + 1][..iterations] == events[..iterations];
      iterations := iterations + 1;
    }
    assert iterations == Iterations(events) by {
      IterationsIsFirstCancel(events, iterations);
    }
  }

  lemma {:induction false} IterationsIsFirstCancel(events: seq<PollEvent>, n: nat)
    requires n <= |events|
    requires forall i :: 0 <= i < n ==> !events[i].cancelled
    requires n == |events| || events[n].cancelled
    ensures Iterations(events) == n
  {
    if n > 0 {
      IterationsIsFirstCancel(events[1..], n - 1);
    }
  }
}
