/** How the edge pieces compose with the cloud's rule engine: a register block
    decoded by the poller and handed to the anomaly detector. */
module EdgePipeline {
  import opened Common
  import opened RegisterMap
  import opened Telemetry
  import opened ModbusPolling
  import opened AnomalyDetection
  import opened TelemetryGeneration

  /** The detector's verdict on a message the poller produced. */
  function AnalyzeMessage(message: TelemetryMessage, now: Instant): Option<AnomalyResult> {
    Analyze(message.Measurements, message.Alarms, now)
  }

  /** The poller raises "pressureLow" exactly when the arterial reading is
      below 80, which the detector's hypotension rule catches first: the
      low-pressure alarm rule never decides on poller output. */
  lemma PollerNeverTriggersLowPressureAlarmRule(deviceId: string, polledAt: Instant, registers: seq<UInt16>, now: Instant)
    requires Decode(deviceId, polledAt, registers).Some?
    ensures var r := AnalyzeMessage(Decode(deviceId, polledAt, registers).value, now);
      r.Some? ==> r.value.Finding != LowPressureAlarm
  {
    var msg := Decode(deviceId, polledAt, registers).value;
    if msg.Alarms["pressureLow"] {
      assert msg.Measurements["arterialPressure"] < 80.0;
    }
  }

  /** The high venous pressure alarm decides on poller output only for a venous
      reading in (200, 250]: above that the measurement rule decides. */
  lemma PollerHighPressureAlarmBand(deviceId: string, polledAt: Instant, registers: seq<UInt16>, now: Instant)
    requires Decode(deviceId, polledAt, registers).Some?
    ensures var r := AnalyzeMessage(Decode(deviceId, polledAt, registers).value, now);
      r.Some? && r.value.Finding == HighVenousPressureAlarm ==>
        200 < registers[VenousPressureRegister] <= 250
  {
  }

  /** Readings within the register map's ranges, laid out at the map's
      addresses, decoded and analyzed: the only possible finding is
      hypotension, and it is reported exactly when the arterial pressure is
      below 80 mmHg. */
  lemma InRangeBlockIsNormalOrHypotension(
    bloodFlow: UInt16, arterial: UInt16, venous: UInt16, temperature: UInt16, conductivity: UInt16,
    treatmentTime: UInt16, deviceId: string, polledAt: Instant, now: Instant)
    requires BloodFlowMin <= bloodFlow <= BloodFlowMax
    requires ArterialPressureMin <= arterial <= ArterialPressureMax
    requires VenousPressureMin <= venous <= VenousPressureMax
    requires TemperatureMinHundredths <= temperature <= TemperatureMaxHundredths
    requires ConductivityMinHundredths <= conductivity <= ConductivityMaxHundredths
    ensures var block := RegisterImage(bloodFlow, arterial, venous, temperature, conductivity, treatmentTime);
      Decode(deviceId, polledAt, block).Some? &&
      AnalyzeMessage(Decode(deviceId, polledAt, block).value, now) ==
        (if arterial < 80 then Some(AnomalyResult(Critical, Hypotension(arterial as real), HypotensionAdvice, now))
         else None)
  {
    var block := RegisterImage(bloodFlow, arterial, venous, temperature, conductivity, treatmentTime);
    var m := Decode(deviceId, polledAt, block).value.Measurements;
    assert m["dialysateTemperature"] * 100.0 == temperature as real;
    assert m["dialysateTemperature"] <= 38.0;
    assert m["conductivity"] * 100.0 == conductivity as real;
    assert 13.5 <= m["conductivity"] <= 14.5;
  }

  /** A simulated snapshot, were it written to the registers and polled, would
      be flagged by the detector only in hypotension mode, which is also when
      the simulator raises its own alarm. */
  lemma GeneratedSnapshotFlaggedOnlyInHypotensionMode(
    treatmentTime: UInt16, hypotensionMode: bool, d: Draws, deviceId: string, polledAt: Instant, now: Instant)
    requires ValidDraws(hypotensionMode, d)
    ensures var s := Generate(treatmentTime, hypotensionMode, d);
      var block := RegisterImage(s.BloodFlow, s.ArterialPressure, s.VenousPressure,
                                 s.TemperatureDecimal, s.ConductivityDecimal, s.TreatmentTime);
      Decode(deviceId, polledAt, block).Some? &&
      (AnalyzeMessage(Decode(deviceId, polledAt, block).value, now).Some? <==> hypotensionMode && d.arterialPressure < 0) &&
      (AnalyzeMessage(Decode(deviceId, polledAt, block).value, now).Some? ==> s.HasAlarm)
  {
    var s := Generate(treatmentTime, hypotensionMode, d);
    InRangeBlockIsNormalOrHypotension(s.BloodFlow, s.ArterialPressure, s.VenousPressure,
      s.TemperatureDecimal, s.ConductivityDecimal, s.TreatmentTime, deviceId, polledAt, now);
    if hypotensionMode {
      HypotensionReadingIff(treatmentTime, d);
    }
  }
}
