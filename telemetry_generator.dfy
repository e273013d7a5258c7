/** The device simulator's waveform source (TelemetryGenerator): each call draws
    small random deviations around fixed baselines, clamps them to the register
    map's ranges, advances a 16-bit treatment clock by 5 seconds and reports a
    snapshot. An injected hypotension anomaly lowers the arterial baseline.
    The random draws are inputs of the model. */
module TelemetryGeneration {
  import opened Common
  import opened RegisterMap

  /** TelemetrySnapshot; temperature and conductivity in register form (hundredths). */
  datatype TelemetrySnapshot = TelemetrySnapshot(
    BloodFlow: UInt16,
    ArterialPressure: UInt16,
    VenousPressure: UInt16,
    TemperatureDecimal: UInt16,
    ConductivityDecimal: UInt16,
    TreatmentTime: UInt16,
    HasAlarm: bool)

  // Baselines (temperature and conductivity in hundredths)
  const BaseBloodFlow: UInt16 := 300
  const BaseArterialPressure: UInt16 := 120
  const BaseVenousPressure: UInt16 := 80
  const BaseTemperatureHundredths: int := 3650
  const BaseConductivityHundredths: int := 1400

  /** Seconds the treatment clock advances per generation. */
  const SecondsPerGeneration: int := 5

  /** The five values drawn from Random.Next in one generation. */
  datatype Draws = Draws(bloodFlow: int, arterialPressure: int, venousPressure: int,
                         temperature: int, conductivity: int)

  /** Random.Next(lo, hi) returns a value in [lo, hi - 1]. The arterial draw is
      Next(-10, 10) in hypotension mode and Next(-5, 5) otherwise. */
  predicate ValidDraws(hypotensionMode: bool, d: Draws) {
    && -20 <= d.bloodFlow < 20
    && (if hypotensionMode then -10 <= d.arterialPressure < 10 else -5 <= d.arterialPressure < 5)
    && -5 <= d.venousPressure < 5
    && -10 <= d.temperature < 10
    && -5 <= d.conductivity < 5
  }

  /** Math.Min(Math.Max(x, lo), hi). */
  function Clamp(x: int, lo: int, hi: int): int {
    Min(Max(x, lo), hi)
  }

  /** The snapshot one generation reports, given the generator's state before
      the call and the draws (lines 29-60). */
  function Generate(treatmentTime: UInt16, hypotensionMode: bool, d: Draws): (s: TelemetrySnapshot)
    requires ValidDraws(hypotensionMode, d)
    // every reading lies within the register map's range
    ensures BloodFlowMin <= s.BloodFlow <= BloodFlowMax
    ensures ArterialPressureMin <= s.ArterialPressure <= ArterialPressureMax
    ensures VenousPressureMin <= s.VenousPressure <= VenousPressureMax
    ensures TemperatureMinHundredths <= s.TemperatureDecimal <= TemperatureMaxHundredths
    ensures ConductivityMinHundredths <= s.ConductivityDecimal <= ConductivityMaxHundredths
    // the waveforms stay within their draw bands around the baselines
    ensures BaseBloodFlow - 20 <= s.BloodFlow < BaseBloodFlow + 20
    ensures hypotensionMode ==> BaseArterialPressure - 50 <= s.ArterialPressure < BaseArterialPressure - 30
    ensures !hypotensionMode ==> BaseArterialPressure - 5 <= s.ArterialPressure < BaseArterialPressure + 5
    ensures BaseVenousPressure - 5 <= s.VenousPressure < BaseVenousPressure + 5
    ensures s.TemperatureDecimal == BaseTemperatureHundredths + d.temperature
    ensures s.ConductivityDecimal == BaseConductivityHundredths + d.conductivity
    // the clock advances by 5 seconds, modulo 2^16
    ensures s.TreatmentTime == (treatmentTime + SecondsPerGeneration) % 0x1_0000
    // the alarm flag is the anomaly mode: outside it the arterial reading never drops below 80
    ensures s.HasAlarm <==> hypotensionMode
  {
    var bloodFlow := ToUInt16(BaseBloodFlow + d.bloodFlow);
    var arterialPressure :=
      if hypotensionMode then ToUInt16(BaseArterialPressure - 40 + d.arterialPressure)
      else ToUInt16(BaseArterialPressure + d.arterialPressure);
    var venousPressure := ToUInt16(BaseVenousPressure + d.venousPressure);
    var temperature := BaseTemperatureHundredths + d.temperature;
    var conductivity := BaseConductivityHundredths + d.conductivity;
    var time := ToUInt16(treatmentTime + SecondsPerGeneration);
    var bloodFlow' := Clamp(bloodFlow, BloodFlowMin, BloodFlowMax);
    var arterialPressure' := Clamp(arterialPressure, ArterialPressureMin, ArterialPressureMax);
    var venousPressure' := Clamp(venousPressure, VenousPressureMin, VenousPressureMax);
    var temperature' := Clamp(temperature, TemperatureMinHundredths, TemperatureMaxHundredths);
    var conductivity' := Clamp(conductivity, ConductivityMinHundredths, ConductivityMaxHundredths);
    TelemetrySnapshot(bloodFlow', arterialPressure', venousPressure', ToUInt16(temperature'),
                      ToUInt16(conductivity'), time, arterialPressure' < 80 || hypotensionMode)
  }

  /** In hypotension mode the arterial reading falls below the 80 mmHg alarm
      threshold exactly when the arterial draw is negative. */
  lemma HypotensionReadingIff(treatmentTime: UInt16, d: Draws)
    requires ValidDraws(true, d)
    ensures Generate(treatmentTime, true, d).ArterialPressure < 80 <==> d.arterialPressure < 0
  {
  }

  /** The treatment clock after `n` generations started from `start`. */
  function ClockAfter(start: UInt16, n: nat): UInt16 {
    if n == 0 then start else ToUInt16(ClockAfter(start, n - 1) + SecondsPerGeneration)
  }

  /** The clock counts 5 seconds per generation and wraps at 2^16. */
  lemma {:induction false} ClockAfterWraps(start: UInt16, n: nat)
    ensures ClockAfter(start, n) == (start + SecondsPerGeneration * n) % 0x1_0000
  {
    if n > 0 {
      ClockAfterWraps(start, n - 1);
      var k := (start + SecondsPerGeneration * (n - 1)) / 0x1_0000;
      assert start + SecondsPerGeneration * (n - 1) == ClockAfter(start, n - 1) + k * 0x1_0000;
    }
  }

  class TelemetryGenerator {
    var treatmentTime: UInt16
    var hypotensionMode: bool

    constructor()
      ensures treatmentTime == 0 && !hypotensionMode
    {
      treatmentTime := 0;
      hypotensionMode := false;
    }

    /** GenerateTelemetry: reports the snapshot and advances the clock; the
        anomaly mode is left as it was. */
    method GenerateTelemetry(d: Draws) returns (s: TelemetrySnapshot)
      requires ValidDraws(hypotensionMode, d)
      modifies this
      ensures s == Generate(old(treatmentTime), old(hypotensionMode), d)
      ensures treatmentTime == s.TreatmentTime && hypotensionMode == old(hypotensionMode)
    {
      var bloodFlow: int := ToUInt16(BaseBloodFlow + d.bloodFlow);
      var arterialPressure: int;
      if hypotensionMode {
        arterialPressure := ToUInt16(BaseArterialPressure - 40 + d.arterialPressure);
      } else {
        arterialPressure := ToUInt16(BaseArterialPressure + d.arterialPressure);
      }
      var venousPressure: int := ToUInt16(BaseVenousPressure + d.venousPressure);
      var temperature := BaseTemperatureHundredths + d.temperature;
      var conductivity := BaseConductivityHundredths + d.conductivity;

      treatmentTime := ToUInt16(treatmentTime + SecondsPerGeneration);

      bloodFlow := Min(Max(bloodFlow, BloodFlowMin), BloodFlowMax);
      arterialPressure := Min(Max(arterialPressure, ArterialPressureMin), ArterialPressureMax);
      venousPressure := Min(Max(venousPressure, VenousPressureMin), VenousPressureMax);
      temperature := Min(Max(temperature, TemperatureMinHundredths), TemperatureMaxHundredths);
      conductivity := Min(Max(conductivity, ConductivityMinHundredths), ConductivityMaxHundredths);

      var hasAlarm := arterialPressure < 80 || hypotensionMode;
      s := TelemetrySnapshot(bloodFlow, arterialPressure, venousPressure, ToUInt16(temperature),
                             ToUInt16(conductivity), treatmentTime, hasAlarm);
    }

    /** InjectAnomalyHypotension. */
    method InjectAnomalyHypotension()
      modifies this
      ensures hypotensionMode && treatmentTime == old(treatmentTime)
    {
      hypotensionMode := true;
    }

    /** ClearAnomalies. */
    method ClearAnomalies()
      modifies this
      ensures !hypotensionMode && treatmentTime == old(treatmentTime)
    {
      hypotensionMode := false;
    }

    /** Reset: the state a new generator starts in. */
    method Reset()
      modifies this
      ensures treatmentTime == 0 && !hypotensionMode
    {
      treatmentTime := 0;
      hypotensionMode := false;
    }
  }
}
