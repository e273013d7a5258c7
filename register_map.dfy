/** The dialysis machine's Modbus register map (DialysisRegisterMap): holding
    register addresses and the valid range of each measurement. Temperature and
    conductivity are decimals with two places; they are kept here in hundredths,
    which is also their register form. */
module RegisterMap {

  /** An unsigned 16-bit register value (C# ushort). */
  type UInt16 = x: int | 0 <= x < 0x1_0000

  /** The unchecked C# cast `(ushort)x` of an int: its low 16 bits. Dafny's `%`
      is Euclidean, which for a negative `x` gives the two's-complement low bits. */
  function ToUInt16(x: int): (r: UInt16)
    ensures 0 <= x < 0x1_0000 ==> r == x
    ensures (r - x) % 0x1_0000 == 0
  {
    x % 0x1_0000
  }

  // Holding register addresses
  const BloodFlowRateRegister: UInt16 := 0
  const ArterialPressureRegister: UInt16 := 2
  const VenousPressureRegister: UInt16 := 4
  const DialysateTemperatureRegister: UInt16 := 6
  const ConductivityRegister: UInt16 := 8
  const TreatmentTimeRegister: UInt16 := 10
  const StopFlagRegister: UInt16 := 100

  // Discrete input address
  const AlarmRegister: UInt16 := 0

  // Value ranges (temperature and conductivity in hundredths)
  const BloodFlowMin: UInt16 := 200
  const BloodFlowMax: UInt16 := 400
  const ArterialPressureMin: UInt16 := 50
  const ArterialPressureMax: UInt16 := 200
  const VenousPressureMin: UInt16 := 50
  const VenousPressureMax: UInt16 := 200
  const TemperatureMinHundredths: int := 3500
  const TemperatureMaxHundredths: int := 3800
  const ConductivityMinHundredths: int := 1350
  const ConductivityMaxHundredths: int := 1450

  /** The six measurement addresses, in register order. */
  const MeasurementAddresses: seq<UInt16> := [BloodFlowRateRegister, ArterialPressureRegister,
    VenousPressureRegister, DialysateTemperatureRegister, ConductivityRegister, TreatmentTimeRegister]

  /** Size of the block the gateway reads from address 0 in one request. */
  const PolledBlockLength: nat := 12

  /** Every range is non-empty, and the register forms of the two decimal
      maxima fit in a register. */
  lemma RangesAreWellFormed()
    ensures BloodFlowMin <= BloodFlowMax
    ensures ArterialPressureMin <= ArterialPressureMax
    ensures VenousPressureMin <= VenousPressureMax
    ensures TemperatureMinHundredths <= TemperatureMaxHundredths < 0x1_0000
    ensures ConductivityMinHundredths <= ConductivityMaxHundredths < 0x1_0000
  {
  }

  /** The six measurement addresses are distinct and lie inside the polled
      block [0, 12); the stop flag lies outside it. */
  lemma AddressesFitPolledBlock()
    ensures forall i, j :: 0 <= i < j < |MeasurementAddresses| ==> MeasurementAddresses[i] != MeasurementAddresses[j]
    ensures forall i :: 0 <= i < |MeasurementAddresses| ==> MeasurementAddresses[i] < PolledBlockLength
    ensures StopFlagRegister >= PolledBlockLength
  {
  }

  /** The arterial range holds readings on both sides of the 80 mmHg
      low-pressure alarm threshold. */
  lemma ArterialRangeStraddlesAlarmThreshold()
    ensures ArterialPressureMin < 80 <= ArterialPressureMax
  {
  }

  /** The register block laid out as this map describes it: each measurement at
      its address, every other register 0. */
  function RegisterImage(bloodFlow: UInt16, arterial: UInt16, venous: UInt16,
                         temperature: UInt16, conductivity: UInt16, treatmentTime: UInt16): (r: seq<UInt16>)
    ensures |r| == PolledBlockLength
    ensures r[BloodFlowRateRegister] == bloodFlow && r[ArterialPressureRegister] == arterial
    ensures r[VenousPressureRegister] == venous && r[DialysateTemperatureRegister] == temperature
    ensures r[ConductivityRegister] == conductivity && r[TreatmentTimeRegister] == treatmentTime
  {
    [bloodFlow, 0, arterial, 0, venous, 0, temperature, 0, conductivity, 0, treatmentTime, 0]
  }
}

/** The telemetry message the edge gateway publishes and the transform service
    consumes (EdgeGateway.Models.TelemetryMessage). */
module Telemetry {
  import opened Common

  datatype TelemetryMessage = TelemetryMessage(
    DeviceId: string,
    Timestamp: Instant,
    Measurements: map<string, real>,
    Alarms: map<string, bool>)
}
