/** The FHIR API's mapping service (FhirMappingService): database entities to
    HL7 FHIR R4 resources (Patient, Device, Observation) and FHIR resources,
    together with the entity they came from, to the API's DTOs. */
module FhirMapping {
  import opened Common

  // ----- Entities and DTOs -----

  datatype PatientEntity = PatientEntity(
    Id: string, Mrn: string, GivenName: string, FamilyName: string, BirthDate: Instant, Gender: string)

  datatype DeviceEntity = DeviceEntity(
    Id: string, DeviceId: string, Manufacturer: string, Model: string, SerialNumber: string, Status: string)

  datatype ObservationEntity = ObservationEntity(
    Id: string, PatientId: string, DeviceId: string, Code: string, CodeDisplay: string,
    Value: real, Unit: string, Status: string, ObservationTime: Instant)

  datatype PatientDto = PatientDto(
    Id: string, Mrn: string, GivenName: string, FamilyName: string, BirthDate: Instant, Gender: string)

  datatype DeviceDto = DeviceDto(
    Id: string, DeviceId: string, Manufacturer: string, Model: string, SerialNumber: string, Status: string)

  datatype ObservationDto = ObservationDto(
    Id: string, PatientId: string, DeviceId: string, Code: string, CodeDisplay: string,
    Value: real, Unit: string, Status: string, ObservationTime: Instant)

  // ----- The FHIR resources, as far as the mapper fills them -----

  datatype Identifier = Identifier(System: string, Value: string)
  datatype Coding = Coding(System: string, Code: string, Display: string)

  datatype NameUse = Official
  datatype HumanName = HumanName(Given: seq<string>, Family: string, Use: NameUse)

  /** AdministrativeGender, with its FHIR codes. */
  datatype AdministrativeGender = Male | Female | Other | Unknown

  function GenderCode(g: AdministrativeGender): string {
    match g
    case Male => "male"
    case Female => "female"
    case Other => "other"
    case Unknown => "unknown"
  }

  /** FHIRDeviceStatus, with its FHIR codes. */
  datatype DeviceStatus = Active | Inactive | EnteredInError | UnknownStatus

  function DeviceStatusCode(s: DeviceStatus): string {
    match s
    case Active => "active"
    case Inactive => "inactive"
    case EnteredInError => "entered-in-error"
    case UnknownStatus => "unknown"
  }

  /** ObservationStatus, with its FHIR codes. */
  datatype ObservationStatus =
    Registered | Preliminary | Final | Amended | Corrected | Cancelled | ObservationEnteredInError | ObservationUnknown

  function ObservationStatusCode(s: ObservationStatus): string {
    match s
    case Registered => "registered"
    case Preliminary => "preliminary"
    case Final => "final"
    case Amended => "amended"
    case Corrected => "corrected"
    case Cancelled => "cancelled"
    case ObservationEnteredInError => "entered-in-error"
    case ObservationUnknown => "unknown"
  }

  /** Patient; the birth date is kept as an instant (its "yyyy-MM-dd"
      rendering is not modelled). */
  datatype FhirPatient = FhirPatient(
    Id: Option<string>, Identifier: seq<Identifier>, Name: seq<HumanName>,
    BirthDate: Instant, Gender: AdministrativeGender)

  datatype FhirDevice = FhirDevice(
    Id: Option<string>, Identifier: seq<Identifier>, Manufacturer: string, ModelNumber: string,
    Status: DeviceStatus, Type: seq<Coding>)

  datatype Quantity = Quantity(Value: real, Unit: string, System: string, Code: string)

  datatype FhirObservation = FhirObservation(
    Id: Option<string>, Status: ObservationStatus, Code: seq<Coding>, Subject: string, Device: string,
    Effective: Instant, Value: Quantity)

  const MrnSystem := "http://example.org/mrn"
  const DeviceIdSystem := "http://bbraun.com/device-id"
  const SerialSystem := "http://bbraun.com/serial"
  const SnomedSystem := "http://snomed.info/sct"
  const HemodialysisMachine := Coding(SnomedSystem, "108662001", "Hemodialysis machine")
  const LoincSystem := "http://loinc.org"
  const UcumSystem := "http://unitsofmeasure.org"
  const Missing := "unknown"

  // ----- Code conversions -----

  /** The gender switch of MapPatientEntityToFhir. */
  function ParseGender(gender: string): (r: AdministrativeGender)
    ensures r != Unknown ==> GenderCode(r) == gender
    ensures r == Unknown ==> gender !in {"male", "female", "other"}
  {
    match gender
    case "male" => Male
    case "female" => Female
    case "other" => Other
    case _ => Unknown
  }

  /** The status switch of MapDeviceEntityToFhir. */
  function ParseDeviceStatus(status: string): (r: DeviceStatus)
    ensures r in {Active, Inactive, UnknownStatus}
    ensures r != UnknownStatus ==> DeviceStatusCode(r) == status
    ensures r == UnknownStatus ==> status !in {"active", "inactive"}
  {
    match status
    case "active" => Active
    case "inactive" => Inactive
    case _ => UnknownStatus
  }

  /** The status switch of MapObservationEntityToFhir. */
  function ParseObservationStatus(status: string): (r: ObservationStatus)
    ensures r in {Preliminary, Final, Amended, Cancelled}
    ensures r != Final ==> ObservationStatusCode(r) == status
    ensures r == Final ==> status !in {"preliminary", "amended", "cancelled"}
  {
    match status
    case "preliminary" => Preliminary
    case "final" => Final
    case "amended" => Amended
    case "cancelled" => Cancelled
    case _ => Final
  }

  /** GetUcumCode: the UCUM code of a display unit; units it does not know are
      passed through. */
  function GetUcumCode(unit: string): (r: string)
    ensures r !in {"mmHg", "\U{00B0}C", "bpm"}
    ensures r != unit ==> unit in {"mmHg", "\U{00B0}C", "bpm"}
  {
    match unit
    case "mL/min" => "mL/min"
    case "mmHg" => "mm[Hg]"
    case "\U{00B0}C" => "Cel"
    case "mS/cm" => "mS/cm"
    case "bpm" => "/min"
    case _ => unit
  }

  /** Every gender survives code and parse. */
  lemma GenderRoundTrip(g: AdministrativeGender)
    ensures ParseGender(GenderCode(g)) == g
  {
  }

  /** A stored gender outside the three known codes becomes Unknown. */
  lemma UnrecognisedGenderIsUnknown(gender: string)
    ensures ParseGender(gender) == Unknown <==> gender !in {"male", "female", "other"}
  {
  }

  /** Active, inactive and unknown survive code and parse; entered-in-error is
      never produced, and any other stored status reads as unknown. */
  lemma DeviceStatusRoundTrip(s: DeviceStatus, status: string)
    ensures s != EnteredInError ==> ParseDeviceStatus(DeviceStatusCode(s)) == s
    ensures ParseDeviceStatus(status) != EnteredInError
    ensures ParseDeviceStatus(status) == UnknownStatus <==> status !in {"active", "inactive"}
  {
  }

  /** The four statuses the service stores survive code and parse; the other
      four FHIR statuses are never produced, and an unrecognised stored status
      (including those four codes) reads as final. */
  lemma ObservationStatusRoundTrip(s: ObservationStatus, status: string)
    ensures s in {Preliminary, Final, Amended, Cancelled} ==> ParseObservationStatus(ObservationStatusCode(s)) == s
    ensures ParseObservationStatus(status) in {Preliminary, Final, Amended, Cancelled}
    ensures status !in {"preliminary", "final", "amended", "cancelled"} ==> ParseObservationStatus(status) == Final
  {
  }

  /** GetUcumCode is idempotent, and changes exactly the three display units
      whose UCUM code differs. */
  lemma UcumCodeIsIdempotent(unit: string)
    ensures GetUcumCode(GetUcumCode(unit)) == GetUcumCode(unit)
    ensures GetUcumCode(unit) != unit <==> unit in {"mmHg", "\U{00B0}C", "bpm"}
  {
  }

  // ----- Entity to FHIR -----

  function MapPatientEntityToFhir(entity: PatientEntity): (r: FhirPatient)
    ensures r.Id == Some(entity.Id) && r.BirthDate == entity.BirthDate
    ensures |r.Identifier| == 1 && r.Identifier[0].Value == entity.Mrn
    ensures |r.Name| == 1 && r.Name[0].Given == [entity.GivenName] && r.Name[0].Family == entity.FamilyName
    ensures r.Gender != Unknown ==> GenderCode(r.Gender) == entity.Gender
  {
    FhirPatient(
      Some(entity.Id),
      [Identifier(MrnSystem, entity.Mrn)],
      [HumanName([entity.GivenName], entity.FamilyName, Official)],
      entity.BirthDate,
      ParseGender(entity.Gender))
  }

  function MapDeviceEntityToFhir(entity: DeviceEntity): (r: FhirDevice)
    ensures r.Id == Some(entity.Id) && r.Manufacturer == entity.Manufacturer && r.ModelNumber == entity.Model
    ensures |r.Identifier| == 2 && r.Identifier[0].Value == entity.DeviceId && r.Identifier[1].Value == entity.SerialNumber
    ensures r.Status != UnknownStatus ==> DeviceStatusCode(r.Status) == entity.Status
  {
    FhirDevice(
      Some(entity.Id),
      [Identifier(DeviceIdSystem, entity.DeviceId), Identifier(SerialSystem, entity.SerialNumber)],
      entity.Manufacturer,
      entity.Model,
      ParseDeviceStatus(entity.Status),
      [HemodialysisMachine])
  }

  function MapObservationEntityToFhir(entity: ObservationEntity): (r: FhirObservation)
    ensures r.Id == Some(entity.Id) && r.Effective == entity.ObservationTime
    ensures |r.Code| == 1 && r.Code[0].Code == entity.Code && r.Code[0].Display == entity.CodeDisplay
    ensures r.Value.Value == entity.Value && r.Value.Unit == entity.Unit
    ensures r.Status != Final ==> ObservationStatusCode(r.Status) == entity.Status
  {
    FhirObservation(
      Some(entity.Id),
      ParseObservationStatus(entity.Status),
      [Coding(LoincSystem, entity.Code, entity.CodeDisplay)],
      "Patient/" + entity.PatientId,
      "Device/" + entity.DeviceId,
      entity.ObservationTime,
      Quantity(entity.Value, entity.Unit, UcumSystem, GetUcumCode(entity.Unit)))
  }

  // ----- FHIR (plus entity) to DTO -----

  /** `x ?? fallback` on a resource id. */
  function IdOr(id: Option<string>, fallback: string): string {
    if id.Some? then id.value else fallback
  }

  function MapFhirPatientToDto(fhirPatient: FhirPatient, entity: Option<PatientEntity>): (r: PatientDto)
    ensures r.Id == IdOr(fhirPatient.Id, Missing)
    ensures entity.Some? ==> r.(Id := entity.value.Id) == PatientDto(
      entity.value.Id, entity.value.Mrn, entity.value.GivenName, entity.value.FamilyName,
      entity.value.BirthDate, entity.value.Gender)
    ensures entity.None? ==> r.Mrn == r.GivenName == r.FamilyName == r.Gender == Missing
  {
    PatientDto(
      IdOr(fhirPatient.Id, Missing),
      if entity.Some? then entity.value.Mrn else Missing,
      if entity.Some? then entity.value.GivenName else Missing,
      if entity.Some? then entity.value.FamilyName else Missing,
      if entity.Some? then entity.value.BirthDate else MinInstant,
      if entity.Some? then entity.value.Gender else Missing)
  }

  function MapFhirDeviceToDto(fhirDevice: FhirDevice, entity: Option<DeviceEntity>): (r: DeviceDto)
    ensures r.Id == IdOr(fhirDevice.Id, Missing)
    ensures entity.Some? ==> r.(Id := entity.value.Id) == DeviceDto(
      entity.value.Id, entity.value.DeviceId, entity.value.Manufacturer, entity.value.Model,
      entity.value.SerialNumber, entity.value.Status)
    ensures entity.None? ==> r.DeviceId == r.Manufacturer == r.Model == r.SerialNumber == r.Status == Missing
  {
    DeviceDto(
      IdOr(fhirDevice.Id, Missing),
      if entity.Some? then entity.value.DeviceId else Missing,
      if entity.Some? then entity.value.Manufacturer else Missing,
      if entity.Some? then entity.value.Model else Missing,
      if entity.Some? then entity.value.SerialNumber else Missing,
      if entity.Some? then entity.value.Status else Missing)
  }

  /** MapFhirObservationToDto; `now` stands for DateTime.UtcNow. */
  function MapFhirObservationToDto(fhirObs: FhirObservation, entity: Option<ObservationEntity>, now: Instant)
    : (r: ObservationDto)
    ensures r.Id == IdOr(fhirObs.Id, Missing)
    ensures entity.Some? ==> r.(Id := entity.value.Id) == ObservationDto(
      entity.value.Id, entity.value.PatientId, entity.value.DeviceId, entity.value.Code, entity.value.CodeDisplay,
      entity.value.Value, entity.value.Unit, entity.value.Status, entity.value.ObservationTime)
    ensures entity.None? ==> r.Status == "final" && r.Value == 0.0 && r.ObservationTime == now
    ensures entity.None? ==> r.PatientId == r.DeviceId == r.Code == r.CodeDisplay == r.Unit == Missing
  {
    var value := if entity.Some? then entity.value.Value else 0.0;
    var unit := if entity.Some? then entity.value.Unit else Missing;
    var code := if entity.Some? then entity.value.Code else Missing;
    var codeDisplay := if entity.Some? then entity.value.CodeDisplay else Missing;
    ObservationDto(
      IdOr(fhirObs.Id, Missing),
      if entity.Some? then entity.value.PatientId else Missing,
      if entity.Some? then entity.value.DeviceId else Missing,
      code,
      codeDisplay,
      value,
      unit,
      if entity.Some? then entity.value.Status else "final",
      if entity.Some? then entity.value.ObservationTime else now)
  }

  // ----- Properties of the mapping -----

  /** Mapping an entity to FHIR and back to a DTO, with the entity at hand,
      loses nothing: the DTO carries every entity field unchanged. */
  lemma PatientDtoRoundTrip(e: PatientEntity)
    ensures var d := MapFhirPatientToDto(MapPatientEntityToFhir(e), Some(e));
      d == PatientDto(e.Id, e.Mrn, e.GivenName, e.FamilyName, e.BirthDate, e.Gender)
  {
  }

  lemma DeviceDtoRoundTrip(e: DeviceEntity)
    ensures var d := MapFhirDeviceToDto(MapDeviceEntityToFhir(e), Some(e));
      d == DeviceDto(e.Id, e.DeviceId, e.Manufacturer, e.Model, e.SerialNumber, e.Status)
  {
  }

  lemma ObservationDtoRoundTrip(e: ObservationEntity, now: Instant)
    ensures var d := MapFhirObservationToDto(MapObservationEntityToFhir(e), Some(e), now);
      d == ObservationDto(e.Id, e.PatientId, e.DeviceId, e.Code, e.CodeDisplay, e.Value, e.Unit, e.Status,
                          e.ObservationTime)
  {
  }

  /** Without an entity every DTO field falls back: "unknown" strings, a zero
      value, DateTime.MinValue for a birth date, "final" and the current time
      for an observation; only the resource id is kept. */
  lemma MissingEntityDefaults(p: FhirPatient, dv: FhirDevice, o: FhirObservation, now: Instant)
    ensures MapFhirPatientToDto(p, None) == PatientDto(IdOr(p.Id, Missing), Missing, Missing, Missing, MinInstant, Missing)
    ensures MapFhirDeviceToDto(dv, None) == DeviceDto(IdOr(dv.Id, Missing), Missing, Missing, Missing, Missing, Missing)
    ensures MapFhirObservationToDto(o, None, now)
      == ObservationDto(IdOr(o.Id, Missing), Missing, Missing, Missing, Missing, 0.0, Missing, "final", now)
  {
  }

  /** The FHIR patient names its record by the MRN system, carries one
      official name built from the given and family names, and a gender code
      that reads back as the stored gender when that is one of the FHIR codes. */
  lemma PatientResourceShape(e: PatientEntity)
    ensures var p := MapPatientEntityToFhir(e);
      && p.Identifier == [Identifier(MrnSystem, e.Mrn)]
      && p.Name == [HumanName([e.GivenName], e.FamilyName, Official)]
      && (e.Gender in {"male", "female", "other", "unknown"} <==> GenderCode(p.Gender) == e.Gender)
  {
  }

  /** The FHIR device carries its device id and serial under their two
      systems and is typed as a hemodialysis machine; its status reads back as
      the stored status exactly for "active", "inactive" and "unknown". */
  lemma DeviceResourceShape(e: DeviceEntity)
    ensures var dv := MapDeviceEntityToFhir(e);
      && dv.Identifier == [Identifier(DeviceIdSystem, e.DeviceId), Identifier(SerialSystem, e.SerialNumber)]
      && dv.Type == [HemodialysisMachine]
      && (e.Status in {"active", "inactive", "unknown"} <==> DeviceStatusCode(dv.Status) == e.Status)
  {
  }

  /** The FHIR observation references its patient and device by id, which
      can be read back from the references, codes the measurement under LOINC,
      and gives its quantity a UCUM code. */
  lemma ObservationResourceShape(e: ObservationEntity)
    ensures var o := MapObservationEntityToFhir(e);
      && o.Subject[..8] == "Patient/" && o.Subject[8..] == e.PatientId
      && o.Device[..7] == "Device/" && o.Device[7..] == e.DeviceId
      && o.Code == [Coding(LoincSystem, e.Code, e.CodeDisplay)]
      && o.Value.System == UcumSystem && o.Value.Code == GetUcumCode(e.Unit) && o.Value.Value == e.Value
      && (e.Status in {"preliminary", "final", "amended", "cancelled"} <==> ObservationStatusCode(o.Status) == e.Status)
  {
  }
}
