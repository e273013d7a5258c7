/** The TPM 2.0 simulation (TpmSimulationService): a table of TPM identities
    keyed by device id, the attestation check (endorsement key, nonce,
    platform configuration registers), the activation status it drives, and
    a simulated audit trail. Generated keys and certificates and
    DateTime.UtcNow are parameters of the operations that use them. */
module TpmSimulation {
  import opened Common

  datatype TpmActivationStatus = Pending | Activated | Failed | Revoked

  datatype TpmIdentity = TpmIdentity(
    DeviceId: string,
    EndorsementKey: string,
    StorageRootKey: string,
    AttestationCertificate: Option<string>,
    TpmVersion: string,
    Manufacturer: string,
    FirmwareVersion: string,
    ActivationStatus: TpmActivationStatus,
    LastAttestation: Instant,
    Properties: map<string, string>)

  /** TpmAttestationRequest; PcrValues maps a register index to its digest. */
  datatype TpmAttestationRequest = TpmAttestationRequest(
    DeviceId: string,
    EndorsementKey: Option<string>,
    StorageRootKey: Option<string>,
    Nonce: Option<string>,
    PcrValues: Option<map<int, string>>)

  datatype TpmValidationResult = TpmValidationResult(
    IsValid: bool,
    FailureReason: Option<string>,
    ValidatedMeasurements: Option<map<string, string>>,
    Warnings: seq<string>)

  datatype TpmAttestationResult = TpmAttestationResult(
    DeviceId: string,
    IsValid: bool,
    AttestationCertificate: Option<string>,
    ValidationDetails: Option<TpmValidationResult>,
    Timestamp: Instant)

  datatype TpmAuditEntry = TpmAuditEntry(
    Timestamp: Instant,
    DeviceId: string,
    Event: string,
    Result: string,
    PerformedBy: string,
    Details: Option<string>)

  /** The random material a new identity is given: endorsement key, storage
      root key and the simulated device certificate (null without a CA). */
  datatype KeyMaterial = KeyMaterial(EndorsementKey: string, StorageRootKey: string, Certificate: Option<string>)

  const EkMismatchReason := "Endorsement Key mismatch"
  const MissingNonceReason := "Missing nonce - possible replay attack"
  const InsufficientPcrReason := "Insufficient PCR values - integrity measurement incomplete"
  /** The fewest PCR values an attestation must carry. */
  const MinPcrValues := 4
  const MaxAuditEntries := 10
  const AuditSpacingHours := 6
  const SecondsPerDay := 24 * SecondsPerHour

  /** The boot measurements a successful attestation reports. */
  const ValidatedPcrs: map<string, string> := map[
    "PCR_0" := "BIOS measurement: valid",
    "PCR_1" := "Bootloader measurement: valid",
    "PCR_2" := "OS kernel measurement: valid",
    "PCR_7" := "Secure boot policy: valid"]

  /** The request names an endorsement key other than the identity's. */
  predicate EkMismatch(identity: TpmIdentity, request: TpmAttestationRequest) {
    !IsNullOrEmpty(request.EndorsementKey) && request.EndorsementKey.value != identity.EndorsementKey
  }

  /** The request carries at least four PCR values. */
  predicate EnoughPcrs(request: TpmAttestationRequest) {
    request.PcrValues.Some? && |request.PcrValues.value| >= MinPcrValues
  }

  /** ValidateAttestation: the checks in order, each failure with its reason. */
  function ValidateAttestation(identity: TpmIdentity, request: TpmAttestationRequest): (r: TpmValidationResult)
    ensures r.IsValid <==> !EkMismatch(identity, request) && !IsNullOrEmpty(request.Nonce) && EnoughPcrs(request)
    ensures r.IsValid <==> r.FailureReason.None?
    ensures r.IsValid ==> r.ValidatedMeasurements == Some(ValidatedPcrs)
    ensures !r.IsValid ==> r.ValidatedMeasurements.None?
    ensures EkMismatch(identity, request) ==> r.FailureReason == Some(EkMismatchReason)
    ensures !EkMismatch(identity, request) && IsNullOrEmpty(request.Nonce) ==> r.FailureReason == Some(MissingNonceReason)
    ensures r.Warnings == []
  {
    if EkMismatch(identity, request) then TpmValidationResult(false, Some(EkMismatchReason), None, [])
    else if IsNullOrEmpty(request.Nonce) then TpmValidationResult(false, Some(MissingNonceReason), None, [])
    else if !EnoughPcrs(request) then TpmValidationResult(false, Some(InsufficientPcrReason), None, [])
    else TpmValidationResult(true, None, Some(ValidatedPcrs), [])
  }

  /** The reasons are checked in order: a failure names the first check that
      fails, and a PCR failure means both earlier checks passed. */
  lemma FailureReasonIsFirstFailedCheck(identity: TpmIdentity, request: TpmAttestationRequest)
    ensures var r := ValidateAttestation(identity, request);
      && (r.FailureReason == Some(InsufficientPcrReason) <==>
            !EkMismatch(identity, request) && !IsNullOrEmpty(request.Nonce) && !EnoughPcrs(request))
      && (r.FailureReason == Some(MissingNonceReason) ==> !EkMismatch(identity, request))
  {
  }

  /** A successful attestation reports exactly PCR_0, PCR_1, PCR_2 and PCR_7. */
  lemma ValidatedMeasurementsAreBootPcrs(identity: TpmIdentity, request: TpmAttestationRequest)
    requires ValidateAttestation(identity, request).IsValid
    ensures ValidateAttestation(identity, request).ValidatedMeasurements.value.Keys == {"PCR_0", "PCR_1", "PCR_2", "PCR_7"}
  {
  }

  /** The identity PerformAttestationAsync adds for an unknown device: the
      request's keys where given (null only is replaced), Pending, stamped now. */
  function NewAttestedIdentity(deviceId: string, request: TpmAttestationRequest, generated: KeyMaterial, now: Instant)
    : (r: TpmIdentity)
    ensures r.DeviceId == deviceId && r.ActivationStatus == Pending
    ensures request.EndorsementKey.Some? ==> r.EndorsementKey == request.EndorsementKey.value
  {
    TpmIdentity(deviceId,
      if request.EndorsementKey.Some? then request.EndorsementKey.value else generated.EndorsementKey,
      if request.StorageRootKey.Some? then request.StorageRootKey.value else generated.StorageRootKey,
      None, "2.0", "Unknown", "1.0", Pending, now, map[])
  }

  /** A device attesting for the first time never fails on its endorsement
      key: its identity was just built from that key. */
  lemma FirstAttestationNeverMismatches(deviceId: string, request: TpmAttestationRequest, generated: KeyMaterial,
                                        now: Instant)
    ensures ValidateAttestation(NewAttestedIdentity(deviceId, request, generated, now), request).FailureReason
      != Some(EkMismatchReason)
  {
  }

  /** The identity after an attestation: Activated and stamped on success,
      Failed otherwise with the previous stamp kept. */
  function Attested(identity: TpmIdentity, request: TpmAttestationRequest, now: Instant): (r: TpmIdentity)
    ensures r.ActivationStatus == Activated <==> ValidateAttestation(identity, request).IsValid
    ensures r.ActivationStatus == Failed <==> !ValidateAttestation(identity, request).IsValid
    ensures r.LastAttestation != identity.LastAttestation ==> r.ActivationStatus == Activated && r.LastAttestation == now
    ensures r.(ActivationStatus := identity.ActivationStatus, LastAttestation := identity.LastAttestation) == identity
  {
    if ValidateAttestation(identity, request).IsValid then identity.(ActivationStatus := Activated, LastAttestation := now)
    else identity.(ActivationStatus := Failed)
  }

  /** The identity RegisterDevice builds, stamped with the time it is built. */
  function RegisteredIdentity(deviceId: string, manufacturer: string, generated: KeyMaterial, now: Instant)
    : (r: TpmIdentity)
    ensures r.DeviceId == deviceId && r.Manufacturer == manufacturer
    ensures r.EndorsementKey == generated.EndorsementKey && r.StorageRootKey == generated.StorageRootKey
    ensures r.ActivationStatus == Pending && r.LastAttestation == now
  {
    TpmIdentity(deviceId, generated.EndorsementKey, generated.StorageRootKey, generated.Certificate,
                "2.0", manufacturer, "1.0", Pending, now, map[])
  }

  /** The i-th entry GetAuditTrail builds. */
  function AuditEntryAt(deviceId: string, now: Instant, i: nat): (e: TpmAuditEntry)
    ensures e.DeviceId == deviceId && e.Result == "Success"
    ensures e.Timestamp == now - i * AuditSpacingHours * SecondsPerHour && e.Timestamp <= now
  {
    TpmAuditEntry(now - i * AuditSpacingHours * SecondsPerHour, deviceId,
      if i % 3 == 0 then "Attestation" else if i % 2 == 0 then "Key Rotation" else "Integrity Check",
      "Success", "TPM-2.0-Hardware",
      Some(if i % 3 == 0 then "EK validated, PCR values within threshold" else "SRK rotated successfully"))
  }

  /** Audit entries are six hours apart, so later positions are strictly older. */
  lemma AuditEntriesAreNewestFirst(deviceId: string, now: Instant, i: nat, j: nat)
    requires i < j
    ensures AuditEntryAt(deviceId, now, i).Timestamp - AuditEntryAt(deviceId, now, j).Timestamp
      == (j - i) * AuditSpacingHours * SecondsPerHour
    ensures AuditEntryAt(deviceId, now, i).Timestamp > AuditEntryAt(deviceId, now, j).Timestamp
  {
  }

  /** Every entry reports success, and its event names one of the three
      simulated operations, attestations every third entry. */
  lemma AuditEntryEvents(deviceId: string, now: Instant, i: nat)
    ensures var e := AuditEntryAt(deviceId, now, i);
      && e.Result == "Success"
      && (e.Event == "Attestation" <==> i % 3 == 0)
      && (e.Event == "Key Rotation" <==> i % 3 != 0 && i % 2 == 0)
      && (e.Event == "Integrity Check" <==> i % 3 != 0 && i % 2 != 0)
  {
  }

  /** Every identity is filed under its device id and none is Revoked: no
      operation of the service revokes. */
  predicate WellFormed(identities: map<string, TpmIdentity>) {
    forall id | id in identities ::
      identities[id].DeviceId == id && identities[id].ActivationStatus != Revoked
  }

  class TpmSimulationService {
    var identities: map<string, TpmIdentity>

    ghost predicate Valid()
      reads this
    {
      WellFormed(identities)
    }

    /** The service with the two sample identities, both Activated: the legacy
        retrofit attested a week ago, the modern machine two hours ago. */
    constructor(legacy: KeyMaterial, modern: KeyMaterial, now: Instant)
      ensures Valid()
      ensures identities.Keys == {"medical-dialysis-legacy-001", "medical-dialysis-modern-001"}
      ensures forall id | id in identities :: identities[id].ActivationStatus == Activated
      ensures identities["medical-dialysis-legacy-001"].LastAttestation == now - 7 * SecondsPerDay
      ensures identities["medical-dialysis-modern-001"].LastAttestation == now - 2 * SecondsPerHour
    {
      var legacyTpm := TpmIdentity("medical-dialysis-legacy-001", legacy.EndorsementKey, legacy.StorageRootKey,
        legacy.Certificate, "2.0", "Infineon SLB9670", "7.81", Activated, now - 7 * SecondsPerDay, map[]);
      var modernTpm := TpmIdentity("medical-dialysis-modern-001", modern.EndorsementKey, modern.StorageRootKey,
        modern.Certificate, "2.0", "MedTech Custom TPM", "8.0", Activated, now - 2 * SecondsPerHour, map[]);
      identities := map[legacyTpm.DeviceId := legacyTpm, modernTpm.DeviceId := modernTpm];
    }

    /** GetTpmIdentity. */
    function GetTpmIdentity(deviceId: string): (r: Option<TpmIdentity>)
      reads this
      ensures r.Some? <==> deviceId in identities
      ensures r.Some? ==> r.value == identities[deviceId]
    {
      if deviceId in identities then Some(identities[deviceId]) else None
    }

    /** PerformAttestationAsync: fetch or add the identity (GetOrAdd), validate
        the request against it and record the outcome. */
    method PerformAttestation(deviceId: string, request: TpmAttestationRequest, generated: KeyMaterial, now: Instant)
      returns (result: TpmAttestationResult)
      requires Valid()
      modifies this
      ensures Valid()
      ensures var before := if deviceId in old(identities) then old(identities)[deviceId]
                            else NewAttestedIdentity(deviceId, request, generated, now);
        var validation := ValidateAttestation(before, request);
        && identities == old(identities)[deviceId := Attested(before, request, now)]
        && result == TpmAttestationResult(deviceId, validation.IsValid, before.AttestationCertificate, Some(validation), now)
      ensures deviceId in old(identities) ==>
        identities[deviceId].EndorsementKey == old(identities)[deviceId].EndorsementKey
      ensures identities[deviceId].ActivationStatus == (if result.IsValid then Activated else Failed)
    {
      var identity: TpmIdentity;
      if deviceId in identities {
        identity := identities[deviceId];
      } else {
        identity := NewAttestedIdentity(deviceId, request, generated, now);
        identities := identities[deviceId := identity];
      }
      var validation := ValidateAttestation(identity, request);
      if validation.IsValid {
        identity := identity.(ActivationStatus := Activated, LastAttestation := now);
      } else {
        identity := identity.(ActivationStatus := Failed);
      }
      identities := identities[deviceId := identity];
      result := TpmAttestationResult(deviceId, validation.IsValid, identity.AttestationCertificate, Some(validation), now);
    }

    /** RegisterDevice: builds a Pending identity and files it only if the
        device has none (TryAdd); the new identity is returned either way. */
    method RegisterDevice(deviceId: string, manufacturer: string, generated: KeyMaterial, now: Instant) returns (identity: TpmIdentity)
      requires Valid()
      modifies this
      ensures Valid()
      ensures identity == RegisteredIdentity(deviceId, manufacturer, generated, now)
      ensures identity.ActivationStatus == Pending && identity.DeviceId == deviceId
      ensures deviceId in old(identities) ==> identities == old(identities)
      ensures deviceId !in old(identities) ==> identities == old(identities)[deviceId := identity]
    {
      identity := RegisteredIdentity(deviceId, manufacturer, generated, now);
      if deviceId !in identities {
        identities := identities[deviceId := identity];
      }
    }

    /** GetAuditTrail: min(count, 10) simulated entries (none for a
        non-positive count), newest first, six hours apart. The loop already
        builds them in descending time, so the final OrderByDescending keeps
        that order. */
    method GetAuditTrail(deviceId: string, count: int, now: Instant) returns (entries: seq<TpmAuditEntry>)
      ensures |entries| == Max(0, Min(count, MaxAuditEntries))
      ensures forall i | 0 <= i < |entries| :: entries[i] == AuditEntryAt(deviceId, now, i)
      ensures forall i, j | 0 <= i < j < |entries| :: entries[i].Timestamp > entries[j].Timestamp
      ensures forall i | 0 <= i < |entries| :: entries[i].DeviceId == deviceId && entries[i].Result == "Success"
    {
      entries := [];
      var i := 0;
      while i < Min(count, MaxAuditEntries)
        invariant 0 <= i && i == |entries|
        invariant i <= Max(0, Min(count, MaxAuditEntries))
        invariant forall k | 0 <= k < i :: entries[k] == AuditEntryAt(deviceId, now, k)
      {
        entries := entries + [AuditEntryAt(deviceId, now, i)];
        i := i + 1;
      }
      forall i, j | 0 <= i < j < |entries|
        ensures entries[i].Timestamp > entries[j].Timestamp
      {
        AuditEntriesAreNewestFirst(deviceId, now, i, j);
      }
    }
  }
}
