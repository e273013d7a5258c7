/** Device authentication (JwtAuthenticationService): token validation and the
    session table it feeds, X.509 certificate validation bound to the TPM
    identities, certificate-based registration and a simulated audit trail.
    Token signing and parsing are not modelled: what the JWT handler decides
    about a token is a parameter, as are random serial numbers, thumbprints,
    new GUIDs, issued SAS tokens and DateTime.UtcNow. */
module JwtAuthentication {
  import opened Common
  import opened TpmSimulation

  datatype DeviceSession = DeviceSession(
    SessionId: string,
    DeviceId: string,
    AuthenticatedAt: Instant,
    ExpiresAt: Instant,
    SourceIp: string,
    AuthMethod: string)

  /** What JwtSecurityTokenHandler.ValidateToken made of a token: accepted
      with its device_id and jti claims and expiry, or the exception it threw. */
  datatype TokenCheck =
    | Accepted(deviceIdClaim: Option<string>, jtiClaim: Option<string>, validTo: Instant)
    | Expired
    | InvalidSignature
    | OtherFailure(message: string)

  /** TokenValidationResult; the ClaimsPrincipal is not modelled. */
  datatype TokenValidationResult = TokenValidationResult(
    IsValid: bool,
    DeviceId: Option<string>,
    ExpiresAt: Instant,
    Error: Option<string>,
    ErrorCode: Option<string>)

  datatype CertificateValidationResult = CertificateValidationResult(
    IsValid: bool,
    DeviceId: string,
    Issuer: Option<string>,
    Subject: Option<string>,
    SerialNumber: string,
    ValidFrom: Instant,
    ValidTo: Instant,
    ValidationChecks: Option<map<string, bool>>,
    Error: Option<string>,
    ErrorCode: Option<string>)

  datatype DeviceRegistrationResult = DeviceRegistrationResult(
    Success: bool,
    DeviceId: string,
    SasToken: Option<string>,
    CertificateThumbprint: Option<string>,
    AssignedHub: Option<string>,
    RegisteredAt: Instant,
    Tags: map<string, string>,
    Error: Option<string>,
    ErrorCode: Option<string>)

  datatype AuthAuditEntry = AuthAuditEntry(
    Timestamp: Instant,
    DeviceId: string,
    AuthMethod: string,
    Result: string,
    SourceIp: string,
    UserAgent: string,
    Details: Option<string>)

  const CertificateMarker := "BEGIN CERTIFICATE"
  const CaIssuer := "CN=B. Braun Avitum Device CA, O=B. Braun, C=DE"
  const RegistrationHub := "mededge-iot-hub"
  const DefaultSessionIp := "192.168.1.1"
  const DefaultSessionMethod := "SAS Token"
  const MaxAuthAuditEntries := 20
  const AuthAuditSpacingHours := 2
  /** Entries past this index are reported as failed logins. */
  const LastSuccessfulAuditIndex := 15

  /** The ErrorCode a failed token validation reports. */
  function TokenErrorCode(check: TokenCheck): (code: string)
    requires !check.Accepted?
    ensures code == "TOKEN_EXPIRED" <==> check.Expired?
    ensures code == "INVALID_SIGNATURE" <==> check.InvalidSignature?
    ensures code == "VALIDATION_ERROR" <==> check.OtherFailure?
  {
    match check
    case Expired => "TOKEN_EXPIRED"
    case InvalidSignature => "INVALID_SIGNATURE"
    case OtherFailure(_) => "VALIDATION_ERROR"
  }

  /** The Error message a failed token validation reports. */
  function TokenError(check: TokenCheck): (msg: string)
    requires !check.Accepted?
    ensures check.OtherFailure? ==> msg == check.message
    ensures check.Expired? ==> msg == "Token expired"
    ensures check.InvalidSignature? ==> msg == "Invalid signature"
  {
    match check
    case Expired => "Token expired"
    case InvalidSignature => "Invalid signature"
    case OtherFailure(message) => message
  }

  /** The answer ValidateToken gives. A failure carries the default
      DateTime as its expiry. */
  function TokenResult(check: TokenCheck): (r: TokenValidationResult)
    ensures r.IsValid <==> check.Accepted?
    ensures r.IsValid ==> r.DeviceId == check.deviceIdClaim && r.ExpiresAt == check.validTo && r.Error.None?
    ensures r.IsValid ==> r.ErrorCode.None?
    ensures !r.IsValid ==> r.ErrorCode == Some(TokenErrorCode(check)) && r.Error.Some? && r.DeviceId.None?
  {
    if check.Accepted? then TokenValidationResult(true, check.deviceIdClaim, check.validTo, None, None)
    else TokenValidationResult(false, None, MinInstant, Some(TokenError(check)), Some(TokenErrorCode(check)))
  }

  /** The three failure kinds get three distinct codes. */
  lemma ErrorCodesAreDistinct(a: TokenCheck, b: TokenCheck)
    requires !a.Accepted? && !b.Accepted?
    ensures TokenErrorCode(a) == TokenErrorCode(b) <==>
      (a.Expired? && b.Expired?) || (a.InvalidSignature? && b.InvalidSignature?) || (a.OtherFailure? && b.OtherFailure?)
  {
  }

  /** Decimal digits of a natural number. */
  function DecimalString(n: nat): string
    decreases n
  {
    var digit := ['0' + (n % 10) as char];
    if n < 10 then digit else DecimalString(n / 10) + digit
  }

  /** The i-th entry GetAuthAuditTrail builds. */
  function AuthAuditEntryAt(deviceId: string, now: Instant, i: nat): (e: AuthAuditEntry)
    ensures e.DeviceId == deviceId && e.UserAgent == "AzureDeviceSDK/1.0"
    ensures e.Timestamp == now - i * AuthAuditSpacingHours * SecondsPerHour && e.Timestamp <= now
    ensures e.Result == "Failed" <==> e.Details == Some("Token expired")
    ensures e.Result == "Success" <==> e.Details == Some("Authentication successful")
  {
    AuthAuditEntry(now - i * AuthAuditSpacingHours * SecondsPerHour, deviceId,
      if i % 2 == 0 then "SAS Token" else "X.509 Certificate",
      if i > LastSuccessfulAuditIndex then "Failed" else "Success",
      "192.168.1." + DecimalString(100 + i % 50),
      "AzureDeviceSDK/1.0",
      Some(if i > LastSuccessfulAuditIndex then "Token expired" else "Authentication successful"))
  }

  /** The simulated trail alternates SAS tokens and certificates, and only
      its last four of twenty entries report failures. */
  lemma AuthAuditEntryShape(deviceId: string, now: Instant, i: nat, j: nat)
    requires i < j
    ensures AuthAuditEntryAt(deviceId, now, i).Timestamp > AuthAuditEntryAt(deviceId, now, j).Timestamp
    ensures AuthAuditEntryAt(deviceId, now, i).AuthMethod == "SAS Token" <==> i % 2 == 0
    ensures AuthAuditEntryAt(deviceId, now, i).Result == "Failed" <==> i >= 16
  {
  }

  /** A session GetActiveSessions reports: unexpired, and for the requested
      device when one is named. */
  predicate Listed(s: DeviceSession, deviceId: Option<string>, now: Instant) {
    s.ExpiresAt > now && (IsNullOrEmpty(deviceId) || s.DeviceId == deviceId.value)
  }

  /** Most recently authenticated first. */
  predicate LatestFirst(s: seq<DeviceSession>) {
    forall i, j | 0 <= i < j < |s| :: s[i].AuthenticatedAt >= s[j].AuthenticatedAt
  }

  /** No two sessions share a session id. */
  predicate DistinctSessions(s: seq<DeviceSession>) {
    forall i, j | 0 <= i < j < |s| :: s[i].SessionId != s[j].SessionId
  }

  /** Places `x` before the first session authenticated no later than it. */
  function InsertLatestFirst(x: DeviceSession, s: seq<DeviceSession>): (r: seq<DeviceSession>)
    requires LatestFirst(s)
    ensures LatestFirst(r)
    ensures multiset(r) == multiset(s) + multiset{x}
    ensures |r| == |s| + 1 && (r[0] == x || (|s| > 0 && r[0] == s[0]))
  {
    if s == [] || x.AuthenticatedAt >= s[0].AuthenticatedAt then [x] + s
    else
      var rest := InsertLatestFirst(x, s[1..]);
      assert s == [s[0]] + s[1..];
      [s[0]] + rest
  }

  /** Inserting a session whose id is new keeps the session ids distinct. */
  lemma {:induction false} InsertKeepsSessionsDistinct(x: DeviceSession, s: seq<DeviceSession>)
    requires LatestFirst(s) && DistinctSessions(s)
    requires forall k | 0 <= k < |s| :: s[k].SessionId != x.SessionId
    ensures DistinctSessions(InsertLatestFirst(x, s))
  {
    if s != [] && x.AuthenticatedAt < s[0].AuthenticatedAt {
      var rest := InsertLatestFirst(x, s[1..]);
      InsertKeepsSessionsDistinct(x, s[1..]);
      assert s == [s[0]] + s[1..];
      forall k | 0 <= k < |rest| ensures rest[k].SessionId != s[0].SessionId {
        assert rest[k] in multiset(rest);
        assert rest[k] == x || rest[k] in s[1..];
      }
    }
  }

  /** GetActiveSessions part way through: `listed` holds, newest first and
      once each, the listable sessions whose ids are no longer `pending`. */
  predicate ListedSoFar(sessions: map<string, DeviceSession>, deviceId: Option<string>, now: Instant,
                        pending: set<string>, listed: seq<DeviceSession>) {
    && LatestFirst(listed) && DistinctSessions(listed)
    && (forall x | x in listed ::
          x.SessionId in sessions && x.SessionId !in pending && sessions[x.SessionId] == x && Listed(x, deviceId, now))
    && (forall id | id in sessions && id !in pending && Listed(sessions[id], deviceId, now) :: sessions[id] in listed)
  }

  /** Visiting one more session id keeps ListedSoFar. */
  lemma ListStep(sessions: map<string, DeviceSession>, deviceId: Option<string>, now: Instant,
                 pending: set<string>, listed: seq<DeviceSession>, id: string)
    requires SessionsKeyed(sessions) && pending <= sessions.Keys && id in pending
    requires ListedSoFar(sessions, deviceId, now, pending, listed)
    ensures ListedSoFar(sessions, deviceId, now, pending - {id},
      if Listed(sessions[id], deviceId, now) then InsertLatestFirst(sessions[id], listed) else listed)
  {
    var s := sessions[id];
    if Listed(s, deviceId, now) {
      InsertKeepsSessionsDistinct(s, listed);
      InsertedMembers(s, listed);
    }
  }

  /** The sessions after an insertion are the inserted one and those before. */
  lemma InsertedMembers(x: DeviceSession, s: seq<DeviceSession>)
    requires LatestFirst(s)
    ensures forall y :: y in InsertLatestFirst(x, s) <==> y == x || y in s
  {
    var after := InsertLatestFirst(x, s);
    forall y ensures y in after <==> y == x || y in s {
      assert y in after <==> y in multiset(after);
      assert y in s <==> y in multiset(s);
    }
  }

  /** Every session is filed under its own id. */
  predicate SessionsKeyed(sessions: map<string, DeviceSession>) {
    forall id | id in sessions :: sessions[id].SessionId == id
  }

  class JwtAuthenticationService {
    var sessions: map<string, DeviceSession>
    const tpm: TpmSimulationService

    ghost predicate Valid()
      reads this
    {
      SessionsKeyed(sessions)
    }

    constructor(tpm: TpmSimulationService)
      ensures Valid() && sessions == map[] && this.tpm == tpm
    {
      sessions := map[];
      this.tpm := tpm;
    }

    /** ValidateToken: an accepted token with a non-empty device_id claim
        opens a session under its jti (a new GUID when it has none), unless
        that session id is already taken. */
    method ValidateToken(check: TokenCheck, guid: string, now: Instant) returns (result: TokenValidationResult)
      requires Valid()
      modifies this
      ensures Valid() && result == TokenResult(check)
      ensures var sessionId := if check.Accepted? && check.jtiClaim.Some? then check.jtiClaim.value else guid;
        if check.Accepted? && !IsNullOrEmpty(check.deviceIdClaim) && sessionId !in old(sessions) then
          sessions == old(sessions)[sessionId := DeviceSession(sessionId, check.deviceIdClaim.value, now, check.validTo,
                                                               DefaultSessionIp, DefaultSessionMethod)]
        else sessions == old(sessions)
    {
      if !check.Accepted? {
        return TokenResult(check);
      }
      var deviceId := check.deviceIdClaim;
      var sessionId := if check.jtiClaim.Some? then check.jtiClaim.value else guid;
      if !IsNullOrEmpty(deviceId) && sessionId !in sessions {
        sessions := sessions[sessionId := DeviceSession(sessionId, deviceId.value, now, check.validTo,
                                                        DefaultSessionIp, DefaultSessionMethod)];
      }
      result := TokenValidationResult(true, deviceId, check.validTo, None, None);
    }

    /** ValidateCertificateAsync: a PEM without the certificate marker is
        rejected before the TPM table is consulted; otherwise the certificate
        is valid exactly when the device has a TPM identity. `serial` is the
        random serial number and `inOneYear` is now plus one calendar year. */
    function ValidateCertificate(deviceId: string, certificatePem: string, serial: string, inOneYear: Instant,
                                 now: Instant): (r: CertificateValidationResult)
      reads this, tpm
      ensures !Contains(certificatePem, CertificateMarker) ==>
        !r.IsValid && r.ErrorCode == Some("INVALID_FORMAT") && r.ValidationChecks.None?
      ensures Contains(certificatePem, CertificateMarker) ==>
        && (r.IsValid <==> deviceId in tpm.identities)
        && (!r.IsValid ==> r.ErrorCode == Some("TPM_MISMATCH"))
        && r.ValidationChecks.Some? && "DeviceMatch" in r.ValidationChecks.value && "TpmBound" in r.ValidationChecks.value
        && r.ValidationChecks.value["DeviceMatch"] == r.ValidationChecks.value["TpmBound"] == (deviceId in tpm.identities)
        && r.Issuer == Some(CaIssuer) && r.DeviceId == deviceId
      ensures r.IsValid <==> r.ErrorCode.None?
    {
      if !Contains(certificatePem, CertificateMarker) then
        CertificateValidationResult(false, "", None, None, "", MinInstant, MinInstant, None,
                                    Some("Invalid certificate format"), Some("INVALID_FORMAT"))
      else
        var bound := tpm.GetTpmIdentity(deviceId).Some?;
        var checks := map["ChainTrust" := true, "Revocation" := true, "Expiration" := true,
                          "DeviceMatch" := bound, "TpmBound" := bound];
        CertificateValidationResult(bound, deviceId, Some(CaIssuer), Some("CN=" + deviceId + ", O=B. Braun Avitum"),
          serial, now - 30 * SecondsPerDay, inOneYear, Some(checks),
          if bound then None else Some("Certificate not bound to TPM identity"),
          if bound then None else Some("TPM_MISMATCH"))
    }

    /** RegisterDeviceWithCertificateAsync: a failed certificate check fails
        the registration with the same error; a passed one implies the TPM
        identity exists, so the RegisterDevice fallback is never taken and the
        TPM table is left alone. */
    method RegisterDeviceWithCertificate(deviceId: string, certificatePem: string, tags: Option<map<string, string>>,
                                         serial: string, inOneYear: Instant, thumbprint: string, sasToken: string,
                                         now: Instant)
      returns (result: DeviceRegistrationResult)
      ensures var cert := ValidateCertificate(deviceId, certificatePem, serial, inOneYear, now);
        && (result.Success <==> cert.IsValid)
        && (!result.Success ==> result.Error == cert.Error && result.ErrorCode == cert.ErrorCode)
      ensures result.Success <==> Contains(certificatePem, CertificateMarker) && deviceId in tpm.identities
      ensures result.DeviceId == deviceId
      ensures result.Success ==>
        && result.AssignedHub == Some(RegistrationHub) && result.SasToken == Some(sasToken)
        && result.RegisteredAt == now
        && result.Tags == (if tags.Some? then tags.value else map[])
    {
      var cert := ValidateCertificate(deviceId, certificatePem, serial, inOneYear, now);
      if !cert.IsValid {
        return DeviceRegistrationResult(false, deviceId, None, None, None, MinInstant, map[], cert.Error, cert.ErrorCode);
      }
      var identity := tpm.GetTpmIdentity(deviceId);
      if identity.None? {
        assert false;
      }
      result := DeviceRegistrationResult(true, deviceId, Some(sasToken), Some(thumbprint), Some(RegistrationHub), now,
                                         if tags.Some? then tags.value else map[], None, None);
    }

    /** GetActiveSessions: the unexpired sessions (of one device, when one is
        named), most recently authenticated first; each listed once. */
    method GetActiveSessions(deviceId: Option<string>, now: Instant) returns (listed: seq<DeviceSession>)
      requires Valid()
      ensures LatestFirst(listed) && DistinctSessions(listed)
      ensures forall x | x in listed :: x.SessionId in sessions && sessions[x.SessionId] == x && Listed(x, deviceId, now)
      ensures forall id | id in sessions && Listed(sessions[id], deviceId, now) :: sessions[id] in listed
    {
      listed := [];
      var pending := sessions.Keys;
      while pending != {}
        invariant pending <= sessions.Keys
        invariant ListedSoFar(sessions, deviceId, now, pending, listed)
        decreases |pending|
      {
        var id :| id in pending;
        ListStep(sessions, deviceId, now, pending, listed, id);
        if Listed(sessions[id], deviceId, now) {
          listed := InsertLatestFirst(sessions[id], listed);
        }
        pending := pending - {id};
      }
    }

    /** RevokeSession: true iff the session existed; it is gone afterwards. */
    method RevokeSession(sessionId: string) returns (removed: bool)
      requires Valid()
      modifies this
      ensures Valid()
      ensures removed <==> sessionId in old(sessions)
      ensures sessions == old(sessions) - {sessionId}
    {
      removed := sessionId in sessions;
      sessions := sessions - {sessionId};
    }

    /** GetAuthAuditTrail: min(count, 20) simulated entries (none for a
        non-positive count), newest first, two hours apart. */
    method GetAuthAuditTrail(deviceId: string, count: int, now: Instant) returns (entries: seq<AuthAuditEntry>)
      ensures |entries| == Max(0, Min(count, MaxAuthAuditEntries))
      ensures forall i | 0 <= i < |entries| :: entries[i] == AuthAuditEntryAt(deviceId, now, i)
      ensures forall i, j | 0 <= i < j < |entries| :: entries[i].Timestamp > entries[j].Timestamp
      ensures forall i | 0 <= i < |entries| :: entries[i].DeviceId == deviceId && entries[i].UserAgent == "AzureDeviceSDK/1.0"
    {
      entries := [];
      var i := 0;
      while i < Min(count, MaxAuthAuditEntries)
        invariant 0 <= i && i == |entries|
        invariant i <= Max(0, Min(count, MaxAuthAuditEntries))
        invariant forall k | 0 <= k < i :: entries[k] == AuthAuditEntryAt(deviceId, now, k)
      {
        entries := entries + [AuthAuditEntryAt(deviceId, now, i)];
        i := i + 1;
      }
      forall i, j | 0 <= i < j < |entries|
        ensures entries[i].Timestamp > entries[j].Timestamp
      {
        AuthAuditEntryShape(deviceId, now, i, j);
      }
    }
  }
}
