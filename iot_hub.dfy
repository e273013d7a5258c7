/** The simulated Azure IoT Hub (IotHubService): a device registry keyed by
    device id, device twins whose desired and reported properties are merged
    key by key, direct-method dispatch, a telemetry buffer, device
    provisioning and a TPM attestation check. Random device keys, new GUIDs
    and DateTime.UtcNow are parameters of the operations that use them. */
module IotHub {
  import opened Common

  /** A JSON value held in a twin property or a telemetry field. */
  datatype PropValue = IntValue(i: int) | BoolValue(b: bool) | TextValue(s: string)

  datatype DeviceStatus = Enabled | Disabled | Provisioning

  datatype DeviceConnectionState = Connected | Disconnected | Offline

  datatype TwinProperties = TwinProperties(Desired: map<string, PropValue>, Reported: map<string, PropValue>)

  /** DeviceTwin; the service only ever touches Properties, never the
      top-level Desired and Reported dictionaries. */
  datatype DeviceTwin = DeviceTwin(
    ETag: Option<string>,
    Properties: TwinProperties,
    Desired: map<string, PropValue>,
    Reported: map<string, PropValue>)

  datatype Device = Device(
    DeviceId: string,
    DeviceKey: Option<string>,
    Status: DeviceStatus,
    LastActivityTime: Instant,
    Twin: DeviceTwin,
    Tags: map<string, string>,
    ConnectionState: DeviceConnectionState,
    TemplateId: Option<string>)

  datatype TelemetryMessage = TelemetryMessage(
    DeviceId: string,
    EnqueuedTime: Instant,
    Data: map<string, PropValue>,
    CorrelationId: Option<string>,
    Properties: Option<map<string, string>>)

  datatype TelemetryStats = TelemetryStats(TotalMessages: int, ConnectedDevices: int, TotalDevices: int)

  datatype DirectMethod = DirectMethod(
    MethodName: string,
    Payload: Option<map<string, PropValue>>,
    CorrelationId: Option<string>,
    TimeoutInSeconds: int)

  /** The anonymous payload objects the dispatcher answers with. */
  datatype MethodPayload =
    | ErrorPayload(error: string)
    | StoppedPayload(result: string, timestamp: Instant)
    | RebootingPayload(result: string, estimatedDowntime: string)
    | DiagnosticsPayload(uptimeHours: int, memoryUsage: string, cpuUsage: real, lastError: Option<string>)
    | AcceptedPayload(result: string, version: Option<PropValue>)

  datatype MethodResponse = MethodResponse(Status: int, Payload: MethodPayload, CorrelationId: Option<string>)

  /** A direct-method call either answers or throws KeyNotFoundException from
      the payload indexer. */
  datatype Invocation = Responded(response: MethodResponse) | KeyNotFound

  datatype ProvisioningRequest = ProvisioningRequest(
    RegistrationId: string,
    DeviceKey: Option<string>,
    TemplateId: Option<string>,
    Payload: Option<map<string, string>>)

  datatype ProvisioningStatus = Assigned | Failed | Unassigned

  datatype ProvisioningResponse = ProvisioningResponse(
    DeviceId: string,
    AssignedHub: Option<string>,
    DeviceKey: Option<string>,
    AssignedAt: Instant,
    Status: ProvisioningStatus)

  datatype TpmAttestation = TpmAttestation(
    EndorsementKey: string,
    StorageRootKey: string,
    AttestationCertificate: Option<string>,
    ValidFrom: Instant,
    ValidTo: Option<Instant>)

  /** ValidateTpmAttestation either answers or throws ArgumentOutOfRangeException
      from the 20-character slice of the endorsement key. */
  datatype AttestationOutcome = Validated(isValid: bool) | SliceOutOfRange

  const LegacyDeviceId := "medical-dialysis-legacy-001"
  const ModernDeviceId := "medical-dialysis-modern-001"
  const DefaultCreateTemplate := "generic-medical-device"
  const DefaultProvisionTemplate := "generic-medical"
  const ProvisionedHub := "mededge-iot-hub-simulated"
  const EndorsementKeyTag := "tpmEndorsementKey"
  const TpmValidatedTag := "tpmValidated"
  /** Number of endorsement-key characters copied into the device's tag. */
  const EndorsementKeyPrefixLength := 20
  const ImplementedMethods := {"EmergencyStop", "Reboot", "GetDiagnostics", "FirmwareUpdate"}

  /** Every device is filed under its own id. */
  predicate KeyedById(devices: map<string, Device>) {
    forall id | id in devices :: devices[id].DeviceId == id
  }

  /** `target[key] = value` for every entry of `updates`: the given keys are
      overwritten or added, every other key keeps its value. */
  function Merge<V>(target: map<string, V>, updates: map<string, V>): (r: map<string, V>)
    ensures r.Keys == target.Keys + updates.Keys
    ensures forall k | k in updates :: r[k] == updates[k]
    ensures forall k | k in target && k !in updates :: r[k] == target[k]
  {
    target + updates
  }

  /** Merging the same updates twice is merging them once. */
  lemma MergeIsIdempotent<V>(target: map<string, V>, updates: map<string, V>)
    ensures Merge(Merge(target, updates), updates) == Merge(target, updates)
  {
    assert Merge(Merge(target, updates), updates).Keys == Merge(target, updates).Keys;
  }

  /** Copying the entries of a dictionary into an empty one gives that dictionary. */
  lemma MergeIntoEmptyIsCopy<V>(updates: map<string, V>)
    ensures Merge(map[], updates) == updates
  {
    assert Merge(map[], updates).Keys == updates.Keys;
  }

  /** One more entry of `updates` applied by the foreach loop. */
  lemma MergeStep<V>(target: map<string, V>, updates: map<string, V>, pending: set<string>, key: string)
    requires key in pending && key in updates
    ensures Merge(target, updates - (pending - {key})) == Merge(target, updates - pending)[key := updates[key]]
  {
    var a := Merge(target, updates - (pending - {key}));
    var b := Merge(target, updates - pending)[key := updates[key]];
    assert a.Keys == b.Keys;
  }

  /** A device as CreateDevice and ProvisionDevice build it: Enabled,
      Disconnected, no tags, a fresh twin. */
  function NewDevice(deviceId: string, key: string, templateId: string, etag: string, now: Instant): (r: Device)
    ensures r.DeviceId == deviceId && r.DeviceKey == Some(key) && r.TemplateId == Some(templateId)
    ensures r.Status == Enabled && r.ConnectionState == Disconnected && r.LastActivityTime == now
    ensures r.Tags == map[] && r.Twin.ETag == Some(etag)
    ensures r.Twin.Properties.Desired == map[] && r.Twin.Properties.Reported == map[]
  {
    Device(deviceId, Some(key), Enabled, now, DeviceTwin(Some(etag), TwinProperties(map[], map[]), map[], map[]),
           map[], Disconnected, Some(templateId))
  }

  /** The registry InitializeSampleDevices builds: a legacy machine that is
      Disconnected and a modern one, with a TPM, that is Connected. */
  function SampleRegistry(legacyKey: string, modernKey: string, legacyETag: string, modernETag: string, now: Instant)
    : (r: map<string, Device>)
    ensures KeyedById(r) && r.Keys == {LegacyDeviceId, ModernDeviceId}
    ensures r[LegacyDeviceId].ConnectionState == Disconnected && r[ModernDeviceId].ConnectionState == Connected
  {
    var legacy := Device(LegacyDeviceId, Some(legacyKey), Enabled, now,
      DeviceTwin(Some(legacyETag),
        TwinProperties(
          map["pollingInterval" := IntValue(500), "maxBloodFlow" := IntValue(450), "safetyEnabled" := BoolValue(true)],
          map["lastMaintenance" := TextValue("2025-12-15"), "uptimeHours" := IntValue(12450)]),
        map[], map[]),
      map["manufacturer" := "MedTech Corp", "model" := "Dialysis Pro+", "type" := "dialysis",
          "location" := "Berlin-Center-01", "firmware" := "4.2.1"],
      Disconnected, Some("dialysis-legacy-v1"));
    var modern := Device(ModernDeviceId, Some(modernKey), Enabled, now,
      DeviceTwin(Some(modernETag),
        TwinProperties(
          map["pollingInterval" := IntValue(250), "maxBloodFlow" := IntValue(500), "aiEnabled" := BoolValue(true)],
          map["lastMaintenance" := TextValue("2025-01-10"), "uptimeHours" := IntValue(3240),
              "tpmVersion" := TextValue("2.0")]),
        map[], map[]),
      map["manufacturer" := "MedTech Corp", "model" := "Dialysis iQ", "type" := "dialysis",
          "location" := "Berlin-Center-01", "firmware" := "6.0.3", "tpmEnabled" := "true"],
      Connected, Some("dialysis-modern-v2"));
    map[LegacyDeviceId := legacy, ModernDeviceId := modern]
  }

  /** The ids of the Connected devices. */
  function ConnectedIds(devices: map<string, Device>): set<string> {
    set id | id in devices && devices[id].ConnectionState == Connected
  }

  lemma {:induction false} SubsetIsNoLarger(a: set<string>, b: set<string>)
    requires a <= b
    ensures |a| <= |b|
  {
    if a != {} {
      var x :| x in a;
      SubsetIsNoLarger(a - {x}, b - {x});
    }
  }

  /** The number of Connected devices, which never exceeds the registry's size. */
  function ConnectedCount(devices: map<string, Device>): (n: nat)
    ensures n <= |devices|
  {
    SubsetIsNoLarger(ConnectedIds(devices), devices.Keys);
    |ConnectedIds(devices)|
  }

  /** Of the two sample devices exactly one is Connected. */
  lemma SampleRegistryHasOneConnected(legacyKey: string, modernKey: string, legacyETag: string, modernETag: string,
                                      now: Instant)
    ensures var r := SampleRegistry(legacyKey, modernKey, legacyETag, modernETag, now);
      |r| == 2 && ConnectedCount(r) == 1
  {
    var r := SampleRegistry(legacyKey, modernKey, legacyETag, modernETag, now);
    assert LegacyDeviceId != ModernDeviceId;
    assert ConnectedIds(r) == {ModernDeviceId};
    assert |r.Keys| == 2;
  }

  /** A device turned Connected can only raise the Connected count. */
  lemma ConnectingNeverLowersCount(devices: map<string, Device>, id: string, d: Device)
    requires id in devices && (devices[id].ConnectionState == Connected ==> d.ConnectionState == Connected)
    ensures ConnectedCount(devices) <= ConnectedCount(devices[id := d])
    ensures devices[id].ConnectionState == Disconnected && d.ConnectionState == Connected ==>
      ConnectedCount(devices[id := d]) == ConnectedCount(devices) + 1
  {
    var before := ConnectedIds(devices);
    var after := ConnectedIds(devices[id := d]);
    assert before <= after;
    SubsetIsNoLarger(before, after);
    if devices[id].ConnectionState == Disconnected && d.ConnectionState == Connected {
      assert after == before + {id};
    }
  }

  // ----- Direct methods -----

  /** The 501 message. */
  function NotImplementedMessage(methodName: string): string {
    "Method '" + methodName + "' not implemented"
  }

  /** `call.Payload?["version"]`: null for a null payload, a throw for a
      payload without the key. */
  function VersionOf(payload: Option<map<string, PropValue>>): (r: Option<Option<PropValue>>)
    ensures r.None? <==> payload.Some? && "version" !in payload.value
    ensures payload.None? ==> r == Some(None)
    ensures r.Some? && r.value.Some? ==> payload.Some? && r.value.value == payload.value["version"]
  {
    match payload
    case None => Some(None)
    case Some(p) => if "version" in p then Some(Some(p["version"])) else None
  }

  /** The outcome of InvokeDirectMethodAsync for a device that is or is not
      registered; `now` stands for the EmergencyStop timestamp. */
  function DirectMethodOutcome(deviceKnown: bool, call: DirectMethod, now: Instant): (r: Invocation)
    ensures r.KeyNotFound? <==>
      deviceKnown && call.MethodName == "FirmwareUpdate" && call.Payload.Some? && "version" !in call.Payload.value
    ensures r.Responded? ==> r.response.CorrelationId == call.CorrelationId
    ensures r.Responded? ==> (r.response.Status == 404 <==> !deviceKnown)
    ensures r.Responded? ==> (r.response.Status == 200 <==>
      deviceKnown && call.MethodName in {"EmergencyStop", "Reboot", "GetDiagnostics"})
    ensures r.Responded? ==> (r.response.Status == 202 <==> deviceKnown && call.MethodName == "FirmwareUpdate")
    ensures r.Responded? ==> (r.response.Status == 501 <==> deviceKnown && call.MethodName !in ImplementedMethods)
    ensures r.Responded? ==> r.response.Status in {200, 202, 404, 501}
  {
    if !deviceKnown then Responded(MethodResponse(404, ErrorPayload("Device not found"), call.CorrelationId))
    else if call.MethodName == "EmergencyStop" then
      Responded(MethodResponse(200, StoppedPayload("stopped", now), call.CorrelationId))
    else if call.MethodName == "Reboot" then
      Responded(MethodResponse(200, RebootingPayload("rebooting", "00:02:00"), call.CorrelationId))
    else if call.MethodName == "GetDiagnostics" then
      Responded(MethodResponse(200, DiagnosticsPayload(12450, "245MB", 12.4, None), call.CorrelationId))
    else if call.MethodName == "FirmwareUpdate" then
      match VersionOf(call.Payload)
      case None => KeyNotFound
      case Some(version) => Responded(MethodResponse(202, AcceptedPayload("accepted", version), call.CorrelationId))
    else
      Responded(MethodResponse(501, ErrorPayload(NotImplementedMessage(call.MethodName)), call.CorrelationId))
  }

  /** A firmware update on a registered device is accepted and echoes the
      requested version, or null when no payload was sent. */
  lemma FirmwareUpdateEchoesVersion(call: DirectMethod, now: Instant)
    requires call.MethodName == "FirmwareUpdate"
    requires call.Payload.None? || "version" in call.Payload.value
    ensures var r := DirectMethodOutcome(true, call, now);
      r.Responded? && r.response.Payload.AcceptedPayload? &&
      r.response.Payload.version == (if call.Payload.None? then None else Some(call.Payload.value["version"]))
  {
  }

  /** Every answer with status 200 or 202 comes from a registered device and
      an implemented method, and every throw comes from FirmwareUpdate. */
  lemma SuccessNeedsKnownDeviceAndMethod(deviceKnown: bool, call: DirectMethod, now: Instant)
    ensures var r := DirectMethodOutcome(deviceKnown, call, now);
      (r.Responded? && r.response.Status / 100 == 2 <==>
         deviceKnown && call.MethodName in ImplementedMethods
         && (call.MethodName == "FirmwareUpdate" ==> VersionOf(call.Payload).Some?))
  {
  }

  // ----- Telemetry queries -----

  /** The buffer's messages for one device, in buffer order (the Where clause). */
  function ForDevice(buffer: seq<TelemetryMessage>, deviceId: string): (r: seq<TelemetryMessage>)
    ensures forall i | 0 <= i < |r| :: r[i].DeviceId == deviceId
    ensures multiset(r) <= multiset(buffer)
    ensures forall m | m in buffer && m.DeviceId == deviceId :: m in r
    ensures |r| <= |buffer|
  {
    if buffer == [] then []
    else
      var rest := ForDevice(buffer[1..], deviceId);
      assert buffer == [buffer[0]] + buffer[1..];
      if buffer[0].DeviceId == deviceId then [buffer[0]] + rest else rest
  }

  /** Newest first: EnqueuedTime never increases along the sequence. */
  predicate NewestFirst(s: seq<TelemetryMessage>) {
    forall i, j | 0 <= i < j < |s| :: s[i].EnqueuedTime >= s[j].EnqueuedTime
  }

  /** Places `m` before the first message no newer than it, which keeps the
      sort stable when `m` came first in the input. */
  function InsertNewestFirst(m: TelemetryMessage, s: seq<TelemetryMessage>): (r: seq<TelemetryMessage>)
    requires NewestFirst(s)
    ensures NewestFirst(r)
    ensures multiset(r) == multiset(s) + multiset{m}
    ensures |r| == |s| + 1 && (r[0] == m || (|s| > 0 && r[0] == s[0]))
  {
    if s == [] || m.EnqueuedTime >= s[0].EnqueuedTime then [m] + s
    else
      var rest := InsertNewestFirst(m, s[1..]);
      assert s == [s[0]] + s[1..];
      [s[0]] + rest
  }

  /** OrderByDescending(t => t.EnqueuedTime), as an insertion sort. */
  function SortNewestFirst(s: seq<TelemetryMessage>): (r: seq<TelemetryMessage>)
    ensures NewestFirst(r) && multiset(r) == multiset(s) && |r| == |s|
  {
    if s == [] then []
    else
      assert s == [s[0]] + s[1..];
      InsertNewestFirst(s[0], SortNewestFirst(s[1..]))
  }

  /** Take(count): the first `count` elements, none for a negative count. */
  function Take(s: seq<TelemetryMessage>, count: int): (r: seq<TelemetryMessage>)
    ensures |r| == Min(Max(count, 0), |s|) && r == s[..|r|]
  {
    s[..Min(Max(count, 0), |s|)]
  }

  /** A prefix of a newest-first sequence is newest first, and holds a
      sub-multiset of it. */
  lemma PrefixKeepsOrder(s: seq<TelemetryMessage>, n: nat)
    requires NewestFirst(s) && n <= |s|
    ensures NewestFirst(s[..n]) && multiset(s[..n]) <= multiset(s)
  {
    assert s == s[..n] + s[n..];
  }

  /** Cutting a newest-first sequence keeps the newest: nothing left out is
      newer than anything taken. */
  lemma PrefixHoldsTheNewest(s: seq<TelemetryMessage>, n: nat)
    requires NewestFirst(s) && n <= |s|
    ensures forall i, j | 0 <= i < n <= j < |s| :: s[i].EnqueuedTime >= s[j].EnqueuedTime
  {
  }

  /** The first `count` of a sequence sorted newest first: newest first, and
      drawn from the sequence; all of it when `count` reaches its length. */
  lemma NewestPrefix(s: seq<TelemetryMessage>, count: int)
    ensures var r := Take(SortNewestFirst(s), count);
      && NewestFirst(r) && multiset(r) <= multiset(s)
      && (count >= |s| ==> multiset(r) == multiset(s))
  {
    var sorted := SortNewestFirst(s);
    var n := Min(Max(count, 0), |sorted|);
    assert Take(sorted, count) == sorted[..n];
    PrefixKeepsOrder(sorted, n);
    if count >= |s| {
      assert sorted[..n] == sorted;
    }
  }

  /** Cutting a newest-first sequence leaves out nothing newer than what it
      keeps, counted with multiplicity. */
  lemma PrefixOutranksTheRest(sorted: seq<TelemetryMessage>, n: nat)
    requires NewestFirst(sorted) && n <= |sorted|
    ensures forall x, m | x in sorted[..n] && m in multiset(sorted) - multiset(sorted[..n]) ::
      x.EnqueuedTime >= m.EnqueuedTime
  {
    assert sorted == sorted[..n] + sorted[n..];
    forall x, m | x in sorted[..n] && m in multiset(sorted) - multiset(sorted[..n])
      ensures x.EnqueuedTime >= m.EnqueuedTime
    {
      assert multiset(sorted)[m] == multiset(sorted[..n])[m] + multiset(sorted[n..])[m];
      assert m in sorted[n..];
      var i :| 0 <= i < n && sorted[i] == x;
      var j :| 0 <= j < |sorted| - n && sorted[n..][j] == m;
      assert sorted[n + j] == m;
    }
  }

  /** Taking from the sorted sequence keeps the newest: nothing of `s` that
      is left out is newer than anything taken. */
  lemma DroppedAreOlder(s: seq<TelemetryMessage>, count: int)
    ensures var r := Take(SortNewestFirst(s), count);
      forall x, m | x in r && m in multiset(s) - multiset(r) :: x.EnqueuedTime >= m.EnqueuedTime
  {
    var sorted := SortNewestFirst(s);
    var n := Min(Max(count, 0), |sorted|);
    assert Take(sorted, count) == sorted[..n];
    PrefixOutranksTheRest(sorted, n);
  }

  /** What GetRecentTelemetry returns for the device's messages `mine`. */
  lemma RecentIsNewestOfDevice(mine: seq<TelemetryMessage>, deviceId: string, count: int)
    requires forall i | 0 <= i < |mine| :: mine[i].DeviceId == deviceId
    ensures var r := Take(SortNewestFirst(mine), count);
      && |r| == Min(Max(count, 0), |mine|)
      && (forall i | 0 <= i < |r| :: r[i].DeviceId == deviceId)
      && NewestFirst(r) && multiset(r) <= multiset(mine)
      && (count >= |mine| ==> multiset(r) == multiset(mine))
      && (forall x, m | x in r && m in multiset(mine) - multiset(r) :: x.EnqueuedTime >= m.EnqueuedTime)
  {
    var r := Take(SortNewestFirst(mine), count);
    NewestPrefix(mine, count);
    DroppedAreOlder(mine, count);
    forall i | 0 <= i < |r|
      ensures r[i].DeviceId == deviceId
    {
      assert r[i] in multiset(mine);
    }
  }

  class IotHubService {
    var devices: map<string, Device>
    var telemetryBuffer: seq<TelemetryMessage>

    ghost predicate Valid()
      reads this
    {
      KeyedById(devices)
    }

    /** The service with the two sample devices and an empty buffer. */
    constructor(legacyKey: string, modernKey: string, legacyETag: string, modernETag: string, now: Instant)
      ensures Valid() && telemetryBuffer == []
      ensures devices == SampleRegistry(legacyKey, modernKey, legacyETag, modernETag, now)
    {
      devices := SampleRegistry(legacyKey, modernKey, legacyETag, modernETag, now);
      telemetryBuffer := [];
    }

    /** GetDevice: the device filed under the id, or null. */
    function GetDevice(deviceId: string): (r: Option<Device>)
      reads this
      requires Valid()
      ensures r.Some? <==> deviceId in devices
      ensures r.Some? ==> r.value == devices[deviceId] && r.value.DeviceId == deviceId
    {
      if deviceId in devices then Some(devices[deviceId]) else None
    }

    /** CreateDevice: builds an Enabled, Disconnected device and files it only
      if the id is free (TryAdd); the new device is returned either way. */
    method CreateDevice(deviceId: string, templateId: Option<string>, key: string, etag: string, now: Instant)
      returns (device: Device)
      requires Valid()
      modifies this
      ensures Valid() && telemetryBuffer == old(telemetryBuffer)
      ensures device.DeviceId == deviceId && device.Status == Enabled && device.ConnectionState == Disconnected
      ensures device.TemplateId == Some(if templateId.Some? then templateId.value else DefaultCreateTemplate)
      ensures device == NewDevice(deviceId, key, device.TemplateId.value, etag, now)
      ensures deviceId in old(devices) ==> devices == old(devices)
      ensures deviceId !in old(devices) ==> devices == old(devices)[deviceId := device]
    {
      var template := if templateId.Some? then templateId.value else DefaultCreateTemplate;
      device := NewDevice(deviceId, key, template, etag, now);
      if deviceId !in devices {
        devices := devices[deviceId := device];
      }
    }

    /** DeleteDevice: true iff the id was registered; only that entry goes. */
    method DeleteDevice(deviceId: string) returns (removed: bool)
      requires Valid()
      modifies this
      ensures Valid() && telemetryBuffer == old(telemetryBuffer)
      ensures removed <==> deviceId in old(devices)
      ensures devices == old(devices) - {deviceId}
    {
      removed := deviceId in devices;
      devices := devices - {deviceId};
    }

    /** UpdateDeviceConnection: a registered device takes the state and the
      activity time; an unknown id changes nothing. */
    method UpdateDeviceConnection(deviceId: string, state: DeviceConnectionState, now: Instant)
      requires Valid()
      modifies this
      ensures Valid() && telemetryBuffer == old(telemetryBuffer)
      ensures deviceId !in old(devices) ==> devices == old(devices)
      ensures deviceId in old(devices) ==>
        devices == old(devices)[deviceId := old(devices)[deviceId].(ConnectionState := state, LastActivityTime := now)]
    {
      if deviceId in devices {
        devices := devices[deviceId := devices[deviceId].(ConnectionState := state, LastActivityTime := now)];
      }
    }

    /** GetTwin. */
    function GetTwin(deviceId: string): (r: Option<DeviceTwin>)
      reads this
      ensures r.Some? <==> deviceId in devices
      ensures r.Some? ==> r.value == devices[deviceId].Twin
    {
      if deviceId in devices then Some(devices[deviceId].Twin) else None
    }

    /** UpdateTwinDesiredProperties: the given keys are written into the
      desired properties one by one, the ETag is renewed, and reported
      properties are left alone. */
    method UpdateTwinDesiredProperties(deviceId: string, desiredProperties: map<string, PropValue>, etag: string)
      returns (twin: Option<DeviceTwin>)
      requires Valid()
      modifies this
      ensures Valid() && telemetryBuffer == old(telemetryBuffer)
      ensures deviceId !in old(devices) ==> twin.None? && devices == old(devices)
      ensures deviceId in old(devices) ==>
        var d := old(devices)[deviceId];
        var t := d.Twin.(ETag := Some(etag),
                         Properties := d.Twin.Properties.(Desired := Merge(d.Twin.Properties.Desired, desiredProperties)));
        twin == Some(t) && devices == old(devices)[deviceId := d.(Twin := t)]
    {
      if deviceId !in devices {
        return None;
      }
      var device := devices[deviceId];
      var desired := device.Twin.Properties.Desired;
      var pending := desiredProperties.Keys;
      while pending != {}
        invariant pending <= desiredProperties.Keys
        invariant desired == Merge(device.Twin.Properties.Desired, desiredProperties - pending)
        invariant devices == old(devices) && telemetryBuffer == old(telemetryBuffer)
        decreases |pending|
      {
        var key :| key in pending;
        MergeStep(device.Twin.Properties.Desired, desiredProperties, pending, key);
        desired := desired[key := desiredProperties[key]];
        pending := pending - {key};
      }
      assert desiredProperties - {} == desiredProperties;
      var t := device.Twin.(ETag := Some(etag), Properties := device.Twin.Properties.(Desired := desired));
      devices := devices[deviceId := device.(Twin := t)];
      twin := Some(t);
    }

    /** UpdateTwinReportedProperties: the same merge, into reported only. */
    method UpdateTwinReportedProperties(deviceId: string, reportedProperties: map<string, PropValue>, etag: string)
      returns (twin: Option<DeviceTwin>)
      requires Valid()
      modifies this
      ensures Valid() && telemetryBuffer == old(telemetryBuffer)
      ensures deviceId !in old(devices) ==> twin.None? && devices == old(devices)
      ensures deviceId in old(devices) ==>
        var d := old(devices)[deviceId];
        var t := d.Twin.(ETag := Some(etag),
                         Properties := d.Twin.Properties.(Reported := Merge(d.Twin.Properties.Reported, reportedProperties)));
        twin == Some(t) && devices == old(devices)[deviceId := d.(Twin := t)]
    {
      if deviceId !in devices {
        return None;
      }
      var device := devices[deviceId];
      var reported := device.Twin.Properties.Reported;
      var pending := reportedProperties.Keys;
      while pending != {}
        invariant pending <= reportedProperties.Keys
        invariant reported == Merge(device.Twin.Properties.Reported, reportedProperties - pending)
        invariant devices == old(devices) && telemetryBuffer == old(telemetryBuffer)
        decreases |pending|
      {
        var key :| key in pending;
        MergeStep(device.Twin.Properties.Reported, reportedProperties, pending, key);
        reported := reported[key := reportedProperties[key]];
        pending := pending - {key};
      }
      assert reportedProperties - {} == reportedProperties;
      var t := device.Twin.(ETag := Some(etag), Properties := device.Twin.Properties.(Reported := reported));
      devices := devices[deviceId := device.(Twin := t)];
      twin := Some(t);
    }

    /** InvokeDirectMethodAsync: looks the device up and dispatches on the
      method name. */
    function InvokeDirectMethodAsync(deviceId: string, call: DirectMethod, now: Instant): (r: Invocation)
      reads this
      ensures r.Responded? ==> r.response.CorrelationId == call.CorrelationId
      ensures r.Responded? && r.response.Status == 404 <==> deviceId !in devices
    {
      DirectMethodOutcome(deviceId in devices, call, now)
    }

    /** IngestTelemetry: the message joins the buffer; a registered device
      records the activity and a Disconnected one becomes Connected. */
    method IngestTelemetry(telemetry: TelemetryMessage, now: Instant)
      requires Valid()
      modifies this
      ensures Valid() && telemetryBuffer == old(telemetryBuffer) + [telemetry]
      ensures telemetry.DeviceId !in old(devices) ==> devices == old(devices)
      ensures telemetry.DeviceId in old(devices) ==>
        var d := old(devices)[telemetry.DeviceId];
        devices == old(devices)[telemetry.DeviceId := d.(
          LastActivityTime := now,
          ConnectionState := if d.ConnectionState == Disconnected then Connected else d.ConnectionState)]
      ensures |devices| == |old(devices)| && ConnectedCount(old(devices)) <= ConnectedCount(devices)
    {
      telemetryBuffer := telemetryBuffer + [telemetry];
      var id := telemetry.DeviceId;
      if id in devices {
        var d := devices[id];
        var d' := d.(LastActivityTime := now);
        if d'.ConnectionState == Disconnected {
          d' := d'.(ConnectionState := Connected);
        }
        ConnectingNeverLowersCount(devices, id, d');
        devices := devices[id := d'];
      }
    }

    /** GetRecentTelemetry: the device's messages, newest first, at most
      `count` of them. */
    function GetRecentTelemetry(deviceId: string, count: int): (r: seq<TelemetryMessage>)
      reads this
      ensures |r| == Min(Max(count, 0), |ForDevice(telemetryBuffer, deviceId)|)
      ensures forall i | 0 <= i < |r| :: r[i].DeviceId == deviceId
      ensures NewestFirst(r)
      ensures multiset(r) <= multiset(telemetryBuffer)
      ensures count >= |ForDevice(telemetryBuffer, deviceId)| ==>
        multiset(r) == multiset(ForDevice(telemetryBuffer, deviceId))
      // the ones kept are the newest: none of the device's messages left out is newer
      ensures forall x, m | x in r && m in multiset(ForDevice(telemetryBuffer, deviceId)) - multiset(r) ::
        x.EnqueuedTime >= m.EnqueuedTime
    {
      var mine := ForDevice(telemetryBuffer, deviceId);
      RecentIsNewestOfDevice(mine, deviceId, count);
      Take(SortNewestFirst(mine), count)
    }

    /** GetTelemetryStats. */
    function GetTelemetryStats(): (r: TelemetryStats)
      reads this
      ensures r.TotalMessages == |telemetryBuffer| && r.TotalDevices == |devices|
      ensures 0 <= r.ConnectedDevices <= r.TotalDevices
      ensures r.ConnectedDevices == |set id | id in devices && devices[id].ConnectionState == Connected|
    {
      TelemetryStats(|telemetryBuffer|, ConnectedCount(devices), |devices|)
    }

    /** ProvisionDevice: the id is "braun-", the registration id, "-" and the
      first 8 characters of a new GUID; the request's payload becomes the
      tags; the device is filed only if the id is free, and the answer is
      Assigned either way. The request's DeviceKey is not used. */
    method ProvisionDevice(request: ProvisioningRequest, guid: string, key: string, etag: string, now: Instant)
      returns (response: ProvisioningResponse)
      requires |guid| == 36
      requires Valid()
      modifies this
      ensures Valid() && telemetryBuffer == old(telemetryBuffer)
      ensures response == ProvisioningResponse(ProvisionedId(request.RegistrationId, guid), Some(ProvisionedHub),
                                               Some(key), now, Assigned)
      ensures var id := ProvisionedId(request.RegistrationId, guid);
        var template := if request.TemplateId.Some? then request.TemplateId.value else DefaultProvisionTemplate;
        var tags := if request.Payload.Some? then request.Payload.value else map[];
        && (id in old(devices) ==> devices == old(devices))
        && (id !in old(devices) ==> devices == old(devices)[id := NewDevice(id, key, template, etag, now).(Tags := tags)])
    {
      var deviceId := ProvisionedId(request.RegistrationId, guid);
      var template := if request.TemplateId.Some? then request.TemplateId.value else DefaultProvisionTemplate;
      var device := NewDevice(deviceId, key, template, etag, now);
      if request.Payload.Some? {
        MergeIntoEmptyIsCopy(request.Payload.value);
        device := device.(Tags := Merge(device.Tags, request.Payload.value));
      }
      if deviceId !in devices {
        devices := devices[deviceId := device];
      }
      response := ProvisioningResponse(deviceId, Some(ProvisionedHub), device.DeviceKey, now, Assigned);
    }

    /** ValidateTpmAttestation: valid iff both keys are non-empty and the
      attestation has not expired. A valid attestation of a registered device
      tags it with the first 20 characters of the endorsement key, which
      throws, before any tag is written, when the key is shorter. */
    method ValidateTpmAttestation(deviceId: string, attestation: TpmAttestation, now: Instant)
      returns (r: AttestationOutcome)
      requires Valid()
      modifies this
      ensures Valid() && telemetryBuffer == old(telemetryBuffer)
      ensures r.SliceOutOfRange? <==>
        AttestationIsValid(attestation, now) && deviceId in old(devices)
        && |attestation.EndorsementKey| < EndorsementKeyPrefixLength
      ensures r.Validated? ==> r.isValid == AttestationIsValid(attestation, now)
      ensures r.Validated? && r.isValid && deviceId in old(devices) ==>
        var d := old(devices)[deviceId];
        devices == old(devices)[deviceId := d.(Tags := d.Tags[
          EndorsementKeyTag := attestation.EndorsementKey[..EndorsementKeyPrefixLength] + "..."][
          TpmValidatedTag := "true"])]
      ensures !(r.Validated? && r.isValid && deviceId in old(devices)) ==> devices == old(devices)
    {
      var isValid := AttestationIsValid(attestation, now);
      if isValid && deviceId in devices {
        if |attestation.EndorsementKey| < EndorsementKeyPrefixLength {
          return SliceOutOfRange;
        }
        var d := devices[deviceId];
        var tags := d.Tags[EndorsementKeyTag := attestation.EndorsementKey[..EndorsementKeyPrefixLength] + "..."];
        tags := tags[TpmValidatedTag := "true"];
        devices := devices[deviceId := d.(Tags := tags)];
      }
      r := Validated(isValid);
    }
  }

  /** The id ProvisionDevice assigns. */
  function ProvisionedId(registrationId: string, guid: string): (r: string)
    requires |guid| >= 8
    ensures |r| == 6 + |registrationId| + 1 + 8
    ensures r[..6] == "braun-" && r[6..6 + |registrationId|] == registrationId
    ensures r[6 + |registrationId|] == '-' && r[|r| - 8..] == guid[..8]
  {
    "braun-" + registrationId + "-" + guid[..8]
  }

  /** The provisioned id determines the registration id and the GUID prefix:
      two provisions collide only when both agree. */
  lemma ProvisionedIdIsInjective(registrationId: string, guid: string, registrationId': string, guid': string)
    requires |guid| >= 8 && |guid'| >= 8
    requires ProvisionedId(registrationId, guid) == ProvisionedId(registrationId', guid')
    ensures registrationId == registrationId' && guid[..8] == guid'[..8]
  {
    var id := ProvisionedId(registrationId, guid);
    assert |registrationId| == |registrationId'|;
    assert registrationId == id[6..6 + |registrationId|];
    assert registrationId' == id[6..6 + |registrationId'|];
    assert guid[..8] == id[|id| - 8..];
    assert guid'[..8] == id[|id| - 8..];
  }

  /** The attestation check: both keys present and not past ValidTo. */
  predicate AttestationIsValid(attestation: TpmAttestation, now: Instant) {
    && |attestation.EndorsementKey| != 0
    && |attestation.StorageRootKey| != 0
    && (attestation.ValidTo.None? || attestation.ValidTo.value > now)
  }

  /** An attestation with an expiry stops being valid once the clock reaches it. */
  lemma AttestationExpires(attestation: TpmAttestation, now: Instant, later: Instant)
    requires attestation.ValidTo.Some? && now <= later
    ensures AttestationIsValid(attestation, later) ==> AttestationIsValid(attestation, now)
    ensures later >= attestation.ValidTo.value ==> !AttestationIsValid(attestation, later)
  {
  }
}
