/** The transform service (TelemetryToObservationMapper): drains the telemetry
    channel, maps each message's five known measurements to FHIR observation
    requests with their LOINC codes, and posts them one after the other to the
    FHIR API. A post that throws abandons the rest of that message only. */
module FhirTransform {
  import opened Common
  import opened Telemetry

  /** CreateObservationRequest. */
  datatype CreateObservationRequest = CreateObservationRequest(
    PatientId: string,
    DeviceId: string,
    Code: string,
    CodeDisplay: string,
    Value: real,
    Unit: string,
    ObservationTime: Instant)

  /** FhirTransformService.TransformTelemetryToObservation: a request for the
      given code that uses the device id as the patient id and carries the
      placeholder value 0. */
  function TransformTelemetryToObservation(telemetry: TelemetryMessage, code: string, codeDisplay: string, unit: string)
    : (r: CreateObservationRequest)
    ensures r.PatientId == telemetry.DeviceId && r.DeviceId == telemetry.DeviceId
    ensures r.Code == code && r.CodeDisplay == codeDisplay && r.Unit == unit
    ensures r.Value == 0.0 && r.ObservationTime == telemetry.Timestamp
  {
    CreateObservationRequest(telemetry.DeviceId, telemetry.DeviceId, code, codeDisplay, 0.0, unit, telemetry.Timestamp)
  }

  /** ExtractPatientIdFromDevice: the three demo devices map to P001..P003,
      every other device to the empty string. */
  function ExtractPatientIdFromDevice(deviceId: string): (r: string)
    ensures r != "" <==> deviceId in {"Device-001", "Device-002", "Device-003"}
  {
    match deviceId
    case "Device-001" => "P001"
    case "Device-002" => "P002"
    case "Device-003" => "P003"
    case _ => ""
  }

  /** A known device's patient id is "P" followed by the device's three-digit
      serial. */
  lemma PatientIdFollowsDeviceSerial(deviceId: string)
    requires ExtractPatientIdFromDevice(deviceId) != ""
    ensures |deviceId| == 10 && deviceId[..7] == "Device-"
    ensures ExtractPatientIdFromDevice(deviceId) == "P" + deviceId[7..]
  {
  }

  /** One row of the measurement-to-LOINC table the mapper applies. */
  datatype CodeEntry = CodeEntry(Key: string, Code: string, Display: string, Unit: string)

  /** The five mapped measurements, in the order the mapper visits them. */
  const CodeTable: seq<CodeEntry> := [
    CodeEntry("bloodFlow", "33438-3", "Blood Flow Rate", "mL/min"),
    CodeEntry("arterialPressure", "75992-9", "Arterial Pressure", "mmHg"),
    CodeEntry("venousPressure", "60956-0", "Venous Pressure", "mmHg"),
    CodeEntry("dialysateTemperature", "8310-5", "Body Temperature", "\U{00B0}C"),
    CodeEntry("conductivity", "2164-2", "Conductivity", "mS/cm")
  ]

  /** The table maps each key and each code once. */
  lemma CodeTableIsInjective()
    ensures forall i, j :: 0 <= i < j < |CodeTable| ==> CodeTable[i].Key != CodeTable[j].Key
    ensures forall i, j :: 0 <= i < j < |CodeTable| ==> CodeTable[i].Code != CodeTable[j].Code
  {
  }

  /** MapMeasurement for one table row: the value the message carries under
      the row's key, recorded under the row's code, display and unit for the
      patient and the sending device at the message's time. */
  function MapMeasurement(patientId: string, telemetry: TelemetryMessage, e: CodeEntry): (r: CreateObservationRequest)
    requires e.Key in telemetry.Measurements
    ensures r.PatientId == patientId && r.DeviceId == telemetry.DeviceId && r.ObservationTime == telemetry.Timestamp
    ensures r.Code == e.Code && r.CodeDisplay == e.Display && r.Unit == e.Unit
    ensures r.Value == telemetry.Measurements[e.Key]
  {
    CreateObservationRequest(patientId, telemetry.DeviceId, e.Code, e.Display,
                             telemetry.Measurements[e.Key], e.Unit, telemetry.Timestamp)
  }

  /** The observations built for a message: one per row of `table` whose key
      the message carries, in table order. */
  function Planned(patientId: string, telemetry: TelemetryMessage, table: seq<CodeEntry>): (r: seq<CreateObservationRequest>)
    ensures |r| <= |table|
    ensures forall i | 0 <= i < |r| ::
      r[i].PatientId == patientId && r[i].DeviceId == telemetry.DeviceId && r[i].ObservationTime == telemetry.Timestamp
    decreases |table|
  {
    if table == [] then [] else Row(patientId, telemetry, table[0]) + Planned(patientId, telemetry, table[1..])
  }

  /** The observation one table row contributes: one if the message carries
      the row's key, none otherwise. */
  function Row(patientId: string, telemetry: TelemetryMessage, e: CodeEntry): seq<CreateObservationRequest> {
    if e.Key in telemetry.Measurements then [MapMeasurement(patientId, telemetry, e)] else []
  }

  /** Every observation is a measurement the message carries, under the code
      its table row gives it. */
  lemma {:induction false} PlannedAreTableRows(patientId: string, telemetry: TelemetryMessage, table: seq<CodeEntry>,
                                               o: CreateObservationRequest)
    requires o in Planned(patientId, telemetry, table)
    ensures exists e | e in table :: e.Key in telemetry.Measurements && o == MapMeasurement(patientId, telemetry, e)
    decreases |table|
  {
    if table[0].Key !in telemetry.Measurements || o != MapMeasurement(patientId, telemetry, table[0]) {
      PlannedAreTableRows(patientId, telemetry, table[1..], o);
      var e :| e in table[1..] && e.Key in telemetry.Measurements && o == MapMeasurement(patientId, telemetry, e);
      assert e in table;
    }
  }

  /** Every measurement of the table that the message carries is observed. */
  lemma {:induction false} PlannedCoverMeasurements(patientId: string, telemetry: TelemetryMessage, table: seq<CodeEntry>,
                                                    e: CodeEntry)
    requires e in table && e.Key in telemetry.Measurements
    ensures MapMeasurement(patientId, telemetry, e) in Planned(patientId, telemetry, table)
    decreases |table|
  {
    if e != table[0] {
      PlannedCoverMeasurements(patientId, telemetry, table[1..], e);
    }
  }

  /** A message carrying none of the table's keys produces no observation, and
      one carrying any of them produces at least one. */
  lemma {:induction false} PlannedEmptyIff(patientId: string, telemetry: TelemetryMessage, table: seq<CodeEntry>)
    ensures Planned(patientId, telemetry, table) == [] <==> forall e | e in table :: e.Key !in telemetry.Measurements
    decreases |table|
  {
    if table != [] {
      PlannedEmptyIff(patientId, telemetry, table[1..]);
      assert forall e | e in table :: e == table[0] || e in table[1..];
    }
  }

  /** The FHIR API client as far as the mapper sees it: every post is recorded
      in order, and the post at a position listed in `failing` throws (after the
      retry policy gave up). A non-success response is only logged, so it
      counts as a post that returned. */
  class FhirApiClient {
    var posted: seq<CreateObservationRequest>
    const failing: set<nat>

    constructor(failing: set<nat>)
      ensures posted == [] && this.failing == failing
    {
      posted := [];
      this.failing := failing;
    }

    /** CreateObservationAsync: returns whether it threw. */
    method CreateObservation(request: CreateObservationRequest) returns (threw: bool)
      modifies this
      ensures posted == old(posted) + [request]
      ensures threw <==> |old(posted)| in failing
    {
      threw := |posted| in failing;
      posted := posted + [request];
    }
  }

  /** The post at position `start + k` throws. */
  predicate ThrowsAt(failing: set<nat>, start: nat, k: nat) {
    start + k in failing
  }

  /** How many of `requests` get posted when the first of them is the post
      at position `start`: up to and including the first that throws. */
  function Attempted(start: nat, requests: seq<CreateObservationRequest>, failing: set<nat>): (n: nat)
    ensures n <= |requests|
    ensures requests != [] ==> n >= 1
    ensures forall k: nat | k + 1 < n :: !ThrowsAt(failing, start, k)
    ensures n < |requests| ==> ThrowsAt(failing, start, n - 1)
    decreases |requests|
  {
    if requests == [] then 0
    else if start in failing then 1
    else
      var n := 1 + Attempted(start + 1, requests[1..], failing);
      assert forall k: nat | 0 < k :: ThrowsAt(failing, start, k) == ThrowsAt(failing, start + 1, k - 1);
      n
  }

  /** The observations ProcessTelemetryAsync builds for a message: none when
      its device has no patient. */
  function PlannedFor(telemetry: TelemetryMessage): (r: seq<CreateObservationRequest>)
    ensures |r| <= |CodeTable|
    ensures forall o | o in r ::
      o.PatientId == ExtractPatientIdFromDevice(telemetry.DeviceId) != "" && o.DeviceId == telemetry.DeviceId
    ensures r == [] <==>
      ExtractPatientIdFromDevice(telemetry.DeviceId) == "" || forall e | e in CodeTable :: e.Key !in telemetry.Measurements
  {
    var patientId := ExtractPatientIdFromDevice(telemetry.DeviceId);
    if patientId == "" then []
    else
      PlannedEmptyIff(patientId, telemetry, CodeTable);
      Planned(patientId, telemetry, CodeTable)
  }

  /** The part of `batch` that gets posted when its first post is at position
      `start`. */
  function Sent(batch: seq<CreateObservationRequest>, start: nat, failing: set<nat>): seq<CreateObservationRequest> {
    batch[..Attempted(start, batch, failing)]
  }

  /** The requests MapAndPersistAsync posts for a sequence of batches, one
      batch per message, each started where the previous one stopped. */
  function Drained(batches: seq<seq<CreateObservationRequest>>, start: nat, failing: set<nat>)
    : seq<CreateObservationRequest>
  {
    if batches == [] then []
    else
      var sent := Sent(batches[0], start, failing);
      sent + Drained(batches[1..], start + |sent|, failing)
  }

  /** The batches of a channel, message by message. */
  function Batches(channel: seq<TelemetryMessage>): (r: seq<seq<CreateObservationRequest>>)
    ensures |r| == |channel|
  {
    if channel == [] then [] else [PlannedFor(channel[0])] + Batches(channel[1..])
  }

  class TelemetryToObservationMapper {
    const client: FhirApiClient

    constructor(client: FhirApiClient)
      ensures this.client == client
    {
      this.client := client;
    }

    /** The five TryGetValue blocks of ProcessTelemetryAsync. */
    static method BuildObservations(patientId: string, telemetry: TelemetryMessage)
      returns (observations: seq<CreateObservationRequest>)
      ensures observations == Planned(patientId, telemetry, CodeTable)
    {
      var m := telemetry.Measurements;
      ghost var t := CodeTable;
      observations := [];
      if "bloodFlow" in m {
        observations := observations + [CreateObservationRequest(patientId, telemetry.DeviceId, "33438-3",
          "Blood Flow Rate", m["bloodFlow"], "mL/min", telemetry.Timestamp)];
      }
      assert observations == Row(patientId, telemetry, t[0]);
      ghost var done := observations;
      if "arterialPressure" in m {
        observations := observations + [CreateObservationRequest(patientId, telemetry.DeviceId, "75992-9",
          "Arterial Pressure", m["arterialPressure"], "mmHg", telemetry.Timestamp)];
      }
      assert observations == done + Row(patientId, telemetry, t[1]);
      done := observations;
      if "venousPressure" in m {
        observations := observations + [CreateObservationRequest(patientId, telemetry.DeviceId, "60956-0",
          "Venous Pressure", m["venousPressure"], "mmHg", telemetry.Timestamp)];
      }
      assert observations == done + Row(patientId, telemetry, t[2]);
      done := observations;
      if "dialysateTemperature" in m {
        observations := observations + [CreateObservationRequest(patientId, telemetry.DeviceId, "8310-5",
          "Body Temperature", m["dialysateTemperature"], "\U{00B0}C", telemetry.Timestamp)];
      }
      assert observations == done + Row(patientId, telemetry, t[3]);
      done := observations;
      if "conductivity" in m {
        observations := observations + [CreateObservationRequest(patientId, telemetry.DeviceId, "2164-2",
          "Conductivity", m["conductivity"], "mS/cm", telemetry.Timestamp)];
      }
      assert observations == done + Row(patientId, telemetry, t[4]);
      PlannedOverCodeTable(patientId, telemetry);
    }

    /** ProcessTelemetryAsync: returns whether a post threw (the exception the
        caller catches). */
    method ProcessTelemetry(telemetry: TelemetryMessage) returns (threw: bool)
      modifies client
      ensures client.posted == old(client.posted) + Sent(PlannedFor(telemetry), |old(client.posted)|, client.failing)
      ensures var sent := Sent(PlannedFor(telemetry), |old(client.posted)|, client.failing);
        threw <==> |sent| > 0 && ThrowsAt(client.failing, |old(client.posted)|, |sent| - 1)
    {
      var patientId := ExtractPatientIdFromDevice(telemetry.DeviceId);
      if patientId == "" {
        return false;
      }
      var observations := BuildObservations(patientId, telemetry);
      threw := PostAll(observations);
    }

    /** The foreach that persists the observations: posts them in order and
        stops at the first post that throws. */
    method PostAll(observations: seq<CreateObservationRequest>) returns (threw: bool)
      modifies client
      ensures client.posted == old(client.posted) + Sent(observations, |old(client.posted)|, client.failing)
      ensures var sent := Sent(observations, |old(client.posted)|, client.failing);
        threw <==> |sent| > 0 && ThrowsAt(client.failing, |old(client.posted)|, |sent| - 1)
    {
      threw := false;
      var start := |client.posted|;
      var i := 0;
      while i < |observations|
        invariant 0 <= i <= |observations|
        invariant client.posted == old(client.posted) + observations[..i]
        invariant forall k: nat | k < i :: !ThrowsAt(client.failing, start, k)
        invariant Attempted(start, observations, client.failing)
          == i + Attempted(start + i, observations[i..], client.failing)
        invariant !threw
      {
        AttemptedStep(start + i, observations[i..], client.failing);
        threw := client.CreateObservation(observations[i]);
        assert observations[..i + 1] == observations[..i] + [observations[i]];
        if threw {
          assert ThrowsAt(client.failing, start, i);
          return;
        }
        assert observations[i..][1..] == observations[i + 1..];
        i := i + 1;
      }
      assert observations[..i] == observations;
    }

    /** MapAndPersistAsync over the messages the channel delivers: every
        message is processed, whatever happened to the ones before it. */
    method MapAndPersist(channel: seq<TelemetryMessage>)
      modifies client
      ensures client.posted == old(client.posted) + Drained(Batches(channel), |old(client.posted)|, client.failing)
    {
      ghost var batches := Batches(channel);
      ghost var failing := client.failing;
      var i := 0;
      while i < |channel|
        invariant 0 <= i <= |channel|
        invariant client.posted + Drained(batches[i..], |client.posted|, failing)
          == old(client.posted) + Drained(batches, |old(client.posted)|, failing)
      {
        ghost var before := client.posted;
        var _ := ProcessTelemetry(channel[i]);
        DrainStep(channel, i, before, client.posted, failing);
        i := i + 1;
      }
      assert batches[i..] == [];
    }
  }

  /** The loop step of MapAndPersist: processing message i moves the
      remaining batches' posts into the client's log. */
  lemma DrainStep(channel: seq<TelemetryMessage>, i: nat, before: seq<CreateObservationRequest>,
                  after: seq<CreateObservationRequest>, failing: set<nat>)
    requires i < |channel|
    requires after == before + Sent(PlannedFor(channel[i]), |before|, failing)
    ensures after + Drained(Batches(channel)[i + 1..], |after|, failing)
      == before + Drained(Batches(channel)[i..], |before|, failing)
  {
    BatchesAt(channel, i);
    DrainBatchStep(Batches(channel), i, before, after, failing);
  }

  lemma DrainBatchStep(batches: seq<seq<CreateObservationRequest>>, i: nat, before: seq<CreateObservationRequest>,
                       after: seq<CreateObservationRequest>, failing: set<nat>)
    requires i < |batches|
    requires after == before + Sent(batches[i], |before|, failing)
    ensures after + Drained(batches[i + 1..], |after|, failing) == before + Drained(batches[i..], |before|, failing)
  {
    var sent := Sent(batches[i], |before|, failing);
    var rest := Drained(batches[i + 1..], |before| + |sent|, failing);
    DrainedAt(batches, i, |before|, failing);
    var n := |after|;
    assert n == |before| + |sent|;
    var d := Drained(batches[i + 1..], n, failing);
    assert d == rest;
    AppendIsAssociative(before, sent, rest);
    assert after + d == before + (sent + rest);
  }

  /** The i-th batch is the i-th message's observations. */
  lemma {:induction false} BatchesAt(channel: seq<TelemetryMessage>, i: nat)
    requires i < |channel|
    ensures Batches(channel)[i] == PlannedFor(channel[i])
  {
    if i > 0 {
      BatchesAt(channel[1..], i - 1);
    }
  }

  /** Drained from the i-th batch on: that batch, then the rest from where it
      left off. */
  lemma DrainedAt(batches: seq<seq<CreateObservationRequest>>, i: nat, start: nat, failing: set<nat>)
    requires i < |batches|
    ensures Drained(batches[i..], start, failing) ==
      Sent(batches[i], start, failing) + Drained(batches[i + 1..], start + |Sent(batches[i], start, failing)|, failing)
  {
    DrainedStep(batches[i..], start, failing);
    assert batches[i..][1..] == batches[i + 1..];
  }

  lemma AppendIsAssociative<T>(a: seq<T>, b: seq<T>, c: seq<T>)
    ensures (a + b) + c == a + (b + c)
  {
  }

  /** One step of Drained: the first message, then the rest from where it left off. */
  lemma DrainedStep(batches: seq<seq<CreateObservationRequest>>, start: nat, failing: set<nat>)
    requires batches != []
    ensures Drained(batches, start, failing) ==
      Sent(batches[0], start, failing) + Drained(batches[1..], start + |Sent(batches[0], start, failing)|, failing)
  {
  }

  /** One step of Attempted: the first request is posted; it ends the run when
      it throws. */
  lemma AttemptedStep(start: nat, requests: seq<CreateObservationRequest>, failing: set<nat>)
    requires requests != []
    ensures start in failing ==> Attempted(start, requests, failing) == 1
    ensures start !in failing ==> Attempted(start, requests, failing) == 1 + Attempted(start + 1, requests[1..], failing)
  {
  }

  /** Planned over the mapper's table is its five rows in order. */
  lemma PlannedOverCodeTable(patientId: string, telemetry: TelemetryMessage)
    ensures Planned(patientId, telemetry, CodeTable) ==
      Row(patientId, telemetry, CodeTable[0]) + Row(patientId, telemetry, CodeTable[1]) +
      Row(patientId, telemetry, CodeTable[2]) + Row(patientId, telemetry, CodeTable[3]) +
      Row(patientId, telemetry, CodeTable[4])
  {
  }

  // ----- Properties of the mapping -----

  /** A message from a device with no patient produces no post at all. */
  lemma UnknownDeviceIsSkipped(telemetry: TelemetryMessage)
    requires telemetry.DeviceId !in {"Device-001", "Device-002", "Device-003"}
    ensures PlannedFor(telemetry) == []
  {
  }

  /** Everything in a sequence of batches, in order. */
  function Flatten(batches: seq<seq<CreateObservationRequest>>): seq<CreateObservationRequest> {
    if batches == [] then [] else batches[0] + Flatten(batches[1..])
  }

  /** Without failures every planned observation of every message is posted,
      message after message. */
  lemma {:induction false} DrainedWithoutFailures(batches: seq<seq<CreateObservationRequest>>, start: nat, failing: set<nat>)
    requires forall k | k in failing :: k < start
    ensures Drained(batches, start, failing) == Flatten(batches)
  {
    if batches != [] {
      assert Sent(batches[0], start, failing) == batches[0];
      DrainedWithoutFailures(batches[1..], start + |batches[0]|, failing);
    }
  }

  /** A failure stays within its own message: whatever failed before, each
      batch starts with its first observation posted, and it is only cut short
      by one of its own posts throwing. */
  lemma FailureStaysWithinMessage(batch: seq<CreateObservationRequest>, start: nat, failing: set<nat>)
    ensures var sent := Sent(batch, start, failing);
      && sent <= batch
      && (batch != [] ==> |sent| >= 1 && sent[0] == batch[0])
      && (|sent| < |batch| ==> ThrowsAt(failing, start, |sent| - 1))
      && (forall k: nat | k + 1 < |sent| :: !ThrowsAt(failing, start, k))
  {
  }

  /** The drained posts never outnumber the planned observations, and when
      every message plans at least one observation, at least one post per
      message is made. */
  lemma {:induction false} DrainedIsBatchPrefixes(batches: seq<seq<CreateObservationRequest>>, start: nat, failing: set<nat>)
    ensures |Drained(batches, start, failing)| <= |Flatten(batches)|
    ensures (forall i | 0 <= i < |batches| :: batches[i] != []) ==> |Drained(batches, start, failing)| >= |batches|
  {
    if batches != [] {
      DrainedIsBatchPrefixes(batches[1..], start + |Sent(batches[0], start, failing)|, failing);
      if forall i | 0 <= i < |batches| :: batches[i] != [] {
        assert forall i | 0 <= i < |batches[1..]| :: batches[1..][i] == batches[i + 1];
      }
    }
  }

  /** Every message of the channel gets its turn: whatever failed before it,
      the first observation planned for each message is posted. */
  lemma {:induction false} EveryMessageIsPosted(batches: seq<seq<CreateObservationRequest>>, start: nat,
                                                failing: set<nat>, i: nat)
    requires i < |batches| && batches[i] != []
    ensures batches[i][0] in Drained(batches, start, failing)
  {
    DrainedStep(batches, start, failing);
    var sent := Sent(batches[0], start, failing);
    if i == 0 {
      FailureStaysWithinMessage(batches[0], start, failing);
      assert sent[0] == batches[0][0];
    } else {
      assert batches[1..][i - 1] == batches[i];
      EveryMessageIsPosted(batches[1..], start + |sent|, failing, i - 1);
    }
  }
}
