# MedEdge Gateway — a verified Dafny model of its decision cores

MedEdge Gateway carries haemodialysis-machine telemetry through these stages:

- A simulated machine produces readings on Modbus registers.
- An edge poller reads those registers and decodes them into telemetry messages.
- In the cloud, a rule engine flags clinical anomalies.
- A transformer fans each message out into coded FHIR observations and posts them to a FHIR API.
- The FHIR API maps its entities to FHIR resources and DTOs.
- A SignalR hub keeps track of which dashboard connection watches which device.
- A simulated IoT hub keeps a device registry, a TPM attestation service and a token and session service.

This project models the deterministic cores of those stages and proves properties about them. Each source file that changes state step by step is a class with `modifies` clauses. Each file of pure switches and expressions is a set of functions and lemmas.

| file | module | models |
|---|---|---|
| `common.dfy` | `Common` | nullable strings, .NET `IsNullOrEmpty`/`IsNullOrWhiteSpace`, instants as whole seconds |
| `anomaly_detector.dfy` | `AnomalyDetection` | `StatisticalAnomalyDetector.Analyze`: seven ordered threshold rules, first match wins |
| `register_map.dfy` | `RegisterMap`, `Telemetry` | `DialysisRegisterMap` addresses and ranges, the `(ushort)` cast, the edge `TelemetryMessage` |
| `modbus_polling.dfy` | `ModbusPolling` | the register decode and alarm derivation of `PollDeviceAsync`, and its connect, read and reset loop |
| `telemetry_generator.dfy` | `TelemetryGeneration` | the simulator's `TelemetryGenerator`: clamped waveforms, a wrapping 16-bit treatment clock, hypotension mode |
| `edge_pipeline.dfy` | `EdgePipeline` | how the poller's output meets the rule engine |
| `fhir_transform.dfy` | `FhirTransform` | `TelemetryToObservationMapper`: device→patient lookup, LOINC fan-out, sequential posting through `FhirApiClient` |
| `fhir_mapping.dfy` | `FhirMapping` | `FhirMappingService`: the six `Map*` methods, status and gender switches, the UCUM table |
| `telemetry_hub.dfy` | `TelemetryHubModel` | `TelemetryHub.DeviceSubscriptions`: subscribe, unsubscribe and disconnect bookkeeping |
| `iot_hub.dfy` | `IotHub` | `IotHubService`: the device registry, twin merges, direct-method dispatch, the telemetry buffer, provisioning, TPM attestation checks |
| `tpm.dfy` | `TpmSimulation` | `TpmSimulationService`: the ordered attestation checks, activation-status transitions, registration, the audit trail |
| `jwt.dfy` | `JwtAuthentication` | `JwtAuthenticationService`: error-code mapping, the session table, certificate checks and registration, the auth audit trail |

Modelling conventions:

- `DateTime` values are whole seconds (`Instant`). Every read of `DateTime.UtcNow` becomes a `now` parameter.
- `Random` draws, GUIDs, generated keys, thumbprints, tokens and the outcome of JWT signature validation are parameters. Their C# ranges become `requires` clauses where the code relies on them.
- `double` measurements are `real`. The simulator's `decimal` temperature and conductivity are integer hundredths, which is exact.
- Nullable references are `Option`. `Dictionary` and `ConcurrentDictionary` fields are `map` fields that the methods reassign.
- Reference objects that the C# stores in dictionaries and mutates (`Device`, `TpmIdentity`, `DeviceSession`) are datatype values in those maps.

Two behaviours a reader might expect of this pipeline are not what the code does; the model follows the code:

- **The poller does not clamp.** One might expect the poller to clamp decoded values into the register-map ranges. `ModbusPollingService.cs:94-115` copies the raw registers unchanged, and `ModbusPolling.Decode` states exactly that. Only the simulator's generator clamps.
- **Posting failures are isolated per snapshot, not per observation.** One might expect a failed post not to stop the remaining observations of the same snapshot. `FhirApiClient.CreateObservationAsync` rethrows (`FhirApiClient.cs:93`), and `ProcessTelemetryAsync` has no catch around its `foreach`. The first failure therefore abandons the rest of that snapshot, and `MapAndPersistAsync` catches it and moves on to the next message. `FhirTransform.FailureStaysWithinMessage` and `FhirTransform.TelemetryToObservationMapper.MapAndPersist` state this behaviour.

## Model

| member | source | states |
|---|---|---|
| AnomalyDetection.Analyze | src/Cloud/MedEdge.AiEngine/Services/StatisticalAnomalyDetector.cs:28-118 | any result is High or Critical and is stamped with the analysis time |
| AnomalyDetection.FirstFiring | src/Cloud/MedEdge.AiEngine/Services/StatisticalAnomalyDetector.cs:31-117 | returns the index of the first rule that fires and no earlier rule fires; None means no rule fires |
| AnomalyDetection.AnalyzeIsFirstFiringRule | src/Cloud/MedEdge.AiEngine/Services/StatisticalAnomalyDetector.cs:31-117 | Analyze equals the outcome of the first firing rule in the order bloodFlow, arterialPressure, venousPressure, dialysateTemperature, conductivity, pressureLow, pressureHigh, or none |
| AnomalyDetection.SeverityIsHighOrCritical | src/Cloud/MedEdge.AiEngine/Services/StatisticalAnomalyDetector.cs:35-115 | a returned severity is High or Critical; it is Critical iff one of the three flow or pressure rules fires |
| AnomalyDetection.BloodFlowRuleDominates | src/Cloud/MedEdge.AiEngine/Services/StatisticalAnomalyDetector.cs:31-42 | bloodFlow below 150 yields the Critical blood-flow result whatever else is present |
| AnomalyDetection.EmptySnapshotIsNormal | src/Cloud/MedEdge.AiEngine/Services/StatisticalAnomalyDetector.cs:28-118 | missing keys skip their rules, so empty maps give no anomaly |
| AnomalyDetection.BoundaryReadingsAreNormal | src/Cloud/MedEdge.AiEngine/Services/StatisticalAnomalyDetector.cs:16-21 | the thresholds are strict: readings exactly at 150, 80, 250, 38.5 and 13.0 or 15.0 raise nothing |
| AnomalyDetection.ConductivityRuleIff | src/Cloud/MedEdge.AiEngine/Services/StatisticalAnomalyDetector.cs:83-94 | when the four earlier rules are silent, the conductivity finding appears iff conductivity is below 13.0 or above 15.0 |
| AnomalyDetection.AlarmRulesComeLast | src/Cloud/MedEdge.AiEngine/Services/StatisticalAnomalyDetector.cs:97-115 | an alarm finding means no measurement rule fired and that flag is present and true; the high-pressure alarm also means pressureLow was not set |
| AnomalyDetection.FirstFiringAt | src/Cloud/MedEdge.AiEngine/Services/StatisticalAnomalyDetector.cs:31-117 | a rule that fires with no earlier rule firing is the one chosen |
| AnomalyDetection.FirstFiringNone | src/Cloud/MedEdge.AiEngine/Services/StatisticalAnomalyDetector.cs:117 | when no rule fires, nothing is chosen |
| RegisterMap.ToUInt16 | src/Edge/MedEdge.DeviceSimulator/Services/TelemetryGenerator.cs:29-33 | the `(ushort)` cast keeps in-range values and is congruent to its input modulo 65536 |
| RegisterMap.RangesAreWellFormed | src/Edge/MedEdge.DeviceSimulator/Models/DialysisRegisterMap.cs:18-27 | every range has min ≤ max, and the ×100 temperature and conductivity maxima fit in 16 bits |
| RegisterMap.AddressesFitPolledBlock | src/Edge/MedEdge.DeviceSimulator/Models/DialysisRegisterMap.cs:6-12 | the six measurement addresses are distinct and inside the 12-register poll; the stop flag lies outside it |
| RegisterMap.ArterialRangeStraddlesAlarmThreshold | src/Edge/MedEdge.DeviceSimulator/Models/DialysisRegisterMap.cs:20-21 | the arterial range holds values on both sides of the 80 mmHg alarm |
| RegisterMap.RegisterImage | src/Edge/MedEdge.DeviceSimulator/Models/DialysisRegisterMap.cs:6-11 | a 12-register block holding each reading at its map address |
| ModbusPolling.Decode | src/Edge/MedEdge.EdgeGateway/Services/ModbusPollingService.cs:94-121 | decoding succeeds iff the block reaches index 10; exactly six measurement and two alarm keys; values are the raw registers (÷100 for temperature and conductivity), unclamped; pressureLow iff AP < 80 and pressureHigh iff VP > 200 |
| ModbusPolling.ReadCycle | src/Edge/MedEdge.EdgeGateway/Services/ModbusPollingService.cs:90-153 | a message is queued iff the read returned a block that decodes, keeping the link and waiting the poll interval; a failed read or decode drops both connections and waits the 1 s error delay |
| ModbusPolling.Cycle | src/Edge/MedEdge.EdgeGateway/Services/ModbusPollingService.cs:72-153 | client and master stay paired; any exception nulls both and waits 5 s for a connect failure, 1 s otherwise; a message is queued only after a decodable read over a live link, followed by the poll interval |
| ModbusPolling.Iterations | src/Edge/MedEdge.EdgeGateway/Services/ModbusPollingService.cs:72 | the loop runs until the first cancellation |
| ModbusPolling.LinkStaysPaired | src/Edge/MedEdge.EdgeGateway/Services/ModbusPollingService.cs:77-87 | after any run of cycles, client and master are both null or both set |
| ModbusPolling.PollDevice | src/Edge/MedEdge.EdgeGateway/Services/ModbusPollingService.cs:64-157 | the loop performs one cycle per event up to the first cancellation and queues exactly the messages those cycles decoded |
| ModbusPolling.IterationsIsFirstCancel | src/Edge/MedEdge.EdgeGateway/Services/ModbusPollingService.cs:72 | the number of iterations is the index of the first cancelled event |
| TelemetryGeneration.Generate | src/Edge/MedEdge.DeviceSimulator/Services/TelemetryGenerator.cs:26-61 | every reading lies in its register-map range and in its draw band; the clock advances by 5 modulo 2^16; HasAlarm holds iff hypotension mode is on |
| TelemetryGeneration.HypotensionReadingIff | src/Edge/MedEdge.DeviceSimulator/Services/TelemetryGenerator.cs:30-31 | in hypotension mode AP falls below 80 iff the arterial draw is negative |
| TelemetryGeneration.ClockAfterWraps | src/Edge/MedEdge.DeviceSimulator/Services/TelemetryGenerator.cs:37 | after n generations the treatment clock is start + 5n modulo 65536 |
| TelemetryGeneration.TelemetryGenerator.GenerateTelemetry | src/Edge/MedEdge.DeviceSimulator/Services/TelemetryGenerator.cs:26-61 | returns Generate of the old state; the timer becomes the returned TreatmentTime; the mode is unchanged |
| TelemetryGeneration.TelemetryGenerator.InjectAnomalyHypotension | src/Edge/MedEdge.DeviceSimulator/Services/TelemetryGenerator.cs:63-66 | sets hypotension mode and leaves the timer alone |
| TelemetryGeneration.TelemetryGenerator.ClearAnomalies | src/Edge/MedEdge.DeviceSimulator/Services/TelemetryGenerator.cs:68-71 | clears hypotension mode and leaves the timer alone |
| TelemetryGeneration.TelemetryGenerator.Reset | src/Edge/MedEdge.DeviceSimulator/Services/TelemetryGenerator.cs:73-77 | timer 0, hypotension mode off |
| EdgePipeline.PollerNeverTriggersLowPressureAlarmRule | src/Edge/MedEdge.EdgeGateway/Services/ModbusPollingService.cs:118 | on any decoded block the arterial-pressure rule fires before the low-pressure alarm rule, so that alarm finding never appears |
| EdgePipeline.PollerHighPressureAlarmBand | src/Edge/MedEdge.EdgeGateway/Services/ModbusPollingService.cs:119 | on poller output the high-pressure alarm finding appears only for a venous register in (200, 250] |
| EdgePipeline.InRangeBlockIsNormalOrHypotension | src/Edge/MedEdge.DeviceSimulator/Models/DialysisRegisterMap.cs:18-27 | a block whose readings lie in the map's ranges is normal unless AP < 80, which yields the Critical hypotension result |
| EdgePipeline.GeneratedSnapshotFlaggedOnlyInHypotensionMode | src/Edge/MedEdge.DeviceSimulator/Services/TelemetryGenerator.cs:30-50 | a generated reading, once polled, is flagged iff hypotension mode drew AP below 80, and a flagged reading always carries HasAlarm |
| FhirTransform.TransformTelemetryToObservation | src/Cloud/MedEdge.TransformService/Services/FhirTransformService.cs:21-36 | patient id and device id are both the message's device id; value 0; the code fields as given; the message's timestamp |
| FhirTransform.ExtractPatientIdFromDevice | src/Cloud/MedEdge.TransformService/Services/FhirTransformService.cs:184-194 | a patient is found iff the device is Device-001, -002 or -003 |
| FhirTransform.PatientIdFollowsDeviceSerial | src/Cloud/MedEdge.TransformService/Services/FhirTransformService.cs:184-193 | a known device Device-00k maps to patient P00k |
| FhirTransform.CodeTableIsInjective | src/Cloud/MedEdge.TransformService/Services/FhirTransformService.cs:164-181 | the five measurement keys and their LOINC codes are pairwise distinct |
| FhirTransform.MapMeasurement | src/Cloud/MedEdge.TransformService/Services/FhirTransformService.cs:164-182 | the observation records the value the message carries under the entry's key, with the entry's LOINC code, display and unit, for the patient and sending device at the message's time |
| FhirTransform.Planned | src/Cloud/MedEdge.TransformService/Services/FhirTransformService.cs:86-154 | at most one observation per table entry, each carrying the patient, the device and the message's timestamp |
| FhirTransform.PlannedAreTableRows | src/Cloud/MedEdge.TransformService/Services/FhirTransformService.cs:86-154 | every planned observation is MapMeasurement of a table entry whose key is present |
| FhirTransform.PlannedCoverMeasurements | src/Cloud/MedEdge.TransformService/Services/FhirTransformService.cs:86-154 | every present coded key yields its observation |
| FhirTransform.PlannedEmptyIff | src/Cloud/MedEdge.TransformService/Services/FhirTransformService.cs:86-154 | no observation is built iff none of the coded keys is present |
| FhirTransform.PlannedOverCodeTable | src/Cloud/MedEdge.TransformService/Services/FhirTransformService.cs:86-154 | the observations come in the fixed order bloodFlow, arterialPressure, venousPressure, dialysateTemperature, conductivity |
| FhirTransform.UnknownDeviceIsSkipped | src/Cloud/MedEdge.TransformService/Services/FhirTransformService.cs:76-81 | an unresolved device produces no observation and so no post |
| FhirTransform.PlannedFor | src/Cloud/MedEdge.TransformService/Services/FhirTransformService.cs:73-154 | at most five observations, each for the device's resolved patient and the sending device; none iff the device has no patient or the message carries none of the five coded keys |
| FhirTransform.Attempted | src/Cloud/MedEdge.TransformService/Services/FhirTransformService.cs:157-161 | posting stops right after the first call that throws, and at least one call is made when there is something to send |
| FhirTransform.Batches | src/Cloud/MedEdge.TransformService/Services/FhirTransformService.cs:58-71 | one batch of observations per message read from the channel |
| FhirTransform.FailureStaysWithinMessage | src/Cloud/MedEdge.TransformService/Services/FhirApiClient.cs:93 | the posts of one message are a prefix of its observations that ends at the first throwing call and always includes the first observation |
| FhirTransform.DrainedWithoutFailures | src/Cloud/MedEdge.TransformService/Services/FhirTransformService.cs:58-71 | with no failing call, every observation of every message is posted in order |
| FhirTransform.DrainedIsBatchPrefixes | src/Cloud/MedEdge.TransformService/Services/FhirTransformService.cs:58-71 | the drain never posts more requests than the messages planned, and posts at least one per message when every message planned one |
| FhirTransform.EveryMessageIsPosted | src/Cloud/MedEdge.TransformService/Services/FhirTransformService.cs:58-71 | whatever failed before, the first observation planned for each message is posted, since a failed post ends only its own message |
| FhirTransform.FhirApiClient.CreateObservation | src/Cloud/MedEdge.TransformService/Services/FhirApiClient.cs:58-94 | the request is recorded and the call throws iff its position is in the fault plan |
| FhirTransform.TelemetryToObservationMapper.BuildObservations | src/Cloud/MedEdge.TransformService/Services/FhirTransformService.cs:86-154 | the list built by the chain of ifs equals Planned over the code table |
| FhirTransform.TelemetryToObservationMapper.PostAll | src/Cloud/MedEdge.TransformService/Services/FhirTransformService.cs:157-161 | posts the observations in order up to and including the first throwing call, and reports whether one threw |
| FhirTransform.TelemetryToObservationMapper.ProcessTelemetry | src/Cloud/MedEdge.TransformService/Services/FhirTransformService.cs:73-162 | posts exactly the sent prefix of the message's planned observations |
| FhirTransform.TelemetryToObservationMapper.MapAndPersist | src/Cloud/MedEdge.TransformService/Services/FhirTransformService.cs:58-71 | the posted log grows by the drained prefixes of every message in channel order |
| FhirMapping.GenderRoundTrip | src/Cloud/MedEdge.FhirApi/Services/FhirMappingService.cs:42-48 | parsing a gender's code gives that gender back |
| FhirMapping.ParseGender | src/Cloud/MedEdge.FhirApi/Services/FhirMappingService.cs:42-48 | a known gender reads back as the given string; Unknown exactly when the string is not male, female or other |
| FhirMapping.UnrecognisedGenderIsUnknown | src/Cloud/MedEdge.FhirApi/Services/FhirMappingService.cs:42-48 | a gender string maps to Unknown iff it is not male, female or other |
| FhirMapping.ParseDeviceStatus | src/Cloud/MedEdge.FhirApi/Services/FhirMappingService.cs:84-89 | only Active, Inactive or unknown results; a known status reads back as the given string; unknown exactly when the string is neither active nor inactive |
| FhirMapping.DeviceStatusRoundTrip | src/Cloud/MedEdge.FhirApi/Services/FhirMappingService.cs:84-89 | active and inactive round-trip; anything else maps to unknown; entered-in-error is never produced |
| FhirMapping.ParseObservationStatus | src/Cloud/MedEdge.FhirApi/Services/FhirMappingService.cs:122-129 | one of the four statuses; any status other than Final reads back as the given string; Final also absorbs every unrecognised string |
| FhirMapping.ObservationStatusRoundTrip | src/Cloud/MedEdge.FhirApi/Services/FhirMappingService.cs:122-129 | the four known statuses round-trip; an unrecognised status maps to Final |
| FhirMapping.GetUcumCode | src/Cloud/MedEdge.FhirApi/Services/FhirMappingService.cs:175-186 | the result is never one of the three display units mmHg, °C or bpm, and a unit is changed only if it is one of them |
| FhirMapping.UcumCodeIsIdempotent | src/Cloud/MedEdge.FhirApi/Services/FhirMappingService.cs:175-186 | the unit table changes exactly mmHg, °C and bpm, and applying it twice equals applying it once |
| FhirMapping.MapPatientEntityToFhir | src/Cloud/MedEdge.FhirApi/Services/FhirMappingService.cs:19-50 | the resource keeps the entity id and birth date, has one identifier holding the MRN and one name of the given and family names, and a known gender reads back as the entity's |
| FhirMapping.MapDeviceEntityToFhir | src/Cloud/MedEdge.FhirApi/Services/FhirMappingService.cs:64-103 | the resource keeps the entity id, manufacturer and model, has the device id then the serial as its two identifiers, and a known status reads back as the entity's |
| FhirMapping.MapObservationEntityToFhir | src/Cloud/MedEdge.FhirApi/Services/FhirMappingService.cs:117-153 | the resource keeps the entity id and time, has one coding with the entity's code and display, the entity's value and unit, and a non-Final status reads back as the entity's |
| FhirMapping.MapFhirPatientToDto | src/Cloud/MedEdge.FhirApi/Services/FhirMappingService.cs:52-62 | the DTO id is the resource id or "unknown"; with an entity every other field is the entity's, without one each is "unknown" |
| FhirMapping.MapFhirDeviceToDto | src/Cloud/MedEdge.FhirApi/Services/FhirMappingService.cs:105-115 | the DTO id is the resource id or "unknown"; with an entity every other field is the entity's, without one each is "unknown" |
| FhirMapping.MapFhirObservationToDto | src/Cloud/MedEdge.FhirApi/Services/FhirMappingService.cs:155-173 | the DTO id is the resource id or "unknown"; with an entity every other field is the entity's; without one the status is final, the value 0, the time now and the text fields "unknown" |
| FhirMapping.PatientResourceShape | src/Cloud/MedEdge.FhirApi/Services/FhirMappingService.cs:19-50 | a patient gets exactly one MRN identifier and one official name of the given and family names, and its gender code equals the entity's when that is a known code |
| FhirMapping.DeviceResourceShape | src/Cloud/MedEdge.FhirApi/Services/FhirMappingService.cs:64-103 | a device gets exactly the device-id and serial identifiers and the haemodialysis-machine SNOMED type |
| FhirMapping.ObservationResourceShape | src/Cloud/MedEdge.FhirApi/Services/FhirMappingService.cs:117-153 | an observation gets one LOINC coding with the entity's code and display, subject Patient/ and device Device/ references, and a UCUM quantity |
| FhirMapping.PatientDtoRoundTrip | src/Cloud/MedEdge.FhirApi/Services/FhirMappingService.cs:52-62 | mapping an entity to FHIR and back to a DTO keeps every field |
| FhirMapping.DeviceDtoRoundTrip | src/Cloud/MedEdge.FhirApi/Services/FhirMappingService.cs:105-115 | mapping an entity to FHIR and back to a DTO keeps every field |
| FhirMapping.ObservationDtoRoundTrip | src/Cloud/MedEdge.FhirApi/Services/FhirMappingService.cs:155-173 | mapping an entity to FHIR and back to a DTO keeps every field |
| FhirMapping.MissingEntityDefaults | src/Cloud/MedEdge.FhirApi/Services/FhirMappingService.cs:52-173 | without an entity the DTOs carry "unknown" strings, status "final", value 0 and the current time |
| TelemetryHubModel.Subscribe | src/Cloud/MedEdge.FhirApi/Hubs/TelemetryHub.cs:56-61 | adds the connection to the device's set, touches no other device, and keeps every set non-empty |
| TelemetryHubModel.Unsubscribe | src/Cloud/MedEdge.FhirApi/Hubs/TelemetryHub.cs:78-85 | removes the connection from the device's set only, and drops a key whose set empties |
| TelemetryHubModel.Disconnect | src/Cloud/MedEdge.FhirApi/Hubs/TelemetryHub.cs:29-39 | the connection leaves every set, other memberships stay, and no set is left empty |
| TelemetryHubModel.SubscribeIsIdempotent | src/Cloud/MedEdge.FhirApi/Hubs/TelemetryHub.cs:61-66 | subscribing twice equals subscribing once |
| TelemetryHubModel.UnsubscribeUndoesSubscribe | src/Cloud/MedEdge.FhirApi/Hubs/TelemetryHub.cs:73-89 | unsubscribing a fresh subscription restores the table |
| TelemetryHubModel.DisconnectIsUnsubscribeEverywhere | src/Cloud/MedEdge.FhirApi/Hubs/TelemetryHub.cs:24-42 | disconnecting after an unsubscribe equals disconnecting directly |
| TelemetryHubModel.DisconnectExceptStep | src/Cloud/MedEdge.FhirApi/Hubs/TelemetryHub.cs:29-39 | one loop step removes the connection from one device's set and drops the key when the set empties |
| TelemetryHubModel.DisconnectExceptDone | src/Cloud/MedEdge.FhirApi/Hubs/TelemetryHub.cs:29-39 | before the loop the table is untouched; after it the table is Disconnect |
| TelemetryHubModel.TelemetryHub.SubscribeToDevice | src/Cloud/MedEdge.FhirApi/Hubs/TelemetryHub.cs:48-67 | a null or blank id only sends the error; otherwise the table becomes Subscribe, and the group add and confirmation happen only for a new subscriber |
| TelemetryHubModel.TelemetryHub.UnsubscribeFromDevice | src/Cloud/MedEdge.FhirApi/Hubs/TelemetryHub.cs:73-89 | a blank id changes nothing; otherwise the table becomes Unsubscribe and the group is left |
| TelemetryHubModel.TelemetryHub.OnDisconnected | src/Cloud/MedEdge.FhirApi/Hubs/TelemetryHub.cs:24-42 | the loop over the keys leaves the table equal to Disconnect |
| TelemetryHubModel.TelemetryHub.GetActiveDevices | src/Cloud/MedEdge.FhirApi/Hubs/TelemetryHub.cs:110-113 | exactly the devices with at least one subscriber |
| TelemetryHubModel.TelemetryHub.GetSubscriberCount | src/Cloud/MedEdge.FhirApi/Hubs/TelemetryHub.cs:118-121 | the size of the device's set, 0 when absent; positive iff the key is present |
| TelemetryHubModel.TelemetryHub.BroadcastRecipients | src/Cloud/MedEdge.FhirApi/Hubs/TelemetryHub.cs:94-105 | every subscriber of the device is in its broadcast group |
| IotHub.Merge | src/Cloud/MedEdge.IotHubSimulator/Services/IotHubService.cs:156-159 | the merged keys are the union; given keys are overwritten and the rest are kept |
| IotHub.MergeIsIdempotent | src/Cloud/MedEdge.IotHubSimulator/Services/IotHubService.cs:156-159 | merging the same properties twice equals merging once |
| IotHub.MergeIntoEmptyIsCopy | src/Cloud/MedEdge.IotHubSimulator/Services/IotHubService.cs:156-159 | merging into an empty bag copies the updates |
| IotHub.MergeStep | src/Cloud/MedEdge.IotHubSimulator/Services/IotHubService.cs:156-159 | one foreach step writes one more key of the merge |
| IotHub.SampleRegistry | src/Cloud/MedEdge.IotHubSimulator/Services/IotHubService.cs:26-104 | two devices keyed by their ids: the legacy one Disconnected, the modern one Connected |
| IotHub.SampleRegistryHasOneConnected | src/Cloud/MedEdge.IotHubSimulator/Services/IotHubService.cs:26-104 | the seeded registry counts two devices, one of them connected |
| IotHub.ConnectedCount | src/Cloud/MedEdge.IotHubSimulator/Services/IotHubService.cs:275 | the connected count never exceeds the number of devices |
| IotHub.ConnectingNeverLowersCount | src/Cloud/MedEdge.IotHubSimulator/Services/IotHubService.cs:250-256 | an update that does not disconnect a device never lowers the connected count; connecting a disconnected device raises it by one |
| IotHub.DirectMethodOutcome | src/Cloud/MedEdge.IotHubSimulator/Services/IotHubService.cs:186-242 | 404 iff the device is unknown; 200 iff EmergencyStop, Reboot or GetDiagnostics; 202 iff FirmwareUpdate; 501 iff any other name; the correlation id is echoed; a FirmwareUpdate payload without "version" throws KeyNotFound |
| IotHub.FirmwareUpdateEchoesVersion | src/Cloud/MedEdge.IotHubSimulator/Services/IotHubService.cs:229-234 | an accepted firmware update echoes the requested version, or null without a payload |
| IotHub.SuccessNeedsKnownDeviceAndMethod | src/Cloud/MedEdge.IotHubSimulator/Services/IotHubService.cs:186-242 | a 2xx answer comes iff the device is known, the method is implemented, and a firmware payload, if given, has a version |
| IotHub.ForDevice | src/Cloud/MedEdge.IotHubSimulator/Services/IotHubService.cs:264-265 | keeps exactly the buffered messages of the device |
| IotHub.InsertNewestFirst | src/Cloud/MedEdge.IotHubSimulator/Services/IotHubService.cs:266 | inserting into a newest-first list keeps it newest-first and adds exactly the message |
| IotHub.SortNewestFirst | src/Cloud/MedEdge.IotHubSimulator/Services/IotHubService.cs:266 | the result is newest-first and a permutation of its input |
| IotHub.Take | src/Cloud/MedEdge.IotHubSimulator/Services/IotHubService.cs:267 | a prefix of length count clamped to [0, length] |
| IotHub.PrefixKeepsOrder | src/Cloud/MedEdge.IotHubSimulator/Services/IotHubService.cs:266-267 | a prefix of a newest-first list is newest-first and a sub-multiset |
| IotHub.PrefixHoldsTheNewest | src/Cloud/MedEdge.IotHubSimulator/Services/IotHubService.cs:266-267 | every kept message is at least as new as every dropped one |
| IotHub.NewestPrefix | src/Cloud/MedEdge.IotHubSimulator/Services/IotHubService.cs:262-268 | taking from the sorted buffer gives a newest-first sub-multiset, the whole of it when count covers it |
| IotHub.PrefixOutranksTheRest | src/Cloud/MedEdge.IotHubSimulator/Services/IotHubService.cs:266-267 | in a newest-first list, every message of a prefix is at least as new as every message left out of it |
| IotHub.DroppedAreOlder | src/Cloud/MedEdge.IotHubSimulator/Services/IotHubService.cs:266-267 | after sorting and taking, no message left out is newer than a message kept |
| IotHub.RecentIsNewestOfDevice | src/Cloud/MedEdge.IotHubSimulator/Services/IotHubService.cs:262-268 | for one device's messages, the answer has min(count, matches) of them, newest first, drawn from them, all of them when count covers them, and none left out is newer than one kept |
| IotHub.NewDevice | src/Cloud/MedEdge.IotHubSimulator/Services/IotHubService.cs:114-121 | a new device is Enabled and Disconnected with the given id, key and template, no tags, a twin with no properties and a fresh ETag, and the current time as its last activity |
| IotHub.VersionOf | src/Cloud/MedEdge.IotHubSimulator/Services/IotHubService.cs:229-234 | the firmware answer echoes the payload's version; a missing payload gives null; a payload without a version key makes the call throw |
| IotHub.ProvisionedId | src/Cloud/MedEdge.IotHubSimulator/Services/IotHubService.cs:286 | the id is "braun-", the registration id, "-" and the first eight characters of the GUID |
| IotHub.ProvisionedIdIsInjective | src/Cloud/MedEdge.IotHubSimulator/Services/IotHubService.cs:284 | distinct registration ids or GUID prefixes give distinct provisioned device ids |
| IotHub.AttestationExpires | src/Cloud/MedEdge.IotHubSimulator/Services/IotHubService.cs:325-327 | a valid attestation was valid at every earlier time and is invalid from its ValidTo on |
| IotHub.IotHubService.constructor | src/Cloud/MedEdge.IotHubSimulator/Services/IotHubService.cs:18-104 | starts with the two sample devices and an empty buffer |
| IotHub.IotHubService.GetDevice | src/Cloud/MedEdge.IotHubSimulator/Services/IotHubService.cs:110 | found iff registered, and the device carries the id it is keyed by |
| IotHub.IotHubService.CreateDevice | src/Cloud/MedEdge.IotHubSimulator/Services/IotHubService.cs:112-127 | a fresh id adds an Enabled, Disconnected device whose template defaults to generic-medical-device; an existing id leaves the registry unchanged |
| IotHub.IotHubService.DeleteDevice | src/Cloud/MedEdge.IotHubSimulator/Services/IotHubService.cs:129-133 | true iff the id was present; afterwards only that id is gone |
| IotHub.IotHubService.UpdateDeviceConnection | src/Cloud/MedEdge.IotHubSimulator/Services/IotHubService.cs:135-143 | a known device gets the new state and activity time; nothing else changes |
| IotHub.IotHubService.GetTwin | src/Cloud/MedEdge.IotHubSimulator/Services/IotHubService.cs:147-150 | the device's twin iff it is registered |
| IotHub.IotHubService.UpdateTwinDesiredProperties | src/Cloud/MedEdge.IotHubSimulator/Services/IotHubService.cs:152-166 | desired becomes the merge with the update, reported is untouched, the ETag is replaced; an unknown device gives null and no change |
| IotHub.IotHubService.UpdateTwinReportedProperties | src/Cloud/MedEdge.IotHubSimulator/Services/IotHubService.cs:168-182 | reported becomes the merge with the update, desired is untouched, the ETag is replaced; an unknown device gives null and no change |
| IotHub.IotHubService.InvokeDirectMethodAsync | src/Cloud/MedEdge.IotHubSimulator/Services/IotHubService.cs:186-242 | the correlation id is echoed, and the answer is 404 iff the device is not registered |
| IotHub.IotHubService.IngestTelemetry | src/Cloud/MedEdge.IotHubSimulator/Services/IotHubService.cs:246-260 | the buffer grows by the message; a known Disconnected device becomes Connected and others keep their state; the connected count never drops |
| IotHub.IotHubService.GetRecentTelemetry | src/Cloud/MedEdge.IotHubSimulator/Services/IotHubService.cs:262-268 | min(count, matches) messages, all of the device, newest first, drawn from the buffer, all of them when count covers them, and none of the device's messages left out is newer than one returned |
| IotHub.IotHubService.GetTelemetryStats | src/Cloud/MedEdge.IotHubSimulator/Services/IotHubService.cs:270-278 | totals equal the buffer length and registry size, and the connected count is the number of registered devices whose state is Connected |
| IotHub.IotHubService.ProvisionDevice | src/Cloud/MedEdge.IotHubSimulator/Services/IotHubService.cs:282-317 | answers Assigned on the simulated hub with the braun- id; registers a new device with the payload as tags and the generic-medical template default; an existing id is left alone |
| IotHub.IotHubService.ValidateTpmAttestation | src/Cloud/MedEdge.IotHubSimulator/Services/IotHubService.cs:321-337 | valid iff both keys are non-empty and ValidTo is unset or later; a valid check on a known device tags it, and throws ArgumentOutOfRange iff its EK is shorter than 20 |
| TpmSimulation.ValidateAttestation | src/Cloud/MedEdge.IotHubSimulator/Services/TpmSimulationService.cs:160-204 | valid iff no EK mismatch, a nonce and at least four PCRs; EK mismatch is reported first, then the missing nonce; only a valid result carries measurements |
| TpmSimulation.FailureReasonIsFirstFailedCheck | src/Cloud/MedEdge.IotHubSimulator/Services/TpmSimulationService.cs:163-191 | the PCR reason appears iff the first two checks pass and the PCR check fails |
| TpmSimulation.ValidatedMeasurementsAreBootPcrs | src/Cloud/MedEdge.IotHubSimulator/Services/TpmSimulationService.cs:193-203 | a valid result measures exactly PCR_0, PCR_1, PCR_2 and PCR_7 |
| TpmSimulation.NewAttestedIdentity | src/Cloud/MedEdge.IotHubSimulator/Services/TpmSimulationService.cs:124-131 | a first attestation creates a Pending identity that takes the request's EK when one is given |
| TpmSimulation.FirstAttestationNeverMismatches | src/Cloud/MedEdge.IotHubSimulator/Services/TpmSimulationService.cs:124-170 | a device's first attestation can never fail on an EK mismatch |
| TpmSimulation.Attested | src/Cloud/MedEdge.IotHubSimulator/Services/TpmSimulationService.cs:136-148 | status Activated iff valid and Failed otherwise; LastAttestation changes only on success; nothing else changes |
| TpmSimulation.AuditEntriesAreNewestFirst | src/Cloud/MedEdge.IotHubSimulator/Services/TpmSimulationService.cs:292-304 | audit entries are six hours apart, newest first |
| TpmSimulation.AuditEntryEvents | src/Cloud/MedEdge.IotHubSimulator/Services/TpmSimulationService.cs:292-304 | entry i is Attestation when i%3=0, else Key Rotation when i is even, else Integrity Check; all succeed |
| TpmSimulation.RegisteredIdentity | src/Cloud/MedEdge.IotHubSimulator/Services/TpmSimulationService.cs:268-279 | the identity carries the device id, manufacturer and generated keys, is Pending and was last attested now |
| TpmSimulation.AuditEntryAt | src/Cloud/MedEdge.IotHubSimulator/Services/TpmSimulationService.cs:295-303 | entry i is for the device, succeeded, and is stamped 6·i hours before now |
| TpmSimulation.TpmSimulationService.constructor | src/Cloud/MedEdge.IotHubSimulator/Services/TpmSimulationService.cs:28-62 | the two sample identities are Activated, last attested 7 days and 2 hours ago |
| TpmSimulation.TpmSimulationService.GetTpmIdentity | src/Cloud/MedEdge.IotHubSimulator/Services/TpmSimulationService.cs:256-259 | found iff present |
| TpmSimulation.TpmSimulationService.PerformAttestation | src/Cloud/MedEdge.IotHubSimulator/Services/TpmSimulationService.cs:117-158 | an unknown device gets a Pending identity first; a known one keeps its EK; the status becomes Activated or Failed by the validation, whose IsValid is returned; Revoked is never set |
| TpmSimulation.TpmSimulationService.RegisterDevice | src/Cloud/MedEdge.IotHubSimulator/Services/TpmSimulationService.cs:266-284 | returns a Pending identity for the device and never overwrites an existing one |
| TpmSimulation.TpmSimulationService.GetAuditTrail | src/Cloud/MedEdge.IotHubSimulator/Services/TpmSimulationService.cs:288-307 | max(0, min(count, 10)) entries, entry i as specified, strictly newest first |
| JwtAuthentication.TokenErrorCode | src/Cloud/MedEdge.IotHubSimulator/Services/JwtAuthenticationService.cs:146-172 | TOKEN_EXPIRED iff expired, INVALID_SIGNATURE iff a bad signature, VALIDATION_ERROR iff any other failure |
| JwtAuthentication.TokenError | src/Cloud/MedEdge.IotHubSimulator/Services/JwtAuthenticationService.cs:146-172 | "Token expired" for an expired token, "Invalid signature" for a bad signature, and the exception's own message for any other failure |
| JwtAuthentication.TokenResult | src/Cloud/MedEdge.IotHubSimulator/Services/JwtAuthenticationService.cs:100-173 | valid iff the token was accepted, carrying its device and expiry; otherwise an error and its code |
| JwtAuthentication.ErrorCodesAreDistinct | src/Cloud/MedEdge.IotHubSimulator/Services/JwtAuthenticationService.cs:146-172 | two failures share a code iff they are the same kind |
| JwtAuthentication.AuthAuditEntryShape | src/Cloud/MedEdge.IotHubSimulator/Services/JwtAuthenticationService.cs:313-325 | entries are newest first; SAS Token for even i; Failed iff i > 15 |
| JwtAuthentication.AuthAuditEntryAt | src/Cloud/MedEdge.IotHubSimulator/Services/JwtAuthenticationService.cs:313-323 | entry i is for the device, from the SDK user agent, stamped 2·i hours before now, and Failed exactly when its details say the token expired |
| JwtAuthentication.InsertLatestFirst | src/Cloud/MedEdge.IotHubSimulator/Services/JwtAuthenticationService.cs:299 | inserting keeps the list latest-first and adds exactly the session |
| JwtAuthentication.InsertKeepsSessionsDistinct | src/Cloud/MedEdge.IotHubSimulator/Services/JwtAuthenticationService.cs:290-300 | inserting a session with a new id keeps session ids distinct |
| JwtAuthentication.JwtAuthenticationService.constructor | src/Cloud/MedEdge.IotHubSimulator/Services/JwtAuthenticationService.cs:25-32 | no sessions, bound to the TPM service |
| JwtAuthentication.JwtAuthenticationService.ValidateToken | src/Cloud/MedEdge.IotHubSimulator/Services/JwtAuthenticationService.cs:100-173 | returns TokenResult; records a session only for an accepted token with a non-empty device_id, and never overwrites an existing session id |
| JwtAuthentication.JwtAuthenticationService.ValidateCertificate | src/Cloud/MedEdge.IotHubSimulator/Services/JwtAuthenticationService.cs:181-238 | without BEGIN CERTIFICATE: INVALID_FORMAT and no checks; otherwise valid iff a TPM identity exists, DeviceMatch and TpmBound equal that, and failure is TPM_MISMATCH |
| JwtAuthentication.JwtAuthenticationService.RegisterDeviceWithCertificate | src/Cloud/MedEdge.IotHubSimulator/Services/JwtAuthenticationService.cs:246-286 | succeeds iff the certificate validates, passing on its error and code otherwise; on success, the hub, SAS token, time and tags |
| JwtAuthentication.JwtAuthenticationService.GetActiveSessions | src/Cloud/MedEdge.IotHubSimulator/Services/JwtAuthenticationService.cs:290-300 | exactly the unexpired sessions of the device (or of all devices), each once, latest first |
| JwtAuthentication.JwtAuthenticationService.RevokeSession | src/Cloud/MedEdge.IotHubSimulator/Services/JwtAuthenticationService.cs:302-305 | true iff the session was present; afterwards only it is gone |
| JwtAuthentication.JwtAuthenticationService.GetAuthAuditTrail | src/Cloud/MedEdge.IotHubSimulator/Services/JwtAuthenticationService.cs:309-328 | max(0, min(count, 20)) entries, entry i as specified, strictly newest first |

## Left out

- I/O and hosting: logging, MQTT publishing and subscribing, HTTP calls, Entity Framework persistence, ASP.NET and SignalR wiring, the dashboard. They are plumbing around the modelled logic. The FHIR sink is a client object whose failures come from a fault plan.
- The Polly retry and circuit-breaker policies around the HTTP and MQTT clients. Their behaviour lives in a library outside the repository.
- Concurrency: `ConcurrentDictionary`, `ConcurrentQueue`, channels, the static non-thread-safe hub dictionary and the concurrent pollers. Each operation is modelled as one sequential step.
- Floating point: measurements are exact reals, so IEEE rounding of `raw / 100.0` and of the `double`→`decimal` conversion of observation values is not modelled, nor is that conversion's overflow.
- Cryptography and identifiers: JWT signing and validation, SAS token generation (`GenerateDeviceSasToken`, `GenerateServiceToken`, `GenerateJwtToken`), RSA and X.509 generation (`GenerateAttestationKey`, `GenerateCaCertificate`), `RandomNumberGenerator` and `Guid.NewGuid`. Their outputs are parameters.
- Display strings: the formatted finding texts (`F1`, `F2`) and `BirthDate.ToString("yyyy-MM-dd")`. The model keeps the finding kind and its value.
- `IotHubService.GetAllDevices` and `TpmSimulationService.GetAllIdentities`: they only enumerate a dictionary, and that enumeration order is unspecified.
- Aliasing: the C# returns the very `Device`, `TpmIdentity` and session objects it stores, so a caller could mutate the registry through them. The model stores values.
- TelemetryHubModel.TelemetryHub.OnDisconnected: SignalR's own removal of the connection from its groups is not modelled. Group membership is left as it was.
- TelemetryHubModel.TelemetryHub.GetSubscriberCount: a null device id (a C# `ArgumentNullException`) is not modelled. The id is a plain string.
- ModbusPolling.PollDevice: cancellation is checked once per iteration at the loop head. Cancellation that interrupts `Task.Delay` or a read mid-iteration, and the delays themselves, are not modelled.
- TpmSimulation.TpmSimulationService.GetAuditTrail: the C# reads `DateTime.UtcNow` once per entry. The model reads the clock once, so entries are exactly six hours apart. The final `OrderByDescending` leaves this already-descending list unchanged.
- JwtAuthentication.JwtAuthenticationService.GetAuthAuditTrail: reads the clock once, as in `GetAuditTrail`.
- IotHub.IotHubService.GetRecentTelemetry: does not state that `OrderByDescending` is stable among messages with equal timestamps.
- IotHub.IotHubService.ProvisionDevice: the GUID is a 36-character parameter, as `Guid.ToString()` always gives. The request's `DeviceKey` is ignored, as in the C#.
- IotHub.IotHubService.InvokeDirectMethodAsync: this member states the 404 and correlation facts only. The full status table is stated on `IotHub.DirectMethodOutcome`, which it returns.
- The device twin's top-level `Desired` and `Reported` dictionaries: no modelled operation touches them. The merges act on `Properties`.
- `ModbusServerService` and `AiEngineBackgroundService`: a TCP listener and an idle loop with no decision logic.
