/** The canonical event types. Identifiers are strings; timestamps are nanoseconds since the Unix epoch. */
module EventModel {
  import opened Bytes
  import opened Wrappers

  type i16 = x: int | -0x8000 <= x < 0x8000

  const I16_MIN: i16 := -0x8000

  datatype TimestampingMethod =
    | HardwareEventCapture | FirmwareTimerRead | AdapterReceiveTime | ManualEntry | ReplayRecorded

  datatype SourceAttestation = RuntimeDiscovered | OperatorAsserted

  datatype SyncState = Locked | Holdover | FreeRun | Unsynchronized | Unknown

  datatype SensorData =
    | LoopTransponder(rssiDbm: Option<i16>, pulseCount: Option<nat>)
    | BeamBreak
    | Manual(operatorId: Option<string>)

  datatype Detection = Detection(
    detectionId: string,
    detectorId: string,
    timingPointId: string,
    subjectId: Option<string>,
    detectedAtNs: u64,
    detectedAtUncertaintyNs: Option<u64>,
    receivedAtNs: Option<u64>,
    timestampingMethod: TimestampingMethod,
    timebaseId: string,
    sourceAttestation: SourceAttestation,
    sequenceNumber: u64,
    sensor: SensorData)

  /** A crossing without its random id: everything that is a function of the detections. */
  datatype CrossingEvent = CrossingEvent(
    timingPointId: string,
    subjectId: Option<string>,
    crossedAtNs: u64,
    crossedAtUncertaintyNs: Option<u64>,
    timebaseId: string,
    timestampingMethod: TimestampingMethod,
    sourceAttestation: SourceAttestation,
    detectionIds: seq<string>)

  datatype DetectorHealthStatus = Healthy | Degraded(why: string) | Failed(why: string)

  datatype OtkEvent =
    | DetectionEvent(detection: Detection)
    | DetectorHealthEvent(detectorId: string, reportedAtNs: u64, status: DetectorHealthStatus, message: Option<string>)
    | TimebaseStatusEvent(timebaseId: string, observedAtNs: u64, syncState: SyncState, uncertaintyNs: Option<u64>,
                          attestation: SourceAttestation)
    | AdapterMetadataEvent(adapterDetectorId: string, adapterTimingPointId: string, adapterTimebaseId: string,
                           adapterAttestation: SourceAttestation, declaredAtNs: u64)
    | CrossingRecord(crossing: CrossingEvent)
}
