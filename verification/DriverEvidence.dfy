// What the driver's status variable proves about the current boot, and when settings may be written.
module DriverEvidence {
  import opened Prelude
  import opened Hardware
  import opened ConfigCodec

  // The status code is the low half of the raw 64-bit value.
  function StatusCode(raw: u64): u32 { raw % 0x1_0000_0000 }

  predicate ProvesDriverLoaded(code: u32) {
    code in {20, 30, 40, 50, 60, 70, 80, 90, 100, 110, 120, 130, 135, 140, 150}
  }

  predicate ProvesCurrentBootExecution(code: u32) {
    code in {20, 30, 40, 50, 60, 70, 80, 90, 100, 110, 120, 130, 135, 140, 150,
             159, 160, 161, 162, 163, 164, 165, 166, 170, 180, 190, 200}
  }

  datatype StatusObservation = Present(bytes: Bytes) | Missing | Unavailable

  datatype BootState = ObservedThisBoot | NotObservedThisBoot | Indeterminate
  datatype BootReason = StatusObserved | VariableMissing | VariableMalformed | VariableUnavailable | ValueUnrecognized
  datatype ControlEvidence = CurrentBootDxe | ExpandedTuringAperture | NotObserved | Unclear
  datatype SavedState = Enabled | Disabled | Invalid | Unreadable

  // What was read of the configuration variable: valid or invalid bytes, or nothing.
  datatype SavedObservation = ValidConfig(configured: bool, raw: Bytes) | InvalidConfig(raw: Bytes) | UnreadableConfig

  datatype Assessment = Assessment(
    driverStatus: Option<u64>,
    bootState: BootState,
    bootReason: BootReason,
    evidence: ControlEvidence,
    settingsAvailable: bool,
    savedState: SavedState,
    configToken: Option<Digest>)

  const LEGACY_APERTURE: u64 := 268_435_456

  predicate ExpandedTuring(devices: seq<GpuDevice>) {
    exists gpu :: gpu in devices && IsTuringId(gpu.deviceId) && gpu.currentBarSize > LEGACY_APERTURE
  }

  function BootOf(status: StatusObservation): (Option<u64>, BootState, BootReason) {
    match status
    case Present(bytes) =>
      if |bytes| == 8 then
        var raw := U64At(bytes, 0);
        if ProvesCurrentBootExecution(StatusCode(raw)) then (Some(raw), ObservedThisBoot, StatusObserved)
        else (Some(raw), Indeterminate, ValueUnrecognized)
      else (Some(200), Indeterminate, VariableMalformed)
    case Missing => (Some(10), NotObservedThisBoot, VariableMissing)
    case Unavailable => (None, Indeterminate, VariableUnavailable)
  }

  function EvidenceOf(state: BootState, devices: seq<GpuDevice>): ControlEvidence {
    if state == ObservedThisBoot then CurrentBootDxe
    else if ExpandedTuring(devices) then ExpandedTuringAperture
    else if state == NotObservedThisBoot then NotObserved
    else Unclear
  }

  function Assess(status: StatusObservation, saved: SavedObservation, devices: seq<GpuDevice>): Assessment {
    var boot := BootOf(status);
    var evidence := EvidenceOf(boot.1, devices);
    var (savedState, token) :=
      match saved
      case ValidConfig(configured, raw) => (if configured then Enabled else Disabled, Some(Sha256(raw)))
      case InvalidConfig(raw) => (Invalid, Some(Sha256(raw)))
      case UnreadableConfig => (Unreadable, None);
    Assessment(boot.0, boot.1, boot.2, evidence, evidence.CurrentBootDxe? || evidence.ExpandedTuringAperture?, savedState, token)
  }

  predicate DriverIsObserved(status: StatusObservation) {
    Assess(status, ValidConfig(false, []), []).bootState == ObservedThisBoot
  }

  // The write gate.
  predicate ControlProven(status: StatusObservation, devices: seq<GpuDevice>) {
    DriverIsObserved(status) || ExpandedTuring(devices)
  }

  // The flag the client is shown and the gate a write meets agree on every observation, whatever
  // was read of the configuration. Both hold exactly when the status variable is eight bytes with
  // a current-boot code, or a Turing GPU already shows more than the legacy aperture.
  lemma FlagAgreesWithGate(status: StatusObservation, saved: SavedObservation, devices: seq<GpuDevice>)
    ensures Assess(status, saved, devices).settingsAvailable <==> ControlProven(status, devices)
    ensures ControlProven(status, devices) <==>
              || (status.Present? && |status.bytes| == 8 && ProvesCurrentBootExecution(StatusCode(U64At(status.bytes, 0))))
              || exists gpu :: gpu in devices && IsTuringId(gpu.deviceId) && gpu.currentBarSize > 256 * 1024 * 1024
  {
  }

  // The codes of a driver that loaded are the tens from 20 to 150 and 135; the codes that prove it ran
  // at all add its failures.
  lemma StatusCodes(code: u32)
    ensures ProvesDriverLoaded(code) <==> code == 135 || (20 <= code <= 150 && code % 10 == 0)
    ensures ProvesCurrentBootExecution(code) <==>
              ProvesDriverLoaded(code) || 159 <= code <= 166 || code == 170 || code == 180 || code == 190 || code == 200
  {
  }

  // What the client is shown: a status exactly if the variable could be looked at, with the code for a
  // malformed or missing one filled in; "not observed" only for a variable that is missing; and a token
  // of exactly the bytes that were read, in the state they were found in.
  lemma AssessmentMeans(status: StatusObservation, saved: SavedObservation, devices: seq<GpuDevice>)
    ensures var a := Assess(status, saved, devices);
            && (a.driverStatus.None? <==> status.Unavailable?)
            && (status.Present? && |status.bytes| == 8 ==> a.driverStatus == Some(FromLe(status.bytes)))
            && (status.Present? && |status.bytes| != 8 ==> a.driverStatus == Some(200))
            && (status.Missing? ==> a.driverStatus == Some(10))
            && (a.bootState == NotObservedThisBoot <==> status.Missing?)
            && (a.bootState == ObservedThisBoot <==>
                  status.Present? && |status.bytes| == 8 && ProvesCurrentBootExecution(StatusCode(FromLe(status.bytes))))
            && (a.evidence == CurrentBootDxe <==> a.bootState == ObservedThisBoot)
            && (a.evidence == ExpandedTuringAperture <==> a.bootState != ObservedThisBoot && ExpandedTuring(devices))
            && (a.evidence == NotObserved <==> status.Missing? && !ExpandedTuring(devices))
            && (a.configToken.None? <==> saved.UnreadableConfig?)
            && (!saved.UnreadableConfig? ==> a.configToken == Some(Sha256(saved.raw)))
            && (a.savedState == Enabled <==> saved.ValidConfig? && saved.configured)
            && (a.savedState == Disabled <==> saved.ValidConfig? && !saved.configured)
            && (a.savedState == Invalid <==> saved.InvalidConfig?)
  {
    if status.Present? && |status.bytes| == 8 {
      assert status.bytes[0..8] == status.bytes;
    }
  }

  // A status written as eight little-endian bytes opens the gate whenever it proves the driver
  // loaded; the missing-driver code never does by itself.
  lemma LoadedDriverOpensGate(raw: u64, devices: seq<GpuDevice>)
    ensures ProvesDriverLoaded(StatusCode(raw)) ==> ControlProven(Present(Le(raw, 8)), devices)
    ensures StatusCode(raw) == 10 ==> (ControlProven(Present(Le(raw, 8)), devices) <==> ExpandedTuring(devices))
  {
    Capacities();
    LeRoundTrip(raw, 8);
    assert Le(raw, 8)[0..8] == Le(raw, 8);
  }
}
