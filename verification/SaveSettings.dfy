// Saving BAR settings under expected tokens: the write gate, the write with its read-back, and what
// sequences of saves cannot lose.
module SaveSettings {
  import opened Prelude
  import opened Hardware
  import opened BarRules
  import opened CoreConfig
  import opened ConfigCodec
  import opened DraftWire
  import opened HardwareRecords
  import opened Recommendation
  import opened TopologyToken
  import opened DriverEvidence

  // The backend's copy of what it last read or wrote.
  datatype Backend = Backend(
    devices: seq<GpuDevice>,
    config: Option<Config>,
    configVariablePresent: Option<bool>,
    firmwareAccessible: bool)

  // The backend copy next to the configuration variable; None is no variable.
  datatype State = State(backend: Backend, variable: Option<Bytes>)

  function Contents(variable: Option<Bytes>): Bytes { if variable.None? then [] else variable.value }

  datatype Request = Request(draft: ConfigDraft, expectedTopology: Digest, expectedConfig: Digest)

  // What the surroundings answer during one save: each failing call, the devices found, and what
  // the variable holds after the write, whether the firmware reported success or not.
  datatype Surroundings = Surroundings(
    status: Option<StatusObservation>,
    devices: Option<seq<GpuDevice>>,
    currentReadable: bool,
    writeOk: bool,
    afterWrite: Option<Bytes>,
    verifyReadable: bool,
    receiptReadable: bool)

  datatype SaveError =
    | FirmwareCallFailed | EnumerationFailed
    | ControlNotObserved | StaleTopology | StaleConfiguration
    | FirmwareUnavailable | Rejected | Unencodable | ReadbackMismatch

  datatype Written = Written(bytesWritten: nat, variablePresent: bool, draft: ConfigDraft)

  datatype Receipt = Receipt(save: Written, topologyToken: Digest, configToken: Digest)

  predicate TokensMatch(request: Request, status: StatusObservation, devices: seq<GpuDevice>, current: Bytes) {
    && ControlProven(status, devices)
    && request.expectedTopology == Token(devices)
    && request.expectedConfig == Sha256(current)
  }

  // ---------------------------------------------------------------- the commands on values

  function SavedForDevices(draft: ConfigDraft, devices: seq<GpuDevice>, around: Surroundings, registry: Registry, s: State)
    : (Result<Written, SaveError>, State)
  {
    if !s.backend.firmwareAccessible then (Err(FirmwareUnavailable), s)
    else if !Accepted(draft, devices, registry) then (Err(Rejected), s)
    else
      var config := FullConfig(draft, devices, registry);
      var encoded := Encoded(config);
      var landed := s.(variable := around.afterWrite);
      if encoded.Err? then (Err(Unencodable), s)
      else if !around.writeOk || !around.verifyReadable then (Err(FirmwareCallFailed), landed)
      else if Contents(around.afterWrite) != encoded.value then (Err(ReadbackMismatch), landed)
      else (Ok(Written(|encoded.value|, encoded.value != [], draft)),
            State(Backend(devices, Some(config), Some(encoded.value != []), true), around.afterWrite))
  }

  function Saved(request: Request, around: Surroundings, registry: Registry, s: State): (Result<Receipt, SaveError>, State) {
    if around.status.None? then (Err(FirmwareCallFailed), s)
    else if around.devices.None? then (Err(EnumerationFailed), s)
    else if !around.currentReadable then (Err(FirmwareCallFailed), s)
    else
      var status, devices := around.status.value, around.devices.value;
      if !ControlProven(status, devices) then (Err(ControlNotObserved), s)
      else if request.expectedTopology != Token(devices) then (Err(StaleTopology), s)
      else if request.expectedConfig != Sha256(Contents(s.variable)) then (Err(StaleConfiguration), s)
      else
        var (save, after) := SavedForDevices(request.draft, devices, around, registry, s);
        if save.Err? then (Err(save.error), after)
        else if !around.receiptReadable then (Err(FirmwareCallFailed), after)
        else (Ok(Receipt(save.value, Token(devices), Sha256(Contents(after.variable)))), after)
  }

  // ---------------------------------------------------------------- the commands on the mutable state

  class Firmware {
    var configVariable: Option<Bytes>

    constructor ()
      ensures configVariable == None
    {
      configVariable := None;
    }
  }

  class AppState {
    var devices: seq<GpuDevice>
    var config: Option<Config>
    var configVariablePresent: Option<bool>
    var firmwareAccessible: bool

    constructor ()
      ensures Value() == Backend([], None, None, false)
    {
      devices, config, configVariablePresent, firmwareAccessible := [], None, None, false;
    }

    function Value(): Backend
      reads this
    {
      Backend(devices, config, configVariablePresent, firmwareAccessible)
    }

    method SaveConfigForDevices(draft: ConfigDraft, found: seq<GpuDevice>, around: Surroundings, registry: Registry,
                                firmware: Firmware)
      returns (r: Result<Written, SaveError>)
      modifies this, firmware
      ensures (r, State(Value(), firmware.configVariable))
           == SavedForDevices(draft, found, around, registry, old(State(Value(), firmware.configVariable)))
    {
      if !firmwareAccessible { return Err(FirmwareUnavailable); }
      var built := ConfigFromDraft(draft, found, registry);
      if built.Err? { return Err(Rejected); }
      var encoded := Encode(built.value);
      if encoded.Err? { return Err(Unencodable); }
      firmware.configVariable := around.afterWrite;
      if !around.writeOk { return Err(FirmwareCallFailed); }
      if !around.verifyReadable { return Err(FirmwareCallFailed); }
      var verified := Contents(firmware.configVariable);
      if verified != encoded.value { return Err(ReadbackMismatch); }
      devices := found;
      config := Some(built.value);
      configVariablePresent := Some(encoded.value != []);
      return Ok(Written(|encoded.value|, encoded.value != [], draft));
    }

    method SaveBarSettings(request: Request, around: Surroundings, registry: Registry, firmware: Firmware)
      returns (r: Result<Receipt, SaveError>)
      modifies this, firmware
      ensures (r, State(Value(), firmware.configVariable))
           == Saved(request, around, registry, old(State(Value(), firmware.configVariable)))
    {
      if around.status.None? { return Err(FirmwareCallFailed); }
      if around.devices.None? { return Err(EnumerationFailed); }
      if !around.currentReadable { return Err(FirmwareCallFailed); }
      var found := around.devices.value;
      var current := Contents(firmware.configVariable);
      if !ControlProven(around.status.value, found) { return Err(ControlNotObserved); }
      var topology := ComputeTopologyToken(found);
      if request.expectedTopology != topology { return Err(StaleTopology); }
      if request.expectedConfig != Sha256(current) { return Err(StaleConfiguration); }
      var save := SaveConfigForDevices(request.draft, found, around, registry, firmware);
      if save.Err? { return Err(save.error); }
      if !around.receiptReadable { return Err(FirmwareCallFailed); }
      return Ok(Receipt(save.value, topology, Sha256(Contents(firmware.configVariable))));
    }
  }

  // ---------------------------------------------------------------- one save

  lemma AcceptedIsEncodable(draft: ConfigDraft, devices: seq<GpuDevice>, registry: Registry)
    requires Accepted(draft, devices, registry)
    ensures CountProblem(FullConfig(draft, devices, registry)).None?
  {
    var gpus := Selected(WireConfig(draft), registry, devices);
    SelectorPerRule(draft.rules);
    OneBridgePerBusUsed(gpus);
  }

  lemma SavedIsFull(draft: ConfigDraft, devices: seq<GpuDevice>, around: Surroundings, registry: Registry, s: State)
    requires SavedForDevices(draft, devices, around, registry, s).0.Ok?
    ensures SavedForDevices(draft, devices, around, registry, s).1.backend.config == Some(FullConfig(draft, devices, registry))
  {
  }

  // The errors a save is turned away with before it writes.
  predicate TurnedAway(r: Result<Receipt, SaveError>) {
    && r.Err?
    && match r.error
       case ControlNotObserved | StaleTopology | StaleConfiguration | FirmwareUnavailable | Rejected => true
       case FirmwareCallFailed | EnumerationFailed | Unencodable | ReadbackMismatch => false
  }

  lemma WriteIsReached(draft: ConfigDraft, devices: seq<GpuDevice>, around: Surroundings, registry: Registry, s: State)
    ensures var (r, after) := SavedForDevices(draft, devices, around, registry, s);
            if s.backend.firmwareAccessible && Accepted(draft, devices, registry)
            then r.Ok? || r.error == FirmwareCallFailed || r.error == ReadbackMismatch
            else r.Err? && (r.error == FirmwareUnavailable || r.error == Rejected) && after == s
  {
    if Accepted(draft, devices, registry) {
      AcceptedIsEncodable(draft, devices, registry);
    }
  }

  // A save its preconditions turn away changes nothing, and the preconditions are exactly these.
  lemma RejectedSaveChangesNothing(request: Request, around: Surroundings, registry: Registry, s: State)
    requires around.status.Some? && around.devices.Some? && around.currentReadable
    ensures var (r, after) := Saved(request, around, registry, s);
            && (TurnedAway(r) ==> after == s)
            && (TurnedAway(r) <==>
                !(&& TokensMatch(request, around.status.value, around.devices.value, Contents(s.variable))
                  && s.backend.firmwareAccessible
                  && Accepted(request.draft, around.devices.value, registry)))
  {
    WriteIsReached(request.draft, around.devices.value, around, registry, s);
  }

  // An accepted save leaves the variable equal to the encoded draft even if the firmware is not
  // trusted to store what it is given; the backend copy encodes to the same bytes and is what a
  // reader decodes, and the returned token is the variable's.
  lemma AcceptedSaveIsStored(request: Request, around: Surroundings, registry: Registry, s: State)
    requires Saved(request, around, registry, s).0.Ok?
    ensures var (r, after) := Saved(request, around, registry, s);
            var config := FullConfig(request.draft, around.devices.value, registry);
            && Ok(Contents(after.variable)) == Encoded(config)
            && after.backend.config == Some(config)
            && Decoded(Contents(after.variable)) == Ok(Stored(config))
            && r.value.configToken == Sha256(Contents(after.variable))
            && r.value.topologyToken == request.expectedTopology == Token(after.backend.devices)
            && r.value.save == Written(|Contents(after.variable)|, DriverConfigured(config), request.draft)
            && after.backend == Backend(around.devices.value, Some(config), Some(DriverConfigured(config)), true)
  {
    var config := FullConfig(request.draft, around.devices.value, registry);
    AcceptedIsEncodable(request.draft, around.devices.value, registry);
    ReadBack(config);
    LayoutIsNotEmpty(config);
  }

  // Why a save is turned away: the first of its preconditions that does not hold.
  lemma WhyTurnedAway(request: Request, around: Surroundings, registry: Registry, s: State)
    requires around.status.Some? && around.devices.Some? && around.currentReadable
    ensures var r := Saved(request, around, registry, s).0;
            var proven := ControlProven(around.status.value, around.devices.value);
            var sameTopology := request.expectedTopology == Token(around.devices.value);
            var sameConfig := request.expectedConfig == Sha256(Contents(s.variable));
            var accepted := Accepted(request.draft, around.devices.value, registry);
            && (r == Err(ControlNotObserved) <==> !proven)
            && (r == Err(StaleTopology) <==> proven && !sameTopology)
            && (r == Err(StaleConfiguration) <==> proven && sameTopology && !sameConfig)
            && (r == Err(FirmwareUnavailable) <==> proven && sameTopology && sameConfig && !s.backend.firmwareAccessible)
            && (r == Err(Rejected) <==> proven && sameTopology && sameConfig && s.backend.firmwareAccessible && !accepted)
  {
    WriteIsReached(request.draft, around.devices.value, around, registry, s);
  }

  // A save that fails otherwise did so at one of its calls or at the read-back. Unless only its receipt
  // could not be read, the backend copy is the one from before; the variable is what the write left.
  lemma FailedSaveKeepsCopy(request: Request, around: Surroundings, registry: Registry, s: State)
    requires around.status.Some? && around.devices.Some? && around.currentReadable
    requires TokensMatch(request, around.status.value, around.devices.value, Contents(s.variable))
    requires s.backend.firmwareAccessible && Accepted(request.draft, around.devices.value, registry)
    ensures var (r, after) := Saved(request, around, registry, s);
            var config := FullConfig(request.draft, around.devices.value, registry);
            var landed := around.writeOk && around.verifyReadable && Ok(Contents(around.afterWrite)) == Encoded(config);
            && after.variable == around.afterWrite
            && (r.Ok? <==> landed && around.receiptReadable)
            && (r == Err(ReadbackMismatch) <==> around.writeOk && around.verifyReadable && !landed)
            && (r.Err? ==> r.error == ReadbackMismatch || r.error == FirmwareCallFailed)
            && after.backend == if landed then Backend(around.devices.value, Some(config), Some(DriverConfigured(config)), true) else s.backend
  {
    AcceptedIsEncodable(request.draft, around.devices.value, registry);
    LayoutIsNotEmpty(FullConfig(request.draft, around.devices.value, registry));
  }

  lemma LayoutIsNotEmpty(config: Config)
    requires CountProblem(config).None?
    ensures |Layout(config)| > 0
  {
  }

  // With a firmware that stores what it is given and calls that work, a save goes through exactly
  // when the gate, the tokens and the draft are in order.
  lemma HonestFirmwareSaves(request: Request, around: Surroundings, registry: Registry, s: State)
    requires around.status.Some? && around.devices.Some? && around.currentReadable
    requires around.writeOk && around.verifyReadable && around.receiptReadable
    requires Accepted(request.draft, around.devices.value, registry) ==>
               Ok(Contents(around.afterWrite)) == Encoded(FullConfig(request.draft, around.devices.value, registry))
    ensures Saved(request, around, registry, s).0.Ok? <==>
              && TokensMatch(request, around.status.value, around.devices.value, Contents(s.variable))
              && s.backend.firmwareAccessible
              && Accepted(request.draft, around.devices.value, registry)
  {
    RejectedSaveChangesNothing(request, around, registry, s);
  }

  // ---------------------------------------------------------------- sequences of saves

  // Besides saves, the backend refreshes its copy and anything else may write the variable.
  datatype Step =
    | Save(request: Request, around: Surroundings)
    | Refresh(devices: seq<GpuDevice>, readable: bool)
    | Outside(variable: Option<Bytes>)

  function Next(step: Step, registry: Registry, s: State): State {
    match step
    case Save(request, around) => Saved(request, around, registry, s).1
    case Refresh(devices, readable) =>
      var decoded := Decoded(Contents(s.variable));
      if readable
      then s.(backend := Backend(devices, if decoded.Ok? then Some(decoded.value) else None, Some(s.variable.Some?), true))
      else s.(backend := Backend(devices, None, None, false))
    case Outside(variable) => s.(variable := variable)
  }

  // A refresh takes over the devices and, where the variable can be read, what it decodes to, whether it
  // is there, and that the firmware is accessible; otherwise none of that. The variable stays.
  lemma RefreshTakesOver(devices: seq<GpuDevice>, readable: bool, registry: Registry, s: State)
    ensures var after := Next(Refresh(devices, readable), registry, s);
            && after.variable == s.variable && after.backend.devices == devices
            && (after.backend.firmwareAccessible <==> readable)
            && (after.backend.configVariablePresent == if readable then Some(s.variable.Some?) else None)
            && (after.backend.config.Some? <==> readable && Decoded(Contents(s.variable)).Ok?)
            && (after.backend.config.Some? ==> Ok(after.backend.config.value) == Decoded(Contents(s.variable)))
  {
  }

  predicate Accepts(step: Step, registry: Registry, s: State) {
    step.Save? && Saved(step.request, step.around, registry, s).0.Ok?
  }

  function After(steps: seq<Step>, registry: Registry, s: State): State {
    if steps == [] then s else After(steps[1..], registry, Next(steps[0], registry, s))
  }

  // Two accepted saves that carry the same expected configuration token found the same bytes.
  lemma SameTokenSameBytes(a: Step, s: State, b: Step, t: State, registry: Registry)
    requires Accepts(a, registry, s) && Accepts(b, registry, t)
    ensures a.request.expectedConfig == b.request.expectedConfig <==> Contents(s.variable) == Contents(t.variable)
  {
  }

  // A step that leaves the stored bytes as they are.
  predicate Keeps(step: Step, registry: Registry, s: State) {
    Contents(Next(step, registry, s).variable) == Contents(s.variable)
  }

  predicate AllKeep(steps: seq<Step>, registry: Registry, s: State) {
    steps == [] || (Keeps(steps[0], registry, s) && AllKeep(steps[1..], registry, Next(steps[0], registry, s)))
  }

  lemma {:induction false} BytesAreKept(steps: seq<Step>, registry: Registry, s: State)
    requires AllKeep(steps, registry, s)
    ensures Contents(After(steps, registry, s).variable) == Contents(s.variable)
  {
    if steps != [] {
      BytesAreKept(steps[1..], registry, Next(steps[0], registry, s));
    }
  }

  // No lost update: once a save has stored something new, a second save still carrying the old
  // token is turned away, for as long as nothing puts the old bytes back; and the token handed out
  // with the first save is the one that is accepted.
  lemma {:induction false} NoLostUpdate(first: Step, between: seq<Step>, second: Step, registry: Registry, s: State)
    requires Accepts(first, registry, s) && second.Save?
    requires AllKeep(between, registry, Next(first, registry, s))
    ensures var later := After(between, registry, Next(first, registry, s));
            Accepts(second, registry, later) ==>
              && second.request.expectedConfig == Saved(first.request, first.around, registry, s).0.value.configToken
              && (second.request.expectedConfig == first.request.expectedConfig ==> Keeps(first, registry, s))
  {
    BytesAreKept(between, registry, Next(first, registry, s));
  }

  // ---------------------------------------------------------------- the backend copy

  // The copy is what the variable decodes to, or what was encoded into it.
  predicate CopyIsCurrent(s: State) {
    s.backend.config.Some? ==>
      Decoded(Contents(s.variable)) == Ok(s.backend.config.value) || Encoded(s.backend.config.value) == Ok(Contents(s.variable))
  }

  // The steps that can part the copy from the variable: an outside write, and a write that was not
  // seen to land.
  predicate Parts(step: Step, registry: Registry, s: State) {
    match step
    case Save(request, around) =>
      Next(step, registry, s).variable != s.variable && !(around.writeOk && around.verifyReadable && ReadBackMatches(request, around, registry))
    case Refresh(_, _) => false
    case Outside(variable) => true
  }

  predicate ReadBackMatches(request: Request, around: Surroundings, registry: Registry) {
    around.devices.Some? && Ok(Contents(around.afterWrite)) == Encoded(FullConfig(request.draft, around.devices.value, registry))
  }

  predicate NothingParts(steps: seq<Step>, registry: Registry, s: State) {
    steps == [] || (!Parts(steps[0], registry, s) && NothingParts(steps[1..], registry, Next(steps[0], registry, s)))
  }

  lemma WriteKeepsCopyCurrent(draft: ConfigDraft, devices: seq<GpuDevice>, around: Surroundings, registry: Registry, s: State)
    requires CopyIsCurrent(s)
    ensures var (r, after) := SavedForDevices(draft, devices, around, registry, s);
            || CopyIsCurrent(after)
            || (after.variable != s.variable && !(around.writeOk && around.verifyReadable &&
                  Ok(Contents(around.afterWrite)) == Encoded(FullConfig(draft, devices, registry))))
  {
  }

  lemma StepKeepsCopyCurrent(step: Step, registry: Registry, s: State)
    requires CopyIsCurrent(s) && !Parts(step, registry, s)
    ensures CopyIsCurrent(Next(step, registry, s))
  {
    if step.Save? && step.around.devices.Some? {
      WriteKeepsCopyCurrent(step.request.draft, step.around.devices.value, step.around, registry, s);
    }
  }

  // The backend copy follows the variable through every run without such a step.
  lemma {:induction false} CopyStaysCurrent(steps: seq<Step>, registry: Registry, s: State)
    requires CopyIsCurrent(s) && NothingParts(steps, registry, s)
    ensures CopyIsCurrent(After(steps, registry, s))
  {
    if steps != [] {
      StepKeepsCopyCurrent(steps[0], registry, s);
      CopyStaysCurrent(steps[1..], registry, Next(steps[0], registry, s));
    }
  }
}
