// The external-boot preview: a machine with boot media, the diagnostic reports read from them, and a
// clock; and the screen shown for it.
module ExternalBoot {
  import opened Prelude

  datatype Medium = Usb(root: string) | Esp
  datatype Stage = Diagnostic | Loader
  datatype Problem = NotFat | ForeignBootFile

  datatype PciSlot = PciSlot(segment: nat, bus: nat, device: nat, fn: nat)
  datatype Receipt = Receipt(target: PciSlot, sizeBytes: nat)
  datatype LoaderPlan = LoaderPlan(target: PciSlot, sizeBytes: nat)

  datatype MediumState = MediumState(
    stage: Option<Stage>,
    stageWritten: Option<nat>,
    restartedSinceStage: bool,
    report: bool,
    plan: Option<LoaderPlan>,
    receipt: Option<Receipt>,
    lastError: bool)

  datatype Drive = Drive(root: string, isFat: bool, usable: bool, problem: Option<Problem>, state: Option<MediumState>)

  datatype Install = Install(
    state: MediumState,
    diagnosticEntry: bool,
    loaderEntry: bool,
    loaderFirst: bool,
    nextScheduled: Option<Stage>)

  datatype Status = Status(
    uefi: bool,
    elevated: bool,
    secureBoot: Option<bool>,
    imagesSigned: bool,
    certificateEnrolled: Option<bool>,
    bitLockerOn: bool,
    espFound: bool,
    install: Option<Install>,
    usbDrives: seq<Drive>,
    bootTime: nat)

  datatype Size = Size(bytes: nat, error: bool)
  datatype Candidate = Candidate(slot: PciSlot, refused: bool, sizes: seq<Size>)
  datatype Report = Report(physical: bool, candidates: seq<Candidate>)

  datatype BootError =
    | MediumUnavailable | NoEsp | SecureBootOn | ForeignFile | NotFatDrive | NoReport | NotPhysical | PlanRefused | NoReceipt
    | BitLockerSuspensionRequired

  // ---------------------------------------------------------------- routes and screens

  datatype Route = Route(installed: bool, medium: Medium, state: MediumState)

  datatype Screen =
    | Loading | LoadFailed | Blocked | Choose | DiagnosticReady | DiagnosticMissing | PickGpu
    | LoaderReady | LoaderMissing | ResultScreen | Installed

  predicate SecureBootReady(status: Status) {
    status.secureBoot == Some(true) && status.imagesSigned && status.certificateEnrolled == Some(true)
  }

  function FirstStaged(drives: seq<Drive>): Option<Drive> {
    if drives == [] then None
    else if drives[0].state.Some? && drives[0].state.value.stage.Some? then Some(drives[0])
    else FirstStaged(drives[1..])
  }

  // An installation goes before any drive; of the drives the first with a stage.
  function ActiveRoute(status: Status): Option<Route> {
    if status.install.Some? && status.install.value.state.stage.Some? then Some(Route(true, Esp, status.install.value.state))
    else
      var drive := FirstStaged(status.usbDrives);
      if drive.Some? && drive.value.state.Some? then Some(Route(false, Usb(drive.value.root), drive.value.state.value)) else None
  }

  predicate IsBlocked(status: Status) {
    !status.uefi || !status.elevated || (status.secureBoot == Some(true) && !SecureBootReady(status)) || !status.espFound
  }

  datatype BlockReason = NeedsUefi | NeedsAdmin | NeedsCertificate | NeedsSecureBootOff | NeedsEsp

  // Why nothing can be written, each reason once; none exactly when the machine is not blocked.
  method BlockReasons(status: Status) returns (reasons: seq<BlockReason>)
    ensures reasons == [] <==> !IsBlocked(status)
    ensures NeedsUefi in reasons <==> !status.uefi
    ensures NeedsAdmin in reasons <==> !status.elevated
    ensures NeedsEsp in reasons <==> !status.espFound
    ensures NeedsCertificate in reasons <==> status.secureBoot == Some(true) && status.imagesSigned && status.certificateEnrolled != Some(true)
    ensures NeedsSecureBootOff in reasons <==> status.secureBoot == Some(true) && !status.imagesSigned
    ensures forall i, j :: 0 <= i < j < |reasons| ==> reasons[i] != reasons[j]
  {
    reasons := [];
    if !status.uefi { reasons := reasons + [NeedsUefi]; }
    if !status.elevated { reasons := reasons + [NeedsAdmin]; }
    if status.secureBoot == Some(true) && !SecureBootReady(status) {
      reasons := reasons + [if status.imagesSigned then NeedsCertificate else NeedsSecureBootOff];
    }
    if !status.espFound { reasons := reasons + [NeedsEsp]; }
  }

  function ScreenOf(status: Option<Status>, loadFailed: bool): Screen {
    if status.None? then if loadFailed then LoadFailed else Loading
    else if !status.value.uefi || !status.value.elevated then Blocked
    else
      var active := ActiveRoute(status.value);
      if active.None? then if IsBlocked(status.value) then Blocked else Choose
      else if active.value.installed && status.value.install.Some? && status.value.install.value.loaderFirst then Installed
      else if active.value.state.stage == Some(Diagnostic) then
        if active.value.state.report then PickGpu
        else if active.value.state.restartedSinceStage then DiagnosticMissing else DiagnosticReady
      else if active.value.state.receipt.Some? then ResultScreen
      else if active.value.state.restartedSinceStage then LoaderMissing else LoaderReady
  }

  // ---------------------------------------------------------------- the preview on values

  datatype Preview = Preview(machine: Status, reports: map<Medium, Report>, clock: nat)

  function Tick(clock: nat, now: nat): nat { if now > clock + 1 then now else clock + 1 }

  function DriveAt(drives: seq<Drive>, root: string): Option<nat> {
    if drives == [] then None
    else if drives[0].root == root then Some(0)
    else
      var rest := DriveAt(drives[1..], root);
      if rest.None? then None else Some(rest.value + 1)
  }

  // What is on a medium: an error where it cannot be read, nothing where nothing was written.
  function StateOf(machine: Status, medium: Medium): Result<Option<MediumState>, BootError> {
    match medium
    case Usb(root) =>
      var at := DriveAt(machine.usbDrives, root);
      DriveAtFinds(machine.usbDrives, root);
      if at.None? then Err(MediumUnavailable) else Ok(machine.usbDrives[at.value].state)
    case Esp =>
      if !machine.espFound then Err(NoEsp)
      else Ok(if machine.install.Some? then Some(machine.install.value.state) else None)
  }

  lemma {:induction false} DriveAtFinds(drives: seq<Drive>, root: string)
    ensures var at := DriveAt(drives, root);
            if at.Some? then at.value < |drives| && drives[at.value].root == root && forall i :: 0 <= i < at.value ==> drives[i].root != root
            else forall i :: 0 <= i < |drives| ==> drives[i].root != root
  {
    if drives != [] && drives[0].root != root {
      DriveAtFinds(drives[1..], root);
      assert forall i :: 0 < i < |drives| ==> drives[i] == drives[1..][i - 1];
    }
  }

  predicate IsFirstAt(drives: seq<Drive>, root: string, i: int) {
    0 <= i < |drives| && drives[i].root == root && forall j :: 0 <= j < i ==> drives[j].root != root
  }

  function WriteProblem(machine: Status, medium: Medium): Option<BootError> {
    if machine.secureBoot == Some(true) && !SecureBootReady(machine) then Some(SecureBootOn)
    else if StateOf(machine, medium).Err? then Some(StateOf(machine, medium).error)
    else if medium.Esp? then None
    else
      DriveAtFinds(machine.usbDrives, medium.root);
      var drive := machine.usbDrives[DriveAt(machine.usbDrives, medium.root).value];
      if drive.problem == Some(ForeignBootFile) then Some(ForeignFile)
      else if !drive.usable then Some(NotFatDrive)
      else None
  }

  // Puts a state on a medium that can be read; an installation keeps the entries it had.
  function WithState(machine: Status, medium: Medium, state: Option<MediumState>): Status {
    match medium
    case Usb(root) =>
      var at := DriveAt(machine.usbDrives, root);
      DriveAtFinds(machine.usbDrives, root);
      if at.None? then machine
      else machine.(usbDrives := machine.usbDrives[at.value := machine.usbDrives[at.value].(state := state)])
    case Esp =>
      if state.None? then machine.(install := None)
      else
        var stage := state.value.stage;
        var before := machine.install;
        machine.(install := Some(Install(
          state.value,
          stage == Some(Diagnostic) || (before.Some? && before.value.diagnosticEntry),
          stage == Some(Loader) || (before.Some? && before.value.loaderEntry),
          before.Some? && before.value.loaderFirst,
          stage)))
  }

  function PreparedDiagnostic(p: Preview, medium: Medium, now: nat): (Result<(), BootError>, Preview) {
    var problem := WriteProblem(p.machine, medium);
    if problem.Some? then (Err(problem.value), p)
    else
      var clock := Tick(p.clock, now);
      (Ok(()), Preview(WithState(p.machine, medium, Some(MediumState(Some(Diagnostic), Some(clock), false, false, None, None, false))),
                       p.reports - {medium}, clock))
  }

  function ReportOf(p: Preview, medium: Medium): Result<Report, BootError> {
    var state := StateOf(p.machine, medium);
    if state.Err? then Err(state.error)
    else if state.value.None? || !state.value.value.report || medium !in p.reports then Err(NoReport)
    else Ok(p.reports[medium])
  }

  function CandidateFor(candidates: seq<Candidate>, target: PciSlot): Option<Candidate> {
    if candidates == [] then None
    else if candidates[0].slot == target then Some(candidates[0])
    else CandidateFor(candidates[1..], target)
  }

  function SizeFor(sizes: seq<Size>, bytes: nat): Option<Size> {
    if sizes == [] then None else if sizes[0].bytes == bytes then Some(sizes[0]) else SizeFor(sizes[1..], bytes)
  }

  // The report offers this size for this GPU without any objection.
  predicate Offers(report: Report, target: PciSlot, bytes: nat) {
    var candidate := CandidateFor(report.candidates, target);
    && candidate.Some? && !candidate.value.refused
    && SizeFor(candidate.value.sizes, bytes).Some? && !SizeFor(candidate.value.sizes, bytes).value.error
  }

  function WrittenLoader(p: Preview, medium: Medium, target: PciSlot, bytes: nat, now: nat): (Result<(), BootError>, Preview) {
    var problem := WriteProblem(p.machine, medium);
    if problem.Some? then (Err(problem.value), p)
    else
      var report := ReportOf(p, medium);
      if report.Err? then (Err(report.error), p)
      else if !report.value.physical then (Err(NotPhysical), p)
      else if !Offers(report.value, target, bytes) then (Err(PlanRefused), p)
      else
        var clock := Tick(p.clock, now);
        (Ok(()), p.(machine := WithState(p.machine, medium,
                                         Some(MediumState(Some(Loader), Some(clock), false, true, Some(LoaderPlan(target, bytes)), None, false))),
                    clock := clock))
  }

  function MadePermanent(p: Preview): (Result<(), BootError>, Preview) {
    var install := p.machine.install;
    if install.None? || install.value.state.stage != Some(Loader) || install.value.state.receipt.None? then (Err(NoReceipt), p)
    else (Ok(()), p.(machine := p.machine.(install := Some(install.value.(loaderFirst := true, diagnosticEntry := false)))))
  }

  function Removed(p: Preview, medium: Medium): (Result<(), BootError>, Preview) {
    var state := StateOf(p.machine, medium);
    if state.Err? then (Err(state.error), p)
    else (Ok(()), p.(machine := WithState(p.machine, medium, None), reports := p.reports - {medium}))
  }

  // Every medium sees that Windows started again.
  function Restarted(state: MediumState, bootTime: nat): MediumState {
    if state.stageWritten.None? then state else state.(restartedSinceStage := bootTime > state.stageWritten.value)
  }

  function RestartedDrives(drives: seq<Drive>, bootTime: nat): seq<Drive> {
    if drives == [] then []
    else
      [if drives[0].state.None? then drives[0] else drives[0].(state := Some(Restarted(drives[0].state.value, bootTime)))]
      + RestartedDrives(drives[1..], bootTime)
  }

  function Booted(machine: Status, bootTime: nat): Status {
    machine.(
      bootTime := bootTime,
      install := if machine.install.None? then None
                 else Some(machine.install.value.(state := Restarted(machine.install.value.state, bootTime))),
      usbDrives := RestartedDrives(machine.usbDrives, bootTime))
  }

  // What the booted stage leaves behind: a report, a receipt, or the loader's failure.
  function StageRan(state: MediumState, loaderFails: bool): MediumState {
    if state.stage == Some(Diagnostic) then state.(report := true, lastError := false)
    else if state.plan.None? then state
    else if loaderFails then state.(receipt := None, lastError := true)
    else state.(receipt := Some(Receipt(state.plan.value.target, state.plan.value.sizeBytes)), lastError := false)
  }

  // Replaces the state of a route's medium, leaving an installation's entries alone.
  function Replaced(machine: Status, medium: Medium, state: MediumState): Status {
    if medium.Usb? then WithState(machine, medium, Some(state))
    else if machine.install.None? then machine
    else machine.(install := Some(machine.install.value.(state := state)))
  }

  function RestartedMachine(p: Preview, suspend: bool, firmwareSetup: bool, loaderFails: bool, found: Report, now: nat)
    : (Result<(), BootError>, Preview)
  {
    if p.machine.bitLockerOn && !suspend then (Err(BitLockerSuspensionRequired), p)
    else
      var clock := Tick(p.clock, now);
      var up := Booted(p.machine, clock);
      if firmwareSetup then (Ok(()), p.(machine := up.(certificateEnrolled := Some(true)), clock := clock))
      else
        var ready := if up.install.None? then up else up.(install := Some(up.install.value.(nextScheduled := None)));
        var active := ActiveRoute(ready);
        if active.None? then (Ok(()), p.(machine := ready, clock := clock))
        else
          var state := StageRan(active.value.state, loaderFails);
          var reports := if active.value.state.stage == Some(Diagnostic) then p.reports[active.value.medium := found] else p.reports;
          (Ok(()), Preview(Replaced(ready, active.value.medium, state), reports, clock))
  }

  // ---------------------------------------------------------------- the preview as it runs

  class PreviewBridge {
    var machine: Status
    var reports: map<Medium, Report>
    var clock: nat
    const loaderFails: bool

    constructor (machine: Status, clock: nat, loaderFails: bool)
      ensures Value() == Preview(machine, map[], clock) && this.loaderFails == loaderFails
    {
      this.machine, reports, this.clock, this.loaderFails := machine, map[], clock, loaderFails;
    }

    function Value(): Preview
      reads this
    {
      Preview(machine, reports, clock)
    }

    method Advance(now: nat)
      modifies this`clock
      ensures clock == Tick(old(clock), now)
    {
      clock := clock + 1;
      if now > clock { clock := now; }
    }

    method PrepareDiagnostic(medium: Medium, now: nat) returns (r: Result<(), BootError>)
      modifies this
      ensures (r, Value()) == PreparedDiagnostic(old(Value()), medium, now)
    {
      var problem := WriteProblem(machine, medium);
      if problem.Some? { return Err(problem.value); }
      reports := reports - {medium};
      Advance(now);
      machine := WithState(machine, medium, Some(MediumState(Some(Diagnostic), Some(clock), false, false, None, None, false)));
      return Ok(());
    }

    method WriteLoader(medium: Medium, target: PciSlot, bytes: nat, now: nat) returns (r: Result<(), BootError>)
      modifies this
      ensures (r, Value()) == WrittenLoader(old(Value()), medium, target, bytes, now)
    {
      var problem := WriteProblem(machine, medium);
      if problem.Some? { return Err(problem.value); }
      var report := ReportOf(Value(), medium);
      if report.Err? { return Err(report.error); }
      if !report.value.physical { return Err(NotPhysical); }
      var candidate := CandidateFor(report.value.candidates, target);
      if candidate.None? { return Err(PlanRefused); }
      var size := SizeFor(candidate.value.sizes, bytes);
      if candidate.value.refused || size.None? || size.value.error { return Err(PlanRefused); }
      Advance(now);
      machine := WithState(machine, medium, Some(MediumState(Some(Loader), Some(clock), false, true, Some(LoaderPlan(target, bytes)), None, false)));
      return Ok(());
    }

    method MakePermanent() returns (r: Result<(), BootError>)
      modifies this
      ensures (r, Value()) == MadePermanent(old(Value()))
    {
      if machine.install.None? { return Err(NoReceipt); }
      var install := machine.install.value;
      if install.state.stage != Some(Loader) || install.state.receipt.None? { return Err(NoReceipt); }
      install := install.(loaderFirst := true);
      install := install.(diagnosticEntry := false);
      machine := machine.(install := Some(install));
      return Ok(());
    }

    method Remove(medium: Medium) returns (r: Result<(), BootError>)
      modifies this
      ensures (r, Value()) == Removed(old(Value()), medium)
    {
      var state := StateOf(machine, medium);
      if state.Err? { return Err(state.error); }
      reports := reports - {medium};
      machine := WithState(machine, medium, None);
      return Ok(());
    }

    // The certificate goes to the first drive with that root, and only onto a FAT file system; whether
    // the drive can boot, or what else is on it, does not matter.
    method SaveCertificate(root: string) returns (r: Result<(), BootError>)
      ensures r.Ok? <==> exists i :: IsFirstAt(machine.usbDrives, root, i) && machine.usbDrives[i].isFat
      ensures r == Err(MediumUnavailable) <==> forall i :: 0 <= i < |machine.usbDrives| ==> machine.usbDrives[i].root != root
      ensures r.Ok? || r == Err(MediumUnavailable) || r == Err(NotFatDrive)
    {
      var at := DriveAt(machine.usbDrives, root);
      DriveAtFinds(machine.usbDrives, root);
      if at.None? { return Err(MediumUnavailable); }
      assert IsFirstAt(machine.usbDrives, root, at.value);
      if !machine.usbDrives[at.value].isFat { return Err(NotFatDrive); }
      return Ok(());
    }

    method Restart(suspend: bool, firmwareSetup: bool, found: Report, now: nat) returns (r: Result<(), BootError>)
      modifies this
      ensures (r, Value()) == RestartedMachine(old(Value()), suspend, firmwareSetup, loaderFails, found, now)
    {
      if machine.bitLockerOn && !suspend { return Err(BitLockerSuspensionRequired); }
      Advance(now);
      machine := Booted(machine, clock);
      if firmwareSetup {
        machine := machine.(certificateEnrolled := Some(true));
        return Ok(());
      }
      if machine.install.Some? { machine := machine.(install := Some(machine.install.value.(nextScheduled := None))); }
      var active := ActiveRoute(machine);
      if active.None? { return Ok(()); }
      if active.value.state.stage == Some(Diagnostic) {
        reports := reports[active.value.medium := found];
      }
      machine := Replaced(machine, active.value.medium, StageRan(active.value.state, loaderFails));
      return Ok(());
    }
  }

  // ---------------------------------------------------------------- what every run keeps

  // What is on a medium, whether or not it can be read just now.
  function On(machine: Status, medium: Medium): Option<MediumState> {
    match medium
    case Usb(root) =>
      var at := DriveAt(machine.usbDrives, root);
      DriveAtFinds(machine.usbDrives, root);
      if at.None? then None else machine.usbDrives[at.value].state
    case Esp => if machine.install.Some? then Some(machine.install.value.state) else None
  }

  predicate DistinctRoots(drives: seq<Drive>) {
    forall i, j :: 0 <= i < j < |drives| ==> drives[i].root != drives[j].root
  }

  // The promises about one medium.
  predicate StateSound(p: Preview, medium: Medium, state: MediumState) {
    && state.stage.Some? && state.stageWritten.Some? && state.stageWritten.value <= p.clock
    && (state.restartedSinceStage <==> p.machine.bootTime > state.stageWritten.value)
    && (state.report <==> medium in p.reports)
    && (state.plan.Some? <==> state.stage == Some(Loader))
    && (state.plan.Some? ==>
          medium in p.reports && p.reports[medium].physical
          && Offers(p.reports[medium], state.plan.value.target, state.plan.value.sizeBytes))
    && (state.receipt.Some? ==>
          state.plan.Some? && state.restartedSinceStage
          && state.receipt.value == Receipt(state.plan.value.target, state.plan.value.sizeBytes))
  }

  predicate MediumSound(p: Preview, medium: Medium) {
    if On(p.machine, medium).None? then medium !in p.reports else StateSound(p, medium, On(p.machine, medium).value)
  }

  ghost predicate Sound(p: Preview) {
    && DistinctRoots(p.machine.usbDrives)
    && p.machine.bootTime <= p.clock
    && forall medium :: MediumSound(p, medium)
  }

  function DriveWith(drive: Drive, state: Option<MediumState>): Drive { drive.(state := state) }

  lemma DriveFoundAgain(drives: seq<Drive>, at: nat, state: Option<MediumState>, root: string)
    requires at < |drives|
    ensures DriveAt(drives[at := DriveWith(drives[at], state)], root) == DriveAt(drives, root)
  {
    SameRoots(drives, drives[at := DriveWith(drives[at], state)], root);
  }

  lemma OnThatDrive(machine: Status, root: string, state: Option<MediumState>)
    requires DriveAt(machine.usbDrives, root).Some?
    ensures On(WithState(machine, Usb(root), state), Usb(root)) == state
  {
    DriveAtFinds(machine.usbDrives, root);
    DriveFoundAgain(machine.usbDrives, DriveAt(machine.usbDrives, root).value, state, root);
  }

  lemma OnAnotherDrive(machine: Status, root: string, state: Option<MediumState>, other: string)
    requires DriveAt(machine.usbDrives, root).Some? && other != root
    ensures On(WithState(machine, Usb(root), state), Usb(other)) == On(machine, Usb(other))
  {
    DriveAtFinds(machine.usbDrives, root);
    DriveAtFinds(machine.usbDrives, other);
    DriveFoundAgain(machine.usbDrives, DriveAt(machine.usbDrives, root).value, state, other);
  }

  lemma OnOneDrive(machine: Status, root: string, state: Option<MediumState>, other: Medium)
    requires DriveAt(machine.usbDrives, root).Some?
    ensures On(WithState(machine, Usb(root), state), other) == if other == Usb(root) then state else On(machine, other)
  {
    if other == Usb(root) {
      OnThatDrive(machine, root, state);
    } else if other.Usb? {
      OnAnotherDrive(machine, root, state, other.root);
    }
  }

  lemma {:induction false} SameRoots(a: seq<Drive>, b: seq<Drive>, root: string)
    requires |a| == |b| && forall i :: 0 <= i < |a| ==> a[i].root == b[i].root
    ensures DriveAt(a, root) == DriveAt(b, root)
  {
    if a != [] {
      SameRoots(a[1..], b[1..], root);
    }
  }

  lemma RootsStay(machine: Status, root: string, state: Option<MediumState>)
    requires DriveAt(machine.usbDrives, root).Some? && DistinctRoots(machine.usbDrives)
    ensures DistinctRoots(WithState(machine, Usb(root), state).usbDrives)
  {
    DriveAtFinds(machine.usbDrives, root);
    var after := WithState(machine, Usb(root), state).usbDrives;
    assert forall i :: 0 <= i < |after| ==> after[i].root == machine.usbDrives[i].root;
  }

  // Writing to one medium changes what is on that medium.
  lemma OnAfterWrite(machine: Status, medium: Medium, state: Option<MediumState>, other: Medium)
    requires StateOf(machine, medium).Ok?
    ensures On(WithState(machine, medium, state), other) == if other == medium then state else On(machine, other)
    ensures DistinctRoots(machine.usbDrives) ==> DistinctRoots(WithState(machine, medium, state).usbDrives)
    ensures WithState(machine, medium, state).bootTime == machine.bootTime
  {
    if medium.Usb? {
      OnOneDrive(machine, medium.root, state, other);
      if DistinctRoots(machine.usbDrives) { RootsStay(machine, medium.root, state); }
    }
  }

  lemma StaysSound(p: Preview, after: Preview, other: Medium)
    requires MediumSound(p, other) && after.machine.bootTime == p.machine.bootTime && after.clock >= p.clock
    requires On(after.machine, other) == On(p.machine, other)
    requires other in after.reports <==> other in p.reports
    requires other in p.reports ==> after.reports[other] == p.reports[other]
    ensures MediumSound(after, other)
  {
  }

  lemma DiagnosticStaysSound(p: Preview, medium: Medium, now: nat)
    requires Sound(p)
    ensures Sound(PreparedDiagnostic(p, medium, now).1)
  {
    var after := PreparedDiagnostic(p, medium, now).1;
    if WriteProblem(p.machine, medium).None? {
      var state := MediumState(Some(Diagnostic), Some(after.clock), false, false, None, None, false);
      OnAfterWrite(p.machine, medium, Some(state), medium);
      forall other
        ensures MediumSound(after, other)
      {
        OnAfterWrite(p.machine, medium, Some(state), other);
        if other != medium {
          StaysSound(p, after, other);
        }
      }
    }
  }

  lemma LoaderStaysSound(p: Preview, medium: Medium, target: PciSlot, bytes: nat, now: nat)
    requires Sound(p)
    ensures Sound(WrittenLoader(p, medium, target, bytes, now).1)
  {
    var (r, after) := WrittenLoader(p, medium, target, bytes, now);
    if r.Ok? {
      var state := MediumState(Some(Loader), Some(after.clock), false, true, Some(LoaderPlan(target, bytes)), None, false);
      OnAfterWrite(p.machine, medium, Some(state), medium);
      forall other
        ensures MediumSound(after, other)
      {
        OnAfterWrite(p.machine, medium, Some(state), other);
        if other != medium {
          StaysSound(p, after, other);
        }
      }
    }
  }

  lemma RemovalStaysSound(p: Preview, medium: Medium)
    requires Sound(p)
    ensures Sound(Removed(p, medium).1)
  {
    var (r, after) := Removed(p, medium);
    if r.Ok? {
      OnAfterWrite(p.machine, medium, None, medium);
      forall other
        ensures MediumSound(after, other)
      {
        OnAfterWrite(p.machine, medium, None, other);
        if other != medium {
          StaysSound(p, after, other);
        }
      }
    }
  }

  lemma PermanenceStaysSound(p: Preview)
    requires Sound(p)
    ensures Sound(MadePermanent(p).1)
  {
    var after := MadePermanent(p).1;
    forall other
      ensures MediumSound(after, other)
    {
      StaysSound(p, after, other);
    }
  }

  // ---------------------------------------------------------------- a restart

  lemma {:induction false} DrivesRestart(drives: seq<Drive>, bootTime: nat)
    ensures var after := RestartedDrives(drives, bootTime);
            && |after| == |drives|
            && forall i :: 0 <= i < |drives| ==>
                 && after[i].root == drives[i].root
                 && after[i].state == if drives[i].state.None? then None else Some(Restarted(drives[i].state.value, bootTime))
  {
    if drives != [] {
      DrivesRestart(drives[1..], bootTime);
    }
  }

  lemma OnAfterBoot(machine: Status, bootTime: nat, medium: Medium)
    ensures var before, after := On(machine, medium), On(Booted(machine, bootTime), medium);
            after == if before.None? then None else Some(Restarted(before.value, bootTime))
    ensures DistinctRoots(machine.usbDrives) ==> DistinctRoots(Booted(machine, bootTime).usbDrives)
  {
    DrivesRestart(machine.usbDrives, bootTime);
    if medium.Usb? {
      SameRoots(machine.usbDrives, Booted(machine, bootTime).usbDrives, medium.root);
      DriveAtFinds(machine.usbDrives, medium.root);
    }
  }

  lemma BootStaysSound(p: Preview, now: nat)
    requires Sound(p)
    ensures Sound(p.(machine := Booted(p.machine, Tick(p.clock, now)), clock := Tick(p.clock, now)))
  {
    var clock := Tick(p.clock, now);
    var after := p.(machine := Booted(p.machine, clock), clock := clock);
    OnAfterBoot(p.machine, clock, Esp);
    forall medium
      ensures MediumSound(after, medium)
    {
      OnAfterBoot(p.machine, clock, medium);
      assert MediumSound(p, medium);
    }
  }

  lemma {:induction false} FirstStagedIs(drives: seq<Drive>)
    requires FirstStaged(drives).Some?
    ensures exists i :: 0 <= i < |drives| && drives[i] == FirstStaged(drives).value && drives[i].state.Some? && drives[i].state.value.stage.Some?
  {
    if !(drives[0].state.Some? && drives[0].state.value.stage.Some?) {
      FirstStagedIs(drives[1..]);
      var i :| 0 <= i < |drives[1..]| && drives[1..][i] == FirstStaged(drives).value && drives[1..][i].state.Some? && drives[1..][i].state.value.stage.Some?;
      assert drives[i + 1] == FirstStaged(drives).value;
    } else {
      assert drives[0] == FirstStaged(drives).value;
    }
  }

  // A route leads to the medium it names.
  lemma RouteIsOn(machine: Status)
    requires DistinctRoots(machine.usbDrives) && ActiveRoute(machine).Some?
    ensures var route := ActiveRoute(machine).value;
            && On(machine, route.medium) == Some(route.state) && route.state.stage.Some?
            && (route.medium.Usb? ==> StateOf(machine, route.medium).Ok?)
            && (route.medium.Esp? ==> machine.install.Some?)
            && (route.installed <==> route.medium.Esp?)
  {
    var route := ActiveRoute(machine).value;
    if route.medium.Usb? {
      FirstStagedIs(machine.usbDrives);
      var i :| 0 <= i < |machine.usbDrives| && machine.usbDrives[i] == FirstStaged(machine.usbDrives).value
               && machine.usbDrives[i].state.Some? && machine.usbDrives[i].state.value.stage.Some?;
      DriveAtFinds(machine.usbDrives, route.medium.root);
      assert DriveAt(machine.usbDrives, route.medium.root) == Some(i);
    }
  }

  lemma OnAfterReplace(machine: Status, medium: Medium, state: MediumState, other: Medium)
    requires medium.Usb? ==> StateOf(machine, medium).Ok?
    requires medium.Esp? ==> machine.install.Some?
    ensures On(Replaced(machine, medium, state), other) == if other == medium then Some(state) else On(machine, other)
    ensures DistinctRoots(machine.usbDrives) ==> DistinctRoots(Replaced(machine, medium, state).usbDrives)
    ensures Replaced(machine, medium, state).bootTime == machine.bootTime
  {
    if medium.Usb? {
      OnAfterWrite(machine, medium, Some(state), other);
    }
  }

  // The booted stage's own traces, on a machine where everything has just been restarted.
  lemma StageRunStaysSound(p: Preview, loaderFails: bool, found: Report)
    requires Sound(p) && ActiveRoute(p.machine).Some?
    requires ActiveRoute(p.machine).value.state.restartedSinceStage
    ensures var route := ActiveRoute(p.machine).value;
            var reports := if route.state.stage == Some(Diagnostic) then p.reports[route.medium := found] else p.reports;
            Sound(Preview(Replaced(p.machine, route.medium, StageRan(route.state, loaderFails)), reports, p.clock))
  {
    RouteIsOn(p.machine);
    var route := ActiveRoute(p.machine).value;
    var state := StageRan(route.state, loaderFails);
    var reports := if route.state.stage == Some(Diagnostic) then p.reports[route.medium := found] else p.reports;
    var after := Preview(Replaced(p.machine, route.medium, state), reports, p.clock);
    assert MediumSound(p, route.medium);
    OnAfterReplace(p.machine, route.medium, state, route.medium);
    forall other
      ensures MediumSound(after, other)
    {
      OnAfterReplace(p.machine, route.medium, state, other);
      assert MediumSound(p, other);
    }
  }

  // The machine once Windows is up again, with the boot entry it was to use next spent.
  function Up(p: Preview, clock: nat): Preview { p.(machine := Booted(p.machine, clock), clock := clock) }

  function EntrySpent(p: Preview): Preview {
    if p.machine.install.None? then p
    else p.(machine := p.machine.(install := Some(p.machine.install.value.(nextScheduled := None))))
  }

  lemma SameMediaSameSoundness(p: Preview, after: Preview)
    requires Sound(p) && after.machine.bootTime == p.machine.bootTime && after.clock == p.clock && after.reports == p.reports
    requires after.machine.usbDrives == p.machine.usbDrives
    requires forall medium :: On(after.machine, medium) == On(p.machine, medium)
    ensures Sound(after)
  {
    forall medium
      ensures MediumSound(after, medium)
    {
      StaysSound(p, after, medium);
    }
  }

  lemma SpentEntryStaysSound(p: Preview)
    requires Sound(p)
    ensures Sound(EntrySpent(p))
    ensures forall medium :: On(EntrySpent(p).machine, medium) == On(p.machine, medium)
  {
    SameMediaSameSoundness(p, EntrySpent(p));
  }

  lemma StageRestartStaysSound(p: Preview, clock: nat, loaderFails: bool, found: Report)
    requires Sound(p) && clock > p.clock && Sound(Up(p, clock))
    requires ActiveRoute(EntrySpent(Up(p, clock)).machine).Some?
    ensures var ready := EntrySpent(Up(p, clock));
            var route := ActiveRoute(ready.machine).value;
            var reports := if route.state.stage == Some(Diagnostic) then ready.reports[route.medium := found] else ready.reports;
            Sound(Preview(Replaced(ready.machine, route.medium, StageRan(route.state, loaderFails)), reports, clock))
  {
    SpentEntryStaysSound(Up(p, clock));
    ActiveHasRestarted(p, EntrySpent(Up(p, clock)), clock);
    StageRunStaysSound(EntrySpent(Up(p, clock)), loaderFails, found);
  }

  lemma RestartStaysSound(p: Preview, suspend: bool, firmwareSetup: bool, loaderFails: bool, found: Report, now: nat)
    requires Sound(p)
    ensures Sound(RestartedMachine(p, suspend, firmwareSetup, loaderFails, found, now).1)
  {
    if !p.machine.bitLockerOn || suspend {
      var clock := Tick(p.clock, now);
      BootStaysSound(p, now);
      if firmwareSetup {
        var up := Up(p, clock);
        SameMediaSameSoundness(up, up.(machine := up.machine.(certificateEnrolled := Some(true))));
      } else {
        SpentEntryStaysSound(Up(p, clock));
        if ActiveRoute(EntrySpent(Up(p, clock)).machine).Some? {
          StageRestartStaysSound(p, clock, loaderFails, found);
        }
      }
    }
  }

  lemma ActiveHasRestarted(p: Preview, ready: Preview, clock: nat)
    requires Sound(p) && Sound(ready) && ActiveRoute(ready.machine).Some? && clock > p.clock && ready.machine.bootTime == clock
    requires forall medium :: On(ready.machine, medium) == On(Booted(p.machine, clock), medium)
    ensures ActiveRoute(ready.machine).value.state.restartedSinceStage
  {
    RouteIsOn(ready.machine);
    var medium := ActiveRoute(ready.machine).value.medium;
    OnAfterBoot(p.machine, clock, medium);
    assert MediumSound(p, medium) && MediumSound(ready, medium);
  }

  // ---------------------------------------------------------------- whole runs

  datatype Step =
    | PrepareDiagnostic(medium: Medium, now: nat)
    | WriteLoader(medium: Medium, target: PciSlot, bytes: nat, now: nat)
    | MakePermanent
    | Remove(medium: Medium)
    | Restart(suspend: bool, firmwareSetup: bool, loaderFails: bool, found: Report, now: nat)

  function Stepped(p: Preview, step: Step): Preview {
    match step
    case PrepareDiagnostic(medium, now) => PreparedDiagnostic(p, medium, now).1
    case WriteLoader(medium, target, bytes, now) => WrittenLoader(p, medium, target, bytes, now).1
    case MakePermanent => MadePermanent(p).1
    case Remove(medium) => Removed(p, medium).1
    case Restart(suspend, firmwareSetup, loaderFails, found, now) =>
      RestartedMachine(p, suspend, firmwareSetup, loaderFails, found, now).1
  }

  function AfterSteps(p: Preview, steps: seq<Step>): Preview
    decreases |steps|
  {
    if steps == [] then p else AfterSteps(Stepped(p, steps[0]), steps[1..])
  }

  // The preview as it is loaded: nothing written yet.
  predicate Fresh(p: Preview) {
    && p.machine.install.None? && p.reports == map[] && p.machine.bootTime == p.clock
    && DistinctRoots(p.machine.usbDrives)
    && forall i :: 0 <= i < |p.machine.usbDrives| ==> p.machine.usbDrives[i].state.None?
  }

  lemma FreshIsSound(p: Preview)
    requires Fresh(p)
    ensures Sound(p)
  {
    forall medium
      ensures MediumSound(p, medium)
    {
      if medium.Usb? {
        DriveAtFinds(p.machine.usbDrives, medium.root);
      }
    }
  }

  // Over every run: restarted exactly when Windows booted after the stage was written, reported
  // exactly when a report is stored, and a receipt only for a loader restarted since, of a size that
  // medium's report offers without objection.
  lemma {:induction false} SoundOverRun(p: Preview, steps: seq<Step>)
    requires Sound(p)
    ensures Sound(AfterSteps(p, steps))
    decreases |steps|
  {
    if steps != [] {
      match steps[0] {
        case PrepareDiagnostic(medium, now) => DiagnosticStaysSound(p, medium, now);
        case WriteLoader(medium, target, bytes, now) => LoaderStaysSound(p, medium, target, bytes, now);
        case MakePermanent => PermanenceStaysSound(p);
        case Remove(medium) => RemovalStaysSound(p, medium);
        case Restart(suspend, firmwareSetup, loaderFails, found, now) =>
          RestartStaysSound(p, suspend, firmwareSetup, loaderFails, found, now);
      }
      SoundOverRun(Stepped(p, steps[0]), steps[1..]);
    }
  }

  // The result screen is shown exactly for a receipt on the active route of a machine that is not
  // already set up for good; and in a run of the preview that means a loader that was booted since it
  // was written, with a size its medium's report offers.
  lemma ResultScreenMeansBootedLoader(p: Preview, steps: seq<Step>)
    requires Fresh(p)
    ensures var q := AfterSteps(p, steps);
            var route := ActiveRoute(q.machine);
            && (ScreenOf(Some(q.machine), false) == ResultScreen <==>
                  && q.machine.uefi && q.machine.elevated && route.Some? && route.value.state.receipt.Some?
                  && !(route.value.installed && q.machine.install.value.loaderFirst))
            && (ScreenOf(Some(q.machine), false) == ResultScreen ==>
                  var state := route.value.state;
                  && state.stage == Some(Loader) && state.stageWritten.Some? && q.machine.bootTime > state.stageWritten.value
                  && state.plan.Some? && route.value.medium in q.reports
                  && Offers(q.reports[route.value.medium], state.plan.value.target, state.plan.value.sizeBytes)
                  && state.receipt.value.sizeBytes == state.plan.value.sizeBytes)
  {
    FreshIsSound(p);
    SoundOverRun(p, steps);
    var q := AfterSteps(p, steps);
    if ActiveRoute(q.machine).Some? {
      RouteIsOn(q.machine);
      assert MediumSound(q, ActiveRoute(q.machine).value.medium);
    }
  }
}
