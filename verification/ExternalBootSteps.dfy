// What each operation of the external-boot preview does, medium by medium, and exactly when it goes
// through.
module ExternalBootSteps {
  import opened Prelude
  import opened ExternalBoot

  // ---------------------------------------------------------------- writing

  predicate SecureBootBlocks(machine: Status) {
    machine.secureBoot == Some(true) && !(machine.imagesSigned && machine.certificateEnrolled == Some(true))
  }

  // The medium is there.
  predicate IsThere(machine: Status, medium: Medium) {
    match medium
    case Esp => machine.espFound
    case Usb(root) => exists i :: 0 <= i < |machine.usbDrives| && machine.usbDrives[i].root == root
  }

  predicate TakesFiles(drives: seq<Drive>, root: string, i: int) {
    IsFirstAt(drives, root, i) && drives[i].problem != Some(ForeignBootFile) && drives[i].usable
  }

  ghost predicate MayWrite(machine: Status, medium: Medium) {
    && !SecureBootBlocks(machine) && IsThere(machine, medium)
    && (medium.Usb? ==> exists i :: TakesFiles(machine.usbDrives, medium.root, i))
  }

  lemma ThereIsReadable(machine: Status, medium: Medium)
    ensures StateOf(machine, medium).Ok? <==> IsThere(machine, medium)
    ensures StateOf(machine, medium).Ok? ==> StateOf(machine, medium).value == On(machine, medium)
    ensures StateOf(machine, medium).Err? ==> StateOf(machine, medium).error == if medium.Esp? then NoEsp else MediumUnavailable
  {
    if medium.Usb? {
      DriveAtFinds(machine.usbDrives, medium.root);
    }
  }

  // Nothing stands against writing exactly on a medium that is there and takes files, with Secure Boot
  // off or ready for it.
  lemma WriteProblemMeans(machine: Status, medium: Medium)
    ensures WriteProblem(machine, medium).None? <==> MayWrite(machine, medium)
    ensures WriteProblem(machine, medium) == Some(SecureBootOn) <==> SecureBootBlocks(machine)
    ensures WriteProblem(machine, medium).Some? && !SecureBootBlocks(machine) && !IsThere(machine, medium) ==>
              WriteProblem(machine, medium).value == if medium.Esp? then NoEsp else MediumUnavailable
  {
    ThereIsReadable(machine, medium);
    if medium.Usb? {
      DriveAtFinds(machine.usbDrives, medium.root);
      var at := DriveAt(machine.usbDrives, medium.root);
      if at.Some? {
        assert IsFirstAt(machine.usbDrives, medium.root, at.value);
        var drive := machine.usbDrives[at.value];
        assert drive.problem != Some(ForeignBootFile) && drive.usable <==> TakesFiles(machine.usbDrives, medium.root, at.value);
      }
    }
  }

  // Everything but one medium, its report and the clock is as it was.
  ghost predicate OnlyTouches(p: Preview, after: Preview, medium: Medium) {
    && (forall other :: other != medium ==>
          && On(after.machine, other) == On(p.machine, other)
          && (other in after.reports <==> other in p.reports)
          && (other in p.reports ==> after.reports[other] == p.reports[other]))
    && after.machine == p.machine.(install := after.machine.install, usbDrives := after.machine.usbDrives)
    && (medium.Usb? ==> after.machine.install == p.machine.install)
    && (medium.Esp? ==> after.machine.usbDrives == p.machine.usbDrives)
  }

  predicate Entries(install: Option<Install>, diagnostic: bool, loader: bool, first: bool, next: Option<Stage>) {
    && install.Some? && install.value.diagnosticEntry == diagnostic && install.value.loaderEntry == loader
    && install.value.loaderFirst == first && install.value.nextScheduled == next
  }

  function HadEntry(machine: Status, stage: Stage): bool {
    machine.install.Some? && if stage == Diagnostic then machine.install.value.diagnosticEntry else machine.install.value.loaderEntry
  }

  function WasFirst(machine: Status): bool { machine.install.Some? && machine.install.value.loaderFirst }

  lemma WithStateTouches(machine: Status, medium: Medium, state: Option<MediumState>)
    requires IsThere(machine, medium)
    ensures var after := WithState(machine, medium, state);
            && On(after, medium) == state
            && (forall other :: other != medium ==> On(after, other) == On(machine, other))
            && after == machine.(install := after.install, usbDrives := after.usbDrives)
            && (medium.Usb? ==> after.install == machine.install)
            && (medium.Esp? ==> after.usbDrives == machine.usbDrives)
  {
    ThereIsReadable(machine, medium);
    forall other
      ensures On(WithState(machine, medium, state), other) == if other == medium then state else On(machine, other)
    {
      OnAfterWrite(machine, medium, state, other);
    }
  }

  // A diagnostic goes onto a medium exactly if it may be written. It is then all there is on that
  // medium: just written, not restarted since, and no report of an earlier one. On the system partition
  // it is the next entry to boot.
  lemma DiagnosticWritten(p: Preview, medium: Medium, now: nat)
    ensures var (r, after) := PreparedDiagnostic(p, medium, now);
            && (r.Ok? <==> MayWrite(p.machine, medium))
            && (r.Err? ==> after == p)
            && (r.Ok? ==>
                  && OnlyTouches(p, after, medium) && after.clock > p.clock && after.clock >= now
                  && On(after.machine, medium) == Some(MediumState(Some(Diagnostic), Some(after.clock), false, false, None, None, false))
                  && medium !in after.reports
                  && (medium.Esp? ==>
                        Entries(after.machine.install, true, HadEntry(p.machine, Loader), WasFirst(p.machine), Some(Diagnostic))))
  {
    WriteProblemMeans(p.machine, medium);
    if MayWrite(p.machine, medium) {
      var clock := Tick(p.clock, now);
      WithStateTouches(p.machine, medium, Some(MediumState(Some(Diagnostic), Some(clock), false, false, None, None, false)));
    }
  }

  // ---------------------------------------------------------------- the loader

  predicate FirstCandidate(candidates: seq<Candidate>, target: PciSlot, i: int) {
    0 <= i < |candidates| && candidates[i].slot == target && forall j :: 0 <= j < i ==> candidates[j].slot != target
  }

  predicate FirstSize(sizes: seq<Size>, bytes: nat, i: int) {
    0 <= i < |sizes| && sizes[i].bytes == bytes && forall j :: 0 <= j < i ==> sizes[j].bytes != bytes
  }

  lemma {:induction false} CandidateForFinds(candidates: seq<Candidate>, target: PciSlot)
    ensures CandidateFor(candidates, target).Some? <==> exists i :: FirstCandidate(candidates, target, i)
    ensures forall i :: FirstCandidate(candidates, target, i) ==> CandidateFor(candidates, target) == Some(candidates[i])
  {
    if candidates != [] {
      CandidateForFinds(candidates[1..], target);
      if candidates[0].slot == target {
        assert FirstCandidate(candidates, target, 0);
      } else {
        forall i
          ensures FirstCandidate(candidates, target, i) <==> FirstCandidate(candidates[1..], target, i - 1)
        {
          if FirstCandidate(candidates[1..], target, i - 1) {
            assert forall j :: 0 < j < i ==> candidates[j] == candidates[1..][j - 1];
          }
          if FirstCandidate(candidates, target, i) {
            assert forall j :: 0 <= j < i - 1 ==> candidates[1..][j] == candidates[j + 1];
          }
        }
        if CandidateFor(candidates, target).Some? {
          var i :| FirstCandidate(candidates[1..], target, i);
          assert FirstCandidate(candidates[1..], target, (i + 1) - 1);
          assert FirstCandidate(candidates, target, i + 1);
        }
      }
    }
  }

  lemma {:induction false} SizeForFinds(sizes: seq<Size>, bytes: nat)
    ensures SizeFor(sizes, bytes).Some? <==> exists i :: FirstSize(sizes, bytes, i)
    ensures forall i :: FirstSize(sizes, bytes, i) ==> SizeFor(sizes, bytes) == Some(sizes[i])
  {
    if sizes != [] {
      SizeForFinds(sizes[1..], bytes);
      if sizes[0].bytes == bytes {
        assert FirstSize(sizes, bytes, 0);
      } else {
        forall i
          ensures FirstSize(sizes, bytes, i) <==> FirstSize(sizes[1..], bytes, i - 1)
        {
          if FirstSize(sizes[1..], bytes, i - 1) {
            assert forall j :: 0 < j < i ==> sizes[j] == sizes[1..][j - 1];
          }
          if FirstSize(sizes, bytes, i) {
            assert forall j :: 0 <= j < i - 1 ==> sizes[1..][j] == sizes[j + 1];
          }
        }
        if SizeFor(sizes, bytes).Some? {
          var i :| FirstSize(sizes[1..], bytes, i);
          assert FirstSize(sizes[1..], bytes, (i + 1) - 1);
          assert FirstSize(sizes, bytes, i + 1);
        }
      }
    }
  }

  predicate OffersAt(report: Report, target: PciSlot, bytes: nat, i: int, j: int) {
    && FirstCandidate(report.candidates, target, i) && !report.candidates[i].refused
    && FirstSize(report.candidates[i].sizes, bytes, j) && !report.candidates[i].sizes[j].error
  }

  // A report offers a size for a GPU exactly if its entry for that GPU is not refused and that entry's
  // line for the size carries no error.
  lemma OffersMeans(report: Report, target: PciSlot, bytes: nat)
    ensures Offers(report, target, bytes) <==> exists i, j :: OffersAt(report, target, bytes, i, j)
  {
    CandidateForFinds(report.candidates, target);
    if i :| FirstCandidate(report.candidates, target, i) {
      SizeForFinds(report.candidates[i].sizes, bytes);
      if j :| FirstSize(report.candidates[i].sizes, bytes, j) {
        assert Offers(report, target, bytes) ==> OffersAt(report, target, bytes, i, j);
      }
    }
  }

  predicate HasReport(p: Preview, medium: Medium) {
    On(p.machine, medium).Some? && On(p.machine, medium).value.report && medium in p.reports
  }

  // A loader goes onto a medium exactly if it may be written and the medium's own report, from a
  // physical machine, offers the chosen size for the chosen GPU. It is then all there is on the medium
  // but that report.
  lemma LoaderWritten(p: Preview, medium: Medium, target: PciSlot, bytes: nat, now: nat)
    ensures var (r, after) := WrittenLoader(p, medium, target, bytes, now);
            && (r.Ok? <==>
                  && MayWrite(p.machine, medium) && HasReport(p, medium) && p.reports[medium].physical
                  && exists i, j :: OffersAt(p.reports[medium], target, bytes, i, j))
            && (r.Err? ==> after == p)
            && (r.Ok? ==>
                  && OnlyTouches(p, after, medium) && after.clock > p.clock && after.clock >= now && after.reports == p.reports
                  && On(after.machine, medium)
                     == Some(MediumState(Some(Loader), Some(after.clock), false, true, Some(LoaderPlan(target, bytes)), None, false))
                  && (medium.Esp? ==>
                        Entries(after.machine.install, HadEntry(p.machine, Diagnostic), true, WasFirst(p.machine), Some(Loader))))
  {
    WriteProblemMeans(p.machine, medium);
    ThereIsReadable(p.machine, medium);
    if MayWrite(p.machine, medium) && HasReport(p, medium) {
      OffersMeans(p.reports[medium], target, bytes);
    }
    if WrittenLoader(p, medium, target, bytes, now).0.Ok? {
      var clock := Tick(p.clock, now);
      WithStateTouches(p.machine, medium,
                       Some(MediumState(Some(Loader), Some(clock), false, true, Some(LoaderPlan(target, bytes)), None, false)));
    }
  }

  // ---------------------------------------------------------------- making it permanent, removing it

  // Only an installed loader that has left a receipt is made permanent. It then boots first, the
  // diagnostic's entry is gone, nothing else changed, and the screen says so.
  lemma PermanentMade(p: Preview)
    ensures var (r, after) := MadePermanent(p);
            && (r.Ok? <==>
                  && p.machine.install.Some? && p.machine.install.value.state.stage == Some(Loader)
                  && p.machine.install.value.state.receipt.Some?)
            && (r.Err? ==> after == p)
            && (r.Ok? ==>
                  && Entries(after.machine.install, false, p.machine.install.value.loaderEntry, true, p.machine.install.value.nextScheduled)
                  && (forall medium :: On(after.machine, medium) == On(p.machine, medium))
                  && after == p.(machine := p.machine.(install := after.machine.install))
                  && (p.machine.uefi && p.machine.elevated ==> ScreenOf(Some(after.machine), false) == Installed))
  {
  }

  // Removing works on any medium that is there, and leaves nothing of its own and everything else.
  lemma RemovalTouches(p: Preview, medium: Medium)
    ensures var (r, after) := Removed(p, medium);
            && (r.Ok? <==> IsThere(p.machine, medium))
            && (r.Err? ==> after == p)
            && (r.Ok? ==>
                  && OnlyTouches(p, after, medium) && On(after.machine, medium).None? && medium !in after.reports && after.clock == p.clock
                  && (medium.Esp? ==> after.machine.install.None?))
  {
    ThereIsReadable(p.machine, medium);
    if IsThere(p.machine, medium) {
      WithStateTouches(p.machine, medium, None);
    }
  }

  // ---------------------------------------------------------------- a restart

  predicate Staged(state: Option<MediumState>) { state.Some? && state.value.stage.Some? }

  predicate FirstStagedAt(drives: seq<Drive>, i: int) {
    0 <= i < |drives| && Staged(drives[i].state) && forall j :: 0 <= j < i ==> !Staged(drives[j].state)
  }

  lemma {:induction false} FirstStagedFinds(drives: seq<Drive>)
    ensures if FirstStaged(drives).Some? then exists i :: FirstStagedAt(drives, i) && FirstStaged(drives) == Some(drives[i])
            else forall i :: 0 <= i < |drives| ==> !Staged(drives[i].state)
  {
    if drives != [] && !Staged(drives[0].state) {
      FirstStagedFinds(drives[1..]);
      assert forall j :: 0 < j < |drives| ==> drives[j] == drives[1..][j - 1];
      if FirstStaged(drives).Some? {
        var i :| FirstStagedAt(drives[1..], i) && FirstStaged(drives[1..]) == Some(drives[1..][i]);
        assert FirstStagedAt(drives, i + 1) && drives[i + 1] == drives[1..][i];
      }
    } else if drives != [] {
      assert FirstStagedAt(drives, 0);
    }
  }

  // The active medium is the system partition if anything is staged there, else the first drive with
  // something staged on it.
  lemma RouteMeans(machine: Status)
    ensures var route := ActiveRoute(machine);
            && (Staged(On(machine, Esp)) ==> route == Some(Route(true, Esp, On(machine, Esp).value)))
            && (!Staged(On(machine, Esp)) ==>
                  if route.Some? then
                    exists i :: && FirstStagedAt(machine.usbDrives, i)
                                && route == Some(Route(false, Usb(machine.usbDrives[i].root), machine.usbDrives[i].state.value))
                  else forall i :: 0 <= i < |machine.usbDrives| ==> !Staged(machine.usbDrives[i].state))
  {
    FirstStagedFinds(machine.usbDrives);
  }

  // What a medium shows after Windows started again: the restart, if something was written before it.
  predicate SawRestart(before: Option<MediumState>, after: Option<MediumState>, bootTime: nat) {
    if before.None? then after.None?
    else
      && after.Some?
      && after.value == before.value.(restartedSinceStage := after.value.restartedSinceStage)
      && after.value.restartedSinceStage ==
         (if before.value.stageWritten.Some? then bootTime > before.value.stageWritten.value else before.value.restartedSinceStage)
  }

  // What the booted stage adds to its own medium.
  predicate RanStage(before: MediumState, after: MediumState, loaderFails: bool) {
    if before.stage == Some(Diagnostic) then after == before.(report := true, lastError := false)
    else if before.plan.None? then after == before
    else
      && after == before.(receipt := after.receipt, lastError := loaderFails)
      && after.receipt == (if loaderFails then None else Some(Receipt(before.plan.value.target, before.plan.value.sizeBytes)))
  }

  // A restart is refused exactly while BitLocker is on and not suspended. Otherwise every medium shows
  // the restart; a restart into the firmware setup enrols the certificate and boots nothing; any other
  // spends the scheduled entry and boots the stage on the active medium, which alone is changed by it.
  lemma RestartDoes(p: Preview, suspend: bool, firmwareSetup: bool, loaderFails: bool, found: Report, now: nat)
    requires DistinctRoots(p.machine.usbDrives)
    ensures var (r, after) := RestartedMachine(p, suspend, firmwareSetup, loaderFails, found, now);
            var up := Booted(p.machine, after.clock);
            && (r.Err? <==> p.machine.bitLockerOn && !suspend)
            && (r.Err? ==> after == p)
            && (r.Ok? ==>
                  && after.clock > p.clock && after.clock >= now && after.machine.bootTime == after.clock
                  && (forall medium :: SawRestart(On(p.machine, medium), On(up, medium), after.clock))
                  && (firmwareSetup ==>
                        && after.machine == up.(certificateEnrolled := Some(true)) && after.reports == p.reports)
                  && (!firmwareSetup ==>
                        && after.machine.certificateEnrolled == p.machine.certificateEnrolled
                        && (after.machine.install.Some? ==> after.machine.install.value.nextScheduled.None?)
                        && BootsRoute(up, p.reports, after, loaderFails, found)))
  {
    var after := RestartedMachine(p, suspend, firmwareSetup, loaderFails, found, now).1;
    if !p.machine.bitLockerOn || suspend {
      forall medium
        ensures SawRestart(On(p.machine, medium), On(Booted(p.machine, after.clock), medium), after.clock)
      {
        OnAfterBoot(p.machine, after.clock, medium);
      }
      if !firmwareSetup {
        OnAfterBoot(p.machine, after.clock, Esp);
        SpentBoots(Booted(p.machine, after.clock), p.reports, after.clock, loaderFails, found);
      }
    }
  }

  // The stage on the active medium ran; the other media and their reports are as they were.
  ghost predicate BootsRoute(up: Status, reports: map<Medium, Report>, after: Preview, loaderFails: bool, found: Report) {
    var route := ActiveRoute(up);
    && (route.None? ==> after.reports == reports && forall medium :: On(after.machine, medium) == On(up, medium))
    && (route.Some? ==>
          && (forall other :: other != route.value.medium ==> On(after.machine, other) == On(up, other))
          && On(after.machine, route.value.medium).Some?
          && RanStage(route.value.state, On(after.machine, route.value.medium).value, loaderFails)
          && after.reports == if route.value.state.stage == Some(Diagnostic) then reports[route.value.medium := found] else reports)
  }

  function SpentEntry(up: Status): Status {
    if up.install.None? then up else up.(install := Some(up.install.value.(nextScheduled := None)))
  }

  function BootedRoute(up: Status, reports: map<Medium, Report>, clock: nat, loaderFails: bool, found: Report): Preview {
    var ready := SpentEntry(up);
    var active := ActiveRoute(ready);
    if active.None? then Preview(ready, reports, clock)
    else
      Preview(Replaced(ready, active.value.medium, StageRan(active.value.state, loaderFails)),
              if active.value.state.stage == Some(Diagnostic) then reports[active.value.medium := found] else reports, clock)
  }

  lemma ReplacedOnly(up: Status, medium: Medium, state: MediumState, other: Medium)
    requires medium.Usb? ==> StateOf(up, medium).Ok?
    requires medium.Esp? ==> up.install.Some?
    ensures var ready := SpentEntry(up);
            && On(Replaced(ready, medium, state), other) == (if other == medium then Some(state) else On(up, other))
            && Replaced(ready, medium, state).certificateEnrolled == up.certificateEnrolled
            && Replaced(ready, medium, state).bootTime == up.bootTime
            && (Replaced(ready, medium, state).install.Some? ==> Replaced(ready, medium, state).install.value.nextScheduled.None?)
  {
    var ready := SpentEntry(up);
    assert StateOf(up, medium).Ok? && medium.Usb? ==> StateOf(ready, medium).Ok?;
    OnAfterReplace(ready, medium, state, other);
    assert On(ready, other) == On(up, other);
  }

  lemma SpentBoots(up: Status, reports: map<Medium, Report>, clock: nat, loaderFails: bool, found: Report)
    requires DistinctRoots(up.usbDrives)
    ensures var after := BootedRoute(up, reports, clock, loaderFails, found);
            && BootsRoute(up, reports, after, loaderFails, found)
            && after.machine.bootTime == up.bootTime && after.machine.certificateEnrolled == up.certificateEnrolled
            && (after.machine.install.Some? ==> after.machine.install.value.nextScheduled.None?)
  {
    assert ActiveRoute(SpentEntry(up)) == ActiveRoute(up);
    if ActiveRoute(up).Some? {
      var route := ActiveRoute(up).value;
      RouteIsOn(up);
      var state := StageRan(route.state, loaderFails);
      assert RanStage(route.state, state, loaderFails);
      ReplacedOnly(up, route.medium, state, route.medium);
      forall other
        ensures On(Replaced(SpentEntry(up), route.medium, state), other) == if other == route.medium then Some(state) else On(up, other)
      {
        ReplacedOnly(up, route.medium, state, other);
      }
    }
  }

  // ---------------------------------------------------------------- screens

  // Which screen a running machine is shown, each exactly once.
  lemma ScreenMeans(machine: Status)
    requires machine.uefi && machine.elevated
    ensures var screen := ScreenOf(Some(machine), false);
            var route := ActiveRoute(machine);
            && (screen == Blocked <==> route.None? && (SecureBootBlocks(machine) || !machine.espFound))
            && (screen == Choose <==> route.None? && !SecureBootBlocks(machine) && machine.espFound)
            && (screen == Installed <==> route.Some? && route.value.installed && WasFirst(machine))
            && (route.Some? && !(route.value.installed && WasFirst(machine)) ==>
                  var state := route.value.state;
                  && (screen == PickGpu <==> state.stage == Some(Diagnostic) && state.report)
                  && (screen == DiagnosticMissing <==> state.stage == Some(Diagnostic) && !state.report && state.restartedSinceStage)
                  && (screen == DiagnosticReady <==> state.stage == Some(Diagnostic) && !state.report && !state.restartedSinceStage)
                  && (screen == ResultScreen <==> state.stage == Some(Loader) && state.receipt.Some?)
                  && (screen == LoaderMissing <==> state.stage == Some(Loader) && state.receipt.None? && state.restartedSinceStage)
                  && (screen == LoaderReady <==> state.stage == Some(Loader) && state.receipt.None? && !state.restartedSinceStage))
  {
    RouteMeans(machine);
    assert ActiveRoute(machine).Some? ==> ActiveRoute(machine).value.state.stage.Some?;
    if ActiveRoute(machine).Some? {
      assert ActiveRoute(machine).value.state.stage.value == Diagnostic || ActiveRoute(machine).value.state.stage.value == Loader;
    }
  }
}
