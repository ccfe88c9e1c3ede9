// The wire configuration: the driver's lookup over wildcard selectors and the byte format of the
// firmware variable.
module CoreConfig {
  import opened Prelude
  import opened Hardware
  import opened BarRules

  datatype Selector = Selector(
    deviceId: u16, subVendor: u16, subDevice: u16, bus: u8, device: u8, fn: u8, size: u8, mask: u8)

  datatype GpuRecord = GpuRecord(
    deviceId: u16, subVendor: u16, subDevice: u16, bus: u8, device: u8, fn: u8, bar0Base: u64, bar0Top: u64)

  datatype BridgeRecord = BridgeRecord(
    vendorId: u16, deviceId: u16, bus: u8, device: u8, fn: u8, secondaryBus: u8)

  datatype Config = Config(
    target: u8,
    flags: u16,
    setupCrc: u64,
    selectors: seq<Selector>,
    gpus: seq<GpuRecord>,
    bridges: seq<BridgeRecord>)

  const DEFAULT_CONFIG := Config(0, 0, 0, [], [], [])

  const MAX_GPUS := 8
  const MAX_BRIDGES := 10
  const BAR_SIZE_NONE: u8 := 255
  const ANY8: u8 := 255
  const ANY16: u16 := 0xFFFF

  // The option bits: two for the mode, then one each.
  function Mode(flags: u16): u8 { flags % 4 }
  predicate SkipsS3(flags: u16) { flags / 4 % 2 == 1 }
  predicate OverridesMask(flags: u16) { flags / 8 % 2 == 1 }
  predicate SetupCrcEnabled(flags: u16) { flags / 32 % 2 == 0 }

  predicate GpuConfigured(config: Config) { Mode(config.flags) != 0 || config.selectors != [] }
  predicate DriverConfigured(config: Config) { config.target != 0 || GpuConfigured(config) }

  // ---------------------------------------------------------------- lookup

  // The built-in size list; what it holds is not part of this model.
  type Registry = u16 -> Option<u8>

  predicate HasSubsystem(s: Selector) { s.subVendor != ANY16 && s.subDevice != ANY16 }
  predicate HasLocation(s: Selector) { s.bus != ANY8 || s.device != ANY8 || s.fn != ANY8 }
  predicate MatchesSubsystem(s: Selector, gpu: GpuDevice) { s.subVendor == gpu.subVendor && s.subDevice == gpu.subDevice }
  predicate MatchesLocation(s: Selector, gpu: GpuDevice) { s.bus == gpu.bus && s.device == gpu.device && s.fn == gpu.fn }

  // The scope at which a wildcard selector reaches a GPU, if it does.
  function Reach(s: Selector, gpu: GpuDevice): Option<MatchScope> {
    if s.deviceId != gpu.deviceId then None
    else if !HasSubsystem(s) then Some(Device)
    else if !MatchesSubsystem(s, gpu) then None
    else if !HasLocation(s) then Some(Subsystem)
    else if MatchesLocation(s, gpu) then Some(Location)
    else None
  }

  // Which GPUs a selector speaks to, and at what scope: 0xFFFF in either subsystem id stands for any
  // subsystem, and then the location is not looked at; 255 in all three parts of the location stands
  // for any location.
  lemma ReachMeans(s: Selector, gpu: GpuDevice)
    ensures var anySubsystem := s.subVendor == 0xFFFF || s.subDevice == 0xFFFF;
            var anyLocation := s.bus == 255 && s.device == 255 && s.fn == 255;
            var sameSubsystem := s.subVendor == gpu.subVendor && s.subDevice == gpu.subDevice;
            && (Reach(s, gpu) == Some(Device) <==> s.deviceId == gpu.deviceId && anySubsystem)
            && (Reach(s, gpu) == Some(Subsystem) <==> s.deviceId == gpu.deviceId && !anySubsystem && sameSubsystem && anyLocation)
            && (Reach(s, gpu) == Some(Location) <==>
                  s.deviceId == gpu.deviceId && !anySubsystem && sameSubsystem && !anyLocation && Slot(s.bus, s.device, s.fn) == gpu.Id())
  {
  }

  function WireValue(s: Selector, facet: Facet): Option<u8> {
    match facet
    case Size => if s.size == BAR_SIZE_NONE then None else Some(s.size)
    case Mask => if s.mask == 0 then None else Some(if s.mask == 255 then 0 else 1)
  }

  function WireStated(s: Selector, gpu: GpuDevice, facet: Facet): seq<Entry> {
    if Reach(s, gpu).Some? && WireValue(s, facet).Some?
    then [Entry(Reach(s, gpu).value, WireValue(s, facet).value)]
    else []
  }

  function WireStatements(selectors: seq<Selector>, gpu: GpuDevice, facet: Facet): seq<Entry> {
    if selectors == [] then [] else WireStated(selectors[0], gpu, facet) + WireStatements(selectors[1..], gpu, facet)
  }

  datatype Priority = Unconfigured | ImpliedGlobal | FoundGlobal | ExplicitDevice | ExplicitSubsystem | ExplicitLocation

  function PriorityOf(scope: MatchScope): Priority {
    match scope case Device => ExplicitDevice case Subsystem => ExplicitSubsystem case Location => ExplicitLocation
  }

  datatype SizeDecision = SizeDecision(priority: Priority, selector: Option<u8>)
  datatype MaskDecision = MaskDecision(priority: Priority, enabled: bool)

  function GlobalSize(flags: u16, deviceId: u16, registry: Registry): SizeDecision {
    if Mode(flags) == 0 then SizeDecision(Unconfigured, None)
    else if registry(deviceId).Some? then SizeDecision(FoundGlobal, registry(deviceId))
    else if Mode(flags) > 1 && IsTuringId(deviceId) then SizeDecision(ImpliedGlobal, Some(5))
    else SizeDecision(Unconfigured, None)
  }

  function DecideSize(config: Config, gpu: GpuDevice, registry: Registry): SizeDecision {
    var entry := ByPrecedence(WireStatements(config.selectors, gpu, Size));
    if entry.Some? then SizeDecision(PriorityOf(entry.value.scope), Some(entry.value.value))
    else GlobalSize(config.flags, gpu.deviceId, registry)
  }

  function DecideMask(config: Config, gpu: GpuDevice): MaskDecision {
    var entry := ByPrecedence(WireStatements(config.selectors, gpu, Mask));
    if entry.Some? then MaskDecision(PriorityOf(entry.value.scope), entry.value.value == 1)
    else MaskDecision(FoundGlobal, OverridesMask(config.flags))
  }

  // Who decides a GPU's size, and what is decided: a selector that reaches it, else the built-in list
  // while a global mode is on, else, beyond the first mode, 16 GiB (selector 5) for any Turing id.
  lemma WhoDecidesSize(config: Config, gpu: GpuDevice, registry: Registry)
    ensures var decision := DecideSize(config, gpu, registry);
            var said := ByPrecedence(WireStatements(config.selectors, gpu, Size));
            var listed := registry(gpu.deviceId);
            && (said.Some? <==> decision.priority in {ExplicitDevice, ExplicitSubsystem, ExplicitLocation})
            && (said.Some? ==>
                  && decision.selector == Some(said.value.value)
                  && (decision.priority == ExplicitLocation <==> said.value.scope == Location)
                  && (decision.priority == ExplicitSubsystem <==> said.value.scope == Subsystem))
            && (decision.priority == FoundGlobal <==> said.None? && Mode(config.flags) >= 1 && listed.Some?)
            && (decision.priority == FoundGlobal ==> decision.selector == listed)
            && (decision.priority == ImpliedGlobal <==> said.None? && Mode(config.flags) >= 2 && listed.None? && IsTuringId(gpu.deviceId))
            && (decision.priority == ImpliedGlobal ==> decision.selector == Some(5))
            && (decision.priority == Unconfigured <==> decision.selector.None?)
  {
  }

  // The deciding statement by its place: no location statement before it if it is one; otherwise no
  // location statement at all, and no later one of its own scope, and a device statement only where no
  // subsystem speaks.
  predicate DecidesAt(entries: seq<Entry>, i: int) {
    && 0 <= i < |entries|
    && match entries[i].scope
       case Location => forall j :: 0 <= j < i ==> entries[j].scope != Location
       case Subsystem =>
         (forall j :: 0 <= j < |entries| ==> entries[j].scope != Location) && (forall j :: i < j < |entries| ==> entries[j].scope != Subsystem)
       case Device => (forall j :: 0 <= j < |entries| ==> entries[j].scope == Device) && i == |entries| - 1
  }

  lemma {:induction false} FirstPlace(entries: seq<Entry>, scope: MatchScope) returns (i: int)
    ensures First(entries, scope).Some? ==>
              0 <= i < |entries| && entries[i].scope == scope && First(entries, scope) == Some(entries[i])
              && forall j :: 0 <= j < i ==> entries[j].scope != scope
    ensures First(entries, scope).None? ==> forall j :: 0 <= j < |entries| ==> entries[j].scope != scope
  {
    i := 0;
    if entries != [] && entries[0].scope != scope {
      var rest := FirstPlace(entries[1..], scope);
      i := rest + 1;
      assert forall j :: 0 < j < |entries| ==> entries[j] == entries[1..][j - 1];
    }
  }

  lemma {:induction false} LastPlace(entries: seq<Entry>, scope: MatchScope) returns (i: int)
    ensures Last(entries, scope).Some? ==>
              0 <= i < |entries| && entries[i].scope == scope && Last(entries, scope) == Some(entries[i])
              && forall j :: i < j < |entries| ==> entries[j].scope != scope
    ensures Last(entries, scope).None? ==> forall j :: 0 <= j < |entries| ==> entries[j].scope != scope
  {
    i := |entries| - 1;
    if entries != [] && entries[i].scope != scope {
      i := LastPlace(entries[..i], scope);
    }
  }

  lemma PrecedenceMeans(entries: seq<Entry>)
    ensures ByPrecedence(entries).None? <==> entries == []
    ensures ByPrecedence(entries).Some? ==> exists i :: DecidesAt(entries, i) && ByPrecedence(entries) == Some(entries[i])
  {
    var location := FirstPlace(entries, Location);
    var subsystem := LastPlace(entries, Subsystem);
    var device := LastPlace(entries, Device);
    if First(entries, Location).Some? {
      assert DecidesAt(entries, location);
    } else if Last(entries, Subsystem).Some? {
      assert DecidesAt(entries, subsystem);
    } else if entries != [] {
      assert entries[|entries| - 1].scope == Device;
      assert DecidesAt(entries, device);
    }
  }

  lemma {:induction false} WireStatementsOfConcat(a: seq<Selector>, b: seq<Selector>, gpu: GpuDevice, facet: Facet)
    ensures WireStatements(a + b, gpu, facet) == WireStatements(a, gpu, facet) + WireStatements(b, gpu, facet)
  {
    if a == [] {
      assert a + b == b;
    } else {
      assert (a + b)[1..] == a[1..] + b;
      WireStatementsOfConcat(a[1..], b, gpu, facet);
    }
  }

  // What one more selector adds to the statements read so far.
  lemma NextStatement(selectors: seq<Selector>, k: nat, gpu: GpuDevice, facet: Facet)
    requires k < |selectors|
    requires First(WireStatements(selectors[..k], gpu, facet), Location).None?
    ensures var seen := WireStatements(selectors[..k], gpu, facet);
            var next := WireStatements(selectors[..k + 1], gpu, facet);
            var stated := WireStated(selectors[k], gpu, facet);
            if stated == [] then next == seen
            else if stated[0].scope == Location then
              ByPrecedence(WireStatements(selectors, gpu, facet)) == Some(stated[0])
            else
              && First(next, Location).None?
              && ByPrecedence(next) == if stated[0].scope == Device && BySubsystem(ByPrecedence(seen)) then ByPrecedence(seen) else Some(stated[0])
  {
    var seen := WireStatements(selectors[..k], gpu, facet);
    var stated := WireStated(selectors[k], gpu, facet);
    var rest := WireStatements(selectors[k + 1..], gpu, facet);
    assert selectors[..k + 1] == selectors[..k] + [selectors[k]];
    WireStatementsOfConcat(selectors[..k], [selectors[k]], gpu, facet);
    assert [selectors[k]][1..] == [];
    assert WireStatements([selectors[k]], gpu, facet) == stated + [] == stated;
    if stated == [] {
      assert seen + stated == seen;
    } else {
      FirstOfConcat(seen, stated, Location);
      if stated[0].scope == Location {
        assert selectors == selectors[..k + 1] + selectors[k + 1..];
        WireStatementsOfConcat(selectors[..k + 1], selectors[k + 1..], gpu, facet);
        FirstOfConcat(seen + stated, rest, Location);
      } else {
        assert (seen + stated)[..|seen|] == seen;
        LastHasScope(seen, Subsystem);
        LastHasScope(seen, Device);
      }
    }
  }

  predicate BySubsystem(entry: Option<Entry>) { entry.Some? && entry.value.scope == Subsystem }

  lemma {:induction false} LastHasScope(entries: seq<Entry>, scope: MatchScope)
    ensures Last(entries, scope).Some? ==> Last(entries, scope).value.scope == scope
  {
    if entries != [] {
      LastHasScope(entries[..|entries| - 1], scope);
    }
  }

  // The pass's running answer, given the statements read so far.
  function SizeSoFar(entry: Option<Entry>): SizeDecision {
    if entry.None? then SizeDecision(Unconfigured, None)
    else SizeDecision(PriorityOf(entry.value.scope), Some(entry.value.value))
  }

  function MaskSoFar(entry: Option<Entry>): MaskDecision {
    if entry.None? then MaskDecision(Unconfigured, false)
    else MaskDecision(PriorityOf(entry.value.scope), entry.value.value == 1)
  }

  // The driver's single pass over the selectors.
  method LookupBarSize(config: Config, gpu: GpuDevice, registry: Registry) returns (result: SizeDecision)
    ensures result == DecideSize(config, gpu, registry)
  {
    result := SizeDecision(Unconfigured, None);
    for k := 0 to |config.selectors|
      invariant First(WireStatements(config.selectors[..k], gpu, Size), Location).None?
      invariant result == SizeSoFar(ByPrecedence(WireStatements(config.selectors[..k], gpu, Size)))
      invariant result.priority != ExplicitLocation
    {
      var selector := config.selectors[k];
      NextStatement(config.selectors, k, gpu, Size);
      if selector.deviceId != gpu.deviceId { continue; }
      if HasSubsystem(selector) {
        if !MatchesSubsystem(selector, gpu) { continue; }
        if HasLocation(selector) {
          if MatchesLocation(selector, gpu) && selector.size != BAR_SIZE_NONE {
            return SizeDecision(ExplicitLocation, Some(selector.size));
          }
        } else if selector.size != BAR_SIZE_NONE {
          result := SizeDecision(ExplicitSubsystem, Some(selector.size));
        }
      } else if !(result.priority.ExplicitSubsystem? || result.priority.ExplicitLocation?) && selector.size != BAR_SIZE_NONE {
        result := SizeDecision(ExplicitDevice, Some(selector.size));
      }
    }
    assert config.selectors[..|config.selectors|] == config.selectors;
    if result.priority.Unconfigured? && Mode(config.flags) != 0 {
      if registry(gpu.deviceId).Some? {
        return SizeDecision(FoundGlobal, registry(gpu.deviceId));
      }
      if Mode(config.flags) > 1 && IsTuringId(gpu.deviceId) {
        return SizeDecision(ImpliedGlobal, Some(5));
      }
    }
  }

  method LookupMaskOverride(config: Config, gpu: GpuDevice) returns (result: MaskDecision)
    ensures result == DecideMask(config, gpu)
  {
    result := MaskDecision(Unconfigured, false);
    for k := 0 to |config.selectors|
      invariant First(WireStatements(config.selectors[..k], gpu, Mask), Location).None?
      invariant result == MaskSoFar(ByPrecedence(WireStatements(config.selectors[..k], gpu, Mask)))
      invariant result.priority != ExplicitLocation
    {
      var selector := config.selectors[k];
      NextStatement(config.selectors, k, gpu, Mask);
      if selector.deviceId != gpu.deviceId { continue; }
      if HasSubsystem(selector) {
        if !MatchesSubsystem(selector, gpu) { continue; }
        if HasLocation(selector) {
          if MatchesLocation(selector, gpu) && selector.mask != 0 {
            return MaskDecision(ExplicitLocation, selector.mask != 255);
          }
        } else if selector.mask != 0 {
          result := MaskDecision(ExplicitSubsystem, selector.mask != 255);
        }
      } else if !(result.priority.ExplicitSubsystem? || result.priority.ExplicitLocation?) && selector.mask != 0 {
        result := MaskDecision(ExplicitDevice, selector.mask != 255);
      }
    }
    assert config.selectors[..|config.selectors|] == config.selectors;
    if result.priority.Unconfigured? {
      result := MaskDecision(FoundGlobal, OverridesMask(config.flags));
    }
  }
}
