// Between a configuration draft and the wire configuration: what each direction keeps.
module DraftWire {
  import opened Prelude
  import opened Lists
  import opened Hardware
  import opened BarRules
  import opened DraftRules
  import opened CoreConfig
  import opened ConfigCodec

  function SelectorFromRule(rule: GpuRule): Selector {
    var size := if rule.size.Some? then rule.size.value else BAR_SIZE_NONE;
    var mask := if rule.mask.None? then 0 else if rule.mask.value then 1 else 255;
    match rule.scope
    case Device => Selector(rule.deviceId, ANY16, ANY16, ANY8, ANY8, ANY8, size, mask)
    case Subsystem => Selector(rule.deviceId, rule.subVendor, rule.subDevice, ANY8, ANY8, ANY8, size, mask)
    case Location => Selector(rule.deviceId, rule.subVendor, rule.subDevice, rule.bus, rule.device, rule.fn, size, mask)
  }

  function RuleFromSelector(s: Selector): GpuRule {
    var scope := if HasLocation(s) then Location else if HasSubsystem(s) then Subsystem else Device;
    GpuRule(scope, s.deviceId, s.subVendor, s.subDevice, s.bus, s.device, s.fn,
            if s.size == BAR_SIZE_NONE then None else Some(s.size),
            if s.mask == 0 then None else Some(s.mask != 255))
  }

  function SelectorsFromRules(rules: seq<GpuRule>): seq<Selector> {
    if rules == [] then [] else [SelectorFromRule(rules[0])] + SelectorsFromRules(rules[1..])
  }

  function RulesFromSelectors(selectors: seq<Selector>): seq<GpuRule> {
    if selectors == [] then [] else [RuleFromSelector(selectors[0])] + RulesFromSelectors(selectors[1..])
  }

  function Bit(isSet: bool, value: u16): u16 { if isSet then value else 0 }

  function OptionFlags(draft: ConfigDraft): u16 {
    draft.globalMode % 4 + Bit(draft.skipS3Resume, 4) + Bit(draft.overrideBarSizeMask, 8) + Bit(!draft.guardSetupChanges, 32)
  }

  // The wire configuration before any hardware record is added.
  function WireConfig(draft: ConfigDraft): Config {
    Config(draft.targetPciBarSize, OptionFlags(draft), 0, SelectorsFromRules(draft.rules), [], [])
  }

  function DraftFromConfig(config: Config): ConfigDraft {
    ConfigDraft(Mode(config.flags), config.target, SkipsS3(config.flags), OverridesMask(config.flags),
                SetupCrcEnabled(config.flags), RulesFromSelectors(config.selectors))
  }

  function RoundTripped(draft: ConfigDraft): ConfigDraft { DraftFromConfig(WireConfig(draft)) }

  // ---------------------------------------------------------------- settings

  predicate SameSettings(a: ConfigDraft, b: ConfigDraft) {
    && a.globalMode == b.globalMode
    && a.targetPciBarSize == b.targetPciBarSize
    && a.skipS3Resume == b.skipS3Resume
    && a.overrideBarSizeMask == b.overrideBarSizeMask
    && a.guardSetupChanges == b.guardSetupChanges
  }

  // The option bits do not overlap, so all five settings come back, as long as the mode fits its
  // two bits.
  lemma SettingsRoundTrip(draft: ConfigDraft)
    ensures SameSettings(RoundTripped(draft), draft) <==> draft.globalMode <= 3
  {
    var f := OptionFlags(draft);
    var m := draft.globalMode % 4;
    assert f == m + Bit(draft.skipS3Resume, 4) + Bit(draft.overrideBarSizeMask, 8) + Bit(!draft.guardSetupChanges, 32);
    assert f % 4 == m;
  }

  // Each setting has bits of its own: the mode the lowest two, then 4, 8 and, when setup changes are
  // not guarded, 32; nothing else is ever set.
  lemma FlagBits(draft: ConfigDraft)
    ensures var f := OptionFlags(draft);
            && f % 4 == draft.globalMode % 4
            && (f / 4 % 2 == 1 <==> draft.skipS3Resume) && (f / 8 % 2 == 1 <==> draft.overrideBarSizeMask)
            && (f / 32 % 2 == 1 <==> !draft.guardSetupChanges)
            && f / 16 % 2 == 0 && f < 64
  {
    var f := OptionFlags(draft);
    var m := draft.globalMode % 4;
    assert f == m + Bit(draft.skipS3Resume, 4) + Bit(draft.overrideBarSizeMask, 8) + Bit(!draft.guardSetupChanges, 32);
  }

  // A selector says "no size" by 255, and of the mask nothing, yes or no by 0, 1 and 255.
  lemma SelectorSays(rule: GpuRule)
    requires OwnProblem(rule).None?
    ensures var s := SelectorFromRule(rule);
            && s.deviceId == rule.deviceId
            && (s.size == 255 <==> rule.size.None?) && (rule.size.Some? ==> s.size == rule.size.value)
            && (s.mask == 0 <==> rule.mask.None?) && (s.mask == 1 <==> rule.mask == Some(true)) && (s.mask == 255 <==> rule.mask == Some(false))
  {
  }

  // ---------------------------------------------------------------- one rule

  // Where the client and a rule that came back agree: every GPU the rule reached, at the same scope.
  ghost predicate SameReachEverywhere(a: GpuRule, b: GpuRule) {
    forall gpu :: RuleMatches(a, gpu) == RuleMatches(b, gpu)
  }

  predicate NoWildcardId(rule: GpuRule) {
    rule.subVendor != ANY16 && rule.subDevice != ANY16
  }

  // A subsystem rule naming 0xFFFF is taken for a device rule on the way back.
  predicate SurvivesRoundTrip(rule: GpuRule) {
    rule.scope == Subsystem ==> NoWildcardId(rule)
  }

  // The driver reads a selector without a subsystem as a device selector, even one with a location.
  predicate SurvivesLookup(rule: GpuRule) {
    rule.scope != Device ==> NoWildcardId(rule)
  }

  function Witness(rule: GpuRule, subVendor: u16, subDevice: u16): GpuDevice {
    GpuDevice(0, rule.deviceId, subVendor, subDevice, 0, 0, 0, PciBridge(0, 0, 0, 0, 0), 0, 0, 0, false, None)
  }

  lemma RuleRoundTrip(rule: GpuRule)
    requires OwnProblem(rule).None?
    ensures var back := RuleFromSelector(SelectorFromRule(rule));
            && back.size == rule.size && back.mask == rule.mask
            && (SurvivesRoundTrip(rule) ==> back.scope == rule.scope && OwnProblem(back).None?)
            && (SameReachEverywhere(back, rule) <==> SurvivesRoundTrip(rule))
  {
    var back := RuleFromSelector(SelectorFromRule(rule));
    if !SurvivesRoundTrip(rule) {
      var gpu := Witness(rule, 0, 0);
      assert RuleMatches(back, gpu) && !RuleMatches(rule, gpu);
    }
  }

  // A rule means the same to the driver as to the client for every GPU, exactly when no subsystem
  // or location rule names 0xFFFF.
  lemma DriverReadsRule(rule: GpuRule)
    requires OwnProblem(rule).None?
    ensures SurvivesLookup(rule) <==>
            forall gpu :: Reach(SelectorFromRule(rule), gpu) == if RuleMatches(rule, gpu) then Some(rule.scope) else None
  {
    if !SurvivesLookup(rule) {
      var gpu := Witness(rule, 0, 0);
      assert Reach(SelectorFromRule(rule), gpu) == Some(Device);
      assert !RuleMatches(rule, gpu);
    }
  }

  // ---------------------------------------------------------------- whole drafts

  lemma {:induction false} DriverStatements(rules: seq<GpuRule>, gpu: GpuDevice, facet: Facet)
    requires forall r :: r in rules ==> OwnProblem(r).None? && SurvivesLookup(r)
    ensures WireStatements(SelectorsFromRules(rules), gpu, facet) == Statements(rules, gpu, facet)
  {
    if rules != [] {
      var rule := rules[0];
      assert rule in rules;
      DriverReadsRule(rule);
      assert Reach(SelectorFromRule(rule), gpu) == if RuleMatches(rule, gpu) then Some(rule.scope) else None;
      assert WireStated(SelectorFromRule(rule), gpu, facet) == Stated(rule, gpu, facet);
      DriverStatements(rules[1..], gpu, facet);
    }
  }

  // Where the client shows a deciding rule the driver decides the same by a rule; elsewhere the
  // global settings decide.
  predicate DriverDecides(draft: ConfigDraft, gpu: GpuDevice, registry: Registry) {
    var size, mask := DecidingSize(draft.rules, gpu), DecidingMask(draft.rules, gpu);
    var decision := DecideSize(WireConfig(draft), gpu, registry);
    && (if size.Some? then decision.selector == size && decision.priority in {ExplicitDevice, ExplicitSubsystem, ExplicitLocation}
        else decision == GlobalSize(OptionFlags(draft), gpu.deviceId, registry))
    && DecideMask(WireConfig(draft), gpu).enabled == if mask.Some? then mask.value == 1 else draft.overrideBarSizeMask
  }

  lemma DriverDecidesAsShown(draft: ConfigDraft, gpu: GpuDevice, registry: Registry)
    requires forall r :: r in draft.rules ==> OwnProblem(r).None? && SurvivesLookup(r)
    ensures DriverDecides(draft, gpu, registry)
  {
    DriverStatements(draft.rules, gpu, Size);
    DriverStatements(draft.rules, gpu, Mask);
    SettingsOfFlags(draft);
  }

  // The driver hears at least what the client shows; a GPU with zero subsystem ids hears more of a
  // rule that names 0xFFFF.
  lemma {:induction false} DriverNeverHearsLess(rules: seq<GpuRule>, gpu: GpuDevice)
    requires forall r :: r in rules ==> OwnProblem(r).None?
    ensures |WireStatements(SelectorsFromRules(rules), gpu, Size)| >= |Statements(rules, gpu, Size)|
    ensures |WireStatements(SelectorsFromRules(rules), gpu, Mask)| >= |Statements(rules, gpu, Mask)|
    ensures (exists r :: r in rules && !SurvivesLookup(r) && r.deviceId == gpu.deviceId && gpu.subVendor == gpu.subDevice == 0) ==>
              |WireStatements(SelectorsFromRules(rules), gpu, Size)| + |WireStatements(SelectorsFromRules(rules), gpu, Mask)|
              > |Statements(rules, gpu, Size)| + |Statements(rules, gpu, Mask)|
  {
    if rules != [] {
      assert rules[0] in rules;
      DriverHearsRule(rules[0], gpu);
      DriverNeverHearsLess(rules[1..], gpu);
    }
  }

  lemma DriverHearsRule(rule: GpuRule, gpu: GpuDevice)
    requires OwnProblem(rule).None?
    ensures var selector := SelectorFromRule(rule);
            && |WireStated(selector, gpu, Size)| >= |Stated(rule, gpu, Size)|
            && |WireStated(selector, gpu, Mask)| >= |Stated(rule, gpu, Mask)|
            && (!SurvivesLookup(rule) && rule.deviceId == gpu.deviceId && gpu.subVendor == gpu.subDevice == 0 ==>
                  |WireStated(selector, gpu, Size)| + |WireStated(selector, gpu, Mask)| > |Stated(rule, gpu, Size)| + |Stated(rule, gpu, Mask)|)
  {
  }

  // Client and driver hear the same of a draft, for every GPU, exactly when no subsystem or location
  // rule names 0xFFFF. Then the client's preview of who decides is the driver's own decision.
  lemma DriverAgreesWithClient(draft: ConfigDraft, registry: Registry)
    requires forall r :: r in draft.rules ==> OwnProblem(r).None?
    ensures (forall gpu, facet :: WireStatements(SelectorsFromRules(draft.rules), gpu, facet) == Statements(draft.rules, gpu, facet))
            <==> forall r :: r in draft.rules ==> SurvivesLookup(r)
    ensures (forall r :: r in draft.rules ==> SurvivesLookup(r)) ==> forall gpu :: DriverDecides(draft, gpu, registry)
  {
    if forall r :: r in draft.rules ==> SurvivesLookup(r) {
      forall gpu {
        DriverDecidesAsShown(draft, gpu, registry);
      }
      forall gpu, facet
        ensures WireStatements(SelectorsFromRules(draft.rules), gpu, facet) == Statements(draft.rules, gpu, facet)
      {
        DriverStatements(draft.rules, gpu, facet);
      }
    } else {
      var r :| r in draft.rules && !SurvivesLookup(r);
      DriverNeverHearsLess(draft.rules, Witness(r, 0, 0));
    }
  }

  lemma SettingsOfFlags(draft: ConfigDraft)
    ensures Mode(OptionFlags(draft)) == draft.globalMode % 4
    ensures SkipsS3(OptionFlags(draft)) == draft.skipS3Resume
    ensures OverridesMask(OptionFlags(draft)) == draft.overrideBarSizeMask
    ensures SetupCrcEnabled(OptionFlags(draft)) == draft.guardSetupChanges
  {
    var m := draft.globalMode % 4;
    assert OptionFlags(draft) == m + Bit(draft.skipS3Resume, 4) + Bit(draft.overrideBarSizeMask, 8) + Bit(!draft.guardSetupChanges, 32);
  }

  // The condition is needed: the backend accepts a location rule for a GPU whose own subsystem ids are
  // 0xFFFF, and the driver then applies it to another GPU of that model, for which the client shows
  // no rule.
  lemma DriverDisagreesOnWildcardLocation()
    ensures exists draft, devices, gpu, registry: Registry ::
              && ValidDraft(draft, devices) && gpu in devices
              && DecidingSize(draft.rules, gpu).None?
              && DecideSize(WireConfig(draft), gpu, registry).selector == Some(7)
  {
    var rule := GpuRule(Location, 0x1E81, ANY16, ANY16, 1, 0, 0, Some(7), None);
    var own := Witness(rule, ANY16, ANY16).(bus := 1);
    var gpu := Witness(rule, 0x1462, 0x3755).(bus := 2);
    var draft := ConfigDraft(0, 0, false, false, true, [rule]);
    var registry: Registry := id => None;
    assert RuleMatches(rule, own) && own in [own, gpu] && gpu in [own, gpu];
    assert ValidDraft(draft, [own, gpu]);
    assert Statements([rule], gpu, Size) == [] by { StatementsOfOne(rule, gpu, Size); }
    var selector := SelectorFromRule(rule);
    assert SelectorsFromRules([rule]) == [selector] by {
      assert [rule][1..] == [];
    }
    assert WireStatements([selector], gpu, Size) == [Entry(Device, 7)] by {
      assert WireStated(selector, gpu, Size) == [Entry(Device, 7)];
      assert [selector][1..] == [];
    }
    LoneDeviceEntry(7);
    assert DecideSize(WireConfig(draft), gpu, registry).selector == Some(7);
  }

  lemma LoneDeviceEntry(value: u8)
    ensures ByPrecedence([Entry(Device, value)]) == Some(Entry(Device, value))
  {
    assert [Entry(Device, value)][..0] == [] && [Entry(Device, value)][1..] == [];
    assert First([Entry(Device, value)], Location) == None;
    assert Last([Entry(Device, value)], Subsystem) == None;
  }

  lemma {:induction false} RulesRoundTrip(rules: seq<GpuRule>, gpu: GpuDevice, facet: Facet)
    requires forall r :: r in rules ==> OwnProblem(r).None? && SurvivesRoundTrip(r)
    ensures Statements(RulesFromSelectors(SelectorsFromRules(rules)), gpu, facet) == Statements(rules, gpu, facet)
  {
    if rules != [] {
      assert rules[0] in rules;
      RuleRoundTrip(rules[0]);
      assert RuleMatches(RuleFromSelector(SelectorFromRule(rules[0])), gpu) == RuleMatches(rules[0], gpu);
      assert Stated(RuleFromSelector(SelectorFromRule(rules[0])), gpu, facet) == Stated(rules[0], gpu, facet);
      RulesRoundTrip(rules[1..], gpu, facet);
    }
  }

  // For the other direction: a GPU whose subsystem ids are zero hears more after the round trip.
  lemma {:induction false} RoundTripNeverSaysLess(rules: seq<GpuRule>, gpu: GpuDevice)
    requires forall r :: r in rules ==> OwnProblem(r).None?
    ensures |Statements(RulesFromSelectors(SelectorsFromRules(rules)), gpu, Size)| >= |Statements(rules, gpu, Size)|
    ensures |Statements(RulesFromSelectors(SelectorsFromRules(rules)), gpu, Mask)| >= |Statements(rules, gpu, Mask)|
    ensures (exists r :: r in rules && !SurvivesRoundTrip(r) && r.deviceId == gpu.deviceId && gpu.subVendor == gpu.subDevice == 0) ==>
              |Statements(RulesFromSelectors(SelectorsFromRules(rules)), gpu, Size)|
              + |Statements(RulesFromSelectors(SelectorsFromRules(rules)), gpu, Mask)|
              > |Statements(rules, gpu, Size)| + |Statements(rules, gpu, Mask)|
  {
    if rules != [] {
      assert rules[0] in rules;
      RuleRoundTrip(rules[0]);
      RoundTripNeverSaysLess(rules[1..], gpu);
    }
  }

  // Every GPU is told exactly the same by the draft that came back, exactly when no subsystem rule
  // names 0xFFFF; then every deciding size and mask override is the same too.
  lemma DraftRoundTrip(draft: ConfigDraft, devices: seq<GpuDevice>)
    requires ValidDraft(draft, devices)
    ensures SameSettings(RoundTripped(draft), draft)
    ensures (forall gpu, facet :: Statements(RoundTripped(draft).rules, gpu, facet) == Statements(draft.rules, gpu, facet))
            <==> (forall r :: r in draft.rules ==> SurvivesRoundTrip(r))
    ensures (forall r :: r in draft.rules ==> SurvivesRoundTrip(r)) ==>
              forall gpu ::
                && DecidingSize(RoundTripped(draft).rules, gpu) == DecidingSize(draft.rules, gpu)
                && DecidingMask(RoundTripped(draft).rules, gpu) == DecidingMask(draft.rules, gpu)
                && Choice(RoundTripped(draft).rules, gpu) == Choice(draft.rules, gpu)
  {
    SettingsRoundTrip(draft);
    if forall r :: r in draft.rules ==> SurvivesRoundTrip(r) {
      forall gpu, facet {
        RulesRoundTrip(draft.rules, gpu, facet);
      }
      assert forall gpu :: Statements(RoundTripped(draft).rules, gpu, Size) == Statements(draft.rules, gpu, Size);
      assert forall gpu :: Statements(RoundTripped(draft).rules, gpu, Mask) == Statements(draft.rules, gpu, Mask);
    } else {
      var r :| r in draft.rules && !SurvivesRoundTrip(r);
      var gpu := Witness(r, 0, 0);
      RoundTripNeverSaysLess(draft.rules, gpu);
    }
  }

  // A second trip changes nothing more, unless a subsystem rule named 0xFFFF in just one id.
  predicate SettlesAtOnce(rule: GpuRule) {
    rule.scope == Subsystem ==> (rule.subVendor == ANY16 <==> rule.subDevice == ANY16)
  }

  lemma {:induction false} RulesSettle(rules: seq<GpuRule>)
    requires forall r :: r in rules ==> OwnProblem(r).None?
    ensures var once := RulesFromSelectors(SelectorsFromRules(rules));
            RulesFromSelectors(SelectorsFromRules(once)) == once <==> forall r :: r in rules ==> SettlesAtOnce(r)
  {
    if rules != [] {
      var once := RulesFromSelectors(SelectorsFromRules(rules));
      var first := RuleFromSelector(SelectorFromRule(rules[0]));
      assert rules[0] in rules && forall r :: r in rules <==> r == rules[0] || r in rules[1..];
      assert once[0] == first && once[1..] == RulesFromSelectors(SelectorsFromRules(rules[1..]));
      assert RuleFromSelector(SelectorFromRule(first)) == first <==> SettlesAtOnce(rules[0]);
      RulesSettle(rules[1..]);
      var twice := RulesFromSelectors(SelectorsFromRules(once));
      assert twice[0] == RuleFromSelector(SelectorFromRule(first));
      assert twice[1..] == RulesFromSelectors(SelectorsFromRules(once[1..]));
      assert twice == [twice[0]] + twice[1..] && once == [once[0]] + once[1..];
    }
  }

  lemma SecondRoundTrip(draft: ConfigDraft, devices: seq<GpuDevice>)
    requires ValidDraft(draft, devices)
    ensures RoundTripped(RoundTripped(draft)) == RoundTripped(draft) <==> forall r :: r in draft.rules ==> SettlesAtOnce(r)
  {
    SettingsRoundTrip(draft);
    SettingsRoundTrip(RoundTripped(draft));
    RulesSettle(draft.rules);
  }

  // ---------------------------------------------------------------- through the variable

  // The one slot whose stored location reads as "any location".
  predicate AtTopSlot(rule: GpuRule) {
    rule.scope == Location && rule.bus == ANY8 && rule.device == 31 && rule.fn == 7
  }

  lemma RuleStays(rule: GpuRule)
    requires OwnProblem(rule).None?
    ensures StoredSelector(SelectorFromRule(rule)) == SelectorFromRule(rule) <==> !AtTopSlot(rule)
  {
    var s := SelectorFromRule(rule);
    StorableExactly(s.bus, s.device, s.fn);
  }

  lemma RuleStaysAt(rules: seq<GpuRule>, i: nat)
    requires i < |rules| && OwnProblem(rules[i]).None?
    ensures i < |SelectorsFromRules(rules)| && SelectorsFromRules(rules)[i] == SelectorFromRule(rules[i])
    ensures StoredSelector(SelectorsFromRules(rules)[i]) == SelectorsFromRules(rules)[i] <==> !AtTopSlot(rules[i])
  {
    SelectorPerRule(rules);
    RuleStays(rules[i]);
  }

  lemma StoredSelectors(rules: seq<GpuRule>)
    requires forall r :: r in rules ==> OwnProblem(r).None?
    ensures MapAll(StoredSelector, SelectorsFromRules(rules)) == SelectorsFromRules(rules) <==> forall r :: r in rules ==> !AtTopSlot(r)
  {
    var selectors := SelectorsFromRules(rules);
    SelectorPerRule(rules);
    MapIsIdentity(StoredSelector, selectors);
    forall i | 0 <= i < |rules|
      ensures selectors[i] in selectors && (StoredSelector(selectors[i]) == selectors[i] <==> !AtTopSlot(rules[i]))
    {
      RuleStaysAt(rules, i);
    }
  }

  // Storing a selector moves nothing but its slot, which the rule read from it carries.
  lemma {:induction false} StoredRulesDiffer(selectors: seq<Selector>)
    ensures RulesFromSelectors(MapAll(StoredSelector, selectors)) == RulesFromSelectors(selectors) <==> MapAll(StoredSelector, selectors) == selectors
  {
    if selectors != [] {
      var stored := MapAll(StoredSelector, selectors);
      StoredRulesDiffer(selectors[1..]);
      assert stored[0] == StoredSelector(selectors[0]) && stored[1..] == MapAll(StoredSelector, selectors[1..]);
      RuleShowsStorage(selectors[0]);
      SplitEqual(stored, selectors);
      SplitEqual(RulesFromSelectors(stored), RulesFromSelectors(selectors));
      assert RulesFromSelectors(stored)[1..] == RulesFromSelectors(stored[1..]);
      assert RulesFromSelectors(selectors)[1..] == RulesFromSelectors(selectors[1..]);
    }
  }

  lemma RuleShowsStorage(s: Selector)
    ensures RuleFromSelector(StoredSelector(s)) == RuleFromSelector(s) <==> StoredSelector(s) == s
  {
  }

  lemma SplitEqual<T>(a: seq<T>, b: seq<T>)
    requires a != [] && b != []
    ensures a == b <==> a[0] == b[0] && a[1..] == b[1..]
  {
    assert a == [a[0]] + a[1..] && b == [b[0]] + b[1..];
  }

  lemma StoredRules(rules: seq<GpuRule>)
    requires forall r :: r in rules ==> OwnProblem(r).None?
    ensures RulesFromSelectors(MapAll(StoredSelector, SelectorsFromRules(rules))) == RulesFromSelectors(SelectorsFromRules(rules))
            <==> forall r :: r in rules ==> !AtTopSlot(r)
  {
    StoredRulesDiffer(SelectorsFromRules(rules));
    StoredSelectors(rules);
  }

  // What the client reads back after a draft was saved: the same settings exactly when something
  // keeps the driver configured or nothing but defaults was set, and the same rules exactly when no
  // location rule sits at the top slot.
  lemma SavedDraftReadsBack(draft: ConfigDraft, devices: seq<GpuDevice>, gpus: seq<GpuRecord>, bridges: seq<BridgeRecord>)
    requires ValidDraft(draft, devices) && |gpus| <= MAX_GPUS && |bridges| <= MAX_BRIDGES
    ensures var config := WireConfig(draft).(gpus := gpus, bridges := bridges);
            && Encoded(config).Ok?
            && Decoded(Encoded(config).value).Ok?
            && var read := DraftFromConfig(Decoded(Encoded(config).value).value);
            && (SameSettings(read, draft) <==>
                DriverConfigured(config) || (!draft.skipS3Resume && !draft.overrideBarSizeMask && draft.guardSetupChanges))
            && (read.rules == RoundTripped(draft).rules <==> forall r :: r in draft.rules ==> !AtTopSlot(r))
  {
    var config := WireConfig(draft).(gpus := gpus, bridges := bridges);
    SelectorPerRule(draft.rules);
    ReadBack(config);
    SettingsOfFlags(draft);
    SettingsRoundTrip(draft);
    StoredRules(draft.rules);
    assert Mode(0) == 0;
    if !DriverConfigured(config) {
      assert draft.rules == [];
    }
  }

  lemma {:induction false} SelectorPerRule(rules: seq<GpuRule>)
    ensures |SelectorsFromRules(rules)| == |rules|
    ensures forall i :: 0 <= i < |rules| ==> SelectorsFromRules(rules)[i] == SelectorFromRule(rules[i])
  {
    if rules != [] {
      SelectorPerRule(rules[1..]);
    }
  }
}
