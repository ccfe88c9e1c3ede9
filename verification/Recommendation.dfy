// The checked way from a draft to a complete configuration, and the configuration the backend
// recommends for an inventory.
module Recommendation {
  import opened Prelude
  import opened Lists
  import opened Hardware
  import opened BarRules
  import opened DraftRules
  import opened CoreConfig
  import opened DraftWire
  import opened HardwareRecords

  datatype ConfigFailure = InDraft(problem: DraftError) | InHardware(fault: HardwareError)

  predicate Accepted(draft: ConfigDraft, devices: seq<GpuDevice>, registry: Registry) {
    ValidDraft(draft, devices) && HardwareFits(WireConfig(draft), registry, devices)
  }

  function FullConfig(draft: ConfigDraft, devices: seq<GpuDevice>, registry: Registry): Config {
    WithHardware(WireConfig(draft), Selected(WireConfig(draft), registry, devices))
  }

  method ConfigFromDraft(draft: ConfigDraft, devices: seq<GpuDevice>, registry: Registry)
    returns (r: Result<Config, ConfigFailure>)
    ensures r.Ok? <==> Accepted(draft, devices, registry)
    ensures r.Ok? ==> r.value == FullConfig(draft, devices, registry)
    ensures r.Err? ==> (r.error.InDraft? <==> !ValidDraft(draft, devices))
  {
    var validated := ValidateDraft(draft, devices);
    if validated.Err? { return Err(InDraft(validated.error)); }
    var populated := PopulateHardware(WireConfig(draft), registry, devices);
    if populated.Err? { return Err(InHardware(populated.error)); }
    return Ok(populated.value);
  }

  // ---------------------------------------------------------------- the recommendation

  datatype Recommended = Recommended(draft: ConfigDraft, turing: nat, registryManaged: nat, fallbackRules: nat)

  datatype RecommendError = NoTuringGpu | NoSafeFallback(gpu: GpuDevice) | NotConfigurable(failure: ConfigFailure)

  predicate IsUnlisted(gpu: GpuDevice, registry: Registry) { gpu.isTuring && registry(gpu.deviceId).None? }

  function Turing(devices: seq<GpuDevice>): seq<GpuDevice> {
    Filter((gpu: GpuDevice) => gpu.isTuring, devices)
  }

  function Unlisted(devices: seq<GpuDevice>, registry: Registry): seq<GpuDevice> {
    Filter((gpu: GpuDevice) => IsUnlisted(gpu, registry), devices)
  }

  function FallbackRule(gpu: GpuDevice): GpuRule {
    GpuRule(Location, gpu.deviceId, gpu.subVendor, gpu.subDevice, gpu.bus, gpu.device, gpu.fn, gpu.recommendedSelector, None)
  }

  // The sort key (bus, device, function, device id, subsystem ids) as one number.
  function RuleKey(rule: GpuRule): int {
    (((((rule.bus as int * 0x100 + rule.device as int) * 0x100 + rule.fn as int) * 0x1_0000 + rule.deviceId as int)
      * 0x1_0000 + rule.subVendor as int) * 0x1_0000) + rule.subDevice as int
  }

  // The number orders rules as the tuple does, first part first.
  lemma KeyIsLexicographic(a: GpuRule, b: GpuRule)
    ensures RuleKey(a) < RuleKey(b) <==>
              || a.bus < b.bus
              || (a.bus == b.bus &&
                  (|| a.device < b.device
                   || (a.device == b.device &&
                       (|| a.fn < b.fn
                        || (a.fn == b.fn &&
                            (|| a.deviceId < b.deviceId
                             || (a.deviceId == b.deviceId &&
                                 (|| a.subVendor < b.subVendor
                                  || (a.subVendor == b.subVendor && a.subDevice < b.subDevice)))))))))
    ensures RuleKey(a) == RuleKey(b) <==>
              && a.bus == b.bus && a.device == b.device && a.fn == b.fn
              && a.deviceId == b.deviceId && a.subVendor == b.subVendor && a.subDevice == b.subDevice
  {
  }

  function RecommendedDraft(devices: seq<GpuDevice>, registry: Registry): ConfigDraft {
    ConfigDraft(1, 0, false, false, true, SortBy(RuleKey, MapAll(FallbackRule, Unlisted(devices, registry))))
  }

  predicate Recommendable(devices: seq<GpuDevice>, registry: Registry) {
    && (exists g :: g in devices && g.isTuring)
    && SafeFallbacks(devices, registry)
    && Accepted(RecommendedDraft(devices, registry), devices, registry)
  }

  function RecommendationFor(devices: seq<GpuDevice>, registry: Registry): Recommended {
    var turing, unlisted := |Turing(devices)|, |Unlisted(devices, registry)|;
    UnlistedAreTuring(devices, registry);
    Recommended(RecommendedDraft(devices, registry), turing, turing - unlisted, unlisted)
  }

  lemma {:induction false} UnlistedAreTuring(devices: seq<GpuDevice>, registry: Registry)
    ensures |Unlisted(devices, registry)| <= |Turing(devices)|
  {
    if devices != [] {
      UnlistedAreTuring(devices[1..], registry);
    }
  }

  lemma {:induction false} UnlistedOfTuring(devices: seq<GpuDevice>, registry: Registry)
    ensures Unlisted(Turing(devices), registry) == Unlisted(devices, registry)
  {
    if devices != [] {
      UnlistedOfTuring(devices[1..], registry);
      var head := if devices[0].isTuring then [devices[0]] else [];
      FilterConcat((gpu: GpuDevice) => IsUnlisted(gpu, registry), head, Turing(devices[1..]));
    }
  }

  lemma SortedSize(rules: seq<GpuRule>)
    ensures |SortBy(RuleKey, rules)| == |rules|
  {
    SortBySorts(RuleKey, rules);
    SameLength(SortBy(RuleKey, rules), rules);
  }

  predicate SafeFallbacks(gpus: seq<GpuDevice>, registry: Registry) {
    forall g :: g in gpus && IsUnlisted(g, registry) ==> g.recommendedSelector.Some?
  }

  lemma NextFallback(gpus: seq<GpuDevice>, i: nat, registry: Registry)
    requires i < |gpus|
    ensures MapAll(FallbackRule, Unlisted(gpus[..i + 1], registry))
         == MapAll(FallbackRule, Unlisted(gpus[..i], registry)) + if IsUnlisted(gpus[i], registry) then [FallbackRule(gpus[i])] else []
    ensures SafeFallbacks(gpus[..i + 1], registry) <==>
              SafeFallbacks(gpus[..i], registry) && (IsUnlisted(gpus[i], registry) ==> gpus[i].recommendedSelector.Some?)
  {
    var before := Unlisted(gpus[..i], registry);
    FilterSplit((gpu: GpuDevice) => IsUnlisted(gpu, registry), gpus, i);
    assert gpus[..i + 1] == gpus[..i] + [gpus[i]];
    MapConcat(FallbackRule, before, [gpus[i]]);
    assert MapAll(FallbackRule, [gpus[i]]) == [FallbackRule(gpus[i])];
    assert before + [] == before;
  }

  // The loop over the Turing GPUs: which the built-in list covers, and a rule for each of the rest.
  method CollectFallbacks(turing: seq<GpuDevice>, registry: Registry)
    returns (r: Result<seq<GpuRule>, GpuDevice>, registryManaged: nat)
    requires forall g :: g in turing ==> g.isTuring
    ensures r.Ok? <==> SafeFallbacks(turing, registry)
    ensures r.Ok? ==> r.value == MapAll(FallbackRule, Unlisted(turing, registry)) && registryManaged + |r.value| == |turing|
    ensures r.Err? ==> r.error in turing && IsUnlisted(r.error, registry) && r.error.recommendedSelector.None?
  {
    registryManaged := 0;
    var rules := [];
    for i := 0 to |turing|
      invariant rules == MapAll(FallbackRule, Unlisted(turing[..i], registry))
      invariant registryManaged + |rules| == i
      invariant SafeFallbacks(turing[..i], registry)
    {
      var device := turing[i];
      assert device in turing;
      NextFallback(turing, i, registry);
      if registry(device.deviceId).Some? {
        registryManaged := registryManaged + 1;
        continue;
      }
      if device.recommendedSelector.None? { return Err(device), registryManaged; }
      rules := rules + [FallbackRule(device)];
    }
    assert turing[..|turing|] == turing;
    return Ok(rules), registryManaged;
  }

  lemma TuringDevices(devices: seq<GpuDevice>, registry: Registry)
    ensures forall g :: g in Turing(devices) <==> g in devices && g.isTuring
    ensures Turing(devices) == [] <==> forall g :: g in devices ==> !g.isTuring
    ensures SafeFallbacks(Turing(devices), registry) <==> SafeFallbacks(devices, registry)
  {
    FilterMembers((gpu: GpuDevice) => gpu.isTuring, devices);
    if Turing(devices) != [] {
      assert Turing(devices)[0] in Turing(devices);
    }
  }

  method RecommendDeploymentConfig(devices: seq<GpuDevice>, registry: Registry)
    returns (r: Result<Recommended, RecommendError>)
    ensures r.Ok? <==> Recommendable(devices, registry)
    ensures r.Ok? ==> r.value == RecommendationFor(devices, registry)
    ensures r.Err? ==>
              match r.error
              case NoTuringGpu => forall g :: g in devices ==> !g.isTuring
              case NoSafeFallback(gpu) => gpu in devices && IsUnlisted(gpu, registry) && gpu.recommendedSelector.None?
              case NotConfigurable(_) => !Accepted(RecommendedDraft(devices, registry), devices, registry)
  {
    TuringDevices(devices, registry);
    UnlistedOfTuring(devices, registry);
    var turing := Turing(devices);
    if turing == [] { return Err(NoTuringGpu); }
    var rules, registryManaged := CollectFallbacks(turing, registry);
    if rules.Err? { return Err(NoSafeFallback(rules.error)); }
    SortedSize(rules.value);
    var draft := ConfigDraft(1, 0, false, false, true, SortBy(RuleKey, rules.value));
    var built := ConfigFromDraft(draft, devices, registry);
    if built.Err? { return Err(NotConfigurable(built.error)); }
    return Ok(Recommended(draft, |turing|, registryManaged, |draft.rules|));
  }

  // Whether a draft is still what the backend would recommend.
  method RequireRecommended(draft: ConfigDraft, devices: seq<GpuDevice>, registry: Registry) returns (accepted: bool)
    ensures accepted <==> Recommendable(devices, registry) && draft == RecommendedDraft(devices, registry)
  {
    var expected := RecommendDeploymentConfig(devices, registry);
    accepted := expected.Ok? && expected.value.draft == draft;
  }

  // ---------------------------------------------------------------- what is recommended

  // A fallback rule speaks to its own GPU alone, about its size alone, with its own safe selector.
  lemma FallbackRuleSpeaks(gpu: GpuDevice, g: GpuDevice)
    ensures RuleMatches(FallbackRule(gpu), g) <==> SameTarget(g, gpu)
    ensures Stated(FallbackRule(gpu), g, Size)
         == if SameTarget(g, gpu) && gpu.recommendedSelector.Some? then [Entry(Location, gpu.recommendedSelector.value)] else []
    ensures Stated(FallbackRule(gpu), g, Mask) == []
  {
  }

  // The rules of a list that match a GPU.
  lemma {:induction false} OneRuleSpeaks(rules: seq<GpuRule>, g: GpuDevice, i: nat)
    requires i < |rules| && RuleMatches(rules[i], g)
    requires forall j :: 0 <= j < |rules| && j != i ==> !RuleMatches(rules[j], g)
    ensures Statements(rules, g, Size) == Stated(rules[i], g, Size)
  {
    if i == 0 {
      NobodySpeaks(rules[1..], g);
    } else {
      OneRuleSpeaks(rules[1..], g, i - 1);
    }
  }

  lemma {:induction false} NobodySpeaks(rules: seq<GpuRule>, g: GpuDevice)
    requires forall j :: 0 <= j < |rules| ==> !RuleMatches(rules[j], g)
    ensures Statements(rules, g, Size) == []
  {
    if rules != [] {
      NobodySpeaks(rules[1..], g);
    }
  }

  predicate IsFallbackOf(rule: GpuRule, u: GpuDevice, registry: Registry) { IsUnlisted(u, registry) && FallbackRule(u) == rule }

  lemma RuleOrigins(devices: seq<GpuDevice>, registry: Registry)
    ensures forall r :: r in RecommendedDraft(devices, registry).rules ==> exists u :: u in devices && IsFallbackOf(r, u, registry)
    ensures forall u :: u in devices && IsUnlisted(u, registry) ==> FallbackRule(u) in RecommendedDraft(devices, registry).rules
  {
    var unlisted := Unlisted(devices, registry);
    var rules := MapAll(FallbackRule, unlisted);
    FilterMembers((gpu: GpuDevice) => IsUnlisted(gpu, registry), devices);
    SortBySorts(RuleKey, rules);
    SameLength(SortBy(RuleKey, rules), rules);
    forall r | r in rules
      ensures exists u :: u in devices && IsFallbackOf(r, u, registry)
    {
      var i :| 0 <= i < |rules| && rules[i] == r;
      assert unlisted[i] in unlisted && IsFallbackOf(r, unlisted[i], registry);
    }
    forall u | u in unlisted
      ensures FallbackRule(u) in rules
    {
      var i :| 0 <= i < |unlisted| && unlisted[i] == u;
      assert rules[i] == FallbackRule(u);
    }
  }

  // Each unlisted Turing GPU is given its own safe selector, and no other GPU is told anything.
  lemma RecommendedSizes(devices: seq<GpuDevice>, registry: Registry, g: GpuDevice)
    requires Recommendable(devices, registry)
    ensures g in devices && IsUnlisted(g, registry) ==>
              g.recommendedSelector.Some? && DecidingSize(RecommendedDraft(devices, registry).rules, g) == g.recommendedSelector
    ensures (forall u :: u in devices && IsUnlisted(u, registry) ==> !SameTarget(g, u)) ==>
              DecidingSize(RecommendedDraft(devices, registry).rules, g) == None
  {
    var rules := RecommendedDraft(devices, registry).rules;
    RuleOrigins(devices, registry);
    if g in devices && IsUnlisted(g, registry) {
      assert FallbackRule(g) in rules;
      var i :| 0 <= i < |rules| && rules[i] == FallbackRule(g);
      forall j | 0 <= j < |rules| && j != i
        ensures !RuleMatches(rules[j], g)
      {
        OnlyRuleFor(devices, registry, g, i, j);
      }
      FallbackRuleSpeaks(g, g);
      OneRuleSpeaks(rules, g, i);
      assert First([Entry(Location, g.recommendedSelector.value)], Location) == Some(Entry(Location, g.recommendedSelector.value));
    }
    if forall u :: u in devices && IsUnlisted(u, registry) ==> !SameTarget(g, u) {
      forall j | 0 <= j < |rules|
        ensures !RuleMatches(rules[j], g)
      {
        assert rules[j] in rules;
        var u :| u in devices && IsFallbackOf(rules[j], u, registry);
        FallbackRuleSpeaks(u, g);
      }
      NobodySpeaks(rules, g);
    }
  }

  lemma OnlyRuleFor(devices: seq<GpuDevice>, registry: Registry, g: GpuDevice, i: nat, j: nat)
    requires var rules := RecommendedDraft(devices, registry).rules;
             i < |rules| && j < |rules| && i != j && rules[i] == FallbackRule(g) && NoDuplicates(rules)
    ensures !RuleMatches(RecommendedDraft(devices, registry).rules[j], g)
  {
    var rules := RecommendedDraft(devices, registry).rules;
    RuleOrigins(devices, registry);
    assert rules[j] in rules;
    var u :| u in devices && IsFallbackOf(rules[j], u, registry);
    FallbackRuleSpeaks(u, g);
    assert if i < j then !SameIdentity(rules[i], rules[j]) else !SameIdentity(rules[j], rules[i]);
  }

  // What is recommended, in the inventory's own terms: the built-in list for everything, both switches
  // off and setup changes guarded; one location rule for each unlisted Turing GPU, with its own safe
  // selector and no mask; and the three counts.
  lemma RecommendationMeans(devices: seq<GpuDevice>, registry: Registry)
    requires Recommendable(devices, registry)
    ensures var r := RecommendationFor(devices, registry);
            && r.draft == ConfigDraft(1, 0, false, false, true, r.draft.rules)
            && (forall rule :: rule in r.draft.rules ==>
                  && rule.scope == Location && rule.mask == None
                  && exists u :: u in devices && u.isTuring && registry(u.deviceId).None?
                                 && RuleMatches(rule, u) && rule.size == u.recommendedSelector && u.recommendedSelector.Some?)
            && (forall u :: u in devices && u.isTuring && registry(u.deviceId).None? ==> DecidingSize(r.draft.rules, u) == u.recommendedSelector)
            && r.turing == |set i | 0 <= i < |devices| && devices[i].isTuring|
            && r.fallbackRules == |set i | 0 <= i < |devices| && devices[i].isTuring && registry(devices[i].deviceId).None?|
            && r.registryManaged + r.fallbackRules == r.turing
            && |r.draft.rules| == r.fallbackRules
  {
    RuleOrigins(devices, registry);
    forall rule | rule in RecommendedDraft(devices, registry).rules
      ensures exists u :: u in devices && u.isTuring && registry(u.deviceId).None?
                          && RuleMatches(rule, u) && rule.size == u.recommendedSelector && u.recommendedSelector.Some?
    {
      var u :| u in devices && IsFallbackOf(rule, u, registry);
      FallbackRuleSpeaks(u, u);
      assert RuleMatches(rule, u);
    }
    forall u | u in devices && IsUnlisted(u, registry)
      ensures DecidingSize(RecommendedDraft(devices, registry).rules, u) == u.recommendedSelector
    {
      RecommendedSizes(devices, registry, u);
    }
    RecommendedCounts(devices, registry);
  }

  lemma RecommendedCounts(devices: seq<GpuDevice>, registry: Registry)
    ensures |Turing(devices)| == |set i | 0 <= i < |devices| && devices[i].isTuring|
    ensures |Unlisted(devices, registry)| == |set i | 0 <= i < |devices| && devices[i].isTuring && registry(devices[i].deviceId).None?|
    ensures |RecommendedDraft(devices, registry).rules| == |Unlisted(devices, registry)|
  {
    var turing := (gpu: GpuDevice) => gpu.isTuring;
    var unlisted := (gpu: GpuDevice) => IsUnlisted(gpu, registry);
    FilterCounts(turing, devices);
    FilterCounts(unlisted, devices);
    assert Places(turing, devices) == (set i | 0 <= i < |devices| && devices[i].isTuring);
    assert Places(unlisted, devices)
        == (set i | 0 <= i < |devices| && devices[i].isTuring && registry(devices[i].deviceId).None?);
    SortedSize(MapAll(FallbackRule, Unlisted(devices, registry)));
  }

  // ---------------------------------------------------------------- enumeration order

  lemma AcceptedReordered(draft: ConfigDraft, a: seq<GpuDevice>, b: seq<GpuDevice>, registry: Registry)
    requires multiset(a) == multiset(b)
    ensures Accepted(draft, a, registry) ==> Accepted(draft, b, registry)
  {
    if Accepted(draft, a, registry) {
      SameLength(a, b);
      forall r | r in draft.rules
        ensures MatchesHardware(r, b)
      {
        var g :| g in a && RuleMatches(r, g);
        assert g in b;
      }
      var config := WireConfig(draft);
      FilterReordered(gpu => IsSelected(config, registry, gpu), a, b);
      SameLength(Selected(config, registry, a), Selected(config, registry, b));
    }
  }

  // Fallback rules of one inventory never share a key once the draft passed validation.
  lemma NoSharedKeys(devices: seq<GpuDevice>, registry: Registry)
    requires NoDuplicates(RecommendedDraft(devices, registry).rules)
    ensures StrictlySorted(RuleKey, RecommendedDraft(devices, registry).rules)
  {
    var rules := MapAll(FallbackRule, Unlisted(devices, registry));
    var sorted := SortBy(RuleKey, rules);
    SortBySorts(RuleKey, rules);
    SameLength(sorted, rules);
    forall i, j | 0 <= i < j < |sorted|
      ensures RuleKey(sorted[i]) < RuleKey(sorted[j])
    {
      assert sorted[i] in rules && sorted[j] in rules;
      assert !SameIdentity(sorted[i], sorted[j]);
      KeyIsLexicographic(sorted[i], sorted[j]);
    }
  }

  lemma SameDraftReordered(a: seq<GpuDevice>, b: seq<GpuDevice>, registry: Registry)
    requires multiset(a) == multiset(b) && NoDuplicates(RecommendedDraft(a, registry).rules)
    ensures RecommendedDraft(a, registry) == RecommendedDraft(b, registry)
  {
    var unlisted := (gpu: GpuDevice) => IsUnlisted(gpu, registry);
    FilterReordered(unlisted, a, b);
    MapReordered(FallbackRule, Filter(unlisted, a), Filter(unlisted, b));
    SortBySorts(RuleKey, MapAll(FallbackRule, Unlisted(a, registry)));
    SortBySorts(RuleKey, MapAll(FallbackRule, Unlisted(b, registry)));
    NoSharedKeys(a, registry);
    SortedIsUnique(RuleKey, RecommendedDraft(b, registry).rules, RecommendedDraft(a, registry).rules);
  }

  lemma RecommendableReordered(a: seq<GpuDevice>, b: seq<GpuDevice>, registry: Registry)
    requires multiset(a) == multiset(b) && Recommendable(a, registry)
    ensures Recommendable(b, registry) && RecommendationFor(b, registry) == RecommendationFor(a, registry)
  {
    SameLength(a, b);
    SameDraftReordered(a, b, registry);
    AcceptedReordered(RecommendedDraft(a, registry), a, b, registry);
    FilterReordered((gpu: GpuDevice) => gpu.isTuring, a, b);
    SameLength(Turing(a), Turing(b));
    FilterReordered((gpu: GpuDevice) => IsUnlisted(gpu, registry), a, b);
    SameLength(Unlisted(a, registry), Unlisted(b, registry));
  }

  // However an inventory is enumerated, the recommendation succeeds or fails alike and is the same
  // to the last count, so it is accepted against every other order.
  lemma OrderDoesNotMatter(a: seq<GpuDevice>, b: seq<GpuDevice>, registry: Registry)
    requires multiset(a) == multiset(b)
    ensures Recommendable(a, registry) <==> Recommendable(b, registry)
    ensures Recommendable(a, registry) ==> RecommendationFor(a, registry) == RecommendationFor(b, registry)
  {
    if Recommendable(a, registry) {
      RecommendableReordered(a, b, registry);
    } else if Recommendable(b, registry) {
      RecommendableReordered(b, a, registry);
    }
  }
}
