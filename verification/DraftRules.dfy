// What makes a configuration draft acceptable to the backend, and why the client's edits keep it so.
module DraftRules {
  import opened Prelude
  import opened Hardware
  import opened BarRules

  datatype DraftError =
    | UnsupportedMode | UnsupportedTarget | TooManyRules
    | UnsupportedSelector | EmptyRule | LocationOutOfRange | DuplicateRule | NoMatchingHardware

  const TARGET_MAX: u8 := 32
  const TARGET_GPU_ONLY: u8 := 64
  const TARGET_STRAPS_ONLY: u8 := 65

  predicate ValidTarget(target: u8) {
    target <= TARGET_MAX || target == TARGET_GPU_ONLY || target == TARGET_STRAPS_ONLY
  }

  predicate ValidSelector(selector: u8) {
    selector <= MAX_SELECTOR || selector == EXCLUDED_SELECTOR
  }

  predicate SameIdentity(left: GpuRule, right: GpuRule) {
    && left.scope == right.scope
    && left.deviceId == right.deviceId
    && (left.scope == Device ||
        (&& left.subVendor == right.subVendor
         && left.subDevice == right.subDevice
         && (left.scope == Subsystem ||
             (left.bus == right.bus && left.device == right.device && left.fn == right.fn))))
  }

  // The first objection to a rule on its own, in the order the backend raises them.
  function OwnProblem(rule: GpuRule): Option<DraftError> {
    if rule.size.Some? && !ValidSelector(rule.size.value) then Some(UnsupportedSelector)
    else if rule.size.None? && rule.mask.None? then Some(EmptyRule)
    else if rule.scope == Location && (rule.device > 31 || rule.fn > 7) then Some(LocationOutOfRange)
    else None
  }

  predicate MatchesHardware(rule: GpuRule, devices: seq<GpuDevice>) {
    exists gpu :: gpu in devices && RuleMatches(rule, gpu)
  }

  predicate NoDuplicates(rules: seq<GpuRule>) {
    forall i, j :: 0 <= i < j < |rules| ==> !SameIdentity(rules[i], rules[j])
  }

  predicate RulesAcceptable(rules: seq<GpuRule>, devices: seq<GpuDevice>) {
    && (forall r :: r in rules ==> OwnProblem(r).None? && MatchesHardware(r, devices))
    && NoDuplicates(rules)
  }

  predicate ValidDraft(draft: ConfigDraft, devices: seq<GpuDevice>) {
    && draft.globalMode <= 2
    && ValidTarget(draft.targetPciBarSize)
    && |draft.rules| <= MAX_RULES
    && RulesAcceptable(draft.rules, devices)
  }

  // The backend's validation loop accepts exactly the drafts described above; its error is the
  // first objection met.
  method ValidateDraft(draft: ConfigDraft, devices: seq<GpuDevice>) returns (r: Result<(), DraftError>)
    ensures r.Ok? <==> ValidDraft(draft, devices)
    ensures r.Err? && r.error == DuplicateRule ==> !NoDuplicates(draft.rules)
    ensures r.Err? && r.error == NoMatchingHardware ==>
              exists rule :: rule in draft.rules && OwnProblem(rule).None? && !MatchesHardware(rule, devices)
    ensures r.Err? && r.error in {UnsupportedSelector, EmptyRule, LocationOutOfRange} ==>
              exists rule :: rule in draft.rules && OwnProblem(rule) == Some(r.error)
    ensures r.Err? && r.error == TooManyRules ==> |draft.rules| > MAX_RULES
    ensures r.Err? ==> (r.error == UnsupportedMode <==> draft.globalMode > 2)
    ensures r.Err? && r.error == UnsupportedTarget ==> !ValidTarget(draft.targetPciBarSize)
  {
    if draft.globalMode > 2 { return Err(UnsupportedMode); }
    if !ValidTarget(draft.targetPciBarSize) { return Err(UnsupportedTarget); }
    if |draft.rules| > MAX_RULES { return Err(TooManyRules); }
    for index := 0 to |draft.rules|
      invariant forall r :: r in draft.rules[..index] ==> OwnProblem(r).None? && MatchesHardware(r, devices)
      invariant NoDuplicates(draft.rules[..index])
    {
      var rule := draft.rules[index];
      assert draft.rules[..index + 1] == draft.rules[..index] + [rule];
      if OwnProblem(rule).Some? {
        return Err(OwnProblem(rule).value);
      }
      if exists candidate :: candidate in draft.rules[..index] && SameIdentity(candidate, rule) {
        ghost var k :| 0 <= k < index && SameIdentity(draft.rules[k], rule);
        return Err(DuplicateRule);
      }
      if !(exists gpu :: gpu in devices && RuleMatches(rule, gpu)) {
        return Err(NoMatchingHardware);
      }
    }
    assert draft.rules[..|draft.rules|] == draft.rules;
    return Ok(());
  }

  function Target(rule: GpuRule, subVendor: u16, subDevice: u16, bus: u8, device: u8, fn: u8): GpuDevice {
    GpuDevice(0, rule.deviceId, subVendor, subDevice, bus, device, fn, PciBridge(0, 0, 0, 0, 0), 0, 0, 0, false, None)
  }

  // Two rules count as one exactly if they are of one scope and reach the same GPUs.
  lemma IdentityIsReach(a: GpuRule, b: GpuRule)
    ensures SameIdentity(a, b) <==> a.scope == b.scope && forall gpu :: RuleMatches(a, gpu) <==> RuleMatches(b, gpu)
  {
    if a.scope == b.scope && !SameIdentity(a, b) {
      var gpu := Target(a, a.subVendor, a.subDevice, a.bus, a.device, a.fn);
      assert RuleMatches(a, gpu) && !RuleMatches(b, gpu);
    }
  }

  // A rule the backend would not refuse for itself.
  predicate Sensible(rule: GpuRule) {
    && (rule.size.Some? ==> rule.size.value <= 10 || rule.size.value == 254)
    && (rule.size.Some? || rule.mask.Some?)
    && (rule.scope == Location ==> rule.device <= 31 && rule.fn <= 7)
  }

  // What an acceptable draft is, in its own terms.
  lemma ValidDraftMeans(draft: ConfigDraft, devices: seq<GpuDevice>)
    ensures ValidDraft(draft, devices) <==>
              && draft.globalMode <= 2
              && (draft.targetPciBarSize <= 32 || draft.targetPciBarSize == 64 || draft.targetPciBarSize == 65)
              && |draft.rules| <= 8
              && (forall r :: r in draft.rules ==> Sensible(r) && exists gpu :: gpu in devices && RuleMatches(r, gpu))
              && (forall i, j :: 0 <= i < j < |draft.rules| && draft.rules[i].scope == draft.rules[j].scope ==>
                    exists gpu :: RuleMatches(draft.rules[i], gpu) != RuleMatches(draft.rules[j], gpu))
  {
    forall i, j | 0 <= i < j < |draft.rules|
      ensures SameIdentity(draft.rules[i], draft.rules[j]) <==>
                draft.rules[i].scope == draft.rules[j].scope
                && !(exists gpu :: RuleMatches(draft.rules[i], gpu) != RuleMatches(draft.rules[j], gpu))
    {
      IdentityIsReach(draft.rules[i], draft.rules[j]);
    }
    forall r
      ensures OwnProblem(r).None? <==> Sensible(r)
    {
    }
  }

  // ---------------------------------------------------------------- edits keep a draft acceptable

  // Locations the PCI bus can address; every enumerated device has one.
  predicate OnBus(gpu: GpuDevice) {
    gpu.device <= 31 && gpu.fn <= 7
  }

  // A rule whose identity and matching are those of another, whatever it says.
  predicate SameReach(a: GpuRule, b: GpuRule) {
    a.(size := b.size, mask := b.mask) == b
  }

  lemma {:induction false} ClearedComesFrom(rules: seq<GpuRule>, gpu: GpuDevice)
    ensures forall r :: r in Cleared(rules, gpu) ==>
                          exists s :: s in rules && SameReach(r, s) && (OwnProblem(s).None? ==> OwnProblem(r).None?)
    ensures NoDuplicates(rules) ==> NoDuplicates(Cleared(rules, gpu))
  {
    if rules != [] {
      var tail := Cleared(rules[1..], gpu);
      ClearedComesFrom(rules[1..], gpu);
      var head := ClearedRule(rules[0], gpu);
      forall r | r in head + tail
        ensures exists s :: s in rules && SameReach(r, s) && (OwnProblem(s).None? ==> OwnProblem(r).None?)
      {
        if r in head {
          assert rules[0] in rules && SameReach(r, rules[0]);
        } else {
          var s :| s in rules[1..] && SameReach(r, s) && (OwnProblem(s).None? ==> OwnProblem(r).None?);
          assert s in rules;
        }
      }
      if NoDuplicates(rules) {
        assert forall i, j :: 0 <= i < j < |rules[1..]| ==> rules[1..][i] == rules[i + 1] && rules[1..][j] == rules[j + 1];
        if head != [] {
          forall j | 0 <= j < |tail|
            ensures !SameIdentity(head[0], tail[j])
          {
            assert tail[j] in tail;
            var s :| s in rules[1..] && SameReach(tail[j], s);
            var k :| 0 <= k < |rules[1..]| && rules[1..][k] == s;
            assert !SameIdentity(rules[0], rules[k + 1]);
          }
        }
      }
    }
  }

  lemma {:induction false} StatementsComeFromRules(rules: seq<GpuRule>, gpu: GpuDevice, facet: Facet, e: Entry)
    requires e in Statements(rules, gpu, facet)
    ensures exists r :: r in rules && FacetValue(r, facet) == Some(e.value)
  {
    if e in Stated(rules[0], gpu, facet) {
      assert rules[0] in rules;
    } else {
      StatementsComeFromRules(rules[1..], gpu, facet, e);
      var r :| r in rules[1..] && FacetValue(r, facet) == Some(e.value);
      assert r in rules;
    }
  }

  lemma {:induction false} LastIsMember(entries: seq<Entry>, scope: MatchScope)
    requires Last(entries, scope).Some?
    ensures Last(entries, scope).value in entries
  {
    if entries[|entries| - 1].scope != scope {
      LastIsMember(entries[..|entries| - 1], scope);
    }
  }

  lemma {:induction false} FirstIsMember(entries: seq<Entry>, scope: MatchScope)
    requires First(entries, scope).Some?
    ensures First(entries, scope).value in entries
  {
    if entries[0].scope != scope {
      FirstIsMember(entries[1..], scope);
    }
  }

  lemma DecidedSelectorIsARules(rules: seq<GpuRule>, gpu: GpuDevice)
    requires DecidingSize(rules, gpu).Some?
    ensures exists r :: r in rules && r.size == DecidingSize(rules, gpu)
  {
    var entries := Statements(rules, gpu, Size);
    if First(entries, Location).Some? {
      FirstIsMember(entries, Location);
    } else if Last(entries, Subsystem).Some? {
      LastIsMember(entries, Subsystem);
    } else {
      LastIsMember(entries, Device);
    }
    StatementsComeFromRules(rules, gpu, Size, ByPrecedence(entries).value);
    var r :| r in rules && FacetValue(r, Size) == Some(ByPrecedence(entries).value.value);
    assert r.size == DecidingSize(rules, gpu);
  }

  lemma LocationEditStaysAcceptable(rules: seq<GpuRule>, gpu: GpuDevice, selector: u8, devices: seq<GpuDevice>)
    requires RulesAcceptable(rules, devices) && gpu in devices && OnBus(gpu) && ValidSelector(selector)
    ensures RulesAcceptable(WithLocationSelector(rules, gpu, selector), devices)
  {
    var after := WithLocationSelector(rules, gpu, selector);
    if LocationIndex(rules, gpu).Some? {
      LocationIndexSplits(rules, gpu);
      var i := LocationIndex(rules, gpu).value;
      forall k | 0 <= k < |after|
        ensures OwnProblem(after[k]).None? && MatchesHardware(after[k], devices) && SameReach(after[k], rules[k])
      {
        assert rules[k] in rules;
        var g :| g in devices && RuleMatches(rules[k], g);
        assert RuleMatches(after[k], g);
      }
      forall k, l | 0 <= k < l < |after|
        ensures !SameIdentity(after[k], after[l])
      {
        assert !SameIdentity(rules[k], rules[l]);
      }
    } else {
      var added := LocationRule(gpu, selector);
      assert RuleMatches(added, gpu);
      NoLocationRule(rules, gpu);
    }
  }

  lemma {:induction false} NoLocationRule(rules: seq<GpuRule>, gpu: GpuDevice)
    requires LocationIndex(rules, gpu).None?
    ensures forall i :: 0 <= i < |rules| ==> !(rules[i].scope == Location && RuleMatches(rules[i], gpu))
  {
    if rules != [] {
      NoLocationRule(rules[1..], gpu);
      assert forall i :: 0 < i < |rules| ==> rules[i] == rules[1..][i - 1];
    }
  }

  lemma {:induction false} KeepOthersStaysAcceptable(before: seq<GpuRule>, next: seq<GpuRule>, gpu: GpuDevice,
                                                     others: seq<GpuDevice>, devices: seq<GpuDevice>)
    requires RulesAcceptable(before, devices) && RulesAcceptable(next, devices)
    requires forall g :: g in others ==> g in devices && OnBus(g)
    ensures RulesAcceptable(KeepOthers(before, next, gpu, others), devices)
    ensures forall g :: Statements(KeepOthers(before, next, gpu, others), g, Mask) == Statements(next, g, Mask)
    decreases |others|
  {
    if others != [] {
      var other := others[0];
      if DecidingSize(before, other).Some? {
        DecidedSelectorIsARules(before, other);
        var r :| r in before && r.size == DecidingSize(before, other);
        assert OwnProblem(r).None?;
        LocationEditStaysAcceptable(next, other, DecidingSize(before, other).value, devices);
        LocationEdit(next, other, DecidingSize(before, other).value);
      }
      KeepOthersStaysAcceptable(before, KeepOne(before, next, gpu, other), gpu, others[1..], devices);
    }
  }

  predicate ValidChoice(choice: GpuChoice) {
    choice.Sized? ==> choice.selector <= MAX_SELECTOR
  }

  lemma ChoiceStaysAcceptable(rules: seq<GpuRule>, gpu: GpuDevice, choice: GpuChoice, devices: seq<GpuDevice>)
    requires RulesAcceptable(rules, devices)
    requires gpu in devices && (forall g :: g in devices ==> OnBus(g)) && ValidChoice(choice)
    ensures RulesAcceptable(Chosen(rules, gpu, choice, devices), devices)
    ensures forall g :: Statements(Chosen(rules, gpu, choice, devices), g, Mask) == Statements(rules, g, Mask)
  {
    if choice.Auto? {
      var cleared := Cleared(rules, gpu);
      ClearedComesFrom(rules, gpu);
      forall r | r in cleared
        ensures OwnProblem(r).None? && MatchesHardware(r, devices)
      {
        var s :| s in rules && SameReach(r, s) && (OwnProblem(s).None? ==> OwnProblem(r).None?);
        var g :| g in devices && RuleMatches(s, g);
        assert RuleMatches(r, g);
      }
      KeepOthersStaysAcceptable(rules, cleared, gpu, devices, devices);
      forall g: GpuDevice {
        ClearedStates(rules, gpu, g);
      }
    } else {
      LocationEditStaysAcceptable(rules, gpu, SelectorOf(choice), devices);
      LocationEdit(rules, gpu, SelectorOf(choice));
    }
  }

  datatype Edit = Edit(gpu: GpuDevice, choice: GpuChoice)

  function AfterEdits(rules: seq<GpuRule>, edits: seq<Edit>, devices: seq<GpuDevice>): seq<GpuRule>
    decreases |edits|
  {
    if edits == [] then rules
    else AfterEdits(Chosen(rules, edits[0].gpu, edits[0].choice, devices), edits[1..], devices)
  }

  // Over any sequence of valid choices on detected GPUs no GPU's mask decision moves, and the only
  // way the draft can stop being acceptable is by growing past the rule limit.
  lemma {:induction false} EditsKeepDraftValid(draft: ConfigDraft, edits: seq<Edit>, devices: seq<GpuDevice>)
    requires ValidDraft(draft.(rules := []), devices) && RulesAcceptable(draft.rules, devices)
    requires forall g :: g in devices ==> OnBus(g)
    requires forall e :: e in edits ==> e.gpu in devices && ValidChoice(e.choice)
    ensures var after := AfterEdits(draft.rules, edits, devices);
            && (ValidDraft(draft.(rules := after), devices) <==> |after| <= MAX_RULES)
            && (forall g :: DecidingMask(after, g) == DecidingMask(draft.rules, g))
    decreases |edits|
  {
    if edits != [] {
      var next := Chosen(draft.rules, edits[0].gpu, edits[0].choice, devices);
      assert edits[0] in edits;
      ChoiceStaysAcceptable(draft.rules, edits[0].gpu, edits[0].choice, devices);
      EditsKeepDraftValid(draft.(rules := next), edits[1..], devices);
      assert draft.(rules := next).(rules := []) == draft.(rules := []);
      assert draft.(rules := next).(rules := AfterEdits(draft.rules, edits, devices))
          == draft.(rules := AfterEdits(draft.rules, edits, devices));
    }
  }
}
