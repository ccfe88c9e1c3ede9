// The BAR-size rules of one configuration and the client model that edits one GPU's choice inside
// a list of overlapping rules.
module BarRules {
  import opened Prelude
  import opened Hardware
  import Lists

  datatype MatchScope = Device | Subsystem | Location

  datatype GpuRule = GpuRule(
    scope: MatchScope,
    deviceId: u16,
    subVendor: u16,
    subDevice: u16,
    bus: u8,
    device: u8,
    fn: u8,
    size: Option<u8>,
    mask: Option<bool>)

  datatype ConfigDraft = ConfigDraft(
    globalMode: u8,
    targetPciBarSize: u8,
    skipS3Resume: bool,
    overrideBarSizeMask: bool,
    guardSetupChanges: bool,
    rules: seq<GpuRule>)

  const EXCLUDED_SELECTOR: u8 := 254
  const MAX_SELECTOR: u8 := 10
  const MAX_RULES := 8

  datatype GpuChoice = Auto | Exclude | Sized(selector: u8)

  // ---------------------------------------------------------------- matching and precedence

  predicate RuleMatches(rule: GpuRule, gpu: GpuDevice) {
    && rule.deviceId == gpu.deviceId
    && (rule.scope == Device ||
        (&& rule.subVendor == gpu.subVendor
         && rule.subDevice == gpu.subDevice
         && (rule.scope == Subsystem ||
             (rule.bus == gpu.bus && rule.device == gpu.device && rule.fn == gpu.fn))))
  }

  // What a rule says is looked at one facet at a time: its size or its mask override.
  datatype Facet = Size | Mask

  // The statement one matching rule makes about a facet.
  datatype Entry = Entry(scope: MatchScope, value: u8)

  function FacetValue(rule: GpuRule, facet: Facet): Option<u8> {
    match facet
    case Size => rule.size
    case Mask => if rule.mask.None? then None else Some(if rule.mask.value then 1 else 0)
  }

  // The statements a rule list makes about one GPU, in list order.
  function Statements(rules: seq<GpuRule>, gpu: GpuDevice, facet: Facet): seq<Entry> {
    if rules == [] then [] else Stated(rules[0], gpu, facet) + Statements(rules[1..], gpu, facet)
  }

  function Stated(rule: GpuRule, gpu: GpuDevice, facet: Facet): seq<Entry> {
    if RuleMatches(rule, gpu) && FacetValue(rule, facet).Some?
    then [Entry(rule.scope, FacetValue(rule, facet).value)]
    else []
  }

  function First(entries: seq<Entry>, scope: MatchScope): Option<Entry> {
    if entries == [] then None
    else if entries[0].scope == scope then Some(entries[0])
    else First(entries[1..], scope)
  }

  function Last(entries: seq<Entry>, scope: MatchScope): Option<Entry> {
    if entries == [] then None
    else if entries[|entries| - 1].scope == scope then Some(entries[|entries| - 1])
    else Last(entries[..|entries| - 1], scope)
  }

  // The first location statement wins, then the last subsystem one, then the last device one.
  function ByPrecedence(entries: seq<Entry>): Option<Entry> {
    if First(entries, Location).Some? then First(entries, Location)
    else if Last(entries, Subsystem).Some? then Last(entries, Subsystem)
    else Last(entries, Device)
  }

  function DecidingSize(rules: seq<GpuRule>, gpu: GpuDevice): Option<u8> {
    var entry := ByPrecedence(Statements(rules, gpu, Size));
    if entry.None? then None else Some(entry.value.value)
  }

  function DecidingMask(rules: seq<GpuRule>, gpu: GpuDevice): Option<u8> {
    var entry := ByPrecedence(Statements(rules, gpu, Mask));
    if entry.None? then None else Some(entry.value.value)
  }

  function Choice(rules: seq<GpuRule>, gpu: GpuDevice): GpuChoice {
    var selector := DecidingSize(rules, gpu);
    if selector.None? then Auto
    else if selector.value >= EXCLUDED_SELECTOR then Exclude
    else Sized(selector.value)
  }

  // ---------------------------------------------------------------- editing one GPU's choice

  function SelectorOf(choice: GpuChoice): u8
    requires !choice.Auto?
  {
    if choice.Exclude? then EXCLUDED_SELECTOR else choice.selector
  }

  function LocationIndex(rules: seq<GpuRule>, gpu: GpuDevice): Option<nat> {
    if rules == [] then None
    else if rules[0].scope == Location && RuleMatches(rules[0], gpu) then Some(0)
    else
      var rest := LocationIndex(rules[1..], gpu);
      if rest.None? then None else Some(rest.value + 1)
  }

  function LocationRule(gpu: GpuDevice, selector: u8): GpuRule {
    GpuRule(Location, gpu.deviceId, gpu.subVendor, gpu.subDevice, gpu.bus, gpu.device, gpu.fn, Some(selector), None)
  }

  lemma LocationIndexInRange(rules: seq<GpuRule>, gpu: GpuDevice)
    ensures LocationIndex(rules, gpu).Some? ==>
              LocationIndex(rules, gpu).value < |rules|
  {
  }

  function WithLocationSelector(rules: seq<GpuRule>, gpu: GpuDevice, selector: u8): seq<GpuRule> {
    LocationIndexInRange(rules, gpu);
    var index := LocationIndex(rules, gpu);
    if index.Some?
    then rules[index.value := rules[index.value].(size := Some(selector))]
    else rules + [LocationRule(gpu, selector)]
  }

  // Every sized rule that matches the GPU loses its size; a rule left without any statement goes.
  function Cleared(rules: seq<GpuRule>, gpu: GpuDevice): seq<GpuRule> {
    if rules == [] then []
    else ClearedRule(rules[0], gpu) + Cleared(rules[1..], gpu)
  }

  function ClearedRule(rule: GpuRule, gpu: GpuDevice): seq<GpuRule> {
    if rule.size.None? || !RuleMatches(rule, gpu) then [rule]
    else if rule.mask.Some? then [rule.(size := None)]
    else []
  }

  // What one pass over the other devices adds so that they keep the size they had.
  function KeepOne(before: seq<GpuRule>, next: seq<GpuRule>, gpu: GpuDevice, other: GpuDevice): seq<GpuRule> {
    if other.Id() == gpu.Id() then next
    else
      var selector := DecidingSize(before, other);
      if selector.Some? && selector != DecidingSize(next, other)
      then WithLocationSelector(next, other, selector.value)
      else next
  }

  function KeepOthers(before: seq<GpuRule>, next: seq<GpuRule>, gpu: GpuDevice, devices: seq<GpuDevice>): seq<GpuRule>
    decreases |devices|
  {
    if devices == [] then next
    else KeepOthers(before, KeepOne(before, next, gpu, devices[0]), gpu, devices[1..])
  }

  function Chosen(rules: seq<GpuRule>, gpu: GpuDevice, choice: GpuChoice, devices: seq<GpuDevice>): seq<GpuRule> {
    if !choice.Auto? then WithLocationSelector(rules, gpu, SelectorOf(choice))
    else KeepOthers(rules, Cleared(rules, gpu), gpu, devices)
  }

  // The client's edit, as the loop that reassigns the next draft.
  method ApplyGpuChoice(draft: ConfigDraft, gpu: GpuDevice, choice: GpuChoice, devices: seq<GpuDevice>)
    returns (next: ConfigDraft)
    ensures next == draft.(rules := Chosen(draft.rules, gpu, choice, devices))
  {
    if !choice.Auto? {
      return draft.(rules := WithLocationSelector(draft.rules, gpu, SelectorOf(choice)));
    }
    next := draft.(rules := Cleared(draft.rules, gpu));
    for i := 0 to |devices|
      invariant next == draft.(rules := next.rules)
      invariant KeepOthers(draft.rules, next.rules, gpu, devices[i..])
             == KeepOthers(draft.rules, Cleared(draft.rules, gpu), gpu, devices)
    {
      var other := devices[i];
      assert devices[i..][0] == other && devices[i..][1..] == devices[i + 1..];
      if other.Id() != gpu.Id() {
        var before := DecidingSize(draft.rules, other);
        var after := DecidingSize(next.rules, other);
        if before.Some? && before != after {
          next := next.(rules := WithLocationSelector(next.rules, other, before.value));
        }
      }
    }
  }

  // ---------------------------------------------------------------- how statements move

  // Two GPUs no rule can tell apart.
  predicate SameTarget(a: GpuDevice, b: GpuDevice) {
    a.deviceId == b.deviceId && a.subVendor == b.subVendor && a.subDevice == b.subDevice && a.Id() == b.Id()
  }

  lemma {:induction false} SameTargetSameStatements(rules: seq<GpuRule>, a: GpuDevice, b: GpuDevice, facet: Facet)
    requires SameTarget(a, b)
    ensures Statements(rules, a, facet) == Statements(rules, b, facet)
  {
    if rules != [] {
      SameTargetSameStatements(rules[1..], a, b, facet);
    }
  }

  lemma {:induction false} StatementsOfConcat(a: seq<GpuRule>, b: seq<GpuRule>, gpu: GpuDevice, facet: Facet)
    ensures Statements(a + b, gpu, facet) == Statements(a, gpu, facet) + Statements(b, gpu, facet)
  {
    if a == [] {
      assert a + b == b;
    } else {
      assert (a + b)[1..] == a[1..] + b;
      StatementsOfConcat(a[1..], b, gpu, facet);
    }
  }

  lemma {:induction false} FirstOfConcat(a: seq<Entry>, b: seq<Entry>, scope: MatchScope)
    ensures First(a + b, scope) == if First(a, scope).Some? then First(a, scope) else First(b, scope)
  {
    if a == [] {
      assert a + b == b;
    } else {
      assert (a + b)[1..] == a[1..] + b;
      FirstOfConcat(a[1..], b, scope);
    }
  }

  lemma {:induction false} NoLocationStatement(rules: seq<GpuRule>, gpu: GpuDevice, facet: Facet)
    requires LocationIndex(rules, gpu).None?
    ensures First(Statements(rules, gpu, facet), Location).None?
  {
    if rules != [] {
      NoLocationStatement(rules[1..], gpu, facet);
      FirstOfConcat(Stated(rules[0], gpu, facet), Statements(rules[1..], gpu, facet), Location);
    }
  }

  lemma {:induction false} LocationIndexSplits(rules: seq<GpuRule>, gpu: GpuDevice)
    requires LocationIndex(rules, gpu).Some?
    ensures var i := LocationIndex(rules, gpu).value;
            && i < |rules|
            && rules[i].scope == Location && RuleMatches(rules[i], gpu)
            && LocationIndex(rules[..i], gpu).None?
  {
    var i := LocationIndex(rules, gpu).value;
    if i > 0 {
      LocationIndexSplits(rules[1..], gpu);
      assert rules[..i][1..] == rules[1..][..i - 1];
    }
  }

  lemma {:induction false} LastIsIn(entries: seq<Entry>, scope: MatchScope)
    ensures Last(entries, scope).None? <==> forall e :: e in entries ==> e.scope != scope
  {
    if entries != [] {
      LastIsIn(entries[..|entries| - 1], scope);
      assert entries == entries[..|entries| - 1] + [entries[|entries| - 1]];
    }
  }

  lemma {:induction false} FirstIsIn(entries: seq<Entry>, scope: MatchScope)
    ensures First(entries, scope).None? <==> forall e :: e in entries ==> e.scope != scope
  {
    if entries != [] {
      FirstIsIn(entries[1..], scope);
      assert entries == [entries[0]] + entries[1..];
    }
  }

  lemma UndecidedMeansSilent(entries: seq<Entry>)
    ensures ByPrecedence(entries).None? <==> entries == []
  {
    FirstIsIn(entries, Location);
    LastIsIn(entries, Subsystem);
    LastIsIn(entries, Device);
    if entries != [] {
      assert entries[0] in entries;
      assert entries[0].scope == Location || entries[0].scope == Subsystem || entries[0].scope == Device;
    }
  }

  lemma StatementsOfOne(rule: GpuRule, gpu: GpuDevice, facet: Facet)
    ensures Statements([rule], gpu, facet) == Stated(rule, gpu, facet)
  {
    assert [rule][1..] == [];
    assert Stated(rule, gpu, facet) + [] == Stated(rule, gpu, facet);
  }

  // The statements of a list around one of its rules.
  lemma StatementsAround(rules: seq<GpuRule>, i: nat, rule: GpuRule, gpu: GpuDevice, facet: Facet)
    requires i < |rules|
    ensures Statements(rules[i := rule], gpu, facet)
         == Statements(rules[..i], gpu, facet) + (Stated(rule, gpu, facet) + Statements(rules[i + 1..], gpu, facet))
  {
    assert rules[i := rule] == rules[..i] + ([rule] + rules[i + 1..]);
    StatementsOfConcat(rules[..i], [rule] + rules[i + 1..], gpu, facet);
    assert ([rule] + rules[i + 1..])[1..] == rules[i + 1..];
  }

  // The only rule a location edit touches is the GPU's own location rule.
  lemma ReplacedSize(rules: seq<GpuRule>, i: nat, selector: u8, g: GpuDevice)
    requires i < |rules| && rules[i].scope == Location
    ensures var after := rules[i := rules[i].(size := Some(selector))];
            && Statements(after, g, Mask) == Statements(rules, g, Mask)
            && (!RuleMatches(rules[i], g) ==> Statements(after, g, Size) == Statements(rules, g, Size))
  {
    var resized := rules[i].(size := Some(selector));
    assert rules[i := rules[i]] == rules;
    StatementsAround(rules, i, rules[i], g, Mask);
    StatementsAround(rules, i, resized, g, Mask);
    StatementsAround(rules, i, rules[i], g, Size);
    StatementsAround(rules, i, resized, g, Size);
  }

  lemma EditedLocationDecides(rules: seq<GpuRule>, gpu: GpuDevice, selector: u8)
    ensures DecidingSize(WithLocationSelector(rules, gpu, selector), gpu) == Some(selector)
  {
    var entry := Entry(Location, selector);
    if LocationIndex(rules, gpu).Some? {
      LocationIndexSplits(rules, gpu);
      var i := LocationIndex(rules, gpu).value;
      var resized := rules[i].(size := Some(selector));
      StatementsAround(rules, i, resized, gpu, Size);
      NoLocationStatement(rules[..i], gpu, Size);
      FirstOfConcat(Statements(rules[..i], gpu, Size), [entry] + Statements(rules[i + 1..], gpu, Size), Location);
    } else {
      var added := LocationRule(gpu, selector);
      StatementsOfConcat(rules, [added], gpu, Size);
      StatementsOfOne(added, gpu, Size);
      NoLocationStatement(rules, gpu, Size);
      FirstOfConcat(Statements(rules, gpu, Size), [entry], Location);
    }
  }

  lemma EditedLocationIsLocal(rules: seq<GpuRule>, gpu: GpuDevice, selector: u8, g: GpuDevice)
    ensures !SameTarget(g, gpu) ==>
              Statements(WithLocationSelector(rules, gpu, selector), g, Size) == Statements(rules, g, Size)
    ensures Statements(WithLocationSelector(rules, gpu, selector), g, Mask) == Statements(rules, g, Mask)
  {
    if LocationIndex(rules, gpu).Some? {
      LocationIndexSplits(rules, gpu);
      ReplacedSize(rules, LocationIndex(rules, gpu).value, selector, g);
    } else {
      var added := LocationRule(gpu, selector);
      StatementsOfConcat(rules, [added], g, Size);
      StatementsOfConcat(rules, [added], g, Mask);
      StatementsOfOne(added, g, Size);
      StatementsOfOne(added, g, Mask);
    }
  }

  lemma LocationEdit(rules: seq<GpuRule>, gpu: GpuDevice, selector: u8)
    ensures DecidingSize(WithLocationSelector(rules, gpu, selector), gpu) == Some(selector)
    ensures forall g: GpuDevice :: !SameTarget(g, gpu) ==>
                          Statements(WithLocationSelector(rules, gpu, selector), g, Size) == Statements(rules, g, Size)
    ensures forall g: GpuDevice :: Statements(WithLocationSelector(rules, gpu, selector), g, Mask) == Statements(rules, g, Mask)
  {
    EditedLocationDecides(rules, gpu, selector);
    forall g: GpuDevice {
      EditedLocationIsLocal(rules, gpu, selector, g);
    }
  }

  // What clearing does to one rule's statements.
  lemma ClearedRuleStates(rule: GpuRule, gpu: GpuDevice, g: GpuDevice)
    ensures Statements(ClearedRule(rule, gpu), g, Mask) == Stated(rule, g, Mask)
    ensures Statements(ClearedRule(rule, gpu), gpu, Size) == []
    ensures Stated(rule, g, Size) == [] ==> Statements(ClearedRule(rule, gpu), g, Size) == []
  {
    StatementsOfOne(rule, g, Mask);
    StatementsOfOne(rule, g, Size);
    StatementsOfOne(rule, gpu, Size);
    StatementsOfOne(rule.(size := None), g, Mask);
    StatementsOfOne(rule.(size := None), g, Size);
    StatementsOfOne(rule.(size := None), gpu, Size);
  }

  lemma {:induction false} ClearedStates(rules: seq<GpuRule>, gpu: GpuDevice, g: GpuDevice)
    ensures Statements(Cleared(rules, gpu), g, Mask) == Statements(rules, g, Mask)
    ensures Statements(Cleared(rules, gpu), gpu, Size) == []
    ensures Statements(rules, g, Size) == [] ==> Statements(Cleared(rules, gpu), g, Size) == []
  {
    if rules != [] {
      ClearedStates(rules[1..], gpu, g);
      ClearedRuleStates(rules[0], gpu, g);
      var head, tail := ClearedRule(rules[0], gpu), Cleared(rules[1..], gpu);
      StatementsOfConcat(head, tail, g, Mask);
      StatementsOfConcat(head, tail, gpu, Size);
      StatementsOfConcat(head, tail, g, Size);
    }
  }

  // ---------------------------------------------------------------- what a choice changes

  // A size or exclusion decides exactly that GPU, and no GPU at another location sees it.
  lemma SizeChoiceIsLocal(rules: seq<GpuRule>, gpu: GpuDevice, choice: GpuChoice, devices: seq<GpuDevice>)
    requires !choice.Auto?
    ensures DecidingSize(Chosen(rules, gpu, choice, devices), gpu) == Some(SelectorOf(choice))
    ensures choice == Exclude || choice.selector < EXCLUDED_SELECTOR ==>
              Choice(Chosen(rules, gpu, choice, devices), gpu) == choice
    ensures forall g: GpuDevice :: g.Id() != gpu.Id() ==>
                          DecidingSize(Chosen(rules, gpu, choice, devices), g) == DecidingSize(rules, g)
  {
    LocationEdit(rules, gpu, SelectorOf(choice));
  }

  // What the pass over the other devices keeps, from any list in which the GPU is already cleared.
  lemma {:induction false} KeepOthersKeeps(before: seq<GpuRule>, next: seq<GpuRule>, gpu: GpuDevice,
                                           done: seq<GpuDevice>, devices: seq<GpuDevice>)
    requires Statements(next, gpu, Size) == []
    requires forall g: GpuDevice :: DecidingSize(before, g).None? ==> DecidingSize(next, g).None?
    requires forall g: GpuDevice :: g in done && g.Id() != gpu.Id() ==> DecidingSize(next, g) == DecidingSize(before, g)
    ensures var after := KeepOthers(before, next, gpu, devices);
            && Statements(after, gpu, Size) == []
            && (forall g: GpuDevice :: g in done + devices && g.Id() != gpu.Id() ==> DecidingSize(after, g) == DecidingSize(before, g))
    decreases |devices|
  {
    if devices == [] {
      assert done + devices == done;
    } else {
      var other := devices[0];
      var kept := KeepOne(before, next, gpu, other);
      if other.Id() != gpu.Id() && DecidingSize(before, other).Some? && DecidingSize(before, other) != DecidingSize(next, other) {
        LocationEdit(next, other, DecidingSize(before, other).value);
        forall g: GpuDevice | SameTarget(g, other)
          ensures DecidingSize(kept, g) == DecidingSize(before, g)
        {
          SameTargetSameStatements(kept, g, other, Size);
          SameTargetSameStatements(before, g, other, Size);
        }
      }
      assert done + devices == done + [other] + devices[1..];
      KeepOthersKeeps(before, kept, gpu, done + [other], devices[1..]);
    }
  }

  // "auto" clears the GPU and leaves every other listed GPU's deciding size exactly as it was.
  lemma AutoChoiceKeepsOthers(rules: seq<GpuRule>, gpu: GpuDevice, devices: seq<GpuDevice>)
    ensures Choice(Chosen(rules, gpu, Auto, devices), gpu) == Auto
    ensures DecidingSize(Chosen(rules, gpu, Auto, devices), gpu) == None
    ensures forall g: GpuDevice :: g in devices && g.Id() != gpu.Id() ==>
                          && DecidingSize(Chosen(rules, gpu, Auto, devices), g) == DecidingSize(rules, g)
                          && Choice(Chosen(rules, gpu, Auto, devices), g) == Choice(rules, g)
  {
    var cleared := Cleared(rules, gpu);
    ClearedStates(rules, gpu, gpu);
    forall g: GpuDevice | DecidingSize(rules, g).None?
      ensures DecidingSize(cleared, g).None?
    {
      UndecidedMeansSilent(Statements(rules, g, Size));
      ClearedStates(rules, gpu, g);
    }
    KeepOthersKeeps(rules, cleared, gpu, [], devices);
    assert [] + devices == devices;
  }

  // ---------------------------------------------------------------- what "auto" leaves to everyone

  // The rules that say nothing to the GPU.
  function OfOthers(rules: seq<GpuRule>, gpu: GpuDevice): seq<GpuRule> {
    Lists.Filter((r: GpuRule) => !RuleMatches(r, gpu), rules)
  }

  // Clearing keeps, in order, every rule that has no size or does not match the GPU, and the sizes it
  // leaves are those of the rules that do not match.
  lemma {:induction false} ClearingKeeps(rules: seq<GpuRule>, gpu: GpuDevice)
    ensures Lists.Subsequence(Spared(rules, gpu), Cleared(rules, gpu))
    ensures Lists.Filter((r: GpuRule) => r.size.Some?, Cleared(rules, gpu))
         == Lists.Filter((r: GpuRule) => r.size.Some? && !RuleMatches(r, gpu), rules)
  {
    if rules != [] {
      ClearingKeeps(rules[1..], gpu);
      var head, tail := ClearedRule(rules[0], gpu), Cleared(rules[1..], gpu);
      assert head == [] || head == [head[0]];
      assert (head + tail)[|head|..] == tail;
      assert ([rules[0]] + Spared(rules[1..], gpu))[1..] == Spared(rules[1..], gpu);
      assert head == [] ==> head + tail == tail && Spared(rules, gpu) == Spared(rules[1..], gpu);
      assert rules[0].size.Some? && RuleMatches(rules[0], gpu) ==> Spared(rules, gpu) == Spared(rules[1..], gpu);
    }
  }

  function Spared(rules: seq<GpuRule>, gpu: GpuDevice): seq<GpuRule> {
    Lists.Filter((r: GpuRule) => r.size.None? || !RuleMatches(r, gpu), rules)
  }

  // What any GPU is told about sizes after clearing is what the rules that do not match the cleared
  // GPU tell it.
  lemma {:induction false} ClearedLeaves(rules: seq<GpuRule>, gpu: GpuDevice, g: GpuDevice)
    ensures Statements(Cleared(rules, gpu), g, Size) == Statements(OfOthers(rules, gpu), g, Size)
  {
    if rules != [] {
      var rest := OfOthers(rules[1..], gpu);
      ClearedLeaves(rules[1..], gpu, g);
      StatementsOfConcat(ClearedRule(rules[0], gpu), Cleared(rules[1..], gpu), g, Size);
      StatementsOfOne(rules[0], g, Size);
      StatementsOfOne(rules[0].(size := None), g, Size);
      if RuleMatches(rules[0], gpu) {
        assert OfOthers(rules, gpu) == rest;
      } else {
        assert OfOthers(rules, gpu) == [rules[0]] + rest;
        StatementsOfConcat([rules[0]], rest, g, Size);
      }
    }
  }

  predicate ListsTarget(devices: seq<GpuDevice>, gpu: GpuDevice, g: GpuDevice) {
    exists d :: d in devices && d.Id() != gpu.Id() && SameTarget(g, d)
  }

  // One device's turn, for any GPU.
  lemma KeepOneDecides(before: seq<GpuRule>, next: seq<GpuRule>, gpu: GpuDevice, other: GpuDevice, g: GpuDevice)
    ensures var kept := KeepOne(before, next, gpu, other);
            if other.Id() != gpu.Id() && SameTarget(g, other) && DecidingSize(before, g).Some?
            then DecidingSize(kept, g) == DecidingSize(before, g)
            else Statements(kept, g, Size) == Statements(next, g, Size)
  {
    SameTargetIfSame(before, next, g, other);
    if other.Id() != gpu.Id() && DecidingSize(before, other).Some? && DecidingSize(before, other) != DecidingSize(next, other) {
      LocationEdit(next, other, DecidingSize(before, other).value);
      SameTargetIfSame(KeepOne(before, next, gpu, other), next, g, other);
    }
  }

  lemma SameTargetIfSame(a: seq<GpuRule>, b: seq<GpuRule>, g: GpuDevice, other: GpuDevice)
    ensures SameTarget(g, other) ==> DecidingSize(a, g) == DecidingSize(a, other) && DecidingSize(b, g) == DecidingSize(b, other)
  {
    if SameTarget(g, other) {
      SameTargetSameStatements(a, g, other, Size);
      SameTargetSameStatements(b, g, other, Size);
    }
  }

  lemma {:induction false} KeepOthersDecides(before: seq<GpuRule>, next: seq<GpuRule>, gpu: GpuDevice, devices: seq<GpuDevice>, g: GpuDevice)
    ensures var after := KeepOthers(before, next, gpu, devices);
            if ListsTarget(devices, gpu, g) && DecidingSize(before, g).Some? then DecidingSize(after, g) == DecidingSize(before, g)
            else Statements(after, g, Size) == Statements(next, g, Size)
    decreases |devices|
  {
    if devices != [] {
      var kept := KeepOne(before, next, gpu, devices[0]);
      KeepOneDecides(before, next, gpu, devices[0], g);
      KeepOthersDecides(before, kept, gpu, devices[1..], g);
      assert devices == [devices[0]] + devices[1..];
      assert ListsTarget(devices, gpu, g) <==>
        (devices[0].Id() != gpu.Id() && SameTarget(g, devices[0])) || ListsTarget(devices[1..], gpu, g);
    }
  }

  // What "auto" for one GPU means to every GPU, listed or not: a listed one at another location keeps
  // its deciding size; any other gets what the rules that do not match the GPU decide.
  lemma AutoDecides(rules: seq<GpuRule>, gpu: GpuDevice, devices: seq<GpuDevice>, g: GpuDevice)
    ensures DecidingSize(Chosen(rules, gpu, Auto, devices), g)
         == if ListsTarget(devices, gpu, g) then DecidingSize(rules, g) else DecidingSize(OfOthers(rules, gpu), g)
    ensures Statements(Chosen(rules, gpu, Auto, devices), g, Mask) == Statements(rules, g, Mask)
  {
    KeepOthersDecides(rules, Cleared(rules, gpu), gpu, devices, g);
    ClearedLeaves(rules, gpu, g);
    ClearedStates(rules, gpu, g);
    KeepOthersMasks(rules, Cleared(rules, gpu), gpu, devices, g);
    UndecidedMeansSilent(Statements(rules, g, Size));
    UndecidedMeansSilent(Statements(Cleared(rules, gpu), g, Size));
  }

  lemma {:induction false} KeepOthersMasks(before: seq<GpuRule>, next: seq<GpuRule>, gpu: GpuDevice, devices: seq<GpuDevice>, g: GpuDevice)
    ensures Statements(KeepOthers(before, next, gpu, devices), g, Mask) == Statements(next, g, Mask)
    decreases |devices|
  {
    if devices != [] {
      var other := devices[0];
      if DecidingSize(before, other).Some? {
        EditedLocationIsLocal(next, other, DecidingSize(before, other).value, g);
      }
      KeepOthersMasks(before, KeepOne(before, next, gpu, other), gpu, devices[1..], g);
    }
  }

  // A device whose deciding size clearing moved.
  predicate WasMoved(before: seq<GpuRule>, next: seq<GpuRule>, gpu: GpuDevice, d: GpuDevice) {
    d.Id() != gpu.Id() && DecidingSize(before, d).Some? && DecidingSize(before, d) != DecidingSize(next, d)
  }

  // The rule that gives a device its size back.
  predicate Restores(rule: GpuRule, rules: seq<GpuRule>, d: GpuDevice) {
    rule.scope == Location && RuleMatches(rule, d) && rule.size == DecidingSize(rules, d)
  }

  lemma EditedRules(rules: seq<GpuRule>, gpu: GpuDevice, selector: u8)
    ensures forall r :: r in WithLocationSelector(rules, gpu, selector) ==>
              r in rules || (r.scope == Location && RuleMatches(r, gpu) && r.size == Some(selector))
    ensures |WithLocationSelector(rules, gpu, selector)| <= |rules| + 1
  {
    if LocationIndex(rules, gpu).Some? {
      LocationIndexSplits(rules, gpu);
    }
  }

  lemma {:induction false} KeepOthersAdds(before: seq<GpuRule>, next: seq<GpuRule>, gpu: GpuDevice, devices: seq<GpuDevice>)
    ensures forall r :: r in KeepOthers(before, next, gpu, devices) ==>
              r in next || exists d :: d in devices && WasMoved(before, next, gpu, d) && Restores(r, before, d)
    ensures (forall d :: d in devices ==> !WasMoved(before, next, gpu, d)) ==> KeepOthers(before, next, gpu, devices) == next
    decreases |devices|
  {
    if devices != [] {
      var other := devices[0];
      var kept := KeepOne(before, next, gpu, other);
      KeepOthersAdds(before, kept, gpu, devices[1..]);
      if WasMoved(before, next, gpu, other) {
        EditedRules(next, other, DecidingSize(before, other).value);
      }
      forall d | d in devices[1..] && WasMoved(before, kept, gpu, d)
        ensures d in devices && WasMoved(before, next, gpu, d)
      {
        KeepOneDecides(before, next, gpu, other, d);
      }
      assert devices[0] in devices;
    }
  }

  // "auto" adds a rule only where clearing moved the deciding size of a listed device, and leaves the
  // list as it is where no sized rule matches the GPU.
  lemma AutoAddsOnlyWhatMoved(rules: seq<GpuRule>, gpu: GpuDevice, devices: seq<GpuDevice>)
    ensures forall r :: r in Chosen(rules, gpu, Auto, devices) ==>
              || r in Cleared(rules, gpu)
              || exists d :: d in devices && WasMoved(rules, Cleared(rules, gpu), gpu, d) && Restores(r, rules, d)
    ensures (forall r :: r in rules ==> r.size.None? || !RuleMatches(r, gpu)) ==> Chosen(rules, gpu, Auto, devices) == rules
  {
    KeepOthersAdds(rules, Cleared(rules, gpu), gpu, devices);
    if forall r :: r in rules ==> r.size.None? || !RuleMatches(r, gpu) {
      NothingToClear(rules, gpu);
    }
  }

  lemma {:induction false} NothingToClear(rules: seq<GpuRule>, gpu: GpuDevice)
    requires forall r :: r in rules ==> r.size.None? || !RuleMatches(r, gpu)
    ensures Cleared(rules, gpu) == rules
  {
    if rules != [] {
      NothingToClear(rules[1..], gpu);
    }
  }
}
