// The identity a deployment is pinned to, and the three relations a later identity is held to.
module Identity {
  import opened Prelude
  import opened Hardware

  datatype GpuFingerprint = GpuFingerprint(
    vendorId: u16,
    deviceId: u16,
    subVendor: u16,
    subDevice: u16,
    location: Slot,
    bridge: Slot,
    bar0Base: u64,
    bar0Top: u64)

  // A GPU without the address range firmware assigns to it.
  datatype StableGpu = StableGpu(vendorId: u16, deviceId: u16, subVendor: u16, subDevice: u16, location: Slot, bridge: Slot)

  function StablePart(gpu: GpuFingerprint): StableGpu {
    StableGpu(gpu.vendorId, gpu.deviceId, gpu.subVendor, gpu.subDevice, gpu.location, gpu.bridge)
  }

  datatype MachineIdentity = MachineIdentity(
    boardManufacturer: string,
    boardProduct: string,
    boardVersion: string,
    biosVendor: string,
    biosVersion: string,
    biosReleaseDate: string,
    gpus: seq<GpuFingerprint>)

  // A checked identity: trimmed texts, and the GPUs sorted without repetition, which is a set.
  datatype Pinned = Pinned(
    boardManufacturer: string,
    boardProduct: string,
    boardVersion: string,
    biosVendor: string,
    biosVersion: string,
    biosReleaseDate: string,
    gpus: set<GpuFingerprint>)

  datatype ProfileError = MissingField | NoGpuFingerprint | InvalidPciLocation | InvalidBar0Range

  // ---------------------------------------------------------------- normalisation

  // Unicode white space.
  predicate IsSpace(c: char) {
    || '\U{9}' <= c <= '\U{d}' || c == ' ' || c == '\U{85}' || c == '\U{a0}' || c == '\U{1680}'
    || '\U{2000}' <= c <= '\U{200a}' || c == '\U{2028}' || c == '\U{2029}' || c == '\U{202f}' || c == '\U{205f}' || c == '\U{3000}'
  }

  function TrimStart(text: string): string {
    if text != [] && IsSpace(text[0]) then TrimStart(text[1..]) else text
  }

  function TrimEnd(text: string): string {
    if text != [] && IsSpace(text[|text| - 1]) then TrimEnd(text[..|text| - 1]) else text
  }

  function Trim(text: string): string { TrimEnd(TrimStart(text)) }

  predicate OnPciBus(slot: Slot) { slot.device <= 31 && slot.fn <= 7 }

  function GpuProblem(gpu: GpuFingerprint): Option<ProfileError> {
    if !OnPciBus(gpu.location) || !OnPciBus(gpu.bridge) then Some(InvalidPciLocation)
    else if gpu.bar0Base > gpu.bar0Top then Some(InvalidBar0Range)
    else None
  }

  function FirstGpuProblem(gpus: seq<GpuFingerprint>): Option<ProfileError> {
    if gpus == [] then None
    else if GpuProblem(gpus[0]).Some? then GpuProblem(gpus[0])
    else FirstGpuProblem(gpus[1..])
  }

  function Normalized(raw: MachineIdentity): Result<Pinned, ProfileError> {
    var pinned := Pinned(Trim(raw.boardManufacturer), Trim(raw.boardProduct), Trim(raw.boardVersion),
                         Trim(raw.biosVendor), Trim(raw.biosVersion), Trim(raw.biosReleaseDate),
                         set gpu | gpu in raw.gpus);
    if pinned.boardManufacturer == "" || pinned.boardProduct == "" || pinned.boardVersion == ""
       || pinned.biosVendor == "" || pinned.biosVersion == "" || pinned.biosReleaseDate == ""
    then Err(MissingField)
    else if raw.gpus == [] then Err(NoGpuFingerprint)
    else if FirstGpuProblem(raw.gpus).Some? then Err(FirstGpuProblem(raw.gpus).value)
    else Ok(pinned)
  }

  // ---------------------------------------------------------------- comparison

  function LowerAscii(c: char): char {
    if 'A' <= c <= 'Z' then (c as int + 32) as char else c
  }

  function Lower(text: string): string {
    if text == [] then [] else [LowerAscii(text[0])] + Lower(text[1..])
  }

  predicate SameText(a: string, b: string) { Lower(a) == Lower(b) }

  datatype AllowedChange = Nothing | Bar0Relocation | FirmwareRevisionAndBar0

  datatype Field = BoardManufacturer | BoardProduct | BoardVersion | BiosVendor | BiosVersion | BiosReleaseDate

  datatype Difference = FieldDiffers(field: Field) | GpuTopology | FirmwareImage | InvalidCurrentIdentity

  function CompareField(field: Field, expected: string, actual: string): seq<Difference> {
    if SameText(expected, actual) then [] else [FieldDiffers(field)]
  }

  predicate SameGpu(expected: GpuFingerprint, current: GpuFingerprint, allowRelocation: bool) {
    StablePart(expected) == StablePart(current)
    && (allowRelocation || (expected.bar0Base == current.bar0Base && expected.bar0Top == current.bar0Top))
  }

  // One-sided by design of the source: as many GPUs, and each expected one is found.
  predicate TopologyMatches(expected: set<GpuFingerprint>, current: set<GpuFingerprint>, allowRelocation: bool) {
    |expected| == |current| && forall e :: e in expected ==> exists c :: c in current && SameGpu(e, c, allowRelocation)
  }

  function Compare(expected: Pinned, current: MachineIdentity, allowed: AllowedChange): seq<Difference> {
    var normalized := Normalized(current);
    if normalized.Err? then [InvalidCurrentIdentity]
    else
      var now := normalized.value;
      CompareField(BoardManufacturer, expected.boardManufacturer, now.boardManufacturer)
      + CompareField(BoardProduct, expected.boardProduct, now.boardProduct)
      + CompareField(BoardVersion, expected.boardVersion, now.boardVersion)
      + CompareField(BiosVendor, expected.biosVendor, now.biosVendor)
      + (if allowed.FirmwareRevisionAndBar0? then []
         else CompareField(BiosVersion, expected.biosVersion, now.biosVersion)
              + CompareField(BiosReleaseDate, expected.biosReleaseDate, now.biosReleaseDate))
      + (if TopologyMatches(expected.gpus, now.gpus, !allowed.Nothing?) then [] else [GpuTopology])
  }

  // ---------------------------------------------------------------- what the relations pin

  ghost function StableParts(gpus: set<GpuFingerprint>): set<StableGpu> {
    set gpu | gpu in gpus :: StablePart(gpu)
  }

  // No two fingerprints differ in their address range alone.
  ghost predicate DistinctParts(gpus: set<GpuFingerprint>) {
    forall a, b :: a in gpus && b in gpus && StablePart(a) == StablePart(b) ==> a == b
  }

  // One character is the other, or they are one ASCII letter in its two cases.
  predicate SameLetter(a: char, b: char) {
    || a == b
    || ('A' <= a <= 'Z' && b as int == a as int + 32)
    || ('A' <= b <= 'Z' && a as int == b as int + 32)
  }

  predicate Alike(a: string, b: string) {
    |a| == |b| && forall i :: 0 <= i < |a| ==> SameLetter(a[i], b[i])
  }

  lemma {:induction false} LowerAt(text: string)
    ensures |Lower(text)| == |text| && forall i :: 0 <= i < |text| ==> Lower(text)[i] == LowerAscii(text[i])
  {
    if text != [] {
      LowerAt(text[1..]);
    }
  }

  // Two texts are compared as the same exactly if they are alike letter by letter.
  lemma SameTextMeans(a: string, b: string)
    ensures SameText(a, b) <==> Alike(a, b)
  {
    LowerAt(a);
    LowerAt(b);
    if Alike(a, b) {
      assert forall i :: 0 <= i < |a| ==> SameLetter(a[i], b[i]);
      assert Lower(a) == Lower(b);
    } else if |a| == |b| {
      var i :| 0 <= i < |a| && !SameLetter(a[i], b[i]);
      assert Lower(a)[i] != Lower(b)[i];
    }
  }

  lemma AlikeFurther(a: string, b: string, c: string)
    requires Alike(a, b) && Alike(b, c)
    ensures Alike(a, c) && Alike(b, a)
  {
    assert forall i :: 0 <= i < |a| ==> SameLetter(a[i], b[i]) && SameLetter(b[i], c[i]);
  }

  lemma AlikeBoth(base: string, a: string, b: string)
    requires Alike(base, a) && Alike(base, b)
    ensures Alike(a, b)
  {
    assert forall i :: 0 <= i < |base| ==> SameLetter(base[i], a[i]) && SameLetter(base[i], b[i]);
  }

  // The board, the BIOS vendor, the GPU models and the slots.
  ghost predicate SameMachine(a: Pinned, b: Pinned) {
    && Alike(a.boardManufacturer, b.boardManufacturer)
    && Alike(a.boardProduct, b.boardProduct)
    && Alike(a.boardVersion, b.boardVersion)
    && Alike(a.biosVendor, b.biosVendor)
    && StableParts(a.gpus) == StableParts(b.gpus)
    && |a.gpus| == |b.gpus|
  }

  predicate SameRevision(a: Pinned, b: Pinned) {
    Alike(a.biosVersion, b.biosVersion) && Alike(a.biosReleaseDate, b.biosReleaseDate)
  }

  lemma {:induction false} SubsetOfSameSize<T>(a: set<T>, b: set<T>)
    requires a <= b && |a| == |b|
    ensures a == b
  {
    assert |b| == |a| + |b - a| by { assert b == a + (b - a); }
    assert b - a == {};
  }

  lemma {:induction false} PartsAreNoMore(gpus: set<GpuFingerprint>)
    ensures |StableParts(gpus)| <= |gpus|
    ensures |StableParts(gpus)| == |gpus| <==> DistinctParts(gpus)
    decreases |gpus|
  {
    if gpus != {} {
      var gpu :| gpu in gpus;
      var rest := gpus - {gpu};
      PartsAreNoMore(rest);
      assert StableParts(gpus) == StableParts(rest) + {StablePart(gpu)};
      if StablePart(gpu) in StableParts(rest) {
        var twin :| twin in rest && StablePart(twin) == StablePart(gpu);
        assert twin in gpus && twin != gpu;
        assert StableParts(gpus) == StableParts(rest);
      } else {
        assert DistinctParts(rest) ==> DistinctParts(gpus);
        assert DistinctParts(gpus) ==> DistinctParts(rest);
      }
    } else {
      assert StableParts(gpus) == {};
    }
  }

  // Compared exactly, the GPUs are the same set.
  lemma ExactTopology(expected: set<GpuFingerprint>, current: set<GpuFingerprint>)
    ensures TopologyMatches(expected, current, false) <==> expected == current
  {
    if TopologyMatches(expected, current, false) {
      forall e | e in expected
        ensures e in current
      {
        var c :| c in current && SameGpu(e, c, false);
        assert e == c;
      }
      SubsetOfSameSize(expected, current);
    }
  }

  // Compared with relocation allowed, models and slots are the same set, provided the expected
  // GPUs differ in more than their address range.
  lemma RelaxedTopology(expected: set<GpuFingerprint>, current: set<GpuFingerprint>)
    requires DistinctParts(expected)
    ensures TopologyMatches(expected, current, true) <==>
              StableParts(expected) == StableParts(current) && |expected| == |current|
    ensures TopologyMatches(expected, current, true) ==> DistinctParts(current)
  {
    PartsAreNoMore(expected);
    PartsAreNoMore(current);
    if TopologyMatches(expected, current, true) {
      forall p | p in StableParts(expected)
        ensures p in StableParts(current)
      {
        var e :| e in expected && StablePart(e) == p;
        var c :| c in current && SameGpu(e, c, true);
        assert p == StablePart(c);
      }
      SubsetSize(StableParts(expected), StableParts(current));
      SubsetOfSameSize(StableParts(expected), StableParts(current));
    }
    if StableParts(expected) == StableParts(current) && |expected| == |current| {
      forall e | e in expected
        ensures exists c :: c in current && SameGpu(e, c, true)
      {
        assert StablePart(e) in StableParts(current);
        var c :| c in current && StablePart(c) == StablePart(e);
        assert SameGpu(e, c, true);
      }
    }
  }

  lemma {:induction false} SubsetSize<T>(a: set<T>, b: set<T>)
    requires a <= b
    ensures |a| <= |b|
  {
    assert b == a + (b - a);
  }

  lemma SwapSize<T>(items: set<T>, outgoing: T, incoming: T)
    requires outgoing in items && incoming !in items
    ensures |items - {outgoing} + {incoming}| == |items|
  {
    assert |items - {outgoing}| == |items| - 1;
    assert |(items - {outgoing}) + {incoming}| == |items - {outgoing}| + 1;
  }

  // That condition is needed: where two expected fingerprints differ in their address range alone,
  // the relaxed comparison lets any other GPU take the place of one of them.
  lemma RelaxedTopologyAdmitsStranger(expected: set<GpuFingerprint>, stranger: GpuFingerprint)
    requires !DistinctParts(expected) && StablePart(stranger) !in StableParts(expected)
    ensures exists current :: stranger in current && TopologyMatches(expected, current, true)
  {
    var a, b :| a in expected && b in expected && StablePart(a) == StablePart(b) && a != b;
    var current := expected - {b} + {stranger};
    SwapSize(expected, b, stranger);
    TwinStandsIn(expected, a, b, current);
  }

  // So the relaxed comparison pins models and slots exactly when the expected GPUs differ in more
  // than their address range; `stranger` is any GPU that is not one of them.
  lemma RelaxedTopologyPinsExactly(expected: set<GpuFingerprint>, stranger: GpuFingerprint)
    requires StablePart(stranger) !in StableParts(expected)
    ensures DistinctParts(expected) <==>
              forall current :: TopologyMatches(expected, current, true) ==> StableParts(current) == StableParts(expected)
  {
    if DistinctParts(expected) {
      forall current | TopologyMatches(expected, current, true)
        ensures StableParts(current) == StableParts(expected)
      {
        RelaxedTopology(expected, current);
      }
    } else {
      RelaxedTopologyAdmitsStranger(expected, stranger);
      var current :| stranger in current && TopologyMatches(expected, current, true);
      assert StablePart(stranger) in StableParts(current);
    }
  }

  lemma TwinStandsIn(expected: set<GpuFingerprint>, a: GpuFingerprint, b: GpuFingerprint, current: set<GpuFingerprint>)
    requires a in expected && StablePart(a) == StablePart(b) && a != b
    requires expected - {b} <= current && |current| == |expected|
    ensures TopologyMatches(expected, current, true)
  {
    forall e | e in expected
      ensures exists c :: c in current && SameGpu(e, c, true)
    {
      var c := if e == b then a else e;
      assert c in current && SameGpu(e, c, true);
    }
  }

  lemma TextsMean(a: Pinned, b: Pinned)
    ensures SameText(a.boardManufacturer, b.boardManufacturer) <==> Alike(a.boardManufacturer, b.boardManufacturer)
    ensures SameText(a.boardProduct, b.boardProduct) <==> Alike(a.boardProduct, b.boardProduct)
    ensures SameText(a.boardVersion, b.boardVersion) <==> Alike(a.boardVersion, b.boardVersion)
    ensures SameText(a.biosVendor, b.biosVendor) <==> Alike(a.biosVendor, b.biosVendor)
    ensures SameText(a.biosVersion, b.biosVersion) <==> Alike(a.biosVersion, b.biosVersion)
    ensures SameText(a.biosReleaseDate, b.biosReleaseDate) <==> Alike(a.biosReleaseDate, b.biosReleaseDate)
  {
    SameTextMeans(a.boardManufacturer, b.boardManufacturer);
    SameTextMeans(a.boardProduct, b.boardProduct);
    SameTextMeans(a.boardVersion, b.boardVersion);
    SameTextMeans(a.biosVendor, b.biosVendor);
    SameTextMeans(a.biosVersion, b.biosVersion);
    SameTextMeans(a.biosReleaseDate, b.biosReleaseDate);
  }

  // ---------------------------------------------------------------- what normalisation leaves

  // What is left of a text once the white space at both ends is gone.
  predicate Stripped(text: string, r: string) {
    && (r == [] || (!IsSpace(r[0]) && !IsSpace(r[|r| - 1])))
    && exists i: nat, j: nat ::
         && i <= j <= |text| && r == text[i..j]
         && (forall k :: 0 <= k < i ==> IsSpace(text[k])) && (forall k :: j <= k < |text| ==> IsSpace(text[k]))
  }

  lemma {:induction false} TrimStartStrips(text: string) returns (i: nat)
    ensures i <= |text| && TrimStart(text) == text[i..] && (forall k :: 0 <= k < i ==> IsSpace(text[k]))
    ensures i == |text| || !IsSpace(text[i])
  {
    if text != [] && IsSpace(text[0]) {
      var rest := TrimStartStrips(text[1..]);
      i := rest + 1;
      assert forall k :: 0 < k < i ==> text[k] == text[1..][k - 1];
    } else {
      i := 0;
    }
  }

  lemma {:induction false} TrimEndStrips(text: string) returns (j: nat)
    ensures j <= |text| && TrimEnd(text) == text[..j] && (forall k :: j <= k < |text| ==> IsSpace(text[k]))
    ensures j == 0 || !IsSpace(text[j - 1])
  {
    if text != [] && IsSpace(text[|text| - 1]) {
      j := TrimEndStrips(text[..|text| - 1]);
    } else {
      j := |text|;
    }
  }

  lemma TrimStrips(text: string)
    ensures Stripped(text, Trim(text))
  {
    var i := TrimStartStrips(text);
    var j := TrimEndStrips(TrimStart(text));
    assert Trim(text) == text[i..i + j];
    forall k | i + j <= k < |text|
      ensures IsSpace(text[k])
    {
      assert IsSpace(text[i..][k - i]);
    }
  }

  predicate Blank(text: string) { forall i :: 0 <= i < |text| ==> IsSpace(text[i]) }

  lemma BlankMeans(text: string)
    ensures Trim(text) == "" <==> Blank(text)
  {
    var i := TrimStartStrips(text);
    var j := TrimEndStrips(TrimStart(text));
    assert Blank(text) <==> i == |text|;
  }

  predicate UsableGpu(gpu: GpuFingerprint) {
    gpu.location.device <= 31 && gpu.location.fn <= 7 && gpu.bridge.device <= 31 && gpu.bridge.fn <= 7 && gpu.bar0Base <= gpu.bar0Top
  }

  lemma {:induction false} GpusAreUsable(gpus: seq<GpuFingerprint>)
    ensures FirstGpuProblem(gpus).None? <==> forall gpu :: gpu in gpus ==> UsableGpu(gpu)
  {
    if gpus != [] {
      GpusAreUsable(gpus[1..]);
      assert GpuProblem(gpus[0]).None? <==> UsableGpu(gpus[0]);
      assert forall gpu :: gpu in gpus <==> gpu == gpus[0] || gpu in gpus[1..];
    }
  }

  // An identity can be pinned exactly if no text is blank, there is a GPU, and every GPU is at a
  // possible location with a range that does not run backwards; texts lose the white space around
  // them and the GPUs their order and repetitions.
  lemma NormalizedMeans(raw: MachineIdentity)
    ensures Normalized(raw).Ok? <==>
              && !Blank(raw.boardManufacturer) && !Blank(raw.boardProduct) && !Blank(raw.boardVersion)
              && !Blank(raw.biosVendor) && !Blank(raw.biosVersion) && !Blank(raw.biosReleaseDate)
              && raw.gpus != [] && forall gpu :: gpu in raw.gpus ==> UsableGpu(gpu)
    ensures Normalized(raw).Ok? ==>
              var r := Normalized(raw).value;
              && Stripped(raw.boardManufacturer, r.boardManufacturer) && Stripped(raw.boardProduct, r.boardProduct)
              && Stripped(raw.boardVersion, r.boardVersion) && Stripped(raw.biosVendor, r.biosVendor)
              && Stripped(raw.biosVersion, r.biosVersion) && Stripped(raw.biosReleaseDate, r.biosReleaseDate)
              && forall gpu :: gpu in r.gpus <==> gpu in raw.gpus
  {
    TextStrips(raw.boardManufacturer);
    TextStrips(raw.boardProduct);
    TextStrips(raw.boardVersion);
    TextStrips(raw.biosVendor);
    TextStrips(raw.biosVersion);
    TextStrips(raw.biosReleaseDate);
    GpusAreUsable(raw.gpus);
  }

  lemma TextStrips(text: string)
    ensures Stripped(text, Trim(text)) && (Trim(text) == "" <==> Blank(text))
  {
    TrimStrips(text);
    BlankMeans(text);
  }

  // The three relations in terms of what they hold fixed: exactly nothing differs when the machine
  // is the same, and also its revision, and also every address range.
  lemma ComparesExactly(expected: Pinned, current: MachineIdentity, allowed: AllowedChange)
    requires allowed.Nothing? || DistinctParts(expected.gpus)
    ensures Compare(expected, current, allowed) == [] <==>
              && Normalized(current).Ok?
              && SameMachine(expected, Normalized(current).value)
              && (!allowed.FirmwareRevisionAndBar0? ==> SameRevision(expected, Normalized(current).value))
              && (allowed.Nothing? ==> expected.gpus == Normalized(current).value.gpus)
    ensures Compare(expected, current, allowed) == [] && DistinctParts(expected.gpus) ==> DistinctParts(Normalized(current).value.gpus)
  {
    if Normalized(current).Ok? {
      TextsMean(expected, Normalized(current).value);
      ExactTopology(expected.gpus, Normalized(current).value.gpus);
      if DistinctParts(expected.gpus) {
        RelaxedTopology(expected.gpus, Normalized(current).value.gpus);
      }
    }
  }
}
