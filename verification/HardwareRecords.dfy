// The hardware part of the wire configuration: one record per GPU the driver will resize and one
// per bridge above them, with the checks that guard it.
module HardwareRecords {
  import opened Prelude
  import opened Lists
  import opened Hardware
  import opened BarRules
  import opened DraftRules
  import opened CoreConfig
  import opened DraftWire

  // ---------------------------------------------------------------- BAR0

  datatype Bar0Error = Unusable32BitRange | InvalidRange | NotNaturallyAligned

  function CheckedSub(a: u64, b: u64): Option<u64> { if a < b then None else Some(a - b) }

  function CheckedAdd(a: u64, b: u64): Option<u64> {
    if a + b < 0x1_0000_0000_0000_0000 then Some(a + b) else None
  }

  // A non-zero 32-bit window whose start is a multiple of 16 and of the window's own length.
  predicate NaturallyAligned(gpu: GpuDevice) {
    && 0 < gpu.bar0Base <= gpu.bar0Top < 0x1_0000_0000
    && gpu.bar0Base % 16 == 0
    && gpu.bar0Base % (gpu.bar0Top - gpu.bar0Base + 1) == 0
  }

  // The three-way check of the source; its middle error can never be the answer.
  function ValidateBar0(gpu: GpuDevice): (r: Result<(), Bar0Error>)
    ensures r.Ok? <==> NaturallyAligned(gpu)
    ensures r.Err? ==> !r.error.InvalidRange?
  {
    if gpu.bar0Base == 0 || gpu.bar0Top < gpu.bar0Base || gpu.bar0Base > 0xFFFF_FFFF || gpu.bar0Top > 0xFFFF_FFFF
    then Err(Unusable32BitRange)
    else
      var length := CheckedSub(gpu.bar0Top, gpu.bar0Base);
      var size := if length.None? then None else CheckedAdd(length.value, 1);
      if size.None? then Err(InvalidRange)
      else if gpu.bar0Base % 16 != 0 || size.value == 0 || gpu.bar0Base % size.value != 0 then Err(NotNaturallyAligned)
      else Ok(())
  }

  // ---------------------------------------------------------------- which records

  datatype HardwareError =
    | BadBar0(gpu: GpuDevice, problem: Bar0Error)
    | ConflictingBridges(bus: u8)
    | TooManyGpus
    | TooManyBridges

  predicate IsSelected(config: Config, registry: Registry, gpu: GpuDevice) {
    var selector := DecideSize(config, gpu, registry).selector;
    selector.Some? && selector.value < EXCLUDED_SELECTOR
  }

  function Selected(config: Config, registry: Registry, devices: seq<GpuDevice>): seq<GpuDevice> {
    Filter(gpu => IsSelected(config, registry, gpu), devices)
  }

  // Selected, in their order, are the devices given a size, and neither those given none nor those
  // excluded.
  lemma SelectedMeans(config: Config, registry: Registry, devices: seq<GpuDevice>)
    ensures Subsequence(Selected(config, registry, devices), devices)
    ensures forall g :: g in Selected(config, registry, devices) <==>
              g in devices && exists size: u8 :: DecideSize(config, g, registry).selector == Some(size) && size != 255 && size != 254
  {
    var isSelected := gpu => IsSelected(config, registry, gpu);
    FilterKeepsOrder(isSelected, devices);
    FilterMembers(isSelected, devices);
    assert Selected(config, registry, devices) == Filter(isSelected, devices);
  }

  function GpuRecordOf(gpu: GpuDevice): GpuRecord {
    GpuRecord(gpu.deviceId, gpu.subVendor, gpu.subDevice, gpu.bus, gpu.device, gpu.fn, gpu.bar0Base, gpu.bar0Top)
  }

  function BridgeRecordOf(gpu: GpuDevice): BridgeRecord {
    BridgeRecord(gpu.bridge.vendorId, gpu.bridge.deviceId, gpu.bridge.bus, gpu.bridge.device, gpu.bridge.fn, gpu.bus)
  }

  // A record carries its GPU's ids, location and BAR0 window; a bridge record its bridge, and the bus
  // behind it, which is the GPU's.
  predicate IsRecordOf(record: GpuRecord, gpu: GpuDevice) {
    && record.deviceId == gpu.deviceId && record.subVendor == gpu.subVendor && record.subDevice == gpu.subDevice
    && Slot(record.bus, record.device, record.fn) == gpu.Id()
    && record.bar0Base == gpu.bar0Base && record.bar0Top == gpu.bar0Top
  }

  predicate IsBridgeOf(record: BridgeRecord, gpu: GpuDevice) {
    PciBridge(record.vendorId, record.deviceId, record.bus, record.device, record.fn) == gpu.bridge && record.secondaryBus == gpu.bus
  }

  predicate OneBridgePerBus(gpus: seq<GpuDevice>) {
    forall a, b :: a in gpus && b in gpus && a.bus == b.bus ==> a.bridge == b.bridge
  }

  // The bridge records list every selected GPU's bridge, nothing else, and no bus twice.
  predicate CoversBuses(bridges: seq<BridgeRecord>, gpus: seq<GpuDevice>) {
    && (forall g :: g in gpus ==> BridgeRecordOf(g) in bridges)
    && (forall r :: r in bridges ==> exists g :: g in gpus && r == BridgeRecordOf(g))
    && (forall i, j :: 0 <= i < j < |bridges| ==> bridges[i].secondaryBus != bridges[j].secondaryBus)
    && |bridges| <= |gpus|
  }

  predicate ListsGpus(records: seq<GpuRecord>, gpus: seq<GpuDevice>) {
    |records| == |gpus| && forall i :: 0 <= i < |gpus| ==> IsRecordOf(records[i], gpus[i])
  }

  // A record for every GPU's bridge and for nothing else.
  predicate ListsBridges(records: seq<BridgeRecord>, gpus: seq<GpuDevice>) {
    && (forall g :: g in gpus ==> exists r :: r in records && IsBridgeOf(r, g))
    && (forall r :: r in records ==> exists g :: g in gpus && IsBridgeOf(r, g))
  }

  lemma CoveredIsListed(bridges: seq<BridgeRecord>, gpus: seq<GpuDevice>)
    requires CoversBuses(bridges, gpus)
    ensures ListsBridges(bridges, gpus)
  {
    forall g | g in gpus
      ensures exists r :: r in bridges && IsBridgeOf(r, g)
    {
      assert BridgeRecordOf(g) in bridges && IsBridgeOf(BridgeRecordOf(g), g);
    }
  }

  predicate HardwareFits(config: Config, registry: Registry, devices: seq<GpuDevice>) {
    var gpus := Selected(config, registry, devices);
    && (forall g :: g in gpus ==> NaturallyAligned(g))
    && OneBridgePerBus(gpus)
    && |gpus| <= MAX_GPUS
  }

  // The source's `find`: the first record for a bus.
  function BridgeForBus(bridges: seq<BridgeRecord>, bus: u8): (r: Option<BridgeRecord>)
    ensures r.None? <==> forall b :: b in bridges ==> b.secondaryBus != bus
    ensures r.Some? ==> r.value in bridges && r.value.secondaryBus == bus
  {
    if bridges == [] then None
    else if bridges[0].secondaryBus == bus then Some(bridges[0])
    else BridgeForBus(bridges[1..], bus)
  }

  // The bridge of the first selected GPU on each bus, in order.
  function BridgesOf(gpus: seq<GpuDevice>): seq<BridgeRecord> {
    if gpus == [] then []
    else
      var before := BridgesOf(gpus[..|gpus| - 1]);
      var gpu := gpus[|gpus| - 1];
      if BridgeForBus(before, gpu.bus).None? then before + [BridgeRecordOf(gpu)] else before
  }

  function WithHardware(config: Config, gpus: seq<GpuDevice>): Config {
    config.(gpus := MapAll(GpuRecordOf, gpus), bridges := BridgesOf(gpus))
  }

  lemma NextGpuFits(bridges: seq<BridgeRecord>, gpus: seq<GpuDevice>, gpu: GpuDevice)
    requires CoversBuses(bridges, gpus) && OneBridgePerBus(gpus)
    ensures var found := BridgeForBus(bridges, gpu.bus);
            && (found.None? ==> CoversBuses(bridges + [BridgeRecordOf(gpu)], gpus + [gpu]) && OneBridgePerBus(gpus + [gpu]))
            && (found == Some(BridgeRecordOf(gpu)) ==> CoversBuses(bridges, gpus + [gpu]) && OneBridgePerBus(gpus + [gpu]))
            && (found.Some? && found.value != BridgeRecordOf(gpu) ==> !OneBridgePerBus(gpus + [gpu]))
  {
    var found := BridgeForBus(bridges, gpu.bus);
    if found.Some? && found.value != BridgeRecordOf(gpu) {
      var g :| g in gpus && found.value == BridgeRecordOf(g);
      assert g in gpus + [gpu] && gpu in gpus + [gpu];
      assert g.bridge != gpu.bridge;
    } else {
      forall g | g in gpus && g.bus == gpu.bus
        ensures g.bridge == gpu.bridge
      {
        assert BridgeRecordOf(g) in bridges;
        var i :| 0 <= i < |bridges| && bridges[i] == BridgeRecordOf(g);
        var j :| 0 <= j < |bridges| && bridges[j] == found.value;
        assert i == j;
      }
    }
  }

  lemma {:induction false} OneBridgePerBusUsed(gpus: seq<GpuDevice>)
    requires OneBridgePerBus(gpus)
    ensures CoversBuses(BridgesOf(gpus), gpus)
  {
    if gpus != [] {
      var before, gpu := gpus[..|gpus| - 1], gpus[|gpus| - 1];
      assert gpus == before + [gpu];
      OneBridgePerBusUsed(before);
      NextGpuFits(BridgesOf(before), before, gpu);
    }
  }

  // What each error says about the inventory. Neither an invalid range nor a bridge overflow is ever
  // the answer.
  predicate Explains(error: HardwareError, gpus: seq<GpuDevice>) {
    match error
    case BadBar0(gpu, problem) => gpu in gpus && ValidateBar0(gpu) == Err(problem)
    case ConflictingBridges(bus) =>
      exists a, b :: a in gpus && b in gpus && a.bus == bus && b.bus == bus && a.bridge != b.bridge
    case TooManyGpus => |gpus| > MAX_GPUS
    case TooManyBridges => false
  }

  lemma ConflictIsHere(gpus: seq<GpuDevice>, gpu: GpuDevice)
    requires OneBridgePerBus(gpus) && !OneBridgePerBus(gpus + [gpu])
    ensures Explains(ConflictingBridges(gpu.bus), gpus + [gpu])
  {
    var a :| a in gpus && a.bus == gpu.bus && a.bridge != gpu.bridge;
    assert a in gpus + [gpu] && gpu in gpus + [gpu];
  }

  lemma {:induction false} SelectedPrefix(config: Config, registry: Registry, devices: seq<GpuDevice>, k: nat)
    requires k < |devices|
    ensures var here := if IsSelected(config, registry, devices[k]) then [devices[k]] else [];
            && Selected(config, registry, devices[..k + 1]) == Selected(config, registry, devices[..k]) + here
            && Selected(config, registry, devices[..k]) + here <= Selected(config, registry, devices)
    decreases |devices| - k
  {
    FilterSplit(gpu => IsSelected(config, registry, gpu), devices, k);
    if k + 1 < |devices| {
      SelectedPrefix(config, registry, devices, k + 1);
    } else {
      assert devices[..k + 1] == devices;
    }
  }

  // An objection to the first few selected GPUs is an objection to all of them.
  lemma FailsForAll(error: HardwareError, some: seq<GpuDevice>, gpus: seq<GpuDevice>)
    requires some <= gpus && Explains(error, some)
    ensures Explains(error, gpus)
    ensures error.BadBar0? ==> exists g :: g in gpus && !NaturallyAligned(g)
    ensures error.ConflictingBridges? ==> !OneBridgePerBus(gpus)
  {
    assert forall g :: g in some ==> g in gpus;
    if error.ConflictingBridges? {
      var a, b :| a in some && b in some && a.bus == error.bus && b.bus == error.bus && a.bridge != b.bridge;
      assert a in gpus && b in gpus;
    }
  }

  // The records built so far describe the GPUs selected so far.
  predicate Describes(gpus: seq<GpuRecord>, bridges: seq<BridgeRecord>, selected: seq<GpuDevice>) {
    && gpus == MapAll(GpuRecordOf, selected)
    && (forall g :: g in selected ==> NaturallyAligned(g))
    && OneBridgePerBus(selected)
    && bridges == BridgesOf(selected)
  }

  lemma NextBridge(selected: seq<GpuDevice>, gpu: GpuDevice)
    requires OneBridgePerBus(selected)
    ensures var bridges := BridgesOf(selected);
            var found := BridgeForBus(bridges, gpu.bus);
            && BridgesOf(selected + [gpu]) == (if found.None? then bridges + [BridgeRecordOf(gpu)] else bridges)
            && (OneBridgePerBus(selected + [gpu]) <==> found.None? || found.value == BridgeRecordOf(gpu))
  {
    OneBridgePerBusUsed(selected);
    NextGpuFits(BridgesOf(selected), selected, gpu);
    assert (selected + [gpu])[..|selected|] == selected;
  }

  lemma NextRecord(gpus: seq<GpuRecord>, bridges: seq<BridgeRecord>, selected: seq<GpuDevice>, gpu: GpuDevice)
    requires Describes(gpus, bridges, selected) && NaturallyAligned(gpu)
    ensures var found := BridgeForBus(bridges, gpu.bus);
            if found.None? then Describes(gpus + [GpuRecordOf(gpu)], bridges + [BridgeRecordOf(gpu)], selected + [gpu])
            else if found.value == BridgeRecordOf(gpu) then Describes(gpus + [GpuRecordOf(gpu)], bridges, selected + [gpu])
            else !OneBridgePerBus(selected + [gpu])
  {
    NextBridge(selected, gpu);
    MapConcat(GpuRecordOf, selected, [gpu]);
    assert MapAll(GpuRecordOf, [gpu]) == [GpuRecordOf(gpu)];
  }

  // The loop that fills in the hardware records. It succeeds exactly when the hardware fits, with
  // the selected devices in order and one bridge per bus they use.
  method PopulateHardware(config: Config, registry: Registry, devices: seq<GpuDevice>)
    returns (r: Result<Config, HardwareError>)
    requires config.gpus == [] && config.bridges == []
    ensures r.Ok? <==> HardwareFits(config, registry, devices)
    ensures r.Ok? ==>
              && r.value == WithHardware(config, Selected(config, registry, devices))
              && r.value == config.(gpus := r.value.gpus, bridges := r.value.bridges)
              && ListsGpus(r.value.gpus, Selected(config, registry, devices))
              && CoversBuses(r.value.bridges, Selected(config, registry, devices))
              && ListsBridges(r.value.bridges, Selected(config, registry, devices))
    ensures r.Err? ==> Explains(r.error, Selected(config, registry, devices))
  {
    var gpus, bridges := [], [];
    ghost var selected := [];
    for i := 0 to |devices|
      invariant selected == Selected(config, registry, devices[..i])
      invariant Describes(gpus, bridges, selected)
    {
      var device := devices[i];
      SelectedPrefix(config, registry, devices, i);
      if IsSelected(config, registry, device) {
        var checked := ValidateBar0(device);
        if checked.Err? {
          FailsForAll(BadBar0(device, checked.error), selected + [device], Selected(config, registry, devices));
          return Err(BadBar0(device, checked.error));
        }
        NextRecord(gpus, bridges, selected, device);
        gpus := gpus + [GpuRecordOf(device)];
        var bridge := BridgeRecordOf(device);
        var existing := BridgeForBus(bridges, bridge.secondaryBus);
        if existing.Some? {
          if existing.value != bridge {
            ConflictIsHere(selected, device);
            FailsForAll(ConflictingBridges(device.bus), selected + [device], Selected(config, registry, devices));
            return Err(ConflictingBridges(bridge.secondaryBus));
          }
        } else {
          bridges := bridges + [bridge];
        }
        selected := selected + [device];
      }
    }
    assert devices[..|devices|] == devices;
    OneBridgePerBusUsed(selected);
    CoveredIsListed(bridges, selected);
    if |gpus| > MAX_GPUS { return Err(TooManyGpus); }
    if |bridges| > MAX_BRIDGES { return Err(TooManyBridges); }
    return Ok(config.(gpus := gpus, bridges := bridges));
  }
}
