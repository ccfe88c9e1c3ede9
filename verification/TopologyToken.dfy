// The token that identifies a hardware inventory: a canonical byte string, then hashed.
module TopologyToken {
  import opened Prelude
  import opened Lists
  import opened Hardware
  import opened ConfigCodec

  // What of a device the token covers.
  datatype TopologyRecord = TopologyRecord(
    vendorId: u16,
    deviceId: u16,
    subVendor: u16,
    subDevice: u16,
    bus: u8,
    device: u8,
    fn: u8,
    bridge: PciBridge,
    bar0Base: u64,
    bar0Top: u64)

  function RecordOf(gpu: GpuDevice): TopologyRecord {
    TopologyRecord(gpu.vendorId, gpu.deviceId, gpu.subVendor, gpu.subDevice, gpu.bus, gpu.device, gpu.fn,
                   gpu.bridge, gpu.bar0Base, gpu.bar0Top)
  }

  const RECORD_SIZE := 34

  function RecordBytes(r: TopologyRecord): Bytes {
    Le16(r.vendorId) + Le16(r.deviceId) + Le16(r.subVendor) + Le16(r.subDevice) + [r.bus, r.device, r.fn]
    + Le16(r.bridge.vendorId) + Le16(r.bridge.deviceId) + [r.bridge.bus, r.bridge.device, r.bridge.fn]
    + Le(r.bar0Base, 8) + Le(r.bar0Top, 8)
  }

  // (bus, device, function, vendor id, device id, subsystem ids) as one number.
  function SlotKey(bus: u8, device: u8, fn: u8): int {
    (bus as int * 0x100 + device as int) * 0x100 + fn as int
  }

  function IdKey(vendorId: u16, deviceId: u16, subVendor: u16, subDevice: u16): int {
    ((vendorId as int * 0x1_0000 + deviceId as int) * 0x1_0000 + subVendor as int) * 0x1_0000 + subDevice as int
  }

  function RecordKey(r: TopologyRecord): int {
    SlotKey(r.bus, r.device, r.fn) * 0x1_0000_0000_0000_0000 + IdKey(r.vendorId, r.deviceId, r.subVendor, r.subDevice)
  }

  function DeviceKey(gpu: GpuDevice): int { RecordKey(RecordOf(gpu)) }

  function RecordsInOrder(devices: seq<GpuDevice>): seq<TopologyRecord> {
    MapAll(RecordOf, SortBy(DeviceKey, devices))
  }

  // The count is cut to 32 bits.
  function CountBytes(count: nat): (b: Bytes)
    ensures |b| == 4
  {
    Le(count % 0x1_0000_0000, 4)
  }

  function TopologyBytes(devices: seq<GpuDevice>): Bytes {
    CountBytes(|devices|) + Join(RecordBytes, RecordsInOrder(devices))
  }

  function Token(devices: seq<GpuDevice>): Digest { Sha256(TopologyBytes(devices)) }

  // The loop that appends one record after the other.
  method ComputeTopologyToken(devices: seq<GpuDevice>) returns (token: Digest)
    ensures token == Token(devices)
  {
    var sorted := SortBy(DeviceKey, devices);
    var head := CountBytes(|devices|);
    var bytes := head;
    ghost var records := MapAll(RecordOf, sorted);
    for k := 0 to |sorted|
      invariant bytes == head + Join(RecordBytes, records[..k])
    {
      var device := sorted[k];
      JoinOneMore(RecordBytes, records, k);
      Associates(head, Join(RecordBytes, records[..k]), RecordBytes(records[k]));
      bytes := bytes + RecordBytes(RecordOf(device));
    }
    assert records[..|sorted|] == records;
    return Sha256(bytes);
  }

  // ---------------------------------------------------------------- what the bytes determine

  function RecordAt(b: Bytes): TopologyRecord {
    if |b| != RECORD_SIZE then TopologyRecord(0, 0, 0, 0, 0, 0, 0, PciBridge(0, 0, 0, 0, 0), 0, 0)
    else
      TopologyRecord(U16At(b, 0), U16At(b, 2), U16At(b, 4), U16At(b, 6), b[8], b[9], b[10],
                     PciBridge(U16At(b, 11), U16At(b, 13), b[15], b[16], b[17]), U64At(b, 18), U64At(b, 26))
  }

  function Same(r: TopologyRecord): TopologyRecord { r }

  lemma RecordReadBack(r: TopologyRecord)
    ensures |RecordBytes(r)| == RECORD_SIZE
    ensures RecordAt(RecordBytes(r)) == Same(r)
  {
    var b := RecordBytes(r);
    Capacities();
    LeRoundTrip(r.bar0Base, 8);
    LeRoundTrip(r.bar0Top, 8);
    assert b[18..26] == Le(r.bar0Base, 8);
    assert b[26..34] == Le(r.bar0Top, 8);
  }

  // Equal bytes hold equal records in equal order: the length gives the count, even where the
  // 32-bit count field wrapped.
  lemma BytesDetermineRecords(a: seq<GpuDevice>, b: seq<GpuDevice>)
    requires TopologyBytes(a) == TopologyBytes(b)
    ensures RecordsInOrder(a) == RecordsInOrder(b)
  {
    var left, right := RecordsInOrder(a), RecordsInOrder(b);
    assert TopologyBytes(a)[4..] == Join(RecordBytes, left);
    assert TopologyBytes(b)[4..] == Join(RecordBytes, right);
    forall r { RecordReadBack(r); }
    JoinWidth(RecordBytes, RECORD_SIZE, left);
    JoinWidth(RecordBytes, RECORD_SIZE, right);
    SplitOfJoin(RecordBytes, RecordAt, Same, RECORD_SIZE, left, []);
    SplitOfJoin(RecordBytes, RecordAt, Same, RECORD_SIZE, right, []);
    assert Join(RecordBytes, left) + [] == Join(RecordBytes, left);
    MapIsIdentity(Same, left);
    MapIsIdentity(Same, right);
  }

  ghost function RecordSet(devices: seq<GpuDevice>): set<TopologyRecord> {
    set gpu | gpu in devices :: RecordOf(gpu)
  }

  lemma InOrderHoldsTheSet(devices: seq<GpuDevice>)
    ensures |RecordsInOrder(devices)| == |devices|
    ensures forall r :: r in RecordsInOrder(devices) <==> r in RecordSet(devices)
  {
    var sorted := SortBy(DeviceKey, devices);
    SortBySorts(DeviceKey, devices);
    SameLength(sorted, devices);
    MapMembers(RecordOf, sorted);
    MapMembers(RecordOf, devices);
  }

  lemma KeyHoldsSlot(a: TopologyRecord, b: TopologyRecord)
    requires RecordKey(a) == RecordKey(b)
    ensures a.bus == b.bus && a.device == b.device && a.fn == b.fn
  {
    assert 0 <= IdKey(a.vendorId, a.deviceId, a.subVendor, a.subDevice) < 0x1_0000_0000_0000_0000;
    assert 0 <= IdKey(b.vendorId, b.deviceId, b.subVendor, b.subDevice) < 0x1_0000_0000_0000_0000;
    assert SlotKey(a.bus, a.device, a.fn) == SlotKey(b.bus, b.device, b.fn);
  }

  lemma {:induction false} SlotsStayDistinct(devices: seq<GpuDevice>)
    requires DistinctSlots(devices)
    ensures StrictlySorted(RecordKey, RecordsInOrder(devices))
  {
    var sorted := SortBy(DeviceKey, devices);
    SortBySorts(DeviceKey, devices);
    SlotsAreNotRepeated(devices, sorted);
    var records := RecordsInOrder(devices);
    forall i, j | 0 <= i < j < |records|
      ensures RecordKey(records[i]) < RecordKey(records[j])
    {
      assert DeviceKey(sorted[i]) <= DeviceKey(sorted[j]);
      assert sorted[i].Id() != sorted[j].Id();
      if RecordKey(records[i]) == RecordKey(records[j]) {
        KeyHoldsSlot(records[i], records[j]);
      }
    }
  }

  // Distinct slots are distinct in every order of the inventory.
  lemma {:induction false} SlotsAreNotRepeated(a: seq<GpuDevice>, b: seq<GpuDevice>)
    requires multiset(a) == multiset(b) && DistinctSlots(a)
    ensures DistinctSlots(b)
  {
    SameLength(a, b);
    if a != [] {
      var i := Located(a, b);
      var rest := b[..i] + b[i + 1..];
      assert forall k, l :: 0 <= k < l < |a[1..]| ==> a[1..][k].Id() != a[1..][l].Id();
      SlotsAreNotRepeated(a[1..], rest);
      SameLength(a[1..], rest);
      forall g | g in rest
        ensures g.Id() != a[0].Id()
      {
        var k :| 0 <= k < |a[1..]| && a[1..][k] == g;
        assert a[k + 1] == g;
      }
      forall k, l | 0 <= k < l < |b|
        ensures b[k].Id() != b[l].Id()
      {
        var kept, later := if k < i then k else k - 1, if l < i then l else l - 1;
        if k == i {
          assert b[l] == rest[later];
        } else if l == i {
          assert b[k] == rest[kept];
        } else {
          assert b[k] == rest[kept] && b[l] == rest[later];
        }
      }
    }
  }

  // For inventories without a shared slot, two tokens are equal exactly when the inventories hold
  // the same records, in whatever order they were listed.
  lemma TokenIdentifiesInventory(a: seq<GpuDevice>, b: seq<GpuDevice>)
    requires DistinctSlots(a) && DistinctSlots(b)
    ensures Token(a) == Token(b) <==> RecordSet(a) == RecordSet(b)
  {
    InOrderHoldsTheSet(a);
    InOrderHoldsTheSet(b);
    if Token(a) == Token(b) {
      BytesDetermineRecords(a, b);
    }
    if RecordSet(a) == RecordSet(b) {
      SlotsStayDistinct(a);
      SlotsStayDistinct(b);
      MembersDetermineOrder(RecordKey, RecordsInOrder(a), RecordsInOrder(b));
    }
  }

  // Two devices the token cannot tell apart: the same ids, location, bridge and BAR0 window.
  predicate SameHardware(a: GpuDevice, b: GpuDevice) {
    && a.vendorId == b.vendorId && a.deviceId == b.deviceId && a.subVendor == b.subVendor && a.subDevice == b.subDevice
    && a.Id() == b.Id() && a.bridge == b.bridge && a.bar0Base == b.bar0Base && a.bar0Top == b.bar0Top
  }

  ghost predicate Covers(a: seq<GpuDevice>, b: seq<GpuDevice>) {
    forall g :: g in a ==> exists h :: h in b && SameHardware(g, h)
  }

  lemma CoversRecords(a: seq<GpuDevice>, b: seq<GpuDevice>)
    ensures Covers(a, b) <==> RecordSet(a) <= RecordSet(b)
  {
    if RecordSet(a) <= RecordSet(b) {
      forall g | g in a
        ensures exists h :: h in b && SameHardware(g, h)
      {
        assert RecordOf(g) in RecordSet(b);
        var h :| h in b && RecordOf(h) == RecordOf(g);
        assert SameHardware(g, h);
      }
    }
    if Covers(a, b) {
      forall r | r in RecordSet(a)
        ensures r in RecordSet(b)
      {
        var g :| g in a && RecordOf(g) == r;
        var h :| h in b && SameHardware(g, h);
        assert RecordOf(h) == r;
      }
    }
  }

  // In the devices' own terms: the tokens are equal exactly when each inventory holds, for every device
  // of the other, one with the same ids, location, bridge and BAR0 window.
  lemma TokenTellsHardwareApart(a: seq<GpuDevice>, b: seq<GpuDevice>)
    requires DistinctSlots(a) && DistinctSlots(b)
    ensures Token(a) == Token(b) <==> Covers(a, b) && Covers(b, a)
  {
    TokenIdentifiesInventory(a, b);
    CoversRecords(a, b);
    CoversRecords(b, a);
  }

  // The number orders devices as the tuple (bus, device, function, vendor, device id, subsystem ids)
  // does, first part first.
  lemma SlotComesFirst(a: GpuDevice, b: GpuDevice)
    ensures a.bus < b.bus || (a.bus == b.bus && (a.device < b.device || (a.device == b.device && a.fn < b.fn))) ==> DeviceKey(a) < DeviceKey(b)
    ensures a.Id() == b.Id() ==>
              (DeviceKey(a) < DeviceKey(b) <==>
                 || a.vendorId < b.vendorId
                 || (a.vendorId == b.vendorId &&
                     (|| a.deviceId < b.deviceId
                      || (a.deviceId == b.deviceId &&
                          (|| a.subVendor < b.subVendor
                           || (a.subVendor == b.subVendor && a.subDevice < b.subDevice))))))
  {
    assert 0 <= IdKey(a.vendorId, a.deviceId, a.subVendor, a.subDevice) < 0x1_0000_0000_0000_0000;
    assert 0 <= IdKey(b.vendorId, b.deviceId, b.subVendor, b.subDevice) < 0x1_0000_0000_0000_0000;
  }
}
