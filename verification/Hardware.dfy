// The GPU inventory as the backend enumerates it and the client receives it.
module Hardware {
  import opened Prelude

  datatype PciBridge = PciBridge(vendorId: u16, deviceId: u16, bus: u8, device: u8, fn: u8)

  // A PCI location. The inventory's device id is this location printed as text.
  datatype Slot = Slot(bus: u8, device: u8, fn: u8)

  datatype GpuDevice = GpuDevice(
    vendorId: u16,
    deviceId: u16,
    subVendor: u16,
    subDevice: u16,
    bus: u8,
    device: u8,
    fn: u8,
    bridge: PciBridge,
    bar0Base: u64,
    bar0Top: u64,
    currentBarSize: u64,
    isTuring: bool,
    recommendedSelector: Option<u8>)
  {
    function Id(): Slot { Slot(bus, device, fn) }
  }

  predicate DistinctSlots(devices: seq<GpuDevice>) {
    forall i, j :: 0 <= i < j < |devices| ==> devices[i].Id() != devices[j].Id()
  }

  predicate IsTuringId(deviceId: u16) {
    0x1E00 <= deviceId <= 0x1FFF || 0x2180 <= deviceId <= 0x21FF
  }
}
