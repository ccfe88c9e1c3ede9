// The byte format of the configuration variable, and what survives being stored in it.
module ConfigCodec {
  import opened Prelude
  import opened Lists
  import opened Hardware
  import opened CoreConfig

  datatype ConfigError =
    | HeaderTruncated | RecordTruncated | TooManySelectors | TooManyGpus | TooManyBridges

  const HEADER_SIZE := 11
  const SELECTOR_SIZE := 10
  const GPU_SIZE := 24
  const BRIDGE_SIZE := 7

  // ---------------------------------------------------------------- records

  function Le16(x: u16): Bytes { [x % 256, x / 256] }

  function U16At(b: Bytes, i: nat): u16
    requires i + 2 <= |b|
  {
    b[i] as int + 256 * (b[i + 1] as int)
  }

  lemma {:induction false} FromLeBound(b: Bytes)
    ensures FromLe(b) < Capacity(|b|)
  {
    if b != [] {
      FromLeBound(b[1..]);
    }
  }

  function U64At(b: Bytes, i: nat): u64
    requires i + 8 <= |b|
  {
    FromLeBound(b[i..i + 8]);
    Capacities();
    FromLe(b[i..i + 8])
  }

  function Pack(device: u8, fn: u8): u8 { device % 32 * 8 + fn % 8 }

  function Unpack(bus: u8, packed: u8): (u8, u8) {
    if bus == ANY8 && packed == 255 then (ANY8, ANY8) else (packed / 8, packed % 8)
  }

  // A location comes back from its packed form unless a part was cut off, or the very last PCI
  // slot was mistaken for the "any location" wildcard.
  predicate Storable(bus: u8, device: u8, fn: u8) {
    || (device <= 31 && fn <= 7 && !(bus == ANY8 && device == 31 && fn == 7))
    || (bus == ANY8 && device == ANY8 && fn == ANY8)
  }

  lemma StorableExactly(bus: u8, device: u8, fn: u8)
    ensures Unpack(bus, Pack(device, fn)) == (device, fn) <==> Storable(bus, device, fn)
  {
    assert Pack(device, fn) / 8 == device % 32;
    assert Pack(device, fn) % 8 == fn % 8;
  }

  function SelectorBytes(s: Selector): Bytes {
    Le16(s.deviceId) + Le16(s.subVendor) + Le16(s.subDevice) + [s.bus, Pack(s.device, s.fn), s.size, s.mask]
  }

  function GpuBytes(g: GpuRecord): Bytes {
    Le16(g.deviceId) + Le16(g.subVendor) + Le16(g.subDevice) + [g.bus, Pack(g.device, g.fn)]
    + Le(g.bar0Base, 8) + Le(g.bar0Top, 8)
  }

  function BridgeBytes(b: BridgeRecord): Bytes {
    Le16(b.vendorId) + Le16(b.deviceId) + [b.bus, Pack(b.device, b.fn), b.secondaryBus]
  }

  // Record readers; the decoder only calls them on a slice of the record's own width.
  function SelectorAt(b: Bytes): Selector {
    if |b| != SELECTOR_SIZE then Selector(0, 0, 0, 0, 0, 0, 0, 0)
    else
      var location := Unpack(b[6], b[7]);
      Selector(U16At(b, 0), U16At(b, 2), U16At(b, 4), b[6], location.0, location.1, b[8], b[9])
  }

  function GpuAt(b: Bytes): GpuRecord {
    if |b| != GPU_SIZE then GpuRecord(0, 0, 0, 0, 0, 0, 0, 0)
    else
      var location := Unpack(b[6], b[7]);
      GpuRecord(U16At(b, 0), U16At(b, 2), U16At(b, 4), b[6], location.0, location.1, U64At(b, 8), U64At(b, 16))
  }

  function BridgeAt(b: Bytes): BridgeRecord {
    if |b| != BRIDGE_SIZE then BridgeRecord(0, 0, 0, 0, 0, 0)
    else
      var location := Unpack(b[4], b[5]);
      BridgeRecord(U16At(b, 0), U16At(b, 2), b[4], location.0, location.1, b[6])
  }

  // What a record becomes by being stored and read back.
  function StoredSelector(s: Selector): Selector {
    var location := Unpack(s.bus, Pack(s.device, s.fn));
    s.(device := location.0, fn := location.1)
  }

  function StoredGpu(g: GpuRecord): GpuRecord {
    var location := Unpack(g.bus, Pack(g.device, g.fn));
    g.(device := location.0, fn := location.1)
  }

  function StoredBridge(b: BridgeRecord): BridgeRecord {
    var location := Unpack(b.bus, Pack(b.device, b.fn));
    b.(device := location.0, fn := location.1)
  }

  lemma SelectorReadBack(s: Selector)
    ensures |SelectorBytes(s)| == SELECTOR_SIZE
    ensures SelectorAt(SelectorBytes(s)) == StoredSelector(s)
  {
  }

  lemma GpuReadBack(g: GpuRecord)
    ensures |GpuBytes(g)| == GPU_SIZE
    ensures GpuAt(GpuBytes(g)) == StoredGpu(g)
  {
    var b := GpuBytes(g);
    Capacities();
    LeRoundTrip(g.bar0Base, 8);
    LeRoundTrip(g.bar0Top, 8);
    assert b[8..16] == Le(g.bar0Base, 8);
    assert b[16..24] == Le(g.bar0Top, 8);
  }

  lemma BridgeReadBack(b: BridgeRecord)
    ensures |BridgeBytes(b)| == BRIDGE_SIZE
    ensures BridgeAt(BridgeBytes(b)) == StoredBridge(b)
  {
  }

  // ---------------------------------------------------------------- lists of fixed-width records

  function Join<T>(write: T -> Bytes, items: seq<T>): Bytes {
    if items == [] then [] else write(items[0]) + Join(write, items[1..])
  }

  function Split<T>(read: Bytes -> T, width: nat, b: Bytes, count: nat): seq<T>
    requires width * count <= |b|
    decreases count
  {
    if count == 0 then []
    else
      assert width * (count - 1) + width == width * count;
      [read(b[..width])] + Split(read, width, b[width..], count - 1)
  }

  lemma {:induction false} JoinWidth<T(!new)>(write: T -> Bytes, width: nat, items: seq<T>)
    requires forall x :: |write(x)| == width
    ensures |Join(write, items)| == width * |items|
  {
    if items != [] {
      JoinWidth(write, width, items[1..]);
      assert width * (|items| - 1) + width == width * |items|;
    }
  }

  lemma {:induction false} SplitOfJoin<T(!new)>(write: T -> Bytes, read: Bytes -> T, stored: T -> T, width: nat,
                                                 items: seq<T>, tail: Bytes)
    requires forall x :: |write(x)| == width && read(write(x)) == stored(x)
    ensures width * |items| <= |Join(write, items) + tail|
    ensures Split(read, width, Join(write, items) + tail, |items|) == MapAll(stored, items)
    ensures (Join(write, items) + tail)[width * |items|..] == tail
  {
    JoinWidth(write, width, items);
    var b := Join(write, items) + tail;
    if items != [] {
      var rest := Join(write, items[1..]) + tail;
      assert b == write(items[0]) + rest;
      assert b[..width] == write(items[0]) && b[width..] == rest;
      SplitOfJoin(write, read, stored, width, items[1..], tail);
    }
  }

  lemma {:induction false} MapIsIdentity<T(!new)>(f: T -> T, items: seq<T>)
    ensures MapAll(f, items) == items <==> forall x :: x in items ==> f(x) == x
  {
    if items != [] {
      MapIsIdentity(f, items[1..]);
      assert items == [items[0]] + items[1..];
      assert MapAll(f, items) == [f(items[0])] + MapAll(f, items[1..]);
      assert items[0] in items;
      assert forall x :: x in items[1..] ==> x in items;
      if MapAll(f, items) == items {
        assert MapAll(f, items)[1..] == items[1..];
        assert MapAll(f, items)[0] == items[0];
      }
    }
  }

  lemma {:induction false} SplitOneMore<T>(read: Bytes -> T, width: nat, b: Bytes, count: nat)
    requires width * (count + 1) <= |b|
    ensures width * count <= width * count + width <= |b|
    ensures Split(read, width, b, count + 1)
         == Split(read, width, b, count) + [read(b[width * count..width * count + width])]
    decreases count
  {
    assert width * count + width == width * (count + 1);
    if count > 0 {
      assert width * (count - 1) + width == width * count;
      SplitOneMore(read, width, b[width..], count - 1);
      assert b[width..][width * (count - 1)..width * count] == b[width * count..width * count + width];
    }
  }

  lemma {:induction false} JoinOneMore<T>(write: T -> Bytes, items: seq<T>, k: nat)
    requires k < |items|
    ensures Join(write, items[..k + 1]) == Join(write, items[..k]) + write(items[k])
  {
    if k == 0 {
      assert items[..1] == [items[0]];
    } else {
      assert items[..k + 1][1..] == items[1..][..k] && items[..k][1..] == items[1..][..k - 1];
      JoinOneMore(write, items[1..], k - 1);
    }
  }

  // ---------------------------------------------------------------- the variable

  function CountProblem(config: Config): Option<ConfigError> {
    if |config.selectors| > MAX_GPUS then Some(TooManySelectors)
    else if |config.gpus| > MAX_GPUS then Some(TooManyGpus)
    else if |config.bridges| > MAX_BRIDGES then Some(TooManyBridges)
    else None
  }

  function BridgeSection(config: Config): Bytes
    requires CountProblem(config).None?
  {
    [|config.bridges|] + (Join(BridgeBytes, config.bridges) + [])
  }

  function GpuSection(config: Config): Bytes
    requires CountProblem(config).None?
  {
    [|config.gpus|] + (Join(GpuBytes, config.gpus) + BridgeSection(config))
  }

  function SelectorSection(config: Config): Bytes
    requires CountProblem(config).None?
  {
    [|config.selectors|] + (Join(SelectorBytes, config.selectors) + GpuSection(config))
  }

  function Header(config: Config): Bytes {
    [config.target] + Le16(config.flags) + Le(config.setupCrc, 8)
  }

  function Layout(config: Config): Bytes
    requires CountProblem(config).None?
  {
    Header(config) + SelectorSection(config)
  }

  // An unconfigured driver is stored as no variable at all.
  function Encoded(config: Config): Result<Bytes, ConfigError> {
    if CountProblem(config).Some? then Err(CountProblem(config).value)
    else if !DriverConfigured(config) then Ok([])
    else Ok(Layout(config))
  }

  // The writer's loop over one list: its count byte, then its records.
  method EncodeList<T>(write: T -> Bytes, items: seq<T>, written: Bytes) returns (bytes: Bytes)
    requires |items| < 256
    ensures bytes == written + ([|items|] + Join(write, items))
  {
    bytes := written + [|items|];
    for k := 0 to |items|
      invariant bytes == written + ([|items|] + Join(write, items[..k]))
    {
      JoinOneMore(write, items, k);
      bytes := bytes + write(items[k]);
    }
    assert items[..|items|] == items;
  }

  method Encode(config: Config) returns (r: Result<Bytes, ConfigError>)
    ensures r == Encoded(config)
  {
    if CountProblem(config).Some? { return Err(CountProblem(config).value); }
    if !DriverConfigured(config) { return Ok([]); }
    var bytes := [config.target];
    bytes := bytes + Le16(config.flags);
    bytes := bytes + Le(config.setupCrc, 8);
    bytes := EncodeList(SelectorBytes, config.selectors, bytes);
    bytes := EncodeList(GpuBytes, config.gpus, bytes);
    bytes := EncodeList(BridgeBytes, config.bridges, bytes);
    LayoutIsFlat(config);
    return Ok(bytes);
  }

  // Where the fixed parts of a stored variable are, and how long it is.
  lemma LayoutPlaces(config: Config)
    requires CountProblem(config).None?
    ensures var b := Layout(config);
            && |b| == 14 + 10 * |config.selectors| + 24 * |config.gpus| + 7 * |config.bridges|
            && b[0] == config.target && b[1] as int + 256 * b[2] as int == config.flags
            && b[3..11] == Le(config.setupCrc, 8)
            && b[11] == |config.selectors|
            && b[12 + 10 * |config.selectors|] == |config.gpus|
            && b[13 + 10 * |config.selectors| + 24 * |config.gpus|] == |config.bridges|
  {
    SectionWidths(config);
    var selectors, gpus := Join(SelectorBytes, config.selectors), Join(GpuBytes, config.gpus);
    assert Header(config)[3..11] == Le(config.setupCrc, 8);
    assert Layout(config)[3..11] == Header(config)[3..11];
    PlaceAfter(Header(config), selectors, |config.selectors|, GpuSection(config));
    PlaceAfter(Header(config) + ([|config.selectors|] + selectors), gpus, |config.gpus|, BridgeSection(config));
    assert Layout(config) == Header(config) + ([|config.selectors|] + selectors) + GpuSection(config);
  }

  lemma PlaceAfter(front: Bytes, records: Bytes, count: u8, rest: Bytes)
    requires rest != []
    ensures var b := front + ([count] + (records + rest));
            && b == front + ([count] + records) + rest && |b| == |front| + 1 + |records| + |rest|
            && b[|front|] == count && b[|front| + 1 + |records|] == rest[0]
            && (forall i :: 0 <= i < |front| ==> b[i] == front[i])
  {
  }

  lemma SectionWidths(config: Config)
    ensures |Join(SelectorBytes, config.selectors)| == 10 * |config.selectors|
    ensures |Join(GpuBytes, config.gpus)| == 24 * |config.gpus|
    ensures |Join(BridgeBytes, config.bridges)| == 7 * |config.bridges|
  {
    forall s { SelectorReadBack(s); }
    forall g { GpuReadBack(g); }
    forall r { BridgeReadBack(r); }
    JoinWidth(SelectorBytes, SELECTOR_SIZE, config.selectors);
    JoinWidth(GpuBytes, GPU_SIZE, config.gpus);
    JoinWidth(BridgeBytes, BRIDGE_SIZE, config.bridges);
  }

  // The bytes of a selector record: three little-endian ids, the bus, the device and function packed
  // into one byte, the size and the mask override.
  lemma SelectorPlaces(s: Selector)
    ensures var b := SelectorBytes(s);
            && |b| == 10
            && b[0] as int + 256 * b[1] as int == s.deviceId
            && b[2] as int + 256 * b[3] as int == s.subVendor
            && b[4] as int + 256 * b[5] as int == s.subDevice
            && b[6] == s.bus && b[8] == s.size && b[9] == s.mask
            && (s.device <= 31 && s.fn <= 7 ==> b[7] == 8 * s.device + s.fn)
  {
    var b := SelectorBytes(s);
    assert b[0..2] == Le16(s.deviceId) && b[2..4] == Le16(s.subVendor) && b[4..6] == Le16(s.subDevice);
    assert b[0] == Le16(s.deviceId)[0] && b[2] == Le16(s.subVendor)[0] && b[4] == Le16(s.subDevice)[0];
    assert b[1] == Le16(s.deviceId)[1] && b[3] == Le16(s.subVendor)[1] && b[5] == Le16(s.subDevice)[1];
    WordSays(s.deviceId);
    WordSays(s.subVendor);
    WordSays(s.subDevice);
    if s.device <= 31 && s.fn <= 7 {
      PackSays(s.device, s.fn);
    }
  }

  lemma WordSays(x: u16)
    ensures |Le16(x)| == 2 && Le16(x)[0] as int + 256 * Le16(x)[1] as int == x
  {
  }

  lemma PackSays(device: u8, fn: u8)
    requires device <= 31 && fn <= 7
    ensures Pack(device, fn) == 8 * device + fn
  {
  }

  lemma LayoutIsFlat(config: Config)
    requires CountProblem(config).None?
    ensures Layout(config)
         == Header(config) + ([|config.selectors|] + Join(SelectorBytes, config.selectors))
            + ([|config.gpus|] + Join(GpuBytes, config.gpus))
            + ([|config.bridges|] + Join(BridgeBytes, config.bridges))
  {
    var s, g, b := Join(SelectorBytes, config.selectors), Join(GpuBytes, config.gpus), Join(BridgeBytes, config.bridges);
    var ns, ng, nb := [|config.selectors|], [|config.gpus|], [|config.bridges|];
    var h := Header(config);
    assert b + [] == b;
    Associates(ng, g, nb + b);
    Associates(ns, s, (ng + g) + (nb + b));
    Associates(h, ns, s + ((ng + g) + (nb + b)));
    Associates(h, ns + s, (ng + g) + (nb + b));
    Associates(h + (ns + s), ng + g, nb + b);
  }

  // A count byte followed by that many records; whatever is left follows.
  function ReadList<T>(read: Bytes -> T, width: nat, limit: nat, tooMany: ConfigError, b: Bytes)
    : Result<(seq<T>, Bytes), ConfigError>
  {
    if b == [] then Err(RecordTruncated)
    else if b[0] > limit then Err(tooMany)
    else if |b| - 1 < width * b[0] then Err(RecordTruncated)
    else Ok((Split(read, width, b[1..], b[0]), b[1..][width * b[0]..]))
  }

  // The three lists behind the header.
  function ReadLists(b: Bytes): Result<(seq<Selector>, seq<GpuRecord>, seq<BridgeRecord>), ConfigError> {
    var selectors := ReadList(SelectorAt, SELECTOR_SIZE, MAX_GPUS, TooManySelectors, b);
    if selectors.Err? then Err(selectors.error)
    else
      var gpus := ReadList(GpuAt, GPU_SIZE, MAX_GPUS, TooManyGpus, selectors.value.1);
      if gpus.Err? then Err(gpus.error)
      else
        var bridges := ReadList(BridgeAt, BRIDGE_SIZE, MAX_BRIDGES, TooManyBridges, gpus.value.1);
        if bridges.Err? then Err(bridges.error)
        else Ok((selectors.value.0, gpus.value.0, bridges.value.0))
  }

  function Decoded(bytes: Bytes): Result<Config, ConfigError> {
    if bytes == [] then Ok(DEFAULT_CONFIG)
    else if |bytes| < HEADER_SIZE + 3 then Err(HeaderTruncated)
    else
      var lists := ReadLists(bytes[HEADER_SIZE..]);
      if lists.Err? then Err(lists.error)
      else Ok(Config(bytes[0], U16At(bytes, 1), U64At(bytes, 3), lists.value.0, lists.value.1, lists.value.2))
  }

  lemma {:induction false} SplitLength<T>(read: Bytes -> T, width: nat, b: Bytes, count: nat)
    requires width * count <= |b|
    ensures |Split(read, width, b, count)| == count
    decreases count
  {
    if count > 0 {
      assert width * (count - 1) + width == width * count;
      SplitLength(read, width, b[width..], count - 1);
    }
  }

  // One list is read exactly if its count byte is there, is within the limit, and is followed by that
  // many records; the bytes behind them are left for the next.
  lemma ListReads<T>(read: Bytes -> T, width: nat, limit: nat, tooMany: ConfigError, b: Bytes)
    ensures var r := ReadList(read, width, limit, tooMany, b);
            && (r.Ok? <==> b != [] && b[0] <= limit && |b| >= 1 + width * b[0])
            && (r.Ok? ==> |r.value.0| == b[0] && r.value.1 == b[1 + width * b[0]..])
            && (r.Err? ==> r.error == if b != [] && b[0] > limit then tooMany else RecordTruncated)
  {
    if b != [] && b[0] <= limit && |b| >= 1 + width * b[0] {
      SplitLength(read, width, b[1..], b[0]);
      TailOfTail(b, 1, width * b[0]);
    }
  }

  // Each count within its limit, with room for its records, and the next list behind them.
  predicate BridgesFit(b: Bytes) { b != [] && b[0] <= 10 && |b| >= 1 + 7 * b[0] as int }
  predicate GpusFit(b: Bytes) { b != [] && b[0] <= 8 && |b| >= 1 + 24 * b[0] as int && BridgesFit(b[1 + 24 * b[0] as int..]) }
  predicate SelectorsFit(b: Bytes) { b != [] && b[0] <= 8 && |b| >= 1 + 10 * b[0] as int && GpusFit(b[1 + 10 * b[0] as int..]) }

  // The three counts found there.
  predicate Counts(b: Bytes, selectors: nat, gpus: nat, bridges: nat) {
    b != [] && b[0] == selectors && |b| >= 1 + 10 * selectors && GpuCounts(b[1 + 10 * selectors..], gpus, bridges)
  }

  predicate GpuCounts(b: Bytes, gpus: nat, bridges: nat) {
    && b != [] && b[0] == gpus && |b| >= 1 + 24 * gpus
    && var rest := b[1 + 24 * gpus..]; rest != [] && rest[0] == bridges
  }

  lemma ListsReadExactly(b: Bytes)
    ensures ReadLists(b).Ok? <==> SelectorsFit(b)
    ensures ReadLists(b).Ok? ==>
              var (selectors, gpus, bridges) := ReadLists(b).value;
              Counts(b, |selectors|, |gpus|, |bridges|)
    ensures ReadLists(b) != Err(HeaderTruncated)
    ensures ReadLists(b) == Err(TooManySelectors) <==> b != [] && b[0] > 8
  {
    ListReads(SelectorAt, SELECTOR_SIZE, MAX_GPUS, TooManySelectors, b);
    var selectors := ReadList(SelectorAt, SELECTOR_SIZE, MAX_GPUS, TooManySelectors, b);
    if selectors.Ok? {
      ListReads(GpuAt, GPU_SIZE, MAX_GPUS, TooManyGpus, selectors.value.1);
      var gpus := ReadList(GpuAt, GPU_SIZE, MAX_GPUS, TooManyGpus, selectors.value.1);
      if gpus.Ok? {
        ListReads(BridgeAt, BRIDGE_SIZE, MAX_BRIDGES, TooManyBridges, gpus.value.1);
      }
    }
  }

  // Stored bytes can be read exactly if there are none, or the three counts behind the header fit; then
  // each list has as many records as its count says.
  lemma DecodesExactly(bytes: Bytes)
    ensures Decoded(bytes).Ok? <==> bytes == [] || (|bytes| >= 14 && SelectorsFit(bytes[11..]))
    ensures Decoded(bytes).Ok? && bytes != [] ==>
              var config := Decoded(bytes).value;
              && config.target == bytes[0] && config.flags == bytes[1] as int + 256 * bytes[2] as int
              && config.setupCrc == FromLe(bytes[3..11])
              && Counts(bytes[11..], |config.selectors|, |config.gpus|, |config.bridges|)
    ensures Decoded(bytes) == Err(HeaderTruncated) <==> 0 < |bytes| < 14
    ensures Decoded(bytes) == Err(TooManySelectors) <==> |bytes| >= 14 && bytes[11] > 8
  {
    if |bytes| >= 14 {
      ListsReadExactly(bytes[11..]);
    }
  }

  // The cursor's loop over one list, starting at a position.
  method DecodeList<T>(read: Bytes -> T, width: nat, limit: nat, tooMany: ConfigError, bytes: Bytes, start: nat)
    returns (r: Result<seq<T>, ConfigError>, position: nat)
    requires start <= |bytes|
    ensures r.Ok? ==> position <= |bytes|
    ensures ReadList(read, width, limit, tooMany, bytes[start..])
         == if r.Ok? then Ok((r.value, bytes[position..])) else Err(r.error)
  {
    position := start;
    if position >= |bytes| { return Err(RecordTruncated), position; }
    var count := bytes[position];
    if count > limit { return Err(tooMany), position; }
    position := position + 1;
    ghost var body := bytes[start + 1..];
    assert bytes[start..][1..] == body && bytes[start..][0] == count;
    var items: seq<T> := [];
    for k := 0 to count
      invariant width * k <= |body|
      invariant position == start + 1 + width * k
      invariant items == Split(read, width, body, k)
    {
      if position + width > |bytes| {
        assert width * (k + 1) == width * k + width;
        WidthsGrow(width, k + 1, count);
        return Err(RecordTruncated), position;
      }
      assert width * k + width == width * (k + 1);
      SplitOneMore(read, width, body, k);
      SliceOfTail(bytes, start + 1, width * k, width);
      items := items + [read(bytes[position..position + width])];
      position := position + width;
    }
    TailOfTail(bytes, start + 1, width * count);
    return Ok(items), position;
  }

  lemma SliceOfTail(b: Bytes, start: nat, at: nat, width: nat)
    requires start + at + width <= |b|
    ensures b[start..][at..at + width] == b[start + at..start + at + width]
  {
  }

  lemma TailOfTail(b: Bytes, start: nat, at: nat)
    requires start + at <= |b|
    ensures b[start..][at..] == b[start + at..]
  {
  }

  lemma WidthsGrow(width: nat, a: nat, b: nat)
    requires a <= b
    ensures width * a <= width * b
  {
    assert width * b == width * a + width * (b - a);
  }

  method Decode(bytes: Bytes) returns (r: Result<Config, ConfigError>)
    ensures r == Decoded(bytes)
  {
    if bytes == [] { return Ok(DEFAULT_CONFIG); }
    if |bytes| < HEADER_SIZE + 3 { return Err(HeaderTruncated); }
    var selectors, afterSelectors := DecodeList(SelectorAt, SELECTOR_SIZE, MAX_GPUS, TooManySelectors, bytes, HEADER_SIZE);
    if selectors.Err? { return Err(selectors.error); }
    var gpus, afterGpus := DecodeList(GpuAt, GPU_SIZE, MAX_GPUS, TooManyGpus, bytes, afterSelectors);
    if gpus.Err? { return Err(gpus.error); }
    var bridges, _ := DecodeList(BridgeAt, BRIDGE_SIZE, MAX_BRIDGES, TooManyBridges, bytes, afterGpus);
    if bridges.Err? { return Err(bridges.error); }
    return Ok(Config(bytes[0], U16At(bytes, 1), U64At(bytes, 3), selectors.value, gpus.value, bridges.value));
  }

  // What a configuration becomes by being written to the variable and read back.
  function Stored(config: Config): Config {
    if !DriverConfigured(config) then DEFAULT_CONFIG
    else config.(
           selectors := MapAll(StoredSelector, config.selectors),
           gpus := MapAll(StoredGpu, config.gpus),
           bridges := MapAll(StoredBridge, config.bridges))
  }

  lemma ListReadBack<T(!new)>(write: T -> Bytes, read: Bytes -> T, stored: T -> T, width: nat,
                              limit: nat, tooMany: ConfigError, items: seq<T>, tail: Bytes)
    requires forall x :: |write(x)| == width && read(write(x)) == stored(x)
    requires |items| <= limit < 256
    ensures ReadList(read, width, limit, tooMany, [|items|] + (Join(write, items) + tail)) == Ok((MapAll(stored, items), tail))
  {
    SplitOfJoin(write, read, stored, width, items, tail);
    assert ([|items|] + (Join(write, items) + tail))[1..] == Join(write, items) + tail;
  }

  lemma HeaderReadBack(config: Config, rest: Bytes)
    ensures var bytes := Header(config) + rest;
            && bytes[HEADER_SIZE..] == rest
            && bytes[0] == config.target && U16At(bytes, 1) == config.flags && U64At(bytes, 3) == config.setupCrc
  {
    var bytes := Header(config) + rest;
    Capacities();
    LeRoundTrip(config.setupCrc, 8);
    assert bytes[3..11] == Le(config.setupCrc, 8);
  }

  lemma SelectorsReadBack(config: Config)
    requires CountProblem(config).None?
    ensures ReadList(SelectorAt, SELECTOR_SIZE, MAX_GPUS, TooManySelectors, SelectorSection(config))
         == Ok((MapAll(StoredSelector, config.selectors), GpuSection(config)))
  {
    forall s { SelectorReadBack(s); }
    ListReadBack(SelectorBytes, SelectorAt, StoredSelector, SELECTOR_SIZE, MAX_GPUS, TooManySelectors, config.selectors, GpuSection(config));
  }

  lemma GpusReadBack(config: Config)
    requires CountProblem(config).None?
    ensures ReadList(GpuAt, GPU_SIZE, MAX_GPUS, TooManyGpus, GpuSection(config))
         == Ok((MapAll(StoredGpu, config.gpus), BridgeSection(config)))
  {
    forall g { GpuReadBack(g); }
    ListReadBack(GpuBytes, GpuAt, StoredGpu, GPU_SIZE, MAX_GPUS, TooManyGpus, config.gpus, BridgeSection(config));
  }

  lemma BridgesReadBack(config: Config)
    requires CountProblem(config).None?
    ensures ReadList(BridgeAt, BRIDGE_SIZE, MAX_BRIDGES, TooManyBridges, BridgeSection(config))
         == Ok((MapAll(StoredBridge, config.bridges), []))
  {
    forall b { BridgeReadBack(b); }
    ListReadBack(BridgeBytes, BridgeAt, StoredBridge, BRIDGE_SIZE, MAX_BRIDGES, TooManyBridges, config.bridges, []);
  }

  lemma ReadBack(config: Config)
    requires CountProblem(config).None?
    ensures Encoded(config).Ok? && Decoded(Encoded(config).value) == Ok(Stored(config))
  {
    if DriverConfigured(config) {
      assert ReadLists(SelectorSection(config))
          == Ok((MapAll(StoredSelector, config.selectors), MapAll(StoredGpu, config.gpus), MapAll(StoredBridge, config.bridges))) by {
        SelectorsReadBack(config);
        GpusReadBack(config);
        BridgesReadBack(config);
      }
      assert |SelectorSection(config)| >= 3;
      HeaderReadBack(config, SelectorSection(config));
    }
  }

  // Which configurations come back unchanged, exactly.
  lemma RoundTripExactly(config: Config)
    requires CountProblem(config).None?
    ensures Decoded(Encoded(config).value) == Ok(config) <==>
            if DriverConfigured(config) then
              && (forall s :: s in config.selectors ==> Storable(s.bus, s.device, s.fn))
              && (forall g :: g in config.gpus ==> Storable(g.bus, g.device, g.fn))
              && (forall b :: b in config.bridges ==> Storable(b.bus, b.device, b.fn))
            else config == DEFAULT_CONFIG
  {
    ReadBack(config);
    MapIsIdentity(StoredSelector, config.selectors);
    MapIsIdentity(StoredGpu, config.gpus);
    MapIsIdentity(StoredBridge, config.bridges);
    forall s: Selector { StorableExactly(s.bus, s.device, s.fn); }
    forall g: GpuRecord { StorableExactly(g.bus, g.device, g.fn); }
    forall b: BridgeRecord { StorableExactly(b.bus, b.device, b.fn); }
  }
}
