/** From the caller's parameters to the device the machine starts with, and back to what is reported. */
module Params {
  import opened Words
  import opened Machine

  const DEF_QD := 128
  const DEF_NR_HW_QUEUES := 1
  const DEF_BUF_SIZE := 524288
  const POOL_SIZE := 512
  const CHANNEL_SIZE := 4096
  const READ_BUFFER := 512 * 1024
  const UINT_MAX := 0xffff_ffff

  // The defaults of startupC and the conversion to an unsigned short.
  function QueueDepth(depth: int): nat { if depth <= 0 then DEF_QD else depth % 0x1_0000 }
  function HwQueues(queues: int): nat { if queues <= 0 then DEF_NR_HW_QUEUES else queues % 0x1_0000 }

  // uint64(d.Size) >> 9 for a 64-bit Size.
  function Sectors(size: int): nat
    requires -0x8000_0000_0000_0000 <= size < 0x8000_0000_0000_0000
  {
    (size % U64) / 512
  }

  // int64(dev_sectors) << 9, as getDeviceInfo reports it.
  function ReportedSize(sectors: nat): int { ToI64(Shl9U64(sectors)) }

  function StartConfig(size: int, queues: int, depth: int, entries: nat, disk: seq<bv8>): Config
    requires -0x8000_0000_0000_0000 <= size < 0x8000_0000_0000_0000
  {
    Config(HwQueues(queues), QueueDepth(depth), entries, POOL_SIZE, CHANNEL_SIZE, CHANNEL_SIZE,
           DEF_BUF_SIZE, READ_BUFFER, Sectors(size), disk)
  }

  // The ring depth of ublksrv_calculate_depths: room for the io commands and for the target's own.
  function RingDepth(depth: nat, tgtDepth: nat, eventfd: bool): nat {
    var t := tgtDepth + if eventfd then 1 else 0;
    if depth > t then depth else t
  }

  /** With a backing array of Size bytes and a ring of at least the depth asked for, what Start sets up
      satisfies every assumption of the machine exactly when Size is not negative and neither count is a
      positive multiple of 65536, which the conversion to a 16-bit word turns into zero. */
  lemma StartIsValid(size: int, queues: int, depth: int, tgtDepth: nat, eventfd: bool, entries: nat, disk: seq<bv8>)
    requires -0x8000_0000_0000_0000 <= size < 0x8000_0000_0000_0000
    requires RingDepth(QueueDepth(depth), tgtDepth, eventfd) <= entries && |disk| == (if size >= 0 then size else 0)
    ensures ValidConfig(StartConfig(size, queues, depth, entries, disk)) <==>
              size >= 0 && (depth <= 0 || depth % 0x1_0000 != 0) && (queues <= 0 || queues % 0x1_0000 != 0)
  {
    if size >= 0 {
      assert size % U64 == size;
      assert Sectors(size) * 512 <= size;
    } else {
      assert size % U64 == size + U64;
      assert Sectors(size) >= 1;
    }
  }

  /** The size read back is the caller's size rounded down to a whole number of sectors. */
  lemma ReportedIsRoundedDown(size: int)
    requires -0x8000_0000_0000_0000 <= size < 0x8000_0000_0000_0000
    ensures ReportedSize(Sectors(size)) == size - size % 512
  {
    var w := size % U64;
    assert w == if size >= 0 then size else size + U64;
    assert (w / 512) * 512 == w - w % 512;
    assert w % 512 == size % 512;
    assert 0 <= w - w % 512 < U64;
  }

  datatype Limits = Limits(maxSectors: nat, maxDiscardSectors: nat, devSectors: nat)

  // The request limits init_params advertises to the driver.
  function Advertised(c: Config): Limits { Limits(c.bufBytes / 512, UINT_MAX / 512, c.sectors) }

  // A driver that honours the limits.
  predicate Honours(p: Limits, d: Desc) {
    && d.opFlags < U32 && d.nsec < U32 && d.start < U64
    && (KindOf(d) != Unknown ==> d.start + d.nsec <= p.devSectors)
    && (KindOf(d) == Read || KindOf(d) == Write ==> d.nsec <= p.maxSectors)
    && (KindOf(d) == Unmap ==> d.nsec <= p.maxDiscardSectors)
  }

  /** Honouring the advertised limits is exactly what the machine asks of the driver. */
  lemma LimitsAreEnough(c: Config, d: Desc)
    ensures Honours(Advertised(c), d) <==> DescOk(c, d)
  {
    assert d.nsec <= c.bufBytes / 512 <==> d.nsec * 512 <= c.bufBytes;
  }

  /** End to end: for such a request on a started device, the 32- and 64-bit shifts are exact, the
      handler's range is 512-aligned and inside Size, a data request fits the slot buffer and the read
      buffer, and its commit result is its byte count. */
  lemma RequestsAreExact(size: int, queues: int, depth: int, entries: nat, disk: seq<bv8>, d: Desc)
    requires 0 <= size < 0x8000_0000_0000_0000 && |disk| == size
    requires Honours(Advertised(StartConfig(size, queues, depth, entries, disk)), d) && KindOf(d) != Unknown
    ensures Off(d) == d.start * 512 && Len(d) == d.nsec * 512
    ensures 0 <= Off(d) && Off(d) + Len(d) <= size && Off(d) % 512 == 0 && Len(d) % 512 == 0
    ensures KindOf(d) == Read || KindOf(d) == Write ==> Len(d) <= DEF_BUF_SIZE == READ_BUFFER && Reply(d) == Len(d)
    ensures KindOf(d) == Unmap ==> Reply(d) == 0
  {
    var c := StartConfig(size, queues, depth, entries, disk);
    LimitsAreEnough(c, d);
    assert size % U64 == size;
    assert c.sectors * 512 <= size;
    assert (d.start * 512) % 512 == 0 && (d.nsec * 512) % 512 == 0;
  }

  /** What the started device takes from its parameters: a count from 1 to 65535 is kept, one not above zero becomes
      one queue or depth 128, and any other is kept modulo 65536; pool, channels, buffers and sectors are fixed by
      the code and by Size. */
  lemma StartKeepsCounts(size: int, queues: int, depth: int, entries: nat, disk: seq<bv8>)
    requires -0x8000_0000_0000_0000 <= size < 0x8000_0000_0000_0000
    ensures var c := StartConfig(size, queues, depth, entries, disk);
            && (queues <= 0 ==> c.queues == 1) && (1 <= queues <= 65535 ==> c.queues == queues)
            && (queues >= 65536 ==> c.queues < 65536 && exists k :: k > 0 && queues == c.queues + 65536 * k)
            && (depth <= 0 ==> c.depth == 128) && (1 <= depth <= 65535 ==> c.depth == depth)
            && (depth >= 65536 ==> c.depth < 65536 && exists k :: k > 0 && depth == c.depth + 65536 * k)
            && c.pool == 512 && c.reqCap == 4096 && c.freeCap == 4096 && c.bufBytes == 524288 && c.readCap == 524288
            && (size >= 0 ==> c.sectors * 512 <= size < c.sectors * 512 + 512)
            && c.entries == entries && c.disk0 == disk
  {
    Quotient(queues);
    Quotient(depth);
    if size >= 0 { assert size % U64 == size; }
  }

  lemma Quotient(x: int)
    ensures x >= 65536 ==> 0 <= x % 65536 < 65536 && exists k :: k > 0 && x == x % 65536 + 65536 * k
  {
    if x >= 65536 {
      var k := x / 65536;
      assert k > 0 && x == x % 65536 + 65536 * k;
    }
  }

  /** The ring is the larger of the queue depth and what the target asked for. */
  lemma RingDepthIsMax(depth: nat, tgtDepth: nat, eventfd: bool)
    ensures RingDepth(depth, tgtDepth, eventfd) >= depth
    ensures RingDepth(depth, tgtDepth, eventfd) >= tgtDepth + if eventfd then 1 else 0
    ensures RingDepth(depth, tgtDepth, eventfd) == depth || RingDepth(depth, tgtDepth, eventfd) == tgtDepth + if eventfd then 1 else 0
  {
  }

  /** The limits the driver is told: 1024 sectors a read or write, 8388607 a discard, and the device's own size. */
  lemma AdvertisedNumbers(size: int, queues: int, depth: int, entries: nat, disk: seq<bv8>)
    requires 0 <= size < 0x8000_0000_0000_0000
    ensures Advertised(StartConfig(size, queues, depth, entries, disk)) == Limits(1024, 8388607, size / 512)
  {
    assert size % U64 == size;
  }

  /** The driver may post any request inside the device: a read or write of up to 512 KiB, a discard of up to
      8388607 sectors, and any other operation. */
  lemma AnyRequestMayCome(size: int, queues: int, depth: int, entries: nat, disk: seq<bv8>, d: Desc)
    requires 0 <= size < 0x8000_0000_0000_0000
    requires d.opFlags < 0x1_0000_0000 && d.nsec < 0x1_0000_0000 && d.start < 0x1_0000_0000_0000_0000
    requires var op := d.opFlags % 256;
             op == 0 || op == 1 || op == 3 ==>
               && (d.start + d.nsec) * 512 <= size
               && (if op == 3 then d.nsec <= 8388607 else d.nsec * 512 <= 524288)
    ensures DescOk(StartConfig(size, queues, depth, entries, disk), d)
  {
    assert size % U64 == size;
  }
}
