/** Rounding by masks, and where a queue's descriptors live. */
module Layout {
  import opened Words

  function Pow2(k: nat): (r: nat)
    ensures r > 0
  {
    if k == 0 then 1 else 2 * Pow2(k - 1)
  }

  // Bitwise and of two n-bit words.
  function BitAnd(x: nat, y: nat, n: nat): nat {
    if n == 0 then 0
    else 2 * BitAnd(x / 2, y / 2, n - 1) + (if x % 2 == 1 && y % 2 == 1 then 1 else 0)
  }

  // ~(rnd - 1) on an n-bit word, for rnd == Pow2(k).
  function HighMask(k: nat, n: nat): int { Pow2(n) - Pow2(k) }

  lemma {:induction false} Pow2Grows(k: nat, n: nat)
    requires k <= n
    ensures Pow2(k) <= Pow2(n)
  {
    if k < n { Pow2Grows(k, n - 1); }
  }

  // Remainder by an even modulus, one binary digit at a time.
  lemma ModByDouble(x: nat, p: nat)
    requires p > 0
    ensures x % (2 * p) == 2 * ((x / 2) % p) + x % 2
  {
    var q := (x / 2) / p;
    var r := 2 * ((x / 2) % p) + x % 2;
    assert x == 2 * (x / 2) + x % 2 && x / 2 == p * q + (x / 2) % p;
    assert x == (2 * p) * q + r by { assert 2 * (p * q) == (2 * p) * q; }
    assert 0 <= r < 2 * p;
    UniqueRemainder(x, 2 * p, q, r);
  }

  lemma MulSign(d: int, m: nat)
    requires m > 0
    ensures d >= 1 ==> m * d >= m
    ensures d <= 0 ==> m * d <= 0
    ensures d <= -1 ==> m * d <= 0 - m
  {
  }

  lemma UniqueRemainder(x: nat, m: nat, q: nat, r: nat)
    requires m > 0 && x == m * q + r && r < m
    ensures x % m == r && x / m == q
  {
    var d := x / m - q;
    assert m * d == r - x % m by { assert m * (x / m - q) == m * (x / m) - m * q; }
    MulSign(d, m);
  }

  // One binary digit of the and, with the two shapes the mask takes.
  lemma AndEven(x: nat, h: nat, n: nat)
    requires n > 0
    ensures BitAnd(x, 2 * h, n) == 2 * BitAnd(x / 2, h, n - 1)
  {
    assert (2 * h) / 2 == h && (2 * h) % 2 == 0;
  }

  lemma AndOdd(x: nat, h: nat, n: nat)
    requires n > 0
    ensures BitAnd(x, 2 * h + 1, n) == 2 * BitAnd(x / 2, h, n - 1) + x % 2
  {
    assert (2 * h + 1) / 2 == h && (2 * h + 1) % 2 == 1;
  }

  // And-ing with the complement of Pow2(k) - 1 clears the remainder.
  lemma {:induction false} MaskClears(x: nat, k: nat, n: nat)
    requires k <= n && x < Pow2(n)
    ensures HighMask(k, n) >= 0 && BitAnd(x, HighMask(k, n), n) == x - x % Pow2(k)
  {
    Pow2Grows(k, n);
    if n > 0 {
      if k == 0 {
        MaskClears(x / 2, 0, n - 1);
        AndOdd(x, HighMask(0, n - 1), n);
      } else {
        MaskClears(x / 2, k - 1, n - 1);
        AndEven(x, HighMask(k - 1, n - 1), n);
        ModByDouble(x, Pow2(k - 1));
      }
    }
  }

  // round_up(val, rnd) on n-bit words.
  function RoundUp(val: nat, k: nat, n: nat): nat
    requires k <= n
  {
    Pow2Grows(k, n);
    BitAnd((val + Pow2(k) - 1) % Pow2(n), HighMask(k, n), n)
  }

  predicate LeastMultiple(r: nat, val: nat, m: nat)
    requires m > 0
  {
    r % m == 0 && val <= r < val + m
  }

  lemma SmallMod(x: nat, m: nat)
    requires x < m
    ensures x % m == x
  {
  }

  // Clearing the remainder of val + m - 1 gives the least multiple not below val.
  lemma ClearedIsLeast(r: nat, val: nat, m: nat)
    requires m > 0 && var y := val + m - 1; r == y - y % m
    ensures LeastMultiple(r, val, m)
  {
    var y := val + m - 1;
    var q := y / m;
    assert y == m * q + y % m;
    UniqueRemainder(m * q, m, q, 0);
  }

  lemma RoundUpExact(val: nat, k: nat, n: nat)
    requires k <= n && val + Pow2(k) - 1 < Pow2(n)
    ensures LeastMultiple(RoundUp(val, k, n), val, Pow2(k))
  {
    RoundUpClears(val, k, n);
    ClearedIsLeast(RoundUp(val, k, n), val, Pow2(k));
  }

  lemma RoundUpClears(val: nat, k: nat, n: nat)
    requires k <= n && val + Pow2(k) - 1 < Pow2(n)
    ensures var y := val + Pow2(k) - 1; RoundUp(val, k, n) == y - y % Pow2(k)
  {
    SmallMod(val + Pow2(k) - 1, Pow2(n));
    MaskClears(val + Pow2(k) - 1, k, n);
  }

  /** For a power of two rnd, the masking round_up gives the least multiple not below val exactly when
      val + rnd - 1 does not wrap. */
  lemma RoundUpIsLeast(val: nat, k: nat, n: nat)
    requires k <= n && val < Pow2(n)
    ensures LeastMultiple(RoundUp(val, k, n), val, Pow2(k)) <==> val + Pow2(k) - 1 < Pow2(n)
  {
    Pow2Grows(k, n);
    var y := val + Pow2(k) - 1;
    if y < Pow2(n) {
      RoundUpExact(val, k, n);
    } else {
      RoundUpWraps(val, k, n);
      ZeroIsNotLeast(val, Pow2(k));
    }
  }

  lemma RoundUpWraps(val: nat, k: nat, n: nat)
    requires k <= n && val < Pow2(n) <= val + Pow2(k) - 1
    ensures RoundUp(val, k, n) == 0
  {
    Pow2Grows(k, n);
    var z := val + Pow2(k) - 1 - Pow2(n);
    UniqueRemainder(val + Pow2(k) - 1, Pow2(n), 1, z);
    MaskClears(z, k, n);
    SmallMod(z, Pow2(k));
  }

  lemma ZeroIsNotLeast(val: nat, m: nat)
    requires m > 0 && val > 0
    ensures !LeastMultiple(0, val, m)
  {
  }

  /** LeastMultiple means what it says. */
  lemma LeastOfAll(r: nat, val: nat, m: nat, x: nat)
    requires m > 0 && LeastMultiple(r, val, m) && x % m == 0 && val <= x
    ensures r <= x
  {
    var a, b := r / m, x / m;
    assert r == m * a && x == m * b;
    assert m * (a - b) == r - x by { assert m * (a - b) == m * a - m * b; }
    MulSign(a - b, m);
  }

  // ---------------------------------------------------------------- descriptor areas

  const IOD_SIZE := 24
  const MAX_DEPTH := 4096

  // Sizes as the 32-bit code computes them, for a page of Pow2(k) bytes.
  function CmdBufSize(depth: nat, k: nat): nat
    requires k <= 32
  {
    RoundUp(depth * IOD_SIZE, k, 32)
  }

  function MaxCmdBufSize(k: nat): nat
    requires k <= 32
  {
    RoundUp(MAX_DEPTH * IOD_SIZE, k, 32)
  }

  function Times(a: nat, b: nat): nat { a * b }

  // Where queue q's area belongs.
  function Place(q: nat, k: nat): nat
    requires k <= 32
  {
    Times(q, MaxCmdBufSize(k))
  }

  // Where the code maps it: the product is a signed 32-bit one, and only then widened.
  function AreaStart(q: nat, k: nat): nat
    requires k <= 32
  {
    AsU64(ToI32(Place(q, k) % U32))
  }

  function RecordStart(q: nat, tag: nat, k: nat): nat
    requires k <= 32
  {
    AreaStart(q, k) + tag * IOD_SIZE
  }

  /** A queue's mapped size is the least number of whole pages that holds a 24-byte record for every tag; the
      spacing is the same for 4096 tags, so no queue needs more. */
  lemma BufSizes(depth: nat, k: nat)
    requires depth <= MAX_DEPTH && k <= 20
    ensures LeastMultiple(CmdBufSize(depth, k), depth * 24, Pow2(k)) && LeastMultiple(MaxCmdBufSize(k), 4096 * 24, Pow2(k))
    ensures depth * IOD_SIZE <= CmdBufSize(depth, k) <= MaxCmdBufSize(k)
    ensures CmdBufSize(depth, k) % Pow2(k) == 0 && MaxCmdBufSize(k) % Pow2(k) == 0
  {
    Pow2Grows(k, 20);
    assert Pow2(20) == 1048576 && Pow2(32) == 4096 * Pow2(20) by { Pow2Values(); }
    RoundUpIsLeast(depth * IOD_SIZE, k, 32);
    RoundUpIsLeast(MAX_DEPTH * IOD_SIZE, k, 32);
    LeastOfAll(CmdBufSize(depth, k), depth * IOD_SIZE, Pow2(k), MaxCmdBufSize(k));
  }

  lemma Pow2Values()
    ensures Pow2(20) == 1048576 && Pow2(32) == 4096 * Pow2(20)
  {
    assert Pow2(5) == 32;
    assert Pow2(10) == 1024;
    assert Pow2(15) == 32768;
    assert Pow2(20) == 1048576;
    assert Pow2(25) == 32 * Pow2(20);
    assert Pow2(30) == 1024 * Pow2(20);
  }

  const INT_END := 0x8000_0000

  // Two neighbouring places are one maximal area apart.
  lemma NextPlace(q: nat, q': nat, k: nat)
    requires k <= 32 && q < q'
    ensures Place(q, k) + MaxCmdBufSize(k) <= Place(q', k)
  {
    var m := MaxCmdBufSize(k);
    assert (q' - q) * m >= m by { assert q' - q >= 1; MulAtLeast(q' - q, m); }
    assert q' * m == q * m + (q' - q) * m;
  }

  lemma MulAtLeast(a: nat, m: nat)
    requires a >= 1
    ensures a * m >= m
  {
  }

  lemma MulBelow(a: nat, b: nat, m: nat, n: nat)
    requires a <= b && m <= n
    ensures a * m <= b * n
  {
  }

  lemma MaxBound(k: nat)
    requires k <= 20
    ensures MaxCmdBufSize(k) < 0x20_0000
  {
    Pow2Values();
    Pow2Grows(k, 20);
    BufSizes(MAX_DEPTH, k);
    RoundUpIsLeast(MAX_DEPTH * IOD_SIZE, k, 32);
  }

  // For pages up to 1 MiB and 16-bit queue ids the exact place is far below 64 bits.
  lemma PlaceBound(q: nat, k: nat)
    requires k <= 20 && q <= 0xffff
    ensures Place(q, k) < 0x20_0000_0000
  {
    MaxBound(k);
    MulBelow(q, 0xffff, MaxCmdBufSize(k), 0x20_0000);
  }

  /** A queue's area is mapped where it belongs exactly when the product fits a signed 32-bit integer. */
  lemma OffsetIsExact(q: nat, k: nat)
    requires k <= 20 && q <= 0xffff
    ensures AreaStart(q, k) == Place(q, k) <==> Place(q, k) < INT_END
  {
    PlaceBound(q, k);
    Wrapped(Place(q, k));
  }

  lemma Wrapped(p: nat)
    requires p < 0x20_0000_0000
    ensures var v := AsU64(ToI32(p % U32));
            if p < INT_END then v == p else v < INT_END || v > 0x4000_0000_0000_0000
  {
  }

  // Record (q, t) lies inside the area that belongs to queue q, which ends before the next one begins.
  predicate InOwnArea(depth: nat, k: nat, q: nat, t: nat)
    requires k <= 32
  {
    && Place(q, k) <= RecordStart(q, t, k)
    && RecordStart(q, t, k) + IOD_SIZE <= Place(q, k) + CmdBufSize(depth, k) <= Place(q + 1, k)
  }

  /** Every tag's record lies inside its own queue's area exactly when that product does not overflow. */
  lemma RecordInside(depth: nat, k: nat, q: nat, t: nat)
    requires 1 <= depth <= MAX_DEPTH && k <= 20 && t < depth && q <= 0xffff
    ensures InOwnArea(depth, k, q, t) <==> Place(q, k) < INT_END
  {
    BufSizes(depth, k);
    PlaceBound(q, k);
    MaxBound(k);
    NextPlace(q, q + 1, k);
    InsideIff(Place(q, k), t, CmdBufSize(depth, k));
  }

  // A wrapped offset is more than an area away.
  lemma InsideIff(p: nat, t: nat, size: nat)
    requires p < 0x20_0000_0000 && t < MAX_DEPTH && (t + 1) * IOD_SIZE <= size < 0x20_0000
    ensures var v := AsU64(ToI32(p % U32)); p <= v + t * IOD_SIZE && v + (t + 1) * IOD_SIZE <= p + size <==> p < INT_END
  {
    Wrapped(p);
  }

  predicate Disjoint(a: nat, b: nat) { a + IOD_SIZE <= b || b + IOD_SIZE <= a }

  /** Records of different slots, of the same queue or of different ones, do not overlap while both offsets are exact. */
  lemma RecordsDisjoint(depth: nat, k: nat, q: nat, t: nat, q': nat, t': nat)
    requires 1 <= depth <= MAX_DEPTH && k <= 20 && t < depth && t' < depth && (q, t) != (q', t')
    requires q <= 0xffff && q' <= 0xffff && Place(q, k) < INT_END && Place(q', k) < INT_END
    ensures Disjoint(RecordStart(q, t, k), RecordStart(q', t', k))
  {
    if q < q' {
      RecordBefore(depth, k, q, t, q', t');
    } else if q' < q {
      RecordBefore(depth, k, q', t', q, t);
    }
  }

  lemma RecordBefore(depth: nat, k: nat, q: nat, t: nat, q': nat, t': nat)
    requires 1 <= depth <= MAX_DEPTH && k <= 20 && t < depth && t' < depth && q < q' <= 0xffff
    requires Place(q, k) < INT_END && Place(q', k) < INT_END
    ensures RecordStart(q, t, k) + IOD_SIZE <= RecordStart(q', t', k)
  {
    BufSizes(depth, k);
    OffsetIsExact(q, k);
    OffsetIsExact(q', k);
    NextPlace(q, q', k);
  }

  // ---------------------------------------------------------------- a whole device

  ghost predicate Overlap(depth: nat, k: nat, q: nat, q': nat)
    requires k <= 32
  {
    exists t: nat, t': nat :: t < depth && t' < depth && (q, t) != (q', t') && !Disjoint(RecordStart(q, t, k), RecordStart(q', t', k))
  }

  // Every queue's records are in its own area and no two records overlap.
  ghost predicate WellLaidOut(n: nat, depth: nat, k: nat)
    requires k <= 32
  {
    && (forall q, t | 0 <= q < n && 0 <= t < depth :: InOwnArea(depth, k, q, t))
    && (forall q, q' | 0 <= q < n && 0 <= q' < n :: !Overlap(depth, k, q, q'))
  }

  /** A device of n queues is laid out well exactly when its last queue's product does not overflow. */
  lemma DeviceLayout(n: nat, depth: nat, k: nat)
    requires 1 <= depth <= MAX_DEPTH && k <= 20 && 1 <= n <= 0x1_0000
    ensures WellLaidOut(n, depth, k) <==> Place(n - 1, k) < INT_END
  {
    if Place(n - 1, k) < INT_END {
      forall q | 0 <= q < n ensures Place(q, k) < INT_END {
        if q < n - 1 { NextPlace(q, n - 1, k); }
      }
      forall q, t | 0 <= q < n && 0 <= t < depth ensures InOwnArea(depth, k, q, t) {
        RecordInside(depth, k, q, t);
      }
      forall q, q' | 0 <= q < n && 0 <= q' < n ensures !Overlap(depth, k, q, q') {
        NoOverlap(depth, k, q, q');
      }
    } else {
      RecordInside(depth, k, n - 1, 0);
    }
  }

  lemma NoOverlap(depth: nat, k: nat, q: nat, q': nat)
    requires 1 <= depth <= MAX_DEPTH && k <= 20 && q <= 0xffff && q' <= 0xffff
    requires Place(q, k) < INT_END && Place(q', k) < INT_END
    ensures !Overlap(depth, k, q, q')
  {
    forall t: nat, t': nat | t < depth && t' < depth && (q, t) != (q', t')
      ensures Disjoint(RecordStart(q, t, k), RecordStart(q', t', k))
    {
      RecordsDisjoint(depth, k, q, t, q', t');
    }
  }

  lemma MultipleAt(r: nat)
    requires LeastMultiple(r, 98304, 4096)
    ensures r == 98304
  {
  }

  lemma MaxAt4K()
    ensures MaxCmdBufSize(12) == 98304
  {
    Pow2Values();
    assert Pow2(12) == 4 * Pow2(10) == 4096;
    RoundUpIsLeast(MAX_DEPTH * IOD_SIZE, 12, 32);
    MultipleAt(MaxCmdBufSize(12));
  }

  lemma PlaceAt4K(q: nat)
    ensures Place(q, 12) == q * 98304
  {
    MaxAt4K();
  }

  /** With 4 KiB pages queue 21846 is the first whose area is misplaced, at a negative offset; the area of
      queue 43691 starts inside that of queue 0, and their records overlap from a depth of 1366 on. */
  lemma FirstMisplaced()
    ensures forall q: nat | q <= 0xffff :: AreaStart(q, 12) == Place(q, 12) <==> q < 21846
    ensures AreaStart(21846, 12) > 0x7fff_ffff_ffff_ffff
    ensures !Disjoint(RecordStart(0, 1365, 12), RecordStart(43691, 0, 12))
  {
    forall q: nat | q <= 0xffff ensures AreaStart(q, 12) == Place(q, 12) <==> q < 21846 {
      ExactAt4K(q);
    }
    StartsAt4K(12);
  }

  lemma ExactAt4K(q: nat)
    requires q <= 0xffff
    ensures AreaStart(q, 12) == Place(q, 12) <==> q < 21846
  {
    PlaceAt4K(q);
    OffsetIsExact(q, 12);
  }

  lemma StartAt4K(q: nat, k: nat)
    requires k == 12
    ensures AreaStart(q, k) == AsU64(ToI32((q * 98304) % U32))
  {
    PlaceAt4K(q);
  }

  lemma WordsAt4K()
    ensures AsU64(ToI32((0 * 98304) % U32)) == 0 && AsU64(ToI32((43691 * 98304) % U32)) == 32768
    ensures AsU64(ToI32((21846 * 98304) % U32)) == 0x1_0000_0000_0000_0000 - 2147418112
  {
  }

  lemma StartsAt4K(k: nat)
    requires k == 12
    ensures AreaStart(0, k) == 0 && AreaStart(43691, k) == 32768
    ensures AreaStart(21846, k) == 0x1_0000_0000_0000_0000 - 2147418112
  {
    WordsAt4K();
    StartAt4K(0, k);
    StartAt4K(21846, k);
    StartAt4K(43691, k);
  }
}
