/**
 * The host-side size arithmetic of the renderer (Renderer.cpp): ceiling
 * divisions for workgroup counts, the histogram buffer of the radix sort,
 * the 16x16 tile grid, the full- and half-resolution render dispatch, the
 * number of prefix-sum passes and the growth of the sort-buffer multiplier.
 *
 * Sizes are unbounded naturals; the 32- and 64-bit unsigned types of the
 * source are not modelled (they only matter above 2^32 instances).
 */
module Sizing {

  /** sizeof(uint32_t). */
  const WordBytes: nat := 4
  /** Side of a screen tile in pixels. */
  const TileSize: nat := 16
  /** Local size of the preprocess, prefix-sum and tile-boundary shaders. */
  const GroupSize: nat := 256
  /** Bins of one radix-sort histogram (one 8-bit digit). */
  const HistogramBins: nat := 256

  /** Blocks per radix-sort workgroup: 256 on Apple builds, 32 elsewhere (Renderer.h:202-206). */
  function RadixSortBlocksPerWorkgroup(apple: bool): (b: nat)
    ensures b > 0 && b % 32 == 0
    ensures apple <==> b == 256
  {
    if apple then 256 else 32
  }

  lemma DivisionBounds(n: nat, d: nat)
    requires d > 0
    ensures (n / d) * d <= n < (n / d) * d + d
  {
  }

  /** The least q with q * d >= n, written as the source writes it: (n + d - 1) / d. */
  function CeilDiv(n: nat, d: nat): (q: nat)
    requires d > 0
    ensures q * d >= n
    ensures q == 0 || (q - 1) * d < n
  {
    DivisionBounds(n + d - 1, d);
    (n + d - 1) / d
  }

  /** A value with the two properties of a ceiling division is that ceiling division. */
  lemma CeilDivUnique(n: nat, d: nat, q: nat)
    requires d > 0
    requires q * d >= n
    requires q == 0 || (q - 1) * d < n
    ensures q == CeilDiv(n, d)
  {
    var c := CeilDiv(n, d);
    if q < c {
      assert q <= c - 1;
      MulMonotone(q, c - 1, d);
    } else if q > c {
      assert c <= q - 1;
      MulMonotone(c, q - 1, d);
    }
  }

  lemma MulMonotone(a: nat, b: nat, d: nat)
    requires a <= b
    ensures a * d <= b * d
  {
  }

  /** Ceiling division is monotone in its dividend. */
  lemma {:induction false} CeilDivMonotone(m: nat, n: nat, d: nat)
    requires d > 0
    requires m <= n
    ensures CeilDiv(m, d) <= CeilDiv(n, d)
  {
    var a, b := CeilDiv(m, d), CeilDiv(n, d);
    if a > b {
      assert b <= a - 1;
      MulMonotone(b, a - 1, d);
    }
  }

  /**
   * Renderer.cpp:354-356 and 750-753 count radix-sort blocks as the quotient
   * plus one when there is a remainder; that is the ceiling division.
   */
  function BlocksByRemainder(n: nat, b: nat): (g: nat)
    requires b > 0
    ensures g == CeilDiv(n, b)
  {
    DivisionBounds(n, b);
    var g := n / b + (if n % b > 0 then 1 else 0);
    CeilDivUnique(n, b, g);
    g
  }

  /**
   * Workgroups the histogram buffer is sized for when the sort buffers hold
   * `capacity` entries (Renderer.cpp:354-358, 750-755).
   */
  function HistogramWorkgroups(capacity: nat, blocks: nat): nat
    requires blocks > 0
  {
    CeilDiv(BlocksByRemainder(capacity, blocks), GroupSize)
  }

  /**
   * The histogram workgroups cover `capacity` entries at `blocks` entries per
   * workgroup-block of 256, and no fewer workgroups would.
   */
  lemma HistogramWorkgroupsCover(capacity: nat, blocks: nat)
    requires blocks > 0
    ensures HistogramWorkgroups(capacity, blocks) * GroupSize * blocks >= capacity
    ensures HistogramWorkgroups(capacity, blocks) == 0 || (HistogramWorkgroups(capacity, blocks) - 1) * GroupSize * blocks < capacity
  {
    var b := BlocksByRemainder(capacity, blocks);
    var g := HistogramWorkgroups(capacity, blocks);
    MulMonotone(b, g * GroupSize, blocks);
    if g > 0 {
      assert b >= 1;
      MulMonotone((g - 1) * GroupSize, b - 1, blocks);
    }
  }

  /** Bytes of the histogram buffer: 256 words per workgroup (Renderer.cpp:360, 757). */
  function HistogramBufferBytes(capacity: nat, blocks: nat): (bytes: nat)
    requires blocks > 0
    ensures bytes == HistogramWorkgroups(capacity, blocks) * HistogramBins * WordBytes
    ensures bytes % (HistogramBins * WordBytes) == 0
  {
    HistogramWorkgroups(capacity, blocks) * HistogramBins * WordBytes
  }

  /** Workgroups dispatched per histogram and scatter sub-pass for `n` instances (Renderer.cpp:797-798). */
  function SortDispatchWorkgroups(n: nat, blocks: nat): nat
    requires blocks > 0
  {
    ((n + blocks - 1) / blocks + 255) / 256
  }

  /** The per-pass dispatch and the allocation use the same ceiling division, written two ways. */
  lemma SortDispatchIsHistogramFormula(n: nat, blocks: nat)
    requires blocks > 0
    ensures SortDispatchWorkgroups(n, blocks) == HistogramWorkgroups(n, blocks)
  {
  }

  /**
   * While the instance count fits the sort buffers, no sub-pass dispatches
   * more workgroups than the histogram buffer was sized for.
   */
  lemma {:induction false} DispatchFitsHistogram(n: nat, capacity: nat, blocks: nat)
    requires blocks > 0
    requires n <= capacity
    ensures SortDispatchWorkgroups(n, blocks) <= HistogramWorkgroups(capacity, blocks)
    ensures SortDispatchWorkgroups(n, blocks) * HistogramBins * WordBytes
         <= HistogramBufferBytes(capacity, blocks)
  {
    SortDispatchIsHistogramFormula(n, blocks);
    CeilDivMonotone(n, capacity, blocks);
    CeilDivMonotone(CeilDiv(n, blocks), CeilDiv(capacity, blocks), GroupSize);
    MulMonotone(SortDispatchWorkgroups(n, blocks), HistogramWorkgroups(capacity, blocks),
                HistogramBins * WordBytes);
  }

  /** Bytes of each of the four sort key/value buffers (Renderer.cpp:345-352, 745-748). */
  function SortBufferBytes(numVertices: nat, multiplier: nat): nat
  {
    numVertices * WordBytes * multiplier
  }

  /**
   * Each sort buffer holds the 32-bit keys or values of `count` instances
   * exactly when the count passes the test of Renderer.cpp:739.
   */
  lemma SortBufferHolds(numVertices: nat, multiplier: nat, count: nat)
    ensures count * WordBytes <= SortBufferBytes(numVertices, multiplier) <==> count <= numVertices * multiplier
  {
    assert SortBufferBytes(numVertices, multiplier) == (numVertices * multiplier) * WordBytes;
  }

  /** Dispatched groups for one thread per element (preprocess, prefix sum, tile boundary). */
  function ElementGroups(n: nat): (g: nat)
    ensures g * GroupSize >= n
    ensures g == 0 || (g - 1) * GroupSize < n
  {
    CeilDiv(n, GroupSize)
  }

  // ---------------------------------------------------------------- tile grid

  datatype Extent = Extent(width: nat, height: nat)

  datatype Dispatch = Dispatch(x: nat, y: nat)

  /** The tile grid of an extent: ceil(W/16) x ceil(H/16) tiles (Renderer.cpp:194-195, 432-433). */
  function TileGrid(e: Extent): (g: Dispatch)
    ensures g.x * TileSize >= e.width && g.y * TileSize >= e.height
    ensures g.x == 0 || (g.x - 1) * TileSize < e.width
    ensures g.y == 0 || (g.y - 1) * TileSize < e.height
  {
    Dispatch(CeilDiv(e.width, TileSize), CeilDiv(e.height, TileSize))
  }

  /** The tile-boundary buffer holds a (start, end) word pair per tile (Renderer.cpp:196, 434). */
  function TileBoundaryBytes(e: Extent): (bytes: nat)
    ensures bytes == TileGrid(e).x * TileGrid(e).y * 2 * WordBytes
  {
    TileGrid(e).x * TileGrid(e).y * WordBytes * 2
  }

  /** Half of a dimension, rounded up: (w + 1) / 2 (Renderer.cpp:873-874). */
  function HalfDimension(w: nat): (h: nat)
    ensures 2 * h >= w && 2 * h <= w + 1
  {
    (w + 1) / 2
  }

  /**
   * Workgroups of the render dispatch (Renderer.cpp:872-878). At full
   * resolution it is the tile grid; at half resolution it covers the
   * half-size image and is never larger than the full grid.
   */
  function RenderDispatch(e: Extent, half: bool): (d: Dispatch)
    ensures !half ==> d == TileGrid(e)
    ensures half ==> d.x * TileSize >= HalfDimension(e.width) && d.y * TileSize >= HalfDimension(e.height)
    ensures d.x <= TileGrid(e).x && d.y <= TileGrid(e).y
  {
    if half then
      CeilDivMonotone(HalfDimension(e.width), e.width, TileSize);
      CeilDivMonotone(HalfDimension(e.height), e.height, TileSize);
      Dispatch((HalfDimension(e.width) + 15) / 16, (HalfDimension(e.height) + 15) / 16)
    else
      Dispatch((e.width + 15) / 16, (e.height + 15) / 16)
  }

  // --------------------------------------------------------- prefix-sum passes

  function Pow2(k: nat): (p: nat)
    ensures p >= 1
  {
    if k == 0 then 1 else 2 * Pow2(k - 1)
  }

  /**
   * The least k with 2^k >= n: the integer reading of
   * ceil(log2(float(n))) at Renderer.cpp:698 and 775.
   */
  function CeilLog2(n: nat): (k: nat)
    requires n >= 1
    ensures Pow2(k) >= n
    ensures k == 0 || Pow2(k - 1) < n
    decreases n
  {
    if n == 1 then 0 else 1 + CeilLog2(CeilDiv(n, 2))
  }

  // --------------------------------------------------------------- growth

  /**
   * Reference definition of the growth policy: the least multiplier m' >= m
   * with numVertices * m' >= numInstances, in closed form.
   */
  function MinMultiplier(numInstances: nat, numVertices: nat, m: nat): (m': nat)
    requires numVertices > 0
    ensures m' >= m && numVertices * m' >= numInstances
    ensures m' == m || numVertices * (m' - 1) < numInstances
  {
    if numInstances <= numVertices * m then m
    else
      var extra := CeilDiv(numInstances - numVertices * m, numVertices);
      assert numVertices * (m + extra) == numVertices * m + extra * numVertices;
      assert extra > 0;
      assert numVertices * (m + extra - 1) == numVertices * m + (extra - 1) * numVertices;
      m + extra
  }

  /**
   * The loop of Renderer.cpp:741-743: bump the multiplier until the sort
   * buffers hold every instance. It ends only if numVertices > 0 or nothing
   * needs to grow.
   */
  method GrowMultiplier(numInstances: nat, numVertices: nat, m: nat) returns (m': nat)
    requires numVertices > 0 || numInstances <= numVertices * m
    ensures m' >= m && numVertices * m' >= numInstances
    ensures m' == m || numVertices * (m' - 1) < numInstances
    ensures numInstances > numVertices * m ==> m' > m
    ensures numVertices > 0 ==> m' == MinMultiplier(numInstances, numVertices, m)
  {
    m' := m;
    while numInstances > numVertices * m'
      invariant m' >= m
      invariant m' == m || numVertices * (m' - 1) < numInstances
      decreases numInstances - numVertices * m'
    {
      assert numVertices * (m' + 1) == numVertices * m' + numVertices;
      m' := m' + 1;
    }
    if numVertices > 0 {
      MinMultiplierUnique(numInstances, numVertices, m, m');
    }
  }

  /** The growth target is determined by minimality. */
  lemma MinMultiplierUnique(numInstances: nat, numVertices: nat, m: nat, k: nat)
    requires numVertices > 0
    requires k >= m && numVertices * k >= numInstances
    requires k == m || numVertices * (k - 1) < numInstances
    ensures k == MinMultiplier(numInstances, numVertices, m)
  {
    var r := MinMultiplier(numInstances, numVertices, m);
    LessFromProducts(k - 1, r, numVertices);
    LessFromProducts(r as int - 1, k, numVertices);
  }

  /** Products by the same positive factor order like their left factors. */
  lemma LessFromProducts(a: int, b: int, d: nat)
    requires d > 0
    ensures d * a < d * b ==> a < b
  {
    if a >= b {
      assert d * a - d * b == d * (a - b) >= 0;
    }
  }

  /**
   * Growth is idempotent: once grown for an instance count, the same count
   * triggers no further growth, and the multiplier never shrinks.
   */
  lemma {:induction false} GrowthStable(numInstances: nat, numVertices: nat, m: nat)
    requires numVertices > 0
    ensures MinMultiplier(numInstances, numVertices, MinMultiplier(numInstances, numVertices, m))
         == MinMultiplier(numInstances, numVertices, m)
  {
  }
}
