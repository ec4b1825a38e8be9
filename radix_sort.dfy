/**
 * The 4-pass radix sort of the instance keys as the host records it
 * (Renderer.cpp:792-827): which descriptor set each pass binds, which
 * buffers that set reads and writes (Renderer.cpp:363-399), the barrier after
 * each pass, and where the later stages look for the result (Renderer.cpp:440,
 * 462).
 *
 * The hist and sort shaders are not part of this model. The second half of
 * the module states, as an explicit assumption, that one histogram-plus-
 * scatter pass is a stable partition of the (key, value) pairs by the 8-bit
 * digit at g_shift, and proves that the four recorded passes then sort the
 * pairs by their 32-bit key.
 */
module RadixSort {
  import opened Sizing

  datatype Parity = Even | Odd

  const KeyBits: nat := 32
  const DigitBits: nat := 8
  const NumPasses: nat := 4

  /** The buffers preprocess_sort writes its keys and values into (Renderer.cpp:418-421). */
  const PreprocessSortOutput: Parity := Even
  /** The key buffer the tile-boundary stage reads (Renderer.cpp:440). */
  const TileBoundaryKeys: Parity := Even
  /** The value buffer the render stage reads (Renderer.cpp:462). */
  const RenderValues: Parity := Even

  /** Bindings 0-3 of one sort descriptor set: keys in, keys out, values in, values out. */
  datatype SortBindings = SortBindings(keysIn: Parity, keysOut: Parity, valuesIn: Parity, valuesOut: Parity)

  /** Set 0 reads the Even buffers and writes the Odd ones, set 1 the other way round (Renderer.cpp:382-397). */
  function SortSetBindings(setIndex: nat): (b: SortBindings)
    requires setIndex < 2
    ensures b.keysIn == b.valuesIn && b.keysOut == b.valuesOut && b.keysIn != b.keysOut
    ensures setIndex == 0 <==> b.keysIn == Even
  {
    if setIndex == 0 then SortBindings(Even, Odd, Even, Odd) else SortBindings(Odd, Even, Odd, Even)
  }

  /** Binding 0 of one histogram descriptor set (Renderer.cpp:370-373). */
  function HistogramKeys(setIndex: nat): Parity
    requires setIndex < 2
  {
    if setIndex == 0 then Even else Odd
  }

  /**
   * One recorded pass: the push constants shared by its histogram and
   * scatter dispatches, the set both bind, and the parity given the
   * write-to-read barrier after the scatter.
   */
  datatype SortPass = SortPass(shift: nat, setIndex: nat, workgroups: nat, numElements: nat,
                               blocksPerWorkgroup: nat, barrier: Parity)

  function BarrierAfter(i: nat): Parity
  {
    if i % 2 == 0 then Odd else Even
  }

  /** The passes the sort loop records: pass i shifts by 8i and binds set i % 2. */
  function SortSchedule(numInstances: nat, blocks: nat): seq<SortPass>
    requires blocks > 0
  {
    seq(NumPasses, i requires 0 <= i < NumPasses => SortPass(DigitBits * i, i % 2, SortDispatchWorkgroups(numInstances, blocks), numInstances,
                                 blocks, BarrierAfter(i)))
  }

  /** The pass loop of Renderer.cpp:795-827. */
  method RecordSortPasses(numInstances: nat, blocks: nat) returns (ps: seq<SortPass>)
    requires blocks > 0
    ensures ps == SortSchedule(numInstances, blocks)
    ensures |ps| == NumPasses
    ensures forall i :: 0 <= i < |ps| ==>
      ps[i].setIndex < 2 && ps[i].shift == DigitBits * i && ps[i].numElements == numInstances
      && ps[i].blocksPerWorkgroup == blocks && ps[i].workgroups == SortDispatchWorkgroups(numInstances, blocks)
    // the histogram stage of a pass reads the keys its scatter stage reads
    ensures forall i :: 0 <= i < |ps| ==> HistogramKeys(ps[i].setIndex) == SortSetBindings(ps[i].setIndex).keysIn
    // the barrier covers exactly the buffers the pass wrote
    ensures forall i :: 0 <= i < |ps| ==> ps[i].barrier == SortSetBindings(ps[i].setIndex).keysOut
    // each pass reads what the stage before it wrote
    ensures SortSetBindings(ps[0].setIndex).keysIn == PreprocessSortOutput
    ensures forall i :: 0 < i < |ps| ==> SortSetBindings(ps[i].setIndex).keysIn == ps[i - 1].barrier
    // and the stages after the sort read what the last pass wrote
    ensures ps[|ps| - 1].barrier == TileBoundaryKeys && ps[|ps| - 1].barrier == RenderValues
    // the four 8-bit digits cover every bit of a 32-bit key, each exactly once
    ensures forall b :: 0 <= b < KeyBits ==> ps[b / DigitBits].shift <= b < ps[b / DigitBits].shift + DigitBits
    ensures forall i, j :: 0 <= i < j < |ps| ==> ps[i].shift + DigitBits <= ps[j].shift
    ensures ps[|ps| - 1].shift + DigitBits == KeyBits
  {
    ps := [];
    var i := 0;
    while i < 4
      invariant 0 <= i <= 4
      invariant |ps| == i
      invariant forall j :: 0 <= j < i ==>
        ps[j] == SortPass(8 * j, j % 2, SortDispatchWorkgroups(numInstances, blocks), numInstances,
                          blocks, BarrierAfter(j))
    {
      var setIndex := if i % 2 == 0 then 0 else 1;
      var invocationSize := (numInstances + blocks - 1) / blocks;
      invocationSize := (invocationSize + 255) / 256;
      var barrier := if i % 2 == 0 then Odd else Even;
      ps := ps + [SortPass(i * 8, setIndex, invocationSize, numInstances, blocks, barrier)];
      i := i + 1;
    }
  }

  // ------------------------------------------------------------------
  // What one pass computes: an assumption, not a fact of the code.

  /** A sort entry: the instance key and the Gaussian index carried with it. */
  datatype Entry = Entry(key: nat, value: nat)

  /** The keys are 32-bit unsigned integers. */
  const KeySpace: nat := 0x1_0000_0000

  /** The 8-bit digit selected by g_shift. */
  function Digit(key: nat, shift: nat): (d: nat)
    ensures d < 256
  {
    (key / Pow2(shift)) % 256
  }

  /** The bits of a key below `shift`. */
  function Low(key: nat, shift: nat): (l: nat)
    ensures l < Pow2(shift)
  {
    key % Pow2(shift)
  }

  /**
   * Places e after every entry of r whose digit is at most e's and before
   * the entries with a larger digit.
   */
  function InsertByDigit(r: seq<Entry>, e: Entry, shift: nat): seq<Entry>
    decreases |r|
  {
    if |r| == 0 then [e]
    else if Digit(r[|r| - 1].key, shift) <= Digit(e.key, shift) then r + [e]
    else InsertByDigit(r[..|r| - 1], e, shift) + [r[|r| - 1]]
  }

  /**
   * ASSUMED effect of one histogram-plus-scatter pass with g_shift = shift:
   * a stable partition of the entries by their digit at `shift`, written as
   * a stable insertion of each entry in turn.
   */
  function SortPassEffect(s: seq<Entry>, shift: nat): seq<Entry>
    decreases |s|
  {
    if |s| == 0 then [] else InsertByDigit(SortPassEffect(s[..|s| - 1], shift), s[|s| - 1], shift)
  }

  /**
   * The entries after n passes over consecutive digits, the first at
   * `shift`: the recorded passes are the n = 4 passes from shift 0.
   */
  function AfterPasses(s: seq<Entry>, shift: nat, n: nat): seq<Entry>
    decreases n
  {
    if n == 0 then s else AfterPasses(SortPassEffect(s, shift), shift + DigitBits, n - 1)
  }

  predicate SortedByLow(s: seq<Entry>, shift: nat)
  {
    forall i, j :: 0 <= i < j < |s| ==> Low(s[i].key, shift) <= Low(s[j].key, shift)
  }

  predicate SortedByKey(s: seq<Entry>)
  {
    forall i, j :: 0 <= i < j < |s| ==> s[i].key <= s[j].key
  }

  predicate SortedByDigit(s: seq<Entry>, shift: nat)
  {
    forall i, j :: 0 <= i < j < |s| ==> Digit(s[i].key, shift) <= Digit(s[j].key, shift)
  }

  // ---------------------------------------------------------- arithmetic

  lemma Pow2Add8(shift: nat)
    ensures Pow2(shift + 8) == Pow2(shift) * 256
    decreases shift
  {
    if shift > 0 {
      Pow2Add8(shift - 1);
    } else {
      assert Pow2(1) == 2 && Pow2(2) == 4 && Pow2(3) == 8 && Pow2(4) == 16;
      assert Pow2(5) == 32 && Pow2(6) == 64 && Pow2(7) == 128 && Pow2(8) == 256;
    }
  }

  lemma KeySpaceIsPow2()
    ensures Pow2(KeyBits) == KeySpace
  {
    Pow2Add8(0);
    Pow2Add8(8);
    Pow2Add8(16);
    Pow2Add8(24);
  }

  /** a < b implies a * m + m <= b * m. */
  lemma MulStrict(a: nat, b: nat, m: nat)
    requires a < b
    ensures a * m + m <= b * m
  {
    MulMonotone(a + 1, b, m);
    assert (a + 1) * m == a * m + m;
  }

  /** If k == x * m + y with 0 <= y < m, then x and y are the quotient and remainder. */
  lemma ModUnique(k: nat, m: nat, x: nat, y: nat)
    requires m > 0 && y < m && k == x * m + y
    ensures k / m == x && k % m == y
  {
    var q := k / m;
    if q < x {
      MulStrict(q, x, m);
    } else if x < q {
      MulStrict(x, q, m);
    }
  }

  lemma Regroup(a: nat, b: nat, p: nat, r: nat)
    ensures (a * 256 + b) * p + r == a * (p * 256) + (b * p + r)
  {
  }

  lemma DigitTimesBound(b: nat, p: nat, r: nat)
    requires b < 256 && r < p
    ensures b * p + r < p * 256
  {
    MulStrict(b, 256, p);
  }

  /** The low bits one digit further split into that digit and the bits below it. */
  lemma LowSplit(key: nat, shift: nat)
    ensures Low(key, shift + 8) == Digit(key, shift) * Pow2(shift) + Low(key, shift)
  {
    var p := Pow2(shift);
    Pow2Add8(shift);
    var q, r := key / p, key % p;
    var a, b := q / 256, q % 256;
    assert key == q * p + r;
    assert q == a * 256 + b;
    Regroup(a, b, p, r);
    DigitTimesBound(b, p, r);
    ModUnique(key, p * 256, a, b * p + r);
  }

  /** A smaller digit means smaller low bits one digit further, whatever the bits below. */
  lemma DigitOrder(k1: nat, k2: nat, shift: nat)
    requires Digit(k1, shift) < Digit(k2, shift)
    ensures Low(k1, shift + 8) < Low(k2, shift + 8)
  {
    LowSplit(k1, shift);
    LowSplit(k2, shift);
    MulStrict(Digit(k1, shift), Digit(k2, shift), Pow2(shift));
  }

  /** Ordered digits and ordered bits below them give ordered bits one digit further. */
  lemma LowOrder(k1: nat, k2: nat, shift: nat)
    requires Digit(k1, shift) <= Digit(k2, shift)
    requires Low(k1, shift) <= Low(k2, shift)
    ensures Low(k1, shift + 8) <= Low(k2, shift + 8)
  {
    if Digit(k1, shift) < Digit(k2, shift) {
      DigitOrder(k1, k2, shift);
    } else {
      LowSplit(k1, shift);
      LowSplit(k2, shift);
    }
  }

  // ----------------------------------------------------- one pass, proved

  lemma {:induction false} InsertPermutation(r: seq<Entry>, e: Entry, shift: nat)
    ensures multiset(InsertByDigit(r, e, shift)) == multiset(r) + multiset{e}
    decreases |r|
  {
    if |r| > 0 && Digit(r[|r| - 1].key, shift) > Digit(e.key, shift) {
      InsertPermutation(r[..|r| - 1], e, shift);
      assert r == r[..|r| - 1] + [r[|r| - 1]];
    }
  }

  lemma PrefixSorted(s: seq<Entry>, shift: nat)
    requires |s| > 0 && SortedByLow(s, shift)
    ensures SortedByLow(s[..|s| - 1], shift)
    ensures forall x :: x in s[..|s| - 1] ==> Low(x.key, shift) <= Low(s[|s| - 1].key, shift)
  {
    var p := s[..|s| - 1];
    assert forall i :: 0 <= i < |p| ==> p[i] == s[i];
  }

  /**
   * Inserting an entry whose low bits are at least those of every entry
   * already placed keeps the placed entries sorted one digit further.
   */
  lemma {:induction false} InsertSorted(r: seq<Entry>, e: Entry, shift: nat)
    requires SortedByLow(r, shift + 8)
    requires forall x :: x in r ==> Low(x.key, shift) <= Low(e.key, shift)
    ensures SortedByLow(InsertByDigit(r, e, shift), shift + 8)
    decreases |r|
  {
    if |r| > 0 {
      var last := r[|r| - 1];
      if Digit(last.key, shift) <= Digit(e.key, shift) {
        AppendSorted(r, e, shift);
      } else {
        var p := r[..|r| - 1];
        assert forall i :: 0 <= i < |p| ==> p[i] == r[i];
        assert forall x :: x in p ==> x in r;
        InsertSorted(p, e, shift);
        InsertBelowLast(r, e, shift);
      }
    }
  }

  /** The case where e goes last. */
  lemma AppendSorted(r: seq<Entry>, e: Entry, shift: nat)
    requires |r| > 0 && SortedByLow(r, shift + 8)
    requires Low(r[|r| - 1].key, shift) <= Low(e.key, shift)
    requires Digit(r[|r| - 1].key, shift) <= Digit(e.key, shift)
    ensures SortedByLow(r + [e], shift + 8)
  {
    var last := r[|r| - 1];
    LowOrder(last.key, e.key, shift);
    var t := r + [e];
    forall i, j | 0 <= i < j < |t|
      ensures Low(t[i].key, shift + 8) <= Low(t[j].key, shift + 8)
    {
      if j == |r| {
        assert t[i] == r[i] && t[j] == e;
        if i < |r| - 1 {
          assert Low(r[i].key, shift + 8) <= Low(last.key, shift + 8);
        }
      } else {
        assert t[i] == r[i] && t[j] == r[j];
      }
    }
  }

  /** The case where the last placed entry has a larger digit and stays last. */
  lemma InsertBelowLast(r: seq<Entry>, e: Entry, shift: nat)
    requires |r| > 0 && SortedByLow(r, shift + 8)
    requires Digit(e.key, shift) < Digit(r[|r| - 1].key, shift)
    requires SortedByLow(InsertByDigit(r[..|r| - 1], e, shift), shift + 8)
    ensures SortedByLow(InsertByDigit(r[..|r| - 1], e, shift) + [r[|r| - 1]], shift + 8)
  {
    var last := r[|r| - 1];
    var p := r[..|r| - 1];
    var q := InsertByDigit(p, e, shift);
    InsertPermutation(p, e, shift);
    DigitOrder(e.key, last.key, shift);
    forall x | x in q
      ensures Low(x.key, shift + 8) <= Low(last.key, shift + 8)
    {
      assert x in multiset(q);
      if x != e {
        assert x in p;
        var k :| 0 <= k < |p| && p[k] == x;
        assert r[k] == x;
      }
    }
    var t := q + [last];
    forall i, j | 0 <= i < j < |t|
      ensures Low(t[i].key, shift + 8) <= Low(t[j].key, shift + 8)
    {
      if j == |q| {
        assert t[i] == q[i];
        assert q[i] in q;
      } else {
        assert t[i] == q[i] && t[j] == q[j];
      }
    }
  }

  /** Under the assumption, one pass extends the sorted low bits of the keys by one digit. */
  lemma {:induction false} PassEffect(s: seq<Entry>, shift: nat)
    requires SortedByLow(s, shift)
    ensures SortedByLow(SortPassEffect(s, shift), shift + 8)
    decreases |s|
  {
    if |s| > 0 {
      var p, e := s[..|s| - 1], s[|s| - 1];
      PrefixSorted(s, shift);
      PassEffect(p, shift);
      var r := SortPassEffect(p, shift);
      PassPermutation(p, shift);
      forall x | x in r
        ensures Low(x.key, shift) <= Low(e.key, shift)
      {
        assert x in multiset(r);
        assert x in p;
      }
      InsertSorted(r, e, shift);
    }
  }

  /** Under the assumption, one pass only reorders the entries. */
  lemma {:induction false} PassPermutation(s: seq<Entry>, shift: nat)
    ensures multiset(SortPassEffect(s, shift)) == multiset(s)
    decreases |s|
  {
    if |s| > 0 {
      var p, e := s[..|s| - 1], s[|s| - 1];
      PassPermutation(p, shift);
      InsertPermutation(SortPassEffect(p, shift), e, shift);
      assert s == p + [e];
    }
  }

  /** Passes over n consecutive digits leave the entries sorted by all the bits below the last one. */
  lemma {:induction false} AfterPassesSorted(s: seq<Entry>, shift: nat, n: nat)
    requires SortedByLow(s, shift)
    ensures SortedByLow(AfterPasses(s, shift, n), shift + 8 * n)
    decreases n
  {
    if n > 0 {
      PassEffect(s, shift);
      AfterPassesSorted(SortPassEffect(s, shift), shift + 8, n - 1);
    }
  }

  /** Under the assumption, passes only reorder the entries. */
  lemma {:induction false} AfterPassesPermutation(s: seq<Entry>, shift: nat, n: nat)
    ensures multiset(AfterPasses(s, shift, n)) == multiset(s)
    decreases n
  {
    if n > 0 {
      PassPermutation(s, shift);
      AfterPassesPermutation(SortPassEffect(s, shift), shift + 8, n - 1);
    }
  }

  lemma LowOfKey(x: Entry, s: seq<Entry>, bound: nat)
    requires x in multiset(s)
    requires forall i :: 0 <= i < |s| ==> s[i].key < Pow2(bound)
    ensures Low(x.key, bound) == x.key
  {
    assert x in s;
    ModUnique(x.key, Pow2(bound), 0, x.key);
  }

  /** n passes from shift 0 sort entries whose keys have at most 8n bits. */
  lemma SortsKeysBelow(s: seq<Entry>, n: nat)
    requires forall i :: 0 <= i < |s| ==> s[i].key < Pow2(8 * n)
    ensures SortedByKey(AfterPasses(s, 0, n))
    ensures multiset(AfterPasses(s, 0, n)) == multiset(s)
  {
    var r := AfterPasses(s, 0, n);
    assert SortedByLow(r, 8 * n) by {
      assert SortedByLow(s, 0) by {
        forall i, j | 0 <= i < j < |s|
          ensures Low(s[i].key, 0) <= Low(s[j].key, 0)
        {
        }
      }
      AfterPassesSorted(s, 0, n);
    }
    assert multiset(r) == multiset(s) by {
      AfterPassesPermutation(s, 0, n);
    }
    forall i, j | 0 <= i < j < |r|
      ensures r[i].key <= r[j].key
    {
      assert r[i] in multiset(s) && r[j] in multiset(s);
      LowOfKey(r[i], s, 8 * n);
      LowOfKey(r[j], s, 8 * n);
    }
  }

  /**
   * Under the assumption on one pass, the four recorded passes sort the
   * entries by their 32-bit key and only reorder them.
   */
  lemma RadixSortSorts(s: seq<Entry>)
    requires forall i :: 0 <= i < |s| ==> s[i].key < KeySpace
    ensures SortedByKey(AfterPasses(s, 0, NumPasses))
    ensures multiset(AfterPasses(s, 0, NumPasses)) == multiset(s)
  {
    KeySpaceIsPow2();
    SortsKeysBelow(s, NumPasses);
  }
}
