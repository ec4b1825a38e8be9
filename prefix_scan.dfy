/**
 * The prefix-sum stage as the host records it (Renderer.cpp:669-726): the
 * tile-overlap counts are copied into the ping buffer, then ceil(log2 N) + 1
 * dispatches alternate between the ping and pong buffers, and the last
 * element of one of them is copied to the host as the instance count.
 *
 * The prefix_sum shader is not part of this model. Which buffer a dispatch
 * writes is read off the barriers the host records after it: a write-to-read
 * barrier on the buffer just written, a read-to-write barrier on the one
 * just read. What the shader computes is an explicit assumption below
 * (ScanStep), used only by the lemmas at the end of the module.
 */
module PrefixScan {
  import opened Sizing

  datatype ScanBuffer = Ping | Pong

  function Other(b: ScanBuffer): (o: ScanBuffer)
    ensures o != b
  {
    if b == Ping then Pong else Ping
  }

  /**
   * One recorded dispatch: its `timestep` push constant, its group count,
   * the buffer given the write-to-read barrier after it (`written`) and the
   * one given the read-to-write barrier (`read`).
   */
  datatype ScanDispatch = ScanDispatch(timestep: nat, groups: nat, written: ScanBuffer, read: ScanBuffer)

  /** The `iters` of Renderer.cpp:698, as an integer ceiling of log2. */
  function Iterations(numVertices: nat): nat
    requires numVertices >= 1
  {
    CeilLog2(numVertices)
  }

  /** The dispatches the scan loop records: timestep t writes pong when t is even, ping when odd. */
  function ScanSchedule(numVertices: nat): seq<ScanDispatch>
    requires numVertices >= 1
  {
    seq(Iterations(numVertices) + 1, t requires 0 <= t <= Iterations(numVertices) =>
      if t % 2 == 0 then ScanDispatch(t, ElementGroups(numVertices), Pong, Ping)
      else ScanDispatch(t, ElementGroups(numVertices), Ping, Pong))
  }

  /** The scan loop of Renderer.cpp:699-712. */
  method RecordScanDispatches(numVertices: nat) returns (ds: seq<ScanDispatch>)
    requires numVertices >= 1
    ensures ds == ScanSchedule(numVertices)
    ensures |ds| == Iterations(numVertices) + 1
    ensures forall t :: 0 <= t < |ds| ==> ds[t].timestep == t && ds[t].groups == ElementGroups(numVertices)
    ensures forall t :: 0 <= t < |ds| ==> ds[t].read != ds[t].written
    ensures ds[0].read == Ping
    ensures forall t :: 0 < t < |ds| ==> ds[t].read == ds[t - 1].written
    ensures ds[|ds| - 1].written == LastWritten(numVertices)
    ensures |ds| >= 2 ==> ds[|ds| - 2].written == TotalSumSource(numVertices)
  {
    var iters := Iterations(numVertices);
    var numGroups := (numVertices + 255) / 256;
    ds := [];
    var timestep := 0;
    while timestep <= iters
      invariant 0 <= timestep <= iters + 1
      invariant |ds| == timestep
      invariant forall t :: 0 <= t < timestep ==> ds[t].timestep == t && ds[t].groups == numGroups
      invariant forall t :: 0 <= t < timestep ==>
        ds[t].written == (if t % 2 == 0 then Pong else Ping) && ds[t].read == Other(ds[t].written)
    {
      var d := if timestep % 2 == 0 then ScanDispatch(timestep, numGroups, Pong, Ping)
               else ScanDispatch(timestep, numGroups, Ping, Pong);
      ds := ds + [d];
      timestep := timestep + 1;
    }
    assert ds == ScanSchedule(numVertices);
    ScanScheduleShape(numVertices);
  }

  /**
   * The schedule's dispatches alternate: each reads the buffer the previous
   * one wrote, the first reads ping, and the one before the last writes the
   * buffer the instance count is copied from.
   */
  lemma ScanScheduleShape(numVertices: nat)
    requires numVertices >= 1
    ensures var ds := ScanSchedule(numVertices);
      && |ds| == Iterations(numVertices) + 1
      && (forall t :: 0 <= t < |ds| ==> ds[t].timestep == t && ds[t].groups == ElementGroups(numVertices))
      && (forall t :: 0 <= t < |ds| ==> ds[t].read != ds[t].written)
      && ds[0].read == Ping
      && (forall t :: 0 < t < |ds| ==> ds[t].read == ds[t - 1].written)
      && ds[|ds| - 1].written == LastWritten(numVertices)
      && (|ds| >= 2 ==> ds[|ds| - 2].written == TotalSumSource(numVertices))
  {
    var ds := ScanSchedule(numVertices);
    forall t | 0 < t < |ds|
      ensures ds[t].read == ds[t - 1].written
    {
      assert (t % 2 == 0) == ((t - 1) % 2 == 1);
    }
    var last := |ds| - 1;
    if last >= 1 {
      assert (last % 2 == 0) == ((last - 1) % 2 == 1);
    }
  }

  /** The buffer written by the final dispatch (timestep iters). */
  function LastWritten(numVertices: nat): ScanBuffer
    requires numVertices >= 1
  {
    if Iterations(numVertices) % 2 == 0 then Pong else Ping
  }

  /**
   * The buffer the instance count is copied from: ping iff iters is even
   * (Renderer.cpp:715-721). It is never the buffer of the final dispatch.
   */
  function TotalSumSource(numVertices: nat): (b: ScanBuffer)
    requires numVertices >= 1
    ensures b != LastWritten(numVertices)
  {
    if Iterations(numVertices) % 2 == 0 then Ping else Pong
  }

  /** Binding 1 of the preprocess-sort descriptor set: ping in set 0, pong in set 1 (Renderer.cpp:414-417). */
  function OffsetsBinding(setIndex: nat): ScanBuffer
    requires setIndex < 2
  {
    if setIndex == 0 then Ping else Pong
  }

  /**
   * The set bound for the preprocess-sort stage, iters % 2 == 0 ? 0 : 1
   * (Renderer.cpp:775-777); it reads its offsets from the same buffer the
   * instance count is copied from.
   */
  function PreprocessSortSet(numVertices: nat): (setIndex: nat)
    requires numVertices >= 1
    ensures setIndex < 2
    ensures OffsetsBinding(setIndex) == TotalSumSource(numVertices)
  {
    if Iterations(numVertices) % 2 == 0 then 0 else 1
  }

  datatype CopyRegion = CopyRegion(srcOffset: nat, dstOffset: nat, size: nat)

  /**
   * The copy of the instance count (Renderer.cpp:714): the last word of a
   * numVertices-word buffer (sized at Renderer.cpp:325-326), into the start
   * of the one-word host buffer.
   */
  function TotalSumRegion(numVertices: nat): (r: CopyRegion)
    requires numVertices >= 1
    ensures r.srcOffset + r.size == numVertices * WordBytes
    ensures r.size == WordBytes && r.dstOffset == 0
    ensures r.srcOffset % WordBytes == 0 && r.srcOffset / WordBytes == numVertices - 1
  {
    CopyRegion((numVertices - 1) * WordBytes, 0, WordBytes)
  }

  // ------------------------------------------------------------------
  // What the shader computes: an assumption, not a fact of the code.

  /**
   * ASSUMED behaviour of dispatch t of the prefix_sum shader: a
   * Hillis-Steele step that adds to each element the one 2^t places before it.
   */
  function ScanStep(a: seq<nat>, t: nat): (b: seq<nat>)
    ensures |b| == |a|
  {
    seq(|a|, i requires 0 <= i < |a| => if i >= Pow2(t) then a[i] + a[i - Pow2(t)] else a[i])
  }

  /** Contents written by dispatch k - 1, starting from the copied counts. */
  function ScanAfter(a: seq<nat>, k: nat): (b: seq<nat>)
    ensures |b| == |a|
  {
    if k == 0 then a else ScanStep(ScanAfter(a, k - 1), k - 1)
  }

  function Sum(a: seq<nat>, lo: nat, hi: nat): nat
    requires lo <= hi <= |a|
    decreases hi - lo
  {
    if lo == hi then 0 else Sum(a, lo, hi - 1) + a[hi - 1]
  }

  lemma {:induction false} SumSplit(a: seq<nat>, lo: nat, mid: nat, hi: nat)
    requires lo <= mid <= hi <= |a|
    ensures Sum(a, lo, hi) == Sum(a, lo, mid) + Sum(a, mid, hi)
    decreases hi - mid
  {
    if mid < hi {
      SumSplit(a, lo, mid, hi - 1);
    }
  }

  /** First index of the window of 2^k elements ending at i. */
  function WindowStart(i: nat, k: nat): nat
  {
    if i + 1 >= Pow2(k) then i + 1 - Pow2(k) else 0
  }

  lemma WindowStep(i: nat, k: nat)
    requires k >= 1 && i >= Pow2(k - 1)
    ensures WindowStart(i - Pow2(k - 1), k - 1) == WindowStart(i, k)
    ensures WindowStart(i, k) <= i - Pow2(k - 1) + 1
    ensures WindowStart(i, k - 1) == i - Pow2(k - 1) + 1
  {
    assert Pow2(k) == 2 * Pow2(k - 1);
  }

  lemma StepAt(a: seq<nat>, t: nat, i: nat)
    requires i < |a|
    ensures ScanStep(a, t)[i] == if i >= Pow2(t) then a[i] + a[i - Pow2(t)] else a[i]
  {
  }

  /** After k dispatches, element i sums the (at most) 2^k counts ending at i. */
  lemma {:induction false} ScanAfterWindow(a: seq<nat>, k: nat, i: nat)
    requires i < |a|
    ensures ScanAfter(a, k)[i] == Sum(a, WindowStart(i, k), i + 1)
  {
    if k == 0 {
      assert WindowStart(i, 0) == i;
      assert Sum(a, i, i + 1) == Sum(a, i, i) + a[i];
    } else {
      ScanAfterWindow(a, k - 1, i);
      if i >= Pow2(k - 1) {
        ScanAfterWindow(a, k - 1, i - Pow2(k - 1));
        ScanJoin(a, k, i);
      } else {
        ScanCopy(a, k, i);
      }
    }
  }

  /** Dispatch k - 1 joins the window ending at i with the one 2^(k-1) before it. */
  lemma ScanJoin(a: seq<nat>, k: nat, i: nat)
    requires k >= 1 && Pow2(k - 1) <= i < |a|
    requires ScanAfter(a, k - 1)[i] == Sum(a, WindowStart(i, k - 1), i + 1)
    requires ScanAfter(a, k - 1)[i - Pow2(k - 1)] == Sum(a, WindowStart(i - Pow2(k - 1), k - 1), i - Pow2(k - 1) + 1)
    ensures ScanAfter(a, k)[i] == Sum(a, WindowStart(i, k), i + 1)
  {
    var prev := ScanAfter(a, k - 1);
    var p := Pow2(k - 1);
    assert ScanAfter(a, k) == ScanStep(prev, k - 1);
    StepAt(prev, k - 1, i);
    WindowStep(i, k);
    SumSplit(a, WindowStart(i, k), i - p + 1, i + 1);
  }

  /** Below the stride, dispatch k - 1 leaves element i, whose window already starts at 0. */
  lemma ScanCopy(a: seq<nat>, k: nat, i: nat)
    requires k >= 1 && i < Pow2(k - 1) && i < |a|
    requires ScanAfter(a, k - 1)[i] == Sum(a, WindowStart(i, k - 1), i + 1)
    ensures ScanAfter(a, k)[i] == Sum(a, WindowStart(i, k), i + 1)
  {
    var prev := ScanAfter(a, k - 1);
    assert ScanAfter(a, k) == ScanStep(prev, k - 1);
    StepAt(prev, k - 1, i);
    assert Pow2(k) == 2 * Pow2(k - 1);
    assert WindowStart(i, k - 1) == 0 && WindowStart(i, k) == 0;
  }

  /**
   * Contents of a scan buffer after the whole loop, starting from the
   * copied counts: the final dispatch's buffer holds its output, the other
   * the output of the dispatch before (or the copied counts when there is
   * only one dispatch).
   */
  function BufferAfterScan(counts: seq<nat>, b: ScanBuffer): (s: seq<nat>)
    requires |counts| >= 1
    ensures |s| == |counts|
  {
    var iters := Iterations(|counts|);
    if b == LastWritten(|counts|) then ScanAfter(counts, iters + 1) else ScanAfter(counts, iters)
  }

  /**
   * Under the ScanStep assumption both buffers end up holding the inclusive
   * prefix sums of the counts (the final dispatch, with stride 2^iters >= N,
   * only copies), so the word copied to the host is the total instance count.
   */
  lemma {:induction false} ReadbackIsTotal(counts: seq<nat>)
    requires |counts| >= 1
    ensures forall b: ScanBuffer, i :: 0 <= i < |counts| ==> BufferAfterScan(counts, b)[i] == Sum(counts, 0, i + 1)
    ensures BufferAfterScan(counts, TotalSumSource(|counts|))[|counts| - 1] == Sum(counts, 0, |counts|)
  {
    var n := |counts|;
    var iters := Iterations(n);
    forall b: ScanBuffer, i | 0 <= i < n
      ensures BufferAfterScan(counts, b)[i] == Sum(counts, 0, i + 1)
    {
      ScanAfterWindow(counts, iters, i);
      ScanAfterWindow(counts, iters + 1, i);
      assert Pow2(iters + 1) >= Pow2(iters) >= n;
    }
  }
}
