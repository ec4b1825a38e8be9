/**
 * The metrics side of the GUI (GUIManager.cpp): the fixed-capacity
 * ScrollingBuffer a plot line is drawn from, the two maps the GUI reads
 * (text metrics and plotted metrics) and the GUIManager operations that
 * fill them. The maps are file-level statics in the source; here they are
 * one MetricsStore object that every GUIManager shares.
 *
 * The plotted map holds its buffers by value, so a ScrollingBuffer is a
 * datatype here and addPoint/clear return the updated buffer, which the
 * store writes back under its name.
 *
 * Float values are `real`. The time stamp of a plotted point comes from
 * ImGui::GetTime() in the source and is a parameter here.
 */
module Metrics {

  /** One plotted point: (time, value). */
  datatype Point = Point(x: real, y: real)

  /** Default capacity of a ScrollingBuffer (GUIManager.cpp:12). */
  const DefaultMaxSize: int := 10000

  /** Reading a circular buffer from `offset`, wrapping around, as the plot does (GUIManager.cpp:92-94). */
  function Rotated(d: seq<Point>, offset: int): (r: seq<Point>)
    requires 0 <= offset <= |d|
    ensures |r| == |d|
  {
    d[offset..] + d[..offset]
  }

  /** The last min(|h|, n) elements of h, in order: h without its oldest points beyond n. */
  function LastN(h: seq<Point>, n: nat): (r: seq<Point>)
    ensures |r| == (if |h| <= n then |h| else n)
    decreases |h|
  {
    if |h| <= n then h else LastN(h[1..], n)
  }

  lemma {:induction false} LastNSuffix(h: seq<Point>, n: nat)
    ensures |h| > n ==> LastN(h, n) == h[|h| - n..]
    decreases |h|
  {
    if |h| > n + 1 {
      LastNSuffix(h[1..], n);
      assert h[1..][|h| - 1 - n..] == h[|h| - n..];
    }
  }

  /** Adding a point to a history at least n long drops its oldest point from the window. */
  lemma ShiftWindow(h: seq<Point>, n: nat, p: Point)
    requires 1 <= n <= |h|
    ensures LastN(h + [p], n) == LastN(h, n)[1..] + [p]
  {
    LastNSuffix(h + [p], n);
    LastNSuffix(h, n);
    assert (h + [p])[|h| + 1 - n..] == h[|h| + 1 - n..] + [p];
    if |h| == n {
      assert LastN(h, n) == h;
      assert h[1..] == h[|h| + 1 - n..];
    } else {
      assert h[|h| - n..][1..] == h[|h| + 1 - n..];
    }
  }

  /** Overwriting the slot at `offset` and stepping past it rotates the window by one. */
  lemma RotateStep(d: seq<Point>, offset: int, p: Point)
    requires 0 <= offset < |d|
    ensures Rotated(d[offset := p], (offset + 1) % |d|) == Rotated(d, offset)[1..] + [p]
  {
    if offset + 1 < |d| {
      assert (offset + 1) % |d| == offset + 1;
      RotateStepInside(d, offset, p);
    } else {
      assert (offset + 1) % |d| == 0;
      RotateStepWrap(d, offset, p);
    }
  }

  lemma RotateStepInside(d: seq<Point>, offset: nat, p: Point)
    requires offset + 1 < |d|
    ensures Rotated(d[offset := p], offset + 1) == Rotated(d, offset)[1..] + [p]
  {
    var d' := d[offset := p];
    assert d[offset..] == [d[offset]] + d[offset + 1..];
    assert d'[offset + 1..] == d[offset + 1..];
    assert d'[..offset + 1] == d[..offset] + [p];
  }

  lemma RotateStepWrap(d: seq<Point>, offset: nat, p: Point)
    requires offset + 1 == |d|
    ensures Rotated(d[offset := p], 0) == Rotated(d, offset)[1..] + [p]
  {
    var d' := d[offset := p];
    assert d[offset..] == [d[offset]];
    assert d' == d[..offset] + [p];
    assert d'[0..] == d' && d'[..0] == [];
  }

  /** A fixed-capacity circular buffer of points (GUIManager.cpp:8-11). */
  datatype ScrollingBuffer = ScrollingBuffer(maxSize: int, offset: int, data: seq<Point>)

  /**
   * The buffer invariant: never more than maxSize points, the write position
   * inside the buffer, and at 0 until the buffer fills.
   */
  predicate Inv(b: ScrollingBuffer)
  {
    b.maxSize > 0 && |b.data| <= b.maxSize && 0 <= b.offset < b.maxSize
    && (|b.data| < b.maxSize ==> b.offset == 0)
  }

  /** The points in plotting order: read from `offset`, wrapping around. */
  function Window(b: ScrollingBuffer): (w: seq<Point>)
    requires Inv(b)
    ensures |w| == |b.data|
  {
    Rotated(b.data, b.offset)
  }

  /** ScrollingBuffer(max_size): empty, offset 0 (GUIManager.cpp:12-16). */
  function NewBuffer(maxSize: int): (b: ScrollingBuffer)
    ensures maxSize > 0 ==> Inv(b) && Window(b) == []
    ensures b.maxSize == maxSize
  {
    ScrollingBuffer(maxSize, 0, [])
  }

  /**
   * addPoint (GUIManager.cpp:17-24): append while there is room, otherwise
   * overwrite the oldest point and step past it. The window afterwards is
   * the old window plus the new point, without its oldest point once full.
   */
  function AddPoint(b: ScrollingBuffer, x: real, y: real): (r: ScrollingBuffer)
    requires Inv(b)
    ensures Inv(r) && r.maxSize == b.maxSize
    ensures Window(r) == LastN(Window(b) + [Point(x, y)], b.maxSize)
  {
    var p := Point(x, y);
    if |b.data| < b.maxSize then
      assert Rotated(b.data, 0) == b.data;
      assert Rotated(b.data + [p], 0) == b.data + [p];
      ScrollingBuffer(b.maxSize, b.offset, b.data + [p])
    else
      RotateStep(b.data, b.offset, p);
      ShiftWindow(Window(b), b.maxSize, p);
      assert LastN(Window(b), b.maxSize) == Window(b);
      ScrollingBuffer(b.maxSize, (b.offset + 1) % b.maxSize, b.data[b.offset := p])
  }

  /** clear (GUIManager.cpp:25-30): drop every point; the offset is reset only if there were any. */
  function Clear(b: ScrollingBuffer): (r: ScrollingBuffer)
    ensures r.data == [] && r.maxSize == b.maxSize
    ensures |b.data| > 0 ==> r.offset == 0
    ensures |b.data| == 0 ==> r == b
    ensures Inv(b) ==> Inv(r) && r.offset == 0 && Window(r) == []
  {
    if |b.data| > 0 then ScrollingBuffer(b.maxSize, 0, []) else b
  }

  /** Windowing a window again changes nothing. */
  lemma {:induction false} LastNAppend(h: seq<Point>, n: nat, p: Point)
    requires n >= 1
    ensures LastN(LastN(h, n) + [p], n) == LastN(h + [p], n)
  {
    if |h| <= n {
      assert LastN(h, n) == h;
    } else {
      LastNSuffix(h, n);
      ShiftWindow(h, n, p);
      ShiftWindow(LastN(h, n), n, p);
      assert LastN(LastN(h, n), n) == LastN(h, n);
    }
  }

  /** A buffer that shows the last maxSize points of a history shows them after one more point too. */
  lemma AddPointHistory(b: ScrollingBuffer, h: seq<Point>, x: real, y: real)
    requires Inv(b) && Window(b) == LastN(h, b.maxSize)
    ensures Window(AddPoint(b, x, y)) == LastN(h + [Point(x, y)], b.maxSize)
  {
    LastNAppend(h, b.maxSize, Point(x, y));
  }

  /** The points added one after another. */
  function AddAll(b: ScrollingBuffer, ps: seq<Point>): (r: ScrollingBuffer)
    requires Inv(b)
    ensures Inv(r) && r.maxSize == b.maxSize
    decreases |ps|
  {
    if ps == [] then b else AddAll(AddPoint(b, ps[0].x, ps[0].y), ps[1..])
  }

  /**
   * What the plot line shows: a fresh buffer fed any sequence of points
   * holds exactly the last maxSize of them, oldest first.
   */
  lemma {:induction false} PlotShowsLastPoints(maxSize: int, ps: seq<Point>)
    requires maxSize > 0
    ensures Window(AddAll(NewBuffer(maxSize), ps)) == LastN(ps, maxSize)
  {
    AddAllHistory(NewBuffer(maxSize), [], ps);
    assert [] + ps == ps;
  }

  lemma {:induction false} AddAllHistory(b: ScrollingBuffer, h: seq<Point>, ps: seq<Point>)
    requires Inv(b) && Window(b) == LastN(h, b.maxSize)
    ensures Window(AddAll(b, ps)) == LastN(h + ps, b.maxSize)
    decreases |ps|
  {
    if ps != [] {
      var p := ps[0];
      AddPointHistory(b, h, p.x, p.y);
      var b' := AddPoint(b, p.x, p.y);
      AddAllHistory(b', h + [Point(p.x, p.y)], ps[1..]);
      assert AddAll(b, ps) == AddAll(b', ps[1..]);
      assert ps == [p] + ps[1..];
      assert h + [Point(p.x, p.y)] + ps[1..] == h + ps;
    } else {
      assert h + ps == h;
    }
  }

  /** The buffer a name has, or the default-constructed one the source inserts for a new name. */
  function BufferOf(metrics: map<string, ScrollingBuffer>, n: string): (b: ScrollingBuffer)
    ensures n !in metrics ==> b == NewBuffer(DefaultMaxSize)
  {
    if n in metrics then metrics[n] else NewBuffer(DefaultMaxSize)
  }

  /** The points a name has been given, empty for a name not yet plotted. */
  function HistoryOf(history: map<string, seq<Point>>, n: string): seq<Point>
  {
    if n in history then history[n] else []
  }

  /** A buffer that keeps its invariant and plots the last maxSize points of a history. */
  predicate Shows(b: ScrollingBuffer, h: seq<Point>)
  {
    Inv(b) && Window(b) == LastN(h, b.maxSize)
  }

  /** Every plotted name has a history, and its buffer shows it. */
  predicate ShowsAll(metrics: map<string, ScrollingBuffer>, history: map<string, seq<Point>>)
  {
    metrics.Keys == history.Keys && forall n :: n in metrics ==> Shows(metrics[n], history[n])
  }

  /** Replacing one name's buffer and history by a matching pair keeps every name shown. */
  lemma ShowsAllUpdate(metrics: map<string, ScrollingBuffer>, history: map<string, seq<Point>>,
                       name: string, b: ScrollingBuffer, h: seq<Point>)
    requires ShowsAll(metrics, history) && Shows(b, h)
    ensures ShowsAll(metrics[name := b], history[name := h])
  {
  }

  /**
   * Reference definition of pushing a map of values: every name in `done`
   * has the point (times[n], values[n]) added to its buffer (a default one
   * when it had none), every other name keeps its buffer.
   */
  function Pushed(m0: map<string, ScrollingBuffer>, values: map<string, real>, times: map<string, real>,
                  done: set<string>): (m: map<string, ScrollingBuffer>)
    requires forall n :: n in m0 ==> Inv(m0[n])
    requires done <= values.Keys <= times.Keys
    ensures m.Keys == m0.Keys + done
    ensures forall n :: n in m ==> Inv(m[n])
  {
    map n | n in m0.Keys + done ::
      if n in done then AddPoint(BufferOf(m0, n), times[n], values[n]) else m0[n]
  }

  /** The histories after pushing the names in `done`. */
  function Appended(h0: map<string, seq<Point>>, values: map<string, real>, times: map<string, real>,
                    done: set<string>): (h: map<string, seq<Point>>)
    requires done <= values.Keys <= times.Keys
    ensures h.Keys == h0.Keys + done
  {
    map n | n in h0.Keys + done ::
      if n in done then HistoryOf(h0, n) + [Point(times[n], values[n])] else h0[n]
  }

  /** Pushing one more name extends the reference buffers at that name and nowhere else. */
  lemma PushedStep(m0: map<string, ScrollingBuffer>, values: map<string, real>, times: map<string, real>,
                   done: set<string>, n: string)
    requires forall k :: k in m0 ==> Inv(m0[k])
    requires done <= values.Keys <= times.Keys && n in values && n !in done
    ensures var m := Pushed(m0, values, times, done);
      Pushed(m0, values, times, done + {n}) == m[n := AddPoint(BufferOf(m, n), times[n], values[n])]
  {
    var m := Pushed(m0, values, times, done);
    var m' := Pushed(m0, values, times, done + {n});
    var b := AddPoint(BufferOf(m0, n), times[n], values[n]);
    assert BufferOf(m, n) == BufferOf(m0, n);
    forall k | k in m'
      ensures m'[k] == m[n := b][k]
    {
      if k != n {
        assert m'[k] == m[k];
      }
    }
  }

  /** Pushing one more name extends the reference histories at that name and nowhere else. */
  lemma AppendedStep(h0: map<string, seq<Point>>, values: map<string, real>, times: map<string, real>,
                     done: set<string>, n: string)
    requires done <= values.Keys <= times.Keys && n in values && n !in done
    ensures var h := Appended(h0, values, times, done);
      Appended(h0, values, times, done + {n}) == h[n := HistoryOf(h, n) + [Point(times[n], values[n])]]
  {
    var h := Appended(h0, values, times, done);
    assert HistoryOf(h, n) == HistoryOf(h0, n);
  }

  /** The two maps GUIManager.cpp:33-34 keep at file level. */
  class MetricsStore {
    var textMetrics: map<string, real>
    var metrics: map<string, ScrollingBuffer>
    /** Every point pushed under each plotted name since the maps were created. */
    ghost var history: map<string, seq<Point>>

    /** Every buffer keeps its invariant and plots the last maxSize points pushed under its name. */
    ghost predicate Valid()
      reads this
    {
      ShowsAll(metrics, history)
    }

    constructor ()
      ensures Valid() && textMetrics == map[] && metrics == map[]
    {
      textMetrics := map[];
      metrics := map[];
      history := map[];
    }
  }

  /** The non-UI state of a GUIManager and its operations on the shared maps. */
  class GUIManager {
    var useHalfResolution: bool
    var showMetrics: bool
    const store: MetricsStore

    /** GUIManager(): replaces both maps with empty ones (GUIManager.cpp:36-39). */
    constructor (store: MetricsStore, useHalfResolution: bool, showMetrics: bool)
      modifies store
      ensures this.store == store && this.useHalfResolution == useHalfResolution
      ensures this.showMetrics == showMetrics
      ensures store.Valid() && store.textMetrics == map[] && store.metrics == map[]
    {
      this.store := store;
      this.useHalfResolution := useHalfResolution;
      this.showMetrics := showMetrics;
      store.textMetrics := map[];
      store.metrics := map[];
      store.history := map[];
    }

    /** pushTextMetric: insert or overwrite one key (GUIManager.cpp:178-184). */
    method PushTextMetric(name: string, value: real)
      requires store.Valid()
      modifies store
      ensures store.Valid()
      ensures store.textMetrics == old(store.textMetrics)[name := value]
      ensures store.metrics == old(store.metrics) && store.history == old(store.history)
    {
      if name !in store.textMetrics {
        store.textMetrics := store.textMetrics[name := value];
      } else {
        store.textMetrics := store.textMetrics[name := value];
      }
    }

    /**
     * pushMetric(name, value): a default buffer for a new name, then the
     * point (time, value) added to that name's buffer and no other
     * (GUIManager.cpp:186-192).
     */
    method PushMetric(name: string, value: real, time: real)
      requires store.Valid()
      modifies store
      ensures store.Valid()
      ensures store.textMetrics == old(store.textMetrics)
      ensures store.metrics == old(store.metrics)[name := AddPoint(BufferOf(old(store.metrics), name), time, value)]
      ensures store.history == old(store.history)[name := HistoryOf(old(store.history), name) + [Point(time, value)]]
    {
      var b := BufferOf(store.metrics, name);
      ghost var h := HistoryOf(store.history, name);
      assert Shows(b, h);
      AddPointHistory(b, h, time, value);
      ShowsAllUpdate(store.metrics, store.history, name, AddPoint(b, time, value), h + [Point(time, value)]);
      if name !in store.metrics {
        store.metrics := store.metrics[name := NewBuffer(DefaultMaxSize)];
      }
      store.metrics := store.metrics[name := AddPoint(store.metrics[name], time, value)];
      store.history := store.history[name := h + [Point(time, value)]];
    }

    /**
     * pushMetric(map): one point for every entry of the map
     * (GUIManager.cpp:194-198). The clock is read once per entry; `times`
     * gives the reading each name gets.
     */
    method PushMetrics(values: map<string, real>, times: map<string, real>)
      requires store.Valid()
      requires values.Keys <= times.Keys
      modifies store
      ensures store.Valid()
      ensures store.textMetrics == old(store.textMetrics)
      ensures store.metrics == Pushed(old(store.metrics), values, times, values.Keys)
      ensures store.history == Appended(old(store.history), values, times, values.Keys)
    {
      var pending := values.Keys;
      ghost var done: set<string> := {};
      ghost var m0, h0 := store.metrics, store.history;
      assert Pushed(m0, values, times, {}) == m0;
      assert Appended(h0, values, times, {}) == h0;
      while pending != {}
        invariant done + pending == values.Keys && done !! pending
        invariant store.Valid()
        invariant store.textMetrics == old(store.textMetrics)
        invariant store.metrics == Pushed(m0, values, times, done)
        invariant store.history == Appended(h0, values, times, done)
        decreases pending
      {
        var n :| n in pending;
        PushedStep(m0, values, times, done, n);
        AppendedStep(h0, values, times, done, n);
        PushMetric(n, values[n], times[n]);
        pending := pending - {n};
        done := done + {n};
      }
    }
  }
}
