/**
 * Scene loading from a binary little-endian PLY asset (GSScene.cpp): the
 * header is read line by line with std::getline and the first token of each
 * line decides what it declares; the property count picks one of two
 * vertex record layouts; then one fixed-size record per vertex is read and
 * its 48 spherical-harmonics coefficients are reordered from channel-major
 * to coefficient-major.
 *
 * The asset is a string of bytes. A record's floats are kept as their four
 * bytes in memory order (Word); what the source then computes from them in
 * floating point (exp of the scales, the sigmoid of the opacity,
 * normalising the rotation) is not part of this model.
 */
module Ply {
  import opened Wrappers
  import opened Text

  // ---------------------------------------------------------------- lines

  /**
   * std::getline on a string stream at pos: it succeeds iff a character is
   * left, returns the characters before the next newline and consumes the
   * newline if there is one.
   */
  function GetLine(s: string, pos: nat): (r: (string, nat))
    requires pos < |s|
    ensures '\n' !in r.0
    ensures pos < r.1 <= |s|
    ensures r.1 == pos + |r.0| + 1 || (r.1 == |s| == pos + |r.0|)
    ensures s[pos..pos + |r.0|] == r.0
  {
    NextLine(s, pos)
  }

  // --------------------------------------------------------------- tokens

  /** Length of the leading run of non-space characters of s. */
  function TokenLength(s: string): (n: nat)
    ensures n <= |s|
    ensures forall k :: 0 <= k < n ==> !IsSpace(s[k])
    ensures n == |s| || IsSpace(s[n])
  {
    if s == [] || IsSpace(s[0]) then 0 else 1 + TokenLength(s[1..])
  }

  /** The whitespace-separated tokens successive `iss >> token` extractions yield. */
  function Tokens(s: string): (ts: seq<string>)
    ensures forall i :: 0 <= i < |ts| ==> |ts[i]| > 0 && forall k :: 0 <= k < |ts[i]| ==> !IsSpace(ts[i][k])
    decreases |s|
  {
    if s == [] then []
    else if IsSpace(s[0]) then Tokens(s[1..])
    else
      var n := TokenLength(s);
      [s[..n]] + Tokens(s[n..])
  }

  /** One space between tokens: the canonical header line. */
  function Unwords(ts: seq<string>): string
  {
    if ts == [] then "" else if |ts| == 1 then ts[0] else ts[0] + " " + Unwords(ts[1..])
  }

  /** Tokenising undoes joining with single spaces, for tokens of non-space characters. */
  lemma {:induction false} TokensUnwords(ts: seq<string>)
    requires forall i :: 0 <= i < |ts| ==> |ts[i]| > 0 && forall k :: 0 <= k < |ts[i]| ==> !IsSpace(ts[i][k])
    ensures Tokens(Unwords(ts)) == ts
  {
    if |ts| == 1 {
      TokenOnly(ts[0], "");
      assert ts[0] + "" == ts[0];
    } else if |ts| > 1 {
      var tail := ts[1..];
      assert forall i :: 0 <= i < |tail| ==> tail[i] == ts[i + 1];
      TokensUnwords(tail);
      var u := Unwords(tail);
      var rest := " " + u;
      assert rest[1..] == u;
      assert Tokens(rest) == Tokens(u);
      TokenOnly(ts[0], rest);
      assert Unwords(ts) == ts[0] + rest;
    }
  }

  /** A token followed by nothing or by text starting with a space. */
  lemma {:induction false} TokenOnly(t: string, rest: string)
    requires |t| > 0 && forall k :: 0 <= k < |t| ==> !IsSpace(t[k])
    requires rest == [] || IsSpace(rest[0])
    ensures Tokens(t + rest) == [t] + Tokens(rest)
  {
    TokenLengthOf(t, rest);
    assert (t + rest)[..|t|] == t;
    assert (t + rest)[|t|..] == rest;
  }

  lemma {:induction false} TokenLengthOf(t: string, rest: string)
    requires forall k :: 0 <= k < |t| ==> !IsSpace(t[k])
    requires rest == [] || IsSpace(rest[0])
    ensures TokenLength(t + rest) == |t|
    decreases |t|
  {
    if t != [] {
      assert (t + rest)[1..] == t[1..] + rest;
      TokenLengthOf(t[1..], rest);
    } else {
      assert t + rest == rest;
    }
  }

  /** The k-th token of a line, or the empty string when the extraction fails. */
  function TokenAt(line: string, k: nat): string
  {
    var ts := Tokens(line);
    if k < |ts| then ts[k] else ""
  }

  /**
   * `iss >> n` for a 32-bit int, given the token it meets: an optional sign
   * and the leading digits; a token with no digits stores 0 and a value out
   * of range stores the nearest bound.
   */
  function ExtractInt(t: string): (n: int)
    ensures IntMin <= n <= IntMax
  {
    var v := if t != [] && t[0] == '-' then -(LeadingValue(t[1..]) as int)
             else if t != [] && t[0] == '+' then LeadingValue(t[1..])
             else LeadingValue(t);
    if v > IntMax then IntMax else if v < IntMin then IntMin else v
  }

  // --------------------------------------------------------------- header

  datatype PlyProperty = PlyProperty(typ: string, name: string)

  datatype PlyHeader = PlyHeader(
    format: string, numVertices: int, numFaces: int,
    vertexProperties: seq<PlyProperty>, faceProperties: seq<PlyProperty>)

  /**
   * The count an `element <kind> k` line stores with `iss >> n`; a line
   * without the count token stores nothing.
   */
  function ElementCount(line: string, kind: string): Option<int>
  {
    if TokenAt(line, 0) == "element" && TokenAt(line, 1) == kind && |Tokens(line)| > 2
    then Some(ExtractInt(Tokens(line)[2])) else None
  }

  /** The count a line stores, or the current one when it stores none. */
  function CountOr(c: Option<int>, current: int): int
  {
    if c.Some? then c.value else current
  }

  /** What reading one header line does to the header and the property count. */
  datatype LineEffect = Continue(header: PlyHeader, count: nat) | EndOfHeader

  /**
   * One iteration of the header loop (GSScene.cpp:175-211): `ply` and
   * unknown first tokens change nothing; `format` and `element vertex` /
   * `element face` store the next token (a count that is missing leaves the
   * old value); `property` counts the line and files the property under the
   * vertex element while there are fewer vertex properties than vertices;
   * `end_header` ends the loop.
   */
  function HeaderLine(h: PlyHeader, count: nat, line: string): (e: LineEffect)
    ensures TokenAt(line, 0) == "end_header" <==> e.EndOfHeader?
    ensures e.Continue? ==> e.count == count + (if TokenAt(line, 0) == "property" then 1 else 0)
    ensures e.Continue? ==>
      |e.header.vertexProperties| + |e.header.faceProperties| ==
      |h.vertexProperties| + |h.faceProperties| + (e.count - count)
    ensures e.Continue? ==> e.header.numVertices == CountOr(ElementCount(line, "vertex"), h.numVertices)
    ensures e.Continue? ==> e.header.numFaces == CountOr(ElementCount(line, "face"), h.numFaces)
    ensures TokenAt(line, 0) == "property" && |h.vertexProperties| < SizeT(h.numVertices) ==>
      e == Continue(h.(vertexProperties := h.vertexProperties + [PlyProperty(TokenAt(line, 1), TokenAt(line, 2))]), count + 1)
    ensures TokenAt(line, 0) == "property" && |h.vertexProperties| >= SizeT(h.numVertices) ==>
      e == Continue(h.(faceProperties := h.faceProperties + [PlyProperty(TokenAt(line, 1), TokenAt(line, 2))]), count + 1)
    ensures TokenAt(line, 0) == "element" ==>
      e == Continue(h.(numVertices := e.header.numVertices, numFaces := e.header.numFaces), count)
    ensures TokenAt(line, 0) == "format" ==>
      e == Continue(if |Tokens(line)| > 1 then h.(format := TokenAt(line, 1)) else h, count)
    ensures TokenAt(line, 0) !in {"format", "element", "property", "end_header"} ==> e == Continue(h, count)
  {
    var ts := Tokens(line);
    var first := TokenAt(line, 0);
    if first == "format" then
      Continue(if |ts| > 1 then h.(format := ts[1]) else h, count)
    else if first == "element" then
      if TokenAt(line, 1) == "vertex" && |ts| > 2 then Continue(h.(numVertices := ExtractInt(ts[2])), count)
      else if TokenAt(line, 1) == "face" && |ts| > 2 then Continue(h.(numFaces := ExtractInt(ts[2])), count)
      else Continue(h, count)
    else if first == "property" then
      var p := PlyProperty(TokenAt(line, 1), TokenAt(line, 2));
      if |h.vertexProperties| < SizeT(h.numVertices) then
        Continue(h.(vertexProperties := h.vertexProperties + [p]), count + 1)
      else
        Continue(h.(faceProperties := h.faceProperties + [p]), count + 1)
    else if first == "end_header" then EndOfHeader
    else Continue(h, count)
  }

  /** The header as read, the property count and the stream position after `end_header`. */
  datatype HeaderScan = HeaderScan(header: PlyHeader, count: nat, pos: nat)

  /** Reference definition of the header loop from pos, as a recursion over the lines. */
  function ScanHeader(s: string, pos: nat, h: PlyHeader, count: nat): (r: Result<HeaderScan>)
    requires pos <= |s|
    ensures r.Ok? ==> pos < r.value.pos <= |s|
    decreases |s| - pos
  {
    if pos == |s| then Err("Could not find end of header")
    else
      var (line, next) := GetLine(s, pos);
      match HeaderLine(h, count, line)
      case EndOfHeader => Ok(HeaderScan(h, count, next))
      case Continue(h', count') => ScanHeader(s, next, h', count')
  }

  /**
   * Independent reference for where the header ends: the position after the
   * first line whose first token is `end_header`, if any.
   */
  function EndOfHeaderFrom(s: string, pos: nat): (r: Option<nat>)
    requires pos <= |s|
    ensures r.Some? ==> pos < r.value <= |s|
    decreases |s| - pos
  {
    if pos == |s| then None
    else
      var (line, next) := GetLine(s, pos);
      if TokenAt(line, 0) == "end_header" then Some(next) else EndOfHeaderFrom(s, next)
  }

  /**
   * The header loop fails exactly when no line has first token end_header,
   * and otherwise stops right after the first such line; the properties
   * filed under the two elements are exactly the property lines counted.
   */
  lemma {:induction false} ScanHeaderSound(s: string, pos: nat, h: PlyHeader, count: nat)
    requires pos <= |s|
    ensures ScanHeader(s, pos, h, count).Err? <==> EndOfHeaderFrom(s, pos).None?
    ensures ScanHeader(s, pos, h, count).Err? ==> ScanHeader(s, pos, h, count).error == "Could not find end of header"
    ensures ScanHeader(s, pos, h, count).Ok? ==>
      var r := ScanHeader(s, pos, h, count).value;
      && Some(r.pos) == EndOfHeaderFrom(s, pos)
      && r.count >= count
      && |r.header.vertexProperties| + |r.header.faceProperties| ==
         |h.vertexProperties| + |h.faceProperties| + (r.count - count)
    decreases |s| - pos
  {
    if pos < |s| {
      var (line, next) := GetLine(s, pos);
      match HeaderLine(h, count, line)
      case EndOfHeader =>
      case Continue(h', count') =>
        ScanHeaderSound(s, next, h', count');
    }
  }

  /**
   * Reference for an element count after the header: the count of the last
   * `element <kind> k` line before the first end_header line, or n when
   * there is none.
   */
  function LastElementCount(s: string, pos: nat, kind: string, n: int): int
    requires pos <= |s|
    decreases |s| - pos
  {
    if pos == |s| then n
    else
      var (line, next) := GetLine(s, pos);
      if TokenAt(line, 0) == "end_header" then n
      else LastElementCount(s, next, kind, CountOr(ElementCount(line, kind), n))
  }

  /** A successful header scan holds the vertex and face counts of the last element lines. */
  lemma {:induction false} ScanHeaderCounts(s: string, pos: nat, h: PlyHeader, count: nat)
    requires pos <= |s|
    ensures ScanHeader(s, pos, h, count).Ok? ==>
      var r := ScanHeader(s, pos, h, count).value.header;
      && r.numVertices == LastElementCount(s, pos, "vertex", h.numVertices)
      && r.numFaces == LastElementCount(s, pos, "face", h.numFaces)
    decreases |s| - pos
  {
    if pos < |s| {
      var (line, next) := GetLine(s, pos);
      match HeaderLine(h, count, line)
      case EndOfHeader =>
      case Continue(h', count') =>
        ScanHeaderCounts(s, next, h', count');
    }
  }

  /** Record layout 1 (62 properties) or 2 (GSScene.cpp:218). */
  function VertexType(propertyCount: nat): (t: nat)
    ensures t == 1 <==> propertyCount == 62
    ensures t == 1 || t == 2
  {
    if propertyCount == 62 then 1 else 2
  }

  // ------------------------------------------------------ record layouts

  /** The four bytes of a float, in memory order. */
  datatype Word = Word(b0: char, b1: char, b2: char, b3: char)

  /** 1.0f on a little-endian host: 0x3F800000. */
  const OneF: Word := Word(0 as char, 0 as char, 0x80 as char, 0x3F as char)

  /** The fields of VertexStorage or VertexStorage2, as float words. */
  datatype VertexStorage = VertexStorage(
    position: seq<Word>, scale: seq<Word>, opacity: Word, rotation: seq<Word>, shs: seq<Word>)

  /** Offsets and lengths, in floats, of each field (GSScene.cpp:20-35). */
  datatype FieldLayout = FieldLayout(position: nat, normal: nat, shs: nat, opacity: nat, scale: nat, rotation: nat, total: nat)

  /**
   * VertexStorage: position 3, normal 3, shs 48, opacity 1, scale 3, rotation 4.
   * VertexStorage2: position 3, scale 3, opacity 1, rotation 4, shs 48 (no normal).
   */
  function Layout(vertexType: nat): (l: FieldLayout)
    ensures vertexType == 1 ==> l.total == 3 + 3 + 48 + 1 + 3 + 4 == 62
    ensures vertexType != 1 ==> l.total == 3 + 3 + 1 + 4 + 48 == 59
    ensures l.position + 3 <= l.total && l.shs + 48 <= l.total && l.opacity < l.total
    ensures l.scale + 3 <= l.total && l.rotation + 4 <= l.total
  {
    if vertexType == 1 then FieldLayout(0, 3, 6, 54, 55, 58, 62)
    else FieldLayout(0, 0, 11, 6, 3, 7, 59)
  }

  /** A record layout tiles its floats: the fields are disjoint and together cover the record exactly. */
  lemma LayoutTiles(vertexType: nat)
    ensures var l := Layout(vertexType);
      if vertexType == 1 then
        l.position + 3 == l.normal && l.normal + 3 == l.shs && l.shs + 48 == l.opacity
        && l.opacity + 1 == l.scale && l.scale + 3 == l.rotation && l.rotation + 4 == l.total
      else
        l.position + 3 == l.scale && l.scale + 3 == l.opacity && l.opacity + 1 == l.rotation
        && l.rotation + 4 == l.shs && l.shs + 48 == l.total
  {
  }

  function Words(b: string): (w: seq<Word>)
    requires |b| % 4 == 0
    ensures |w| == |b| / 4
    ensures forall i :: 0 <= i < |w| ==> w[i] == Word(b[4 * i], b[4 * i + 1], b[4 * i + 2], b[4 * i + 3])
    decreases |b|
  {
    if b == [] then [] else
      var w := [Word(b[0], b[1], b[2], b[3])] + Words(b[4..]);
      assert forall i :: 1 <= i < |w| ==> 4 * i == 4 * (i - 1) + 4;
      w
  }

  /**
   * istream::read of n bytes into a zero-initialised struct at pos: the
   * bytes that are left, then the zeros the short read leaves in place.
   */
  function ReadBytes(s: string, pos: nat, n: nat): (b: string)
    ensures |b| == n
    ensures forall k :: 0 <= k < n ==> b[k] == if pos + k < |s| then s[pos + k] else 0 as char
  {
    if pos >= |s| then seq(n, _ => 0 as char)
    else if pos + n <= |s| then s[pos..pos + n]
    else s[pos..] + seq(pos + n - |s|, _ => 0 as char)
  }

  /** The fields of a record of the given layout. */
  function Storage(w: seq<Word>, vertexType: nat): (st: VertexStorage)
    requires |w| == Layout(vertexType).total
    ensures |st.position| == 3 && |st.scale| == 3 && |st.rotation| == 4 && |st.shs| == 48
  {
    var l := Layout(vertexType);
    VertexStorage(w[l.position..l.position + 3], w[l.scale..l.scale + 3], w[l.opacity],
                  w[l.rotation..l.rotation + 4], w[l.shs..l.shs + 48])
  }

  // ------------------------------------------------------ SH reordering

  /**
   * The source coefficient slot for destination slot d (GSScene.cpp:76-84):
   * the three DC terms stay; for band coefficient j in 1..15 the source
   * holds the 15 red, then 15 green, then 15 blue rest terms.
   */
  function ShSource(d: nat): (s: nat)
    requires d < 48
    ensures s < 48
  {
    if d < 3 then d
    else if d % 3 == 0 then d / 3 - 1 + 3
    else if d % 3 == 1 then d / 3 - 1 + 16 + 2
    else d / 3 - 1 + 16 * 2 + 1
  }

  /** The inverse map: where source slot s ends up. */
  function ShDestination(s: nat): (d: nat)
    requires s < 48
    ensures d < 48
  {
    if s < 3 then s
    else if s < 18 then 3 * (s - 2)
    else if s < 33 then 3 * (s - 17) + 1
    else 3 * (s - 32) + 2
  }

  /** The reorder is a bijection of the 48 slots: ShDestination undoes ShSource both ways. */
  lemma ShReorderBijective(d: nat, s: nat)
    requires d < 48 && s < 48
    ensures ShDestination(ShSource(d)) == d
    ensures ShSource(ShDestination(s)) == s
  {
  }

  /** Two destination slots never read the same source slot. */
  lemma ShSourceInjective(d1: nat, d2: nat)
    requires d1 < 48 && d2 < 48 && ShSource(d1) == ShSource(d2)
    ensures d1 == d2
  {
    ShReorderBijective(d1, 0);
    ShReorderBijective(d2, 0);
  }

  /** GSScene::Vertex as uploaded: the homogeneous position and the reordered coefficients, the rest raw. */
  datatype Vertex = Vertex(position: seq<Word>, scale: seq<Word>, opacity: Word, rotation: seq<Word>, shs: seq<Word>)

  /** The loop of GSScene.cpp:76-84 filling vertex->shs in place. */
  method ReorderShs(src: seq<Word>, dst: array<Word>)
    requires |src| == 48 && dst.Length == 48
    modifies dst
    ensures forall d :: 0 <= d < 48 ==> dst[d] == src[ShSource(d)]
  {
    dst[0] := src[0];
    dst[1] := src[1];
    dst[2] := src[2];
    var shN := 16;
    var j := 1;
    while j < shN
      invariant 1 <= j <= shN
      invariant forall d :: 0 <= d < 3 * j ==> dst[d] == src[ShSource(d)]
    {
      dst[j * 3 + 0] := src[(j - 1) + 3];
      dst[j * 3 + 1] := src[(j - 1) + shN + 2];
      dst[j * 3 + 2] := src[(j - 1) + shN * 2 + 1];
      j := j + 1;
    }
  }

  /** readVertexInto (GSScene.cpp:55-91): one record of the chosen layout read at pos. */
  method ReadVertex(s: string, pos: nat, vertexType: nat) returns (v: Vertex, next: nat)
    ensures next == pos + 4 * Layout(vertexType).total
    ensures var st := Storage(Words(ReadBytes(s, pos, 4 * Layout(vertexType).total)), vertexType);
      && v.position == st.position + [OneF] && v.scale == st.scale && v.opacity == st.opacity
      && v.rotation == st.rotation
      && |v.shs| == 48 && forall d :: 0 <= d < 48 ==> v.shs[d] == st.shs[ShSource(d)]
    ensures v == VertexAt(s, pos, vertexType)
  {
    var size := 4 * Layout(vertexType).total;
    var st := Storage(Words(ReadBytes(s, pos, size)), vertexType);
    var shs := new Word[48](_ => OneF);
    ReorderShs(st.shs, shs);
    v := Vertex(st.position + [OneF], st.scale, st.opacity, st.rotation, shs[..]);
    assert v.shs == seq(48, d requires 0 <= d < 48 => st.shs[ShSource(d)]);
    next := pos + size;
  }

  /** The vertex a record at pos becomes. */
  function VertexAt(s: string, pos: nat, vertexType: nat): (v: Vertex)
  {
    var st := Storage(Words(ReadBytes(s, pos, 4 * Layout(vertexType).total)), vertexType);
    Vertex(st.position + [OneF], st.scale, st.opacity, st.rotation,
           seq(48, d requires 0 <= d < 48 => st.shs[ShSource(d)]))
  }

  /**
   * A record's vertex keeps its three position words with w = 1.0 appended,
   * and every one of the 48 stored coefficients reaches its own slot of shs.
   */
  lemma VertexAtCoefficients(s: string, pos: nat, vertexType: nat)
    ensures var st := Storage(Words(ReadBytes(s, pos, 4 * Layout(vertexType).total)), vertexType);
      var v := VertexAt(s, pos, vertexType);
      && |v.position| == 4 && v.position[..3] == st.position && v.position[3] == OneF
      && |v.shs| == 48
      && forall j :: 0 <= j < 48 ==> v.shs[ShDestination(j)] == st.shs[j]
  {
    var st := Storage(Words(ReadBytes(s, pos, 4 * Layout(vertexType).total)), vertexType);
    var v := VertexAt(s, pos, vertexType);
    forall j | 0 <= j < 48
      ensures v.shs[ShDestination(j)] == st.shs[j]
    {
      ShReorderBijective(0, j);
    }
  }

  /**
   * The record loop of load (GSScene.cpp:128-130): count records of the
   * given layout read one after another from start, a negative count
   * reading none.
   */
  method ReadRecords(s: string, start: nat, vertexType: nat, count: int) returns (vs: seq<Vertex>)
    ensures |vs| == if count > 0 then count else 0
    ensures forall i :: 0 <= i < |vs| ==> vs[i] == VertexAt(s, start + i * (4 * Layout(vertexType).total), vertexType)
  {
    var size := 4 * Layout(vertexType).total;
    var pos := start;
    vs := [];
    var i := 0;
    while i < count
      invariant 0 <= i && |vs| == i
      invariant if count > 0 then i <= count else i == 0
      invariant pos == start + i * size
      invariant forall k :: 0 <= k < i ==> vs[k] == VertexAt(s, start + k * size, vertexType)
      decreases count - i
    {
      var v, next := ReadVertex(s, pos, vertexType);
      assert (i + 1) * size == i * size + size;
      vs := vs + [v];
      pos := next;
      i := i + 1;
    }
  }

  /**
   * The scene: its asset bytes, the header as parsed so far and the
   * vertices written to the staging buffer. The header's counts are
   * indeterminate in the source until an element line sets them; here they
   * start at 0.
   */
  class GSScene {
    const assetContent: string
    var header: PlyHeader
    var vertices: seq<Vertex>

    constructor (assetContent: string)
      ensures this.assetContent == assetContent && header == PlyHeader("", 0, 0, [], []) && vertices == []
    {
      this.assetContent := assetContent;
      header := PlyHeader("", 0, 0, [], []);
      vertices := [];
    }

    /**
     * loadPlyHeader (GSScene.cpp:170-219) on the stream at its start:
     * it reads lines until end_header, updating the header; it fails if
     * there is none, and otherwise answers the record layout and where
     * the records begin.
     */
    method LoadPlyHeader() returns (r: Result<nat>, pos: nat)
      modifies this
      ensures vertices == old(vertices)
      ensures var scan := ScanHeader(assetContent, 0, old(header), 0);
        && (scan.Err? <==> r.Err?)
        && (r.Err? ==> r.error == "Could not find end of header")
        && (r.Ok? ==> header == scan.value.header && pos == scan.value.pos
                      && r.value == VertexType(scan.value.count))
    {
      pos := 0;
      var propertyCount := 0;
      var headerEnd := false;
      while pos < |assetContent|
        invariant pos <= |assetContent| && vertices == old(vertices)
        invariant ScanHeader(assetContent, pos, header, propertyCount) == ScanHeader(assetContent, 0, old(header), 0)
        decreases |assetContent| - pos
      {
        var (line, next) := GetLine(assetContent, pos);
        var effect := HeaderLine(header, propertyCount, line);
        pos := next;
        if effect.EndOfHeader? {
          headerEnd := true;
          break;
        }
        header, propertyCount := effect.header, effect.count;
      }
      if !headerEnd {
        return Err("Could not find end of header"), pos;
      }
      r := Ok(VertexType(propertyCount));
    }

    /**
     * load without the upload (GSScene.cpp:118-136): the header, then
     * numVertices records in order into consecutive vertex slots; a
     * negative count reads none.
     */
    method Load() returns (r: Result<nat>)
      modifies this
      ensures r.Err? <==> ScanHeader(assetContent, 0, old(header), 0).Err?
      ensures r.Ok? ==>
        var scan := ScanHeader(assetContent, 0, old(header), 0).value;
        var t := VertexType(scan.count);
        && header == scan.header && r.value == t
        && |vertices| == (if header.numVertices > 0 then header.numVertices else 0)
        && forall i :: 0 <= i < |vertices| ==>
             vertices[i] == VertexAt(assetContent, scan.pos + i * (4 * Layout(t).total), t)
    {
      var headerResult, pos := LoadPlyHeader();
      if headerResult.Err? {
        return Err(headerResult.error);
      }
      var vertexType := headerResult.value;
      vertices := ReadRecords(assetContent, pos, vertexType, header.numVertices);
      r := Ok(vertexType);
    }
  }
}
