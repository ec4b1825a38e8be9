/**
 * The cnpy reader in base_utils: the header dictionary of a NumPy .npy
 * file (format version 1.0) is read from an Android asset, the array is
 * sized from its shape and word size, and the data bytes are read after it;
 * plus the operator+= overloads that append to a std::vector<char>.
 *
 * The asset is its content (a string of bytes) and a read offset. The
 * library exceptions the parser can raise (std::out_of_range from substr
 * and stoi, std::invalid_argument from stoi) carry fixed messages here,
 * since their what() text is implementation-defined.
 */
module Npy {
  import opened Wrappers
  import opened Text

  function Min(a: nat, b: nat): nat
  {
    if a <= b then a else b
  }

  // ------------------------------------------------------------- messages

  const PreambleReadFailed := "parse_npy_header: failed AAsset_read"
  const MissingFortranOrder := "parse_npy_header: failed to find header keyword: 'fortran_order'"
  const MissingParentheses := "parse_npy_header: failed to find header keyword: '(' or ')'"
  const MissingDescr := "parse_npy_header: failed to find header keyword: 'descr'"
  const DataReadFailed := "load_the_npy_file: failed AAsset_read"
  const UnableToOpen := "npy_load: Unable to open file "
  const SubstrOutOfRange := "std::out_of_range (basic_string::substr)"
  const StoiInvalidArgument := "std::invalid_argument (stoi)"
  const StoiOutOfRange := "std::out_of_range (stoi)"

  const FortranKey := "fortran_order"
  const DescrKey := "descr"

  // --------------------------------------------------------------- assets

  /** An opened asset: its bytes and the offset AAsset_read advances. */
  class Asset {
    const content: string
    var offset: nat

    ghost predicate Valid()
      reads this
    {
      offset <= |content|
    }

    constructor (content: string)
      ensures Valid() && this.content == content && offset == 0
    {
      this.content := content;
      offset := 0;
    }

    /** AAsset_read: copies up to count bytes from the offset on and moves past them. */
    method Read(count: nat) returns (bytes: string)
      requires Valid()
      modifies this
      ensures Valid()
      ensures bytes == content[old(offset)..Min(old(offset) + count, |content|)]
      ensures offset == old(offset) + |bytes|
    {
      var end := Min(offset + count, |content|);
      bytes := content[offset..end];
      offset := end;
    }
  }

  /**
   * AAsset_getline (base_utils.cpp): reads one byte at a time until a
   * newline, which is consumed and not returned, or the end of the asset.
   */
  method GetLine(asset: Asset) returns (line: string)
    requires asset.Valid()
    modifies asset
    ensures asset.Valid()
    ensures (line, asset.offset) == NextLine(asset.content, old(asset.offset))
  {
    line := "";
    ghost var start := asset.offset;
    while true
      invariant asset.Valid() && start <= asset.offset
      invariant start + |line| == asset.offset
      invariant asset.content[start..asset.offset] == line
      invariant '\n' !in line
      decreases |asset.content| - asset.offset
    {
      var c := asset.Read(1);
      if |c| != 1 {
        break;
      }
      if c[0] == '\n' {
        break;
      }
      assert asset.content[start..asset.offset] == line + c;
      line := line + c;
    }
    assert LineEnd(asset.content, start) == start + |line|;
  }

  // ------------------------------------------------------- library calls

  /** std::string::substr(pos, count): out_of_range when pos is past the end; the count is clamped. */
  function Substr(s: string, pos: nat, count: nat): (r: Result<string>)
    ensures r.Err? <==> pos > |s|
    ensures r.Ok? ==> |r.value| <= count && pos + |r.value| <= |s| && s[pos..pos + |r.value|] == r.value
    ensures r.Ok? ==> |r.value| == count || pos + |r.value| == |s|
  {
    if pos > |s| then Err(SubstrOutOfRange) else Ok(s[pos..Min(pos + count, |s|)])
  }

  /**
   * std::stoi: leading white space, an optional sign, then at least one
   * decimal digit; no digit is invalid_argument and a value outside int is
   * out_of_range.
   */
  function Stoi(s: string): (r: Result<int>)
    ensures r.Ok? ==> IntMin <= r.value <= IntMax
    ensures r.Err? ==> r.error == StoiInvalidArgument || r.error == StoiOutOfRange
  {
    var t := s[SpacesLength(s)..];
    var signed := t != [] && (t[0] == '-' || t[0] == '+');
    var body := if signed then t[1..] else t;
    var n := DigitsLength(body);
    if n == 0 then Err(StoiInvalidArgument)
    else
      var v: int := if signed && t[0] == '-' then -(DecimalValue(body[..n]) as int) else DecimalValue(body[..n]);
      if v < IntMin || v > IntMax then Err(StoiOutOfRange) else Ok(v)
  }

  /** stoi of a digit string followed by a non-digit reads exactly that string. */
  lemma StoiDigits(d: string, rest: string)
    requires |d| > 0 && AllDigits(d)
    requires rest == [] || !IsDigit(rest[0])
    ensures Stoi(d + rest) == if DecimalValue(d) <= IntMax then Ok(DecimalValue(d)) else Err(StoiOutOfRange)
  {
    var s := d + rest;
    assert s[0] == d[0];
    DigitsLengthOf(d, rest);
    assert s[..|d|] == d;
    StoiUnsigned(s);
  }

  /** stoi of text that starts with a digit reads its leading digit run. */
  lemma StoiUnsigned(s: string)
    requires s != [] && IsDigit(s[0])
    ensures var v := DecimalValue(s[..DigitsLength(s)]);
      Stoi(s) == if v <= IntMax then Ok(v) else Err(StoiOutOfRange)
  {
    assert SpacesLength(s) == 0;
    assert s[0..] == s;
  }

  // ---------------------------------------------------------------- shape

  /**
   * The maximal runs of decimal digits of s, in order: what successive
   * regex_search calls for [0-9][0-9]* match, each on the suffix left by the
   * one before.
   */
  function DigitRuns(s: string): (runs: seq<string>)
    ensures forall i :: 0 <= i < |runs| ==> |runs[i]| > 0 && AllDigits(runs[i])
    decreases |s|
  {
    if s == [] then []
    else if !IsDigit(s[0]) then DigitRuns(s[1..])
    else
      var n := DigitsLength(s);
      [s[..n]] + DigitRuns(s[n..])
  }

  /** One regex_search for [0-9][0-9]*: where the leftmost match starts and how long it is. */
  function SearchDigits(s: string): (m: Option<(nat, nat)>)
    ensures m.Some? ==> m.value.1 > 0 && m.value.0 + m.value.1 <= |s|
    decreases |s|
  {
    if s == [] then None
    else if IsDigit(s[0]) then Some((0, DigitsLength(s)))
    else match SearchDigits(s[1..])
      case None => None
      case Some((start, len)) => Some((start + 1, len))
  }

  /** A search yields the first run, and the runs of its suffix are the rest. */
  lemma {:induction false} SearchDigitsRuns(s: string)
    ensures SearchDigits(s).None? ==> DigitRuns(s) == []
    ensures SearchDigits(s).Some? ==>
      var (start, len) := SearchDigits(s).value;
      DigitRuns(s) == [s[start..start + len]] + DigitRuns(s[start + len..])
    decreases |s|
  {
    if s != [] && !IsDigit(s[0]) {
      SearchDigitsRuns(s[1..]);
      if SearchDigits(s[1..]).Some? {
        var (start, len) := SearchDigits(s[1..]).value;
        assert s[1..][start..start + len] == s[start + 1..start + 1 + len];
        assert s[1..][start + len..] == s[start + 1 + len..];
      }
    }
  }

  /** The shape entries: each run through stoi, which throws for a value above INT_MAX. */
  function RunValues(runs: seq<string>): Result<seq<nat>>
    requires forall i :: 0 <= i < |runs| ==> AllDigits(runs[i])
  {
    if runs == [] then Ok([])
    else if DecimalValue(runs[0]) > IntMax then Err(StoiOutOfRange)
    else
      var rest := RunValues(runs[1..]);
      if rest.Err? then rest else Ok([DecimalValue(runs[0])] + rest.value)
  }

  /** The values succeed iff every run fits an int, and then they are the runs' values in order. */
  lemma {:induction false} RunValuesMeaning(runs: seq<string>)
    requires forall i :: 0 <= i < |runs| ==> AllDigits(runs[i])
    ensures RunValues(runs).Ok? <==> forall i :: 0 <= i < |runs| ==> DecimalValue(runs[i]) <= IntMax
    ensures RunValues(runs).Ok? ==> |RunValues(runs).value| == |runs|
    ensures RunValues(runs).Ok? ==> forall i :: 0 <= i < |runs| ==> RunValues(runs).value[i] == DecimalValue(runs[i])
    ensures RunValues(runs).Err? ==> RunValues(runs).error == StoiOutOfRange
    decreases |runs|
  {
    if runs != [] {
      RunValuesMeaning(runs[1..]);
      assert forall i :: 1 <= i < |runs| ==> runs[i] == runs[1..][i - 1];
    }
  }

  function Prefixed(p: seq<nat>, r: Result<seq<nat>>): Result<seq<nat>>
  {
    if r.Ok? then Ok(p + r.value) else r
  }

  /** One turn of the regex loop: the first run's value, then the values of the runs after it. */
  lemma RunValuesStep(s: string, start: nat, len: nat)
    requires SearchDigits(s) == Some((start, len))
    ensures |s[start..start + len]| > 0 && AllDigits(s[start..start + len])
    ensures var run := s[start..start + len];
      RunValues(DigitRuns(s)) ==
        if DecimalValue(run) > IntMax then Err(StoiOutOfRange)
        else Prefixed([DecimalValue(run)], RunValues(DigitRuns(s[start + len..])))
  {
    SearchDigitsRuns(s);
    var run := s[start..start + len];
    var tail := DigitRuns(s[start + len..]);
    assert DigitRuns(s) == [run] + tail;
    assert ([run] + tail)[0] == run;
    RunValuesCons(run, tail);
  }

  lemma RunValuesCons(run: string, tail: seq<string>)
    requires AllDigits(run)
    requires forall i :: 0 <= i < |tail| ==> AllDigits(tail[i])
    ensures RunValues([run] + tail) ==
      if DecimalValue(run) > IntMax then Err(StoiOutOfRange) else Prefixed([DecimalValue(run)], RunValues(tail))
  {
    var runs := [run] + tail;
    assert runs[0] == run && runs[1..] == tail;
  }

  lemma PrefixedPrefixed(p: seq<nat>, q: seq<nat>, r: Result<seq<nat>>)
    ensures Prefixed(p, Prefixed(q, r)) == Prefixed(p + q, r)
  {
    if r.Ok? {
      assert p + (q + r.value) == (p + q) + r.value;
    }
  }

  // --------------------------------------------------------------- header

  datatype NpyHeader = NpyHeader(wordSize: nat, shape: seq<nat>, fortranOrder: bool)

  /**
   * fortran_order: whether the four characters 16 past the keyword (past
   * its closing quote, the colon and a space) read "True".
   */
  function FortranOrderField(header: string): (r: Result<bool>)
    ensures Find(header, FortranKey).None? ==> r == Err(MissingFortranOrder)
    ensures Find(header, FortranKey).Some? ==>
      var at := Find(header, FortranKey).value + 16;
      (r.Err? <==> at > |header|) && (r.Err? ==> r.error == SubstrOutOfRange) &&
      (r.Ok? ==> (r.value <==> MatchAt(header, "True", at)))
  {
    match Find(header, FortranKey)
    case None => Err(MissingFortranOrder)
    case Some(f) =>
      match Substr(header, f + 16, 4)
      case Err(e) => Err(e)
      case Ok(word) => Ok(word == "True")
  }

  /**
   * The text between the first '(' and the first ')' of the header. When
   * the ')' comes first the substr count wraps around and the text runs to
   * the end of the header.
   */
  function ShapeTextField(header: string): (r: Result<string>)
    ensures r.Err? <==> Find(header, "(").None? || Find(header, ")").None?
    ensures r.Err? ==> r.error == MissingParentheses
    ensures r.Ok? && |header| < SizeModulus ==>
      var open := Find(header, "(").value;
      var close := Find(header, ")").value;
      (open < close ==> r.value == header[open + 1..close]) &&
      (close < open ==> r.value == header[open + 1..])
  {
    var open := Find(header, "(");
    var close := Find(header, ")");
    if open.None? || close.None? then Err(MissingParentheses)
    else
      var count := SizeT(close.value as int - open.value as int - 1);
      assert open.value != close.value by {
        assert header[open.value] == '(' by { assert header[open.value..open.value + 1][0] == header[open.value]; }
        assert header[close.value] == ')' by { assert header[close.value..close.value + 1][0] == header[close.value]; }
      }
      Ok(header[open.value + 1..Min(open.value + 1 + count, |header|)])
  }

  /** The characters of header from at up to the next quote (or the end). */
  function UpToQuote(header: string, at: nat): (d: string)
    requires at <= |header|
    ensures at + |d| <= |header| && header[at..at + |d|] == d
    ensures '\'' !in d
    ensures at + |d| == |header| || header[at + |d|] == '\''
  {
    var strWs := header[at..];
    var quote := Find(strWs, "'");
    if quote.Some? then
      assert strWs[quote.value..quote.value + 1][0] == strWs[quote.value];
      assert forall k :: 0 <= k < quote.value ==> strWs[k] != '\'' by {
        forall k | 0 <= k < quote.value
          ensures strWs[k] != '\''
        {
          assert !MatchAt(strWs, "'", k);
          assert strWs[k..k + 1] == [strWs[k]];
        }
      }
      strWs[..quote.value]
    else
      assert forall k :: 0 <= k < |strWs| ==> strWs[k] != '\'' by {
        forall k | 0 <= k < |strWs|
          ensures strWs[k] != '\''
        {
          assert !MatchAt(strWs, "'", k);
          assert strWs[k..k + 1] == [strWs[k]];
        }
      }
      strWs
  }

  /**
   * The word size: stoi of the header from 11 past the descr keyword (past
   * its closing quote, the colon, a space, the opening quote and the
   * byte-order character) up to the next quote, converted to size_t.
   */
  function WordSizeField(header: string): (r: Result<nat>)
    ensures Find(header, DescrKey).None? ==> r == Err(MissingDescr)
    ensures Find(header, DescrKey).Some? ==>
      var at := Find(header, DescrKey).value + 11;
      (at > |header| ==> r == Err(SubstrOutOfRange)) &&
      (at <= |header| && Stoi(UpToQuote(header, at)).Err? ==> r == Err(Stoi(UpToQuote(header, at)).error)) &&
      (at <= |header| && Stoi(UpToQuote(header, at)).Ok? ==> r == Ok(SizeT(Stoi(UpToQuote(header, at)).value)))
  {
    var key := Find(header, DescrKey);
    if key.None? then Err(MissingDescr)
    else
      var at := key.value + 11;
      if at > |header| then Err(SubstrOutOfRange)
      else
        var ws := Stoi(UpToQuote(header, at));
        if ws.Err? then Err(ws.error) else Ok(SizeT(ws.value))
  }

  /** What parse_npy_header makes of the header line, field by field in the source's order. */
  function HeaderFields(header: string): (r: Result<NpyHeader>)
  {
    match FortranOrderField(header)
    case Err(e) => Err(e)
    case Ok(fortranOrder) =>
      match ShapeTextField(header)
      case Err(e) => Err(e)
      case Ok(shapeText) =>
        match ShapeValues(shapeText)
        case Err(e) => Err(e)
        case Ok(shape) =>
          match WordSizeField(header)
          case Err(e) => Err(e)
          case Ok(ws) => Ok(NpyHeader(ws, shape, fortranOrder))
  }

  /**
   * parse_npy_header succeeds exactly when all four fields parse, and then
   * holds each field's value; otherwise it throws the first failure in the
   * order fortran_order, parentheses, a stoi of the shape, descr.
   */
  lemma HeaderFieldsOrder(header: string)
    ensures HeaderFields(header).Ok? <==>
      FortranOrderField(header).Ok? && ShapeTextField(header).Ok? &&
      ShapeValues(ShapeTextField(header).value).Ok? && WordSizeField(header).Ok?
    ensures HeaderFields(header).Ok? ==>
      HeaderFields(header).value ==
        NpyHeader(WordSizeField(header).value, ShapeValues(ShapeTextField(header).value).value, FortranOrderField(header).value)
    ensures FortranOrderField(header).Err? ==> HeaderFields(header) == Err(FortranOrderField(header).error)
    ensures FortranOrderField(header).Ok? && ShapeTextField(header).Err? ==>
      HeaderFields(header) == Err(ShapeTextField(header).error)
    ensures FortranOrderField(header).Ok? && ShapeTextField(header).Ok? && ShapeValues(ShapeTextField(header).value).Err? ==>
      HeaderFields(header) == Err(ShapeValues(ShapeTextField(header).value).error)
    ensures (FortranOrderField(header).Ok? && ShapeTextField(header).Ok? && ShapeValues(ShapeTextField(header).value).Ok? &&
             WordSizeField(header).Err?) ==> HeaderFields(header) == Err(WordSizeField(header).error)
  {
  }

  /** Bytes the header occupies from pos: the 11 preamble bytes and the header line with its newline. */
  function DataOffset(s: string, pos: nat): nat
    requires pos + 11 <= |s|
  {
    NextLine(s, pos + 11).1
  }

  /** parse_npy_header on an asset whose offset is pos. */
  function HeaderAt(s: string, pos: nat): (r: Result<NpyHeader>)
    requires pos <= |s|
    ensures pos + 11 > |s| ==> r == Err(PreambleReadFailed)
  {
    if pos + 11 > |s| then Err(PreambleReadFailed) else HeaderFields(NextLine(s, pos + 11).0)
  }

  /** The values of the digit runs of a shape text. */
  function ShapeValues(text: string): Result<seq<nat>>
  {
    RunValues(DigitRuns(text))
  }

  /**
   * The shape loop reads every maximal digit run of the text, in order; it
   * fails, with stoi's out_of_range, exactly when some run exceeds INT_MAX.
   */
  lemma ShapeValuesMeaning(text: string)
    ensures var runs, v := DigitRuns(text), ShapeValues(text);
      && (v.Ok? <==> forall i :: 0 <= i < |runs| ==> DecimalValue(runs[i]) <= IntMax)
      && (v.Ok? ==> |v.value| == |runs| && forall i :: 0 <= i < |runs| ==> v.value[i] == DecimalValue(runs[i]))
      && (v.Err? ==> v.error == StoiOutOfRange)
  {
    var runs := DigitRuns(text);
    RunValuesMeaning(runs);
    assert ShapeValues(text) == RunValues(runs);
    assert forall i :: 0 <= i < |runs| ==> runs[i] == DigitRuns(text)[i];
  }

  /** One turn of the shape loop: stoi of the match either fails the parse or adds its value to those read. */
  lemma ShapeLoopTurn(shapeText: string, shape: seq<nat>, strShape: string, start: nat, len: nat)
    requires ShapeValues(shapeText) == Prefixed(shape, ShapeValues(strShape))
    requires SearchDigits(strShape) == Some((start, len))
    ensures var v := Stoi(strShape[start..start + len]);
      (v.Err? ==> ShapeValues(shapeText) == Err(v.error)) &&
      (v.Ok? ==> 0 <= v.value && ShapeValues(shapeText) == Prefixed(shape + [v.value], ShapeValues(strShape[start + len..])))
  {
    var run := strShape[start..start + len];
    RunValuesStep(strShape, start, len);
    StoiRun(run);
    if DecimalValue(run) <= IntMax {
      PrefixedPrefixed(shape, [DecimalValue(run)], ShapeValues(strShape[start + len..]));
    }
  }

  /** When the search finds no more digits, the values read so far are all there are. */
  lemma ShapeLoopEnd(shapeText: string, shape: seq<nat>, strShape: string)
    requires ShapeValues(shapeText) == Prefixed(shape, ShapeValues(strShape))
    requires SearchDigits(strShape).None?
    ensures ShapeValues(shapeText) == Ok(shape)
  {
    SearchDigitsRuns(strShape);
    assert shape + [] == shape;
  }

  /** stoi of a whole digit run. */
  lemma StoiRun(run: string)
    requires |run| > 0 && AllDigits(run)
    ensures Stoi(run) == if DecimalValue(run) <= IntMax then Ok(DecimalValue(run)) else Err(StoiOutOfRange)
  {
    StoiDigits(run, "");
    assert run + "" == run;
  }

  /** The regex loop of parse_npy_header: the digit runs of the shape text, each read by stoi. */
  method ParseShape(shapeText: string) returns (r: Result<seq<nat>>)
    ensures r == ShapeValues(shapeText)
  {
    var strShape := shapeText;
    var shape: seq<nat> := [];
    assert ShapeValues(shapeText) == Prefixed(shape, ShapeValues(strShape)) by {
      if ShapeValues(shapeText).Ok? {
        assert [] + ShapeValues(shapeText).value == ShapeValues(shapeText).value;
      }
    }
    while true
      invariant ShapeValues(shapeText) == Prefixed(shape, ShapeValues(strShape))
      decreases |strShape|
    {
      var m := SearchDigits(strShape);
      if m.None? {
        ShapeLoopEnd(shapeText, shape, strShape);
        break;
      }
      var (start, len) := m.value;
      ShapeLoopTurn(shapeText, shape, strShape, start, len);
      var v := Stoi(strShape[start..start + len]);
      if v.Err? {
        return Err(v.error);
      }
      shape := shape + [v.value];
      strShape := strShape[start + len..];
    }
    r := Ok(shape);
  }

  /** parse_npy_header (base_utils.cpp): the preamble, the header line, then its three fields. */
  method ParseNpyHeader(asset: Asset) returns (r: Result<NpyHeader>)
    requires asset.Valid()
    modifies asset
    ensures asset.Valid()
    ensures r == HeaderAt(asset.content, old(asset.offset))
    ensures r.Ok? ==> old(asset.offset) + 11 <= |asset.content| && asset.offset == DataOffset(asset.content, old(asset.offset))
  {
    var preamble := asset.Read(11);
    if |preamble| != 11 {
      return Err(PreambleReadFailed);
    }
    var header := GetLine(asset);
    var fortranOrder := FortranOrderField(header);
    if fortranOrder.Err? {
      return Err(fortranOrder.error);
    }
    var shapeText := ShapeTextField(header);
    if shapeText.Err? {
      return Err(shapeText.error);
    }
    var shape := ParseShape(shapeText.value);
    if shape.Err? {
      return Err(shape.error);
    }
    var ws := WordSizeField(header);
    if ws.Err? {
      return Err(ws.error);
    }
    r := Ok(NpyHeader(ws.value, shape.value, fortranOrder.value));
  }

  // ---------------------------------------------------------------- array

  /**
   * cnpy::NpyArray. data is the shared data holder, None for the default
   * constructor, which allocates none.
   */
  datatype NpyArray = NpyArray(data: Option<seq<char>>, shape: seq<nat>, wordSize: nat, fortranOrder: bool, numVals: nat)

  /** The product of the shape entries (1 for an empty shape). */
  function Product(shape: seq<nat>): nat
  {
    if shape == [] then 1 else Product(shape[..|shape| - 1]) * shape[|shape| - 1]
  }

  /** The same product in size_t arithmetic: every step modulo 2^64. */
  function SizeProduct(shape: seq<nat>): nat
  {
    if shape == [] then 1 else SizeT(SizeProduct(shape[..|shape| - 1]) * shape[|shape| - 1])
  }

  lemma MulMod(x: nat, b: nat)
    ensures SizeT(SizeT(x) * b) == SizeT(x * b)
  {
    var m := 0x1_0000_0000_0000_0000;
    var q := x / m;
    var rem := x % m;
    assert x == q * m + rem;
    assert x * b == (q * m + rem) * b == (q * b) * m + rem * b;
  }

  /** Wrapping at every step, as the constructor loop does, gives the product modulo 2^64. */
  lemma {:induction false} SizeProductIsProductMod(shape: seq<nat>)
    ensures SizeProduct(shape) == SizeT(Product(shape))
  {
    if shape != [] {
      var init := shape[..|shape| - 1];
      SizeProductIsProductMod(init);
      MulMod(Product(init), shape[|shape| - 1]);
    }
  }

  /** A zero-filled buffer of n bytes: std::vector<char>(n). */
  function Zeros(n: nat): (z: seq<char>)
    ensures |z| == n && forall k :: 0 <= k < n ==> z[k] == 0 as char
  {
    seq(n, _ => 0 as char)
  }

  /** The data-holder size of an array of this shape and word size. */
  function ByteCount(shape: seq<nat>, wordSize: nat): nat
  {
    SizeT(SizeT(Product(shape)) * wordSize)
  }

  /** num_bytes() is the element count times the word size, modulo 2^64. */
  lemma ByteCountWraps(shape: seq<nat>, wordSize: nat)
    ensures ByteCount(shape, wordSize) == SizeT(Product(shape) * wordSize)
    ensures ByteCount(shape, wordSize) < SizeModulus
  {
    MulMod(Product(shape), wordSize);
  }

  /** NpyArray(shape, word_size, fortran_order): the loop accumulates num_vals, then the buffer is allocated. */
  method NewNpyArray(shape: seq<nat>, wordSize: nat, fortranOrder: bool) returns (a: NpyArray)
    ensures a.shape == shape && a.wordSize == wordSize && a.fortranOrder == fortranOrder
    ensures a.numVals == SizeT(Product(shape))
    ensures a.data == Some(Zeros(ByteCount(shape, wordSize)))
    ensures NumBytes(a) == SizeT(a.numVals * a.wordSize)
  {
    var numVals: nat := 1;
    for i := 0 to |shape|
      invariant numVals == SizeProduct(shape[..i])
    {
      assert shape[..i + 1][..i] == shape[..i];
      numVals := SizeT(numVals * shape[i]);
    }
    assert shape[..|shape|] == shape;
    SizeProductIsProductMod(shape);
    a := NpyArray(Some(Zeros(SizeT(numVals * wordSize))), shape, wordSize, fortranOrder, numVals);
  }

  /** NpyArray(): empty shape, word size 0, C order, no values and no data holder. */
  function DefaultNpyArray(): (a: NpyArray)
    ensures a.data.None? && a.shape == [] && a.wordSize == 0 && !a.fortranOrder && a.numVals == 0
  {
    NpyArray(None, [], 0, false, 0)
  }

  /** num_bytes(): the size of the data holder (which the default array lacks). */
  function NumBytes(a: NpyArray): nat
    requires a.data.Some?
  {
    |a.data.value|
  }

  /** When neither product overflows, num_bytes() is the element count times the word size. */
  lemma ByteCountExact(shape: seq<nat>, wordSize: nat)
    requires Product(shape) * wordSize < 0x1_0000_0000_0000_0000
    ensures ByteCount(shape, wordSize) == Product(shape) * wordSize
  {
    if wordSize > 0 {
      assert Product(shape) <= Product(shape) * wordSize;
    }
  }

  function Flatten(parts: seq<seq<char>>): seq<char>
  {
    if parts == [] then [] else Flatten(parts[..|parts| - 1]) + parts[|parts| - 1]
  }

  /** The first count elements of size bytes each of data. */
  function Elements(data: seq<char>, count: nat, size: nat): (v: seq<seq<char>>)
    requires count * size <= |data|
    ensures |v| == count
    ensures Flatten(v) == data[..count * size]
  {
    if count == 0 then []
    else
      var hi := count * size;
      var lo := (count - 1) * size;
      LastElement(count, size);
      var init := Elements(data, count - 1, size);
      var v := init + [data[lo..hi]];
      assert v[..count - 1] == init;
      assert data[..lo] + data[lo..hi] == data[..hi];
      v
  }

  lemma LastElement(count: nat, size: nat)
    requires count > 0
    ensures (count - 1) * size + size == count * size
  {
  }

  /** Every element is size bytes long. */
  lemma {:induction false} ElementSizes(data: seq<char>, count: nat, size: nat)
    requires count * size <= |data|
    ensures forall i :: 0 <= i < count ==> |Elements(data, count, size)[i]| == size
  {
    if count > 0 {
      LastElement(count, size);
      ElementSizes(data, count - 1, size);
      var init := Elements(data, count - 1, size);
      assert Elements(data, count, size) == init + [data[(count - 1) * size..count * size]];
      assert forall i :: 0 <= i < count - 1 ==> Elements(data, count, size)[i] == init[i];
    }
  }

  /**
   * as_vec<T>() for an element type of size bytes: exactly num_vals
   * elements, which are the buffer's first num_vals * size bytes in order.
   * Reading past the data holder is undefined, hence the requirement.
   */
  function AsVec(a: NpyArray, size: nat): (v: seq<seq<char>>)
    requires a.data.Some? && a.numVals * size <= |a.data.value|
    ensures |v| == a.numVals
    ensures forall i :: 0 <= i < |v| ==> |v[i]| == size
    ensures Flatten(v) == a.data.value[..a.numVals * size]
  {
    ElementSizes(a.data.value, a.numVals, size);
    Elements(a.data.value, a.numVals, size)
  }

  // ---------------------------------------------------------------- files

  /** load_the_npy_file on an asset whose offset is pos. */
  function NpyAt(s: string, pos: nat): (r: Result<NpyArray>)
    requires pos <= |s|
    ensures r.Ok? ==> r.value.data.Some? && |r.value.data.value| == ByteCount(r.value.shape, r.value.wordSize)
    ensures r.Ok? ==> r.value.numVals == SizeT(Product(r.value.shape))
  {
    match HeaderAt(s, pos)
    case Err(e) => Err(e)
    case Ok(h) => DataAt(s, DataOffset(s, pos), h, ByteCount(h.shape, h.wordSize))
  }

  /**
   * The read of an array's data: an array of header h whose n data bytes
   * start at `start`, or the read failure when fewer than n bytes are left.
   */
  function DataAt(s: string, start: nat, h: NpyHeader, n: nat): (r: Result<NpyArray>)
    ensures r.Err? <==> start + n > |s|
    ensures r.Err? ==> r.error == DataReadFailed
    ensures r.Ok? ==> r.value.data == Some(s[start..start + n])
    ensures r.Ok? ==> r.value.shape == h.shape && r.value.wordSize == h.wordSize && r.value.fortranOrder == h.fortranOrder
    ensures r.Ok? ==> r.value.numVals == SizeT(Product(h.shape))
  {
    if start + n > |s| then Err(DataReadFailed)
    else Ok(NpyArray(Some(s[start..start + n]), h.shape, h.wordSize, h.fortranOrder, SizeT(Product(h.shape))))
  }

  /** load_the_npy_file (base_utils.cpp): the header, an array sized from it, and its data bytes. */
  method LoadTheNpyFile(asset: Asset) returns (r: Result<NpyArray>)
    requires asset.Valid()
    modifies asset
    ensures asset.Valid()
    ensures r == NpyAt(asset.content, old(asset.offset))
  {
    ghost var s, pos := asset.content, asset.offset;
    var header := ParseNpyHeader(asset);
    if header.Err? {
      return Err(header.error);
    }
    NpyAtHeader(s, pos, header.value);
    r := ReadArray(asset, header.value);
  }

  /**
   * The rest of load_the_npy_file once the header h is read: an array sized
   * from h, and a read of its num_bytes() data bytes from the asset's offset.
   */
  method ReadArray(asset: Asset, h: NpyHeader) returns (r: Result<NpyArray>)
    requires asset.Valid()
    modifies asset
    ensures asset.Valid()
    ensures r == DataAt(asset.content, old(asset.offset), h, ByteCount(h.shape, h.wordSize))
  {
    ghost var start := asset.offset;
    ghost var n := ByteCount(h.shape, h.wordSize);
    var arr := NewNpyArray(h.shape, h.wordSize, h.fortranOrder);
    var bytes := asset.Read(NumBytes(arr));
    r := ReadData(asset.content, start, h, n, arr, bytes);
  }

  /** Once the header at pos parses, the load is the read of the data that follows it. */
  lemma NpyAtHeader(s: string, pos: nat, h: NpyHeader)
    requires pos + 11 <= |s| && HeaderAt(s, pos) == Ok(h)
    ensures NpyAt(s, pos) == DataAt(s, DataOffset(s, pos), h, ByteCount(h.shape, h.wordSize))
  {
  }

  /** The length check of load_the_npy_file: the array with the bytes read, or the failure when too few came. */
  function ReadData(ghost s: string, ghost start: nat, ghost h: NpyHeader, ghost n: nat, arr: NpyArray, bytes: string): (r: Result<NpyArray>)
    requires arr.data.Some? && NumBytes(arr) == n
    requires arr.shape == h.shape && arr.wordSize == h.wordSize && arr.fortranOrder == h.fortranOrder
    requires arr.numVals == SizeT(Product(h.shape))
    requires start <= |s| && bytes == s[start..Min(start + n, |s|)]
    ensures r == DataAt(s, start, h, n)
  {
    if |bytes| != NumBytes(arr) then Err(DataReadFailed) else Ok(arr.(data := Some(bytes)))
  }

  /** npy_load (base_utils.cpp): assets maps each file name the manager can open to its content. */
  method NpyLoad(assets: map<string, string>, fname: string) returns (r: Result<NpyArray>)
    ensures fname !in assets ==> r == Err(UnableToOpen + fname)
    ensures fname in assets ==> r == NpyAt(assets[fname], 0)
  {
    if fname !in assets {
      return Err(UnableToOpen + fname);
    }
    var asset := new Asset(assets[fname]);
    r := LoadTheNpyFile(asset);
  }

  // ------------------------------------------------- files numpy writes

  /** The text of a shape tuple between its parentheses, as numpy's repr writes it. */
  function ShapeText(shape: seq<nat>): string
  {
    if |shape| == 1 then Decimal(shape[0]) + "," else Joined(shape)
  }

  function Joined(shape: seq<nat>): string
  {
    if shape == [] then "" else if |shape| == 1 then Decimal(shape[0]) else Decimal(shape[0]) + ", " + Joined(shape[1..])
  }

  function Renderings(shape: seq<nat>): (d: seq<string>)
    ensures |d| == |shape| && forall i :: 0 <= i < |shape| ==> d[i] == Decimal(shape[i])
  {
    seq(|shape|, i requires 0 <= i < |shape| => Decimal(shape[i]))
  }

  lemma DigitRunsOf(d: string, rest: string)
    requires |d| > 0 && AllDigits(d)
    requires rest == [] || !IsDigit(rest[0])
    ensures DigitRuns(d + rest) == [d] + DigitRuns(rest)
  {
    DigitsLengthOf(d, rest);
    assert (d + rest)[..|d|] == d;
    assert (d + rest)[|d|..] == rest;
  }

  lemma {:induction false} DigitRunsJoined(shape: seq<nat>)
    ensures DigitRuns(Joined(shape)) == Renderings(shape)
  {
    if |shape| == 1 {
      DigitRunsOf(Decimal(shape[0]), "");
      assert Decimal(shape[0]) + "" == Decimal(shape[0]);
    } else if |shape| > 1 {
      DigitRunsJoined(shape[1..]);
      DigitRunsCons(Decimal(shape[0]), Joined(shape[1..]));
      RenderingsCons(shape);
    }
  }

  /** A dimension, ", " and more dimensions: that dimension's run, then the runs of the rest. */
  lemma DigitRunsCons(d: string, tail: string)
    requires |d| > 0 && AllDigits(d)
    ensures DigitRuns(d + ", " + tail) == [d] + DigitRuns(tail)
  {
    DigitRunsOf(d, ", " + tail);
    assert d + ", " + tail == d + (", " + tail);
    DigitRunsSeparated(tail);
  }

  lemma RenderingsCons(shape: seq<nat>)
    requires |shape| > 0
    ensures Renderings(shape) == [Decimal(shape[0])] + Renderings(shape[1..])
  {
    var r := Renderings(shape[1..]);
    assert forall i :: 0 <= i < |r| ==> r[i] == Decimal(shape[i + 1]);
  }

  /** The ", " between two dimensions holds no digit. */
  lemma DigitRunsSeparated(tail: string)
    ensures DigitRuns(", " + tail) == DigitRuns(tail)
  {
    assert (", " + tail)[1..] == " " + tail;
    assert (" " + tail)[1..] == tail;
  }

  /** The shape regex loop reads back every shape numpy writes. */
  lemma ShapeTextRuns(shape: seq<nat>)
    ensures DigitRuns(ShapeText(shape)) == Renderings(shape)
  {
    if |shape| == 1 {
      DigitRunsOf(Decimal(shape[0]), ",");
      assert DigitRuns(",") == [];
    } else {
      DigitRunsJoined(shape);
    }
  }

  lemma {:induction false} RunValuesOfRenderings(shape: seq<nat>)
    requires forall i :: 0 <= i < |shape| ==> shape[i] <= IntMax
    ensures RunValues(Renderings(shape)) == Ok(shape)
  {
    if shape != [] {
      RunValuesOfRenderings(shape[1..]);
      assert Renderings(shape)[1..] == Renderings(shape[1..]);
      DecimalValueOfDecimal(shape[0]);
      assert [shape[0]] + shape[1..] == shape;
    }
  }

  /** The text of a shape tuple holds only digits, commas and spaces. */
  predicate TupleChars(t: string)
  {
    forall k :: 0 <= k < |t| ==> IsDigit(t[k]) || t[k] == ',' || t[k] == ' '
  }

  lemma {:induction false} JoinedChars(shape: seq<nat>)
    ensures TupleChars(Joined(shape))
  {
    if |shape| > 1 {
      JoinedChars(shape[1..]);
    }
  }

  lemma ShapeTextChars(shape: seq<nat>)
    ensures TupleChars(ShapeText(shape))
    ensures ')' !in ShapeText(shape) && '\n' !in ShapeText(shape)
  {
    JoinedChars(shape);
    var t := ShapeText(shape);
    assert forall c :: c in t ==> IsDigit(c) || c == ',' || c == ' ' by {
      forall c | c in t
        ensures IsDigit(c) || c == ',' || c == ' '
      {
        var k :| 0 <= k < |t| && t[k] == c;
      }
    }
  }

  function OrderFlag(fortranOrder: bool): string
  {
    if fortranOrder then "True" else "False"
  }

  /** The three entries of the header dictionary numpy writes, for a single-character type code. */
  function DescrEntry(kind: char, wordSize: nat): string
  {
    "'" + DescrKey + "': '<" + [kind] + Decimal(wordSize) + "', "
  }

  function FortranEntry(fortranOrder: bool): string
  {
    "'" + FortranKey + "': " + OrderFlag(fortranOrder) + ", "
  }

  function ShapeEntry(shape: seq<nat>): string
  {
    "'shape': (" + ShapeText(shape) + "), "
  }

  /** The header line after the opening brace: keys in sorted order, then the closing brace and padding spaces. */
  function HeaderLine(kind: char, wordSize: nat, fortranOrder: bool, shape: seq<nat>, padding: nat): string
  {
    DescrEntry(kind, wordSize) + (FortranEntry(fortranOrder) + (ShapeEntry(shape) + ("}" + seq(padding, _ => ' '))))
  }

  /** The descr entry first in the line: the word size reads back. */
  lemma WordSizeFieldAt(kind: char, wordSize: nat, rest: string)
    requires wordSize <= IntMax
    ensures WordSizeField(DescrEntry(kind, wordSize) + rest) == Ok(wordSize)
  {
    var ws := Decimal(wordSize);
    var line := DescrEntry(kind, wordSize) + rest;
    var after := "': '<" + [kind] + ws + "', " + rest;
    assert line == "'" + DescrKey + after;
    assert line[0] == '\'';
    assert !MatchAt(line, DescrKey, 0);
    FindAfter("'", DescrKey, after);
    var tail := "', " + rest;
    assert line == "'" + DescrKey + "': '<" + [kind] + (ws + tail);
    assert |"'" + DescrKey + "': '<" + [kind]| == 12;
    assert line[12..] == ws + tail;
    var d := UpToQuote(line, 12);
    assert '\'' !in ws;
    assert line[12 + |ws|] == '\'';
    assert |d| == |ws|;
    assert d == ws;
    StoiDigits(ws, "");
    assert ws + "" == ws;
    DecimalValueOfDecimal(wordSize);
  }

  /** The fortran_order keyword after text without an 'o' is found right after that text and its quote. */
  lemma FindFortranKey(before: string, after: string)
    requires 'o' !in before
    ensures Find(before + "'" + FortranKey + after, FortranKey) == Some(|before| + 1)
  {
    var a := before + "'";
    var line := a + FortranKey + after;
    forall j | 0 <= j < |a|
      ensures !MatchAt(line, FortranKey, j)
    {
      if j + 1 < |before| {
        assert line[j + 1] == before[j + 1];
      } else if j + 1 == |before| {
        assert line[j + 1] == '\'';
      } else {
        assert line[j + 1] == 'f';
      }
      assert line[j..j + 13][1] == line[j + 1];
    }
    FindAfter(a, FortranKey, after);
  }

  /** The fortran_order entry after text without an 'o': the flag reads back. */
  lemma FortranFieldAt(before: string, fortranOrder: bool, rest: string)
    requires 'o' !in before
    ensures FortranOrderField(before + (FortranEntry(fortranOrder) + rest)) == Ok(fortranOrder)
  {
    var flag := OrderFlag(fortranOrder);
    var after := "': " + flag + ", " + rest;
    var line := before + (FortranEntry(fortranOrder) + rest);
    assert line == before + "'" + FortranKey + after;
    FindFortranKey(before, after);
    var at := |before| + 17;
    assert line[at..] == flag + ", " + rest;
    assert at + 4 <= |line| && line[at..at + 4] == flag[..4];
    if fortranOrder {
      assert flag[..4] == "True";
    } else {
      assert flag[..4] == "Fals";
      assert flag[..4][3] != "True"[3];
    }
  }

  /** The shape entry after text without parentheses: the tuple text is what lies between them. */
  lemma ShapeFieldAt(before: string, shape: seq<nat>, rest: string)
    requires '(' !in before && ')' !in before
    requires |before| + |ShapeEntry(shape)| + |rest| < SizeModulus
    ensures ShapeTextField(before + (ShapeEntry(shape) + rest)) == Ok(ShapeText(shape))
  {
    var t := ShapeText(shape);
    ShapeTextChars(shape);
    var q := before + "'shape': ";
    assert '(' !in q && ')' !in q;
    assert before + (ShapeEntry(shape) + rest) == q + "(" + t + ")" + (", " + rest);
    ParenthesesField(q, t, ", " + rest);
  }

  /** Text between the first '(' and the first ')', with neither before nor inside. */
  lemma ParenthesesField(q: string, t: string, rest: string)
    requires '(' !in q && ')' !in q && ')' !in t
    requires |q| + |t| + |rest| + 2 < SizeModulus
    ensures ShapeTextField(q + "(" + t + ")" + rest) == Ok(t)
  {
    var line := q + "(" + t + ")" + rest;
    assert line == q + "(" + (t + ")" + rest);
    FindChar(q, '(', t + ")" + rest);
    assert line == (q + "(" + t) + ")" + rest;
    assert ')' !in q + "(" + t;
    FindChar(q + "(" + t, ')', rest);
    assert line[|q| + 1..|q| + 1 + |t|] == t;
  }

  lemma ShapeValuesOfText(shape: seq<nat>)
    requires forall i :: 0 <= i < |shape| ==> shape[i] <= IntMax
    ensures ShapeValues(ShapeText(shape)) == Ok(shape)
  {
    ShapeTextRuns(shape);
    RunValuesOfRenderings(shape);
  }

  /** A decimal rendering holds no 'o', no parenthesis and no newline. */
  lemma DecimalChars(n: nat)
    ensures 'o' !in Decimal(n) && '(' !in Decimal(n) && ')' !in Decimal(n) && '\n' !in Decimal(n)
  {
    var ws := Decimal(n);
    forall k | 0 <= k < |ws|
      ensures ws[k] != 'o' && ws[k] != '(' && ws[k] != ')' && ws[k] != '\n'
    {
      assert IsDigit(ws[k]);
    }
  }

  lemma DescrEntryChars(kind: char, wordSize: nat)
    requires kind != 'o' && kind != '(' && kind != ')'
    ensures 'o' !in DescrEntry(kind, wordSize)
    ensures '(' !in DescrEntry(kind, wordSize) && ')' !in DescrEntry(kind, wordSize)
  {
    DecimalChars(wordSize);
    var p := "'" + DescrKey + "': '<";
    assert 'o' !in p && '(' !in p && ')' !in p;
    assert DescrEntry(kind, wordSize) == p + [kind] + Decimal(wordSize) + "', ";
  }

  lemma FortranEntryChars(fortranOrder: bool)
    ensures '(' !in FortranEntry(fortranOrder) && ')' !in FortranEntry(fortranOrder)
  {
    var p := "'" + FortranKey + "': ";
    assert '(' !in p && ')' !in p;
    assert '(' !in OrderFlag(fortranOrder) && ')' !in OrderFlag(fortranOrder);
    assert FortranEntry(fortranOrder) == p + OrderFlag(fortranOrder) + ", ";
  }

  /** The header fields agree with what each field parser returns. */
  lemma HeaderFieldsOf(line: string, shapeText: string, h: NpyHeader)
    requires FortranOrderField(line) == Ok(h.fortranOrder)
    requires ShapeTextField(line) == Ok(shapeText) && ShapeValues(shapeText) == Ok(h.shape)
    requires WordSizeField(line) == Ok(h.wordSize)
    ensures HeaderFields(line) == Ok(h)
  {
  }

  lemma HeaderLineWordSize(kind: char, wordSize: nat, fortranOrder: bool, shape: seq<nat>, padding: nat)
    requires wordSize <= IntMax
    ensures WordSizeField(HeaderLine(kind, wordSize, fortranOrder, shape, padding)) == Ok(wordSize)
  {
    var f := FortranEntry(fortranOrder);
    var sh := ShapeEntry(shape);
    var e := "}" + seq(padding, _ => ' ');
    WordSizeFieldAt(kind, wordSize, f + (sh + e));
  }

  lemma HeaderLineFortran(kind: char, wordSize: nat, fortranOrder: bool, shape: seq<nat>, padding: nat)
    requires kind != 'o' && kind != '(' && kind != ')'
    ensures FortranOrderField(HeaderLine(kind, wordSize, fortranOrder, shape, padding)) == Ok(fortranOrder)
  {
    var sh := ShapeEntry(shape);
    var e := "}" + seq(padding, _ => ' ');
    DescrEntryChars(kind, wordSize);
    FortranFieldAt(DescrEntry(kind, wordSize), fortranOrder, sh + e);
  }

  lemma HeaderLineShape(kind: char, wordSize: nat, fortranOrder: bool, shape: seq<nat>, padding: nat)
    requires kind != 'o' && kind != '(' && kind != ')'
    requires |HeaderLine(kind, wordSize, fortranOrder, shape, padding)| < SizeModulus
    ensures ShapeTextField(HeaderLine(kind, wordSize, fortranOrder, shape, padding)) == Ok(ShapeText(shape))
  {
    var d := DescrEntry(kind, wordSize);
    var f := FortranEntry(fortranOrder);
    var sh := ShapeEntry(shape);
    var e := "}" + seq(padding, _ => ' ');
    DescrEntryChars(kind, wordSize);
    FortranEntryChars(fortranOrder);
    assert '(' !in d + f && ')' !in d + f;
    assert d + (f + (sh + e)) == (d + f) + (sh + e);
    ShapeFieldAt(d + f, shape, e);
  }

  /** Every header line numpy writes parses back to its word size, shape and order. */
  lemma HeaderLineParses(kind: char, wordSize: nat, fortranOrder: bool, shape: seq<nat>, padding: nat)
    requires kind != 'o' && kind != '(' && kind != ')'
    requires wordSize <= IntMax
    requires forall i :: 0 <= i < |shape| ==> shape[i] <= IntMax
    requires |HeaderLine(kind, wordSize, fortranOrder, shape, padding)| < SizeModulus
    ensures HeaderFields(HeaderLine(kind, wordSize, fortranOrder, shape, padding)) == Ok(NpyHeader(wordSize, shape, fortranOrder))
  {
    HeaderLineWordSize(kind, wordSize, fortranOrder, shape, padding);
    HeaderLineFortran(kind, wordSize, fortranOrder, shape, padding);
    HeaderLineShape(kind, wordSize, fortranOrder, shape, padding);
    ShapeValuesOfText(shape);
    HeaderFieldsOf(HeaderLine(kind, wordSize, fortranOrder, shape, padding), ShapeText(shape), NpyHeader(wordSize, shape, fortranOrder));
  }

  /** A file as numpy writes it: any 10-byte magic, version and length, the '{', the header line, then the data. */
  function NpyFile(preamble: string, kind: char, wordSize: nat, fortranOrder: bool, shape: seq<nat>, padding: nat, payload: string): string
  {
    preamble + "{" + HeaderLine(kind, wordSize, fortranOrder, shape, padding) + "\n" + payload
  }

  /**
   * Loading a file numpy wrote returns its shape, word size and order, and
   * exactly the first num_bytes() data bytes; it fails precisely when the
   * data is shorter than that.
   */
  lemma WrittenFileLoads(preamble: string, kind: char, wordSize: nat, fortranOrder: bool, shape: seq<nat>, padding: nat, payload: string)
    requires |preamble| == 10
    requires kind != 'o' && kind != '(' && kind != ')' && kind != '\n'
    requires wordSize <= IntMax
    requires forall i :: 0 <= i < |shape| ==> shape[i] <= IntMax
    requires |HeaderLine(kind, wordSize, fortranOrder, shape, padding)| < SizeModulus
    ensures var n := ByteCount(shape, wordSize);
      NpyAt(NpyFile(preamble, kind, wordSize, fortranOrder, shape, padding, payload), 0) ==
        if n <= |payload| then Ok(NpyArray(Some(payload[..n]), shape, wordSize, fortranOrder, SizeT(Product(shape))))
        else Err(DataReadFailed)
  {
    var line := HeaderLine(kind, wordSize, fortranOrder, shape, padding);
    var h := NpyHeader(wordSize, shape, fortranOrder);
    assert '\n' !in line by { HeaderLineChars(kind, wordSize, fortranOrder, shape, padding); }
    assert HeaderFields(line) == Ok(h) by { HeaderLineParses(kind, wordSize, fortranOrder, shape, padding); }
    LineLoads(preamble, line, payload, h);
  }

  /**
   * A file of 11 preamble bytes, a header line that parses, a newline and
   * the data bytes loads with the header's fields and the first num_bytes()
   * data bytes, and fails precisely when there are fewer.
   */
  lemma LineLoads(preamble: string, line: string, payload: string, h: NpyHeader)
    requires |preamble| == 10 && '\n' !in line
    requires HeaderFields(line) == Ok(h)
    ensures var n := ByteCount(h.shape, h.wordSize);
      NpyAt(preamble + "{" + line + "\n" + payload, 0) ==
        if n <= |payload| then Ok(NpyArray(Some(payload[..n]), h.shape, h.wordSize, h.fortranOrder, SizeT(Product(h.shape))))
        else Err(DataReadFailed)
  {
    var s := preamble + "{" + line + "\n" + payload;
    LineAfter(preamble + "{", line, payload);
    LoadsAfterLine(s, line, payload, h);
  }

  /** A line without a newline that starts at byte 11 and is followed by one. */
  lemma LineAfter(head: string, line: string, payload: string)
    requires |head| == 11 && '\n' !in line
    ensures var s := head + line + "\n" + payload;
      |s| == 12 + |line| + |payload| && s[12 + |line|..] == payload &&
      NextLine(s, 11) == (line, 12 + |line|)
  {
    var s := head + line + "\n" + payload;
    assert s[11 + |line|] == '\n';
    assert s[11..11 + |line|] == line;
    assert LineEnd(s, 11) == 11 + |line|;
    assert s[12 + |line|..] == payload;
  }

  /** Bytes whose header line parses and is followed by a newline and the data bytes. */
  lemma LoadsAfterLine(s: string, line: string, payload: string, h: NpyHeader)
    requires |s| == 12 + |line| + |payload| && s[12 + |line|..] == payload
    requires NextLine(s, 11) == (line, 12 + |line|)
    requires HeaderFields(line) == Ok(h)
    ensures var n := ByteCount(h.shape, h.wordSize);
      NpyAt(s, 0) ==
        if n <= |payload| then Ok(NpyArray(Some(payload[..n]), h.shape, h.wordSize, h.fortranOrder, SizeT(Product(h.shape))))
        else Err(DataReadFailed)
  {
    assert HeaderAt(s, 0) == Ok(h);
    assert DataOffset(s, 0) == 12 + |line|;
    LoadsPayload(s, 12 + |line|, payload, h, ByteCount(h.shape, h.wordSize));
  }

  /** Data bytes that follow the header: the array holds their first n, if there are that many. */
  lemma LoadsPayload(s: string, start: nat, payload: string, h: NpyHeader, n: nat)
    requires |s| == start + |payload| && s[start..] == payload
    ensures DataAt(s, start, h, n) ==
        if n <= |payload| then Ok(NpyArray(Some(payload[..n]), h.shape, h.wordSize, h.fortranOrder, SizeT(Product(h.shape))))
        else Err(DataReadFailed)
  {
    if n <= |payload| {
      assert s[start..start + n] == payload[..n];
    }
  }

  /** A header line numpy writes holds no newline. */
  lemma HeaderLineChars(kind: char, wordSize: nat, fortranOrder: bool, shape: seq<nat>, padding: nat)
    requires kind != '\n'
    ensures '\n' !in HeaderLine(kind, wordSize, fortranOrder, shape, padding)
  {
    ShapeTextChars(shape);
    DecimalChars(wordSize);
    var p := "'" + DescrKey + "': '<";
    assert '\n' !in p;
    assert DescrEntry(kind, wordSize) == p + [kind] + Decimal(wordSize) + "', ";
    assert '\n' !in DescrEntry(kind, wordSize);
    var q := "'" + FortranKey + "': ";
    assert '\n' !in q && '\n' !in OrderFlag(fortranOrder);
    assert FortranEntry(fortranOrder) == q + OrderFlag(fortranOrder) + ", ";
    assert '\n' !in FortranEntry(fortranOrder);
    assert '\n' !in ShapeEntry(shape);
    var pad: string := seq(padding, _ => ' ');
    assert '\n' !in "}" + pad;
  }

  // --------------------------------------------------- vector<char> appends

  /** strlen: the bytes before the first NUL. */
  function CStrLen(s: string): (n: nat)
    requires 0 as char in s
    ensures n < |s| && s[n] == 0 as char
    ensures forall k :: 0 <= k < n ==> s[k] != 0 as char
  {
    if s[0] == 0 as char then 0 else 1 + CStrLen(s[1..])
  }

  /** The object representation of an unsigned value of width bytes on a little-endian host. */
  function LittleEndian(v: nat, width: nat): (bytes: seq<char>)
    ensures |bytes| == width
    ensures forall k :: 0 <= k < width ==> bytes[k] as int < 256
  {
    if width == 0 then [] else [(v % 256) as char] + LittleEndian(v / 256, width - 1)
  }

  function FromLittleEndian(bytes: seq<char>): nat
  {
    if bytes == [] then 0 else bytes[0] as nat + 256 * FromLittleEndian(bytes[1..])
  }

  function Pow256(width: nat): nat
  {
    if width == 0 then 1 else 256 * Pow256(width - 1)
  }

  /** Decoding the little-endian bytes of a value that fits gives the value back. */
  lemma {:induction false} LittleEndianRoundTrip(v: nat, width: nat)
    requires v < Pow256(width)
    ensures FromLittleEndian(LittleEndian(v, width)) == v
  {
    if width > 0 {
      LittleEndianRoundTrip(v / 256, width - 1);
      assert LittleEndian(v, width)[1..] == LittleEndian(v / 256, width - 1);
    }
  }

  /** Every byte string is the little-endian encoding of the value it decodes to. */
  lemma {:induction false} FromLittleEndianRoundTrip(bytes: seq<char>)
    requires forall k :: 0 <= k < |bytes| ==> bytes[k] as int < 256
    ensures FromLittleEndian(bytes) < Pow256(|bytes|)
    ensures LittleEndian(FromLittleEndian(bytes), |bytes|) == bytes
  {
    if bytes != [] {
      var tail := bytes[1..];
      FromLittleEndianRoundTrip(tail);
      var v := FromLittleEndian(bytes);
      assert v % 256 == bytes[0] as nat && v / 256 == FromLittleEndian(tail);
      assert ((v % 256) as char) == bytes[0];
    }
  }

  /** A std::vector<char> that the operator+= overloads append to. */
  class CharVector {
    var contents: seq<char>

    constructor ()
      ensures contents == []
    {
      contents := [];
    }

    /** operator+=(vector<char>&, std::string): every byte of rhs, NULs included. */
    method AppendString(rhs: string)
      modifies this
      ensures contents == old(contents) + rhs
    {
      contents := contents + rhs;
    }

    /** operator+=(vector<char>&, const char*): the strlen(rhs) bytes before the terminating NUL. */
    method AppendCString(rhs: string)
      requires 0 as char in rhs
      modifies this
      ensures contents == old(contents) + rhs[..CStrLen(rhs)]
    {
      var len := CStrLen(rhs);
      for byte := 0 to len
        invariant contents == old(contents) + rhs[..byte]
      {
        assert rhs[..byte + 1] == rhs[..byte] + [rhs[byte]];
        contents := contents + [rhs[byte]];
      }
    }

    /**
     * The generic operator+= for a value whose object representation is
     * rep: its sizeof(T) bytes pushed one by one in memory order.
     */
    method AppendObject(rep: seq<char>)
      modifies this
      ensures contents == old(contents) + rep
    {
      for byte := 0 to |rep|
        invariant contents == old(contents) + rep[..byte]
      {
        assert rep[..byte + 1] == rep[..byte] + [rep[byte]];
        contents := contents + [rep[byte]];
      }
      assert rep[..|rep|] == rep;
    }

    /**
     * The generic operator+= for an unsigned integer of width bytes on a
     * little-endian host: the appended bytes decode back to the value.
     */
    method AppendUnsigned(v: nat, width: nat)
      requires v < Pow256(width)
      modifies this
      ensures contents == old(contents) + LittleEndian(v, width)
      ensures FromLittleEndian(contents[|old(contents)|..]) == v
    {
      AppendObject(LittleEndian(v, width));
      assert contents[|old(contents)|..] == LittleEndian(v, width);
      LittleEndianRoundTrip(v, width);
    }
  }
}
