/** Decoding of Bladed header files: one line at a time into a keyword and
    a typed value, and a whole file into a keyword-to-value map. */
module Header {
  import opened Outcomes
  import opened Strings
  import Definitions

  /** The payload element types a FORMAT line can name, numpy's '<f4',
      '<f8' and '<i4' (little-endian). */
  datatype DType = F4 | F8 | I4 {
    /** The numpy dtype string the decoder returns. */
    function Name(): string {
      match this
      case F4 => "<f4"
      case F8 => "<f8"
      case I4 => "<i4"
    }

    /** Bytes per element. */
    function ItemSize(): (n: nat)
      ensures n > 0
    {
      match this
      case F4 => 4
      case F8 => 8
      case I4 => 4
    }
  }

  /** A decoded header value. Floats are reals produced by the float parser
      the reader is given. */
  datatype Value =
    | Text(text: string)
    | Names(names: seq<string>)
    | Integer(n: int)
    | Integers(ints: seq<int>)
    | Real(x: real)
    | Reals(xs: seq<real>)
    | Code(dtype: DType)

  /** Keyword to conversion name, as in the keyword tables. */
  type Schema = map<string, string>

  /** A decoded header file. */
  type Header = map<string, Value>

  /** Python's `float()` on a `str`: `None` stands for its ValueError. Its
      numerical meaning is not modelled. */
  type FloatParser = string -> Option<real>

  /** Why a line is passed over: SkipLine (a single token) or the KeyError
      of an unknown keyword. */
  datatype Skip = SkipLine | UnknownKeyword(keyword: string)

  /** The three outcomes of decoding one line. */
  datatype LineResult =
    | Decoded(key: string, value: Value)
    | Skipped(why: Skip)
    | Failed(error: Error)

  /** The value a conversion of the given name produces. */
  predicate Fits(v: Value, kind: string) {
    match v
    case Text(_) => kind == "string" || kind == "string-remove"
    case Names(_) => kind == "string-list" || kind == "string-list-remove"
    case Integer(_) => kind == "int"
    case Integers(_) => kind == "int-list"
    case Real(_) => kind == "float"
    case Reals(_) => kind == "float-list"
    case Code(_) => kind == "numpy-dtype"
  }

  /** Every keyword of the header is in the schema, with a value of its kind. */
  predicate WellTyped(h: Header, schema: Schema) {
    forall k :: k in h ==> k in schema && Fits(h[k], schema[k])
  }

  /** `[convert(t) for t in tokens]`, where `parse` stands for `convert`
      and `bad` for the ValueError it raises: the list is built when every
      token converts, and otherwise the first token that does not raises. */
  function Convert<T>(tokens: seq<string>, parse: string -> Option<T>, bad: string -> Error): (r: Result<seq<T>>)
    ensures r.Ok? <==> forall i :: 0 <= i < |tokens| ==> parse(tokens[i]).Some?
    ensures r.Ok? ==> (|r.value| == |tokens|
      && forall i :: 0 <= i < |tokens| ==> r.value[i] == parse(tokens[i]).value)
    ensures r.Err? ==> exists i :: (0 <= i < |tokens| && parse(tokens[i]).None? && r.error == bad(tokens[i])
      && forall j :: 0 <= j < i ==> parse(tokens[j]).Some?)
  {
    if tokens == [] then Ok([])
    else match parse(tokens[0])
      case None => Err(bad(tokens[0]))
      case Some(x) =>
        match Convert(tokens[1..], parse, bad)
        case Ok(xs) => Ok([x] + xs)
        case Err(e) => Err(e)
  }

  /** `[int(t) for t in tokens]`. */
  function Ints(tokens: seq<string>): (r: Result<seq<int>>)
    ensures r.Ok? <==> forall i :: 0 <= i < |tokens| ==> ParseInt(tokens[i]).Some?
    ensures r.Ok? ==> (|r.value| == |tokens|
      && forall i :: 0 <= i < |tokens| ==> r.value[i] == ParseInt(tokens[i]).value)
    ensures r.Err? ==> exists i :: (0 <= i < |tokens| && ParseInt(tokens[i]).None? && r.error == BadInt(tokens[i])
      && forall j :: 0 <= j < i ==> ParseInt(tokens[j]).Some?)
  {
    Convert(tokens, ParseInt, t => BadInt(t))
  }

  /** `[float(t) for t in tokens]`. */
  function Floats(tokens: seq<string>, parseFloat: FloatParser): (r: Result<seq<real>>)
    ensures r.Ok? <==> forall i :: 0 <= i < |tokens| ==> parseFloat(tokens[i]).Some?
    ensures r.Ok? ==> (|r.value| == |tokens|
      && forall i :: 0 <= i < |tokens| ==> r.value[i] == parseFloat(tokens[i]).value)
    ensures r.Err? ==> exists i :: (0 <= i < |tokens| && parseFloat(tokens[i]).None? && r.error == BadFloat(tokens[i])
      && forall j :: 0 <= j < i ==> parseFloat(tokens[j]).Some?)
  {
    Convert(tokens, parseFloat, t => BadFloat(t))
  }

  /** The FORMAT codes: 'R*4', 'R*8' and 'I*4', compared with the whole rest
      of the line. */
  function DTypeOf(rest: string): (r: Result<DType>)
    ensures r == Ok(F4) <==> rest == "R*4"
    ensures r == Ok(F8) <==> rest == "R*8"
    ensures r == Ok(I4) <==> rest == "I*4"
    ensures r.Err? ==> r.error == BadDType(rest)
  {
    if rest == "R*4" then Ok(F4)
    else if rest == "R*8" then Ok(F8)
    else if rest == "I*4" then Ok(I4)
    else Err(BadDType(rest))
  }

  /** The conversion named `kind` applied to the rest of a line. */
  function Decode(kind: string, rest: string, parseFloat: FloatParser): (r: Result<Value>)
    ensures r.Ok? ==> Fits(r.value, kind)
    ensures (r.Err? && r.error.UnknownKind?) <==> kind !in Definitions.HandledKinds
    ensures r.Err? && r.error.UnknownKind? ==> r.error.kind == kind
    ensures r.Err? ==> r.error != BlankLine
  {
    if kind == "string" then Ok(Text(rest))
    else if kind == "string-remove" then Ok(Text(Remove(rest, '\'')))
    else if kind == "string-list" then Ok(Names(SplitAt(rest, ' ')))
    else if kind == "string-list-remove" then Ok(Names(QuotedNames(rest)))
    else if kind == "int" then
      match ParseInt(rest)
      case Some(n) => Ok(Integer(n))
      case None => Err(BadInt(rest))
    else if kind == "int-list" then
      match Ints(Words(rest))
      case Ok(ns) => Ok(Integers(ns))
      case Err(e) => Err(e)
    else if kind == "float-list" then
      match Floats(Words(rest), parseFloat)
      case Ok(xs) => Ok(Reals(xs))
      case Err(e) => Err(e)
    else if kind == "float" then
      match parseFloat(rest)
      case Some(x) => Ok(Real(x))
      case None => Err(BadFloat(rest))
    else if kind == "numpy-dtype" then
      match DTypeOf(rest)
      case Ok(d) => Ok(Code(d))
      case Err(e) => Err(e)
    else Err(UnknownKind(kind))
  }

  /** `_parse_header_line`: split the line at its first whitespace run, look
      the keyword up and convert the rest. A single token is SkipLine, an
      unknown keyword is a KeyError (skipped by the caller too), and a
      blank line fails on `split_str[0]`. */
  function ParseHeaderLine(line: string, schema: Schema, parseFloat: FloatParser): (r: LineResult)
    ensures r.Decoded? ==> r.key in schema && Fits(r.value, schema[r.key])
  {
    var parts := SplitOnce(line);
    if |parts| == 1 then Skipped(SkipLine)
    else if parts == [] then Failed(BlankLine)
    else
      var keyword, rest := parts[0], parts[1];
      if keyword !in schema then Skipped(UnknownKeyword(keyword))
      else
        match Decode(schema[keyword], rest, parseFloat)
        case Ok(v) => Decoded(keyword, v)
        case Err(e) => Failed(e)
  }

  /** A blank or whitespace-only line is the one line that fails on
      `split_str[0]`; every other line splits into at least a keyword. */
  lemma BlankLineFails(line: string, schema: Schema, parseFloat: FloatParser)
    ensures ParseHeaderLine(line, schema, parseFloat) == Failed(BlankLine) <==> AllSpace(line)
  {
    SplitOnceBlank(line);
  }

  /** A keyword of the schema, a whitespace run and a rest: the rest is
      converted as the keyword's kind says, whatever it ends with. */
  lemma ParseKeywordLine(lead: string, key: string, gap: string, rest: string,
                         schema: Schema, parseFloat: FloatParser)
    requires AllSpace(lead) && AllSpace(gap) && gap != []
    requires key != [] && NoSpace(key) && key in schema
    requires rest != [] && !IsSpace(rest[0])
    ensures ParseHeaderLine(lead + key + gap + rest, schema, parseFloat) ==
      match Decode(schema[key], rest, parseFloat)
      case Ok(v) => Decoded(key, v)
      case Err(e) => Failed(e)
  {
    SplitOnceTwo(lead, key, gap, rest);
  }

  /** A line with one token is skipped with SkipLine. */
  lemma ParseSingleToken(lead: string, key: string, trail: string,
                         schema: Schema, parseFloat: FloatParser)
    requires AllSpace(lead) && AllSpace(trail)
    requires key != [] && NoSpace(key)
    ensures ParseHeaderLine(lead + key + trail, schema, parseFloat) == Skipped(SkipLine)
  {
    SplitOnceOne(lead, key, trail);
  }

  /** A line whose keyword is not in the schema is skipped, whatever follows it. */
  lemma ParseUnknownKeyword(lead: string, key: string, gap: string, rest: string,
                            schema: Schema, parseFloat: FloatParser)
    requires AllSpace(lead) && AllSpace(gap) && gap != []
    requires key != [] && NoSpace(key) && key !in schema
    requires rest != [] && !IsSpace(rest[0])
    ensures ParseHeaderLine(lead + key + gap + rest, schema, parseFloat) == Skipped(UnknownKeyword(key))
  {
    SplitOnceTwo(lead, key, gap, rest);
  }

  /** With the shipped keyword table no line can fail with an unknown
      conversion. */
  lemma SupportedNeverUnknownKind(line: string, parseFloat: FloatParser)
    ensures !(ParseHeaderLine(line, Definitions.Supported, parseFloat).Failed?
              && ParseHeaderLine(line, Definitions.Supported, parseFloat).error.UnknownKind?)
  {
    Definitions.SupportedKindsHandled();
  }

  // ---------------------------------------------------------------------
  // The conversions read back what a header writer puts down

  /** `string-remove` of a quoted text without inner quotes is the text. */
  lemma DecodeQuoted(s: string, parseFloat: FloatParser)
    requires '\'' !in s
    ensures Decode("string-remove", "'" + s + "'", parseFloat) == Ok(Text(s))
  {
    RemoveQuotes(s);
  }

  /** `string-list` of pieces joined by single spaces is the pieces. */
  lemma DecodeSpaced(ps: seq<string>, parseFloat: FloatParser)
    requires |ps| >= 1 && forall i :: 0 <= i < |ps| ==> ' ' !in ps[i]
    ensures Decode("string-list", Join(ps, " "), parseFloat) == Ok(Names(ps))
  {
    SplitAtJoin(ps, ' ');
  }

  /** `string-list-remove` of names in quotes, separated by spaces, is the names. */
  lemma DecodeQuotedList(names: seq<string>, parseFloat: FloatParser)
    requires forall i :: 0 <= i < |names| ==> names[i] != [] && AllNameChars(names[i])
    ensures Decode("string-list-remove", QuotedList(names), parseFloat) == Ok(Names(names))
  {
    QuotedNamesOfList(names);
  }

  /** `int` of a padded decimal is its value. */
  lemma DecodeInt(lead: string, n: nat, trail: string, parseFloat: FloatParser)
    requires AllIntSpace(lead) && AllIntSpace(trail)
    ensures Decode("int", lead + Decimal(n) + trail, parseFloat) == Ok(Integer(n))
  {
    ParseIntDecimal(lead, n, trail);
  }

  function Decimals(ns: seq<nat>): (ds: seq<string>)
    ensures |ds| == |ns| && forall i :: 0 <= i < |ns| ==> ds[i] == Decimal(ns[i])
  {
    seq(|ns|, i requires 0 <= i < |ns| => Decimal(ns[i]))
  }

  /** `int-list` of decimals separated by whitespace is their values. */
  lemma DecodeInts(ns: seq<nat>, sep: string, parseFloat: FloatParser)
    requires sep != [] && AllSpace(sep)
    ensures Decode("int-list", Join(Decimals(ns), sep), parseFloat) == Ok(Integers(ns))
  {
    var ds := Decimals(ns);
    forall i | 0 <= i < |ds| ensures ds[i] != [] && NoSpace(ds[i]) && ParseInt(ds[i]) == Some(ns[i] as int) {
      DecimalToken(ns[i]);
    }
    WordsJoin(ds, sep);
    var r := Ints(ds);
    assert r.value == ns;
  }

  /** `float-list` of tokens separated by whitespace is the tokens' values. */
  lemma DecodeReals(ts: seq<string>, sep: string, parseFloat: FloatParser)
    requires sep != [] && AllSpace(sep)
    requires forall i :: 0 <= i < |ts| ==> ts[i] != [] && NoSpace(ts[i]) && parseFloat(ts[i]).Some?
    ensures Decode("float-list", Join(ts, sep), parseFloat)
      == Ok(Reals(seq(|ts|, i requires 0 <= i < |ts| => parseFloat(ts[i]).value)))
  {
    WordsJoin(ts, sep);
    var r := Floats(ts, parseFloat);
    assert r.value == seq(|ts|, i requires 0 <= i < |ts| => parseFloat(ts[i]).value);
  }

  // ---------------------------------------------------------------------
  // The header fold

  /** The outcome of every line, in order. */
  function LineResults(lines: seq<string>, schema: Schema, parseFloat: FloatParser): (rs: seq<LineResult>)
    ensures |rs| == |lines|
    ensures forall i :: 0 <= i < |lines| ==> rs[i] == ParseHeaderLine(lines[i], schema, parseFloat)
  {
    seq(|lines|, i requires 0 <= i < |lines| => ParseHeaderLine(lines[i], schema, parseFloat))
  }

  /** The header loop from `acc` on: decoded lines overwrite, skipped lines
      change nothing, any other failure ends the read. */
  function Fold(acc: Header, rs: seq<LineResult>): (r: Result<Header>)
    ensures r.Ok? <==> NoFailure(rs)
    ensures r.Ok? ==> acc.Keys <= r.value.Keys
    decreases |rs|
  {
    if rs == [] then Ok(acc)
    else
      assert forall i :: 0 <= i < |rs| - 1 ==> rs[1..][i] == rs[i + 1];
      match rs[0]
      case Decoded(k, v) => Fold(acc[k := v], rs[1..])
      case Skipped(_) => Fold(acc, rs[1..])
      case Failed(e) => Err(e)
  }

  /** One step of the fold, stated without opening the line decoder. */
  lemma FoldStep(acc: Header, rs: seq<LineResult>)
    requires rs != []
    ensures rs[0].Failed? ==> Fold(acc, rs) == Err(rs[0].error)
    ensures rs[0].Skipped? ==> Fold(acc, rs) == Fold(acc, rs[1..])
    ensures rs[0].Decoded? ==> Fold(acc, rs) == Fold(acc[rs[0].key := rs[0].value], rs[1..])
  {
  }

  /** The header `_read_header` builds from the lines of a file. */
  function HeaderOf(lines: seq<string>, schema: Schema, parseFloat: FloatParser): (r: Result<Header>)
    ensures r.Ok? <==> forall i :: 0 <= i < |lines| ==> !ParseHeaderLine(lines[i], schema, parseFloat).Failed?
  {
    Fold(map[], LineResults(lines, schema, parseFloat))
  }

  /** `_read_header`: read the lines, decode each, keep the decoded pairs. */
  method ReadHeader(text: string, schema: Schema, parseFloat: FloatParser) returns (r: Result<Header>)
    ensures r == HeaderOf(Lines(text), schema, parseFloat)
  {
    var lines := Lines(text);
    ghost var rs := LineResults(lines, schema, parseFloat);
    var result: Header := map[];
    var i := 0;
    while i < |lines|
      invariant 0 <= i <= |lines|
      invariant Fold(result, rs[i..]) == Fold(map[], rs)
    {
      var line := ParseHeaderLine(lines[i], schema, parseFloat);
      assert line == rs[i];
      FoldStep(result, rs[i..]);
      assert rs[i..][0] == rs[i] && rs[i..][1..] == rs[i + 1..];
      if line.Failed? {
        return Err(line.error);
      } else if line.Decoded? {
        result := result[line.key := line.value];
      }
      i := i + 1;
    }
    return Ok(result);
  }

  /** Reference reading of a header: the value of the LAST line that decodes
      `key`, if there is one. */
  function LastValue(rs: seq<LineResult>, key: string): Option<Value> {
    if rs == [] then None
    else
      match LastValue(rs[1..], key)
      case Some(v) => Some(v)
      case None => if rs[0].Decoded? && rs[0].key == key then Some(rs[0].value) else None
  }

  predicate NoFailure(rs: seq<LineResult>) {
    forall i :: 0 <= i < |rs| ==> !rs[i].Failed?
  }

  /** After the fold, `key` holds its last decoded value, or its value in
      `acc` when no line decodes it. */
  function Overlay(acc: Header, rs: seq<LineResult>, key: string): Option<Value> {
    match LastValue(rs, key)
    case Some(v) => Some(v)
    case None => if key in acc then Some(acc[key]) else None
  }

  lemma {:induction false} FoldLast(acc: Header, rs: seq<LineResult>, key: string)
    requires NoFailure(rs)
    ensures Fold(acc, rs).Ok?
    ensures var h := Fold(acc, rs).value;
      if key in h then Overlay(acc, rs, key) == Some(h[key]) else Overlay(acc, rs, key) == None
    decreases |rs|
  {
    if rs != [] {
      assert NoFailure(rs[1..]) by {
        assert forall i :: 0 <= i < |rs| - 1 ==> rs[1..][i] == rs[i + 1];
      }
      assert !rs[0].Failed?;
      match rs[0]
      case Decoded(k, v) => FoldLast(acc[k := v], rs[1..], key);
      case Skipped(_) => FoldLast(acc, rs[1..], key);
    }
  }

  /** A header read without a failing line holds exactly the keywords some
      line decodes, each with the value of the last such line. */
  lemma HeaderKeepsLastValue(lines: seq<string>, schema: Schema, parseFloat: FloatParser)
    requires NoFailure(LineResults(lines, schema, parseFloat))
    ensures HeaderOf(lines, schema, parseFloat).Ok?
    ensures forall k :: k in HeaderOf(lines, schema, parseFloat).value <==>
      LastValue(LineResults(lines, schema, parseFloat), k).Some?
    ensures forall k :: k in HeaderOf(lines, schema, parseFloat).value ==>
      HeaderOf(lines, schema, parseFloat).value[k] == LastValue(LineResults(lines, schema, parseFloat), k).value
  {
    var rs := LineResults(lines, schema, parseFloat);
    FoldLast(map[], rs, "");
    var h := Fold(map[], rs).value;
    forall k ensures if k in h then LastValue(rs, k) == Some(h[k]) else LastValue(rs, k) == None
    {
      FoldLast(map[], rs, k);
    }
  }

  /** A failed read reports the error of the first failing line. */
  lemma {:induction false} FoldFirstFailure(acc: Header, rs: seq<LineResult>) returns (i: nat)
    requires Fold(acc, rs).Err?
    ensures i < |rs| && rs[i] == Failed(Fold(acc, rs).error)
    ensures NoFailure(rs[..i])
    decreases |rs|
  {
    match rs[0]
    case Decoded(k, v) =>
      var j := FoldFirstFailure(acc[k := v], rs[1..]);
      i := j + 1;
      assert rs[..i] == [rs[0]] + rs[1..][..j];
    case Skipped(_) =>
      var j := FoldFirstFailure(acc, rs[1..]);
      i := j + 1;
      assert rs[..i] == [rs[0]] + rs[1..][..j];
    case Failed(_) =>
      i := 0;
  }

  /** `_read_header` fails exactly when one of the lines fails, and then with
      the error of the first failing line: every error but SkipLine and the
      unknown keyword aborts the read. */
  lemma HeaderFailsAtFirstFailure(lines: seq<string>, schema: Schema, parseFloat: FloatParser)
    ensures HeaderOf(lines, schema, parseFloat).Err? ==>
      exists i :: 0 <= i < |lines|
        && (forall j :: 0 <= j < i ==> !ParseHeaderLine(lines[j], schema, parseFloat).Failed?)
        && ParseHeaderLine(lines[i], schema, parseFloat) == Failed(HeaderOf(lines, schema, parseFloat).error)
  {
    var rs := LineResults(lines, schema, parseFloat);
    if Fold(map[], rs).Err? {
      var i := FoldFirstFailure(map[], rs);
      assert forall j :: 0 <= j < i ==> rs[..i][j] == rs[j];
    }
  }

  lemma {:induction false} FoldAppend(acc: Header, a: seq<LineResult>, b: seq<LineResult>)
    ensures Fold(acc, a + b) ==
      match Fold(acc, a)
      case Ok(h) => Fold(h, b)
      case Err(e) => Err(e)
    decreases |a|
  {
    if a == [] {
      assert a + b == b;
    } else {
      assert (a + b)[0] == a[0];
      assert (a + b)[1..] == a[1..] + b;
      match a[0]
      case Decoded(k, v) => FoldAppend(acc[k := v], a[1..], b);
      case Skipped(_) => FoldAppend(acc, a[1..], b);
      case Failed(e) =>
    }
  }

  lemma LineResultsAppend(a: seq<string>, b: seq<string>, schema: Schema, parseFloat: FloatParser)
    ensures LineResults(a + b, schema, parseFloat) == LineResults(a, schema, parseFloat) + LineResults(b, schema, parseFloat)
  {
    var ra, rb := LineResults(a, schema, parseFloat), LineResults(b, schema, parseFloat);
    var rab := LineResults(a + b, schema, parseFloat);
    forall i | 0 <= i < |a + b| ensures rab[i] == (ra + rb)[i] {
      if i < |a| {
        assert (a + b)[i] == a[i];
      } else {
        assert (a + b)[i] == b[i - |a|];
      }
    }
  }

  lemma FoldSkipped(acc: Header, ra: seq<LineResult>, r: LineResult, rb: seq<LineResult>)
    requires r.Skipped?
    ensures Fold(acc, ra + [r] + rb) == Fold(acc, ra + rb)
  {
    assert ra + [r] + rb == ra + ([r] + rb);
    FoldAppend(acc, ra, [r] + rb);
    FoldAppend(acc, ra, rb);
    assert ([r] + rb)[1..] == rb;
    FoldStep(acc, [r] + rb);
  }

  /** A skipped line, wherever it stands, leaves the header unchanged. */
  lemma SkippedLineIsIgnored(a: seq<string>, line: string, b: seq<string>, schema: Schema, parseFloat: FloatParser)
    requires ParseHeaderLine(line, schema, parseFloat).Skipped?
    ensures HeaderOf(a + [line] + b, schema, parseFloat) == HeaderOf(a + b, schema, parseFloat)
  {
    LineResultsAppend(a + [line], b, schema, parseFloat);
    LineResultsAppend(a, [line], schema, parseFloat);
    LineResultsAppend(a, b, schema, parseFloat);
    var rl := LineResults([line], schema, parseFloat);
    assert rl == [rl[0]];
    FoldSkipped(map[], LineResults(a, schema, parseFloat), rl[0], LineResults(b, schema, parseFloat));
  }

  lemma {:induction false} FoldWellTyped(acc: Header, rs: seq<LineResult>, schema: Schema)
    requires WellTyped(acc, schema)
    requires forall i :: 0 <= i < |rs| && rs[i].Decoded? ==> rs[i].key in schema && Fits(rs[i].value, schema[rs[i].key])
    ensures Fold(acc, rs).Ok? ==> WellTyped(Fold(acc, rs).value, schema)
    decreases |rs|
  {
    if rs != [] {
      assert forall i :: 0 <= i < |rs| - 1 ==> rs[1..][i] == rs[i + 1];
      match rs[0]
      case Decoded(k, v) => FoldWellTyped(acc[k := v], rs[1..], schema);
      case Skipped(_) => FoldWellTyped(acc, rs[1..], schema);
      case Failed(e) =>
    }
  }

  /** Every value of a decoded header has the kind its keyword's conversion
      produces. */
  lemma HeaderWellTyped(lines: seq<string>, schema: Schema, parseFloat: FloatParser)
    ensures HeaderOf(lines, schema, parseFloat).Ok? ==> WellTyped(HeaderOf(lines, schema, parseFloat).value, schema)
  {
    FoldWellTyped(map[], LineResults(lines, schema, parseFloat), schema);
  }
}
