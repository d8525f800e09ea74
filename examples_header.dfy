/** Worked header lines: the decoded values and exceptions the reader's own
    tests pin down, derived from the general lemmas about the decoder. Each
    line is written as its keyword, its whitespace run and its rest. */
module HeaderCases {
  import opened Outcomes
  import opened Strings
  import opened Header
  import Definitions

  /** A line `key + gap + rest` with a known keyword is decoded by that
      keyword's conversion. */
  lemma KnownKeyword(schema: Schema, key: string, gap: string, rest: string, r: Result<Value>, parseFloat: FloatParser)
    requires AllSpace(gap) && gap != [] && key != [] && NoSpace(key) && key in schema
    requires rest != [] && !IsSpace(rest[0])
    requires Decode(schema[key], rest, parseFloat) == r
    ensures ParseHeaderLine(key + gap + rest, schema, parseFloat) == if r.Ok? then Decoded(key, r.value) else Failed(r.error)
  {
    assert key + gap + rest == [] + key + gap + rest;
    ParseKeywordLine([], key, gap, rest, schema, parseFloat);
  }

  // ---------------------------------------------------------------------
  // The rests of the test lines, decoded

  lemma Four(parseFloat: FloatParser)
    ensures Decode("int", "4", parseFloat) == Ok(Integer(4))
  {
    assert IsDigitGroup("4") && DigitsValue("4") == 4;
    DigitsToken("4");
  }

  lemma FourNewline(parseFloat: FloatParser)
    ensures Decode("int", "4\n", parseFloat) == Ok(Integer(4))
  {
    Four(parseFloat);
    assert "4\n" == "" + "4" + "\n";
    IntPadded("", "4", "\n");
  }

  /** `int()` skips a no-break space after the number but not the file
      separator U+001C, although `str.isspace()` holds for both. */
  lemma FourSeparator(parseFloat: FloatParser)
    ensures Decode("int", "4\U{a0}", parseFloat) == Ok(Integer(4))
    ensures Decode("int", "4\U{1c}", parseFloat) == Err(BadInt("4\U{1c}"))
  {
    Four(parseFloat);
    assert "4\U{a0}" == "" + "4" + "\U{a0}";
    IntPadded("", "4", "\U{a0}");
    SeparatorRejected();
  }

  lemma SeparatorRejected()
    ensures ParseInt("4\U{1c}") == None
  {
    var t := IntText("4\U{1c}");
    assert t == "4?";
    assert SpaceRun(t) == 0;
    assert TrailingSpace(t) == 0;
    assert Strip(t) == t;
    assert !IsDigitGroup(t);
  }

  lemma OneTwo(parseFloat: FloatParser)
    ensures Decode("int-list", "1 2", parseFloat) == Ok(Integers([1, 2]))
  {
    assert Decimals([1, 2]) == ["1", "2"];
    assert Join(["1", "2"], " ") == "1 2";
    DecodeInts([1, 2], " ", parseFloat);
  }

  lemma Powprod(parseFloat: FloatParser)
    ensures Decode("string-remove", "'POWPROD'", parseFloat) == Ok(Text("POWPROD"))
  {
    assert "'POWPROD'" == "'" + "POWPROD" + "'";
    DecodeQuoted("POWPROD", parseFloat);
  }

  lemma Units(parseFloat: FloatParser)
    ensures Decode("string-list", "FL P P", parseFloat) == Ok(Names(["FL", "P", "P"]))
  {
    assert Join(["FL", "P", "P"], " ") == "FL P P";
    DecodeSpaced(["FL", "P", "P"], parseFloat);
  }

  const TestNames: seq<string> := ["Generator torque", "Electrical power", "Generator power loss"]

  /** The VARIAB rest of the tests: the three names, each in quotes,
      separated by single spaces. */
  const TestVariab: string := Quote("Generator torque") + " " + Quote("Electrical power") + " " + Quote("Generator power loss")

  lemma QuotedThree(a: string, b: string, c: string)
    ensures QuotedList([a, b, c]) == Quote(a) + " " + Quote(b) + " " + Quote(c)
  {
    assert [a, b, c][1..] == [b, c] && [b, c][1..] == [c];
    assert QuotedList([b, c]) == Quote(b) + " " + QuotedList([c]);
    assert QuotedList([a, b, c]) == Quote(a) + " " + QuotedList([b, c]);
  }

  lemma TestNamesChars()
    ensures forall i :: 0 <= i < |TestNames| ==> TestNames[i] != [] && AllNameChars(TestNames[i])
  {
    assert AllNameChars("Generator torque");
    assert AllNameChars("Electrical power");
    assert AllNameChars("Generator power loss");
  }

  lemma Variables(parseFloat: FloatParser)
    ensures Decode("string-list-remove", TestVariab, parseFloat) == Ok(Names(TestNames))
  {
    QuotedThree("Generator torque", "Electrical power", "Generator power loss");
    TestNamesChars();
    DecodeQuotedList(TestNames, parseFloat);
  }

  /** The AXIVAL rest of the tests: two numbers separated by a space. */
  const AxisRest: string := "0.0000000E+000" + " " + "1.0000E+000"

  lemma Axis(parseFloat: FloatParser)
    requires parseFloat("0.0000000E+000").Some? && parseFloat("1.0000E+000").Some?
    ensures Decode("float-list", AxisRest, parseFloat)
      == Ok(Reals([parseFloat("0.0000000E+000").value, parseFloat("1.0000E+000").value]))
  {
    var ts := ["0.0000000E+000", "1.0000E+000"];
    assert Join(ts, " ") == "0.0000000E+000" + " " + "1.0000E+000";
    DecodeReals(ts, " ", parseFloat);
    assert seq(|ts|, i requires 0 <= i < |ts| => parseFloat(ts[i]).value)
      == [parseFloat("0.0000000E+000").value, parseFloat("1.0000E+000").value];
  }

  // ---------------------------------------------------------------------
  // The tests, for any keyword table that gives the keywords the kinds the
  // shipped table gives them

  predicate TestKinds(schema: Schema) {
    && "RECL" in schema && schema["RECL"] == "int"
    && "FORMAT" in schema && schema["FORMAT"] == "numpy-dtype"
    && "DIMENS" in schema && schema["DIMENS"] == "int-list"
    && "FILE" in schema && schema["FILE"] == "string"
    && "CONTENT" in schema && schema["CONTENT"] == "string-remove"
    && "VARUNIT" in schema && schema["VARUNIT"] == "string-list"
    && "VARIAB" in schema && schema["VARIAB"] == "string-list-remove"
    && "MIN" in schema && schema["MIN"] == "float"
    && "AXIVAL" in schema && schema["AXIVAL"] == "float-list"
    && "A" !in schema
  }

  /** `A` is no keyword of the shipped table. */
  lemma NotKeyword()
    ensures "A" !in Definitions.Supported
  {
    Definitions.MandatoryKeys();
    Definitions.OptionalKeys();
  }

  lemma SupportedTestKinds()
    ensures TestKinds(Definitions.Supported)
  {
    Definitions.KeyKinds();
    NotKeyword();
  }

  /** The pieces of the test lines: keywords are single tokens, gaps are
      whitespace, rests start with a non-whitespace character. */
  lemma Gaps()
    ensures AllSpace("\t") && AllSpace("\t  ") && AllSpace(" ") && AllSpace(" \t")
  {
  }

  lemma Keywords()
    ensures NoSpace("RECL") && NoSpace("FORMAT") && NoSpace("DIMENS") && NoSpace("FILE") && NoSpace("CONTENT")
    ensures NoSpace("VARUNIT") && NoSpace("VARIAB") && NoSpace("MIN") && NoSpace("AXIVAL")
  {
  }

  lemma Rests()
    ensures !IsSpace('4') && !IsSpace('R') && !IsSpace('I') && !IsSpace('X') && !IsSpace('1')
    ensures !IsSpace('p') && !IsSpace('\'') && !IsSpace('F') && !IsSpace('0')
  {
  }

  lemma Pieces()
    ensures AllSpace("\t") && AllSpace("\t  ") && AllSpace(" ") && AllSpace(" \t")
    ensures NoSpace("RECL") && NoSpace("FORMAT") && NoSpace("DIMENS") && NoSpace("FILE") && NoSpace("CONTENT")
    ensures NoSpace("VARUNIT") && NoSpace("VARIAB") && NoSpace("MIN") && NoSpace("AXIVAL")
    ensures !IsSpace('4') && !IsSpace('R') && !IsSpace('I') && !IsSpace('X') && !IsSpace('1')
    ensures !IsSpace('p') && !IsSpace('\'') && !IsSpace('F') && !IsSpace('0')
  {
    Gaps();
    Keywords();
    Rests();
  }

  lemma FormattingFor(schema: Schema, parseFloat: FloatParser)
    requires TestKinds(schema)
    ensures ParseHeaderLine("RECL" + "\t" + "4", schema, parseFloat) == Decoded("RECL", Integer(4))
    ensures ParseHeaderLine("RECL" + "\t" + "4\n", schema, parseFloat) == Decoded("RECL", Integer(4))
    ensures ParseHeaderLine("RECL" + "\t  " + "4", schema, parseFloat) == Decoded("RECL", Integer(4))
    ensures ParseHeaderLine("RECL" + " " + "4", schema, parseFloat) == Decoded("RECL", Integer(4))
  {
    Pieces();
    Four(parseFloat);
    FourNewline(parseFloat);
    KnownKeyword(schema, "RECL", "\t", "4", Ok(Integer(4)), parseFloat);
    KnownKeyword(schema, "RECL", "\t", "4\n", Ok(Integer(4)), parseFloat);
    KnownKeyword(schema, "RECL", "\t  ", "4", Ok(Integer(4)), parseFloat);
    KnownKeyword(schema, "RECL", " ", "4", Ok(Integer(4)), parseFloat);
  }

  lemma FailuresFor(schema: Schema, parseFloat: FloatParser)
    requires TestKinds(schema)
    ensures ParseHeaderLine("ABC", schema, parseFloat) == Skipped(SkipLine)
    ensures ParseHeaderLine("A" + " " + "B", schema, parseFloat) == Skipped(UnknownKeyword("A"))
    ensures ParseHeaderLine("FORMAT" + " " + "X", schema, parseFloat) == Failed(BadDType("X"))
  {
    SingleTokenFor(schema, parseFloat);
    UnknownKeywordFor(schema, parseFloat);
    UnknownCodeFor(schema, parseFloat);
  }

  lemma UnknownCodeFor(schema: Schema, parseFloat: FloatParser)
    requires "FORMAT" in schema && schema["FORMAT"] == "numpy-dtype"
    ensures ParseHeaderLine("FORMAT" + " " + "X", schema, parseFloat) == Failed(BadDType("X"))
  {
    assert AllSpace(" ") && NoSpace("FORMAT") && !IsSpace('X');
    assert Decode("numpy-dtype", "X", parseFloat) == Err(BadDType("X"));
    KnownKeyword(schema, "FORMAT", " ", "X", Err(BadDType("X")), parseFloat);
  }

  lemma SingleTokenFor(schema: Schema, parseFloat: FloatParser)
    ensures ParseHeaderLine("ABC", schema, parseFloat) == Skipped(SkipLine)
  {
    assert NoSpace("ABC") && AllSpace([]);
    assert "ABC" == [] + "ABC" + [];
    ParseSingleToken([], "ABC", [], schema, parseFloat);
  }

  lemma UnknownKeywordFor(schema: Schema, parseFloat: FloatParser)
    requires "A" !in schema
    ensures ParseHeaderLine("A" + " " + "B", schema, parseFloat) == Skipped(UnknownKeyword("A"))
  {
    assert NoSpace("A") && AllSpace(" ") && AllSpace([]) && !IsSpace('B');
    assert "A" + " " + "B" == [] + "A" + " " + "B";
    ParseUnknownKeyword([], "A", " ", "B", schema, parseFloat);
  }

  lemma NumericFor(schema: Schema, parseFloat: FloatParser)
    requires TestKinds(schema)
    ensures ParseHeaderLine("DIMENS" + "\t" + "1 2", schema, parseFloat) == Decoded("DIMENS", Integers([1, 2]))
    ensures ParseHeaderLine("FORMAT" + "\t" + "R*4", schema, parseFloat) == Decoded("FORMAT", Code(F4))
    ensures ParseHeaderLine("FORMAT" + "\t" + "R*8", schema, parseFloat) == Decoded("FORMAT", Code(F8))
    ensures ParseHeaderLine("FORMAT" + "\t" + "I*4", schema, parseFloat) == Decoded("FORMAT", Code(I4))
  {
    Pieces();
    OneTwo(parseFloat);
    KnownKeyword(schema, "DIMENS", "\t", "1 2", Ok(Integers([1, 2])), parseFloat);
    KnownKeyword(schema, "FORMAT", "\t", "R*4", Ok(Code(F4)), parseFloat);
    KnownKeyword(schema, "FORMAT", "\t", "R*8", Ok(Code(F8)), parseFloat);
    KnownKeyword(schema, "FORMAT", "\t", "I*4", Ok(Code(I4)), parseFloat);
  }

  /** For any table: `I*3` is rejected when FORMAT is `numpy-dtype`, and a
      conversion the decoder lacks is the NotImplementedError. */
  lemma TypeFailureFor(schema: Schema, kind: string, parseFloat: FloatParser)
    requires "FORMAT" in schema && schema["FORMAT"] == kind
    ensures kind == "numpy-dtype" ==> ParseHeaderLine("FORMAT" + "\t" + "I*3", schema, parseFloat) == Failed(BadDType("I*3"))
    ensures kind !in Definitions.HandledKinds ==> ParseHeaderLine("FORMAT" + "\t" + "I*3", schema, parseFloat) == Failed(UnknownKind(kind))
  {
    if kind == "numpy-dtype" {
      BadCodeFor(schema, parseFloat);
    } else if kind !in Definitions.HandledKinds {
      NoConversionFor(schema, kind, parseFloat);
    }
  }

  /** The FORMAT line of a table, decoded by the table's FORMAT conversion. */
  lemma FormatLine(schema: Schema, rest: string, parseFloat: FloatParser)
    requires "FORMAT" in schema && rest != [] && !IsSpace(rest[0])
    ensures var r := Decode(schema["FORMAT"], rest, parseFloat);
      ParseHeaderLine("FORMAT" + "\t" + rest, schema, parseFloat) == if r.Ok? then Decoded("FORMAT", r.value) else Failed(r.error)
  {
    assert AllSpace("\t") && NoSpace("FORMAT");
    KnownKeyword(schema, "FORMAT", "\t", rest, Decode(schema["FORMAT"], rest, parseFloat), parseFloat);
  }

  lemma BadCodeFor(schema: Schema, parseFloat: FloatParser)
    requires "FORMAT" in schema && schema["FORMAT"] == "numpy-dtype"
    ensures ParseHeaderLine("FORMAT" + "\t" + "I*3", schema, parseFloat) == Failed(BadDType("I*3"))
  {
    assert AllSpace("\t") && NoSpace("FORMAT") && !IsSpace('I');
    assert Decode("numpy-dtype", "I*3", parseFloat) == Err(BadDType("I*3"));
    KnownKeyword(schema, "FORMAT", "\t", "I*3", Err(BadDType("I*3")), parseFloat);
  }

  lemma NoConversionFor(schema: Schema, kind: string, parseFloat: FloatParser)
    requires "FORMAT" in schema && schema["FORMAT"] == kind && kind !in Definitions.HandledKinds
    ensures ParseHeaderLine("FORMAT" + "\t" + "I*3", schema, parseFloat) == Failed(UnknownKind(kind))
  {
    assert !IsSpace('I');
    FormatLine(schema, "I*3", parseFloat);
    var r := Decode(kind, "I*3", parseFloat);
    assert r.Err? && r.error.UnknownKind?;
  }

  lemma TextFor(schema: Schema, parseFloat: FloatParser)
    requires TestKinds(schema)
    ensures ParseHeaderLine("FILE" + "\t" + "powprod_12ms.$06", schema, parseFloat) == Decoded("FILE", Text("powprod_12ms.$06"))
    ensures ParseHeaderLine("CONTENT" + "\t" + "'POWPROD'", schema, parseFloat) == Decoded("CONTENT", Text("POWPROD"))
  {
    Pieces();
    KnownKeyword(schema, "FILE", "\t", "powprod_12ms.$06", Ok(Text("powprod_12ms.$06")), parseFloat);
    Powprod(parseFloat);
    KnownKeyword(schema, "CONTENT", "\t", "'POWPROD'", Ok(Text("POWPROD")), parseFloat);
  }

  lemma ListsFor(schema: Schema, parseFloat: FloatParser)
    requires TestKinds(schema)
    ensures ParseHeaderLine("VARUNIT" + "\t" + "FL P P", schema, parseFloat) == Decoded("VARUNIT", Names(["FL", "P", "P"]))
    ensures ParseHeaderLine("VARIAB" + "\t" + TestVariab, schema, parseFloat) == Decoded("VARIAB", Names(TestNames))
  {
    Pieces();
    Units(parseFloat);
    KnownKeyword(schema, "VARUNIT", "\t", "FL P P", Ok(Names(["FL", "P", "P"])), parseFloat);
    Variables(parseFloat);
    KnownKeyword(schema, "VARIAB", "\t", TestVariab, Ok(Names(TestNames)), parseFloat);
  }

  lemma MinFor(schema: Schema, parseFloat: FloatParser)
    requires TestKinds(schema)
    requires parseFloat("0.0000000E+000").Some?
    ensures ParseHeaderLine("MIN" + " \t" + "0.0000000E+000", schema, parseFloat)
      == Decoded("MIN", Real(parseFloat("0.0000000E+000").value))
  {
    Pieces();
    KnownKeyword(schema, "MIN", " \t", "0.0000000E+000", Ok(Real(parseFloat("0.0000000E+000").value)), parseFloat);
  }

  lemma AxisFor(schema: Schema, parseFloat: FloatParser)
    requires TestKinds(schema)
    requires parseFloat("0.0000000E+000").Some? && parseFloat("1.0000E+000").Some?
    ensures ParseHeaderLine("AXIVAL" + " \t" + AxisRest, schema, parseFloat)
      == Decoded("AXIVAL", Reals([parseFloat("0.0000000E+000").value, parseFloat("1.0000E+000").value]))
  {
    Pieces();
    var x, y := parseFloat("0.0000000E+000").value, parseFloat("1.0000E+000").value;
    Axis(parseFloat);
    assert AxisRest[0] == '0';
    KnownKeyword(schema, "AXIVAL", " \t", AxisRest, Ok(Reals([x, y])), parseFloat);
  }

  // ---------------------------------------------------------------------
  // The tests, with the shipped keyword table

  /** RECL 4 after a tab, with the newline still on the line, after a tab
      and spaces, and after a space: the whole whitespace run separates and
      `int()` ignores the trailing newline. */
  lemma ParseHeaderLineFormatting(parseFloat: FloatParser)
    ensures ParseHeaderLine("RECL" + "\t" + "4", Definitions.Supported, parseFloat) == Decoded("RECL", Integer(4))
    ensures ParseHeaderLine("RECL" + "\t" + "4\n", Definitions.Supported, parseFloat) == Decoded("RECL", Integer(4))
    ensures ParseHeaderLine("RECL" + "\t  " + "4", Definitions.Supported, parseFloat) == Decoded("RECL", Integer(4))
    ensures ParseHeaderLine("RECL" + " " + "4", Definitions.Supported, parseFloat) == Decoded("RECL", Integer(4))
  {
    SupportedTestKinds();
    FormattingFor(Definitions.Supported, parseFloat);
  }

  /** A single token is SkipLine, an unknown keyword is the KeyError, and an
      unknown FORMAT code is the ValueError. */
  lemma ParseHeaderLineFailures(parseFloat: FloatParser)
    ensures ParseHeaderLine("ABC", Definitions.Supported, parseFloat) == Skipped(SkipLine)
    ensures ParseHeaderLine("A" + " " + "B", Definitions.Supported, parseFloat) == Skipped(UnknownKeyword("A"))
    ensures ParseHeaderLine("FORMAT" + " " + "X", Definitions.Supported, parseFloat) == Failed(BadDType("X"))
  {
    SupportedTestKinds();
    FailuresFor(Definitions.Supported, parseFloat);
  }

  /** One line of each of the nine conversions. */
  lemma ParseHeaderLineTypes(parseFloat: FloatParser)
    requires parseFloat("0.0000000E+000").Some? && parseFloat("1.0000E+000").Some?
    ensures ParseHeaderLine("RECL" + "\t" + "4", Definitions.Supported, parseFloat) == Decoded("RECL", Integer(4))
    ensures ParseHeaderLine("DIMENS" + "\t" + "1 2", Definitions.Supported, parseFloat) == Decoded("DIMENS", Integers([1, 2]))
    ensures ParseHeaderLine("FILE" + "\t" + "powprod_12ms.$06", Definitions.Supported, parseFloat)
      == Decoded("FILE", Text("powprod_12ms.$06"))
    ensures ParseHeaderLine("CONTENT" + "\t" + "'POWPROD'", Definitions.Supported, parseFloat)
      == Decoded("CONTENT", Text("POWPROD"))
    ensures ParseHeaderLine("VARUNIT" + "\t" + "FL P P", Definitions.Supported, parseFloat)
      == Decoded("VARUNIT", Names(["FL", "P", "P"]))
    ensures ParseHeaderLine("VARIAB" + "\t" + TestVariab, Definitions.Supported, parseFloat) == Decoded("VARIAB", Names(TestNames))
    ensures ParseHeaderLine("MIN" + " \t" + "0.0000000E+000", Definitions.Supported, parseFloat)
      == Decoded("MIN", Real(parseFloat("0.0000000E+000").value))
    ensures ParseHeaderLine("AXIVAL" + " \t" + AxisRest, Definitions.Supported, parseFloat)
      == Decoded("AXIVAL", Reals([parseFloat("0.0000000E+000").value, parseFloat("1.0000E+000").value]))
    ensures ParseHeaderLine("FORMAT" + "\t" + "R*4", Definitions.Supported, parseFloat) == Decoded("FORMAT", Code(F4))
    ensures ParseHeaderLine("FORMAT" + "\t" + "R*8", Definitions.Supported, parseFloat) == Decoded("FORMAT", Code(F8))
    ensures ParseHeaderLine("FORMAT" + "\t" + "I*4", Definitions.Supported, parseFloat) == Decoded("FORMAT", Code(I4))
  {
    SupportedTestKinds();
    FormattingFor(Definitions.Supported, parseFloat);
    NumericFor(Definitions.Supported, parseFloat);
    TextFor(Definitions.Supported, parseFloat);
    ListsFor(Definitions.Supported, parseFloat);
    MinFor(Definitions.Supported, parseFloat);
    AxisFor(Definitions.Supported, parseFloat);
  }

  /** `I*3` is no FORMAT code; a table naming a conversion the decoder
      lacks gives the NotImplementedError instead. */
  lemma ParseHeaderLineTypeFailure(parseFloat: FloatParser)
    ensures ParseHeaderLine("FORMAT" + "\t" + "I*3", Definitions.Supported, parseFloat) == Failed(BadDType("I*3"))
    ensures ParseHeaderLine("FORMAT" + "\t" + "I*3", map["FORMAT" := "NON_EXISTING_METHOD"], parseFloat)
      == Failed(UnknownKind("NON_EXISTING_METHOD"))
  {
    Definitions.KeyKinds();
    TypeFailureFor(Definitions.Supported, "numpy-dtype", parseFloat);
    UnknownConversion(parseFloat);
  }

  lemma UnknownConversion(parseFloat: FloatParser)
    ensures ParseHeaderLine("FORMAT" + "\t" + "I*3", map["FORMAT" := "NON_EXISTING_METHOD"], parseFloat)
      == Failed(UnknownKind("NON_EXISTING_METHOD"))
  {
    var schema := map["FORMAT" := "NON_EXISTING_METHOD"];
    assert "FORMAT" in schema && schema["FORMAT"] == "NON_EXISTING_METHOD";
    assert "NON_EXISTING_METHOD" !in Definitions.HandledKinds;
    TypeFailureFor(schema, "NON_EXISTING_METHOD", parseFloat);
  }
}
