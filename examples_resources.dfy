/** The header file of the reader's test resources, read line by line: the
    header it yields holds every mandatory keyword, DIMENS 3 20001, NDIMENS 2
    and the three variable names, and the load-summary lines are skipped. */
module ResourceHeader {
  import opened Outcomes
  import opened Strings
  import opened Header
  import Definitions
  import HeaderCases

  // ---------------------------------------------------------------------
  // The file, three lines at a time

  const DimensRest: string := "3" + "\t" + "20001"

  const Chunk1: seq<string> := ["FILE" + "\t" + "powprod_12ms.$06", "ACCESS" + "\t" + "D", "FORM" + "\t" + "F"]
  const Chunk2: seq<string> := ["RECL" + "\t" + "4", "FORMAT" + "\t" + "R*4", "CONTENT" + "\t" + "'POWPROD'"]
  const Chunk3: seq<string> := ["CONFIG" + "\t" + "'STATIONARY'", "NDIMENS" + "\t" + "2", "DIMENS" + "\t" + DimensRest]
  const Chunk4: seq<string> := ["GENLAB" + "\t" + "'Generator variables'", "VARIAB" + "\t" + HeaderCases.TestVariab, "VARUNIT" + "\t" + "FL P P"]
  const Chunk5: seq<string> := ["AXISLAB" + "\t" + "'Time'", "AXIUNIT" + "\t" + "T", "AXIMETH" + "\t" + "2"]
  const Chunk6: seq<string> := ["MIN" + " \t" + "0.0000000E+000", "STEP" + "\t" + "9.9999998E-003", "NVARS" + "\t" + "0"]
  /** The rests of the load-summary lines, three numbers apart. */
  const Loads: string := "7.1592855E+006" + "   " + "7.5046815E+006" + "   " + "0.0000000E+000"
  const MaxTimes: string := "0.0000000E+000" + "   " + "0.0000000E+000" + "   " + "0.0000000E+000"
  const MinTimes: string := "9.9999998E-003" + "   " + "9.9999998E-003" + "   " + "0.0000000E+000"
  const Means: string := "7.0889532E+006" + "   " + "7.4307285E+006" + "   " + "0.0000000E+000"
  /** The rests of the numeric continuation lines after their first number. */
  const TailA: string := "7.3428640E+006" + "   " + "0.0000000E+000"
  const TailB: string := "7.5046815E+006" + "   " + "0.0000000E+000"

  const Chunk7: seq<string> := [
    "ULOADS" + "   " + Loads,
    "   " + "7.0032420E+006" + "   " + TailA,
    "   " + "7.1592855E+006" + "   " + TailB]
  const Chunk8: seq<string> := [
    "   " + "7.0032420E+006" + "   " + TailA,
    "   " + "7.1592855E+006" + "   " + TailB,
    "   " + "7.1592855E+006" + "   " + TailB]
  const Chunk9: seq<string> := ["MAXTIME" + "   " + MaxTimes, "MINTIME" + "   " + MinTimes, "MEAN" + "   " + Means]

  /** The lines of the resource header, in file order. */
  const ResourceLines: seq<string> := Chunk1 + Chunk2 + Chunk3 + Chunk4 + Chunk5 + Chunk6 + Chunk7 + Chunk8 + Chunk9

  /** The text of the resource header file: every line ends with a newline. */
  const ResourceText: string := Unlines(ResourceLines)

  /** The header after the first fifteen lines, through AXIMETH. */
  function FirstHeader(): Header {
    map[][
      "FILE" := Text("powprod_12ms.$06")][
      "ACCESS" := Text("D")][
      "FORM" := Text("F")][
      "RECL" := Integer(4)][
      "FORMAT" := Code(F4)][
      "CONTENT" := Text("POWPROD")][
      "CONFIG" := Text("STATIONARY")][
      "NDIMENS" := Integer(2)][
      "DIMENS" := Integers([3, 20001])][
      "GENLAB" := Text("Generator variables")][
      "VARIAB" := Names(HeaderCases.TestNames)][
      "VARUNIT" := Names(["FL", "P", "P"])][
      "AXISLAB" := Text("Time")][
      "AXIUNIT" := Text("T")][
      "AXIMETH" := Integer(2)]
  }

  /** The header the reader's tests expect; the two floats are whatever the
      float parser makes of them. */
  function ResourceHeader(parseFloat: FloatParser): Header
    requires parseFloat("0.0000000E+000").Some? && parseFloat("9.9999998E-003").Some?
  {
    FirstHeader()[
      "MIN" := Real(parseFloat("0.0000000E+000").value)][
      "STEP" := Real(parseFloat("9.9999998E-003").value)][
      "NVARS" := Integer(0)]
  }

  /** The kinds the lines of the file need, and the keywords it uses that
      are in no table. */
  predicate ResourceKinds(schema: Schema) {
    && "FILE" in schema && schema["FILE"] == "string"
    && "ACCESS" in schema && schema["ACCESS"] == "string"
    && "FORM" in schema && schema["FORM"] == "string"
    && "RECL" in schema && schema["RECL"] == "int"
    && "FORMAT" in schema && schema["FORMAT"] == "numpy-dtype"
    && "CONTENT" in schema && schema["CONTENT"] == "string-remove"
    && "CONFIG" in schema && schema["CONFIG"] == "string-remove"
    && "NDIMENS" in schema && schema["NDIMENS"] == "int"
    && "DIMENS" in schema && schema["DIMENS"] == "int-list"
    && "GENLAB" in schema && schema["GENLAB"] == "string-remove"
    && "VARIAB" in schema && schema["VARIAB"] == "string-list-remove"
    && "VARUNIT" in schema && schema["VARUNIT"] == "string-list"
    && "AXISLAB" in schema && schema["AXISLAB"] == "string-remove"
    && "AXIUNIT" in schema && schema["AXIUNIT"] == "string"
    && "AXIMETH" in schema && schema["AXIMETH"] == "int"
    && "MIN" in schema && schema["MIN"] == "float"
    && "STEP" in schema && schema["STEP"] == "float"
    && "NVARS" in schema && schema["NVARS"] == "int"
    && "ULOADS" !in schema && "MAXTIME" !in schema && "MINTIME" !in schema && "MEAN" !in schema
    && "7.0032420E+006" !in schema && "7.1592855E+006" !in schema
  }

  // ---------------------------------------------------------------------
  // Folding a few known outcomes

  lemma FoldThree(acc: Header, k1: string, v1: Value, k2: string, v2: Value, k3: string, v3: Value)
    ensures Fold(acc, [Decoded(k1, v1), Decoded(k2, v2), Decoded(k3, v3)]) == Ok(acc[k1 := v1][k2 := v2][k3 := v3])
  {
    var rs := [Decoded(k1, v1), Decoded(k2, v2), Decoded(k3, v3)];
    assert rs[1..] == [Decoded(k2, v2), Decoded(k3, v3)];
    assert rs[1..][1..] == [Decoded(k3, v3)];
    assert rs[1..][1..][1..] == [];
    FoldStep(acc, rs);
    FoldStep(acc[k1 := v1], rs[1..]);
    FoldStep(acc[k1 := v1][k2 := v2], rs[1..][1..]);
  }

  lemma FoldSkipThree(acc: Header, s1: Skip, s2: Skip, s3: Skip)
    ensures Fold(acc, [Skipped(s1), Skipped(s2), Skipped(s3)]) == Ok(acc)
  {
    var rs := [Skipped(s1), Skipped(s2), Skipped(s3)];
    assert rs[1..] == [Skipped(s2), Skipped(s3)];
    assert rs[1..][1..] == [Skipped(s3)];
    assert rs[1..][1..][1..] == [];
    FoldStep(acc, rs);
    FoldStep(acc, rs[1..]);
    FoldStep(acc, rs[1..][1..]);
  }

  /** Reading `a + b` is reading `a` and then going on with `b`. */
  lemma FoldLines(acc: Header, h: Header, a: seq<string>, b: seq<string>, schema: Schema, parseFloat: FloatParser)
    requires Fold(acc, LineResults(a, schema, parseFloat)) == Ok(h)
    ensures Fold(acc, LineResults(a + b, schema, parseFloat)) == Fold(h, LineResults(b, schema, parseFloat))
  {
    LineResultsAppend(a, b, schema, parseFloat);
    FoldAppend(acc, LineResults(a, schema, parseFloat), LineResults(b, schema, parseFloat));
  }

  /** Three lines with the given outcomes fold as those outcomes do. */
  lemma ChunkDecoded(acc: Header, c: seq<string>, schema: Schema, parseFloat: FloatParser,
                     k1: string, v1: Value, k2: string, v2: Value, k3: string, v3: Value)
    requires |c| == 3
    requires ParseHeaderLine(c[0], schema, parseFloat) == Decoded(k1, v1)
    requires ParseHeaderLine(c[1], schema, parseFloat) == Decoded(k2, v2)
    requires ParseHeaderLine(c[2], schema, parseFloat) == Decoded(k3, v3)
    ensures Fold(acc, LineResults(c, schema, parseFloat)) == Ok(acc[k1 := v1][k2 := v2][k3 := v3])
  {
    assert LineResults(c, schema, parseFloat) == [Decoded(k1, v1), Decoded(k2, v2), Decoded(k3, v3)];
    FoldThree(acc, k1, v1, k2, v2, k3, v3);
  }

  lemma ChunkSkipped(acc: Header, c: seq<string>, schema: Schema, parseFloat: FloatParser)
    requires |c| == 3
    requires ParseHeaderLine(c[0], schema, parseFloat).Skipped?
    requires ParseHeaderLine(c[1], schema, parseFloat).Skipped?
    requires ParseHeaderLine(c[2], schema, parseFloat).Skipped?
    ensures Fold(acc, LineResults(c, schema, parseFloat)) == Ok(acc)
  {
    var rs := LineResults(c, schema, parseFloat);
    assert rs[0].Skipped? && rs[1].Skipped? && rs[2].Skipped?;
    FoldSkippedThree(acc, rs);
  }

  lemma FoldSkippedThree(acc: Header, rs: seq<LineResult>)
    requires |rs| == 3 && rs[0].Skipped? && rs[1].Skipped? && rs[2].Skipped?
    ensures Fold(acc, rs) == Ok(acc)
  {
    assert rs == [Skipped(rs[0].why), Skipped(rs[1].why), Skipped(rs[2].why)];
    FoldSkipThree(acc, rs[0].why, rs[1].why, rs[2].why);
  }

  // ---------------------------------------------------------------------
  // The lines of each chunk, decoded

  /** The keywords of the FILE to DIMENS lines are single tokens, and the
      gaps after them are whitespace runs. */
  lemma Shapes1()
    ensures NoSpace("FILE") && NoSpace("ACCESS") && NoSpace("FORM")
    ensures NoSpace("RECL") && NoSpace("FORMAT") && NoSpace("CONTENT")
    ensures NoSpace("CONFIG") && NoSpace("NDIMENS") && NoSpace("DIMENS")
    ensures AllSpace("\t") && AllSpace(" \t") && AllSpace("   ")
  {
  }

  /** The keywords of the GENLAB to NVARS lines are single tokens. */
  lemma Shapes2()
    ensures NoSpace("GENLAB") && NoSpace("VARIAB") && NoSpace("VARUNIT")
    ensures NoSpace("AXISLAB") && NoSpace("AXIUNIT") && NoSpace("AXIMETH")
    ensures NoSpace("MIN") && NoSpace("STEP") && NoSpace("NVARS")
  {
  }

  /** The keywords and leading numbers of the ULOADS to MEAN lines are
      single tokens. */
  lemma Shapes3()
    ensures NoSpace("ULOADS") && NoSpace("MAXTIME") && NoSpace("MINTIME") && NoSpace("MEAN")
    ensures NoSpace("7.0032420E+006") && NoSpace("7.1592855E+006")
  {
  }

  /** The first characters of the rests of the resource lines are not
      whitespace, so each rest starts where the gap ends. */
  lemma Firsts()
    ensures !IsSpace('p') && !IsSpace('D') && !IsSpace('F') && !IsSpace('4') && !IsSpace('R')
    ensures !IsSpace('\'') && !IsSpace('2') && !IsSpace('3') && !IsSpace('T') && !IsSpace('0')
    ensures !IsSpace('9') && !IsSpace('7')
  {
  }

  lemma Stationary(parseFloat: FloatParser)
    ensures Decode("string-remove", "'STATIONARY'", parseFloat) == Ok(Text("STATIONARY"))
  {
    assert "'STATIONARY'" == "'" + "STATIONARY" + "'";
    DecodeQuoted("STATIONARY", parseFloat);
  }

  lemma GeneratorVariables(parseFloat: FloatParser)
    ensures Decode("string-remove", "'Generator variables'", parseFloat) == Ok(Text("Generator variables"))
  {
    assert "'Generator variables'" == "'" + "Generator variables" + "'";
    DecodeQuoted("Generator variables", parseFloat);
  }

  lemma Time(parseFloat: FloatParser)
    ensures Decode("string-remove", "'Time'", parseFloat) == Ok(Text("Time"))
  {
    assert "'Time'" == "'" + "Time" + "'";
    DecodeQuoted("Time", parseFloat);
  }

  /** The rest of the NDIMENS and AXIMETH lines. */
  lemma Two(parseFloat: FloatParser)
    ensures Decode("int", "2", parseFloat) == Ok(Integer(2))
  {
    assert IsDigitGroup("2") && DigitsValue("2") == 2;
    DigitsToken("2");
  }

  /** The rest of the NVARS line. */
  lemma Zero(parseFloat: FloatParser)
    ensures Decode("int", "0", parseFloat) == Ok(Integer(0))
  {
    assert IsDigitGroup("0") && DigitsValue("0") == 0;
    DigitsToken("0");
  }

  /** The rest of the DIMENS line. */
  lemma Dimens(parseFloat: FloatParser)
    ensures Decode("int-list", DimensRest, parseFloat) == Ok(Integers([3, 20001]))
  {
    DimensDecimals();
    assert Join(["3", "20001"], "\t") == DimensRest;
    DecodeInts([3, 20001], "\t", parseFloat);
  }

  /** The two numbers of the DIMENS line are decimal renderings. */
  lemma DimensDecimals()
    ensures Decimals([3, 20001]) == ["3", "20001"]
  {
    assert Decimal(2) == "2";
    assert Decimal(20) == Decimal(2) + "0";
    assert Decimal(200) == Decimal(20) + "0";
    assert Decimal(2000) == Decimal(200) + "0";
    assert Decimal(20001) == Decimal(2000) + "1";
    assert Decimal(20001) == "20001";
    assert Decimal(3) == "3";
    var ds := Decimals([3, 20001]);
    assert ds[0] == Decimal(3) && ds[1] == Decimal(20001);
  }

  /** The rest of the FORMAT line. */
  lemma R4(parseFloat: FloatParser)
    ensures Decode("numpy-dtype", "R*4", parseFloat) == Ok(Code(F4))
  {
  }

  lemma Chunk1Fold(acc: Header, schema: Schema, parseFloat: FloatParser)
    requires ResourceKinds(schema)
    ensures Fold(acc, LineResults(Chunk1, schema, parseFloat))
      == Ok(acc["FILE" := Text("powprod_12ms.$06")]["ACCESS" := Text("D")]["FORM" := Text("F")])
  {
    Shapes1();
    Firsts();
    HeaderCases.KnownKeyword(schema, "FILE", "\t", "powprod_12ms.$06", Ok(Text("powprod_12ms.$06")), parseFloat);
    HeaderCases.KnownKeyword(schema, "ACCESS", "\t", "D", Ok(Text("D")), parseFloat);
    HeaderCases.KnownKeyword(schema, "FORM", "\t", "F", Ok(Text("F")), parseFloat);
    ChunkDecoded(acc, Chunk1, schema, parseFloat,
      "FILE", Text("powprod_12ms.$06"), "ACCESS", Text("D"), "FORM", Text("F"));
  }

  lemma Chunk2Fold(acc: Header, schema: Schema, parseFloat: FloatParser)
    requires ResourceKinds(schema)
    ensures Fold(acc, LineResults(Chunk2, schema, parseFloat))
      == Ok(acc["RECL" := Integer(4)]["FORMAT" := Code(F4)]["CONTENT" := Text("POWPROD")])
  {
    Shapes1();
    Firsts();
    HeaderCases.Four(parseFloat);
    HeaderCases.KnownKeyword(schema, "RECL", "\t", "4", Ok(Integer(4)), parseFloat);
    R4(parseFloat);
    HeaderCases.KnownKeyword(schema, "FORMAT", "\t", "R*4", Ok(Code(F4)), parseFloat);
    HeaderCases.Powprod(parseFloat);
    HeaderCases.KnownKeyword(schema, "CONTENT", "\t", "'POWPROD'", Ok(Text("POWPROD")), parseFloat);
    ChunkDecoded(acc, Chunk2, schema, parseFloat,
      "RECL", Integer(4), "FORMAT", Code(F4), "CONTENT", Text("POWPROD"));
  }

  lemma Chunk3Fold(acc: Header, schema: Schema, parseFloat: FloatParser)
    requires ResourceKinds(schema)
    ensures Fold(acc, LineResults(Chunk3, schema, parseFloat))
      == Ok(acc["CONFIG" := Text("STATIONARY")]["NDIMENS" := Integer(2)]["DIMENS" := Integers([3, 20001])])
  {
    Shapes1();
    Firsts();
    Stationary(parseFloat);
    HeaderCases.KnownKeyword(schema, "CONFIG", "\t", "'STATIONARY'", Ok(Text("STATIONARY")), parseFloat);
    Two(parseFloat);
    HeaderCases.KnownKeyword(schema, "NDIMENS", "\t", "2", Ok(Integer(2)), parseFloat);
    Dimens(parseFloat);
    assert DimensRest[0] == '3';
    HeaderCases.KnownKeyword(schema, "DIMENS", "\t", DimensRest, Ok(Integers([3, 20001])), parseFloat);
    ChunkDecoded(acc, Chunk3, schema, parseFloat,
      "CONFIG", Text("STATIONARY"), "NDIMENS", Integer(2), "DIMENS", Integers([3, 20001]));
  }

  lemma Chunk4Fold(acc: Header, schema: Schema, parseFloat: FloatParser)
    requires ResourceKinds(schema)
    ensures Fold(acc, LineResults(Chunk4, schema, parseFloat))
      == Ok(acc["GENLAB" := Text("Generator variables")]["VARIAB" := Names(HeaderCases.TestNames)]["VARUNIT" := Names(["FL", "P", "P"])])
  {
    GenlabLine(schema, parseFloat);
    VariabLine(schema, parseFloat);
    VarunitLine(schema, parseFloat);
    ChunkDecoded(acc, Chunk4, schema, parseFloat,
      "GENLAB", Text("Generator variables"), "VARIAB", Names(HeaderCases.TestNames), "VARUNIT", Names(["FL", "P", "P"]));
  }

  lemma GenlabLine(schema: Schema, parseFloat: FloatParser)
    requires "GENLAB" in schema && schema["GENLAB"] == "string-remove"
    ensures ParseHeaderLine(Chunk4[0], schema, parseFloat) == Decoded("GENLAB", Text("Generator variables"))
  {
    assert NoSpace("GENLAB") && AllSpace("\t") && !IsSpace('\'');
    GeneratorVariables(parseFloat);
    HeaderCases.KnownKeyword(schema, "GENLAB", "\t", "'Generator variables'", Ok(Text("Generator variables")), parseFloat);
  }

  lemma VariabLine(schema: Schema, parseFloat: FloatParser)
    requires "VARIAB" in schema && schema["VARIAB"] == "string-list-remove"
    ensures ParseHeaderLine(Chunk4[1], schema, parseFloat) == Decoded("VARIAB", Names(HeaderCases.TestNames))
  {
    assert NoSpace("VARIAB") && AllSpace("\t") && !IsSpace('\'');
    assert HeaderCases.TestVariab[0] == '\'';
    HeaderCases.Variables(parseFloat);
    HeaderCases.KnownKeyword(schema, "VARIAB", "\t", HeaderCases.TestVariab, Ok(Names(HeaderCases.TestNames)), parseFloat);
  }

  lemma VarunitLine(schema: Schema, parseFloat: FloatParser)
    requires "VARUNIT" in schema && schema["VARUNIT"] == "string-list"
    ensures ParseHeaderLine(Chunk4[2], schema, parseFloat) == Decoded("VARUNIT", Names(["FL", "P", "P"]))
  {
    assert NoSpace("VARUNIT") && AllSpace("\t") && !IsSpace('F');
    HeaderCases.Units(parseFloat);
    HeaderCases.KnownKeyword(schema, "VARUNIT", "\t", "FL P P", Ok(Names(["FL", "P", "P"])), parseFloat);
  }

  lemma Chunk5Fold(acc: Header, schema: Schema, parseFloat: FloatParser)
    requires ResourceKinds(schema)
    ensures Fold(acc, LineResults(Chunk5, schema, parseFloat))
      == Ok(acc["AXISLAB" := Text("Time")]["AXIUNIT" := Text("T")]["AXIMETH" := Integer(2)])
  {
    Shapes1();
    Shapes2();
    Firsts();
    Time(parseFloat);
    HeaderCases.KnownKeyword(schema, "AXISLAB", "\t", "'Time'", Ok(Text("Time")), parseFloat);
    HeaderCases.KnownKeyword(schema, "AXIUNIT", "\t", "T", Ok(Text("T")), parseFloat);
    Two(parseFloat);
    HeaderCases.KnownKeyword(schema, "AXIMETH", "\t", "2", Ok(Integer(2)), parseFloat);
    ChunkDecoded(acc, Chunk5, schema, parseFloat,
      "AXISLAB", Text("Time"), "AXIUNIT", Text("T"), "AXIMETH", Integer(2));
  }

  lemma Chunk6Fold(acc: Header, schema: Schema, parseFloat: FloatParser)
    requires ResourceKinds(schema)
    requires parseFloat("0.0000000E+000").Some? && parseFloat("9.9999998E-003").Some?
    ensures Fold(acc, LineResults(Chunk6, schema, parseFloat))
      == Ok(acc["MIN" := Real(parseFloat("0.0000000E+000").value)]["STEP" := Real(parseFloat("9.9999998E-003").value)]["NVARS" := Integer(0)])
  {
    Shapes1();
    Shapes2();
    Firsts();
    var x, y := parseFloat("0.0000000E+000").value, parseFloat("9.9999998E-003").value;
    HeaderCases.KnownKeyword(schema, "MIN", " \t", "0.0000000E+000", Ok(Real(x)), parseFloat);
    HeaderCases.KnownKeyword(schema, "STEP", "\t", "9.9999998E-003", Ok(Real(y)), parseFloat);
    Zero(parseFloat);
    HeaderCases.KnownKeyword(schema, "NVARS", "\t", "0", Ok(Integer(0)), parseFloat);
    ChunkDecoded(acc, Chunk6, schema, parseFloat, "MIN", Real(x), "STEP", Real(y), "NVARS", Integer(0));
  }

  /** An unknown keyword after `lead`, whatever the rest holds. */
  lemma Unknown(schema: Schema, lead: string, key: string, rest: string, parseFloat: FloatParser)
    requires AllSpace(lead) && key != [] && NoSpace(key) && key !in schema
    requires rest != [] && !IsSpace(rest[0])
    ensures ParseHeaderLine(lead + key + "   " + rest, schema, parseFloat).Skipped?
  {
    Shapes1();
    ParseUnknownKeyword(lead, key, "   ", rest, schema, parseFloat);
  }

  /** The first characters of the ULOADS to MEAN rests and of the two
      AXIVAL continuation lines. */
  lemma RestFirsts()
    ensures Loads[0] == '7' && MaxTimes[0] == '0' && MinTimes[0] == '9' && Means[0] == '7'
    ensures TailA[0] == '7' && TailB[0] == '7'
  {
  }

  lemma Chunk7Fold(acc: Header, schema: Schema, parseFloat: FloatParser)
    requires ResourceKinds(schema)
    ensures Fold(acc, LineResults(Chunk7, schema, parseFloat)) == Ok(acc)
  {
    Shapes3();
    Firsts();
    RestFirsts();
    assert Chunk7[0] == [] + "ULOADS" + "   " + Loads;
    Unknown(schema, [], "ULOADS", Loads, parseFloat);
    Unknown(schema, "   ", "7.0032420E+006", TailA, parseFloat);
    Unknown(schema, "   ", "7.1592855E+006", TailB, parseFloat);
    ChunkSkipped(acc, Chunk7, schema, parseFloat);
  }

  lemma Chunk8Fold(acc: Header, schema: Schema, parseFloat: FloatParser)
    requires ResourceKinds(schema)
    ensures Fold(acc, LineResults(Chunk8, schema, parseFloat)) == Ok(acc)
  {
    Shapes3();
    Firsts();
    RestFirsts();
    Unknown(schema, "   ", "7.0032420E+006", TailA, parseFloat);
    Unknown(schema, "   ", "7.1592855E+006", TailB, parseFloat);
    ChunkSkipped(acc, Chunk8, schema, parseFloat);
  }

  lemma Chunk9Lines(schema: Schema, parseFloat: FloatParser)
    requires "MAXTIME" !in schema && "MINTIME" !in schema && "MEAN" !in schema
    ensures ParseHeaderLine(Chunk9[0], schema, parseFloat).Skipped?
    ensures ParseHeaderLine(Chunk9[1], schema, parseFloat).Skipped?
    ensures ParseHeaderLine(Chunk9[2], schema, parseFloat).Skipped?
  {
    Shapes3();
    Firsts();
    RestFirsts();
    assert Chunk9[0] == [] + "MAXTIME" + "   " + MaxTimes;
    assert Chunk9[1] == [] + "MINTIME" + "   " + MinTimes;
    assert Chunk9[2] == [] + "MEAN" + "   " + Means;
    Unknown(schema, [], "MAXTIME", MaxTimes, parseFloat);
    Unknown(schema, [], "MINTIME", MinTimes, parseFloat);
    Unknown(schema, [], "MEAN", Means, parseFloat);
  }

  lemma Chunk9Fold(acc: Header, schema: Schema, parseFloat: FloatParser)
    requires ResourceKinds(schema)
    ensures Fold(acc, LineResults(Chunk9, schema, parseFloat)) == Ok(acc)
  {
    Chunk9Lines(schema, parseFloat);
    ChunkSkipped(acc, Chunk9, schema, parseFloat);
  }

  // ---------------------------------------------------------------------
  // The whole file

  lemma FirstChunks(schema: Schema, parseFloat: FloatParser)
    requires ResourceKinds(schema)
    ensures Fold(map[], LineResults(Chunk1 + Chunk2 + Chunk3 + Chunk4 + Chunk5, schema, parseFloat)) == Ok(FirstHeader())
  {
    var h0: Header := map[];
    Chunk1Fold(h0, schema, parseFloat);
    var h1 := h0["FILE" := Text("powprod_12ms.$06")]["ACCESS" := Text("D")]["FORM" := Text("F")];
    Chunk2Fold(h1, schema, parseFloat);
    var h2 := h1["RECL" := Integer(4)]["FORMAT" := Code(F4)]["CONTENT" := Text("POWPROD")];
    FoldLines(h0, h1, Chunk1, Chunk2, schema, parseFloat);
    Chunk3Fold(h2, schema, parseFloat);
    var h3 := h2["CONFIG" := Text("STATIONARY")]["NDIMENS" := Integer(2)]["DIMENS" := Integers([3, 20001])];
    FoldLines(h0, h2, Chunk1 + Chunk2, Chunk3, schema, parseFloat);
    Chunk4Fold(h3, schema, parseFloat);
    var h4 := h3["GENLAB" := Text("Generator variables")]["VARIAB" := Names(HeaderCases.TestNames)]["VARUNIT" := Names(["FL", "P", "P"])];
    FoldLines(h0, h3, Chunk1 + Chunk2 + Chunk3, Chunk4, schema, parseFloat);
    Chunk5Fold(h4, schema, parseFloat);
    FoldLines(h0, h4, Chunk1 + Chunk2 + Chunk3 + Chunk4, Chunk5, schema, parseFloat);
  }

  /** For any table giving the file's keywords the shipped kinds: the file
      reads without failure into exactly the expected header. */
  lemma ResourceHeaderFor(schema: Schema, parseFloat: FloatParser)
    requires ResourceKinds(schema)
    requires parseFloat("0.0000000E+000").Some? && parseFloat("9.9999998E-003").Some?
    ensures HeaderOf(ResourceLines, schema, parseFloat) == Ok(ResourceHeader(parseFloat))
  {
    var first := Chunk1 + Chunk2 + Chunk3 + Chunk4 + Chunk5;
    FirstChunks(schema, parseFloat);
    var h5 := FirstHeader();
    Chunk6Fold(h5, schema, parseFloat);
    var h6 := h5["MIN" := Real(parseFloat("0.0000000E+000").value)]["STEP" := Real(parseFloat("9.9999998E-003").value)]["NVARS" := Integer(0)];
    FoldLines(map[], h5, first, Chunk6, schema, parseFloat);
    Chunk7Fold(h6, schema, parseFloat);
    FoldLines(map[], h6, first + Chunk6, Chunk7, schema, parseFloat);
    Chunk8Fold(h6, schema, parseFloat);
    FoldLines(map[], h6, first + Chunk6 + Chunk7, Chunk8, schema, parseFloat);
    Chunk9Fold(h6, schema, parseFloat);
    FoldLines(map[], h6, first + Chunk6 + Chunk7 + Chunk8, Chunk9, schema, parseFloat);
  }

  predicate NoNewlines(ls: seq<string>) {
    forall i :: 0 <= i < |ls| ==> '\n' !in ls[i]
  }

  lemma NoNewlinesAppend(a: seq<string>, b: seq<string>)
    requires NoNewlines(a) && NoNewlines(b)
    ensures NoNewlines(a + b)
  {
    assert forall i :: |a| <= i < |a + b| ==> (a + b)[i] == b[i - |a|];
  }

  lemma FirstChunksNoNewlines()
    ensures NoNewlines(Chunk1) && NoNewlines(Chunk2) && NoNewlines(Chunk3)
  {
  }

  lemma MiddleChunksNoNewlines()
    ensures NoNewlines(Chunk4) && NoNewlines(Chunk5) && NoNewlines(Chunk6)
  {
    VariablesNoNewlines();
    AxisChunkNoNewlines();
    StepsNoNewlines();
  }

  lemma VariablesNoNewlines()
    ensures NoNewlines(Chunk4)
  {
    assert '\n' !in HeaderCases.TestVariab;
  }

  lemma AxisChunkNoNewlines()
    ensures NoNewlines(Chunk5)
  {
  }

  lemma StepsNoNewlines()
    ensures NoNewlines(Chunk6)
  {
  }

  lemma SummaryNoNewlines()
    ensures '\n' !in Loads && '\n' !in MaxTimes && '\n' !in MinTimes && '\n' !in Means
    ensures '\n' !in TailA && '\n' !in TailB
  {
  }

  lemma LastChunksNoNewlines()
    ensures NoNewlines(Chunk7) && NoNewlines(Chunk8) && NoNewlines(Chunk9)
  {
    SummaryNoNewlines();
    assert forall i :: 0 <= i < 3 ==> Chunk7[i] == Chunk7[i];
  }

  /** Reading the lines of the resource text gives back its 27 lines. */
  lemma ResourceTextLines()
    ensures Lines(ResourceText) == ResourceLines
  {
    FirstChunksNoNewlines();
    MiddleChunksNoNewlines();
    LastChunksNoNewlines();
    NoNewlinesAppend(Chunk1, Chunk2);
    NoNewlinesAppend(Chunk1 + Chunk2, Chunk3);
    NoNewlinesAppend(Chunk1 + Chunk2 + Chunk3, Chunk4);
    NoNewlinesAppend(Chunk1 + Chunk2 + Chunk3 + Chunk4, Chunk5);
    NoNewlinesAppend(Chunk1 + Chunk2 + Chunk3 + Chunk4 + Chunk5, Chunk6);
    NoNewlinesAppend(Chunk1 + Chunk2 + Chunk3 + Chunk4 + Chunk5 + Chunk6, Chunk7);
    NoNewlinesAppend(Chunk1 + Chunk2 + Chunk3 + Chunk4 + Chunk5 + Chunk6 + Chunk7, Chunk8);
    NoNewlinesAppend(Chunk1 + Chunk2 + Chunk3 + Chunk4 + Chunk5 + Chunk6 + Chunk7 + Chunk8, Chunk9);
    LinesUnlines(ResourceLines);
  }

  // ---------------------------------------------------------------------
  // With the shipped keyword table

  lemma SupportedMandatoryKinds()
    ensures "ACCESS" in Definitions.Supported && Definitions.Supported["ACCESS"] == "string"
    ensures "FORM" in Definitions.Supported && Definitions.Supported["FORM"] == "string"
    ensures "CONFIG" in Definitions.Supported && Definitions.Supported["CONFIG"] == "string-remove"
    ensures "GENLAB" in Definitions.Supported && Definitions.Supported["GENLAB"] == "string-remove"
  {
    Definitions.Disjoint();
  }

  lemma SupportedOptionalKinds()
    ensures "AXISLAB" in Definitions.Supported && Definitions.Supported["AXISLAB"] == "string-remove"
    ensures "AXIUNIT" in Definitions.Supported && Definitions.Supported["AXIUNIT"] == "string"
    ensures "AXIMETH" in Definitions.Supported && Definitions.Supported["AXIMETH"] == "int"
    ensures "STEP" in Definitions.Supported && Definitions.Supported["STEP"] == "float"
    ensures "NVARS" in Definitions.Supported && Definitions.Supported["NVARS"] == "int"
  {
  }

  /** The load-summary keywords and the continuation numbers are in no table. */
  lemma SupportedUnknowns()
    ensures "ULOADS" !in Definitions.Supported && "MAXTIME" !in Definitions.Supported
    ensures "MINTIME" !in Definitions.Supported && "MEAN" !in Definitions.Supported
    ensures "7.0032420E+006" !in Definitions.Supported && "7.1592855E+006" !in Definitions.Supported
  {
    NoUloads();
    NoMaxTime();
    NoMinTime();
    NoMean();
    NoNumberA();
    NoNumberB();
  }

  lemma NoUloads() ensures "ULOADS" !in Definitions.Supported {}
  lemma NoMaxTime() ensures "MAXTIME" !in Definitions.Supported {}
  lemma NoMinTime() ensures "MINTIME" !in Definitions.Supported {}
  lemma NoMean() ensures "MEAN" !in Definitions.Supported {}
  lemma NoNumberA() ensures "7.0032420E+006" !in Definitions.Supported {}
  lemma NoNumberB() ensures "7.1592855E+006" !in Definitions.Supported {}

  lemma SupportedResourceKinds()
    ensures ResourceKinds(Definitions.Supported)
  {
    Definitions.KeyKinds();
    SupportedMandatoryKinds();
    SupportedOptionalKinds();
    SupportedUnknowns();
  }

  /** `_read_header` on the resource file with the shipped table: the read
      succeeds with the expected header. */
  lemma ReadResourceHeader(parseFloat: FloatParser)
    requires parseFloat("0.0000000E+000").Some? && parseFloat("9.9999998E-003").Some?
    ensures HeaderOf(Lines(ResourceText), Definitions.Supported, parseFloat) == Ok(ResourceHeader(parseFloat))
  {
    ResourceTextLines();
    SupportedResourceKinds();
    ResourceHeaderFor(Definitions.Supported, parseFloat);
  }

  /** The expected header carries every mandatory keyword, the two-dimensional
      layout 3 by 20001 and the three variable names. */
  lemma ResourceHeaderContents(parseFloat: FloatParser)
    requires parseFloat("0.0000000E+000").Some? && parseFloat("9.9999998E-003").Some?
    ensures forall k :: k in Definitions.Mandatory ==> k in ResourceHeader(parseFloat)
    ensures "DIMENS" in ResourceHeader(parseFloat) && ResourceHeader(parseFloat)["DIMENS"] == Integers([3, 20001])
    ensures "NDIMENS" in ResourceHeader(parseFloat) && ResourceHeader(parseFloat)["NDIMENS"] == Integer(2)
    ensures "VARIAB" in ResourceHeader(parseFloat)
      && ResourceHeader(parseFloat)["VARIAB"] == Names(["Generator torque", "Electrical power", "Generator power loss"])
    ensures "FORMAT" in ResourceHeader(parseFloat) && ResourceHeader(parseFloat)["FORMAT"] == Code(F4)
    ensures "FILE" in ResourceHeader(parseFloat) && ResourceHeader(parseFloat)["FILE"] == Text("powprod_12ms.$06")
  {
    ResourceHeaderKeys(parseFloat);
    FirstHeaderLayout();
    LaterKeys(FirstHeader(), parseFloat);
  }

  lemma ResourceHeaderKeys(parseFloat: FloatParser)
    requires parseFloat("0.0000000E+000").Some? && parseFloat("9.9999998E-003").Some?
    ensures forall k :: k in Definitions.Mandatory ==> k in ResourceHeader(parseFloat)
  {
    Definitions.MandatoryKeys();
  }

  lemma FirstHeaderLayout()
    ensures "DIMENS" in FirstHeader() && FirstHeader()["DIMENS"] == Integers([3, 20001])
    ensures "NDIMENS" in FirstHeader() && FirstHeader()["NDIMENS"] == Integer(2)
    ensures "VARIAB" in FirstHeader()
      && FirstHeader()["VARIAB"] == Names(["Generator torque", "Electrical power", "Generator power loss"])
    ensures "FORMAT" in FirstHeader() && FirstHeader()["FORMAT"] == Code(F4)
    ensures "FILE" in FirstHeader() && FirstHeader()["FILE"] == Text("powprod_12ms.$06")
  {
  }

  /** The last three lines set keywords the layout does not use. */
  lemma LaterKeys(h: Header, parseFloat: FloatParser)
    requires parseFloat("0.0000000E+000").Some? && parseFloat("9.9999998E-003").Some?
    requires h == FirstHeader()
    ensures forall k :: k in h && k != "MIN" && k != "STEP" && k != "NVARS" ==>
      k in ResourceHeader(parseFloat) && ResourceHeader(parseFloat)[k] == h[k]
  {
  }
}
