/** The Bladed header keywords the reader knows and, for each, the name of
    the conversion that turns the rest of its line into a value. */
module Definitions {

  /** The conversion names the header-line decoder implements. */
  const HandledKinds: set<string> := {
    "string", "string-remove", "string-list", "string-list-remove",
    "int", "int-list", "float", "float-list", "numpy-dtype"
  }

  /** Keywords every usable header carries. */
  const Mandatory: map<string, string> := map[
    "FILE" := "string",
    "ACCESS" := "string",
    "FORM" := "string",
    "RECL" := "int",
    "FORMAT" := "numpy-dtype",
    "CONTENT" := "string-remove",
    "CONFIG" := "string-remove",
    "NDIMENS" := "int",
    "DIMENS" := "int-list",
    "GENLAB" := "string-remove",
    "VARIAB" := "string-list-remove",
    "VARUNIT" := "string-list"
  ]

  /** Keywords a header may carry. */
  const Optional: map<string, string> := map[
    "AXIVAL" := "float-list",
    "AXISLAB" := "string-remove",
    "AXIUNIT" := "string",
    "AXIMETH" := "int",
    "AXITICK" := "string-list-remove",
    "MIN" := "float",
    "STEP" := "float",
    "NVARS" := "int",
    "HEADREC" := "int",
    "VAROFFSET" := "float",
    "VARSCALE" := "float-list"
  ]

  /** `{**mandatory_keywords, **optional_keywords}`: on a shared key the
      optional entry would win, as Dafny's map union does. */
  const Supported: map<string, string> := Mandatory + Optional

  /** `mandatory_keywords` holds exactly these twelve keywords. */
  lemma MandatoryKeys()
    ensures forall k :: k in Mandatory <==>
      k == "FILE" || k == "ACCESS" || k == "FORM" || k == "RECL" || k == "FORMAT" || k == "CONTENT"
      || k == "CONFIG" || k == "NDIMENS" || k == "DIMENS" || k == "GENLAB" || k == "VARIAB" || k == "VARUNIT"
  {
  }

  lemma MandatorySize()
    ensures |Mandatory| == 12
  {
  }

  /** `optional_keywords` holds exactly these eleven keywords. */
  lemma OptionalKeys()
    ensures forall k :: k in Optional <==>
      k == "AXIVAL" || k == "AXISLAB" || k == "AXIUNIT" || k == "AXIMETH" || k == "AXITICK" || k == "MIN"
      || k == "STEP" || k == "NVARS" || k == "HEADREC" || k == "VAROFFSET" || k == "VARSCALE"
  {
  }

  lemma OptionalSize()
    ensures |Optional| == 11
  {
  }

  lemma Disjoint()
    ensures Mandatory.Keys !! Optional.Keys
  {
    MandatoryKeys();
    forall k | k in Mandatory ensures k !in Optional {
      if k == "FILE" || k == "ACCESS" || k == "FORM" || k == "RECL" || k == "FORMAT" || k == "CONTENT" {
        FirstHalfNotOptional(k);
      } else {
        SecondHalfNotOptional(k);
      }
    }
  }

  lemma FirstHalfNotOptional(k: string)
    requires k == "FILE" || k == "ACCESS" || k == "FORM" || k == "RECL" || k == "FORMAT" || k == "CONTENT"
    ensures k !in Optional
  {
  }

  lemma SecondHalfNotOptional(k: string)
    requires k == "CONFIG" || k == "NDIMENS" || k == "DIMENS" || k == "GENLAB" || k == "VARIAB" || k == "VARUNIT"
    ensures k !in Optional
  {
  }

  lemma DisjointUnionSize(a: set<string>, b: set<string>)
    requires a !! b
    ensures |a + b| == |a| + |b|
  {
  }

  /** The two tables share no keyword, so their union has 23 entries and
      every keyword keeps the conversion its own table gives it. */
  lemma SupportedIsDisjointUnion()
    ensures Mandatory.Keys !! Optional.Keys
    ensures Supported.Keys == Mandatory.Keys + Optional.Keys
    ensures |Supported| == 23
    ensures forall k :: k in Mandatory ==> Supported[k] == Mandatory[k]
    ensures forall k :: k in Optional ==> Supported[k] == Optional[k]
  {
    Disjoint();
    MandatorySize();
    OptionalSize();
    assert |Mandatory.Keys| == |Mandatory| && |Optional.Keys| == |Optional| && |Supported.Keys| == |Supported|;
    DisjointUnionSize(Mandatory.Keys, Optional.Keys);
  }

  /** Every conversion the shipped table names is one the decoder handles. */
  lemma SupportedKindsHandled()
    ensures forall k :: k in Supported ==> Supported[k] in HandledKinds
  {
  }

  /** The conversions of the keywords the rest of the reader and its tests
      rely on; between them they use each of the nine handled conversions. */
  lemma KeyKinds()
    ensures "FILE" in Supported && Supported["FILE"] == "string"
    ensures "RECL" in Supported && Supported["RECL"] == "int"
    ensures "FORMAT" in Supported && Supported["FORMAT"] == "numpy-dtype"
    ensures "CONTENT" in Supported && Supported["CONTENT"] == "string-remove"
    ensures "NDIMENS" in Supported && Supported["NDIMENS"] == "int"
    ensures "DIMENS" in Supported && Supported["DIMENS"] == "int-list"
    ensures "VARIAB" in Supported && Supported["VARIAB"] == "string-list-remove"
    ensures "VARUNIT" in Supported && Supported["VARUNIT"] == "string-list"
    ensures "MIN" in Supported && Supported["MIN"] == "float"
    ensures "AXIVAL" in Supported && Supported["AXIVAL"] == "float-list"
  {
    LayoutKinds();
    VariableKinds();
  }

  lemma LayoutKinds()
    ensures "FILE" in Supported && Supported["FILE"] == "string"
    ensures "RECL" in Supported && Supported["RECL"] == "int"
    ensures "FORMAT" in Supported && Supported["FORMAT"] == "numpy-dtype"
    ensures "CONTENT" in Supported && Supported["CONTENT"] == "string-remove"
    ensures "NDIMENS" in Supported && Supported["NDIMENS"] == "int"
  {
    SupportedEntry("FILE");
    SupportedEntry("RECL");
    SupportedEntry("FORMAT");
    SupportedEntry("CONTENT");
    SupportedEntry("NDIMENS");
  }

  lemma VariableKinds()
    ensures "DIMENS" in Supported && Supported["DIMENS"] == "int-list"
    ensures "VARIAB" in Supported && Supported["VARIAB"] == "string-list-remove"
    ensures "VARUNIT" in Supported && Supported["VARUNIT"] == "string-list"
    ensures "MIN" in Supported && Supported["MIN"] == "float"
    ensures "AXIVAL" in Supported && Supported["AXIVAL"] == "float-list"
  {
    SupportedEntry("DIMENS");
    SupportedEntry("VARIAB");
    SupportedEntry("VARUNIT");
  }

  /** A mandatory keyword keeps its own conversion in the union. */
  lemma SupportedEntry(k: string)
    requires k in Mandatory
    ensures k in Supported && Supported[k] == Mandatory[k]
  {
    Disjoint();
  }
}
