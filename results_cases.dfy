/** The result set of the reader's test data: a directory holding the
    header of the two-dimensional `powprod_12ms` run and its payload. */
module ResultCases {
  import opened Outcomes
  import opened Header
  import opened Payload
  import opened Results
  import ResourceHeader
  import Definitions

  const Dir := "example"
  const Prefix := "powprod_12ms"
  const HeaderName := Prefix + ".%06"
  const PayloadName := Prefix + ".$06"
  const HeaderPath := Dir + "/" + HeaderName
  const PayloadPath := Dir + "/" + PayloadName

  /** The directory lists the header, its payload, and the header of
      another run. */
  const Listing := [HeaderName, PayloadName, "other.%06"]

  predicate Floats(parseFloat: FloatParser) {
    parseFloat("0.0000000E+000").Some? && parseFloat("9.9999998E-003").Some?
  }

  /** Only the header of the run matches `powprod_12ms.%*`: its payload and
      the other run's header do not. */
  lemma GlobCase(fs: FileSystem)
    requires Dir in fs.listing && fs.listing[Dir] == Listing
    ensures Glob(fs, Dir, Prefix) == [HeaderPath]
  {
    assert HeaderName == (Prefix + ".%") + "06";
    assert Matches(HeaderName, Prefix);
    assert PayloadName[|Prefix| + 1] == '$';
    assert !Matches(PayloadName, Prefix);
    assert !Matches("other.%06", Prefix);
    assert JoinPath(Dir, HeaderName) == HeaderPath;
    var rest := Listing[1..];
    assert rest[0] == PayloadName && rest[1..][0] == "other.%06" && rest[1..][1..] == [];
    assert GlobIn(Dir, rest[1..], Prefix) == [];
    assert GlobIn(Dir, rest, Prefix) == [];
  }

  /** A dictionary holding a single header. */
  function One(key: string, h: Header): (d: ResultDict)
    ensures Wellformed(d) && d.keys == [key]
  {
    ResultDict([key], map[key := Entry(h, None)])
  }

  lemma LocateOne(key: string, h: Header, ns: seq<string>, name: string)
    requires "VARIAB" in h && h["VARIAB"] == Names(ns) && "NDIMENS" in h && h["NDIMENS"] == Integer(2)
    ensures name in ns ==> Locate(One(key, h), name) == Ok(Found(key, Slicing(1, IndexOf(ns, name))))
    ensures name !in ns ==> Locate(One(key, h), name) == Err(DatasetNotFound(name))
  {
    var d := One(key, h);
    assert d.keys[1..] == [];
    assert LocateIn(d, [], name) == Err(DatasetNotFound(name));
    if name !in ns {
      assert Probe(h, name) == None;
    }
  }

  const Variables := ["Generator torque", "Electrical power", "Generator power loss"]

  /** What the cases below need of the run's header. */
  predicate RunHeader(h: Header) {
    && "FILE" in h && h["FILE"] == Text(PayloadName)
    && "FORMAT" in h && h["FORMAT"] == Code(F4)
    && "DIMENS" in h && h["DIMENS"] == Integers([3, 20001])
    && "VARIAB" in h && h["VARIAB"] == Names(Variables)
    && "NDIMENS" in h && h["NDIMENS"] == Integer(2)
  }

  /** The header the reader's tests expect is such a header. */
  lemma ResourceIsRun(parseFloat: FloatParser)
    requires Floats(parseFloat)
    ensures RunHeader(ResourceHeader.ResourceHeader(parseFloat))
  {
    ResourceHeader.ResourceHeaderContents(parseFloat);
  }

  /** `Electrical power` is the second variable of the two-dimensional
      header, so it is cut out as column 1; a name in no header is a
      KeyError. */
  lemma LocateCase(h: Header)
    requires RunHeader(h)
    ensures Locate(One(HeaderPath, h), "Electrical power") == Ok(Found(HeaderPath, Slicing(1, 1)))
    ensures Locate(One(HeaderPath, h), "Rotor speed") == Err(DatasetNotFound("Rotor speed"))
  {
    assert Variables[0] != "Electrical power";
    assert IndexOf(Variables, "Electrical power") == 1;
    assert "Rotor speed" !in Variables;
    LocateOne(HeaderPath, h, Variables, "Electrical power");
    LocateOne(HeaderPath, h, Variables, "Rotor speed");
  }

  lemma Dims()
    ensures NonNegative([3, 20001])
    ensures Reversed([3, 20001]) == [20001, 3]
    ensures Naturals([20001, 3]) == [20001, 3]
    ensures Product([20001, 3]) == 60003
  {
    assert Reversed([3, 20001]) == Reversed([20001]) + [3];
    assert Product([3]) == 3;
  }

  /** DIMENS `3 20001` with FORMAT `R*4`: the payload must hold 20001 rows
      of 3 four-byte values. One byte short is not a whole number of
      elements; a whole number of elements other than 60003 does not fit
      the shape. */
  lemma LoadCase(h: Header, fs: FileSystem)
    requires RunHeader(h) && PayloadPath in fs.files
    ensures LoadArray(Dir, h, fs).Ok? <==> |fs.files[PayloadPath]| == 240012
    ensures LoadArray(Dir, h, fs).Ok? ==> LoadArray(Dir, h, fs).value.shape == [20001, 3]
    ensures |fs.files[PayloadPath]| == 240011 ==> LoadArray(Dir, h, fs) == Err(BufferSize)
    ensures |fs.files[PayloadPath]| == 240000 ==> LoadArray(Dir, h, fs) == Err(ShapeMismatch)
  {
    assert JoinPath(Dir, PayloadName) == PayloadPath;
    Dims();
    LoadExact(Dir, h, fs);
  }

  /** `result['Electrical power']` on the scanned run: column 1 of the
      20001-by-3 payload, one value per time step. */
  lemma AccessCase(h: Header, fs: FileSystem, unload: bool)
    requires RunHeader(h) && PayloadPath in fs.files && |fs.files[PayloadPath]| == 240012
    ensures LoadArray(Dir, h, fs).Ok? && Cut(LoadArray(Dir, h, fs).value, 1, 1).Ok?
    ensures Access(One(HeaderPath, h), "Electrical power", fs, Dir, unload).result ==
      Ok(Column(Cut(LoadArray(Dir, h, fs).value, 1, 1).value))
  {
    var d := One(HeaderPath, h);
    LoadCase(h, fs);
    LocateCase(h);
    var a := LoadArray(Dir, h, fs).value;
    var f := Found(HeaderPath, Slicing(1, 1));
    assert Loaded(d.entries[f.key], Dir, fs) == Ok(a);
    AccessColumn(d, "Electrical power", fs, Dir, unload, f, a, 20001, 3, 1);
  }

  /** The same access opens the payload once, and the payload stays in its
      slot only when unloading is off. */
  lemma AccessCaseState(h: Header, fs: FileSystem, unload: bool)
    requires RunHeader(h) && PayloadPath in fs.files && |fs.files[PayloadPath]| == 240012
    ensures LoadArray(Dir, h, fs).Ok?
    ensures var o := Access(One(HeaderPath, h), "Electrical power", fs, Dir, unload);
      && o.loads == 1
      && o.after.entries == map[HeaderPath := Entry(h, if unload then None else Some(LoadArray(Dir, h, fs).value))]
  {
    var d := One(HeaderPath, h);
    LoadCase(h, fs);
    LocateCase(h);
    var a := LoadArray(Dir, h, fs).value;
    CutColumn(a, 20001, 3, 1);
    AccessFresh(d, "Electrical power", fs, Dir, unload, Found(HeaderPath, Slicing(1, 1)), a);
    OneUpdate(HeaderPath, h, Entry(h, if unload then None else Some(a)));
  }

  /** Storing into the run's slot leaves a dictionary of that one entry. */
  lemma OneUpdate(key: string, h: Header, e: Entry)
    ensures One(key, h).entries[key := e] == map[key := e]
  {
  }

  /** The column holds the second value of every row of the payload. */
  lemma ColumnCase(a: NdArray)
    requires Valid(a) && a.shape == [20001, 3]
    ensures Cut(a, 1, 1).Ok? && |Cut(a, 1, 1).value.flat| == 20001
    ensures forall r :: 0 <= r < 20001 ==> r * 3 + 1 < |a.flat| && Cut(a, 1, 1).value.flat[r] == a.flat[r * 3 + 1]
  {
    CutColumn(a, 20001, 3, 1);
    var b := Cut(a, 1, 1).value;
    forall r | 0 <= r < 20001 ensures r * 3 + 1 < |a.flat| && b.flat[r] == a.flat[r * 3 + 1] {
      Offset2(r, 1, 20001, 3);
    }
  }

  /** A DIMENS of `3 -2` over six elements: numpy takes the negative entry
      as the dimension to infer, giving two rows of three. */
  lemma NegativeDimension(flat: seq<Elem>)
    requires |flat| == 6
    ensures Reshape(flat, Reversed([3, -2])) == Ok(NdArray([2, 3], flat))
  {
    var shape := Reversed([3, -2]);
    assert shape == [-2, 3];
    assert CountUnknown(shape) == 1 && KnownProduct(shape) == 3;
    ReshapeInfers(flat, shape);
    var a := Reshape(flat, shape).value;
    assert a.shape == [2, 3];
  }
}
