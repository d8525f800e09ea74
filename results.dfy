/** The Bladed result set: the header files found next to a result prefix,
    read into an ordered dictionary, and the lazily loaded payload of each,
    kept or dropped after every access as the unload flag says. */
module Results {
  import opened Outcomes
  import opened Strings
  import opened Header
  import opened Payload
  import Definitions

  // ---------------------------------------------------------------------
  // The file system the reader sees

  /** The names in each directory, in the order the directory lists them,
      and the bytes of each file by path. */
  datatype FileSystem = FileSystem(listing: map<string, seq<string>>, files: map<string, seq<Byte>>)

  /** The text decoding `open()` applies in text mode; `None` stands for a
      UnicodeDecodeError. */
  type TextDecoder = seq<Byte> -> Option<string>

  /** `os.path.join(dir, name)` on POSIX: an absolute name replaces the
      directory; otherwise the path is the directory, at most one separator
      and the name, the `/` being put between unless the directory is empty
      or already ends with one. */
  function JoinPath(dir: string, name: string): (r: string)
    ensures name != [] && name[0] == '/' ==> r == name
    ensures (name == [] || name[0] != '/') ==> exists sep :: r == dir + sep + name && (sep == "" || sep == "/")
  {
    if name != [] && name[0] == '/' then name
    else if dir == [] || dir[|dir| - 1] == '/' then
      assert dir + name == dir + "" + name;
      dir + name
    else dir + "/" + name
  }

  /** `fnmatch(name, prefix + '.%*')` with a prefix free of wildcards: the
      name is the prefix, then `.%`, then anything. */
  predicate Matches(name: string, prefix: string)
    ensures Matches(name, prefix) <==> exists rest :: name == prefix + ".%" + rest
  {
    var n := |prefix| + 2;
    assert forall rest :: name == prefix + ".%" + rest ==> |name| >= n && name[..n] == prefix + ".%";
    assert |name| >= n ==> name == name[..n] + name[n..];
    |name| >= n && name[..n] == prefix + ".%"
  }

  function GlobIn(dir: string, names: seq<string>, prefix: string): (paths: seq<string>)
    ensures |paths| <= |names|
    decreases |names|
  {
    if names == [] then []
    else (if Matches(names[0], prefix) then [JoinPath(dir, names[0])] else []) + GlobIn(dir, names[1..], prefix)
  }

  /** `glob.glob(os.path.join(dir, prefix + '.%*'))`: the matching names of
      the directory, in listing order, joined to the directory. A missing
      directory matches nothing. */
  function Glob(fs: FileSystem, dir: string, prefix: string): (paths: seq<string>)
    ensures forall p :: p in paths <==>
      dir in fs.listing && exists n :: n in fs.listing[dir] && Matches(n, prefix) && p == JoinPath(dir, n)
  {
    if dir in fs.listing then
      GlobInMembers(dir, fs.listing[dir], prefix);
      GlobIn(dir, fs.listing[dir], prefix)
    else []
  }

  lemma {:induction false} GlobInMembers(dir: string, names: seq<string>, prefix: string)
    ensures forall p :: p in GlobIn(dir, names, prefix) <==>
      exists n :: n in names && Matches(n, prefix) && p == JoinPath(dir, n)
    decreases |names|
  {
    if names != [] {
      GlobInMembers(dir, names[1..], prefix);
      forall p ensures p in GlobIn(dir, names, prefix) <==>
        exists n :: n in names && Matches(n, prefix) && p == JoinPath(dir, n)
      {
        if p in GlobIn(dir, names[1..], prefix) {
          var n :| n in names[1..] && Matches(n, prefix) && p == JoinPath(dir, n);
          assert n in names;
        }
        if exists n :: n in names && Matches(n, prefix) && p == JoinPath(dir, n) {
          var n :| n in names && Matches(n, prefix) && p == JoinPath(dir, n);
          if n != names[0] {
            assert n in names[1..];
          }
        }
      }
    }
  }

  /** Universal newlines, as text-mode reading applies them: `\r\n` and a
      lone `\r` both become `\n`. */
  function Universal(s: string): (t: string)
    ensures '\r' !in t
    decreases |s|
  {
    if s == [] then []
    else if s[0] == '\r' then
      if |s| > 1 && s[1] == '\n' then "\n" + Universal(s[2..]) else "\n" + Universal(s[1..])
    else [s[0]] + Universal(s[1..])
  }

  /** Text without carriage returns is read unchanged. */
  lemma {:induction false} UniversalPlain(s: string)
    requires '\r' !in s
    ensures Universal(s) == s
    decreases |s|
  {
    if s != [] {
      assert '\r' !in s[1..] by {
        assert forall i :: 0 <= i < |s| - 1 ==> s[1..][i] == s[i + 1];
      }
      UniversalPlain(s[1..]);
      assert s == [s[0]] + s[1..];
    }
  }

  lemma UniversalIdempotent(s: string)
    ensures Universal(Universal(s)) == Universal(s)
  {
    UniversalPlain(Universal(s));
  }

  /** `open(path).readlines()` on the text of a file. */
  function ReadText(fs: FileSystem, path: string, decode: TextDecoder): (r: Result<string>)
    ensures r.Ok? ==> path in fs.files && '\r' !in r.value
    ensures path !in fs.files <==> r == Err(FileMissing(path))
  {
    if path !in fs.files then Err(FileMissing(path))
    else
      match decode(fs.files[path])
      case None => Err(Undecodable(path))
      case Some(t) => Ok(Universal(t))
  }

  /** One header file read with the shipped keyword table. */
  function HeaderFile(fs: FileSystem, path: string, decode: TextDecoder, parseFloat: FloatParser): (r: Result<Header>)
    ensures r.Ok? ==> WellTyped(r.value, Definitions.Supported)
  {
    match ReadText(fs, path, decode)
    case Err(e) => Err(e)
    case Ok(text) =>
      HeaderWellTyped(Lines(text), Definitions.Supported, parseFloat);
      HeaderOf(Lines(text), Definitions.Supported, parseFloat)
  }

  // ---------------------------------------------------------------------
  // The result dictionary

  /** A header dictionary with its `data` slot: `None` until the payload is
      loaded, and again after it is dropped. */
  datatype Entry = Entry(header: Header, data: Option<NdArray>)

  /** A Python dict of header file name to entry: its keys in insertion
      order, and the entries. */
  datatype ResultDict = ResultDict(keys: seq<string>, entries: map<string, Entry>)

  predicate NoDuplicates(s: seq<string>) {
    forall i, j :: 0 <= i < j < |s| ==> s[i] != s[j]
  }

  /** The keys list each entry once, and every loaded payload is a
      well-formed array. */
  ghost predicate Wellformed(d: ResultDict) {
    && NoDuplicates(d.keys)
    && (forall k :: k in d.entries <==> k in d.keys)
    && (forall k :: k in d.entries && d.entries[k].data.Some? ==> Valid(d.entries[k].data.value))
  }

  const Empty: ResultDict := ResultDict([], map[])

  /** `d[k] = e`: a new key goes last, an existing key keeps its place. */
  function Insert(d: ResultDict, k: string, e: Entry): (r: ResultDict)
    requires Wellformed(d) && (e.data.Some? ==> Valid(e.data.value))
    ensures Wellformed(r)
    ensures r.entries == d.entries[k := e]
    ensures k in d.entries ==> r.keys == d.keys
    ensures k !in d.entries ==> r.keys == d.keys + [k]
  {
    if k in d.entries then ResultDict(d.keys, d.entries[k := e])
    else
      var r := ResultDict(d.keys + [k], d.entries[k := e]);
      assert forall i :: 0 <= i < |d.keys| ==> r.keys[i] == d.keys[i];
      r
  }

  /** The header reader the scan uses, as a function of the path. */
  function Reader(fs: FileSystem, decode: TextDecoder, parseFloat: FloatParser): string -> Result<Header> {
    path => HeaderFile(fs, path, decode, parseFloat)
  }

  /** The outcome of a scan: the dictionary as far as it got, and the error
      that stopped it, if any. */
  datatype Scanned = Scanned(dict: ResultDict, outcome: Result<()>)

  /** The scan loop from `d` on: each header file is read and entered with
      an empty data slot; the first file that cannot be read ends the scan. */
  function CollectFrom(d: ResultDict, names: seq<string>, read: string -> Result<Header>): (r: Scanned)
    requires Wellformed(d)
    ensures Wellformed(r.dict)
    decreases |names|
  {
    if names == [] then Scanned(d, Ok(()))
    else
      match read(names[0])
      case Err(e) => Scanned(d, Err(e))
      case Ok(h) => CollectFrom(Insert(d, names[0], Entry(h, None)), names[1..], read)
  }

  /** Every entry holds the header as read and no payload yet. */
  ghost predicate Fresh(d: ResultDict, read: string -> Result<Header>) {
    forall k :: k in d.entries ==> read(k).Ok? && d.entries[k] == Entry(read(k).value, None)
  }

  lemma FreshInsert(d: ResultDict, n: string, h: Header, read: string -> Result<Header>)
    requires Wellformed(d) && Fresh(d, read) && read(n) == Ok(h)
    ensures Fresh(Insert(d, n, Entry(h, None)), read)
  {
  }

  lemma CollectSucceeds(d: ResultDict, names: seq<string>, read: string -> Result<Header>)
    requires Wellformed(d) && Fresh(d, read)
    ensures CollectFrom(d, names, read).outcome.Ok? <==> forall i :: 0 <= i < |names| ==> read(names[i]).Ok?
    ensures CollectFrom(d, names, read).outcome.Ok? ==>
      && (forall k :: k in CollectFrom(d, names, read).dict.entries <==> k in d.entries || k in names)
      && Fresh(CollectFrom(d, names, read).dict, read)
  {
    CollectOutcome(d, names, read);
    CollectContents(d, names, read);
  }

  /** The scan stops at the first header file that cannot be read. */
  lemma {:induction false} CollectOutcome(d: ResultDict, names: seq<string>, read: string -> Result<Header>)
    requires Wellformed(d)
    ensures CollectFrom(d, names, read).outcome.Ok? <==> forall i :: 0 <= i < |names| ==> read(names[i]).Ok?
    decreases |names|
  {
    if names != [] {
      assert forall i :: 0 < i < |names| ==> names[i] == names[1..][i - 1];
      if read(names[0]).Ok? {
        CollectOutcome(Insert(d, names[0], Entry(read(names[0]).value, None)), names[1..], read);
      }
    }
  }

  lemma CollectContents(d: ResultDict, names: seq<string>, read: string -> Result<Header>)
    requires Wellformed(d) && Fresh(d, read)
    ensures CollectFrom(d, names, read).outcome.Ok? ==>
      && (forall k :: k in CollectFrom(d, names, read).dict.entries <==> k in d.entries || k in names)
      && Fresh(CollectFrom(d, names, read).dict, read)
  {
    CollectDomain(d, names, read);
    CollectFresh(d, names, read);
  }

  lemma {:induction false} CollectDomain(d: ResultDict, names: seq<string>, read: string -> Result<Header>)
    requires Wellformed(d)
    ensures CollectFrom(d, names, read).outcome.Ok? ==>
      forall k :: k in CollectFrom(d, names, read).dict.entries <==> k in d.entries || k in names
    decreases |names|
  {
    if names != [] && read(names[0]).Ok? {
      var d1 := Insert(d, names[0], Entry(read(names[0]).value, None));
      CollectDomain(d1, names[1..], read);
      var r := CollectFrom(d1, names[1..], read);
      assert CollectFrom(d, names, read) == r;
      if r.outcome.Ok? {
        forall k | k in names && k != names[0] ensures k in names[1..] {
          var i :| 0 <= i < |names| && names[i] == k;
          assert names[1..][i - 1] == k;
        }
      }
    }
  }

  lemma {:induction false} CollectFresh(d: ResultDict, names: seq<string>, read: string -> Result<Header>)
    requires Wellformed(d) && Fresh(d, read)
    ensures CollectFrom(d, names, read).outcome.Ok? ==> Fresh(CollectFrom(d, names, read).dict, read)
    decreases |names|
  {
    if names != [] && read(names[0]).Ok? {
      var d1 := Insert(d, names[0], Entry(read(names[0]).value, None));
      FreshInsert(d, names[0], read(names[0]).value, read);
      CollectFresh(d1, names[1..], read);
    }
  }

  lemma {:induction false} CollectKeys(d: ResultDict, names: seq<string>, read: string -> Result<Header>)
    requires Wellformed(d) && NoDuplicates(d.keys + names)
    ensures CollectFrom(d, names, read).outcome.Ok? ==> CollectFrom(d, names, read).dict.keys == d.keys + names
    decreases |names|
  {
    if names != [] && read(names[0]).Ok? {
      assert names[0] !in d.entries by {
        forall i | 0 <= i < |d.keys| ensures d.keys[i] != names[0] {
          assert (d.keys + names)[i] == d.keys[i] && (d.keys + names)[|d.keys|] == names[0];
        }
      }
      var d1 := Insert(d, names[0], Entry(read(names[0]).value, None));
      assert d1.keys + names[1..] == d.keys + names;
      CollectKeys(d1, names[1..], read);
    }
  }

  /** After a successful scan there is one entry per header file found, each
      holding the header as read and no payload; with no name found twice
      the keys are the names in scan order. The scan succeeds exactly when
      every header file can be read. */
  lemma ScanEntries(names: seq<string>, read: string -> Result<Header>)
    ensures CollectFrom(Empty, names, read).outcome.Ok? <==> forall i :: 0 <= i < |names| ==> read(names[i]).Ok?
    ensures CollectFrom(Empty, names, read).outcome.Ok? ==>
      var r := CollectFrom(Empty, names, read).dict;
      && (forall k :: k in r.entries <==> k in names)
      && (forall k :: k in r.entries ==> read(k).Ok? && r.entries[k] == Entry(read(k).value, None))
    ensures NoDuplicates(names) && CollectFrom(Empty, names, read).outcome.Ok? ==>
      CollectFrom(Empty, names, read).dict.keys == names
  {
    CollectSucceeds(Empty, names, read);
    if NoDuplicates(names) {
      assert Empty.keys + names == names;
      CollectKeys(Empty, names, read);
    }
  }

  // ---------------------------------------------------------------------
  // Finding the header file that holds a dataset

  /** The index tuple `(slice(None),) * lead + (slice(index, index + 1),)`. */
  datatype Slicing = Slicing(lead: nat, index: nat)

  /** The header file holding a dataset, and how to cut the dataset out. */
  datatype Found = Found(key: string, slicing: Slicing)

  /** `v == n` in Python, for the values a header can hold. */
  predicate DimsAre(v: Value, n: int) {
    v == Integer(n) || v == Real(n as real)
  }

  /** `names.index(x)`: the first position of `x`. */
  function IndexOf(names: seq<string>, x: string): (i: nat)
    requires x in names
    ensures i < |names| && names[i] == x
    ensures forall j :: 0 <= j < i ==> names[j] != x
    decreases |names|
  {
    if names[0] == x then 0 else 1 + IndexOf(names[1..], x)
  }

  /** A header the search stops at: one whose VARIAB holds the name. A
      list of numbers holds no name, so the search goes on past it; any
      other VARIAB that is not a list of names stops the search (`Probe`). */
  predicate Holds(h: Header, name: string) {
    && "VARIAB" in h
    && match h["VARIAB"]
       case Names(ns) => name in ns
       case Integers(_) => false
       case Reals(_) => false
       case _ => true
  }

  /** What one header says about a dataset: nothing when it does not hold
      it, otherwise the slicing for its NDIMENS, or the error it raises. A
      VARIAB that is a single number makes `in` raise a TypeError, here
      `WrongType`; a text VARIAB, which Python would search for the name as
      a substring, stops the search with `WrongType` as well. */
  function Probe(h: Header, name: string): (r: Option<Result<Slicing>>)
    ensures r.Some? <==> Holds(h, name)
    ensures r.Some? && r.value.Ok? ==>
      && h["VARIAB"].Names? && "NDIMENS" in h
      && r.value.value.index == IndexOf(h["VARIAB"].names, name)
      && (r.value.value.lead == 1 <==> DimsAre(h["NDIMENS"], 2))
      && (r.value.value.lead == 2 <==> DimsAre(h["NDIMENS"], 3))
    ensures r.Some? && r.value.Err? ==> r.value.error != DatasetNotFound(name)
    ensures r.Some? && h["VARIAB"].Names? ==>
      (r.value.Ok? <==> "NDIMENS" in h && (DimsAre(h["NDIMENS"], 2) || DimsAre(h["NDIMENS"], 3)))
  {
    if "VARIAB" !in h then None
    else
      match h["VARIAB"]
      case Names(ns) =>
        if name !in ns then None
        else if "NDIMENS" !in h then Some(Err(KeyMissing("NDIMENS")))
        else if DimsAre(h["NDIMENS"], 2) then Some(Ok(Slicing(1, IndexOf(ns, name))))
        else if DimsAre(h["NDIMENS"], 3) then Some(Ok(Slicing(2, IndexOf(ns, name))))
        else Some(Err(UnsupportedDims))
      case Integers(_) => None
      case Reals(_) => None
      case _ => Some(Err(WrongType("VARIAB")))
  }

  function Decide(key: string, r: Result<Slicing>): Result<Found> {
    match r
    case Ok(s) => Ok(Found(key, s))
    case Err(e) => Err(e)
  }

  /** The search over the headers in dictionary order. */
  function LocateIn(d: ResultDict, keys: seq<string>, name: string): (r: Result<Found>)
    requires forall i :: 0 <= i < |keys| ==> keys[i] in d.entries
    ensures r.Ok? ==> r.value.key in keys
    ensures r.Ok? ==> Probe(d.entries[r.value.key].header, name) == Some(Ok(r.value.slicing))
    decreases |keys|
  {
    if keys == [] then Err(DatasetNotFound(name))
    else
      match Probe(d.entries[keys[0]].header, name)
      case None => LocateIn(d, keys[1..], name)
      case Some(v) => Decide(keys[0], v)
  }

  /** `_find_dataset`: the first header holding the dataset decides. */
  function Locate(d: ResultDict, name: string): (r: Result<Found>)
    requires Wellformed(d)
    ensures r.Ok? ==> r.value.key in d.entries
    ensures r.Ok? ==> Probe(d.entries[r.value.key].header, name) == Some(Ok(r.value.slicing))
  {
    LocateIn(d, d.keys, name)
  }

  lemma {:induction false} LocateInFirst(d: ResultDict, keys: seq<string>, name: string, i: nat)
    requires forall j :: 0 <= j < |keys| ==> keys[j] in d.entries
    requires i < |keys| && Holds(d.entries[keys[i]].header, name)
    requires forall j :: 0 <= j < i ==> !Holds(d.entries[keys[j]].header, name)
    ensures LocateIn(d, keys, name) == Decide(keys[i], Probe(d.entries[keys[i]].header, name).value)
    decreases i
  {
    if i > 0 {
      assert !Holds(d.entries[keys[0]].header, name);
      assert forall j :: 0 <= j < i - 1 ==> keys[1..][j] == keys[j + 1];
      LocateInFirst(d, keys[1..], name, i - 1);
    }
  }

  lemma {:induction false} LocateInMissing(d: ResultDict, keys: seq<string>, name: string)
    requires forall j :: 0 <= j < |keys| ==> keys[j] in d.entries
    ensures LocateIn(d, keys, name) == Err(DatasetNotFound(name)) <==>
      forall j :: 0 <= j < |keys| ==> !Holds(d.entries[keys[j]].header, name)
    decreases |keys|
  {
    if keys != [] {
      assert forall j :: 0 < j < |keys| ==> keys[j] == keys[1..][j - 1];
      LocateInMissing(d, keys[1..], name);
    }
  }

  /** The first header in dictionary order that holds the dataset decides
      the outcome: its slicing, or the error its NDIMENS raises; later
      headers are not consulted. */
  lemma LocateFirst(d: ResultDict, name: string, i: nat)
    requires Wellformed(d)
    requires i < |d.keys| && Holds(d.entries[d.keys[i]].header, name)
    requires forall j :: 0 <= j < i ==> !Holds(d.entries[d.keys[j]].header, name)
    ensures Locate(d, name) == Decide(d.keys[i], Probe(d.entries[d.keys[i]].header, name).value)
  {
    LocateInFirst(d, d.keys, name, i);
  }

  /** The dataset is reported missing exactly when no header holds it. */
  lemma LocateMissing(d: ResultDict, name: string)
    requires Wellformed(d)
    ensures Locate(d, name) == Err(DatasetNotFound(name)) <==>
      forall k :: k in d.entries ==> !Holds(d.entries[k].header, name)
  {
    LocateInMissing(d, d.keys, name);
  }

  // ---------------------------------------------------------------------
  // Loading the payload of one header file

  /** Whether `_load_dataset` gets as far as opening the payload file: FILE
      and DIMENS are looked up first, and the file must exist. */
  predicate Opens(dir: string, h: Header, fs: FileSystem) {
    && "FILE" in h && h["FILE"].Text?
    && "DIMENS" in h && h["DIMENS"].Integers?
    && JoinPath(dir, h["FILE"].text) in fs.files
  }

  /** `_load_dataset`: the payload file next to the header, read as a flat
      array of FORMAT elements and reshaped to DIMENS reversed. */
  function LoadArray(dir: string, h: Header, fs: FileSystem): (r: Result<NdArray>)
    ensures r.Ok? ==> Opens(dir, h, fs) && Valid(r.value)
    ensures r.Ok? ==> |r.value.shape| == |h["DIMENS"].ints|
    ensures r.Ok? ==> "FORMAT" in h && h["FORMAT"].Code?
    ensures r.Ok? ==> Bytes(r.value.flat) == fs.files[JoinPath(dir, h["FILE"].text)]
  {
    if "FILE" !in h then Err(KeyMissing("FILE"))
    else if !h["FILE"].Text? then Err(WrongType("FILE"))
    else if "DIMENS" !in h then Err(KeyMissing("DIMENS"))
    else if !h["DIMENS"].Integers? then Err(WrongType("DIMENS"))
    else
      var path := JoinPath(dir, h["FILE"].text);
      if path !in fs.files then Err(FileMissing(path))
      else if "FORMAT" !in h then Err(KeyMissing("FORMAT"))
      else if !h["FORMAT"].Code? then Err(WrongType("FORMAT"))
      else
        match FromBuffer(fs.files[path], h["FORMAT"].dtype)
        case Err(e) => Err(e)
        case Ok(es) =>
          FromBufferKeepsBytes(fs.files[path], h["FORMAT"].dtype);
          Reshape(es, Reversed(h["DIMENS"].ints))
  }

  lemma MulCancel(a: nat, b: nat, size: nat)
    requires size > 0
    ensures a * size == b * size <==> a == b
  {
    if a < b {
      assert a * size < b * size;
    } else if b < a {
      assert b * size < a * size;
    }
  }

  lemma MulAtLeast(k: int, s: int)
    requires s > 0
    ensures k >= 1 ==> k * s >= s
    ensures k <= -1 ==> k * s <= -s
  {
    if k >= 1 {
      assert k * s == (k - 1) * s + s;
    }
    if k <= -1 {
      assert k * s == (k + 1) * s - s;
    }
  }

  lemma MulMod(p: nat, size: nat)
    requires size > 0
    ensures (p * size) % size == 0
  {
    var x := p * size;
    var q, r := x / size, x % size;
    assert x == q * size + r;
    assert (p - q) * size == r;
    MulAtLeast(p - q, size);
  }

  /** With FILE, DIMENS and FORMAT in place and no negative dimension, the
      load succeeds exactly when the payload file exists and holds one
      element for every cell of DIMENS, and the array then has the reversed
      DIMENS as its shape. */
  lemma LoadExact(dir: string, h: Header, fs: FileSystem)
    requires "FILE" in h && h["FILE"].Text? && "FORMAT" in h && h["FORMAT"].Code?
    requires "DIMENS" in h && h["DIMENS"].Integers? && NonNegative(h["DIMENS"].ints)
    ensures NonNegative(Reversed(h["DIMENS"].ints))
    ensures LoadArray(dir, h, fs).Ok? <==>
      && JoinPath(dir, h["FILE"].text) in fs.files
      && |fs.files[JoinPath(dir, h["FILE"].text)]| == Volume(h["DIMENS"].ints) * h["FORMAT"].dtype.ItemSize()
    ensures LoadArray(dir, h, fs).Ok? ==> LoadArray(dir, h, fs).value.shape == Naturals(Reversed(h["DIMENS"].ints))
  {
    var dims := h["DIMENS"].ints;
    var rev := Reversed(dims);
    assert NonNegative(rev);
    VolumeNaturals(rev);
    VolumeReversed(dims);
    var path := JoinPath(dir, h["FILE"].text);
    if path in fs.files {
      var bytes, d := fs.files[path], h["FORMAT"].dtype;
      var P := Product(Naturals(rev));
      if FromBuffer(bytes, d).Ok? {
        var es := FromBuffer(bytes, d).value;
        ReshapeExact(es, rev);
        MulCancel(|es|, P, d.ItemSize());
      } else {
        MulMod(P, d.ItemSize());
      }
    }
  }

  /** Two-dimensional payloads: DIMENS `[cols, rows]` gives a `rows` by
      `cols` array, so the file stores `cols` values per row, one per
      variable, row after row. */
  lemma LoadLayout2(dir: string, h: Header, fs: FileSystem, cols: nat, rows: nat)
    requires "FILE" in h && h["FILE"].Text? && "FORMAT" in h && h["FORMAT"].Code?
    requires "DIMENS" in h && h["DIMENS"] == Integers([cols, rows])
    requires LoadArray(dir, h, fs).Ok?
    ensures LoadArray(dir, h, fs).value.shape == [rows, cols]
    ensures forall r, c :: 0 <= r < rows && 0 <= c < cols ==> Offset([rows, cols], [r, c]) == r * cols + c
  {
    LoadExact(dir, h, fs);
    var rev := Reversed([cols, rows]);
    assert rev == [rows, cols];
    assert Naturals(rev) == [rows, cols];
    RowMajor2(rows, cols);
  }

  // ---------------------------------------------------------------------
  // Accessing a dataset

  /** What `result[name]` returns: the cut-out data, together with the
      header dictionary when NDIMENS is 3. */
  datatype Item = Column(data: NdArray) | WithHeader(data: NdArray, entry: Entry)

  /** The result of an access, the dictionary after it, and how many
      payload files it opened. */
  datatype Outcome = Outcome(result: Result<Item>, after: ResultDict, loads: nat)

  /** The payload an access works on: the one already loaded, or a fresh
      load. */
  function Loaded(e: Entry, dir: string, fs: FileSystem): (r: Result<NdArray>)
    requires e.data.Some? ==> Valid(e.data.value)
    ensures r.Ok? ==> Valid(r.value)
    ensures e.data.Some? ==> r == Ok(e.data.value)
  {
    if e.data.Some? then Ok(e.data.value) else LoadArray(dir, e.header, fs)
  }

  /** The rest of an access once the payload is at hand: it is stored in
      the slot, the dataset is cut out, and the slot is emptied again when
      unloading is on. */
  function Finish(d: ResultDict, f: Found, arr: NdArray, unload: bool, loads: nat): (o: Outcome)
    requires Wellformed(d) && f.key in d.entries && Valid(arr)
    requires "NDIMENS" in d.entries[f.key].header
    ensures Wellformed(o.after) && o.after.keys == d.keys && o.loads == loads
    ensures o.after.entries.Keys == d.entries.Keys
    ensures o.after.entries == d.entries[f.key := o.after.entries[f.key]]
    ensures o.after.entries[f.key].header == d.entries[f.key].header
  {
    var h := d.entries[f.key].header;
    var d1 := Insert(d, f.key, Entry(h, Some(arr)));
    match Cut(arr, f.slicing.lead, f.slicing.index)
    case Err(err) => Outcome(Err(err), d1, loads)
    case Ok(part) =>
      var d2 := if unload then Insert(d1, f.key, Entry(h, None)) else d1;
      var item := if DimsAre(h["NDIMENS"], 3) then WithHeader(part, d2.entries[f.key]) else Column(part);
      Outcome(Ok(item), d2, loads)
  }

  /** `__getitem__`: find the header, load its payload when the slot is
      empty (a failed load leaves the dictionary as it was), cut the dataset
      out, then drop the payload again when unloading is on. */
  function Access(d: ResultDict, name: string, fs: FileSystem, dir: string, unload: bool): (o: Outcome)
    requires Wellformed(d)
    ensures Wellformed(o.after) && o.after.keys == d.keys && o.loads <= 1
    ensures o.after.entries.Keys == d.entries.Keys
    ensures Locate(d, name).Err? ==> o == Outcome(Err(Locate(d, name).error), d, 0)
    ensures Locate(d, name).Ok? ==>
      var k := Locate(d, name).value.key;
      o.after.entries == d.entries[k := o.after.entries[k]] && o.after.entries[k].header == d.entries[k].header
  {
    match Locate(d, name)
    case Err(e) => Outcome(Err(e), d, 0)
    case Ok(f) =>
      var e := d.entries[f.key];
      var loads := if e.data.None? && Opens(dir, e.header, fs) then 1 else 0;
      match Loaded(e, dir, fs)
      case Err(err) => Outcome(Err(err), d, loads)
      case Ok(arr) => Finish(d, f, arr, unload, loads)
  }

  lemma {:induction false} LocateInHeaders(d: ResultDict, d': ResultDict, keys: seq<string>, name: string)
    requires forall i :: 0 <= i < |keys| ==> keys[i] in d.entries && keys[i] in d'.entries
    requires forall i :: 0 <= i < |keys| ==> d'.entries[keys[i]].header == d.entries[keys[i]].header
    ensures LocateIn(d', keys, name) == LocateIn(d, keys, name)
    decreases |keys|
  {
    if keys != [] {
      LocateInHeaders(d, d', keys[1..], name);
    }
  }

  /** The search looks at headers only: loading or dropping payloads does
      not change where a dataset is found. */
  lemma LocateHeaders(d: ResultDict, d': ResultDict, name: string)
    requires Wellformed(d) && Wellformed(d') && d'.keys == d.keys
    requires forall k :: k in d.entries ==> d'.entries[k].header == d.entries[k].header
    ensures Locate(d', name) == Locate(d, name)
  {
    LocateInHeaders(d, d', d.keys, name);
  }

  /** Without unloading, a successful access leaves the payload cached: the
      same access again opens no file, whatever the file system then holds,
      and returns the same result. */
  lemma AccessRetains(d: ResultDict, name: string, fs: FileSystem, fs': FileSystem, dir: string)
    requires Wellformed(d) && Access(d, name, fs, dir, false).result.Ok?
    ensures Access(d, name, fs, dir, false).after.entries[Locate(d, name).value.key].data.Some?
    ensures var o := Access(d, name, fs, dir, false);
      Access(o.after, name, fs', dir, false) == Outcome(o.result, o.after, 0)
  {
    var o := Access(d, name, fs, dir, false);
    LocateHeaders(d, o.after, name);
    var f := Locate(d, name).value;
    var e := o.after.entries[f.key];
    assert o.after.entries[f.key := e] == o.after.entries;
  }

  /** Without unloading, once one dataset of a header has been read, a
      dataset of the same header comes from the cache: the second access
      opens no file. */
  lemma RetainReadsOnce(d: ResultDict, first: string, second: string, fs: FileSystem, fs': FileSystem, dir: string)
    requires Wellformed(d) && Access(d, first, fs, dir, false).result.Ok?
    requires Locate(d, second).Ok? && Locate(d, second).value.key == Locate(d, first).value.key
    ensures Access(Access(d, first, fs, dir, false).after, second, fs', dir, false).loads == 0
  {
    var o := Access(d, first, fs, dir, false);
    AccessRetains(d, first, fs, fs', dir);
    LocateHeaders(d, o.after, second);
  }

  /** With unloading, a successful access leaves the slot empty; starting
      from an empty slot the dictionary is as before and exactly one payload
      file was opened, so every such access reads the file again. */
  lemma AccessUnloads(d: ResultDict, name: string, fs: FileSystem, dir: string)
    requires Wellformed(d) && Access(d, name, fs, dir, true).result.Ok?
    ensures Access(d, name, fs, dir, true).after.entries[Locate(d, name).value.key].data == None
    ensures d.entries[Locate(d, name).value.key].data == None ==>
      Access(d, name, fs, dir, true).after == d && Access(d, name, fs, dir, true).loads == 1
  {
    var k := Locate(d, name).value.key;
    assert d.entries[k := d.entries[k]] == d.entries;
  }

  /** Once the payload is at hand, the access is the `Finish` step. */
  lemma AccessLoaded(d: ResultDict, name: string, fs: FileSystem, dir: string, unload: bool, a: NdArray)
    requires Wellformed(d) && Locate(d, name).Ok?
    requires Loaded(d.entries[Locate(d, name).value.key], dir, fs) == Ok(a)
    ensures "NDIMENS" in d.entries[Locate(d, name).value.key].header
    ensures Access(d, name, fs, dir, unload).result == Finish(d, Locate(d, name).value, a, unload, 0).result
    ensures Access(d, name, fs, dir, unload).after == Finish(d, Locate(d, name).value, a, unload, 0).after
    ensures Access(d, name, fs, dir, unload).loads ==
      var e := d.entries[Locate(d, name).value.key];
      if e.data.None? && Opens(dir, e.header, fs) then 1 else 0
  {
  }

  /** An access to a header whose payload is not loaded yet opens the
      payload once; when the cut succeeds the slot then holds the payload,
      or nothing again when unloading is on, and every other entry is left
      alone. */
  lemma AccessFresh(d: ResultDict, name: string, fs: FileSystem, dir: string, unload: bool, f: Found, a: NdArray)
    requires Wellformed(d) && Locate(d, name) == Ok(f) && d.entries[f.key].data == None
    requires LoadArray(dir, d.entries[f.key].header, fs) == Ok(a)
    requires Cut(a, f.slicing.lead, f.slicing.index).Ok?
    ensures Access(d, name, fs, dir, unload).result.Ok?
    ensures Access(d, name, fs, dir, unload).loads == 1
    ensures Access(d, name, fs, dir, unload).after.entries ==
      d.entries[f.key := Entry(d.entries[f.key].header, if unload then None else Some(a))]
  {
    AccessLoaded(d, name, fs, dir, unload, a);
  }

  lemma FinishColumn(d: ResultDict, f: Found, a: NdArray, unload: bool, rows: nat, cols: nat, i: nat)
    requires Wellformed(d) && f.key in d.entries && Valid(a) && f.slicing == Slicing(1, i)
    requires "NDIMENS" in d.entries[f.key].header && !DimsAre(d.entries[f.key].header["NDIMENS"], 3)
    requires a.shape == [rows, cols] && i < cols
    ensures Finish(d, f, a, unload, 0).result == Ok(Column(Cut(a, 1, i).value))
  {
    CutColumn(a, rows, cols, i);
  }

  lemma FinishPlane(d: ResultDict, f: Found, a: NdArray, unload: bool, p: nat, q: nat, n: nat, i: nat)
    requires Wellformed(d) && f.key in d.entries && Valid(a) && f.slicing == Slicing(2, i)
    requires "NDIMENS" in d.entries[f.key].header && DimsAre(d.entries[f.key].header["NDIMENS"], 3)
    requires a.shape == [p, q, n] && i < n
    ensures Finish(d, f, a, unload, 0).result ==
      Ok(WithHeader(Cut(a, 2, i).value, Entry(d.entries[f.key].header, if unload then None else Some(a))))
  {
    CutLast(a, p, q, n, i);
  }

  /** A two-dimensional dataset is the cut `a[:, i:i+1]` of the payload,
      `i` being its position in VARIAB, and only the array comes back. */
  lemma AccessColumn(d: ResultDict, name: string, fs: FileSystem, dir: string, unload: bool,
                     f: Found, a: NdArray, rows: nat, cols: nat, i: nat)
    requires Wellformed(d) && Locate(d, name) == Ok(f) && f.slicing == Slicing(1, i)
    requires Loaded(d.entries[f.key], dir, fs) == Ok(a)
    requires a.shape == [rows, cols] && i < cols
    ensures Cut(a, 1, i).Ok? && Access(d, name, fs, dir, unload).result == Ok(Column(Cut(a, 1, i).value))
  {
    AccessLoaded(d, name, fs, dir, unload, a);
    FinishColumn(d, f, a, unload, rows, cols, i);
  }

  /** A three-dimensional dataset is the cut `a[:, :, i:i+1]` of the
      payload, and the header dictionary comes back with it, its slot as the
      access left it. */
  lemma AccessPlane(d: ResultDict, name: string, fs: FileSystem, dir: string, unload: bool,
                    f: Found, a: NdArray, p: nat, q: nat, n: nat, i: nat)
    requires Wellformed(d) && Locate(d, name) == Ok(f) && f.slicing == Slicing(2, i)
    requires Loaded(d.entries[f.key], dir, fs) == Ok(a)
    requires a.shape == [p, q, n] && i < n
    ensures Cut(a, 2, i).Ok?
    ensures Access(d, name, fs, dir, unload).result ==
      Ok(WithHeader(Cut(a, 2, i).value, Entry(d.entries[f.key].header, if unload then None else Some(a))))
  {
    AccessLoaded(d, name, fs, dir, unload, a);
    FinishPlane(d, f, a, unload, p, q, n, i);
  }

  // ---------------------------------------------------------------------
  // The result set object

  /** One Bladed result: a directory and a prefix, and whether payloads are
      dropped after each access. `payloadLoads` counts the payload files
      opened so far. */
  class BladedResult {
    const resultDir: string
    const resultPrefix: string
    const unload: bool
    const parseFloat: FloatParser
    const decode: TextDecoder
    var headerFileNames: Option<seq<string>>
    var results: Option<ResultDict>
    ghost var payloadLoads: nat

    ghost predicate Consistent()
      reads this
    {
      results.Some? ==> Wellformed(results.value)
    }

    /** Nothing is read until `Scan`. */
    constructor (resultDir: string, resultPrefix: string, unload: bool, parseFloat: FloatParser, decode: TextDecoder)
      ensures this.resultDir == resultDir && this.resultPrefix == resultPrefix && this.unload == unload
      ensures this.parseFloat == parseFloat && this.decode == decode
      ensures headerFileNames == None && results == None && payloadLoads == 0
      ensures Consistent()
    {
      this.resultDir := resultDir;
      this.resultPrefix := resultPrefix;
      this.unload := unload;
      this.parseFloat := parseFloat;
      this.decode := decode;
      headerFileNames := None;
      results := None;
      payloadLoads := 0;
    }

    /** `scan`: list the header files, then read each into a fresh
      dictionary. With no header file the dictionary is left as it was; a
      header that cannot be read leaves the dictionary filled up to it. */
    method Scan(fs: FileSystem) returns (r: Result<()>)
      requires Consistent()
      modifies this
      ensures Consistent() && payloadLoads == old(payloadLoads)
      ensures headerFileNames == Some(Glob(fs, resultDir, resultPrefix))
      ensures Glob(fs, resultDir, resultPrefix) == [] ==> r == Err(NoHeaderFiles) && results == old(results)
      ensures Glob(fs, resultDir, resultPrefix) != [] ==>
        var s := CollectFrom(Empty, Glob(fs, resultDir, resultPrefix), Reader(fs, decode, parseFloat));
        r == s.outcome && results == Some(s.dict)
    {
      var names := Glob(fs, resultDir, resultPrefix);
      headerFileNames := Some(names);
      if names == [] {
        return Err(NoHeaderFiles);
      }
      ghost var read := Reader(fs, decode, parseFloat);
      var dict := Empty;
      results := Some(dict);
      var i := 0;
      while i < |names|
        invariant 0 <= i <= |names|
        invariant Wellformed(dict) && results == Some(dict)
        invariant headerFileNames == Some(names) && payloadLoads == old(payloadLoads)
        invariant CollectFrom(dict, names[i..], read) == CollectFrom(Empty, names, read)
      {
        assert names[i..][1..] == names[i + 1..];
        var h := HeaderFile(fs, names[i], decode, parseFloat);
        if h.Err? {
          return Err(h.error);
        }
        dict := Insert(dict, names[i], Entry(h.value, None));
        results := Some(dict);
        i := i + 1;
      }
      return Ok(());
    }

    /** `_find_dataset`: the headers in dictionary order, the first one that
      holds the name deciding. */
    method FindDataset(name: string) returns (r: Result<Found>)
      requires Consistent()
      ensures results.None? ==> r == Err(NotScanned)
      ensures results.Some? ==> r == Locate(results.value, name)
    {
      if results.None? {
        return Err(NotScanned);
      }
      var d := results.value;
      var i := 0;
      while i < |d.keys|
        invariant 0 <= i <= |d.keys|
        invariant LocateIn(d, d.keys[i..], name) == Locate(d, name)
      {
        assert d.keys[i..][1..] == d.keys[i + 1..];
        var probe := Probe(d.entries[d.keys[i]].header, name);
        if probe.Some? {
          return Decide(d.keys[i], probe.value);
        }
        i := i + 1;
      }
      return Err(DatasetNotFound(name));
    }

    /** `_load_dataset`: load the payload of one header into its slot; on
      failure the slot is left as it was. */
    method LoadDataset(key: string, fs: FileSystem) returns (r: Result<()>)
      requires Consistent() && results.Some? && key in results.value.entries
      modifies this
      ensures Consistent() && headerFileNames == old(headerFileNames)
      ensures payloadLoads == old(payloadLoads) +
        if Opens(resultDir, old(results.value.entries[key].header), fs) then 1 else 0
      ensures var h := old(results.value.entries[key].header);
        var l := LoadArray(resultDir, h, fs);
        && (l.Ok? ==> r == Ok(()) && results == Some(Insert(old(results.value), key, Entry(h, Some(l.value)))))
        && (l.Err? ==> r == Err(l.error) && results == old(results))
    {
      var h := results.value.entries[key].header;
      if Opens(resultDir, h, fs) {
        payloadLoads := payloadLoads + 1;
      }
      var l := LoadArray(resultDir, h, fs);
      if l.Err? {
        return Err(l.error);
      }
      results := Some(Insert(results.value, key, Entry(h, Some(l.value))));
      return Ok(());
    }

    /** `__getitem__`: the dataset called `name`, as `Access` describes. */
    method Get(name: string, fs: FileSystem) returns (r: Result<Item>)
      requires Consistent()
      modifies this
      ensures Consistent() && headerFileNames == old(headerFileNames)
      ensures old(results).None? ==>
        r == Err(NotScanned) && results == old(results) && payloadLoads == old(payloadLoads)
      ensures old(results).Some? ==>
        var o := Access(old(results).value, name, fs, resultDir, unload);
        r == o.result && results == Some(o.after) && payloadLoads == old(payloadLoads) + o.loads
    {
      var found := FindDataset(name);
      if found.Err? {
        return Err(found.error);
      }
      ghost var d := results.value;
      var key, slicing := found.value.key, found.value.slicing;
      var e := results.value.entries[key];
      if e.data.None? {
        var loaded := LoadDataset(key, fs);
        if loaded.Err? {
          return Err(loaded.error);
        }
      } else {
        assert d.entries[key := e] == d.entries;
      }
      var arr := results.value.entries[key].data.value;
      assert results.value == Insert(d, key, Entry(e.header, Some(arr)));
      AccessLoaded(d, name, fs, resultDir, unload, arr);
      var part := Cut(arr, slicing.lead, slicing.index);
      if part.Err? {
        return Err(part.error);
      }
      if unload {
        results := Some(Insert(results.value, key, Entry(e.header, None)));
      }
      if DimsAre(e.header["NDIMENS"], 3) {
        r := Ok(WithHeader(part.value, results.value.entries[key]));
      } else {
        r := Ok(Column(part.value));
      }
    }
  }
}
