/** The binary payload of a Bladed result: the bytes of the data file, cut
    into elements of the FORMAT type (`np.frombuffer`), laid out row-major in
    the shape the header names (`reshape`), and sliced along one axis (numpy
    basic slicing with `i:i+1`). An element keeps its raw bytes; what number
    they encode is not modelled. */
module Payload {
  import opened Outcomes
  import opened Header

  type Byte = b: int | 0 <= b < 256

  /** One element of a typed buffer: its type and its bytes. */
  datatype Elem = Elem(dtype: DType, raw: seq<Byte>)

  /** The bytes of consecutive elements. */
  function Bytes(es: seq<Elem>): seq<Byte>
    decreases |es|
  {
    if es == [] then [] else es[0].raw + Bytes(es[1..])
  }

  /** `np.frombuffer(content, dtype)`: the buffer must hold a whole number of
      elements; element `i` is bytes `i*size .. (i+1)*size`. */
  function FromBuffer(content: seq<Byte>, d: DType): (r: Result<seq<Elem>>)
    ensures r.Ok? <==> |content| % d.ItemSize() == 0
    ensures r.Err? ==> r.error == BufferSize
    ensures r.Ok? ==> |r.value| * d.ItemSize() == |content|
    ensures r.Ok? ==> forall i :: 0 <= i < |r.value| ==>
      r.value[i].dtype == d && r.value[i].raw == content[i * d.ItemSize()..(i + 1) * d.ItemSize()]
  {
    var size := d.ItemSize();
    if |content| % size != 0 then Err(BufferSize)
    else
      var n := |content| / size;
      assert n * size == |content|;
      Ok(seq(n, i requires 0 <= i < n => Elem(d, content[i * size..(i + 1) * size])))
  }

  lemma {:induction false} BytesOfSlices(content: seq<Byte>, es: seq<Elem>, size: nat)
    requires |es| * size == |content|
    requires forall i :: 0 <= i < |es| ==> es[i].raw == content[i * size..(i + 1) * size]
    ensures Bytes(es) == content
    decreases |es|
  {
    if es != [] {
      var rest := content[size..];
      assert |es[1..]| * size == |rest|;
      forall i | 0 <= i < |es[1..]| ensures es[1..][i].raw == rest[i * size..(i + 1) * size] {
        assert es[1..][i] == es[i + 1];
        assert (i + 1) * size == i * size + size;
        assert content[(i + 1) * size..(i + 2) * size] == rest[i * size..(i + 1) * size];
      }
      BytesOfSlices(rest, es[1..], size);
      assert es[0].raw == content[..size];
      assert content == content[..size] + rest;
    }
  }

  /** The elements hold exactly the bytes of the buffer, in order. */
  lemma FromBufferKeepsBytes(content: seq<Byte>, d: DType)
    requires FromBuffer(content, d).Ok?
    ensures Bytes(FromBuffer(content, d).value) == content
  {
    var es := FromBuffer(content, d).value;
    BytesOfSlices(content, es, d.ItemSize());
  }

  // ---------------------------------------------------------------------
  // Shapes

  function Product(dims: seq<nat>): nat
    decreases |dims|
  {
    if dims == [] then 1 else dims[0] * Product(dims[1..])
  }

  /** An array: a shape and its elements in row-major order. */
  datatype NdArray = NdArray(shape: seq<nat>, flat: seq<Elem>)

  predicate Valid(a: NdArray) {
    |a.flat| == Product(a.shape)
  }

  /** The row-major position of an index tuple: the last axis varies
      fastest, and an index inside the shape lands inside the array. */
  function Offset(shape: seq<nat>, idx: seq<nat>): (r: nat)
    requires |idx| == |shape|
    ensures InBounds(shape, idx) ==> r < Product(shape)
    decreases |idx|
  {
    if idx == [] then 0
    else
      var k := |idx| - 1;
      var outer := Offset(shape[..k], idx[..k]);
      LastAxisBound(shape, idx, outer);
      outer * shape[k] + idx[k]
  }

  /** Adding the last axis keeps an in-bounds position inside the array. */
  lemma LastAxisBound(shape: seq<nat>, idx: seq<nat>, outer: nat)
    requires |idx| == |shape| > 0
    requires InBounds(shape[..|shape| - 1], idx[..|idx| - 1]) ==> outer < Product(shape[..|shape| - 1])
    ensures InBounds(shape, idx) ==> outer * shape[|shape| - 1] + idx[|idx| - 1] < Product(shape)
  {
    var k := |idx| - 1;
    if InBounds(shape, idx) {
      assert InBounds(shape[..k], idx[..k]);
      ProductSplit(shape, k);
      assert shape[k + 1..] == [];
      RowBound(outer, idx[k], Product(shape[..k]), shape[k]);
    }
  }

  predicate InBounds(shape: seq<nat>, idx: seq<nat>) {
    |idx| == |shape| && forall t :: 0 <= t < |idx| ==> idx[t] < shape[t]
  }

  lemma Offset2(r: nat, c: nat, rows: nat, cols: nat)
    ensures Offset([rows, cols], [r, c]) == r * cols + c
  {
    assert [rows, cols][..1] == [rows] && [r, c][..1] == [r];
    assert [rows][..0] == [] && [r][..0] == [];
    assert Offset([rows], [r]) == r;
  }

  lemma RowMajor2(rows: nat, cols: nat)
    ensures forall r, c :: 0 <= r < rows && 0 <= c < cols ==> Offset([rows, cols], [r, c]) == r * cols + c
  {
    forall r, c | 0 <= r < rows && 0 <= c < cols ensures Offset([rows, cols], [r, c]) == r * cols + c {
      Offset2(r, c, rows, cols);
    }
  }

  lemma Offset3(x: nat, y: nat, z: nat, p: nat, q: nat, n: nat)
    ensures Offset([p, q, n], [x, y, z]) == (x * q + y) * n + z
  {
    assert [p, q, n][..2] == [p, q] && [x, y, z][..2] == [x, y];
    Offset2(x, y, p, q);
  }

  /** `reversed(DIMENS)` as a list. */
  function Reversed(s: seq<int>): (r: seq<int>)
    ensures |r| == |s| && forall i :: 0 <= i < |s| ==> r[i] == s[|s| - 1 - i]
    decreases |s|
  {
    if s == [] then [] else Reversed(s[1..]) + [s[0]]
  }

  /** The number of cells a list of dimensions describes. */
  function Volume(dims: seq<int>): int
    decreases |dims|
  {
    if dims == [] then 1 else dims[0] * Volume(dims[1..])
  }

  lemma {:induction false} VolumeNaturals(dims: seq<int>)
    requires NonNegative(dims)
    ensures Product(Naturals(dims)) == Volume(dims)
    decreases |dims|
  {
    if dims != [] {
      assert NonNegative(dims[1..]);
      assert Naturals(dims)[1..] == Naturals(dims[1..]);
      VolumeNaturals(dims[1..]);
    }
  }

  lemma {:induction false} VolumeSnoc(dims: seq<int>, x: int)
    ensures Volume(dims + [x]) == Volume(dims) * x
    decreases |dims|
  {
    if dims != [] {
      assert (dims + [x])[1..] == dims[1..] + [x];
      VolumeSnoc(dims[1..], x);
      Assoc(dims[0], Volume(dims[1..]), x);
    }
  }

  /** Reversing the dimensions keeps the number of cells. */
  lemma {:induction false} VolumeReversed(dims: seq<int>)
    ensures Volume(Reversed(dims)) == Volume(dims)
    decreases |dims|
  {
    if dims != [] {
      VolumeReversed(dims[1..]);
      VolumeSnoc(Reversed(dims[1..]), dims[0]);
      Comm(Volume(dims[1..]), dims[0]);
    }
  }

  /** The number of negative dimensions. numpy takes any negative entry,
      not only -1, as the one dimension to infer. */
  function CountUnknown(shape: seq<int>): (n: nat)
    ensures n == 0 <==> NonNegative(shape)
    decreases |shape|
  {
    if shape == [] then 0
    else
      assert forall t :: 0 < t < |shape| ==> shape[t] == shape[1..][t - 1];
      (if shape[0] < 0 then 1 else 0) + CountUnknown(shape[1..])
  }

  predicate NonNegative(shape: seq<int>) {
    forall t :: 0 <= t < |shape| ==> shape[t] >= 0
  }

  /** The product of the non-negative dimensions. */
  function KnownProduct(shape: seq<int>): (p: nat)
    decreases |shape|
  {
    if shape == [] then 1
    else
      assert forall t :: 0 <= t < |shape| - 1 ==> shape[1..][t] == shape[t + 1];
      (if shape[0] < 0 then 1 else shape[0]) * KnownProduct(shape[1..])
  }

  /** `shape` with every negative dimension put as `n`. */
  function Infer(shape: seq<int>, n: nat): (r: seq<int>)
    ensures |r| == |shape|
    ensures forall t :: 0 <= t < |shape| ==> r[t] == if shape[t] < 0 then n else shape[t]
    decreases |shape|
  {
    if shape == [] then [] else [if shape[0] < 0 then n else shape[0]] + Infer(shape[1..], n)
  }

  function Naturals(shape: seq<int>): (r: seq<nat>)
    requires NonNegative(shape)
    ensures |r| == |shape| && forall t :: 0 <= t < |shape| ==> r[t] == shape[t]
  {
    seq(|shape|, t requires 0 <= t < |shape| => shape[t] as nat)
  }

  lemma ProductKnown(shape: seq<int>)
    requires NonNegative(shape)
    ensures KnownProduct(shape) == Product(Naturals(shape))
    decreases |shape|
  {
    if shape != [] {
      assert NonNegative(shape[1..]) by {
        assert forall t :: 0 <= t < |shape| - 1 ==> shape[1..][t] == shape[t + 1];
      }
      ProductKnown(shape[1..]);
      assert Naturals(shape)[1..] == Naturals(shape[1..]);
    }
  }

  /** The shape numpy gives `count` elements reshaped to `shape`: at most
      one dimension may be negative and is then inferred from the count, which
      the other dimensions must divide; without one, the dimensions must
      multiply to the count. Anything else is a ValueError. */
  function ReshapeTarget(shape: seq<int>, count: nat): (r: Option<seq<nat>>)
    ensures r.Some? ==> |r.value| == |shape| && Product(r.value) == count
  {
    if CountUnknown(shape) > 1 then None
    else if CountUnknown(shape) == 0 then
      ProductKnown(shape);
      if KnownProduct(shape) == count then Some(Naturals(shape)) else None
    else
      var known := KnownProduct(shape);
      if known == 0 || count % known != 0 then None
      else
        Inferred(shape, count);
        Some(Naturals(Infer(shape, count / known)))
  }

  lemma Inferred(shape: seq<int>, count: nat)
    requires CountUnknown(shape) == 1
    requires KnownProduct(shape) != 0 && count % KnownProduct(shape) == 0
    ensures count / KnownProduct(shape) >= 0
    ensures NonNegative(Infer(shape, count / KnownProduct(shape)))
    ensures Product(Naturals(Infer(shape, count / KnownProduct(shape)))) == count
  {
    var known := KnownProduct(shape);
    var n := count / known;
    InferProduct(shape, n);
    ProductKnown(Infer(shape, n));
    DivExact(count, known);
  }

  lemma DivExact(count: nat, known: int)
    requires known > 0 && count % known == 0
    ensures (count / known) * known == count && known * (count / known) == count
  {
  }

  lemma Assoc(a: int, b: int, c: int)
    ensures a * (b * c) == (a * b) * c
  {
  }

  lemma Comm(a: int, b: int)
    ensures a * b == b * a
  {
  }

  /** `flat.reshape(shape)`: the same elements, in the shape numpy settles on. */
  function Reshape(flat: seq<Elem>, shape: seq<int>): (r: Result<NdArray>)
    ensures r.Ok? ==> Valid(r.value) && r.value.flat == flat && |r.value.shape| == |shape|
    ensures r.Err? ==> r.error == ShapeMismatch
  {
    match ReshapeTarget(shape, |flat|)
    case Some(dims) => Ok(NdArray(dims, flat))
    case None => Err(ShapeMismatch)
  }

  lemma {:induction false} InferNothing(shape: seq<int>, n: nat)
    requires CountUnknown(shape) == 0
    ensures Infer(shape, n) == shape
    decreases |shape|
  {
    if shape != [] {
      assert CountUnknown(shape[1..]) == 0;
      InferNothing(shape[1..], n);
    }
  }

  lemma {:induction false} InferProduct(shape: seq<int>, n: nat)
    requires CountUnknown(shape) == 1
    ensures NonNegative(Infer(shape, n))
    ensures KnownProduct(Infer(shape, n)) == KnownProduct(shape) * n
    decreases |shape|
  {
    var rest := shape[1..];
    assert forall t :: 0 <= t < |rest| ==> rest[t] == shape[t + 1];
    var tail := Infer(rest, n);
    var full := Infer(shape, n);
    assert full[1..] == tail;
    var k := KnownProduct(rest);
    if shape[0] < 0 {
      assert CountUnknown(rest) == 0;
      InferNothing(rest, n);
      assert KnownProduct(full) == n * k;
      assert KnownProduct(shape) == 1 * k;
      Comm(n, k);
    } else {
      assert CountUnknown(rest) == 1;
      InferProduct(rest, n);
      assert KnownProduct(full) == shape[0] * (k * n);
      assert KnownProduct(shape) == shape[0] * k;
      Assoc(shape[0], k, n);
    }
  }

  /** With no negative dimension the reshape succeeds exactly when the
      dimensions multiply to the element count, and keeps them. */
  lemma ReshapeExact(flat: seq<Elem>, shape: seq<int>)
    requires NonNegative(shape)
    ensures Reshape(flat, shape).Ok? <==> Product(Naturals(shape)) == |flat|
    ensures Reshape(flat, shape).Ok? ==> Reshape(flat, shape).value.shape == Naturals(shape)
  {
    ProductKnown(shape);
  }

  /** A single negative dimension becomes the element count divided by the
      other dimensions, when they divide it; two negative dimensions fail. */
  lemma ReshapeInfers(flat: seq<Elem>, shape: seq<int>)
    requires CountUnknown(shape) == 1
    ensures Reshape(flat, shape).Ok? <==> KnownProduct(shape) != 0 && |flat| % KnownProduct(shape) == 0
    ensures Reshape(flat, shape).Ok? ==> forall t :: 0 <= t < |shape| ==>
      Reshape(flat, shape).value.shape[t] == if shape[t] < 0 then |flat| / KnownProduct(shape) else shape[t]
  {
  }

  lemma ReshapeRejects(flat: seq<Elem>, shape: seq<int>)
    requires CountUnknown(shape) > 1
    ensures Reshape(flat, shape) == Err(ShapeMismatch)
  {
  }

  // ---------------------------------------------------------------------
  // Slicing one axis

  lemma {:induction false} ProductSplit(s: seq<nat>, k: nat)
    requires k < |s|
    ensures Product(s) == Product(s[..k]) * (s[k] * Product(s[k + 1..]))
    decreases k
  {
    if k == 0 {
      assert s[..0] == [];
    } else {
      var t := s[1..];
      ProductSplit(t, k - 1);
      assert t[..k - 1] == s[..k][1..];
      assert t[k - 1] == s[k] && t[k..] == s[k + 1..];
      var a, b := Product(t[..k - 1]), s[k] * Product(s[k + 1..]);
      assert Product(s) == s[0] * (a * b);
      assert Product(s[..k]) == s[0] * a;
      Assoc(s[0], a, b);
    }
  }

  /** The flat position, in the array cut from, of element `q` of the cut:
      `q` counts the elements of the outer axes (as `q / inner`) and of the
      inner axes (as `q % inner`), and the cut axis is fixed at `i`. */
  function Pick(q: nat, dim: nat, inner: nat, i: nat): nat
    requires inner > 0
  {
    (q / inner) * dim * inner + i * inner + q % inner
  }

  /** Row-major bound: `x * q + y` stays below `p * q`. */
  lemma RowBound(x: nat, y: nat, p: nat, q: nat)
    requires x < p && y < q
    ensures x * q + y < p * q
  {
    var k: nat := p - (x + 1);
    Distribute(x, 1, q);
    Distribute(x + 1, k, q);
    assert k * q >= 0;
  }

  lemma Distribute(a: int, b: int, c: int)
    ensures (a + b) * c == a * c + b * c
  {
  }

  lemma PickBound(q: nat, outer: nat, dim: nat, inner: nat, i: nat)
    requires inner > 0 && i < dim && q < outer * inner
    ensures Pick(q, dim, inner, i) < outer * (dim * inner)
  {
    var o, m := q / inner, q % inner;
    assert q == o * inner + m;
    assert (outer - o) * inner == outer * inner - o * inner;
    assert o < outer;
    RowBound(i, m, dim, inner);
    RowBound(o, i * inner + m, outer, dim * inner);
    Assoc(o, dim, inner);
  }

  /** `a[:, ..., :, i:i+1]` with `lead` full slices before the cut axis,
      numpy basic slicing: the cut axis keeps one position when `i` is on
      it and none otherwise; more slices than axes is an IndexError. */
  function Cut(a: NdArray, lead: nat, i: nat): (r: Result<NdArray>)
    requires Valid(a)
    ensures r.Ok? <==> lead < |a.shape|
    ensures r.Err? ==> r.error == TooManyIndices
    ensures r.Ok? ==> Valid(r.value)
    ensures r.Ok? ==> r.value.shape == a.shape[lead := if i < a.shape[lead] then 1 else 0]
  {
    if lead >= |a.shape| then Err(TooManyIndices)
    else
      var dim, outer, inner := a.shape[lead], Product(a.shape[..lead]), Product(a.shape[lead + 1..]);
      var ext := if i < dim then 1 else 0;
      var shape := a.shape[lead := ext];
      ProductSplit(a.shape, lead);
      ProductSplit(shape, lead);
      assert shape[..lead] == a.shape[..lead] && shape[lead + 1..] == a.shape[lead + 1..];
      var n := outer * inner * ext;
      assert Product(shape) == n by {
        Assoc(outer, ext, inner);
        Comm(ext, inner);
        Assoc(outer, inner, ext);
      }
      Ok(NdArray(shape, seq(n, q requires 0 <= q < n =>
        assert inner > 0 && i < dim && q < outer * inner;
        PickBound(q, outer, dim, inner, i);
        a.flat[Pick(q, dim, inner, i)])))
  }

  /** 2-D: `a[:, i:i+1]` is column `i`, one element per row. */
  lemma CutColumn(a: NdArray, rows: nat, cols: nat, i: nat)
    requires Valid(a) && a.shape == [rows, cols] && i < cols
    ensures Cut(a, 1, i).Ok?
    ensures Cut(a, 1, i).value.shape == [rows, 1] && |Cut(a, 1, i).value.flat| == rows
    ensures forall r :: 0 <= r < rows ==>
      && Offset([rows, 1], [r, 0]) == r
      && Offset([rows, cols], [r, i]) < |a.flat|
      && Cut(a, 1, i).value.flat[r] == a.flat[Offset([rows, cols], [r, i])]
  {
    var b := Cut(a, 1, i).value;
    assert a.shape[..1] == [rows] && a.shape[2..] == [];
    assert Product([rows]) == rows;
    assert Product(a.shape) == rows * cols by {
      assert a.shape[1..] == [cols];
      assert Product([cols]) == cols;
    }
    forall r | 0 <= r < rows
      ensures Offset([rows, 1], [r, 0]) == r
      ensures Offset([rows, cols], [r, i]) < |a.flat|
      ensures b.flat[r] == a.flat[Offset([rows, cols], [r, i])]
    {
      Offset2(r, 0, rows, 1);
      Offset2(r, i, rows, cols);
      RowBound(r, i, rows, cols);
      assert Pick(r, cols, 1, i) == r * cols + i;
    }
  }

  /** 3-D: `a[:, :, i:i+1]` is position `i` of the last axis, one element per
      pair of leading indices. */
  lemma CutLast(a: NdArray, p: nat, q: nat, n: nat, i: nat)
    requires Valid(a) && a.shape == [p, q, n] && i < n
    ensures Cut(a, 2, i).Ok?
    ensures Cut(a, 2, i).value.shape == [p, q, 1] && |Cut(a, 2, i).value.flat| == p * q
    ensures forall x, y :: 0 <= x < p && 0 <= y < q ==>
      && Offset([p, q, 1], [x, y, 0]) == x * q + y
      && x * q + y < p * q
      && Offset([p, q, n], [x, y, i]) < |a.flat|
      && Cut(a, 2, i).value.flat[x * q + y] == a.flat[Offset([p, q, n], [x, y, i])]
  {
    var b := Cut(a, 2, i).value;
    CutLastShape(a, p, q, n, i);
    forall x, y | 0 <= x < p && 0 <= y < q
      ensures Offset([p, q, 1], [x, y, 0]) == x * q + y
      ensures x * q + y < p * q
      ensures Offset([p, q, n], [x, y, i]) < |a.flat|
      ensures b.flat[x * q + y] == a.flat[Offset([p, q, n], [x, y, i])]
    {
      Offset3(x, y, 0, p, q, 1);
      Offset3(x, y, i, p, q, n);
      var m := x * q + y;
      RowBound(x, y, p, q);
      RowBound(m, i, p * q, n);
      assert Pick(m, n, 1, i) == m * n + i;
    }
  }

  lemma CutLastShape(a: NdArray, p: nat, q: nat, n: nat, i: nat)
    requires Valid(a) && a.shape == [p, q, n] && i < n
    ensures Product(a.shape[..2]) == p * q && a.shape[3..] == [] && Product(a.shape[3..]) == 1
    ensures |a.flat| == (p * q) * n
  {
    assert a.shape[..2] == [p, q];
    assert [p, q][1..] == [q];
    assert Product([q]) == q;
    ProductSplit(a.shape, 2);
  }

  /** A position off the cut axis gives an empty cut. */
  lemma CutPastEnd(a: NdArray, lead: nat, i: nat)
    requires Valid(a) && lead < |a.shape| && i >= a.shape[lead]
    ensures Cut(a, lead, i).Ok? && Cut(a, lead, i).value.flat == []
  {
    var b := Cut(a, lead, i).value;
    assert b.shape[lead] == 0;
    ProductSplit(b.shape, lead);
  }
}
