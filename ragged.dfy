/** The storage layout of a ragged order-1 tensor pack: one flat buffer holds
    every item's k_i x nc matrix, row after row, item after item, and a
    directory row (offset, k_i, nc) locates each item in it. Element (item i,
    row j, channel c) sits at offset_i + j*nc + c. */
module Ragged {
  import opened Dense

  /** One directory row: where an item starts, its atom count, its channel count. */
  datatype Header = Header(offset: nat, k: nat, nc: nat)

  /** Per-item atom counts of an atoms pack. */
  function Sizes(atoms: seq<seq<nat>>): seq<nat>
  {
    seq(|atoms|, i requires 0 <= i < |atoms| => |atoms[i]|)
  }

  /** Total number of atoms (matrix rows) over all items. */
  function Rows(sizes: seq<nat>): nat
  {
    if sizes == [] then 0 else Rows(sizes[..|sizes| - 1]) + sizes[|sizes| - 1]
  }

  /** The directory of a packed layout with channel count nc: item i starts
      after all rows of items 0 .. i-1, that is at (rows before i) * nc. */
  function Directory(sizes: seq<nat>, nc: nat): seq<Header>
  {
    seq(|sizes|, i requires 0 <= i < |sizes| => Header(Mul(Rows(sizes[..i]), nc), sizes[i], nc))
  }

  /** Row g of a row-major buffer of width nc. */
  function RowAt(arr: Vec, g: nat, nc: nat): (row: Vec)
    requires Mul(g, nc) + nc <= |arr|
    ensures |row| == nc
  {
    arr[Mul(g, nc) .. Mul(g, nc) + nc]
  }

  /** The items a flat buffer laid out by `Directory(sizes, nc)` holds: row j
      of item i is buffer row (rows before i) + j. */
  function Unpack(arr: Vec, sizes: seq<nat>, nc: nat): (items: seq<Mat>)
    requires |arr| == Mul(Rows(sizes), nc)
    ensures Shaped(items, sizes, nc)
  {
    seq(|sizes|, i requires 0 <= i < |sizes| =>
      seq(sizes[i], j requires 0 <= j < sizes[i] => Cell(arr, sizes, nc, i, j)))
  }

  /** Row j of item i: buffer row (rows before i) + j. */
  function Cell(arr: Vec, sizes: seq<nat>, nc: nat, i: nat, j: nat): (row: Vec)
    requires |arr| == Mul(Rows(sizes), nc) && i < |sizes| && j < sizes[i]
    ensures |row| == nc
  {
    RowFits(sizes, nc, i, j);
    RowAt(arr, Rows(sizes[..i]) + j, nc)
  }

  /** The atom count (number of rows) of each item. */
  function Heights(items: seq<Mat>): (h: seq<nat>)
    ensures |h| == |items| && forall i | 0 <= i < |items| :: h[i] == |items[i]|
  {
    seq(|items|, i requires 0 <= i < |items| => |items[i]|)
  }

  /** Every row of every item has nc channels. */
  ghost predicate Fits(items: seq<Mat>, nc: nat)
  {
    forall i | 0 <= i < |items| :: Width(items[i], nc)
  }

  /** `items` has one k_i x nc matrix per entry of `sizes`. */
  ghost predicate Shaped(items: seq<Mat>, sizes: seq<nat>, nc: nat)
  {
    Heights(items) == sizes && Fits(items, nc)
  }

  /** The items of the given shape, all zero. */
  function ZeroPack(sizes: seq<nat>, nc: nat): seq<Mat>
  {
    seq(|sizes|, i requires 0 <= i < |sizes| => Repeat(Zeros(nc), sizes[i]))
  }

  /** Element-wise sum of two packs of the same shape. */
  function PackAdd(a: seq<Mat>, b: seq<Mat>, sizes: seq<nat>, nc: nat): (r: seq<Mat>)
    requires Shaped(a, sizes, nc) && Shaped(b, sizes, nc)
    ensures Shaped(r, sizes, nc)
  {
    seq(|a|, i requires 0 <= i < |a| =>
      seq(|a[i]|, j requires 0 <= j < |a[i]| => Add(a[i][j], b[i][j])))
  }

  /** Row j of item i with channels `offs .. offs+|w|-1` overwritten by `w`. */
  function PutRow(items: seq<Mat>, i: nat, j: nat, offs: nat, w: Vec): seq<Mat>
    requires i < |items| && j < |items[i]| && offs + |w| <= |items[i][j]|
  {
    items[i := items[i][j := Put(items[i][j], offs, w)]]
  }

  // ---- Prefix sums of atom counts -------------------------------------------

  lemma RowsSnoc(sizes: seq<nat>, k: nat)
    ensures Rows(sizes + [k]) == Rows(sizes) + k
  {
    assert (sizes + [k])[..|sizes|] == sizes;
  }

  lemma RowsStep(sizes: seq<nat>, i: nat)
    requires i < |sizes|
    ensures Rows(sizes[..i + 1]) == Rows(sizes[..i]) + sizes[i]
  {
    assert sizes[..i + 1][..i] == sizes[..i];
  }

  lemma {:induction false} RowsMono(sizes: seq<nat>, i: nat, j: nat)
    requires i <= j <= |sizes|
    ensures Rows(sizes[..i]) <= Rows(sizes[..j])
  {
    if i < j {
      RowsMono(sizes, i, j - 1);
      RowsStep(sizes, j - 1);
    }
  }

  /** Item i's rows lie inside the buffer. */
  lemma ItemRows(sizes: seq<nat>, i: nat)
    requires i < |sizes|
    ensures Rows(sizes[..i]) + sizes[i] <= Rows(sizes)
  {
    RowsStep(sizes, i);
    RowsMono(sizes, i + 1, |sizes|);
    assert sizes[..|sizes|] == sizes;
  }

  /** Items i < i' occupy ordered, disjoint row ranges. */
  lemma ItemsOrdered(sizes: seq<nat>, i: nat, i': nat)
    requires i < i' < |sizes|
    ensures Rows(sizes[..i]) + sizes[i] <= Rows(sizes[..i'])
  {
    RowsStep(sizes, i);
    RowsMono(sizes, i + 1, i');
  }

  /** Row j of item i lies inside the buffer. */
  lemma RowFits(sizes: seq<nat>, nc: nat, i: nat, j: nat)
    requires i < |sizes| && j < sizes[i]
    ensures Mul(Rows(sizes[..i]) + j, nc) + nc <= Mul(Rows(sizes), nc)
  {
    ItemRows(sizes, i);
    MulStep(Rows(sizes[..i]) + j, Rows(sizes), nc);
  }

  /** Distinct (item, row) pairs are distinct buffer rows. */
  lemma RowsDistinct(sizes: seq<nat>, i: nat, j: nat, i': nat, j': nat)
    requires i < |sizes| && j < sizes[i] && i' < |sizes| && j' < sizes[i']
    requires i != i' || j != j'
    ensures Rows(sizes[..i]) + j != Rows(sizes[..i']) + j'
  {
    if i < i' { ItemsOrdered(sizes, i, i'); } else if i' < i { ItemsOrdered(sizes, i', i); }
  }

  /** The directory offset of item i plus j rows is the start of buffer row
      (rows before i) + j. */
  lemma RowOffset(sizes: seq<nat>, nc: nat, i: nat, j: nat)
    requires i < |sizes|
    ensures Directory(sizes, nc)[i].offset + j * nc == Mul(Rows(sizes[..i]) + j, nc)
  {
    MulAdd(Rows(sizes[..i]), j, nc);
    MulIsProduct(j, nc);
  }

  // ---- The buffer and the items it holds -------------------------------------

  /** Row j of item i is buffer row (rows before i) + j. */
  lemma UnpackRow(arr: Vec, sizes: seq<nat>, nc: nat, i: nat, j: nat)
    requires |arr| == Mul(Rows(sizes), nc) && i < |sizes| && j < sizes[i]
    ensures Mul(Rows(sizes[..i]) + j, nc) + nc <= |arr|
    ensures Unpack(arr, sizes, nc)[i][j] == RowAt(arr, Rows(sizes[..i]) + j, nc)
  {
    RowFits(sizes, nc, i, j);
  }

  /** A write into row g of the buffer is that write on row g ... */
  lemma RowAtPutSame(arr: Vec, nc: nat, g: nat, offs: nat, w: Vec)
    requires Mul(g, nc) + nc <= |arr| && offs + |w| <= nc
    ensures RowAt(Put(arr, Mul(g, nc) + offs, w), g, nc) == Put(RowAt(arr, g, nc), offs, w)
  {
    var a := Mul(g, nc);
    PutInside(arr, a + offs, w, a, nc);
  }

  /** ... and leaves every other row as it was. */
  lemma RowAtPutOther(arr: Vec, nc: nat, g: nat, offs: nat, w: Vec, g': nat)
    requires Mul(g, nc) + nc <= |arr| && Mul(g', nc) + nc <= |arr| && offs + |w| <= nc
    requires g != g'
    ensures RowAt(Put(arr, Mul(g, nc) + offs, w), g', nc) == RowAt(arr, g', nc)
  {
    var a, a' := Mul(g, nc), Mul(g', nc);
    if g < g' {
      MulStep(g, g', nc);
      assert a + offs + |w| <= a';
    } else {
      MulStep(g', g, nc);
      assert a' + nc <= a + offs;
    }
    PutOutside(arr, a + offs, w, a', a' + nc);
  }

  /** Writing `w` at channel `offs` of buffer row (rows before i) + j changes
      exactly channels `offs .. offs+|w|-1` of row j of item i. */
  lemma UnpackPut(arr: Vec, sizes: seq<nat>, nc: nat, i: nat, j: nat, offs: nat, w: Vec)
    requires |arr| == Mul(Rows(sizes), nc) && i < |sizes| && j < sizes[i] && offs + |w| <= nc
    ensures Mul(Rows(sizes[..i]) + j, nc) + offs + |w| <= |arr|
    ensures Unpack(Put(arr, Mul(Rows(sizes[..i]) + j, nc) + offs, w), sizes, nc) ==
            PutRow(Unpack(arr, sizes, nc), i, j, offs, w)
  {
    RowFits(sizes, nc, i, j);
    var g := Rows(sizes[..i]) + j;
    var arr' := Put(arr, Mul(g, nc) + offs, w);
    var U' := Unpack(arr', sizes, nc);
    var V := PutRow(Unpack(arr, sizes, nc), i, j, offs, w);
    forall i' | 0 <= i' < |sizes| ensures U'[i'] == V[i'] {
      forall j' | 0 <= j' < sizes[i'] ensures U'[i'][j'] == V[i'][j'] {
        if i' == i && j' == j {
          UnpackPutSame(arr, sizes, nc, i, j, offs, w);
        } else {
          UnpackPutOther(arr, sizes, nc, i, j, offs, w, i', j');
        }
      }
    }
  }

  /** The written row after the write of `UnpackPut` ... */
  lemma UnpackPutSame(arr: Vec, sizes: seq<nat>, nc: nat, i: nat, j: nat, offs: nat, w: Vec)
    requires |arr| == Mul(Rows(sizes), nc) && i < |sizes| && j < sizes[i] && offs + |w| <= nc
    ensures Mul(Rows(sizes[..i]) + j, nc) + offs + |w| <= |arr|
    ensures Cell(Put(arr, Mul(Rows(sizes[..i]) + j, nc) + offs, w), sizes, nc, i, j) ==
            Put(Cell(arr, sizes, nc, i, j), offs, w)
  {
    RowFits(sizes, nc, i, j);
    RowAtPutSame(arr, nc, Rows(sizes[..i]) + j, offs, w);
  }

  /** ... and every other row. */
  lemma UnpackPutOther(arr: Vec, sizes: seq<nat>, nc: nat, i: nat, j: nat, offs: nat, w: Vec, i': nat, j': nat)
    requires |arr| == Mul(Rows(sizes), nc) && i < |sizes| && j < sizes[i] && offs + |w| <= nc
    requires i' < |sizes| && j' < sizes[i'] && (i' != i || j' != j)
    ensures Mul(Rows(sizes[..i]) + j, nc) + offs + |w| <= |arr|
    ensures Cell(Put(arr, Mul(Rows(sizes[..i]) + j, nc) + offs, w), sizes, nc, i', j') == Cell(arr, sizes, nc, i', j')
  {
    RowFits(sizes, nc, i, j);
    RowFits(sizes, nc, i', j');
    RowsDistinct(sizes, i, j, i', j');
    RowAtPutOther(arr, nc, Rows(sizes[..i]) + j, offs, w, Rows(sizes[..i']) + j');
  }

  lemma UnpackZeros(sizes: seq<nat>, nc: nat)
    ensures Unpack(Zeros(Mul(Rows(sizes), nc)), sizes, nc) == ZeroPack(sizes, nc)
  {
    var arr := Zeros(Mul(Rows(sizes), nc));
    var U := Unpack(arr, sizes, nc);
    forall i | 0 <= i < |sizes| ensures U[i] == ZeroPack(sizes, nc)[i] {
      forall j | 0 <= j < sizes[i] ensures U[i][j] == Zeros(nc) {
        UnpackRow(arr, sizes, nc, i, j);
        var g := Rows(sizes[..i]) + j;
        assert RowAt(arr, g, nc) == Zeros(nc);
      }
    }
  }

  lemma UnpackAddRow(a: Vec, b: Vec, sizes: seq<nat>, nc: nat, i: nat, j: nat)
    requires |a| == |b| == Mul(Rows(sizes), nc) && i < |sizes| && j < sizes[i]
    ensures Unpack(Add(a, b), sizes, nc)[i][j] ==
            Add(Unpack(a, sizes, nc)[i][j], Unpack(b, sizes, nc)[i][j])
  {
    UnpackRow(Add(a, b), sizes, nc, i, j);
    UnpackRow(a, sizes, nc, i, j);
    UnpackRow(b, sizes, nc, i, j);
    var g := Rows(sizes[..i]) + j;
    assert RowAt(Add(a, b), g, nc) == Add(RowAt(a, g, nc), RowAt(b, g, nc));
  }

  /** The element-wise sum of two buffers holds the element-wise sum of their items. */
  lemma UnpackAdd(a: Vec, b: Vec, sizes: seq<nat>, nc: nat)
    requires |a| == |b| == Mul(Rows(sizes), nc)
    ensures Unpack(Add(a, b), sizes, nc) ==
            PackAdd(Unpack(a, sizes, nc), Unpack(b, sizes, nc), sizes, nc)
  {
    var U := Unpack(Add(a, b), sizes, nc);
    var P := PackAdd(Unpack(a, sizes, nc), Unpack(b, sizes, nc), sizes, nc);
    forall i | 0 <= i < |sizes| ensures U[i] == P[i] {
      forall j | 0 <= j < sizes[i] ensures U[i][j] == P[i][j] {
        UnpackAddRow(a, b, sizes, nc, i, j);
      }
    }
  }

  lemma RowAtAppendOld(arr: Vec, tail: Vec, g: nat, nc: nat)
    requires Mul(g, nc) + nc <= |arr|
    ensures RowAt(arr + tail, g, nc) == RowAt(arr, g, nc)
  {
    var a := Mul(g, nc);
    assert (arr + tail)[a .. a + nc] == arr[a .. a + nc];
  }

  lemma RowAtAppendNew(arr: Vec, m: Mat, nc: nat, R: nat, j: nat)
    requires |arr| == Mul(R, nc) && Width(m, nc) && j < |m|
    ensures Mul(R + j, nc) + nc <= |arr + Flatten(m)|
    ensures RowAt(arr + Flatten(m), R + j, nc) == m[j]
  {
    MulAdd(R, j, nc);
    FlattenRow(m, nc, j);
    var q := Mul(j, nc);
    assert (arr + Flatten(m))[|arr| + q .. |arr| + q + nc] == Flatten(m)[q .. q + nc];
  }

  lemma UnpackAppendOld(arr: Vec, sizes: seq<nat>, nc: nat, m: Mat, i: nat)
    requires |arr| == Mul(Rows(sizes), nc) && Width(m, nc) && i < |sizes|
    requires |arr + Flatten(m)| == Mul(Rows(sizes + [|m|]), nc)
    ensures Unpack(arr + Flatten(m), sizes + [|m|], nc)[i] == Unpack(arr, sizes, nc)[i]
  {
    var sizes' := sizes + [|m|];
    forall j | 0 <= j < sizes[i]
      ensures Unpack(arr + Flatten(m), sizes', nc)[i][j] == Unpack(arr, sizes, nc)[i][j]
    {
      CellAppendOld(arr, sizes, nc, m, i, j);
    }
  }

  lemma CellAppendOld(arr: Vec, sizes: seq<nat>, nc: nat, m: Mat, i: nat, j: nat)
    requires |arr| == Mul(Rows(sizes), nc) && i < |sizes| && j < sizes[i]
    requires |arr + Flatten(m)| == Mul(Rows(sizes + [|m|]), nc)
    ensures Cell(arr + Flatten(m), sizes + [|m|], nc, i, j) == Cell(arr, sizes, nc, i, j)
  {
    assert (sizes + [|m|])[..i] == sizes[..i];
    RowFits(sizes, nc, i, j);
    RowAtAppendOld(arr, Flatten(m), Rows(sizes[..i]) + j, nc);
  }

  lemma UnpackAppendNew(arr: Vec, sizes: seq<nat>, nc: nat, m: Mat)
    requires |arr| == Mul(Rows(sizes), nc) && Width(m, nc)
    requires |arr + Flatten(m)| == Mul(Rows(sizes + [|m|]), nc)
    ensures Unpack(arr + Flatten(m), sizes + [|m|], nc)[|sizes|] == m
  {
    var sizes' := sizes + [|m|];
    assert sizes'[..|sizes|] == sizes;
    forall j | 0 <= j < |m| ensures Unpack(arr + Flatten(m), sizes', nc)[|sizes|][j] == m[j] {
      UnpackRow(arr + Flatten(m), sizes', nc, |sizes|, j);
      RowAtAppendNew(arr, m, nc, Rows(sizes), j);
    }
  }

  /** Appending a flattened k x nc matrix to the buffer appends it as a new item. */
  lemma UnpackAppend(arr: Vec, sizes: seq<nat>, nc: nat, m: Mat)
    requires |arr| == Mul(Rows(sizes), nc) && Width(m, nc)
    ensures |arr + Flatten(m)| == Mul(Rows(sizes + [|m|]), nc)
    ensures Unpack(arr + Flatten(m), sizes + [|m|], nc) == Unpack(arr, sizes, nc) + [m]
  {
    RowsSnoc(sizes, |m|);
    FlattenLength(m, nc);
    MulAdd(Rows(sizes), |m|, nc);
    var U := Unpack(arr, sizes, nc);
    var U' := Unpack(arr + Flatten(m), sizes + [|m|], nc);
    forall i | 0 <= i < |sizes| + 1 ensures U'[i] == (U + [m])[i] {
      if i < |sizes| {
        UnpackAppendOld(arr, sizes, nc, m, i);
      } else {
        UnpackAppendNew(arr, sizes, nc, m);
      }
    }
  }

  // ---- The directory ---------------------------------------------------------

  /** The directory of a layout: item 0 starts at 0, item i+1 starts where item
      i's k_i x nc block ends, every row records (offset, k_i, nc), and the
      buffer ends at (total atom count) x nc. */
  lemma DirectoryLayout(sizes: seq<nat>, nc: nat)
    ensures |Directory(sizes, nc)| == |sizes|
    ensures |sizes| > 0 ==> Directory(sizes, nc)[0].offset == 0
    ensures forall i | 0 <= i < |sizes| :: Directory(sizes, nc)[i].k == sizes[i] && Directory(sizes, nc)[i].nc == nc
    ensures forall i | 0 <= i < |sizes| - 1 ::
      Directory(sizes, nc)[i + 1].offset == Directory(sizes, nc)[i].offset + sizes[i] * nc
    ensures Mul(Rows(sizes), nc) == Rows(sizes) * nc
  {
    if |sizes| > 0 {
      assert sizes[..0] == [];
    }
    forall i | 0 <= i < |sizes| - 1
      ensures Directory(sizes, nc)[i + 1].offset == Directory(sizes, nc)[i].offset + sizes[i] * nc
    {
      TailStep(sizes, nc, i);
    }
    MulIsProduct(Rows(sizes), nc);
  }

  /** The running tail after item i is the tail before it plus k_i x nc. */
  lemma TailStep(sizes: seq<nat>, nc: nat, i: nat)
    requires i < |sizes|
    ensures Mul(Rows(sizes[..i + 1]), nc) == Mul(Rows(sizes[..i]), nc) + sizes[i] * nc
  {
    RowsStep(sizes, i);
    MulAdd(Rows(sizes[..i]), sizes[i], nc);
    MulIsProduct(sizes[i], nc);
  }

  /** Appending an item appends its header, placed at the old tail. */
  lemma DirectorySnoc(sizes: seq<nat>, k: nat, nc: nat)
    ensures Directory(sizes + [k], nc) == Directory(sizes, nc) + [Header(Mul(Rows(sizes), nc), k, nc)]
    ensures Mul(Rows(sizes + [k]), nc) == Mul(Rows(sizes), nc) + k * nc
  {
    var s := sizes + [k];
    assert s[..|sizes|] == sizes;
    forall i | 0 <= i < |sizes| ensures s[..i] == sizes[..i] { }
    RowsSnoc(sizes, k);
    MulAdd(Rows(sizes), k, nc);
    MulIsProduct(k, nc);
  }

  // ---- Buffer addresses ------------------------------------------------------

  /** Channels `offs .. offs+n-1` of row j of item i are the buffer cells from
      `offset_i + j*nc + offs` on. */
  lemma UnpackSlice(arr: Vec, sizes: seq<nat>, nc: nat, i: nat, j: nat, offs: nat, n: nat)
    requires |arr| == Mul(Rows(sizes), nc) && i < |sizes| && j < sizes[i] && offs + n <= nc
    ensures Directory(sizes, nc)[i].offset + j * nc + offs + n <= |arr|
    ensures arr[Directory(sizes, nc)[i].offset + j * nc + offs .. Directory(sizes, nc)[i].offset + j * nc + offs + n] ==
            Unpack(arr, sizes, nc)[i][j][offs..offs + n]
  {
    RowOffset(sizes, nc, i, j);
    UnpackRow(arr, sizes, nc, i, j);
    var a := Mul(Rows(sizes[..i]) + j, nc);
    SliceSlice(arr, a, nc, offs, n);
  }

  /** `+=` of `w` at buffer address `offset_i + j*nc + offs` adds `w` into
      channels `offs ..` of row j of item i and changes nothing else. */
  lemma UnpackAddAt(arr: Vec, sizes: seq<nat>, nc: nat, i: nat, j: nat, offs: nat, w: Vec)
    requires |arr| == Mul(Rows(sizes), nc) && i < |sizes| && j < sizes[i] && offs + |w| <= nc
    ensures Directory(sizes, nc)[i].offset + j * nc + offs + |w| <= |arr|
    ensures
      var U := Unpack(arr, sizes, nc);
      Unpack(AddAt(arr, Directory(sizes, nc)[i].offset + j * nc + offs, w), sizes, nc) ==
      U[i := U[i][j := AddAt(U[i][j], offs, w)]]
  {
    UnpackSlice(arr, sizes, nc, i, j, offs, |w|);
    RowOffset(sizes, nc, i, j);
    var p := Directory(sizes, nc)[i].offset + j * nc + offs;
    var v := Add(arr[p..p + |w|], w);
    UnpackPut(arr, sizes, nc, i, j, offs, v);
    assert AddAt(arr, p, w) == Put(arr, Mul(Rows(sizes[..i]) + j, nc) + offs, v);
    var U := Unpack(arr, sizes, nc);
    assert AddAt(U[i][j], offs, w) == Put(U[i][j], offs, v);
  }

  /** Writing a whole row at buffer address `offset_i + j*nc` replaces row j of
      item i and changes nothing else. */
  lemma UnpackSetRow(arr: Vec, sizes: seq<nat>, nc: nat, i: nat, j: nat, w: Vec)
    requires |arr| == Mul(Rows(sizes), nc) && i < |sizes| && j < sizes[i] && |w| == nc
    ensures Directory(sizes, nc)[i].offset + j * nc + nc <= |arr|
    ensures
      var U := Unpack(arr, sizes, nc);
      Unpack(Put(arr, Directory(sizes, nc)[i].offset + j * nc, w), sizes, nc) == U[i := U[i][j := w]]
  {
    RowOffset(sizes, nc, i, j);
    UnpackPut(arr, sizes, nc, i, j, 0, w);
    var r := Unpack(arr, sizes, nc)[i][j];
    assert Put(r, 0, w) == w;
  }

  // ---- Sums of packs ---------------------------------------------------------

  /** The element-wise sum of one or more packs of the same shape, added left
      to right. */
  function PackSum(ps: seq<seq<Mat>>, sizes: seq<nat>, nc: nat): (r: seq<Mat>)
    requires |ps| > 0 && forall p | 0 <= p < |ps| :: Shaped(ps[p], sizes, nc)
    ensures Shaped(r, sizes, nc)
  {
    if |ps| == 1 then ps[0]
    else PackAdd(PackSum(ps[..|ps| - 1], sizes, nc), ps[|ps| - 1], sizes, nc)
  }

  /** Every cell of a sum of packs is the sum of that cell over the packs. */
  lemma {:induction false} PackSumCell(ps: seq<seq<Mat>>, sizes: seq<nat>, nc: nat, i: nat, j: nat, c: nat)
    requires |ps| > 0 && forall p | 0 <= p < |ps| :: Shaped(ps[p], sizes, nc)
    requires i < |sizes| && j < sizes[i] && c < nc
    ensures PackSum(ps, sizes, nc)[i][j][c] ==
            Sum(seq(|ps|, p requires 0 <= p < |ps| => ps[p][i][j][c]))
  {
    var s := seq(|ps|, p requires 0 <= p < |ps| => ps[p][i][j][c]);
    if |ps| == 1 {
      assert s == [] + [s[0]];
    } else {
      var k := |ps| - 1;
      PackSumCell(ps[..k], sizes, nc, i, j, c);
      assert s[..k] == seq(k, p requires 0 <= p < k => ps[..k][p][i][j][c]);
    }
  }
}
