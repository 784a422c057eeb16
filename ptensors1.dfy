/** The order-1 ragged tensor pack: item i is a k_i x nc matrix (one row per
    atom of its atom list), and all items live one after the other in a single
    flat buffer located by a directory of (offset, k_i, nc) headers. */
module Layers {
  import opened Dense
  import opened Aindex
  import opened Ragged
  import Linmaps1

  /** A single order-1 Ptensor: its atom list and its k x nc matrix. */
  datatype Ptensor1 = Ptensor1(atoms: seq<nat>, nc: nat, rows: Mat)

  ghost predicate WellFormed(p: Ptensor1)
  {
    |p.rows| == |p.atoms| && Width(p.rows, p.nc)
  }

  /** The directory construction of `raw`/`zero`: a running tail walks over
      the items, each header recording where its k_i x nc block starts. */
  method LayOut(atoms: seq<seq<nat>>, nc: nat) returns (dir: seq<Header>, tail: nat)
    ensures dir == Directory(Sizes(atoms), nc)
    ensures tail == Mul(Rows(Sizes(atoms)), nc)
  {
    ghost var sizes := Sizes(atoms);
    dir, tail := [], 0;
    assert sizes[..0] == [];
    for i := 0 to |atoms|
      invariant dir == Directory(sizes, nc)[..i]
      invariant tail == Mul(Rows(sizes[..i]), nc)
    {
      TailStep(sizes, nc, i);
      dir := dir + [Header(tail, |atoms[i]|, nc)];
      tail := tail + |atoms[i]| * nc;
    }
    assert sizes[..|atoms|] == sizes;
  }

  /** Channels `offs .. offs+n-1` of row j of item i, read at buffer address
      `offset_i + j*nc + offs`. */
  lemma BlockRowAt(arr: Vec, sizes: seq<nat>, nc: nat, i: nat, j: nat, offs: nat, n: nat, p: nat)
    requires |arr| == Mul(Rows(sizes), nc) && i < |sizes| && j < sizes[i] && offs + n <= nc
    requires p == Directory(sizes, nc)[i].offset + j * nc + offs
    ensures p + n <= |arr|
    ensures arr[p..p + n] == Linmaps1.Block(Unpack(arr, sizes, nc)[i], nc, offs, n)[j]
  {
    UnpackSlice(arr, sizes, nc, i, j, offs, n);
  }

  /** One more position of `view_of(i, ix, offs, n) += m` done, at buffer
      address p. */
  lemma AddRowsStep(arr: Vec, sizes: seq<nat>, nc: nat, U: seq<Mat>, i: nat, ix: seq<nat>, offs: nat, m: Mat, t: nat, p: nat)
    requires |arr| == Mul(Rows(sizes), nc) && Shaped(U, sizes, nc)
    requires i < |U| && |m| == |ix| && t < |ix|
    requires forall t' | 0 <= t' < |ix| :: ix[t'] < |U[i]| && offs + |m[t']| <= nc
    requires p == Directory(sizes, nc)[i].offset + ix[t] * nc + offs
    requires Unpack(arr, sizes, nc) == U[i := Linmaps1.AddRows(U[i], nc, ix[..t], offs, m[..t])]
    ensures p + |m[t]| <= |arr|
    ensures Unpack(AddAt(arr, p, m[t]), sizes, nc) == U[i := Linmaps1.AddRows(U[i], nc, ix[..t + 1], offs, m[..t + 1])]
  {
    UnpackAddAt(arr, sizes, nc, i, ix[t], offs, m[t]);
    assert ix[..t + 1][..t] == ix[..t] && m[..t + 1][..t] == m[..t];
  }

  /** The first i items of U with `ms` added at channel `offs`, the rest as
      they were: the state of a plain broadcast after i items. */
  ghost function Partly(U: seq<Mat>, nc: nat, ms: seq<Mat>, offs: nat, i: nat): (r: seq<Mat>)
    requires Fits(U, nc) && |U| <= |ms|
    requires forall i' | 0 <= i' < |U| :: |ms[i']| == |U[i']|
    requires forall i', j | 0 <= i' < |U| && 0 <= j < |ms[i']| :: offs + |ms[i'][j]| <= nc
  {
    seq(|U|, i' requires 0 <= i' < |U| =>
      if i' < i then Linmaps1.AddBlock(U[i'], nc, offs, ms[i']) else U[i'])
  }

  /** One more item of a plain broadcast done. */
  lemma PartlyStep(U: seq<Mat>, nc: nat, ms: seq<Mat>, offs: nat, i: nat)
    requires Fits(U, nc) && |U| <= |ms| && i < |U|
    requires forall i' | 0 <= i' < |U| :: |ms[i']| == |U[i']|
    requires forall i', j | 0 <= i' < |U| && 0 <= j < |ms[i']| :: offs + |ms[i'][j]| <= nc
    ensures Partly(U, nc, ms, offs, i)[i] == U[i]
    ensures Partly(U, nc, ms, offs, i)[i := Linmaps1.AddRows(U[i], nc, Range(|U[i]|), offs, ms[i])] ==
            Partly(U, nc, ms, offs, i + 1)
  {
    Linmaps1.AddRowsRange(U[i], nc, offs, ms[i]);
  }

  /** One more entry of an indexed broadcast done. */
  lemma ScatterPrefixStep(U: seq<Mat>, nc: nat, list: seq<Entry>, ms: seq<Mat>, offs: nat, e: nat)
    requires Fits(U, nc) && Targets(list, Heights(U)) && Linmaps1.Feeds(list, ms, offs, nc) && e < |list|
    ensures Targets(list[..e], Heights(U)) && Linmaps1.Feeds(list[..e], ms[..e], offs, nc)
    ensures Targets(list[..e + 1], Heights(U)) && Linmaps1.Feeds(list[..e + 1], ms[..e + 1], offs, nc)
    ensures
      var S := Linmaps1.Scatter(U, nc, list[..e], ms[..e], offs);
      InRange(list[e], Heights(S)) &&
      Linmaps1.Scatter(U, nc, list[..e + 1], ms[..e + 1], offs) ==
      S[list[e].tens := Linmaps1.AddRows(S[list[e].tens], nc, list[e].ix, offs, ms[e])]
  {
    Linmaps1.ScatterLast(U, nc, list[..e + 1], ms[..e + 1], offs);
    assert list[..e + 1][..e] == list[..e] && ms[..e + 1][..e] == ms[..e];
  }

  /** A skipped entry, which names no positions, changes nothing. */
  lemma SkipEntry(S: seq<Mat>, nc: nat, e: Entry, m: Mat, offs: nat)
    requires Fits(S, nc) && InRange(e, Heights(S)) && e.ix == [] && m == []
    ensures S[e.tens := Linmaps1.AddRows(S[e.tens], nc, e.ix, offs, m)] == S
  {
  }

  /** `repeat0(x_e, nix(e))` fits the channel block at `offs` when x_e does. */
  lemma RepeatsFeed(list: seq<Entry>, x: seq<Vec>, offs: nat, nc: nat)
    requires |list| <= |x| && forall e | 0 <= e < |list| :: offs + |x[e]| <= nc
    ensures Linmaps1.Feeds(list, Linmaps1.Repeats(list, x), offs, nc)
    ensures Linmaps1.Feeds(list, Linmaps1.ScaledRepeats(list, x), offs, nc)
  {
  }

  class Ptensors1 {
    var atoms: seq<seq<nat>>
    var nc: nat
    var dir: seq<Header>
    var tail: nat
    var arr: seq<real>

    /** The directory and the tail are those of the layout of `atoms`, and the
        buffer ends at the tail. */
    ghost predicate Valid()
      reads this
    {
      dir == Directory(Sizes(atoms), nc) && tail == Mul(Rows(Sizes(atoms)), nc) && |arr| == tail
    }

    /** The items the buffer holds, item i being `view_of(i)`. */
    function Items(): (items: seq<Mat>)
      reads this
      requires Valid()
      ensures Shaped(items, Sizes(atoms), nc)
    {
      Unpack(arr, Sizes(atoms), nc)
    }

    // ---- Construction --------------------------------------------------------

    /** `Ptensors1(nc)`: a pack with no items. */
    constructor Empty(nc: nat)
      ensures Valid() && atoms == [] && this.nc == nc && Items() == []
    {
      atoms, this.nc, dir, tail, arr := [], nc, [], 0, [];
    }

    /** `zero(atoms, nc)`: the directory of `LayOut` and an all-zero buffer. */
    constructor Zero(atoms: seq<seq<nat>>, nc: nat)
      ensures Valid() && this.atoms == atoms && this.nc == nc
      ensures Items() == ZeroPack(Sizes(atoms), nc)
    {
      var d, t := LayOut(atoms, nc);
      this.atoms, this.nc, dir, tail, arr := atoms, nc, d, t, Zeros(t);
      new;
      UnpackZeros(Sizes(atoms), nc);
    }

    /** `raw(atoms, nc)`: the same directory; the buffer contents are
        unspecified. */
    constructor Raw(atoms: seq<seq<nat>>, nc: nat)
      ensures Valid() && this.atoms == atoms && this.nc == nc
    {
      var d, t := LayOut(atoms, nc);
      this.atoms, this.nc, dir, tail := atoms, nc, d, t;
      arr := seq(t, _ => 0.0);
    }

    /** `sequential(n, k, nc)`: the `raw` layout with every entry of item i
        set to i. */
    static method Sequential(atoms: seq<seq<nat>>, nc: nat) returns (R: Ptensors1)
      ensures fresh(R) && R.Valid() && R.atoms == atoms && R.nc == nc
      ensures forall i | 0 <= i < |atoms| :: R.Items()[i] == Repeat(Constant(nc, i as real), |atoms[i]|)
    {
      R := new Ptensors1.Raw(atoms, nc);
      R.FillSequential();
    }

    /** `view2_of(i).set(i)` for every item i, one row at a time. */
    method FillSequential()
      requires Valid()
      modifies this
      ensures Valid() && atoms == old(atoms) && nc == old(nc)
      ensures forall i | 0 <= i < |atoms| :: Items()[i] == Repeat(Constant(nc, i as real), |atoms[i]|)
    {
      ghost var sizes := Sizes(atoms);
      var a := arr;
      for i := 0 to |atoms|
        modifies {}
        invariant |a| == |arr|
        invariant forall i' | 0 <= i' < i :: Unpack(a, sizes, nc)[i'] == Repeat(Constant(nc, i' as real), sizes[i'])
      {
        for j := 0 to |atoms[i]|
          modifies {}
          invariant |a| == |arr|
          invariant forall i' | 0 <= i' < i :: Unpack(a, sizes, nc)[i'] == Repeat(Constant(nc, i' as real), sizes[i'])
          invariant Unpack(a, sizes, nc)[i][..j] == Repeat(Constant(nc, i as real), j)
        {
          MulIsProduct(j, nc);
          var p := dir[i].offset + j * nc;
          SequentialStep(a, sizes, nc, i, j, p);
          a := Put(a, p, Constant(nc, i as real));
        }
        assert Unpack(a, sizes, nc)[i][..|atoms[i]|] == Unpack(a, sizes, nc)[i];
      }
      arr := a;
    }

    /** Copy constructor. */
    constructor Copy(x: Ptensors1)
      requires x.Valid()
      ensures Valid() && atoms == x.atoms && nc == x.nc && arr == x.arr && Items() == x.Items()
    {
      atoms, nc, dir, tail, arr := x.atoms, x.nc, x.dir, x.tail, x.arr;
    }

    // ---- Access --------------------------------------------------------------

    /** `getn()`: the number of items. */
    function GetN(): (n: nat)
      reads this
      requires Valid()
      ensures n == |Items()| == |atoms|
    {
      |dir|
    }

    /** `k_of(i)`: the row count the directory records for item i, which is
        both the size of its atom list and the height of the item. */
    function KOf(i: nat): (k: nat)
      reads this
      requires Valid() && i < |atoms|
      ensures k == |atoms[i]| == |Items()[i]|
    {
      dir[i].k
    }

    // ---- Row access through the directory ------------------------------------

    /** `view_of(i, ix, offs, n) += m`: row `m[t]` is added into channels
        `offs ..` of row `ix[t]` of item i, for each t in turn. */
    method AddIntoRows(i: nat, ix: seq<nat>, offs: nat, m: Mat)
      requires Valid() && i < |atoms| && |m| == |ix|
      requires forall t | 0 <= t < |ix| :: ix[t] < |atoms[i]| && offs + |m[t]| <= nc
      modifies this
      ensures Valid() && atoms == old(atoms) && nc == old(nc)
      ensures Items() == old(Items())[i := Linmaps1.AddRows(old(Items())[i], nc, ix, offs, m)]
    {
      ghost var U, sizes := Items(), Sizes(atoms);
      var a := arr;
      for t := 0 to |ix|
        modifies {}
        invariant |a| == |arr|
        invariant Unpack(a, sizes, nc) == U[i := Linmaps1.AddRows(U[i], nc, ix[..t], offs, m[..t])]
      {
        MulIsProduct(ix[t], nc);
        var p := dir[i].offset + ix[t] * nc + offs;
        AddRowsStep(a, sizes, nc, U, i, ix, offs, m, t, p);
        a := AddAt(a, p, m[t]);
      }
      arr := a;
      assert ix[..|ix|] == ix && m[..|m|] == m;
    }

    /** `view_of(i, ix, offs, n).sum0_into(v)` on a zero v: the column sums of
        channels `offs .. offs+n-1` over rows `ix` of item i. */
    method SumRowsOf(i: nat, ix: seq<nat>, offs: nat, n: nat) returns (v: Vec)
      requires Valid() && i < |atoms| && offs + n <= nc
      requires forall t | 0 <= t < |ix| :: ix[t] < |atoms[i]|
      ensures v == SumRows(Linmaps1.Gather(Linmaps1.Block(Items()[i], nc, offs, n), ix), n)
    {
      ghost var B := Linmaps1.Block(Items()[i], nc, offs, n);
      v := Zeros(n);
      assert ix[..0] == [];
      for t := 0 to |ix|
        invariant v == SumRows(Linmaps1.Gather(B, ix[..t]), n)
      {
        MulIsProduct(ix[t], nc);
        var p := dir[i].offset + ix[t] * nc + offs;
        BlockRowAt(arr, Sizes(atoms), nc, i, ix[t], offs, n, p);
        Linmaps1.GatherSnoc(B, ix, t);
        v := Add(v, arr[p..p + n]);
      }
      assert ix[..|ix|] == ix;
    }

    /** `R += view_of(i, ix, offs, n)` on a zero R: channels
        `offs .. offs+n-1` of rows `ix` of item i. */
    method RowsOf(i: nat, ix: seq<nat>, offs: nat, n: nat) returns (m: Mat)
      requires Valid() && i < |atoms| && offs + n <= nc
      requires forall t | 0 <= t < |ix| :: ix[t] < |atoms[i]|
      ensures m == Linmaps1.Gather(Linmaps1.Block(Items()[i], nc, offs, n), ix)
    {
      ghost var B := Linmaps1.Block(Items()[i], nc, offs, n);
      m := [];
      for t := 0 to |ix|
        invariant m == Linmaps1.Gather(B, ix[..t])
      {
        MulIsProduct(ix[t], nc);
        var p := dir[i].offset + ix[t] * nc + offs;
        BlockRowAt(arr, Sizes(atoms), nc, i, ix[t], offs, n, p);
        Linmaps1.GatherSnoc(B, ix, t);
        m := m + [arr[p..p + n]];
      }
      assert ix[..|ix|] == ix;
    }
  
    // ---- Plain reductions ------------------------------------------------------

    /** `reduce0(offs, n)`: per item, the column sums of its channel block. */
    method Reduce0Block(offs: nat, n: nat) returns (R: seq<Vec>)
      requires Valid() && offs + n <= nc
      ensures R == Linmaps1.Reduce0(Items(), nc, offs, n)
    {
      ghost var U := Items();
      ghost var S := Linmaps1.Reduce0(U, nc, offs, n);
      R := [];
      for i := 0 to |dir|
        invariant R == S[..i]
      {
        var v := SumRowsOf(i, Range(KOf(i)), offs, n);
        Reduce0At(U, nc, offs, n, i, v);
        PrefixNext(S, i);
        R := R + [v];
      }
      assert S[..|dir|] == S;
    }

    /** `reduce0()`: per item, the column sums over all nc channels. */
    method Reduce0() returns (R: seq<Vec>)
      requires Valid()
      ensures R == Linmaps1.Reduce0(Items(), nc, 0, nc)
    {
      R := Reduce0Block(0, nc);
    }

    /** `reduce0_n()`: per item, the column sums divided by the item's atom
        count. */
    method Reduce0N() returns (R: seq<Vec>)
      requires Valid()
      ensures R == Linmaps1.Reduce0N(Items(), nc)
    {
      ghost var U := Items();
      ghost var S := Linmaps1.Reduce0N(U, nc);
      R := [];
      for i := 0 to |dir|
        invariant R == S[..i]
      {
        var k := KOf(i);
        var v := SumRowsOf(i, Range(k), 0, nc);
        Reduce0At(U, nc, 0, nc, i, v);
        Reduce0NAt(U, nc, i, v);
        var w := if k == 0 then Zeros(nc) else Scale(1.0 / (k as real), v);
        PrefixNext(S, i);
        R := R + [w];
      }
      assert S[..|dir|] == S;
    }

    /** `reduce1()`: the pack itself. */
    method Reduce1() returns (R: seq<Mat>)
      requires Valid()
      ensures R == Items() == Linmaps1.Reduce1(Items(), nc, 0, nc)
    {
      R := Items();
      forall i | 0 <= i < |R| ensures Linmaps1.Reduce1(R, nc, 0, nc)[i] == R[i] {
        Linmaps1.BlockAll(R[i], nc);
      }
    }

    /** `reduce1(offs, n)`: per item, its channel block. */
    method Reduce1Block(offs: nat, n: nat) returns (R: seq<Mat>)
      requires Valid() && offs + n <= nc
      ensures R == Linmaps1.Reduce1(Items(), nc, offs, n)
    {
      ghost var S := Linmaps1.Reduce1(Items(), nc, offs, n);
      R := [];
      for i := 0 to |dir|
        invariant R == S[..i]
      {
        var m := RowsOf(i, Range(dir[i].k), offs, n);
        Linmaps1.GatherRange(Linmaps1.Block(Items()[i], nc, offs, n));
        R := R + [m];
        PrefixNext(S, i);
      }
      assert S[..|dir|] == S;
    }

    // ---- Indexed reductions ----------------------------------------------------

    /** The loop of `reduce0(list, offs, n)` and `broadcast0_back`: per entry,
        the column sums of the channel block over the named rows; an entry
        without positions is skipped and stays zero. */
    method SumEntries(list: seq<Entry>, offs: nat, n: nat) returns (R: seq<Vec>)
      requires Valid() && Targets(list, Sizes(atoms)) && offs + n <= nc
      ensures R == Linmaps1.IReduce0(Items(), nc, list, offs, n)
    {
      ghost var S := Linmaps1.IReduce0(Items(), nc, list, offs, n);
      R := [];
      for e := 0 to |list|
        invariant R == S[..e]
      {
        assert InRange(list[e], Sizes(atoms));
        if |list[e].ix| == 0 {
          R := R + [Zeros(n)];
        } else {
          var v := SumRowsOf(list[e].tens, list[e].ix, offs, n);
          R := R + [v];
        }
        PrefixNext(S, e);
      }
      assert S[..|list|] == S;
    }

    /** `reduce0(list)`. */
    method Reduce0Indexed(list: seq<Entry>) returns (R: seq<Vec>)
      requires Valid() && Targets(list, Sizes(atoms))
      ensures R == Linmaps1.IReduce0(Items(), nc, list, 0, nc)
    {
      R := SumEntries(list, 0, nc);
    }

    /** `reduce0(list, offs, n)` (deprecated). */
    method Reduce0IndexedBlock(list: seq<Entry>, offs: nat, n: nat) returns (R: seq<Vec>)
      requires Valid() && Targets(list, Sizes(atoms)) && offs + n <= nc
      ensures R == Linmaps1.IReduce0(Items(), nc, list, offs, n)
    {
      R := SumEntries(list, offs, n);
    }

    /** `broadcast0_back(list, offs, n)`: the same computation as the indexed
        `reduce0(list, offs, n)`. */
    method Broadcast0Back(list: seq<Entry>, offs: nat, n: nat) returns (R: seq<Vec>)
      requires Valid() && Targets(list, Sizes(atoms)) && offs + n <= nc
      ensures R == Linmaps1.IReduce0(Items(), nc, list, offs, n)
    {
      R := SumEntries(list, offs, n);
    }

    /** `reduce0_n(list)`: per entry, the column means over the named rows; an
        entry without positions stays zero. */
    method Reduce0NIndexed(list: seq<Entry>) returns (R: seq<Vec>)
      requires Valid() && Targets(list, Sizes(atoms))
      ensures R == Linmaps1.IReduce0N(Items(), nc, list)
    {
      ghost var S := Linmaps1.IReduce0N(Items(), nc, list);
      R := [];
      for e := 0 to |list|
        invariant R == S[..e]
      {
        assert InRange(list[e], Sizes(atoms));
        var nix := |list[e].ix|;
        if nix == 0 {
          R := R + [Zeros(nc)];
        } else {
          var v := SumRowsOf(list[e].tens, list[e].ix, 0, nc);
          R := R + [Scale(1.0 / (nix as real), v)];
        }
        PrefixNext(S, e);
      }
      assert S[..|list|] == S;
    }

    /** The loop of `reduce1(list, offs, n)` and `broadcast1_back`: per entry,
        the channel block of the named rows; an entry without positions is
        skipped and stays empty. */
    method RowsOfEntries(list: seq<Entry>, offs: nat, n: nat) returns (R: seq<Mat>)
      requires Valid() && Targets(list, Sizes(atoms)) && offs + n <= nc
      ensures R == Linmaps1.IReduce1(Items(), nc, list, offs, n)
    {
      ghost var S := Linmaps1.IReduce1(Items(), nc, list, offs, n);
      R := [];
      for e := 0 to |list|
        invariant R == S[..e]
      {
        assert InRange(list[e], Sizes(atoms));
        if |list[e].ix| == 0 {
          R := R + [[]];
        } else {
          var m := RowsOf(list[e].tens, list[e].ix, offs, n);
          R := R + [m];
        }
        PrefixNext(S, e);
      }
      assert S[..|list|] == S;
    }

    /** `reduce1(list)`. */
    method Reduce1Indexed(list: seq<Entry>) returns (R: seq<Mat>)
      requires Valid() && Targets(list, Sizes(atoms))
      ensures R == Linmaps1.IReduce1(Items(), nc, list, 0, nc)
    {
      R := RowsOfEntries(list, 0, nc);
    }

    /** `reduce1(list, offs, n)` (deprecated). */
    method Reduce1IndexedBlock(list: seq<Entry>, offs: nat, n: nat) returns (R: seq<Mat>)
      requires Valid() && Targets(list, Sizes(atoms)) && offs + n <= nc
      ensures R == Linmaps1.IReduce1(Items(), nc, list, offs, n)
    {
      R := RowsOfEntries(list, offs, n);
    }

    /** `broadcast1_back(list, offs, n)`: the same computation as the indexed
        `reduce1(list, offs, n)`. */
    method Broadcast1Back(list: seq<Entry>, offs: nat, n: nat) returns (R: seq<Mat>)
      requires Valid() && Targets(list, Sizes(atoms)) && offs + n <= nc
      ensures R == Linmaps1.IReduce1(Items(), nc, list, offs, n)
    {
      R := RowsOfEntries(list, offs, n);
    }
  
    // ---- Plain broadcasts ------------------------------------------------------

    /** `broadcast1(x, offs)`: row j of x's item i added into channels
        `offs ..` of row j of item i, item by item. */
    method Broadcast1Block(x: seq<Mat>, offs: nat)
      requires Valid() && |atoms| <= |x|
      requires forall i | 0 <= i < |atoms| :: |x[i]| == |atoms[i]|
      requires forall i, j | 0 <= i < |atoms| && 0 <= j < |x[i]| :: offs + |x[i][j]| <= nc
      modifies this
      ensures Valid() && atoms == old(atoms) && nc == old(nc)
      ensures Items() == Linmaps1.Broadcast1(old(Items()), nc, x, offs)
    {
      ghost var U := Items();
      assert Partly(U, nc, x, offs, 0) == U;
      for i := 0 to |dir|
        invariant Valid() && atoms == old(atoms) && nc == old(nc)
        invariant Items() == Partly(U, nc, x, offs, i)
      {
        PartlyStep(U, nc, x, offs, i);
        AddIntoRows(i, Range(dir[i].k), offs, x[i]);
      }
      assert Partly(U, nc, x, offs, |U|) == Linmaps1.Broadcast1(U, nc, x, offs);
    }
  
    /** `broadcast1(x)`: x's rows, all nc channels wide, added into the rows. */
    method Broadcast1(x: seq<Mat>)
      requires Valid() && |atoms| <= |x|
      requires forall i | 0 <= i < |atoms| :: |x[i]| == |atoms[i]|
      requires forall i, j | 0 <= i < |atoms| && 0 <= j < |x[i]| :: |x[i][j]| == nc
      modifies this
      ensures Valid() && atoms == old(atoms) && nc == old(nc)
      ensures Items() == Linmaps1.Broadcast1(old(Items()), nc, x, 0)
    {
      Broadcast1Block(x, 0);
    }

    /** `broadcast0(x, offs)`: x's vector i, repeated k_i times, added into
        channels `offs ..` of every row of item i. */
    method Broadcast0Block(x: seq<Vec>, offs: nat)
      requires Valid() && |atoms| <= |x|
      requires forall i | 0 <= i < |atoms| :: offs + |x[i]| <= nc
      modifies this
      ensures Valid() && atoms == old(atoms) && nc == old(nc)
      ensures Items() == Linmaps1.Broadcast0(old(Items()), nc, x, offs)
    {
      var a := atoms;
      var ms := seq(|a|, i requires 0 <= i < |a| => Repeat(x[i], |a[i]|));
      Broadcast1Block(ms, offs);
    }

    /** `broadcast0(x)`: the full-width case at channel 0. */
    method Broadcast0(x: seq<Vec>)
      requires Valid() && |atoms| <= |x|
      requires forall i | 0 <= i < |atoms| :: |x[i]| == nc
      modifies this
      ensures Valid() && atoms == old(atoms) && nc == old(nc)
      ensures Items() == Linmaps1.Broadcast0(old(Items()), nc, x, 0)
    {
      Broadcast0Block(x, 0);
    }

    /** `broadcast0_n(x)`: x's vector i scaled by 1/k_i added into every row of
        item i. */
    method Broadcast0N(x: seq<Vec>)
      requires Valid() && |atoms| <= |x|
      requires forall i | 0 <= i < |atoms| :: |x[i]| == nc
      modifies this
      ensures Valid() && atoms == old(atoms) && nc == old(nc)
      ensures Items() == Linmaps1.Broadcast0N(old(Items()), nc, x)
    {
      var a := atoms;
      var ms := seq(|a|, i requires 0 <= i < |a| =>
        Repeat(Scale(if |a[i]| == 0 then 0.0 else 1.0 / (|a[i]| as real), x[i]), |a[i]|));
      Broadcast1Block(ms, 0);
    }

    /** `add_to_channels(x, offs)`: x's items added into channels
        `offs .. offs+x.nc-1` of the items of the same index. x may be this
        pack itself. */
    method AddToChannels(x: Ptensors1, offs: nat)
      requires Valid() && x.Valid() && |x.atoms| == |atoms| && offs + x.nc <= nc
      requires forall i | 0 <= i < |atoms| :: |x.atoms[i]| == |atoms[i]|
      modifies this
      ensures Valid() && atoms == old(atoms) && nc == old(nc)
      ensures Items() == Linmaps1.Broadcast1(old(Items()), nc, old(x.Items()), offs)
    {
      var xs := x.Items();
      Broadcast1Block(xs, offs);
    }

    /** `add_channels(x, offs)`: channels `offs .. offs+nc-1` of x's items
        added into the items of the same index. x may be this pack itself. */
    method AddChannels(x: Ptensors1, offs: nat)
      requires Valid() && x.Valid() && |x.atoms| == |atoms| && offs + nc <= x.nc
      requires forall i | 0 <= i < |atoms| :: |x.atoms[i]| == |atoms[i]|
      modifies this
      ensures Valid() && atoms == old(atoms) && nc == old(nc)
      ensures Items() == Linmaps1.AddChannels(old(Items()), nc, old(x.Items()), old(x.nc), offs)
    {
      var blocks := Linmaps1.Reduce1(x.Items(), x.nc, offs, nc);
      Broadcast1Block(blocks, 0);
    }
  
    // ---- Indexed broadcasts ----------------------------------------------------

    /** The loop of the indexed `broadcast0` family: for each entry e in turn,
        `view_of(tens(e), ix(e), offs, n) += ms[e]`. */
    method AddEntries(list: seq<Entry>, ms: seq<Mat>, offs: nat)
      requires Valid() && Targets(list, Sizes(atoms)) && Linmaps1.Feeds(list, ms, offs, nc)
      modifies this
      ensures Valid() && atoms == old(atoms) && nc == old(nc)
      ensures Items() == Linmaps1.Scatter(old(Items()), nc, list, ms, offs)
    {
      ghost var U := Items();
      assert list[..0] == [] && ms[..0] == [];
      for e := 0 to |list|
        invariant Valid() && atoms == old(atoms) && nc == old(nc)
        invariant Targets(list[..e], Heights(U)) && Linmaps1.Feeds(list[..e], ms[..e], offs, nc)
        invariant Items() == Linmaps1.Scatter(U, nc, list[..e], ms[..e], offs)
      {
        ScatterPrefixStep(U, nc, list, ms, offs, e);
        AddIntoRows(list[e].tens, list[e].ix, offs, ms[e]);
      }
      assert list[..|list|] == list && ms[..|list|] == ms;
    }

    /** `broadcast0(x, list, offs)`: for each entry e, x's vector e added into
        channels `offs ..` of every named row of the named item. */
    method Broadcast0Indexed(x: seq<Vec>, list: seq<Entry>, offs: nat)
      requires Valid() && Targets(list, Sizes(atoms)) && |list| <= |x|
      requires forall e | 0 <= e < |list| :: offs + |x[e]| <= nc
      modifies this
      ensures Linmaps1.Feeds(list, Linmaps1.Repeats(list, x), offs, nc)
      ensures Valid() && atoms == old(atoms) && nc == old(nc)
      ensures Items() == Linmaps1.Scatter(old(Items()), nc, list, Linmaps1.Repeats(list, x), offs)
    {
      RepeatsFeed(list, x, offs, nc);
      AddEntries(list, Linmaps1.Repeats(list, x), offs);
    }

    /** `reduce0_back(x, list)`: the adjoint of the indexed `reduce0(list)`,
        adding x's vector e into every named row. */
    method Reduce0Back(x: seq<Vec>, list: seq<Entry>)
      requires Valid() && Targets(list, Sizes(atoms)) && |list| <= |x|
      requires forall e | 0 <= e < |list| :: |x[e]| == nc
      modifies this
      ensures Linmaps1.Feeds(list, Linmaps1.Repeats(list, x), 0, nc)
      ensures Valid() && atoms == old(atoms) && nc == old(nc)
      ensures Items() == Linmaps1.Scatter(old(Items()), nc, list, Linmaps1.Repeats(list, x), 0)
    {
      RepeatsFeed(list, x, 0, nc);
      AddEntries(list, Linmaps1.Repeats(list, x), 0);
    }

    /** `broadcast0(x, list)` (deprecated): the same update as `reduce0_back`. */
    method Broadcast0IndexedFull(x: seq<Vec>, list: seq<Entry>)
      requires Valid() && Targets(list, Sizes(atoms)) && |list| <= |x|
      requires forall e | 0 <= e < |list| :: |x[e]| == nc
      modifies this
      ensures Linmaps1.Feeds(list, Linmaps1.Repeats(list, x), 0, nc)
      ensures Valid() && atoms == old(atoms) && nc == old(nc)
      ensures Items() == Linmaps1.Scatter(old(Items()), nc, list, Linmaps1.Repeats(list, x), 0)
    {
      RepeatsFeed(list, x, 0, nc);
      AddEntries(list, Linmaps1.Repeats(list, x), 0);
    }

    /** `broadcast0_n(x, list)`: x's vector e divided by nix(e) added into
        every named row; an entry without positions adds nothing. */
    method Broadcast0NIndexed(x: seq<Vec>, list: seq<Entry>)
      requires Valid() && Targets(list, Sizes(atoms)) && |list| <= |x|
      requires forall e | 0 <= e < |list| :: |x[e]| == nc
      modifies this
      ensures Linmaps1.Feeds(list, Linmaps1.ScaledRepeats(list, x), 0, nc)
      ensures Valid() && atoms == old(atoms) && nc == old(nc)
      ensures Items() == Linmaps1.Scatter(old(Items()), nc, list, Linmaps1.ScaledRepeats(list, x), 0)
    {
      RepeatsFeed(list, x, 0, nc);
      AddEntries(list, Linmaps1.ScaledRepeats(list, x), 0);
    }

    /** `broadcast1(x, list, offs)`: for each entry e, row t of x's item e added
        into channels `offs ..` of row ix(e)[t]; an entry whose item of x has
        no rows is skipped, whatever positions it names. */
    method Broadcast1Indexed(x: seq<Mat>, list: seq<Entry>, offs: nat)
      requires Valid() && Targets(list, Sizes(atoms)) && |list| <= |x|
      requires forall e | 0 <= e < |list| :: |x[e]| == 0 || |x[e]| == |list[e].ix|
      requires forall e, t | 0 <= e < |list| && 0 <= t < |x[e]| :: offs + |x[e][t]| <= nc
      modifies this
      ensures Targets(Linmaps1.Live(list, x), Sizes(atoms))
      ensures Linmaps1.Feeds(Linmaps1.Live(list, x), x[..|list|], offs, nc)
      ensures Valid() && atoms == old(atoms) && nc == old(nc)
      ensures Items() == Linmaps1.Scatter(old(Items()), nc, Linmaps1.Live(list, x), x[..|list|], offs)
    {
      Linmaps1.LiveFeeds(list, x, Sizes(atoms), offs, nc);
      AddRowsSkipping(x, Linmaps1.Live(list, x), offs);
    }

    /** The entry loop of the indexed `broadcast1` family over entries L:
        an entry whose item of x has no rows is skipped, and otherwise x's
        item is added into the rows the entry names. */
    method AddRowsSkipping(x: seq<Mat>, L: seq<Entry>, offs: nat)
      requires Valid() && Targets(L, Sizes(atoms)) && |L| <= |x|
      requires Linmaps1.Feeds(L, x[..|L|], offs, nc)
      requires forall e | 0 <= e < |L| && |x[e]| == 0 :: L[e].ix == []
      modifies this
      ensures Valid() && atoms == old(atoms) && nc == old(nc)
      ensures Items() == Linmaps1.Scatter(old(Items()), nc, L, x[..|L|], offs)
    {
      ghost var U := Items();
      ghost var ms := x[..|L|];
      assert L[..0] == [] && ms[..0] == [];
      for e := 0 to |L|
        invariant Valid() && atoms == old(atoms) && nc == old(nc)
        invariant Targets(L[..e], Heights(U)) && Linmaps1.Feeds(L[..e], ms[..e], offs, nc)
        invariant Items() == Linmaps1.Scatter(U, nc, L[..e], ms[..e], offs)
      {
        ScatterPrefixStep(U, nc, L, ms, offs, e);
        AddRowsOrSkip(L[e].tens, L[e].ix, offs, x[e]);
      }
      assert L[..|L|] == L && ms[..|L|] == ms;
    }

    /** One step of that loop: `if(x.dim_of(i,0)==0) continue;`, and
        otherwise `view_of(i, ix, offs, n) += m`. A skipped m has no rows and
        its entry no positions, so either way the item gains AddRows. */
    method AddRowsOrSkip(i: nat, ix: seq<nat>, offs: nat, m: Mat)
      requires Valid() && i < |atoms| && |m| == |ix|
      requires forall t | 0 <= t < |ix| :: ix[t] < |atoms[i]| && offs + |m[t]| <= nc
      modifies this
      ensures Valid() && atoms == old(atoms) && nc == old(nc)
      ensures Items() == old(Items())[i := Linmaps1.AddRows(old(Items())[i], nc, ix, offs, m)]
    {
      if |m| == 0 {
        SkipEntry(Items(), nc, Entry(i, ix), m, offs);
        return;
      }
      AddIntoRows(i, ix, offs, m);
    }

    /** `broadcast1(x, list)` (deprecated). */
    method Broadcast1IndexedFull(x: seq<Mat>, list: seq<Entry>)
      requires Valid() && Targets(list, Sizes(atoms)) && |list| <= |x|
      requires forall e | 0 <= e < |list| :: |x[e]| == 0 || |x[e]| == |list[e].ix|
      requires forall e, t | 0 <= e < |list| && 0 <= t < |x[e]| :: |x[e][t]| == nc
      modifies this
      ensures Targets(Linmaps1.Live(list, x), Sizes(atoms))
      ensures Linmaps1.Feeds(Linmaps1.Live(list, x), x[..|list|], 0, nc)
      ensures Valid() && atoms == old(atoms) && nc == old(nc)
      ensures Items() == Linmaps1.Scatter(old(Items()), nc, Linmaps1.Live(list, x), x[..|list|], 0)
    {
      Broadcast1Indexed(x, list, 0);
    }

    /** `reduce1_back(x, list)`: the adjoint of the indexed `reduce1(list)`, the
        same update as the deprecated `broadcast1(x, list)`. */
    method Reduce1Back(x: seq<Mat>, list: seq<Entry>)
      requires Valid() && Targets(list, Sizes(atoms)) && |list| <= |x|
      requires forall e | 0 <= e < |list| :: |x[e]| == 0 || |x[e]| == |list[e].ix|
      requires forall e, t | 0 <= e < |list| && 0 <= t < |x[e]| :: |x[e][t]| == nc
      modifies this
      ensures Targets(Linmaps1.Live(list, x), Sizes(atoms))
      ensures Linmaps1.Feeds(Linmaps1.Live(list, x), x[..|list|], 0, nc)
      ensures Valid() && atoms == old(atoms) && nc == old(nc)
      ensures Items() == Linmaps1.Scatter(old(Items()), nc, Linmaps1.Live(list, x), x[..|list|], 0)
    {
      Broadcast1Indexed(x, list, 0);
    }
  
    // ---- Growing and combining packs -------------------------------------------

    /** `push_back(p)`: an empty pack adopts p's channel count, a non-empty one
        must already have it; p's matrix is appended to the buffer, its header
        to the directory and its atoms to the atom lists. Returns p's index. */
    method PushBack(p: Ptensor1) returns (r: nat)
      requires Valid() && WellFormed(p)
      requires |atoms| == 0 || nc == p.nc
      modifies this
      ensures Valid() && atoms == old(atoms) + [p.atoms] && nc == p.nc
      ensures Items() == old(Items()) + [p.rows]
      ensures r == |atoms| - 1 == |old(atoms)|
    {
      PushStep(atoms, nc, p.nc, dir, tail, arr, p.atoms, p.rows);
      nc := p.nc;
      dir := dir + [Header(tail, |p.rows|, nc)];
      tail := tail + |p.rows| * nc;
      arr := arr + Flatten(p.rows);
      atoms := atoms + [p.atoms];
      r := |atoms| - 1;
    }

    /** `concat(x, y)`: a zero pack over x's atoms with x.nc + y.nc channels,
        x added at channel 0 and y at channel x.nc: every row is x's row
        followed by y's. */
    static method Concat(x: Ptensors1, y: Ptensors1) returns (R: Ptensors1)
      requires x.Valid() && y.Valid() && Sizes(y.atoms) == Sizes(x.atoms)
      ensures fresh(R) && R.Valid() && R.atoms == x.atoms && R.nc == x.nc + y.nc
      ensures R.Items() == Linmaps1.Joined(x.Items(), y.Items())
    {
      var X, Y := x.Items(), y.Items();
      var nx, ny := x.nc, y.nc;
      assert Heights(X) == Sizes(x.atoms);
      R := new Ptensors1.Zero(x.atoms, nx + ny);
      R.JoinRows(X, nx, Y, ny);
    }

    /** The rows of X at channel 0 and those of Y at channel nx added into a
        zero pack of the same heights. */
    method JoinRows(X: seq<Mat>, nx: nat, Y: seq<Mat>, ny: nat)
      requires Valid() && nc == nx + ny && Fits(X, nx) && Fits(Y, ny)
      requires Heights(X) == Sizes(atoms) && Heights(Y) == Sizes(atoms)
      requires Items() == ZeroPack(Sizes(atoms), nc)
      modifies this
      ensures Valid() && atoms == old(atoms) && nc == old(nc)
      ensures Items() == Linmaps1.Joined(X, Y)
    {
      ghost var Z := Items();
      Linmaps1.ConcatChannels(Z, X, nx, Y, ny);
      Linmaps1.Broadcast1Fits(Z, nc, X, nx, 0);
      Broadcast1Block(X, 0);
      ghost var A := Items();
      Linmaps1.Broadcast1Fits(A, nc, Y, ny, nx);
      Broadcast1Block(Y, nx);
    }

    /** `sum(list)`: an empty list gives an empty pack; otherwise a copy of
        the first pack with every further pack added into it. */
    static method Sum(list: seq<Ptensors1>) returns (R: Ptensors1)
      requires forall k | 0 <= k < |list| :: list[k].Valid()
      requires forall k | 0 <= k < |list| ::
        Sizes(list[k].atoms) == Sizes(list[0].atoms) && list[k].nc == list[0].nc
      ensures fresh(R) && R.Valid()
      ensures |list| == 0 ==> R.atoms == [] && R.nc == 0
      ensures |list| > 0 ==>
        R.atoms == list[0].atoms && R.nc == list[0].nc &&
        R.Items() == PackSum(old(ItemsOf(list)), Sizes(list[0].atoms), list[0].nc)
    {
      if |list| == 0 {
        R := new Ptensors1.Empty(0);
        return;
      }
      var bufs, P := Buffers(list);
      R := new Ptensors1.Copy(list[0]);
      R.AddAll(bufs, P);
    }

    /** Adds every buffer but the first, which this pack holds, into the
        pack: the items become the sum of the items P the buffers hold. */
    method AddAll(bufs: seq<Vec>, ghost P: seq<seq<Mat>>)
      requires Valid() && |bufs| > 0 && arr == bufs[0] && |P| == |bufs|
      requires forall k | 0 <= k < |bufs| :: |bufs[k]| == Mul(Rows(Sizes(atoms)), nc)
      requires forall k | 0 <= k < |bufs| :: P[k] == Unpack(bufs[k], Sizes(atoms), nc)
      modifies this
      ensures Valid() && atoms == old(atoms) && nc == old(nc)
      ensures forall k | 0 <= k < |P| :: Shaped(P[k], Sizes(atoms), nc)
      ensures Items() == PackSum(P, Sizes(atoms), nc)
    {
      UnpackVecSum(bufs, P, Sizes(atoms), nc);
      SplitFirst(bufs);
      AddBuffers(bufs[1..]);
    }

    /** The buffers of all packs of the list, each of which holds that
        pack's items under the first pack's layout; P are those items. */
    static method Buffers(list: seq<Ptensors1>) returns (bufs: seq<Vec>, ghost P: seq<seq<Mat>>)
      requires |list| > 0 && forall k | 0 <= k < |list| :: list[k].Valid()
      requires forall k | 0 <= k < |list| ::
        Sizes(list[k].atoms) == Sizes(list[0].atoms) && list[k].nc == list[0].nc
      ensures P == ItemsOf(list) && |P| == |bufs| == |list| && bufs[0] == list[0].arr
      ensures forall k | 0 <= k < |bufs| :: |bufs[k]| == Mul(Rows(Sizes(list[0].atoms)), list[0].nc)
      ensures forall k | 0 <= k < |bufs| :: P[k] == Unpack(bufs[k], Sizes(list[0].atoms), list[0].nc)
    {
      bufs := [];
      for i := 0 to |list|
        invariant |bufs| == i && forall k | 0 <= k < i :: bufs[k] == list[k].arr
      {
        bufs := bufs + [list[i].arr];
      }
      P := ItemsOf(list);
      forall k | 0 <= k < |bufs| ensures P[k] == Unpack(bufs[k], Sizes(list[0].atoms), list[0].nc) {
        assert P[k] == list[k].Items();
      }
    }

    /** Adds each buffer, of this pack's layout, into the pack in turn. */
    method AddBuffers(bufs: seq<Vec>)
      requires Valid() && forall k | 0 <= k < |bufs| :: |bufs[k]| == |arr|
      modifies this
      ensures Valid() && atoms == old(atoms) && nc == old(nc)
      ensures arr == VecSum([old(arr)] + bufs)
    {
      ghost var B := [arr] + bufs;
      assert B[..1] == [B[0]];
      var a := arr;
      for i := 0 to |bufs|
        modifies {}
        invariant a == VecSum(B[..i + 1])
      {
        VecSumNext(B, i + 1);
        a := Add(a, bufs[i]);
      }
      assert B[..|bufs| + 1] == B;
      arr := a;
    }

    /** Appends the items X, with atom lists A and n channels, one
        `push_back` at a time. */
    method AppendItems(X: seq<Mat>, A: seq<seq<nat>>, n: nat)
      requires Valid() && Shaped(X, Sizes(A), n) && (|atoms| == 0 || nc == n)
      modifies this
      ensures Valid() && atoms == old(atoms) + A && Items() == old(Items()) + X
      ensures nc == if |X| == 0 then old(nc) else n
    {
      for j := 0 to |X|
        invariant Valid() && atoms == old(atoms) + A[..j] && Items() == old(Items()) + X[..j]
        invariant |atoms| == 0 || nc == n
        invariant nc == if j == 0 then old(nc) else n
      {
        ShapedItem(X, A, n, j);
        var r := PushBack(Ptensor1(A[j], n, X[j]));
        PrefixNext(A, j);
        PrefixNext(X, j);
      }
      assert A[..|X|] == A && X[..|X|] == X;
    }

    /** `cat(list)`: the items of all packs, in order, in one pack; every
        pack must have the channel count of the first. */
    static method Cat(list: seq<Ptensors1>) returns (R: Ptensors1)
      requires forall k | 0 <= k < |list| :: list[k].Valid() && list[k].nc == list[0].nc
      ensures fresh(R) && R.Valid()
      ensures |list| == 0 ==> R.nc == 0
      ensures |list| > 0 ==> R.nc == old(list[0].nc)
      ensures R.atoms == Join(old(AtomsOf(list))) && R.Items() == Join(old(ItemsOf(list)))
    {
      if |list| == 0 {
        R := new Ptensors1.Empty(0);
        return;
      }
      var P, Q := Contents(list);
      R := new Ptensors1.Empty(list[0].nc);
      R.AppendAll(P, Q, list[0].nc);
    }

    /** The items and the atom lists of every pack of the list. */
    static method Contents(list: seq<Ptensors1>) returns (P: seq<seq<Mat>>, Q: seq<seq<seq<nat>>>)
      requires forall k | 0 <= k < |list| :: list[k].Valid() && list[k].nc == list[0].nc
      ensures P == ItemsOf(list) && Q == AtomsOf(list) && |P| == |Q|
      ensures forall l | 0 <= l < |P| :: Shaped(P[l], Sizes(Q[l]), list[0].nc)
    {
      P, Q := [], [];
      for k := 0 to |list|
        invariant |P| == |Q| == k
        invariant forall l | 0 <= l < k :: P[l] == list[l].Items() && Q[l] == list[l].atoms
      {
        P, Q := P + [list[k].Items()], Q + [list[k].atoms];
      }
    }

    /** Appends pack after pack, the items P[k] with atom lists Q[k]. */
    method AppendAll(P: seq<seq<Mat>>, Q: seq<seq<seq<nat>>>, n: nat)
      requires Valid() && nc == n && |P| == |Q|
      requires forall l | 0 <= l < |P| :: Shaped(P[l], Sizes(Q[l]), n)
      modifies this
      ensures Valid() && nc == n
      ensures atoms == old(atoms) + Join(Q) && Items() == old(Items()) + Join(P)
    {
      ghost var A, I := atoms, Items();
      for k := 0 to |P|
        invariant Valid() && nc == n
        invariant atoms == A + Join(Q[..k]) && Items() == I + Join(P[..k])
      {
        JoinStep(A, Q, k);
        JoinStep(I, P, k);
        AppendItems(P[k], Q[k], n);
      }
      assert P[..|P|] == P && Q[..|P|] == Q;
    }
  }

  /** A vector of n channels all holding v. */
  function Constant(n: nat, v: real): (r: Vec)
    ensures |r| == n && forall c | 0 <= c < n :: r[c] == v
  {
    seq(n, _ => v)
  }

  /** Setting row j of item i to the constant i keeps the items before i
      constant and extends the constant rows of item i by one. */
  lemma SequentialStep(a: Vec, sizes: seq<nat>, nc: nat, i: nat, j: nat, p: nat)
    requires |a| == Mul(Rows(sizes), nc) && i < |sizes| && j < sizes[i]
    requires p == Directory(sizes, nc)[i].offset + j * nc
    requires forall i' | 0 <= i' < i :: Unpack(a, sizes, nc)[i'] == Repeat(Constant(nc, i' as real), sizes[i'])
    requires Unpack(a, sizes, nc)[i][..j] == Repeat(Constant(nc, i as real), j)
    ensures p + nc <= |a|
    ensures
      var b := Put(a, p, Constant(nc, i as real));
      |b| == |a| &&
      (forall i' | 0 <= i' < i :: Unpack(b, sizes, nc)[i'] == Repeat(Constant(nc, i' as real), sizes[i'])) &&
      Unpack(b, sizes, nc)[i][..j + 1] == Repeat(Constant(nc, i as real), j + 1)
  {
    var w := Constant(nc, i as real);
    UnpackSetRow(a, sizes, nc, i, j, w);
    var U := Unpack(a, sizes, nc);
    assert U[i][j := w][..j + 1] == U[i][..j] + [w];
  }

  /** The column sums of item i's block, gathered over all its rows, are
      entry i of `Reduce0`. */
  lemma Reduce0At(U: seq<Mat>, nc: nat, offs: nat, n: nat, i: nat, v: Vec)
    requires Fits(U, nc) && offs + n <= nc && i < |U|
    requires v == SumRows(Linmaps1.Gather(Linmaps1.Block(U[i], nc, offs, n), Range(|U[i]|)), n)
    ensures v == Linmaps1.Reduce0(U, nc, offs, n)[i]
  {
    Linmaps1.GatherRange(Linmaps1.Block(U[i], nc, offs, n));
  }

  /** Entry i of `Reduce0N` is the full-width column sum scaled by 1/k, or
      zero when item i has no atoms. */
  lemma Reduce0NAt(U: seq<Mat>, nc: nat, i: nat, v: Vec)
    requires Fits(U, nc) && i < |U| && v == Linmaps1.Reduce0(U, nc, 0, nc)[i]
    ensures Linmaps1.Reduce0N(U, nc)[i] ==
      if |U[i]| == 0 then Zeros(nc) else Scale(1.0 / (|U[i]| as real), v)
  {
    Linmaps1.BlockAll(U[i], nc);
  }

  /** Appending one item to a valid layout: the new directory entry starts
      at the old tail, the tail grows by the item's size, and the buffer's
      items gain the new matrix. An empty pack may change channel count. */
  lemma PushStep(atoms: seq<seq<nat>>, nc: nat, n: nat, dir: seq<Header>, tail: nat, arr: Vec,
                 a: seq<nat>, rows: Mat)
    requires dir == Directory(Sizes(atoms), nc) && tail == Mul(Rows(Sizes(atoms)), nc) && |arr| == tail
    requires |atoms| == 0 || n == nc
    requires |a| == |rows| && Width(rows, n)
    ensures dir + [Header(tail, |rows|, n)] == Directory(Sizes(atoms + [a]), n)
    ensures tail + |rows| * n == Mul(Rows(Sizes(atoms + [a])), n) == |arr + Flatten(rows)|
    ensures Unpack(arr + Flatten(rows), Sizes(atoms + [a]), n) == Unpack(arr, Sizes(atoms), nc) + [rows]
  {
    var sizes := Sizes(atoms);
    assert Sizes(atoms + [a]) == sizes + [|rows|];
    if |atoms| == 0 {
      assert dir == Directory(sizes, n) && tail == Mul(Rows(sizes), n) == 0;
    }
    DirectorySnoc(sizes, |rows|, n);
    UnpackAppend(arr, sizes, n, rows);
  }

  /** The element-wise sum of equally long vectors, left to right. */
  function VecSum(vs: seq<Vec>): (r: Vec)
    requires |vs| > 0 && forall k | 0 <= k < |vs| :: |vs[k]| == |vs[0]|
    ensures |r| == |vs[0]|
  {
    if |vs| == 1 then vs[0] else Add(VecSum(vs[..|vs| - 1]), vs[|vs| - 1])
  }

  lemma VecSumNext(vs: seq<Vec>, i: nat)
    requires 0 < i < |vs| && forall k | 0 <= k < |vs| :: |vs[k]| == |vs[0]|
    ensures VecSum(vs[..i + 1]) == Add(VecSum(vs[..i]), vs[i])
  {
    assert vs[..i + 1][..i] == vs[..i];
  }

  /** The items of a sum of buffers are the sum of the items of each. */
  lemma {:induction false} UnpackVecSum(bufs: seq<Vec>, P: seq<seq<Mat>>, sizes: seq<nat>, n: nat)
    requires |bufs| > 0 && |P| == |bufs|
    requires forall k | 0 <= k < |bufs| :: |bufs[k]| == Mul(Rows(sizes), n)
    requires forall k | 0 <= k < |bufs| :: P[k] == Unpack(bufs[k], sizes, n)
    ensures forall k | 0 <= k < |P| :: Shaped(P[k], sizes, n)
    ensures Unpack(VecSum(bufs), sizes, n) == PackSum(P, sizes, n)
  {
    if |bufs| > 1 {
      var m := |bufs| - 1;
      UnpackVecSum(bufs[..m], P[..m], sizes, n);
      UnpackAdd(VecSum(bufs[..m]), bufs[m], sizes, n);
    }
  }

  /** Item j of a shaped pack, with its atoms, is a well-formed Ptensor1. */
  lemma ShapedItem(X: seq<Mat>, A: seq<seq<nat>>, n: nat, j: nat)
    requires Shaped(X, Sizes(A), n) && j < |X|
    ensures WellFormed(Ptensor1(A[j], n, X[j]))
  {
    assert Heights(X)[j] == Sizes(A)[j];
  }

  /** The items of every pack of a list. */
  ghost function ItemsOf(list: seq<Ptensors1>): (r: seq<seq<Mat>>)
    reads list
    requires forall k | 0 <= k < |list| :: list[k].Valid()
    ensures |r| == |list|
    ensures forall k | 0 <= k < |list| :: r[k] == list[k].Items() && Shaped(r[k], Sizes(list[k].atoms), list[k].nc)
  {
    if |list| == 0 then [] else ItemsOf(list[..|list| - 1]) + [list[|list| - 1].Items()]
  }

  /** The atom lists of every pack of a list. */
  ghost function AtomsOf(list: seq<Ptensors1>): (r: seq<seq<seq<nat>>>)
    reads list
    ensures |r| == |list| && forall k | 0 <= k < |list| :: r[k] == list[k].atoms
  {
    if |list| == 0 then [] else AtomsOf(list[..|list| - 1]) + [list[|list| - 1].atoms]
  }

  /** The concatenation of a sequence of sequences. */
  function Join<T>(ss: seq<seq<T>>): (r: seq<T>)
  {
    if |ss| == 0 then [] else Join(ss[..|ss| - 1]) + ss[|ss| - 1]
  }

  lemma JoinStep<T>(base: seq<T>, ss: seq<seq<T>>, k: nat)
    requires k < |ss|
    ensures base + Join(ss[..k + 1]) == (base + Join(ss[..k])) + ss[k]
  {
    assert ss[..k + 1][..k] == ss[..k];
  }
}
