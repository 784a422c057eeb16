/** What the reductions and broadcasts of an order-1 pack compute, stated on
    the items themselves (item i is a k_i x nc matrix, one row per atom),
    and the laws that tie them together: column sums, which cells a
    broadcast changes, and the adjointness of each reduce/broadcast pair. */
module Linmaps1 {
  import opened Dense
  import opened Aindex
  import opened Ragged

  // ---- Views of one item -----------------------------------------------------

  /** Channels `offs .. offs+n-1` of every row: `view_of(i, offs, n)`. */
  function Block(rows: Mat, nc: nat, offs: nat, n: nat): (b: Mat)
    requires Width(rows, nc) && offs + n <= nc
    ensures |b| == |rows| && Width(b, n)
  {
    seq(|rows|, j requires 0 <= j < |rows| => rows[j][offs..offs + n])
  }

  /** Rows `ix[0], ix[1], ...` in that order: `view_of(i, ix)`. */
  function Gather(rows: Mat, ix: seq<nat>): (g: Mat)
    requires forall t | 0 <= t < |ix| :: ix[t] < |rows|
    ensures |g| == |ix|
  {
    seq(|ix|, t requires 0 <= t < |ix| => rows[ix[t]])
  }

  /** `m` added row by row into the channel block at `offs`. */
  function AddBlock(rows: Mat, nc: nat, offs: nat, m: Mat): (r: Mat)
    requires Width(rows, nc) && |m| == |rows|
    requires forall j | 0 <= j < |m| :: offs + |m[j]| <= nc
    ensures |r| == |rows| && Width(r, nc)
  {
    seq(|rows|, j requires 0 <= j < |rows| => AddAt(rows[j], offs, m[j]))
  }

  /** Row `m[t]` added into the channel block at `offs` of row `ix[t]`, for
      t = 0, 1, ... in turn: `view_of(i, ix, offs, n) += m`. A row named
      twice receives both additions. */
  function AddRows(rows: Mat, nc: nat, ix: seq<nat>, offs: nat, m: Mat): (r: Mat)
    requires Width(rows, nc) && |m| == |ix|
    requires forall t | 0 <= t < |ix| :: ix[t] < |rows| && offs + |m[t]| <= nc
    ensures |r| == |rows| && Width(r, nc)
    decreases |ix|
  {
    if ix == [] then rows
    else
      var k := |ix| - 1;
      var r := AddRows(rows, nc, ix[..k], offs, m[..k]);
      r[ix[k] := AddAt(r[ix[k]], offs, m[k])]
  }

  /** 1/k; only ever applied to an empty set of rows when k is 0. */
  function Recip(k: nat): real
  {
    if k == 0 then 0.0 else 1.0 / (k as real)
  }

  // ---- Plain reductions ----------------------------------------------------

  /** `reduce0(offs, n)`: per item, the column sums of its channel block. */
  function Reduce0(items: seq<Mat>, nc: nat, offs: nat, n: nat): (r: seq<Vec>)
    requires Fits(items, nc) && offs + n <= nc
    ensures |r| == |items| && Width(r, n)
  {
    seq(|items|, i requires 0 <= i < |items| => SumRows(Block(items[i], nc, offs, n), n))
  }

  /** `reduce0_n()`: per item, the column means (zero for an item without atoms). */
  function Reduce0N(items: seq<Mat>, nc: nat): (r: seq<Vec>)
    requires Fits(items, nc)
    ensures |r| == |items| && Width(r, nc)
  {
    seq(|items|, i requires 0 <= i < |items| =>
      if |items[i]| == 0 then Zeros(nc) else Scale(Recip(|items[i]|), SumRows(items[i], nc)))
  }

  /** `reduce1(offs, n)`: per item, its channel block. */
  function Reduce1(items: seq<Mat>, nc: nat, offs: nat, n: nat): (r: seq<Mat>)
    requires Fits(items, nc) && offs + n <= nc
    ensures |r| == |items| && Fits(r, n)
  {
    seq(|items|, i requires 0 <= i < |items| => Block(items[i], nc, offs, n))
  }

  // ---- Indexed reductions ----------------------------------------------------

  /** `reduce1(list, offs, n)`: per entry, the channel block of the named
      rows of the named item. */
  function IReduce1(items: seq<Mat>, nc: nat, list: seq<Entry>, offs: nat, n: nat): (r: seq<Mat>)
    requires Fits(items, nc) && Targets(list, Heights(items)) && offs + n <= nc
    ensures |r| == |list| && Fits(r, n)
    ensures forall e | 0 <= e < |list| :: |r[e]| == |list[e].ix|
  {
    seq(|list|, e requires 0 <= e < |list| =>
      Gather(Block(items[list[e].tens], nc, offs, n), list[e].ix))
  }

  /** `reduce0(list, offs, n)`: per entry, the column sums of the named rows. */
  function IReduce0(items: seq<Mat>, nc: nat, list: seq<Entry>, offs: nat, n: nat): (r: seq<Vec>)
    requires Fits(items, nc) && Targets(list, Heights(items)) && offs + n <= nc
    ensures |r| == |list| && Width(r, n)
    ensures forall e | 0 <= e < |list| && list[e].ix == [] :: r[e] == Zeros(n)
  {
    var g := IReduce1(items, nc, list, offs, n);
    seq(|list|, e requires 0 <= e < |list| => SumRows(g[e], n))
  }

  /** `reduce0_n(list)`: per entry, the column means of the named rows (zero
      for an entry without positions). */
  function IReduce0N(items: seq<Mat>, nc: nat, list: seq<Entry>): (r: seq<Vec>)
    requires Fits(items, nc) && Targets(list, Heights(items))
    ensures |r| == |list| && Width(r, nc)
  {
    var g := IReduce1(items, nc, list, 0, nc);
    seq(|list|, e requires 0 <= e < |list| =>
      if list[e].ix == [] then Zeros(nc) else Scale(Recip(|list[e].ix|), SumRows(g[e], nc)))
  }

  // ---- Plain broadcasts ------------------------------------------------------

  /** `broadcast1(x, offs)` and `add_to_channels(x, offs)`: row j of x's item i
      added into the channel block at `offs` of row j of item i. */
  function Broadcast1(items: seq<Mat>, nc: nat, x: seq<Mat>, offs: nat): (r: seq<Mat>)
    requires Fits(items, nc) && |items| <= |x|
    requires forall i | 0 <= i < |items| :: |x[i]| == |items[i]|
    requires forall i, j | 0 <= i < |items| && 0 <= j < |x[i]| :: offs + |x[i][j]| <= nc
    ensures |r| == |items| && Heights(r) == Heights(items) && Fits(r, nc)
  {
    seq(|items|, i requires 0 <= i < |items| => AddBlock(items[i], nc, offs, x[i]))
  }

  /** `broadcast0(x, offs)`: x's vector i added into the channel block at
      `offs` of every row of item i. */
  function Broadcast0(items: seq<Mat>, nc: nat, x: seq<Vec>, offs: nat): (r: seq<Mat>)
    requires Fits(items, nc) && |items| <= |x|
    requires forall i | 0 <= i < |items| :: offs + |x[i]| <= nc
    ensures |r| == |items| && Heights(r) == Heights(items) && Fits(r, nc)
  {
    seq(|items|, i requires 0 <= i < |items| =>
      AddBlock(items[i], nc, offs, Repeat(x[i], |items[i]|)))
  }

  /** `broadcast0_n(x)`: x's vector i divided by k_i added into every row of item i. */
  function Broadcast0N(items: seq<Mat>, nc: nat, x: seq<Vec>): (r: seq<Mat>)
    requires Fits(items, nc) && |items| <= |x|
    requires forall i | 0 <= i < |items| :: |x[i]| <= nc
    ensures |r| == |items| && Heights(r) == Heights(items) && Fits(r, nc)
  {
    seq(|items|, i requires 0 <= i < |items| =>
      AddBlock(items[i], nc, 0, Repeat(Scale(Recip(|items[i]|), x[i]), |items[i]|)))
  }

  /** `add_channels(x, offs)`: channels `offs .. offs+nc-1` of x's rows added
      into the rows of the same items. */
  function AddChannels(items: seq<Mat>, nc: nat, x: seq<Mat>, xnc: nat, offs: nat): (r: seq<Mat>)
    requires Fits(items, nc) && Fits(x, xnc) && |items| <= |x| && offs + nc <= xnc
    requires forall i | 0 <= i < |items| :: |x[i]| == |items[i]|
    ensures |r| == |items| && Heights(r) == Heights(items) && Fits(r, nc)
  {
    seq(|items|, i requires 0 <= i < |items| => AddBlock(items[i], nc, 0, Block(x[i], xnc, offs, nc)))
  }

  // ---- Indexed broadcasts ----------------------------------------------------

  /** `ms[e]` has one row per position of entry e, each fitting the block at `offs`. */
  ghost predicate Feeds(list: seq<Entry>, ms: seq<Mat>, offs: nat, nc: nat)
  {
    |ms| == |list| &&
    forall e | 0 <= e < |list| ::
      |ms[e]| == |list[e].ix| && forall t | 0 <= t < |ms[e]| :: offs + |ms[e][t]| <= nc
  }

  /** The entries processed in order, entry e adding `ms[e]` into the named
      rows of its item: the loop of every indexed broadcast. */
  function Scatter(items: seq<Mat>, nc: nat, list: seq<Entry>, ms: seq<Mat>, offs: nat): (r: seq<Mat>)
    requires Fits(items, nc) && Targets(list, Heights(items)) && Feeds(list, ms, offs, nc)
    ensures |r| == |items| && Heights(r) == Heights(items) && Fits(r, nc)
    decreases |list|
  {
    if list == [] then items
    else
      var k := |list| - 1;
      var s := Scatter(items, nc, list[..k], ms[..k], offs);
      var i := list[k].tens;
      s[i := AddRows(s[i], nc, list[k].ix, offs, ms[k])]
  }

  /** The entries the indexed `broadcast1` loop acts on: an entry whose item
      of x has no rows is skipped, so it keeps its target and loses its
      positions; every other entry is kept as it is. */
  function Live(list: seq<Entry>, x: seq<Mat>): (r: seq<Entry>)
    requires |list| <= |x|
    ensures |r| == |list|
    ensures forall e | 0 <= e < |list| :: r[e].tens == list[e].tens
    ensures forall e | 0 <= e < |list| && |x[e]| == 0 :: r[e].ix == []
    ensures forall e | 0 <= e < |list| && |x[e]| != 0 :: r[e] == list[e]
  {
    seq(|list|, e requires 0 <= e < |list| =>
      if |x[e]| == 0 then Entry(list[e].tens, []) else list[e])
  }

  /** `repeat0(x_e, nix(e))` for every entry. */
  function Repeats(list: seq<Entry>, x: seq<Vec>): (ms: seq<Mat>)
    requires |list| <= |x|
    ensures |ms| == |list|
  {
    seq(|list|, e requires 0 <= e < |list| => Repeat(x[e], |list[e].ix|))
  }

  /** `repeat0(x_e, nix(e))` scaled by 1/nix(e) for every entry. */
  function ScaledRepeats(list: seq<Entry>, x: seq<Vec>): (ms: seq<Mat>)
    requires |list| <= |x|
    ensures |ms| == |list|
  {
    seq(|list|, e requires 0 <= e < |list| =>
      Repeat(Scale(Recip(|list[e].ix|), x[e]), |list[e].ix|))
  }

  // ---- Inner products ----------------------------------------------------------

  /** Inner product of two packs, summed over the items of `a`. */
  function PackInner(a: seq<Mat>, b: seq<Mat>): real
    requires |a| <= |b|
    requires forall i | 0 <= i < |a| ::
      |a[i]| == |b[i]| && forall j | 0 <= j < |a[i]| :: |a[i][j]| == |b[i][j]|
  {
    Sum(seq(|a|, i requires 0 <= i < |a| => Inner(a[i], b[i])))
  }

  /** Sum of the dot products of the vectors of `r` with those of `x`. */
  function Pairs(r: seq<Vec>, x: seq<Vec>): real
    requires |r| <= |x| && forall e | 0 <= e < |r| :: |r[e]| == |x[e]|
  {
    Sum(seq(|r|, e requires 0 <= e < |r| => Dot(r[e], x[e])))
  }

  /** The block of all channels is the item itself. */
  lemma BlockAll(rows: Mat, nc: nat)
    requires Width(rows, nc)
    ensures Block(rows, nc, 0, nc) == rows
  {
    forall j | 0 <= j < |rows| ensures Block(rows, nc, 0, nc)[j] == rows[j] {
      assert rows[j][0..nc] == rows[j];
    }
  }

  /** Adding `m` into a channel block adds the inner product of `m` with that
      block of `Y`: the item-level adjointness behind every plain broadcast. */
  lemma InnerAddBlock(Y: Mat, Z: Mat, nc: nat, offs: nat, n: nat, m: Mat)
    requires Width(Y, nc) && Width(Z, nc) && |Y| == |Z| == |m| && Width(m, n) && offs + n <= nc
    ensures Inner(Y, AddBlock(Z, nc, offs, m)) == Inner(Y, Z) + Inner(Block(Y, nc, offs, n), m)
  {
    var A := AddBlock(Z, nc, offs, m);
    var B := Block(Y, nc, offs, n);
    var s := seq(|Y|, j requires 0 <= j < |Y| => Dot(Y[j], A[j]));
    var a := seq(|Y|, j requires 0 <= j < |Y| => Dot(Y[j], Z[j]));
    var b := seq(|Y|, j requires 0 <= j < |Y| => Dot(B[j], m[j]));
    forall j | 0 <= j < |Y| ensures s[j] == a[j] + b[j] {
      DotAddAt(Y[j], Z[j], offs, m[j]);
    }
    SumPointwise(s, a, b);
  }

  // ---- Adjointness of the plain pairs ----------------------------------------

  /** `broadcast1(x, offs)` is the adjoint of `reduce1(offs, n)`:
      <Y, Z + broadcast1(x)> = <Y, Z> + <reduce1(Y), x>. */
  lemma Broadcast1Adjoint(Y: seq<Mat>, Z: seq<Mat>, nc: nat, x: seq<Mat>, offs: nat, n: nat)
    requires Fits(Y, nc) && Fits(Z, nc) && Heights(Y) == Heights(Z) && offs + n <= nc
    requires |Z| <= |x| && Fits(x, n) && forall i | 0 <= i < |Z| :: |x[i]| == |Z[i]|
    ensures PackInner(Y, Broadcast1(Z, nc, x, offs)) ==
            PackInner(Y, Z) + PackInner(Reduce1(Y, nc, offs, n), x)
  {
    var B := Broadcast1(Z, nc, x, offs);
    var R := Reduce1(Y, nc, offs, n);
    var s := seq(|Y|, i requires 0 <= i < |Y| => Inner(Y[i], B[i]));
    var a := seq(|Y|, i requires 0 <= i < |Y| => Inner(Y[i], Z[i]));
    var b := seq(|Y|, i requires 0 <= i < |Y| => Inner(R[i], x[i]));
    forall i | 0 <= i < |Y| ensures s[i] == a[i] + b[i] {
      InnerAddBlock(Y[i], Z[i], nc, offs, n, x[i]);
    }
    SumPointwise(s, a, b);
  }

  /** `broadcast0(x, offs)` is the adjoint of `reduce0(offs, n)`:
      <Y, Z + broadcast0(x)> = <Y, Z> + sum_i <reduce0(Y)_i, x_i>. */
  lemma Broadcast0Adjoint(Y: seq<Mat>, Z: seq<Mat>, nc: nat, x: seq<Vec>, offs: nat, n: nat)
    requires Fits(Y, nc) && Fits(Z, nc) && Heights(Y) == Heights(Z) && offs + n <= nc
    requires |Z| <= |x| && Width(x, n)
    ensures PackInner(Y, Broadcast0(Z, nc, x, offs)) ==
            PackInner(Y, Z) + Pairs(Reduce0(Y, nc, offs, n), x)
  {
    var B := Broadcast0(Z, nc, x, offs);
    var R := Reduce0(Y, nc, offs, n);
    var s := seq(|Y|, i requires 0 <= i < |Y| => Inner(Y[i], B[i]));
    var a := seq(|Y|, i requires 0 <= i < |Y| => Inner(Y[i], Z[i]));
    var b := seq(|Y|, i requires 0 <= i < |Y| => Dot(R[i], x[i]));
    forall i | 0 <= i < |Y| ensures s[i] == a[i] + b[i] {
      var k := |Z[i]|;
      InnerAddBlock(Y[i], Z[i], nc, offs, n, Repeat(x[i], k));
      DotSumRows(Block(Y[i], nc, offs, n), n, x[i]);
    }
    SumPointwise(s, a, b);
  }

  /** `broadcast0_n(x)` is the adjoint of `reduce0_n()`. */
  lemma Broadcast0NAdjoint(Y: seq<Mat>, Z: seq<Mat>, nc: nat, x: seq<Vec>)
    requires Fits(Y, nc) && Fits(Z, nc) && Heights(Y) == Heights(Z)
    requires |Z| <= |x| && Width(x, nc)
    ensures PackInner(Y, Broadcast0N(Z, nc, x)) == PackInner(Y, Z) + Pairs(Reduce0N(Y, nc), x)
  {
    var B := Broadcast0N(Z, nc, x);
    var R := Reduce0N(Y, nc);
    var s := seq(|Y|, i requires 0 <= i < |Y| => Inner(Y[i], B[i]));
    var a := seq(|Y|, i requires 0 <= i < |Y| => Inner(Y[i], Z[i]));
    var b := seq(|Y|, i requires 0 <= i < |Y| => Dot(R[i], x[i]));
    forall i | 0 <= i < |Y| ensures s[i] == a[i] + b[i] {
      var k := |Z[i]|;
      var v := Scale(Recip(k), x[i]);
      InnerAddBlock(Y[i], Z[i], nc, 0, nc, Repeat(v, k));
      BlockAll(Y[i], nc);
      if k == 0 {
        DotZeros(x[i]);
      } else {
        DotSumRows(Y[i], nc, v);
        DotScale(Recip(k), SumRows(Y[i], nc), x[i]);
      }
    }
    SumPointwise(s, a, b);
  }

  // ---- Adjointness of the indexed pairs --------------------------------------

  /** Adding `m` into the named rows adds the inner product of `m` with those
      rows' block of `Y`. */
  lemma {:induction false} InnerAddRows(Y: Mat, Z: Mat, nc: nat, ix: seq<nat>, offs: nat, n: nat, m: Mat)
    requires Width(Y, nc) && Width(Z, nc) && |Y| == |Z| && offs + n <= nc
    requires |m| == |ix| && Width(m, n) && forall t | 0 <= t < |ix| :: ix[t] < |Z|
    ensures Inner(Y, AddRows(Z, nc, ix, offs, m)) ==
            Inner(Y, Z) + Inner(Gather(Block(Y, nc, offs, n), ix), m)
    decreases |ix|
  {
    var B := Block(Y, nc, offs, n);
    if ix == [] {
      assert Gather(B, ix) == [];
    } else {
      var k := |ix| - 1;
      InnerAddRows(Y, Z, nc, ix[..k], offs, n, m[..k]);
      var r := AddRows(Z, nc, ix[..k], offs, m[..k]);
      InnerAddAtRow(Y, r, nc, ix[k], offs, n, m[k]);
      GatherLast(B, ix);
      SplitLast(m);
      InnerSnoc(Gather(B, ix[..k]), m[..k], B[ix[k]], m[k]);
    }
  }

  /** Adding `v` into the channel block of row j adds the inner product of
      `v` with that block of `Y`. */
  lemma InnerAddAtRow(Y: Mat, r: Mat, nc: nat, j: nat, offs: nat, n: nat, v: Vec)
    requires Width(Y, nc) && Width(r, nc) && |Y| == |r| && j < |r| && offs + n <= nc && |v| == n
    ensures Inner(Y, r[j := AddAt(r[j], offs, v)]) == Inner(Y, r) + Dot(Block(Y, nc, offs, n)[j], v)
  {
    InnerUpdate(Y, r, j, AddAt(r[j], offs, v));
    DotAddAt(Y[j], r[j], offs, v);
  }

  /** Gathering a list of positions is gathering all but the last, then the last. */
  lemma GatherLast(rows: Mat, ix: seq<nat>)
    requires |ix| > 0 && forall t | 0 <= t < |ix| :: ix[t] < |rows|
    ensures Gather(rows, ix) == Gather(rows, ix[..|ix| - 1]) + [rows[ix[|ix| - 1]]]
  {
  }

  /** Replacing one item changes the pack inner product in that item only. */
  lemma PackInnerUpdate(Y: seq<Mat>, Z: seq<Mat>, nc: nat, i: nat, r: Mat)
    requires Fits(Y, nc) && Fits(Z, nc) && Heights(Y) == Heights(Z)
    requires i < |Z| && |r| == |Z[i]| && Width(r, nc)
    ensures PackInner(Y, Z[i := r]) == PackInner(Y, Z) - Inner(Y[i], Z[i]) + Inner(Y[i], r)
  {
    var s := seq(|Y|, i' requires 0 <= i' < |Y| => Inner(Y[i'], Z[i']));
    assert seq(|Y|, i' requires 0 <= i' < |Y| => Inner(Y[i'], Z[i := r][i'])) == s[i := Inner(Y[i], r)];
    SumUpdate(s, i, Inner(Y[i], r));
  }

  lemma PackInnerSnoc(a: seq<Mat>, b: seq<Mat>, u: Mat, v: Mat)
    requires |a| == |b| && |u| == |v| && forall j | 0 <= j < |u| :: |u[j]| == |v[j]|
    requires forall i | 0 <= i < |a| ::
      |a[i]| == |b[i]| && forall j | 0 <= j < |a[i]| :: |a[i][j]| == |b[i][j]|
    ensures PackInner(a + [u], b + [v]) == PackInner(a, b) + Inner(u, v)
  {
    var s := seq(|a| + 1, i requires 0 <= i < |a| + 1 => Inner((a + [u])[i], (b + [v])[i]));
    assert s[..|a|] == seq(|a|, i requires 0 <= i < |a| => Inner(a[i], b[i]));
  }

  lemma IReduce1Snoc(Y: seq<Mat>, nc: nat, list: seq<Entry>, offs: nat, n: nat)
    requires Fits(Y, nc) && Targets(list, Heights(Y)) && offs + n <= nc && list != []
    ensures IReduce1(Y, nc, list, offs, n) ==
            IReduce1(Y, nc, list[..|list| - 1], offs, n) +
            [Gather(Block(Y[list[|list| - 1].tens], nc, offs, n), list[|list| - 1].ix)]
  {
  }

  /** One entry of an indexed broadcast adds the inner product of its rows
      with the same rows of `Y`. */
  lemma ScatterStep(Y: seq<Mat>, s: seq<Mat>, nc: nat, e: Entry, m: Mat, offs: nat, n: nat)
    requires Fits(Y, nc) && Fits(s, nc) && Heights(Y) == Heights(s) && offs + n <= nc
    requires InRange(e, Heights(s)) && |m| == |e.ix| && Width(m, n)
    ensures PackInner(Y, s[e.tens := AddRows(s[e.tens], nc, e.ix, offs, m)]) ==
            PackInner(Y, s) + Inner(Gather(Block(Y[e.tens], nc, offs, n), e.ix), m)
  {
    var i := e.tens;
    var r := AddRows(s[i], nc, e.ix, offs, m);
    PackInnerUpdate(Y, s, nc, i, r);
    InnerAddRows(Y[i], s[i], nc, e.ix, offs, n, m);
  }

  /** A prefix of a well-formed list and its payload is well formed. */
  lemma FeedsPrefix(list: seq<Entry>, ms: seq<Mat>, sizes: seq<nat>, offs: nat, nc: nat, n: nat, k: nat)
    requires Targets(list, sizes) && Feeds(list, ms, offs, nc) && Fits(ms, n) && k <= |list|
    ensures Targets(list[..k], sizes) && Feeds(list[..k], ms[..k], offs, nc) && Fits(ms[..k], n)
  {
  }

  /** The last entry of an indexed broadcast is applied after all others. */
  lemma ScatterLast(Z: seq<Mat>, nc: nat, list: seq<Entry>, ms: seq<Mat>, offs: nat)
    requires Fits(Z, nc) && Targets(list, Heights(Z)) && Feeds(list, ms, offs, nc) && list != []
    ensures Targets(list[..|list| - 1], Heights(Z)) && Feeds(list[..|list| - 1], ms[..|list| - 1], offs, nc)
    ensures InRange(list[|list| - 1], Heights(Scatter(Z, nc, list[..|list| - 1], ms[..|list| - 1], offs)))
    ensures
      var k := |list| - 1;
      var s := Scatter(Z, nc, list[..k], ms[..k], offs);
      Scatter(Z, nc, list, ms, offs) == s[list[k].tens := AddRows(s[list[k].tens], nc, list[k].ix, offs, ms[k])]
  {
  }

  /** Every indexed broadcast is the adjoint of the indexed `reduce1` over the
      same list: <Y, Scatter(Z, ms)> = <Y, Z> + <reduce1(list)(Y), ms>. */
  lemma {:induction false} ScatterAdjoint(Y: seq<Mat>, Z: seq<Mat>, nc: nat, list: seq<Entry>, ms: seq<Mat>, offs: nat, n: nat)
    requires Fits(Y, nc) && Fits(Z, nc) && Heights(Y) == Heights(Z) && offs + n <= nc
    requires Targets(list, Heights(Z)) && Feeds(list, ms, offs, nc) && Fits(ms, n)
    ensures PackInner(Y, Scatter(Z, nc, list, ms, offs)) ==
            PackInner(Y, Z) + PackInner(IReduce1(Y, nc, list, offs, n), ms)
    decreases |list|
  {
    if list == [] {
      assert PackInner(IReduce1(Y, nc, list, offs, n), ms) == Sum([]);
    } else {
      var k := |list| - 1;
      var e := list[k];
      FeedsPrefix(list, ms, Heights(Z), offs, nc, n, k);
      ScatterLast(Z, nc, list, ms, offs);
      ScatterAdjoint(Y, Z, nc, list[..k], ms[..k], offs, n);
      var s := Scatter(Z, nc, list[..k], ms[..k], offs);
      ScatterStep(Y, s, nc, e, ms[k], offs, n);
      IReduce1Snoc(Y, nc, list, offs, n);
      SplitLast(ms);
      PackInnerSnoc(IReduce1(Y, nc, list[..k], offs, n), ms[..k],
        Gather(Block(Y[e.tens], nc, offs, n), e.ix), ms[k]);
    }
  }

  /** Indexed `broadcast0(x, list, offs)` is the adjoint of indexed
      `reduce0(list, offs, n)`:
      <Y, Z + broadcast0(x, list)> = <Y, Z> + sum_e <reduce0(list)(Y)_e, x_e>. */
  lemma IBroadcast0Adjoint(Y: seq<Mat>, Z: seq<Mat>, nc: nat, list: seq<Entry>, x: seq<Vec>, offs: nat, n: nat)
    requires Fits(Y, nc) && Fits(Z, nc) && Heights(Y) == Heights(Z) && offs + n <= nc
    requires Targets(list, Heights(Z)) && |list| <= |x| && Width(x, n)
    ensures Feeds(list, Repeats(list, x), offs, nc)
    ensures PackInner(Y, Scatter(Z, nc, list, Repeats(list, x), offs)) ==
            PackInner(Y, Z) + Pairs(IReduce0(Y, nc, list, offs, n), x)
  {
    var ms := Repeats(list, x);
    assert Fits(ms, n);
    ScatterAdjoint(Y, Z, nc, list, ms, offs, n);
    IReduce0Pairs(Y, nc, list, x, offs, n);
  }

  /** Pairing indexed `reduce1` with copies of x is pairing indexed `reduce0` with x. */
  lemma IReduce0Pairs(Y: seq<Mat>, nc: nat, list: seq<Entry>, x: seq<Vec>, offs: nat, n: nat)
    requires Fits(Y, nc) && Targets(list, Heights(Y)) && offs + n <= nc && |list| <= |x| && Width(x, n)
    ensures PackInner(IReduce1(Y, nc, list, offs, n), Repeats(list, x)) == Pairs(IReduce0(Y, nc, list, offs, n), x)
  {
    var ms := Repeats(list, x);
    var G := IReduce1(Y, nc, list, offs, n);
    var R := IReduce0(Y, nc, list, offs, n);
    forall e | 0 <= e < |list| ensures Inner(G[e], ms[e]) == Dot(R[e], x[e]) {
      DotSumRows(G[e], n, x[e]);
    }
    assert seq(|G|, e requires 0 <= e < |G| => Inner(G[e], ms[e])) ==
           seq(|R|, e requires 0 <= e < |R| => Dot(R[e], x[e]));
  }

  /** Indexed `broadcast0_n(x, list)` is the adjoint of indexed `reduce0_n(list)`. */
  lemma IBroadcast0NAdjoint(Y: seq<Mat>, Z: seq<Mat>, nc: nat, list: seq<Entry>, x: seq<Vec>)
    requires Fits(Y, nc) && Fits(Z, nc) && Heights(Y) == Heights(Z)
    requires Targets(list, Heights(Z)) && |list| <= |x| && Width(x, nc)
    ensures Feeds(list, ScaledRepeats(list, x), 0, nc)
    ensures PackInner(Y, Scatter(Z, nc, list, ScaledRepeats(list, x), 0)) ==
            PackInner(Y, Z) + Pairs(IReduce0N(Y, nc, list), x)
  {
    var ms := ScaledRepeats(list, x);
    assert Fits(ms, nc);
    ScatterAdjoint(Y, Z, nc, list, ms, 0, nc);
    IReduce0NPairs(Y, nc, list, x);
  }

  /** Pairing indexed `reduce1` with scaled copies of x is pairing indexed
      `reduce0_n` with x. */
  lemma IReduce0NPairs(Y: seq<Mat>, nc: nat, list: seq<Entry>, x: seq<Vec>)
    requires Fits(Y, nc) && Targets(list, Heights(Y)) && |list| <= |x| && Width(x, nc)
    ensures PackInner(IReduce1(Y, nc, list, 0, nc), ScaledRepeats(list, x)) == Pairs(IReduce0N(Y, nc, list), x)
  {
    var ms := ScaledRepeats(list, x);
    var G := IReduce1(Y, nc, list, 0, nc);
    var R := IReduce0N(Y, nc, list);
    forall e | 0 <= e < |list| ensures Inner(G[e], ms[e]) == Dot(R[e], x[e]) {
      if list[e].ix == [] {
        DotZeros(x[e]);
      } else {
        MeanRowsInner(G[e], nc, x[e]);
      }
    }
    assert seq(|G|, e requires 0 <= e < |G| => Inner(G[e], ms[e])) ==
           seq(|R|, e requires 0 <= e < |R| => Dot(R[e], x[e]));
  }

  /** The mean of some rows against `v` is their inner product with copies of
      `v` scaled by one over their count. */
  lemma MeanRowsInner(g: Mat, nc: nat, v: Vec)
    requires Width(g, nc) && |v| == nc && |g| > 0
    ensures Inner(g, Repeat(Scale(Recip(|g|), v), |g|)) == Dot(Scale(Recip(|g|), SumRows(g, nc)), v)
  {
    DotSumRows(g, nc, Scale(Recip(|g|), v));
    DotScale(Recip(|g|), SumRows(g, nc), v);
  }

  // ---- What the reductions hold ------------------------------------------------

  /** Entry (i, c) of `reduce0(offs, n)` is the sum over item i's rows of channel offs + c. */
  lemma Reduce0Columns(items: seq<Mat>, nc: nat, offs: nat, n: nat, i: nat, c: nat)
    requires Fits(items, nc) && offs + n <= nc && i < |items| && c < n
    ensures Reduce0(items, nc, offs, n)[i][c] == Sum(Column(items[i], offs + c))
  {
    var B := Block(items[i], nc, offs, n);
    SumRowsColumn(B, n, c);
    assert Column(B, c) == Column(items[i], offs + c);
  }

  /** `reduce0_n()` is `reduce0()` divided by the atom count of each item that has atoms. */
  lemma Reduce0NMean(items: seq<Mat>, nc: nat, i: nat)
    requires Fits(items, nc) && i < |items| && |items[i]| > 0
    ensures Reduce0N(items, nc)[i] == Scale(1.0 / (|items[i]| as real), Reduce0(items, nc, 0, nc)[i])
  {
    BlockAll(items[i], nc);
  }

  /** Entry (e, c) of indexed `reduce0(list, offs, n)` is the sum of channel
      offs + c over the named rows of the named item, zero for an entry
      without positions. */
  lemma IReduce0Columns(items: seq<Mat>, nc: nat, list: seq<Entry>, offs: nat, n: nat, e: nat, c: nat)
    requires Fits(items, nc) && Targets(list, Heights(items)) && offs + n <= nc
    requires e < |list| && c < n
    ensures IReduce0(items, nc, list, offs, n)[e][c] ==
            Sum(Column(Gather(items[list[e].tens], list[e].ix), offs + c))
  {
    var G := Gather(Block(items[list[e].tens], nc, offs, n), list[e].ix);
    SumRowsColumn(G, n, c);
    assert Column(G, c) == Column(Gather(items[list[e].tens], list[e].ix), offs + c);
  }

  // ---- What the broadcasts change ----------------------------------------------

  /** `broadcast0(x, offs)` adds x_i to channels offs .. offs+|x_i|-1 of every
      row of item i; every other channel keeps its value. */
  lemma Broadcast0Cell(items: seq<Mat>, nc: nat, x: seq<Vec>, offs: nat, i: nat, j: nat, c: nat)
    requires Fits(items, nc) && |items| <= |x| && forall i' | 0 <= i' < |items| :: offs + |x[i']| <= nc
    requires i < |items| && j < |items[i]| && c < nc
    ensures Broadcast0(items, nc, x, offs)[i][j][c] ==
            items[i][j][c] + if offs <= c < offs + |x[i]| then x[i][c - offs] else 0.0
  {
    AddAtAt(items[i][j], offs, x[i], c);
  }

  /** `broadcast0_n(x)` adds x_i / k_i to channel c < |x_i| of every row of item i. */
  lemma Broadcast0NCell(items: seq<Mat>, nc: nat, x: seq<Vec>, i: nat, j: nat, c: nat)
    requires Fits(items, nc) && |items| <= |x| && forall i' | 0 <= i' < |items| :: |x[i']| <= nc
    requires i < |items| && j < |items[i]| && c < nc
    ensures Broadcast0N(items, nc, x)[i][j][c] ==
            items[i][j][c] + if c < |x[i]| then x[i][c] / (|items[i]| as real) else 0.0
  {
    var v := Scale(Recip(|items[i]|), x[i]);
    AddAtAt(items[i][j], 0, v, c);
  }

  /** `broadcast1(x, offs)` and `add_to_channels(x, offs)` add row j of x's
      item i to channels offs .. of row j of item i, and nothing elsewhere. */
  lemma Broadcast1Cell(items: seq<Mat>, nc: nat, x: seq<Mat>, offs: nat, i: nat, j: nat, c: nat)
    requires Fits(items, nc) && |items| <= |x|
    requires forall i' | 0 <= i' < |items| :: |x[i']| == |items[i']|
    requires forall i', j' | 0 <= i' < |items| && 0 <= j' < |x[i']| :: offs + |x[i'][j']| <= nc
    requires i < |items| && j < |items[i]| && c < nc
    ensures Broadcast1(items, nc, x, offs)[i][j][c] ==
            items[i][j][c] + if offs <= c < offs + |x[i][j]| then x[i][j][c - offs] else 0.0
  {
    AddAtAt(items[i][j], offs, x[i][j], c);
  }

  /** `add_channels(x, offs)` adds channel offs + c of x's row to channel c. */
  lemma AddChannelsCell(items: seq<Mat>, nc: nat, x: seq<Mat>, xnc: nat, offs: nat, i: nat, j: nat, c: nat)
    requires Fits(items, nc) && Fits(x, xnc) && |items| <= |x| && offs + nc <= xnc
    requires forall i' | 0 <= i' < |items| :: |x[i']| == |items[i']|
    requires i < |items| && j < |items[i]| && c < nc
    ensures AddChannels(items, nc, x, xnc, offs)[i][j][c] == items[i][j][c] + x[i][j][offs + c]
  {
    AddAtAt(items[i][j], 0, x[i][j][offs..offs + nc], c);
  }

  /** Two packs of the same heights, x narrower than the block at offs, meet
      the requirements of `Broadcast1`. */
  lemma Broadcast1Fits(items: seq<Mat>, nc: nat, x: seq<Mat>, n: nat, offs: nat)
    requires Fits(items, nc) && Fits(x, n) && Heights(x) == Heights(items) && offs + n <= nc
    ensures |items| <= |x|
    ensures forall i | 0 <= i < |items| :: |x[i]| == |items[i]|
    ensures forall i, j | 0 <= i < |items| && 0 <= j < |x[i]| :: offs + |x[i][j]| <= nc
  {
    forall i | 0 <= i < |items| ensures |x[i]| == |items[i]| {
      assert Heights(x)[i] == Heights(items)[i];
    }
  }

  /** Row-wise concatenation of two packs with the same heights: row j of
      item i is x's row followed by y's. */
  function Joined(x: seq<Mat>, y: seq<Mat>): (r: seq<Mat>)
    requires Heights(y) == Heights(x)
    ensures Heights(r) == Heights(x)
    ensures forall i, j | 0 <= i < |x| && 0 <= j < |x[i]| :: r[i][j] == x[i][j] + y[i][j]
  {
    seq(|x|, i requires 0 <= i < |x| =>
      seq(|x[i]|, j requires 0 <= j < |x[i]| => x[i][j] + y[i][j]))
  }

  /** A zero pack of nx + ny channels with x added at channel 0 and y at
      channel nx holds, row by row, x's row followed by y's row: `concat(x, y)`. */
  lemma ConcatChannels(zero: seq<Mat>, x: seq<Mat>, nx: nat, y: seq<Mat>, ny: nat)
    requires zero == ZeroPack(Heights(x), nx + ny)
    requires Fits(x, nx) && Fits(y, ny) && Heights(y) == Heights(x)
    ensures Fits(zero, nx + ny)
    ensures Broadcast1(Broadcast1(zero, nx + ny, x, 0), nx + ny, y, nx) == Joined(x, y)
  {
    var nc := nx + ny;
    var A := Broadcast1(zero, nc, x, 0);
    var B := Broadcast1(A, nc, y, nx);
    forall i | 0 <= i < |x| ensures B[i] == seq(|x[i]|, j requires 0 <= j < |x[i]| => x[i][j] + y[i][j]) {
      forall j | 0 <= j < |x[i]| ensures B[i][j] == x[i][j] + y[i][j] {
        forall c | 0 <= c < nc ensures B[i][j][c] == (x[i][j] + y[i][j])[c] {
          Broadcast1Cell(zero, nc, x, 0, i, j, c);
          Broadcast1Cell(A, nc, y, nx, i, j, c);
        }
      }
    }
  }

  // ---- What the indexed broadcasts change --------------------------------------

  /** What positions `ix` carrying rows `m` add to channel c of row j of the
      block: the sum of `m[t][c]` over the t with `ix[t] == j`. */
  function RowIncoming(ix: seq<nat>, m: Mat, j: nat, c: nat): real
    requires |m| == |ix| && forall t | 0 <= t < |m| :: c < |m[t]|
  {
    if ix == [] then 0.0
    else
      var k := |ix| - 1;
      RowIncoming(ix[..k], m[..k], j, c) + if ix[k] == j then m[k][c] else 0.0
  }

  /** What a whole list adds to channel c of the block of row j of item i. */
  function Incoming(list: seq<Entry>, ms: seq<Mat>, i: nat, j: nat, c: nat): real
    requires |ms| == |list|
    requires forall e | 0 <= e < |list| :: |ms[e]| == |list[e].ix| && forall t | 0 <= t < |ms[e]| :: c < |ms[e][t]|
  {
    if list == [] then 0.0
    else
      var k := |list| - 1;
      Incoming(list[..k], ms[..k], i, j, c) +
        if list[k].tens == i then RowIncoming(list[k].ix, ms[k], j, c) else 0.0
  }

  lemma {:induction false} AddRowsCell(rows: Mat, nc: nat, ix: seq<nat>, offs: nat, n: nat, m: Mat, j: nat, c: nat)
    requires Width(rows, nc) && |m| == |ix| && Width(m, n) && offs + n <= nc
    requires forall t | 0 <= t < |ix| :: ix[t] < |rows|
    requires j < |rows| && c < nc
    ensures AddRows(rows, nc, ix, offs, m)[j][c] ==
            rows[j][c] + if offs <= c < offs + n then RowIncoming(ix, m, j, c - offs) else 0.0
    decreases |ix|
  {
    if ix != [] {
      var k := |ix| - 1;
      AddRowsCell(rows, nc, ix[..k], offs, n, m[..k], j, c);
      var r := AddRows(rows, nc, ix[..k], offs, m[..k]);
      AddAtAt(r[ix[k]], offs, m[k], c);
    }
  }

  /** An indexed broadcast adds to channel c of row j of item i exactly what
      the entries naming that row carry, and nothing outside its block. */
  lemma {:induction false} ScatterCell(items: seq<Mat>, nc: nat, list: seq<Entry>, ms: seq<Mat>, offs: nat, n: nat, i: nat, j: nat, c: nat)
    requires Fits(items, nc) && Targets(list, Heights(items)) && Feeds(list, ms, offs, nc)
    requires Fits(ms, n) && offs + n <= nc
    requires i < |items| && j < |items[i]| && c < nc
    ensures Scatter(items, nc, list, ms, offs)[i][j][c] ==
            items[i][j][c] + if offs <= c < offs + n then Incoming(list, ms, i, j, c - offs) else 0.0
    decreases |list|
  {
    if list != [] {
      var k := |list| - 1;
      FeedsPrefix(list, ms, Heights(items), offs, nc, n, k);
      ScatterLast(items, nc, list, ms, offs);
      ScatterCell(items, nc, list[..k], ms[..k], offs, n, i, j, c);
      var s := Scatter(items, nc, list[..k], ms[..k], offs);
      if list[k].tens == i {
        AddRowsCell(s[i], nc, list[k].ix, offs, n, ms[k], j, c);
      }
    }
  }

  /** No entry names row j of item i. */
  ghost predicate Untouched(list: seq<Entry>, i: nat, j: nat)
  {
    forall e, t | 0 <= e < |list| && 0 <= t < |list[e].ix| :: list[e].tens != i || list[e].ix[t] != j
  }

  lemma {:induction false} RowIncomingMissing(ix: seq<nat>, m: Mat, j: nat, c: nat)
    requires |m| == |ix| && forall t | 0 <= t < |m| :: c < |m[t]|
    requires forall t | 0 <= t < |ix| :: ix[t] != j
    ensures RowIncoming(ix, m, j, c) == 0.0
    decreases |ix|
  {
    if ix != [] {
      RowIncomingMissing(ix[..|ix| - 1], m[..|ix| - 1], j, c);
    }
  }

  lemma {:induction false} IncomingUntouched(list: seq<Entry>, ms: seq<Mat>, i: nat, j: nat, c: nat)
    requires |ms| == |list|
    requires forall e | 0 <= e < |list| :: |ms[e]| == |list[e].ix| && forall t | 0 <= t < |ms[e]| :: c < |ms[e][t]|
    requires Untouched(list, i, j)
    ensures Incoming(list, ms, i, j, c) == 0.0
    decreases |list|
  {
    if list != [] {
      var k := |list| - 1;
      IncomingUntouched(list[..k], ms[..k], i, j, c);
      if list[k].tens == i {
        RowIncomingMissing(list[k].ix, ms[k], j, c);
      }
    }
  }

  /** Rows no entry names are left exactly as they were. */
  lemma ScatterUntouched(items: seq<Mat>, nc: nat, list: seq<Entry>, ms: seq<Mat>, offs: nat, n: nat, i: nat, j: nat)
    requires Fits(items, nc) && Targets(list, Heights(items)) && Feeds(list, ms, offs, nc)
    requires Fits(ms, n) && offs + n <= nc
    requires i < |items| && j < |items[i]| && Untouched(list, i, j)
    ensures Scatter(items, nc, list, ms, offs)[i][j] == items[i][j]
  {
    forall c | 0 <= c < nc ensures Scatter(items, nc, list, ms, offs)[i][j][c] == items[i][j][c] {
      ScatterCell(items, nc, list, ms, offs, n, i, j, c);
      if offs <= c < offs + n {
        IncomingUntouched(list, ms, i, j, c - offs);
      }
    }
  }

  /** With `repeat0(x_e, nix(e))` as the payload, entry e adds x_e once per
      occurrence of j among its positions. */
  lemma {:induction false} RowIncomingRepeat(ix: seq<nat>, v: Vec, j: nat, c: nat)
    requires c < |v|
    ensures RowIncoming(ix, Repeat(v, |ix|), j, c) == (Count(ix, j) as real) * v[c]
    decreases |ix|
  {
    if ix != [] {
      var k := |ix| - 1;
      assert Repeat(v, |ix|)[..k] == Repeat(v, k);
      RowIncomingRepeat(ix[..k], v, j, c);
    }
  }

  /** The live entries of a list in range stay in range, and x, whose items
      either have no rows or one row per position, feeds them. */
  lemma LiveFeeds(list: seq<Entry>, x: seq<Mat>, sizes: seq<nat>, offs: nat, nc: nat)
    requires Targets(list, sizes) && |list| <= |x|
    requires forall e | 0 <= e < |list| :: |x[e]| == 0 || |x[e]| == |list[e].ix|
    requires forall e, t | 0 <= e < |list| && 0 <= t < |x[e]| :: offs + |x[e][t]| <= nc
    ensures Targets(Live(list, x), sizes) && Feeds(Live(list, x), x[..|list|], offs, nc)
  {
    var L := Live(list, x);
    forall e | 0 <= e < |list| ensures InRange(L[e], sizes) {
      assert InRange(list[e], sizes);
    }
  }

  /** When every item of x has one row per position of its entry, nothing is
      skipped. */
  lemma LiveAll(list: seq<Entry>, x: seq<Mat>)
    requires |list| <= |x| && forall e | 0 <= e < |list| :: |x[e]| == |list[e].ix|
    ensures Live(list, x) == list
  {
    var L := Live(list, x);
    forall e | 0 <= e < |list| ensures L[e] == list[e] {
      if |x[e]| == 0 {
        assert L[e].ix == [] == list[e].ix;
      }
    }
  }

  /** An entry without positions leaves an indexed broadcast unchanged. */
  lemma ScatterEmptyEntry(items: seq<Mat>, nc: nat, list: seq<Entry>, ms: seq<Mat>, offs: nat, i: nat)
    requires Fits(items, nc) && Targets(list, Heights(items)) && Feeds(list, ms, offs, nc) && i < |items|
    ensures Targets(list + [Entry(i, [])], Heights(items)) && Feeds(list + [Entry(i, [])], ms + [[]], offs, nc)
    ensures Scatter(items, nc, list + [Entry(i, [])], ms + [[]], offs) == Scatter(items, nc, list, ms, offs)
  {
    var l := list + [Entry(i, [])];
    var m := ms + [[]];
    assert l[..|list|] == list && m[..|list|] == ms;
  }

  lemma FeedsSplit(l1: seq<Entry>, m1: seq<Mat>, l2: seq<Entry>, m2: seq<Mat>, sizes: seq<nat>, offs: nat, nc: nat)
    requires Targets(l1 + l2, sizes) && Feeds(l1 + l2, m1 + m2, offs, nc) && |m1| == |l1|
    ensures Targets(l1, sizes) && Feeds(l1, m1, offs, nc)
    ensures Targets(l2, sizes) && Feeds(l2, m2, offs, nc)
  {
    assert forall e | 0 <= e < |l1| :: (l1 + l2)[e] == l1[e] && (m1 + m2)[e] == m1[e];
    assert forall e | 0 <= e < |l2| :: (l1 + l2)[|l1| + e] == l2[e] && (m1 + m2)[|l1| + e] == m2[e];
  }

  /** An entry appended to a list is applied after the entries before it. */
  lemma ScatterSnoc(items: seq<Mat>, nc: nat, p: seq<Entry>, q: seq<Mat>, e: Entry, m: Mat, offs: nat)
    requires Fits(items, nc) && Targets(p + [e], Heights(items)) && Feeds(p + [e], q + [m], offs, nc)
    requires |q| == |p|
    ensures Targets(p, Heights(items)) && Feeds(p, q, offs, nc)
    ensures InRange(e, Heights(Scatter(items, nc, p, q, offs)))
    ensures |m| == |e.ix| && forall t | 0 <= t < |m| :: offs + |m[t]| <= nc
    ensures
      var s := Scatter(items, nc, p, q, offs);
      Scatter(items, nc, p + [e], q + [m], offs) == s[e.tens := AddRows(s[e.tens], nc, e.ix, offs, m)]
  {
    assert (p + [e])[..|p|] == p && (q + [m])[..|p|] == q;
    assert (p + [e])[|p|] == e && (q + [m])[|p|] == m;
  }

  /** Processing two lists one after the other is processing their
      concatenation: entries that name the same rows add up. */
  lemma {:induction false} ScatterAppend(items: seq<Mat>, nc: nat, l1: seq<Entry>, m1: seq<Mat>, l2: seq<Entry>, m2: seq<Mat>, offs: nat)
    requires Fits(items, nc) && Targets(l1 + l2, Heights(items)) && Feeds(l1 + l2, m1 + m2, offs, nc)
    requires |m1| == |l1|
    ensures Targets(l1, Heights(items)) && Feeds(l1, m1, offs, nc)
    ensures Targets(l2, Heights(items)) && Feeds(l2, m2, offs, nc)
    ensures Scatter(items, nc, l1 + l2, m1 + m2, offs) ==
            Scatter(Scatter(items, nc, l1, m1, offs), nc, l2, m2, offs)
    decreases |l2|
  {
    FeedsSplit(l1, m1, l2, m2, Heights(items), offs, nc);
    if l2 == [] {
      assert l1 + l2 == l1 && m1 + m2 == m1;
    } else {
      var k := |l2| - 1;
      var p, q := l1 + l2[..k], m1 + m2[..k];
      SplitLast(l2);
      SplitLast(m2);
      assert l1 + l2 == p + [l2[k]] && m1 + m2 == q + [m2[k]];
      ScatterSnoc(items, nc, p, q, l2[k], m2[k], offs);
      ScatterAppend(items, nc, l1, m1, l2[..k], m2[..k], offs);
      ScatterSnoc(Scatter(items, nc, l1, m1, offs), nc, l2[..k], m2[..k], l2[k], m2[k], offs);
    }
  }

  // ---- Plain operations as indexed ones ----------------------------------------

  /** Gathering every row in order gives the block back. */
  lemma GatherRange(rows: Mat)
    ensures Gather(rows, Range(|rows|)) == rows
  {
  }

  /** Gathering one more position appends that row. */
  lemma GatherSnoc(rows: Mat, ix: seq<nat>, t: nat)
    requires t < |ix| && forall t' | 0 <= t' < |ix| :: ix[t'] < |rows|
    ensures Gather(rows, ix[..t + 1]) == Gather(rows, ix[..t]) + [rows[ix[t]]]
  {
  }

  /** Adding rows at positions 0, 1, ..., k-1 in turn adds the whole block. */
  lemma {:induction false} AddRowsRangePrefix(rows: Mat, nc: nat, offs: nat, m: Mat, t: nat)
    requires Width(rows, nc) && |m| == |rows| && t <= |rows|
    requires forall j | 0 <= j < |m| :: offs + |m[j]| <= nc
    ensures AddRows(rows, nc, Range(t), offs, m[..t]) == AddBlock(rows[..t], nc, offs, m[..t]) + rows[t..]
  {
    if t > 0 {
      AddRowsRangePrefix(rows, nc, offs, m, t - 1);
      assert Range(t)[..t - 1] == Range(t - 1);
      assert m[..t][..t - 1] == m[..t - 1];
    }
  }

  lemma AddRowsRange(rows: Mat, nc: nat, offs: nat, m: Mat)
    requires Width(rows, nc) && |m| == |rows|
    requires forall j | 0 <= j < |m| :: offs + |m[j]| <= nc
    ensures AddRows(rows, nc, Range(|rows|), offs, m) == AddBlock(rows, nc, offs, m)
  {
    AddRowsRangePrefix(rows, nc, offs, m, |rows|);
    assert m[..|rows|] == m && rows[..|rows|] == rows;
  }
}
