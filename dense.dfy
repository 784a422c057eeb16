/** Dense real vectors and matrices: the values a tensor pack stores, and the
    sums and inner products in which the reduce/broadcast laws are stated.
    A matrix is a sequence of rows; in a pack, row j of an item is the channel
    vector of its j-th atom. */
module Dense {

  type Vec = seq<real>
  type Mat = seq<Vec>

  function Zeros(n: nat): Vec
  {
    seq(n, _ => 0.0)
  }

  function Add(a: Vec, b: Vec): Vec
    requires |a| == |b|
  {
    seq(|a|, c requires 0 <= c < |a| => a[c] + b[c])
  }

  function Scale(s: real, a: Vec): Vec
  {
    seq(|a|, c requires 0 <= c < |a| => s * a[c])
  }

  /** `v` with channels `offs .. offs+|w|-1` overwritten by `w`. */
  function Put(v: Vec, offs: nat, w: Vec): (r: Vec)
    requires offs + |w| <= |v|
    ensures |r| == |v|
  {
    v[..offs] + w + v[offs + |w|..]
  }

  /** `v` with `w` added into channels `offs .. offs+|w|-1`: the `+=` of a
      channel-block view. */
  function AddAt(v: Vec, offs: nat, w: Vec): (r: Vec)
    requires offs + |w| <= |v|
    ensures |r| == |v|
  {
    Put(v, offs, Add(v[offs..offs + |w|], w))
  }

  /** `repeat0(v, k)`: the k x |v| matrix each of whose rows is `v`. */
  function Repeat(v: Vec, k: nat): Mat
  {
    seq(k, _ => v)
  }

  /** Every row of `m` has `n` channels. */
  ghost predicate Width(m: Mat, n: nat)
  {
    forall j | 0 <= j < |m| :: |m[j]| == n
  }

  /** Flattening of a matrix, row after row (row-major order). */
  function Flatten(m: Mat): Vec
  {
    if m == [] then [] else Flatten(m[..|m| - 1]) + m[|m| - 1]
  }

  function Sum(s: seq<real>): real
  {
    if s == [] then 0.0 else Sum(s[..|s| - 1]) + s[|s| - 1]
  }

  /** Sum of the rows of `m`, each of width `n` (zero when `m` has no rows). */
  function SumRows(m: Mat, n: nat): (r: Vec)
    requires Width(m, n)
    ensures |r| == n
  {
    if m == [] then Zeros(n) else Add(SumRows(m[..|m| - 1], n), m[|m| - 1])
  }

  /** Channel c of every row. */
  function Column(m: Mat, c: nat): Vec
    requires forall j | 0 <= j < |m| :: c < |m[j]|
  {
    seq(|m|, j requires 0 <= j < |m| => m[j][c])
  }

  function Dot(a: Vec, b: Vec): real
    requires |a| == |b|
  {
    Sum(seq(|a|, c requires 0 <= c < |a| => a[c] * b[c]))
  }

  /** Frobenius inner product of two matrices of the same shape; also the
      inner product of two order-0 packs (one vector per item). */
  function Inner(a: Mat, b: Mat): real
    requires |a| == |b| && forall j | 0 <= j < |a| :: |a[j]| == |b[j]|
  {
    Sum(seq(|a|, j requires 0 <= j < |a| => Dot(a[j], b[j])))
  }

  // ---- Element-wise facts ----------------------------------------------------

  lemma PutAt(v: Vec, offs: nat, w: Vec, c: nat)
    requires offs + |w| <= |v| && c < |v|
    ensures |Put(v, offs, w)| == |v|
    ensures Put(v, offs, w)[c] == if offs <= c < offs + |w| then w[c - offs] else v[c]
  {
    var r := Put(v, offs, w);
    if c < offs {
      assert r[c] == (v[..offs] + w)[c];
    } else if c < offs + |w| {
      assert r[c] == (v[..offs] + w)[c];
    } else {
      assert r[c] == v[offs + |w|..][c - offs - |w|];
    }
  }

  /** A write outside the window `a .. b-1` leaves that window unchanged. */
  lemma PutOutside(v: Vec, offs: nat, w: Vec, a: nat, b: nat)
    requires offs + |w| <= |v| && a <= b <= |v|
    requires b <= offs || offs + |w| <= a
    ensures Put(v, offs, w)[a..b] == v[a..b]
  {
    forall c | a <= c < b ensures Put(v, offs, w)[c] == v[c] { PutAt(v, offs, w, c); }
  }

  /** A write inside the window `a .. a+n-1` is the same write on the window. */
  lemma PutInside(v: Vec, offs: nat, w: Vec, a: nat, n: nat)
    requires a <= offs && offs + |w| <= a + n <= |v|
    ensures Put(v, offs, w)[a..a + n] == Put(v[a..a + n], offs - a, w)
  {
    forall c | a <= c < a + n ensures Put(v, offs, w)[c] == Put(v[a..a + n], offs - a, w)[c - a] {
      PutAt(v, offs, w, c);
      PutAt(v[a..a + n], offs - a, w, c - a);
    }
  }

  lemma AddAtAt(v: Vec, offs: nat, w: Vec, c: nat)
    requires offs + |w| <= |v| && c < |v|
    ensures |AddAt(v, offs, w)| == |v|
    ensures AddAt(v, offs, w)[c] == v[c] + if offs <= c < offs + |w| then w[c - offs] else 0.0
  {
    PutAt(v, offs, Add(v[offs..offs + |w|], w), c);
  }

  lemma {:induction false} FlattenLength(m: Mat, n: nat)
    requires Width(m, n)
    ensures |Flatten(m)| == Mul(|m|, n)
  {
    if m != [] {
      FlattenLength(m[..|m| - 1], n);
    }
  }

  /** Row j of a flattened matrix sits at `j*n .. j*n+n-1`. */
  lemma {:induction false} FlattenRow(m: Mat, n: nat, j: nat)
    requires Width(m, n) && j < |m|
    ensures Mul(j, n) + n <= |Flatten(m)|
    ensures Flatten(m)[Mul(j, n) .. Mul(j, n) + n] == m[j]
  {
    FlattenLength(m, n);
    var k := |m| - 1;
    FlattenLength(m[..k], n);
    assert Flatten(m) == Flatten(m[..k]) + m[k];
    if j < k {
      FlattenRow(m[..k], n, j);
      assert Flatten(m)[Mul(j, n) .. Mul(j, n) + n] == Flatten(m[..k])[Mul(j, n) .. Mul(j, n) + n];
    }
  }

  // ---- Row positions ---------------------------------------------------------

  /** `a*n`, the offset of row a in a row-major buffer of width n, written as
      repeated addition so that row arithmetic stays linear. */
  function Mul(a: nat, n: nat): nat
  {
    if a == 0 then 0 else Mul(a - 1, n) + n
  }

  lemma {:induction false} MulIsProduct(a: nat, n: nat)
    ensures Mul(a, n) == a * n
  {
    if a > 0 {
      MulIsProduct(a - 1, n);
    }
  }

  lemma {:induction false} MulAdd(a: nat, b: nat, n: nat)
    ensures Mul(a + b, n) == Mul(a, n) + Mul(b, n)
    decreases b
  {
    if b > 0 {
      MulAdd(a, b - 1, n);
    }
  }

  /** Row j < k ends no later than row k starts. */
  lemma MulStep(j: nat, k: nat, n: nat)
    requires j < k
    ensures Mul(j, n) + n <= Mul(k, n)
  {
    MulAdd(j + 1, k - j - 1, n);
  }

  // ---- Sums ------------------------------------------------------------------

  lemma {:induction false} SumConcat(s: seq<real>, t: seq<real>)
    ensures Sum(s + t) == Sum(s) + Sum(t)
  {
    if t != [] {
      SumConcat(s, t[..|t| - 1]);
      assert (s + t)[..|s + t| - 1] == s + t[..|t| - 1];
    } else {
      assert s + t == s;
    }
  }

  /** A sum of term-wise sums splits in two. */
  lemma SumPointwise(s: seq<real>, a: seq<real>, b: seq<real>)
    requires |s| == |a| == |b| && forall j | 0 <= j < |s| :: s[j] == a[j] + b[j]
    ensures Sum(s) == Sum(a) + Sum(b)
  {
    assert s == Add(a, b);
    SumAdd(a, b);
  }

  lemma {:induction false} SumZeros(n: nat)
    ensures Sum(Zeros(n)) == 0.0
  {
    if n > 0 {
      SumZeros(n - 1);
      assert Zeros(n)[..n - 1] == Zeros(n - 1);
    }
  }

  lemma {:induction false} SumAdd(s: seq<real>, t: seq<real>)
    requires |s| == |t|
    ensures Sum(Add(s, t)) == Sum(s) + Sum(t)
  {
    if s != [] {
      var k := |s| - 1;
      SumAdd(s[..k], t[..k]);
      assert Add(s, t)[..k] == Add(s[..k], t[..k]);
    }
  }

  lemma {:induction false} SumScale(a: real, s: seq<real>)
    ensures Sum(Scale(a, s)) == a * Sum(s)
  {
    if s != [] {
      var k := |s| - 1;
      SumScale(a, s[..k]);
      assert Scale(a, s)[..k] == Scale(a, s[..k]) by {
        forall c | 0 <= c < k ensures Scale(a, s)[..k][c] == Scale(a, s[..k])[c] {}
      }
      assert a * Sum(s) == a * Sum(s[..k]) + a * s[k];
    }
  }

  /** Changing one term of a sum changes the sum by the difference. */
  lemma SumUpdate(s: seq<real>, j: nat, v: real)
    requires j < |s|
    ensures Sum(s[j := v]) == Sum(s) - s[j] + v
  {
    assert s == s[..j] + [s[j]] + s[j + 1..];
    assert s[j := v] == s[..j] + [v] + s[j + 1..];
    SumConcat(s[..j] + [s[j]], s[j + 1..]);
    SumConcat(s[..j], [s[j]]);
    SumConcat(s[..j] + [v], s[j + 1..]);
    SumConcat(s[..j], [v]);
    assert Sum([s[j]]) == s[j] by { assert [s[j]][..0] == []; }
    assert Sum([v]) == v by { assert [v][..0] == []; }
  }

  /** Channel c of the column sum is the sum of column c. */
  lemma {:induction false} SumRowsColumn(m: Mat, n: nat, c: nat)
    requires Width(m, n) && c < n
    ensures SumRows(m, n)[c] == Sum(Column(m, c))
  {
    if m != [] {
      var k := |m| - 1;
      SumRowsColumn(m[..k], n, c);
      assert Column(m, c)[..k] == Column(m[..k], c);
    }
  }

  // ---- Inner products --------------------------------------------------------

  lemma DotAdd(y: Vec, a: Vec, b: Vec)
    requires |y| == |a| == |b|
    ensures Dot(y, Add(a, b)) == Dot(y, a) + Dot(y, b)
  {
    var p := seq(|y|, c requires 0 <= c < |y| => y[c] * Add(a, b)[c]);
    var pa := seq(|y|, c requires 0 <= c < |y| => y[c] * a[c]);
    var pb := seq(|y|, c requires 0 <= c < |y| => y[c] * b[c]);
    forall c | 0 <= c < |y| ensures p[c] == Add(pa, pb)[c] {
      assert Add(a, b)[c] == a[c] + b[c];
      assert p[c] == y[c] * Add(a, b)[c];
      assert y[c] * (a[c] + b[c]) == y[c] * a[c] + y[c] * b[c];
    }
    assert p == Add(pa, pb);
    SumAdd(pa, pb);
  }

  lemma DotAddLeft(a: Vec, b: Vec, x: Vec)
    requires |a| == |b| == |x|
    ensures Dot(Add(a, b), x) == Dot(a, x) + Dot(b, x)
  {
    var p := seq(|x|, c requires 0 <= c < |x| => Add(a, b)[c] * x[c]);
    var pa := seq(|x|, c requires 0 <= c < |x| => a[c] * x[c]);
    var pb := seq(|x|, c requires 0 <= c < |x| => b[c] * x[c]);
    forall c | 0 <= c < |x| ensures p[c] == Add(pa, pb)[c] {
      assert Add(a, b)[c] == a[c] + b[c];
      assert p[c] == Add(a, b)[c] * x[c];
      assert (a[c] + b[c]) * x[c] == a[c] * x[c] + b[c] * x[c];
    }
    assert p == Add(pa, pb);
    SumAdd(pa, pb);
  }

  lemma DotZeros(y: Vec)
    ensures Dot(Zeros(|y|), y) == 0.0 && Dot(y, Zeros(|y|)) == 0.0
  {
    assert seq(|y|, c requires 0 <= c < |y| => Zeros(|y|)[c] * y[c]) == Zeros(|y|);
    assert seq(|y|, c requires 0 <= c < |y| => y[c] * Zeros(|y|)[c]) == Zeros(|y|);
    SumZeros(|y|);
  }

  /** A scale factor moves freely between the two sides of a dot product. */
  lemma DotScale(s: real, a: Vec, b: Vec)
    requires |a| == |b|
    ensures Dot(Scale(s, a), b) == s * Dot(a, b) == Dot(a, Scale(s, b))
  {
    var p := seq(|a|, c requires 0 <= c < |a| => a[c] * b[c]);
    var pl := seq(|a|, c requires 0 <= c < |a| => Scale(s, a)[c] * b[c]);
    var pr := seq(|a|, c requires 0 <= c < |a| => a[c] * Scale(s, b)[c]);
    forall c | 0 <= c < |a| ensures pl[c] == Scale(s, p)[c] && pr[c] == Scale(s, p)[c] {
      assert Scale(s, a)[c] == s * a[c] && Scale(s, b)[c] == s * b[c];
      assert pl[c] == Scale(s, a)[c] * b[c];
      assert pr[c] == a[c] * Scale(s, b)[c];
      assert (s * a[c]) * b[c] == s * (a[c] * b[c]) == a[c] * (s * b[c]);
    }
    assert pl == Scale(s, p);
    assert pr == Scale(s, p);
    SumScale(s, p);
  }

  /** Adding `w` into a channel block of `z` adds the dot product of `w`
      with the same block of `y`. */
  lemma DotAddAt(y: Vec, z: Vec, offs: nat, w: Vec)
    requires |y| == |z| && offs + |w| <= |z|
    ensures |AddAt(z, offs, w)| == |z|
    ensures Dot(y, AddAt(z, offs, w)) == Dot(y, z) + Dot(y[offs..offs + |w|], w)
  {
    var n := |y|;
    var p := seq(n, c requires 0 <= c < n => y[c] * z[c]);
    var q := seq(n, c requires 0 <= c < n => if offs <= c < offs + |w| then y[c] * w[c - offs] else 0.0);
    DotAddAtTerms(y, z, offs, w, p, q);
    SumAdd(p, q);
    SumPadded(q, offs, seq(|w|, c requires 0 <= c < |w| => y[offs..offs + |w|][c] * w[c]));
  }

  /** The products behind `DotAddAt`, term by term. */
  lemma DotAddAtTerms(y: Vec, z: Vec, offs: nat, w: Vec, p: seq<real>, q: seq<real>)
    requires |y| == |z| && offs + |w| <= |z|
    requires p == seq(|y|, c requires 0 <= c < |y| => y[c] * z[c])
    requires q == seq(|y|, c requires 0 <= c < |y| => if offs <= c < offs + |w| then y[c] * w[c - offs] else 0.0)
    ensures seq(|y|, c requires 0 <= c < |y| => y[c] * AddAt(z, offs, w)[c]) == Add(p, q)
  {
    var z' := AddAt(z, offs, w);
    var p' := seq(|y|, c requires 0 <= c < |y| => y[c] * z'[c]);
    forall c | 0 <= c < |y| ensures p'[c] == Add(p, q)[c] {
      AddAtAt(z, offs, w, c);
      if offs <= c < offs + |w| {
        assert y[c] * z'[c] == y[c] * (z[c] + w[c - offs]) == y[c] * z[c] + y[c] * w[c - offs];
      }
    }
    assert p' == Add(p, q);
  }

  /** A sequence that is zero outside the window `offs .. offs+|blk|-1` and
      `blk` inside it sums to the sum of `blk`. */
  lemma SumPadded(q: seq<real>, offs: nat, blk: seq<real>)
    requires offs + |blk| <= |q|
    requires forall c | 0 <= c < |q| :: q[c] == if offs <= c < offs + |blk| then blk[c - offs] else 0.0
    ensures Sum(q) == Sum(blk)
  {
    var n := |q|;
    var q' := Zeros(offs) + blk + Zeros(n - offs - |blk|);
    forall c | 0 <= c < n ensures q[c] == q'[c] {
      if c < offs {
        assert q'[c] == (Zeros(offs) + blk)[c];
      } else if c < offs + |blk| {
        assert q'[c] == (Zeros(offs) + blk)[c] == blk[c - offs];
      } else {
        assert q'[c] == Zeros(n - offs - |blk|)[c - offs - |blk|];
      }
    }
    assert q == q';
    SumConcat(Zeros(offs) + blk, Zeros(n - offs - |blk|));
    SumConcat(Zeros(offs), blk);
    SumZeros(offs);
    SumZeros(n - offs - |blk|);
  }

  /** The dot product of a column sum with `x` is the inner product of the
      matrix with `x` repeated on every row. */
  lemma {:induction false} DotSumRows(m: Mat, n: nat, x: Vec)
    requires Width(m, n) && |x| == n
    ensures Dot(SumRows(m, n), x) == Inner(m, Repeat(x, |m|))
  {
    if m == [] {
      DotZeros(x);
    } else {
      var k := |m| - 1;
      DotSumRows(m[..k], n, x);
      DotAddLeft(SumRows(m[..k], n), m[k], x);
      var s := seq(|m|, j requires 0 <= j < |m| => Dot(m[j], Repeat(x, |m|)[j]));
      assert s[..k] == seq(k, j requires 0 <= j < k => Dot(m[..k][j], Repeat(x, k)[j]));
    }
  }

  /** Replacing one row of `M` changes the inner product with `Y` in that row only. */
  lemma InnerUpdate(Y: Mat, M: Mat, j: nat, r: Vec)
    requires |Y| == |M| && forall i | 0 <= i < |Y| :: |Y[i]| == |M[i]|
    requires j < |M| && |r| == |M[j]|
    ensures Inner(Y, M[j := r]) == Inner(Y, M) - Dot(Y[j], M[j]) + Dot(Y[j], r)
  {
    var s := seq(|Y|, i requires 0 <= i < |Y| => Dot(Y[i], M[i]));
    assert seq(|Y|, i requires 0 <= i < |Y| => Dot(Y[i], M[j := r][i])) == s[j := Dot(Y[j], r)];
    SumUpdate(s, j, Dot(Y[j], r));
  }

  lemma {:induction false} InnerZeros(Y: Mat, n: nat)
    requires Width(Y, n)
    ensures Inner(Y, Repeat(Zeros(n), |Y|)) == 0.0
  {
    var s := seq(|Y|, i requires 0 <= i < |Y| => Dot(Y[i], Repeat(Zeros(n), |Y|)[i]));
    forall i | 0 <= i < |Y| ensures s[i] == 0.0 { DotZeros(Y[i]); }
    assert s == Zeros(|Y|);
    SumZeros(|Y|);
  }

  lemma {:induction false} InnerSnoc(a: Mat, b: Mat, u: Vec, v: Vec)
    requires |a| == |b| && forall j | 0 <= j < |a| :: |a[j]| == |b[j]|
    requires |u| == |v|
    ensures Inner(a + [u], b + [v]) == Inner(a, b) + Dot(u, v)
  {
    var s := seq(|a| + 1, j requires 0 <= j < |a| + 1 => Dot((a + [u])[j], (b + [v])[j]));
    assert s[..|a|] == seq(|a|, j requires 0 <= j < |a| => Dot(a[j], b[j]));
  }

  // ---- Sequence shapes --------------------------------------------------------

  /** A prefix extended by the next element is the longer prefix. */
  lemma PrefixNext<T>(s: seq<T>, k: nat)
    requires k < |s|
    ensures s[..k + 1] == s[..k] + [s[k]]
  {
  }

  /** A non-empty sequence is its prefix followed by its last element. */
  lemma SplitLast<T>(s: seq<T>)
    requires |s| > 0
    ensures s == s[..|s| - 1] + [s[|s| - 1]]
  {
  }

  /** A window of a window is a window. */
  lemma SliceSlice<T>(s: seq<T>, a: nat, n: nat, o: nat, m: nat)
    requires a + n <= |s| && o + m <= n
    ensures s[a..a + n][o..o + m] == s[a + o..a + o + m]
  {
    var u, v := s[a..a + n][o..o + m], s[a + o..a + o + m];
    forall c | 0 <= c < m ensures u[c] == v[c] {
    }
  }

  /** A prefix of a concatenation that covers its first part. */
  lemma AppendPrefix<T>(a: seq<T>, b: seq<T>, k: nat)
    requires k < |b|
    ensures (a + b)[..|a| + k] == a + b[..k] && (a + b)[|a| + k] == b[k]
  {
  }

  /** A non-empty sequence is its first element followed by the rest. */
  lemma SplitFirst<T>(s: seq<T>)
    requires |s| > 0
    ensures s == [s[0]] + s[1..]
  {
  }
}
