/** A single order-0 Ptensor: one channel vector of length nc attached to an
    atom list of k atoms. Its reductions copy a channel block out; its
    broadcasts add a vector into a channel block in place. */
module Objects {
  import opened Dense

  class Ptensor0 {
    var k: nat
    var nc: nat
    var atoms: seq<nat>
    var data: array<real>

    /** The channel vector has nc entries and k counts the atoms. */
    ghost predicate Valid()
      reads this
    {
      data.Length == nc && k == |atoms|
    }

    // ---- Construction --------------------------------------------------------

    /** `zero(atoms, nc)`. */
    constructor Zero(atoms: seq<nat>, nc: nat)
      ensures Valid() && this.atoms == atoms && this.nc == nc && k == |atoms|
      ensures fresh(data) && data[..] == Zeros(nc)
    {
      this.atoms, this.nc, k := atoms, nc, |atoms|;
      data := new real[nc](_ => 0.0);
      new;
      assert data[..] == Zeros(nc);
    }

    /** `raw(atoms, nc)`: the channel values are unspecified. */
    constructor Raw(atoms: seq<nat>, nc: nat)
      ensures Valid() && this.atoms == atoms && this.nc == nc && k == |atoms|
      ensures fresh(data)
    {
      this.atoms, this.nc, k := atoms, nc, |atoms|;
      data := new real[nc];
    }

    /** `sequential(atoms, nc)`: channel c holds c. */
    constructor Sequential(atoms: seq<nat>, nc: nat)
      ensures Valid() && this.atoms == atoms && this.nc == nc && k == |atoms|
      ensures fresh(data) && forall c | 0 <= c < nc :: data[c] == c as real
    {
      this.atoms, this.nc, k := atoms, nc, |atoms|;
      data := new real[nc](c => c as real);
    }

    /** Copy constructor: the same atoms and a fresh copy of the channels. */
    constructor Copy(x: Ptensor0)
      requires x.Valid()
      ensures Valid() && atoms == x.atoms && k == x.k && nc == x.nc
      ensures fresh(data) && data[..] == x.data[..]
    {
      var a := new real[x.nc];
      for c := 0 to x.nc
        invariant a[..c] == x.data[..c]
      {
        a[c] := x.data[c];
      }
      assert a[..] == a[..x.nc] && x.data[..] == x.data[..x.nc];
      atoms, k, nc, data := x.atoms, x.k, x.nc, a;
    }

    // ---- Access --------------------------------------------------------------

    /** `get_nc()`: the length of the channel vector. */
    function GetNC(): (n: nat)
      reads this
      requires Valid()
      ensures n == nc
    {
      data.Length
    }

    /** `getk()` as evidently intended: the number of atoms, which the
        constructor stores in k. */
    function GetK(): (r: nat)
      reads this
      requires Valid()
      ensures r == |atoms|
    {
      k
    }

    /** `getk()` as written: the first dimension of the underlying tensor,
        which has the single dimension nc. */
    function GetKAsWritten(): (r: nat)
      reads this
      requires Valid()
      ensures r == nc && (nc != |atoms| ==> r != GetK())
    {
      Dims(data.Length)[0]
    }

    /** `view(offs, n)`: channels `offs .. offs+n-1`. */
    function View(offs: nat, n: nat): (v: Vec)
      reads this, data
      requires Valid() && offs + n <= nc
      ensures |v| == n && forall c | 0 <= c < n :: v[c] == data[offs + c]
    {
      data[offs..offs + n]
    }

    // ---- Reductions ----------------------------------------------------------

    /** `reduce0()`: a zero vector of nc channels with the whole view added,
        that is a copy of every channel. */
    function Reduce0(): (r: Vec)
      reads this, data
      requires Valid()
      ensures r == data[..]
    {
      AddZerosLeft(View(0, nc));
      Add(Zeros(nc), View(0, nc))
    }

    /** `reduce0(offs, n)`: a copy of channels `offs .. offs+n-1`. */
    function Reduce0Block(offs: nat, n: nat): (r: Vec)
      reads this, data
      requires Valid() && offs + n <= nc
      ensures r == data[offs..offs + n]
    {
      AddZerosLeft(View(offs, n));
      Add(Zeros(n), View(offs, n))
    }

    /** `reduce0(ix)`: only a single position is accepted, and the result is
        that of `reduce0()`. */
    function Reduce0Indexed(ix: seq<nat>): (r: Vec)
      reads this, data
      requires Valid() && |ix| == 1
      ensures r == data[..]
    {
      Reduce0()
    }

    /** `reduce0(ix, offs, n)`: only a single position is accepted, and the
        result is that of `reduce0(offs, n)`. */
    function Reduce0IndexedBlock(ix: seq<nat>, offs: nat, n: nat): (r: Vec)
      reads this, data
      requires Valid() && |ix| == 1 && offs + n <= nc
      ensures r == data[offs..offs + n]
    {
      Reduce0Block(offs, n)
    }

    // ---- Broadcasts ----------------------------------------------------------

    /** `view(offs, |x|) += x`, one channel at a time. */
    method AddInto(offs: nat, x: Vec)
      requires Valid() && offs + |x| <= nc
      modifies data
      ensures data[..] == AddAt(old(data[..]), offs, x)
    {
      ghost var D := data[..];
      AddAtNone(D, offs, x);
      for c := 0 to |x|
        invariant data[..] == AddAt(D, offs, x[..c])
      {
        AddAtNext(D, offs, x, c);
        data[offs + c] := data[offs + c] + x[c];
      }
      assert x[..|x|] == x;
    }

    /** `broadcast0(x)`: x added into channels `0 .. |x|-1`. */
    method Broadcast0(x: Vec)
      requires Valid() && |x| <= nc
      modifies data
      ensures data[..] == AddAt(old(data[..]), 0, x)
    {
      AddInto(0, x);
    }

    /** `broadcast0(x, offs)`: x added into channels `offs .. offs+|x|-1`;
        the number of channels written is returned. */
    method Broadcast0At(x: Vec, offs: nat) returns (n: nat)
      requires Valid() && offs + |x| <= nc
      modifies data
      ensures data[..] == AddAt(old(data[..]), offs, x) && n == |x|
    {
      AddInto(offs, x);
      n := |x|;
    }

    /** `broadcast0(x, ix)`: only a single position is accepted; then as
        `broadcast0(x)`. */
    method Broadcast0Indexed(x: Vec, ix: seq<nat>)
      requires Valid() && |ix| == 1 && |x| <= nc
      modifies data
      ensures data[..] == AddAt(old(data[..]), 0, x)
    {
      Broadcast0(x);
    }

    /** `broadcast0(x, ix, offs)`: only a single position is accepted; then
        as `broadcast0(x, offs)`. */
    method Broadcast0IndexedAt(x: Vec, ix: seq<nat>, offs: nat)
      requires Valid() && |ix| == 1 && offs + |x| <= nc
      modifies data
      ensures data[..] == AddAt(old(data[..]), offs, x)
    {
      var n := Broadcast0At(x, offs);
    }

    // ---- Linmaps -------------------------------------------------------------

    /** `add_linmaps(x, offs)`: x's channels added into channels
        `offs .. offs+x.nc-1`, which is `broadcast0(x, offs)`. */
    method AddLinmaps(x: Ptensor0, offs: nat)
      requires Valid() && x.Valid() && offs + x.nc <= nc
      modifies data
      ensures data[..] == AddAt(old(data[..]), offs, old(x.data[..]))
    {
      var v := x.data[..];
      var n := Broadcast0At(v, offs);
    }

    /** `add_linmaps_back(x, offs)`: channels `offs .. offs+nc-1` of x added
        into all nc channels, which is `broadcast0(x.reduce0(offs, nc))`. */
    method AddLinmapsBack(x: Ptensor0, offs: nat)
      requires Valid() && x.Valid() && offs + nc <= x.nc
      modifies data
      ensures data[..] == Add(old(data[..]), old(x.data[offs..offs + nc]))
    {
      var v := x.Reduce0Block(offs, nc);
      AddAtWhole(data[..], v);
      Broadcast0(v);
    }
  }

  /** The shape of the tensor a `Ptensor0` allocates: one dimension, of
      length nc. */
  function Dims(nc: nat): (d: seq<nat>)
    ensures |d| == 1 && d[0] == nc
  {
    [nc]
  }

  /** On a fresh `zero([7], 3)`, `getk()` as written answers 3 where the
      tensor has one atom. */
  method GetKCounterexample() returns (asWritten: nat, intended: nat)
    ensures asWritten == 3 && intended == 1
  {
    var p := new Ptensor0.Zero([7], 3);
    asWritten := p.GetKAsWritten();
    intended := p.GetK();
  }

  /** `broadcast0(x, offs)` into a zero tensor followed by
      `reduce0(offs, |x|)` gives x back. */
  lemma BroadcastReduceRoundTrip(nc: nat, offs: nat, x: Vec)
    requires offs + |x| <= nc
    ensures AddAt(Zeros(nc), offs, x)[offs..offs + |x|] == x
  {
    var r := AddAt(Zeros(nc), offs, x)[offs..offs + |x|];
    forall c | 0 <= c < |x| ensures r[c] == x[c] {
      AddAtAt(Zeros(nc), offs, x, offs + c);
    }
  }

  /** `add_linmaps_back` is the adjoint of `add_linmaps`: what adding x at
      offs into z adds to the pairing with y equals what adding y's block at
      offs into w adds to the pairing with x. */
  lemma LinmapsAdjoint(y: Vec, z: Vec, w: Vec, offs: nat, x: Vec)
    requires |y| == |z| && offs + |x| <= |z| && |w| == |x|
    ensures Dot(y, AddAt(z, offs, x)) - Dot(y, z) == Dot(Add(w, y[offs..offs + |x|]), x) - Dot(w, x)
  {
    DotAddAt(y, z, offs, x);
    DotAddLeft(w, y[offs..offs + |x|], x);
  }

  /** Adding a vector to zeros gives the vector. */
  lemma AddZerosLeft(v: Vec)
    ensures Add(Zeros(|v|), v) == v
  {
    assert forall c | 0 <= c < |v| :: Add(Zeros(|v|), v)[c] == v[c];
  }

  /** Adding nothing changes nothing. */
  lemma AddAtNone(v: Vec, offs: nat, x: Vec)
    requires offs + |x| <= |v|
    ensures AddAt(v, offs, x[..0]) == v
  {
    forall c | 0 <= c < |v| ensures AddAt(v, offs, x[..0])[c] == v[c] {
      AddAtAt(v, offs, x[..0], c);
    }
  }

  /** Adding one more channel of x is one more single-channel increment. */
  lemma AddAtNext(v: Vec, offs: nat, x: Vec, c: nat)
    requires offs + |x| <= |v| && c < |x|
    ensures
      var a := AddAt(v, offs, x[..c]);
      AddAt(v, offs, x[..c + 1]) == a[offs + c := a[offs + c] + x[c]]
  {
    var a, b := AddAt(v, offs, x[..c]), AddAt(v, offs, x[..c + 1]);
    forall i | 0 <= i < |v| ensures b[i] == a[offs + c := a[offs + c] + x[c]][i] {
      AddAtAt(v, offs, x[..c], i);
      AddAtAt(v, offs, x[..c + 1], i);
    }
  }

  /** A block add over every channel is the element-wise sum. */
  lemma AddAtWhole(v: Vec, x: Vec)
    requires |x| == |v|
    ensures AddAt(v, 0, x) == Add(v, x)
  {
    forall c | 0 <= c < |v| ensures AddAt(v, 0, x)[c] == Add(v, x)[c] {
      AddAtAt(v, 0, x, c);
    }
  }
}
