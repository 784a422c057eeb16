/** The correspondence lists (AindexPack) that route values between the
    entries of a reduction result and rows of the items of a pack. */
module Aindex {

  /** Entry e of a list: the target item `tens(e)` and the ordered row
      positions `ix(e)` inside it; `nix(e)` is `|ix|`. A position may repeat. */
  datatype Entry = Entry(tens: nat, ix: seq<nat>)

  /** The entry names an existing item and only rows that item has. */
  ghost predicate InRange(e: Entry, sizes: seq<nat>)
  {
    e.tens < |sizes| && forall t | 0 <= t < |e.ix| :: e.ix[t] < sizes[e.tens]
  }

  /** Every entry of the list is in range. */
  ghost predicate Targets(list: seq<Entry>, sizes: seq<nat>)
  {
    forall e | 0 <= e < |list| :: InRange(list[e], sizes)
  }

  /** The positions 0 .. k-1: the rows of a whole item, in order. */
  function Range(k: nat): (r: seq<nat>)
    ensures |r| == k && forall t | 0 <= t < k :: r[t] == t
  {
    seq(k, t => t)
  }

  /** Number of occurrences of j in ix. */
  function Count(ix: seq<nat>, j: nat): nat
  {
    if ix == [] then 0 else Count(ix[..|ix| - 1], j) + (if ix[|ix| - 1] == j then 1 else 0)
  }
}
