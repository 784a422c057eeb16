# Ptensors1 and Ptensor0 in Dafny

A model of two containers from the ptens library for permutation-equivariant
tensors on graphs.

**`Ptensors1`: a pack of order-1 P-tensors.** Item i is a `k_i x nc` matrix, with one
row for each atom of its atom list and one column for each channel. All items
sit one after another in a single flat buffer. A directory row
`(offset_i, k_i, nc)` locates each item, and element (item i, row j,
channel c) lives at `offset_i + j*nc + c`. Two families of operations work on this layout:

- *Reductions* copy data out into a fresh result: `reduce0` sums over rows, `reduce0_n` averages over them, and `reduce1` copies a channel block.
- *Broadcasts* add a result back in place: `broadcast0`, `broadcast0_n` and `broadcast1`.

Each family has a plain form, a channel-offset form and an indexed form. The indexed form
walks an `AindexPack` list whose entry e names a target item `tens(e)` and an
ordered list of row positions `ix(e)`.

**`Ptensor0`: a single order-0 P-tensor.** It is one channel vector of length nc with an atom
list attached. Its reductions copy a channel block out, and its broadcasts add a vector into a
channel block in place.

The project has these modules:

- `Dense`: vectors and matrices over `real`, element-wise sums, block additions, column sums and inner products, with their algebra.
- `Aindex`: the entries of an `AindexPack`.
- `Ragged`: the directory and the flat buffer. `Unpack` reads the items out of a buffer, and there are lemmas on how a write at a buffer address changes them.
- `Linmaps1`: what each reduction and broadcast computes, stated on the items. It also holds the laws that tie them together: column sums, which cells change, empty entries, order of entries, and adjointness.
- `Layers`: the class `Ptensors1`. Its fields are the atom lists, the channel count, the directory, the tail and the buffer. Its methods run the loops of the CPU code, and each is proved against the matching `Linmaps1` function.
- `Objects`: the class `Ptensor0`. Its channel vector is an `array<real>`, and its broadcasts update that array in place.

## Model

| member | source | states |
|---|---|---|
| Layers.LayOut | layers/Ptensors1.hpp:139-149 | The loop over the items with a running tail yields exactly `Directory(sizes, nc)`. The final tail is the total atom count times nc. |
| Ragged.DirectoryLayout | layers/Ptensors1.hpp:139-149 | Header i is `(offset_i, k_i, nc)`. `offset_0 = 0` and `offset_{i+1} = offset_i + k_i*nc`. The buffer ends at (total atom count) x nc. |
| Ragged.Unpack | layers/Ptensors1.hpp:326-332 | The items of a buffer laid out by the directory: item i has k_i rows of nc channels each. |
| Ragged.UnpackSlice | layers/Ptensors1.hpp:330-346 | The buffer cells from `offset_i + j*nc + offs` on, n of them, are channels `offs..offs+n-1` of row j of item i. |
| Ragged.UnpackAddAt | layers/Ptensors1.hpp:340-346 | `+=` at buffer address `offset_i + j*nc + offs` adds into exactly that channel block of row j of item i. Every other row of every item is unchanged. |
| Ragged.UnpackZeros | layers/Ptensors1.hpp:139-149 | An all-zero buffer holds all-zero items. |
| Layers.Ptensors1.Zero | layers/Ptensors1.hpp:139-149 | `zero(atoms, nc)`: the directory of `LayOut`, these atoms and this nc, and every item all zero. |
| Layers.Ptensors1.Raw | layers/Ptensors1.hpp:127-137 | `raw(atoms, nc)`: the same layout; the contents are left unconstrained. |
| Layers.Ptensors1.Empty | layers/Ptensors1.hpp:77-78 | `Ptensors1(nc)`: no items, and the channel count given. |
| Layers.Ptensors1.Sequential | layers/Ptensors1.hpp:118-125 | `sequential`: the `raw` layout, with every row of item i equal to the constant vector i. |
| Layers.Ptensors1.FillSequential | layers/Ptensors1.hpp:120-121 | `view2_of(i).set(i)` for every i. The layout and atoms are kept, and item i becomes k_i rows of the constant i. |
| Layers.SequentialStep | layers/Ptensors1.hpp:120-121 | Writing one more constant row keeps the finished items and extends item i's constant prefix by one row. |
| Layers.Ptensors1.Copy | layers/Ptensors1.hpp:195-200 | The copy has the same atoms, channel count, buffer and items. |
| Layers.Ptensors1.GetN | layers/Ptensors1.hpp:291-293 | `getn()` is the number of items, which is also the number of atom lists. |
| Layers.Ptensors1.KOf | layers/Ptensors1.hpp:314-316 | `k_of(i)` (the directory's row count) equals the size of atom list i and the height of item i. |
| Layers.Ptensors1.AddIntoRows | layers/Ptensors1.hpp:340-346 | `view_of(i, ix, offs, n) += m`: the items afterwards are the old items with `AddRows` applied to item i only. |
| Layers.Ptensors1.SumRowsOf | layers/Ptensors1.hpp:340-346 | `view_of(i, ix, offs, n).sum0_into(v)` on a zero v gives the column sums of the named rows' block. |
| Layers.Ptensors1.RowsOf | layers/Ptensors1.hpp:340-346 | `R += view_of(i, ix, offs, n)` on a zero R gives the named rows' channel block, in order. |
| Layers.Ptensors1.Reduce0 | layers/Ptensors1.hpp:466-475 | `reduce0()` is, per item, the column sums over all nc channels (`Linmaps1.Reduce0` at offset 0). |
| Layers.Ptensors1.Reduce0N | layers/Ptensors1.hpp:477-486 | `reduce0_n()` is, per item, the column means (`Linmaps1.Reduce0N`). |
| Layers.Ptensors1.Reduce0Block | layers/Ptensors1.hpp:488-497 | `reduce0(offs, n)` is, per item, the column sums of its channel block. |
| Layers.Ptensors1.Reduce1 | layers/Ptensors1.hpp:499-502 | `reduce1()` returns the pack's own items, which equal the full-width `Linmaps1.Reduce1`. |
| Layers.Ptensors1.Reduce1Block | layers/Ptensors1.hpp:504-518 | `reduce1(offs, n)` is, per item, its channel block. |
| Layers.Ptensors1.SumEntries | layers/Ptensors1.hpp:595-607 | The indexed column-sum loop: per entry, the `Linmaps1.IReduce0` value. |
| Layers.Ptensors1.Reduce0Indexed | layers/Ptensors1.hpp:523-535 | `reduce0(list)`: per entry, the column sums of the named rows of the named item, over all channels. |
| Layers.Ptensors1.Reduce0IndexedBlock | layers/Ptensors1.hpp:595-607 | `reduce0(list, offs, n)`: the same, restricted to the channel block. |
| Layers.Ptensors1.Broadcast0Back | layers/Ptensors1.hpp:699-711 | `broadcast0_back(list, offs, n)` computes exactly indexed `reduce0(list, offs, n)`. |
| Layers.Ptensors1.Reduce0NIndexed | layers/Ptensors1.hpp:580-592 | `reduce0_n(list)`: per entry, the column means of the named rows, and zero for an entry with no positions. |
| Layers.Ptensors1.RowsOfEntries | layers/Ptensors1.hpp:610-623 | The indexed row-copy loop: per entry, the named rows' channel block (`Linmaps1.IReduce1`). |
| Layers.Ptensors1.Reduce1Indexed | layers/Ptensors1.hpp:548-563 | `reduce1(list)`: per entry, the named rows in order, at full width. |
| Layers.Ptensors1.Reduce1IndexedBlock | layers/Ptensors1.hpp:610-623 | `reduce1(list, offs, n)`: per entry, the named rows' channel block. |
| Layers.Ptensors1.Broadcast1Back | layers/Ptensors1.hpp:726-740 | `broadcast1_back(list, offs, n)` computes exactly indexed `reduce1(list, offs, n)`. |
| Layers.Ptensors1.Broadcast1Block | layers/Ptensors1.hpp:672-682 | `broadcast1(x, offs)`: the items become `Linmaps1.Broadcast1(old items, x, offs)`. Atoms, nc and the layout are kept. |
| Layers.Ptensors1.Broadcast1 | layers/Ptensors1.hpp:662-670 | `broadcast1(x)`: the same update at offset 0. |
| Layers.Ptensors1.Broadcast0Block | layers/Ptensors1.hpp:651-660 | `broadcast0(x, offs)`: the items become `Linmaps1.Broadcast0(old items, x, offs)`. Atoms, nc and the layout are kept. |
| Layers.Ptensors1.Broadcast0 | layers/Ptensors1.hpp:631-639 | `broadcast0(x)`: the same update at offset 0. |
| Layers.Ptensors1.Broadcast0N | layers/Ptensors1.hpp:641-649 | `broadcast0_n(x)`: x_i / k_i is added into every row of item i. |
| Layers.Ptensors1.AddToChannels | layers/Ptensors1.hpp:407-413 | `add_to_channels(x, offs)`: x's rows are added into the channel block at offs of the same rows. The source requires the same item count; the model also requires equal per-item heights (atom counts). |
| Layers.Ptensors1.AddChannels | layers/Ptensors1.hpp:415-421 | `add_channels(x, offs)`: channels `offs..offs+nc-1` of x's rows are added into the rows. |
| Layers.Ptensors1.AddEntries | layers/Ptensors1.hpp:687-697 | The entry loop of the indexed broadcasts yields `Linmaps1.Scatter` of the old items. |
| Layers.Ptensors1.Broadcast0Indexed | layers/Ptensors1.hpp:687-697 | `broadcast0(x, list, offs)`: `repeat0(x_e, nix(e))` is scattered into the named rows, entry by entry. |
| Layers.Ptensors1.Reduce0Back | layers/Ptensors1.hpp:537-545 | `reduce0_back(x, list)` performs the same update as offset-free indexed `broadcast0`. |
| Layers.Ptensors1.Broadcast0IndexedFull | layers/Ptensors1.hpp:755-764 | Deprecated `broadcast0(x, list)`: the same update as `reduce0_back`. |
| Layers.Ptensors1.Broadcast0NIndexed | layers/Ptensors1.hpp:745-753 | `broadcast0_n(x, list)`: x_e / nix(e) is added into each named row. An entry with no positions changes nothing. |
| Layers.Ptensors1.Broadcast1Indexed | layers/Ptensors1.hpp:713-724 | `broadcast1(x, list, offs)`: row t of x_e is added into the block of row `ix(e)[t]`; an entry whose x_e has no rows is skipped whatever positions it names, so the result is `Linmaps1.Scatter` over `Linmaps1.Live(list, x)`. |
| Layers.Ptensors1.AddRowsSkipping | layers/Ptensors1.hpp:718-721 | The entry loop: entries with an empty x_e are passed over, the rest added in; the result is `Linmaps1.Scatter` of the old items. |
| Layers.Ptensors1.AddRowsOrSkip | layers/Ptensors1.hpp:719-720 | One entry: an x_e with no rows (and so an entry with no positions) is skipped, otherwise its rows are added in; either way the item gains `Linmaps1.AddRows` and nothing else changes. |
| Layers.Ptensors1.Broadcast1IndexedFull | layers/Ptensors1.hpp:766-778 | Deprecated `broadcast1(x, list)`: the same update at offset 0, with x's rows nc wide, skipping entries whose x_e has no rows. |
| Layers.Ptensors1.Reduce1Back | layers/Ptensors1.hpp:565-576 | `reduce1_back(x, list)` performs the same update as offset-free indexed `broadcast1`, with x's rows nc wide, skipping entries whose x_e has no rows. |
| Layers.Ptensors1.PushBack | layers/Ptensors1.hpp:360-366 | An empty pack adopts p's nc; otherwise nc must match. p's atoms and matrix are appended. The returned index is the old size, which is `size()-1`. |
| Layers.PushStep | layers/Ptensors1.hpp:360-366 | The appended header starts at the old tail, the tail grows by `k*nc`, and the old items are unchanged. |
| Ragged.DirectorySnoc | layers/Ptensors1.hpp:360-366 | Appending an item appends one header, placed at the old tail. |
| Ragged.UnpackAppend | layers/Ptensors1.hpp:360-366 | Appending a flattened matrix to the buffer appends it as a new item and keeps the old items. |
| Layers.Ptensors1.Concat | layers/Ptensors1.hpp:184-189 | `concat(x, y)` has x's atoms and `nc = x.nc + y.nc`. Every row is x's row followed by y's row. |
| Layers.Ptensors1.JoinRows | layers/Ptensors1.hpp:186-187 | The two `add_to_channels` calls on a zero pack give the joined rows. |
| Linmaps1.ConcatChannels | layers/Ptensors1.hpp:184-189 | On a zero pack, x added at channel 0 and then y at channel x.nc gives `Joined(x, y)`. Channels below x.nc are x's, and the rest are y's. |
| Layers.Ptensors1.Sum | layers/Ptensors1.hpp:395-401 | An empty list gives an empty pack. Otherwise the result has the first pack's atoms and nc, and its items are the item-wise sum of all packs. |
| Layers.Ptensors1.AddAll | layers/Ptensors1.hpp:397-399 | Starting from the first buffer and adding the others gives `PackSum` of all the packs' items. |
| Layers.Ptensors1.AddBuffers | layers/Ptensors1.hpp:398-399 | The loop of `R.add(list[i])`, the element-wise buffer-wide add, leaves the buffer equal to the left-to-right sum of the buffers. |
| Layers.UnpackVecSum | layers/Ptensors1.hpp:395-401 | The items of a sum of buffers are the sum of each buffer's items. |
| Layers.Ptensors1.Cat | layers/Ptensors1.hpp:385-393 | `cat(list)`: the atom lists and the items of all packs, concatenated in order; the channel count is the first pack's (0 for an empty list). |
| Layers.Ptensors1.AppendItems | layers/Ptensors1.hpp:385-393 | Appends items and atom lists one `push_back` at a time. |
| Layers.Ptensors1.AppendAll | layers/Ptensors1.hpp:385-393 | Appends pack after pack. The atoms become old atoms + `Join(Q)`, and the items old items + `Join(P)`. |
| Layers.Reduce0At | layers/Ptensors1.hpp:488-497 | The column sums over every row of item i's block are entry i of `Reduce0`. |
| Layers.Reduce0NAt | layers/Ptensors1.hpp:477-486 | Entry i of `reduce0_n` is entry i of `reduce0` divided by k_i, and zero when item i has no atoms. |
| Linmaps1.Reduce0Columns | layers/Ptensors1.hpp:466-497 | Entry (i, c) of `reduce0(offs, n)` is the sum over item i's rows of channel offs + c. |
| Linmaps1.Reduce0NMean | layers/Ptensors1.hpp:477-486 | `reduce0_n()` is `reduce0()` divided by k_i for each item with atoms. |
| Linmaps1.IReduce0 | layers/Ptensors1.hpp:523-535 | One vector of width n per entry. An entry with no positions gives zeros. |
| Linmaps1.IReduce0Columns | layers/Ptensors1.hpp:523-535 | Entry (e, c) of indexed `reduce0` is the sum of channel offs + c over the rows `ix(e)` of item `tens(e)`. |
| Linmaps1.IReduce1 | layers/Ptensors1.hpp:548-563 | One block per entry, with as many rows as the entry has positions. |
| Linmaps1.Broadcast0Cell | layers/Ptensors1.hpp:651-660 | `broadcast0(x, offs)` adds `x_i[c-offs]` to channel c of every row of item i when `offs <= c < offs+|x_i|`. It adds nothing to any other channel. |
| Linmaps1.Broadcast0NCell | layers/Ptensors1.hpp:641-649 | `broadcast0_n(x)` adds `x_i[c] / k_i` to channel c of every row of item i when `c < |x_i|`, and nothing elsewhere. |
| Linmaps1.Broadcast1Cell | layers/Ptensors1.hpp:672-682 | `broadcast1(x, offs)` adds `x_i[j][c-offs]` to channel c of row j of item i inside the block, and nothing outside it. |
| Linmaps1.AddChannelsCell | layers/Ptensors1.hpp:415-421 | `add_channels(x, offs)` adds channel offs + c of x's row to channel c. |
| Linmaps1.AddRowsRange | layers/Ptensors1.hpp:631-639 | Adding at positions 0..k-1 in turn is the whole-item block addition. This is the plain broadcasts' `view_of(i) +=`. |
| Linmaps1.AddRowsCell | layers/Ptensors1.hpp:340-346 | After `view_of(i, ix, offs, n) += m`, channel c of row j has gained the sum of the `m[t]` with `ix[t] == j`. Channels outside the block are unchanged. |
| Linmaps1.ScatterCell | layers/Ptensors1.hpp:687-697 | After an indexed broadcast, cell (i, j, c) has gained the sum of what every entry naming row j of item i carries. Nothing changes outside the block. |
| Linmaps1.ScatterUntouched | layers/Ptensors1.hpp:687-697 | Rows that no entry names are unchanged. |
| Linmaps1.RowIncomingRepeat | layers/Ptensors1.hpp:694 | Under `repeat0(x_e, nix(e))`, a row named m times receives m copies of x_e. |
| Linmaps1.Live | layers/Ptensors1.hpp:719 | The entries the indexed loops act on: same length and targets; an entry with an empty x_e loses its positions; every other entry is unchanged. |
| Linmaps1.LiveFeeds | layers/Ptensors1.hpp:713-724 | When every x_e is empty or matches its entry's positions, the live entries stay in range and feed x. |
| Linmaps1.LiveAll | layers/Ptensors1.hpp:719 | When no x_e is empty, nothing is skipped: `Live(list, x) == list`. |
| Layers.SkipEntry | layers/Ptensors1.hpp:719 | A skipped entry (no positions, no rows) leaves the items unchanged. |
| Linmaps1.ScatterEmptyEntry | layers/Ptensors1.hpp:687-697 | An entry with no positions leaves an indexed broadcast unchanged. |
| Linmaps1.ScatterAppend | layers/Ptensors1.hpp:687-697 | Scattering `l1 + l2` is scattering l1, then l2. Entries naming the same item accumulate. |
| Linmaps1.InnerAddBlock | layers/Ptensors1.hpp:651-660 | Item level: `<Y, Z + block(m)> = <Y, Z> + <block of Y, m>`. |
| Linmaps1.InnerAddRows | layers/Ptensors1.hpp:340-346 | `<Y, AddRows(Z, ix, m)> = <Y, Z> + <rows ix of Y's block, m>`. |
| Linmaps1.Broadcast1Adjoint | layers/Ptensors1.hpp:672-682 | `<Y, broadcast1(x, offs) Z> = <Y, Z> + <reduce1(offs, n) Y, x>`. |
| Linmaps1.Broadcast0Adjoint | layers/Ptensors1.hpp:651-660 | `<Y, broadcast0(x, offs) Z> = <Y, Z> + sum_i <reduce0(offs, n)(Y)_i, x_i>`. |
| Linmaps1.Broadcast0NAdjoint | layers/Ptensors1.hpp:641-649 | `broadcast0_n` is the adjoint of `reduce0_n`. |
| Linmaps1.ScatterAdjoint | layers/Ptensors1.hpp:713-740 | `<Y, Scatter(Z, list, ms)> = <Y, Z> + <reduce1(list, offs, n) Y, ms>`. |
| Linmaps1.IBroadcast0Adjoint | layers/Ptensors1.hpp:687-711 | `<Y, broadcast0(x, list, offs) Z> = <Y, Z> + sum_e <reduce0(list, offs, n)(Y)_e, x_e>`. |
| Linmaps1.IBroadcast0NAdjoint | layers/Ptensors1.hpp:745-753 | Indexed `broadcast0_n` is the adjoint of indexed `reduce0_n`. |
| Linmaps1.IReduce0Pairs | layers/Ptensors1.hpp:699-711 | Pairing `reduce1(list)` with `repeat0` copies of x is pairing `reduce0(list)` with x. |
| Linmaps1.IReduce0NPairs | layers/Ptensors1.hpp:580-592 | The same identity for the means and the scaled copies. |
| Objects.Ptensor0.Zero | objects/Ptensor0.hpp:41-64 | `k = |atoms|`, `nc` as given, and a fresh all-zero vector of nc channels. |
| Objects.Ptensor0.Raw | objects/Ptensor0.hpp:60-61 | The same fields, with unspecified channel values. |
| Objects.Ptensor0.Sequential | objects/Ptensor0.hpp:72-73 | Channel c holds c. |
| Objects.Ptensor0.Copy | objects/Ptensor0.hpp:79-83 | Same atoms, k and nc, and a fresh array with equal contents. |
| Objects.Ptensor0.GetNC | objects/Ptensor0.hpp:119-121 | `get_nc()` is nc. |
| Objects.Ptensor0.GetK | objects/Ptensor0.hpp:115-117 | The atom count. This is the corrected `getk()`; see Findings. |
| Objects.Ptensor0.GetKAsWritten | objects/Ptensor0.hpp:115-117 | `getk()` as written returns nc, which differs from the atom count whenever nc ≠ k. |
| Objects.Dims | objects/Ptensor0.hpp:41-46 | The tensor has the single dimension nc. |
| Objects.GetKCounterexample | objects/Ptensor0.hpp:115-117 | On `zero([7], 3)`, `getk()` as written gives 3 while the atom count is 1. |
| Objects.Ptensor0.View | objects/Ptensor0.hpp:136-143 | Under `offs + n <= nc`, `view(offs, n)` has n entries, entry c being channel offs + c. |
| Objects.Ptensor0.Reduce0 | objects/Ptensor0.hpp:165-169 | `reduce0()` equals the whole channel vector. |
| Objects.Ptensor0.Reduce0Block | objects/Ptensor0.hpp:171-175 | `reduce0(offs, n)` equals channels `offs..offs+n-1`. |
| Objects.Ptensor0.Reduce0Indexed | objects/Ptensor0.hpp:177-182 | With `ix.size()==1`, the same as `reduce0()`. |
| Objects.Ptensor0.Reduce0IndexedBlock | objects/Ptensor0.hpp:184-189 | With `ix.size()==1`, the same as `reduce0(offs, n)`. |
| Objects.Ptensor0.AddInto | objects/Ptensor0.hpp:199-202 | `view(offs, |x|) += x`: the array becomes `AddAt(old, offs, x)`, which adds into channels `offs..offs+|x|-1` only. |
| Objects.Ptensor0.Broadcast0 | objects/Ptensor0.hpp:195-197 | `broadcast0(x)` adds x at channel 0. |
| Objects.Ptensor0.Broadcast0At | objects/Ptensor0.hpp:199-202 | `broadcast0(x, offs)` adds x at offs and returns `|x|`. |
| Objects.Ptensor0.Broadcast0Indexed | objects/Ptensor0.hpp:204-207 | With `ix.size()==1`, the same as `broadcast0(x)`. |
| Objects.Ptensor0.Broadcast0IndexedAt | objects/Ptensor0.hpp:209-212 | With `ix.size()==1`, the same as `broadcast0(x, offs)`. |
| Objects.Ptensor0.AddLinmaps | objects/Ptensor0.hpp:150-153 | Under `offs + x.nc <= nc`, x's channels are added at offs, as by `broadcast0(x, offs)`. |
| Objects.Ptensor0.AddLinmapsBack | objects/Ptensor0.hpp:155-158 | Under `offs + nc <= x.nc`, channels `offs..offs+nc-1` of x are added into all nc channels. |
| Objects.BroadcastReduceRoundTrip | objects/Ptensor0.hpp:171-202 | On a zero tensor, `broadcast0(x, offs)` followed by `reduce0(offs, |x|)` gives x back. |
| Objects.LinmapsAdjoint | objects/Ptensor0.hpp:150-158 | `add_linmaps_back` is the adjoint of `add_linmaps` with respect to the dot product. |

## Left out

- Device code: the CUDA kernels, `GPUCODE` streams and `to_device`/device-copy constructors are not modelled. Only the `dev==0` loops are.
- `TimedFn` timing, `str`/`repr`/`classname` and stream output are not modelled. They carry no checkable logic.
- Entries are `real`, not `float`. Rounding is not modelled.
- `gaussian`/`randn` fills and the `*_like` spawners are left out. They are random or delegate to `RtensorPackB`, which is not part of this model.
- `permute`, `for_each_view`, `view3`, `operator()`, `tensor_of`, `atoms_of` and `add_mprod*`/`scale_channels` are not modelled. They delegate to `AtomsPack`, `RtensorPackB` or cnine code that is not part of this model.
- Layers.Ptensors1.Cat: `RtensorPackB::cat` and `AtomsPack::cat` are not part of this model. The model appends the items of every pack in order, as repeated `push_back` does, and states the result through `old()` snapshots of the list.
- Layers.Ptensors1.Sum: the buffer-wide `RtensorPackB::add` is not part of this model. It is modelled as element-wise addition of same-layout buffers, and every pack must have the first pack's atom counts and nc.
- Layers.Ptensors1.Sequential: `AtomsPack(n, k)` is not part of this model, so the atom lists are a parameter of any sizes. The `sequential(atoms, nc)` overload fills through `Ptensor1::sequential`, which is not part of this model either.
- Layers.Ptensors1.Raw: the model initialises the buffer to zeros but promises nothing about its contents, since the source reserves unspecified memory.
- Linmaps1.Reduce0N: an item with no atoms gives zeros. The source's `avg0_into` over zero rows is cnine code that is not part of this model.
- Layers.Ptensors1.Broadcast0NIndexed: an entry with no positions is a no-op. The source computes `1.0/0` there but then adds an empty repeat, which changes nothing.
- Layers.Ptensors1.AddToChannels: when x is this pack, `offs + nc <= nc` forces offs to 0. The model reads x's items before the update, so the block is doubled, as the source's element-wise `+=` does. `AddChannels` likewise.
- Objects.Ptensor0.Raw: the default argument `nc = 1` is not modelled; callers pass nc explicitly. The same holds for `Objects.Ptensor0.Zero`.
- Objects.Ptensor0.AddLinmaps: the default argument `offs = 0` is not modelled; callers pass offs explicitly. The same holds for `Objects.Ptensor0.AddLinmapsBack`.
- Objects.Ptensor0.AddLinmaps: when x is this tensor, the bound `offs + nc <= nc` forces offs to 0. The model reads x's channels before the update, as the source's sequential `+=` does channel by channel.
- `Ptensor0::at_`/`inc_` and the conversion constructor from a tensor are not modelled. Neither are the private deprecated `broadcast0` view overloads, because they are not public operations.
- The `diff_class` gradient companion and the `WITH_FAKE_GRAD` destructor are left out. Their owning code is not part of this model.
- The Python layers and bindings, and the Ptensor1 test driver, are not modelled. They only forward to the native calls.

## Findings

| source | as written | input that shows it | evidently intended | confidence | as-written member | corrected member |
|---|---|---|---|---|---|---|
| objects/Ptensor0.hpp:115-117 | `getk()` returns `dims(0)` of the channel tensor, which has the single dimension nc | `zero([7], 3)`: `getk()` gives 3, but there is 1 atom | the atom count k, which the constructor stores | medium, not executed | Objects.GetKCounterexample | Objects.Ptensor0.GetK |
