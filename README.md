# A verified model of chempy's molecule containers, cpv's exact arithmetic, the CHAMP pattern parsers and the shader-text generator

This Dafny project models four parts of the PyMOL sources and proves what they promise.

- **chempy's molecule containers** (`modules/chempy/models.py`).
  - `Indexed` keeps one flat list of bonds.
  - `Connected` keeps, for every atom position, a bucket of the bonds that touch it.
  - Both share an atom list and an optional index from atom identity to position.
  - Atoms and bonds are heap objects, so aliasing of one bond from two buckets is real. So is the atom list that `convert_to_connected` hands to its result and then clears.
  - Every edit renumbers the bond endpoints in place: adding, deleting, inserting, merging, deleting a list, sorting and the two conversions. The model follows the code's own behaviour, including:
    - the index is skipped when it is an empty dictionary;
    - `merge` shifts by the atom count measured after the extension;
    - `delete_list` rebuilds the index from old to new positions;
    - a bond held by two buckets is shifted twice;
    - `Connected.sort` remaps a bucketed self-loop twice.
  - The KeyError of a stale index or of an endpoint missing from a cross-reference table, and the IndexError of an endpoint that subscripts no list cell, are results (`ok == false` or `None`), not preconditions.
  - `get_internal_tuples` returns the Z-matrix atom tuples. When no torsion can place a remaining atom, its placement loop spins for ever; the model reports that outcome explicitly.
- **cpv's exact arithmetic** (`modules/chempy/cpv.py`): the vector, matrix and array routines, with Python floats as `real`, and the argument checks and centroids at the start of `fit`. `fit_apply` adds the centroid `fit` returns instead of subtracting it; the model states that and the corrected form (see "Findings").
- **The CHAMP atom and bond parsers** (`contrib/_champ/atom.cpp`, `bond.cpp` and the headers `atom.hpp`, `bond.hpp`, `constants.hpp`).
  - Every enum is a 32-bit mask and every table is a sequence.
  - `AtomMeta` and `Bond` are classes whose methods update their fields.
  - `parseAtomBlock` is a loop over the characters. It is proved against a specification function `Scan`, whose outcome is a returned value and a final position, or `Undefined`. `Undefined` covers the inputs on which the C++ loop never ends or reads past a table, so those inputs are modelled, not excluded by a precondition.
  - The character after the last one reads as NUL.
  - Where the code differs from the intent its comments or names suggest, the model follows the code:
    - `-` selects from the cation table;
    - a `v` digit sets the `degree` mask;
    - `H`-count and charge loops never stop.
- **The shader-text generator** (`create_shadertext.py`, lines 29-88).
  - The globbed files, their contents and the order in which the set of shader paths is walked are inputs.
  - The header and source files are output strings.
  - Line splitting, stripping and word splitting follow Python's definitions.
  - The model covers the per-line filter, the escaping (with its C-level round trip), the two dependency maps, and the layout of both files.

The modules, in dependency order:

- `Wrappers`: option types.
- `Sequences`: sequences without duplicates.
- `VectorMath`: `cpv.py`.
- `ChempyCore`: atoms, bonds, the atom list, the index and the endpoint loops.
- `Buckets`: the bucket layout.
- `Valence`: the valence table of `get_implicit_mass`.
- `ChempyBase`: residues, coordinates, sums and naming.
- `Compaction`: the cross-reference of `delete_list`.
- `ChempyModels`: `Indexed` and `Connected`.
- `InternalCoords`: `get_internal_tuples`.
- `ChampConstants`, `ChampAtom`, `ChampAtomProperties` and `ChampAtomExamples`: the atom parser.
- `ChampBond`: the bond parser.
- `ShaderText`: the shader-text generator.

## Model

| member | source | states |
|---|---|---|
| ChempyCore.Atom.constructor | modules/chempy/models.py:31 | a new atom carries its symbol, coordinate and optional name |
| ChempyCore.Bond.constructor | modules/chempy/models.py:32 | a new bond holds the two endpoint cells of its `index` list and its order |
| ChempyCore.AtomList.constructor | modules/chempy/models.py:31 | the shared `atom` list object starts with the given atoms |
| ChempyCore.BuildIndex | modules/chempy/models.py:111-113 | the identity index has exactly the listed atoms as keys, each mapped to a position that holds that atom |
| ChempyCore.BuildIndexKeepsLast | modules/chempy/models.py:113 | an atom listed twice is mapped to its last position, since a later dictionary entry overrides an earlier one |
| ChempyCore.BuildIndexOfDistinct | modules/chempy/models.py:113 | with no repeated atom, the index maps every atom to its own position |
| ChempyCore.CharacterizeIndex | modules/chempy/models.py:113 | any map whose keys are the listed atoms and whose values are their positions is the index `update_index` builds |
| ChempyCore.AppendKeepsIndex | modules/chempy/models.py:43-52 | adding `id(atom) -> len - 1` to a consistent index gives the index of the longer list |
| ChempyCore.DeleteKeepsIndex | modules/chempy/models.py:57-62 | lowering the values above `p` and dropping the deleted atom's key gives the index of the shortened list |
| ChempyCore.RemoveAtShape | modules/chempy/models.py:65 | `del atom[p]` shifts the later atoms down by one and leaves no duplicate |
| ChempyCore.DeletedIndexKeys | modules/chempy/models.py:57-62 | every key left after `delete_atom` is an atom that stays in the list |
| ChempyCore.DeletedIndexValues | modules/chempy/models.py:57-62 | every atom that stays is a key of the updated index, mapped to its new position |
| ChempyCore.InsertedPositions | modules/chempy/models.py:86 | `atom.insert(p, a)` puts `a` at `p`, keeps the earlier atoms and shifts the later ones up by one, with no duplicate |
| ChempyCore.InsertKeepsIndex | modules/chempy/models.py:96-103 | raising values at or above `p` and mapping the new atom to `p` gives the index of the new list |
| ChempyCore.RaisedKeys | modules/chempy/models.py:96-103 | every key of the raised index is an atom of the new list |
| ChempyCore.RaisedValues | modules/chempy/models.py:96-103 | every atom of the new list is a key of the raised index, mapped to its new position |
| ChempyCore.LowerClosedForm | modules/chempy/models.py:75-80 | an endpoint lowered once per reference ends at `x - k`, but never below the deleted slot `p` |
| ChempyCore.RaiseClosedForm | modules/chempy/models.py:88-94 | an endpoint at or above `p` raised once per reference grows by exactly `k`; one below `p` stays |
| ChempyCore.ShiftAtLeast | modules/chempy/models.py:204-206 | the merge shift applied `k` times adds `k * d` |
| ChempyCore.LowerThenRaise | modules/chempy/models.py:75-94 | inserting at `p` undoes deleting at `p` for every endpoint other than `p`, and the other way round |
| ChempyCore.LowerEndpoints | modules/chempy/models.py:75-80 | every bond's endpoints are lowered once per reference to it, so a bond held by two buckets is lowered twice |
| ChempyCore.LowerOne | modules/chempy/models.py:77-80 | one reference: each endpoint above `p` drops by one, the others stay |
| ChempyCore.RaiseEndpoints | modules/chempy/models.py:88-94 | every bond's endpoints are raised once per reference to it |
| ChempyCore.RaiseOne | modules/chempy/models.py:91-94 | one reference: each endpoint at or above `p` grows by one |
| ChempyCore.ShiftEndpoints | modules/chempy/models.py:204-206 | each incoming bond's endpoints grow by `d` once per reference |
| ChempyCore.RemapEndpoints | modules/chempy/models.py:376-378 | the loop stops with a KeyError exactly when, for some bond, a chain of as many lookups as it has references breaks; otherwise every bond ends where those chains lead, and a bond listed twice goes through the table twice |
| ChempyCore.RemapOne | modules/chempy/models.py:377-378 | one more pass of a bond through `xref`: a KeyError exactly when the chains break at that pass, since the first cell is written before the second is looked up |
| ChempyCore.ChainXref | modules/chempy/models.py:376-378 | through a total table, one or more lookups succeed exactly from a position in range, and stay in range |
| ChempyCore.ChainBreaks | modules/chempy/models.py:376-378 | once a chain of lookups breaks, every longer chain from the same start breaks too |
| ChempyCore.MergedEndpointDangles | modules/chempy/models.py:204-206 | an endpoint shifted by the merged atom count subscripts no list of that length, so a later subscript with it is an IndexError |
| ChempyCore.DetachedContents | modules/chempy/models.py:69-72 | the removal keeps every reference to a bond that does not mention `p`, as many times as before, and no other |
| ChempyCore.DetachedAppend | modules/chempy/models.py:69-72 | filtering out the bonds that mention `p` distributes over concatenation |
| ChempyCore.DetachedUntouched | modules/chempy/models.py:69-72 | a list with no bond mentioning `p` is left as it is |
| ChempyCore.MentionPositionsFacts | modules/chempy/models.py:70 | `templist` holds increasing positions and lists exactly the bonds whose `index` contains `p` |
| ChempyCore.MentionPositionsSound | modules/chempy/models.py:70 | every listed position holds a bond that mentions `p` |
| ChempyCore.MentionPositionsIncreasing | modules/chempy/models.py:70 | the listed positions increase |
| ChempyCore.MentionPositionsComplete | modules/chempy/models.py:70 | every bond that mentions `p` has its position listed |
| ChempyCore.DeleteStep | modules/chempy/models.py:71-72 | `del bond_group[j - i]` removes exactly the i-th mentioning bond, since `i` earlier ones are already gone |
| ChempyCore.RemoveMentioning | modules/chempy/models.py:69-72 | the bucket afterwards is the old bucket without the bonds that mention `p`, in their order |
| ChempyCore.RemovalStep | modules/chempy/models.py:71-72 | one pass of the deletion loop keeps its state: the prefix so far is filtered, the rest untouched |
| ChempyCore.RemovalDone | modules/chempy/models.py:71-72 | after the last deletion the list is the filtered one |
| Sequences.NoDuplicatesCount | modules/chempy/models.py:113 | in a list of distinct atoms each atom occurs at most once |
| Sequences.PermutationNoDuplicates | modules/chempy/models.py:367 | sorting rearranges the atoms, so a list without repeats keeps none |
| Buckets.FlattenMember | modules/chempy/models.py:561-563 | a bond is among the flattened bucket references exactly when some bucket holds it |
| Buckets.FlattenRefs | modules/chempy/models.py:561-563 | the flattened references are exactly the bonds the buckets refer to |
| Buckets.OwnedAllInRange | modules/chempy/models.py:574-577 | when every owned reference ends inside `0..n-1`, the collected bonds have both endpoints there |
| Buckets.OwnedAllPrefix | modules/chempy/models.py:574-577 | one more bucket of the scan appends that bucket's owned references |
| Buckets.OwnedIncident | modules/chempy/models.py:289-291 | the owned part of the bucket built for `k` is each bond starting at `k`, twice for a self-loop at `k` |
| Buckets.RootedSeqSplit | modules/chempy/models.py:574-577 | counting owned references bond by bond agrees with counting them bucket by bucket |
| Buckets.OwnedAllIncident | modules/chempy/models.py:286-291 | what convert_to_indexed collects from convert_to_connected's buckets is, as a multiset, the bond-by-bond owned references |
| Buckets.RootedSeqAll | modules/chempy/models.py:576-577 | a bond whose first endpoint is in range is collected once, or twice when it is a self-loop |
| Buckets.RoundTripDoublesLoops | modules/chempy/models.py:286-291 | Indexed to Connected to Indexed gives back every bond once and every self-loop twice |
| Buckets.OwnedSubset | modules/chempy/models.py:576 | every collected reference belongs to its bucket and has that bucket's position as first endpoint |
| Buckets.OwnedRefs | modules/chempy/models.py:574-577 | every collected bond is referenced from some bucket |
| Buckets.KeptRefs | modules/chempy/models.py:69-72 | removing references bucket by bucket only loses bonds |
| Buckets.CollectAllOwned | modules/chempy/models.py:574-577 | the scan returns, bucket after bucket and in order, the references whose first endpoint is the bucket position |
| Buckets.DetachAll | modules/chempy/models.py:69-72 | every bucket keeps its place and loses exactly the references that mention `p` |
| Buckets.MoveBuckets | modules/chempy/models.py:598-605 | bucket `c` lands in slot `xref[c]`, for every `c` |
| Buckets.FileBonds | modules/chempy/models.py:286-291 | an IndexError exactly when an endpoint subscripts no bucket; otherwise one bucket per atom, bucket `k` the bonds filed at `k` |
| Buckets.FiledIncident | modules/chempy/models.py:289-291 | with every endpoint a position, bucket `k` holds each bond once per endpoint equal to `k` |
| Buckets.Placed | modules/chempy/models.py:598-605 | `n` slots, written bucket after bucket |
| Buckets.PlacedLast | modules/chempy/models.py:598-605 | a slot holds the last bucket sent there |
| Buckets.PlacedUnreached | modules/chempy/models.py:598-605 | a slot no bucket is sent to stays empty |
| Buckets.PlacedPermutes | modules/chempy/models.py:598-605 | through a one-to-one table on `0..n-1`, bucket `c` lands in slot `table[c]` |
| Valence.ValenceList | modules/chempy/models.py:545-550 | the table has one entry per atom position |
| Valence.ValenceSumStep | modules/chempy/models.py:547-550 | the last bond adds its valence once for each of its endpoints in range |
| Valence.Handshake | modules/chempy/models.py:547-550 | when every endpoint is a position, the table sums to twice the total bond valence |
| Valence.ValenceTable | modules/chempy/models.py:545-550 | the loop builds exactly the valence table: zeros, then each bond's valence added at both endpoints |
| Valence.ValenceSumEmpty | modules/chempy/models.py:545-546 | before any bond every position has valence 0 |
| ChempyBase.CloseTile | modules/chempy/models.py:126-128 | appending `(start, counter)` keeps the ranges consecutive from 0 |
| ChempyBase.CloseResidue | modules/chempy/models.py:126-129 | a run closed where an atom leaves the residue of the run's first atom is a maximal run of that residue |
| ChempyBase.CloseRun | modules/chempy/models.py:126-129 | closing a run keeps every reported range a consecutive maximal residue run |
| ChempyBase.GetResidues | modules/chempy/models.py:115-134 | no atoms gives no ranges; otherwise the ranges tile the atoms from 0 in maximal same-residue runs, and reach the end only when the last run has at least two atoms |
| ChempyBase.CoordList | modules/chempy/models.py:136-137 | one coordinate per atom, in atom order |
| ChempyBase.CoordListColumns | modules/chempy/models.py:136-137 | each axis sum of the coordinate list is the sum of that coordinate over the atoms |
| ChempyBase.CoordListCentroid | modules/chempy/models.py:136-137 | the centroid of the coordinate list is the per-axis mean over the atoms |
| ChempyBase.MassAppend | modules/chempy/models.py:139-140 | the mass of two atom lists together is the sum of their masses |
| ChempyBase.MassNonNegative | modules/chempy/models.py:139-140 | non-negative atom masses give a non-negative molecule mass |
| ChempyBase.NuclearChargesAppend | modules/chempy/models.py:142-144 | the nuclear charge of two atom lists together is the sum of their charges |
| ChempyBase.NatStr | modules/chempy/models.py:164 | `str(c)` is a non-empty string of decimal digits |
| ChempyBase.NatStrLength | modules/chempy/models.py:164 | a counter of at least `10^k` prints with more than `k` digits |
| ChempyBase.LongNameFree | modules/chempy/models.py:166-168 | a candidate whose counter has more digits than the longest taken name is free, so the search ends |
| ChempyBase.CollectNames | modules/chempy/models.py:150-156 | with `preserve` the names are collected and kept; without it every name is deleted; the set holds exactly the names still present |
| ChempyBase.FreeName | modules/chempy/models.py:163-168 | the name found is not taken and is `symbol + str(c)` or, because the counter is bumped after the candidate is built, `symbol + str(c - 1)` |
| ChempyBase.AssignNames | modules/chempy/models.py:146-173 | every atom ends named; with `preserve` existing names stay; each new name is `symbol + counter` and differs from every other atom's name |
| Compaction.InsertAscending | modules/chempy/models.py:223 | inserting into an ascending list keeps it ascending and adds exactly that element |
| Compaction.AscendingCons | modules/chempy/models.py:223 | a head no larger than the rest keeps a list ascending |
| Compaction.Sorted | modules/chempy/models.py:222-223 | `sort()` gives an ascending rearrangement of the requests |
| Compaction.Scan | modules/chempy/models.py:229-235 | no more requests are met than there are requests, or positions walked |
| Compaction.SurvivorsLength | modules/chempy/models.py:243-247 | the surviving atom list is shorter by the number of requests met |
| Compaction.SurvivorsShape | modules/chempy/models.py:243-247 | each kept atom lands at its table entry in the surviving list |
| Compaction.ScanGrowth | modules/chempy/models.py:231-237 | the shift never grows, and walking `j - i` more positions deletes at most `j - i` more atoms |
| Compaction.KeptOrder | modules/chempy/models.py:237 | kept positions keep their relative order and are packed from 0 |
| Compaction.SortedStrictly | modules/chempy/models.py:223 | distinct requests sort into a strictly ascending list |
| Compaction.ScanSplits | modules/chempy/models.py:229-235 | over strictly ascending requests, the walk has met exactly the requests below the current position |
| Compaction.DeletedIffRequested | modules/chempy/models.py:229-235 | for distinct in-range requests, a position is deleted exactly when it is requested, and every request is met |
| Compaction.MemberOfSorted | modules/chempy/models.py:222-223 | sorting neither adds nor loses a request |
| Compaction.ScanReachesEnd | modules/chempy/models.py:229-235 | strictly ascending in-range requests are all met by the end of the walk |
| Compaction.SortedInRange | modules/chempy/models.py:222-223 | sorting keeps the requests in range |
| Compaction.DeletedIffMember | modules/chempy/models.py:232-235 | over strictly ascending requests, a position is deleted exactly when it is one of them |
| Compaction.KeptBondsContents | modules/chempy/models.py:251-258 | every kept bond comes from the old list and has both endpoints kept |
| Compaction.PosIndex | modules/chempy/models.py:261-262 | the comprehension fails exactly when a surviving atom has no entry; otherwise its keys are old positions and its values new positions |
| Compaction.PosIndexOfSurvivors | modules/chempy/models.py:261-262 | with a consistent index, the rebuilt index maps each survivor's OLD position to its NEW one, rather than mapping atoms |
| Compaction.PosIndexStep | modules/chempy/models.py:262 | one more atom of the walk extends the rebuilt index consistently |
| Compaction.PosIndexAppend | modules/chempy/models.py:262 | appending an atom adds the key `index[id(atom)]` mapped to its new position |
| Compaction.ExtendPosIndex | modules/chempy/models.py:262 | a kept position adds its old position as a key, mapped to its new one |
| Compaction.SkipPosIndex | modules/chempy/models.py:262 | a deleted position adds no key |
| Compaction.CrossReference | modules/chempy/models.py:227-237 | the table has an entry per atom, -1 for a deleted position and `k` minus the deletions below it otherwise; the shift is minus the deletion count |
| Compaction.KeepAtoms | modules/chempy/models.py:243-247 | the new atom list is the atoms whose entry is not negative, in order |
| Compaction.RenumberBonds | modules/chempy/models.py:249-258 | a KeyError exactly when some bond, passed once per reference, reaches an endpoint outside the table; otherwise the references kept are the renumbered ones in order and each bond holds the endpoints its passes reach |
| Compaction.RenumberInto | modules/chempy/models.py:249-258 | the bond loop over a table whose kept entries lie below `m`: the same KeyError and renumbering, and when it completes every kept bond has both endpoints below `m` |
| Compaction.RenumberOne | modules/chempy/models.py:250-256 | one reference: a KeyError exactly when its pass fails; otherwise the bond holds the endpoints of one more pass, and it is kept exactly when both entries are kept |
| Compaction.StaysFailed | modules/chempy/models.py:250-256 | once a pass raises, later passes of the same bond raise too |
| Compaction.PassesStayIn | modules/chempy/models.py:250-256 | once some pass has kept a bond, its endpoints stay among the survivors |
| Compaction.RenumberedEverKept | modules/chempy/models.py:250-258 | every kept reference comes from the old list and belongs to a bond that some pass kept |
| Compaction.FirstPass | modules/chempy/models.py:250-256 | a first pass keeps a bond exactly when both its endpoints survive, and renumbers it to their new positions |
| Compaction.RenumberedOnce | modules/chempy/models.py:250-258 | with every bond listed once and in range, the loop keeps exactly the bonds whose endpoints survive |
| Compaction.RenumberedDistinct | modules/chempy/models.py:250-258 | then each bond ends at its endpoints' new positions when it survives and is left as it was otherwise |
| Compaction.Table | modules/chempy/models.py:227-237 | one entry per atom, the new position of each old one or -1 |
| Compaction.TableIntoSurvivors | modules/chempy/models.py:237-247 | every kept entry is a position of the survivor list |
| ChempyModels.Indexed.constructor | modules/chempy/models.py:28-32 | a new container has no index, a fresh molecule, an empty atom list and no bonds |
| ChempyModels.Indexed.AddAtom | modules/chempy/models.py:43-52 | the atom is appended and its position returned; the index gains it only when the index is a non-empty dictionary |
| ChempyModels.Indexed.Merge | modules/chempy/models.py:198-212 | atoms and bonds are appended; each incoming endpoint grows by the atom count measured after the extension, once per reference, so it points past the merged atoms; `other` is reset, which empties a shared atom list; a non-empty index is rebuilt |
| ChempyModels.Indexed.DeleteAtom | modules/chempy/models.py:54-80 | the index entries above `p` drop by one and the atom's key goes, or a KeyError; the atom and every bond mentioning `p` go; every endpoint above `p` drops by one per remaining reference, and a dropped bond keeps its endpoints |
| ChempyModels.Indexed.RemoveAt | modules/chempy/models.py:65-80 | the atom at `p` leaves the list, the bonds mentioning `p` go and keep their endpoints, and every endpoint above `p` of a remaining bond drops by one per reference |
| ChempyModels.Indexed.DropBondsOf | modules/chempy/models.py:67-80 | the bonds mentioning `p` are removed and the rest are lowered |
| ChempyModels.Indexed.InsertAtom | modules/chempy/models.py:82-103 | `a` sits at `p`; every endpoint at or above `p` and every index entry at or above `p` grows by one; the index then maps `a` to `p` |
| ChempyModels.Indexed.Reset | modules/chempy/models.py:105-109 | no index, a new molecule, and the atom and bond lists emptied in place |
| ChempyModels.Indexed.UpdateIndex | modules/chempy/models.py:111-113 | the index is the identity index of the current atoms |
| ChempyModels.Indexed.DeleteList | modules/chempy/models.py:214-262 | with no request met nothing changes; otherwise the survivors keep their order in a new list; a KeyError in the bond loop leaves the bond list and the index, and the endpoints renumbered before it are not described; otherwise the kept bonds are renumbered into the survivors and an index is rebuilt keyed by old positions, or a KeyError |
| ChempyModels.Indexed.Compact | modules/chempy/models.py:242-258 | the atom list becomes the survivors; a KeyError in the bond loop leaves the bond list as it was; otherwise it becomes the renumbered kept references and every bond lies inside the survivors |
| ChempyModels.Indexed.CompactBonds | modules/chempy/models.py:249-258 | a KeyError leaves the bond list as it was; otherwise it becomes the renumbered kept references, each bond having gone through the table once per reference and lying below the survivor count |
| ChempyModels.Indexed.Sort | modules/chempy/models.py:360-378 | the atoms are in the sorted order and the index is rebuilt; an atom missing from a stale old index is a KeyError before any bond changes; otherwise the bond loop sends each endpoint through the table once per reference, or stops at the KeyError of an endpoint outside it |
| ChempyModels.Indexed.Reorder | modules/chempy/models.py:363-374 | the atoms are sorted in place, the index is rebuilt, and the result is the table the cross-reference loop builds, or `None` for its KeyError |
| ChempyModels.Indexed.GetImplicitMass | modules/chempy/models.py:542-556 | an endpoint that subscripts no cell of the valence list is the IndexError; otherwise the mass is the atoms' mass plus one hydrogen mass per free valence the valence table leaves |
| ChempyModels.Indexed.IndexAtom | modules/chempy/models.py:264-265 | -1 exactly when the atom is absent; otherwise its first position |
| ChempyModels.Indexed.AddBond | modules/chempy/models.py:267-271 | the bond object is appended |
| ChempyModels.Indexed.RemoveBond | modules/chempy/models.py:273-275 | a `k` in `-n..n-1` deletes the reference at that slot, a negative one counted from the end, and the rest keep their order; any other `k` is the IndexError and the list stays as it was |
| ChempyModels.Indexed.ConvertToConnected | modules/chempy/models.py:277-295 | an endpoint that subscripts no bucket is the IndexError and nothing changes; otherwise the new container shares this atom list and molecule, has one bucket per atom, bucket `k` holding the bonds filed at `k`, and ends with no atoms, because the closing reset empties the shared list |
| ChempyModels.SortCrossReference | modules/chempy/models.py:370-374 | the loop builds exactly the old-to-new table, or fails at the first atom missing from the old index; every entry is a position of the sorted list |
| ChempyModels.CrossTableFails | modules/chempy/models.py:373-374 | the table fails exactly when some atom of the sorted list is missing from the old index |
| ChempyModels.CrossTableRange | modules/chempy/models.py:373-374 | the table sends old entries to positions of the sorted list |
| ChempyModels.CrossTableNext | modules/chempy/models.py:373-374 | one more key adds nothing for a repeated atom and otherwise its old entry mapped to its new one, or the KeyError |
| ChempyModels.SortConsistent | modules/chempy/models.py:363-374 | with a consistent or rebuilt index over distinct atoms the table exists, is total and one-to-one on `0..n-1`, and sends each old position to where its atom now stands |
| ChempyModels.SortTable | modules/chempy/models.py:370-374 | from the index of a duplicate-free list the table holds every old position and sends it to where its atom now stands |
| ChempyModels.OldIndexFinds | modules/chempy/models.py:363-374 | the index of a duplicate-free list finds every atom of a rearrangement of it at its old position |
| ChempyModels.TableTotal | modules/chempy/models.py:373-374 | every old position is the old entry of some atom of the rearrangement, so the table holds it |
| ChempyModels.LocatingTable | modules/chempy/models.py:373-374 | a table that finds every old atom again in the new list is total, in range and one-to-one |
| ChempyModels.CrossTableDistinct | modules/chempy/models.py:373-374 | over a duplicate-free sorted list each position adds the old entry of its atom mapped to that position |
| ChempyModels.SortBuckets | modules/chempy/models.py:592-612 | a bucket position missing from the table is a KeyError before any bond changes; otherwise bucket `c` is written to slot `table[c]`, and the owned references go through the table, a self-loop twice, or stop at the KeyError of an endpoint outside it |
| ChempyModels.FirstPosition | modules/chempy/models.py:265 | `list.index`: the first position holding the atom, or -1 when it is absent |
| ChempyModels.Connected.constructor | modules/chempy/models.py:28-32 | a new container has no index, a fresh molecule, no atoms and no buckets |
| ChempyModels.Connected.AddAtom | modules/chempy/models.py:43-52 | the atom and one empty bucket are appended; the index gains the atom only when it is a non-empty dictionary |
| ChempyModels.Connected.DeleteAtom | modules/chempy/models.py:54-80 | no bucket is dropped; each bucket loses the references mentioning `p`; a bond listed in two buckets is lowered twice, and a bond whose references all go keeps its endpoints |
| ChempyModels.Connected.DropBondsOf | modules/chempy/models.py:67-80 | each bucket loses the references mentioning `p`, and each remaining reference lowers its bond once |
| ChempyModels.Connected.InsertAtom | modules/chempy/models.py:82-103 | `a` sits at `p`; no bucket is added; every endpoint at or above `p` grows by one per reference; the index shifts and maps `a` to `p` |
| ChempyModels.Connected.Reset | modules/chempy/models.py:105-109 | no index, a new molecule, and the lists emptied in place |
| ChempyModels.Connected.UpdateIndex | modules/chempy/models.py:111-113 | the index is the identity index of the current atoms |
| ChempyModels.Connected.ConvertToIndexed | modules/chempy/models.py:568-580 | the new flat container shares the atoms and molecule and holds, bucket by bucket, the references whose first endpoint is the bucket position; this container is left as it was |
| ChempyModels.Connected.Sort | modules/chempy/models.py:582-612 | the atoms are sorted and re-indexed; a stale index or a bucket position missing from the table is a KeyError that leaves every bond as it was; otherwise the buckets are placed by the table and each owned reference sends its bond once through it, so a self-loop twice |
| InternalCoords.Bucket | modules/chempy/models.py:286-291 | bucket `k` of the connected copy holds only bonds with an endpoint `k` |
| InternalCoords.AllBuckets | modules/chempy/models.py:286-291 | one bucket per atom, bucket `k` the bonds at `k` |
| InternalCoords.BucketsClosed | modules/chempy/models.py:386 | with in-range bonds every bucket entry joins two atom positions |
| InternalCoords.ConnectedCopy | modules/chempy/models.py:386 | the conversion loops build exactly the bucket list |
| InternalCoords.Total | modules/chempy/models.py:395-396 | the folded sum of the coordinates is a 3-vector |
| InternalCoords.Center | modules/chempy/models.py:397 | the centre is a 3-vector |
| InternalCoords.TotalIsColumnSum | modules/chempy/models.py:395-396 | each axis of the folded sum is the sum of that coordinate over the atoms |
| InternalCoords.CenterIsCentroid | modules/chempy/models.py:394-397 | the centre is the per-axis mean, the same centroid `fit` computes |
| InternalCoords.CenterOf | modules/chempy/models.py:394-397 | the loop computes the centre |
| InternalCoords.CoordListCenter | modules/chempy/models.py:394-397 | the centre of `get_coord_list` is the per-axis mean of the atom coordinates |
| InternalCoords.MostCentral | modules/chempy/models.py:399-410 | -1 exactly when no atom is multivalent; otherwise a multivalent atom nearest the centre, the first of equally near ones |
| InternalCoords.SecondAtom | modules/chempy/models.py:418-433 | the first multivalent neighbour of `fst`, or else the neighbour through the last entry of its bucket, because the loop variable keeps its last value |
| InternalCoords.ThirdAtom | modules/chempy/models.py:438-457 | the first multivalent neighbour not yet chosen, else the first neighbour not yet chosen, else -1 exactly when every neighbour is chosen |
| InternalCoords.OuterSetShape | modules/chempy/models.py:471-485 | the keys for one outer atom are four-atom torsions around the middle bond, lower end first |
| InternalCoords.CounterSetShape | modules/chempy/models.py:468-502 | every key found for a middle bond is a torsion around it |
| InternalCoords.TorsionSetShape | modules/chempy/models.py:463-502 | every key has distinct ends, the lower end first, and a middle pair that is a bond of the molecule in one direction or the other |
| InternalCoords.Store | modules/chempy/models.py:478 | `tors[to] = 1` adds the key once, keeps the earlier keys in place and never repeats one |
| InternalCoords.AddOuter | modules/chempy/models.py:471-485 | the inner loop adds exactly the keys for its outer atom |
| InternalCoords.Offer | modules/chempy/models.py:474-478 | one outer atom adds its key unless it repeats one of the other three, keeping the earlier keys and adding no repeat |
| InternalCoords.AddOuterIf | modules/chempy/models.py:469-485 | a counter atom adds the keys of its outer loop only when it is neither middle atom |
| InternalCoords.AddCounters | modules/chempy/models.py:468-502 | the counter loop for one middle bond adds exactly that bond's keys, each once |
| InternalCoords.OuterSetStep | modules/chempy/models.py:472-485 | one more bucket entry adds the keys for its two cells |
| InternalCoords.FindTorsions | modules/chempy/models.py:463-502 | the dictionary holds each key once, and its keys are exactly the torsion set |
| InternalCoords.HeadsAppend | modules/chempy/models.py:516-521 | appending an entry adds its first atom to the placed atoms |
| InternalCoords.Progress | modules/chempy/models.py:515-522 | placing a new key atom leaves fewer key atoms unplaced |
| InternalCoords.GrowsStep | modules/chempy/models.py:515-522 | a fresh entry keeps the list a chain of one-new-atom placements |
| InternalCoords.GrowsMeans | modules/chempy/models.py:515-522 | then every later entry places a new atom relative to three placed ones |
| InternalCoords.PlacingStep | modules/chempy/models.py:515-522 | listing the missing end of a key keeps the loop state and places one more key atom |
| InternalCoords.TryKey | modules/chempy/models.py:507-522 | one key places an atom exactly when it can, keeping the loop state, counting the entry off `to_go` and leaving fewer key atoms unplaced; otherwise it changes nothing |
| InternalCoords.PlacePass | modules/chempy/models.py:506-522 | one pass over the keys places atoms from keys, counts them off `to_go`, and places nothing only when no key can place one |
| InternalCoords.NoneAll | modules/chempy/models.py:506-522 | when no key placed anything, no key can |
| InternalCoords.PlaceByTorsions | modules/chempy/models.py:505-522 | it returns only with exactly `to_go` new entries, each placing a new atom from a key; otherwise it spins for ever with no key able to place an atom |
| InternalCoords.VirtualStep | modules/chempy/models.py:526-533 | listing one virtual torsion keeps the loop state |
| InternalCoords.VirtualTorsions | modules/chempy/models.py:523-533 | each new entry is `(neighbor, trd, fst, nxt)` for a neighbour not yet done, and afterwards every neighbour of `fst` is done |
| InternalCoords.FirstThree | modules/chempy/models.py:394-461 | `fst` is the first multivalent atom nearest the centre; `nxt` and `trd` are chosen as the source chooses them |
| InternalCoords.PlaceRest | modules/chempy/models.py:462-534 | after the first three entries, torsion placements or virtual torsions, or a spin when no key can place an atom |
| InternalCoords.InternalTuples | modules/chempy/models.py:380-534 | an endpoint past the atoms is the IndexError of the connected copy, before anything else; otherwise fewer than three atoms give `[0, (1, 0)]`, and more give `(fst,)`, `(nxt, fst)`, `(trd, fst, nxt)`, then one entry per remaining atom from the torsions or, without torsions, the virtual torsions through `fst`, or a spin |
| InternalCoords.FixtureBuckets | testing/tests/chempy/models/test_indexed.py:7-24 | in the test fixture each atom's self-loop is listed twice in its own bucket, so every atom is multivalent |
| InternalCoords.FixtureCenter | modules/chempy/models.py:394-397 | the centre of the fixture's atoms at x = 0, 1, 2 is the middle atom |
| InternalCoords.FixtureFirst | modules/chempy/models.py:399-410 | on the fixture the first atom chosen is the middle one, the only one at distance 0 from the centre |
| InternalCoords.FixtureNext | modules/chempy/models.py:418-457 | the middle atom's only neighbour is itself, so the second atom is also 1 and no third is left (-1) |
| InternalCoords.FixtureTuples | testing/tests/chempy/models/test_indexed.py:187-188 | `get_internal_tuples` on the fixture returns `[(1,), (1, 1), (-1, 1, 1)]` |
| VectorMath.GetNull | modules/chempy/cpv.py:31-32 | the null vector: three zeros |
| VectorMath.GetIdentity | modules/chempy/cpv.py:35-36 | the 3x3 identity: ones on the diagonal, zeros elsewhere |
| VectorMath.DistanceSq | modules/chempy/cpv.py:39-43 | never negative, and zero for coincident points |
| VectorMath.DistanceSqSymmetric | modules/chempy/cpv.py:39-43 | the squared distance does not depend on the order of the points |
| VectorMath.Add | modules/chempy/cpv.py:91-92 | a 3-vector, componentwise sum |
| VectorMath.Average | modules/chempy/cpv.py:95-96 | the average is the sum scaled by one half |
| VectorMath.Scale | modules/chempy/cpv.py:99-100 | a 3-vector, each component times the factor |
| VectorMath.Negate | modules/chempy/cpv.py:103-104 | negation is scaling by -1 |
| VectorMath.Reverse | modules/chempy/cpv.py:107-108 | `reverse` is the same vector as `negate` |
| VectorMath.Sub | modules/chempy/cpv.py:111-112 | `sub(a, b)` is `add(a, negate(b))` |
| VectorMath.Cross | modules/chempy/cpv.py:119-122 | the cross product is a 3-vector |
| VectorMath.Transform | modules/chempy/cpv.py:125-128 | component `i` is row `i` of the matrix dotted with the vector |
| VectorMath.InverseTransform | modules/chempy/cpv.py:131-134 | `inverse_transform` gives a 3-vector |
| VectorMath.Multiply | modules/chempy/cpv.py:137-149 | the product is a 3x3 matrix |
| VectorMath.Transpose | modules/chempy/cpv.py:168-171 | the transpose is a 3x3 matrix |
| VectorMath.TransformAboutPoint | modules/chempy/cpv.py:174-175 | the result is a 3-vector |
| VectorMath.Project | modules/chempy/cpv.py:206-208 | `project(v, n)` is `n` scaled by `v . n` |
| VectorMath.RemoveComponent | modules/chempy/cpv.py:211-213 | the result is a 3-vector |
| VectorMath.TransformArray | modules/chempy/cpv.py:266-272 | same length, element `i` the transform of element `i` alone |
| VectorMath.TranslateArray | modules/chempy/cpv.py:275-283 | same length, element `i` the translation of element `i` alone |
| VectorMath.FitApply | modules/chempy/cpv.py:286-293 | same length, element `i` is `add(t1, transform(m, add(t2, x)))`: `t2` is added, not subtracted |
| VectorMath.ScaleSystem | modules/chempy/cpv.py:161-165 | one scaled row per input row, in order |
| VectorMath.InverseTransformIsTransposed | modules/chempy/cpv.py:125-134 | `inverse_transform(m, v)` is `transform(transpose(m), v)` |
| VectorMath.TransposeEntries | modules/chempy/cpv.py:168-171 | `transpose(m)[i][j] == m[j][i]` |
| VectorMath.TransposeInvolution | modules/chempy/cpv.py:168-171 | transposing a 3x3 matrix twice gives it back |
| VectorMath.MultiplyEntries | modules/chempy/cpv.py:137-149 | entry `i, j` of the product is the sum over `k` of `m1[i][k] * m2[k][j]` |
| VectorMath.MultiplyComposesTransforms | modules/chempy/cpv.py:125-149 | applying the product applies `m2` and then `m1` |
| VectorMath.RowComposes | modules/chempy/cpv.py:125-149 | one row of that identity |
| VectorMath.CrossIsOrthogonal | modules/chempy/cpv.py:115-122 | the cross product is orthogonal to both factors |
| VectorMath.CrossWithItselfIsNull | modules/chempy/cpv.py:119-122 | `cross_product(v, v)` is the null vector |
| VectorMath.RemoveComponentIsSubProject | modules/chempy/cpv.py:206-213 | `remove_component(v, n)` is `sub(v, project(v, n))` |
| VectorMath.TransformAboutPointFixesPoint | modules/chempy/cpv.py:174-175 | a transform about `p` leaves `p` where it is |
| VectorMath.Centroid | modules/chempy/cpv.py:326-332 | the per-axis mean is a 3-vector |
| VectorMath.FitCentroids | modules/chempy/cpv.py:306-332 | the length mismatch and the non-3-dimensional first vectors raise; an empty or short array is an index error; otherwise `t1` and `t2` are the per-axis means of target and source |
| VectorMath.CentroidOfTranslatedArray | modules/chempy/cpv.py:275-283 | translating every point by `t` moves the centroid by `t` |
| VectorMath.CentroidOfTransformedArray | modules/chempy/cpv.py:266-272 | transforming every point by a matrix transforms the centroid by it |
| VectorMath.CentroidRow | modules/chempy/cpv.py:266-272 | axis `i` of the transformed centroid is row `i` dotted with the centroid |
| VectorMath.FitApplyComposes | modules/chempy/cpv.py:286-293 | `fit_apply` translates by `t2`, transforms by the matrix, then translates by `t1` |
| VectorMath.CentroidOfFitApply | modules/chempy/cpv.py:286-293 | the centroid of the result is `t1 + m(t2 + centroid)` |
| VectorMath.FitApplyDoublesCentroid | modules/chempy/cpv.py:286-332 | with `t2` the centroid `fit` returns, the result's centroid is `t1 + m(2 * centroid)`, not `t1` |
| VectorMath.FitApplyMissesTarget | modules/chempy/cpv.py:286-332 | the one point `[1, 0, 0]` under the identity lands at `[2, 0, 0]`, whose centroid is not `t1` |
| VectorMath.FitApplyCentered | modules/chempy/cpv.py:286-293 | the corrected apply subtracts `t2`: translate by `-t2`, transform, translate by `t1` |
| VectorMath.FitApplyCenteredHitsTarget | modules/chempy/cpv.py:286-332 | with `t2` the source centroid, the corrected apply moves the centroid onto `t1` |
| ChampConstants.Bit | contrib/_champ/include/constants.hpp:6-12 | bit `k` below 32 is a mask with exactly one bit; from 32 on no bit is left |
| ChampConstants.OrKeeps | contrib/_champ/include/atom.hpp:48-51 | the OR-assignment operator keeps every bit of both operands |
| ChampConstants.CoversTrans | contrib/_champ/include/atom.hpp:48-51 | a mask that only ever gains bits keeps every bit it had at any earlier point |
| ChampConstants.RingTable | contrib/_champ/include/constants.hpp:34-47 | `num_to_ring` has twelve entries; sizes 3 to 8 give the single ring bit for that size and every other size gives `Empty` |
| ChampConstants.CycleBits | contrib/_champ/include/constants.hpp:4-17 | `Acyclic` is bit 0 and `Ring3` to `Ring8` are bits 1 to 6; `Cyclic` is every bit but `Acyclic`; the union of the ring bits is 0x7E and never meets `Acyclic` |
| ChampConstants.ClassBits | contrib/_champ/include/constants.hpp:49-54 | `Class::Any` is aliphatic or aromatic, and those two are disjoint; `Pi` is a single bit outside `Any` (non-exclusive with them) |
| ChampConstants.ElementBits | contrib/_champ/include/atom.hpp:11-46 | the element masks `H` to `Z` are bits 0 to 30 in their declaration order |
| ChampConstants.DistinctBits | contrib/_champ/include/atom.hpp:11-46 | two different bit positions below 32 share no bit, so no two element masks overlap |
| ChampConstants.AnyAndNotH | contrib/_champ/include/atom.hpp:11-46 | `Any` has all 32 bits; `NotH` is every bit except `H` and is disjoint from it |
| ChampConstants.DegreeTable | contrib/_champ/include/atom.hpp:59-86 | `num_to_degree` has nine entries, `Bond0` to `Bond8`, entry `n` being the single bit `n` |
| ChampConstants.ChargeTable | contrib/_champ/include/atom.hpp:88-114 | `num_to_charge` has six entries starting at `Neutral`, each a single bit and none an anion |
| ChampConstants.ValenceTable | contrib/_champ/include/atom.hpp:118-145 | `num_to_valence` has nine entries, entry `n` being the single bit `n` |
| ChampAtom.Fresh | contrib/_champ/include/atom.hpp:150-179 | a new atom pattern has every flag false, every mask 0, unspecified chirality and a zeroed symbol; the hydrogen counts are whatever the caller supplies |
| ChampAtom.ParseNumeral | contrib/_champ/atom.cpp:6-9 | a decimal digit gives its value 0 to 9 and every other character gives -1 |
| ChampAtom.ElementToken | contrib/_champ/atom.cpp:154-466 | the element branches exist exactly for `B`, `C`, `E`, `F`, `I` to `R`, `S` to `W`, `Y`, `Z`; a token is one letter, or two when the next is lower case |
| ChampAtom.PunctStep | contrib/_champ/atom.cpp:90-127 | `]` is the only character that sets `done`; `!` sets the negation and writes nothing, `;` clears it, the others keep it; none breaks or clears `ok`; a turn takes one character, or two when it swallows a digit |
| ChampAtom.AgStep | contrib/_champ/atom.cpp:128-144 | `A` and `G` keep the negation, take one or two characters, the second only a digit or lower-case letter, and write nothing when they break |
| ChampAtom.DegreeStep | contrib/_champ/atom.cpp:190-210 | `D` keeps the negation, takes one or two characters (the second swallowable), writes nothing when it breaks and never sets `done` |
| ChampAtom.HydrogenStep | contrib/_champ/atom.cpp:242-272 | `H` keeps the negation, takes one or two characters (the second swallowable), writes nothing when it breaks and never sets `done` |
| ChampAtom.ElementStep | contrib/_champ/atom.cpp:154-466 | an element keeps the negation, takes one or two characters (the second swallowable), writes nothing when it breaks and never sets `done` |
| ChampAtom.CapitalStep | contrib/_champ/atom.cpp:128-466 | a capital keeps the negation, takes one or two characters (the second swallowable), writes nothing when it breaks and never sets `done` |
| ChampAtom.ValenceStep | contrib/_champ/atom.cpp:426-439 | `v` keeps the negation, takes one or two characters (the second swallowable) and never sets `done` |
| ChampAtom.ChargeStep | contrib/_champ/atom.cpp:468-520 | `+` and `-` keep the negation, take one or two characters (the second swallowable) and never set `done` |
| ChampAtom.LowerStep | contrib/_champ/atom.cpp:145-523 | the lower-case and charge branches keep the negation, take one or two characters (the second swallowable), write nothing when they break and never set `done` |
| ChampAtom.Step | contrib/_champ/atom.cpp:84-525 | one turn of the loop: only `!` sets the negation and only `;` clears it; `!` changes no field; a turn moves one or two characters, the second never a `]` or NUL; `done` is set exactly by `]`; a break changes no field |
| ChampAtom.KeepsTrans | contrib/_champ/include/atom.hpp:48-51 | masks that only gain bits over two stretches only gain bits over both |
| ChampAtom.RouteGrows | contrib/_champ/atom.cpp:35-51 | routing a mask writes only the side the negation selects and only adds bits there |
| ChampAtom.BlockGrows | contrib/_champ/atom.cpp:35-68 | both `parseBlock` overloads write only the side the negation selects and only add bits there |
| ChampAtom.ClassGrows | contrib/_champ/atom.cpp:349-357 | a class bit is only added to the side the negation selects |
| ChampAtom.DegreeGrows | contrib/_champ/atom.cpp:196-206 | a degree bit is only added to the side the negation selects |
| ChampAtom.CycleGrows | contrib/_champ/atom.cpp:372-394 | a ring bit is only added to the side the negation selects |
| ChampAtom.ValenceGrows | contrib/_champ/atom.cpp:426-436 | a valence bit is only added to the side the negation selects; the positive side is the `degree` mask, as the code writes it |
| ChampAtom.ChargeGrows | contrib/_champ/atom.cpp:481-490 | a charge bit is only added to the side the negation selects |
| ChampAtom.PunctGrows | contrib/_champ/atom.cpp:90-127 | the punctuation branches write only the side the negation selects and only add bits |
| ChampAtom.CapitalGrows | contrib/_champ/atom.cpp:128-466 | the capital-letter branches write only the side the negation selects and only add bits |
| ChampAtom.HydrogenGrows | contrib/_champ/atom.cpp:242-272 | the `H` branch writes only the side the negation selects and only adds bits |
| ChampAtom.ElementGrows | contrib/_champ/atom.cpp:154-466 | the element branches write only the side the negation selects and only add bits |
| ChampAtom.LowerGrows | contrib/_champ/atom.cpp:145-523 | the lower-case and charge branches write only the side the negation selects and only add bits |
| ChampAtom.StepGrows | contrib/_champ/atom.cpp:84-525 | every turn writes only the side the negation selects, and only adds bits there |
| ChampAtom.Scan | contrib/_champ/atom.cpp:84-525 | the loop keeps a three-character symbol and, when it returns, leaves the iterator between its start and `it_end` |
| ChampAtom.TurnGoesOn | contrib/_champ/atom.cpp:84-525 | a turn that goes on or leaves the loop normally hands over to the loop from the new position and locals |
| ChampAtom.TurnBreaks | contrib/_champ/atom.cpp:521-523 | a `break` returns `false` with the iterator still on the character and the fields unchanged |
| ChampAtom.TurnRunsAway | contrib/_champ/atom.cpp:112-125 | one turn that runs away makes the whole call undefined |
| ChampAtom.ScanPromised | contrib/_champ/atom.cpp:84-528 | from any point the loop reaches with its invariant, it returns `true` exactly after the first `]`, masks only gain bits, a block without `!` negates nothing, and one starting with `!` and without `;` writes nothing positive |
| ChampAtom.ParseBlockPromised | contrib/_champ/atom.cpp:70-528 | a whole `parseAtomBlock` call keeps those promises |
| ChampAtom.AtomMeta.constructor | contrib/_champ/include/atom.hpp:150-179 | the new object holds the fresh fields; `name` and `residue` are zeroed five-character buffers |
| ChampAtom.AtomMeta.ParseAliphatic | contrib/_champ/atom.cpp:12-17 | ORs the mask into `atom`, sets `pos_flag` and sets `comp_imp_hydro_flag` to the argument; nothing else changes |
| ChampAtom.AtomMeta.ParseAromatic | contrib/_champ/atom.cpp:19-25 | as `parseAliphatic`, and also ORs `Class::Aliphatic` into `atom_type` |
| ChampAtom.AtomMeta.ParseString | contrib/_champ/atom.cpp:27-33 | ORs `Any` into `atom`, copies the first two characters into `symbol` and sets `pos_flag` |
| ChampAtom.AtomMeta.RouteMask | contrib/_champ/atom.cpp:38-45 | ORs the mask into `not_atom` with `neg_flag` under negation, else into `atom` with `pos_flag`, and sets `hydro_flag` |
| ChampAtom.AtomMeta.ParseBlockChar | contrib/_champ/atom.cpp:35-51 | routes the mask; a `Sym` mask stores the character and a NUL after it |
| ChampAtom.AtomMeta.ParseBlockStr | contrib/_champ/atom.cpp:53-68 | routes the mask; a `Sym` mask copies two characters as `strncpy` does, stopping at a NUL and padding with NULs |
| ChampAtom.AtomMeta.RouteClass | contrib/_champ/atom.cpp:349-357 | ORs a class bit into `not_class` or `_class` with the matching flag |
| ChampAtom.AtomMeta.RouteDegree | contrib/_champ/atom.cpp:196-206 | ORs a degree bit into `not_degree` or `degree` with the matching flag |
| ChampAtom.AtomMeta.RouteCycle | contrib/_champ/atom.cpp:372-394 | ORs a ring bit into `not_cycle` or `cycle` with the matching flag |
| ChampAtom.AtomMeta.RouteValence | contrib/_champ/atom.cpp:426-436 | ORs a valence bit into `not_valence` under negation, otherwise into `degree` |
| ChampAtom.AtomMeta.RouteCharge | contrib/_champ/atom.cpp:481-490 | ORs a charge bit into `not_charge` or `charge` with the matching flag |
| ChampAtom.AtomMeta.StepAt | contrib/_champ/atom.cpp:84-525 | one turn of the loop on the object: the new fields and the action are those `Step` gives |
| ChampAtom.AtomMeta.PunctAt | contrib/_champ/atom.cpp:90-127 | the punctuation branches on the object, as `PunctStep` gives them |
| ChampAtom.AtomMeta.CapitalAt | contrib/_champ/atom.cpp:128-466 | the capital-letter branches on the object, as `CapitalStep` gives them |
| ChampAtom.AtomMeta.ElementAt | contrib/_champ/atom.cpp:154-466 | the element branches on the object, as `ElementStep` gives them |
| ChampAtom.AtomMeta.DegreeAt | contrib/_champ/atom.cpp:190-210 | the `D` branch on the object, as `DegreeStep` gives it |
| ChampAtom.AtomMeta.HydrogenAt | contrib/_champ/atom.cpp:242-272 | the `H` branch on the object, as `HydrogenStep` gives it |
| ChampAtom.AtomMeta.LowerAt | contrib/_champ/atom.cpp:145-523 | the lower-case and charge branches on the object, as `LowerStep` gives them |
| ChampAtom.AtomMeta.ParseAtomBlock | contrib/_champ/atom.cpp:70-528 | clears `comp_imp_hydro_flag` and runs the loop: the result, the iterator and the fields are those of the specification; it returns `true` exactly after consuming the first `]`, masks only gain bits, and negation reaches only the masks the block's `!` and `;` allow |
| ChampAtomProperties.PunctOutcomes | contrib/_champ/atom.cpp:90-127 | among `]`, `!`, `,`, `;`, `*`, `?` and `@`, the only turn that runs away is `@` without a digit after it |
| ChampAtomProperties.CapitalOutcomes | contrib/_champ/atom.cpp:128-466 | a capital breaks exactly for `X` and for a `G` not followed by `a`, `d` or `e`; runs away exactly for `D9` and for an `H` count after an atom with no digit and no `e`, `f`, `g`, `o`; clears `ok` exactly for a `D` followed by neither `y` nor a digit |
| ChampAtomProperties.LowerOutcomes | contrib/_champ/atom.cpp:145-523 | outside the capitals and the punctuation, a turn breaks exactly when the character is none of `a`, `p`, `r`, `v`, `+`, `-`; runs away exactly for `+` or `-` without a digit and for `v9`; clears `ok` exactly for `v` without a digit |
| ChampAtomProperties.BreaksExactly | contrib/_champ/atom.cpp:521-523 | the loop breaks, leaving the iterator on the character, exactly on a character with no branch or a `G` not followed by `a`, `d`, `e` |
| ChampAtomProperties.RunawayExactly | contrib/_champ/atom.cpp:112-125 | a turn never ends (or reads past a nine-entry table) exactly for `@`, `+`, `-` without a digit, an `H` count after an atom with neither a digit nor `e`, `f`, `g`, `o` after it, and `D9` or `v9` |
| ChampAtomProperties.NotOkExactly | contrib/_champ/atom.cpp:196-208 | `ok` is cleared exactly by a `D` not followed by `y`, or a `v`, with no digit after it |
| ChampAtomExamples.AliphaticExample | contrib/_champ/tests/atom_test.cpp:9-17 | `parseAliphatic(Atom::C, true)` on a fresh atom sets `atom` to `C`, `pos_flag` and `comp_imp_hydro_flag` |
| ChampAtomExamples.AromaticExample | contrib/_champ/tests/atom_test.cpp:19-29 | `parseAromatic(Atom::C, false)` sets `atom` to `C`, `atom_type` to `Class::Aliphatic`, `pos_flag`, and leaves `comp_imp_hydro_flag` false |
| ChampAtomExamples.StringExample | contrib/_champ/tests/atom_test.cpp:31-40 | `parseString("AM")` sets `atom` to `Any`, `pos_flag`, and the symbol to `AM` |
| ChampAtomExamples.BlockExamples | contrib/_champ/tests/atom_test.cpp:42-67 | a negated `Sym` block with `AM` sets `not_atom`, `neg_flag`, `hydro_flag` and the NUL-terminated symbol `AM`; a positive `Sym` block with `M` sets `atom`, `pos_flag`, `hydro_flag` and the symbol `M` followed by NUL |
| ChampAtomExamples.BracketExample | contrib/_champ/tests/atom_test.cpp:85-91 | the block `]` returns `true` with the iterator just past the bracket |
| ChampAtomExamples.WildcardExamples | contrib/_champ/tests/atom_test.cpp:93-110 | `*`, and `?` after it, leave `atom` equal to `Any` with `pos_flag` and `hydro_flag` set and no symbol written |
| ChampAtomExamples.ParsesAc | contrib/_champ/tests/atom_test.cpp:113 | parsing `Ac` alone, from a fresh atom, runs to the end of the input without a `]` and sets `atom` to `Sym`, `pos_flag` and `hydro_flag`, with the symbol `Ac` NUL-terminated |
| ChampAtomExamples.ParsesB | contrib/_champ/tests/atom_test.cpp:114 | parsing `B` alone, from a fresh atom, runs to the end of the input without a `]` and sets `atom` to `B`, `pos_flag` and `hydro_flag` |
| ChampAtomExamples.ParsesBr | contrib/_champ/tests/atom_test.cpp:115 | parsing `Br` alone, from a fresh atom, runs to the end of the input without a `]` and sets `atom` to `Br`, `pos_flag` and `hydro_flag` |
| ChampAtomExamples.ParsesBa | contrib/_champ/tests/atom_test.cpp:116 | parsing `Ba` alone, from a fresh atom, runs to the end of the input without a `]` and sets `atom` to `Sym`, `pos_flag` and `hydro_flag`, with the symbol `Ba` NUL-terminated |
| ChampAtomExamples.ParsesC | contrib/_champ/tests/atom_test.cpp:117 | parsing `C` alone, from a fresh atom, runs to the end of the input without a `]` and sets `atom` to `C`, `pos_flag` and `hydro_flag` |
| ChampAtomExamples.ParsesCa | contrib/_champ/tests/atom_test.cpp:118 | parsing `Ca` alone, from a fresh atom, runs to the end of the input without a `]` and sets `atom` to `Ca`, `pos_flag` and `hydro_flag` |
| ChampAtomExamples.ParsesCu | contrib/_champ/tests/atom_test.cpp:119 | parsing `Cu` alone, from a fresh atom, runs to the end of the input without a `]` and sets `atom` to `Cu`, `pos_flag` and `hydro_flag` |
| ChampAtomExamples.ParsesCl | contrib/_champ/tests/atom_test.cpp:120 | parsing `Cl` alone, from a fresh atom, runs to the end of the input without a `]` and sets `atom` to `Cl`, `pos_flag` and `hydro_flag` |
| ChampAtomExamples.ParsesCd | contrib/_champ/tests/atom_test.cpp:121 | parsing `Cd` alone, from a fresh atom, runs to the end of the input without a `]` and sets `atom` to `Sym`, `pos_flag` and `hydro_flag`, with the symbol `Cd` NUL-terminated |
| ChampAtomExamples.ParsesDy | contrib/_champ/tests/atom_test.cpp:122 | parsing `Dy` alone, from a fresh atom, runs to the end of the input without a `]` and sets `atom` to `Sym`, `pos_flag` and `hydro_flag`, with the symbol `Dy` NUL-terminated |
| ChampAtomExamples.ParsesE | contrib/_champ/tests/atom_test.cpp:123 | parsing `E` alone, from a fresh atom, runs to the end of the input without a `]` and sets `atom` to `E`, `pos_flag` and `hydro_flag` |
| ChampAtomExamples.ParsesEr | contrib/_champ/tests/atom_test.cpp:124 | parsing `Er` alone, from a fresh atom, runs to the end of the input without a `]` and sets `atom` to `Sym`, `pos_flag` and `hydro_flag`, with the symbol `Er` NUL-terminated |
| ChampAtomExamples.ParsesF | contrib/_champ/tests/atom_test.cpp:125 | parsing `F` alone, from a fresh atom, runs to the end of the input without a `]` and sets `atom` to `F`, `pos_flag` and `hydro_flag` |
| ChampAtomExamples.ParsesFe | contrib/_champ/tests/atom_test.cpp:126 | parsing `Fe` alone, from a fresh atom, runs to the end of the input without a `]` and sets `atom` to `Fe`, `pos_flag` and `hydro_flag` |
| ChampAtomExamples.ParsesFr | contrib/_champ/tests/atom_test.cpp:127 | parsing `Fr` alone, from a fresh atom, runs to the end of the input without a `]` and sets `atom` to `Sym`, `pos_flag` and `hydro_flag`, with the symbol `Fr` NUL-terminated |
| ChampAtomExamples.ParsesGa | contrib/_champ/tests/atom_test.cpp:128 | parsing `Ga` alone, from a fresh atom, runs to the end of the input without a `]` and sets `atom` to `Sym`, `pos_flag` and `hydro_flag`, with the symbol `Ga` NUL-terminated |
| ChampAtomExamples.ParsesH | contrib/_champ/tests/atom_test.cpp:129 | parsing `H` alone, from a fresh atom, runs to the end of the input without a `]` and sets `atom` to `H`, `pos_flag` and `hydro_flag` |
| ChampAtomExamples.ParsesHe | contrib/_champ/tests/atom_test.cpp:130 | parsing `He` alone, from a fresh atom, runs to the end of the input without a `]` and sets `atom` to `Sym`, `pos_flag` and `hydro_flag`, with the symbol `He` NUL-terminated |
| ChampAtomExamples.ParsesI | contrib/_champ/tests/atom_test.cpp:131 | parsing `I` alone, from a fresh atom, runs to the end of the input without a `]` and sets `atom` to `I`, `pos_flag` and `hydro_flag` |
| ChampAtomExamples.ParsesIn | contrib/_champ/tests/atom_test.cpp:132 | parsing `In` alone, from a fresh atom, runs to the end of the input without a `]` and sets `atom` to `Sym`, `pos_flag` and `hydro_flag`, with the symbol `In` NUL-terminated |
| ChampAtomExamples.ParsesJ | contrib/_champ/tests/atom_test.cpp:133 | parsing `J` alone, from a fresh atom, runs to the end of the input without a `]` and sets `atom` to `J`, `pos_flag` and `hydro_flag` |
| ChampAtomExamples.ParsesK | contrib/_champ/tests/atom_test.cpp:134 | parsing `K` alone, from a fresh atom, runs to the end of the input without a `]` and sets `atom` to `K`, `pos_flag` and `hydro_flag` |
| ChampAtomExamples.ParsesL | contrib/_champ/tests/atom_test.cpp:135 | parsing `L` alone, from a fresh atom, runs to the end of the input without a `]` and sets `atom` to `L`, `pos_flag` and `hydro_flag` |
| ChampAtomExamples.ParsesLa | contrib/_champ/tests/atom_test.cpp:136 | parsing `La` alone, from a fresh atom, runs to the end of the input without a `]` and sets `atom` to `Sym`, `pos_flag` and `hydro_flag`, with the symbol `La` NUL-terminated |
| ChampAtomExamples.ParsesM | contrib/_champ/tests/atom_test.cpp:137 | parsing `M` alone, from a fresh atom, runs to the end of the input without a `]` and sets `atom` to `M`, `pos_flag` and `hydro_flag` |
| ChampAtomExamples.ParsesMg | contrib/_champ/tests/atom_test.cpp:138 | parsing `Mg` alone, from a fresh atom, runs to the end of the input without a `]` and sets `atom` to `Mg`, `pos_flag` and `hydro_flag` |
| ChampAtomExamples.ParsesMo | contrib/_champ/tests/atom_test.cpp:139 | parsing `Mo` alone, from a fresh atom, runs to the end of the input without a `]` and sets `atom` to `Sym`, `pos_flag` and `hydro_flag`, with the symbol `Mo` NUL-terminated |
| ChampAtomExamples.ParsesN | contrib/_champ/tests/atom_test.cpp:140 | parsing `N` alone, from a fresh atom, runs to the end of the input without a `]` and sets `atom` to `N`, `pos_flag` and `hydro_flag` |
| ChampAtomExamples.ParsesNa | contrib/_champ/tests/atom_test.cpp:141 | parsing `Na` alone, from a fresh atom, runs to the end of the input without a `]` and sets `atom` to `Na`, `pos_flag` and `hydro_flag` |
| ChampAtomExamples.ParsesNb | contrib/_champ/tests/atom_test.cpp:142 | parsing `Nb` alone, from a fresh atom, runs to the end of the input without a `]` and sets `atom` to `Sym`, `pos_flag` and `hydro_flag`, with the symbol `Nb` NUL-terminated |
| ChampAtomExamples.ParsesO | contrib/_champ/tests/atom_test.cpp:143 | parsing `O` alone, from a fresh atom, runs to the end of the input without a `]` and sets `atom` to `O`, `pos_flag` and `hydro_flag` |
| ChampAtomExamples.ParsesOs | contrib/_champ/tests/atom_test.cpp:144 | parsing `Os` alone, from a fresh atom, runs to the end of the input without a `]` and sets `atom` to `Sym`, `pos_flag` and `hydro_flag`, with the symbol `Os` NUL-terminated |
| ChampAtomExamples.ParsesP | contrib/_champ/tests/atom_test.cpp:145 | parsing `P` alone, from a fresh atom, runs to the end of the input without a `]` and sets `atom` to `P`, `pos_flag` and `hydro_flag` |
| ChampAtomExamples.ParsesPb | contrib/_champ/tests/atom_test.cpp:146 | parsing `Pb` alone, from a fresh atom, runs to the end of the input without a `]` and sets `atom` to `Sym`, `pos_flag` and `hydro_flag`, with the symbol `Pb` NUL-terminated |
| ChampAtomExamples.ParsesQ | contrib/_champ/tests/atom_test.cpp:147 | parsing `Q` alone, from a fresh atom, runs to the end of the input without a `]` and sets `atom` to `Q`, `pos_flag` and `hydro_flag` |
| ChampAtomExamples.ParsesR | contrib/_champ/tests/atom_test.cpp:148 | parsing `R` alone, from a fresh atom, runs to the end of the input without a `]` and sets `atom` to `R`, `pos_flag` and `hydro_flag` |
| ChampAtomExamples.ParsesRb | contrib/_champ/tests/atom_test.cpp:149 | parsing `Rb` alone, from a fresh atom, runs to the end of the input without a `]` and sets `atom` to `Sym`, `pos_flag` and `hydro_flag`, with the symbol `Rb` NUL-terminated |
| ChampAtomExamples.ParsesS | contrib/_champ/tests/atom_test.cpp:150 | parsing `S` alone, from a fresh atom, runs to the end of the input without a `]` and sets `atom` to `S`, `pos_flag` and `hydro_flag` |
| ChampAtomExamples.ParsesSe | contrib/_champ/tests/atom_test.cpp:151 | parsing `Se` alone, from a fresh atom, runs to the end of the input without a `]` and sets `atom` to `Se`, `pos_flag` and `hydro_flag` |
| ChampAtomExamples.ParsesSi | contrib/_champ/tests/atom_test.cpp:152 | parsing `Si` alone, from a fresh atom, runs to the end of the input without a `]` and sets `atom` to `Sym`, `pos_flag` and `hydro_flag`, with the symbol `Si` NUL-terminated |
| ChampAtomExamples.ParsesT | contrib/_champ/tests/atom_test.cpp:153 | parsing `T` alone, from a fresh atom, runs to the end of the input without a `]` and sets `atom` to `T`, `pos_flag` and `hydro_flag` |
| ChampAtomExamples.ParsesTa | contrib/_champ/tests/atom_test.cpp:154 | parsing `Ta` alone, from a fresh atom, runs to the end of the input without a `]` and sets `atom` to `Sym`, `pos_flag` and `hydro_flag`, with the symbol `Ta` NUL-terminated |
| ChampAtomExamples.ParsesU | contrib/_champ/tests/atom_test.cpp:155 | parsing `U` alone, from a fresh atom, runs to the end of the input without a `]` and sets `atom` to `Sym`, `pos_flag` and `hydro_flag`, with the symbol `U` NUL-terminated |
| ChampAtomExamples.ParsesV | contrib/_champ/tests/atom_test.cpp:156 | parsing `V` alone, from a fresh atom, runs to the end of the input without a `]` and sets `atom` to `Sym`, `pos_flag` and `hydro_flag`, with the symbol `V` NUL-terminated |
| ChampAtomExamples.ParsesW | contrib/_champ/tests/atom_test.cpp:157 | parsing `W` alone, from a fresh atom, runs to the end of the input without a `]` and sets `atom` to `Sym`, `pos_flag` and `hydro_flag`, with the symbol `W` NUL-terminated |
| ChampAtomExamples.ParsesY | contrib/_champ/tests/atom_test.cpp:158 | parsing `Y` alone, from a fresh atom, runs to the end of the input without a `]` and sets `atom` to `Sym`, `pos_flag` and `hydro_flag`, with the symbol `Y` NUL-terminated |
| ChampAtomExamples.ParsesYb | contrib/_champ/tests/atom_test.cpp:159 | parsing `Yb` alone, from a fresh atom, runs to the end of the input without a `]` and sets `atom` to `Sym`, `pos_flag` and `hydro_flag`, with the symbol `Yb` NUL-terminated |
| ChampAtomExamples.ParsesZ | contrib/_champ/tests/atom_test.cpp:160 | parsing `Z` alone, from a fresh atom, runs to the end of the input without a `]` and sets `atom` to `Z`, `pos_flag` and `hydro_flag` |
| ChampAtomExamples.ParsesZn | contrib/_champ/tests/atom_test.cpp:161 | parsing `Zn` alone, from a fresh atom, runs to the end of the input without a `]` and sets `atom` to `Zn`, `pos_flag` and `hydro_flag` |
| ChampAtomExamples.ParsesZr | contrib/_champ/tests/atom_test.cpp:162 | parsing `Zr` alone, from a fresh atom, runs to the end of the input without a `]` and sets `atom` to `Sym`, `pos_flag` and `hydro_flag`, with the symbol `Zr` NUL-terminated |
| ChampBond.OrderBits | contrib/_champ/include/bond.hpp:6-12 | `Single`, `Double` and `Triple` are bits 0, 1 and 2; `AnyOrder` is exactly the three together and `NoOrder` has no bit |
| ChampBond.Direction.Code | contrib/_champ/include/bond.hpp:19-23 | every direction has a value between -1 and 1, and only `Specified` has 0 |
| ChampBond.DirectionCodes | contrib/_champ/include/bond.hpp:19-23 | `Specified`, `Up` and `Down` are 0, 1 and -1, so a value names one direction only |
| ChampBond.TagIndex | contrib/_champ/bond.cpp:36-43 | a digit followed by a digit is the two-digit index, otherwise the one-digit index, below 100 either way |
| ChampBond.OkExactlyWhenClosed | contrib/_champ/bond.cpp:19-29 | the tag loop ends with `ok` set exactly when a `>` lies ahead; reaching `it_end` first clears it |
| ChampBond.TagsGrow | contrib/_champ/bond.cpp:49-53 | `tag` and `not_tag` keep every bit they had before the call |
| ChampBond.NoBangKeepsNotTag | contrib/_champ/bond.cpp:30-35 | without a `!` ahead nothing is ORed into `not_tag` |
| ChampBond.Bond.constructor | contrib/_champ/include/bond.hpp:25-47 | the initialised fields are 0 and `Specified`; the fields without initialiser hold the supplied values |
| ChampBond.Bond.ParseTag | contrib/_champ/bond.cpp:8-57 | `ok` and the two masks end as the tag loop specifies (nothing happens when `ok` starts false), and every other field of the bond is unchanged |
| ChampBond.TagMask | contrib/_champ/bond.cpp:44-48 | shifting 1 left `map_index` times in 32 bits gives bit `map_index`, or 0 once it is shifted out |
| ChampBond.ShiftBit | contrib/_champ/bond.cpp:44-48 | one more shift moves bit `j` to bit `j + 1`, and nothing stays nothing |
| ChampBond.TagListExample | contrib/_champ/bond.cpp:11-11 | `<1,2,!3>` ORs bits 1 and 2 into `tag` and bit 3 into `not_tag`, and succeeds |
| ChampBond.PairExample | contrib/_champ/bond.cpp:36-48 | `<12;40>` reads `12` as one index and sets bit 12; index 40 is shifted out and adds nothing |
| ChampBond.UnclosedExample | contrib/_champ/bond.cpp:26-29 | a tag list with no closing `>` fails |
| ShaderText.Name | create_shadertext.py:55-55 | `Path.name` is the part of the path after its last `/`: a suffix of the path with no `/` in it |
| ShaderText.RFind | create_shadertext.py:44-44 | the position of the last occurrence of the character, or -1 when there is none |
| ShaderText.Suffix | create_shadertext.py:44-44 | `Path.suffix` is empty or the name's tail from its last dot, that dot neither first nor last in the name |
| ShaderText.SuffixExamples | create_shadertext.py:41-45 | `a.vs` has suffix `.vs`, `b.a.fs` has `.fs`; `.vs`, `vs.` and `vs` have none, so a dot-file is never a shader |
| ShaderText.BreaksAreSpace | create_shadertext.py:58-59 | every line boundary of `splitlines` is whitespace to `strip` |
| ShaderText.NextBreak | create_shadertext.py:58-58 | the first line boundary at or after the position, with none before it |
| ShaderText.LinesUnbroken | create_shadertext.py:58-58 | no line `splitlines` gives contains a line boundary |
| ShaderText.SplitCrLfExample | create_shadertext.py:58-58 | `\r\n` is one boundary and a final boundary opens no empty line |
| ShaderText.SplitEmptyLineExample | create_shadertext.py:58-58 | two boundaries in a row enclose an empty line |
| ShaderText.TrimLeft | create_shadertext.py:59-59 | a suffix of the line that does not start with whitespace |
| ShaderText.TrimLeftCuts | create_shadertext.py:59-59 | only whitespace is cut from the front |
| ShaderText.TrimRight | create_shadertext.py:59-59 | a prefix of the line that does not end with whitespace |
| ShaderText.TrimRightCuts | create_shadertext.py:59-59 | only whitespace is cut from the back |
| ShaderText.StripMeaning | create_shadertext.py:59-59 | `strip` gives a slice of the line with only whitespace cut around it, and the slice neither starts nor ends with whitespace |
| ShaderText.StripIdempotent | create_shadertext.py:59-59 | stripping a stripped line changes nothing |
| ShaderText.WordAt | create_shadertext.py:71-71 | the longest leading run without whitespace |
| ShaderText.WordsAreWords | create_shadertext.py:71-71 | every piece `split()` gives is a non-empty run without whitespace |
| ShaderText.FirstWordExample | create_shadertext.py:71-71 | in `#if  A` the first word is `#if` |
| ShaderText.LastWordExample | create_shadertext.py:71-71 | leading whitespace gives no empty word |
| ShaderText.WordsExample | create_shadertext.py:71-71 | `#if  A` splits into `#if` and `A`, the doubled space giving no empty word |
| ShaderText.NoEndInX | create_shadertext.py:62-62 | `x` holds no comment end |
| ShaderText.NoEndInSlashX | create_shadertext.py:62-62 | `/x` holds no comment end |
| ShaderText.BlankSkipped | create_shadertext.py:62-63 | a line of blanks is dropped once stripped |
| ShaderText.CommentSkipped | create_shadertext.py:62-63 | a `//` line is dropped |
| ShaderText.KeptExamples | create_shadertext.py:62-63 | a `//` line holding a comment end is kept, and so is code followed by `//` |
| ShaderText.ReplaceAppend | create_shadertext.py:66-66 | replacing in a concatenation is replacing in each part |
| ShaderText.EscapeIsTwoReplaces | create_shadertext.py:66-66 | the two `replace` calls, backslashes first, double every backslash and put one before every double quote, so neither is escaped twice |
| ShaderText.UnescapePair | create_shadertext.py:67-67 | a backslash pair in a C literal stands for the character after it, `n` for a line feed |
| ShaderText.UnescapeSingle | create_shadertext.py:67-67 | any other character in a C literal stands for itself |
| ShaderText.EscapeRoundTrip | create_shadertext.py:66-67 | the written literal `"<escaped>\n"` stands for exactly the stripped line and a line feed |
| ShaderText.EscapedQuotes | create_shadertext.py:66-67 | every double quote of an escaped line has a backslash before it, so the literal cannot end early |
| ShaderText.ClassifyMeaning | create_shadertext.py:70-73 | an `#include` line gives an include key and is never taken as `#ifdef`; an `#ifdef` or `#ifndef` line gives an ifdef key; the key is the second word; a directive with no second word raises; any other line adds nothing |
| ShaderText.DepMap.Add | create_shadertext.py:71-71 | `deps[key].add(name)` adds the name to the set under `key`, creating it empty and appending the key at first use; nothing else changes |
| ShaderText.AddValid | create_shadertext.py:36-37 | adding keeps every key listed once, in first-use order |
| ShaderText.AddHas | create_shadertext.py:71-73 | after `add`, exactly one more key and name pair is present |
| ShaderText.CrashedLinesStay | create_shadertext.py:71-73 | once `split()[1]` has raised, the remaining lines change nothing |
| ShaderText.CrashedFilesStay | create_shadertext.py:54-75 | once it has raised, the remaining files change nothing |
| ShaderText.CrashStays | create_shadertext.py:58-73 | a line loop that did not raise started from a state that had not raised |
| ShaderText.LineIncludes | create_shadertext.py:70-71 | a line adds its file's name under `k` to `include_deps` exactly when it is kept and is `#include k` |
| ShaderText.LineIfdefs | create_shadertext.py:72-73 | a line adds its file's name under `k` to `ifdef_deps` exactly when it is kept and is `#ifdef k` or `#ifndef k` |
| ShaderText.LinesIncludes | create_shadertext.py:58-73 | after a file's lines, `include_deps[k]` holds a name exactly when it did before or the name is the file's and a kept line is `#include k` |
| ShaderText.LinesIfdefs | create_shadertext.py:58-73 | the same for `ifdef_deps` and the `#ifdef` and `#ifndef` lines |
| ShaderText.LinesCrash | create_shadertext.py:58-73 | the line loop raises exactly when some kept line is a directive with no second word |
| ShaderText.FilesCrashStays | create_shadertext.py:54-75 | a walk that did not raise did not raise in its first file either |
| ShaderText.FileIncludes | create_shadertext.py:54-75 | one file adds exactly its own name under the keys it `#include`s |
| ShaderText.FileIfdefs | create_shadertext.py:54-75 | one file adds exactly its own name under the keys it tests with `#ifdef` or `#ifndef` |
| ShaderText.FilesIncludes | create_shadertext.py:54-75 | over the walk, `include_deps[k]` gains exactly the names of the files with a kept `#include k` |
| ShaderText.FilesIfdefs | create_shadertext.py:54-75 | over the walk, `ifdef_deps[k]` gains exactly the names of the files that test `k` |
| ShaderText.LinesValid | create_shadertext.py:58-73 | the line loop keeps each map's keys listed once, in first-use order |
| ShaderText.FileValid | create_shadertext.py:54-75 | one file keeps each map's keys listed once |
| ShaderText.FileDeps | create_shadertext.py:55-75 | a file's block ends with the maps its lines leave, and its text extends the text its lines write |
| ShaderText.FilesValid | create_shadertext.py:54-75 | the whole walk keeps each map's keys listed once |
| ShaderText.LineText | create_shadertext.py:62-67 | a line that does not raise appends its quoted, escaped literal when kept, and nothing otherwise |
| ShaderText.LineGrows | create_shadertext.py:58-73 | a line only appends to the source text |
| ShaderText.LinesText | create_shadertext.py:58-73 | when no line raises, the line loop appends exactly the quoted kept lines, in order |
| ShaderText.FileText | create_shadertext.py:55-75 | a file that does not raise appends its name line, its kept lines and a comma line |
| ShaderText.FilesText | create_shadertext.py:54-75 | when nothing raises, the cache array holds one block per file, in walk order |
| ShaderText.StrLeTotal | create_shadertext.py:86-86 | Python's string order relates any two strings |
| ShaderText.StrLeAntisymmetric | create_shadertext.py:86-86 | strings in order both ways are equal |
| ShaderText.StrLeTransitive | create_shadertext.py:86-86 | Python's string order is transitive |
| ShaderText.AllAntisymmetric | create_shadertext.py:86-86 | the order is antisymmetric for all pairs at once |
| ShaderText.LeastExists | create_shadertext.py:86-86 | every non-empty set of names has a least one |
| ShaderText.Least | create_shadertext.py:86-86 | the least name of a non-empty set belongs to it and precedes every other |
| ShaderText.SortedNames | create_shadertext.py:86-86 | `sorted` gives each name of the set once and nothing else |
| ShaderText.SortedNamesIncreasing | create_shadertext.py:86-86 | the sorted names are strictly increasing |
| ShaderText.SortedExample | create_shadertext.py:86-87 | `b.vs` and `a.fs` sort to `a.fs` then `b.vs`, joined with `", "` between them |
| ShaderText.CreateShaderText | create_shadertext.py:29-88 | for any walk order that visits each found shader file once, the header and source texts are those the generator writes, also when a malformed directive raises part-way |
| ShaderText.WriteFile | create_shadertext.py:55-75 | one pass of the outer loop: the file's heading, its lines, and the closing comma unless it raised |
| ShaderText.WriteLine | create_shadertext.py:59-73 | one pass of the inner loop: strip, skip or write, then record a directive |
| ShaderText.WriteDeps | create_shadertext.py:83-88 | appends one dependency array: the opening, an entry per key in first-use order with its names sorted and joined, and the terminator |
| ShaderText.FilesCrash | create_shadertext.py:54-75 | the walk raises exactly when some file has a kept directive line with no second word |
| ShaderText.CompletesExactly | create_shadertext.py:29-88 | the generator runs to the end exactly when no kept `#include`, `#ifdef` or `#ifndef` line lacks its name |
| ShaderText.GeneratedLayout | create_shadertext.py:51-88 | a run that raises has written the first declaration and an opened cache array; a complete run writes three declarations to the header and, to the source, the cache array with one block per file and its terminator, then the include and ifdef arrays |
| ShaderText.SourceGrows | create_shadertext.py:54-75 | the walk only appends to the source text |
| ShaderText.FileGrows | create_shadertext.py:55-75 | one file only appends to the source text |
| ShaderText.LinesGrow | create_shadertext.py:58-73 | the line loop only appends to the source text |
| ShaderText.CollectedDeps | create_shadertext.py:36-73 | in a complete run, `include_deps[k]` is exactly the names of the files with a kept `#include k` line, `ifdef_deps[k]` those testing `k`, and each lists its keys once |

## Left out

- The `Atom`, `Bond` and `Molecule` classes of chempy are not part of this model. The model gives atoms a symbol, a coordinate and an optional name, and bonds an endpoint pair and an order. The atom queries the containers call (`in_same_residue`, `get_mass`, `get_number`, `get_free_valence`, `has`, and the ordering `sort` uses) are function parameters. The permutation Python's `sort` produces is an input.
- `send_feedback`, `list`, `from_molobj` and `get_min_max` of `models.py` are left out: the first two only print, `from_molobj` copies from a foreign molecule object, and `get_min_max` is float min/max over coordinates.
- Python floats are `real`: rounding, NaN and infinities are not modelled. The parts of `cpv.py` that need a square root, trigonometry or random numbers are left out (`distance`, `length`, `normalize`, `normalize_failsafe`, `get_system2`, `get_angle`, `get_angle_formed_by`, `rotation_matrix`, the `random_*` functions), and so is the Jacobi iteration of `fit` after its argument checks and centroids.
- VectorMath.DistanceSq: the contract states that the result is never negative and is zero for coincident points, with symmetry proved beside it. It does not state the converse, that the result is zero only for coincident points; the body, a sum of three squares, still defines the value exactly.
- InternalCoords.InternalTuples: takes `cpv.distance` as an uninterpreted parameter. It requires, for three or more atoms, some atom with two bucket entries; without one the source indexes bucket -1, which Python reads as the last bucket.
- ChempyModels.Indexed.DeleteAtom, ChempyModels.Connected.DeleteAtom, ChempyModels.Indexed.InsertAtom, ChempyModels.Connected.InsertAtom: positions are required to be in range. Python's negative indices and the clamping of `list.insert` are not modelled.
- ChempyCore.RemapEndpoints, Compaction.RenumberBonds, Compaction.RenumberInto, ChempyModels.Indexed.DeleteList, ChempyModels.Indexed.Compact, ChempyModels.Indexed.CompactBonds, ChempyModels.Indexed.Sort, ChempyModels.SortBuckets, ChempyModels.Connected.Sort: after a KeyError in the middle of a bond loop (models.py:249-258 for `delete_list`, models.py:376-378 and 605-611 for the two `sort` methods) the model states only that the loop stopped and, where the source keeps it, that the bond list and the index are as they were. The endpoints that the earlier references already rewrote in place before the failing lookup are not described.
- ChempyModels.Connected.Sort: a slot of the new bucket list that no bucket is sent to holds an empty bucket, where the source leaves `None`.
- ChempyModels.Indexed.Merge: requires the other container to be a different object. Merging a container into itself is not modelled.
- ChempyModels.Indexed.Merge: the shifted endpoints are stated through `Shift`; that each of them lies past the merged atoms, so that any later subscript with it fails, is MergedEndpointDangles.
- InternalCoords.InternalTuples: requires non-negative endpoints. A negative endpoint would count from the end of the bucket list in the source.
- ChempyModels.Indexed.IndexAtom, ChempyModels.FirstPosition: atom equality (`in` and `list.index`) is taken as identity; the `__eq__` of the `Atom` class is not part of this model.
- VectorMath: every routine requires 3-component vectors (`IsVec`) and 3x3 matrices. On shorter arguments `cpv.py` raises an IndexError, which is not modelled.
- ChampAtom.AtomMeta.ParseAtomBlock: when the source runs away, the model reports `Undefined` and promises nothing about the fields. The C++ loop either never ends or reads past `it_end` or a nine-entry table, which is undefined behaviour.
- ChampAtom.AtomMeta.ParseString: requires a string view of at least two characters. Reading a shorter view is undefined behaviour in the source.
- The fields without an initialiser (`imp_hydro` and `tot_hydro` of `AtomMeta`, and `atom`, `pri`, `mark_*`, `ext_index`, `tag`, `not_tag`, `cycle` and `not_cycle` of `Bond`) are constructor parameters, since their start values are indeterminate.
- The C++ iterator is an index into the characters. Reading one past the end gives NUL, as `std::string` stores one. Reading further is undefined behaviour; the atom parser reports it as `Undefined`. On a tag list with no closing `>`, the bond parser (`bond.cpp:20-21`) reads the character and its successor before its `it_end` test, so it reads one past the stored NUL; that value is never used, and the model takes the defined path where the parse fails (`ok == false`).
- `AtomMeta::operator==` (`atom.hpp`) is left out: it compares character arrays by address. `champ.cpp` and `champ.hpp` are not part of this model: `smiToPat` does not compile, and the rest is pybind11 glue and a memory dump.
- In `create_shadertext.py`:
  - the globbing is replaced by a list of found files, and a directory matched by the glob is not modelled;
  - the same path for header and source is not modelled;
  - `read_text` decoding is not modelled, so the files are given as strings;
  - the iteration order of the Python set is an input permutation.
  - Python's whitespace and line-boundary tables are given as character sets; other Unicode properties are not modelled.
  - `create_buildinfo` and `create_all` (git subprocess, clock, directory creation) are left out.
- `modules/pymol/keywords.py` and `setup.py` are not part of this model. The first is a command dispatch table over objects not shown. The second duplicates the shader-text generator next to build configuration.

## Findings

| source | as written | input that shows it | evidently intended | confidence | as-written member | corrected member |
|---|---|---|---|---|---|---|
| modules/chempy/cpv.py:286-293 | `fit_apply` adds the second vector of the fit result, which its own name `mt2` marks as minus `t2`, but `fit` returns `t2` itself, the source centroid (cpv.py:319-332, 394), and computes its own rmsd with `negate(t2)` (cpv.py:388) | the one-point array `[[1, 0, 0]]` with `t1` the null vector, `t2` its centroid and the identity matrix: `fit_apply` gives `[[2, 0, 0]]`, whose centroid is not `t1` | subtract `t2`, so that the source centroid lands on `t1` | medium; not executed (the test at testing/tests/chempy/test_cpv.py:478-500 pins the as-written formula) | VectorMath.FitApplyDoublesCentroid, VectorMath.FitApplyMissesTarget | VectorMath.FitApplyCentered, VectorMath.FitApplyCenteredHitsTarget |
