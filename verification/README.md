# Swarm light client: a verified model of its core

The client retrieves content from Swarm and follows live HLS streams. This project
models the algorithms and protocols underneath its networking and proves what they
promise, for every input, every order of arrival and every interleaving.

* **Reed-Solomon recovery** (`GaloisField`, `Matrices`, `Vandermonde`, `Elimination`,
  `CodingMatrix`, `ReedSolomon`). GF(256) from the shift-and-add loop up to its field
  laws; Gauss-Jordan in place; any `k` rows of the coding matrix are independent;
  reconstruction never meets a singular matrix and returns the original shards.
* **Chunk trees** (`ChunkLayout`, `Sums`, `RangeJoin`). The layout of a parent chunk
  tiles its span and fits in one chunk; the range join returns exactly the requested
  slice whatever order children arrive in, and terminates on malformed trees.
* **Shard groups** (`ShardGroup`, `GroupRules`, `GroupCoordinator`). The coordinator that
  asks for, hedges and rebuilds the shards of one group: no shard asked for twice, no child
  handed on twice, every child exactly once on success, rebuilding never refused; and when
  every shard has a fate of its own and answers keep coming, the group succeeds exactly
  when its children, or enough shards to rebuild them, can be had.
* **Feeds** (`FeedFrontier`). The exponential frontier search under arbitrary answers,
  with what must have been asked before it ends, and under a contiguous feed, with its
  bound on the number of waves.
* **Chunk addresses** (`MerkleTree`). The sparse in-place Merkle root equals the root
  of the full zero-padded tree.
* **Live streams** (`Playlists`, `PlaylistGrammar`, `PlaylistTails`, `PlaylistRendering`,
  `References`, `UriGrammar`, `StartupRunway`, `LiveFollower`). Reading, merging and writing
  playlists at the level of lines, the readers against grammars told by positions and
  parts, the tail merge against the full merge, and the follower's runs.
* **Caches and registries** (`ChunkCache`, `Singleflight`). The lazily invalidated
  recency queue refines a plain LRU map; every waiter of a shared fetch is owed and
  gets exactly one delivery.
* **Peers** (`Accounting`, `ConnectionSlots`). Conservation of reservations, debt and
  connection slots over every interleaving of lock-sized steps.
* **Replicas** (`Replicas`). The recursive slot allocator behind replica mining.

`Options` holds the optional value, the machine integers and other small shared notions.
Inductions are written out: every lemma carries `{:induction false}`.

## What turned out not to hold as stated

* A tail cut of a manifest need not extend the held playlist as the manifest does. For
  every cut that merges it does so exactly when the cut reads as aligned: behind its last
  segment with the held tail's payload it has as many segments as the manifest has beyond
  the held end, the first of them as many discontinuities away as in the manifest
  (`PlaylistTails.TailMergesIff`). This fails when a title cut in two reads as another
  duration (`PlaylistTails.FragmentMisleads`, `PlaylistTails.TitleReadsAsDuration`) and
  when a payload is repeated (`PlaylistTails.RepeatMisleads`). A tail can also merge where
  the full merge refuses the manifest (`PlaylistTails.TailAcceptsMore`). The follower's
  playlist stays a window of the stream exactly when every tail that merges is aligned
  with the stream in this sense (`LiveFollower.RunTracksIff`); distinct payloads are
  enough (`LiveFollower.DistinctTailFits`).
* A rendered playlist is read back exactly when its base URI has no scheme or a web
  scheme; a base such as `ftp://x` loses every segment
  (`PlaylistRendering.RunRoundTrips`).
* A rolling shard group waits without end exactly when the hedge gate passes between
  its two clock readings while nothing is under way and parity is left
  (`GroupCoordinator.Coordinator.TakeTurn`, `GroupCoordinator.SlipHappens`).
* A comment in `src/stream_follow.rs:348-349` speaks of two missing indices in a row;
  the code stops at the second missing index of a pass even when they are not adjacent.
  The model does what the code does.

## Model

| member | source | states |
|---|---|---|
| GaloisField.GfMul | src/erasure_coding.rs:685-701 | the shift-and-add loop computes the product of the field |
| GaloisField.GfPow | src/erasure_coding.rs:658-664 | the loop computes the power, for every exponent |
| GaloisField.GfDiv | src/erasure_coding.rs:666-683 | division undoes multiplication: the quotient times a non-zero denominator is the numerator |
| GaloisField.MulComm | src/erasure_coding.rs:685-701 | multiplication is commutative although the loop treats its operands differently |
| GaloisField.MulAssoc | src/erasure_coding.rs:685-701 | multiplication is associative |
| GaloisField.MulAddRight | src/erasure_coding.rs:685-701 | multiplication distributes over exclusive-or |
| GaloisField.MulIsHorner | src/erasure_coding.rs:685-701 | the loop equals evaluation bit by bit from the top, an independent definition of the product |
| GaloisField.Inverse | src/erasure_coding.rs:666-683 | every non-zero element times its 254th power is one |
| GaloisField.NoZeroDivisors | src/erasure_coding.rs:685-701 | a product is zero only if a factor is |
| Matrices.CombineDot | src/erasure_coding.rs:564-579 | combining rows first or applying them first gives the same value |
| Matrices.SwapKeepsKernel | src/erasure_coding.rs:611-616 | exchanging rows keeps the solutions of the system |
| Matrices.ScaleKeepsKernel | src/erasure_coding.rs:618-624 | scaling a row by a non-zero element keeps them |
| Matrices.AddKeepsKernel | src/erasure_coding.rs:626-653 | adding a multiple of another row keeps them |
| Vandermonde.ToByteInjective | src/erasure_coding.rs:526-541 | the row numbers below 256 are distinct field elements |
| Vandermonde.ToByteNumber | src/erasure_coding.rs:534 | the byte a row number is cast to stands for that number modulo 256 |
| Vandermonde.DoubleOfNumber | src/erasure_coding.rs:685-701 | doubling doubles the number and adds 0x1d when a bit falls out |
| Vandermonde.AddOfNumbers | src/erasure_coding.rs:685-701 | addition is the exclusive or of the numbers |
| Vandermonde.EvalIsDot | src/erasure_coding.rs:526-541 | a Vandermonde row applied to coefficients is the value of the polynomial |
| Vandermonde.RowsIndependent | src/erasure_coding.rs:526-541 | rows of distinct points have no dependency |
| Vandermonde.FewRoots | src/erasure_coding.rs:526-541 | a polynomial with as many distinct roots as coefficients is zero |
| Elimination.GaussJordan | src/erasure_coding.rs:601-656 | succeeds if and only if the work area is well shaped and its left block independent; then the left block is the identity and the solutions are those of the original system; the only failure is a singular matrix |
| Elimination.Pivot | src/erasure_coding.rs:611-624 | makes the pivot one without changing the solutions, or shows the rest of the column to be zero |
| Elimination.EliminateBelow | src/erasure_coding.rs:626-637 | clears the column below the pivot without changing the solutions |
| Elimination.EliminateAbove | src/erasure_coding.rs:640-653 | clears the column above the pivot without changing the solutions |
| Elimination.RightBlockSolves | src/erasure_coding.rs:601-656 | after elimination each right-hand column solves the original system |
| Elimination.DependentColumn | src/erasure_coding.rs:611-614 | a missing pivot is a proof of dependence |
| CodingMatrix.Invert | src/erasure_coding.rs:581-599 | returns a right inverse if and only if the matrix is invertible |
| CodingMatrix.MatrixMultiply | src/erasure_coding.rs:564-579 | each entry is the product of its row and column |
| CodingMatrix.MakeCodingMatrix | src/erasure_coding.rs:526-541 | succeeds if and only if 0 < data <= total <= 256, and its result times the top of the Vandermonde matrix is the Vandermonde matrix |
| CodingMatrix.CodingMatrixUnique | src/erasure_coding.rs:526-541 | there is only one such matrix |
| CodingMatrix.Systematic | src/erasure_coding.rs:526-541 | its first rows are unit rows |
| CodingMatrix.AnyRowsIndependent | src/erasure_coding.rs:526-541 | any data-count distinct rows are independent |
| CodingMatrix.TopInvertible | src/erasure_coding.rs:526-541 | the matrix that is inverted always can be |
| CodingMatrix.InverseOfTopCommutes | src/erasure_coding.rs:526-541 | the right inverse is a left inverse too |
| CodingMatrix.ProductIsCodingMatrix | src/erasure_coding.rs:526-541 | the product with the inverse satisfies the defining equation |
| ReedSolomon.CodeRowSlices | src/erasure_coding.rs:543-562 | the byte loops, with their skips for zero and one, compute the linear combination of the inputs, as far as both lists go and short inputs as if they ended in zeros |
| ReedSolomon.InverseRowsForSelected | src/erasure_coding.rs:464-508 | returns one decode row for each requested index if and only if the selection is square and invertible; each row combines the selected rows to the unit row of its index |
| ReedSolomon.FillWork | src/erasure_coding.rs:484-497 | the work area is the transposed selection beside the requested unit columns |
| ReedSolomon.SelectionInvertible | src/erasure_coding.rs:464-508 | every selection of distinct coding rows is invertible |
| ReedSolomon.DecodeRecovers | src/erasure_coding.rs:464-508 | a decode row applied to coded shards gives the original shard |
| ReedSolomon.CodingMatrixCache.Get | src/erasure_coding.rs:20-30 | a hit returns the stored matrix and becomes the newest entry; contents are unchanged otherwise |
| ReedSolomon.CodingMatrixCache.Insert | src/erasure_coding.rs:32-38 | keeps at most 64 entries, all of them coding matrices of their key |
| ReedSolomon.CodingMatrixCache.CachedCodingMatrix | src/erasure_coding.rs:510-524 | the cached answer is the coding matrix of the key, with the same errors as building it |
| ReedSolomon.CollectPresent | src/erasure_coding.rs:423-431 | collects the first present shards in order |
| ReedSolomon.ReconstructDataIndices | src/erasure_coding.rs:393-461 | the outcome is decided by counts, sizes and indices alone, so a singular matrix is unreachable; on success every requested missing shard is the original one for every encoding the present shards belong to; every other shard is unchanged |
| ReedSolomon.RecoveredIsOriginal | src/erasure_coding.rs:440-461 | recoding the selected shards gives the original data shard byte for byte |
| ChunkLayout.Branching | src/erasure_coding.rs:86-93 | the branching of each level and mode, and that its table fits a chunk at every step |
| ChunkLayout.FitsLookup | src/erasure_coding.rs:73-93 | a table checked at its steps bounds data and parity for every shard count |
| ChunkLayout.ReferencesFit | src/erasure_coding.rs:73-93 | data and parity references of any allowed count fit in 4096 bytes |
| ChunkLayout.ParitiesOfRow | src/erasure_coding.rs:73-84 | the parity count is that of the row with the greatest threshold within the shard count |
| ChunkLayout.BranchLevels | src/erasure_coding.rs:198-204 | the loop finds the height whose children have the layout's capacity, or overflows when that does |
| ChunkLayout.CheckedCapacity | src/erasure_coding.rs:206-209 | the capacity, or nothing when it overflows 64 bits |
| ChunkLayout.LayoutTiles | src/erasure_coding.rs:184-219 | 2 to `max_shards` children tile the span: all full but the last, which is not empty; a child holds what a full tree of some height holds, the greatest such size below the span; the parity count is the table's |
| ChunkLayout.LayoutHeight | src/erasure_coding.rs:198-211 | every span beyond a chunk lies between the sizes of two neighbouring heights, the children have the lower one, and there is no layout if and only if the upper size or the rounding leaves 64 bits |
| ChunkLayout.HeightUnique | src/erasure_coding.rs:198-204 | only one height fits a span |
| ChunkLayout.ReferenceLayout | src/erasure_coding.rs:184-219 | the loops compute that layout, for every span, and refuse the same spans |
| ChunkLayout.SplitReferencesFacts | src/erasure_coding.rs:248-277 | the references are as many and as long as the layout says and concatenate to the payload |
| ChunkLayout.PiecesJoin | src/erasure_coding.rs:248-277 | cutting into pieces and joining them gives the bytes back |
| RangeJoin.JoinRange | src/retrieval.rs:1634-1807 | terminates for every tree; no position is ever written twice; a result means each wanted byte was written once, by a leaf that the root's references lead to, at that leaf's place; for a well-formed tree of at most seven levels the result is the prefix and exactly the slice, in every order of arrival, and there is one whenever no fetch fails |
| RangeJoin.ChildReachable | src/retrieval.rs:1697-1803 | a child that its parent's reference resolves to and whose span fits its slot is in the tree below the root |
| RangeJoin.Launch | src/retrieval.rs:1697-1750 | a group asks for exactly the children that meet the range |
| RangeJoin.CopyLeaf | src/retrieval.rs:1676-1695 | copies exactly the wanted part of a leaf to its place |
| RangeJoin.Receive | src/retrieval.rs:1756-1803 | a child's arrival keeps every claim on the output exclusive |
| RangeJoin.LaunchLoad | src/retrieval.rs:1697-1750 | the children claim each wanted position of their parent exactly once |
| RangeJoin.LaunchWeight | src/retrieval.rs:1697-1750 | replacing a node by its children lowers the remaining work |
| RangeJoin.DeliverCarries | src/retrieval.rs:1778-1802 | handing a child over keeps what is claimed and what is written |
| RangeJoin.CountDecides | src/retrieval.rs:1676-1806 | counting written bytes is enough: the count is full if and only if every position was written |
| RangeJoin.HoldsSlice | src/retrieval.rs:1676-1806 | a fully written buffer holds the prefix and the slice |
| ShardGroup.SettleSound | src/retrieval.rs:1139-1185 | an answer keeps the books: successes count received shards, answered fetches are no longer owed, a wanted shard that arrived was handed on once |
| ShardGroup.DispatchSound | src/retrieval.rs:1060-1123 | asking for an unasked shard keeps the books and never asks twice |
| ShardGroup.HoldSound | src/retrieval.rs:1265-1275 | a cached raw shard counts as one received shard |
| ShardGroup.RebuildingSucceeds | src/retrieval.rs:1517-1521 | with enough successes, rebuilding meets no bad count, no bad size and no shortage |
| GroupRules.TurnedAgrees | src/retrieval.rs:1313-1499 | a turn keeps the books in agreement with the shards' fates |
| GroupRules.TerminalPossible | src/retrieval.rs:1336-1347 | a group that finishes could be had |
| GroupRules.GivesUpImpossible | src/retrieval.rs:1313-1499 | with the caller there and answers coming, a group gives up only what cannot be had |
| GroupRules.ProgressBound | src/retrieval.rs:1313-1499 | a run cannot go on taking the group further for more than twice the shard count of turns |
| GroupRules.RollsIff | src/retrieval_conventions.rs:149-169 | a whole group with something missing rolls if and only if it can do without any one of the shards it would ask for |
| GroupCoordinator.Coordinator.Settle | src/retrieval.rs:1139-1185 | the settled books, for usable, unusable and unreadable answers |
| GroupCoordinator.Coordinator.DispatchParity | src/retrieval.rs:1093-1115 | asks for at most the limit, in order, and for fewer only when all parity is asked for |
| GroupCoordinator.Coordinator.DispatchRecovery | src/retrieval.rs:1060-1091 | asks for at most the limit, data before parity and in order, and for fewer only when every shard is asked for |
| GroupCoordinator.Coordinator.NextParity | src/retrieval_conventions.rs:188-193 | an unasked parity shard if and only if there is one |
| GroupCoordinator.Coordinator.Begin | src/retrieval.rs:1218-1305 | known children are handed on, held raw shards count as received and every other wanted shard is asked for; the group rolls if and only if the rule says so |
| GroupCoordinator.Coordinator.RollingTurn | src/retrieval.rs:1355-1421 | admits one parity shard if and only if the gate has passed, a place is free and parity is left, and takes an arrival otherwise; gives up for want of shards only when all parity was asked for |
| GroupCoordinator.Coordinator.Receive | src/retrieval.rs:1474-1498 | the settled answer; one that fails outside rolling mode starts the recovery, or ends the group without parity |
| GroupCoordinator.Coordinator.TopUp | src/retrieval.rs:1381-1392 | a recovering group has two shards beyond the data count received or under way, or has asked for all, and asks for no more than that |
| GroupCoordinator.Coordinator.OnTimeout | src/retrieval.rs:1424-1472 | a wait that ends by itself begins the recovery, with all parity for a whole group, or asks for two more |
| GroupCoordinator.Coordinator.OrdinaryTurn | src/retrieval.rs:1381-1498 | how the turn ends is decided by what is under way, what arrives and whether the caller is still there; gives up for want of shards only when every shard was asked for and answered |
| GroupCoordinator.Coordinator.TakeTurn | src/retrieval.rs:1313-1499 | every turn keeps the books, takes every arrival, and takes the group further unless it idles before the gate; each way of giving up has its cause; a failed fetch starts the recovery; it waits without end if and only if the gate passes between the two clock readings with nothing under way |
| GroupCoordinator.Coordinator.Coordinate | src/retrieval.rs:1313-1499 | in a favourable world a run ends within twice the shard count of turns after the gate, done only if the group is possible and given up only if it is not |
| GroupCoordinator.Coordinator.Finish | src/retrieval.rs:1501-1537 | hands on every missing child once unless a rebuilt chunk is refused; each rebuilt shard is the original for every encoding the received shards belong to |
| GroupCoordinator.FetchGroup | src/retrieval.rs:1187-1537 | in every run each child is handed on at most once and each shard asked for at most once; on success every wanted child was handed on; when every shard has its fate, the caller stays and answers come, it succeeds if and only if all wanted children, or enough shards to rebuild them, can be had |
| GroupCoordinator.SlipHappens | src/retrieval.rs:1355-1421 | a reachable group for which the two clock readings cause the endless wait |
| FeedFrontier.CollectWave | src/feed.rs:52-88 | the result of a wave is the same in every order of completion |
| FeedFrontier.HighestFoundIsHighest | src/feed.rs:71-85 | the level reported is the greatest positive one |
| FeedFrontier.RunWave | src/feed.rs:52-88 | a wave's log is what the network said, one answer a moment; it reports the greatest positive one, everything above it was asked for in vain, and the index above is reported missing if and only if it was answered so |
| FeedFrontier.Start | src/feed.rs:136-178 | the first probes, logged as the network answered them, leave the latest positive index with nothing observed above it, and the search narrowed if and only if the index above it was answered missing |
| FeedFrontier.Advance | src/feed.rs:180-254 | a wave moves the latest index strictly up, or ends the search after a whole wave in vain or at an index whose successor was known missing |
| FeedFrontier.Absorb | src/feed.rs:209-254 | after a positive wave the search goes on, and ends only when the next index had been answered missing before |
| FeedFrontier.Seek | src/feed.rs:125-255 | for arbitrary answers the log is what the network said moment by moment, the result is the greatest index in it seen positive, and the next index was asked last in vain; before that the next index was answered missing, or a whole wave beyond the result was in vain, shortened only by an index answered missing; for a contiguous feed exactly its last index, or none if empty, within last/255 + 10 waves |
| FeedFrontier.FullWaveSpendsOne | src/feed.rs:180-254 | a wave with every probe positive uses up one of the waves left |
| MerkleTree.ZeroNodes | src/conventions.rs:96-106 | each entry is the root of an all-zero subtree |
| MerkleTree.HashBlocks | src/conventions.rs:124-138 | the occupied leaves are those of the full tree |
| MerkleTree.HashLevel | src/conventions.rs:140-154 | one pass in place gives the next level of the full tree |
| MerkleTree.BmtRoot | src/conventions.rs:112-155 | for every hash function and content up to 4096 bytes, the root of the full zero-padded tree; nothing for longer content |
| MerkleTree.FullRootByHalves | src/conventions.rs:112-155 | the full tree's root is the hash of the roots of its two halves, left before right, down to the hashes of the 64-byte blocks in order |
| MerkleTree.BeyondIsZero | src/conventions.rs:140-154 | nodes beyond the occupied ones are roots of zero subtrees |
| MerkleTree.TrailingZerosIgnored | src/conventions.rs:112-155 | trailing zeros do not change the root |
| MerkleTree.ContentAddress | src/conventions.rs:157-168 | hashes span and full-tree root, and refuses the lengths the source refuses |
| Playlists.ParseSegmentLines | src/stream_hls.rs:464-505 | the line loop reads the segments, with every refusal of the source |
| Playlists.ParseManifest | src/stream_hls.rs:91-139 | tags at most once, at least one segment, target covering the longest segment |
| Playlists.HlsPlaylist.MergeExtension | src/stream_hls.rs:254-289 | accepts if and only if the two playlists touch, agree wherever both speak and continue the discontinuity number |
| Playlists.HlsPlaylist.MergePlaylist | src/stream_hls.rs:239-252 | the merged playlist if they join, and no change otherwise |
| Playlists.MergedHolds | src/stream_hls.rs:239-252 | the merged playlist starts with the earlier and ends with the newer one, and holds of each number what either holds |
| PlaylistGrammar.ParseSegmentsIff | src/stream_hls.rs:464-505 | segment lines are read if and only if every line may stand where it does and no duration is left over; the segments are the ones the completing URIs show, with duration, gap and discontinuity number by position |
| PlaylistGrammar.TagsIff | src/stream_hls.rs:91-139 | the three tags are read if and only if each stands at most once with a value |
| PlaylistGrammar.ParseIff | src/stream_hls.rs:91-139 | a manifest is read if and only if it starts with the header, its tags and lines fit and some segment is complete |
| PlaylistGrammar.ParseSays | src/stream_hls.rs:91-139 | its numbers are those of its tags or zero, its target is the least that covers the declared one and every segment, and it has ended if and only if the end mark is last |
| UriGrammar.NamesIff | src/stream_hls.rs:515-538 | a text names a reference if and only if it is a front that leads up to it, the reference, slashes, and a query or fragment |
| Playlists.HlsPlaylist.MergeSegments | src/stream_hls.rs:337-366 | appends what follows the last segment with the held tail's payload, renumbered; no change when refused |
| Playlists.HlsPlaylist.MergeTailLines | src/stream_hls.rs:228-237 | reads the cut, drops a useless first line, and merges |
| Playlists.HlsPlaylist.MarkGap | src/stream_hls.rs:295-310 | flags exactly the named segment when its reference matches |
| PlaylistTails.TailEndsAs | src/stream_hls.rs:228-237 | whatever line a cut goes through and whatever its fragment reads as, all segments read but the first are the end of the manifest's, with discontinuity numbers off by a constant |
| PlaylistTails.TailAppends | src/stream_hls.rs:337-366 | a successful tail merge appends the last segments of the manifest, numbers off by one constant, and takes its end flag, even where the manifest would not merge |
| PlaylistTails.TailMergesIff | src/stream_hls.rs:228-252 | for every cut and every fragment, a successful tail merge gives the segments of the full merge if and only if the segments the cut reads as are aligned with the manifest and the held tail |
| PlaylistTails.TailMergesAlike | src/stream_hls.rs:228-252 | for a fragment that does not pass for another duration, it does so if and only if the manifest's last segment with the held tail's payload is the held tail |
| PlaylistTails.DistinctRecognised | src/stream_hls.rs:337-349 | distinct payloads and a manifest that still shows the held tail are enough |
| PlaylistTails.FragmentMisleads | src/stream_hls.rs:228-237 | a fragment that reads as another duration makes the tail merge lose a segment, although payloads are distinct |
| PlaylistTails.TitleReadsAsDuration | src/stream_hls.rs:471-478 | cut behind its first comma, every duration line whose title starts with a duration tag reads as that other duration |
| PlaylistTails.RepeatMisleads | src/stream_hls.rs:337-349 | a repeated payload makes the tail merge lose the segments before its repetition |
| PlaylistTails.TailAcceptsMore | src/stream_hls.rs:337-366 | a tail merge can succeed where the full merge refuses the manifest |
| PlaylistRendering.RenderLines | src/stream_hls.rs:372-439 | the writer's loop produces the rendering, line by line: version, type, start offset, URIs under the base with their query, and the startup mark on the first playable segment only |
| PlaylistRendering.ParseSound | src/stream_hls.rs:91-139 | a parsed playlist has discontinuity steps of at most one, a target covering its segments and lower-case hexadecimal references |
| PlaylistRendering.MergedSound | src/stream_hls.rs:239-252 | a full merge keeps that |
| PlaylistRendering.TailMergedSound | src/stream_hls.rs:337-366 | a tail merge keeps that |
| PlaylistRendering.RoundTripIffSound | src/stream_hls.rs:372-439 | reading a rendering gives the playlist back if and only if it is sound and the base has no scheme or a web scheme |
| PlaylistRendering.RunRoundTrips | src/stream_hls.rs:91-366 | every playlist reached from a manifest by merges, tails and gap marks is sound, and survives writing and reading if and only if the base has no scheme or a web scheme |
| References.RenderedUriNames | src/stream_hls.rs:515-539 | a rendered URI names the reference it was rendered from if its base has no scheme or is a web address, and names nothing otherwise |
| StartupRunway.FindRunway | src/stream_hls.rs:194-213 | a runway if and only if the gap-free stretch around the anchor lasts eight seconds; forward first, then back, no further than needed |
| StartupRunway.AnchoredStartupPlan | src/stream_hls.rs:184-226 | a plan if and only if the anchor matches and the stretch is long enough, with the times of runway, end and first playable segment |
| StartupRunway.SequenceAtOffset | src/stream_follow.rs:569-578 | the segment playing at a time, the last one past the end |
| StartupRunway.StartLeadsBack | src/stream_follow.rs:569-578 | a segment's start time leads back to that segment |
| StartupRunway.StartAtEdge | src/stream_follow.rs:175-199 | playback starts at the first segment of the runway around the newest playable segment |
| LiveFollower.WindowsJoin | src/stream_hls.rs:254-289 | two windows of an orderly stream join if and only if they touch, and merge into one window |
| LiveFollower.TailOfWindow | src/stream_follow.rs:421-436 | a tail that merges extends the playlist to the end of its window if and only if the segments it reads as are aligned with the stream |
| LiveFollower.DistinctTailFits | src/stream_follow.rs:421-436 | with distinct payloads and an honest fragment every tail that merges is aligned |
| LiveFollower.StepTracks | src/stream_follow.rs:421-529 | one event keeps the playlist a window ending with the applied update, and it grows at its end or jumps past it with the gap counted |
| LiveFollower.FrontierRecovers | src/stream_follow.rs:461-529 | an update ahead is always taken in up to the end of its window; at the held index it finalizes if and only if it is final and the playlist is not; behind it changes nothing |
| LiveFollower.RunTracks | src/stream_follow.rs:327-529 | over every run whose merging tails are aligned with the stream, the playlist is a contiguous window and `skipped` counts exactly the sequence numbers since the join that no held playlist contained |
| LiveFollower.RunTracksIff | src/stream_follow.rs:327-529 | the playlist is such a window throughout a run if and only if every tail that merges in it is aligned with the stream |
| LiveFollower.RunNeverRetreats | src/stream_follow.rs:327-529 | neither end nor start of the held playlist moves back |
| LiveFollower.LiveFeed.RecoverFrontier | src/stream_follow.rs:461-529 | finalizes, merges or re-anchors as `FrontierRecovers` says of the step |
| LiveFollower.LiveFeed.ApplyLarge | src/stream_follow.rs:421-436 | the tail's merge when it merges, the whole payload's otherwise, no change when neither does |
| LiveFollower.LiveFeed.Pass | src/stream_follow.rs:327-371 | one pass applies exactly the updates with at most one missing index and only accepted updates before them, in order, each beyond the index applied before it; it progressed if and only if one was accepted |
| ChunkCache.DecodedChunkCache.GetDecoded | src/retrieval.rs:342-368 | same answer and same contents as the plain LRU map |
| ChunkCache.DecodedChunkCache.GetRaw | src/retrieval.rs:370-385 | same answer and same contents as the plain LRU map |
| ChunkCache.DecodedChunkCache.Insert | src/retrieval.rs:387-411 | same contents as the plain LRU map, at most `capacity` entries |
| ChunkCache.DecodedChunkCache.FinishTouch | src/retrieval.rs:413-430 | evicts exactly the least recently used keys |
| ChunkCache.DecodedChunkCache.CompactOrderIfNeeded | src/retrieval.rs:432-443 | drops stale entries only, all of them, whenever the queue has reached its bound |
| ChunkCache.DecodedChunkCache.Replay | src/retrieval.rs:341-443 | after any sequence of lookups and insertions the cache holds what the plain LRU map holds, its keys being the most recently touched ones in order |
| ChunkCache.RunKeepsMostRecent | src/retrieval.rs:341-443 | the plain map keeps exactly the most recently touched distinct keys, in the order of their last touch |
| ChunkCache.LiveAfterRestamp | src/retrieval.rs:413-430 | a new stamp makes exactly the key's old queue entry stale |
| Singleflight.RunAccounted | src/retrieval_conventions.rs:415-486 | in every run: one live flight per key with one leader; each waiter is waiting on the flight it joined, delivered exactly once, or removed |
| Singleflight.FateIsFinal | src/retrieval.rs:797-835 | a delivered or removed waiter stays so |
| Singleflight.StaleChangesNothing | src/retrieval_conventions.rs:457-486 | once a flight has been taken, its producer and its callers change nothing under any key after any continuation |
| Singleflight.SingleflightRegistry.RegisterWaiter | src/retrieval_conventions.rs:420-455 | opens a flight if and only if there is none, and reports the leader |
| Singleflight.SingleflightRegistry.LeaveFlight | src/retrieval_conventions.rs:457-470 | removes exactly the waiter of the current flight and reports when nobody waits on it any more |
| Singleflight.SingleflightRegistry.TakeFlight | src/retrieval_conventions.rs:472-485 | takes the flight with all its waiters if the id is current |
| Accounting.RunBalanced | src/accounting.rs:73-155 | in every interleaving with the refresher, which offers the threshold only when due and takes an answer of at most what it offered, the reserve is the sum of unsettled reservations, balance plus reserve stays within the highest threshold, balance and surplus are never both positive, and balance minus surplus is credits minus refreshments and write-offs |
| Accounting.GrantedIff | src/accounting.rs:77-89 | in every run a request is granted if and only if a session is open and debt, running reservations and its price are within the threshold |
| Accounting.DrainedMeansIdle | src/network_conventions.rs:978-992 | a drained reserve means no request is under way |
| Accounting.QuiescedOnlyDrains | src/network_conventions.rs:949-992 | after quiescing no reservation is added and the reserve only falls |
| Accounting.PeerAccount.ReserveAmount | src/accounting.rs:77-89 | grants exactly within the threshold on an open session |
| Accounting.PeerAccount.CreditAmount | src/accounting.rs:91-127 | settles a reservation into debt, surplus first |
| Accounting.PeerAccount.RefreshAmount | src/accounting.rs:129-145 | pays debt first, then builds surplus |
| Accounting.PeerAccount.CancelAmount | src/accounting.rs:147-155 | returns a reservation |
| ConnectionSlots.StepKeeps | src/network_conventions.rs:170-227 | each lock-sized step of any task keeps the slot books |
| ConnectionSlots.RunInOrder | src/lib.rs:483-578 | in every interleaving ongoing slots are attempts plus loose tokens, connected slots are owned overlays up to those in hand, their sum is within the limit, every reserved slot is ongoing, connected or was freed once, every overlay belongs to a session, and no counter is lowered at zero |
| ConnectionSlots.RunDropsHarmlessly | src/network_conventions.rs:206-226 | in every interleaving the late removal of a duplicate's file meets a peer that owns no overlay |
| ConnectionSlots.PromotionGives | src/network_conventions.rs:170-227 | a current peer gets its free overlay and a connected slot for its attempt, or loses the slot and is left to drop when the overlay is owned; any other promotion changes nothing |
| ConnectionSlots.CloseTakes | src/lib.rs:890-986 | closing a session takes its file, its account, and its attempt with an ongoing slot or its overlay with a connected one; the peer then owns nothing; any other close changes nothing |
| ConnectionSlots.DialConnects | src/lib.rs:1155-1295 | a dialled peer with a free overlay, published and priced in either order, ends up owning it on one more connected slot |
| ConnectionSlots.Wings.TryReserve | src/network_conventions.rs:365-375 | reserves if and only if there is room |
| ConnectionSlots.Wings.ReleaseReservation | src/network_conventions.rs:326-328 | gives back exactly one ongoing slot |
| ConnectionSlots.Wings.PublishFile | src/lib.rs:1155-1204 | publishes a current handshake, and goes on to promote if and only if the peer is already priced |
| ConnectionSlots.Wings.SetThreshold | src/lib.rs:1277-1295 | prices a current session and goes on to promote |
| ConnectionSlots.Wings.DropDuplicate | src/network_conventions.rs:211-226 | takes the file and the account of a duplicate and no slot |
| ConnectionSlots.Wings.TryMarkAttempt | src/network_conventions.rs:691-728 | marks an attempt if and only if the peer is not connected, not resting and not being tried |
| ConnectionSlots.Wings.RemoveAttempt | src/network_conventions.rs:791-801 | removes exactly the attempt with this id and hands its slot to the caller |
| ConnectionSlots.Wings.PromotePricedPeer | src/network_conventions.rs:170-227 | the attempt's slot becomes a connected slot with the overlay, or is freed for a duplicate overlay, as `PromotionGives` says |
| ConnectionSlots.Wings.ConnectionClosed | src/lib.rs:890-986 | gives back the slot the closed session held, ongoing or connected |
| Replicas.AddKeeps | src/erasure_coding.rs:350-379 | a candidate keeps the queue in order; when placed, its slot was free and inside its depth's own range |
| Replicas.AddReplica | src/erasure_coding.rs:350-379 | the recursive allocator in place does what its specification says, with no index out of range |
| Replicas.RoomAtLanding | src/erasure_coding.rs:350-379 | a depth never runs out of slots for a candidate that lands there |
| Replicas.RunMined | src/erasure_coding.rs:293-348 | after any candidates the marks are exactly the prefixes hit |
| Replicas.EnoughCovers | src/erasure_coding.rs:293-348 | with at least 2^e replicas the first 2^e addresses hit every e-bit prefix exactly once |
| Replicas.CoversIffHit | src/erasure_coding.rs:293-348 | the output holds 2^e replicas if and only if the candidates hit every e-bit prefix |
| Replicas.Replicas | src/erasure_coding.rs:293-348 | for every address function the output is the queue up to its first empty slot after all 255 candidates, although mining stops early, with all the above |

## Left out

- ChunkCache.DecodedChunkCache.GetDecoded: assumes that the 64-bit touch counter does not wrap at this call.
- ChunkCache.DecodedChunkCache.GetRaw: assumes that the 64-bit touch counter does not wrap at this call.
- ChunkCache.DecodedChunkCache.Insert: assumes that the 64-bit touch counter does not wrap at this call.
- ChunkCache.DecodedChunkCache.Replay: is about fewer than 2^64 uses.
- Singleflight.RunAccounted: is about runs of fewer than 2^64 operations, so that waiter and flight numbers do not wrap.
- Singleflight.StaleChangesNothing: is about runs of fewer than 2^64 operations, for the same reason.
- PlaylistTails.TailMergesAlike: is about fragments that do not pass for another duration and manifests that join; `TailMergesIff` and `TailAppends` cover the others.
- LiveFollower.RunTracks: the publisher's windows never move back and its stream is shorter than 2^64 segments.
- ConnectionSlots.RunInOrder: no bootnodes and no change of the connection generation; cooldowns and delayed retries come and go at any time, and the dial scheduler's own skipping of rejected duplicates only removes steps, so it is not state.
- GroupCoordinator.FetchGroup: the wanted indices are distinct, as the range join passes them (a repeated index would be asked for twice); the if-and-only-if is about worlds in which a shard's fate does not change and a wanted child can be read from its shard; cache writes of authenticated shards are not modelled.
- RangeJoin.JoinRange: allocation failure of the output buffer is not modelled, and a failing or cancelled group is a step that ends the join.
- Elimination.GaussJordan: the work area is an array of row values, so a row is replaced as a whole where the source updates its bytes in place.
- References.RenderedUriNames: white space is the ASCII kind, and a base is one line that does not start with a space.
- PlaylistRendering.RoundTripIffSound: works on classified lines with URIs as text; UTF-8, decimal formatting, the payload size limit and the byte order mark are not modelled.
- Durations are integers in microseconds; floating-point rounding is not modelled.
- Keccak, signatures, single-owner chunks and encryption: the hash is an arbitrary function, chunk decryption is not part of this model.
- The compile-time multiplication table of the field: products are computed by the loop the table is filled with.
- `decode_span`, `reference_count`, `RetrieveAdmission`, `HlsTailFailure` and the archive `reconstruct`: would only add easy members.
- The root retrieval loop with its replica batches, and the chunk-retrieval workers.
- Cheques, which are never active in this build.
- libp2p events, protobuf exchanges and handshakes: only the steps on shared state named above are modelled.
- Clocks, executors and wake-ups: time-outs, cancellation and arrivals are inputs of the model.
- Metrics, logging, persistence, address parsing and dial pacing.
