# Bit-parallel transition / transversion counter of FastPhylo

FastPhylo compares two aligned DNA sequences packed two bits per
nucleotide into 128-bit registers. Each sequence also has an unknown mask,
whose blocks read `11` where a position must be disregarded.
`DNA_b128_String::computeDistance` counts three things over all positions:
- transitions (A↔G, C↔T);
- transversions (every other change);
- unknown positions.

It does this without looking at positions one at a time. `dist_level_1`
classifies three registers at once with xor, or and shift, and gives counts
in 2-bit blocks. `dist_level_2`..`dist_level_4` call the level below 2, 8
and 128 times. They merge adjacent blocks into blocks twice as wide
(`CONVERT_SUM`, `SUM_WITH_PREVIOUS_LEVEL`), so no block ever overflows. The
driver splits the registers in use among the levels and a remainder of at
most two registers, and collects everything in running totals that widen
from 2 to 32 bits. It then adds the four 32-bit lanes of each total.

The model proves that the result is the naive per-position count: for every
position, an unknown when either mask marks it, otherwise the change between
the two bases. Each count is reported modulo 2^32, as a 32-bit lane holds
it.

Modules, one per file:
- `Codes` (codes.dfy): bases, the code table, the change kinds.
- `Blocks` (blocks.dfy): a counter register as a sequence of block values; add, convert, accumulate.
- `Classify` (classify.dfy): the bit operations of one 2-bit block, lifted to a register; the naive loop.
- `Strands` (strands.dfy): the four register arrays and the cursors into them; the naive count over a window of registers.
- `Levels` (levels.dfy): `dist_level_1`..`dist_level_4` and their constants.
- `Lanes` (lanes.dfy): the width-32 stage, with 32-bit lanes that wrap, and the horizontal reduction.
- `Driver` (driver.dfy): the split of the registers, the remainder switch, the level loops, the result.

## Model

| member | source | states |
|---|---|---|
| Codes.CodeXor | src/c++/DNA_b128/computeDistance_DNA_b128_String.cpp:27-43 | with A=00, C=11, G=01, T=10 the xor of two codes is 00 exactly for equal bases, 01 exactly for a transition, and has its high bit set exactly for a transversion |
| Codes.Decode | src/c++/DNA_b128/computeDistance_DNA_b128_String.cpp:27-31 | every 2-bit code stands for exactly one base, and encoding that base gives the code back |
| Classify.BlockCounts | src/c++/DNA_b128/computeDistance_DNA_b128_String.cpp:459-523 | a position whose combined mask is 11 counts one unknown and no change; otherwise it is a transversion iff the high bit of the xor is set and a transition iff the xor is 01; never both; with 00/11 masks it counts what the two bases mean |
| Classify.BlockCountsSymmetric | src/c++/DNA_b128/computeDistance_DNA_b128_String.cpp:459-461 | exchanging the two sequences and their masks leaves a position's counts unchanged, since xor and or commute |
| Classify.ClassifyRegister | src/c++/DNA_b128/computeDistance_DNA_b128_String.cpp:480-523 | one register classified block-wise gives three registers of 64 blocks, each 0 or 1, with never both a transition and a transversion in one block |
| Classify.ClassifyRegisterTotal | src/c++/DNA_b128/computeDistance_DNA_b128_String.cpp:496-523 | the blocks of the three classified registers add up to the naive per-position count of the register |
| Classify.RegisterCountsMeaning | src/c++/DNA_b128/computeDistance_DNA_b128_String.cpp:40-43 | with masks of 00/11 blocks, the bit-level count of a stretch equals the count stated over bases |
| Classify.RegisterCountsAppend | src/c++/DNA_b128/computeDistance_DNA_b128_String.cpp:51-54 | the naive count of two stretches side by side is the sum of their counts |
| Classify.RegisterCountsSymmetric | src/c++/DNA_b128/computeDistance_DNA_b128_String.cpp:459-461 | exchanging the two sequences changes no count of a stretch |
| Strands.Inputs.ClassifyAt | src/c++/DNA_b128/computeDistance_DNA_b128_String.cpp:251-258 | one register under the cursors classified: 64 blocks of each of the three counts, each 0 or 1, adding up to the naive count of that register |
| Classify.RegisterCountsIdentity | src/c++/DNA_b128/computeDistance_DNA_b128_String.cpp:485-487 | a stretch compared with itself has no transitions and no transversions, and one unknown per position its mask marks |
| Blocks.Add | src/c++/DNA_b128/computeDistance_DNA_b128_String.cpp:267-271 | add_b128 while no block overflows: block i of the result is the sum of the two blocks i, so the totals over all blocks add |
| Blocks.Sums.Plus | src/c++/DNA_b128/computeDistance_DNA_b128_String.cpp:517-523 | add_b128 applied to each of the three count registers (transitions, transversions, unknowns): the counts they hold add |
| Blocks.Convert | src/c++/DNA_b128/computeDistance_DNA_b128_String.cpp:159-164 | CONVERT_SUM: half as many blocks, block i being the sum of blocks 2i and 2i+1, so the total over all blocks is kept |
| Blocks.Accumulate | src/c++/DNA_b128/computeDistance_DNA_b128_String.cpp:147-154 | SUM_WITH_PREVIOUS_LEVEL: block i of the accumulator grows by blocks 2i and 2i+1 of the narrower register, so the totals add |
| Blocks.AccumulateBounded | src/c++/DNA_b128/computeDistance_DNA_b128_String.cpp:197-200 | accumulating blocks of at most q into blocks of at most p gives blocks of at most p + 2q |
| Levels.CallsFill | src/c++/DNA_b128/computeDistance_DNA_b128_String.cpp:197-203 | the call counts 2, 8 and 128 are the capacity of the wider block divided by twice the capacity of the narrower |
| Levels.CapFits | src/c++/DNA_b128/computeDistance_DNA_b128_String.cpp:191-195 | the most a block of level 1..4 can hold (3, 12, 192, 49152) fits its width (3, 15, 255, 65535) |
| Levels.ReadsAll | src/c++/DNA_b128/computeDistance_DNA_b128_String.cpp:205-211 | n calls of level k - 1 read n spans of it, so the calls of a full level 2, 3 and 4 read 6, 48 and 6144 registers, and n calls of level 4 read 6144 n (the 3 registers of level 1 are `Levels.Level1`'s contract) |
| Levels.Level1 | src/c++/DNA_b128/computeDistance_DNA_b128_String.cpp:437-530 | dist_level_1 advances all four cursors by 3, returns blocks in 0..3, and its blocks add up to the naive count of the 3 registers |
| Levels.Level | src/c++/DNA_b128/computeDistance_DNA_b128_String.cpp:539-727 | dist_level_k reads its span of registers, no block exceeds the most its positions can count nor the block's capacity, and the blocks add up to the naive count of the registers read |
| Levels.Gather | src/c++/DNA_b128/computeDistance_DNA_b128_String.cpp:539-727 | the first n calls of a level to the level below, the first converted and the others accumulated, read n spans, stay within n times two narrower caps, and count every register read |
| Driver.Decompose | src/c++/DNA_b128/computeDistance_DNA_b128_String.cpp:215-228 | the registers in use are 6144 l4 + 48 l3 + 6 l2 + 3 l1 + rest with rest < 3, l1 < 2, l2 < 8, l3 < 128 |
| Driver.DecomposeUnique | src/c++/DNA_b128/computeDistance_DNA_b128_String.cpp:215-228 | that split is the only one with those bounds |
| Driver.Schedule | src/c++/DNA_b128/computeDistance_DNA_b128_String.cpp:215-228 | the split the driver computes covers exactly the registers in use, with rest < 3, l1 < 2, l2 < 8 and l3 < 128 |
| Driver.Remainder | src/c++/DNA_b128/computeDistance_DNA_b128_String.cpp:245-275 | the switch on 0, 1 or 2 remaining registers advances the cursors by that many, keeps blocks within that number, and counts exactly those registers |
| Driver.DriverLoop | src/c++/DNA_b128/computeDistance_DNA_b128_String.cpp:305-363 | a driver loop at width 4, 8 or 16 advances the cursors by what its calls read, never overflows a block, and adds the naive count of those registers to the totals |
| Driver.Stage | src/c++/DNA_b128/computeDistance_DNA_b128_String.cpp:305-377 | a driver loop followed by CONVERT_SUM: the widened totals fit the next stage and count every register from the start up to the cursors |
| Driver.Narrow | src/c++/DNA_b128/computeDistance_DNA_b128_String.cpp:230-377 | everything before the loop over level 4 leaves 32-bit totals that are exact and count every register it read |
| Lanes.AddLanesWrap | src/c++/DNA_b128/computeDistance_DNA_b128_String.cpp:385-394 | adding registers of 32-bit lanes loses exactly the multiples of 2^32 of each exact lane sum |
| Lanes.AddLanes | src/c++/DNA_b128/computeDistance_DNA_b128_String.cpp:390-392 | add_b128 on 32-bit lanes: every lane of the result is below 2^32 and is the sum of the two lanes modulo 2^32 |
| Driver.AccumulateLanes | src/c++/DNA_b128/computeDistance_DNA_b128_String.cpp:390-392 | SUM_WITH_PREVIOUS_LEVEL_IMMEDIATEBYTESHIFT at width 32: lane i of each total grows by 16-bit blocks 2i and 2i+1 of the level-4 result, modulo 2^32 |
| Driver.AccumulateLanesWrap | src/c++/DNA_b128/computeDistance_DNA_b128_String.cpp:390-392 | accumulating into lanes that wrap the exact totals gives lanes that wrap the exact accumulation: only multiples of 2^32 are lost |
| Driver.WideLoop | src/c++/DNA_b128/computeDistance_DNA_b128_String.cpp:385-394 | the loop over level 4 advances the cursors by 6144 registers per call and leaves lanes that hold, modulo 2^32, the counts of everything read so far |
| Lanes.ShiftLanes | src/c++/DNA_b128/computeDistance_DNA_b128_String.cpp:408-413 | shift_bytes_right_b128 by 4k bytes: lane i receives lane i + k, and the top k lanes become 0 |
| Lanes.HorizontalSum | src/c++/DNA_b128/computeDistance_DNA_b128_String.cpp:408-413 | after the two shift-and-add steps lane i holds the sum of lanes i..3 modulo 2^32, so lane 0 holds the sum of all four |
| Driver.Reported | src/c++/DNA_b128/computeDistance_DNA_b128_String.cpp:415-417 | get_int_0_b128 of the three totals: each reported count is below 2^32 and differs from the count it stands for by a multiple of 2^32, and counts below 2^32 are reported unchanged |
| Driver.Combine | src/c++/DNA_b128/computeDistance_DNA_b128_String.cpp:404-417 | reading lane 0 of each reduced total gives the reported distance of whatever counts the lanes hold |
| Driver.Reference | src/c++/DNA_b128/computeDistance_DNA_b128_String.cpp:415-417 | the distance computeDistance should give: a length mismatch exactly when the lengths differ, and otherwise three counts that each fit a 32-bit lane |
| Driver.ComputeDistance | src/c++/DNA_b128/computeDistance_DNA_b128_String.cpp:171-424 | the result is a length mismatch iff the lengths differ, and otherwise the naive per-position counts, each modulo 2^32 |
| Driver.ReferenceSymmetric | src/c++/DNA_b128/computeDistance_DNA_b128_String.cpp:415-417 | comparing s2 with s1 gives the same distance as comparing s1 with s2 |
| Driver.ReferenceIdentity | src/c++/DNA_b128/computeDistance_DNA_b128_String.cpp:415-417 | a sequence compared with itself has 0 transitions and 0 transversions, and as many unknowns as its mask marks |
| Driver.ReferenceBound | src/c++/DNA_b128/computeDistance_DNA_b128_String.cpp:415-417 | transitions + transversions + unknowns is at most the number of positions in the registers in use |
| Driver.ReferenceExact | src/c++/DNA_b128/computeDistance_DNA_b128_String.cpp:415-417 | with fewer than 2^32 positions nothing wraps, and the reported counts are exactly the naive counts |

## Left out

- The `float` casts of the transition and transversion counts (computeDistance_DNA_b128_String.cpp:416-417) are left out: the model reports the 32-bit counts as naturals.
- The `assert` that both sequences have the same length (line 181) becomes an error result, `LengthMismatch`, rather than an abort.
- `getNumUsedDatas` and the packing of characters into registers are not part of this model. The model takes the number of registers in use to be one per started group of 64 positions. It takes the packed data and the masks as given, with every mask block 00 or 11.
- `add_b128` and `get_int_0_b128` are not part of this model either. The width-32 stage takes the adder to work on 32-bit lanes and the result to be read unsigned, so a count of 2^32 or more is reported modulo 2^32. If the source reads the lane as a signed `int`, counts from 2^31 on would appear negative; the model does not show that.
- Positions past `numChars` in the last register are counted like any other position, as the source counts them: their data and mask blocks are whatever the packing left there.
- `_mm_prefetch`, `_mm_lfence` and the `DEBUG_*` printing have no effect on the result and are left out.
- The process-wide cursors `ptr1`, `ptr2`, `del_ptr1`, `del_ptr2` (lines 97-101) become a `Cursors` value that each level takes and hands back advanced.
- The SIMD helpers (`and_b128`, `shift_each32_bits_right_b128`, `shift_bytes_right_b128`, `set_all_*`) are modelled only by their effect on blocks. Up to width 16 the proved bounds keep every block below its capacity, so the masks and shifts of `CONVERT_SUM` act as block-wise addition. The `_IMMEDIATEBYTESHIFT` variants compute the same thing and are not modelled separately.
- Levels 2, 3 and 4 are one parametrised pair of functions, `Levels.Level` and `Levels.Gather`, with a table of constants. It is not three unrolled functions. `dist_level_3` calls level 2 eight times in a row, and `dist_level_4` calls level 3 once and then 127 times in a loop; both are the same sequence of calls.
