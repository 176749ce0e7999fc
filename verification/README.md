# Verified models of the emulator's block layer and its support code

This project models the parts of the emulator whose correctness is a relation
to something simpler, and proves that relation for all inputs and all runs.
Code that updates state is modelled as classes and methods over fields and
arrays; each method is proved equal to a function of the old state, and the
laws are proved about those functions.

| files | source | what is modelled |
|---|---|---|
| `bytes.dfy`, `iovec.dfy` | `cutils.c` | I/O vectors that are built, clipped, gathered and scattered |
| `sorting.dfy`, `multiwrite_merge.dfy`, `multiwrite_losses.dfy` | `block.c` | sorting and fusing write requests, and exactly what fusing loses |
| `multiwrite_protocol.dfy`, `multiwrite.dfy` | `block.c` | counting completions of a batch of writes, and what success means for the disk |
| `byte_io.dfy` | `block.c` | byte access on a sector device |
| `commit.dfy` | `block.c` | copying an overlay into its backing device |
| `dirty.dfy` | `block.c` | the dirty bitmap and its cached count |
| `aes_bytes.dfy`, `aes_rounds.dfy`, `aes_tables.dfy`, `aes_keys.dfy` | `aes.c` | AES: tables, rounds, both key expansions, one block |
| `aes_standard.dfy`, `aes_refines.dfy` | `aes.c` | FIPS 197 on its own, and that the code computes it |
| `aes_cbc.dfy`, `aes_cbc_code.dfy` | `aes.c` | cipher block chaining at any length |
| `des_tables.dfy`, `des.dfy` | `d3des.c` | DES: key schedule, block function |
| `des_standard.dfy`, `des_refines.dfy` | `d3des.c` | ANSI X3.92 on its own, and that the code computes it |
| `async_model.dfy`, `async_proofs.dfy`, `async.dfy`, `async_pops.dfy` | `async.c`, `block.c` | bottom halves and the stack of contexts |
| `cbuffer.dfy`, `bip_chains.dfy`, `charpipe.dfy` | `cbuffer.c`, `charpipe.c` | ring buffers, the shared pool, pipes and buffers |
| `buffered_model.dfy`, `buffered_file.dfy` | `buffered_file.c` | the freezing, rate-limited migration stream |
| `dma_model.dfy`, `dma.dfy` | `dma-helpers.c` | resumable scatter-gather transfers |
| `symtab.dfy` | `elf_ops.h` | filtering, sorting and searching a symbol table |
| `dcache_model.dfy`, `dcache.dfy` | `dcache.c` | the data cache simulator |

`dafny verify dfyconfig.toml` checks everything.

## How the surroundings are modelled

* A block driver is an array of bytes or sectors. How it behaves is a script:
  whether each request succeeds, how much a failing write has written, when
  writes complete, whether a submission is refused. Statements hold for all
  scripts.
* Callbacks of bottom halves are arbitrary finite sequences of new, schedule,
  cancel, delete, poll and nested contexts. They are taken from a finite list;
  a run stops when it is used up, so the statements describe every finite part
  of every run. Inside a callback the current context is not polled again,
  because the sweep of `qemu_bh_poll` relies on that; contexts that the
  callback pushes may be polled at will.
* The peers of pipes, the backend of the migration stream and the memory
  mapper of a transfer answer from scripts, too.
* `qsort` is any sorting permutation. `bsearch` halves the range at
  `(lo + hi) / 2`; `FoundIff` holds for any other choice as well.
* `cpu_physical_memory_map` gives at least one byte of a range or fails, and
  it always fails for a range of length 0.
* Integers are unbounded except where the code depends on their width: the
  ciphers use 8-bit and 32-bit vectors, the symbol search adds modulo 2^32,
  the dirty bitmap has 32-bit words.

## Where the code does not keep a promise

These are stated as exact conditions or with a concrete input.

* Merging drops the tail of a first request that extends past the second
  (`MergeDropsTail`), and after a veto by `IOV_MAX` a gap that the driver
  approved may zero-fill sectors of an earlier, longer request (`VetoedGapLoses`).
  `MergeLosesNothingIff` says exactly when nothing is lost.
* Enabling dirty tracking twice zeroes the count but not the bitmap;
  `SetDirtyTracking` says exactly when the count stays right, and `EnableTwice`
  drives it to -1.
* The two directions of CBC leave different chaining values when there is a
  short tail: decryption keeps the decrypted block, not the encrypted one
  (`SameIvecIff`, `ShortTailLeavesOtherIvec`).
* A put whose flush fails still sends its data directly, past what is pending,
  and may report success (`FailedFlushIsOvertaken`). `OvertakenIff`,
  `PutKeepsOrderIff` and `SuccessfulPutIff` say exactly when.
* A DMA transfer whose mapped pieces do not add up to whole sectors loses the
  rest, since the sector number only counts whole sectors (`ConservedIff`,
  `ShortListMovesNothing`).
* When the driver refuses a later submission of a DMA request, the request is
  neither released nor continued, and its user is never called. `AbandonedIff`
  says exactly when, and `RefusedNeverTold` is such a run.
* A DMA request never gets past an empty entry of its list: it can succeed
  exactly if there is none (`CanSucceedIff`).
* A symbol whose end wraps around 32 bits is never found (`SymFindIff`), and a
  range inside another can hide it (`NestedRangeHides`). `FoundIff` says exactly
  which sorted tables hide no address.
* Leaving a context does not execute all of its bottom halves, as the comment
  above `async_context_pop` says: the flush ends with a poll that ran only idle
  callbacks, and what those have scheduled is lost (`IdleCallbackLoses`).
  `PopLosesNothingIff` gives the exact condition.
* With one-byte lines the cache takes an invalid entry for the last address
  (`OneByteLinesHitInvalid`).
* `charpipehalf_poll` decides by its own `chr_can_read` whether to ask the
  peer's. Without one it ignores the peer's limit; with one it never delivers
  to a peer that has none. `LimitRespectedIff` and `NeverDeliversIff` say
  exactly when, `PollPastLimit` breaks the limit, and `PollsInVain` is a byte
  that is never delivered.
* The comment above `bdrv_aio_multiwrite` says that after a result of -1 some
  callbacks are called and others are not. The code calls none, as the first
  submission is the only one that can fail the call (`MultiwriteCompletes`).

## Model

| member | source | states |
|---|---|---|
| `IoVectors.ClipIsPrefix` | cutils.c:170-193 | the ranges that a limited concatenation takes over hold exactly the first `min(limit, size)` bytes of the source vector |
| `IoVectors.GatherScatter` | cutils.c:210-235 | scattering bytes over the ranges and gathering them again returns those bytes followed by what the ranges held behind them |
| `IoVectors.ScatterLengths` | cutils.c:221-235 | scattering never changes the number or the length of the ranges |
| `IoVectors.IoVector.Add` | cutils.c:156-168 | one range is appended, the byte count grows by its length, and the allocation becomes `2n + 1` exactly when it was full |
| `IoVectors.IoVector.Concat` | cutils.c:176-193 | the destination grows by exactly the clipped ranges of another vector |
| `IoVectors.IoVector.Reset` | cutils.c:202-208 | no ranges and no bytes are left, the allocation stays |
| `IoVectors.IoVector.ToBuffer` | cutils.c:210-219 | the buffer starts with the bytes of all ranges in order and is unchanged behind them |
| `IoVectors.IoVector.FromBuffer` | cutils.c:221-235 | the ranges hold the scattered data |
| `Sorting.QSort` | block.c:2103 | the library sort as its callers may rely on it: some permutation that is sorted by the key |
| `MergedWrites.FuseMeaning` | block.c:2130-2156 | a fused request ends where the second one ends, whatever the first one covered; its bytes are those of the second, then of the first, then zeros |
| `MergedWrites.ExecStep` | block.c:2108-2163 | exact effect of one pass of the merge loop on one byte of the disk, in all cases |
| `MergedWrites.MergePreservesWrites` | block.c:2097-2166 | if the sorted requests also end in order, the merged requests write every covered byte as the sorted ones would; any other byte is unchanged, or zero inside a gap that the merge hook approved, with or without vetoes by `IOV_MAX` |
| `MergedWrites.MergeEffect` | block.c:2097-2166 | without vetoes, for all requests: covered bytes that are not dropped end up as in sorted order, every other byte is unchanged or zero, and the result has increasing, disjoint, non-touching ranges |
| `MergeLosses.MergeLosesNothingIff` | block.c:2097-2166 | exact condition for every batch, vetoes included: merging keeps the meaning, for all data and disks, if and only if no position is lost, where a position is lost if the last request that covers it is fused with a later one that starts at or before it, or a later fused group spans it |
| `MergedWrites.MergeDropsTail` | block.c:2136-2139 | concrete batch on which merging loses data: the tail of a first request that extends past the second |
| `MergeLosses.LossShows` | block.c:2136-2151 | every lost position is visible: some data on the same sectors is not there afterwards |
| `MergeLosses.MergedGroups` | block.c:2108-2163 | the merge partitions the sorted requests into groups of neighbours, each fused one after the other |
| `MergeLosses.VetoedGapLoses` | block.c:2126-2147 | concrete batch: after a veto, the zeros of an approved gap overwrite sectors of an earlier, longer request |
| `MergeLosses.UnvetoedLostIff` | block.c:2136-2139 | in a batch without vetoes a position is lost exactly if some request ends before its predecessor, the position lies in between, and no later request writes it again |
| `MergedWrites.SmallBatchUnvetoed` | block.c:2126-2128 | a batch whose vectors and joints together fit into `IOV_MAX` never has a merge vetoed |
| `MergedWrites.MergedWithinIovMax` | block.c:2126-2128 | every returned request has at most `IOV_MAX` vectors if every input has |
| `MergedWrites.AnyOrderSameDisk` | block.c:2226-2242 | requests for disjoint ranges leave the same disk in every completion order |
| `MergedWrites.MergeInOrder` | block.c:2097-2166 | merging requests for disjoint ranges keeps the ranges disjoint and in order, with or without vetoes |
| `MergedWrites.MergedWritesCommute` | block.c:2097-2166 | the merged requests of a batch without vetoes leave the same disk in every completion order |
| `MergedWrites.BatchWritesWhatWasAsked` | block.c:2097-2166 | end to end: requests for different sectors, sorted in any way, merged (with or without vetoes by `IOV_MAX`) and completed in any order, leave exactly their bytes on the disk; other bytes are unchanged or zero in approved gaps |
| `MergedWrites.FuseVectors` | block.c:2130-2151 | the vector built in place is the clipped first vector, the zero padding, and the second vector |
| `MergedWrites.MergeOne` | block.c:2108-2163 | one pass of the loop over the array is one step of the merge function; entries behind it and the caller fields stay |
| `MergedWrites.SortRequests` | block.c:2076-2103 | the array is a permutation of the requests, sorted by start sector |
| `MergedWrites.MultiwriteMerge` | block.c:2097-2166 | the first `n` entries of the array are the merge of the sorted requests; caller fields stay with their slots |
| `MultiwriteProtocol.MultiwriteCompletes` | block.c:2182-2255 | over every interleaving: return 0 means that callback `k` of the caller runs exactly once, as the `k`-th, with the first recorded error, and only when no accepted write is outstanding; return -1, exactly when the first submission fails, means none ever runs; no use after free |
| `MultiwriteProtocol.FirstErrorMeaning` | block.c:2065-2067 | the recorded error is the first negative result, and 0 if there is none |
| `MultiwriteProtocol.NoCallbackWhileSubmitting` | block.c:2224-2242 | no user callback runs and nothing is freed before the submit loop has ended |
| `MultiwriteProtocol.SubmitCounting` | block.c:2224-2242 | loop invariant of submission: the counter is the outstanding writes plus the dummy request |
| `MultiwriteProtocol.DeliverSettles` | block.c:2061-2074 | after the call, completions count down to the callbacks and no further |
| `MultiwriteProtocol.MultiwriteCB.UserCb` | block.c:2047-2059 | callback `k` is called once, as the `k`-th, with the recorded error |
| `MultiwriteProtocol.MultiwriteCB.Cb` | block.c:2061-2074 | the new state after one completion, including the last one |
| `MultiwriteProtocol.BdrvAioMultiwrite` | block.c:2182-2255 | the submit loop with its failure paths computes the run of the protocol; the error fields of the requests are set exactly if it fails |
| `Multiwrite.SuccessIff` | block.c:2182-2255 | every callback of the caller runs exactly once, in order, with result 0 if and only if all merged requests were accepted and all have completed without an error |
| `Multiwrite.SuccessMeansWritten` | block.c:2097-2255 | end to end: if the user is told of success for a batch of requests for different sectors, the disk holds exactly their bytes, in whichever order the accepted writes reached it; other bytes are unchanged or zero in approved gaps |
| `Multiwrite.BdrvAioMultiwriteBatch` | block.c:2182-2255 | the batch is sorted and merged in place, and the run of the protocol has one submission for each request that is left |
| `ByteIo.BlockDevice.CheckByteRequest` | block.c:874-895 | zero exactly if the medium is there and the range fits or the device can grow |
| `ByteIo.BlockDevice.Read` | block.c:904-915 | success returns exactly the bytes of the sectors |
| `ByteIo.BlockDevice.Write` | block.c:951-971 | success writes all sectors, failure some prefix of them, and nothing else changes |
| `ByteIo.BlockDevice.WritePart` | block.c:1032-1037 | read, modify and write of one sector: all of the part is replaced or nothing changes |
| `ByteIo.BlockDevice.ReachableByParts` | block.c:973-1016 | checking the head, the middle and the tail of a range one by one is checking the whole range |
| `ByteIo.BlockDevice.PreadAligned` | block.c:998-1015 | the part from a sector boundary on delivers exactly the bytes of the device |
| `ByteIo.BlockDevice.PwriteAligned` | block.c:1045-1064 | the part from a sector boundary on writes all of its bytes, or some prefix on failure |
| `ByteIo.BlockDevice.Pread` | block.c:973-1016 | for all offsets and lengths: success delivers exactly the slice, failure only correct bytes, and nothing else in the buffer changes; with reliable sector access it succeeds exactly on reachable ranges |
| `ByteIo.BlockDevice.Pwrite` | block.c:1018-1065 | for all offsets and lengths: success is exactly a splice, failure has written a prefix of the range and nothing outside; with reliable sector access it succeeds exactly on reachable ranges of writable devices |
| `ByteIo.BlockDevice.WriteThenRead` | block.c:973-1065 | what was written is read back |
| `Commit.WriteUnderOverlay` | block.c:796-812 | overwriting backing sectors below allocated ones leaves the view of all sectors |
| `Commit.DropCommitted` | block.c:811-814 | removing overlay sectors that the backing device already shows leaves the view |
| `Commit.CowDevice.IsAllocated` | block.c:799 | a positive run of sectors with one allocation state |
| `Commit.CowDevice.Commit` | block.c:796-824 | the view of every sector survives every pass and every exit; when the loop has finished the backing device alone shows the old view; the loop ends |
| `DirtyTracking.TouchesMeaning` | block.c:921-925 | the chunks the loop visits are exactly those with an accessed sector |
| `DirtyTracking.UpdateBit` | block.c:927-941 | changing one bit of the bitmap changes one chunk |
| `DirtyTracking.DirtyDevice.MarkChunk` | block.c:926-942 | one pass sets or clears one chunk, and the count moves with the number of set bits |
| `DirtyTracking.DirtyDevice.SetDirtyBitmap` | block.c:917-943 | a chunk is set iff the latest access that touched it was a write, and the count moves with the number of set bits |
| `DirtyTracking.DirtyDevice.SetDirtyTracking` | block.c:2619-2638 | a fresh empty bitmap and history when it was off, the same bitmap and history when it was on, none when disabled; exact condition: the count stays right if and only if tracking is disabled, was off, or no bit was set |
| `DirtyTracking.DirtyDevice.GetDirty` | block.c:2640-2651 | true exactly if the sector is on the device and the latest access to its chunk was a write |
| `DirtyTracking.DirtyDevice.Run` | block.c:2619-2657 | over every run of writes, resets and toggles, double enables included: bits match the latest accesses since tracking was enabled, and the count is the number of set bits minus those set at the last double enable, hence right exactly if there were none |
| `DirtyTracking.NothingForgotten` | block.c:2619-2638 | a run that never enables tracking twice keeps the count right throughout |
| `DirtyTracking.EnableTwice` | block.c:2623-2631 | concrete run: enable, write, enable, reset leaves a count of -1 |
| `AesBytes.BoxInverse` | aes.c:325-390 | the bytes of `Td4` undo those of `Te4` |
| `AesBytes.X2Reduces` | aes.c:46-58 | doubling is multiplication by x reduced by the field polynomial (section 4.2.1 of FIPS 197) |
| `AesStandard.BoxIsAffineInverse` | aes.c:325-390 | the bytes of `Te4` are the affine transformation of the multiplicative inverse in the field (section 5.1.1 of FIPS 197) |
| `AesTables.Te0Literal` | aes.c:60-125 | all 256 literal words of the table agree with its formula in the substitution box and field multiplication |
| `AesTables.Te1Literal` | aes.c:126-191 | all 256 literal words of the table agree with its formula in the substitution box and field multiplication |
| `AesTables.Te2Literal` | aes.c:192-257 | all 256 literal words of the table agree with its formula in the substitution box and field multiplication |
| `AesTables.Te3Literal` | aes.c:258-324 | all 256 literal words of the table agree with its formula in the substitution box and field multiplication |
| `AesTables.Te4Literal` | aes.c:325-390 | all 256 literal words of the table agree with its formula in the substitution box and field multiplication |
| `AesTables.Td0Literal` | aes.c:391-456 | all 256 literal words of the table agree with its formula in the substitution box and field multiplication |
| `AesTables.Td1Literal` | aes.c:457-522 | all 256 literal words of the table agree with its formula in the substitution box and field multiplication |
| `AesTables.Td2Literal` | aes.c:523-589 | all 256 literal words of the table agree with its formula in the substitution box and field multiplication |
| `AesTables.Td3Literal` | aes.c:590-655 | all 256 literal words of the table agree with its formula in the substitution box and field multiplication |
| `AesTables.Td4Literal` | aes.c:656-721 | all 256 literal words of the table agree with its formula in the substitution box and field multiplication |
| `AesRounds.UnmixMix` | aes.c:46-58 | the columns of the `Td` tables invert those of the `Te` tables on every word |
| `AesRounds.UnmixLinear` | aes.c:853-876 | the inverse column transform distributes over exclusive or, which lets the decryption keys be transformed |
| `AesRounds.RoundUndone` | aes.c:976-1035 | a decryption round under the transformed key undoes an encryption round |
| `AesRounds.CipherRoundTrip` | aes.c:885-1261 | decryption under the reversed, transformed schedule undoes encryption, for any number of rounds (section 5.3.5 of FIPS 197) |
| `AesKeys.ScheduleUnique` | aes.c:752-826 | the recurrence of section 5.2 of FIPS 197 determines all words of a schedule |
| `AesRefines.RoundConstants` | aes.c:722-726 | the constants are the powers of x in the field |
| `AesRefines.ScheduleIsStandard` | aes.c:752-826 | every byte of every schedule word is that of the expanded key of FIPS 197, section 5.2, written byte by byte from the box and the powers of x, for all three key lengths |
| `AesRefines.KnownWord` | aes.c:756-764 | the first expanded word of the example in appendix A.1 of FIPS 197 |
| `AesKeys.Expand128` | aes.c:756-773 | the unrolled loop fills exactly words 4 to 43, by the recurrence |
| `AesKeys.Expand192` | aes.c:776-795 | the unrolled loop fills exactly words 6 to 51, by the recurrence |
| `AesKeys.Expand256` | aes.c:798-825 | the unrolled loop fills exactly words 8 to 59, by the recurrence |
| `AesKeys.SetEncryptKey` | aes.c:731-827 | -1 or -2 for bad arguments with the key untouched, else the full schedule of `4 * (rounds + 1)` words and 10, 12 or 14 rounds |
| `AesKeys.ReverseKeys` | aes.c:846-852 | round key `b` becomes round key `rounds - b` |
| `AesKeys.UnmixInner` | aes.c:853-876 | all round keys but the first and last are transformed, the others kept |
| `AesKeys.SetDecryptKey` | aes.c:832-878 | the decryption schedule is the encryption schedule reversed and transformed; same error results |
| `AesKeys.BlockRoundTrip` | aes.c:885-1261 | decrypting an encrypted block of 16 bytes returns it, for every key length, key and block |
| `AesKeys.ExpandBoth` | aes.c:731-878 | one user key gives two schedules of which one is the other reversed and transformed |
| `AesKeys.AesEncrypt` | aes.c:885-1070 | the two-rounds-per-pass loop computes the cipher and writes 16 bytes, also in place |
| `AesKeys.AesDecrypt` | aes.c:1076-1261 | the loop computes the equivalent inverse cipher and writes 16 bytes, also in place |
| `AesRefines.EncryptIsStandard` | aes.c:885-1070 | refinement: the table rounds under an expanded key are the cipher of section 5.1 of FIPS 197 (substitution, row shifts, column matrix, key addition), for every key length, key and block |
| `AesRefines.DecryptIsInverse` | aes.c:1076-1261 | decryption undoes the cipher of the standard on every block |
| `AesKeys.EncryptThenDecrypt` | aes.c:731-1261 | expanding one user key both ways, encrypting and decrypting returns every block |
| `Cbc.CbcRoundTrip` | aes.c:1276-1313 | decrypting what was encrypted with the same initial vector returns the bytes, at any length, for any pair of inverse ciphers |
| `Cbc.CbcChains` | aes.c:1277-1285 | whole blocks chain as section 6.2 of NIST SP 800-38A defines |
| `Cbc.TailIsZeroPadded` | aes.c:1286-1294 | a short tail is encrypted as if zeros followed it |
| `Cbc.EncryptLeavesLast` | aes.c:1277-1294 | encryption leaves its last output block as chaining value |
| `Cbc.CbcDecryptChains` | aes.c:1295-1312 | every decrypted byte, short tails included, is the byte of the decrypted block combined with that of the block before |
| `Cbc.DecryptLeavesLast` | aes.c:1295-1312 | decryption leaves the last input block as chaining value, or the decrypted block of a short tail |
| `Cbc.CbcEncryptPieces` | aes.c:1276-1294 | encrypting block-aligned pieces with the carried vector is one call |
| `Cbc.CbcDecryptPieces` | aes.c:1295-1312 | decrypting block-aligned pieces with the carried vector is one call |
| `Cbc.SameIvecIff` | aes.c:1306-1312 | exact condition on the length: for a pair of inverse ciphers, both directions leave the same vector for all data and initial vectors if and only if the length is a multiple of 16 or the cipher changes nothing |
| `Cbc.ShortTailLeavesOtherIvec` | aes.c:1306-1312 | at every length with a short tail, zeros under any initial vector that the cipher changes leave two different vectors |
| `AesCbc.CiphersInverse` | aes.c:1265-1314 | AES under the two schedules of one key is a pair of inverse ciphers |
| `AesCbc.AesCbcEncrypt` | aes.c:1276-1294 | output and vector are those of the CBC function, over the rounded-up length, nothing behind it changes |
| `AesCbc.AesCbcDecrypt` | aes.c:1295-1312 | output and vector are those of the CBC function, exactly `length` bytes are written |
| `AesCbc.EncryptThenDecrypt` | aes.c:1265-1314 | end to end: expanding one user key both ways, encrypting data of any length and decrypting it returns the data |
| `Des.FinalThenInitial` | d3des.c:329-345 | the initial permutation after the final one swaps the halves |
| `Des.InitialThenFinal` | d3des.c:374-392 | the final permutation after the initial one on swapped halves is the identity |
| `Des.RoundsUndone` | d3des.c:347-372 | under reversed key pairs `n` rounds take back the last `n` rounds |
| `Des.WordsUndone` | d3des.c:322-394 | the whole block function undoes itself under reversed key pairs |
| `Des.ScrunchUnscrun` | d3des.c:152-178 | packing unpacked words gives them back |
| `Des.UnscrunScrunch` | d3des.c:152-178 | unpacking packed bytes gives them back |
| `Des.DesRoundTrip` | d3des.c:67-178 | decryption under `DE1` undoes encryption under `EN0` for every key and block |
| `DesRefines.RoundFunction` | d3des.c:347-372 | refinement: the eight combined table lookups are the cipher function of ANSI X3.92 (expansion, eight boxes, permutation, as literal tables), on halves rotated by one |
| `DesRefines.InitialIsIP` | d3des.c:329-345 | the word swaps are the initial permutation, with both halves rotated |
| `DesRefines.FinalIsFP` | d3des.c:374-392 | the word swaps are the inverse of the initial permutation |
| `DesRefines.TotalsStep` | d3des.c:57-58 | the rotation totals step by the left shifts of the standard |
| `DesRefines.PairRefines` | d3des.c:67-124 | the cooked pair of every round holds the round key of the standard key schedule, for the key whose bytes have their bits in the opposite order |
| `DesRefines.DesIsStandard` | d3des.c:67-394 | refinement, for every key and block: with keys loaded for encryption the code is the encryption of ANSI X3.92, with keys loaded for decryption its decryption |
| `Des.PermuteKey` | d3des.c:73-77 | bit `j` is the key bit that the first permuted choice names |
| `Des.RotateKey` | d3des.c:83-92 | both halves are rotated by the total for the round |
| `Des.GatherRound` | d3des.c:93-96 | the two raw words of a round, all other words unchanged |
| `Des.DesEngine.CookKey` | d3des.c:102-122 | all 32 words are rearranged pairwise and loaded |
| `Des.DesEngine.DesKey` | d3des.c:67-100 | the key register holds the 16 pairs in order, and for `DE1` in reverse order |
| `Des.DesEngine.DesBlock` | d3des.c:142-150 | the output block is the block function of the input under the loaded keys, also in place |
| `Des.EncryptThenDecrypt` | d3des.c:67-178 | loading one key both ways, encrypting and decrypting returns every block |
| `AsyncProofs.ContextIsolation` | async.c:65-105 | between a push and its pop, with any nesting and polling inside, no bottom half of a surrounding context runs or is freed; afterwards the surrounding list has exactly the scheduled completion bottom half in front and the lists below are the same |
| `AsyncProofs.PollSemantics` | async.c:137-166 | one poll: runs are paid for by transitions to scheduled, deleted ones never run, new ones wait, and the list keeps exactly what is not deleted, in order, behind new entries |
| `AsyncProofs.PollResult` | async.c:142-151 | the result is true exactly if a callback ran that was not idle |
| `AsyncProofs.QuietPollLeavesNothingScheduled` | async.c:137-166 | a poll that returns false and ran no idle callback ran none and leaves nothing scheduled |
| `AsyncProofs.RunsArePaidFor` | async.c:137-195 | over any code: each run is paid for by one transition to scheduled; a deleted bottom half never runs again |
| `AsyncProofs.NewMarks` | async.c:127-136 | a new bottom half is in front of the current list, neither scheduled nor deleted, and everything else is as before |
| `AsyncProofs.ScheduleMarks` | async.c:168-184 | scheduling marks a bottom half that was not scheduled, as idle or not; one that was stays as it was scheduled first |
| `AsyncProofs.DeleteMarks` | async.c:191-195 | deleting marks one bottom half and takes it out of the schedule; nothing else changes |
| `AsyncProofs.DeletedNeverRuns` | async.c:191-195 | whatever code follows a delete, the bottom half never runs again |
| `AsyncProofs.DeletedIsFreed` | async.c:152-163 | a deleted bottom half is freed by the next poll of its context that ends, and is in no list after it |
| `AsyncProofs.FirstDueRuns` | async.c:142-150 | a poll runs the first entry of the list if it is due; a completion bottom half, which a pop leaves there, is freed with it |
| `Async.AsyncContexts.AsyncContextPush` | async.c:65-71 | a new empty context on top, everything else unchanged |
| `Async.AsyncContexts.AsyncContextPop` | async.c:85-105 | polls while a poll returns true, then returns to the parent with a scheduled completion bottom half |
| `AsyncPops.PopLeavesFlushed` | async.c:85-105 | a pop leaves the context after the first poll that returns false |
| `AsyncPops.PopLosesNothingIff` | async.c:81-91 | exact condition, over all callbacks: a pop leaves nothing scheduled behind in the old context, whatever its callbacks do, if and only if nothing is scheduled in it to begin with |
| `AsyncPops.FlushWithoutIdle` | async.c:81-91 | a pop loses nothing if the last poll of its flush ran no idle callback |
| `AsyncPops.IdleCallbackLoses` | async.c:81-91 | concrete run: an idle bottom half schedules a new one, the flush ends, and the new one never runs and is in no list any more |
| `Async.AsyncContexts.QemuBhNew` | async.c:127-135 | a fresh bottom half at the front of the current list |
| `Async.AsyncContexts.QemuBhPoll` | async.c:137-166 | the loop and the sweep compute the poll of the model |
| `Async.AsyncContexts.RemoveDeleted` | async.c:153-163 | the sweep keeps exactly the entries that are not deleted, in order, and frees the others |
| `Async.AsyncContexts.QemuBhSchedule` | async.c:176-184 | scheduling twice is scheduling once; clears idle |
| `Async.AsyncContexts.QemuBhScheduleIdle` | async.c:168-174 | scheduling twice is scheduling once; sets idle |
| `Async.AsyncContexts.QemuBhCancel` | async.c:186-189 | not scheduled any more |
| `Async.AsyncContexts.QemuBhDelete` | async.c:191-195 | not scheduled, and marked for the sweep |
| `Async.AsyncContexts.RunCallback` | async.c:74-80 | claims the bottom half, deletes it first if it is a completion, then runs arbitrary code |
| `Async.AsyncContexts.BdrvReadEm` | block.c:2410-2439 | emulated synchronous I/O, refused, early or waited for: no callback of a surrounding context runs, whatever happens meanwhile, the surrounding list has only the completion bottom half in front, and the result is -1 for a refused request and else that of the request |
| `Cbuffer.CBuffer.Write` | cbuffer.c:80-114 | appends exactly the bytes that fit and returns their number |
| `Cbuffer.CBuffer.Read` | cbuffer.c:116-149 | removes up to `len` bytes from the front into the target, which is otherwise unchanged |
| `Cbuffer.CBuffer.WritePeek` | cbuffer.c:51-67 | a contiguous free range right behind the contents, empty only if full |
| `Cbuffer.CBuffer.WriteStep` | cbuffer.c:69-77 | counts in what was stored there: it is appended, the rest stays |
| `Cbuffer.CBuffer.ReadPeek` | cbuffer.c:151-164 | a contiguous prefix of the contents, empty only if there are none |
| `Cbuffer.CBuffer.ReadStep` | cbuffer.c:167-180 | drops up to `len` bytes from the front, past the end of the array |
| `Cbuffer.RingAppend` | cbuffer.c:107-111 | storing behind the contents appends, wherever the ring wraps |
| `Cbuffer.RingDrop` | cbuffer.c:171-179 | moving the read position drops the front, wherever the ring wraps |
| `BipChains.PoolPartition` | charpipe.c:43-68 | every pool buffer is in the free list or in exactly one queue, never twice |
| `BipChains.AttachStep` | charpipe.c:337-339 | linking a buffer behind the last one keeps all chains and the free list |
| `BipChains.DetachStep` | charpipe.c:364-366 | unlinking the first buffer keeps all chains and the free list |
| `BipChains.ReleaseStep` | charpipe.c:63-68 | freeing a buffer puts it in front of the free list |
| `CharPipe.CharPipes.BipBufferAlloc` | charpipe.c:45-61 | an empty buffer that is in no list, from the free list if there is one; no queue changes |
| `CharPipe.CharPipes.BipBufferFree` | charpipe.c:63-68 | the buffer is in front of the free list again |
| `CharPipe.CharPipes.CharPipeHalfWrite` | charpipe.c:95-152 | reports the full length; delivered bytes followed by pending ones grow by exactly the data, other queues are untouched; with nothing buffered the peer gets pieces exactly as large as its answers, up to the end of the data or until it has no room, otherwise nothing |
| `CharPipe.CharPipes.CharPipeHalfPoll` | charpipe.c:155-200 | delivers from the front and loses nothing; with a `chr_can_read` of this half, pieces within the answers of the peer until the first 0, otherwise everything; a piece falls short of its answer at most twice for each ring of the queue |
| `CharPipe.LimitRespectedIff` | charpipe.c:181-189 | exact condition: polls keep every limit of the peer if and only if this half has a `chr_can_read`, or the peer has none, or nothing can be delivered |
| `CharPipe.PollPastLimit` | charpipe.c:181-197 | concrete run: a byte that the peer had no room for is delivered to it by the poll |
| `CharPipe.NeverDeliversIff` | charpipe.c:155-189 | exact condition: a poll delivers nothing whatever the peer answers, if and only if nothing is pending, the peer is gone or cannot read, or this half has a `chr_can_read` and the peer has none |
| `CharPipe.PollsInVain` | charpipe.c:181-189 | concrete run: a byte stays in the pipe however often it is polled, as this half has a `chr_can_read` and the peer has none |
| `CharPipe.CharPipes.CharBufferWrite` | charpipe.c:293-342 | reports the full length and keeps the stream; with nothing buffered and the endpoint open, an answer of `n` bytes delivers exactly the first `n` and leaves the rest pending, a negative answer nothing and a larger one everything; otherwise nothing is delivered |
| `CharPipe.CharPipes.CharBufferPoll` | charpipe.c:345-383 | offers piece after piece from the front while the endpoint takes all of it, in at most two pieces for each ring; every piece but the last is taken in full, and if the last one is too nothing is left; the stream is kept |
| `CharPipe.BufferPollMeans` | charpipe.c:367-379 | what is delivered are the pieces before the last followed by exactly as many bytes of the last one as its answer says, none for a negative answer, all for a larger one |
| `CharPipe.TakenFront` | charpipe.c:367-379 | what a poll of a buffer delivers is the front of what was pending |
| `CharPipe.WillingEndpoint` | charpipe.c:367-379 | an endpoint that takes as much as is pending each time is given all of it in one poll |
| `CharPipe.CharPipes.BufferRest` | charpipe.c:131-151 | appends all data to the chain, which grows as needed |
| `CharPipe.CharPipes.Close` | charpipe.c:80-92 | every buffer of the queue returns to the free list |
| `CharPipe.CharPipes.Run` | charpipe.c:95-383 | FIFO over every interleaving of writes and polls: delivered bytes followed by pending bytes are all bytes written, in order |
| `BufferedModel.FlushConserves` | buffered_file.c:73-108 | flushing never loses, repeats or reorders a byte, even when it fails; it empties the buffer unless it fails or freezes |
| `BufferedModel.FlushUnfolds` | buffered_file.c:73-107 | an answer of `-EAGAIN` freezes the stream, any other answer that is not positive fails it, both without sending or losing a byte, and a positive one sends that many and goes on |
| `BufferedModel.DirectOnlyWhenEmpty` | buffered_file.c:126-134 | the direct path sends only past an empty buffer, unless the flush before it failed |
| `BufferedModel.OvertakenIff` | buffered_file.c:126-151 | bytes go out directly past pending ones exactly if the flush failed, there is data, the rate limit is not exceeded and the backend accepts the next call |
| `BufferedModel.PutKeepsOrderIff` | buffered_file.c:110-168 | exact condition for every put, failing ones included: accepted bytes stay a prefix of the bytes put, for all data of a length, if and only if those guards do not hold |
| `BufferedModel.SucceedsIff` | buffered_file.c:126-168 | whether a put reports success depends only on its length and on the answers of the backend: none of the direct calls fails before the stream freezes or exceeds its limit |
| `BufferedModel.PutConserves` | buffered_file.c:110-168 | a put without error adds exactly its bytes at the end and reports all of them |
| `BufferedModel.SuccessfulPutIff` | buffered_file.c:126-168 | exact condition for puts that report success: for all data of a length the stream is kept, if and only if the answers of the backend do not let a put both overtake and go through |
| `BufferedModel.FailedFlushIsOvertaken` | buffered_file.c:126-134 | concrete put that reports success although its byte overtook a pending one |
| `BufferedModel.RunConserves` | buffered_file.c:49-249 | over every run without error, accepted bytes followed by buffered ones are all bytes put |
| `BufferedModel.ClosedDeliversAll` | buffered_file.c:170-191 | closing without error has delivered every byte put, in order |
| `BufferedModel.ErrorStays` | buffered_file.c:118-121 | after an error nothing is sent any more and the error stays |
| `BufferedModel.TickMeaning` | buffered_file.c:229-250 | a tick starts a new interval and flushes: unless that fails or freezes nothing is pending; a frozen stream waits and a failed one stays as it is |
| `BufferedModel.RateCounts` | buffered_file.c:136-152 | the bytes counted against the limit are those passed on directly, none once it is exceeded; the limit is a tenth of the rate |
| `BufferedFile.QemuFileBuffered.BufferedAppend` | buffered_file.c:49-71 | the bytes are appended, growing the buffer when needed |
| `BufferedFile.QemuFileBuffered.BufferedFlush` | buffered_file.c:73-108 | loop and move compute the flush of the model |
| `BufferedFile.QemuFileBuffered.BufferedPutBuffer` | buffered_file.c:110-168 | computes the put of the model, and notifies the client exactly when it should |
| `BufferedFile.QemuFileBuffered.BufferedClose` | buffered_file.c:170-191 | drains until nothing is left or it fails, then closes |
| `BufferedFile.QemuFileBuffered.BufferedRateTick` | buffered_file.c:229-249 | closes after an error, waits while frozen, else starts a new interval with a flush |
| `BufferedFile.QemuFileBuffered.BufferedRateLimit` | buffered_file.c:193-207 | limited exactly if there is no error and the stream is frozen or over its limit |
| `BufferedFile.QemuFileBuffered.BufferedSetRateLimit` | buffered_file.c:209-220 | a tenth of the rate per interval, ignored after an error |
| `Dma.SgList.Add` | dma-helpers.c:21-32 | one range is appended and the size counts all bytes, across growth of the array |
| `DmaModel.ConservedIff` | dma-helpers.c:82-98 | at every entry, sectors done plus bytes mapped account for the list up to the current position, byte by byte, if and only if every transfer so far was a multiple of 512 bytes |
| `DmaModel.AccountPieces` | dma-helpers.c:100-112 | mapping until it stops keeps the account |
| `DmaModel.PiecesAdvance` | dma-helpers.c:100-112 | the pieces mapped in one go are exactly the bytes of the list between the old and the new position |
| `DmaModel.AccountDone` | dma-helpers.c:89-91 | finishing a transfer keeps the account, up to what does not fill a sector |
| `Dma.DmaRequest.MapMore` | dma-helpers.c:100-112 | maps exactly the pieces up to the first failed map, an empty entry or the end of the list, and moves the position behind them |
| `Dma.DmaRequest.DmaBdrvCb` | dma-helpers.c:82-131 | one step of the request, its whole new state: the user is called exactly at the end of the list or on an error; otherwise the next pieces are mapped, the position moves, and they are submitted at the next sector, or the request waits; a refused submission leaves it abandoned without a callback |
| `Dma.DmaRequest.RescheduleDma` | dma-helpers.c:54-61 | resuming after a failed map continues at the same position and sector with the next pieces, and never calls the user |
| `DmaModel.RetryResumes` | dma-helpers.c:54-69 | a request that waits for memory goes on with the next pieces at the same sector once it is told to try again and its bottom half has run, and waits again if nothing can be mapped |
| `Dma.DmaRequest.Run` | dma-helpers.c:54-131 | every run of completions, retries and bottom halves leaves the state that the model computes from the events |
| `DmaModel.RunSettles` | dma-helpers.c:54-131 | between any two events exactly one thing is awaited, or the user has been called, or the request is abandoned; the account is kept |
| `DmaModel.ToldExactlyOnce` | dma-helpers.c:93-98 | over every run the user has been called exactly once if and only if nothing is awaited and the request was not abandoned, and not at all otherwise; a success covers the whole list, moved in order to consecutive sectors exactly if all transfers were of whole sectors |
| `DmaModel.OverStays` | dma-helpers.c:82-131 | no event changes a request that has called its user or was abandoned |
| `DmaModel.AbandonedIff` | dma-helpers.c:119-130 | exact condition over every run: the request is abandoned if and only if some event let it go on to a submission, past a map that succeeded, and the driver refused it |
| `DmaModel.RefusedNeverTold` | dma-helpers.c:126-130 | concrete run: the second entry of a list is refused, and whatever follows, the user is never called |
| `DmaModel.EnoughCompletions` | dma-helpers.c:82-131 | completion, however maps fail in between: if no entry is empty, then after more completed transfers than there are bytes to go the user has been called or the request was abandoned |
| `DmaModel.SmoothRunSucceeds` | dma-helpers.c:82-131 | without failures, more completions than there are bytes to go end in exactly one callback, a success |
| `DmaModel.EmptyEntryBlocks` | dma-helpers.c:100-117 | no run gets past an entry of length 0, for which no map succeeds (exec.c:3291-3342) |
| `DmaModel.CanSucceedIff` | dma-helpers.c:93-117 | some run tells the user of success if and only if no entry of the list is empty |
| `Dma.DmaBdrvIo` | dma-helpers.c:147-169 | a handle is returned exactly if the first call mapped something and the driver accepted it |
| `Dma.ShortListMovesNothing` | dma-helpers.c:89-97 | concrete list of 100 bytes: nothing is moved and the user is told that it succeeded |
| `SymbolTable.BswapTwice` | elf_ops.h:44-50 | swapping the bytes of a symbol twice gives it back |
| `SymbolTable.Bswap32Bytes` | elf_ops.h:44-50 | byte `k` of a swapped word is byte `3 - k` of the word |
| `SymbolTable.Bswap16Bytes` | elf_ops.h:44-50 | the two bytes of a half word change places |
| `SymbolTable.KeptSymbol` | elf_ops.h:129-148 | kept are the symbols of function type in a defined section, and their addresses lose at most the lowest bit |
| `SymbolTable.FilterSymbols` | elf_ops.h:129-149 | swap-with-last filter: kept entries are the defined function symbols among those visited, each converted exactly once, the rest untouched |
| `SymbolTable.FilterDrop` | elf_ops.h:135-143 | the entry that takes the place of a dropped one is still unconverted and still to be visited |
| `SymbolTable.LoadSymbols` | elf_ops.h:127-152 | the table is exactly the multiset of defined function symbols in host byte order, marks cleared, sorted by address |
| `SymbolTable.SymFindIff` | elf_ops.h:63-74 | a symbol is recognised exactly where its closed range contains the address and its end fits into 32 bits |
| `SymbolTable.LookupSymbol` | elf_ops.h:76-90 | the search loop computes the binary search function |
| `SymbolTable.BSearchSound` | elf_ops.h:76-90 | whatever is found covers the address |
| `SymbolTable.BSearchComplete` | elf_ops.h:76-90 | a covering symbol is found whenever starts and ends are both in order |
| `SymbolTable.LookupCorrect` | elf_ops.h:76-90 | with sorted, disjoint closed ranges the result is the one covering symbol, and the empty name exactly if there is none |
| `SymbolTable.LoadAndLookup` | elf_ops.h:76-152 | end to end: if the functions of a file are disjoint, loading the raw table and looking an address up gives the function that covers it, and nothing exactly if there is none |
| `SymbolTable.NestedRangeHides` | elf_ops.h:76-90 | concrete table with one range inside another on which a covered address is not found |
| `SymbolTable.FoundIff` | elf_ops.h:63-90 | exact condition for sorted tables: every address that some entry recognises is found, for every choice of the entries that the library search looks at, if and only if no entry hides an address of an earlier one, that is, ends before the address while no later entry recognises it |
| `SymbolTable.LookupUnhidden` | elf_ops.h:76-90 | in a sorted table the halving search fails on an address that no entry hides exactly if no entry recognises it |
| `Dcache.Log2Roundup` | dcache.c:55-64 | the least exponent whose power of two reaches the argument |
| `Dcache.DataCache.constructor` | dcache.c:66-119 | size, ways and line size are each rounded up to a power of two, and rows, ways and line size multiply to the rounded size; every entry is invalid and every counter zero, so the row invariant holds for lines of two bytes or more |
| `DcacheModel.EmptyIsGood` | dcache.c:93-94 | the initial table satisfies the row invariant |
| `DcacheModel.RunGood` | dcache.c:181-334 | over every run with lines of two bytes or more, no row holds a valid line twice or a line of another row |
| `DcacheModel.OneByteLinesHitInvalid` | dcache.c:188-190 | exact condition: in an empty table the last address hits if and only if lines are one byte long |
| `DcacheModel.RunQueues` | dcache.c:235-241 | refinement: under round robin each row, oldest first, holds the last `ways` entries of its old contents followed by the lines of its load misses |
| `DcacheModel.EvictedExactly` | dcache.c:233-262 | the `m`-th newest line of a row stays for the next `ways - m - 1` load misses on the row and is gone after one more |
| `DcacheModel.MissEvictedExactly` | dcache.c:233-262 | a line brought in by a load miss is evicted by exactly the `ways`-th later load miss on its row |
| `DcacheModel.RandomReplaces` | dcache.c:242-257 | closed form of the other policy, over every run of a new cache: after `n` load misses the next one replaces way `(n + n / 13) % ways` of its row and no other entry |
| `DcacheModel.LoadBringsLine` | dcache.c:184-262 | after a load every address of the same line hits, and no address of another line that missed before |
| `DcacheModel.RunCounts` | dcache.c:181-334 | every load and store of a run, the halves of swaps included, is counted once, as a hit or as a miss |
| `DcacheModel.StoreKeepsTable` | dcache.c:267-326 | stores change counters and time only |
| `DcacheModel.SwpStoreHits` | dcache.c:330-334 | the store half of a swap always hits |
| `DcacheModel.RunTime` | dcache.c:230-231 | the time added by a run is its load and store misses weighted by their penalties |
| `Dcache.DataCache.Find` | dcache.c:184-210 | found exactly if the line is in the row |
| `Dcache.DataCache.ChooseWay` | dcache.c:233-257 | the way to replace and the new pointers under both policies |
| `Dcache.DataCache.DcacheLoad` | dcache.c:181-263 | computes the load of the model |
| `Dcache.DataCache.DcacheStore` | dcache.c:267-326 | computes the store of the model |
| `Dcache.DataCache.DcacheSwp` | dcache.c:330-334 | computes the swap of the model |

## Left out

- Opening, probing, snapshots, option parsing, monitor output, files, sockets,
  threads, signals and user interfaces: plumbing around the modelled code.
- Memory: allocation always succeeds, and releasing vectors, padding buffers
  and control blocks is modelled only where use after release is the point
  (the multiwrite control block, freed bottom halves, the buffer pool).
- The ranges of one I/O vector do not overlap, and a range is represented by
  the bytes it holds; aliasing between a vector and other memory is not modelled.
- The linked list of bottom halves is a sequence; its `next` fields are not
  modelled. Use of a bottom half after the sweep freed it is outside the model,
  as are queued completions beyond "arbitrary code runs".
- `qemu_bh_update_timeout`, the notification of the running CPU, and context
  identifiers.
- AsyncProofs.PollSemantics: callbacks do not poll their own context again, because the
  sweep of the outer poll would then work on freed entries.
- CharPipe.CharPipes.Run: peers of pipes do not write back into the queue that is serving them.
- The length of a growable device does not change when it is written.
- The dirty bitmap is allocated in whole 32-bit words; the code allocates
  bytes, which may end inside the last word it uses.
- DirtyTracking.DirtyDevice.SetDirtyBitmap: sectors behind the end of the device, and requests with no or
  a negative number of sectors, are excluded; the code indexes the bitmap with
  them unchecked.
- Dma.DmaBdrvIo: says nothing about a request whose first call does not submit; the
  code releases it while a map client may still refer to it.
- The 64-bit form of the symbol code, reading the file, the string table, and
  `lookup_symbol` over several tables.
- Trace records of the cache simulator and its statistics output.
- Index arithmetic of the cache uses division and remainder by the line size
  and the number of rows, which are powers of two, where the code shifts and masks.
- DES works on 32-bit words; wider host words and `cpkey` are not modelled.
- Counters such as `bytes_xfer` and `size` do not overflow.
- `wait_for_unfreeze`, `put_ready` and the backend's close are counted, not
  modelled; a client that puts more data from inside them is not.
