# ITA driver and three-context job sequence — a Dafny model

This project models the cluster-side driver for the ITA attention
accelerator, `tests/chimera-convolve/snitchCluster/simpleITA/include/ita.h`,
and the test routine `testReturn` in
`tests/chimera-convolve/snitchCluster/simpleITA/src_cluster/test_cluster.c`
that drives it. The model covers:

- **Control words** (`packing.dfy`, module `Packing`). The `LayerType` and
  `ActivationType` selectors and the `ITA_TILES`, `ITA_LAYER` and `ITA_FLAGS`
  packers are modelled as 32-bit bit-vector functions. Each has a decoder,
  with bound and round-trip properties.
- **The register block** (`registers.dfy`, module `Registers`). The engine's
  memory-mapped registers are a map from offsets (relative to the engine's
  base address) to 32-bit words. Every register interaction is appended to a
  trace. An interaction is a store, a slot poll that saw free slots, or a
  busy poll that saw the engine idle. `Replay` rebuilds the register block
  from a trace. `Snapshots` lists the register block right after every
  store to the control register (offset 0x00), i.e. at every commit or
  trigger.
- **The driver primitives** (`driver.dfy`, module `Driver`).
  `ita_write_regs`, `ita_write_rqs_params`, `ita_soft_clear`,
  `ita_soft_clear_keep_regs`, `ita_commit` and `ita_trigger` are pure
  updates of a `Device`. `ita_acquire_job` and `ita_wait_job` are polls
  over the sequence of values the status registers return. Address
  translation is 32-bit wrapping subtraction of the cluster base.
- **The requantization tables** (`requant.dfy`, module `RequantTables`). The
  three tables of `test_cluster.c`, the byte lists their comments give, and
  a proof that every row is the little-endian packing of its bytes.
- **Job runs** (`job_run.dfy`, module `JobRun`). A routine is a sequence of
  driver calls (steps). `Run` carries them out, stopping at the first poll
  that spins. It is proved once, for every sequence of steps, that the
  trace grows by exactly the events of the completed steps. It is also
  proved that programming a context and then committing or triggering
  leaves a snapshot holding all of that context's registers.
- **The test routine** (`cluster_test.dfy`, module `ClusterTest`).
  `testReturn` is modelled as its argument check followed by its ten driver
  calls, with the three contexts it programs (addresses, control words,
  table rows). It is proved that:
  - a complete run performs exactly clear, acquire, program, commit,
    program, trigger, acquire, program, trigger, wait;
  - the register block at the commit and at the two triggers holds, in
    turn, every register of contexts 0, 1 and 2.

The platform constants are not part of the model's own text. These are
`CLUSTER_4_BASE`, `CLUSTER_4_TCDM_START_ADDR`, `TESTVAL` and the two engine
addresses. They are parameters instead (`Driver.Platform`, and offsets
relative to the engine's base). The values the status registers return
are inputs as well (`JobRun.Env`).

Facts about the code that the model keeps:

- The code programs exactly three contexts, all from `testReturn`, and
  the model has those three. The run interpreter (`JobRun.Run`)
  nevertheless accepts any sequence of the eight driver calls, including
  `ita_soft_clear_keep_regs` and either programming call on its own. The
  routine's programming of a context is one step for the two calls made
  back to back (`JobRun.ConfigureIsTwoCalls`).
- The six requantization stores are issued in one fixed order, 0x3C up
  to 0x50. The model keeps that order and proves it
  (`Driver.WriteRqsParams`).
- Nothing in the code fixes the number of free slots after a soft clear.
  The status reads are arbitrary inputs, constrained only by the exit
  conditions of the polls. A run completes exactly when enough of those
  reads meet the exit conditions (`JobRun.RunCompletes`).
- The comment above `testReturn` (test_cluster.c line 67) says it returns
  0 on success. The code returns `TESTVAL` (line 123), and the host checks
  for `TESTVAL | 1` (`src_host/test_host.c` line 25). The model follows
  the code: a completed call returns `TESTVAL`, a 32-bit signed value
  like the function's `int32_t` result.

## Model

| member | source | states |
|---|---|---|
| Packing.LayerOfCode | tests/chimera-convolve/snitchCluster/simpleITA/include/ita.h:23-27 | Codes 0, 1 and 2 name ATTENTION, FEEDFORWARD and LINEAR, and a named layer has exactly that code. Every code above 2 names no layer. |
| Packing.ActivationOfCode | tests/chimera-convolve/snitchCluster/simpleITA/include/ita.h:29-33 | Codes 0, 1 and 2 name IDENTITY, GELU and RELU, and a named activation has exactly that code. Every code above 2 names none. |
| Packing.PackTiles | tests/chimera-convolve/snitchCluster/simpleITA/include/ita.h:35 | For s < 16, e < 16 and p < 2^24, the tile word has s in bits 0-3, e in bits 4-7 and p in bits 8 and up. |
| Packing.UnpackTiles | tests/chimera-convolve/snitchCluster/simpleITA/include/ita.h:35 | Every 32-bit word splits into in-range fields that pack back to that same word, so the tile packing is onto. |
| Packing.TilesRoundTrip | tests/chimera-convolve/snitchCluster/simpleITA/include/ita.h:35 | Unpacking the tile word of an in-range shape returns the shape. |
| Packing.LayerWord | tests/chimera-convolve/snitchCluster/simpleITA/include/ita.h:36 | For codes below 4, the layer word is below 16, with the layer code in bits 0-1 and the activation code in bits 2-3. |
| Packing.PackLayer | tests/chimera-convolve/snitchCluster/simpleITA/include/ita.h:23-36 | For any layer and activation selector, the layer word is below 16, with the layer code in bits 0-1 and the activation code in bits 2 and up. |
| Packing.UnpackLayer | tests/chimera-convolve/snitchCluster/simpleITA/include/ita.h:36 | A decoded word is the layer word of the pair it decodes to. A word that does not decode is the layer word of no pair. |
| Packing.LayerRoundTrip | tests/chimera-convolve/snitchCluster/simpleITA/include/ita.h:36 | Decoding the layer word of a selector pair returns the pair. |
| Packing.FlagsWord | tests/chimera-convolve/snitchCluster/simpleITA/include/ita.h:37-39 | For five 0/1 arguments, the flags word is below 32 and holds the arguments at bits 0 to 4, in argument order. |
| Packing.PackFlags | tests/chimera-convolve/snitchCluster/simpleITA/include/ita.h:37-39 | The flags word of any flag set is below 32. |
| Packing.UnpackFlags | tests/chimera-convolve/snitchCluster/simpleITA/include/ita.h:37-39 | Exactly the words below 32 decode, each to the flag set whose flags word it is. |
| Packing.FlagsRoundTrip | tests/chimera-convolve/snitchCluster/simpleITA/include/ita.h:37-39 | Decoding the flags word of a flag set returns the set. |
| Driver.Translate | tests/chimera-convolve/snitchCluster/simpleITA/include/ita.h:46-50 | The stored value is `addr - base` modulo 2^32, with no clamping and no range check. Adding the base back modulo 2^32 recovers the address. |
| Driver.JobWritesImage | tests/chimera-convolve/snitchCluster/simpleITA/include/ita.h:46-54 | On any register block, the eight job stores override exactly 0x20, 0x24, 0x28, 0x2C, 0x30, 0x38, 0x54 and 0x58 with the job's values. Every other register keeps its value. |
| Driver.WriteRegs | tests/chimera-convolve/snitchCluster/simpleITA/include/ita.h:41-55 | `ita_write_regs` issues eight stores to the eight job registers, in strictly ascending offset order. Each stores the job's value for that register. The register block becomes the old one overridden by those eight registers, and the busy word is unchanged. |
| Driver.RqsWritesImage | tests/chimera-convolve/snitchCluster/simpleITA/include/ita.h:60-65 | On any register block, the six requantization stores override exactly 0x3C to 0x50 with eps1, eps2, shift1, shift2, add1 and add2. Every other register keeps its value. |
| Driver.WriteRqsParams | tests/chimera-convolve/snitchCluster/simpleITA/include/ita.h:57-66 | `ita_write_rqs_params` issues six stores in ascending order; store i goes to offset 0x3C + 4i and carries the matching parameter. The register block becomes the old one overridden by those six registers. |
| Driver.WritesCommute | tests/chimera-convolve/snitchCluster/simpleITA/include/ita.h:41-66 | The two programming calls write disjoint registers, so either order leaves the same register block. |
| Driver.SoftClear | tests/chimera-convolve/snitchCluster/simpleITA/include/ita.h:68-72 | `ita_soft_clear` issues one store, of 0 to 0x14, and changes no other register. |
| Driver.SoftClearKeepRegs | tests/chimera-convolve/snitchCluster/simpleITA/include/ita.h:74-78 | `ita_soft_clear_keep_regs` issues one store, of 1 to 0x14, and changes no other register. |
| Driver.AcquireJob | tests/chimera-convolve/snitchCluster/simpleITA/include/ita.h:80-83 | The poll spins exactly when no offered read of 0x04 is at least 1. Otherwise it exits on the first such read. It stores nothing: it only records the count it saw, which is at least 1. |
| Driver.WaitJob | tests/chimera-convolve/snitchCluster/simpleITA/include/ita.h:85-88 | The poll spins exactly when no offered read of the busy word is 0. Otherwise it exits on the first read of 0, with the registers unchanged and the engine idle. |
| Driver.Trigger | tests/chimera-convolve/snitchCluster/simpleITA/include/ita.h:90-92 | `ita_trigger` issues one store, of 0 to 0x00, and changes no other register. |
| Driver.Commit | tests/chimera-convolve/snitchCluster/simpleITA/include/ita.h:94-96 | `ita_commit` issues one store, of 1 to 0x00, and changes no other register. |
| RequantTables.BytesRoundTrip | tests/chimera-convolve/snitchCluster/simpleITA/src_cluster/test_cluster.c:48-62 | Splitting a value below 256^n into n bytes, least significant first, and packing them back returns the value. |
| RequantTables.LittleEndianRoundTrip | tests/chimera-convolve/snitchCluster/simpleITA/src_cluster/test_cluster.c:48-62 | The little-endian packing of n bytes is below 256^n, and splitting it again returns the bytes. |
| RequantTables.TablesMatchComments | tests/chimera-convolve/snitchCluster/simpleITA/src_cluster/test_cluster.c:48-62 | In all nine rows of the three tables, the first word packs bytes 1-4 of the row's comment little-endian and the second word packs bytes 5-6. |
| JobRun.Program | tests/chimera-convolve/snitchCluster/simpleITA/src_cluster/test_cluster.c:83-88 | Programming a context stores the six requantization registers and then the eight job registers. The register block becomes the old one overridden by both sets. |
| JobRun.ProgramWritesNoControl | tests/chimera-convolve/snitchCluster/simpleITA/include/ita.h:41-66 | Neither programming call stores to the control register. |
| JobRun.RequantBeforeJob | tests/chimera-convolve/snitchCluster/simpleITA/src_cluster/test_cluster.c:83-88 | Within a context, every requantization store comes before every job-register store. |
| JobRun.ProgramReplay | tests/chimera-convolve/snitchCluster/simpleITA/src_cluster/test_cluster.c:83-88 | After a context's stores, the register block is the old one overridden by the six requantization registers and then the eight job registers. |
| JobRun.ProgramNoSnapshot | tests/chimera-convolve/snitchCluster/simpleITA/include/ita.h:41-66 | Programming a context alone never reaches the control register, so it leaves no snapshot. |
| JobRun.ControlKeepsImages | tests/chimera-convolve/snitchCluster/simpleITA/include/ita.h:90-96 | A commit or trigger store to the control register leaves every requantization and job register of the context in place. |
| JobRun.ProgramSnapshot | tests/chimera-convolve/snitchCluster/simpleITA/src_cluster/test_cluster.c:83-91 | Programming a context followed by a commit or trigger leaves exactly one snapshot, whatever the registers held before. That snapshot holds every requantization and job register of the context. |
| JobRun.Perform | tests/chimera-convolve/snitchCluster/simpleITA/include/ita.h:68-96 | A driver call fails to finish exactly when it is a poll whose offered reads never meet its exit condition. A finished call adds exactly its own events to the trace, and the register block becomes the old one with those events replayed on it. A slot poll exits on at least one free slot; a busy poll leaves the engine idle. The events of each call are given by `JobRun.StepEvents`: each primitive's stores, as in ita.h:46-96, a poll's one read, and a programming step's fourteen stores. |
| JobRun.ConfigureIsTwoCalls | tests/chimera-convolve/snitchCluster/simpleITA/src_cluster/test_cluster.c:83-88 | Programming a context as one step gives the same result as `ita_write_rqs_params` alone followed by `ita_write_regs` alone on the device that leaves. |
| JobRun.PollCountAppend | tests/chimera-convolve/snitchCluster/simpleITA/src_cluster/test_cluster.c:79-121 | The polls of two call sequences, one after the other, add up: each kind is counted in each part. |
| JobRun.ExitsNone | tests/chimera-convolve/snitchCluster/simpleITA/include/ita.h:80-88 | No offered read would end a poll exactly when the count of reads that would end it is 0. |
| JobRun.ExitsAfter | tests/chimera-convolve/snitchCluster/simpleITA/include/ita.h:80-88 | A poll that exits on the first read that ends it leaves exactly one such read fewer for later polls. |
| JobRun.PerformConsumes | tests/chimera-convolve/snitchCluster/simpleITA/include/ita.h:80-88 | A call spins exactly when it is a poll and none of the remaining reads would end it. A finished slot poll uses up exactly one slot read of at least 1, a finished busy poll exactly one busy read of 0, and a store uses up no read. |
| JobRun.Run | tests/chimera-convolve/snitchCluster/simpleITA/src_cluster/test_cluster.c:79-121 | The run carries the calls out in order and stops only at a poll that spins (which poll: `JobRun.RunStallsAt`). The trace grows by exactly the events of the calls that completed, and the register block becomes the old one with those events replayed on it. The run completes exactly when every call did. |
| JobRun.RunStallsAt | tests/chimera-convolve/snitchCluster/simpleITA/include/ita.h:80-88 | A stalled run stops at the first call that spins: the calls before it, run on their own, all complete, and adding the stalling call makes the run stall. As in the code, a routine hangs in the first poll whose reads never let it exit. |
| JobRun.RunCompletes | tests/chimera-convolve/snitchCluster/simpleITA/include/ita.h:80-88 | A run completes exactly when the slot reads hold at least as many values of at least 1 as there are slot polls, and the busy reads hold at least as many 0s as there are busy polls. |
| JobRun.RunAccepts | tests/chimera-convolve/snitchCluster/simpleITA/include/ita.h:80-83 | Every slot poll a run completed exited on at least one free slot. |
| JobRun.RunStarts | tests/chimera-convolve/snitchCluster/simpleITA/src_cluster/test_cluster.c:79 | A run whose first call is a store always performs that store. |
| JobRun.RunEndsIdle | tests/chimera-convolve/snitchCluster/simpleITA/src_cluster/test_cluster.c:120-123 | A completed run whose last call is `ita_wait_job` ends with the engine idle. |
| JobRun.TracePrefix | tests/chimera-convolve/snitchCluster/simpleITA/src_cluster/test_cluster.c:79-121 | Completing more calls only extends the trace. So a run stuck in a poll has performed a prefix of the full protocol. |
| ClusterTest.ContextTraceStages | tests/chimera-convolve/snitchCluster/simpleITA/src_cluster/test_cluster.c:79-121 | The routine's trace is the traces of its six stages in order: clear and acquire, program and commit, program and trigger, acquire, program and trigger, wait. |
| ClusterTest.CompleteTrace | tests/chimera-convolve/snitchCluster/simpleITA/src_cluster/test_cluster.c:79-121 | When all ten calls of the routine complete, the trace is exactly, in order: 0 stored to 0x14; a slot poll; context 0's stores; 1 stored to 0x00; context 1's stores; 0 stored to 0x00; a slot poll; context 2's stores; 0 stored to 0x00; a busy poll. The ten calls are `ClusterTest.ContextSteps`, in the source order of lines 79-121. `testReturn` runs them on the three contexts of `ClusterTest.TestContext` (`ClusterTest.TestSteps`). |
| ClusterTest.ExpectedStages | tests/chimera-convolve/snitchCluster/simpleITA/src_cluster/test_cluster.c:79-121 | The soft clear and the polls take no snapshot, so the routine's snapshots are exactly those of its three programming stages, in order. |
| ClusterTest.ExpectedSnapshots | tests/chimera-convolve/snitchCluster/simpleITA/src_cluster/test_cluster.c:83-118 | That trace leaves exactly three snapshots, whatever the registers held before. The commit snapshot holds all of context 0's registers, and the two trigger snapshots hold those of contexts 1 and 2, with nothing left over from the previous context. |
| ClusterTest.AddWrap | tests/chimera-convolve/snitchCluster/simpleITA/src_cluster/test_cluster.c:85-86 | The address sums are 32-bit unsigned: `(a + k) mod 2^32`. |
| ClusterTest.AddWrapTwice | tests/chimera-convolve/snitchCluster/simpleITA/src_cluster/test_cluster.c:97-98 | Adding 0x1000 and then 0x100 modulo 2^32, as the code does, is adding 0x1100. |
| ClusterTest.ContextJob | tests/chimera-convolve/snitchCluster/simpleITA/src_cluster/test_cluster.c:85-115 | Every context's tile word is 0x111 and its layer word is 0. The flags words of contexts 0, 1 and 2 are 3, 2 and 0. `ClusterTest.TestContext(p, k)` pairs these job arguments with row k of the tables (`ClusterTest.ContextRequant`), which are the arguments passed at lines 83-115. |
| ClusterTest.ContextControlWords | tests/chimera-convolve/snitchCluster/simpleITA/src_cluster/test_cluster.c:87-88 | 0x111 decodes to one tile of each kind, and 0 decodes to ATTENTION with IDENTITY. 3, 2 and 0 decode to the flag sets (1,1,0,0,0), (0,1,0,0,0) and (0,0,0,0,0). |
| ClusterTest.ContextRequant | tests/chimera-convolve/snitchCluster/simpleITA/src_cluster/test_cluster.c:83-84 | Context k's six requantization parameters are row k of the tables. Each is the little-endian packing of the bytes its comment lists. |
| ClusterTest.TranslateShift | tests/chimera-convolve/snitchCluster/simpleITA/include/ita.h:46-50 | Translating an address moved by k gives the translated address moved by k, modulo 2^32. |
| ClusterTest.AddressRegShift | tests/chimera-convolve/snitchCluster/simpleITA/src_cluster/test_cluster.c:96-98 | Moving a buffer by k moves its address register by k. So the five address registers of a context are 0x1000 apart, and each moves by 0x100 from one context to the next. |
| ClusterTest.ContextAddressRegs | tests/chimera-convolve/snitchCluster/simpleITA/src_cluster/test_cluster.c:85-113 | Context k programs the translated addresses TCDM + k·0x100 + 0, 0x1000, 0x2000, 0x3000 and 0x4000, in register order. |
| ClusterTest.ContextPolls | tests/chimera-convolve/snitchCluster/simpleITA/src_cluster/test_cluster.c:79-121 | The routine polls for a free slot twice, at lines 80 and 106, and for the idle engine once, at line 121. |
| ClusterTest.ContextRunCompletes | tests/chimera-convolve/snitchCluster/simpleITA/src_cluster/test_cluster.c:79-121 | For any three contexts, the ten calls all complete exactly when the engine offers two slot reads of at least 1 and one busy read of 0. |
| ClusterTest.TestReturn | tests/chimera-convolve/snitchCluster/simpleITA/src_cluster/test_cluster.c:69-124 | With any argument other than 0xdeadbeef, `testReturn` returns -1 and leaves the device (registers, busy word, trace) untouched. When it returns after an accepted argument, it returns TESTVAL with the engine idle. |
| ClusterTest.TestReturnFollowsSteps | tests/chimera-convolve/snitchCluster/simpleITA/src_cluster/test_cluster.c:79-123 | An accepted call first stores 0 to 0x14 and then performs a prefix of the routine's calls, in order, each slot poll exiting on a free slot. The register block is the old one with those calls' events replayed on it. It returns exactly when all ten calls completed. |
| ClusterTest.TestReturnRuns | tests/chimera-convolve/snitchCluster/simpleITA/src_cluster/test_cluster.c:79-123 | An accepted call is a run of its ten calls: it returns exactly when that run completes, and it leaves the run's device. |
| ClusterTest.TestReturnReturns | tests/chimera-convolve/snitchCluster/simpleITA/src_cluster/test_cluster.c:79-123 | An accepted call returns exactly when the engine offers two slot reads of at least 1 and one busy read of 0. Otherwise it spins in a poll. |
| ClusterTest.TestReturnOnReadyEngine | tests/chimera-convolve/snitchCluster/simpleITA/src_cluster/test_cluster.c:79-123 | With slot reads 1, 1 and busy read 0, an accepted call returns TESTVAL. |
| ClusterTest.RunSnapshots | tests/chimera-convolve/snitchCluster/simpleITA/src_cluster/test_cluster.c:79-121 | For any three contexts, a completed run of the routine ends with a busy poll. It leaves three snapshots, holding every register of the three contexts in turn. |
| ClusterTest.TestReturnSnapshots | tests/chimera-convolve/snitchCluster/simpleITA/src_cluster/test_cluster.c:83-123 | When `testReturn` returns TESTVAL, its trace ends with the engine seen idle. The commit and the two triggers see every register of the test's contexts 0, 1 and 2 respectively. |

## Left out

- The engine's job queue. Nothing in the code says how many slots it has or
  how a commit differs from a trigger inside the engine. The free-slot and
  busy reads are arbitrary inputs (`JobRun.Env`).
- The delay loops after the soft-clear stores (ita.h lines 70-71 and
  76-77). They only spend time and change no register.
- The unbounded spin of the polls. A poll consumes a finite sequence of
  offered reads. It either exits on the first read that meets its
  condition or, when none does, is reported as spinning (`Hung` for the
  routine). It is not modelled as a loop that must terminate.
- `clusterInterruptHandler` (test_cluster.c lines 21-46): inline RISC-V
  assembly that sets up interrupts.
- The host side: `src_host/test_host.c` is not part of this model. It
  offloads `testReturn` through SDK calls defined outside the modelled files.
- The concrete values of `CLUSTER_4_HWPE_ITA_BASE_ADDR`,
  `CLUSTER_4_HWPE_BUSY_ADDR`, `CLUSTER_4_BASE`,
  `CLUSTER_4_TCDM_START_ADDR` and `TESTVAL`. They are defined outside
  the modelled files. Registers are offsets from the engine's base, and the
  busy word is a separate field of the device. The rest are fields of
  `Driver.Platform`.
- What a soft clear does inside the engine. The register map holds
  the values the driver stored, not the engine's internal state. So
  `Driver.SoftClear` (store 0 to 0x14) and `Driver.SoftClearKeepRegs`
  (store 1 to 0x14) both leave every other entry of the map as it was.
  The model does not say whether the engine discards its programmed
  registers on a plain soft clear, as the name of
  `ita_soft_clear_keep_regs` suggests. Nothing in the code reads them
  back.
- The `ita_int24_t` bit-field type (ita.h lines 19-21): nothing uses it.
- Ordering of volatile stores beyond program order. The trace is the
  program order of the stores.
- The unparenthesised `s` and `e` in `ITA_TILES`. The model packs
  `(s) | ((e) << 4) | ((p) << 8)`, which is what every call in the code
  computes.
- Packing.PackTiles: says nothing about arguments out of range
  (s, e ≥ 16 or p ≥ 2^24). There the fields overlap, or bits are shifted
  out of the 32-bit word, and the code promises no decoding.
- Packing.FlagsWord: says nothing about arguments other than 0 and 1. Such
  arguments spill into neighbouring bits, and the code passes only 0 and
  1.
- The `offloadArgs_t` argument is reduced to its `value` field, the only
  one `testReturn` reads.
- `CLUSTER_4_TCDM_START_ADDR + offset` is taken as a 32-bit unsigned sum,
  as the `uint32_t` parameters it is passed through make it.
- A slot poll that exits records the count it read in the register map at
  offset 0x04. It records no store: the trace gets a poll event, not a
  write.
