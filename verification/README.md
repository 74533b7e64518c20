# Verified model of the Kroma prover core

This Dafny project models the parts of the Kroma prover (`zkevm/src`) that hold loops, arithmetic and
long-lived state, and proves what they promise:

- **`Capacity.dfy`** - the batch allocator `check_batch_capacity`, as an in-place loop over a mutable batch.
- **`CodeDatabase.dfy`, `Bytecode.dfy`, `WitnessBlock.dfy`** - the content-addressed code store, the hexadecimal
  bytecode parser, chain id selection and header insertion.
- **`FieldCodec.dfy`** - the byte encodings of field elements, curve points and the aggregation final pair.
- **`FileStore.dfy`, `ParamsStore.dfy`** - parameter and seed files over an abstract file system.
- **`Backend.dfy`, `Proving.dfy`, `Verification.dfy`** - the prover and the verifier as classes with their key caches.
- **`Runs.dfy`** - whole runs of a prover and a verifier, and what every operation keeps.
- **`Transparency.dfy`** - when key caches and eviction can be seen in the replies of a run, exactly.
- **`AggregationKey.dfy`** - which key a prover aggregates with, and what aggregate proofs carry.
- **`Acceptance.dfy`** - what a proof is a proof of, and that the verifier accepts what the prover makes.
- **`Theorems.dfy`** - history independence, agreement of prover and verifier on keys, readiness, saved proofs.

`dafny verify dfyconfig.toml` checks everything.

## How to read it

A Rust call ends in an `Outcome`: `Ok`, `Err` or `Panic`. `unwrap`, `expect`, failed assertions and out-of-range
indices are `Panic`, and a panic in the middle of an operation leaves the state changed up to that point. Some log
arguments can panic when they are evaluated (an empty batch, a missing block hash, a proof shorter than 15 bytes), so
the enabled log levels are part of the configuration.

Code that updates state in place is a class or a method with loops, proved equal to a specification function; the
theorems are about those functions. The outside crates (halo2, the aggregator, the zktrie, `serde_json`, the file
system's contents, the hash function) are fields of records (`Library`, `ParamsEnv`, `CodeContext`, `BuilderEnv`), so
every theorem holds for every implementation of them that meets the named law in its `requires`:

- `KeygenLaw` - the verifying key inside a generated proving key is the key `keygen_vk` generates for the same circuit.
- `RoundTrips`, `JsonLaws` - parsing what was printed gives it back.
- `ReadsBack` - reading the bytes of one given aggregation verifying key gives that key back. It is never assumed of
  all keys: the reader is the aggregation circuit's, and target-circuit keys go through another one.
- `TargetComplete`, `AggComplete` - completeness of halo2: a proof made for instances that satisfy the circuit, with a
  key generated from a circuit of the same type (for aggregation: of a proved circuit of the same shape), is accepted
  under that key for those instances. The laws speak of the library's functions only, not of the model's.
- `BytesTellApart` - if the written verifying keys of two given aggregation keys are equal, so are the keys.
- `ParamsLaw` - written parameters have the checked length and read back as they were.
- `CollisionFree` - no two codes that one batch needs have the same hash.

The premises `SoundPks` and `SoundVks` say that the starting caches hold generated keys under their circuits' names.
They hold of empty caches, so of every new prover and verifier, and every operation keeps them, whatever is on the disk
(`RunKeepsSoundPks`, `RunKeepsSoundVks`). Created proofs and verdicts need nothing more to be independent of history
(`HistoryIndependence`, `VerdictsIgnoreHistory`), proved circuits only `KeygenLaw` (`ProvingIgnoresHistory`).

What is reloaded from disk needs more, because a conversion looks its key up under the name in the proof.
`SystemsAgree` relates two systems that differ only in their key caches and in OPT_MEM, on a disk where that cannot
show; `RunsAgree` shows that they give equal replies at every step of every run. `ColdRun` is the machine that
forgets every target-circuit key before each operation, in the prover and in the verifier; the aggregation key is kept,
because it does depend on history. `RunRefinesColdRun` shows that a prover and a verifier with caches refine it, evicting
or not. `CachesInvisibleIff` and `EvictionInvisibleIff` show that the condition on the disk is the exact one.

## What is not so

These are cases where the code does less than one might expect. Each has a lemma that says exactly when.

- A saved proof that carries another circuit's name can make the cache visible: `ConversionKeyCacheIndependentIff` gives
  the exact condition for one conversion, `CachesInvisibleIff` over all runs and all sound starting caches. From empty
  caches the proof must besides name a circuit whose key can be cached and evicted (`EvictionInvisibleIff`);
  `EvictionShows` constructs the run that shows it.
- Aggregate proofs depend on history: all are made with the key generated from the first circuit of the run that got one,
  even if its own aggregation then failed (`AggKeyIsFirstSource`, `AggRepliesExact`). `AggHistory` and `AggHistoryIff` say
  when a reply is still that of a prover that has not aggregated yet, `AggHistoryWitness` gives a run where it is not.
- With OPT_MEM on, a Solidity verifier cannot be generated right after a batch (`ReadyAfterBatchIff`).
- Raising DEGREE can turn success into failure when it lets the loop reach a block whose row usage is undefined
  (`DegreeMonotone`, with two such blocks in `DegreeFailureWitness`). With MAX_INNER_BLOCKS at its present value 1
  (`zkevm/src/circuit.rs:41`) this cannot happen (`SingleBlockDegreeMonotone`).
- A parameter call on the seed file's own path overwrites the seed (`SeedUnderParamsCall`, `SeedOverwrittenWitness`).
- Parameters found in a directory of the file's name satisfy `load_or_create_params` but not the verifier's loader
  (`ParamsAreStable`, `ReopeningIsStable`, `ParamsDirectoryWitness`).
- A debug build refuses two parameter sets with different g2 elements, a release build takes them
  (`zkevm/src/prover.rs:161-171`; `OpenProver` has the build as an argument).
- `serialize_commitments` does not record how points were grouped (`CommitmentsDetermineFlattenedPoints`).
- A configured aggregation key is used whatever key bytes a proof carries; a mismatch is only logged
  (`ConfiguredKeyDecides`).
- The comment in `zkevm/src/utils.rs:71-76` gives 32 bytes for a g1 point and 64 for a g2 point. The code below it uses
  these sizes for the processed format only and twice as much for the raw formats, which include the default one. The
  model follows the code.

## Model

| member | source | states |
|---|---|---|
| Capacity.CheckBatchCapacity | zkevm/src/circuit/builder.rs:59-126 | the in-place loop returns and leaves behind what the prefix-sum specification says, on every path: too many blocks, truncation off, usage error, panic, cut, capacity failure |
| Capacity.AddInPlace | zkevm/src/circuit/builder.rs:93-95 | the zip adds each usage entry to its accumulator entry as far as both reach and keeps the rest |
| Capacity.MaxOf | zkevm/src/circuit/builder.rs:97 | the largest accumulated row count, a panic when there is none |
| Capacity.GreedyMaximalPrefix | zkevm/src/circuit/builder.rs:86-116 | on success the batch is its longest prefix whose column sums all stay below 2^DEGREE - 256; in every longer prefix some column reaches that limit |
| Capacity.CheckSucceedsIff | zkevm/src/circuit/builder.rs:59-126 | success, for all limits: not too many blocks and, with truncation on, no unmeasurable block after a fitting prefix and no overflow up to the first block with transactions |
| Capacity.CheckOutcome | zkevm/src/circuit/builder.rs:76-125 | too many blocks is that error and truncation off is success, both leaving the batch alone; other failures are the first unmeasurable block's, or capacity, which leaves the longest fitting prefix |
| Capacity.MeasureFaultIff | zkevm/src/circuit/builder.rs:88-114 | a block with undefined row usage stops the check iff everything before it fits; faults beyond the cut are never seen |
| Capacity.CapacityFailureIff | zkevm/src/circuit/builder.rs:116-125 | the capacity error occurs iff the prefix ending at the first block with transactions overflows |
| Capacity.TransactionsConserved | zkevm/src/circuit/builder.rs:61-64 | kept plus dropped transactions are the original ones, and some are kept iff there were any |
| Capacity.CheckIdempotent | zkevm/src/circuit/builder.rs:59-126 | checking a successful output again succeeds and changes nothing |
| Capacity.DegreeMonotone | zkevm/src/circuit/builder.rs:109-116 | raising DEGREE extends the kept prefix; it fails iff a block without row usage has only blocks before it that fit at the higher degree |
| Capacity.SingleBlockBatch | zkevm/src/circuit.rs:41 | with one block a batch, success drops it only if it overflows and has no transactions |
| Capacity.SingleBlockDegreeMonotone | zkevm/src/circuit.rs:41 | with at most one block a batch, success at a degree is success at every higher one, keeping at least as much |
| Capacity.DegreeFailureWitness | zkevm/src/circuit/builder.rs:88-116 | two blocks without transactions that pass at degree 20 by being dropped and fail at degree 21 |
| Capacity.RowSumsFitUsize | zkevm/src/circuit/builder.rs:93-95 | row counts below 2^63 never make an accumulated sum overflow 64 bits |
| Bytecode.DecodeIffSpelled | zkevm/src/circuit/builder.rs:273-286 | decoding yields a byte string iff the repaired text spells it, two digits a byte in either letter case |
| Bytecode.DecodeSucceedsIffHex | zkevm/src/circuit/builder.rs:273-286 | success iff every character after the one optional prefix is a hex digit; else the error names the first offender |
| Bytecode.DecodedLengthAndValue | zkevm/src/circuit/builder.rs:280-285 | half as many bytes as digits, rounded up, denoting the same number |
| Bytecode.SpellingDecodes | zkevm/src/circuit/builder.rs:273-286 | every spelling decodes to its bytes, with or without the prefix and with or without a leading zero digit |
| Bytecode.DecodeInvertsEncode | zkevm/src/circuit/builder.rs:273-286 | printing a byte string in hex and decoding it is the identity in each accepted form |
| CodeDatabase.TraceCode | zkevm/src/circuit/builder.rs:398-415 | inserts the code after finding the account on the stack, panics on a bad stack or a failed sanity check |
| CodeDatabase.TraceStep | zkevm/src/circuit/builder.rs:432-464 | one step inserts the code it selects, or panics |
| CodeDatabase.TraceBlock | zkevm/src/circuit/builder.rs:419-466 | one block inserts the empty code, its byte codes and its steps' codes in traversal order, or fails as the first failure does |
| CodeDatabase.BuildCodeDb | zkevm/src/circuit/builder.rs:416-470 | the nested reverse loops build the store of the specified insertion order, or fail as it does |
| CodeDatabase.StepCodesExact | zkevm/src/circuit/builder.rs:398-463 | a step is sound iff it has a code, the word on its stack with none (EXTCODE) or one (calls) above it names an account, and a code-less account has a code that hashes like none; which code it selects; else a panic |
| CodeDatabase.BatchCodesExact | zkevm/src/circuit/builder.rs:416-470 | the traversal succeeds iff no block is unsound, and then visits exactly the required codes |
| CodeDatabase.CodeDbExact | zkevm/src/circuit/builder.rs:416-470 | the keys are the hashes of the required codes, each key holds a required code of that hash, and without collisions every required code is found |
| CodeDatabase.TraversalOrderIrrelevant | zkevm/src/circuit/builder.rs:419-432 | reordering or repeating blocks changes neither success nor, without collisions, the store |
| CodeDatabase.CodeDbOfConcatenation | zkevm/src/circuit/builder.rs:416-470 | the store of two batches in a row is the union of their stores, the earlier batch winning on shared hashes |
| CodeDatabase.ResultWinners | zkevm/src/circuit/builder.rs:424-463 | when hashes collide inside an execution result, an earlier step wins over a later one and any step over the byte code |
| CodeDatabase.BlockWinners | zkevm/src/circuit/builder.rs:419-424 | among the results of a block the later one wins, and every one over the empty code |
| CodeDatabase.CodelessAccountsLoadNothing | zkevm/src/circuit/builder.rs:403-414 | after success, what a step loads from the account it looks at on its stack is the empty code if that account is registered without code |
| WitnessBlock.ChainIdRefinesFlatSearch | zkevm/src/circuit/builder.rs:166-181 | the chain id is that of the first transaction of the whole batch that is no deposit; the default iff all are deposits |
| WitnessBlock.CircuitInputBuilder.HandleBlocks | zkevm/src/circuit/builder.rs:206-235 | the loop leaves the state and headers of the recursive build, or fails where it does |
| WitnessBlock.HeadersAreLastHeads | zkevm/src/circuit/builder.rs:228-234 | started without headers, the builder ends with exactly the header of the last block of each number |
| WitnessBlock.LastHeadExact | zkevm/src/circuit/builder.rs:228-234 | that header is the block's own with the separate coinbase taking precedence, and no later block has the number |
| WitnessBlock.BuildExact | zkevm/src/circuit/builder.rs:206-235 | the loop succeeds with a state iff a chain of states leads there, each from handling one block with the last heads so far, the sender's nonce in that state for every deposit, every other transaction's own nonce, and the last-block flag |
| WitnessBlock.BuildFailure | zkevm/src/circuit/builder.rs:206-235 | a failed loop fails as its first failing block: without header, with a number beyond 64 bits (a panic), or in being handled |
| FieldCodec.FrMatrixRoundTrip | zkevm/src/io.rs:29-35 | deserialising a serialised matrix gives it back with its shape |
| FieldCodec.FrTensorRoundTrip | zkevm/src/io.rs:15-45 | deserialising a serialised tensor gives it back with all shapes |
| FieldCodec.FrTensorBytesRoundTrip | zkevm/src/io.rs:15-45 | deserialising succeeds iff every leaf is 32 bytes below the modulus, and serialising again gives the same bytes |
| FieldCodec.LoadersAgree | zkevm/src/io.rs:200-214 | load_instances and load_instance agree on every input, failures included |
| FieldCodec.LoadNeverErrs | zkevm/src/io.rs:200-214 | loading instances succeeds or panics; it never returns an error |
| FieldCodec.InstanceFileRoundTrip | zkevm/src/io.rs:200-214 | loading a saved instance tensor gives it back |
| FieldCodec.Cursor.ReadExact | zkevm/src/io.rs:218-221 | fills the buffer and advances iff enough bytes remain |
| FieldCodec.LoadInstancesFlat | zkevm/src/io.rs:216-226 | the cursor loop terminates and returns the scalars of the chunk specification, or panics |
| FieldCodec.FlatScalarsExact | zkevm/src/io.rs:216-226 | success iff every full chunk is canonical; then floor(n/32) scalars, each the value of its chunk, the tail ignored |
| FieldCodec.FlatScalarsInvert | zkevm/src/io.rs:216-226 | the reader inverts concatenated scalars for every length, with any tail shorter than 32 bytes |
| FieldCodec.ToBytesBeExact | zkevm/src/io.rs:144-149 | dropping high zeros, padding to 32 and reversing gives the one 32-byte big-endian form of the number |
| FieldCodec.WriteCommitments | zkevm/src/io.rs:151-158 | the inner loop appends 64 bytes per commitment |
| FieldCodec.SerializeCommitments | zkevm/src/io.rs:141-162 | the output is the fixed-width bytes of the flattened points |
| FieldCodec.CommitmentsReadBack | zkevm/src/io.rs:141-162 | reading the output as big-endian coordinates gives every point back in order |
| FieldCodec.CommitmentsDetermineFlattenedPoints | zkevm/src/io.rs:141-162 | two inputs share their output iff they flatten to the same points |
| FieldCodec.SerializeVerifyCircuitFinalPair | zkevm/src/io.rs:164-175 | four coordinates and then every scalar, 32 bytes each |
| FieldCodec.FinalPairRoundTrip | zkevm/src/io.rs:164-175 | length 128 + 32k, coordinates at their offsets, and the suffix read by the chunked reader gives the scalars |
| FieldCodec.FinalPairInjective | zkevm/src/io.rs:164-175 | distinct pairs give distinct bytes |
| FileStore.CreateDirAllExact | zkevm/src/utils.rs:28-31 | creating directories changes no existing node and adds only directories on the way |
| FileStore.CreateDirAllSucceedsIff | zkevm/src/utils.rs:28-31 | directories can be made iff no file is in the way before the first directory that is already there |
| ParamsStore.ExpectedLengthClosedForm | zkevm/src/utils.rs:77-85 | the expected length is 2^(d+7)+260 raw and 2^(d+6)+132 processed |
| ParamsStore.LengthStrictlyIncreasing | zkevm/src/utils.rs:77-85 | for one format the length orders degrees strictly |
| ParamsStore.LengthDeterminesFormatAndDegree | zkevm/src/utils.rs:77-88 | equal lengths mean equal format width and degree, except raw degree 0 against processed degree 2 |
| ParamsStore.LengthFitsU64 | zkevm/src/utils.rs:77-86 | the length fits 64 bits iff the degree is at most 56 raw, 57 processed |
| ParamsStore.ParamsPathInjective | zkevm/src/utils.rs:34 | different directories or degrees never share a parameter file |
| ParamsStore.CreateParamsFile | zkevm/src/utils.rs:95-118 | the setup from the secret is written and returned; seed panics and file errors come before any change |
| ParamsStore.LoadOrCreateParamsFile | zkevm/src/utils.rs:19-45 | the disk and result of load-or-create on every path |
| ParamsStore.LoadOrCreateSeedFile | zkevm/src/utils.rs:120-148 | the disk and result of load-or-create for seeds |
| ParamsStore.SecretExact | zkevm/src/utils.rs:100-109 | OS randomness is the secret exactly for an empty PARAM_SEED, a short one panics, else the one residue congruent to the little-endian number in its first 32 bytes |
| ParamsStore.SeedDecidesParams | zkevm/src/utils.rs:100-109 | with a PARAM_SEED the result and the disk do not depend on OS randomness, nor on bytes after the 32nd |
| ParamsStore.SeedDecidesRuns | zkevm/src/utils.rs:19-45 | two hosts with the same seeds go through the same disks in every run |
| ParamsStore.LoadParamsIff | zkevm/src/utils.rs:56-93 | what loads: a file of length 2^(degree+7)+260 that the library reads, at the path or, if that is a directory, under the degree's name in it |
| ParamsStore.ParamsCallExact | zkevm/src/utils.rs:19-45 | result and disk of every call by what is at the directory's and the file's place; a call that creates returns and writes the setup for the degree and the secret |
| ParamsStore.ParamsCallFrame | zkevm/src/utils.rs:19-45 | only the file of that directory and degree can change, and only if it did not load |
| ParamsStore.SuccessHoldsParams | zkevm/src/utils.rs:36-44 | a successful call leaves behind what loads as its result, whatever was there before |
| ParamsStore.ParamsAreStable | zkevm/src/utils.rs:19-45 | once given, the parameters of a directory and degree stay the same over every run of other calls |
| ParamsStore.SeedIsStable | zkevm/src/utils.rs:120-148 | once given, a seed stays the same unless a parameter call names its path |
| ParamsStore.SeedUnderParamsCall | zkevm/src/utils.rs:36-44 | exactly when a parameter call on the seed's path replaces it, and by what |
| ParamsStore.SeedOverwrittenWitness | zkevm/src/utils.rs:36-44 | a disk with one directory on which a created seed is replaced by the next parameter call |
| ParamsStore.ParamsDirectoryWitness | zkevm/src/utils.rs:19-45 | a disk with a directory named like the parameter file, which serves the prover and not the verifier |
| ParamsStore.OpenProverFiles | zkevm/src/prover.rs:157-182 | the files a prover opens, errors turned into panics, and the debug-build check that both parameter sets share their g2 elements |
| ParamsStore.OpenedExact | zkevm/src/prover.rs:157-182 | opening succeeds iff both parameter sets can be had and the seed file has 16 bytes; the prover holds the parameters of both degrees in this order and the first 16 bytes of the seed file; a debug build refuses exactly different g2 elements |
| ParamsStore.SeedDecidesOpening | zkevm/src/prover.rs:176-182 | with a PARAM_SEED two hosts open the same prover and leave the same disk |
| ParamsStore.ReopeningIsStable | zkevm/src/prover.rs:157-182 | a prover reopened after any run, in either build, has the same parameters and seed; the verifier gets the same parameters iff they are plain files |
| Verification.ReadInstancesExact | zkevm/src/verifier.rs:115-116 | instances are read iff they are a matrix of canonical scalars, whose values they then are; other text is an error, another scalar a panic |
| Verification.VerdictIgnoresCache | zkevm/src/verifier.rs:111-139 | with a sound cache the verdict is the one with a freshly generated key, and the cache stays sound |
| Verification.Verifier.New | zkevm/src/verifier.rs:29-52 | the configured raw key is parsed once and kept beside its parsed form; a panic exactly if it is unreadable |
| Verification.Verifier.VerifyTargetCircuitProof | zkevm/src/verifier.rs:111-139 | the verdict depends on the proof alone, and the cache gains the circuit's key |
| Verification.Verifier.VerifyAggCircuitProof | zkevm/src/verifier.rs:70-109 | success needs readable key bytes in the proof and the outside verifier's acceptance under the configured key, if any, else under the proof's own; unreadable instances or key bytes too short for an enabled mismatch log panic |
| Verification.ConfiguredKeyDecides | zkevm/src/verifier.rs:87-106 | with a configured key, key bytes that can be logged and read get the verdict of the configured bytes, whatever they are; all others fail, and how is given by cases |
| Proving.Prover.InitPk | zkevm/src/prover.rs:140-146 | the key of the empty circuit is cached under the circuit's name |
| Proving.Prover.PrepareBatch | zkevm/src/prover.rs:447-481 | capacity check, witness, circuit and mock run, with the log arguments that can panic |
| Proving.Prover.CreateTargetCircuitProofBatch | zkevm/src/prover.rs:443-533 | state and result of creating a proof on every path, the cache staying sound |
| Proving.Prover.WriteDebugFiles | zkevm/src/prover.rs:519-531 | key file then proof file, a file that cannot be created panics |
| Proving.Prover.ConvertTargetProof | zkevm/src/prover.rs:207-243 | state and result of a conversion, eviction included |
| Proving.Prover.ProveCircuit | zkevm/src/prover.rs:199-205 | creation followed by conversion |
| Proving.Prover.DebugLoadProvedCircuit | zkevm/src/prover.rs:184-197 | the saved proof, checked by the verifier if one is given, then converted |
| Proving.Prover.CreateAggCircuitProofImpl | zkevm/src/prover.rs:289-390 | state and result of an aggregation; the key is generated only when there is none |
| Proving.Prover.CreateAggCircuitProofBatch | zkevm/src/prover.rs:279-287 | proving the super circuit followed by aggregation |
| Proving.Prover.CreateSolidityVerifier | zkevm/src/prover.rs:245-270 | succeeds iff both keys are there and the instances load, panics otherwise, and hands over the super circuit's own verifying key |
| Runs.RunKeepsSoundPks | zkevm/src/prover.rs:101-111 | after every run, on any disk, the prover's cache holds only generated keys under their circuits' names |
| Runs.RunKeepsSoundVks | zkevm/src/verifier.rs:111-139 | the same for the verifier's cache |
| Runs.SaveDebugEffect | zkevm/src/prover.rs:519-531 | saving changes the saved proof of that circuit in that directory and no other; a failure changes none |
| Runs.DebugFilesWritten | zkevm/src/prover.rs:519-531 | success leaves exactly the key bytes and the proof, everything else unchanged |
| Runs.DebugFilesFailure | zkevm/src/prover.rs:519-531 | a file that cannot be created is a panic; the key file stays if it could be created before |
| Runs.CreateProofExact | zkevm/src/prover.rs:443-533 | with a sound cache the result is a function of parameters, rng, circuit and traces, and the cache gains the circuit's own key |
| Runs.ConvertExact | zkevm/src/prover.rs:207-243 | converting a proof of a harmless name, its circuit's own among them, gives the freshly generated key, cached or not |
| Runs.ConversionKeyCacheIndependentIff | zkevm/src/prover.rs:214-228 | the key used is the same over all sound caches iff the name is harmless: no other circuit of that name has a differing key |
| Runs.ProveExact | zkevm/src/prover.rs:199-205 | a successful prove_circuit is the cache-free proof converted with the cache-free key |
| Transparency.StepAgrees | zkevm/src/prover.rs:184-390 | one operation on two agreeing systems, with different caches or OPT_MEM, gives equal replies and keeps them in agreement |
| Transparency.RunsAgree | zkevm/src/prover.rs:207-243 | two systems with any sound caches, OPT_MEM on or off in either, reply alike at every step of every run on a disk of harmless names |
| Transparency.RunRefinesColdRun | zkevm/src/prover.rs:474-481 | every reply of every run is that of the machine that forgets every target-circuit key, but not the aggregation key, before each operation |
| Transparency.CachesInvisibleIff | zkevm/src/prover.rs:214-233 | no run tells two sound starting caches apart iff every readable saved proof has a harmless name |
| Transparency.EvictionShows | zkevm/src/prover.rs:214-233 | for any two circuits with differing keys, the named one evictable, a run that shows eviction through a proof of the first saved under the name of the second |
| Transparency.EvictionInvisibleIff | zkevm/src/prover.rs:229-233 | from empty caches no run tells OPT_MEM on from off iff no readable saved proof names another circuit that can be cached and evicted and has a differing key |
| Theorems.HistoryIndependence | zkevm/src/prover.rs:443-533 | in any run from a sound cache, on any disk, a target proof is the function of parameters, rng, circuit and traces, or the panic of an unwritable debug directory |
| Theorems.ProvingIgnoresHistory | zkevm/src/prover.rs:199-205 | in any run from a sound cache, on any disk, a proved circuit is the proof of its traces converted with the circuit's own key, failures included, or that panic |
| Theorems.BatchIgnoresCaches | zkevm/src/prover.rs:279-287 | in any run a batch gives that circuit aggregated with the key of the run's first source, or fails as proving does |
| Theorems.VerdictsIgnoreHistory | zkevm/src/verifier.rs:111-139 | in any run every verdict on a target proof is the one with a freshly generated key |
| Theorems.ProvedCircuitsCarryCircuitKey | zkevm/src/prover.rs:184-205 | every circuit proved in a run carries its own key; a reloaded one does if its saved name is harmless, and else its own or the named circuit's |
| Theorems.VerdictsUseProverKeys | zkevm/src/verifier.rs:125-137 | over any interleaving the verifier uses the very key found in the proved circuits of that circuit, proved in the run or reloaded under a harmless name |
| Theorems.VerdictOnOwnProof | zkevm/src/verifier.rs:111-139 | on a created proof the verifier sees the instances the circuit was built with and the key it was proved with |
| Acceptance.PreparedIff | zkevm/src/prover.rs:447-481 | when everything before the key succeeds, exactly: capacity, witness, degree, progress log, mock run; the circuit and instances are then the library's for the covered blocks |
| Acceptance.ProofStatement | zkevm/src/prover.rs:447-518 | the proof bytes are made with the circuit's key for the circuit and public inputs of the covered blocks, and the proof carries those inputs |
| Acceptance.OwnProofAccepted | zkevm/src/verifier.rs:111-139 | the verifier accepts what the prover makes if the statement holds, which a mock run makes sure of |
| Acceptance.CreatedProofsAccepted | zkevm/src/verifier.rs:111-139 | in any run with mock proving on, every verification of a proof created in it succeeds |
| Acceptance.ProvedCircuitAccepted | zkevm/src/prover.rs:207-243 | a proved circuit's transcript is accepted under the key and for the instances beside it |
| Acceptance.ReloadExact | zkevm/src/prover.rs:184-197 | a reload by what is in the debug directory: no directory set, no file, unreadable, refused by the verifier, or converted; and what changes |
| Acceptance.ReloadNeverPanics | zkevm/src/prover.rs:184-197 | with mock proving on, reloading what was proved and not overwritten gives it back, verifier or not |
| Theorems.ProofCoversLongestPrefix | zkevm/src/prover.rs:447-518 | a created proof covers the longest prefix of its traces that fits by the rows of each block's own witness, and reports both block counts |
| Theorems.ProvedCircuitContents | zkevm/src/prover.rs:235-242 | a proved circuit holds the proof bytes, the built instances, the circuit's key and both counts |
| AggregationKey.AggKeyStable | zkevm/src/prover.rs:330-341 | the aggregation key is set at most once and every aggregate proof of a run carries its bytes |
| AggregationKey.AggProofsShareKey | zkevm/src/prover.rs:381 | any two aggregate proofs of one prover carry the same key bytes |
| AggregationKey.AggKeyIsFirstSource | zkevm/src/prover.rs:330-341 | after every run from a prover without an aggregation key, the key is the one generated from the first circuit that got one, failed aggregations included |
| AggregationKey.AggRepliesExact | zkevm/src/prover.rs:289-390 | every aggregation reply of a run, failed or not, is its circuit assembled with the key of that first circuit |
| AggregationKey.AggHistory | zkevm/src/prover.rs:330-341 | a reply equals that of a prover that has not aggregated yet if no earlier circuit got a key or it got the same one; its key bytes do exactly when the two verifying keys are equal, if those two read back |
| AggregationKey.AggHistoryIff | zkevm/src/prover.rs:330-341 | for a successful reply the condition is exact, if the two keys compared are equal whenever their written bytes are |
| AggregationKey.AggHistoryWitness | zkevm/src/prover.rs:330-341 | aggregating two circuits whose keys print differently gives a second reply that a prover that has not aggregated yet does not give |
| AggregationKey.AggregatePayload | zkevm/src/prover.rs:379-389 | instances and scalars of an aggregate proof read back as those of the final pair of the first circuit |
| AggregationKey.AggregateReachesVerifier | zkevm/src/verifier.rs:70-109 | a verifier with the prover's key bytes, or with none, judges with the prover's key and instances, if that key reads back |
| Acceptance.AggregateAccepted | zkevm/src/verifier.rs:70-109 | an aggregate proof made with the key of a circuit of the same shape is accepted by a verifier configured with that key and by one without |
| Acceptance.AggregatesAccepted | zkevm/src/prover.rs:289-390 | over any run with mock proving on, every aggregate proof of a circuit shaped like the run's first source is accepted |
| Theorems.BatchLeavesKeys | zkevm/src/prover.rs:229-233 | after a successful batch the super key is cached iff OPT_MEM is off, and the aggregation key is set |
| Theorems.ReadyAfterBatchIff | zkevm/src/prover.rs:254-265 | right after a batch the Solidity verifier can be generated iff OPT_MEM is off |
| Theorems.ReadyForEver | zkevm/src/prover.rs:245-270 | with OPT_MEM off it can be generated from that proof in every later state, on any disk, with matching keys |
| Theorems.FileHoldsLastProof | zkevm/src/prover.rs:519-531 | after every run the saved proof of a circuit is the last one created for it in that directory |
| Theorems.ReloadGivesProvedCircuit | zkevm/src/prover.rs:184-197 | reloading gives the proved circuit that prove_circuit returned, cached key or not and whatever else is on the disk; with a verifier it panics iff the verdict is negative |

## Left out

- The cryptography of halo2, KZG and the transcripts, the zktrie and `handle_block_inner`: fields of records, constrained only by the laws above.
- The construction of the witness block as a whole: `Library.witnessBlock` is one function; the code store, the chain id and the headers are modelled beside it and not plugged into it.
- RPC server, command line tools and FFI: input and output plumbing.
- Solidity text generation: only the conditions and keys it starts from.
- JSON and base64 syntax: an encoder and a decoder that round-trip.
- File system faults: operations fail only for structural reasons (missing parent, a directory in the way, too few bytes); permissions, full disks and two spellings of one path are not modelled. Opening a directory for reading fails here at once, in the source at the read or the length check that follows.
- Direct writes to the prover's public fields other than `debug_dir`: the caches change only through its methods.
- Capacity.CheckBatchCapacity: counts rows without 64-bit wrap-around, which `RowSumsFitUsize` rules out for row counts below 2^63; DEGREE is taken between 8 and 63, where `2^DEGREE - 256` is defined.
- ParamsStore.ExpectedLengthClosedForm: lengths are unbounded numbers; `LengthFitsU64` says for which degrees that is the source's arithmetic.
- The value of DEPOSIT_TX_TYPE: it is defined in an outside crate and a parameter here.
- The deposit fields `mint` and `sourceHash` and the conversion of a trace into an Ethereum block: no modelled code reads them.
- `write_to_dir`, `load_kzg_params`, `read_env_var` and the thin file helpers of `io.rs`: one call each.
- Mock proving of target circuits outside a prover, logging text, timers and memory reports.
