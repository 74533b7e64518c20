/** What holds over every run of a prover and its verifier. */
module Theorems {
  import opened Common
  import opened Traces
  import opened FieldCodec
  import opened Capacity
  import opened Backend
  import opened Verification
  import opened Proving
  import opened Runs
  import opened AggregationKey

  // ---------------------------------------------------------------- history independence

  /** Whatever happened before and whatever is on the disk, a target proof depends only on parameters, rng, circuit
      and traces; the one other outcome is the panic of a debug directory that cannot be written. */
  lemma HistoryIndependence(w: World, sys: Sys, ops: seq<Op>, i: nat)
    requires SoundPks(w, sys.prover.pks)
    requires i < |ops| && ops[i].CreateProofOp?
    ensures var spec := ProofOf(w, ops[i].c, ops[i].traces);
            Run(w, sys, ops).replies[i]
            == ProofReply(if spec.Ok? && !DebugWritable(Run(w, sys, ops[..i]).sys.prover, ops[i].c) then Panic
                          else spec)
  {
    ReplyAt(w, sys, ops, i);
    RunKeepsSoundPks(w, sys, ops[..i]);
    CreateProofExact(w, Run(w, sys, ops[..i]).sys.prover, ops[i].c, ops[i].traces);
  }

  /** Likewise for a proved circuit, failures included: the proof of the traces converted with the circuit's own key. */
  lemma ProvingIgnoresHistory(w: World, sys: Sys, ops: seq<Op>, i: nat)
    requires KeygenLaw(w.lib) && SoundPks(w, sys.prover.pks)
    requires i < |ops| && ops[i].ProveOp?
    ensures Run(w, sys, ops).replies[i]
            == CircuitReply(ProvedAfresh(w, Run(w, sys, ops[..i]).sys.prover, ops[i].c, ops[i].traces))
  {
    ReplyAt(w, sys, ops, i);
    RunKeepsSoundPks(w, sys, ops[..i]);
    ProveResult(w, Run(w, sys, ops[..i]).sys.prover, ops[i].c, ops[i].traces);
  }

  /** And for a batch: that circuit is aggregated with the key of the run's first source. */
  lemma BatchIgnoresCaches(w: World, sys: Sys, ops: seq<Op>, i: nat)
    requires KeygenLaw(w.lib) && SoundPks(w, sys.prover.pks) && sys.prover.aggPk.None?
    requires i < |ops| && ops[i].AggregateBatchOp?
    ensures var proved := ProvedAfresh(w, Run(w, sys, ops[..i]).sys.prover, SuperCircuit, ops[i].traces);
            Run(w, sys, ops).replies[i]
            == AggReply(if proved.Ok? then AggregateWith(w, KeyAt(w, sys, ops, i, proved.value), proved.value)
                        else proved.PropagateFailure())
  {
    ReplyAt(w, sys, ops, i);
    RunKeepsSoundPks(w, sys, ops[..i]);
    BatchResult(w, Run(w, sys, ops[..i]).sys.prover, ops[i].traces);
    KeyAtExact(w, sys, ops, i);
  }

  /** Whatever happened before, a verdict depends only on parameters, circuit and proof. */
  lemma VerdictsIgnoreHistory(w: World, sys: Sys, ops: seq<Op>, j: nat)
    requires SoundVks(w, sys.vks)
    requires j < |ops| && ops[j].VerifyOp?
    ensures Run(w, sys, ops).replies[j] == VerdictReply(Verdict(w, ops[j].c, ops[j].proof))
  {
    ReplyAt(w, sys, ops, j);
    RunKeepsSoundVks(w, sys, ops[..j]);
    VerdictIgnoresCache(w, Run(w, sys, ops[..j]).sys.vks, ops[j].c, ops[j].proof);
  }

  // ---------------------------------------------------------------- prover and verifier keys

  /** The key in any converted proof: the circuit's own when the name is harmless, else possibly the named one's. */
  lemma ConvertedKey(w: World, s: ProverState, c: TargetCircuit, proof: TargetCircuitProof)
    requires KeygenLaw(w.lib) && SoundPks(w, s.pks) && Convert(w, s, c, proof).result.Ok?
    ensures Convert(w, s, c, proof).result.value.name == proof.name
    ensures var vk := Convert(w, s, c, proof).result.value.vk;
            && (NameIsHarmless(w, ALL_CIRCUITS, c, proof.name) ==> CircuitVk(w, c) == Ok(vk))
            && (CircuitVk(w, c) == Ok(vk)
                || exists d: TargetCircuit :: d.Name() == proof.name && CircuitVk(w, d) == Ok(vk))
  {
    if NameIsHarmless(w, ALL_CIRCUITS, c, proof.name) {
      ConvertExact(w, s, c, proof);
    }
    if proof.name in s.pks {
      CachedNamesAreCircuits(w, s.pks, proof.name);
      var d :| d in ALL_CIRCUITS && d.Name() == proof.name && CircuitKey(w, d) == Ok(s.pks[proof.name]);
      KeysAgree(w, d);
    }
  }

  lemma ProvedKey(w: World, s: ProverState, c: TargetCircuit, traces: seq<BlockTrace>)
    requires KeygenLaw(w.lib) && SoundPks(w, s.pks) && Prove(w, s, c, traces).result.Ok?
    ensures var pc := Prove(w, s, c, traces).result.value;
            pc.name == c.Name() && NameIsHarmless(w, ALL_CIRCUITS, c, pc.name) && CircuitVk(w, c) == Ok(pc.vk)
  {
    ProveExact(w, s, c, traces);
    OwnNameIsHarmless(w, ALL_CIRCUITS, c);
  }

  lemma LoadedKey(w: World, sys: Sys, c: TargetCircuit, check: bool)
    requires KeygenLaw(w.lib) && SoundPks(w, sys.prover.pks)
    requires Apply(w, sys, LoadOp(c, check)).reply.circuit.Ok?
    ensures var pc := Apply(w, sys, LoadOp(c, check)).reply.circuit.value;
            && (NameIsHarmless(w, ALL_CIRCUITS, c, pc.name) ==> CircuitVk(w, c) == Ok(pc.vk))
            && (CircuitVk(w, c) == Ok(pc.vk)
                || exists d: TargetCircuit :: d.Name() == pc.name && CircuitVk(w, d) == Ok(pc.vk))
  {
    ConvertedKey(w, sys.prover, c, SavedProof(w, sys.prover.disk, sys.prover.debugDir, c).value);
  }

  /** Every proved circuit a run hands out, proved or reloaded, carries the key of its circuit, or of the circuit its
      saved proof names; with a harmless name, and so whenever it was proved in the run, its circuit's own key. */
  lemma ProvedCircuitsCarryCircuitKey(w: World, sys: Sys, ops: seq<Op>, i: nat)
    requires KeygenLaw(w.lib) && SoundPks(w, sys.prover.pks)
    requires i < |ops| && (ops[i].ProveOp? || ops[i].LoadOp?)
    requires Run(w, sys, ops).replies[i].CircuitReply? && Run(w, sys, ops).replies[i].circuit.Ok?
    ensures var c, pc := ops[i].c, Run(w, sys, ops).replies[i].circuit.value;
            && (ops[i].ProveOp? ==> pc.name == c.Name() && NameIsHarmless(w, ALL_CIRCUITS, c, pc.name))
            && (NameIsHarmless(w, ALL_CIRCUITS, c, pc.name) ==> CircuitVk(w, c) == Ok(pc.vk))
            && (CircuitVk(w, c) == Ok(pc.vk)
                || exists d: TargetCircuit :: d.Name() == pc.name && CircuitVk(w, d) == Ok(pc.vk))
  {
    ReplyAt(w, sys, ops, i);
    RunKeepsSoundPks(w, sys, ops[..i]);
    var before := Run(w, sys, ops[..i]).sys;
    match ops[i]
    case ProveOp(c, traces) => ProvedKey(w, before.prover, c, traces);
    case LoadOp(c, check) => LoadedKey(w, before, c, check);
  }

  /** Over any interleaving, the verifier judges a proof for a circuit with the very key found in the proved
      circuits of that circuit. */
  lemma VerdictsUseProverKeys(w: World, sys: Sys, ops: seq<Op>, i: nat, j: nat)
    requires KeygenLaw(w.lib) && SoundPks(w, sys.prover.pks) && SoundVks(w, sys.vks)
    requires i < |ops| && (ops[i].ProveOp? || ops[i].LoadOp?)
    requires Run(w, sys, ops).replies[i].CircuitReply? && Run(w, sys, ops).replies[i].circuit.Ok?
    requires ops[i].LoadOp? ==>
               NameIsHarmless(w, ALL_CIRCUITS, ops[i].c, Run(w, sys, ops).replies[i].circuit.value.name)
    requires j < |ops| && ops[j].VerifyOp? && ops[j].c == ops[i].c
    ensures var vk := Run(w, sys, ops).replies[i].circuit.value.vk;
            Run(w, sys, ops).replies[j]
            == VerdictReply(match ReadInstances(w, ops[j].proof)
                            case Ok(instances) => w.lib.verifyProof(w.params, vk, instances, ops[j].proof.proof)
                            case failed => failed.PropagateFailure())
  {
    ProvedCircuitsCarryCircuitKey(w, sys, ops, i);
    VerdictsIgnoreHistory(w, sys, ops, j);
  }

  lemma OwnInstancesRead(w: World, c: TargetCircuit, traces: seq<BlockTrace>)
    requires RoundTrips(w.lib.matrixJson) && ProofOf(w, c, traces).Ok?
    ensures ReadInstances(w, ProofOf(w, c, traces).value) == Ok(Prepare(w, c, traces).value.instance)
  {
    FrMatrixRoundTrip(Prepare(w, c, traces).value.instance);
  }

  /** The verifier's view of a created proof: the instances the circuit was built with, and the key proved with. */
  lemma VerdictOnOwnProof(w: World, c: TargetCircuit, traces: seq<BlockTrace>)
    requires KeygenLaw(w.lib) && JsonLaws(w.lib)
    requires ProofOf(w, c, traces).Ok?
    ensures var proof, instance := ProofOf(w, c, traces).value, Prepare(w, c, traces).value.instance;
            var vk := w.lib.vkOf(CircuitKey(w, c).value);
            && proof.vk == w.lib.writeVk(vk)
            && ReadInstances(w, proof) == Ok(instance)
            && Verdict(w, c, proof) == w.lib.verifyProof(w.params, vk, instance, proof.proof)
  {
    OwnInstancesRead(w, c, traces);
    KeysAgree(w, c);
  }

  /** A created proof covers the longest prefix of its traces that fits the circuit, a block's rows being counted on its
      own witness: the proved witness is built from that
      prefix, none of its transactions are lost to an empty batch, and both block counts are reported. */
  lemma ProofCoversLongestPrefix(w: World, c: TargetCircuit, traces: seq<BlockTrace>)
    requires w.cfg.limits.autoTruncate && ProofOf(w, c, traces).Ok?
    ensures var kept := CheckBatch(w.cfg.limits, RowUsageOf(w.lib), traces).blocks;
            var proof := ProofOf(w, c, traces).value;
            && (forall block :: w.lib.witnessBlock([block]).Ok? ==>
                  RowUsageOf(w.lib)(block) == Ok(w.lib.rows(w.lib.witnessBlock([block]).value)))
            && kept <= traces
            && Fits(w.cfg.limits, RowUsageOf(w.lib), kept)
            && (forall n :: |kept| < n <= |traces| ==> !Fits(w.cfg.limits, RowUsageOf(w.lib), traces[..n]))
            && (TxCount(kept) == 0 <==> TxCount(traces) == 0)
            && w.lib.witnessBlock(kept).Ok?
            && proof.provedBlockCount == w.lib.contextCount(w.lib.witnessBlock(kept).value)
            && proof.originalBlockCount == |traces|
  {
    GreedyMaximalPrefix(w.cfg.limits, RowUsageOf(w.lib), traces);
    TransactionsConserved(w.cfg.limits, RowUsageOf(w.lib), traces);
  }

  /** A proved circuit holds the proof bytes as its transcript, the instances the circuit was built with,
      the circuit's own key, and the proof's two block counts. */
  lemma ProvedCircuitContents(w: World, s: ProverState, c: TargetCircuit, traces: seq<BlockTrace>)
    requires KeygenLaw(w.lib) && JsonLaws(w.lib) && SoundPks(w, s.pks)
    requires Prove(w, s, c, traces).result.Ok?
    ensures ProofOf(w, c, traces).Ok? && Prepare(w, c, traces).Ok? && CircuitKey(w, c).Ok?
    ensures var proof, pc := ProofOf(w, c, traces).value, Prove(w, s, c, traces).result.value;
            && pc.name == c.Name() && pc.transcript == proof.proof
            && pc.instance == [Prepare(w, c, traces).value.instance]
            && pc.vk == w.lib.vkOf(CircuitKey(w, c).value)
            && pc.provedBlockCount == proof.provedBlockCount && pc.originalBlockCount == |traces|
  {
    ProveExact(w, s, c, traces);
    OwnInstancesRead(w, c, traces);
    KeysAgree(w, c);
  }

  // ---------------------------------------------------------------- readiness for the Solidity verifier

  lemma StepKeepsPks(w: World, sys: Sys, op: Op)
    requires !w.cfg.optMem
    ensures sys.prover.pks.Keys <= Apply(w, sys, op).sys.prover.pks.Keys
  {
    match op
    case CreateProofOp(c, traces) => CreateProofFrame(w, sys.prover, c, traces);
    case ProveOp(c, traces) => ProveFrame(w, sys.prover, c, traces);
    case LoadOp(c, check) => LoadFrame(w, sys.prover, sys.vks, check, c);
    case AggregateBatchOp(traces) =>
      var proved := Prove(w, sys.prover, SuperCircuit, traces);
      ProveFrame(w, sys.prover, SuperCircuit, traces);
      if proved.result.Ok? {
        AggregateFrame(w, proved.state, [proved.result.value]);
      }
    case AggregateOp(results) => AggregateFrame(w, sys.prover, results);
    case VerifyOp(c, proof) =>
    case SetDebugDirOp(dir) =>
  }

  lemma {:induction false} RunKeepsPks(w: World, sys: Sys, ops: seq<Op>, i: nat)
    requires !w.cfg.optMem && i <= |ops|
    ensures Run(w, sys, ops[..i]).sys.prover.pks.Keys <= Run(w, sys, ops).sys.prover.pks.Keys
  {
    if i == |ops| {
      assert ops[..i] == ops;
    } else {
      var init := ops[..|ops| - 1];
      RunKeepsPks(w, sys, init, i);
      assert init[..i] == ops[..i];
      StepKeepsPks(w, Run(w, sys, init).sys, ops[|ops| - 1]);
    }
  }

  /** What a successful batch leaves behind, apart from eviction. */
  lemma BatchLeavesKeys(w: World, s: ProverState, traces: seq<BlockTrace>)
    requires RoundTrips(w.lib.tensorJson)
    requires AggregateBatch(w, s, traces).result.Ok?
    ensures var step := AggregateBatch(w, s, traces);
            && (SuperCircuit.Name() in step.state.pks <==> !w.cfg.optMem)
            && step.state.aggPk.Some?
            && LoadInstances(w.lib.tensorJson, step.result.value.instance).Ok?
  {
    var created := CreateProof(w, s, SuperCircuit, traces);
    var proved := Prove(w, s, SuperCircuit, traces);
    CreateProofFrame(w, s, SuperCircuit, traces);
    assert proved.state.pks == if w.cfg.optMem then created.state.pks - {SuperCircuit.Name()} else created.state.pks;
    AggregateFrame(w, proved.state, [proved.result.value]);
    AggregatePayload(w, proved.state, [proved.result.value]);
  }

  /** Right after a successful batch the prover is ready iff nothing was evicted. */
  lemma ReadyAfterBatchIff(w: World, s: ProverState, traces: seq<BlockTrace>)
    requires RoundTrips(w.lib.tensorJson)
    requires AggregateBatch(w, s, traces).result.Ok?
    ensures var step := AggregateBatch(w, s, traces);
            SolidityInputs(w, step.state, step.result.value).Ok? <==> !w.cfg.optMem
  {
    BatchLeavesKeys(w, s, traces);
  }

  /** With OPT_MEM off, after one successful batch the Solidity verifier can be generated from its proof in every
      later state, from the super circuit's key and the aggregation key whose bytes the proof carries. */
  lemma ReadyForEver(w: World, sys: Sys, ops: seq<Op>, i: nat)
    requires KeygenLaw(w.lib) && RoundTrips(w.lib.tensorJson) && SoundPks(w, sys.prover.pks) && !w.cfg.optMem
    requires i < |ops| && ops[i].AggregateBatchOp?
    requires Run(w, sys, ops).replies[i].AggReply? && Run(w, sys, ops).replies[i].agg.Ok?
    ensures var agg := Run(w, sys, ops).replies[i].agg.value;
            var inputs := SolidityInputs(w, Run(w, sys, ops).sys.prover, agg);
            && inputs.Ok?
            && CircuitVk(w, SuperCircuit) == Ok(inputs.value.0)
            && w.lib.writeVk(inputs.value.1) == agg.vk
  {
    ReplyAt(w, sys, ops, i);
    AggKeyStable(w, sys, ops);
    assert CarriesFinalKey(w, Run(w, sys, ops), i);
    RunKeepsSoundPks(w, sys, ops);
    BatchKeyRemains(w, sys, ops, i);
    SoundLookup(w, Run(w, sys, ops).sys.prover.pks, SuperCircuit);
    KeysAgree(w, SuperCircuit);
  }

  lemma BatchKeyRemains(w: World, sys: Sys, ops: seq<Op>, i: nat)
    requires RoundTrips(w.lib.tensorJson) && !w.cfg.optMem
    requires i < |ops| && ops[i].AggregateBatchOp?
    requires AggregateBatch(w, Run(w, sys, ops[..i]).sys.prover, ops[i].traces).result.Ok?
    ensures SuperCircuit.Name() in Run(w, sys, ops).sys.prover.pks
    ensures LoadInstances(w.lib.tensorJson,
                          AggregateBatch(w, Run(w, sys, ops[..i]).sys.prover, ops[i].traces).result.value.instance).Ok?
  {
    BatchLeavesKeys(w, Run(w, sys, ops[..i]).sys.prover, ops[i].traces);
    assert ops[..i + 1][..i] == ops[..i];
    RunKeepsPks(w, sys, ops, i + 1);
  }

  // ---------------------------------------------------------------- saved proofs

  /** What each operation of a run saved. */
  function SavesOf(w: World, sys: Sys, ops: seq<Op>): seq<Option<Saved>> {
    seq(|ops|, k requires 0 <= k < |ops| => SavedBy(w, Run(w, sys, ops[..k]).sys.prover, ops[k]))
  }

  lemma SavesOfInit(w: World, sys: Sys, ops: seq<Op>)
    requires ops != []
    ensures SavesOf(w, sys, ops)[..|ops| - 1] == SavesOf(w, sys, ops[..|ops| - 1])
  {
    var init := ops[..|ops| - 1];
    forall k | 0 <= k < |init| ensures init[..k] == ops[..k] && init[k] == ops[k] {
    }
  }

  /** The last proof saved for a circuit in a directory. */
  function LastSaved(saves: seq<Option<Saved>>, dir: string, c: TargetCircuit): Option<TargetCircuitProof> {
    if saves == [] then None
    else
      var last := saves[|saves| - 1];
      if IsFor(last, dir, c) then Some(last.value.proof) else LastSaved(saves[..|saves| - 1], dir, c)
  }

  lemma {:induction false} LastSavedAt(saves: seq<Option<Saved>>, dir: string, c: TargetCircuit, i: nat)
    requires i < |saves| && IsFor(saves[i], dir, c)
    requires forall k :: i < k < |saves| ==> !IsFor(saves[k], dir, c)
    ensures LastSaved(saves, dir, c) == Some(saves[i].value.proof)
  {
    if i < |saves| - 1 {
      LastSavedAt(saves[..|saves| - 1], dir, c, i);
    }
  }

  /** After every run the file of a circuit in a directory is the last proof created for it there. */
  lemma {:induction false} FileHoldsLastProof(w: World, sys: Sys, ops: seq<Op>, dir: string, c: TargetCircuit)
    requires RoundTrips(w.lib.proofJson)
    ensures SavedProof(w, Run(w, sys, ops).sys.prover.disk, dir, c)
            == match LastSaved(SavesOf(w, sys, ops), dir, c)
               case Some(proof) => Ok(proof)
               case None => SavedProof(w, sys.prover.disk, dir, c)
  {
    if ops != [] {
      var init := ops[..|ops| - 1];
      FileHoldsLastProof(w, sys, init, dir, c);
      StepEffectOnSaved(w, Run(w, sys, init).sys, ops[|ops| - 1], dir, c);
      SavesOfInit(w, sys, ops);
    }
  }

  /** A proof created at step `i` is still there unless a later one of its circuit was saved over it. */
  lemma ProvedStaysSaved(w: World, sys: Sys, ops: seq<Op>, i: nat)
    requires RoundTrips(w.lib.proofJson) && SoundPks(w, sys.prover.pks)
    requires i < |ops| && ops[i].ProveOp?
    requires CreateProof(w, Run(w, sys, ops[..i]).sys.prover, ops[i].c, ops[i].traces).result.Ok?
    requires var dir := Run(w, sys, ops[..i]).sys.prover.debugDir;
             dir != "" && forall k :: i < k < |ops| ==> !IsFor(SavesOf(w, sys, ops)[k], dir, ops[i].c)
    ensures SavedProof(w, Run(w, sys, ops).sys.prover.disk, Run(w, sys, ops[..i]).sys.prover.debugDir, ops[i].c)
            == CreateProof(w, Run(w, sys, ops[..i]).sys.prover, ops[i].c, ops[i].traces).result
  {
    var dir := Run(w, sys, ops[..i]).sys.prover.debugDir;
    LastSavedAt(SavesOf(w, sys, ops), dir, ops[i].c, i);
    FileHoldsLastProof(w, sys, ops, dir, ops[i].c);
  }

  lemma ReloadOwnProof(w: World, sys: Sys, c: TargetCircuit, check: bool, proof: TargetCircuitProof)
    requires KeygenLaw(w.lib) && SoundPks(w, sys.prover.pks) && (check ==> SoundVks(w, sys.vks))
    requires sys.prover.debugDir != "" && SavedProof(w, sys.prover.disk, sys.prover.debugDir, c) == Ok(proof)
    requires proof.name == c.Name()
    ensures Apply(w, sys, LoadOp(c, check)).reply
            == CircuitReply(if check && !Verdict(w, c, proof).Ok? then Panic else Converted(w, c, proof))
  {
    ConvertOwnName(w, sys.prover, c, proof);
    if check {
      VerdictIgnoresCache(w, sys.vks, c, proof);
    }
  }

  /** A circuit proved at step `i` of a run with a debug directory is reloaded as the same proved circuit, whatever
      happened since, as long as no later proof of that circuit was saved there. With a verifier the reload
      panics instead exactly when the verdict on the proof is not positive. */
  lemma ReloadGivesProvedCircuit(w: World, sys: Sys, ops: seq<Op>, i: nat, check: bool)
    requires KeygenLaw(w.lib) && RoundTrips(w.lib.proofJson) && SoundPks(w, sys.prover.pks)
    requires check ==> SoundVks(w, sys.vks)
    requires i < |ops| && ops[i].ProveOp?
    requires Run(w, sys, ops).replies[i].CircuitReply? && Run(w, sys, ops).replies[i].circuit.Ok?
    requires var dir := Run(w, sys, ops[..i]).sys.prover.debugDir;
             && dir != "" && Run(w, sys, ops).sys.prover.debugDir == dir
             && forall k :: i < k < |ops| ==> !IsFor(SavesOf(w, sys, ops)[k], dir, ops[i].c)
    ensures ProofOf(w, ops[i].c, ops[i].traces).Ok?
    ensures Apply(w, Run(w, sys, ops).sys, LoadOp(ops[i].c, check)).reply
            == if check && !Verdict(w, ops[i].c, ProofOf(w, ops[i].c, ops[i].traces).value).Ok? then CircuitReply(Panic)
               else Run(w, sys, ops).replies[i]
  {
    var before, after := Run(w, sys, ops[..i]).sys, Run(w, sys, ops).sys;
    var c, traces := ops[i].c, ops[i].traces;
    ReplyAt(w, sys, ops, i);
    RunKeepsSoundPks(w, sys, ops[..i]);
    RunKeepsSoundPks(w, sys, ops);
    ProveExact(w, before.prover, c, traces);
    ProvedStaysSaved(w, sys, ops, i);
    if check {
      RunKeepsSoundVks(w, sys, ops);
    }
    ReloadOwnProof(w, after, c, check, ProofOf(w, c, traces).value);
  }
}
