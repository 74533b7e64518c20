/** The prover, its key cache, its aggregation key and its debug files (zkevm/src/prover.rs). */
module Proving {
  import opened Common
  import opened Traces
  import opened FieldCodec
  import opened Capacity
  import opened FileStore
  import opened Backend
  import opened Verification

  // ---------------------------------------------------------------- stages that touch no state

  datatype Prepared = Prepared(circuit: Circuit, instance: Instance, provedBlockCount: nat, originalBlockCount: nat)

  /** The arguments of the progress log: the first and last block and their hashes. */
  predicate Loggable(blocks: seq<BlockTrace>) {
    blocks != [] && blocks[0].header.hash.Some? && blocks[|blocks| - 1].header.hash.Some?
  }

  /** Everything up to the proving key: capacity check, witness, circuit, optional mock run. */
  function Prepare(w: World, c: TargetCircuit, traces: seq<BlockTrace>): Outcome<Prepared> {
    var checked := CheckBatch(w.cfg.limits, RowUsageOf(w.lib), traces);
    var _ :- checked.result;
    var block :- w.lib.witnessBlock(checked.blocks);
    var built :- FromWitness(w, c, block);
    var _ :- Require(w.cfg.logInfo ==> Loggable(checked.blocks));
    var _ :- if w.cfg.mockProve then w.lib.mockCheck(built.0, built.1) else Ok(());
    Ok(Prepared(built.0, built.1, w.lib.contextCount(block), |traces|))
  }

  /** Everything after the proving key. */
  function Assemble(w: World, c: TargetCircuit, pk: Pk, prep: Prepared): Outcome<TargetCircuitProof> {
    var proof :- w.lib.createProof(w.params, pk, prep.circuit, prep.instance, w.rng);
    var _ :- Require(w.cfg.logDebug ==> |proof| >= 15);
    Ok(TargetCircuitProof(
      c.Name(), proof, w.lib.matrixJson.encode(SerializeFrMatrix(prep.instance)), w.lib.writeVk(w.lib.vkOf(pk)),
      prep.provedBlockCount, prep.originalBlockCount))
  }

  /** The proof of a batch as a function of parameters, rng, circuit and traces alone. */
  function ProofOf(w: World, c: TargetCircuit, traces: seq<BlockTrace>): Outcome<TargetCircuitProof> {
    ProofFrom(w, c, Prepare(w, c, traces), CircuitKey(w, c))
  }

  function ProofFrom(w: World, c: TargetCircuit, prepared: Outcome<Prepared>, key: Outcome<Pk>)
    : Outcome<TargetCircuitProof>
  {
    var prep :- prepared;
    var pk :- key;
    Assemble(w, c, pk, prep)
  }

  // ---------------------------------------------------------------- the prover's transitions

  datatype ProverState = ProverState(pks: map<string, Pk>, aggPk: Option<Pk>, debugDir: string, disk: Disk)

  datatype Step<+T> = Step(state: ProverState, result: Outcome<T>)

  function VkPath(dir: string, c: TargetCircuit): string {
    Join(dir, c.Name() + ".vk")
  }

  function ProofPath(dir: string, c: TargetCircuit): string {
    Join(dir, c.Name() + "_proof.json")
  }

  /** `init_pk` unless the key is cached. */
  function EnsurePk(w: World, s: ProverState, c: TargetCircuit): Step<Pk> {
    if c.Name() in s.pks then Step(s, Ok(s.pks[c.Name()]))
    else
      match CircuitKey(w, c)
      case Ok(pk) => Step(s.(pks := s.pks[c.Name() := pk]), Ok(pk))
      case failed => Step(s, failed)
  }

  /** The key file, then the proof file, when a debug directory is set; a file that cannot be created panics. */
  function SaveDebug(w: World, dir: string, disk: Disk, c: TargetCircuit, pk: Pk, proof: TargetCircuitProof)
    : Stored<TargetCircuitProof>
  {
    if dir == "" then Stored(disk, Ok(proof))
    else
      var written := CreateBoth(disk, VkPath(dir, c), w.lib.writeVk(w.lib.vkOf(pk)),
                                ProofPath(dir, c), w.lib.proofJson.encode(proof));
      Stored(written.disk, if written.result.Ok? then Ok(proof) else Panic)
  }

  /** `create_target_circuit_proof_batch` */
  function CreateProof(w: World, s: ProverState, c: TargetCircuit, traces: seq<BlockTrace>): Step<TargetCircuitProof> {
    match Prepare(w, c, traces)
    case Ok(prep) =>
      var keyed := EnsurePk(w, s, c);
      (match keyed.result
       case Ok(pk) => AssembleAndSave(w, keyed.state, c, pk, prep)
       case failed => Step(keyed.state, failed.PropagateFailure()))
    case failed => Step(s, failed.PropagateFailure())
  }

  function AssembleAndSave(w: World, s: ProverState, c: TargetCircuit, pk: Pk, prep: Prepared)
    : Step<TargetCircuitProof>
  {
    match Assemble(w, c, pk, prep)
    case Ok(proof) =>
      var saved := SaveDebug(w, s.debugDir, s.disk, c, pk, proof);
      Step(s.(disk := saved.disk), saved.result)
    case failed => Step(s, failed)
  }

  /** The key `convert_target_proof` uses: the one cached under the proof's name, or `C`'s own. */
  function VkForConversion(w: World, pks: map<string, Pk>, c: TargetCircuit, name: string): Outcome<Vk> {
    if name in pks then Ok(w.lib.vkOf(pks[name])) else CircuitVk(w, c)
  }

  function ProvedFrom(proof: TargetCircuitProof, vk: Vk, instance: Instance): ProvedCircuit {
    ProvedCircuit(proof.name, proof.proof, vk, [instance], proof.provedBlockCount, proof.originalBlockCount)
  }

  /** `convert_target_proof` */
  function Convert(w: World, s: ProverState, c: TargetCircuit, proof: TargetCircuitProof): Step<ProvedCircuit> {
    match ReadInstances(w, proof)
    case Ok(instance) =>
      (match VkForConversion(w, s.pks, c, proof.name)
       case Ok(vk) =>
         Step(if w.cfg.optMem then s.(pks := s.pks - {c.Name()}) else s, Ok(ProvedFrom(proof, vk, instance)))
       case failed => Step(s, failed.PropagateFailure()))
    case failed => Step(s, failed.PropagateFailure())
  }

  /** `prove_circuit` */
  function Prove(w: World, s: ProverState, c: TargetCircuit, traces: seq<BlockTrace>): Step<ProvedCircuit> {
    var created := CreateProof(w, s, c, traces);
    match created.result
    case Ok(proof) => Convert(w, created.state, c, proof)
    case failed => Step(created.state, failed.PropagateFailure())
  }

  // ---------------------------------------------------------------- aggregation

  function AggCircuitOf(w: World, p: ProvedCircuit): AggCircuit {
    w.lib.aggCircuit(w.params, p.name, p.instance, p.transcript, p.vk)
  }

  function FinalPairOf(w: World, p: ProvedCircuit): Outcome<FinalPair> {
    w.lib.finalPair(w.params, p.name, p.instance, p.transcript, p.vk)
  }

  /** The aggregation key generated from one proved circuit. */
  function AggKey(w: World, p: ProvedCircuit): Outcome<Pk> {
    var vk :- w.lib.aggKeygenVk(w.aggParams, AggCircuitOf(w, p)).Unwrap();
    w.lib.aggKeygenPk(w.aggParams, vk, AggCircuitOf(w, p)).Unwrap()
  }

  function AssembleAgg(w: World, pk: Pk, p: ProvedCircuit, pair: FinalPair): Outcome<AggCircuitProof> {
    var instances := w.lib.pairToInstances(pair);
    var _ :- if w.cfg.mockProve then w.lib.aggMockCheck(AggCircuitOf(w, p), instances) else Ok(());
    var proof :- w.lib.aggCreateProof(w.aggParams, pk, AggCircuitOf(w, p), instances, w.rng);
    Ok(AggCircuitProof(
      proof, w.lib.tensorJson.encode(SerializeFrTensor([[instances]])), FinalPairBytes(pair),
      w.lib.writeVk(w.lib.vkOf(pk)), p.provedBlockCount))
  }

  function EnsureAggPk(w: World, s: ProverState, p: ProvedCircuit): Step<Pk> {
    match s.aggPk
    case Some(pk) => Step(s, Ok(pk))
    case None =>
      match AggKey(w, p)
      case Ok(pk) => Step(s.(aggPk := Some(pk)), Ok(pk))
      case failed => Step(s, failed)
  }

  /** `create_agg_circuit_proof_impl`; only the first circuit is aggregated. */
  function Aggregate(w: World, s: ProverState, results: seq<ProvedCircuit>): Step<AggCircuitProof> {
    if results == [] then Step(s, Panic)
    else
      match FinalPairOf(w, results[0])
      case Ok(pair) =>
        var keyed := EnsureAggPk(w, s, results[0]);
        (match keyed.result
         case Ok(pk) => Step(keyed.state, AssembleAgg(w, pk, results[0], pair))
         case failed => Step(keyed.state, failed.PropagateFailure()))
      case failed => Step(s, failed.PropagateFailure())
  }

  /** `create_agg_circuit_proof_batch` */
  function AggregateBatch(w: World, s: ProverState, traces: seq<BlockTrace>): Step<AggCircuitProof> {
    var proved := Prove(w, s, SuperCircuit, traces);
    match proved.result
    case Ok(circuit) => Aggregate(w, proved.state, [circuit])
    case failed => Step(proved.state, failed.PropagateFailure())
  }

  // ---------------------------------------------------------------- saved proofs and the Solidity verifier

  /** Opening and reading the saved proof of a circuit. */
  function SavedProof(w: World, disk: Disk, dir: string, c: TargetCircuit): Outcome<TargetCircuitProof> {
    var bytes :- ReadFile(disk, ProofPath(dir, c));
    match w.lib.proofJson.decode(bytes)
    case Some(proof) => Ok(proof)
    case None => Err(Json)
  }

  datatype LoadStep = LoadStep(state: ProverState, vks: map<string, Vk>, result: Outcome<ProvedCircuit>)

  /** `debug_load_proved_circuit`, checking the proof first when a verifier (world `vw`, cache `vks`) is given. */
  function DebugLoad(w: World, s: ProverState, vw: World, vks: map<string, Vk>, check: bool, c: TargetCircuit)
    : LoadStep
  {
    if s.debugDir == "" then LoadStep(s, vks, Panic)
    else
      match SavedProof(w, s.disk, s.debugDir, c)
      case Ok(proof) => LoadSaved(w, s, vw, vks, check, c, proof)
      case failed => LoadStep(s, vks, failed.PropagateFailure())
  }

  function LoadSaved(w: World, s: ProverState, vw: World, vks: map<string, Vk>, check: bool, c: TargetCircuit,
                     proof: TargetCircuitProof): LoadStep
  {
    ConvertChecked(w, s, if check then VerifyTarget(vw, vks, c, proof) else VerifyStep(vks, Ok(())), c, proof)
  }

  function ConvertChecked(w: World, s: ProverState, verified: VerifyStep, c: TargetCircuit, proof: TargetCircuitProof)
    : LoadStep
  {
    if verified.result.Ok? then
      var converted := Convert(w, s, c, proof);
      LoadStep(converted.state, verified.vks, converted.result)
    else LoadStep(s, verified.vks, Panic)
  }

  /** The `unwrap`s of `create_solidity_verifier`. */
  function SolidityInputs(w: World, s: ProverState, proof: AggCircuitProof): Outcome<(Vk, Vk, Tensor)> {
    var _ :- Require(SuperCircuit.Name() in s.pks);
    var _ :- Require(s.aggPk.Some?);
    var instances :- LoadInstances(w.lib.tensorJson, proof.instance);
    Ok((w.lib.vkOf(s.pks[SuperCircuit.Name()]), w.lib.vkOf(s.aggPk.value), instances))
  }

  // ---------------------------------------------------------------- the class

  lemma CachingKeepsSound(w: World, pks: map<string, Pk>, c: TargetCircuit, pk: Pk)
    requires SoundPks(w, pks) && CircuitKey(w, c) == Ok(pk)
    ensures SoundPks(w, pks[c.Name() := pk])
  {
  }

  class Prover {
    const w: World
    const store: Store
    var targetCircuitPks: map<string, Pk>
    var aggPk: Option<Pk>
    var debugDir: string

    ghost predicate Valid()
      reads this
    {
      w.cfg.limits.Valid() && SoundPks(w, targetCircuitPks)
    }

    ghost function State(): ProverState
      reads this, store
    {
      ProverState(targetCircuitPks, aggPk, debugDir, store.disk)
    }

    constructor (w: World, store: Store)
      requires w.cfg.limits.Valid()
      ensures Valid() && this.w == w && this.store == store
      ensures State() == ProverState(map[], None, "", store.disk)
    {
      this.w := w;
      this.store := store;
      targetCircuitPks := map[];
      aggPk := None;
      debugDir := "";
    }

    method InitPk(c: TargetCircuit) returns (r: Outcome<()>)
      requires Valid()
      modifies this`targetCircuitPks
      ensures Valid()
      ensures match CircuitKey(w, c)
              case Ok(pk) => r == Ok(()) && targetCircuitPks == old(targetCircuitPks)[c.Name() := pk]
              case failed => r == failed.PropagateFailure() && targetCircuitPks == old(targetCircuitPks)
    {
      var circuit :- Empty(w, c);
      var pk :- w.lib.keygenPk2(w.params, circuit).Unwrap();
      CachingKeepsSound(w, targetCircuitPks, c, pk);
      targetCircuitPks := targetCircuitPks[c.Name() := pk];
      return Ok(());
    }

    /** Writes the debug files of a proof; a file that cannot be created is a panic. */
    method WriteDebugFiles(c: TargetCircuit, pk: Pk, proof: TargetCircuitProof) returns (r: Outcome<TargetCircuitProof>)
      modifies store
      ensures Stored(store.disk, r) == SaveDebug(w, debugDir, old(store.disk), c, pk, proof)
    {
      if debugDir != "" {
        var vkWritten := store.Create(VkPath(debugDir, c), w.lib.writeVk(w.lib.vkOf(pk)));
        if vkWritten.IsFailure() {
          return Panic;
        }
        var proofWritten := store.Create(ProofPath(debugDir, c), w.lib.proofJson.encode(proof));
        if proofWritten.IsFailure() {
          return Panic;
        }
      }
      return Ok(proof);
    }

    /** The first half of `create_target_circuit_proof_batch`. */
    method PrepareBatch(c: TargetCircuit, blockTraces: seq<BlockTrace>) returns (r: Outcome<Prepared>)
      requires w.cfg.limits.Valid()
      ensures r == Prepare(w, c, blockTraces)
    {
      var batch := new Batch(blockTraces);
      var _ :- CheckBatchCapacity(w.cfg.limits, RowUsageOf(w.lib), batch);
      var block :- w.lib.witnessBlock(batch.blocks);
      var built :- FromWitness(w, c, block);
      if w.cfg.logInfo && !Loggable(batch.blocks) {
        return Panic;
      }
      if w.cfg.mockProve {
        var _ :- w.lib.mockCheck(built.0, built.1);
      }
      return Ok(Prepared(built.0, built.1, w.lib.contextCount(block), |blockTraces|));
    }

    method CreateTargetCircuitProofBatch(c: TargetCircuit, blockTraces: seq<BlockTrace>)
      returns (r: Outcome<TargetCircuitProof>)
      requires Valid()
      modifies this`targetCircuitPks, store
      ensures Valid()
      ensures Step(State(), r) == CreateProof(w, old(State()), c, blockTraces)
    {
      var prep :- PrepareBatch(c, blockTraces);
      if c.Name() !in targetCircuitPks {
        var _ :- InitPk(c);
      }
      var pk := targetCircuitPks[c.Name()];
      assert EnsurePk(w, old(State()), c) == Step(State(), Ok(pk));
      r := AssembleProof(c, pk, prep);
    }

    /** The second half: the proof made with the key, and its debug files. */
    method AssembleProof(c: TargetCircuit, pk: Pk, prep: Prepared) returns (r: Outcome<TargetCircuitProof>)
      modifies store
      ensures Step(State(), r) == AssembleAndSave(w, old(State()), c, pk, prep)
    {
      var proof :- Assemble(w, c, pk, prep);
      r := WriteDebugFiles(c, pk, proof);
    }

    method ConvertTargetProof(c: TargetCircuit, proof: TargetCircuitProof) returns (r: Outcome<ProvedCircuit>)
      requires Valid()
      modifies this`targetCircuitPks
      ensures Valid()
      ensures Step(State(), r) == Convert(w, old(State()), c, proof)
    {
      var instances :- ReadInstances(w, proof);
      var vk :- VkForConversion(w, targetCircuitPks, c, proof.name);
      if w.cfg.optMem {
        targetCircuitPks := targetCircuitPks - {c.Name()};
      }
      return Ok(ProvedFrom(proof, vk, instances));
    }

    method ProveCircuit(c: TargetCircuit, blockTraces: seq<BlockTrace>) returns (r: Outcome<ProvedCircuit>)
      requires Valid()
      modifies this`targetCircuitPks, store
      ensures Valid()
      ensures Step(State(), r) == Prove(w, old(State()), c, blockTraces)
    {
      var proof :- CreateTargetCircuitProofBatch(c, blockTraces);
      r := ConvertTargetProof(c, proof);
    }

    method DebugLoadProvedCircuit(c: TargetCircuit, v: Verifier?) returns (r: Outcome<ProvedCircuit>)
      requires Valid() && (v != null ==> v.Valid())
      modifies this`targetCircuitPks, if v == null then {} else {v}
      ensures Valid() && (v != null ==> v.Valid())
      ensures v == null ==> LoadStep(State(), map[], r) == DebugLoad(w, old(State()), w, map[], false, c)
      ensures v != null ==>
                LoadStep(State(), v.targetCircuitVks, r)
                == DebugLoad(w, old(State()), v.w, old(v.targetCircuitVks), true, c)
    {
      if debugDir == "" {
        return Panic;
      }
      var proof :- SavedProof(w, store.disk, debugDir, c);
      if v != null {
        var verdict := v.VerifyTargetCircuitProof(c, proof);
        if verdict.IsFailure() {
          return Panic;
        }
      }
      r := ConvertTargetProof(c, proof);
    }

    method CreateAggCircuitProofImpl(circuitResults: seq<ProvedCircuit>) returns (r: Outcome<AggCircuitProof>)
      modifies this`aggPk
      ensures Step(State(), r) == Aggregate(w, old(State()), circuitResults)
    {
      if circuitResults == [] {
        return Panic;
      }
      var c := circuitResults[0];
      var verifyCircuit := AggCircuitOf(w, c);
      var pair :- FinalPairOf(w, c);
      var instances := w.lib.pairToInstances(pair);
      if aggPk.None? {
        var vk :- w.lib.aggKeygenVk(w.aggParams, verifyCircuit).Unwrap();
        var pk :- w.lib.aggKeygenPk(w.aggParams, vk, verifyCircuit).Unwrap();
        aggPk := Some(pk);
      }
      if w.cfg.mockProve {
        var _ :- w.lib.aggMockCheck(verifyCircuit, instances);
      }
      var proof :- w.lib.aggCreateProof(w.aggParams, aggPk.value, verifyCircuit, instances, w.rng);
      var finalPair := SerializeVerifyCircuitFinalPair(pair);
      return Ok(AggCircuitProof(
        proof, w.lib.tensorJson.encode(SerializeFrTensor([[instances]])), finalPair,
        w.lib.writeVk(w.lib.vkOf(aggPk.value)), c.provedBlockCount));
    }

    method CreateAggCircuitProofBatch(blockTraces: seq<BlockTrace>) returns (r: Outcome<AggCircuitProof>)
      requires Valid()
      modifies this`targetCircuitPks, this`aggPk, store
      ensures Valid()
      ensures Step(State(), r) == AggregateBatch(w, old(State()), blockTraces)
    {
      var circuit :- ProveCircuit(SuperCircuit, blockTraces);
      r := CreateAggCircuitProofImpl([circuit]);
    }

    /** Succeeds iff both keys are there and the instances load, and panics otherwise. The keys handed over are the
        super circuit's own verifying key and that of the aggregation key. */
    method CreateSolidityVerifier(proof: AggCircuitProof) returns (r: Outcome<(Vk, Vk, Tensor)>)
      requires Valid()
      ensures r == SolidityInputs(w, State(), proof)
      ensures r.Ok? <==> && SuperCircuit.Name() in targetCircuitPks && aggPk.Some?
                         && LoadInstances(w.lib.tensorJson, proof.instance).Ok?
      ensures !r.Ok? ==> r == Panic
      ensures r.Ok? ==>
                && r.value.1 == w.lib.vkOf(aggPk.value)
                && Ok(r.value.2) == LoadInstances(w.lib.tensorJson, proof.instance)
      ensures r.Ok? && KeygenLaw(w.lib) ==> CircuitVk(w, SuperCircuit) == Ok(r.value.0)
    {
      LoadNeverErrs(w.lib.tensorJson, proof.instance);
      if SuperCircuit.Name() !in targetCircuitPks || aggPk.None? {
        return Panic;
      }
      SoundLookup(w, targetCircuitPks, SuperCircuit);
      var instances :- LoadInstances(w.lib.tensorJson, proof.instance);
      return Ok((w.lib.vkOf(targetCircuitPks[SuperCircuit.Name()]), w.lib.vkOf(aggPk.value), instances));
    }
  }
}
