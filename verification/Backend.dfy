/** Circuits, keys, proofs and the outside proving library, as one record of deterministic functions. */
module Backend {
  import opened Common
  import opened Traces
  import opened FieldCodec
  import opened Capacity
  import opened ParamsStore

  type Vk(==, !new)
  type Pk(==, !new)
  type Rng(==, !new)
  type Circuit(==, !new)
  type AggCircuit(==, !new)
  type Witness(==, !new)

  type Instance = seq<seq<Fr>>
  type ByteMatrix = seq<seq<seq<Byte>>>

  /** The implementors of `TargetCircuit` (zkevm/src/circuit.rs). */
  datatype TargetCircuit = SuperCircuit | EvmCircuit | StateCircuit | ZktrieCircuit | PoseidonCircuit {
    function Name(): string {
      match this
      case SuperCircuit => "super"
      case EvmCircuit => "evm"
      case StateCircuit => "state"
      case ZktrieCircuit => "zktrie"
      case PoseidonCircuit => "poseidon"
    }
  }

  lemma NamesDistinctAndPlain(a: TargetCircuit, b: TargetCircuit)
    ensures a.Name() == b.Name() <==> a == b
    ensures '/' !in a.Name()
  {
    assert |a.Name()| == 5 || |a.Name()| == 3 || |a.Name()| == 6 || |a.Name()| == 8;
    assert a.Name()[0] == (match a case SuperCircuit => 's' case EvmCircuit => 'e' case StateCircuit => 's'
                           case ZktrieCircuit => 'z' case PoseidonCircuit => 'p');
    assert a.Name()[1] == (match a case SuperCircuit => 'u' case EvmCircuit => 'v' case StateCircuit => 't'
                           case ZktrieCircuit => 'k' case PoseidonCircuit => 'o');
  }

  datatype TargetCircuitProof = TargetCircuitProof(
    name: string, proof: seq<Byte>, instance: seq<Byte>, vk: seq<Byte>,
    provedBlockCount: nat, originalBlockCount: nat)

  datatype AggCircuitProof = AggCircuitProof(
    proof: seq<Byte>, instance: seq<Byte>, finalPair: seq<Byte>, vk: seq<Byte>, blockCount: nat)

  datatype ProvedCircuit = ProvedCircuit(
    name: string, transcript: seq<Byte>, vk: Vk, instance: seq<Instance>,
    provedBlockCount: nat, originalBlockCount: nat)

  datatype Library = Library(
    // block_traces_to_witness_block, the sub-circuit row counts and the number of block contexts
    witnessBlock: seq<BlockTrace> -> Outcome<Witness>,
    rows: Witness -> seq<nat>,
    contextCount: Witness -> nat,
    // circuit construction
    superBuild: Witness -> Outcome<(nat, Circuit, Instance)>,
    plainBuild: (TargetCircuit, Witness) -> Circuit,
    stateDefault: Circuit,
    // halo2 on target circuits
    keygenVk: (Params, Circuit) -> Outcome<Vk>,
    keygenPk2: (Params, Circuit) -> Outcome<Pk>,
    vkOf: Pk -> Vk,
    mockCheck: (Circuit, Instance) -> Outcome<()>,
    createProof: (Params, Pk, Circuit, Instance, Rng) -> Outcome<seq<Byte>>,
    verifyProof: (Params, Vk, Instance, seq<Byte>) -> Outcome<()>,
    writeVk: Vk -> seq<Byte>,
    readVk: seq<Byte> -> Outcome<Vk>,
    // the aggregation circuit built from a name, instances, a transcript and a key
    aggCircuit: (Params, string, seq<Instance>, seq<Byte>, Vk) -> AggCircuit,
    finalPair: (Params, string, seq<Instance>, seq<Byte>, Vk) -> Outcome<FinalPair>,
    pairToInstances: FinalPair -> seq<Fr>,
    aggKeygenVk: (Params, AggCircuit) -> Outcome<Vk>,
    aggKeygenPk: (Params, Vk, AggCircuit) -> Outcome<Pk>,
    aggMockCheck: (AggCircuit, seq<Fr>) -> Outcome<()>,
    aggCreateProof: (Params, Pk, AggCircuit, seq<Fr>, Rng) -> Outcome<seq<Byte>>,
    aggVerifyProof: (Params, Vk, Tensor, seq<Byte>) -> Outcome<()>,
    // serde_json
    matrixJson: Format<ByteMatrix>,
    tensorJson: Format<ByteTensor>,
    proofJson: Format<TargetCircuitProof>)

  /** Environment variables and the enabled log levels: some log arguments can panic when evaluated. */
  datatype Config = Config(
    limits: Limits, optMem: bool, mockProve: bool, logInfo: bool, logDebug: bool, logError: bool)

  /** What stays fixed during the life of a prover and its verifier. */
  datatype World = World(lib: Library, cfg: Config, params: Params, aggParams: Params, rng: Rng)

  /** The verifying key inside a proving key is the one generated alone. */
  ghost predicate KeygenLaw(lib: Library) {
    forall params, circuit ::
      lib.keygenPk2(params, circuit).Ok? ==>
        lib.keygenVk(params, circuit) == Ok(lib.vkOf(lib.keygenPk2(params, circuit).value))
  }

  /** `empty` and `from_witness_block` of `c` can build this circuit. */
  ghost predicate BuiltFor(lib: Library, c: TargetCircuit, circuit: Circuit) {
    match c
    case SuperCircuit => exists block :: lib.superBuild(block).Ok? && lib.superBuild(block).value.1 == circuit
    case StateCircuit => circuit == lib.stateDefault || exists block :: lib.plainBuild(c, block) == circuit
    case _ => exists block :: lib.plainBuild(c, block) == circuit
  }

  /** Completeness of halo2 for circuits of one type, which all have one shape: a proof made for instances that satisfy
      the circuit, with a key generated from a circuit of the type, is accepted under that key for those instances. */
  ghost predicate TargetComplete(lib: Library) {
    forall c, params, template, circuit, instance, rng :: CompleteFor(lib, c, params, template, circuit, instance, rng)
  }

  ghost predicate CompleteFor(lib: Library, c: TargetCircuit, params: Params, template: Circuit, circuit: Circuit,
                              instance: Instance, rng: Rng)
  {
    BuiltFor(lib, c, template) && BuiltFor(lib, c, circuit)
    && lib.keygenPk2(params, template).Ok? && lib.mockCheck(circuit, instance).Ok? ==>
      var pk := lib.keygenPk2(params, template).value;
      match lib.createProof(params, pk, circuit, instance, rng)
      case Ok(proof) => lib.verifyProof(params, lib.vkOf(pk), instance, proof).Ok?
      case _ => true
  }

  /** Two proved circuits of the same name and key whose instances have the same dimensions. */
  predicate SameShape(p: ProvedCircuit, q: ProvedCircuit) {
    && p.name == q.name && p.vk == q.vk && |p.instance| == |q.instance|
    && forall i :: 0 <= i < |p.instance| ==>
         && |p.instance[i]| == |q.instance[i]|
         && forall j :: 0 <= j < |p.instance[i]| ==> |p.instance[i][j]| == |q.instance[i][j]|
  }

  /** The same for aggregation circuits: those of proved circuits of one shape have one shape. */
  ghost predicate AggComplete(lib: Library) {
    forall params, aggParams, p, q, instances, rng :: AggCompleteFor(lib, params, aggParams, p, q, instances, rng)
  }

  ghost predicate AggCompleteFor(lib: Library, params: Params, aggParams: Params, p: ProvedCircuit, q: ProvedCircuit,
                                 instances: seq<Fr>, rng: Rng)
  {
    var template := lib.aggCircuit(params, p.name, p.instance, p.transcript, p.vk);
    var circuit := lib.aggCircuit(params, q.name, q.instance, q.transcript, q.vk);
    var vk := lib.aggKeygenVk(aggParams, template);
    SameShape(p, q) && vk.Ok? && lib.aggKeygenPk(aggParams, vk.value, template).Ok?
    && lib.aggMockCheck(circuit, instances).Ok? ==>
      var pk := lib.aggKeygenPk(aggParams, vk.value, template).value;
      match lib.aggCreateProof(aggParams, pk, circuit, instances, rng)
      case Ok(proof) => lib.aggVerifyProof(aggParams, lib.vkOf(pk), [[instances]], proof).Ok?
      case _ => true
  }

  /** Reading the bytes of this verifying key as one of the aggregation circuit gives it back. */
  predicate ReadsBack(lib: Library, vk: Vk) {
    lib.readVk(lib.writeVk(vk)) == Ok(vk)
  }

  ghost predicate JsonLaws(lib: Library) {
    RoundTrips(lib.matrixJson) && RoundTrips(lib.tensorJson) && RoundTrips(lib.proofJson)
  }

  /** `calculate_row_usage_of_trace` */
  function RowUsageOf(lib: Library): RowUsage {
    (block: BlockTrace) => RowUsageOfTrace(lib, block)
  }

  function RowUsageOfTrace(lib: Library, block: BlockTrace): Outcome<seq<nat>> {
    var witnessBlock :- lib.witnessBlock([block]);
    Ok(lib.rows(witnessBlock))
  }

  /** `C::from_witness_block` */
  function FromWitness(w: World, c: TargetCircuit, witnessBlock: Witness): Outcome<(Circuit, Instance)> {
    if c.SuperCircuit? then
      var built :- w.lib.superBuild(witnessBlock);
      if built.0 > w.cfg.limits.degree then Err(DegreeTooSmall(built.0)) else Ok((built.1, built.2))
    else Ok((w.lib.plainBuild(c, witnessBlock), []))
  }

  /** `C::empty()` */
  function Empty(w: World, c: TargetCircuit): Outcome<Circuit> {
    if c.StateCircuit? then Ok(w.lib.stateDefault)
    else
      var witnessBlock :- w.lib.witnessBlock([]).Unwrap();
      var built :- FromWitness(w, c, witnessBlock).Unwrap();
      Ok(built.0)
  }

  /** The proving key of the empty circuit, whatever any cache says. */
  function CircuitKey(w: World, c: TargetCircuit): Outcome<Pk> {
    var circuit :- Empty(w, c);
    w.lib.keygenPk2(w.params, circuit).Unwrap()
  }

  function CircuitVk(w: World, c: TargetCircuit): Outcome<Vk> {
    var circuit :- Empty(w, c);
    w.lib.keygenVk(w.params, circuit).Unwrap()
  }

  lemma KeysAgree(w: World, c: TargetCircuit)
    requires KeygenLaw(w.lib) && CircuitKey(w, c).Ok?
    ensures CircuitVk(w, c) == Ok(w.lib.vkOf(CircuitKey(w, c).value))
  {
  }

  /** Every cached proving key is the generated one of the circuit it is filed under. */
  ghost predicate SoundPks(w: World, pks: map<string, Pk>) {
    forall name :: name in pks ==> exists c: TargetCircuit :: c.Name() == name && CircuitKey(w, c) == Ok(pks[name])
  }

  ghost predicate SoundVks(w: World, vks: map<string, Vk>) {
    forall name :: name in vks ==> exists c: TargetCircuit :: c.Name() == name && CircuitVk(w, c) == Ok(vks[name])
  }

  lemma SoundLookup(w: World, pks: map<string, Pk>, c: TargetCircuit)
    requires SoundPks(w, pks) && c.Name() in pks
    ensures CircuitKey(w, c) == Ok(pks[c.Name()])
  {
    var d: TargetCircuit :| d.Name() == c.Name() && CircuitKey(w, d) == Ok(pks[c.Name()]);
    NamesDistinctAndPlain(c, d);
  }

  lemma SoundVkLookup(w: World, vks: map<string, Vk>, c: TargetCircuit)
    requires SoundVks(w, vks) && c.Name() in vks
    ensures CircuitVk(w, c) == Ok(vks[c.Name()])
  {
    var d: TargetCircuit :| d.Name() == c.Name() && CircuitVk(w, d) == Ok(vks[c.Name()]);
    NamesDistinctAndPlain(c, d);
  }
}
