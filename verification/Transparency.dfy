/** Key caches and eviction are invisible: when, exactly, and over which runs. */
module Transparency {
  import opened Common
  import opened Traces
  import opened FieldCodec
  import opened FileStore
  import opened Backend
  import opened Verification
  import opened Proving
  import opened Runs

  /** The same world, except that OPT_MEM may be switched. */
  ghost predicate SameButOptMem(w: World, w': World) {
    w' == w.(cfg := w.cfg.(optMem := w'.cfg.optMem))
  }

  /** The saved proof of a circuit can be read, instances included. */
  predicate Readable(w: World, disk: Disk, dir: string, c: TargetCircuit) {
    dir != "" && SavedProof(w, disk, dir, c).Ok? && ReadInstances(w, SavedProof(w, disk, dir, c).value).Ok?
  }

  /** No readable saved proof carries a name under which a differing key of a circuit in `some` can be cached. */
  ghost predicate HarmlessDisk(w: World, some: set<TargetCircuit>, disk: Disk) {
    forall dir, c :: Readable(w, disk, dir, c) ==> NameIsHarmless(w, some, c, SavedProof(w, disk, dir, c).value.name)
  }

  // ---------------------------------------------------------------- systems that differ in their caches

  /** The same prover apart from its key cache: both caches are sound and differ only on circuits in `some`. */
  ghost predicate ProversAgree(w: World, w': World, some: set<TargetCircuit>, s: ProverState, s': ProverState) {
    && SoundPks(w, s.pks) && SoundPks(w', s'.pks)
    && (forall c: TargetCircuit :: c !in some ==> (c.Name() in s.pks <==> c.Name() in s'.pks))
    && s.(pks := map[]) == s'.(pks := map[])
  }

  /** The same prover and verifier apart from their caches, on a disk where that cannot show. */
  ghost predicate SystemsAgree(w: World, w': World, some: set<TargetCircuit>, sys: Sys, sys': Sys) {
    && ProversAgree(w, w', some, sys.prover, sys'.prover)
    && SoundVks(w, sys.vks) && SoundVks(w', sys'.vks)
    && HarmlessDisk(w, some, sys.prover.disk)
  }

  lemma KeysIgnoreOptMem(w: World, w': World, c: TargetCircuit)
    requires SameButOptMem(w, w')
    ensures CircuitKey(w', c) == CircuitKey(w, c) && CircuitVk(w', c) == CircuitVk(w, c)
  {
    assert w'.lib == w.lib && w'.cfg.limits == w.cfg.limits && w'.params == w.params;
    if !c.StateCircuit? && w.lib.witnessBlock([]).Ok? {
      assert FromWitness(w', c, w.lib.witnessBlock([]).value) == FromWitness(w, c, w.lib.witnessBlock([]).value);
    }
    assert Empty(w', c) == Empty(w, c);
  }

  lemma SoundnessIgnoresOptMem(w: World, w': World, pks: map<string, Pk>)
    requires SameButOptMem(w, w')
    ensures SoundPks(w', pks) <==> SoundPks(w, pks)
  {
    forall c { KeysIgnoreOptMem(w, w', c); }
  }

  lemma ProofIgnoresOptMem(w: World, w': World, c: TargetCircuit, traces: seq<BlockTrace>)
    requires SameButOptMem(w, w')
    ensures Prepare(w', c, traces) == Prepare(w, c, traces) && ProofOf(w', c, traces) == ProofOf(w, c, traces)
  {
    KeysIgnoreOptMem(w, w', c);
    assert w'.lib == w.lib && w'.cfg.limits == w.cfg.limits;
    assert Prepare(w', c, traces) == Prepare(w, c, traces);
  }

  lemma CreateProofSame(w: World, w': World, s: ProverState, s': ProverState, c: TargetCircuit, traces: seq<BlockTrace>)
    requires SameButOptMem(w, w') && SoundPks(w, s.pks) && SoundPks(w', s'.pks)
    requires s.(pks := map[]) == s'.(pks := map[])
    ensures var step, step' := CreateProof(w, s, c, traces), CreateProof(w', s', c, traces);
            && step'.result == step.result && step.state.(pks := map[]) == step'.state.(pks := map[])
            && (step.result.Ok? ==> step.result.value.name == c.Name())
  {
    SoundnessIgnoresOptMem(w, w', s'.pks);
    CreationIgnoresOptMem(w, w', s', c, traces);
    CreationIgnoresCache(w, s, s'.pks, c, traces);
    assert s' == s.(pks := s'.pks);
  }

  lemma CreationIgnoresCache(w: World, s: ProverState, pks: map<string, Pk>, c: TargetCircuit, traces: seq<BlockTrace>)
    requires SoundPks(w, s.pks) && SoundPks(w, pks)
    ensures var step, step' := CreateProof(w, s, c, traces), CreateProof(w, s.(pks := pks), c, traces);
            && step'.result == step.result && step'.state == step.state.(pks := step'.state.pks)
            && (step.result.Ok? ==> step.result.value.name == c.Name())
  {
    var prepared, key := Prepare(w, c, traces), CircuitKey(w, c);
    EnsurePkExact(w, s, c);
    EnsurePkExact(w, s.(pks := pks), c);
    if prepared.Ok? && key.Ok? {
      var keyed := s.(pks := s.pks[c.Name() := key.value]);
      AssemblyIgnoresCache(w, keyed, pks[c.Name() := key.value], c, key.value, prepared.value);
      assert keyed.(pks := pks[c.Name() := key.value]) == s.(pks := pks[c.Name() := key.value]);
    }
  }

  lemma AssemblyIgnoresCache(w: World, s: ProverState, pks: map<string, Pk>, c: TargetCircuit, pk: Pk, prep: Prepared)
    ensures var step := AssembleAndSave(w, s, c, pk, prep);
            && AssembleAndSave(w, s.(pks := pks), c, pk, prep) == Step(step.state.(pks := pks), step.result)
            && (step.result.Ok? ==> step.result.value.name == c.Name())
  {
  }

  lemma CreationIgnoresOptMem(w: World, w': World, s: ProverState, c: TargetCircuit, traces: seq<BlockTrace>)
    requires SameButOptMem(w, w')
    ensures CreateProof(w', s, c, traces) == CreateProof(w, s, c, traces)
  {
    var prepared, keyed := Prepare(w, c, traces), EnsurePk(w, s, c);
    ProofIgnoresOptMem(w, w', c, traces);
    KeysIgnoreOptMem(w, w', c);
    if prepared.Ok? && keyed.result.Ok? {
      AssemblyIgnoresOptMem(w, w', keyed.state, c, keyed.result.value, prepared.value);
    }
  }

  lemma AssemblyIgnoresOptMem(w: World, w': World, s: ProverState, c: TargetCircuit, pk: Pk, prep: Prepared)
    requires SameButOptMem(w, w')
    ensures AssembleAndSave(w', s, c, pk, prep) == AssembleAndSave(w, s, c, pk, prep)
  {
  }

  lemma CreateProofAgrees(w: World, w': World, some: set<TargetCircuit>, s: ProverState, s': ProverState,
                          c: TargetCircuit, traces: seq<BlockTrace>)
    requires SameButOptMem(w, w') && ProversAgree(w, w', some, s, s')
    ensures CreateProof(w', s', c, traces).result == CreateProof(w, s, c, traces).result
    ensures ProversAgree(w, w', some, CreateProof(w, s, c, traces).state, CreateProof(w', s', c, traces).state)
    ensures CreateProof(w, s, c, traces).result.Ok? ==> CreateProof(w, s, c, traces).result.value.name == c.Name()
  {
    CreateProofSame(w, w', s, s', c, traces);
    CreateProofCaches(w, s, c, traces);
    CreateProofCaches(w', s', c, traces);
    assert Cached(w', c, traces) == Cached(w, c, traces) by {
      ProofIgnoresOptMem(w, w', c, traces);
      KeysIgnoreOptMem(w, w', c);
    }
  }

  /** Creating a proof for these traces gets as far as the circuit's key. */
  predicate Cached(w: World, c: TargetCircuit, traces: seq<BlockTrace>) {
    Prepare(w, c, traces).Ok? && CircuitKey(w, c).Ok?
  }

  lemma CreateProofCaches(w: World, s: ProverState, c: TargetCircuit, traces: seq<BlockTrace>)
    requires SoundPks(w, s.pks)
    ensures var pks := CreateProof(w, s, c, traces).state.pks;
            && SoundPks(w, pks)
            && forall name :: name in pks <==> name in s.pks || (name == c.Name() && Cached(w, c, traces))
  {
    CreateProofExact(w, s, c, traces);
  }

  /** A name both caches may answer differently is that of a circuit in `some`. */
  lemma LookupsAgree(w: World, w': World, some: set<TargetCircuit>, s: ProverState, s': ProverState,
                     c: TargetCircuit, name: string)
    requires KeygenLaw(w.lib) && SameButOptMem(w, w') && ProversAgree(w, w', some, s, s')
    requires NameIsHarmless(w, some, c, name)
    ensures VkForConversion(w', s'.pks, c, name) == VkForConversion(w, s.pks, c, name)
  {
    KeysIgnoreOptMem(w, w', c);
    SoundnessIgnoresOptMem(w, w', s'.pks);
    if name in s.pks {
      CachedNamesAreCircuits(w, s.pks, name);
    }
    if name in s'.pks {
      CachedNamesAreCircuits(w, s'.pks, name);
    }
    if name in s.pks && name in s'.pks {
      var d :| d in ALL_CIRCUITS && d.Name() == name && CircuitKey(w, d) == Ok(s.pks[name]);
      SoundLookup(w, s'.pks, d);
    } else if name in s.pks {
      HarmlessLookup(w, some, s.pks, c, name);
    } else if name in s'.pks {
      HarmlessLookup(w, some, s'.pks, c, name);
    }
  }

  lemma ConvertAgrees(w: World, w': World, some: set<TargetCircuit>, s: ProverState, s': ProverState,
                      c: TargetCircuit, proof: TargetCircuitProof)
    requires KeygenLaw(w.lib) && SameButOptMem(w, w') && ProversAgree(w, w', some, s, s')
    requires ReadInstances(w, proof).Ok? ==> NameIsHarmless(w, some, c, proof.name)
    requires w.cfg.optMem != w'.cfg.optMem && Convert(w, s, c, proof).result.Ok? && c.Name() in s.pks ==> c in some
    ensures Convert(w', s', c, proof).result == Convert(w, s, c, proof).result
    ensures ProversAgree(w, w', some, Convert(w, s, c, proof).state, Convert(w', s', c, proof).state)
  {
    if ReadInstances(w, proof).Ok? {
      LookupsAgree(w, w', some, s, s', c, proof.name);
    }
    if Convert(w, s, c, proof).result.Ok? {
      ConvertState(w, s, c, proof);
      ConvertState(w', s', c, proof);
      EvictionAgrees(w, w', some, s, s', c);
    }
  }

  lemma EvictionAgrees(w: World, w': World, some: set<TargetCircuit>, s: ProverState, s': ProverState, c: TargetCircuit)
    requires ProversAgree(w, w', some, s, s')
    requires w.cfg.optMem != w'.cfg.optMem && c.Name() in s.pks ==> c in some
    ensures ProversAgree(w, w', some, s.(pks := if w.cfg.optMem then s.pks - {c.Name()} else s.pks),
                         s'.(pks := if w'.cfg.optMem then s'.pks - {c.Name()} else s'.pks))
  {
    forall d: TargetCircuit ensures d.Name() == c.Name() <==> d == c {
      NamesDistinctAndPlain(c, d);
    }
  }

  lemma ProveAgrees(w: World, w': World, some: set<TargetCircuit>, s: ProverState, s': ProverState,
                    c: TargetCircuit, traces: seq<BlockTrace>)
    requires KeygenLaw(w.lib) && SameButOptMem(w, w') && ProversAgree(w, w', some, s, s')
    requires w.cfg.optMem != w'.cfg.optMem && Prove(w, s, c, traces).result.Ok? ==> c in some
    ensures Prove(w', s', c, traces).result == Prove(w, s, c, traces).result
    ensures ProversAgree(w, w', some, Prove(w, s, c, traces).state, Prove(w', s', c, traces).state)
  {
    CreateProofAgrees(w, w', some, s, s', c, traces);
    OwnNameIsHarmless(w, some, c);
    var step, step' := CreateProof(w, s, c, traces), CreateProof(w', s', c, traces);
    if step.result.Ok? {
      ConvertAgrees(w, w', some, step.state, step'.state, c, step.result.value);
    }
  }

  lemma AggregateAgrees(w: World, w': World, some: set<TargetCircuit>, s: ProverState, s': ProverState,
                        results: seq<ProvedCircuit>)
    requires SameButOptMem(w, w') && ProversAgree(w, w', some, s, s')
    ensures Aggregate(w', s', results).result == Aggregate(w, s, results).result
    ensures ProversAgree(w, w', some, Aggregate(w, s, results).state, Aggregate(w', s', results).state)
  {
    if results != [] {
      assert AggKey(w', results[0]) == AggKey(w, results[0]);
      assert FinalPairOf(w', results[0]) == FinalPairOf(w, results[0]);
      if FinalPairOf(w, results[0]).Ok? && EnsureAggPk(w, s, results[0]).result.Ok? {
        var pk, pair := EnsureAggPk(w, s, results[0]).result.value, FinalPairOf(w, results[0]).value;
        assert AssembleAgg(w', pk, results[0], pair) == AssembleAgg(w, pk, results[0], pair);
      }
    }
  }

  lemma BatchAgrees(w: World, w': World, some: set<TargetCircuit>, s: ProverState, s': ProverState,
                    traces: seq<BlockTrace>)
    requires KeygenLaw(w.lib) && SameButOptMem(w, w') && ProversAgree(w, w', some, s, s')
    requires w.cfg.optMem != w'.cfg.optMem && Prove(w, s, SuperCircuit, traces).result.Ok? ==> SuperCircuit in some
    ensures AggregateBatch(w', s', traces).result == AggregateBatch(w, s, traces).result
    ensures ProversAgree(w, w', some, AggregateBatch(w, s, traces).state, AggregateBatch(w', s', traces).state)
  {
    ProveAgrees(w, w', some, s, s', SuperCircuit, traces);
    var step, step' := Prove(w, s, SuperCircuit, traces), Prove(w', s', SuperCircuit, traces);
    if step.result.Ok? {
      AggregateAgrees(w, w', some, step.state, step'.state, [step.result.value]);
    }
  }

  lemma VerifyAgrees(w: World, w': World, vks: map<string, Vk>, vks': map<string, Vk>,
                     c: TargetCircuit, proof: TargetCircuitProof)
    requires SameButOptMem(w, w') && SoundVks(w, vks) && SoundVks(w', vks')
    ensures VerifyTarget(w', vks', c, proof).result == VerifyTarget(w, vks, c, proof).result
    ensures SoundVks(w, VerifyTarget(w, vks, c, proof).vks) && SoundVks(w', VerifyTarget(w', vks', c, proof).vks)
  {
    VerdictIgnoresCache(w, vks, c, proof);
    VerdictIgnoresCache(w', vks', c, proof);
    KeysIgnoreOptMem(w, w', c);
  }

  /** Where the two systems evict differently, the evicted circuit is one on which their caches may differ. */
  ghost predicate EvictsWithin(w: World, w': World, some: set<TargetCircuit>, sys: Sys, op: Op) {
    w.cfg.optMem == w'.cfg.optMem ||
    match op
    case ProveOp(c, traces) => Prove(w, sys.prover, c, traces).result.Ok? ==> c in some
    case AggregateBatchOp(traces) => Prove(w, sys.prover, SuperCircuit, traces).result.Ok? ==> SuperCircuit in some
    case LoadOp(c, check) =>
      Readable(w, sys.prover.disk, sys.prover.debugDir, c) && c.Name() in sys.prover.pks ==> c in some
    case _ => true
  }

  lemma LoadSavedAgrees(w: World, w': World, some: set<TargetCircuit>, s: ProverState, s': ProverState,
                        vks: map<string, Vk>, vks': map<string, Vk>, check: bool, c: TargetCircuit,
                        proof: TargetCircuitProof)
    requires KeygenLaw(w.lib) && SameButOptMem(w, w') && ProversAgree(w, w', some, s, s')
    requires SoundVks(w, vks) && SoundVks(w', vks')
    requires ReadInstances(w, proof).Ok? ==> NameIsHarmless(w, some, c, proof.name)
    requires w.cfg.optMem != w'.cfg.optMem && ReadInstances(w, proof).Ok? && c.Name() in s.pks ==> c in some
    ensures var step, step' := LoadSaved(w, s, w, vks, check, c, proof), LoadSaved(w', s', w', vks', check, c, proof);
            && step'.result == step.result
            && ProversAgree(w, w', some, step.state, step'.state)
            && SoundVks(w, step.vks) && SoundVks(w', step'.vks)
  {
    if check {
      VerifyAgrees(w, w', vks, vks', c, proof);
    }
    ConvertCheckedAgrees(w, w', some, s, s', if check then VerifyTarget(w, vks, c, proof) else VerifyStep(vks, Ok(())),
                         if check then VerifyTarget(w', vks', c, proof) else VerifyStep(vks', Ok(())), c, proof);
  }

  lemma ConvertCheckedAgrees(w: World, w': World, some: set<TargetCircuit>, s: ProverState, s': ProverState,
                             verified: VerifyStep, verified': VerifyStep, c: TargetCircuit, proof: TargetCircuitProof)
    requires KeygenLaw(w.lib) && SameButOptMem(w, w') && ProversAgree(w, w', some, s, s')
    requires verified.result == verified'.result
    requires ReadInstances(w, proof).Ok? ==> NameIsHarmless(w, some, c, proof.name)
    requires w.cfg.optMem != w'.cfg.optMem && ReadInstances(w, proof).Ok? && c.Name() in s.pks ==> c in some
    ensures var step, step' := ConvertChecked(w, s, verified, c, proof), ConvertChecked(w', s', verified', c, proof);
            && step'.result == step.result && step.vks == verified.vks && step'.vks == verified'.vks
            && ProversAgree(w, w', some, step.state, step'.state)
  {
    ConvertAgrees(w, w', some, s, s', c, proof);
  }

  lemma LoadAgrees(w: World, w': World, some: set<TargetCircuit>, s: ProverState, s': ProverState,
                   vks: map<string, Vk>, vks': map<string, Vk>, check: bool, c: TargetCircuit)
    requires KeygenLaw(w.lib) && SameButOptMem(w, w') && ProversAgree(w, w', some, s, s')
    requires SoundVks(w, vks) && SoundVks(w', vks')
    requires Readable(w, s.disk, s.debugDir, c) ==>
               && NameIsHarmless(w, some, c, SavedProof(w, s.disk, s.debugDir, c).value.name)
               && (w.cfg.optMem != w'.cfg.optMem && c.Name() in s.pks ==> c in some)
    ensures var step, step' := DebugLoad(w, s, w, vks, check, c), DebugLoad(w', s', w', vks', check, c);
            && step'.result == step.result
            && ProversAgree(w, w', some, step.state, step'.state)
            && SoundVks(w, step.vks) && SoundVks(w', step'.vks)
  {
    var saved := SavedProof(w, s.disk, s.debugDir, c);
    assert SavedProof(w', s'.disk, s'.debugDir, c) == saved;
    if s.debugDir != "" && saved.Ok? {
      LoadSavedAgrees(w, w', some, s, s', vks, vks', check, c, saved.value);
    }
  }

  lemma StepAgreesOnProvers(w: World, w': World, some: set<TargetCircuit>, sys: Sys, sys': Sys, op: Op)
    requires KeygenLaw(w.lib) && SameButOptMem(w, w') && SystemsAgree(w, w', some, sys, sys')
    requires EvictsWithin(w, w', some, sys, op)
    ensures var turn, turn' := Apply(w, sys, op), Apply(w', sys', op);
            && turn'.reply == turn.reply
            && ProversAgree(w, w', some, turn.sys.prover, turn'.sys.prover)
            && SoundVks(w, turn.sys.vks) && SoundVks(w', turn'.sys.vks)
  {
    var s, s' := sys.prover, sys'.prover;
    match op
    case LoadOp(c, check) => LoadStepAgrees(w, w', some, sys, sys', c, check);
    case VerifyOp(c, proof) => VerifyAgrees(w, w', sys.vks, sys'.vks, c, proof);
    case SetDebugDirOp(dir) =>
    case _ => ProvingStepAgrees(w, w', some, sys, sys', op);
  }

  lemma LoadStepAgrees(w: World, w': World, some: set<TargetCircuit>, sys: Sys, sys': Sys,
                       c: TargetCircuit, check: bool)
    requires KeygenLaw(w.lib) && SameButOptMem(w, w') && SystemsAgree(w, w', some, sys, sys')
    requires EvictsWithin(w, w', some, sys, LoadOp(c, check))
    ensures var turn, turn' := Apply(w, sys, LoadOp(c, check)), Apply(w', sys', LoadOp(c, check));
            && turn'.reply == turn.reply
            && ProversAgree(w, w', some, turn.sys.prover, turn'.sys.prover)
            && SoundVks(w, turn.sys.vks) && SoundVks(w', turn'.sys.vks)
  {
    LoadAgrees(w, w', some, sys.prover, sys'.prover, sys.vks, sys'.vks, check, c);
  }

  /** The operations that leave the verifier alone. */
  lemma ProvingStepAgrees(w: World, w': World, some: set<TargetCircuit>, sys: Sys, sys': Sys, op: Op)
    requires op.CreateProofOp? || op.ProveOp? || op.AggregateBatchOp? || op.AggregateOp?
    requires KeygenLaw(w.lib) && SameButOptMem(w, w') && ProversAgree(w, w', some, sys.prover, sys'.prover)
    requires EvictsWithin(w, w', some, sys, op)
    ensures var turn, turn' := Apply(w, sys, op), Apply(w', sys', op);
            && turn'.reply == turn.reply && turn.sys.vks == sys.vks && turn'.sys.vks == sys'.vks
            && ProversAgree(w, w', some, turn.sys.prover, turn'.sys.prover)
  {
    var s, s' := sys.prover, sys'.prover;
    match op
    case CreateProofOp(c, traces) => CreateProofAgrees(w, w', some, s, s', c, traces);
    case ProveOp(c, traces) => ProveAgrees(w, w', some, s, s', c, traces);
    case AggregateBatchOp(traces) => BatchAgrees(w, w', some, s, s', traces);
    case AggregateOp(results) => AggregateAgrees(w, w', some, s, s', results);
  }

  lemma StepKeepsHarmless(w: World, some: set<TargetCircuit>, sys: Sys, op: Op)
    requires RoundTrips(w.lib.proofJson) && SoundPks(w, sys.prover.pks) && HarmlessDisk(w, some, sys.prover.disk)
    ensures HarmlessDisk(w, some, Apply(w, sys, op).sys.prover.disk)
  {
    var disk, disk' := sys.prover.disk, Apply(w, sys, op).sys.prover.disk;
    forall dir, c | Readable(w, disk', dir, c)
      ensures NameIsHarmless(w, some, c, SavedProof(w, disk', dir, c).value.name)
    {
      StepEffectOnSaved(w, sys, op, dir, c);
      if SavesAt(w, sys.prover, op, dir, c) {
        SavedProofIsOwn(w, sys, op, dir, c);
        OwnNameIsHarmless(w, some, c);
      } else {
        assert Readable(w, disk, dir, c);
      }
    }
  }

  /** One operation on two agreeing systems: the same reply, and they still agree. */
  lemma StepAgrees(w: World, w': World, some: set<TargetCircuit>, sys: Sys, sys': Sys, op: Op)
    requires KeygenLaw(w.lib) && RoundTrips(w.lib.proofJson)
    requires SameButOptMem(w, w') && SystemsAgree(w, w', some, sys, sys') && EvictsWithin(w, w', some, sys, op)
    ensures Apply(w', sys', op).reply == Apply(w, sys, op).reply
    ensures SystemsAgree(w, w', some, Apply(w, sys, op).sys, Apply(w', sys', op).sys)
  {
    StepAgreesOnProvers(w, w', some, sys, sys', op);
    StepKeepsHarmless(w, some, sys, op);
  }

  lemma EveryEvictionWithinAll(w: World, w': World, sys: Sys, op: Op)
    ensures EvictsWithin(w, w', ALL_CIRCUITS, sys, op)
  {
    EveryCircuitListed();
  }

  /** Two systems with any sound caches, OPT_MEM on or off in either, give equal replies at every step of every run. */
  lemma {:induction false} RunsAgree(w: World, w': World, sys: Sys, sys': Sys, ops: seq<Op>)
    requires KeygenLaw(w.lib) && RoundTrips(w.lib.proofJson)
    requires SameButOptMem(w, w') && SystemsAgree(w, w', ALL_CIRCUITS, sys, sys')
    ensures Run(w', sys', ops).replies == Run(w, sys, ops).replies
    ensures SystemsAgree(w, w', ALL_CIRCUITS, Run(w, sys, ops).sys, Run(w', sys', ops).sys)
  {
    if ops != [] {
      var init := ops[..|ops| - 1];
      RunsAgree(w, w', sys, sys', init);
      EveryEvictionWithinAll(w, w', Run(w, sys, init).sys, ops[|ops| - 1]);
      StepAgrees(w, w', ALL_CIRCUITS, Run(w, sys, init).sys, Run(w', sys', init).sys, ops[|ops| - 1]);
    }
  }

  // ---------------------------------------------------------------- a machine without target-circuit keys

  function Forget(sys: Sys): Sys {
    Sys(sys.prover.(pks := map[]), map[])
  }

  /** A prover and a verifier that forget every target-circuit key before each operation, and so never use one that
      an earlier operation left. The aggregation key, which is no cache of a circuit's own key, stays. */
  function ColdRun(w: World, sys: Sys, ops: seq<Op>): (h: History)
    ensures |h.replies| == |ops|
  {
    if ops == [] then History(sys, [])
    else
      var before := ColdRun(w, sys, ops[..|ops| - 1]);
      var turn := Apply(w, Forget(before.sys), ops[|ops| - 1]);
      History(turn.sys, before.replies + [turn.reply])
  }

  /** Caching and eviction refine that machine: every reply of every run is the one it gives. */
  lemma {:induction false} RunRefinesColdRun(w: World, w': World, sys: Sys, sys': Sys, ops: seq<Op>)
    requires KeygenLaw(w.lib) && RoundTrips(w.lib.proofJson)
    requires SameButOptMem(w, w') && SystemsAgree(w, w', ALL_CIRCUITS, sys, sys')
    ensures ColdRun(w', sys', ops).replies == Run(w, sys, ops).replies
    ensures SystemsAgree(w, w', ALL_CIRCUITS, Run(w, sys, ops).sys, ColdRun(w', sys', ops).sys)
  {
    if ops != [] {
      var init := ops[..|ops| - 1];
      RunRefinesColdRun(w, w', sys, sys', init);
      var warm, cold := Run(w, sys, init).sys, ColdRun(w', sys', init).sys;
      EveryCircuitListed();
      assert SystemsAgree(w, w', ALL_CIRCUITS, warm, Forget(cold));
      EveryEvictionWithinAll(w, w', warm, ops[|ops| - 1]);
      StepAgrees(w, w', ALL_CIRCUITS, warm, Forget(cold), ops[|ops| - 1]);
    }
  }

  // ---------------------------------------------------------------- exactly when caches are invisible

  function RepliesFrom(w: World, s: ProverState, pks: map<string, Pk>, vks: map<string, Vk>, ops: seq<Op>): seq<Reply> {
    Run(w, Sys(s.(pks := pks), vks), ops).replies
  }

  /** No run can tell two sound starting caches apart. */
  ghost predicate CachesInvisible(w: World, w': World, s: ProverState) {
    forall pks, pks', vks, vks', ops ::
      SoundPks(w, pks) && SoundPks(w, pks') && SoundVks(w, vks) && SoundVks(w, vks') ==>
        RepliesFrom(w, s, pks, vks, ops) == RepliesFrom(w', s, pks', vks', ops)
  }

  /** Over all sound starting caches and all runs, caches (and OPT_MEM) are invisible iff every readable saved proof
      on the starting disk has a harmless name. */
  lemma CachesInvisibleIff(w: World, w': World, s: ProverState)
    requires KeygenLaw(w.lib) && RoundTrips(w.lib.proofJson) && SameButOptMem(w, w')
    ensures CachesInvisible(w, w', s) <==> HarmlessDisk(w, ALL_CIRCUITS, s.disk)
  {
    if HarmlessDisk(w, ALL_CIRCUITS, s.disk) {
      forall pks, pks', vks, vks', ops
        | SoundPks(w, pks) && SoundPks(w, pks') && SoundVks(w, vks) && SoundVks(w, vks')
        ensures RepliesFrom(w, s, pks, vks, ops) == RepliesFrom(w', s, pks', vks', ops)
      {
        HarmlessStartAgrees(w, w', s, pks, pks', vks, vks');
        RunsAgree(w, w', Sys(s.(pks := pks), vks), Sys(s.(pks := pks'), vks'), ops);
      }
    }
    if CachesInvisible(w, w', s) {
      forall dir, c | Readable(w, s.disk, dir, c)
        ensures NameIsHarmless(w, ALL_CIRCUITS, c, SavedProof(w, s.disk, dir, c).value.name)
      {
        InvisibleMeansHarmless(w, w', s, dir, c);
      }
    }
  }

  lemma HarmlessStartAgrees(w: World, w': World, s: ProverState, pks: map<string, Pk>, pks': map<string, Pk>,
                            vks: map<string, Vk>, vks': map<string, Vk>)
    requires SameButOptMem(w, w') && HarmlessDisk(w, ALL_CIRCUITS, s.disk)
    requires SoundPks(w, pks) && SoundPks(w, pks') && SoundVks(w, vks) && SoundVks(w, vks')
    ensures SystemsAgree(w, w', ALL_CIRCUITS, Sys(s.(pks := pks), vks), Sys(s.(pks := pks'), vks'))
  {
    SoundnessIgnoresOptMem(w, w', pks');
    forall c { KeysIgnoreOptMem(w, w', c); }
    EveryCircuitListed();
  }

  lemma ReloadReply(w: World, sys: Sys, c: TargetCircuit)
    requires Readable(w, sys.prover.disk, sys.prover.debugDir, c)
    ensures Apply(w, sys, LoadOp(c, false)).reply
            == var proof := SavedProof(w, sys.prover.disk, sys.prover.debugDir, c).value;
               CircuitReply(ConvertedWith(w, proof, VkForConversion(w, sys.prover.pks, c, proof.name)))
  {
  }

  /** Choosing the directory and reloading the proof there, from a given cache. */
  lemma ReloadRun(w: World, s: ProverState, pks: map<string, Pk>, dir: string, c: TargetCircuit)
    requires Readable(w, s.disk, dir, c)
    ensures var proof := SavedProof(w, s.disk, dir, c).value;
            RepliesFrom(w, s, pks, map[], [SetDebugDirOp(dir), LoadOp(c, false)])
            == [NoReply, CircuitReply(ConvertedWith(w, proof, VkForConversion(w, pks, c, proof.name)))]
  {
    var sys := Sys(s.(pks := pks), map[]);
    RunSnoc(w, sys, [], SetDebugDirOp(dir));
    RunSnoc(w, sys, [SetDebugDirOp(dir)], LoadOp(c, false));
    assert [] + [SetDebugDirOp(dir)] == [SetDebugDirOp(dir)];
    assert [SetDebugDirOp(dir)] + [LoadOp(c, false)] == [SetDebugDirOp(dir), LoadOp(c, false)];
    ReloadReply(w, Sys(s.(pks := pks, debugDir := dir), map[]), c);
  }

  lemma InvisibleMeansHarmless(w: World, w': World, s: ProverState, dir: string, c: TargetCircuit)
    requires KeygenLaw(w.lib) && SameButOptMem(w, w') && CachesInvisible(w, w', s) && Readable(w, s.disk, dir, c)
    ensures NameIsHarmless(w, ALL_CIRCUITS, c, SavedProof(w, s.disk, dir, c).value.name)
  {
    var name := SavedProof(w, s.disk, dir, c).value.name;
    var ops := [SetDebugDirOp(dir), LoadOp(c, false)];
    forall d | d in ALL_CIRCUITS && d != c && d.Name() == name && CircuitKey(w, d).Ok?
      ensures CircuitVk(w, c) == Ok(w.lib.vkOf(CircuitKey(w, d).value))
    {
      var pks := map[name := CircuitKey(w, d).value];
      assert SoundPks(w, pks);
      assert RepliesFrom(w, s, pks, map[], ops) == RepliesFrom(w', s, map[], map[], ops);
      ReloadRun(w, s, pks, dir, c);
      ReloadRun(w', s, map[], dir, c);
      KeysIgnoreOptMem(w, w', c);
    }
  }

  // ---------------------------------------------------------------- exactly when eviction is invisible

  /** The same world with OPT_MEM off. */
  function WithoutEviction(w: World): World {
    w.(cfg := w.cfg.(optMem := false))
  }

  /** Some traces take the circuit as far as its key, which is then cached. */
  ghost predicate Cachable(w: World, c: TargetCircuit) {
    exists traces :: Cached(w, c, traces)
  }

  /** Some traces can be proved. */
  ghost predicate Provable(w: World, c: TargetCircuit) {
    exists traces :: ProofOf(w, c, traces).Ok?
  }

  /** A run can cache the circuit's key and then evict it, by proving it or by reloading a saved proof of it. */
  ghost predicate Evictable(w: World, disk: Disk, c: TargetCircuit) {
    Cachable(w, c) && (Provable(w, c) || exists dir :: Readable(w, disk, dir, c))
  }

  ghost function EvictableCircuits(w: World, disk: Disk): set<TargetCircuit> {
    set c | c in ALL_CIRCUITS && Evictable(w, disk, c)
  }

  /** From empty caches no run can tell a prover that evicts from one that does not. */
  ghost predicate EvictionInvisible(w: World, s: ProverState) {
    forall ops :: RepliesFrom(w, s, map[], map[], ops) == RepliesFrom(WithoutEviction(w), s, map[], map[], ops)
  }

  /** What a run from empty caches on `disk` can have cached and saved. */
  ghost predicate Explained(w: World, disk: Disk, sys: Sys) {
    && SoundPks(w, sys.prover.pks)
    && (forall c: TargetCircuit :: c.Name() in sys.prover.pks ==> Cachable(w, c))
    && (forall dir, c :: Readable(w, sys.prover.disk, dir, c) ==>
          Provable(w, c) || exists at :: Readable(w, disk, at, c))
  }

  lemma CreationExplained(w: World, s: ProverState, c: TargetCircuit, traces: seq<BlockTrace>)
    requires SoundPks(w, s.pks) && forall d: TargetCircuit :: d.Name() in s.pks ==> Cachable(w, d)
    ensures forall d: TargetCircuit :: d.Name() in CreateProof(w, s, c, traces).state.pks ==> Cachable(w, d)
  {
    CreateProofCaches(w, s, c, traces);
    forall d: TargetCircuit | d.Name() in CreateProof(w, s, c, traces).state.pks ensures Cachable(w, d) {
      NamesDistinctAndPlain(c, d);
    }
  }

  lemma ConvertShrinks(w: World, s: ProverState, c: TargetCircuit, proof: TargetCircuitProof)
    ensures Convert(w, s, c, proof).state.pks.Keys <= s.pks.Keys
  {
  }

  lemma ProvingExplained(w: World, s: ProverState, c: TargetCircuit, traces: seq<BlockTrace>)
    requires SoundPks(w, s.pks) && forall d: TargetCircuit :: d.Name() in s.pks ==> Cachable(w, d)
    ensures forall d: TargetCircuit :: d.Name() in Prove(w, s, c, traces).state.pks ==> Cachable(w, d)
  {
    CreationExplained(w, s, c, traces);
    var created := CreateProof(w, s, c, traces);
    if created.result.Ok? {
      ConvertShrinks(w, created.state, c, created.result.value);
    }
  }

  lemma StepCachesExplained(w: World, disk: Disk, sys: Sys, op: Op)
    requires Explained(w, disk, sys)
    ensures forall c: TargetCircuit :: c.Name() in Apply(w, sys, op).sys.prover.pks ==> Cachable(w, c)
  {
    match op
    case CreateProofOp(c, traces) => CreationExplained(w, sys.prover, c, traces);
    case ProveOp(c, traces) => ProvingExplained(w, sys.prover, c, traces);
    case AggregateBatchOp(traces) =>
      var proved := Prove(w, sys.prover, SuperCircuit, traces);
      ProvingExplained(w, sys.prover, SuperCircuit, traces);
      if proved.result.Ok? {
        AggregateFrame(w, proved.state, [proved.result.value]);
      }
    case LoadOp(c, check) =>
      var saved := SavedProof(w, sys.prover.disk, sys.prover.debugDir, c);
      if saved.Ok? {
        ConvertShrinks(w, sys.prover, c, saved.value);
      }
    case AggregateOp(results) => AggregateFrame(w, sys.prover, results);
    case VerifyOp(c, proof) =>
    case SetDebugDirOp(dir) =>
  }

  lemma StepExplained(w: World, disk: Disk, sys: Sys, op: Op)
    requires RoundTrips(w.lib.proofJson) && Explained(w, disk, sys)
    ensures Explained(w, disk, Apply(w, sys, op).sys)
  {
    StepKeepsSoundPks(w, sys, op);
    StepCachesExplained(w, disk, sys, op);
    var disk' := Apply(w, sys, op).sys.prover.disk;
    forall dir, c | Readable(w, disk', dir, c)
      ensures Provable(w, c) || exists at :: Readable(w, disk, at, c)
    {
      StepEffectOnSaved(w, sys, op, dir, c);
      if SavesAt(w, sys.prover, op, dir, c) {
        SavedProofIsOwn(w, sys, op, dir, c);
      } else {
        assert Readable(w, sys.prover.disk, dir, c);
      }
    }
  }

  lemma ProvedIsEvictable(w: World, disk: Disk, s: ProverState, c: TargetCircuit, traces: seq<BlockTrace>)
    requires SoundPks(w, s.pks) && Prove(w, s, c, traces).result.Ok?
    ensures Evictable(w, disk, c)
  {
    CreateProofExact(w, s, c, traces);
    assert Cached(w, c, traces) && ProofOf(w, c, traces).Ok?;
  }

  lemma ExplainedEvictsWithin(w: World, w': World, disk: Disk, sys: Sys, op: Op)
    requires Explained(w, disk, sys)
    ensures EvictsWithin(w, w', EvictableCircuits(w, disk), sys, op)
  {
    EveryCircuitListed();
    match op
    case ProveOp(c, traces) =>
      if Prove(w, sys.prover, c, traces).result.Ok? {
        ProvedIsEvictable(w, disk, sys.prover, c, traces);
      }
    case AggregateBatchOp(traces) =>
      if Prove(w, sys.prover, SuperCircuit, traces).result.Ok? {
        ProvedIsEvictable(w, disk, sys.prover, SuperCircuit, traces);
      }
    case _ =>
  }

  lemma {:induction false} EvictionRunsAgree(w: World, sys: Sys, ops: seq<Op>)
    requires KeygenLaw(w.lib) && RoundTrips(w.lib.proofJson)
    requires sys.prover.pks == map[] && sys.vks == map[]
    requires HarmlessDisk(w, EvictableCircuits(w, sys.prover.disk), sys.prover.disk)
    ensures Run(WithoutEviction(w), sys, ops).replies == Run(w, sys, ops).replies
    ensures SystemsAgree(w, WithoutEviction(w), EvictableCircuits(w, sys.prover.disk),
                         Run(w, sys, ops).sys, Run(WithoutEviction(w), sys, ops).sys)
    ensures Explained(w, sys.prover.disk, Run(w, sys, ops).sys)
  {
    if ops != [] {
      var init, op := ops[..|ops| - 1], ops[|ops| - 1];
      var w', some := WithoutEviction(w), EvictableCircuits(w, sys.prover.disk);
      EvictionRunsAgree(w, sys, init);
      ExplainedEvictsWithin(w, w', sys.prover.disk, Run(w, sys, init).sys, op);
      StepAgrees(w, w', some, Run(w, sys, init).sys, Run(w', sys, init).sys, op);
      StepExplained(w, sys.prover.disk, Run(w, sys, init).sys, op);
    }
  }

  /** What evicts a cached key of `d`, in the directory `at`: proving it without saving, or reloading a proof of it. */
  ghost predicate EvictsKey(w: World, disk: Disk, d: TargetCircuit, at: string, op: Op) {
    || (at == "" && op.ProveOp? && op.c == d && ProofOf(w, d, op.traces).Ok?)
    || (op == LoadOp(d, false) && Readable(w, disk, at, d))
  }

  /** Caching the key of `d` without saving a proof, in a prover that starts without keys. */
  lemma CacheKey(w: World, s: ProverState, d: TargetCircuit, traces: seq<BlockTrace>, at: string)
    requires s.pks == map[] && Cached(w, d, traces)
    ensures Run(w, Sys(s, map[]), [SetDebugDirOp(""), CreateProofOp(d, traces), SetDebugDirOp(at)]).sys
            == Sys(s.(debugDir := at, pks := map[d.Name() := CircuitKey(w, d).value]), map[])
  {
    var op0, op1, op2 := SetDebugDirOp(""), CreateProofOp(d, traces), SetDebugDirOp(at);
    CacheUnsaved(w, s, d, traces);
    RunSnoc(w, Sys(s, map[]), [op0, op1], op2);
    assert [op0, op1] + [op2] == [op0, op1, op2];
  }

  lemma CacheUnsaved(w: World, s: ProverState, d: TargetCircuit, traces: seq<BlockTrace>)
    requires s.pks == map[] && Cached(w, d, traces)
    ensures Run(w, Sys(s, map[]), [SetDebugDirOp(""), CreateProofOp(d, traces)]).sys
            == Sys(s.(debugDir := "", pks := map[d.Name() := CircuitKey(w, d).value]), map[])
  {
    var op0, op1 := SetDebugDirOp(""), CreateProofOp(d, traces);
    RunSnoc(w, Sys(s, map[]), [], op0);
    RunSnoc(w, Sys(s, map[]), [op0], op1);
    assert [] + [op0] == [op0] && [op0] + [op1] == [op0, op1];
    CacheOnce(w, s.(debugDir := ""), d, traces);
  }

  lemma CacheOnce(w: World, s: ProverState, d: TargetCircuit, traces: seq<BlockTrace>)
    requires s.pks == map[] && s.debugDir == "" && Cached(w, d, traces)
    ensures Apply(w, Sys(s, map[]), CreateProofOp(d, traces)).sys
            == Sys(s.(pks := map[d.Name() := CircuitKey(w, d).value]), map[])
  {
    CreateProofExact(w, s, d, traces);
  }

  /** Caching the key of `d` and then evicting it. */
  lemma CacheThenEvict(w: World, s: ProverState, d: TargetCircuit, traces: seq<BlockTrace>, at: string, evict: Op)
    requires KeygenLaw(w.lib) && RoundTrips(w.lib.matrixJson)
    requires s.pks == map[] && Cached(w, d, traces) && EvictsKey(w, s.disk, d, at, evict)
    ensures var ops := [SetDebugDirOp(""), CreateProofOp(d, traces), SetDebugDirOp(at), evict];
            var kept := if w.cfg.optMem then map[] else map[d.Name() := CircuitKey(w, d).value];
            Run(w, Sys(s, map[]), ops).sys == Sys(s.(debugDir := at, pks := kept), map[])
  {
    var ops := [SetDebugDirOp(""), CreateProofOp(d, traces), SetDebugDirOp(at)];
    CacheKey(w, s, d, traces, at);
    RunSnoc(w, Sys(s, map[]), ops, evict);
    assert ops + [evict] == [SetDebugDirOp(""), CreateProofOp(d, traces), SetDebugDirOp(at), evict];
    EvictOnce(w, s.(debugDir := at, pks := map[d.Name() := CircuitKey(w, d).value]), d, at, evict);
  }

  lemma EvictOnce(w: World, s: ProverState, d: TargetCircuit, at: string, evict: Op)
    requires KeygenLaw(w.lib) && RoundTrips(w.lib.matrixJson)
    requires CircuitKey(w, d).Ok? && s.pks == map[d.Name() := CircuitKey(w, d).value] && s.debugDir == at
    requires EvictsKey(w, s.disk, d, at, evict)
    ensures Apply(w, Sys(s, map[]), evict).sys == Sys(s.(pks := if w.cfg.optMem then map[] else s.pks), map[])
  {
    if evict.ProveOp? {
      EvictByProving(w, s, d, evict.traces);
    } else {
      var proof := SavedProof(w, s.disk, at, d).value;
      KeysAgree(w, d);
      ConvertState(w, s, d, proof);
    }
  }

  lemma EvictByProving(w: World, s: ProverState, d: TargetCircuit, traces: seq<BlockTrace>)
    requires KeygenLaw(w.lib) && RoundTrips(w.lib.matrixJson)
    requires CircuitKey(w, d).Ok? && s.pks == map[d.Name() := CircuitKey(w, d).value] && s.debugDir == ""
    requires ProofOf(w, d, traces).Ok?
    ensures Prove(w, s, d, traces).state == s.(pks := if w.cfg.optMem then map[] else s.pks)
  {
    var proof := ProofOf(w, d, traces).value;
    CreateProofExact(w, s, d, traces);
    assert CreateProof(w, s, d, traces) == Step(s, Ok(proof));
    ConvertOwnName(w, s, d, proof);
    KeysAgree(w, d);
    FrMatrixRoundTrip(Prepare(w, d, traces).value.instance);
    ConvertState(w, s, d, proof);
  }

  lemma ReloadAfter(w: World, sys: Sys, prefix: seq<Op>, dir: string, c: TargetCircuit)
    requires Readable(w, Run(w, sys, prefix).sys.prover.disk, dir, c)
    ensures var s := Run(w, sys, prefix).sys.prover;
            var replies := Run(w, sys, (prefix + [SetDebugDirOp(dir)]) + [LoadOp(c, false)]).replies;
            var proof := SavedProof(w, s.disk, dir, c).value;
            replies[|replies| - 1]
            == CircuitReply(ConvertedWith(w, proof, VkForConversion(w, s.pks, c, proof.name)))
  {
    RunSnoc(w, sys, prefix, SetDebugDirOp(dir));
    RunSnoc(w, sys, prefix + [SetDebugDirOp(dir)], LoadOp(c, false));
    ReloadAt(w, Run(w, sys, prefix).sys, dir, c);
  }

  lemma ReloadAt(w: World, before: Sys, dir: string, c: TargetCircuit)
    requires Readable(w, before.prover.disk, dir, c)
    ensures var proof := SavedProof(w, before.prover.disk, dir, c).value;
            Apply(w, Apply(w, before, SetDebugDirOp(dir)).sys, LoadOp(c, false)).reply
            == CircuitReply(ConvertedWith(w, proof, VkForConversion(w, before.prover.pks, c, proof.name)))
  {
    ReloadReply(w, before.(prover := before.prover.(debugDir := dir)), c);
  }

  /** Cache the key of `d`, evict it, and reload the proof saved for `c`. */
  function EvictionProbe(dir: string, c: TargetCircuit, d: TargetCircuit, traces: seq<BlockTrace>, at: string,
                         evict: Op): seq<Op>
  {
    [SetDebugDirOp(""), CreateProofOp(d, traces), SetDebugDirOp(at), evict] + [SetDebugDirOp(dir)] + [LoadOp(c, false)]
  }

  lemma ProbeReply(w: World, s: ProverState, dir: string, c: TargetCircuit, d: TargetCircuit,
                   traces: seq<BlockTrace>, at: string, evict: Op)
    requires KeygenLaw(w.lib) && RoundTrips(w.lib.matrixJson)
    requires Readable(w, s.disk, dir, c) && SavedProof(w, s.disk, dir, c).value.name == d.Name()
    requires Cached(w, d, traces) && EvictsKey(w, s.disk, d, at, evict)
    ensures var replies := RepliesFrom(w, s, map[], map[], EvictionProbe(dir, c, d, traces, at, evict));
            var vk := if w.cfg.optMem then CircuitVk(w, c) else Ok(w.lib.vkOf(CircuitKey(w, d).value));
            |replies| == 6 && replies[5] == CircuitReply(ConvertedWith(w, SavedProof(w, s.disk, dir, c).value, vk))
  {
    var prefix := [SetDebugDirOp(""), CreateProofOp(d, traces), SetDebugDirOp(at), evict];
    CacheThenEvict(w, s.(pks := map[]), d, traces, at, evict);
    ReloadAfter(w, Sys(s.(pks := map[]), map[]), prefix, dir, c);
  }

  lemma EvictsKeyIgnoresOptMem(w: World, w': World, disk: Disk, d: TargetCircuit, at: string, evict: Op)
    requires SameButOptMem(w, w') && EvictsKey(w, disk, d, at, evict)
    ensures EvictsKey(w', disk, d, at, evict)
  {
    if evict.ProveOp? {
      ProofIgnoresOptMem(w, w', d, evict.traces);
    }
  }

  lemma EvictingOpExists(w: World, disk: Disk, d: TargetCircuit) returns (at: string, evict: Op)
    requires Evictable(w, disk, d)
    ensures EvictsKey(w, disk, d, at, evict)
  {
    if Provable(w, d) {
      var traces :| ProofOf(w, d, traces).Ok?;
      at, evict := "", ProveOp(d, traces);
    } else {
      at :| Readable(w, disk, at, d);
      evict := LoadOp(d, false);
    }
  }

  /** A readable proof saved for `c` under the name of another, evictable circuit `d` makes eviction visible whenever
      the two circuits' keys differ: cache `d`'s key, evict it, reload the proof. */
  lemma EvictionShows(w: World, s: ProverState, dir: string, c: TargetCircuit, d: TargetCircuit) returns (ops: seq<Op>)
    requires KeygenLaw(w.lib) && RoundTrips(w.lib.matrixJson) && w.cfg.optMem
    requires Readable(w, s.disk, dir, c) && SavedProof(w, s.disk, dir, c).value.name == d.Name() && d != c
    requires Evictable(w, s.disk, d) && CircuitVk(w, c) != Ok(w.lib.vkOf(CircuitKey(w, d).value))
    ensures RepliesFrom(w, s, map[], map[], ops) != RepliesFrom(WithoutEviction(w), s, map[], map[], ops)
  {
    var off := WithoutEviction(w);
    var traces :| Cached(w, d, traces);
    var at, evict := EvictingOpExists(w, s.disk, d);
    ops := EvictionProbe(dir, c, d, traces, at, evict);
    ProbeReply(w, s, dir, c, d, traces, at, evict);
    ProofIgnoresOptMem(w, off, d, traces);
    KeysIgnoreOptMem(w, off, d);
    EvictsKeyIgnoresOptMem(w, off, s.disk, d, at, evict);
    ProbeReply(off, s, dir, c, d, traces, at, evict);
  }

  /** From empty caches and over all runs, OPT_MEM is invisible iff no readable saved proof carries the name of another
      circuit that can be cached and evicted and whose key differs. */
  lemma EvictionInvisibleIff(w: World, s: ProverState)
    requires KeygenLaw(w.lib) && RoundTrips(w.lib.proofJson) && RoundTrips(w.lib.matrixJson) && w.cfg.optMem
    ensures EvictionInvisible(w, s) <==> HarmlessDisk(w, EvictableCircuits(w, s.disk), s.disk)
  {
    if HarmlessDisk(w, EvictableCircuits(w, s.disk), s.disk) {
      forall ops ensures RepliesFrom(w, s, map[], map[], ops) == RepliesFrom(WithoutEviction(w), s, map[], map[], ops) {
        EvictionRunsAgree(w, Sys(s.(pks := map[]), map[]), ops);
      }
    }
    if !HarmlessDisk(w, EvictableCircuits(w, s.disk), s.disk) {
      var dir, c :| Readable(w, s.disk, dir, c)
                 && !NameIsHarmless(w, EvictableCircuits(w, s.disk), c, SavedProof(w, s.disk, dir, c).value.name);
      var d :| d in EvictableCircuits(w, s.disk) && d != c && d.Name() == SavedProof(w, s.disk, dir, c).value.name
            && CircuitKey(w, d).Ok? && CircuitVk(w, c) != Ok(w.lib.vkOf(CircuitKey(w, d).value));
      var ops := EvictionShows(w, s, dir, c, d);
    }
  }
}
