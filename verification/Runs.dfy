/** Whole runs of a prover and a verifier that share their parameters. */
module Runs {
  import opened Common
  import opened Traces
  import opened FileStore
  import opened Backend
  import opened Verification
  import opened Proving

  datatype Sys = Sys(prover: ProverState, vks: map<string, Vk>)

  datatype Op =
    | CreateProofOp(c: TargetCircuit, traces: seq<BlockTrace>)
    | ProveOp(c: TargetCircuit, traces: seq<BlockTrace>)
    | LoadOp(c: TargetCircuit, check: bool)
    | AggregateBatchOp(traces: seq<BlockTrace>)
    | AggregateOp(results: seq<ProvedCircuit>)
    | VerifyOp(c: TargetCircuit, proof: TargetCircuitProof)
    | SetDebugDirOp(dir: string)

  datatype Reply =
    | ProofReply(proof: Outcome<TargetCircuitProof>)
    | CircuitReply(circuit: Outcome<ProvedCircuit>)
    | AggReply(agg: Outcome<AggCircuitProof>)
    | VerdictReply(verdict: Outcome<()>)
    | NoReply

  datatype Turn = Turn(sys: Sys, reply: Reply)

  function Apply(w: World, sys: Sys, op: Op): Turn {
    match op
    case CreateProofOp(c, traces) =>
      var step := CreateProof(w, sys.prover, c, traces);
      Turn(sys.(prover := step.state), ProofReply(step.result))
    case ProveOp(c, traces) =>
      var step := Prove(w, sys.prover, c, traces);
      Turn(sys.(prover := step.state), CircuitReply(step.result))
    case LoadOp(c, check) =>
      var step := DebugLoad(w, sys.prover, w, sys.vks, check, c);
      Turn(Sys(step.state, step.vks), CircuitReply(step.result))
    case AggregateBatchOp(traces) =>
      var step := AggregateBatch(w, sys.prover, traces);
      Turn(sys.(prover := step.state), AggReply(step.result))
    case AggregateOp(results) =>
      var step := Aggregate(w, sys.prover, results);
      Turn(sys.(prover := step.state), AggReply(step.result))
    case VerifyOp(c, proof) =>
      var step := VerifyTarget(w, sys.vks, c, proof);
      Turn(sys.(vks := step.vks), VerdictReply(step.result))
    case SetDebugDirOp(dir) => Turn(sys.(prover := sys.prover.(debugDir := dir)), NoReply)
  }

  datatype History = History(sys: Sys, replies: seq<Reply>)

  /** A run, by its last operation. Failed operations do not end it. */
  function Run(w: World, sys: Sys, ops: seq<Op>): (h: History)
    ensures |h.replies| == |ops|
  {
    if ops == [] then History(sys, [])
    else
      var before := Run(w, sys, ops[..|ops| - 1]);
      var turn := Apply(w, before.sys, ops[|ops| - 1]);
      History(turn.sys, before.replies + [turn.reply])
  }

  /** The reply to operation `i` is what it gives in the state the operations before it lead to. */
  lemma {:induction false} ReplyAt(w: World, sys: Sys, ops: seq<Op>, i: nat)
    requires i < |ops|
    ensures Run(w, sys, ops).replies[i] == Apply(w, Run(w, sys, ops[..i]).sys, ops[i]).reply
  {
    var init := ops[..|ops| - 1];
    if i < |init| {
      assert init[..i] == ops[..i] && init[i] == ops[i];
      ReplyAt(w, sys, init, i);
      assert Run(w, sys, ops).replies[i] == Run(w, sys, init).replies[i];
    }
  }

  // ---------------------------------------------------------------- saved files

  lemma DebugPathsDistinct(d1: string, c1: TargetCircuit, d2: string, c2: TargetCircuit)
    ensures ProofPath(d1, c1) == ProofPath(d2, c2) <==> d1 == d2 && c1 == c2
    ensures VkPath(d1, c1) != ProofPath(d2, c2)
  {
    NamesDistinctAndPlain(c1, c2);
    NamesDistinctAndPlain(c2, c1);
    var n1, n2 := c1.Name() + "_proof.json", c2.Name() + "_proof.json";
    if ProofPath(d1, c1) == ProofPath(d2, c2) {
      JoinInjective(d1, n1, d2, n2);
      assert n1[..|n1| - 11] == c1.Name() && n2[..|n2| - 11] == c2.Name();
    }
    var vk, pf := VkPath(d1, c1), ProofPath(d2, c2);
    assert vk[|vk| - 1] == 'k' && pf[|pf| - 1] == 'n';
  }

  /** What saving does to the saved proofs: nothing on failure, else one entry changes. */
  lemma SaveDebugEffect(w: World, dir: string, disk: Disk, c: TargetCircuit, pk: Pk, proof: TargetCircuitProof,
                        at: string, d: TargetCircuit)
    requires RoundTrips(w.lib.proofJson)
    ensures var saved := SaveDebug(w, dir, disk, c, pk, proof);
            SavedProof(w, saved.disk, at, d)
            == if saved.result.Ok? && dir != "" && at == dir && d == c then Ok(proof) else SavedProof(w, disk, at, d)
  {
    DebugPathsDistinct(dir, c, at, d);
    DebugFilesCreated(w, dir, disk, c, pk, proof);
  }

  /** Saving creates both files or fails. */
  lemma DebugFilesCreated(w: World, dir: string, disk: Disk, c: TargetCircuit, pk: Pk, proof: TargetCircuitProof)
    ensures var saved := SaveDebug(w, dir, disk, c, pk, proof);
            if dir == "" then saved == Stored(disk, Ok(proof))
            else
              && saved.result == (if CanCreate(disk, VkPath(dir, c)) && CanCreate(disk, ProofPath(dir, c))
                                  then Ok(proof) else Panic)
              && (saved.result.Ok? ==>
                  && At(saved.disk, VkPath(dir, c)) == Some(File(w.lib.writeVk(w.lib.vkOf(pk))))
                  && At(saved.disk, ProofPath(dir, c)) == Some(File(w.lib.proofJson.encode(proof))))
              && forall q :: q != VkPath(dir, c) && (q != ProofPath(dir, c) || !saved.result.Ok?) ==>
                   At(saved.disk, q) == At(disk, q)
  {
    NamesDistinctAndPlain(c, c);
    DebugPathsDistinct(dir, c, dir, c);
    ParentOfJoin(dir, c.Name() + "_proof.json");
    CreateBothExact(disk, VkPath(dir, c), w.lib.writeVk(w.lib.vkOf(pk)),
                    ProofPath(dir, c), w.lib.proofJson.encode(proof));
  }

  /** Successful saving leaves exactly the key and the proof of the circuit in the directory, all else unchanged. */
  lemma DebugFilesWritten(w: World, dir: string, disk: Disk, c: TargetCircuit, pk: Pk, proof: TargetCircuitProof)
    requires dir != "" && SaveDebug(w, dir, disk, c, pk, proof).result.Ok?
    ensures var disk' := SaveDebug(w, dir, disk, c, pk, proof).disk;
            var vkPath, proofPath := dir + "/" + c.Name() + ".vk", dir + "/" + c.Name() + "_proof.json";
            && ReadFile(disk', vkPath) == Ok(w.lib.writeVk(w.lib.vkOf(pk)))
            && ReadFile(disk', proofPath) == Ok(w.lib.proofJson.encode(proof))
            && forall q :: q != vkPath && q != proofPath ==> At(disk', q) == At(disk, q)
  {
    DebugFilesCreated(w, dir, disk, c, pk, proof);
    assert dir + "/" + c.Name() + ".vk" == VkPath(dir, c);
    assert dir + "/" + c.Name() + "_proof.json" == ProofPath(dir, c);
  }

  /** A file that cannot be created is a panic; the key file, which comes first, then stays if it could be. */
  lemma DebugFilesFailure(w: World, dir: string, disk: Disk, c: TargetCircuit, pk: Pk, proof: TargetCircuitProof)
    requires dir != "" && !SaveDebug(w, dir, disk, c, pk, proof).result.Ok?
    ensures var vkPath := dir + "/" + c.Name() + ".vk";
            SaveDebug(w, dir, disk, c, pk, proof)
            == if CanCreate(disk, vkPath) then
                 Stored(disk[vkPath := File(w.lib.writeVk(w.lib.vkOf(pk)))], Panic)
               else Stored(disk, Panic)
  {
    assert dir + "/" + c.Name() + ".vk" == VkPath(dir, c);
  }

  // ---------------------------------------------------------------- results without caches

  /** Both debug files of a circuit can be created, or none is wanted. */
  predicate DebugWritable(s: ProverState, c: TargetCircuit) {
    s.debugDir == "" || (CanCreate(s.disk, VkPath(s.debugDir, c)) && CanCreate(s.disk, ProofPath(s.debugDir, c)))
  }

  lemma SaveDebugResult(w: World, s: ProverState, c: TargetCircuit, pk: Pk, proof: TargetCircuitProof)
    ensures SaveDebug(w, s.debugDir, s.disk, c, pk, proof).result == if DebugWritable(s, c) then Ok(proof) else Panic
  {
    DebugFilesCreated(w, s.debugDir, s.disk, c, pk, proof);
  }

  lemma EnsurePkExact(w: World, s: ProverState, c: TargetCircuit)
    requires SoundPks(w, s.pks)
    ensures EnsurePk(w, s, c)
            == match CircuitKey(w, c)
               case Ok(pk) => Step(s.(pks := s.pks[c.Name() := pk]), Ok(pk))
               case failed => Step(s, failed)
  {
    if c.Name() in s.pks {
      SoundLookup(w, s.pks, c);
      assert s.pks[c.Name() := s.pks[c.Name()]] == s.pks;
    }
  }

  lemma AssembleAndSaveExact(w: World, s: ProverState, c: TargetCircuit, pk: Pk, prep: Prepared)
    ensures var assembled := Assemble(w, c, pk, prep);
            AssembleAndSave(w, s, c, pk, prep)
            == if assembled.Ok? then
                 Step(s.(disk := SaveDebug(w, s.debugDir, s.disk, c, pk, assembled.value).disk),
                      if DebugWritable(s, c) then assembled else Panic)
               else Step(s, assembled)
  {
    var assembled := Assemble(w, c, pk, prep);
    if assembled.Ok? {
      SaveDebugResult(w, s, c, pk, assembled.value);
    }
  }

  /** A created proof is a function of parameters, rng, circuit and traces; the cache gains the circuit's own key. */
  lemma CreateProofExact(w: World, s: ProverState, c: TargetCircuit, traces: seq<BlockTrace>)
    requires SoundPks(w, s.pks)
    ensures var step := CreateProof(w, s, c, traces);
            && step.result == (if ProofOf(w, c, traces).Ok? && !DebugWritable(s, c) then Panic
                               else ProofOf(w, c, traces))
            && step.state.pks == (if Prepare(w, c, traces).Ok? && CircuitKey(w, c).Ok?
                                  then s.pks[c.Name() := CircuitKey(w, c).value] else s.pks)
            && SoundPks(w, step.state.pks)
            && step.state.disk == (if ProofOf(w, c, traces).Ok?
                                   then SaveDebug(w, s.debugDir, s.disk, c, CircuitKey(w, c).value,
                                                  ProofOf(w, c, traces).value).disk
                                   else s.disk)
            && step.state.aggPk == s.aggPk && step.state.debugDir == s.debugDir
  {
    var prepared, key := Prepare(w, c, traces), CircuitKey(w, c);
    EnsurePkExact(w, s, c);
    if prepared.Ok? && key.Ok? {
      var s' := s.(pks := s.pks[c.Name() := key.value]);
      CachingKeepsSound(w, s.pks, c, key.value);
      AssembleAndSaveExact(w, s', c, key.value, prepared.value);
      assert DebugWritable(s', c) == DebugWritable(s, c);
      assert CreateProof(w, s, c, traces) == AssembleAndSave(w, s', c, key.value, prepared.value);
    }
  }

  function ConvertedWith(w: World, proof: TargetCircuitProof, key: Outcome<Vk>): Outcome<ProvedCircuit> {
    var instance :- ReadInstances(w, proof);
    var vk :- key;
    Ok(ProvedFrom(proof, vk, instance))
  }

  /** The conversion of a proof with the key generated afresh. */
  function Converted(w: World, c: TargetCircuit, proof: TargetCircuitProof): Outcome<ProvedCircuit> {
    ConvertedWith(w, proof, CircuitVk(w, c))
  }

  // ---------------------------------------------------------------- which names are harmless

  /** All implementors of `TargetCircuit`. */
  const ALL_CIRCUITS: set<TargetCircuit> := {SuperCircuit, EvmCircuit, StateCircuit, ZktrieCircuit, PoseidonCircuit}

  lemma EveryCircuitListed()
    ensures forall c: TargetCircuit :: c in ALL_CIRCUITS
  {
    forall c: TargetCircuit ensures c in ALL_CIRCUITS {
      match c case SuperCircuit => case EvmCircuit => case StateCircuit => case ZktrieCircuit => case PoseidonCircuit =>
    }
  }

  /** Converting a proof of this name for `c` gives `c`'s own verifying key, whichever keys of the circuits in `some`
      are cached: the name is `c`'s, or names no such circuit that has a key, or that key carries the same one. */
  ghost predicate NameIsHarmless(w: World, some: set<TargetCircuit>, c: TargetCircuit, name: string) {
    forall d :: d in some && d != c && d.Name() == name && CircuitKey(w, d).Ok? ==>
      CircuitVk(w, c) == Ok(w.lib.vkOf(CircuitKey(w, d).value))
  }

  lemma OwnNameIsHarmless(w: World, some: set<TargetCircuit>, c: TargetCircuit)
    ensures NameIsHarmless(w, some, c, c.Name())
  {
    forall d | d in some && d != c ensures d.Name() != c.Name() {
      NamesDistinctAndPlain(c, d);
    }
  }

  lemma HarmlessLookup(w: World, some: set<TargetCircuit>, pks: map<string, Pk>, c: TargetCircuit, name: string)
    requires KeygenLaw(w.lib) && SoundPks(w, pks) && NameIsHarmless(w, some, c, name)
    requires name in pks ==> exists d :: d in some && d.Name() == name
    ensures VkForConversion(w, pks, c, name) == CircuitVk(w, c)
  {
    if name in pks {
      var d :| d in some && d.Name() == name;
      SoundLookup(w, pks, d);
      if d == c {
        KeysAgree(w, c);
      }
    }
  }

  lemma CachedNamesAreCircuits(w: World, pks: map<string, Pk>, name: string)
    requires SoundPks(w, pks) && name in pks
    ensures exists d :: d in ALL_CIRCUITS && d.Name() == name && CircuitKey(w, d) == Ok(pks[name])
  {
    var d: TargetCircuit :| d.Name() == name && CircuitKey(w, d) == Ok(pks[name]);
    assert d in ALL_CIRCUITS;
  }

  /** Exactly when the key a conversion uses is independent of the cache, over all sound caches. */
  lemma ConversionKeyCacheIndependentIff(w: World, c: TargetCircuit, name: string)
    requires KeygenLaw(w.lib)
    ensures (forall pks :: SoundPks(w, pks) ==> VkForConversion(w, pks, c, name) == CircuitVk(w, c))
            <==> NameIsHarmless(w, ALL_CIRCUITS, c, name)
  {
    if NameIsHarmless(w, ALL_CIRCUITS, c, name) {
      forall pks | SoundPks(w, pks) ensures VkForConversion(w, pks, c, name) == CircuitVk(w, c) {
        if name in pks {
          CachedNamesAreCircuits(w, pks, name);
        }
        HarmlessLookup(w, ALL_CIRCUITS, pks, c, name);
      }
    }
    if forall pks :: SoundPks(w, pks) ==> VkForConversion(w, pks, c, name) == CircuitVk(w, c) {
      forall d: TargetCircuit | d != c && d.Name() == name && CircuitKey(w, d).Ok?
        ensures CircuitVk(w, c) == Ok(w.lib.vkOf(CircuitKey(w, d).value))
      {
        var pks := map[name := CircuitKey(w, d).value];
        assert SoundPks(w, pks);
        assert VkForConversion(w, pks, c, name) == Ok(w.lib.vkOf(pks[name]));
      }
    }
  }

  /** Converting a proof of a harmless name never depends on the cache. */
  lemma ConvertExact(w: World, s: ProverState, c: TargetCircuit, proof: TargetCircuitProof)
    requires KeygenLaw(w.lib) && SoundPks(w, s.pks) && NameIsHarmless(w, ALL_CIRCUITS, c, proof.name)
    ensures Convert(w, s, c, proof).result == Converted(w, c, proof)
  {
    if proof.name in s.pks {
      CachedNamesAreCircuits(w, s.pks, proof.name);
    }
    HarmlessLookup(w, ALL_CIRCUITS, s.pks, c, proof.name);
  }

  lemma ConvertOwnName(w: World, s: ProverState, c: TargetCircuit, proof: TargetCircuitProof)
    requires KeygenLaw(w.lib) && SoundPks(w, s.pks) && proof.name == c.Name()
    ensures Convert(w, s, c, proof).result == Converted(w, c, proof)
  {
    OwnNameIsHarmless(w, ALL_CIRCUITS, c);
    ConvertExact(w, s, c, proof);
  }

  /** `prove_circuit` without caches: the panic of a debug directory that cannot be written, else the proof of the
      traces and its conversion, failures included. */
  function ProvedAfresh(w: World, s: ProverState, c: TargetCircuit, traces: seq<BlockTrace>): Outcome<ProvedCircuit> {
    var proof :- ProofOf(w, c, traces);
    if DebugWritable(s, c) then Converted(w, c, proof) else Panic
  }

  lemma ProveResult(w: World, s: ProverState, c: TargetCircuit, traces: seq<BlockTrace>)
    requires KeygenLaw(w.lib) && SoundPks(w, s.pks)
    ensures Prove(w, s, c, traces).result == ProvedAfresh(w, s, c, traces)
  {
    CreateProofExact(w, s, c, traces);
    var created := CreateProof(w, s, c, traces);
    if created.result.Ok? {
      ConvertOwnName(w, created.state, c, created.result.value);
    }
  }

  lemma ConvertState(w: World, s: ProverState, c: TargetCircuit, proof: TargetCircuitProof)
    requires Convert(w, s, c, proof).result.Ok?
    ensures Convert(w, s, c, proof).state == s.(pks := if w.cfg.optMem then s.pks - {c.Name()} else s.pks)
  {
  }

  /** What a successful `prove_circuit` is made of, whatever the cache held. */
  lemma ProveExact(w: World, s: ProverState, c: TargetCircuit, traces: seq<BlockTrace>)
    requires KeygenLaw(w.lib) && SoundPks(w, s.pks) && Prove(w, s, c, traces).result.Ok?
    ensures ProofOf(w, c, traces).Ok? && ProofOf(w, c, traces).value.name == c.Name()
    ensures CreateProof(w, s, c, traces).result == ProofOf(w, c, traces)
    ensures Prove(w, s, c, traces).result == Converted(w, c, ProofOf(w, c, traces).value)
    ensures CircuitKey(w, c).Ok? && Prove(w, s, c, traces).state.debugDir == s.debugDir
    ensures var pks := s.pks[c.Name() := CircuitKey(w, c).value];
            Prove(w, s, c, traces).state.pks == if w.cfg.optMem then pks - {c.Name()} else pks
  {
    var created := CreateProof(w, s, c, traces);
    CreateProofExact(w, s, c, traces);
    ProveResult(w, s, c, traces);
    ConvertState(w, created.state, c, created.result.value);
  }

  // ---------------------------------------------------------------- what each operation leaves alone

  lemma CreateProofFrame(w: World, s: ProverState, c: TargetCircuit, traces: seq<BlockTrace>)
    ensures var s' := CreateProof(w, s, c, traces).state;
            s'.aggPk == s.aggPk && s.pks.Keys <= s'.pks.Keys
            && (CreateProof(w, s, c, traces).result.Ok? ==> c.Name() in s'.pks)
  {
    var prepared, keyed := Prepare(w, c, traces), EnsurePk(w, s, c);
    if prepared.Ok? && keyed.result.Ok? {
      AssemblyFrame(w, keyed.state, c, keyed.result.value, prepared.value);
    }
  }

  lemma AssemblyFrame(w: World, s: ProverState, c: TargetCircuit, pk: Pk, prep: Prepared)
    ensures AssembleAndSave(w, s, c, pk, prep).state == s.(disk := AssembleAndSave(w, s, c, pk, prep).state.disk)
  {
  }

  lemma ConvertFrame(w: World, s: ProverState, c: TargetCircuit, proof: TargetCircuitProof)
    ensures var s' := Convert(w, s, c, proof).state;
            s'.aggPk == s.aggPk && s'.disk == s.disk && (!w.cfg.optMem ==> s' == s)
  {
  }

  lemma ProveFrame(w: World, s: ProverState, c: TargetCircuit, traces: seq<BlockTrace>)
    ensures var s' := Prove(w, s, c, traces).state;
            && s'.aggPk == s.aggPk && s'.disk == CreateProof(w, s, c, traces).state.disk
            && (!w.cfg.optMem ==> s.pks.Keys <= s'.pks.Keys)
  {
    var created := CreateProof(w, s, c, traces);
    CreateProofFrame(w, s, c, traces);
    if created.result.Ok? {
      ConvertFrame(w, created.state, c, created.result.value);
    }
  }

  lemma LoadFrame(w: World, s: ProverState, vks: map<string, Vk>, check: bool, c: TargetCircuit)
    ensures var s' := DebugLoad(w, s, w, vks, check, c).state;
            s'.aggPk == s.aggPk && s'.disk == s.disk && (!w.cfg.optMem ==> s' == s)
  {
    if SavedProof(w, s.disk, s.debugDir, c).Ok? {
      ConvertFrame(w, s, c, SavedProof(w, s.disk, s.debugDir, c).value);
    }
  }

  lemma AggregateFrame(w: World, s: ProverState, results: seq<ProvedCircuit>)
    ensures var step := Aggregate(w, s, results);
            && step.state.pks == s.pks && step.state.disk == s.disk
            && (s.aggPk.Some? ==> step.state.aggPk == s.aggPk)
            && (step.result.Ok? ==>
                step.state.aggPk.Some? && step.result.value.vk == w.lib.writeVk(w.lib.vkOf(step.state.aggPk.value)))
  {
  }

  // ---------------------------------------------------------------- sound caches stay sound over every run

  lemma ConvertKeepsSound(w: World, s: ProverState, c: TargetCircuit, proof: TargetCircuitProof)
    requires SoundPks(w, s.pks)
    ensures SoundPks(w, Convert(w, s, c, proof).state.pks)
  {
  }

  lemma ProveKeepsSound(w: World, s: ProverState, c: TargetCircuit, traces: seq<BlockTrace>)
    requires SoundPks(w, s.pks)
    ensures SoundPks(w, Prove(w, s, c, traces).state.pks)
  {
    CreateProofExact(w, s, c, traces);
    var created := CreateProof(w, s, c, traces);
    if created.result.Ok? {
      ConvertKeepsSound(w, created.state, c, created.result.value);
    }
  }

  lemma LoadKeepsSound(w: World, s: ProverState, vks: map<string, Vk>, check: bool, c: TargetCircuit)
    requires SoundPks(w, s.pks)
    ensures SoundPks(w, DebugLoad(w, s, w, vks, check, c).state.pks)
  {
    var saved := SavedProof(w, s.disk, s.debugDir, c);
    if saved.Ok? {
      ConvertKeepsSound(w, s, c, saved.value);
    }
  }

  lemma BatchKeepsSound(w: World, s: ProverState, traces: seq<BlockTrace>)
    requires SoundPks(w, s.pks)
    ensures SoundPks(w, AggregateBatch(w, s, traces).state.pks)
  {
    var proved := Prove(w, s, SuperCircuit, traces);
    ProveKeepsSound(w, s, SuperCircuit, traces);
    if proved.result.Ok? {
      AggregateFrame(w, proved.state, [proved.result.value]);
    }
  }

  lemma StepKeepsSoundPks(w: World, sys: Sys, op: Op)
    requires SoundPks(w, sys.prover.pks)
    ensures SoundPks(w, Apply(w, sys, op).sys.prover.pks)
  {
    match op
    case CreateProofOp(c, traces) => CreateProofExact(w, sys.prover, c, traces);
    case ProveOp(c, traces) => ProveKeepsSound(w, sys.prover, c, traces);
    case LoadOp(c, check) => LoadKeepsSound(w, sys.prover, sys.vks, check, c);
    case AggregateBatchOp(traces) => BatchKeepsSound(w, sys.prover, traces);
    case AggregateOp(results) => AggregateFrame(w, sys.prover, results);
    case VerifyOp(c, proof) =>
    case SetDebugDirOp(dir) =>
  }

  /** The prover's cache only ever holds generated keys under their circuits' names, whatever is on the disk. */
  lemma {:induction false} RunKeepsSoundPks(w: World, sys: Sys, ops: seq<Op>)
    requires SoundPks(w, sys.prover.pks)
    ensures SoundPks(w, Run(w, sys, ops).sys.prover.pks)
  {
    if ops != [] {
      var init := ops[..|ops| - 1];
      RunKeepsSoundPks(w, sys, init);
      StepKeepsSoundPks(w, Run(w, sys, init).sys, ops[|ops| - 1]);
    }
  }

  lemma StepKeepsSoundVks(w: World, sys: Sys, op: Op)
    requires SoundVks(w, sys.vks)
    ensures SoundVks(w, Apply(w, sys, op).sys.vks)
  {
    match op
    case VerifyOp(c, proof) => VerdictIgnoresCache(w, sys.vks, c, proof);
    case LoadOp(c, check) =>
      var saved := SavedProof(w, sys.prover.disk, sys.prover.debugDir, c);
      if saved.Ok? {
        VerdictIgnoresCache(w, sys.vks, c, saved.value);
      }
    case _ =>
  }

  /** The same for the verifier's cache. */
  lemma {:induction false} RunKeepsSoundVks(w: World, sys: Sys, ops: seq<Op>)
    requires SoundVks(w, sys.vks)
    ensures SoundVks(w, Run(w, sys, ops).sys.vks)
  {
    if ops != [] {
      var init := ops[..|ops| - 1];
      RunKeepsSoundVks(w, sys, init);
      StepKeepsSoundVks(w, Run(w, sys, init).sys, ops[|ops| - 1]);
    }
  }

  // ---------------------------------------------------------------- which operations save a proof

  datatype Saved = Saved(dir: string, c: TargetCircuit, proof: TargetCircuitProof)

  /** The proof an operation saves, if it saves one. */
  function SavedBy(w: World, s: ProverState, op: Op): Option<Saved> {
    match op
    case CreateProofOp(c, traces) => SavedByCreation(w, s, c, traces)
    case ProveOp(c, traces) => SavedByCreation(w, s, c, traces)
    case AggregateBatchOp(traces) => SavedByCreation(w, s, SuperCircuit, traces)
    case _ => None
  }

  function SavedByCreation(w: World, s: ProverState, c: TargetCircuit, traces: seq<BlockTrace>): Option<Saved> {
    var created := CreateProof(w, s, c, traces).result;
    if created.Ok? && s.debugDir != "" then Some(Saved(s.debugDir, c, created.value)) else None
  }

  predicate IsFor(saved: Option<Saved>, dir: string, c: TargetCircuit) {
    saved.Some? && saved.value.dir == dir && saved.value.c == c
  }

  predicate SavesAt(w: World, s: ProverState, op: Op, dir: string, c: TargetCircuit) {
    IsFor(SavedBy(w, s, op), dir, c)
  }

  lemma CreationEffect(w: World, s: ProverState, c: TargetCircuit, traces: seq<BlockTrace>,
                       dir: string, d: TargetCircuit)
    requires RoundTrips(w.lib.proofJson)
    ensures SavedProof(w, CreateProof(w, s, c, traces).state.disk, dir, d)
            == match SavedByCreation(w, s, c, traces)
               case Some(saved) =>
                 if saved.dir == dir && saved.c == d then Ok(saved.proof) else SavedProof(w, s.disk, dir, d)
               case None => SavedProof(w, s.disk, dir, d)
  {
    var prepared, keyed := Prepare(w, c, traces), EnsurePk(w, s, c);
    if prepared.Ok? && keyed.result.Ok? {
      AssemblyEffect(w, keyed.state, c, keyed.result.value, prepared.value, dir, d);
    }
  }

  lemma AssemblyEffect(w: World, s: ProverState, c: TargetCircuit, pk: Pk, prep: Prepared,
                       dir: string, d: TargetCircuit)
    requires RoundTrips(w.lib.proofJson)
    ensures var step := AssembleAndSave(w, s, c, pk, prep);
            SavedProof(w, step.state.disk, dir, d)
            == if step.result.Ok? && s.debugDir != "" && s.debugDir == dir && c == d then Ok(step.result.value)
               else SavedProof(w, s.disk, dir, d)
  {
    var assembled := Assemble(w, c, pk, prep);
    if assembled.Ok? {
      SaveDebugEffect(w, s.debugDir, s.disk, c, pk, assembled.value, dir, d);
    }
  }

  lemma StepEffectOnSaved(w: World, sys: Sys, op: Op, dir: string, c: TargetCircuit)
    requires RoundTrips(w.lib.proofJson)
    ensures SavedProof(w, Apply(w, sys, op).sys.prover.disk, dir, c)
            == if SavesAt(w, sys.prover, op, dir, c) then Ok(SavedBy(w, sys.prover, op).value.proof)
               else SavedProof(w, sys.prover.disk, dir, c)
  {
    match op
    case CreateProofOp(d, traces) => CreationEffect(w, sys.prover, d, traces, dir, c);
    case ProveOp(d, traces) =>
      CreationEffect(w, sys.prover, d, traces, dir, c);
      ProveFrame(w, sys.prover, d, traces);
    case AggregateBatchOp(traces) =>
      CreationEffect(w, sys.prover, SuperCircuit, traces, dir, c);
      ProveFrame(w, sys.prover, SuperCircuit, traces);
      var proved := Prove(w, sys.prover, SuperCircuit, traces);
      if proved.result.Ok? {
        AggregateFrame(w, proved.state, [proved.result.value]);
      }
    case LoadOp(d, check) => LoadFrame(w, sys.prover, sys.vks, check, d);
    case AggregateOp(results) => AggregateFrame(w, sys.prover, results);
    case VerifyOp(d, proof) =>
    case SetDebugDirOp(d) =>
  }

  lemma SavedProofIsOwn(w: World, sys: Sys, op: Op, dir: string, c: TargetCircuit)
    requires SoundPks(w, sys.prover.pks) && SavesAt(w, sys.prover, op, dir, c)
    ensures exists traces :: ProofOf(w, c, traces) == Ok(SavedBy(w, sys.prover, op).value.proof)
    ensures SavedBy(w, sys.prover, op).value.proof.name == c.Name()
  {
    match op
    case CreateProofOp(_, traces) => CreationIsOwn(w, sys.prover, c, traces);
    case ProveOp(_, traces) => CreationIsOwn(w, sys.prover, c, traces);
    case AggregateBatchOp(traces) => CreationIsOwn(w, sys.prover, c, traces);
  }

  lemma CreationIsOwn(w: World, s: ProverState, c: TargetCircuit, traces: seq<BlockTrace>)
    requires SoundPks(w, s.pks) && SavedByCreation(w, s, c, traces).Some?
    ensures ProofOf(w, c, traces) == Ok(SavedByCreation(w, s, c, traces).value.proof)
    ensures SavedByCreation(w, s, c, traces).value.proof.name == c.Name()
  {
    CreateProofExact(w, s, c, traces);
  }

  /** The last operation of a run. */
  lemma RunSnoc(w: World, sys: Sys, ops: seq<Op>, op: Op)
    ensures var before := Run(w, sys, ops);
            var turn := Apply(w, before.sys, op);
            Run(w, sys, ops + [op]) == History(turn.sys, before.replies + [turn.reply])
  {
    assert (ops + [op])[..|ops|] == ops;
  }
}
