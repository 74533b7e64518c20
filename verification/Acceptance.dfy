/** What a proof is a proof of, and that the verifier accepts what the prover makes. */
module Acceptance {
  import opened Common
  import opened Traces
  import opened FieldCodec
  import opened Capacity
  import opened Backend
  import opened Verification
  import opened Proving
  import opened Runs
  import opened AggregationKey
  import opened Theorems

  // ---------------------------------------------------------------- the statement of a proof

  /** The batch a proof covers: the longest fitting prefix, or all of it when truncation is off. */
  function Covered(w: World, traces: seq<BlockTrace>): seq<BlockTrace> {
    CheckBatch(w.cfg.limits, RowUsageOf(w.lib), traces).blocks
  }

  /** The circuit and the public inputs of `c` for a witness block, as the library builds them. */
  ghost predicate StatementFor(w: World, c: TargetCircuit, block: Witness, circuit: Circuit, instance: Instance) {
    if c == SuperCircuit then
      exists k :: w.lib.superBuild(block) == Ok((k, circuit, instance)) && k <= w.cfg.limits.degree
    else circuit == w.lib.plainBuild(c, block) && instance == []
  }

  /** When everything up to the key succeeds: the check passes, the kept blocks have a witness and a circuit that needs
      no larger degree, the progress log can be written if enabled, and the mock run passes if enabled. */
  lemma PreparedIff(w: World, c: TargetCircuit, traces: seq<BlockTrace>)
    ensures Prepare(w, c, traces).Ok? <==>
            && CheckBatch(w.cfg.limits, RowUsageOf(w.lib), traces).result.Ok?
            && var kept := Covered(w, traces);
               && w.lib.witnessBlock(kept).Ok?
               && (w.cfg.logInfo ==>
                   kept != [] && kept[0].header.hash.Some? && kept[|kept| - 1].header.hash.Some?)
               && exists circuit, instance ::
                    && StatementFor(w, c, w.lib.witnessBlock(kept).value, circuit, instance)
                    && (w.cfg.mockProve ==> w.lib.mockCheck(circuit, instance).Ok?)
    ensures Prepare(w, c, traces).Ok? ==>
              var prep, kept := Prepare(w, c, traces).value, Covered(w, traces);
              StatementFor(w, c, w.lib.witnessBlock(kept).value, prep.circuit, prep.instance)
  {
    var kept := Covered(w, traces);
    if CheckBatch(w.cfg.limits, RowUsageOf(w.lib), traces).result.Ok? && w.lib.witnessBlock(kept).Ok? {
      var block := w.lib.witnessBlock(kept).value;
      var built := FromWitness(w, c, block);
      StatementExact(w, c, block);
      if built.Ok? {
        assert built == Ok((built.value.0, built.value.1));
        assert StatementFor(w, c, block, built.value.0, built.value.1);
      }
    }
  }

  lemma StatementExact(w: World, c: TargetCircuit, block: Witness)
    ensures forall circuit, instance ::
              StatementFor(w, c, block, circuit, instance) <==> FromWitness(w, c, block) == Ok((circuit, instance))
  {
    if c.SuperCircuit? && w.lib.superBuild(block).Ok? {
      var built := w.lib.superBuild(block).value;
      assert w.lib.superBuild(block) == Ok((built.0, built.1, built.2));
    }
  }

  /** A degree that is too small for the witness is that error. */
  lemma DegreeRefused(w: World, traces: seq<BlockTrace>)
    requires CheckBatch(w.cfg.limits, RowUsageOf(w.lib), traces).result.Ok?
    requires w.lib.witnessBlock(Covered(w, traces)).Ok?
    requires w.lib.superBuild(w.lib.witnessBlock(Covered(w, traces)).value).Ok?
    ensures var k := w.lib.superBuild(w.lib.witnessBlock(Covered(w, traces)).value).value.0;
            Prepare(w, SuperCircuit, traces) == Err(DegreeTooSmall(k)) || k <= w.cfg.limits.degree
  {
  }

  /** What the bytes of a proof prove: they are made with the circuit's key, for the circuit and the public inputs that
      the library builds from the witness of the blocks covered, and those public inputs are what the proof carries. */
  lemma ProofStatement(w: World, c: TargetCircuit, traces: seq<BlockTrace>)
    requires RoundTrips(w.lib.matrixJson) && ProofOf(w, c, traces).Ok?
    ensures w.lib.witnessBlock(Covered(w, traces)).Ok? && CircuitKey(w, c).Ok?
    ensures exists circuit, instance ::
              && StatementFor(w, c, w.lib.witnessBlock(Covered(w, traces)).value, circuit, instance)
              && ReadInstances(w, ProofOf(w, c, traces).value) == Ok(instance)
              && w.lib.createProof(w.params, CircuitKey(w, c).value, circuit, instance, w.rng)
                 == Ok(ProofOf(w, c, traces).value.proof)
              && (w.cfg.mockProve ==> w.lib.mockCheck(circuit, instance).Ok?)
  {
    PreparedIff(w, c, traces);
    OwnInstancesRead(w, c, traces);
    var prep := Prepare(w, c, traces).value;
    assert StatementFor(w, c, w.lib.witnessBlock(Covered(w, traces)).value, prep.circuit, prep.instance);
  }

  /** When a proof is made: the statement can be prepared, the circuit has a key, the proof can be created, and it is
      long enough for the debug log, if that is enabled. */
  lemma ProofExistsIff(w: World, c: TargetCircuit, traces: seq<BlockTrace>)
    ensures ProofOf(w, c, traces).Ok? <==>
            && Prepare(w, c, traces).Ok? && CircuitKey(w, c).Ok?
            && var prep := Prepare(w, c, traces).value;
               var bytes := w.lib.createProof(w.params, CircuitKey(w, c).value, prep.circuit, prep.instance, w.rng);
               bytes.Ok? && (w.cfg.logDebug ==> |bytes.value| >= 15)
  {
  }

  /** A key that cannot be generated is a panic, for the prover and for the verifier. */
  lemma KeyFailuresPanic(w: World, c: TargetCircuit, p: ProvedCircuit)
    ensures !CircuitKey(w, c).Err? && !CircuitVk(w, c).Err? && !AggKey(w, p).Err?
  {
  }

  // ---------------------------------------------------------------- target proofs are accepted

  lemma KeyTemplate(w: World, c: TargetCircuit)
    requires CircuitKey(w, c).Ok?
    ensures exists template :: BuiltFor(w.lib, c, template) && w.lib.keygenPk2(w.params, template) == CircuitKey(w, c)
    ensures c == StateCircuit ==> w.lib.keygenPk2(w.params, w.lib.stateDefault) == CircuitKey(w, c)
    ensures c != StateCircuit ==>
              && w.lib.witnessBlock([]).Ok?
              && exists template, instance :: StatementFor(w, c, w.lib.witnessBlock([]).value, template, instance)
                                           && w.lib.keygenPk2(w.params, template) == CircuitKey(w, c)
  {
    var template := Empty(w, c).value;
    if c != StateCircuit {
      var block := w.lib.witnessBlock([]).value;
      StatementExact(w, c, block);
      var built := FromWitness(w, c, block).value;
      assert FromWitness(w, c, block) == Ok((built.0, built.1)) && built.0 == template;
      assert StatementFor(w, c, block, template, built.1);
      StatementIsBuilt(w, c, block, template, built.1);
    }
    assert BuiltFor(w.lib, c, template);
  }

  lemma StatementIsBuilt(w: World, c: TargetCircuit, block: Witness, circuit: Circuit, instance: Instance)
    requires StatementFor(w, c, block, circuit, instance)
    ensures BuiltFor(w.lib, c, circuit)
  {
  }

  /** The verifier accepts what the prover makes, if the statement holds; a mock run makes sure that it does. */
  lemma OwnProofAccepted(w: World, c: TargetCircuit, traces: seq<BlockTrace>)
    requires KeygenLaw(w.lib) && RoundTrips(w.lib.matrixJson) && TargetComplete(w.lib)
    requires ProofOf(w, c, traces).Ok?
    requires w.cfg.mockProve
             || forall circuit, instance ::
                  StatementFor(w, c, w.lib.witnessBlock(Covered(w, traces)).value, circuit, instance) ==>
                    w.lib.mockCheck(circuit, instance).Ok?
    ensures Verdict(w, c, ProofOf(w, c, traces).value).Ok?
  {
    var proof, block := ProofOf(w, c, traces).value, w.lib.witnessBlock(Covered(w, traces)).value;
    ProofStatement(w, c, traces);
    var circuit, instance :| && StatementFor(w, c, block, circuit, instance)
                             && ReadInstances(w, proof) == Ok(instance)
                             && w.lib.createProof(w.params, CircuitKey(w, c).value, circuit, instance, w.rng)
                                == Ok(proof.proof)
                             && (w.cfg.mockProve ==> w.lib.mockCheck(circuit, instance).Ok?);
    StatementIsBuilt(w, c, block, circuit, instance);
    KeyTemplate(w, c);
    var template :| BuiltFor(w.lib, c, template) && w.lib.keygenPk2(w.params, template) == CircuitKey(w, c);
    assert CompleteFor(w.lib, c, w.params, template, circuit, instance, w.rng);
    KeysAgree(w, c);
  }

  /** Over any run: whatever was created in it with mock proving on is accepted whenever it is verified in it. */
  lemma CreatedProofsAccepted(w: World, sys: Sys, ops: seq<Op>, i: nat, j: nat)
    requires KeygenLaw(w.lib) && RoundTrips(w.lib.matrixJson) && TargetComplete(w.lib) && w.cfg.mockProve
    requires SoundPks(w, sys.prover.pks) && SoundVks(w, sys.vks)
    requires i < |ops| && ops[i].CreateProofOp?
    requires Run(w, sys, ops).replies[i].ProofReply? && Run(w, sys, ops).replies[i].proof.Ok?
    requires j < |ops| && ops[j] == VerifyOp(ops[i].c, Run(w, sys, ops).replies[i].proof.value)
    ensures Run(w, sys, ops).replies[j].VerdictReply? && Run(w, sys, ops).replies[j].verdict.Ok?
  {
    HistoryIndependence(w, sys, ops, i);
    VerdictsIgnoreHistory(w, sys, ops, j);
    OwnProofAccepted(w, ops[i].c, ops[i].traces);
  }

  /** A proved circuit is a transcript that is accepted under the key and for the instances beside it. */
  lemma ProvedCircuitAccepted(w: World, s: ProverState, c: TargetCircuit, traces: seq<BlockTrace>)
    requires KeygenLaw(w.lib) && JsonLaws(w.lib) && TargetComplete(w.lib) && w.cfg.mockProve && SoundPks(w, s.pks)
    requires Prove(w, s, c, traces).result.Ok?
    ensures var pc := Prove(w, s, c, traces).result.value;
            |pc.instance| == 1 && w.lib.verifyProof(w.params, pc.vk, pc.instance[0], pc.transcript).Ok?
  {
    ProvedCircuitContents(w, s, c, traces);
    OwnProofAccepted(w, c, traces);
    VerdictOnOwnProof(w, c, traces);
  }

  /** With mock proving on, reloading what was proved never fails, verifier or not. */
  lemma ReloadNeverPanics(w: World, sys: Sys, ops: seq<Op>, i: nat, check: bool)
    requires KeygenLaw(w.lib) && JsonLaws(w.lib) && TargetComplete(w.lib) && w.cfg.mockProve
    requires SoundPks(w, sys.prover.pks) && (check ==> SoundVks(w, sys.vks))
    requires i < |ops| && ops[i].ProveOp?
    requires Run(w, sys, ops).replies[i].CircuitReply? && Run(w, sys, ops).replies[i].circuit.Ok?
    requires var dir := Run(w, sys, ops[..i]).sys.prover.debugDir;
             && dir != "" && Run(w, sys, ops).sys.prover.debugDir == dir
             && forall k :: i < k < |ops| ==> !IsFor(SavesOf(w, sys, ops)[k], dir, ops[i].c)
    ensures Apply(w, Run(w, sys, ops).sys, LoadOp(ops[i].c, check)).reply == Run(w, sys, ops).replies[i]
  {
    ReloadGivesProvedCircuit(w, sys, ops, i, check);
    OwnProofAccepted(w, ops[i].c, ops[i].traces);
  }

  /** A reload, by what is found in the debug directory. Only a conversion changes the prover, and only its cache. */
  lemma ReloadExact(w: World, sys: Sys, c: TargetCircuit, check: bool)
    requires SoundVks(w, sys.vks)
    ensures var s, turn := sys.prover, Apply(w, sys, LoadOp(c, check));
            var path := s.debugDir + "/" + c.Name() + "_proof.json";
            if s.debugDir == "" then turn == Turn(sys, CircuitReply(Panic))
            else if path !in s.disk || s.disk[path].Dir? then turn == Turn(sys, CircuitReply(Err(Io)))
            else
              match w.lib.proofJson.decode(s.disk[path].bytes)
              case None => turn == Turn(sys, CircuitReply(Err(Json)))
              case Some(proof) =>
                if check && !Verdict(w, c, proof).Ok? then
                  turn.sys.prover == s && turn.reply == CircuitReply(Panic)
                else
                  var evicted := w.cfg.optMem && turn.reply.circuit.Ok?;
                  && turn.reply == CircuitReply(ConvertedWith(w, proof, VkForConversion(w, s.pks, c, proof.name)))
                  && turn.sys.prover == s.(pks := if evicted then s.pks - {c.Name()} else s.pks)
  {
    var s := sys.prover;
    assert s.debugDir + "/" + c.Name() + "_proof.json" == ProofPath(s.debugDir, c);
    assert Apply(w, sys, LoadOp(c, check)) == LoadTurn(DebugLoad(w, s, w, sys.vks, check, c));
    var saved := SavedProof(w, s.disk, s.debugDir, c);
    if s.debugDir != "" && saved.Ok? {
      ReloadSavedExact(w, s, sys.vks, check, c, saved.value);
    }
  }

  function LoadTurn(step: LoadStep): Turn {
    Turn(Sys(step.state, step.vks), CircuitReply(step.result))
  }

  lemma ReloadSavedExact(w: World, s: ProverState, vks: map<string, Vk>, check: bool, c: TargetCircuit,
                         proof: TargetCircuitProof)
    requires SoundVks(w, vks)
    ensures var step := LoadSaved(w, s, w, vks, check, c, proof);
            if check && !Verdict(w, c, proof).Ok? then step.state == s && step.result == Panic
            else
              && step.result == ConvertedWith(w, proof, VkForConversion(w, s.pks, c, proof.name))
              && step.state == s.(pks := if w.cfg.optMem && step.result.Ok? then s.pks - {c.Name()} else s.pks)
  {
    VerdictIgnoresCache(w, vks, c, proof);
    if Convert(w, s, c, proof).result.Ok? {
      ConvertState(w, s, c, proof);
    }
  }

  // ---------------------------------------------------------------- aggregate proofs are accepted

  /** An aggregate proof made with the key generated from a circuit of the same shape is accepted, by a verifier
      configured with that key and by one without. */
  lemma AggregateAccepted(w: World, source: ProvedCircuit, p: ProvedCircuit, configured: bool)
    requires AggComplete(w.lib) && RoundTrips(w.lib.tensorJson) && w.cfg.mockProve && SameShape(source, p)
    requires AggKey(w, source).Ok? && AggregateWith(w, AggKey(w, source), p).Ok?
    requires ReadsBack(w.lib, w.lib.vkOf(AggKey(w, source).value))
    ensures var agg := AggregateWith(w, AggKey(w, source), p).value;
            var raw := if configured then Some(agg.vk) else None;
            ParsedAggVk(w, raw).Ok? && VerifyAgg(w, raw, ParsedAggVk(w, raw).value, agg).Ok?
  {
    var agg, pk := AggregateWith(w, AggKey(w, source), p).value, AggKey(w, source).value;
    var instances := w.lib.pairToInstances(FinalPairOf(w, p).value);
    InstanceFileRoundTrip(w.lib.tensorJson, [[instances]]);
    assert AggCompleteFor(w.lib, w.params, w.aggParams, source, p, instances, w.rng);
    assert agg.vk == w.lib.writeVk(w.lib.vkOf(pk));
  }

  /** Over any run of a prover that starts without an aggregation key: every aggregate proof of a circuit that has the
      shape of the run's first source is accepted. */
  lemma AggregatesAccepted(w: World, sys: Sys, ops: seq<Op>, i: nat, p: ProvedCircuit, configured: bool)
    requires AggComplete(w.lib) && RoundTrips(w.lib.tensorJson) && w.cfg.mockProve && sys.prover.aggPk.None?
    requires i < |ops| && Aggregated(w, Run(w, sys, ops[..i]).sys.prover, ops[i]) == Some(p)
    requires KeySource(w, sys, ops[..i]).Some? ==> SameShape(KeySource(w, sys, ops[..i]).value, p)
    requires Run(w, sys, ops).replies[i].AggReply? && Run(w, sys, ops).replies[i].agg.Ok?
    requires KeyAt(w, sys, ops, i, p).Ok? ==> ReadsBack(w.lib, w.lib.vkOf(KeyAt(w, sys, ops, i, p).value))
    ensures var agg := Run(w, sys, ops).replies[i].agg.value;
            var raw := if configured then Some(agg.vk) else None;
            ParsedAggVk(w, raw).Ok? && VerifyAgg(w, raw, ParsedAggVk(w, raw).value, agg).Ok?
  {
    AggRepliesExact(w, sys, ops, i);
    var source := if KeySource(w, sys, ops[..i]).Some? then KeySource(w, sys, ops[..i]).value else p;
    AggregateAccepted(w, source, p, configured);
  }
}
