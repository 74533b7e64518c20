/** Which key a prover aggregates with, and what its aggregate proofs carry. */
module AggregationKey {
  import opened Common
  import opened Traces
  import opened FieldCodec
  import opened Backend
  import opened Verification
  import opened Proving
  import opened Runs

  /** The key a state would aggregate with is never replaced, and every aggregate proof carries its bytes. */
  lemma StepKeepsAggKey(w: World, sys: Sys, op: Op)
    ensures var turn := Apply(w, sys, op);
            && (sys.prover.aggPk.Some? ==> turn.sys.prover.aggPk == sys.prover.aggPk)
            && (turn.reply.AggReply? && turn.reply.agg.Ok? ==>
                && turn.sys.prover.aggPk.Some?
                && turn.reply.agg.value.vk == w.lib.writeVk(w.lib.vkOf(turn.sys.prover.aggPk.value)))
  {
    match op
    case CreateProofOp(c, traces) => CreateProofFrame(w, sys.prover, c, traces);
    case ProveOp(c, traces) => ProveFrame(w, sys.prover, c, traces);
    case LoadOp(c, check) => LoadFrame(w, sys.prover, sys.vks, check, c);
    case AggregateBatchOp(traces) =>
      var proved := Prove(w, sys.prover, SuperCircuit, traces);
      ProveFrame(w, sys.prover, SuperCircuit, traces);
      if proved.result.Ok? {
        AggregateFrame(w, proved.state, [proved.result.value]);
      }
    case AggregateOp(results) => AggregateFrame(w, sys.prover, results);
    case VerifyOp(c, proof) =>
    case SetDebugDirOp(dir) =>
  }

  /** Every aggregate proof among the replies carries the bytes of the final state's key. */
  ghost predicate CarriesFinalKey(w: World, h: History, i: nat)
    requires i < |h.replies|
  {
    h.replies[i].AggReply? && h.replies[i].agg.Ok? ==>
      && h.sys.prover.aggPk.Some?
      && h.replies[i].agg.value.vk == w.lib.writeVk(w.lib.vkOf(h.sys.prover.aggPk.value))
  }

  lemma {:induction false} AggKeyStable(w: World, sys: Sys, ops: seq<Op>)
    ensures sys.prover.aggPk.Some? ==> Run(w, sys, ops).sys.prover.aggPk == sys.prover.aggPk
    ensures forall i :: 0 <= i < |ops| ==> CarriesFinalKey(w, Run(w, sys, ops), i)
  {
    if ops != [] {
      var init := ops[..|ops| - 1];
      var before, h := Run(w, sys, init), Run(w, sys, ops);
      AggKeyStable(w, sys, init);
      StepKeepsAggKey(w, before.sys, ops[|ops| - 1]);
      forall i | 0 <= i < |ops| ensures CarriesFinalKey(w, h, i) {
        if i < |init| {
          assert CarriesFinalKey(w, before, i) && h.replies[i] == before.replies[i];
        }
      }
    }
  }

  /** All aggregate proofs of one prover carry the same key bytes. */
  lemma AggProofsShareKey(w: World, sys: Sys, ops: seq<Op>, i: nat, j: nat)
    requires i < |ops| && j < |ops|
    requires Run(w, sys, ops).replies[i].AggReply? && Run(w, sys, ops).replies[i].agg.Ok?
    requires Run(w, sys, ops).replies[j].AggReply? && Run(w, sys, ops).replies[j].agg.Ok?
    ensures Run(w, sys, ops).replies[i].agg.value.vk == Run(w, sys, ops).replies[j].agg.value.vk
  {
    AggKeyStable(w, sys, ops);
    assert CarriesFinalKey(w, Run(w, sys, ops), i) && CarriesFinalKey(w, Run(w, sys, ops), j);
  }

  // ---------------------------------------------------------------- the circuit the key comes from

  /** The circuit an operation takes as far as the aggregation key, whether or not it then succeeds. */
  function Aggregated(w: World, s: ProverState, op: Op): Option<ProvedCircuit> {
    match op
    case AggregateOp(results) => if results != [] && FinalPairOf(w, results[0]).Ok? then Some(results[0]) else None
    case AggregateBatchOp(traces) =>
      (match Prove(w, s, SuperCircuit, traces).result
       case Ok(circuit) => if FinalPairOf(w, circuit).Ok? then Some(circuit) else None
       case _ => None)
    case _ => None
  }

  /** The first circuit of a run that reached key generation and got a key. */
  function KeySource(w: World, sys: Sys, ops: seq<Op>): Option<ProvedCircuit> {
    if ops == [] then None
    else
      var init := ops[..|ops| - 1];
      match KeySource(w, sys, init)
      case Some(source) => Some(source)
      case None =>
        var p := Aggregated(w, Run(w, sys, init).sys.prover, ops[|ops| - 1]);
        if p.Some? && AggKey(w, p.value).Ok? then p else None
  }

  /** Aggregating `p` with a given key, or failing as its generation did. */
  function AggregateWith(w: World, key: Outcome<Pk>, p: ProvedCircuit): Outcome<AggCircuitProof> {
    var pair :- FinalPairOf(w, p);
    var pk :- key;
    AssembleAgg(w, pk, p, pair)
  }

  function KeyOrGenerated(w: World, aggPk: Option<Pk>, p: ProvedCircuit): Outcome<Pk> {
    if aggPk.Some? then Ok(aggPk.value) else AggKey(w, p)
  }

  lemma AggregateExact(w: World, s: ProverState, results: seq<ProvedCircuit>)
    requires results != [] && FinalPairOf(w, results[0]).Ok?
    ensures var key := KeyOrGenerated(w, s.aggPk, results[0]);
            && Aggregate(w, s, results).result == AggregateWith(w, key, results[0])
            && Aggregate(w, s, results).state.aggPk == if key.Ok? then Some(key.value) else None
  {
  }

  /** How an aggregation fails: nothing to aggregate, no final pair, no key, the mock run, or the proof. A key that was
      generated before the failure stays. */
  lemma AggregateFailure(w: World, s: ProverState, results: seq<ProvedCircuit>)
    requires !Aggregate(w, s, results).result.Ok?
    ensures var step := Aggregate(w, s, results);
            if results == [] then step == Step(s, Panic)
            else
              var pair := FinalPairOf(w, results[0]);
              if !pair.Ok? then step == Step(s, pair.PropagateFailure())
              else if s.aggPk.None? && !AggKey(w, results[0]).Ok? then step == Step(s, Panic)
              else
                var instances := w.lib.pairToInstances(pair.value);
                var mock := w.lib.aggMockCheck(AggCircuitOf(w, results[0]), instances);
                var pk := step.state.aggPk.value;
                var proof := w.lib.aggCreateProof(w.aggParams, pk, AggCircuitOf(w, results[0]), instances, w.rng);
                && step.state.aggPk.Some?
                && step.result == if w.cfg.mockProve && !mock.Ok? then mock.PropagateFailure()
                                  else proof.PropagateFailure()
  {
  }

  /** What one operation does about the aggregation key. */
  lemma StepAggExact(w: World, sys: Sys, op: Op)
    ensures var turn := Apply(w, sys, op);
            match Aggregated(w, sys.prover, op)
            case None =>
              turn.sys.prover.aggPk == sys.prover.aggPk && (turn.reply.AggReply? ==> !turn.reply.agg.Ok?)
            case Some(p) =>
              var key := KeyOrGenerated(w, sys.prover.aggPk, p);
              && turn.reply == AggReply(AggregateWith(w, key, p))
              && turn.sys.prover.aggPk == if key.Ok? then Some(key.value) else None
  {
    match op
    case CreateProofOp(c, traces) => CreateProofFrame(w, sys.prover, c, traces);
    case ProveOp(c, traces) => ProveFrame(w, sys.prover, c, traces);
    case LoadOp(c, check) => LoadFrame(w, sys.prover, sys.vks, check, c);
    case AggregateBatchOp(traces) =>
      var proved := Prove(w, sys.prover, SuperCircuit, traces);
      ProveFrame(w, sys.prover, SuperCircuit, traces);
      if proved.result.Ok? && FinalPairOf(w, proved.result.value).Ok? {
        AggregateExact(w, proved.state, [proved.result.value]);
      }
    case AggregateOp(results) =>
      if results != [] && FinalPairOf(w, results[0]).Ok? {
        AggregateExact(w, sys.prover, results);
      }
    case VerifyOp(c, proof) =>
    case SetDebugDirOp(dir) =>
  }

  /** A batch, whatever keys of target circuits are cached. */
  lemma BatchResult(w: World, s: ProverState, traces: seq<BlockTrace>)
    requires KeygenLaw(w.lib) && SoundPks(w, s.pks)
    ensures var proved := ProvedAfresh(w, s, SuperCircuit, traces);
            AggregateBatch(w, s, traces).result
            == if proved.Ok? then AggregateWith(w, KeyOrGenerated(w, s.aggPk, proved.value), proved.value)
               else proved.PropagateFailure()
  {
    var proved := Prove(w, s, SuperCircuit, traces);
    ProveResult(w, s, SuperCircuit, traces);
    ProveFrame(w, s, SuperCircuit, traces);
    if proved.result.Ok? && FinalPairOf(w, proved.result.value).Ok? {
      AggregateExact(w, proved.state, [proved.result.value]);
    }
  }

  /** A prover that starts without an aggregation key has, after every run, exactly the key generated from the first
      circuit that got one, even if that aggregation failed afterwards. */
  lemma {:induction false} AggKeyIsFirstSource(w: World, sys: Sys, ops: seq<Op>)
    requires sys.prover.aggPk.None?
    ensures match KeySource(w, sys, ops)
            case Some(source) =>
              AggKey(w, source).Ok? && Run(w, sys, ops).sys.prover.aggPk == Some(AggKey(w, source).value)
            case None => Run(w, sys, ops).sys.prover.aggPk.None?
  {
    if ops != [] {
      var init := ops[..|ops| - 1];
      AggKeyIsFirstSource(w, sys, init);
      StepAggExact(w, Run(w, sys, init).sys, ops[|ops| - 1]);
    }
  }

  /** The key operation `i` of a run aggregates with: that of the source so far, or one from its own circuit. */
  function KeyAt(w: World, sys: Sys, ops: seq<Op>, i: nat, p: ProvedCircuit): Outcome<Pk>
    requires i <= |ops|
  {
    match KeySource(w, sys, ops[..i])
    case Some(source) => AggKey(w, source)
    case None => AggKey(w, p)
  }

  lemma KeyAtExact(w: World, sys: Sys, ops: seq<Op>, i: nat)
    requires sys.prover.aggPk.None? && i <= |ops|
    ensures forall p :: KeyOrGenerated(w, Run(w, sys, ops[..i]).sys.prover.aggPk, p) == KeyAt(w, sys, ops, i, p)
  {
    AggKeyIsFirstSource(w, sys, ops[..i]);
  }

  /** Every aggregation reply of a run, successful or not: its circuit aggregated with the key of the first source. */
  lemma AggRepliesExact(w: World, sys: Sys, ops: seq<Op>, i: nat)
    requires sys.prover.aggPk.None? && i < |ops|
    ensures match Aggregated(w, Run(w, sys, ops[..i]).sys.prover, ops[i])
            case Some(p) => Run(w, sys, ops).replies[i] == AggReply(AggregateWith(w, KeyAt(w, sys, ops, i, p), p))
            case None => Run(w, sys, ops).replies[i].AggReply? ==> !Run(w, sys, ops).replies[i].agg.Ok?
  {
    ReplyAt(w, sys, ops, i);
    KeyAtExact(w, sys, ops, i);
    StepAggExact(w, Run(w, sys, ops[..i]).sys, ops[i]);
  }

  /** The state before operation `i`, in a prover that has not aggregated yet. */
  function Unaggregated(w: World, sys: Sys, ops: seq<Op>, i: nat): Sys
    requires i <= |ops|
  {
    var before := Run(w, sys, ops[..i]).sys;
    before.(prover := before.prover.(aggPk := None))
  }

  lemma ProvingIgnoresAggKey(w: World, s: ProverState, c: TargetCircuit, traces: seq<BlockTrace>)
    ensures Prove(w, s.(aggPk := None), c, traces).result == Prove(w, s, c, traces).result
  {
    CreationIgnoresAggKey(w, s, c, traces);
    var step := CreateProof(w, s, c, traces);
    if step.result.Ok? {
      ConversionIgnoresAggKey(w, step.state, c, step.result.value);
    }
  }

  lemma ConversionIgnoresAggKey(w: World, s: ProverState, c: TargetCircuit, proof: TargetCircuitProof)
    ensures Convert(w, s.(aggPk := None), c, proof).result == Convert(w, s, c, proof).result
  {
  }

  lemma CreationIgnoresAggKey(w: World, s: ProverState, c: TargetCircuit, traces: seq<BlockTrace>)
    ensures var step := CreateProof(w, s, c, traces);
            CreateProof(w, s.(aggPk := None), c, traces) == Step(step.state.(aggPk := None), step.result)
  {
    var prepared, keyed := Prepare(w, c, traces), EnsurePk(w, s, c);
    if prepared.Ok? && keyed.result.Ok? {
      AssemblyIgnoresAggKey(w, keyed.state, c, keyed.result.value, prepared.value);
    }
  }

  lemma AssemblyIgnoresAggKey(w: World, s: ProverState, c: TargetCircuit, pk: Pk, prep: Prepared)
    ensures var step := AssembleAndSave(w, s, c, pk, prep);
            AssembleAndSave(w, s.(aggPk := None), c, pk, prep) == Step(step.state.(aggPk := None), step.result)
  {
  }

  /** The same operation in a prover that has not aggregated yet uses the key of its own circuit. */
  lemma UnaggregatedReply(w: World, sys: Sys, ops: seq<Op>, i: nat, p: ProvedCircuit)
    requires i < |ops| && Aggregated(w, Run(w, sys, ops[..i]).sys.prover, ops[i]) == Some(p)
    ensures Apply(w, Unaggregated(w, sys, ops, i), ops[i]).reply == AggReply(AggregateWith(w, AggKey(w, p), p))
  {
    var before := Run(w, sys, ops[..i]).sys.prover;
    if ops[i].AggregateBatchOp? {
      ProvingIgnoresAggKey(w, before, SuperCircuit, ops[i].traces);
    }
    StepAggExact(w, Unaggregated(w, sys, ops, i), ops[i]);
  }

  /** No earlier operation of the run got an aggregation key, or the one that did got the key `p` would get. */
  ghost predicate FirstOrSameKey(w: World, sys: Sys, ops: seq<Op>, i: nat, p: ProvedCircuit)
    requires i <= |ops|
  {
    KeySource(w, sys, ops[..i]).None? || AggKey(w, KeySource(w, sys, ops[..i]).value) == AggKey(w, p)
  }

  /** When history shows in an aggregation. If the operation is the first to get a key, or the first one's key is the
      same, the reply is that of a prover that has not aggregated yet. A successful reply carries that prover's key
      bytes exactly when the two verifying keys, if their bytes read back, are equal. */
  lemma AggHistory(w: World, sys: Sys, ops: seq<Op>, i: nat, p: ProvedCircuit)
    requires sys.prover.aggPk.None? && i < |ops|
    requires Aggregated(w, Run(w, sys, ops[..i]).sys.prover, ops[i]) == Some(p)
    ensures var unaggregated := Apply(w, Unaggregated(w, sys, ops, i), ops[i]).reply;
            && Run(w, sys, ops).replies[i].AggReply? && unaggregated.AggReply?
            && (FirstOrSameKey(w, sys, ops, i, p) ==> Run(w, sys, ops).replies[i] == unaggregated)
            && (Run(w, sys, ops).replies[i].agg.Ok? && unaggregated.agg.Ok? ==>
                && KeyAt(w, sys, ops, i, p).Ok? && AggKey(w, p).Ok?
                && var vk, vk' := w.lib.vkOf(KeyAt(w, sys, ops, i, p).value), w.lib.vkOf(AggKey(w, p).value);
                   ReadsBack(w.lib, vk) && ReadsBack(w.lib, vk') ==>
                     (Run(w, sys, ops).replies[i].agg.value.vk == unaggregated.agg.value.vk <==> vk == vk'))
  {
    AggRepliesExact(w, sys, ops, i);
    UnaggregatedReply(w, sys, ops, i, p);
  }

  /** Two aggregation keys are the same if the written bytes of their verifying keys are. */
  predicate BytesTellApart(lib: Library, key: Outcome<Pk>, key': Outcome<Pk>) {
    key.Ok? && key'.Ok? && lib.writeVk(lib.vkOf(key.value)) == lib.writeVk(lib.vkOf(key'.value)) ==> key == key'
  }

  /** If the bytes tell the key used and the circuit's own apart, a successful reply is that of a prover that has not
      aggregated yet exactly when the operation is the first to get a key or the first one's key is the same. */
  lemma AggHistoryIff(w: World, sys: Sys, ops: seq<Op>, i: nat, p: ProvedCircuit)
    requires sys.prover.aggPk.None? && i < |ops|
    requires BytesTellApart(w.lib, KeyAt(w, sys, ops, i, p), AggKey(w, p))
    requires Aggregated(w, Run(w, sys, ops[..i]).sys.prover, ops[i]) == Some(p)
    requires Run(w, sys, ops).replies[i].AggReply? && Run(w, sys, ops).replies[i].agg.Ok?
    ensures Run(w, sys, ops).replies[i] == Apply(w, Unaggregated(w, sys, ops, i), ops[i]).reply
            <==> FirstOrSameKey(w, sys, ops, i, p)
  {
    AggRepliesExact(w, sys, ops, i);
    UnaggregatedReply(w, sys, ops, i, p);
    AggKeyIsFirstSource(w, sys, ops[..i]);
  }

  /** The case occurs: aggregating `p` and then `q`, whose keys print differently, gives a second proof with the key
      of `p`, where a prover that has not aggregated yet gives another reply, if `q` assembles under `p`'s key. */
  lemma AggHistoryWitness(w: World, sys: Sys, p: ProvedCircuit, q: ProvedCircuit)
    requires sys.prover.aggPk.None?
    requires FinalPairOf(w, p).Ok? && AggKey(w, p).Ok? && AggregateWith(w, AggKey(w, p), q).Ok?
    requires AggKey(w, q).Ok? ==>
               w.lib.writeVk(w.lib.vkOf(AggKey(w, p).value)) != w.lib.writeVk(w.lib.vkOf(AggKey(w, q).value))
    ensures var ops := [AggregateOp([p]), AggregateOp([q])];
            && Run(w, sys, ops).replies[1] == AggReply(AggregateWith(w, AggKey(w, p), q))
            && Run(w, sys, ops).replies[1] != Apply(w, Unaggregated(w, sys, ops, 1), ops[1]).reply
  {
    var first, second := AggregateOp([p]), AggregateOp([q]);
    var ops := [first, second];
    assert ops[..1] == [] + [first] && ops == [first] + [second];
    assert sys.prover.aggPk.None? && Aggregated(w, sys.prover, first) == Some(p);
    StepAggExact(w, sys, first);
    RunSnoc(w, sys, [], first);
    assert Run(w, sys, ops[..1]).sys.prover.aggPk == Some(AggKey(w, p).value);
    StepAggExact(w, Run(w, sys, ops[..1]).sys, second);
    ReplyAt(w, sys, ops, 1);
    UnaggregatedReply(w, sys, ops, 1, q);
  }

  // ---------------------------------------------------------------- the payload

  /** What an aggregate proof carries can be read back: instances by the loader, scalars by the chunked reader. */
  lemma AggregatePayload(w: World, s: ProverState, results: seq<ProvedCircuit>)
    requires RoundTrips(w.lib.tensorJson)
    requires Aggregate(w, s, results).result.Ok?
    ensures results != [] && FinalPairOf(w, results[0]).Ok?
    ensures var agg, p := Aggregate(w, s, results).result.value, results[0];
            var pair := FinalPairOf(w, p).value;
            && w.lib.finalPair(w.params, p.name, p.instance, p.transcript, p.vk) == Ok(pair)
            && LoadInstances(w.lib.tensorJson, agg.instance) == Ok([[w.lib.pairToInstances(pair)]])
            && |agg.finalPair| == 128 + 32 * |pair.scalars|
            && FlatScalars(agg.finalPair[128..]) == Ok(pair.scalars)
            && agg.blockCount == results[0].provedBlockCount
  {
    var pair := FinalPairOf(w, results[0]).value;
    InstanceFileRoundTrip(w.lib.tensorJson, [[w.lib.pairToInstances(pair)]]);
    FinalPairRoundTrip(pair);
  }

  /** A verifier configured with the prover's key bytes, or with none, judges an aggregate proof
      with the prover's key and instances. */
  lemma AggregateReachesVerifier(w: World, s: ProverState, results: seq<ProvedCircuit>, configured: bool)
    requires RoundTrips(w.lib.tensorJson)
    requires Aggregate(w, s, results).result.Ok?
    requires ReadsBack(w.lib, w.lib.vkOf(Aggregate(w, s, results).state.aggPk.value))
    ensures var step := Aggregate(w, s, results);
            var vk := w.lib.vkOf(step.state.aggPk.value);
            var raw := if configured then Some(w.lib.writeVk(vk)) else None;
            && step.state.aggPk.Some?
            && ParsedAggVk(w, raw).Ok?
            && VerifyAgg(w, raw, ParsedAggVk(w, raw).value, step.result.value)
               == w.lib.aggVerifyProof(w.aggParams, vk, [[w.lib.pairToInstances(FinalPairOf(w, results[0]).value)]],
                                       step.result.value.proof)
  {
    AggregatePayload(w, s, results);
    StepKeepsAggKey(w, Sys(s, map[]), AggregateOp(results));
  }
}
