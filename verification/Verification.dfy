/** The verifier and its on-demand key cache (zkevm/src/verifier.rs). */
module Verification {
  import opened Common
  import opened FieldCodec
  import opened Backend

  /** The instances of a target proof: unreadable JSON is an error, a bad leaf a panic. */
  function ReadInstances(w: World, proof: TargetCircuitProof): Outcome<Instance> {
    match w.lib.matrixJson.decode(proof.instance)
    case None => Err(Json)
    case Some(bytes) => DeserializeFrMatrix(bytes)
  }

  /** Instances are read exactly if they are a matrix of canonical scalars, whose values they then are; text that is no
      matrix is an error, any other scalar a panic. */
  lemma ReadInstancesExact(w: World, proof: TargetCircuitProof)
    ensures match w.lib.matrixJson.decode(proof.instance)
            case None => ReadInstances(w, proof) == Err(Json)
            case Some(m) =>
              var r := ReadInstances(w, proof);
              && (r == Panic || r.Ok?)
              && (r.Ok? <==> forall i, j :: 0 <= i < |m| && 0 <= j < |m[i]| ==> CanonicalFr(m[i][j]))
              && (r.Ok? ==> |r.value| == |m| && forall i :: 0 <= i < |m| ==>
                    |r.value[i]| == |m[i]| && forall j :: 0 <= j < |m[i]| ==> r.value[i][j] == FromLe(m[i][j]))
  {
    if w.lib.matrixJson.decode(proof.instance).Some? {
      var m := w.lib.matrixJson.decode(proof.instance).value;
      TryMapElements(DeserializeFrVec, m);
      forall v { TryMapElements(DeserializeFr, v); }
      forall v { TryMapNeverErrs(DeserializeFr, v); }
      TryMapNeverErrs(DeserializeFrVec, m);
    }
  }

  /** The verdict on a target proof with the key generated afresh. */
  function Verdict(w: World, c: TargetCircuit, proof: TargetCircuitProof): Outcome<()> {
    var instances :- ReadInstances(w, proof);
    var vk :- CircuitVk(w, c);
    w.lib.verifyProof(w.params, vk, instances, proof.proof)
  }

  /** `entry(C::name()).or_insert_with(..)` */
  function CachedVk(w: World, vks: map<string, Vk>, c: TargetCircuit): Outcome<Vk> {
    if c.Name() in vks then Ok(vks[c.Name()]) else CircuitVk(w, c)
  }

  datatype VerifyStep = VerifyStep(vks: map<string, Vk>, result: Outcome<()>)

  /** `verify_target_circuit_proof` on a given cache. */
  function VerifyTarget(w: World, vks: map<string, Vk>, c: TargetCircuit, proof: TargetCircuitProof): VerifyStep {
    match ReadInstances(w, proof)
    case Ok(instances) =>
      (match CachedVk(w, vks, c)
       case Ok(vk) => VerifyStep(vks[c.Name() := vk], w.lib.verifyProof(w.params, vk, instances, proof.proof))
       case failed => VerifyStep(vks, failed.PropagateFailure()))
    case failed => VerifyStep(vks, failed.PropagateFailure())
  }

  /** The verdict never depends on what the cache holds, and the cache stays sound. */
  lemma VerdictIgnoresCache(w: World, vks: map<string, Vk>, c: TargetCircuit, proof: TargetCircuitProof)
    requires SoundVks(w, vks)
    ensures VerifyTarget(w, vks, c, proof).result == Verdict(w, c, proof)
    ensures SoundVks(w, VerifyTarget(w, vks, c, proof).vks)
  {
    if c.Name() in vks {
      SoundVkLookup(w, vks, c);
    }
  }

  // ---------------------------------------------------------------- aggregation proofs

  /** The mismatch log slices both encodings to ten bytes, which both must then have. */
  predicate MismatchLoggable(w: World, rawAggVk: Option<seq<Byte>>, vk: seq<Byte>) {
    rawAggVk.Some? && vk != rawAggVk.value && w.cfg.logError ==> |vk| >= 10 && |rawAggVk.value| >= 10
  }

  /** `verify_agg_circuit_proof` with the verifier's configured raw and parsed key. */
  function VerifyAgg(w: World, rawAggVk: Option<seq<Byte>>, aggVk: Option<Vk>, proof: AggCircuitProof): Outcome<()> {
    var _ :- Require(MismatchLoggable(w, rawAggVk, proof.vk));
    var instances :- LoadInstances(w.lib.tensorJson, proof.instance);
    var vkInProof :- w.lib.readVk(proof.vk);
    var vk := if aggVk.Some? then aggVk.value else vkInProof;
    w.lib.aggVerifyProof(w.aggParams, vk, instances, proof.proof)
  }

  /** The parsed key of a verifier's configuration. */
  function ParsedAggVk(w: World, rawAggVk: Option<seq<Byte>>): Outcome<Option<Vk>> {
    match rawAggVk
    case None => Ok(None)
    case Some(raw) =>
      var vk :- w.lib.readVk(raw).Unwrap();
      Ok(Some(vk))
  }

  class Verifier {
    const w: World
    const rawAggVk: Option<seq<Byte>>
    const aggVk: Option<Vk>
    var targetCircuitVks: map<string, Vk>

    ghost predicate Valid()
      reads this
    {
      SoundVks(w, targetCircuitVks) && ParsedAggVk(w, rawAggVk) == Ok(aggVk)
    }

    constructor (w: World, rawAggVk: Option<seq<Byte>>, aggVk: Option<Vk>)
      requires ParsedAggVk(w, rawAggVk) == Ok(aggVk)
      ensures Valid() && targetCircuitVks == map[]
      ensures this.w == w && this.rawAggVk == rawAggVk && this.aggVk == aggVk
    {
      this.w := w;
      this.rawAggVk := rawAggVk;
      this.aggVk := aggVk;
      targetCircuitVks := map[];
    }

    static method New(w: World, rawAggVk: Option<seq<Byte>>) returns (r: Outcome<Verifier>)
      ensures rawAggVk.Some? && !w.lib.readVk(rawAggVk.value).Ok? ==> r == Panic
      ensures rawAggVk.None? || w.lib.readVk(rawAggVk.value).Ok? ==>
                && r.Ok? && fresh(r.value) && r.value.Valid() && r.value.targetCircuitVks == map[]
                && r.value.w == w && r.value.rawAggVk == rawAggVk
                && r.value.aggVk == if rawAggVk.Some? then Some(w.lib.readVk(rawAggVk.value).value) else None
    {
      var aggVk :- ParsedAggVk(w, rawAggVk);
      var v := new Verifier(w, rawAggVk, aggVk);
      return Ok(v);
    }

    method VerifyTargetCircuitProof(c: TargetCircuit, proof: TargetCircuitProof) returns (r: Outcome<()>)
      requires Valid()
      modifies this
      ensures Valid()
      ensures VerifyStep(targetCircuitVks, r) == VerifyTarget(w, old(targetCircuitVks), c, proof)
      ensures r == Verdict(w, c, proof)
    {
      VerdictIgnoresCache(w, targetCircuitVks, c, proof);
      var instances :- ReadInstances(w, proof);
      if c.Name() !in targetCircuitVks {
        var generated :- CircuitVk(w, c);
        targetCircuitVks := targetCircuitVks[c.Name() := generated];
      }
      var vk := targetCircuitVks[c.Name()];
      assert targetCircuitVks == old(targetCircuitVks)[c.Name() := vk];
      r := w.lib.verifyProof(w.params, vk, instances, proof.proof);
    }

    /** Panics if key bytes that differ from the configured ones are too short for an enabled log, or if the instances
        do not load; fails as reading the proof's key bytes does; and else gives the outside verdict under the
        configured key, or under the proof's own when none is configured. */
    method VerifyAggCircuitProof(proof: AggCircuitProof) returns (r: Outcome<()>)
      requires Valid()
      ensures r == VerifyAgg(w, rawAggVk, aggVk, proof)
      ensures var instances, own := LoadInstances(w.lib.tensorJson, proof.instance), w.lib.readVk(proof.vk);
              var unloggable := rawAggVk.Some? && proof.vk != rawAggVk.value && w.cfg.logError
                                && (|proof.vk| < 10 || |rawAggVk.value| < 10);
              if unloggable || !instances.Ok? then r == Panic
              else if !own.Ok? then r == own.PropagateFailure()
              else
                var key := if rawAggVk.Some? then w.lib.readVk(rawAggVk.value) else own;
                key.Ok? && r == w.lib.aggVerifyProof(w.aggParams, key.value, instances.value, proof.proof)
    {
      LoadNeverErrs(w.lib.tensorJson, proof.instance);
      if rawAggVk.Some? && proof.vk != rawAggVk.value && w.cfg.logError {
        if |proof.vk| < 10 || |rawAggVk.value| < 10 {
          return Panic;
        }
      }
      var verifyCircuitInstance :- LoadInstances(w.lib.tensorJson, proof.instance);
      var vkInProof :- w.lib.readVk(proof.vk);
      r := w.lib.aggVerifyProof(w.aggParams, if aggVk.Some? then aggVk.value else vkInProof,
                                verifyCircuitInstance, proof.proof);
    }
  }

  /** The key bytes of a proof that get past the mismatch log and the reader. */
  predicate KeyBytesAccepted(w: World, raw: seq<Byte>, vk: seq<Byte>) {
    MismatchLoggable(w, Some(raw), vk) && w.lib.readVk(vk).Ok?
  }

  /** With a configured key the key bytes of a proof choose nothing. Accepted ones, equal to the configured ones or not,
      get the verdict of the configured ones. The others fail: with a panic if they cannot be logged or the instances do
      not load, else as reading them does. */
  lemma ConfiguredKeyDecides(w: World, raw: seq<Byte>, aggVk: Vk, proof: AggCircuitProof)
    requires ParsedAggVk(w, Some(raw)) == Ok(Some(aggVk))
    ensures KeyBytesAccepted(w, raw, proof.vk) ==>
              VerifyAgg(w, Some(raw), Some(aggVk), proof) == VerifyAgg(w, Some(raw), Some(aggVk), proof.(vk := raw))
    ensures !KeyBytesAccepted(w, raw, proof.vk) ==>
              VerifyAgg(w, Some(raw), Some(aggVk), proof)
              == if !MismatchLoggable(w, Some(raw), proof.vk) || !LoadInstances(w.lib.tensorJson, proof.instance).Ok?
                 then Panic else w.lib.readVk(proof.vk).PropagateFailure()
  {
    LoadNeverErrs(w.lib.tensorJson, proof.instance);
  }
}
