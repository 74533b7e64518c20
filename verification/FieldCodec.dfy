/** Byte encodings of field elements and curve points (zkevm/src/io.rs). */
module FieldCodec {
  import opened Common

  // The scalar and base field moduli of the curve bn256.
  const FR_MODULUS: nat := 21888242871839275222246405745257275088548364400416034343698204186575808495617
  const FQ_MODULUS: nat := 21888242871839275222246405745257275088696311157297823662689037894645226208583

  type Fr = x: nat | x < FR_MODULUS
  type Fq = x: nat | x < FQ_MODULUS

  /** An affine point by its coordinates; curve membership plays no part in the encodings. */
  datatype G1Affine = G1Affine(x: Fq, y: Fq)

  // ---------------------------------------------------------------- numbers and bytes

  function Pow256(n: nat): (p: nat)
    ensures p >= 1
  {
    if n == 0 then 1 else 256 * Pow256(n - 1)
  }

  /** The `n` low bytes of `x`, least significant first. */
  function ToLe(x: nat, n: nat): (b: seq<Byte>)
    ensures |b| == n
  {
    if n == 0 then [] else [x % 256] + ToLe(x / 256, n - 1)
  }

  function FromLe(b: seq<Byte>): nat {
    if b == [] then 0 else b[0] + 256 * FromLe(b[1..])
  }

  /** The value of `b` read most significant byte first. */
  function FromBe(b: seq<Byte>): nat {
    if b == [] then 0 else 256 * FromBe(b[..|b| - 1]) + b[|b| - 1]
  }

  function Reverse<T>(s: seq<T>): (r: seq<T>)
    ensures |r| == |s|
  {
    seq(|s|, i requires 0 <= i < |s| => s[|s| - 1 - i])
  }

  lemma {:induction false} LeRoundTrip(x: nat, n: nat)
    requires x < Pow256(n)
    ensures FromLe(ToLe(x, n)) == x
  {
    if n > 0 {
      LeRoundTrip(x / 256, n - 1);
      assert ToLe(x, n)[1..] == ToLe(x / 256, n - 1);
    }
  }

  lemma LowByte(low: Byte, high: nat)
    ensures (low + 256 * high) % 256 == low && (low + 256 * high) / 256 == high
  {
  }

  lemma {:induction false} LeCanonical(b: seq<Byte>)
    ensures FromLe(b) < Pow256(|b|)
    ensures ToLe(FromLe(b), |b|) == b
  {
    if b != [] {
      LeCanonical(b[1..]);
      LowByte(b[0], FromLe(b[1..]));
      assert b == [b[0]] + b[1..];
    }
  }

  lemma {:induction false} BeIsReversedLe(b: seq<Byte>)
    ensures FromBe(Reverse(b)) == FromLe(b)
  {
    if b != [] {
      BeIsReversedLe(b[1..]);
      assert Reverse(b)[..|b| - 1] == Reverse(b[1..]);
    }
  }

  lemma {:induction false} BeInjective(a: seq<Byte>, b: seq<Byte>)
    requires |a| == |b| && FromBe(a) == FromBe(b)
    ensures a == b
  {
    if a != [] {
      BeInjective(a[..|a| - 1], b[..|b| - 1]);
      assert a == a[..|a| - 1] + [a[|a| - 1]] && b == b[..|b| - 1] + [b[|b| - 1]];
    }
  }

  lemma ModuliFitIn32Bytes()
    ensures FR_MODULUS < Pow256(32) && FQ_MODULUS < Pow256(32)
  {
    assert Pow256(8) == 0x1_0000_0000_0000_0000;
    assert Pow256(16) == 0x1_0000_0000_0000_0000_0000_0000_0000_0000;
    assert Pow256(24) == 0x1_0000_0000_0000_0000_0000_0000_0000_0000_0000_0000_0000_0000;
    assert Pow256(32) == 0x1_0000_0000_0000_0000_0000_0000_0000_0000_0000_0000_0000_0000_0000_0000_0000_0000;
  }

  // ---------------------------------------------------------------- nested scalar codecs

  function SerializeFr(f: Fr): seq<Byte> {
    ToLe(f, 32)
  }

  /** The canonical 32-byte encodings: exactly those below the modulus. */
  predicate CanonicalFr(buf: seq<Byte>) {
    |buf| == 32 && FromLe(buf) < FR_MODULUS
  }

  /** `Fr::from_bytes(&buf.try_into().unwrap()).unwrap()`, and the same with `from_repr`. */
  function DeserializeFr(buf: seq<Byte>): Outcome<Fr> {
    if CanonicalFr(buf) then Ok(FromLe(buf)) else Panic
  }

  function SerializeFrVec(v: seq<Fr>): seq<seq<Byte>> {
    Map(SerializeFr, v)
  }

  function DeserializeFrVec(buf: seq<seq<Byte>>): Outcome<seq<Fr>> {
    TryMap(DeserializeFr, buf)
  }

  function SerializeFrMatrix(m: seq<seq<Fr>>): seq<seq<seq<Byte>>> {
    Map(SerializeFrVec, m)
  }

  function DeserializeFrMatrix(buf: seq<seq<seq<Byte>>>): Outcome<seq<seq<Fr>>> {
    TryMap(DeserializeFrVec, buf)
  }

  function SerializeFrTensor(t: seq<seq<seq<Fr>>>): seq<seq<seq<seq<Byte>>>> {
    Map(SerializeFrMatrix, t)
  }

  function DeserializeFrTensor(buf: seq<seq<seq<seq<Byte>>>>): Outcome<seq<seq<seq<Fr>>>> {
    TryMap(DeserializeFrMatrix, buf)
  }

  lemma FrRoundTrip(f: Fr)
    ensures DeserializeFr(SerializeFr(f)) == Ok(f)
  {
    ModuliFitIn32Bytes();
    LeRoundTrip(f, 32);
  }

  lemma FrMatrixRoundTrip(m: seq<seq<Fr>>)
    ensures DeserializeFrMatrix(SerializeFrMatrix(m)) == Ok(m)
  {
    forall f: Fr { FrRoundTrip(f); }
    forall v { LiftLeftInverse(SerializeFr, DeserializeFr, v); }
    LiftLeftInverse(SerializeFrVec, DeserializeFrVec, m);
  }

  lemma FrTensorRoundTrip(t: seq<seq<seq<Fr>>>)
    ensures DeserializeFrTensor(SerializeFrTensor(t)) == Ok(t)
  {
    forall m { FrMatrixRoundTrip(m); }
    LiftLeftInverse(SerializeFrMatrix, DeserializeFrMatrix, t);
  }

  /** Deserialising panics on a single bad leaf and otherwise loses nothing: the bytes come back. */
  lemma FrTensorBytesRoundTrip(buf: seq<seq<seq<seq<Byte>>>>)
    ensures DeserializeFrTensor(buf).Ok? <==>
            forall i, j, k :: 0 <= i < |buf| && 0 <= j < |buf[i]| && 0 <= k < |buf[i][j]| ==> CanonicalFr(buf[i][j][k])
    ensures DeserializeFrTensor(buf).Ok? ==> SerializeFrTensor(DeserializeFrTensor(buf).value) == buf
  {
    forall leaf | DeserializeFr(leaf).Ok? ensures SerializeFr(DeserializeFr(leaf).value) == leaf {
      LeCanonical(leaf);
    }
    forall v {
      TryMapElements(DeserializeFr, v);
    }
    forall v | DeserializeFrVec(v).Ok? ensures SerializeFrVec(DeserializeFrVec(v).value) == v {
      LiftRightInverse(SerializeFr, DeserializeFr, v);
    }
    forall m {
      TryMapElements(DeserializeFrVec, m);
    }
    forall m | DeserializeFrMatrix(m).Ok? ensures SerializeFrMatrix(DeserializeFrMatrix(m).value) == m {
      LiftRightInverse(SerializeFrVec, DeserializeFrVec, m);
    }
    TryMapElements(DeserializeFrMatrix, buf);
    if DeserializeFrTensor(buf).Ok? {
      LiftRightInverse(SerializeFrMatrix, DeserializeFrMatrix, buf);
    }
  }

  // ---------------------------------------------------------------- instance files

  type Tensor = seq<seq<seq<Fr>>>
  type ByteTensor = seq<seq<seq<seq<Byte>>>>

  function LoadInstance(json: Format<ByteTensor>, buf: seq<Byte>): Outcome<Tensor> {
    match json.decode(buf)
    case None => Panic
    case Some(instances) => DeserializeFrTensor(instances)
  }

  /** The same file read by three nested inline maps. */
  function LoadInstances(json: Format<ByteTensor>, buf: seq<Byte>): Outcome<Tensor> {
    match json.decode(buf)
    case None => Panic
    case Some(instances) => TryMap(l1 => TryMap(l2 => TryMap(leaf => DeserializeFr(leaf), l2), l1), instances)
  }

  lemma LoadersAgree(json: Format<ByteTensor>, buf: seq<Byte>)
    ensures LoadInstances(json, buf) == LoadInstance(json, buf)
  {
    var leaf := (b: seq<Byte>) => DeserializeFr(b);
    var vec := (l2: seq<seq<Byte>>) => TryMap(leaf, l2);
    var matrix := (l1: seq<seq<seq<Byte>>>) => TryMap(vec, l1);
    forall l2 ensures vec(l2) == DeserializeFrVec(l2) { TryMapExtensional(leaf, DeserializeFr, l2); }
    forall l1 ensures matrix(l1) == DeserializeFrMatrix(l1) { TryMapExtensional(vec, DeserializeFrVec, l1); }
    match json.decode(buf)
    case None =>
    case Some(instances) =>
      assert LoadInstances(json, buf) == TryMap(matrix, instances);
      TryMapExtensional(matrix, DeserializeFrMatrix, instances);
  }

  /** Loading instances succeeds or panics. */
  lemma LoadNeverErrs(json: Format<ByteTensor>, buf: seq<Byte>)
    ensures !LoadInstances(json, buf).Err?
  {
    LoadersAgree(json, buf);
    forall v { TryMapNeverErrs(DeserializeFr, v); }
    forall m { TryMapNeverErrs(DeserializeFrVec, m); }
    if json.decode(buf).Some? {
      TryMapNeverErrs(DeserializeFrMatrix, json.decode(buf).value);
    }
  }

  lemma InstanceFileRoundTrip(json: Format<ByteTensor>, t: Tensor)
    requires RoundTrips(json)
    ensures LoadInstances(json, json.encode(SerializeFrTensor(t))) == Ok(t)
  {
    FrTensorRoundTrip(t);
    LoadersAgree(json, json.encode(SerializeFrTensor(t)));
  }

  // ---------------------------------------------------------------- chunked scalar reader

  /** `std::io::Cursor` over a byte slice. */
  class Cursor {
    const data: seq<Byte>
    var pos: nat

    ghost predicate Valid()
      reads this
    {
      pos <= |data|
    }

    constructor (data: seq<Byte>)
      ensures Valid() && this.data == data && pos == 0
    {
      this.data := data;
      pos := 0;
    }

    /** Fills `buf` and advances, or fails when fewer bytes than `buf` holds remain. */
    method ReadExact(buf: array<Byte>) returns (ok: bool)
      requires Valid()
      modifies this`pos, buf
      ensures Valid()
      ensures ok == (old(pos) + buf.Length <= |data|)
      ensures ok ==> pos == old(pos) + buf.Length && buf[..] == data[old(pos)..pos]
    {
      ok := pos + buf.Length <= |data|;
      if ok {
        forall i | 0 <= i < buf.Length {
          buf[i] := data[pos + i];
        }
        pos := pos + buf.Length;
      } else {
        pos := |data|;
      }
    }
  }

  function Chunk(buf: seq<Byte>, k: nat): seq<Byte>
    requires 32 * k + 32 <= |buf|
  {
    buf[32 * k..32 * k + 32]
  }

  /** The scalars of `buf`, 32 bytes at a time; a tail shorter than 32 bytes is ignored. */
  function FlatScalars(buf: seq<Byte>): Outcome<seq<Fr>> {
    if |buf| < 32 then Ok([]) else Then(OneScalar(buf[..32]), FlatScalars(buf[32..]))
  }

  function OneScalar(chunk: seq<Byte>): Outcome<seq<Fr>> {
    var x :- DeserializeFr(chunk);
    Ok([x])
  }

  lemma ChunkShift(buf: seq<Byte>, k: nat)
    requires 32 * k + 64 <= |buf|
    ensures Chunk(buf[32..], k) == Chunk(buf, k + 1)
  {
    assert buf[32..][32 * k..32 * k + 32] == buf[32 * k + 32..32 * k + 64];
  }

  /** Success, length and every element of the chunked read, for every input length. */
  lemma {:induction false} FlatScalarsExact(buf: seq<Byte>)
    ensures FlatScalars(buf).Ok? <==> forall k: nat :: k < |buf| / 32 ==> CanonicalFr(Chunk(buf, k))
    ensures FlatScalars(buf).Ok? ==>
              && |FlatScalars(buf).value| == |buf| / 32
              && forall k: nat :: k < |buf| / 32 ==> FlatScalars(buf).value[k] == FromLe(Chunk(buf, k))
    ensures !FlatScalars(buf).Err?
  {
    if |buf| >= 32 {
      var rest := buf[32..];
      FlatScalarsExact(rest);
      assert |rest| / 32 == |buf| / 32 - 1;
      assert buf[..32] == Chunk(buf, 0);
      forall k: nat | k < |rest| / 32 ensures Chunk(rest, k) == Chunk(buf, k + 1) {
        ChunkShift(buf, k);
      }
      if !FlatScalars(rest).Ok? {
        var k: nat :| k < |rest| / 32 && !CanonicalFr(Chunk(rest, k));
        assert !CanonicalFr(Chunk(buf, k + 1));
      }
      if FlatScalars(buf).Ok? {
        forall k: nat | 0 < k < |buf| / 32
          ensures CanonicalFr(Chunk(buf, k)) && FlatScalars(buf).value[k] == FromLe(Chunk(buf, k))
        {
          ChunkShift(buf, k - 1);
        }
      }
    }
  }

  method LoadInstancesFlat(buf: seq<Byte>) returns (r: Outcome<Tensor>)
    ensures r == match FlatScalars(buf) case Ok(v) => Ok([[v]]) case _ => Panic
  {
    var ret: seq<Fr> := [];
    var cursor := new Cursor(buf);
    var scalarBytes := new Byte[32];
    FlatScalarsExact(buf);
    assert buf[0..] == buf;
    PrependNothing(FlatScalars(buf));
    while true
      invariant cursor.Valid() && cursor.data == buf && fresh(cursor) && fresh(scalarBytes)
      invariant FlatScalars(buf) == Prepend(ret, FlatScalars(buf[cursor.pos..]))
      decreases |buf| - cursor.pos
    {
      ghost var rest := buf[cursor.pos..];
      var ok := cursor.ReadExact(scalarBytes);
      if !ok {
        assert ret + [] == ret;
        return Ok([[ret]]);
      }
      assert scalarBytes[..] == rest[..32] && buf[cursor.pos..] == rest[32..];
      PrependThen(ret, OneScalar(rest[..32]), FlatScalars(rest[32..]));
      var x := DeserializeFr(scalarBytes[..]);
      if x.IsFailure() {
        return Panic;
      }
      ret := ret + [x.value];
    }
  }

  /** The bytes of a scalar list, one 32-byte encoding after the other. */
  function ScalarBytes(v: seq<Fr>): (b: seq<Byte>)
    ensures |b| == 32 * |v|
  {
    if v == [] then [] else ScalarBytes(v[..|v| - 1]) + SerializeFr(v[|v| - 1])
  }

  /** Reading whole chunks and then more is reading them one after the other. */
  lemma {:induction false} FlatScalarsAppend(a: seq<Byte>, b: seq<Byte>)
    requires |a| % 32 == 0
    ensures FlatScalars(a + b) == Then(FlatScalars(a), FlatScalars(b))
  {
    if |a| < 32 {
      assert a + b == b;
      PrependNothing(FlatScalars(b));
    } else {
      FlatScalarsAppend(a[32..], b);
      assert (a + b)[..32] == a[..32] && (a + b)[32..] == a[32..] + b;
      ThenAssociates(OneScalar(a[..32]), FlatScalars(a[32..]), FlatScalars(b));
    }
  }

  lemma SingleScalar(f: Fr, tail: seq<Byte>)
    requires |tail| < 32
    ensures FlatScalars(SerializeFr(f) + tail) == Ok([f])
  {
    var bytes := SerializeFr(f);
    FrRoundTrip(f);
    assert (bytes + tail)[..32] == bytes && (bytes + tail)[32..] == tail;
    assert [f] + [] == [f];
  }

  lemma OneMoreScalar(front: seq<Byte>, v: seq<Fr>, f: Fr, tail: seq<Byte>)
    requires |front| % 32 == 0 && FlatScalars(front) == Ok(v) && |tail| < 32
    ensures FlatScalars(front + (SerializeFr(f) + tail)) == Ok(v + [f])
  {
    SingleScalar(f, tail);
    FlatScalarsAppend(front, SerializeFr(f) + tail);
  }

  /** The reader inverts concatenated `serialize_fr`, and a short tail changes nothing. */
  lemma {:induction false} FlatScalarsInvert(v: seq<Fr>, tail: seq<Byte>)
    requires |tail| < 32
    ensures FlatScalars(ScalarBytes(v) + tail) == Ok(v)
  {
    if v == [] {
      assert ScalarBytes(v) + tail == tail;
    } else {
      var init, last := v[..|v| - 1], v[|v| - 1];
      var front := ScalarBytes(init);
      FlatScalarsInvert(init, []);
      assert front + [] == front;
      OneMoreScalar(front, init, last, tail);
      assert ScalarBytes(v) + tail == front + (SerializeFr(last) + tail);
      assert init + [last] == v;
    }
  }

  // ---------------------------------------------------------------- big-endian commitments

  /** A growing output buffer behind `Write::write_all`. */
  class ByteSink {
    var bytes: seq<Byte>

    constructor ()
      ensures bytes == []
    {
      bytes := [];
    }

    method WriteAll(b: seq<Byte>)
      modifies this
      ensures bytes == old(bytes) + b
    {
      bytes := bytes + b;
    }
  }

  /** `BigUint::to_bytes_le`: no high zero bytes, except that zero is one zero byte. */
  function MinimalLe(x: nat): seq<Byte> {
    if x < 256 then [x] else [x % 256] + MinimalLe(x / 256)
  }

  /** `Vec::resize(n, 0)`: pads with zeros or drops the end. */
  function Resize(b: seq<Byte>, n: nat): seq<Byte> {
    if |b| <= n then b + seq(n - |b|, _ => 0) else b[..n]
  }

  function ToBytesBe(x: nat): seq<Byte> {
    Reverse(Resize(MinimalLe(x), 32))
  }

  /** `field_to_bn` */
  function FieldToBn(f: Fq): nat {
    FromLe(ToLe(f, 32))
  }

  lemma {:induction false} ToLeZero(n: nat)
    ensures ToLe(0, n) == seq(n, _ => 0)
  {
    if n > 0 {
      ToLeZero(n - 1);
    }
  }

  lemma QuotientBelow(x: nat, bound: nat)
    requires x < 256 * bound
    ensures x / 256 < bound
  {
  }

  lemma ResizeCons(low: Byte, rest: seq<Byte>, n: nat)
    requires |rest| <= n
    ensures Resize([low] + rest, n + 1) == [low] + Resize(rest, n)
  {
  }

  /** Dropping the high zeros and padding again is the fixed-width encoding. */
  lemma {:induction false} MinimalThenPadded(x: nat, n: nat)
    requires n >= 1 && x < Pow256(n)
    ensures |MinimalLe(x)| <= n
    ensures Resize(MinimalLe(x), n) == ToLe(x, n)
  {
    if x < 256 {
      ToLeZero(n - 1);
      assert Resize([], n - 1) == ToLe(0, n - 1);
      ResizeCons(x, [], n - 1);
      assert MinimalLe(x) == [x] + [];
    } else {
      QuotientBelow(x, Pow256(n - 1));
      var low, high := x % 256, x / 256;
      MinimalThenPadded(high, n - 1);
      ResizeCons(low, MinimalLe(high), n - 1);
    }
  }

  /** The fixed-width big-endian form of a coordinate. */
  function Be32(x: nat): (b: seq<Byte>)
    ensures |b| == 32
  {
    Reverse(ToLe(x, 32))
  }

  /** For every coordinate below 2^256 the closure yields its 32-byte big-endian form, the only such string. */
  lemma ToBytesBeExact(x: nat)
    requires x < Pow256(32)
    ensures ToBytesBe(x) == Be32(x) && FromBe(Be32(x)) == x
    ensures forall b: seq<Byte> :: |b| == 32 && FromBe(b) == x ==> b == Be32(x)
  {
    MinimalThenPadded(x, 32);
    BeIsReversedLe(ToLe(x, 32));
    LeRoundTrip(x, 32);
    forall b: seq<Byte> | |b| == 32 && FromBe(b) == x ensures b == Be32(x) {
      BeInjective(b, Be32(x));
    }
  }

  lemma CoordinateBe(f: Fq)
    ensures ToBytesBe(FieldToBn(f)) == Be32(f)
    ensures FromBe(Be32(f)) == f
  {
    ModuliFitIn32Bytes();
    LeCoordinate(f);
    ToBytesBeExact(f);
  }

  function PointBytes(p: G1Affine): (b: seq<Byte>)
    ensures |b| == 64
  {
    Be32(p.x) + Be32(p.y)
  }

  lemma PointBytesWritten(p: G1Affine)
    ensures ToBytesBe(FieldToBn(p.x)) + ToBytesBe(FieldToBn(p.y)) == PointBytes(p)
  {
    CoordinateBe(p.x);
    CoordinateBe(p.y);
  }

  /** 64 bytes a point: both coordinates in fixed-width big-endian form. */
  function CommitmentBytes(points: seq<G1Affine>): (b: seq<Byte>)
    ensures |b| == 64 * |points|
  {
    if points == [] then []
    else
      CommitmentBytes(points[..|points| - 1]) + PointBytes(points[|points| - 1])
  }

  lemma {:induction false} CommitmentBytesSnoc(points: seq<G1Affine>, p: G1Affine)
    ensures CommitmentBytes(points + [p]) == CommitmentBytes(points) + PointBytes(p)
  {
    assert (points + [p])[..|points|] == points;
  }

  /** The inner loop: one vector of commitments. */
  method WriteCommitments(fd: ByteSink, v: seq<G1Affine>, ghost done: seq<G1Affine>)
    requires fd.bytes == CommitmentBytes(done)
    modifies fd
    ensures fd.bytes == CommitmentBytes(done + v)
  {
    assert done + v[..0] == done;
    for j := 0 to |v|
      invariant fd.bytes == CommitmentBytes(done + v[..j])
    {
      var x := FieldToBn(v[j].x);
      var y := FieldToBn(v[j].y);
      PointBytesWritten(v[j]);
      fd.WriteAll(ToBytesBe(x) + ToBytesBe(y));
      CommitmentBytesSnoc(done + v[..j], v[j]);
      assert done + v[..j + 1] == done + v[..j] + [v[j]];
    }
    assert v[..|v|] == v;
  }

  method SerializeCommitments(buf: seq<seq<G1Affine>>) returns (result: seq<Byte>)
    ensures result == CommitmentBytes(Flatten(buf))
  {
    var fd := new ByteSink();
    for i := 0 to |buf|
      invariant fd.bytes == CommitmentBytes(Flatten(buf[..i]))
    {
      WriteCommitments(fd, buf[i], Flatten(buf[..i]));
      assert buf[..i + 1][..i] == buf[..i];
    }
    assert buf[..|buf|] == buf;
    result := fd.bytes;
  }

  /** The reading of a commitment file: 64 bytes per point, two big-endian halves. */
  function ParsePoints(b: seq<Byte>): seq<(nat, nat)>
    requires |b| % 64 == 0
  {
    if b == [] then []
    else ParsePoints(b[..|b| - 64]) + [(FromBe(b[|b| - 64..|b| - 32]), FromBe(b[|b| - 32..]))]
  }

  function Coordinates(points: seq<G1Affine>): (c: seq<(nat, nat)>)
    ensures |c| == |points|
  {
    if points == [] then []
    else
      var p := points[|points| - 1];
      Coordinates(points[..|points| - 1]) + [(p.x, p.y)]
  }

  lemma {:induction false} CoordinatesInjective(p: seq<G1Affine>, q: seq<G1Affine>)
    requires Coordinates(p) == Coordinates(q)
    ensures p == q
  {
    var cp, cq := Coordinates(p), Coordinates(q);
    if p != [] {
      var n := |p| - 1;
      assert Coordinates(p[..n]) == cp[..n] && Coordinates(q[..n]) == cq[..n];
      CoordinatesInjective(p[..n], q[..n]);
      assert cp[n] == cq[n];
      assert p == p[..n] + [p[n]] && q == q[..n] + [q[n]];
    }
  }

  lemma ParsePointsSnoc(b: seq<Byte>, p: G1Affine)
    requires |b| % 64 == 0
    ensures ParsePoints(b + PointBytes(p)) == ParsePoints(b) + [(p.x, p.y)]
  {
    var all, x, y := b + PointBytes(p), Be32(p.x), Be32(p.y);
    CoordinateBe(p.x);
    CoordinateBe(p.y);
    assert all == b + x + y;
    assert all[..|all| - 64] == b && all[|all| - 64..|all| - 32] == x && all[|all| - 32..] == y;
  }

  lemma {:induction false} CommitmentsReadBack(points: seq<G1Affine>)
    ensures ParsePoints(CommitmentBytes(points)) == Coordinates(points)
  {
    if points != [] {
      CommitmentsReadBack(points[..|points| - 1]);
      ParsePointsSnoc(CommitmentBytes(points[..|points| - 1]), points[|points| - 1]);
    }
  }

  /** Two inputs share their output exactly when they flatten to the same points:
      the points are determined, their grouping is not. */
  lemma CommitmentsDetermineFlattenedPoints(p: seq<seq<G1Affine>>, q: seq<seq<G1Affine>>)
    ensures CommitmentBytes(Flatten(p)) == CommitmentBytes(Flatten(q)) <==> Flatten(p) == Flatten(q)
  {
    if CommitmentBytes(Flatten(p)) == CommitmentBytes(Flatten(q)) {
      CommitmentsReadBack(Flatten(p));
      CommitmentsReadBack(Flatten(q));
      CoordinatesInjective(Flatten(p), Flatten(q));
    }
  }

  // ---------------------------------------------------------------- aggregation final pair

  datatype FinalPair = FinalPair(left: G1Affine, right: G1Affine, scalars: seq<Fr>)

  function FinalPairBytes(pair: FinalPair): seq<Byte> {
    ToLe(pair.left.x, 32) + ToLe(pair.left.y, 32) + ToLe(pair.right.x, 32) + ToLe(pair.right.y, 32)
    + ScalarBytes(pair.scalars)
  }

  method SerializeVerifyCircuitFinalPair(pair: FinalPair) returns (result: seq<Byte>)
    ensures result == FinalPairBytes(pair)
  {
    var fd := new ByteSink();
    fd.WriteAll(ToLe(pair.left.x, 32));
    fd.WriteAll(ToLe(pair.left.y, 32));
    fd.WriteAll(ToLe(pair.right.x, 32));
    fd.WriteAll(ToLe(pair.right.y, 32));
    ghost var head := fd.bytes;
    for i := 0 to |pair.scalars|
      invariant fd.bytes == head + ScalarBytes(pair.scalars[..i])
    {
      fd.WriteAll(SerializeFr(pair.scalars[i]));
      assert pair.scalars[..i + 1][..i] == pair.scalars[..i];
    }
    assert pair.scalars[..|pair.scalars|] == pair.scalars;
    result := fd.bytes;
  }

  /** Every field is read back at its fixed offset, the scalars by the chunked reader. */
  lemma FinalPairRoundTrip(pair: FinalPair)
    ensures var b := FinalPairBytes(pair);
            && |b| == 128 + 32 * |pair.scalars|
            && FromLe(b[..32]) == pair.left.x && FromLe(b[32..64]) == pair.left.y
            && FromLe(b[64..96]) == pair.right.x && FromLe(b[96..128]) == pair.right.y
            && FlatScalars(b[128..]) == Ok(pair.scalars)
  {
    LeCoordinate(pair.left.x);
    LeCoordinate(pair.left.y);
    LeCoordinate(pair.right.x);
    LeCoordinate(pair.right.y);
    FourParts(ToLe(pair.left.x, 32), ToLe(pair.left.y, 32), ToLe(pair.right.x, 32), ToLe(pair.right.y, 32),
              ScalarBytes(pair.scalars));
    FlatScalarsInvert(pair.scalars, []);
    assert ScalarBytes(pair.scalars) + [] == ScalarBytes(pair.scalars);
  }

  lemma LeCoordinate(f: Fq)
    ensures FromLe(ToLe(f, 32)) == f
  {
    ModuliFitIn32Bytes();
    LeRoundTrip(f, 32);
  }

  lemma FourParts(a: seq<Byte>, b: seq<Byte>, c: seq<Byte>, d: seq<Byte>, rest: seq<Byte>)
    requires |a| == |b| == |c| == |d| == 32
    ensures var all := a + b + c + d + rest;
            && all[..32] == a && all[32..64] == b && all[64..96] == c && all[96..128] == d && all[128..] == rest
  {
  }

  lemma FinalPairInjective(p: FinalPair, q: FinalPair)
    requires FinalPairBytes(p) == FinalPairBytes(q)
    ensures p == q
  {
    FinalPairRoundTrip(p);
    FinalPairRoundTrip(q);
  }
}
