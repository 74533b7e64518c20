/** Parameter and seed files: length check, load-or-create (zkevm/src/utils.rs). */
module ParamsStore {
  import opened Common
  import opened FieldCodec
  import opened FileStore

  /** `ParamsKZG<Bn256>` */
  type Params(==, !new)

  datatype SerdeFormat = Processed | RawBytes | RawBytesUnchecked

  const DEFAULT_SERDE_FORMAT: SerdeFormat := RawBytesUnchecked

  /** The KZG library: reading, writing, the deterministic setup from a degree and a secret, and whether two
      parameter sets have the same g2 elements. */
  datatype ParamsEnv = ParamsEnv(
    read: (seq<Byte>, SerdeFormat) -> Outcome<Params>,
    write: (Params, SerdeFormat) -> seq<Byte>,
    setup: (nat, Fr) -> Params,
    sameG2: (Params, Params) -> bool)

  // ---------------------------------------------------------------- the length of a parameter file

  function G1Length(format: SerdeFormat): nat {
    match format
    case Processed => 32
    case RawBytes | RawBytesUnchecked => 64
  }

  /** `4 + g1_num * g1_bytes_len + g2_num * g2_bytes_len` */
  function ExpectedLength(format: SerdeFormat, degree: nat): nat {
    4 + 2 * Pow2(degree) * G1Length(format) + 2 * (2 * G1Length(format))
  }

  lemma ExpectedLengthClosedForm(format: SerdeFormat, degree: nat)
    ensures ExpectedLength(format, degree)
            == if format == Processed then Pow2(degree + 6) + 132 else Pow2(degree + 7) + 260
  {
    Pow2Add(degree, 6);
    Pow2Add(degree, 7);
    assert Pow2(6) == 64 && Pow2(7) == 128;
  }

  lemma {:induction false} Pow2StrictlyMonotone(m: nat, n: nat)
    requires m < n
    ensures 2 * Pow2(m) <= Pow2(n)
  {
    Pow2Monotone(m + 1, n);
  }

  lemma LengthStrictlyIncreasing(format: SerdeFormat, d: nat, e: nat)
    ensures d < e <==> ExpectedLength(format, d) < ExpectedLength(format, e)
  {
    if d < e {
      Pow2StrictlyMonotone(d, e);
    } else {
      Pow2Monotone(e, d);
    }
  }

  lemma Pow2Injective(m: nat, n: nat)
    ensures Pow2(m) == Pow2(n) <==> m == n
  {
    if m < n {
      Pow2StrictlyMonotone(m, n);
    } else if n < m {
      Pow2StrictlyMonotone(n, m);
    }
  }

  /** 2^d + 1 is a power of two only as 2^0 + 1 = 2^1. */
  lemma SuccessorOfPowerOfTwo(d: nat, e: nat)
    requires Pow2(d) + 1 == Pow2(e)
    ensures d == 0 && e == 1
  {
    Pow2Injective(e, 1);
  }

  /** The length tells format width and degree apart, except that raw degree 0 and processed degree 2 both give 388. */
  lemma LengthDeterminesFormatAndDegree(f: SerdeFormat, d: nat, g: SerdeFormat, e: nat)
    ensures ExpectedLength(f, d) == ExpectedLength(g, e) <==>
            || (G1Length(f) == G1Length(g) && d == e)
            || (f != Processed && d == 0 && g == Processed && e == 2)
            || (f == Processed && d == 2 && g != Processed && e == 0)
  {
    if G1Length(f) == G1Length(g) {
      LengthStrictlyIncreasing(f, d, e);
      LengthStrictlyIncreasing(f, e, d);
    } else if f == Processed {
      RawAgainstProcessed(g, e, d);
    } else {
      RawAgainstProcessed(f, d, e);
    }
  }

  lemma RawAgainstProcessed(raw: SerdeFormat, d: nat, e: nat)
    requires raw != Processed
    ensures ExpectedLength(raw, d) == ExpectedLength(Processed, e) <==> d == 0 && e == 2
  {
    if ExpectedLength(raw, d) == ExpectedLength(Processed, e) {
      assert Pow2(e) == 2 * Pow2(d) + 2;
      if e > 0 {
        SuccessorOfPowerOfTwo(d, e - 1);
      }
    }
  }

  /** The lengths that fit the source's 64-bit file size. */
  lemma LengthFitsU64(degree: nat)
    ensures ExpectedLength(RawBytes, degree) < 0x1_0000_0000_0000_0000 <==> degree <= 56
    ensures ExpectedLength(Processed, degree) < 0x1_0000_0000_0000_0000 <==> degree <= 57
  {
    Pow2Of63();
    ExpectedLengthClosedForm(RawBytes, degree);
    ExpectedLengthClosedForm(Processed, degree);
    if degree <= 56 {
      Pow2Monotone(degree + 7, 63);
    } else {
      Pow2Monotone(64, degree + 7);
    }
    if degree <= 57 {
      Pow2Monotone(degree + 6, 63);
    } else {
      Pow2Monotone(64, degree + 6);
    }
  }

  // ---------------------------------------------------------------- parameter files

  function ParamsName(degree: nat): string {
    "params" + Digits(degree)
  }

  function ParamsPath(dir: string, degree: nat): string {
    Join(dir, ParamsName(degree))
  }

  lemma ParamsPathInjective(d1: string, n1: nat, d2: string, n2: nat)
    requires ParamsPath(d1, n1) == ParamsPath(d2, n2)
    ensures d1 == d2 && n1 == n2
  {
    DigitsPlain(n1);
    DigitsPlain(n2);
    JoinInjective(d1, ParamsName(n1), d2, ParamsName(n2));
    assert ParamsName(n1)[6..] == Digits(n1) && ParamsName(n2)[6..] == Digits(n2);
    DigitsInjective(n1, n2);
  }

  function CheckedRead(env: ParamsEnv, bytes: seq<Byte>, degree: nat, format: SerdeFormat): Outcome<Params> {
    if |bytes| != ExpectedLength(format, degree) then Err(InvalidParamsLength(|bytes|))
    else env.read(bytes, format)
  }

  /** `load_params`: the path names a file, or a directory that holds the file of that degree. */
  function LoadParams(env: ParamsEnv, disk: Disk, path: string, degree: nat, format: SerdeFormat): Outcome<Params> {
    var target := if At(disk, path) == Some(Dir) then ParamsPath(path, degree) else path;
    var bytes :- ReadFile(disk, target);
    CheckedRead(env, bytes, degree, format)
  }

  /** The secret of `create_params`: PARAM_SEED's first 32 bytes, or OS randomness when it is empty. */
  function SecretFrom(seedText: seq<Byte>, osRandom: Fr): Outcome<Fr> {
    if seedText == [] then Ok(osRandom)
    else if |seedText| < 32 then Panic
    else Ok(FromLe(seedText[..32]) % FR_MODULUS)
  }

  function CreateParams(env: ParamsEnv, disk: Disk, path: string, degree: nat, seedText: seq<Byte>, osRandom: Fr)
    : Stored<Params>
  {
    match SecretFrom(seedText, osRandom)
    case Ok(secret) =>
      var params := env.setup(degree, secret);
      (match CreateFile(disk, path, env.write(params, DEFAULT_SERDE_FORMAT))
       case Ok(disk') => Stored(disk', Ok(params))
       case failed => Stored(disk, failed.PropagateFailure()))
    case failed => Stored(disk, failed.PropagateFailure())
  }

  function LoadOrCreateParams(env: ParamsEnv, disk: Disk, dir: string, degree: nat, seedText: seq<Byte>, osRandom: Fr)
    : Stored<Params>
  {
    if At(disk, dir).Some? && At(disk, dir).value.File? then Stored(disk, Panic)
    else
      match if At(disk, dir) == None then CreateDirAll(disk, dir) else Ok(disk)
      case Ok(disk') => LoadOrCreateIn(env, disk', dir, degree, seedText, osRandom)
      case failed => Stored(disk, failed.PropagateFailure())
  }

  /** The part after the directory is known to exist. */
  function LoadOrCreateIn(env: ParamsEnv, disk: Disk, dir: string, degree: nat, seedText: seq<Byte>, osRandom: Fr)
    : Stored<Params>
  {
    var path := ParamsPath(dir, degree);
    if At(disk, path).Some? && !LoadParams(env, disk, path, degree, DEFAULT_SERDE_FORMAT).Err? then
      Stored(disk, LoadParams(env, disk, path, degree, DEFAULT_SERDE_FORMAT))
    else
      CreateParams(env, disk, path, degree, seedText, osRandom)
  }

  // ---------------------------------------------------------------- seed files

  const RNG_SEED_BYTES: seq<Byte> := [
    0x59, 0x62, 0xbe, 0x5d, 0x76, 0x3d, 0x31, 0x8d, 0x17, 0xdb, 0x37, 0x32, 0x54, 0x06, 0xbc, 0xe5]

  /** `read_exact` into a 16-byte buffer. */
  function LoadSeed(disk: Disk, path: string): Outcome<seq<Byte>> {
    var bytes :- ReadFile(disk, path);
    if |bytes| < 16 then Err(Io) else Ok(bytes[..16])
  }

  function CreateSeed(disk: Disk, path: string): Stored<seq<Byte>> {
    match CreateFile(disk, path, RNG_SEED_BYTES)
    case Ok(disk') => Stored(disk', Ok(RNG_SEED_BYTES))
    case failed => Stored(disk, failed.PropagateFailure())
  }

  function LoadOrCreateSeed(disk: Disk, path: string): Stored<seq<Byte>> {
    if At(disk, path).Some? then Stored(disk, LoadSeed(disk, path)) else CreateSeed(disk, path)
  }

  // ---------------------------------------------------------------- the same on the mutable store

  method CreateParamsFile(env: ParamsEnv, store: Store, path: string, degree: nat, seedText: seq<Byte>, osRandom: Fr)
    returns (r: Outcome<Params>)
    modifies store
    ensures Stored(store.disk, r) == CreateParams(env, old(store.disk), path, degree, seedText, osRandom)
  {
    var secret :- SecretFrom(seedText, osRandom);
    var params := env.setup(degree, secret);
    var buf := env.write(params, DEFAULT_SERDE_FORMAT);
    var _ :- store.Create(path, buf);
    return Ok(params);
  }

  method LoadOrCreateParamsFile(env: ParamsEnv, store: Store, dir: string, degree: nat, seedText: seq<Byte>,
                                osRandom: Fr) returns (r: Outcome<Params>)
    modifies store
    ensures Stored(store.disk, r) == LoadOrCreateParams(env, old(store.disk), dir, degree, seedText, osRandom)
  {
    match At(store.disk, dir) {
      case Some(File(_)) => return Panic;
      case Some(Dir) =>
      case None => var _ :- store.MakeDirAll(dir);
    }
    var path := ParamsPath(dir, degree);
    if At(store.disk, path).Some? {
      r := LoadParams(env, store.disk, path, degree, DEFAULT_SERDE_FORMAT);
      if !r.Err? {
        return r;
      }
    }
    r := CreateParamsFile(env, store, path, degree, seedText, osRandom);
  }

  method LoadOrCreateSeedFile(store: Store, path: string) returns (r: Outcome<seq<Byte>>)
    modifies store
    ensures Stored(store.disk, r) == LoadOrCreateSeed(old(store.disk), path)
  {
    if At(store.disk, path).Some? {
      return LoadSeed(store.disk, path);
    }
    var _ :- store.Create(path, RNG_SEED_BYTES);
    return Ok(RNG_SEED_BYTES);
  }

  // ---------------------------------------------------------------- runs over one disk

  datatype StoreOp =
    | ParamsOp(dir: string, degree: nat, seedText: seq<Byte>, osRandom: Fr)
    | SeedOp(path: string)

  function StoreStep(env: ParamsEnv, disk: Disk, op: StoreOp): Disk {
    match op
    case ParamsOp(dir, degree, seedText, osRandom) =>
      LoadOrCreateParams(env, disk, dir, degree, seedText, osRandom).disk
    case SeedOp(path) => LoadOrCreateSeed(disk, path).disk
  }

  function StoreRun(env: ParamsEnv, disk: Disk, ops: seq<StoreOp>): Disk
    decreases |ops|
  {
    if ops == [] then disk else StoreRun(env, StoreStep(env, disk, ops[0]), ops[1..])
  }

  /** What is written has the checked length and reads back as what was set up. */
  ghost predicate ParamsLaw(env: ParamsEnv) {
    forall degree, secret ::
      var params := env.setup(degree, secret);
      var bytes := env.write(params, DEFAULT_SERDE_FORMAT);
      |bytes| == ExpectedLength(DEFAULT_SERDE_FORMAT, degree) && env.read(bytes, DEFAULT_SERDE_FORMAT) == Ok(params)
  }

  /** The directory exists and what it has under the degree's name loads as `params`. */
  ghost predicate HoldsParams(env: ParamsEnv, disk: Disk, dir: string, degree: nat, params: Params) {
    && DirectoryExists(disk, dir)
    && At(disk, ParamsPath(dir, degree)).Some?
    && LoadParams(env, disk, ParamsPath(dir, degree), degree, DEFAULT_SERDE_FORMAT) == Ok(params)
  }

  /** A call leaves every existing node alone except possibly the file of its own directory and degree,
      which it rewrites only when that file does not load. */
  lemma ParamsCallFrame(env: ParamsEnv, disk: Disk, dir: string, degree: nat, seedText: seq<Byte>, osRandom: Fr)
    ensures var path := ParamsPath(dir, degree);
            var disk' := LoadOrCreateParams(env, disk, dir, degree, seedText, osRandom).disk;
            && (forall q :: q in disk ==> q in disk' && (q != path ==> disk'[q] == disk[q]))
            && (path in disk && disk'[path] != disk[path] ==>
                disk[path].File? && CheckedRead(env, disk[path].bytes, degree, DEFAULT_SERDE_FORMAT).Err?)
  {
    CreateDirAllExact(disk, dir);
  }

  /** Whatever was on the disk: a successful call leaves behind what loads as its result. */
  lemma SuccessHoldsParams(env: ParamsEnv, disk: Disk, dir: string, degree: nat, seedText: seq<Byte>, osRandom: Fr)
    requires ParamsLaw(env)
    requires LoadOrCreateParams(env, disk, dir, degree, seedText, osRandom).result.Ok?
    ensures var out := LoadOrCreateParams(env, disk, dir, degree, seedText, osRandom);
            HoldsParams(env, out.disk, dir, degree, out.result.value)
  {
    CreateDirAllExact(disk, dir);
    var made := if At(disk, dir) == None then CreateDirAll(disk, dir) else Ok(disk);
    SuccessInHoldsParams(env, made.value, dir, degree, seedText, osRandom);
  }

  lemma SuccessInHoldsParams(env: ParamsEnv, disk: Disk, dir: string, degree: nat, seedText: seq<Byte>, osRandom: Fr)
    requires ParamsLaw(env) && DirectoryExists(disk, dir)
    requires LoadOrCreateIn(env, disk, dir, degree, seedText, osRandom).result.Ok?
    ensures var out := LoadOrCreateIn(env, disk, dir, degree, seedText, osRandom);
            HoldsParams(env, out.disk, dir, degree, out.result.value)
  {
    DigitsPlain(degree);
    ParentOfJoin(dir, ParamsName(degree));
  }

  /** Then a call succeeds without touching the disk, and the verifier's loader agrees when it is a plain file. */
  lemma HeldParamsLoad(env: ParamsEnv, disk: Disk, dir: string, degree: nat, params: Params,
                       seedText: seq<Byte>, osRandom: Fr)
    requires HoldsParams(env, disk, dir, degree, params)
    ensures LoadOrCreateParams(env, disk, dir, degree, seedText, osRandom) == Stored(disk, Ok(params))
    ensures dir != "" ==>
              (LoadParams(env, disk, dir, degree, DEFAULT_SERDE_FORMAT) == Ok(params)
               <==> At(disk, ParamsPath(dir, degree)).value.File?)
  {
  }

  lemma StepKeepsParams(env: ParamsEnv, disk: Disk, dir: string, degree: nat, params: Params, op: StoreOp)
    requires HoldsParams(env, disk, dir, degree, params)
    ensures HoldsParams(env, StoreStep(env, disk, op), dir, degree, params)
    ensures disk[ParamsPath(dir, degree)] == StoreStep(env, disk, op)[ParamsPath(dir, degree)]
  {
    if op.ParamsOp? {
      if ParamsPath(op.dir, op.degree) == ParamsPath(dir, degree) {
        ParamsPathInjective(op.dir, op.degree, dir, degree);
        HeldParamsLoad(env, disk, dir, degree, params, op.seedText, op.osRandom);
      } else {
        OtherCallKeepsParams(env, disk, dir, degree, params, op.dir, op.degree, op.seedText, op.osRandom);
      }
    }
  }

  lemma OtherCallKeepsParams(env: ParamsEnv, disk: Disk, dir: string, degree: nat, params: Params,
                             dir': string, degree': nat, seedText: seq<Byte>, osRandom: Fr)
    requires HoldsParams(env, disk, dir, degree, params) && ParamsPath(dir', degree') != ParamsPath(dir, degree)
    ensures var disk' := LoadOrCreateParams(env, disk, dir', degree', seedText, osRandom).disk;
            && HoldsParams(env, disk', dir, degree, params)
            && disk[ParamsPath(dir, degree)] == disk'[ParamsPath(dir, degree)]
  {
    var path := ParamsPath(dir, degree);
    ParamsCallFrame(env, disk, dir', degree', seedText, osRandom);
    if ParamsPath(dir', degree') == ParamsPath(path, degree) {
      ParamsPathInjective(dir', degree', path, degree);
    }
  }

  lemma {:induction false} HeldParamsPersist(env: ParamsEnv, disk: Disk, dir: string, degree: nat, params: Params,
                                             ops: seq<StoreOp>)
    requires HoldsParams(env, disk, dir, degree, params)
    ensures HoldsParams(env, StoreRun(env, disk, ops), dir, degree, params)
    ensures disk[ParamsPath(dir, degree)] == StoreRun(env, disk, ops)[ParamsPath(dir, degree)]
    decreases |ops|
  {
    if ops != [] {
      StepKeepsParams(env, disk, dir, degree, params, ops[0]);
      HeldParamsPersist(env, StoreStep(env, disk, ops[0]), dir, degree, params, ops[1..]);
    }
  }

  /** Once a directory has given parameters for a degree it gives the same ones for ever, whatever other
      directories, degrees, secrets and seeds are asked for in between. The verifier's loader gives them too,
      iff the parameters are a plain file and not a directory holding one. */
  lemma ParamsAreStable(env: ParamsEnv, disk: Disk, dir: string, degree: nat, seedText: seq<Byte>, osRandom: Fr,
                        ops: seq<StoreOp>, seedText': seq<Byte>, osRandom': Fr)
    requires ParamsLaw(env)
    requires LoadOrCreateParams(env, disk, dir, degree, seedText, osRandom).result.Ok?
    ensures var first := LoadOrCreateParams(env, disk, dir, degree, seedText, osRandom);
            var later := StoreRun(env, first.disk, ops);
            && LoadOrCreateParams(env, later, dir, degree, seedText', osRandom') == Stored(later, first.result)
            && (dir != "" ==>
                (LoadParams(env, later, dir, degree, DEFAULT_SERDE_FORMAT) == first.result
                 <==> At(first.disk, ParamsPath(dir, degree)) != Some(Dir)))
  {
    var first := LoadOrCreateParams(env, disk, dir, degree, seedText, osRandom);
    SuccessHoldsParams(env, disk, dir, degree, seedText, osRandom);
    HeldParamsPersist(env, first.disk, dir, degree, first.result.value, ops);
    HeldParamsLoad(env, StoreRun(env, first.disk, ops), dir, degree, first.result.value, seedText', osRandom');
  }

  lemma {:induction false} SeedFilePersists(env: ParamsEnv, disk: Disk, path: string, ops: seq<StoreOp>)
    requires path in disk
    requires forall op :: op in ops && op.ParamsOp? ==> ParamsPath(op.dir, op.degree) != path
    ensures path in StoreRun(env, disk, ops) && StoreRun(env, disk, ops)[path] == disk[path]
    decreases |ops|
  {
    if ops != [] {
      if ops[0].ParamsOp? {
        ParamsCallFrame(env, disk, ops[0].dir, ops[0].degree, ops[0].seedText, ops[0].osRandom);
      }
      SeedFilePersists(env, StoreStep(env, disk, ops[0]), path, ops[1..]);
    }
  }

  /** A seed is stable in the same way as long as no parameter file is asked for under the seed's own path. */
  lemma SeedIsStable(env: ParamsEnv, disk: Disk, path: string, ops: seq<StoreOp>)
    requires LoadOrCreateSeed(disk, path).result.Ok?
    requires forall op :: op in ops && op.ParamsOp? ==> ParamsPath(op.dir, op.degree) != path
    ensures var first := LoadOrCreateSeed(disk, path);
            var later := StoreRun(env, first.disk, ops);
            LoadOrCreateSeed(later, path) == Stored(later, first.result)
  {
    assert RNG_SEED_BYTES[..16] == RNG_SEED_BYTES;
    SeedFilePersists(env, LoadOrCreateSeed(disk, path).disk, path, ops);
  }

  /** What a parameter call under the seed's own path does to it: it is replaced by the first 16 bytes of a new
      parameter file exactly when the seed file does not load as parameters and a secret is at hand. */
  lemma SeedUnderParamsCall(env: ParamsEnv, disk: Disk, dir: string, degree: nat, seedText: seq<Byte>, osRandom: Fr)
    requires ParamsLaw(env) && DirectoryExists(disk, dir)
    requires LoadOrCreateSeed(disk, ParamsPath(dir, degree)).result.Ok?
    ensures var path := ParamsPath(dir, degree);
            var first := LoadOrCreateSeed(disk, path);
            var later := StoreStep(env, first.disk, ParamsOp(dir, degree, seedText, osRandom));
            var secret := SecretFrom(seedText, osRandom);
            && At(first.disk, path).Some? && At(first.disk, path).value.File?
            && LoadOrCreateSeed(later, path).result
               == if CheckedRead(env, At(first.disk, path).value.bytes, degree, DEFAULT_SERDE_FORMAT).Err? && secret.Ok?
                  then Ok(env.write(env.setup(degree, secret.value), DEFAULT_SERDE_FORMAT)[..16])
                  else first.result
  {
    DigitsPlain(degree);
    ParentOfJoin(dir, ParamsName(degree));
    assert RNG_SEED_BYTES[..16] == RNG_SEED_BYTES;
  }

  /** The case occurs: on a disk that holds one directory, a created seed is overwritten by the next parameter call
      whenever parameter files start with other bytes than the built-in seed. */
  lemma SeedOverwrittenWitness(env: ParamsEnv, seedText: seq<Byte>, osRandom: Fr)
    requires ParamsLaw(env) && SecretFrom(seedText, osRandom).Ok?
    requires env.write(env.setup(3, SecretFrom(seedText, osRandom).value), DEFAULT_SERDE_FORMAT)[..16] != RNG_SEED_BYTES
    ensures var first := LoadOrCreateSeed(map["d" := Dir], ParamsPath("d", 3));
            var later := StoreStep(env, first.disk, ParamsOp("d", 3, seedText, osRandom));
            && first.result == Ok(RNG_SEED_BYTES)
            && LoadOrCreateSeed(later, ParamsPath("d", 3)).result.Ok?
            && LoadOrCreateSeed(later, ParamsPath("d", 3)).result != first.result
  {
    DigitsPlain(3);
    ParentOfJoin("d", ParamsName(3));
    SeedUnderParamsCall(env, map["d" := Dir], "d", 3, seedText, osRandom);
  }

  /** So does this one: a directory named like the parameter file, holding such a file, serves the prover
      and not the verifier. */
  lemma ParamsDirectoryWitness(env: ParamsEnv, secret: Fr, seedText: seq<Byte>, osRandom: Fr)
    requires ParamsLaw(env)
    ensures var inner, params := ParamsPath("d", 3), env.setup(3, secret);
            var disk := map["d" := Dir, inner := Dir,
                            ParamsPath(inner, 3) := File(env.write(params, DEFAULT_SERDE_FORMAT))];
            && LoadOrCreateParams(env, disk, "d", 3, seedText, osRandom) == Stored(disk, Ok(params))
            && LoadParams(env, disk, "d", 3, DEFAULT_SERDE_FORMAT).Err?
  {
    var inner := ParamsPath("d", 3);
    assert |inner| > |"d"| && |ParamsPath(inner, 3)| > |inner|;
  }

  /** A seed call: the first 16 bytes of a file that has so many, else an error; where there is nothing, the built-in
      seed, if the file can be created. */
  lemma SeedCallExact(disk: Disk, path: string)
    ensures var out := LoadOrCreateSeed(disk, path);
            match At(disk, path)
            case Some(File(bytes)) => out == Stored(disk, if |bytes| >= 16 then Ok(bytes[..16]) else Err(Io))
            case Some(Dir) => out == Stored(disk, Err(Io))
            case None =>
              if path != "" && DirectoryExists(disk, Parent(path)) then
                LoadOrCreateSeed(out.disk, path) == out && out.result == Ok(RNG_SEED_BYTES)
              else out == Stored(disk, Err(Io))
  {
    assert RNG_SEED_BYTES[..16] == RNG_SEED_BYTES;
  }

  // ---------------------------------------------------------------- what a parameter call returns

  /** `s` is what the seed or, without one, OS randomness stands for: a residue of the number in the seed's first 32
      bytes, least significant first. */
  predicate IsSecret(seedText: seq<Byte>, osRandom: Fr, s: Fr) {
    if seedText == [] then s == osRandom
    else |seedText| >= 32 && (FromLe(seedText[..32]) - s) % FR_MODULUS == 0
  }

  /** There is a secret unless the seed is too short, which is a panic, and there is only one. */
  lemma SecretExact(seedText: seq<Byte>, osRandom: Fr)
    ensures 0 < |seedText| < 32 <==> SecretFrom(seedText, osRandom) == Panic
    ensures !SecretFrom(seedText, osRandom).Err?
    ensures forall s: Fr :: SecretFrom(seedText, osRandom) == Ok(s) <==> IsSecret(seedText, osRandom, s)
  {
    forall s: Fr ensures SecretFrom(seedText, osRandom) == Ok(s) <==> IsSecret(seedText, osRandom, s) {
      if |seedText| >= 32 {
        OneResidue(FromLe(seedText[..32]), s);
      }
    }
  }

  lemma OneResidue(x: nat, s: Fr)
    ensures (x - s) % FR_MODULUS == 0 <==> s == x % FR_MODULUS
  {
  }

  /** Two seeds that lead to the same parameters on every host. */
  predicate SameSeed(seedText: seq<Byte>, seedText': seq<Byte>) {
    && seedText != [] && seedText' != []
    && (seedText == seedText' || (|seedText| >= 32 && |seedText'| >= 32 && seedText[..32] == seedText'[..32]))
  }

  /** With a seed the parameters are deterministic: OS randomness plays no part, nor do bytes after the 32nd. */
  lemma SeedDecidesParams(env: ParamsEnv, disk: Disk, dir: string, degree: nat, seedText: seq<Byte>, osRandom: Fr,
                          seedText': seq<Byte>, osRandom': Fr)
    requires SameSeed(seedText, seedText')
    ensures LoadOrCreateParams(env, disk, dir, degree, seedText, osRandom)
            == LoadOrCreateParams(env, disk, dir, degree, seedText', osRandom')
  {
    assert SecretFrom(seedText, osRandom) == SecretFrom(seedText', osRandom');
  }

  predicate SameButRandom(op: StoreOp, op': StoreOp) {
    match op
    case SeedOp(_) => op == op'
    case ParamsOp(dir, degree, seedText, _) =>
      op'.ParamsOp? && op'.dir == dir && op'.degree == degree && SameSeed(seedText, op'.seedText)
  }

  /** Two hosts with the same seeds go through the same disks. */
  lemma {:induction false} SeedDecidesRuns(env: ParamsEnv, disk: Disk, ops: seq<StoreOp>, ops': seq<StoreOp>)
    requires |ops| == |ops'| && forall k :: 0 <= k < |ops| ==> SameButRandom(ops[k], ops'[k])
    ensures StoreRun(env, disk, ops) == StoreRun(env, disk, ops')
    decreases |ops|
  {
    if ops != [] {
      var op, op' := ops[0], ops'[0];
      if op.ParamsOp? {
        SeedDecidesParams(env, disk, op.dir, op.degree, op.seedText, op.osRandom, op'.seedText, op'.osRandom);
      }
      SeedDecidesRuns(env, StoreStep(env, disk, op), ops[1..], ops'[1..]);
    }
  }

  /** What loads: exactly a file of the length of its degree that the library reads, at the path itself or, when that is
      a directory, under the degree's name in it. */
  lemma LoadParamsIff(env: ParamsEnv, disk: Disk, path: string, degree: nat, params: Params)
    ensures var found := At(disk, if At(disk, path) == Some(Dir) then path + "/params" + Digits(degree) else path);
            LoadParams(env, disk, path, degree, DEFAULT_SERDE_FORMAT) == Ok(params) <==>
            && found.Some? && found.value.File? && |found.value.bytes| == Pow2(degree + 7) + 260
            && env.read(found.value.bytes, RawBytesUnchecked) == Ok(params)
  {
    ExpectedLengthClosedForm(DEFAULT_SERDE_FORMAT, degree);
    assert path + "/params" + Digits(degree) == ParamsPath(path, degree);
  }

  /** The directory is there, or can be made. */
  predicate Prepared(disk: Disk, dir: string) {
    DirectoryExists(disk, dir) || (At(disk, dir) == None && CreateDirAll(disk, dir).Ok?)
  }

  function WithDirectory(disk: Disk, dir: string): Disk {
    if Prepared(disk, dir) && !DirectoryExists(disk, dir) then CreateDirAll(disk, dir).value else disk
  }

  /** What a call returns and leaves: a panic for a file in the directory's place, the error of a directory that cannot
      be made, what loads, and otherwise newly set up parameters, written to a file if there can be one. */
  lemma ParamsCallExact(env: ParamsEnv, disk: Disk, dir: string, degree: nat, seedText: seq<Byte>, osRandom: Fr)
    ensures var path := dir + "/params" + Digits(degree);
            var out := LoadOrCreateParams(env, disk, dir, degree, seedText, osRandom);
            var made := WithDirectory(disk, dir);
            if At(disk, dir).Some? && At(disk, dir).value.File? then out == Stored(disk, Panic)
            else if !Prepared(disk, dir) then out == Stored(disk, Err(Io))
            else
              var loaded := LoadParams(env, disk, path, degree, DEFAULT_SERDE_FORMAT);
              if At(disk, path).Some? && !loaded.Err? then out == Stored(made, loaded)
              else if 0 < |seedText| < 32 then out == Stored(made, Panic)
              else if At(disk, path) == Some(Dir) then out == Stored(made, Err(Io))
              else
                exists s :: IsSecret(seedText, osRandom, s)
                  && out == Stored(made[path := File(env.write(env.setup(degree, s), RawBytesUnchecked))],
                                   Ok(env.setup(degree, s)))
  {
    assert dir + "/params" + Digits(degree) == ParamsPath(dir, degree);
    CreateDirAllExact(disk, dir);
    if Prepared(disk, dir) {
      var made := WithDirectory(disk, dir);
      MadeDirectoryHoldsNothing(env, disk, dir, degree, made);
      CallInExact(env, made, dir, degree, seedText, osRandom);
    }
  }

  /** Making the directory changes nothing below it. */
  lemma MadeDirectoryHoldsNothing(env: ParamsEnv, disk: Disk, dir: string, degree: nat, made: Disk)
    requires made == disk || CreateDirAll(disk, dir) == Ok(made)
    ensures At(made, ParamsPath(dir, degree)) == At(disk, ParamsPath(dir, degree))
    ensures LoadParams(env, made, ParamsPath(dir, degree), degree, DEFAULT_SERDE_FORMAT)
            == LoadParams(env, disk, ParamsPath(dir, degree), degree, DEFAULT_SERDE_FORMAT)
  {
    CreateDirAllExact(disk, dir);
    var path := ParamsPath(dir, degree);
    assert |ParamsPath(path, degree)| > |path| > |dir|;
  }

  lemma CallInExact(env: ParamsEnv, disk: Disk, dir: string, degree: nat, seedText: seq<Byte>, osRandom: Fr)
    requires DirectoryExists(disk, dir)
    ensures var path, out := ParamsPath(dir, degree), LoadOrCreateIn(env, disk, dir, degree, seedText, osRandom);
            var loaded := LoadParams(env, disk, path, degree, DEFAULT_SERDE_FORMAT);
            if At(disk, path).Some? && !loaded.Err? then out == Stored(disk, loaded)
            else if 0 < |seedText| < 32 then out == Stored(disk, Panic)
            else if At(disk, path) == Some(Dir) then out == Stored(disk, Err(Io))
            else
              exists s :: IsSecret(seedText, osRandom, s)
                && out == Stored(disk[path := File(env.write(env.setup(degree, s), RawBytesUnchecked))],
                                 Ok(env.setup(degree, s)))
  {
    SecretExact(seedText, osRandom);
    DigitsPlain(degree);
    ParentOfJoin(dir, ParamsName(degree));
  }

  // ---------------------------------------------------------------- opening a prover and a verifier

  /** What `Prover::from_fpath` reads: two degrees from one directory, and an existing seed file.
      Debug builds assert that the two parameter sets belong together. */
  datatype Opened = Opened(params: Params, aggParams: Params, seed: seq<Byte>)

  function OpenProver(env: ParamsEnv, disk: Disk, dir: string, seedPath: string, degree: nat, aggDegree: nat,
                      seedText: seq<Byte>, random1: Fr, random2: Fr, debugBuild: bool): Stored<Opened>
  {
    var first := LoadOrCreateParams(env, disk, dir, degree, seedText, random1);
    if !first.result.Ok? then Stored(first.disk, Panic)
    else
      var second := LoadOrCreateParams(env, first.disk, dir, aggDegree, seedText, random2);
      if !second.result.Ok? then Stored(second.disk, Panic)
      else
        match LoadSeed(second.disk, seedPath)
        case Ok(seed) =>
          if debugBuild && !env.sameG2(first.result.value, second.result.value) then Stored(second.disk, Panic)
          else Stored(second.disk, Ok(Opened(first.result.value, second.result.value, seed)))
        case _ => Stored(second.disk, Panic)
  }

  method OpenProverFiles(env: ParamsEnv, store: Store, dir: string, seedPath: string, degree: nat, aggDegree: nat,
                         seedText: seq<Byte>, random1: Fr, random2: Fr, debugBuild: bool) returns (r: Outcome<Opened>)
    modifies store
    ensures Stored(store.disk, r)
            == OpenProver(env, old(store.disk), dir, seedPath, degree, aggDegree, seedText, random1, random2,
                          debugBuild)
  {
    var params := LoadOrCreateParamsFile(env, store, dir, degree, seedText, random1);
    if params.IsFailure() {
      return Panic;
    }
    var aggParams := LoadOrCreateParamsFile(env, store, dir, aggDegree, seedText, random2);
    if aggParams.IsFailure() {
      return Panic;
    }
    var seed :- LoadSeed(store.disk, seedPath).Unwrap();
    if debugBuild && !env.sameG2(params.value, aggParams.value) {
      return Panic;
    }
    return Ok(Opened(params.value, aggParams.value, seed));
  }

  /** Opening succeeds in a release build iff both parameter sets can be had and the seed file has 16 bytes. The prover
      holds the parameters of both degrees, in this order, and the first bytes of the seed file.
      A debug build refuses it exactly when the two have different g2 elements. */
  lemma OpenedExact(env: ParamsEnv, disk: Disk, dir: string, seedPath: string, degree: nat, aggDegree: nat,
                    seedText: seq<Byte>, random1: Fr, random2: Fr)
    requires ParamsLaw(env)
    ensures var first := LoadOrCreateParams(env, disk, dir, degree, seedText, random1);
            var second := LoadOrCreateParams(env, first.disk, dir, aggDegree, seedText, random2);
            OpenProver(env, disk, dir, seedPath, degree, aggDegree, seedText, random1, random2, false).result.Ok? <==>
            && first.result.Ok? && second.result.Ok? && At(second.disk, seedPath).Some?
            && At(second.disk, seedPath).value.File? && |At(second.disk, seedPath).value.bytes| >= 16
    ensures var release := OpenProver(env, disk, dir, seedPath, degree, aggDegree, seedText, random1, random2, false);
            var debug := OpenProver(env, disk, dir, seedPath, degree, aggDegree, seedText, random1, random2, true);
            && !release.result.Err? && debug.disk == release.disk
            && (release.result.Ok? ==>
                && var prover := release.result.value;
                   && HoldsParams(env, release.disk, dir, degree, prover.params)
                   && HoldsParams(env, release.disk, dir, aggDegree, prover.aggParams)
                   && |prover.seed| == 16
                   && exists tail :: At(release.disk, seedPath) == Some(File(prover.seed + tail)))
            && debug.result
               == if release.result.Ok? && !env.sameG2(release.result.value.params, release.result.value.aggParams)
                  then Panic else release.result
  {
    var first := LoadOrCreateParams(env, disk, dir, degree, seedText, random1);
    var second := LoadOrCreateParams(env, first.disk, dir, aggDegree, seedText, random2);
    if first.result.Ok? && second.result.Ok? {
      SuccessHoldsParams(env, disk, dir, degree, seedText, random1);
      SuccessHoldsParams(env, first.disk, dir, aggDegree, seedText, random2);
      StepKeepsParams(env, first.disk, dir, degree, first.result.value, ParamsOp(dir, aggDegree, seedText, random2));
      if LoadSeed(second.disk, seedPath).Ok? {
        var bytes := At(second.disk, seedPath).value.bytes;
        assert bytes == bytes[..16] + bytes[16..];
      }
    }
  }

  /** With a seed two hosts open the same prover and leave the same disk. */
  lemma SeedDecidesOpening(env: ParamsEnv, disk: Disk, dir: string, seedPath: string, degree: nat, aggDegree: nat,
                           seedText: seq<Byte>, random1: Fr, random2: Fr, random1': Fr, random2': Fr, debugBuild: bool)
    requires seedText != []
    ensures OpenProver(env, disk, dir, seedPath, degree, aggDegree, seedText, random1, random2, debugBuild)
            == OpenProver(env, disk, dir, seedPath, degree, aggDegree, seedText, random1', random2', debugBuild)
  {
    SeedDecidesParams(env, disk, dir, degree, seedText, random1, seedText, random1');
    var first := LoadOrCreateParams(env, disk, dir, degree, seedText, random1);
    SeedDecidesParams(env, first.disk, dir, aggDegree, seedText, random2, seedText, random2');
  }

  /** What `Verifier::from_fpath` reads. */
  function OpenVerifier(env: ParamsEnv, disk: Disk, dir: string, degree: nat, aggDegree: nat)
    : Outcome<(Params, Params)>
  {
    var params :- LoadParams(env, disk, dir, degree, DEFAULT_SERDE_FORMAT).Unwrap();
    var aggParams :- LoadParams(env, disk, dir, aggDegree, DEFAULT_SERDE_FORMAT).Unwrap();
    Ok((params, aggParams))
  }

  /** A prover opened again after any run on the same disk has the same parameters and seed, whatever the secrets
      then in force, if no parameter call named its seed file. A verifier opened on the directory gets the prover's
      two parameter sets iff both are plain files. */
  lemma ReopeningIsStable(env: ParamsEnv, disk: Disk, dir: string, seedPath: string, degree: nat, aggDegree: nat,
                          seedText: seq<Byte>, random1: Fr, random2: Fr, debugBuild: bool, ops: seq<StoreOp>,
                          seedText': seq<Byte>, random1': Fr, random2': Fr)
    requires ParamsLaw(env) && dir != ""
    requires OpenProver(env, disk, dir, seedPath, degree, aggDegree, seedText, random1, random2, debugBuild).result.Ok?
    requires forall op :: op in ops && op.ParamsOp? ==> ParamsPath(op.dir, op.degree) != seedPath
    ensures var first := OpenProver(env, disk, dir, seedPath, degree, aggDegree, seedText, random1, random2,
                                    debugBuild);
            var later := StoreRun(env, first.disk, ops);
            && OpenProver(env, later, dir, seedPath, degree, aggDegree, seedText', random1', random2', debugBuild)
               == Stored(later, first.result)
            && (OpenVerifier(env, later, dir, degree, aggDegree)
                == Ok((first.result.value.params, first.result.value.aggParams))
                <==> At(first.disk, ParamsPath(dir, degree)) != Some(Dir)
                     && At(first.disk, ParamsPath(dir, aggDegree)) != Some(Dir))
  {
    var first := LoadOrCreateParams(env, disk, dir, degree, seedText, random1);
    var second := LoadOrCreateParams(env, first.disk, dir, aggDegree, seedText, random2);
    var later := StoreRun(env, second.disk, ops);
    SuccessHoldsParams(env, disk, dir, degree, seedText, random1);
    SuccessHoldsParams(env, first.disk, dir, aggDegree, seedText, random2);
    StepKeepsParams(env, first.disk, dir, degree, first.result.value, ParamsOp(dir, aggDegree, seedText, random2));
    HeldParamsPersist(env, second.disk, dir, degree, first.result.value, ops);
    HeldParamsPersist(env, second.disk, dir, aggDegree, second.result.value, ops);
    SeedFilePersists(env, second.disk, seedPath, ops);
    HeldParamsLoad(env, later, dir, degree, first.result.value, seedText', random1');
    HeldParamsLoad(env, later, dir, aggDegree, second.result.value, seedText', random2');
    assert LoadSeed(later, seedPath) == LoadSeed(second.disk, seedPath);
  }
}
