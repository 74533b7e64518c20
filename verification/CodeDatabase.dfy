/** The content-addressed code store of a batch: `build_codedb` and `trace_code` (zkevm/src/circuit/builder.rs). */
module CodeDatabase {
  import opened Common
  import opened Traces
  import opened Bytecode

  type Code = seq<Byte>

  /** The code hash function, the hash kept for code-less accounts, and the state database. */
  datatype CodeContext = CodeContext(
    hash: Code -> Hash,
    emptyCodeHash: Hash,
    accountCodeHash: Address -> Option<Hash>)

  // ---------------------------------------------------------------- which codes a step needs

  /** `stack[stack.len() - pos - 1].to_address()` */
  function StackAddress(step: ExecStep, pos: nat): Outcome<Address> {
    match step.stack
    case None => Panic
    case Some(stack) =>
      if |stack| <= pos then Panic
      else Ok(stack[|stack| - pos - 1] % 0x1_0000_0000_0000_0000_0000_0000_0000_0000_0000_0000)
  }

  /** `get_code_at(i)` and the `unwrap` on its result. */
  function CodeAt(data: ExtraData, i: nat): Outcome<Code> {
    match data.codeList
    case None => Panic
    case Some(list) => if i < |list| then Ok(list[i]) else Panic
  }

  /** The sanity check: code at an account registered without code must hash like no code. */
  predicate Sane(ctx: CodeContext, addr: Address, code: Code) {
    ctx.accountCodeHash(addr) == Some(ctx.emptyCodeHash) ==> ctx.hash(code) == ctx.emptyCodeHash
  }

  function TracedCode(ctx: CodeContext, step: ExecStep, code: Code, pos: nat): Outcome<seq<Code>> {
    var addr :- StackAddress(step, pos);
    var _ :- Require(Sane(ctx, addr, code));
    Ok([code])
  }

  function StepCodes(ctx: CodeContext, block: BlockTrace, erIdx: nat, step: ExecStep): Outcome<seq<Code>> {
    match step.extraData
    case None => Ok([])
    case Some(data) =>
      match step.op
      case CALL | CALLCODE | DELEGATECALL | STATICCALL =>
        var _ :- Require(erIdx < |block.transactions|);
        var code :- CodeAt(data, if block.transactions[erIdx].to.None? then 0 else 1);
        TracedCode(ctx, step, code, 1)
      case EXTCODESIZE | EXTCODECOPY =>
        var code :- CodeAt(data, 0);
        TracedCode(ctx, step, code, 0)
      case _ => Ok([])
  }

  function ByteCodeCodes(result: ExecutionResult): Outcome<seq<Code>> {
    match result.byteCode
    case None => Ok([])
    case Some(text) =>
      var code :- DecodeBytecode(text);
      Ok([code])
  }

  // ---------------------------------------------------------------- the traversal order

  /** The steps, last one first. */
  function StepsCodes(ctx: CodeContext, block: BlockTrace, erIdx: nat, steps: seq<ExecStep>): Outcome<seq<Code>> {
    if steps == [] then Ok([])
    else Then(StepCodes(ctx, block, erIdx, steps[|steps| - 1]), StepsCodes(ctx, block, erIdx, steps[..|steps| - 1]))
  }

  function ResultCodes(ctx: CodeContext, block: BlockTrace, erIdx: nat): Outcome<seq<Code>>
    requires erIdx < |block.executionResults|
  {
    var result := block.executionResults[erIdx];
    Then(ByteCodeCodes(result), StepsCodes(ctx, block, erIdx, result.execSteps))
  }

  /** The execution results from `erIdx` on, in order. */
  function ResultsCodes(ctx: CodeContext, block: BlockTrace, erIdx: nat): Outcome<seq<Code>>
    requires erIdx <= |block.executionResults|
    decreases |block.executionResults| - erIdx
  {
    if erIdx == |block.executionResults| then Ok([])
    else Then(ResultCodes(ctx, block, erIdx), ResultsCodes(ctx, block, erIdx + 1))
  }

  /** The empty code, then the codes of the results. */
  function BlockCodes(ctx: CodeContext, block: BlockTrace): Outcome<seq<Code>> {
    Then(Ok([[]]), ResultsCodes(ctx, block, 0))
  }

  /** The blocks, last one first. */
  function BatchCodes(ctx: CodeContext, blocks: seq<BlockTrace>): Outcome<seq<Code>> {
    if blocks == [] then Ok([])
    else Then(BlockCodes(ctx, blocks[|blocks| - 1]), BatchCodes(ctx, blocks[..|blocks| - 1]))
  }

  /** The store after inserting `codes` in order: a later code replaces an earlier one of the same hash. */
  function InsertAll(hash: Code -> Hash, codes: seq<Code>): map<Hash, Code> {
    if codes == [] then map[]
    else
      var last := codes[|codes| - 1];
      InsertAll(hash, codes[..|codes| - 1])[hash(last) := last]
  }

  // ---------------------------------------------------------------- the nested loops

  class CodeDB {
    const hash: Code -> Hash
    var codes: map<Hash, Code>

    constructor (hash: Code -> Hash)
      ensures this.hash == hash && codes == map[]
    {
      this.hash := hash;
      codes := map[];
    }

    method Insert(code: Code) returns (h: Hash)
      modifies this
      ensures h == hash(code) && codes == old(codes)[h := code]
    {
      h := hash(code);
      codes := codes[h := code];
    }
  }

  lemma InsertAllSnoc(hash: Code -> Hash, codes: seq<Code>, code: Code)
    ensures InsertAll(hash, codes + [code]) == InsertAll(hash, codes)[hash(code) := code]
  {
    assert (codes + [code])[..|codes|] == codes;
  }

  method TraceCode(cdb: CodeDB, ctx: CodeContext, step: ExecStep, code: Code, pos: nat, ghost before: seq<Code>)
    returns (r: Outcome<()>)
    requires cdb.hash == ctx.hash && cdb.codes == InsertAll(ctx.hash, before)
    modifies cdb
    ensures match TracedCode(ctx, step, code, pos)
            case Ok(codes) => r == Ok(()) && cdb.codes == InsertAll(ctx.hash, before + codes)
            case failed => r == failed.PropagateFailure()
  {
    var addr :- StackAddress(step, pos);
    var hash := cdb.Insert(code);
    InsertAllSnoc(ctx.hash, before, code);
    if ctx.accountCodeHash(addr) == Some(ctx.emptyCodeHash) && hash != ctx.emptyCodeHash {
      return Panic;
    }
    return Ok(());
  }

  method TraceStep(cdb: CodeDB, ctx: CodeContext, block: BlockTrace, erIdx: nat, step: ExecStep,
                   ghost before: seq<Code>) returns (r: Outcome<()>)
    requires cdb.hash == ctx.hash && cdb.codes == InsertAll(ctx.hash, before)
    modifies cdb
    ensures match StepCodes(ctx, block, erIdx, step)
            case Ok(codes) => r == Ok(()) && cdb.codes == InsertAll(ctx.hash, before + codes)
            case failed => r == failed.PropagateFailure()
  {
    assert before + [] == before;
    r := Ok(());
    if step.extraData.Some? {
      var data := step.extraData.value;
      match step.op {
        case CALL | CALLCODE | DELEGATECALL | STATICCALL =>
          if erIdx >= |block.transactions| {
            return Panic;
          }
          var codeIdx := if block.transactions[erIdx].to.None? then 0 else 1;
          var callee :- CodeAt(data, codeIdx);
          r := TraceCode(cdb, ctx, step, callee, 1, before);
        case EXTCODESIZE | EXTCODECOPY =>
          var code :- CodeAt(data, 0);
          r := TraceCode(cdb, ctx, step, code, 0, before);
        case _ =>
      }
    }
  }

  method InsertByteCode(cdb: CodeDB, ctx: CodeContext, result: ExecutionResult, ghost before: seq<Code>)
    returns (r: Outcome<()>)
    requires cdb.hash == ctx.hash && cdb.codes == InsertAll(ctx.hash, before)
    modifies cdb
    ensures match ByteCodeCodes(result)
            case Ok(codes) => r == Ok(()) && cdb.codes == InsertAll(ctx.hash, before + codes)
            case failed => r == failed.PropagateFailure()
  {
    assert before + [] == before;
    if result.byteCode.Some? {
      var code :- DecodeBytecode(result.byteCode.value);
      var _ := cdb.Insert(code);
      InsertAllSnoc(ctx.hash, before, code);
    }
    return Ok(());
  }

  method TraceSteps(cdb: CodeDB, ctx: CodeContext, block: BlockTrace, erIdx: nat, steps: seq<ExecStep>,
                    ghost before: seq<Code>)
    returns (r: Outcome<()>)
    requires cdb.hash == ctx.hash && cdb.codes == InsertAll(ctx.hash, before)
    modifies cdb
    ensures match StepsCodes(ctx, block, erIdx, steps)
            case Ok(codes) => r == Ok(()) && cdb.codes == InsertAll(ctx.hash, before + codes)
            case failed => r == failed.PropagateFailure()
  {
    ghost var goal := StepsCodes(ctx, block, erIdx, steps);
    ghost var done := before;
    var i := |steps|;
    assert steps[..|steps|] == steps;
    while i > 0
      invariant 0 <= i <= |steps|
      invariant cdb.codes == InsertAll(ctx.hash, done)
      invariant Prepend(before, goal) == Prepend(done, StepsCodes(ctx, block, erIdx, steps[..i]))
    {
      i := i - 1;
      assert steps[..i + 1][..i] == steps[..i];
      PrependThen(done, StepCodes(ctx, block, erIdx, steps[i]), StepsCodes(ctx, block, erIdx, steps[..i]));
      var _ :- TraceStep(cdb, ctx, block, erIdx, steps[i], done);
      done := done + StepCodes(ctx, block, erIdx, steps[i]).value;
    }
    assert done + [] == done;
    return Ok(());
  }

  method TraceBlock(cdb: CodeDB, ctx: CodeContext, block: BlockTrace, ghost before: seq<Code>) returns (r: Outcome<()>)
    requires cdb.hash == ctx.hash && cdb.codes == InsertAll(ctx.hash, before)
    modifies cdb
    ensures match BlockCodes(ctx, block)
            case Ok(codes) => r == Ok(()) && cdb.codes == InsertAll(ctx.hash, before + codes)
            case failed => r == failed.PropagateFailure()
  {
    ghost var goal := BlockCodes(ctx, block);
    var _ := cdb.Insert([]);
    ghost var done := before + [[]];
    InsertAllSnoc(ctx.hash, before, []);
    PrependThen(before, Ok([[]]), ResultsCodes(ctx, block, 0));
    for erIdx := 0 to |block.executionResults|
      invariant cdb.codes == InsertAll(ctx.hash, done)
      invariant Prepend(before, goal) == Prepend(done, ResultsCodes(ctx, block, erIdx))
    {
      var result := block.executionResults[erIdx];
      ghost var steps := StepsCodes(ctx, block, erIdx, result.execSteps);
      PrependThen(done, ResultCodes(ctx, block, erIdx), ResultsCodes(ctx, block, erIdx + 1));
      PrependThen(done, ByteCodeCodes(result), steps);
      var _ :- InsertByteCode(cdb, ctx, result, done);
      done := done + ByteCodeCodes(result).value;
      var _ :- TraceSteps(cdb, ctx, block, erIdx, result.execSteps, done);
      done := done + steps.value;
    }
    assert done + [] == done;
    return Ok(());
  }

  method BuildCodeDb(ctx: CodeContext, blocks: seq<BlockTrace>) returns (r: Outcome<CodeDB>)
    ensures match BatchCodes(ctx, blocks)
            case Ok(codes) => r.Ok? && fresh(r.value) && r.value.codes == InsertAll(ctx.hash, codes)
            case failed => r == failed.PropagateFailure()
  {
    var cdb := new CodeDB(ctx.hash);
    ghost var codes: seq<Code> := [];
    var i := |blocks|;
    assert blocks[..|blocks|] == blocks;
    PrependNothing(BatchCodes(ctx, blocks));
    while i > 0
      invariant 0 <= i <= |blocks| && fresh(cdb)
      invariant cdb.codes == InsertAll(ctx.hash, codes)
      invariant BatchCodes(ctx, blocks) == Prepend(codes, BatchCodes(ctx, blocks[..i]))
    {
      i := i - 1;
      assert blocks[..i + 1][..i] == blocks[..i];
      PrependThen(codes, BlockCodes(ctx, blocks[i]), BatchCodes(ctx, blocks[..i]));
      var _ :- TraceBlock(cdb, ctx, blocks[i], codes);
      codes := codes + BlockCodes(ctx, blocks[i]).value;
    }
    assert codes + [] == codes;
    return Ok(cdb);
  }

  // ---------------------------------------------------------------- what the store holds

  predicate IsCall(op: Opcode) {
    op in {CALL, CALLCODE, DELEGATECALL, STATICCALL}
  }

  predicate IsExtCode(op: Opcode) {
    op in {EXTCODESIZE, EXTCODECOPY}
  }

  /** A step with extra data selects the first listed code for EXTCODE operations and for calls inside a contract
      creation, the second one for other calls. */
  ghost predicate Selects(block: BlockTrace, e: nat, step: ExecStep, code: Code) {
    && step.extraData.Some? && step.extraData.value.codeList.Some?
    && var list := step.extraData.value.codeList.value;
       || (IsExtCode(step.op) && list != [] && code == list[0])
       || (IsCall(step.op) && e < |block.transactions|
           && if block.transactions[e].to.None? then list != [] && code == list[0]
              else |list| > 1 && code == list[1])
  }

  /** The word has exactly `above` words above it on the step's stack, whose top is at the end. */
  ghost predicate OnStack(step: ExecStep, word: nat, above: nat) {
    step.stack.Some? && exists low, high :: step.stack.value == low + [word] + high && |high| == above
  }

  /** The account a step looks at: the word on top for EXTCODE operations, the one below it for calls,
      cut to 20 bytes. */
  ghost predicate LooksAt(step: ExecStep, account: Address) {
    exists word: nat :: OnStack(step, word, if IsExtCode(step.op) then 0 else 1)
                && account == word % 0x1_0000_0000_0000_0000_0000_0000_0000_0000_0000_0000
  }

  /** A step that needs a code has one and looks at an account, and if that account is registered without code,
      the code hashes like none. */
  ghost predicate StepSound(ctx: CodeContext, block: BlockTrace, e: nat, step: ExecStep) {
    step.extraData.Some? && (IsCall(step.op) || IsExtCode(step.op)) ==>
      exists code, account ::
        && Selects(block, e, step, code) && LooksAt(step, account)
        && (ctx.accountCodeHash(account) == Some(ctx.emptyCodeHash) ==> ctx.hash(code) == ctx.emptyCodeHash)
  }

  /** Splitting the stack at a word names the word at that distance from the top. */
  lemma StackSplit(step: ExecStep, word: nat, above: nat)
    ensures OnStack(step, word, above) <==>
            step.stack.Some? && above < |step.stack.value| && step.stack.value[|step.stack.value| - above - 1] == word
  {
    if step.stack.Some? {
      var stack := step.stack.value;
      if above < |stack| && stack[|stack| - above - 1] == word {
        var k := |stack| - above - 1;
        assert stack == stack[..k] + [word] + stack[k + 1..] && |stack[k + 1..]| == above;
      }
    }
  }

  lemma StackAddressExact(step: ExecStep)
    ensures var address := StackAddress(step, if IsExtCode(step.op) then 0 else 1);
            && (address.Ok? ==> LooksAt(step, address.value))
            && (!address.Ok? ==> address == Panic)
            && forall account: Address :: LooksAt(step, account) ==> address == Ok(account)
  {
    forall word: nat, above: nat
      ensures OnStack(step, word, above) <==>
              step.stack.Some? && above < |step.stack.value| && step.stack.value[|step.stack.value| - above - 1] == word
    {
      StackSplit(step, word, above);
    }
    var pos := if IsExtCode(step.op) then 0 else 1;
    if StackAddress(step, pos).Ok? {
      assert OnStack(step, step.stack.value[|step.stack.value| - pos - 1], pos);
    }
  }

  /** When a step is sound and which code it then selects; an unsound step panics. */
  lemma StepCodesExact(ctx: CodeContext, block: BlockTrace, e: nat, step: ExecStep)
    ensures StepCodes(ctx, block, e, step) == Panic || StepCodes(ctx, block, e, step).Ok?
    ensures StepCodes(ctx, block, e, step).Ok? <==> StepSound(ctx, block, e, step)
    ensures StepCodes(ctx, block, e, step).Ok? ==>
              forall c :: c in StepCodes(ctx, block, e, step).value <==> Selects(block, e, step, c)
  {
    StackAddressExact(step);
    if StepCodes(ctx, block, e, step).Ok? {
      var codes := StepCodes(ctx, block, e, step).value;
      if codes != [] {
        assert codes == [codes[0]] && Selects(block, e, step, codes[0]);
      }
    }
  }

  /** A block needs the empty code, its decoded byte codes and the codes its steps select. */
  ghost predicate BlockRequires(block: BlockTrace, code: Code) {
    code == [] || RequiredFrom(block, 0, code)
  }

  ghost predicate ResultRequires(block: BlockTrace, e: nat, code: Code)
    requires e < |block.executionResults|
  {
    var result := block.executionResults[e];
    || (result.byteCode.Some? && DecodeBytecode(result.byteCode.value) == Ok(code))
    || (exists step :: step in result.execSteps && Selects(block, e, step, code))
  }

  ghost predicate BatchRequires(blocks: seq<BlockTrace>, code: Code) {
    exists block :: block in blocks && BlockRequires(block, code)
  }

  /** Nothing in the block makes the traversal fail. */
  ghost predicate BlockSound(ctx: CodeContext, block: BlockTrace) {
    SoundFrom(ctx, block, 0)
  }

  ghost predicate ResultSound(ctx: CodeContext, block: BlockTrace, e: nat)
    requires e < |block.executionResults|
  {
    var result := block.executionResults[e];
    && ByteCodeCodes(result).Ok?
    && forall step :: step in result.execSteps ==> StepSound(ctx, block, e, step)
  }

  lemma {:induction false} StepsCodesExact(ctx: CodeContext, block: BlockTrace, e: nat, steps: seq<ExecStep>)
    ensures var codes := StepsCodes(ctx, block, e, steps);
            && (codes.Ok? <==> forall step :: step in steps ==> StepSound(ctx, block, e, step))
            && (codes.Ok? ==> forall c :: c in codes.value <==>
                                       exists step :: step in steps && Selects(block, e, step, c))
  {
    if steps != [] {
      var init, last := steps[..|steps| - 1], steps[|steps| - 1];
      StepsCodesExact(ctx, block, e, init);
      StepCodesExact(ctx, block, e, last);
      ThenElements(StepCodes(ctx, block, e, last), StepsCodes(ctx, block, e, init));
      assert forall step :: step in steps <==> step in init || step == last;
    }
  }

  lemma ResultCodesExact(ctx: CodeContext, block: BlockTrace, e: nat)
    requires e < |block.executionResults|
    ensures ResultCodes(ctx, block, e).Ok? <==> ResultSound(ctx, block, e)
    ensures ResultCodes(ctx, block, e).Ok? ==>
              forall c :: c in ResultCodes(ctx, block, e).value <==> ResultRequires(block, e, c)
  {
    var result := block.executionResults[e];
    StepsCodesExact(ctx, block, e, result.execSteps);
    ThenElements(ByteCodeCodes(result), StepsCodes(ctx, block, e, result.execSteps));
  }

  ghost predicate SoundFrom(ctx: CodeContext, block: BlockTrace, start: nat) {
    forall e :: start <= e < |block.executionResults| ==> ResultSound(ctx, block, e)
  }

  ghost predicate RequiredFrom(block: BlockTrace, start: nat, code: Code) {
    exists e :: start <= e < |block.executionResults| && ResultRequires(block, e, code)
  }

  lemma {:induction false} ResultsCodesSound(ctx: CodeContext, block: BlockTrace, start: nat)
    requires start <= |block.executionResults|
    ensures ResultsCodes(ctx, block, start).Ok? <==> SoundFrom(ctx, block, start)
    decreases |block.executionResults| - start
  {
    if start < |block.executionResults| {
      ResultsCodesSound(ctx, block, start + 1);
      assert ResultCodes(ctx, block, start).Ok? <==> ResultSound(ctx, block, start) by {
        ResultCodesExact(ctx, block, start);
      }
      assert SoundFrom(ctx, block, start) <==> ResultSound(ctx, block, start) && SoundFrom(ctx, block, start + 1);
    }
  }

  lemma {:induction false} ResultsCodesMember(ctx: CodeContext, block: BlockTrace, start: nat, code: Code)
    requires start <= |block.executionResults| && ResultsCodes(ctx, block, start).Ok?
    ensures code in ResultsCodes(ctx, block, start).value <==> RequiredFrom(block, start, code)
    decreases |block.executionResults| - start
  {
    if start < |block.executionResults| {
      ResultsCodesMember(ctx, block, start + 1, code);
      ResultCodesExact(ctx, block, start);
      RequiredFromNext(block, start, code);
    }
  }

  lemma RequiredFromNext(block: BlockTrace, start: nat, code: Code)
    requires start < |block.executionResults|
    ensures RequiredFrom(block, start, code)
            <==> ResultRequires(block, start, code) || RequiredFrom(block, start + 1, code)
  {
  }

  /** The traversal succeeds iff no block makes it fail, and then visits exactly the required codes. */
  lemma {:induction false} BatchCodesExact(ctx: CodeContext, blocks: seq<BlockTrace>)
    ensures BatchCodes(ctx, blocks).Ok? <==> forall block :: block in blocks ==> BlockSound(ctx, block)
    ensures BatchCodes(ctx, blocks).Ok? ==>
              forall c :: c in BatchCodes(ctx, blocks).value <==> BatchRequires(blocks, c)
  {
    if blocks != [] {
      var init, last := blocks[..|blocks| - 1], blocks[|blocks| - 1];
      BatchCodesExact(ctx, init);
      BlockCodesExact(ctx, last);
      ThenElements(BlockCodes(ctx, last), BatchCodes(ctx, init));
      assert forall block :: block in blocks <==> block in init || block == last;
      forall c ensures BatchRequires(blocks, c) <==> BatchRequires(init, c) || BlockRequires(last, c) {
      }
    }
  }

  lemma BlockCodesExact(ctx: CodeContext, block: BlockTrace)
    ensures BlockCodes(ctx, block).Ok? <==> BlockSound(ctx, block)
    ensures BlockCodes(ctx, block).Ok? ==>
              forall c :: c in BlockCodes(ctx, block).value <==> BlockRequires(block, c)
  {
    ResultsCodesSound(ctx, block, 0);
    if BlockCodes(ctx, block).Ok? {
      ThenElements(Ok([[]]), ResultsCodes(ctx, block, 0));
      forall c ensures c in BlockCodes(ctx, block).value <==> BlockRequires(block, c) {
        ResultsCodesMember(ctx, block, 0, c);
      }
    }
  }

  /** No two codes the batch needs have the same hash. */
  ghost predicate CollisionFree(ctx: CodeContext, blocks: seq<BlockTrace>) {
    forall a, b :: BatchRequires(blocks, a) && BatchRequires(blocks, b) && ctx.hash(a) == ctx.hash(b) ==> a == b
  }

  lemma {:induction false} InsertAllExact(hash: Code -> Hash, codes: seq<Code>, db: map<Hash, Code>)
    requires db == InsertAll(hash, codes)
    ensures forall c :: c in codes ==> hash(c) in db
    ensures forall h :: h in db ==> hash(db[h]) == h && db[h] in codes
  {
    if codes != [] {
      var init, last := codes[..|codes| - 1], codes[|codes| - 1];
      InsertAllExact(hash, init, InsertAll(hash, init));
      assert forall c :: c in codes <==> c in init || c == last;
    }
  }

  /** The finished store: its keys are the hashes of the required codes, every key maps to a required code
      of that hash, and without collisions every required code is found under its hash. */
  lemma CodeDbExact(ctx: CodeContext, blocks: seq<BlockTrace>)
    requires BatchCodes(ctx, blocks).Ok?
    ensures var db := InsertAll(ctx.hash, BatchCodes(ctx, blocks).value);
            && (forall h :: h in db <==> exists c :: BatchRequires(blocks, c) && ctx.hash(c) == h)
            && (forall h :: h in db ==> BatchRequires(blocks, db[h]) && ctx.hash(db[h]) == h)
            && (CollisionFree(ctx, blocks) ==>
                forall c :: BatchRequires(blocks, c) ==> ctx.hash(c) in db && db[ctx.hash(c)] == c)
  {
    var codes := BatchCodes(ctx, blocks).value;
    BatchCodesExact(ctx, blocks);
    InsertAllExact(ctx.hash, codes, InsertAll(ctx.hash, codes));
  }

  /** Reordering or repeating blocks changes neither success nor, without collisions, the store. */
  lemma TraversalOrderIrrelevant(ctx: CodeContext, b1: seq<BlockTrace>, b2: seq<BlockTrace>)
    requires forall block :: block in b1 <==> block in b2
    ensures BatchCodes(ctx, b1).Ok? <==> BatchCodes(ctx, b2).Ok?
    ensures BatchCodes(ctx, b1).Ok? && CollisionFree(ctx, b1) ==>
              InsertAll(ctx.hash, BatchCodes(ctx, b1).value) == InsertAll(ctx.hash, BatchCodes(ctx, b2).value)
  {
    BatchCodesExact(ctx, b1);
    BatchCodesExact(ctx, b2);
    assert forall c :: BatchRequires(b1, c) <==> BatchRequires(b2, c);
    if BatchCodes(ctx, b1).Ok? && CollisionFree(ctx, b1) {
      CodeDbExact(ctx, b1);
      CodeDbExact(ctx, b2);
      RequirementsDecideStore(ctx, b1, b2, InsertAll(ctx.hash, BatchCodes(ctx, b1).value),
                              InsertAll(ctx.hash, BatchCodes(ctx, b2).value));
    }
  }

  /** A store that holds a required code for each of their hashes. */
  ghost predicate IsStoreOf(ctx: CodeContext, blocks: seq<BlockTrace>, db: map<Hash, Code>) {
    && (forall h :: h in db <==> exists c :: BatchRequires(blocks, c) && ctx.hash(c) == h)
    && (forall h :: h in db ==> BatchRequires(blocks, db[h]) && ctx.hash(db[h]) == h)
  }

  lemma RequirementsDecideStore(ctx: CodeContext, b1: seq<BlockTrace>, b2: seq<BlockTrace>,
                                db1: map<Hash, Code>, db2: map<Hash, Code>)
    requires IsStoreOf(ctx, b1, db1) && IsStoreOf(ctx, b2, db2) && CollisionFree(ctx, b1)
    requires forall c :: BatchRequires(b1, c) <==> BatchRequires(b2, c)
    ensures db1 == db2
  {
    assert db1.Keys == db2.Keys;
    forall h | h in db1 ensures db1[h] == db2[h] {
      assert BatchRequires(b1, db1[h]) && BatchRequires(b1, db2[h]);
    }
  }

  lemma {:induction false} BatchCodesConcat(ctx: CodeContext, b1: seq<BlockTrace>, b2: seq<BlockTrace>)
    requires BatchCodes(ctx, b2).Ok?
    ensures BatchCodes(ctx, b1 + b2) == Prepend(BatchCodes(ctx, b2).value, BatchCodes(ctx, b1))
  {
    if b2 == [] {
      assert b1 + b2 == b1;
      PrependNothing(BatchCodes(ctx, b1));
    } else {
      var init, last := b2[..|b2| - 1], b2[|b2| - 1];
      BatchCodesConcat(ctx, b1, init);
      assert (b1 + b2)[..|b1 + b2| - 1] == b1 + init;
      PrependThen(BlockCodes(ctx, last).value, BatchCodes(ctx, init), BatchCodes(ctx, b1));
    }
  }

  lemma {:induction false} InsertAllConcat(hash: Code -> Hash, a: seq<Code>, b: seq<Code>)
    ensures InsertAll(hash, a + b) == InsertAll(hash, a) + InsertAll(hash, b)
  {
    if b == [] {
      assert a + b == a;
    } else {
      var init, last := b[..|b| - 1], b[|b| - 1];
      InsertAllConcat(hash, a, init);
      assert (a + b)[..|a + b| - 1] == a + init && (a + b)[|a + b| - 1] == last;
    }
  }

  /** The store of `b1 + b2` is the union of the two stores. On a hash both stores know, the code of `b1`
      wins, since later blocks are visited first. */
  lemma CodeDbOfConcatenation(ctx: CodeContext, b1: seq<BlockTrace>, b2: seq<BlockTrace>)
    ensures BatchCodes(ctx, b1 + b2).Ok? <==> BatchCodes(ctx, b1).Ok? && BatchCodes(ctx, b2).Ok?
    ensures BatchCodes(ctx, b1 + b2).Ok? ==>
              InsertAll(ctx.hash, BatchCodes(ctx, b1 + b2).value)
              == InsertAll(ctx.hash, BatchCodes(ctx, b2).value) + InsertAll(ctx.hash, BatchCodes(ctx, b1).value)
  {
    BatchCodesExact(ctx, b1);
    BatchCodesExact(ctx, b2);
    BatchCodesExact(ctx, b1 + b2);
    if BatchCodes(ctx, b1 + b2).Ok? {
      BatchCodesConcat(ctx, b1, b2);
      InsertAllConcat(ctx.hash, BatchCodes(ctx, b2).value, BatchCodes(ctx, b1).value);
    }
  }

  lemma {:induction false} StepsCodesConcat(ctx: CodeContext, block: BlockTrace, e: nat,
                                            s1: seq<ExecStep>, s2: seq<ExecStep>)
    ensures StepsCodes(ctx, block, e, s1 + s2) == Then(StepsCodes(ctx, block, e, s2), StepsCodes(ctx, block, e, s1))
  {
    if s2 == [] {
      assert s1 + s2 == s1;
      PrependNothing(StepsCodes(ctx, block, e, s1));
    } else {
      var init, last := s2[..|s2| - 1], s2[|s2| - 1];
      StepsCodesConcat(ctx, block, e, s1, init);
      assert (s1 + s2)[..|s1 + s2| - 1] == s1 + init;
      ThenAssociates(StepCodes(ctx, block, e, last), StepsCodes(ctx, block, e, init), StepsCodes(ctx, block, e, s1));
    }
  }

  function StoreOf(ctx: CodeContext, codes: Outcome<seq<Code>>): map<Hash, Code>
    requires codes.Ok?
  {
    InsertAll(ctx.hash, codes.value)
  }

  /** Which code wins when hashes collide inside an execution result: that of an earlier step over that of a later one,
      and any step's over the result's byte code. */
  lemma ResultWinners(ctx: CodeContext, block: BlockTrace, e: nat, s1: seq<ExecStep>, s2: seq<ExecStep>)
    requires e < |block.executionResults| && block.executionResults[e].execSteps == s1 + s2
    requires ResultCodes(ctx, block, e).Ok?
    ensures StepsCodes(ctx, block, e, s1).Ok? && StepsCodes(ctx, block, e, s2).Ok?
    ensures ByteCodeCodes(block.executionResults[e]).Ok?
    ensures StoreOf(ctx, ResultCodes(ctx, block, e))
            == StoreOf(ctx, ByteCodeCodes(block.executionResults[e]))
               + (StoreOf(ctx, StepsCodes(ctx, block, e, s2)) + StoreOf(ctx, StepsCodes(ctx, block, e, s1)))
  {
    StepsCodesConcat(ctx, block, e, s1, s2);
    ThenStores(ctx, StepsCodes(ctx, block, e, s2), StepsCodes(ctx, block, e, s1));
    ThenStores(ctx, ByteCodeCodes(block.executionResults[e]), StepsCodes(ctx, block, e, s1 + s2));
  }

  /** Among results the later one wins, and every one over the empty code. */
  lemma BlockWinners(ctx: CodeContext, block: BlockTrace, e: nat)
    requires e < |block.executionResults| && ResultsCodes(ctx, block, e).Ok? && BlockCodes(ctx, block).Ok?
    ensures ResultCodes(ctx, block, e).Ok? && ResultsCodes(ctx, block, e + 1).Ok? && ResultsCodes(ctx, block, 0).Ok?
    ensures StoreOf(ctx, ResultsCodes(ctx, block, e))
            == StoreOf(ctx, ResultCodes(ctx, block, e)) + StoreOf(ctx, ResultsCodes(ctx, block, e + 1))
    ensures StoreOf(ctx, BlockCodes(ctx, block)) == map[ctx.hash([]) := []] + StoreOf(ctx, ResultsCodes(ctx, block, 0))
  {
    ThenStores(ctx, ResultCodes(ctx, block, e), ResultsCodes(ctx, block, e + 1));
    ThenStores(ctx, Ok([[]]), ResultsCodes(ctx, block, 0));
    assert InsertAll(ctx.hash, [[]]) == map[ctx.hash([]) := []];
  }

  lemma ThenStores(ctx: CodeContext, first: Outcome<seq<Code>>, rest: Outcome<seq<Code>>)
    requires Then(first, rest).Ok?
    ensures StoreOf(ctx, Then(first, rest)) == StoreOf(ctx, first) + StoreOf(ctx, rest)
  {
    InsertAllConcat(ctx.hash, first.value, rest.value);
  }

  /** After a successful traversal, what steps load from accounts registered without code is the empty code. */
  lemma CodelessAccountsLoadNothing(ctx: CodeContext, blocks: seq<BlockTrace>, block: BlockTrace, e: nat,
                                    step: ExecStep, code: Code, account: Address)
    requires BatchCodes(ctx, blocks).Ok? && CollisionFree(ctx, blocks) && ctx.emptyCodeHash == ctx.hash([])
    requires block in blocks && e < |block.executionResults| && step in block.executionResults[e].execSteps
    requires Selects(block, e, step, code) && LooksAt(step, account)
    requires ctx.accountCodeHash(account) == Some(ctx.emptyCodeHash)
    ensures code == []
  {
    BatchCodesExact(ctx, blocks);
    StackAddressExact(step);
    assert BlockSound(ctx, block) && ResultSound(ctx, block, e) && StepSound(ctx, block, e, step);
    assert ResultRequires(block, e, code) && RequiredFrom(block, 0, code);
    assert BlockRequires(block, code) && BlockRequires(block, []);
    assert BatchRequires(blocks, code) && BatchRequires(blocks, []);
  }
}
