/** Chain id selection and header insertion in `block_traces_to_witness_block` (zkevm/src/circuit/builder.rs). */
module WitnessBlock {
  import opened Common
  import opened Traces

  /** The state database while blocks are handled. */
  type StateDb(==, !new)

  datatype BlockHead = BlockHead(number: nat, chainId: nat, coinbase: Address, hash: Option<Hash>)

  /** The outside crates: `BlockHead::new`, `get_nonce` and `handle_block_inner`. */
  datatype BuilderEnv = BuilderEnv(
    depositTxType: nat,
    defaultChainId: nat,
    blockHead: (nat, BlockTrace) -> Outcome<BlockHead>,
    nonceOf: (StateDb, Address) -> nat,
    handleBlock: (StateDb, map<nat, BlockHead>, BlockTrace, seq<nat>, bool) -> Outcome<StateDb>)

  // ---------------------------------------------------------------- chain id

  /** `transactions.iter().find(..)` */
  function FirstNonDeposit(env: BuilderEnv, txs: seq<TransactionTrace>): Option<TransactionTrace> {
    if txs == [] then None
    else if txs[0].type_ != env.depositTxType then Some(txs[0])
    else FirstNonDeposit(env, txs[1..])
  }

  /** At most one chain id a block, blocks without a non-deposit transaction giving none. */
  function ChainIds(env: BuilderEnv, blocks: seq<BlockTrace>): seq<nat> {
    if blocks == [] then []
    else
      (match FirstNonDeposit(env, blocks[0].transactions)
       case Some(tx) => [tx.chainId]
       case None => []) + ChainIds(env, blocks[1..])
  }

  function ChainId(env: BuilderEnv, blocks: seq<BlockTrace>): nat {
    var ids := ChainIds(env, blocks);
    if ids != [] then ids[0] else env.defaultChainId
  }

  function AllTransactions(blocks: seq<BlockTrace>): seq<TransactionTrace> {
    if blocks == [] then [] else blocks[0].transactions + AllTransactions(blocks[1..])
  }

  lemma {:induction false} FindInConcatenation(env: BuilderEnv, a: seq<TransactionTrace>, b: seq<TransactionTrace>)
    ensures FirstNonDeposit(env, a + b)
            == if FirstNonDeposit(env, a).Some? then FirstNonDeposit(env, a) else FirstNonDeposit(env, b)
  {
    if a == [] {
      assert a + b == b;
    } else {
      FindInConcatenation(env, a[1..], b);
      assert (a + b)[1..] == a[1..] + b;
    }
  }

  lemma {:induction false} FindNothing(env: BuilderEnv, txs: seq<TransactionTrace>)
    ensures FirstNonDeposit(env, txs).None? <==> forall tx :: tx in txs ==> tx.type_ == env.depositTxType
  {
    if txs != [] {
      FindNothing(env, txs[1..]);
      assert forall tx :: tx in txs <==> tx == txs[0] || tx in txs[1..];
    }
  }

  lemma {:induction false} ChainIdsFlat(env: BuilderEnv, blocks: seq<BlockTrace>)
    ensures var first := FirstNonDeposit(env, AllTransactions(blocks));
            && (ChainIds(env, blocks) == [] <==> first.None?)
            && (first.Some? ==> ChainIds(env, blocks)[0] == first.value.chainId)
  {
    if blocks != [] {
      ChainIdsFlat(env, blocks[1..]);
      FindInConcatenation(env, blocks[0].transactions, AllTransactions(blocks[1..]));
    }
  }

  lemma {:induction false} FindFirst(env: BuilderEnv, txs: seq<TransactionTrace>)
    requires FirstNonDeposit(env, txs).Some?
    ensures exists k :: 0 <= k < |txs| && FirstNonDeposit(env, txs) == Some(txs[k])
                     && txs[k].type_ != env.depositTxType
                     && forall l :: 0 <= l < k ==> txs[l].type_ == env.depositTxType
  {
    if txs[0].type_ == env.depositTxType {
      FindFirst(env, txs[1..]);
      var k :| 0 <= k < |txs[1..]| && FirstNonDeposit(env, txs[1..]) == Some(txs[1..][k])
            && txs[1..][k].type_ != env.depositTxType
            && forall l :: 0 <= l < k ==> txs[1..][l].type_ == env.depositTxType;
      assert txs[k + 1] == txs[1..][k];
      forall l | 0 <= l < k + 1 ensures txs[l].type_ == env.depositTxType {
        assert l > 0 ==> txs[l] == txs[1..][l - 1];
      }
    }
  }

  /** The block-wise search is a flat search over the whole batch: the chain id of its first transaction that is no
      deposit, and the default iff all are deposits. */
  lemma ChainIdRefinesFlatSearch(env: BuilderEnv, blocks: seq<BlockTrace>)
    ensures var txs := AllTransactions(blocks);
            || (&& ChainIds(env, blocks) == [] && ChainId(env, blocks) == env.defaultChainId
                && forall tx :: tx in txs ==> tx.type_ == env.depositTxType)
            || (&& ChainIds(env, blocks) != []
                && exists k :: 0 <= k < |txs| && txs[k].type_ != env.depositTxType
                            && ChainId(env, blocks) == txs[k].chainId
                            && forall l :: 0 <= l < k ==> txs[l].type_ == env.depositTxType)
  {
    ChainIdsFlat(env, blocks);
    FindNothing(env, AllTransactions(blocks));
    if ChainIds(env, blocks) != [] {
      FindFirst(env, AllTransactions(blocks));
    }
  }

  // ---------------------------------------------------------------- headers

  /** The header of one block, with the separate coinbase field taking precedence. */
  function HeadFor(env: BuilderEnv, chainId: nat, block: BlockTrace): Outcome<BlockHead> {
    var head :- env.blockHead(chainId, block);
    var _ :- Require(head.number < 0x1_0000_0000_0000_0000);
    Ok(if block.coinbase.Some? then head.(coinbase := block.coinbase.value) else head)
  }

  /** Deposits get the sender's nonce from the state before the block, other transactions keep theirs. */
  function NonceFor(env: BuilderEnv, sdb: StateDb, tx: TransactionTrace): nat {
    if tx.type_ == env.depositTxType then env.nonceOf(sdb, tx.from) else tx.nonce
  }

  function Nonces(env: BuilderEnv, sdb: StateDb, block: BlockTrace): seq<nat> {
    seq(|block.transactions|, i requires 0 <= i < |block.transactions| =>
      NonceFor(env, sdb, block.transactions[i]))
  }

  datatype Built = Built(sdb: StateDb, headers: map<nat, BlockHead>)

  /** The builder after block `i` and all later ones. */
  function BuildFrom(env: BuilderEnv, blocks: seq<BlockTrace>, chainId: nat, i: nat, state: Built): Outcome<Built>
    requires i <= |blocks|
    decreases |blocks| - i
  {
    if i == |blocks| then Ok(state)
    else
      var head :- HeadFor(env, chainId, blocks[i]);
      var headers := state.headers[head.number := head];
      var sdb :- env.handleBlock(state.sdb, headers, blocks[i], Nonces(env, state.sdb, blocks[i]), i == |blocks| - 1);
      BuildFrom(env, blocks, chainId, i + 1, Built(sdb, headers))
  }

  /** The fields of `CircuitInputBuilder` that the loop updates. */
  class CircuitInputBuilder {
    var sdb: StateDb
    var headers: map<nat, BlockHead>

    constructor (sdb: StateDb)
      ensures this.sdb == sdb && headers == map[]
    {
      this.sdb := sdb;
      headers := map[];
    }

    method HandleBlocks(env: BuilderEnv, blocks: seq<BlockTrace>) returns (r: Outcome<()>)
      modifies this
      ensures match BuildFrom(env, blocks, ChainId(env, blocks), 0, Built(old(sdb), old(headers)))
              case Ok(built) => r == Ok(()) && sdb == built.sdb && headers == built.headers
              case failed => r == failed.PropagateFailure()
    {
      var chainId := ChainId(env, blocks);
      for idx := 0 to |blocks|
        invariant BuildFrom(env, blocks, chainId, 0, Built(old(sdb), old(headers)))
               == BuildFrom(env, blocks, chainId, idx, Built(sdb, headers))
      {
        var isLast := idx == |blocks| - 1;
        var nonces := Nonces(env, sdb, blocks[idx]);
        var header :- env.blockHead(chainId, blocks[idx]);
        if header.number >= 0x1_0000_0000_0000_0000 {
          return Panic;
        }
        if blocks[idx].coinbase.Some? {
          header := header.(coinbase := blocks[idx].coinbase.value);
        }
        headers := headers[header.number := header];
        var next :- env.handleBlock(sdb, headers, blocks[idx], nonces, isLast);
        sdb := next;
      }
      return Ok(());
    }
  }

  /** The header of the last block with number `n`, found by looking back from the end. */
  function LastHead(env: BuilderEnv, chainId: nat, blocks: seq<BlockTrace>, n: nat): Option<BlockHead> {
    if blocks == [] then None
    else
      match HeadFor(env, chainId, blocks[|blocks| - 1])
      case Ok(head) =>
        if head.number == n then Some(head) else LastHead(env, chainId, blocks[..|blocks| - 1], n)
      case _ => LastHead(env, chainId, blocks[..|blocks| - 1], n)
  }

  ghost predicate HasNumber(env: BuilderEnv, chainId: nat, block: BlockTrace, n: nat) {
    && env.blockHead(chainId, block).Ok?
    && env.blockHead(chainId, block).value.number == n < 0x1_0000_0000_0000_0000
  }

  /** The header found is that of a block with the number, no later block has it, and it is the block's own header
      except that a separate coinbase field replaces the header's; none is found iff no block has the number. */
  lemma {:induction false} LastHeadExact(env: BuilderEnv, chainId: nat, blocks: seq<BlockTrace>, n: nat)
    ensures var found := LastHead(env, chainId, blocks, n);
            && (found.None? ==> forall k :: 0 <= k < |blocks| ==> !HasNumber(env, chainId, blocks[k], n))
            && (found.Some? ==>
                exists i :: 0 <= i < |blocks| && HasNumber(env, chainId, blocks[i], n)
                         && (forall k :: i < k < |blocks| ==> !HasNumber(env, chainId, blocks[k], n))
                         && var own := env.blockHead(chainId, blocks[i]).value;
                            found.value == match blocks[i].coinbase
                                           case Some(coinbase) => own.(coinbase := coinbase)
                                           case None => own)
  {
    if blocks != [] && !HasNumber(env, chainId, blocks[|blocks| - 1], n) {
      var init := blocks[..|blocks| - 1];
      LastHeadExact(env, chainId, init, n);
      assert LastHead(env, chainId, blocks, n) == LastHead(env, chainId, init, n);
      assert forall k :: 0 <= k < |init| ==> init[k] == blocks[k];
    }
  }

  ghost predicate HoldsLastHeads(env: BuilderEnv, chainId: nat, headers: map<nat, BlockHead>, blocks: seq<BlockTrace>) {
    forall n: nat ::
      && (n in headers <==> LastHead(env, chainId, blocks, n).Some?)
      && (n in headers ==> LastHead(env, chainId, blocks, n) == Some(headers[n]))
  }

  /** Started without headers, a successful build holds for every block number the header of the last block
      with that number, and no other header. */
  lemma HeadersAreLastHeads(env: BuilderEnv, blocks: seq<BlockTrace>, sdb: StateDb)
    requires BuildFrom(env, blocks, ChainId(env, blocks), 0, Built(sdb, map[])).Ok?
    ensures HoldsLastHeads(env, ChainId(env, blocks),
                           BuildFrom(env, blocks, ChainId(env, blocks), 0, Built(sdb, map[])).value.headers, blocks)
  {
    HeadersFrom(env, blocks, ChainId(env, blocks), 0, Built(sdb, map[]));
  }

  lemma HeadersNext(env: BuilderEnv, blocks: seq<BlockTrace>, chainId: nat, i: nat, headers: map<nat, BlockHead>)
    requires i < |blocks| && HoldsLastHeads(env, chainId, headers, blocks[..i])
    requires HeadFor(env, chainId, blocks[i]).Ok?
    ensures var head := HeadFor(env, chainId, blocks[i]).value;
            HoldsLastHeads(env, chainId, headers[head.number := head], blocks[..i + 1])
  {
    assert blocks[..i + 1][..i] == blocks[..i];
  }

  lemma {:induction false} HeadersFrom(env: BuilderEnv, blocks: seq<BlockTrace>, chainId: nat, i: nat, state: Built)
    requires i <= |blocks| && HoldsLastHeads(env, chainId, state.headers, blocks[..i])
    requires BuildFrom(env, blocks, chainId, i, state).Ok?
    ensures HoldsLastHeads(env, chainId, BuildFrom(env, blocks, chainId, i, state).value.headers, blocks)
    decreases |blocks| - i
  {
    if i == |blocks| {
      assert blocks[..i] == blocks;
    } else {
      var head := HeadFor(env, chainId, blocks[i]).value;
      var headers := state.headers[head.number := head];
      var sdb := env.handleBlock(state.sdb, headers, blocks[i], Nonces(env, state.sdb, blocks[i]), i == |blocks| - 1);
      HeadersNext(env, blocks, chainId, i, state.headers);
      HeadersFrom(env, blocks, chainId, i + 1, Built(sdb.value, headers));
    }
  }

  // ---------------------------------------------------------------- the loop as a chain of states

  /** One nonce a transaction: a deposit's is the one its sender has in the state, any other's is its own. */
  ghost predicate NoncesFor(env: BuilderEnv, sdb: StateDb, txs: seq<TransactionTrace>, nonces: seq<nat>) {
    && |nonces| == |txs|
    && forall k :: 0 <= k < |txs| ==>
         nonces[k] == (if txs[k].type_ != env.depositTxType then txs[k].nonce else env.nonceOf(sdb, txs[k].from))
  }

  /** What handling block `i` in a state gives: it is handed the last heads of all blocks so far and the nonces for
      that state, and told whether it is the last block of the batch. */
  ghost predicate HandledAs(env: BuilderEnv, chainId: nat, blocks: seq<BlockTrace>, i: nat, sdb: StateDb,
                            r: Outcome<StateDb>)
    requires i < |blocks|
  {
    && env.blockHead(chainId, blocks[i]).Ok?
    && env.blockHead(chainId, blocks[i]).value.number < 0x1_0000_0000_0000_0000
    && exists headers, nonces ::
         && HandedOver(env, chainId, blocks, i, sdb, headers, nonces)
         && r == env.handleBlock(sdb, headers, blocks[i], nonces, i + 1 == |blocks|)
  }

  ghost predicate HandedOver(env: BuilderEnv, chainId: nat, blocks: seq<BlockTrace>, i: nat, sdb: StateDb,
                             headers: map<nat, BlockHead>, nonces: seq<nat>)
    requires i < |blocks|
  {
    HoldsLastHeads(env, chainId, headers, blocks[..i + 1]) && NoncesFor(env, sdb, blocks[i].transactions, nonces)
  }

  /** Each state comes from the one before by handling the blocks from `i` on, one after the other. */
  ghost predicate IsChain(env: BuilderEnv, chainId: nat, blocks: seq<BlockTrace>, i: nat, states: seq<StateDb>) {
    && states != [] && i + |states| - 1 <= |blocks|
    && forall k: nat :: k < |states| - 1 ==> HandledAs(env, chainId, blocks, i + k, states[k], Ok(states[k + 1]))
  }

  lemma LastHeadsUnique(env: BuilderEnv, chainId: nat, h1: map<nat, BlockHead>, h2: map<nat, BlockHead>,
                        blocks: seq<BlockTrace>)
    requires HoldsLastHeads(env, chainId, h1, blocks) && HoldsLastHeads(env, chainId, h2, blocks)
    ensures h1 == h2
  {
    assert h1.Keys == h2.Keys;
  }

  /** What the loop body calls is the one thing handling the block can be. */
  lemma HandledExact(env: BuilderEnv, chainId: nat, blocks: seq<BlockTrace>, i: nat, state: Built, r: Outcome<StateDb>)
    requires i < |blocks| && HoldsLastHeads(env, chainId, state.headers, blocks[..i])
    ensures HandledAs(env, chainId, blocks, i, state.sdb, r) <==>
            && HeadFor(env, chainId, blocks[i]).Ok?
            && var head := HeadFor(env, chainId, blocks[i]).value;
               r == env.handleBlock(state.sdb, state.headers[head.number := head], blocks[i],
                                    Nonces(env, state.sdb, blocks[i]), i == |blocks| - 1)
  {
    if HeadFor(env, chainId, blocks[i]).Ok? {
      var head := HeadFor(env, chainId, blocks[i]).value;
      var headers' := state.headers[head.number := head];
      HeadersNext(env, blocks, chainId, i, state.headers);
      assert HandedOver(env, chainId, blocks, i, state.sdb, headers', Nonces(env, state.sdb, blocks[i]));
      forall headers, nonces | HandedOver(env, chainId, blocks, i, state.sdb, headers, nonces)
        ensures headers == headers' && nonces == Nonces(env, state.sdb, blocks[i])
      {
        LastHeadsUnique(env, chainId, headers, headers', blocks[..i + 1]);
      }
    }
  }

  /** A build from block `i` on runs through a chain of states; it ends after the last block or where one fails. */
  lemma {:induction false} BuildIsChain(env: BuilderEnv, blocks: seq<BlockTrace>, chainId: nat, i: nat, state: Built)
    returns (states: seq<StateDb>)
    requires i <= |blocks| && HoldsLastHeads(env, chainId, state.headers, blocks[..i])
    ensures IsChain(env, chainId, blocks, i, states) && states[0] == state.sdb
    ensures var r, n := BuildFrom(env, blocks, chainId, i, state), i + |states| - 1;
            if r.Ok? then n == |blocks| && r.value.sdb == states[|states| - 1]
            else n < |blocks| && FailsAs(env, chainId, blocks, n, states[|states| - 1], r)
    decreases |blocks| - i
  {
    states := [state.sdb];
    if i < |blocks| && HeadFor(env, chainId, blocks[i]).Ok? {
      var head := HeadFor(env, chainId, blocks[i]).value;
      var headers := state.headers[head.number := head];
      var sdb := env.handleBlock(state.sdb, headers, blocks[i], Nonces(env, state.sdb, blocks[i]), i == |blocks| - 1);
      HandledExact(env, chainId, blocks, i, state, sdb);
      if sdb.Ok? {
        HeadersNext(env, blocks, chainId, i, state.headers);
        var rest := BuildIsChain(env, blocks, chainId, i + 1, Built(sdb.value, headers));
        states := [state.sdb] + rest;
        forall k: nat | k < |states| - 1
          ensures HandledAs(env, chainId, blocks, i + k, states[k], Ok(states[k + 1]))
        {
          if k > 0 {
            assert HandledAs(env, chainId, blocks, (i + 1) + (k - 1), rest[k - 1], Ok(rest[k - 1 + 1]));
          }
        }
      }
    }
  }

  /** Block `i` fails: it has no header, its number does not fit 64 bits, or handling it fails. */
  ghost predicate FailsAs(env: BuilderEnv, chainId: nat, blocks: seq<BlockTrace>, i: nat, sdb: StateDb,
                          r: Outcome<Built>)
    requires i < |blocks|
  {
    var head := env.blockHead(chainId, blocks[i]);
    if head.IsFailure() then r == head.PropagateFailure()
    else if head.value.number >= 0x1_0000_0000_0000_0000 then r == Panic
    else exists handled: Outcome<StateDb> ::
           HandledAs(env, chainId, blocks, i, sdb, handled) && handled.IsFailure() && r == handled.PropagateFailure()
  }

  /** And a chain to the end is a build. */
  lemma {:induction false} ChainIsBuild(env: BuilderEnv, blocks: seq<BlockTrace>, chainId: nat, i: nat, state: Built,
                                        states: seq<StateDb>)
    requires i <= |blocks| && HoldsLastHeads(env, chainId, state.headers, blocks[..i])
    requires IsChain(env, chainId, blocks, i, states) && states[0] == state.sdb && i + |states| - 1 == |blocks|
    ensures BuildFrom(env, blocks, chainId, i, state).Ok?
    ensures BuildFrom(env, blocks, chainId, i, state).value.sdb == states[|states| - 1]
    decreases |blocks| - i
  {
    if i < |blocks| {
      assert HandledAs(env, chainId, blocks, i + 0, states[0], Ok(states[0 + 1]));
      HandledExact(env, chainId, blocks, i, state, Ok(states[1]));
      HeadersNext(env, blocks, chainId, i, state.headers);
      var head := HeadFor(env, chainId, blocks[i]).value;
      forall k: nat | k < |states[1..]| - 1
        ensures HandledAs(env, chainId, blocks, i + 1 + k, states[1..][k], Ok(states[1..][k + 1]))
      {
        assert HandledAs(env, chainId, blocks, i + (k + 1), states[k + 1], Ok(states[k + 1 + 1]));
      }
      ChainIsBuild(env, blocks, chainId, i + 1, Built(states[1], state.headers[head.number := head]), states[1..]);
    }
  }

  /** Started without headers, the loop succeeds with a state exactly when a chain of handled blocks leads there from
      the initial one, and the headers are then the last heads of the batch. */
  lemma BuildExact(env: BuilderEnv, blocks: seq<BlockTrace>, sdb: StateDb, built: Built)
    ensures BuildFrom(env, blocks, ChainId(env, blocks), 0, Built(sdb, map[])) == Ok(built) <==>
            && HoldsLastHeads(env, ChainId(env, blocks), built.headers, blocks)
            && exists states :: IsChain(env, ChainId(env, blocks), blocks, 0, states) && |states| == |blocks| + 1
                             && states[0] == sdb && states[|blocks|] == built.sdb
  {
    var chainId, start := ChainId(env, blocks), Built(sdb, map[]);
    if BuildFrom(env, blocks, chainId, 0, start).Ok? {
      HeadersAreLastHeads(env, blocks, sdb);
      var states := BuildIsChain(env, blocks, chainId, 0, start);
    }
    if exists states :: IsChain(env, chainId, blocks, 0, states) && |states| == |blocks| + 1
                     && states[0] == sdb && states[|blocks|] == built.sdb {
      var states :| IsChain(env, chainId, blocks, 0, states) && |states| == |blocks| + 1
                 && states[0] == sdb && states[|blocks|] == built.sdb;
      ChainIsBuild(env, blocks, chainId, 0, start, states);
      HeadersAreLastHeads(env, blocks, sdb);
      if HoldsLastHeads(env, chainId, built.headers, blocks) {
        LastHeadsUnique(env, chainId, built.headers, BuildFrom(env, blocks, chainId, 0, start).value.headers, blocks);
      }
    }
  }

  /** A failed loop fails as the first failing block does. */
  lemma BuildFailure(env: BuilderEnv, blocks: seq<BlockTrace>, sdb: StateDb)
    requires !BuildFrom(env, blocks, ChainId(env, blocks), 0, Built(sdb, map[])).Ok?
    ensures exists states :: IsChain(env, ChainId(env, blocks), blocks, 0, states) && |states| <= |blocks|
                          && states[0] == sdb
                          && FailsAs(env, ChainId(env, blocks), blocks, |states| - 1, states[|states| - 1],
                                     BuildFrom(env, blocks, ChainId(env, blocks), 0, Built(sdb, map[])))
  {
    var states := BuildIsChain(env, blocks, ChainId(env, blocks), 0, Built(sdb, map[]));
  }
}
