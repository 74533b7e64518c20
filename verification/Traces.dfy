/** The parts of a block trace that the modelled code reads (types/src/eth.rs). */
module Traces {
  import opened Common

  type Address = nat  // 20 bytes
  type Hash(==, !new)
  type StorageTrace(==, !new)

  datatype TransactionTrace = TransactionTrace(
    type_: nat, nonce: nat, from: Address, to: Option<Address>, chainId: nat, data: seq<Byte>)

  datatype Opcode =
    | CALL | CALLCODE | DELEGATECALL | STATICCALL
    | CREATE | CREATE2
    | EXTCODESIZE | EXTCODECOPY
    | OtherOp(byte: Byte)

  datatype ExtraData = ExtraData(codeList: Option<seq<seq<Byte>>>)

  datatype ExecStep = ExecStep(op: Opcode, stack: Option<seq<nat>>, extraData: Option<ExtraData>)

  datatype ExecutionResult = ExecutionResult(byteCode: Option<seq<Byte>>, execSteps: seq<ExecStep>)

  datatype Header = Header(number: Option<nat>, hash: Option<Hash>)

  datatype BlockTrace = BlockTrace(
    coinbase: Option<Address>,
    header: Header,
    transactions: seq<TransactionTrace>,
    executionResults: seq<ExecutionResult>,
    storageTrace: StorageTrace)
}
