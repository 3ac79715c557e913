/** The slice of the substreams Ethereum block model that the dispatcher reads. */
module Chain {
  import opened Octets

  /** A 20-byte account address. */
  type Address = a: Bytes | |a| == 20 witness seq(20, _ => 0)

  /** A 32-byte word, such as a vault pool id. */
  type Bytes32 = b: Bytes | |b| == 32 witness seq(32, _ => 0)

  /** An emitted log. `address` is the raw `Vec<u8>` of the emitter. */
  datatype Log = Log(address: Bytes, topics: seq<Bytes>, data: Bytes)

  /** A call frame of the transaction's call tree. */
  datatype Call = Call(address: Bytes, input: Bytes)

  /** One element of `TransactionTrace::logs_with_calls`. */
  datatype LogWithCall = LogWithCall(log: Log, call: Call)

  /** A transaction, seen through its logs in emission order. */
  datatype TransactionTrace = TransactionTrace(logsWithCalls: seq<LogWithCall>)
}
