/** The operations that the key-value service puts into the replicated log. */
module Ops {

  /** The operation names the state machine knows; every other string is Unknown. */
  datatype OpKind = Get | Put | Append | Unknown

  datatype Op = Op(kind: OpKind, key: string, value: string, clientId: nat, seqNo: int)

  /** A log command: the empty command of the dummy entry, or an encoded operation. */
  datatype Command = Blank | Client(op: Op)
}
