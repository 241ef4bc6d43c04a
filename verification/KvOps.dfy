/** The commands of the replicated key/value service, as the Raft log carries them. */
module KvOps {
  datatype OpType = OpGet | OpPut | OpAppend

  /** One client request: what to do, and the client and sequence number that identify it. */
  datatype Op = Op(typ: OpType, key: string, value: string, clientId: int, seqNum: int)
}
