// The values that travel through the Raft log: members, commands, entries.
module Types {

  datatype Option<+T> = None | Some(value: T)

  datatype NodeId = NodeId(name: string)

  // "client_id:seq", already split at the last colon.
  datatype RequestId = RequestId(client: string, number: nat)

  // The commands of the state machine, already parsed. Times are Unix
  // milliseconds stamped by the node that received the command.
  datatype Operation =
    | SignUp(hash: string)
    | Set(key: string, value: string)
    | SetEx(key: string, expireAt: int, value: string)
    | Delete(key: string, stamp: Option<int>)
    | ExpireAt(key: string, expireAt: int, now: int)
    | Persist(key: string, now: int)
    | Sweep(now: int)
    | Unknown

  datatype Command =
    | Noop
    | Config(members: set<NodeId>)
    | Run(op: Operation)

  datatype Entry = Entry(term: nat, index: nat, command: Command, username: string, request: Option<RequestId>)
}
