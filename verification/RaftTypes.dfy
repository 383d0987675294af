/** Values shared by the model of the Python engine: commands, log entries and messages. */
module RaftTypes {

  datatype Option<+T> = None | Some(value: T) {
    function GetOr(default: T): T {
      if Some? then value else default
    }
  }

  type NodeId = string

  /** A client or cluster command. The member lists and the threshold are carried decoded. */
  datatype Command =
    | AppCommand(op: string, key: string, value: Option<string>)
    | SetMaxLog(threshold: int)
    | EnterJoint(members: seq<NodeId>)
    | LeaveJoint(members: seq<NodeId>)

  /** Entries carry their own index, the term they were created in and the node that created them. */
  datatype Entry = Entry(index: nat, term: nat, command: Command, creator: NodeId)

  type Log = seq<Entry>

  datatype Message =
    | RequestVote(term: nat, source: NodeId, target: NodeId, lastIndex: nat, lastTerm: nat)
    | VoteReply(term: nat, source: NodeId, target: NodeId, granted: bool)
    | AppendEntries(term: nat, source: NodeId, target: NodeId, prevIndex: nat, prevTerm: nat,
                    prevCreator: NodeId, entries: Log, leaderCommit: nat)
    | AppendReply(term: nat, source: NodeId, target: NodeId, success: bool, matchIndex: nat)

  datatype Role = Follower | Candidate | Leader

  function LastTerm(log: Log): nat {
    if log == [] then 0 else log[|log| - 1].term
  }

  /** Term of the entry at a 1-based index; index 0 is the empty prefix. */
  function TermAt(log: Log, index: nat): nat
    requires index <= |log|
  {
    if index == 0 then 0 else log[index - 1].term
  }

  function CreatorAt(log: Log, index: nat): NodeId {
    if index == 0 || index > |log| then "" else log[index - 1].creator
  }

  /** The voter's comparison of a candidate's last entry with its own. */
  predicate UpToDate(lastIndex: nat, lastTerm: nat, log: Log) {
    if lastTerm != LastTerm(log) then lastTerm > LastTerm(log) else lastIndex >= |log|
  }

  function Min(a: nat, b: nat): nat {
    if a < b then a else b
  }

  function Max(a: nat, b: nat): nat {
    if a < b then b else a
  }
}
