/** Values shared by the Raft modules: log entries, roles, RPC arguments and replies. */
module RaftTypes {

  /** A client command (`interface{}` in the program); `Nil` is Go's nil. */
  datatype Command = Nil | Payload(data: int)

  datatype Entry = Entry(command: Command, term: int, index: int)

  /** The entry every fresh log starts with. */
  const SENTINEL: Entry := Entry(Payload(-1), 0, 0)

  /** An uncompacted log: position in the sequence and `Entry.index` coincide. */
  type Log = seq<Entry>

  datatype Role = Follower | Candidate | Leader

  datatype VoteArgs = VoteArgs(term: int, candidateId: int, lastLogIndex: int, lastLogTerm: int)

  datatype VoteReply = VoteReply(term: int, voteGranted: bool)

  datatype AppendArgs = AppendArgs(term: int, leaderId: int, prevLogIndex: int, prevLogTerm: int,
                                   entries: seq<Entry>, leaderCommit: int)

  datatype AppendReply = AppendReply(term: int, success: bool, conflict: bool,
                                     xTerm: int, xIndex: int, xLen: int)

  /** One election as its candidate's goroutines share it: votes counted, whether the becomeLeader
      once has fired, and the peers whose goroutine has not returned. */
  datatype Ballot = Ballot(count: int, fired: bool, awaiting: set<int>)

  /** What the network may hold. A response remembers the request it answers, because the
      goroutine that receives it still has that request in hand. */
  datatype Message =
    | VoteRequest(vargs: VoteArgs, to: int)
    | VoteResponse(vargs: VoteArgs, from: int, vreply: VoteReply)
    | AppendRequest(aargs: AppendArgs, to: int)
    | AppendResponse(aargs: AppendArgs, from: int, areply: AppendReply)

  function LastTerm(l: Log): (t: int)
    requires |l| > 0
  {
    l[|l| - 1].term
  }

  /** Indices equal positions, the sentinel comes first, terms are positive after it and never fall. */
  ghost predicate WellFormed(l: Log) {
    && |l| > 0
    && l[0] == SENTINEL
    && (forall k :: 0 <= k < |l| ==> l[k].index == k)
    && (forall k :: 1 <= k < |l| ==> l[k].term >= 1)
    && (forall j, k {:trigger Ordered(l, j, k)} :: Ordered(l, j, k))
  }

  ghost predicate Ordered(l: Log, j: int, k: int) {
    0 <= j <= k < |l| ==> l[j].term <= l[k].term
  }

  /** The vote rule: (t, k) is the last term and index a candidate advertises. */
  predicate AtLeastAsRecent(t: int, k: int, l: Log)
    requires |l| > 0
  {
    t > LastTerm(l) || (t == LastTerm(l) && k >= |l| - 1)
  }

  /** The follower's merge: skip entries whose term already matches, cut at the first that does not
      (or at the end of the log) and take everything the leader sent from there. */
  function Merge(l: Log, prev: int, es: seq<Entry>): (m: Log)
    requires 0 <= prev < |l|
    decreases |es|
  {
    if es == [] then l
    else if prev + 1 < |l| && l[prev + 1].term == es[0].term then Merge(l, prev + 1, es[1..])
    else l[..prev + 1] + es
  }
}
