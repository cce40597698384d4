/** N peers, a network that loses, delays, duplicates and reorders, timeouts, client requests and
    crashes. Each action runs one lock-protected handler of one peer. */
module RaftSystem {
  import opened RaftTypes
  import opened Quorums
  import opened RaftProtocol
  import opened RaftServer

  /** Bookkeeping that no handler reads. */
  datatype History = History(
    grants: set<(int, int, int)>, bids: map<(int, int), Log>, reigns: map<int, Reign>,
    acks: map<(int, int), nat>, applied: set<(int, int, Command)>)

  datatype System = System(servers: seq<Server>, elections: seq<map<int, Ballot>>, net: set<Message>, hist: History)

  datatype Action =
    | Timeout(i: int)
    | TakeVoteRequest(i: int, m: Message)
    | TakeVoteResponse(i: int, m: Message)
    | HeartBeat(i: int)
    | ClientStart(i: int, x: Command)
    | TakeAppendRequest(i: int, m: Message)
    | TakeAppendResponse(i: int, m: Message)
    | ApplyNext(i: int)
    | CrashRestart(i: int)

  ghost predicate Shaped(sys: System) {
    && |sys.elections| == |sys.servers|
    && forall i :: 0 <= i < |sys.servers| ==>
         sys.servers[i].Valid() && |sys.servers[i].nextIndex| == |sys.servers|
  }

  ghost function Initial(n: nat): System {
    System(seq(n, _ => Fresh(n)), seq(n, _ => map[]), {}, History({}, map[], map[], map[], {}))
  }

  /** A leader would count a reply to a request it sent in another term. */
  ghost predicate IsStale(s: Server, m: Message)
    requires m.AppendResponse?
  {
    m.areply.term <= s.currentTerm && s.state == Leader && m.aargs.term != s.currentTerm
  }

  /** When an action can happen. With `guarded`, a leader never counts a stale reply; the program does
      not test that. */
  ghost predicate Enabled(sys: System, act: Action, guarded: bool)
    requires Shaped(sys)
  {
    && 0 <= act.i < |sys.servers|
    && var s := sys.servers[act.i];
       match act
       case Timeout(_) => true
       case TakeVoteRequest(i, m) => m in sys.net && m.VoteRequest? && m.to == i
       case TakeVoteResponse(i, m) =>
         && m in sys.net && m.VoteResponse? && m.vargs.candidateId == i
         && m.vargs.term in sys.elections[i] && m.from in sys.elections[i][m.vargs.term].awaiting
       case HeartBeat(_) => s.state == Leader
       case ClientStart(_, _) => s.state == Leader
       case TakeAppendRequest(i, m) => m in sys.net && m.AppendRequest? && m.to == i
       case TakeAppendResponse(i, m) =>
         && m in sys.net && m.AppendResponse? && m.aargs.leaderId == i && 0 <= m.from < |sys.servers|
         && (guarded ==> !IsStale(s, m))
       case ApplyNext(_) => CanApply(s)
       case CrashRestart(_) => true
  }

  ghost function Put(sys: System, i: int, s: Server, out: set<Message>, h: History): System
    requires 0 <= i < |sys.servers|
  {
    sys.(servers := sys.servers[i := s], net := sys.net + out, hist := h)
  }

  ghost function DoTimeout(sys: System, i: int): System
    requires Shaped(sys) && 0 <= i < |sys.servers|
  {
    var (s, a) := BeginElection(sys.servers[i], i);
    var others := Peers(|sys.servers|) - {i};
    var h := sys.hist.(grants := sys.hist.grants + {(i, a.term, i)},
                       bids := sys.hist.bids[(i, a.term) := s.log]);
    Put(sys, i, s, set p | p in others :: VoteRequest(a, p), h)
      .(elections := sys.elections[i := sys.elections[i][a.term := Ballot(1, false, others)]])
  }

  ghost function DoVoteRequest(sys: System, i: int, a: VoteArgs): System
    requires Shaped(sys) && 0 <= i < |sys.servers|
  {
    var (s, r) := OnVoteRequest(sys.servers[i], a);
    var h := if r.voteGranted then sys.hist.(grants := sys.hist.grants + {(i, a.term, a.candidateId)}) else sys.hist;
    Put(sys, i, s, {VoteResponse(a, i, r)}, h)
  }

  ghost function DoVoteResponse(sys: System, i: int, a: VoteArgs, from: int, r: VoteReply): System
    requires Shaped(sys) && 0 <= i < |sys.servers| && a.term in sys.elections[i]
  {
    var b := sys.elections[i][a.term].(awaiting := sys.elections[i][a.term].awaiting - {from});
    var (s, b', won) := OnVoteResponse(sys.servers[i], b, |sys.servers|, a, r);
    var h := if won then
               var voters := Supporters(|sys.servers|, sys.hist.grants, i, a.term, b'.awaiting);
               sys.hist.(reigns := sys.hist.reigns[a.term := Reign(i, s.log, s.log, voters)],
                         acks := sys.hist.acks[(i, a.term) := |s.log|])
             else sys.hist;
    Put(sys, i, s, if won then Broadcast(s, i, true) else {}, h)
      .(elections := sys.elections[i := sys.elections[i][a.term := b']])
  }

  ghost function DoStart(sys: System, i: int, x: Command): System
    requires Shaped(sys) && 0 <= i < |sys.servers|
  {
    var s := Append(sys.servers[i], x);
    var t := s.currentTerm;
    var h := if t in sys.hist.reigns then
               sys.hist.(reigns := sys.hist.reigns[t := sys.hist.reigns[t].(log := s.log)],
                         acks := sys.hist.acks[(i, t) := |s.log|])
             else sys.hist;
    Put(sys, i, s, Broadcast(s, i, false), h)
  }

  ghost function DoAppendRequest(sys: System, i: int, a: AppendArgs): System
    requires Shaped(sys) && 0 <= i < |sys.servers|
  {
    var (s, r) := OnAppendRequest(sys.servers[i], a);
    var got := a.prevLogIndex + 1 + |a.entries|;
    var had := Ack(sys.hist.acks, i, a.term);
    var h := if r.success then sys.hist.(acks := sys.hist.acks[(i, a.term) := if got > had then got else had])
             else sys.hist;
    Put(sys, i, s, {AppendResponse(a, i, r)}, h)
  }

  ghost function DoApply(sys: System, i: int): System
    requires Shaped(sys) && 0 <= i < |sys.servers| && CanApply(sys.servers[i])
  {
    var s := Apply(sys.servers[i]);
    var k := s.lastApplied;
    Put(sys, i, s, {}, sys.hist.(applied := sys.hist.applied + {(i, k, s.log[k].command)}))
  }

  ghost function Exec(sys: System, act: Action, guarded: bool): System
    requires Shaped(sys) && Enabled(sys, act, guarded)
  {
    var i := act.i;
    var s := sys.servers[i];
    match act
    case Timeout(_) => DoTimeout(sys, i)
    case TakeVoteRequest(_, m) => DoVoteRequest(sys, i, m.vargs)
    case TakeVoteResponse(_, m) => DoVoteResponse(sys, i, m.vargs, m.from, m.vreply)
    case HeartBeat(_) => Put(sys, i, s, Broadcast(s, i, true), sys.hist)
    case ClientStart(_, x) => DoStart(sys, i, x)
    case TakeAppendRequest(_, m) => DoAppendRequest(sys, i, m.aargs)
    case TakeAppendResponse(_, m) => Put(sys, i, OnAppendResponse(s, i, m.from, m.aargs, m.areply), {}, sys.hist)
    case ApplyNext(_) => DoApply(sys, i)
    case CrashRestart(_) => Put(sys, i, Restart(s), {}, sys.hist).(elections := sys.elections[i := map[]])
  }

  // ----- what continuations of a run talk about -----

  /** What candidate c of term t with log l asks for its vote with. */
  ghost function Plea(c: int, t: int, l: Log): VoteArgs
    requires |l| > 0
  {
    VoteArgs(t, c, |l| - 1, LastTerm(l))
  }

  /** Every peer but the candidate has been asked. */
  ghost predicate Asks(sys: System, n: nat, a: VoteArgs) {
    forall v :: 0 <= v < n && v != a.candidateId ==> VoteRequest(a, v) in sys.net
  }

  /** Nobody but c and d has changed, and no message is gone. */
  ghost predicate Others(sys: System, sys': System, c: int, d: int) {
    && |sys.servers| == |sys'.servers| && sys.net <= sys'.net
    && forall i :: 0 <= i < |sys.servers| && i != c && i != d ==> sys'.servers[i] == sys.servers[i]
  }

  // ----- the view of the protocol, and what is invariant about one peer on its own -----

  ghost function View(sys: System, strict: bool): Proto {
    var n := |sys.servers|;
    Proto(
      seq(n, i requires 0 <= i < n => sys.servers[i].currentTerm),
      seq(n, i requires 0 <= i < n => sys.servers[i].votedFor),
      seq(n, i requires 0 <= i < n => sys.servers[i].state),
      seq(n, i requires 0 <= i < n => sys.servers[i].log),
      seq(n, i requires 0 <= i < n => sys.servers[i].commitIndex),
      seq(n, i requires 0 <= i < n => sys.servers[i].matchIndex),
      sys.elections, sys.net,
      sys.hist.grants, sys.hist.bids, sys.hist.reigns, sys.hist.acks, sys.hist.applied, strict)
  }

  /** The disk always holds what memory holds. */
  ghost predicate DiskOK(s: Server) {
    match s.disk
    case Empty => s.currentTerm == 0 && s.votedFor == -1 && s.log == [SENTINEL]
    case Holds(d) => d == Saved(s.currentTerm, s.votedFor, s.log)
  }

  ghost predicate ServerOK(s: Server, strict: bool) {
    && DiskOK(s)
    && (strict ==> s.lastApplied <= s.commitIndex)
    && (strict && s.state == Leader ==> forall p :: 0 <= p < |s.nextIndex| ==> 1 <= s.nextIndex[p] <= |s.log|)
  }

  ghost predicate SysInv(sys: System, strict: bool) {
    && Shaped(sys)
    && Inv(View(sys, strict))
    && forall i :: 0 <= i < |sys.servers| ==> ServerOK(sys.servers[i], strict)
  }
}
