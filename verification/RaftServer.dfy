/** One peer as a value, and what each lock-protected handler does to it. The class in RaftPeer
    runs the same handlers in place and is proved equal to these functions. Logs are uncompacted
    here (Index0 = 0): position and index coincide. */
module RaftServer {
  import opened RaftTypes

  /** What `persist` writes. */
  datatype Saved = Saved(currentTerm: int, votedFor: int, log: Log)

  datatype Disk = Empty | Holds(saved: Saved)

  datatype Server = Server(
    currentTerm: int, votedFor: int, state: Role, leaderId: int, log: Log,
    commitIndex: int, lastApplied: int, nextIndex: seq<int>, matchIndex: seq<int>, disk: Disk)
  {
    ghost predicate Valid() {
      |log| > 0 && 0 <= commitIndex && 0 <= lastApplied && |nextIndex| == |matchIndex|
    }
  }

  /** `Make` on a machine with nothing on disk. */
  function Fresh(n: nat): Server {
    Server(0, -1, Follower, 0, [SENTINEL], 0, 0, seq(n, _ => 0), seq(n, _ => 0), Empty)
  }

  function Persist(s: Server): Server {
    s.(disk := Holds(Saved(s.currentTerm, s.votedFor, s.log)))
  }

  /** `Make` followed by `readPersist`: a restart after a crash. */
  function Restart(s: Server): Server {
    var f := Fresh(|s.nextIndex|).(disk := s.disk);
    match s.disk
    case Empty => f
    case Holds(d) => f.(currentTerm := d.currentTerm, votedFor := d.votedFor, log := d.log)
  }

  function SetNewTerm(s: Server, t: int): Server {
    if t > s.currentTerm || s.currentTerm == 0
    then Persist(s.(state := Follower, currentTerm := t, votedFor := -1))
    else s
  }

  // ----- elections -----

  function BeginElection(s: Server, me: int): (Server, VoteArgs)
    requires |s.log| > 0
  {
    var s' := Persist(s.(currentTerm := s.currentTerm + 1, state := Candidate, votedFor := me));
    (s', VoteArgs(s'.currentTerm, me, |s.log| - 1, LastTerm(s.log)))
  }

  function OnVoteRequest(s: Server, a: VoteArgs): (Server, VoteReply)
    requires |s.log| > 0
  {
    if a.term < s.currentTerm then (s, VoteReply(s.currentTerm, false))
    else
      var s1 := if a.term > s.currentTerm then SetNewTerm(s, a.term) else s;
      if (s1.votedFor == -1 || s1.votedFor == a.candidateId)
         && AtLeastAsRecent(a.lastLogTerm, a.lastLogIndex, s1.log)
      then (Persist(s1.(votedFor := a.candidateId)), VoteReply(s1.currentTerm, true))
      else (s1, VoteReply(s1.currentTerm, false))
  }

  /** The leader's bookkeeping on taking office: every peer is assumed up to date, nothing is matched. */
  function TakeOffice(s: Server): Server
    requires |s.log| > 0
  {
    Persist(s.(state := Leader)).(nextIndex := seq(|s.nextIndex|, _ => |s.log|),
                                  matchIndex := seq(|s.matchIndex|, _ => 0))
  }

  /** `candidateRequest` after its call returned. The last result says whether the peer took office
      (and so broadcasts). */
  function OnVoteResponse(s: Server, b: Ballot, n: nat, a: VoteArgs, r: VoteReply): (Server, Ballot, bool)
    requires |s.log| > 0
  {
    if !r.voteGranted then
      (if r.term > s.currentTerm then SetNewTerm(s, r.term) else s, b, false)
    else
      var b1 := b.(count := b.count + 1);
      if 2 * b1.count > n && s.currentTerm == a.term && s.state == Candidate && !b1.fired
      then (TakeOffice(s), b1.(fired := true), true)
      else (s, b1, false)
  }

  // ----- replication, leader side -----

  /** The clamps of `appendEntries`; 0 means the snapshot path would be taken instead. */
  function ClampNext(s: Server, p: int): int
    requires |s.log| > 0 && 0 <= p < |s.nextIndex|
  {
    var last := |s.log| - 1;
    var n1 := if s.nextIndex[p] <= 0 then 1 else s.nextIndex[p];
    if last + 1 < n1 then last else n1
  }

  function AppendArgsFor(s: Server, me: int, p: int): AppendArgs
    requires |s.log| > 0 && 0 <= p < |s.nextIndex| && ClampNext(s, p) > 0
  {
    var n := ClampNext(s, p);
    AppendArgs(s.currentTerm, me, n - 1, s.log[n - 1].term, s.log[n..], s.commitIndex)
  }

  predicate Sends(s: Server, me: int, p: int, heartBeat: bool)
    requires |s.log| > 0
  {
    && 0 <= p < |s.nextIndex| && p != me
    && (|s.log| - 1 >= s.nextIndex[p] || heartBeat)
    && ClampNext(s, p) > 0
  }

  function Broadcast(s: Server, me: int, heartBeat: bool): set<Message>
    requires |s.log| > 0
  {
    set p | 0 <= p < |s.nextIndex| && Sends(s, me, p, heartBeat) :: AppendRequest(AppendArgsFor(s, me, p), p)
  }

  /** `Start` on a leader: one more entry of its own term. */
  function Append(s: Server, x: Command): Server
    requires |s.log| > 0
  {
    Persist(s.(log := s.log + [Entry(x, s.currentTerm, s.log[|s.log| - 1].index + 1)]))
  }

  /** Peers, other than me, known to hold index k. */
  function MatchCount(m: seq<int>, me: int, k: int, upTo: nat): (c: nat)
    requires upTo <= |m|
    ensures c <= upTo
  {
    if upTo == 0 then 0
    else MatchCount(m, me, k, upTo - 1) + (if upTo - 1 != me && m[upTo - 1] >= k then 1 else 0)
  }

  predicate CanCommit(s: Server, me: int, k: int)
    requires 0 <= k < |s.log|
  {
    s.log[k].term == s.currentTerm && 2 * (1 + MatchCount(s.matchIndex, me, k, |s.matchIndex|)) > |s.matchIndex|
  }

  /** The highest index from k on that a majority holds and whose entry is of the current term. */
  function CommitFrom(s: Server, me: int, k: int, best: int): (c: int)
    requires 0 <= k
    ensures c == best || k <= c < |s.log|
    decreases |s.log| - k
  {
    if k >= |s.log| then best
    else CommitFrom(s, me, k + 1, if CanCommit(s, me, k) then k else best)
  }

  function Commit(s: Server, me: int): Server
    requires s.Valid()
  {
    if s.state != Leader then s
    else s.(commitIndex := CommitFrom(s, me, s.commitIndex + 1, s.commitIndex))
  }

  function Max(a: int, b: int): int { if a > b then a else b }

  function Min(a: int, b: int): int { if a > b then b else a }

  /** `findLastLogInTerm`, scanning down from index i. */
  function LastInTerm(l: Log, i: int, x: int): (k: int)
    requires i < |l|
    ensures k == -1 || (0 < k <= i && l[k].term == x)
    decreases i
  {
    if i <= 0 then -1
    else if l[i].term == x then i
    else if l[i].term < x then -1
    else LastInTerm(l, i - 1, x)
  }

  function BackUp(s: Server, p: int, r: AppendReply): Server
    requires |s.log| > 0 && 0 <= p < |s.nextIndex|
  {
    if r.xTerm == -1 then s.(nextIndex := s.nextIndex[p := r.xLen])
    else
      var k := LastInTerm(s.log, |s.log| - 1, r.xTerm);
      s.(nextIndex := s.nextIndex[p := if k > 0 then k else r.xIndex])
  }

  /** `leaderSendEntries` after its call returned. */
  function OnAppendResponse(s: Server, me: int, p: int, a: AppendArgs, r: AppendReply): Server
    requires s.Valid() && 0 <= p < |s.nextIndex|
  {
    if r.term > s.currentTerm then SetNewTerm(s, r.term)
    else if s.state != Leader then s
    else
      var match_ := a.prevLogIndex + |a.entries|;
      var s1 :=
        if r.success then
          s.(nextIndex := s.nextIndex[p := Max(s.nextIndex[p], match_ + 1)],
             matchIndex := s.matchIndex[p := Max(s.matchIndex[p], match_)])
        else if r.conflict then BackUp(s, p, r)
        else s;
      Commit(s1, me)
  }

  // ----- replication, follower side -----

  /** First index of the run of entries of term x that ends at index k; 0 if the run reaches the start. */
  function RunStart(l: Log, k: int, x: int): (i: int)
    requires k < |l|
    ensures 0 <= i && (k >= 0 ==> i <= k)
    decreases k
  {
    if k <= 0 then 0 else if l[k - 1].term != x then k else RunStart(l, k - 1, x)
  }

  function Refuse(t: int): AppendReply {
    AppendReply(t, false, false, 0, 0, 0)
  }

  /** The request is current: adopt its term, stop campaigning, note the leader. */
  function Listen(s: Server, a: AppendArgs): Server {
    var s1 := if a.term > s.currentTerm then SetNewTerm(s, a.term) else s;
    (if s1.state == Candidate then Persist(s1.(state := Follower)) else s1).(leaderId := a.leaderId)
  }

  function OnAppendRequest(s: Server, a: AppendArgs): (Server, AppendReply)
    requires s.Valid()
  {
    var refusal := Refuse(s.currentTerm);
    if a.term < s.currentTerm then (s, refusal)
    else if a.prevLogIndex < 0 then (if a.term > s.currentTerm then SetNewTerm(s, a.term) else s, refusal)
    else TakeEntries(Listen(s, a), a, refusal)
  }

  /** The consistency check at prevLogIndex, with the hints for the leader when it fails. */
  function TakeEntries(s: Server, a: AppendArgs, refusal: AppendReply): (Server, AppendReply)
    requires 0 <= a.prevLogIndex
  {
    if |s.log| - 1 < a.prevLogIndex then
      (s, refusal.(conflict := true, xTerm := -1, xIndex := -1, xLen := |s.log|))
    else if s.log[a.prevLogIndex].term != a.prevLogTerm then
      var x := s.log[a.prevLogIndex].term;
      (s, refusal.(conflict := true, xTerm := x, xIndex := RunStart(s.log, a.prevLogIndex, x), xLen := |s.log|))
    else
      (FollowLeader(s, a), refusal.(success := true))
  }

  /** The log merge and the follower's commit rule. */
  function FollowLeader(s: Server, a: AppendArgs): Server
    requires 0 <= a.prevLogIndex < |s.log|
  {
    var l := Merge(s.log, a.prevLogIndex, a.entries);
    var s1 := if l == s.log then s else Persist(s.(log := l));
    if a.leaderCommit > s1.commitIndex
    then s1.(commitIndex := Min(a.leaderCommit, |l| - 1))
    else s1
  }

  // ----- applying -----

  predicate CanApply(s: Server) {
    s.commitIndex > s.lastApplied && |s.log| - 1 > s.lastApplied
  }

  /** One turn of `LoopCommit`: the entry at lastApplied + 1 goes to the service. */
  function Apply(s: Server): Server {
    s.(lastApplied := s.lastApplied + 1)
  }

  // ----- what the scans find -----

  /** The commit rule settles on the highest index that can be committed, if one beyond the old does. */
  lemma {:induction false} CommitFromIsHighest(s: Server, me: int, k: int, best: int)
    requires 0 <= k
    ensures var c := CommitFrom(s, me, k, best);
            && (c == best || (k <= c < |s.log| && CanCommit(s, me, c)))
            && (forall j :: k <= j < |s.log| && CanCommit(s, me, j) ==> k <= c && j <= c)
    decreases |s.log| - k
  {
    if k < |s.log| {
      CommitFromIsHighest(s, me, k + 1, if CanCommit(s, me, k) then k else best);
    }
  }

  /** On a log whose terms never fall, the early exit of `findLastLogInTerm` misses nothing: the result
      is the last entry of that term after the first one, and -1 only if there is none. */
  lemma {:induction false} LastInTermIsLast(l: Log, i: int, x: int)
    requires WellFormed(l) && i < |l|
    ensures var k := LastInTerm(l, i, x);
            && (k == -1 <==> forall j :: 0 < j <= i ==> l[j].term != x)
            && (k != -1 ==> forall j :: k < j <= i ==> l[j].term != x)
    decreases i
  {
    if i > 0 {
      if l[i].term < x {
        forall j | 0 < j <= i ensures l[j].term != x {
          assert Ordered(l, j, i);
        }
      } else if l[i].term > x {
        LastInTermIsLast(l, i - 1, x);
      }
    }
  }

  /** The follower's hint is the first entry of the conflicting term. */
  lemma {:induction false} RunStartIsFirst(l: Log, k: int)
    requires WellFormed(l) && 0 <= k < |l|
    ensures var i := RunStart(l, k, l[k].term);
            l[i].term == l[k].term && forall j :: 0 <= j < i ==> l[j].term < l[k].term
    decreases k
  {
    if k > 0 {
      if l[k - 1].term == l[k].term {
        RunStartIsFirst(l, k - 1);
      } else {
        assert Ordered(l, k - 1, k);
        forall j | 0 <= j < k ensures l[j].term < l[k].term {
          assert Ordered(l, j, k - 1);
        }
      }
    }
  }

  // ----- what requests and replies mean -----

  /** A peer within the log is sent the tail from its nextIndex on, exactly if it lags or on a heartbeat. */
  lemma BroadcastTail(s: Server, me: int, p: int, heartBeat: bool)
    requires |s.log| > 0 && 0 <= p < |s.nextIndex| && p != me && 1 <= s.nextIndex[p] <= |s.log|
    ensures var k := s.nextIndex[p];
            var a := AppendArgs(s.currentTerm, me, k - 1, s.log[k - 1].term, s.log[k..], s.commitIndex);
            AppendRequest(a, p) in Broadcast(s, me, heartBeat) <==> heartBeat || k < |s.log|
  {
    assert AppendArgsFor(s, me, p).prevLogIndex == s.nextIndex[p] - 1;
    if heartBeat || s.nextIndex[p] < |s.log| {
      assert Sends(s, me, p, heartBeat);
    }
  }

  /** What an AppendEntries request does, outcome by outcome: the reply carries the term the peer had; the
      peer takes a term no earlier than the request's; the request succeeds exactly if it is current and the
      logs agree at prevLogIndex; only then the log or the commit index changes; and a conflict is reported
      with the length of the log and, if there is an entry at prevLogIndex, its term and where that starts. */
  lemma AppendReplyMeans(s: Server, a: AppendArgs)
    requires s.Valid()
    ensures var (s', r) := OnAppendRequest(s, a);
            && r.term == s.currentTerm && s'.currentTerm == Max(s.currentTerm, a.term)
            && (a.term > s.currentTerm ==> s'.state == Follower)
            && (a.term < s.currentTerm ==> s' == s && r == Refuse(s.currentTerm))
            && (r.success <==> && a.term >= s.currentTerm && 0 <= a.prevLogIndex < |s.log|
                               && s.log[a.prevLogIndex].term == a.prevLogTerm)
            && (!r.success ==> s'.log == s.log && s'.commitIndex == s.commitIndex)
            && (r.success ==> s'.leaderId == a.leaderId && s'.log == Merge(s.log, a.prevLogIndex, a.entries))
            && (r.success && a.leaderCommit > s.commitIndex ==> s'.commitIndex == Min(a.leaderCommit, |s'.log| - 1))
            && (a.leaderCommit <= s.commitIndex ==> s'.commitIndex == s.commitIndex)
            && (r.conflict <==> a.term >= s.currentTerm && 0 <= a.prevLogIndex && !r.success)
            && (r.conflict ==> r.xLen == |s.log|)
            && (r.conflict ==> if a.prevLogIndex >= |s.log| then r.xTerm == -1
                               else && r.xTerm == s.log[a.prevLogIndex].term
                                    && r.xIndex == RunStart(s.log, a.prevLogIndex, r.xTerm))
  {
    hide Merge;
  }
}
