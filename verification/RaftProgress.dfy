/** No reachable state is a dead end: whatever has happened in a guarded run, it can go on so that any
    command is chosen and applied by every peer. So no handler can refuse, forget or hold back what its
    part of the protocol needs. A cluster of one peer is the exception: it never elects a leader. */
module RaftProgress {
  import opened Ranges
  import opened RaftTypes
  import opened Quorums
  import opened RaftProtocol
  import opened RaftInvariant
  import opened RaftServer
  import opened RaftSystem
  import opened RaftRefinement
  import opened RaftSafety
  import opened RaftBackup
  import opened RaftValidity

  // ----- going on from a state -----

  ghost predicate IsFragment(states: seq<System>, acts: seq<Action>) {
    && |states| == |acts| + 1
    && forall k {:trigger StepAt(states, acts, k, true)} :: 0 <= k < |acts| ==> StepAt(states, acts, k, true)
  }

  ghost predicate Joins(a: System, b: System, states: seq<System>, acts: seq<Action>) {
    IsFragment(states, acts) && states[0] == a && states[|acts|] == b
  }

  ghost predicate Reaches(a: System, b: System) {
    exists states, acts :: Joins(a, b, states, acts)
  }

  ghost predicate Fine(sys: System, n: nat) {
    SysInv(sys, true) && |sys.servers| == n
  }

  /** b comes after a, in n peers; what was applied stays so. */
  ghost predicate Goes(a: System, b: System, n: nat) {
    Fine(a, n) && Fine(b, n) && Reaches(a, b) && a.hist.applied <= b.hist.applied && a.net <= b.net
  }

  lemma Stay(a: System, n: nat)
    requires Fine(a, n)
    ensures Goes(a, a, n)
  {
    hide SysInv;
    var none: seq<Action> := [];
    assert Joins(a, a, [a], none);
  }

  lemma Chain(a: System, b: System, c: System, n: nat)
    requires Goes(a, b, n) && Goes(b, c, n)
    ensures Goes(a, c, n)
  {
    hide SysInv, Exec, Enabled, Shaped;
    var ss, xs :| Joins(a, b, ss, xs);
    var ts, ys :| Joins(b, c, ts, ys);
    var us, zs := ss + ts[1..], xs + ys;
    forall k | 0 <= k < |zs| ensures StepAt(us, zs, k, true) {
      if k < |xs| {
        assert StepAt(ss, xs, k, true);
      } else {
        assert StepAt(ts, ys, k - |xs|, true);
      }
    }
    assert Joins(a, c, us, zs);
  }

  lemma Act(a: System, n: nat, act: Action) returns (b: System)
    requires Fine(a, n) && Enabled(a, act, true)
    ensures b == Exec(a, act, true) && Goes(a, b, n)
  {
    b := Exec(a, act, true);
    ExecKeepsInv(a, act, true);
    ExecKeepsSize(a, act, true);
    ExecExtends(a, act, true);
    NetStays(a, act);
    OneStep(a, b, act);
  }

  lemma OneStep(a: System, b: System, act: Action)
    requires Shaped(a) && Enabled(a, act, true) && b == Exec(a, act, true)
    ensures Reaches(a, b)
  {
    hide Exec, Enabled, Shaped;
    assert StepAt([a, b], [act], 0, true);
    assert Joins(a, b, [a, b], [act]);
  }

  lemma NetStays(sys: System, act: Action)
    requires Shaped(sys) && Enabled(sys, act, true)
    ensures sys.net <= Exec(sys, act, true).net
  {
  }

  lemma FineFacts(sys: System, n: nat, i: int)
    requires Fine(sys, n) && 0 <= i < n
    ensures Shaped(sys) && |sys.servers| == |sys.elections| == n && sys.servers[i].Valid()
    ensures |sys.servers[i].nextIndex| == |sys.servers[i].matchIndex| == n
  {
  }

  // ----- the most recent log -----

  ghost predicate MostRecent(sys: System, c: int, k: int) {
    && 0 <= c < |sys.servers| && k <= |sys.servers| && |sys.servers[c].log| > 0
    && forall v :: 0 <= v < k ==> |sys.servers[v].log| > 0 && RecentOver(sys, c, v)
  }

  ghost predicate RecentOver(sys: System, c: int, v: int)
    requires 0 <= c < |sys.servers| && 0 <= v < |sys.servers| && |sys.servers[c].log| > 0 && |sys.servers[v].log| > 0
  {
    var l := sys.servers[c].log; AtLeastAsRecent(LastTerm(l), |l| - 1, sys.servers[v].log)
  }

  lemma {:induction false} FindMostRecent(sys: System, n: nat, k: nat) returns (c: int)
    requires Fine(sys, n) && 1 <= k <= n
    ensures MostRecent(sys, c, k)
  {
    hide SysInv;
    FineFacts(sys, n, k - 1);
    if k == 1 {
      c := 0;
    } else {
      var b := FindMostRecent(sys, n, k - 1);
      c := if RecentOver(sys, b, k - 1) then b else k - 1;
      forall v | 0 <= v < k ensures |sys.servers[v].log| > 0 && RecentOver(sys, c, v) {
        FineFacts(sys, n, v);
        if v < k - 1 {
          assert RecentOver(sys, b, v);
        }
      }
    }
  }

  lemma {:induction false} FindTopTerm(sys: System, k: nat) returns (t: int)
    requires k <= |sys.servers|
    ensures forall v :: 0 <= v < k ==> sys.servers[v].currentTerm <= t
  {
    if k == 0 {
      t := 0;
    } else {
      t := FindTopTerm(sys, k - 1);
      t := Max(t, sys.servers[k - 1].currentTerm);
    }
  }

  // ----- an election -----

  /** Of the peers below i, all but c. */
  ghost function Besides(c: int, i: int): int {
    if c < i then i - 1 else i
  }

  /** Candidate c of term t has counted the votes of the peers below i and still waits for the others. */
  ghost predicate Campaigns(sys: System, n: nat, c: int, t: int, l: Log, i: int) {
    && |sys.servers| == |sys.elections| == n && 0 <= c < n && 0 <= i <= n && |l| > 0
    && sys.servers[c].currentTerm == t && sys.servers[c].log == l && sys.servers[c].state == Candidate
    && t in sys.elections[c] && sys.elections[c][t].count == 1 + Besides(c, i) && !sys.elections[c][t].fired
    && (forall v :: i <= v < n && v != c ==> v in sys.elections[c][t].awaiting)
    && Asks(sys, n, Plea(c, t, l))
  }

  /** Peers from i on have not reached term t, nobody is beyond it, and c's log is the most recent. */
  ghost predicate Electorate(sys: System, n: nat, c: int, t: int, l: Log, i: int) {
    && |sys.servers| == n && |l| > 0
    && (forall v :: 0 <= v < n ==> |sys.servers[v].log| > 0 && sys.servers[v].currentTerm <= t)
    && (forall v :: i <= v < n && v != c && 0 <= v ==> sys.servers[v].currentTerm < t)
    && (forall v :: 0 <= v < n ==> AtLeastAsRecent(LastTerm(l), |l| - 1, sys.servers[v].log))
  }

  lemma TimeoutCampaigns(sys: System, n: nat, c: int)
    requires Shaped(sys) && |sys.servers| == n && 0 <= c < n
    ensures var s, sys' := sys.servers[c], DoTimeout(sys, c);
            Campaigns(sys', n, c, s.currentTerm + 1, s.log, 0) && Others(sys, sys', c, c)
  {
    var s := sys.servers[c];
    var a := Plea(c, s.currentTerm + 1, s.log);
    var out := set p | p in Peers(n) - {c} :: VoteRequest(a, p);
    assert DoTimeout(sys, c).net == sys.net + out;
    forall v | 0 <= v < n && v != c ensures VoteRequest(a, v) in out {
      assert v in Peers(n) - {c};
    }
  }

  /** Timeouts of c bring it beyond any term. */
  lemma {:induction false} RisesAbove(sys: System, n: nat, c: int, top: int) returns (sys': System, t: int)
    requires Fine(sys, n) && 0 <= c < n && sys.servers[c].currentTerm <= top
    ensures Goes(sys, sys', n) && t > top && Campaigns(sys', n, c, t, sys.servers[c].log, 0) && Others(sys, sys', c, c)
    decreases top - sys.servers[c].currentTerm
  {
    hide SysInv, Shaped, DoTimeout, Reaches, Asks;
    FineFacts(sys, n, c);
    TimeoutCampaigns(sys, n, c);
    sys' := Act(sys, n, Timeout(c));
    t := sys.servers[c].currentTerm + 1;
    if t <= top {
      var b := sys';
      sys', t := RisesAbove(b, n, c, top);
      Chain(sys, b, sys', n);
    }
  }

  lemma VoteGranted(sys: System, n: nat, c: int, v: int, t: int, l: Log)
    requires Shaped(sys) && Campaigns(sys, n, c, t, l, v) && Electorate(sys, n, c, t, l, v) && v < n && v != c
    ensures var a := Plea(c, t, l);
            var sys' := DoVoteRequest(sys, v, a);
            && Campaigns(sys', n, c, t, l, v) && Electorate(sys', n, c, t, l, v + 1) && Others(sys, sys', v, v)
            && VoteResponse(a, v, VoteReply(t, true)) in sys'.net
  {
  }

  lemma VoteCounted(sys: System, n: nat, c: int, v: int, t: int, l: Log)
    requires Shaped(sys) && Campaigns(sys, n, c, t, l, v) && Electorate(sys, n, c, t, l, v + 1) && v < n && v != c
    ensures var sys' := DoVoteResponse(sys, c, Plea(c, t, l), v, VoteReply(t, true));
            && Electorate(sys', n, c, t, l, v + 1)
            && (2 * (2 + Besides(c, v)) <= n ==> Campaigns(sys', n, c, t, l, v + 1))
            && (2 * (2 + Besides(c, v)) > n ==> LeaderAt(sys', c, t) && sys'.servers[c].log == l)
  {
    hide Broadcast;
  }

  lemma GetsVote(sys: System, n: nat, c: int, v: int, t: int, l: Log) returns (sys': System)
    requires Fine(sys, n) && Campaigns(sys, n, c, t, l, v) && Electorate(sys, n, c, t, l, v) && v < n && v != c
    ensures Goes(sys, sys', n) && Electorate(sys', n, c, t, l, v + 1)
    ensures 2 * (2 + Besides(c, v)) <= n ==> Campaigns(sys', n, c, t, l, v + 1)
    ensures 2 * (2 + Besides(c, v)) > n ==> LeaderAt(sys', c, t) && sys'.servers[c].log == l
  {
    hide SysInv, Shaped, DoVoteRequest, DoVoteResponse, Reaches, Electorate;
    var a := Plea(c, t, l);
    FineFacts(sys, n, c);
    VoteGranted(sys, n, c, v, t, l);
    var b := Act(sys, n, TakeVoteRequest(v, VoteRequest(a, v)));
    FineFacts(b, n, c);
    VoteCounted(b, n, c, v, t, l);
    sys' := Act(b, n, TakeVoteResponse(c, VoteResponse(a, v, VoteReply(t, true))));
    Chain(sys, b, sys', n);
  }

  /** Peer after peer votes for c, until it has a majority. */
  lemma {:induction false} Wins(sys: System, n: nat, c: int, t: int, l: Log, i: nat) returns (sys': System)
    requires Fine(sys, n) && n >= 2 && i <= n && Campaigns(sys, n, c, t, l, i) && Electorate(sys, n, c, t, l, i)
    requires 2 * (1 + Besides(c, i)) <= n
    ensures Goes(sys, sys', n) && LeaderAt(sys', c, t) && Electorate(sys', n, c, t, l, n)
    decreases n - i
  {
    hide SysInv, Reaches, Asks, AtLeastAsRecent;
    if i == c {
      assert Campaigns(sys, n, c, t, l, i + 1) && Electorate(sys, n, c, t, l, i + 1);
      sys' := Wins(sys, n, c, t, l, i + 1);
    } else {
      var b := GetsVote(sys, n, c, i, t, l);
      if 2 * (2 + Besides(c, i)) > n {
        sys' := b;
      } else {
        sys' := Wins(b, n, c, t, l, i + 1);
        Chain(sys, b, sys', n);
      }
    }
  }

  /** c leads, and nobody is of a later term. */
  ghost predicate OnTop(sys: System, n: nat, c: int) {
    && |sys.servers| == n && 0 <= c < n && sys.servers[c].state == Leader
    && forall v :: 0 <= v < n ==> sys.servers[v].currentTerm <= sys.servers[c].currentTerm
  }

  /** From any state, some peer can come to lead everybody. */
  lemma Elects(sys: System, n: nat) returns (sys': System, c: int)
    requires Fine(sys, n) && n >= 2
    ensures Goes(sys, sys', n) && OnTop(sys', n, c)
  {
    hide SysInv, Reaches, Asks;
    c := FindMostRecent(sys, n, n);
    var top := FindTopTerm(sys, n);
    var b, t := RisesAbove(sys, n, c, top);
    var l := sys.servers[c].log;
    forall v | 0 <= v < n ensures AtLeastAsRecent(LastTerm(l), |l| - 1, b.servers[v].log) {
      assert RecentOver(sys, c, v);
    }
    assert Electorate(b, n, c, t, l, 0);
    hide AtLeastAsRecent;
    sys' := Wins(b, n, c, t, l, 0);
    Chain(sys, b, sys', n);
  }

  // ----- replication -----

  /** Three actions carry out one exchange between a leader and a peer. */
  lemma ExchangeRuns(sys: System, n: nat, c: int, p: int) returns (sys': System)
    requires Fine(sys, n) && OnTop(sys, n, c) && 0 <= p < n && p != c
    ensures Goes(sys, sys', n) && Pair(sys.hist.reigns, sys.servers[c], c, p, sys.servers[p])
    ensures var (l, f, ok) := Exchange(sys.servers[c], c, p, sys.servers[p]);
            sys'.servers == sys.servers[c := l][p := f]
  {
    hide SysInv, Shaped, Reaches, OnAppendRequest, OnAppendResponse, Enabled, Exec, GoodLog;
    PairInState(sys, c, p);
    FineFacts(sys, n, c);
    FineFacts(sys, n, p);
    assert ClampNext(sys.servers[c], p) > 0;
    hide Pair, ClampNext;
    var a := AppendArgsFor(sys.servers[c], c, p);
    var b1 := LeaderAsks(sys, n, c, p);
    var (f, r) := OnAppendRequest(sys.servers[p], a);
    var b2 := PeerAnswers(b1, n, p, a);
    assert b2.servers[c] == sys.servers[c];
    sys' := LeaderHears(b2, n, c, p, a, r);
    Chain(sys, b1, b2, n);
    Chain(sys, b2, sys', n);
  }

  lemma LeaderAsks(sys: System, n: nat, c: int, p: int) returns (sys': System)
    requires Fine(sys, n) && 0 <= c < n && 0 <= p < n && p != c && sys.servers[c].state == Leader
    requires |sys.servers[c].log| > 0 && p < |sys.servers[c].nextIndex| && ClampNext(sys.servers[c], p) > 0
    ensures Goes(sys, sys', n) && sys'.servers == sys.servers
    ensures AppendRequest(AppendArgsFor(sys.servers[c], c, p), p) in sys'.net
  {
    hide SysInv, Shaped, Reaches, AppendArgsFor, ClampNext;
    FineFacts(sys, n, c);
    var s := sys.servers[c];
    sys' := Act(sys, n, HeartBeat(c));
    assert Sends(s, c, p, true);
    assert AppendRequest(AppendArgsFor(s, c, p), p) in Broadcast(s, c, true);
  }

  lemma PeerAnswers(sys: System, n: nat, p: int, a: AppendArgs) returns (sys': System)
    requires Fine(sys, n) && 0 <= p < n && AppendRequest(a, p) in sys.net && sys.servers[p].Valid()
    ensures Goes(sys, sys', n)
    ensures var (f, r) := OnAppendRequest(sys.servers[p], a);
            sys'.servers == sys.servers[p := f] && AppendResponse(a, p, r) in sys'.net
  {
    hide SysInv, Shaped, Reaches, OnAppendRequest;
    FineFacts(sys, n, p);
    sys' := Act(sys, n, TakeAppendRequest(p, AppendRequest(a, p)));
  }

  lemma LeaderHears(sys: System, n: nat, c: int, p: int, a: AppendArgs, r: AppendReply) returns (sys': System)
    requires Fine(sys, n) && 0 <= c < n && 0 <= p < n && AppendResponse(a, p, r) in sys.net && sys.servers[c].Valid()
    requires a.leaderId == c && a.term == sys.servers[c].currentTerm && p < |sys.servers[c].nextIndex|
    ensures Goes(sys, sys', n)
    ensures sys'.servers == sys.servers[c := OnAppendResponse(sys.servers[c], c, p, a, r)]
  {
    hide SysInv, Shaped, Reaches, OnAppendResponse;
    FineFacts(sys, n, c);
    sys' := Act(sys, n, TakeAppendResponse(c, AppendResponse(a, p, r)));
  }

  /** Nothing beyond the commit index can be committed any more. */
  ghost predicate Settled(s: Server, me: int) {
    s.Valid() && forall j :: s.commitIndex < j < |s.log| ==> !CanCommit(s, me, j)
  }

  lemma CommitSettles(s: Server, me: int)
    requires s.Valid() && s.state == Leader
    ensures Settled(Commit(s, me), me) && Commit(s, me).commitIndex >= s.commitIndex
  {
    hide MatchCount;
    CommitFromIsHighest(s, me, s.commitIndex + 1, s.commitIndex);
    var s' := Commit(s, me);
    forall j | s'.commitIndex < j < |s'.log| ensures !CanCommit(s', me, j) {
      assert CanCommit(s', me, j) == CanCommit(s, me, j);
    }
  }

  /** What every exchange keeps of the leader and the peer. */
  lemma ExchangeKeeps(reigns: map<int, Reign>, l: Server, me: int, p: int, f: Server)
    requires Pair(reigns, l, me, p, f) && |l.matchIndex| == |l.nextIndex|
    ensures var (l', f', ok) := Exchange(l, me, p, f);
            && l'.state == Leader && l'.currentTerm == l.currentTerm && l'.log == l.log
            && l'.lastApplied == l.lastApplied && l'.commitIndex >= l.commitIndex && Settled(l', me)
            && |l'.matchIndex| == |l.matchIndex| && |l'.nextIndex| == |l.nextIndex|
            && (forall q :: 0 <= q < |l.matchIndex| && q != p ==> l'.matchIndex[q] == l.matchIndex[q])
            && f'.currentTerm == l.currentTerm && f'.lastApplied == f.lastApplied && f'.state != Leader
  {
    hide Merge, Commit, GoodLog, BackUp;
    var a := AppendArgsFor(l, me, p);
    var (f', r) := OnAppendRequest(f, a);
    var s1 := MatchedServer(l, p, a, r);
    MatchedKeepsRest(l, p, a, r);
    CommitSettles(s1, me);
    CommitKeepsRest(s1, me);
    assert OnAppendResponse(l, me, p, a, r) == Commit(s1, me);
  }

  lemma MatchedKeepsRest(s: Server, p: int, a: AppendArgs, r: AppendReply)
    requires s.Valid() && 0 <= p < |s.nextIndex|
    ensures var s' := MatchedServer(s, p, a, r);
            && s'.Valid() && s' == s.(nextIndex := s'.nextIndex, matchIndex := s'.matchIndex)
            && |s'.matchIndex| == |s.matchIndex| && |s'.nextIndex| == |s.nextIndex|
            && forall q :: 0 <= q < |s.matchIndex| && q != p ==> s'.matchIndex[q] == s.matchIndex[q]
  {
  }

  /** Leader c has brought peer p up to date: p holds its log, and c knows. */
  ghost predicate UpToDate(sys: System, c: int, p: int, commit: int) {
    && 0 <= c < |sys.servers| && 0 <= p < |sys.servers| && p < |sys.servers[c].matchIndex|
    && sys.servers[c].log <= sys.servers[p].log && sys.servers[p].commitIndex >= commit
    && sys.servers[c].matchIndex[p] >= |sys.servers[c].log| - 1
  }

  /** What replication to p leaves alone: everybody else, the leader's log and term, what is applied. */
  ghost predicate Steady(sys: System, sys': System, n: nat, c: int, p: int) {
    && |sys.servers| == |sys'.servers| == n && 0 <= c < n && 0 <= p < n && c != p
    && (forall i :: 0 <= i < n && i != c && i != p ==> sys'.servers[i] == sys.servers[i])
    && (forall i :: 0 <= i < n ==> sys'.servers[i].lastApplied == sys.servers[i].lastApplied)
    && var s, s' := sys.servers[c], sys'.servers[c];
       && s'.log == s.log && s'.currentTerm == s.currentTerm && s'.commitIndex >= s.commitIndex && Settled(s', c)
       && |s.matchIndex| == |s'.matchIndex| == n
       && forall q :: 0 <= q < n && q != p ==> s'.matchIndex[q] == s.matchIndex[q]
  }

  lemma ExchangeStep(sys: System, n: nat, c: int, p: int) returns (sys': System)
    requires Fine(sys, n) && OnTop(sys, n, c) && 0 <= p < n && p != c
    ensures Goes(sys, sys', n) && OnTop(sys', n, c) && Steady(sys, sys', n, c, p)
    ensures p < |sys.servers[c].nextIndex| == |sys'.servers[c].nextIndex|
    ensures UpToDate(sys', c, p, sys.servers[c].commitIndex)
         || 1 <= sys'.servers[c].nextIndex[p] < sys.servers[c].nextIndex[p]
  {
    hide SysInv, Shaped, Reaches, Exchange, GoodLog, Settled;
    FineFacts(sys, n, c);
    LeaderCommitInLog(sys, n, c);
    sys' := ExchangeRuns(sys, n, c, p);
    hide Goes;
    var l, f, rs := sys.servers[c], sys.servers[p], sys.hist.reigns;
    ExchangeKeeps(rs, l, c, p, f);
    if Matches(l.log, f.log, l.nextIndex[p] - 1) {
      ExchangeAgrees(rs, l, c, p, f);
    } else {
      ExchangeBacksUp(rs, l, c, p, f);
    }
  }

  lemma LeaderCommitInLog(sys: System, n: nat, i: int)
    requires Fine(sys, n) && 0 <= i < n
    ensures 0 <= sys.servers[i].commitIndex < |sys.servers[i].log|
    ensures sys.servers[i].lastApplied <= sys.servers[i].commitIndex
  {
    CommittedLogCovered(sys, i);
    hide Inv, Covered;
  }

  lemma SteadyTrans(a: System, b: System, d: System, n: nat, c: int, p: int)
    requires Steady(a, b, n, c, p) && Steady(b, d, n, c, p)
    ensures Steady(a, d, n, c, p)
  {
    hide Settled;
  }

  /** Exchange after exchange, until p is up to date. */
  lemma {:induction false} Replicates(sys: System, n: nat, c: int, p: int) returns (sys': System)
    requires Fine(sys, n) && OnTop(sys, n, c) && 0 <= p < n && p != c && p < |sys.servers[c].nextIndex|
    ensures Goes(sys, sys', n) && OnTop(sys', n, c) && Steady(sys, sys', n, c, p)
    ensures UpToDate(sys', c, p, sys.servers[c].commitIndex)
    decreases sys.servers[c].nextIndex[p]
  {
    hide SysInv, Reaches, Settled, OnTop;
    var b := ExchangeStep(sys, n, c, p);
    if UpToDate(b, c, p, sys.servers[c].commitIndex) {
      sys' := b;
    } else {
      sys' := Replicates(b, n, c, p);
      Chain(sys, b, sys', n);
      SteadyTrans(sys, b, sys', n, c, p);
    }
  }

  // ----- everybody -----

  /** What replication to any peers leaves alone. */
  ghost predicate SteadyAll(sys: System, sys': System, n: nat, c: int) {
    && |sys.servers| == |sys'.servers| == n && 0 <= c < n
    && (forall i :: 0 <= i < n ==> sys'.servers[i].lastApplied == sys.servers[i].lastApplied)
    && var s, s' := sys.servers[c], sys'.servers[c];
       s'.log == s.log && s'.currentTerm == s.currentTerm && s'.commitIndex >= s.commitIndex && |s'.matchIndex| == n
  }

  ghost predicate AllUpToDate(sys: System, n: nat, c: int, k: int, commit: int) {
    && |sys.servers| == n && k <= n
    && forall p :: 0 <= p < k && p != c ==> UpToDate(sys, c, p, commit)
  }

  lemma {:induction false} ReplicatesAll(sys: System, n: nat, c: int, k: nat) returns (sys': System)
    requires Fine(sys, n) && OnTop(sys, n, c) && k <= n
    ensures Goes(sys, sys', n) && OnTop(sys', n, c) && SteadyAll(sys, sys', n, c)
    ensures AllUpToDate(sys', n, c, k, sys.servers[c].commitIndex)
    ensures Besides(c, k) > 0 ==> Settled(sys'.servers[c], c)
    decreases k
  {
    hide SysInv, Shaped, Reaches, Settled;
    FineFacts(sys, n, c);
    if k == 0 {
      Stay(sys, n);
      sys' := sys;
    } else {
      var b := ReplicatesAll(sys, n, c, k - 1);
      if k - 1 == c {
        sys' := b;
      } else {
        FineFacts(b, n, c);
        sys' := Replicates(b, n, c, k - 1);
        Chain(sys, b, sys', n);
        StillUpToDate(b, sys', n, c, k - 1, sys.servers[c].commitIndex);
      }
    }
  }

  lemma StillUpToDate(b: System, sys': System, n: nat, c: int, p: int, commit: int)
    requires Steady(b, sys', n, c, p) && AllUpToDate(b, n, c, p, commit)
    requires UpToDate(sys', c, p, b.servers[c].commitIndex) && b.servers[c].commitIndex >= commit
    ensures AllUpToDate(sys', n, c, p + 1, commit)
  {
    hide Settled;
    forall q | 0 <= q < p + 1 && q != c ensures UpToDate(sys', c, q, commit) {
      if q < p {
        assert UpToDate(b, c, q, commit);
      }
    }
  }

  lemma {:induction false} AllCounted(m: seq<int>, me: int, k: int, upTo: nat)
    requires upTo <= |m| && 0 <= me && forall p :: 0 <= p < |m| && p != me ==> m[p] >= k
    ensures MatchCount(m, me, k, upTo) == Besides(me, upTo)
    decreases upTo
  {
    if upTo > 0 {
      AllCounted(m, me, k, upTo - 1);
    }
  }

  /** A leader whose last entry is its own and is held by everybody has committed it. */
  lemma CommitsLast(sys: System, n: nat, c: int, commit: int)
    requires AllUpToDate(sys, n, c, n, commit) && 0 <= c < n && Settled(sys.servers[c], c)
    requires |sys.servers[c].matchIndex| == n && LastTerm(sys.servers[c].log) == sys.servers[c].currentTerm
    ensures sys.servers[c].commitIndex >= |sys.servers[c].log| - 1
  {
    var s := sys.servers[c];
    var k := |s.log| - 1;
    forall p | 0 <= p < n && p != c ensures s.matchIndex[p] >= k {
      assert UpToDate(sys, c, p, commit);
    }
    AllCounted(s.matchIndex, c, k, n);
    assert CanCommit(s, c, k);
  }

  /** Nothing is committed that the leader on top does not hold. */
  lemma CommitsWithinLeader(sys: System, n: nat, c: int, i: int)
    requires Fine(sys, n) && OnTop(sys, n, c) && 0 <= i < n
    ensures sys.servers[i].commitIndex < |sys.servers[c].log|
  {
    var t := sys.servers[c].currentTerm;
    var p := View(sys, true);
    LeaderHasReign(sys, true, c, t);
    CommittedLogCovered(sys, i);
    ServerLogGood(sys, true, c);
    var q := CommittedLog(sys, i);
    GrowsRefl(p.reigns, p.acks);
    CoveredGrows(n, p.acks, p.acks, p.reigns, p.reigns, q, sys.servers[i].currentTerm, t);
    hide LogsOK, RolesOK, BallotsOK, NetOK, MatchOK, AcksOK, AckKept, CommitOK, AppliedOK, ServerOK, Covered;
    if |q| > 1 {
      CoveredInReign(p, q, t);
    }
  }

  // ----- applying -----

  lemma {:induction false} AppliesUpTo(sys: System, n: nat, i: int, m: int) returns (sys': System)
    requires Fine(sys, n) && 0 <= i < n && sys.servers[i].lastApplied < m <= sys.servers[i].commitIndex
    requires 0 <= m < |sys.servers[i].log|
    ensures Goes(sys, sys', n) && Others(sys, sys', i, i) && (i, m, sys.servers[i].log[m].command) in sys'.hist.applied
    decreases m - sys.servers[i].lastApplied
  {
    hide SysInv, Shaped, Reaches;
    FineFacts(sys, n, i);
    var b := Act(sys, n, ApplyNext(i));
    if sys.servers[i].lastApplied + 1 == m {
      sys' := b;
    } else {
      sys' := AppliesUpTo(b, n, i, m);
      Chain(sys, b, sys', n);
    }
  }

  /** Peer i can still apply x at index m. */
  ghost predicate Ready(sys: System, i: int, m: int, x: Command) {
    && 0 <= i < |sys.servers| && 0 <= m < |sys.servers[i].log| && sys.servers[i].log[m].command == x
    && sys.servers[i].lastApplied < m <= sys.servers[i].commitIndex
  }

  lemma {:induction false} AllApply(sys: System, n: nat, k: nat, m: int, x: Command) returns (sys': System)
    requires Fine(sys, n) && k <= n && forall i :: 0 <= i < n ==> Ready(sys, i, m, x)
    ensures Goes(sys, sys', n) && forall i :: k <= i < n ==> Ready(sys', i, m, x)
    ensures forall i :: 0 <= i < k ==> (i, m, x) in sys'.hist.applied
    decreases k
  {
    hide SysInv, Reaches;
    if k == 0 {
      Stay(sys, n);
      sys' := sys;
    } else {
      var b := AllApply(sys, n, k - 1, m, x);
      assert Ready(b, k - 1, m, x);
      sys' := AppliesUpTo(b, n, k - 1, m);
      Chain(sys, b, sys', n);
      forall i | k <= i < n ensures Ready(sys', i, m, x) {
        assert Ready(b, i, m, x);
      }
    }
  }

  // ----- the theorem -----

  /** The leader has appended x at index m, which nobody has applied. */
  ghost predicate Appended(sys: System, n: nat, c: int, m: int, x: Command) {
    && OnTop(sys, n, c) && m >= 0 && |sys.servers[c].log| == m + 1 && sys.servers[c].log[m].command == x
    && LastTerm(sys.servers[c].log) == sys.servers[c].currentTerm
    && forall i :: 0 <= i < n ==> sys.servers[i].lastApplied < m
  }

  lemma StartsCommand(sys: System, n: nat, c: int, x: Command) returns (sys': System)
    requires Fine(sys, n) && OnTop(sys, n, c)
    ensures Goes(sys, sys', n) && Appended(sys', n, c, |sys.servers[c].log|, x)
  {
    FineFacts(sys, n, c);
    StartAppends(sys, true, c, x);
    forall i | 0 <= i < n ensures sys.servers[i].lastApplied < |sys.servers[c].log| {
      LeaderCommitInLog(sys, n, i);
      CommitsWithinLeader(sys, n, c, i);
    }
    hide SysInv, Shaped, Reaches, Broadcast;
    sys' := Act(sys, n, ClientStart(c, x));
  }

  lemma SpreadsCommand(sys: System, n: nat, c: int, m: int, x: Command) returns (sys': System)
    requires Fine(sys, n) && n >= 2 && Appended(sys, n, c, m, x)
    ensures Goes(sys, sys', n) && forall i :: 0 <= i < n ==> Ready(sys', i, m, x)
  {
    hide SysInv, Reaches, Settled;
    var b := ReplicatesAll(sys, n, c, n);
    CommitsLast(b, n, c, sys.servers[c].commitIndex);
    sys' := ReplicatesAll(b, n, c, n);
    Chain(sys, b, sys', n);
    forall i | 0 <= i < n ensures Ready(sys', i, m, x) {
      if i != c {
        assert UpToDate(sys', c, i, b.servers[c].commitIndex);
      }
    }
  }

  /** From every good state, any command can come to be applied by everybody, at one index. */
  lemma GoesOn(sys: System, n: nat, x: Command) returns (sys': System, m: int)
    requires Fine(sys, n) && n >= 2
    ensures Goes(sys, sys', n) && forall i :: 0 <= i < n ==> (i, m, x) in sys'.hist.applied
  {
    hide SysInv, Reaches, OnTop, Appended, Ready;
    var b1, c := Elects(sys, n);
    assert 0 <= c < |b1.servers| by {
      InRangeOnTop(b1, n, c);
    }
    m := |b1.servers[c].log|;
    var b2 := StartsCommand(b1, n, c, x);
    var b3 := SpreadsCommand(b2, n, c, m, x);
    sys' := AllApply(b3, n, n, m, x);
    Chain(sys, b1, b2, n);
    Chain(sys, b2, b3, n);
    Chain(sys, b3, sys', n);
  }

  lemma InRangeOnTop(sys: System, n: nat, c: int)
    requires OnTop(sys, n, c)
    ensures 0 <= c < |sys.servers| == n
  {
  }

  /** In a cluster of n peers, every guarded run can go on so that every peer applies x, at one index. */
  ghost predicate NeverStuck(n: nat, x: Command) {
    forall states, acts :: IsRun(n, states, acts, true) ==> CanApplyEverywhere(n, states, acts, x)
  }

  ghost predicate CanApplyEverywhere(n: nat, states: seq<System>, acts: seq<Action>, x: Command) {
    exists states', acts', m :: Continues(n, states, acts, states', acts') && AppliedByAll(n, states', m, x)
  }

  ghost predicate Continues(n: nat, states: seq<System>, acts: seq<Action>, states': seq<System>, acts': seq<Action>) {
    IsRun(n, states', acts', true) && states <= states' && acts <= acts'
  }

  ghost predicate AppliedByAll(n: nat, states: seq<System>, m: int, x: Command) {
    |states| > 0 && forall i :: 0 <= i < n ==> (i, m, x) in states[|states| - 1].hist.applied
  }

  lemma RunGoesOn(n: nat, states: seq<System>, acts: seq<Action>, x: Command)
    requires IsRun(n, states, acts, true) && n >= 2
    ensures CanApplyEverywhere(n, states, acts, x)
  {
    hide SysInv, Exec, Enabled, Shaped;
    RunHolds(n, states, acts, true, |acts|);
    var sys := states[|acts|];
    var sys', m := GoesOn(sys, n, x);
    var ts, ys :| Joins(sys, sys', ts, ys);
    var us, zs := states + ts[1..], acts + ys;
    forall k | 0 <= k < |zs| ensures StepAt(us, zs, k, true) {
      if k < |acts| {
        assert StepAt(states, acts, k, true);
      } else {
        assert StepAt(ts, ys, k - |acts|, true);
      }
    }
    assert Continues(n, states, acts, us, zs);
    assert us[|us| - 1] == sys';
    assert AppliedByAll(n, us, m, x);
  }

  // ----- a cluster of one -----

  /** A peer on its own: no leader, nobody to wait for, no replication, nothing committed or applied. */
  ghost predicate Alone(sys: System) {
    && |sys.servers| == |sys.elections| == 1 && sys.servers[0].state != Leader
    && sys.servers[0].commitIndex == 0 && sys.hist.applied == {}
    && (forall t :: t in sys.elections[0] ==> sys.elections[0][t].awaiting == {})
    && (forall m :: m in sys.net ==> !m.AppendRequest? && !m.AppendResponse?)
  }

  lemma StaysAlone(sys: System, act: Action)
    requires SysInv(sys, true) && Enabled(sys, act, true) && Alone(sys)
    ensures Alone(Exec(sys, act, true))
  {
    hide Inv, View, ServerOK;
    match act
    case Timeout(i) => assert Peers(1) - {0} == {};
    case _ =>
  }

  lemma {:induction false} AlwaysAlone(states: seq<System>, acts: seq<Action>, k: nat)
    requires IsRun(1, states, acts, true) && k < |states|
    ensures Alone(states[k])
  {
    hide SysInv, Exec, Enabled;
    if k > 0 {
      AlwaysAlone(states, acts, k - 1);
      RunHolds(1, states, acts, true, k - 1);
      assert StepAt(states, acts, k - 1, true);
      StaysAlone(states[k - 1], acts[k - 1]);
    } else {
      assert states[0] == Initial(1);
    }
  }

  /** Every guarded run can go on to where all peers have applied any command, unless the cluster is a
      single peer: a candidate takes office only on a vote of another. */
  lemma NeverStuckUnlessAlone(n: nat, x: Command)
    ensures NeverStuck(n, x) <==> n != 1
  {
    if n == 1 {
      var states, acts := [Initial(1)], [];
      assert IsRun(1, states, acts, true);
      forall states': seq<System>, acts', m | Continues(n, states, acts, states', acts')
        ensures !AppliedByAll(n, states', m, x)
      {
        AlwaysAlone(states', acts', |states'| - 1);
        assert (0, m, x) !in states'[|states'| - 1].hist.applied;
      }
      assert !CanApplyEverywhere(n, states, acts, x);
    } else {
      forall states, acts | IsRun(n, states, acts, true) ensures CanApplyEverywhere(n, states, acts, x) {
        if n == 0 {
          assert Continues(n, states, acts, states, acts) && AppliedByAll(n, states, 0, x);
        } else {
          RunGoesOn(n, states, acts, x);
        }
      }
    }
  }
}
