/** The safety properties of Figure 3, for every run. */
module RaftSafety {
  import opened RaftTypes
  import opened RaftProtocol
  import opened RaftInvariant
  import opened RaftServer
  import opened RaftSystem
  import opened RaftRefinement

  /** A run of n peers: consecutive states joined by enabled actions. */
  ghost predicate IsRun(n: nat, states: seq<System>, acts: seq<Action>, guarded: bool) {
    && |states| == |acts| + 1
    && states[0] == Initial(n)
    && forall k {:trigger StepAt(states, acts, k, guarded)} :: 0 <= k < |acts| ==> StepAt(states, acts, k, guarded)
  }

  ghost predicate StepAt(states: seq<System>, acts: seq<Action>, k: int, guarded: bool)
    requires 0 <= k < |acts| < |states|
  {
    && Shaped(states[k]) && Enabled(states[k], acts[k], guarded)
    && states[k + 1] == Exec(states[k], acts[k], guarded)
  }

  // ----- every reachable state satisfies the invariant -----

  lemma InitialHolds(n: nat, strict: bool)
    ensures SysInv(Initial(n), strict)
  {
    var sys := Initial(n);
    var p := View(sys, strict);
    forall i | 0 <= i < n ensures p.log[i] == [SENTINEL] && p.term[i] == 0 && p.matched[i] == seq(n, _ => 0) {
      assert sys.servers[i] == Fresh(n);
    }
    assert GoodLog(p.reigns, [SENTINEL]);
    assert LogsOK(p.term, p.log, p.reigns);
    forall i | 0 <= i < n ensures CommitAt(p.term, p.log, p.commit, p.acks, p.reigns, i) {
      assert |p.log[i][..p.commit[i] + 1]| <= 1;
    }
    assert forall i, t, m: nat {:trigger AckKeptAt(p.term, p.log, p.acks, p.reigns, i, t, m)} ::
        AckKeptAt(p.term, p.log, p.acks, p.reigns, i, t, m);
    assert forall v, u, c, t, m: nat {:trigger VoteSafeAt(p.grants, p.bids, p.acks, p.reigns, v, u, c, t, m)} ::
        VoteSafeAt(p.grants, p.bids, p.acks, p.reigns, v, u, c, t, m);
  }

  lemma ExecKeepsInv(sys: System, act: Action, guarded: bool)
    requires SysInv(sys, guarded) && Enabled(sys, act, guarded)
    ensures SysInv(Exec(sys, act, guarded), guarded)
  {
    hide Inv, View, ServerOK, DoTimeout, DoVoteRequest, DoVoteResponse, DoStart, DoAppendRequest, DoApply,
         OnAppendResponse;
    var i := act.i;
    match act
    case Timeout(_) => TimeoutKeepsInv(sys, guarded, i);
    case TakeVoteRequest(_, m) => VoteRequestKeepsInv(sys, guarded, i, m);
    case TakeVoteResponse(_, m) => VoteResponseKeepsInv(sys, guarded, i, m);
    case HeartBeat(_) => HeartBeatKeepsInv(sys, guarded, i);
    case ClientStart(_, x) => StartKeepsInv(sys, guarded, i, x);
    case TakeAppendRequest(_, m) => AppendRequestKeepsInv(sys, guarded, i, m);
    case TakeAppendResponse(_, m) => AppendResponseKeepsInv(sys, guarded, i, m);
    case ApplyNext(_) => ApplyKeepsInv(sys, guarded, i);
    case CrashRestart(_) => CrashKeepsInv(sys, guarded, i);
  }

  lemma {:induction false} RunHolds(n: nat, states: seq<System>, acts: seq<Action>, guarded: bool, k: nat)
    requires IsRun(n, states, acts, guarded) && k < |states|
    ensures SysInv(states[k], guarded) && |states[k].servers| == n
  {
    hide SysInv, Exec, Enabled;
    if k == 0 {
      InitialHolds(n, guarded);
    } else {
      RunHolds(n, states, acts, guarded, k - 1);
      assert StepAt(states, acts, k - 1, guarded);
      ExecKeepsInv(states[k - 1], acts[k - 1], guarded);
      ExecKeepsSize(states[k - 1], acts[k - 1], guarded);
    }
  }

  lemma ExecKeepsSize(sys: System, act: Action, guarded: bool)
    requires Shaped(sys) && Enabled(sys, act, guarded)
    ensures |Exec(sys, act, guarded).servers| == |sys.servers|
  {
  }

  // ----- history only grows along a run -----

  ghost predicate HistoryExtends(h: History, h': History) {
    Grows(h.reigns, h'.reigns) && AcksGrow(h.acks, h'.acks) && h.applied <= h'.applied
  }

  lemma ExecExtends(sys: System, act: Action, guarded: bool)
    requires SysInv(sys, guarded) && Enabled(sys, act, guarded)
    ensures HistoryExtends(sys.hist, Exec(sys, act, guarded).hist)
  {
    hide Inv, OnVoteRequest, OnAppendRequest, OnAppendResponse, OnVoteResponse, Broadcast, ServerOK, AppendOK;
    match act
    case TakeVoteResponse(i, m) => VoteResponseExtends(sys, guarded, i, m);
    case ClientStart(i, x) => LeaderFacts(View(sys, guarded), i); LeaderAcks(View(sys, guarded), i);
    case _ =>
  }

  lemma LeaderAcks(p: Proto, i: int)
    requires Inv(p) && 0 <= i < |p.term| && p.role[i] == Leader
    ensures Ack(p.acks, i, p.term[i]) == |p.log[i]|
  {
  }

  lemma VoteResponseExtends(sys: System, strict: bool, i: int, m: Message)
    requires SysInv(sys, strict) && 0 <= i < |sys.servers| && m in sys.net && m.VoteResponse?
    requires m.vargs.candidateId == i && m.vargs.term in sys.elections[i]
    requires m.from in sys.elections[i][m.vargs.term].awaiting
    ensures HistoryExtends(sys.hist, DoVoteResponse(sys, i, m.vargs, m.from, m.vreply).hist)
  {
    hide OnVoteResponse, ServerOK, Inv;
    var p := View(sys, strict);
    var a, r := m.vargs, m.vreply;
    MessageHolds(sys, strict, m);
    var b := sys.elections[i][a.term].(awaiting := sys.elections[i][a.term].awaiting - {m.from});
    VoteResponseEffect(sys.servers[i], strict, b, |sys.servers|, a, r);
    var (s, b', won) := OnVoteResponse(sys.servers[i], b, |sys.servers|, a, r);
    if won {
      var p1 := TallySteps(p, i, a.term, m.from, r.voteGranted, b');
      WinnerIsFirst(p1, i);
      assert a.term !in sys.hist.reigns && Ack(sys.hist.acks, i, a.term) == 0;
    }
  }

  lemma WinnerIsFirst(p: Proto, i: int)
    requires Inv(p) && 0 <= i < |p.term| && p.role[i] == Candidate && p.term[i] in p.ballots[i]
    requires 2 * p.ballots[i][p.term[i]].count > |p.term|
    ensures p.term[i] !in p.reigns && Ack(p.acks, i, p.term[i]) == 0
  {
    hide LogsOK, BidsOK, NetOK, MatchOK, AckKept, VotesSafe, CommitOK, AppliedOK;
    CrownIsFirst(p, i);
  }

  lemma {:induction false} RunExtends(n: nat, states: seq<System>, acts: seq<Action>, guarded: bool, j: nat, k: nat)
    requires IsRun(n, states, acts, guarded) && j <= k < |states|
    ensures HistoryExtends(states[j].hist, states[k].hist)
    decreases k - j
  {
    hide SysInv, Exec, Enabled;
    if j < k {
      RunExtends(n, states, acts, guarded, j, k - 1);
      RunHolds(n, states, acts, guarded, k - 1);
      assert StepAt(states, acts, k - 1, guarded);
      ExecExtends(states[k - 1], acts[k - 1], guarded);
      ExtendsTrans(states[j].hist, states[k - 1].hist, states[k].hist);
    }
  }

  lemma ExtendsTrans(a: History, b: History, c: History)
    requires HistoryExtends(a, b) && HistoryExtends(b, c)
    ensures HistoryExtends(a, c)
  {
    forall t | t in a.reigns
      ensures t in c.reigns && a.reigns[t].log <= c.reigns[t].log
    {
      PrefixTrans(a.reigns[t].log, b.reigns[t].log, c.reigns[t].log);
    }
    forall i, t ensures Ack(a.acks, i, t) <= Ack(c.acks, i, t) {
      assert Ack(a.acks, i, t) <= Ack(b.acks, i, t) <= Ack(c.acks, i, t);
    }
  }

  // ----- the properties -----

  ghost predicate LeaderAt(sys: System, i: int, t: int) {
    0 <= i < |sys.servers| && sys.servers[i].state == Leader && sys.servers[i].currentTerm == t
  }

  lemma LeaderHasReign(sys: System, strict: bool, i: int, t: int)
    requires SysInv(sys, strict) && LeaderAt(sys, i, t)
    ensures Leads(sys.hist.reigns, i, t) && sys.hist.reigns[t].log == sys.servers[i].log
  {
    hide Inv;
    LeaderFacts(View(sys, strict), i);
  }

  /** Election safety: over a whole run, crashes included, a term has at most one leader. */
  lemma ElectionSafety(n: nat, states: seq<System>, acts: seq<Action>, guarded: bool,
                       j: nat, k: nat, a: int, b: int, t: int)
    requires IsRun(n, states, acts, guarded) && j <= k < |states|
    requires LeaderAt(states[j], a, t) && LeaderAt(states[k], b, t)
    ensures a == b
  {
    RunHolds(n, states, acts, guarded, j);
    RunHolds(n, states, acts, guarded, k);
    RunExtends(n, states, acts, guarded, j, k);
    LeaderHasReign(states[j], guarded, a, t);
    LeaderHasReign(states[k], guarded, b, t);
  }

  /** Leader append-only: as long as it leads the same term, a leader only adds to its log. */
  lemma LeaderAppendOnly(n: nat, states: seq<System>, acts: seq<Action>, guarded: bool,
                         j: nat, k: nat, a: int, t: int)
    requires IsRun(n, states, acts, guarded) && j <= k < |states|
    requires LeaderAt(states[j], a, t) && LeaderAt(states[k], a, t)
    ensures states[j].servers[a].log <= states[k].servers[a].log
  {
    RunHolds(n, states, acts, guarded, j);
    RunHolds(n, states, acts, guarded, k);
    RunExtends(n, states, acts, guarded, j, k);
    LeaderHasReign(states[j], guarded, a, t);
    LeaderHasReign(states[k], guarded, a, t);
  }

  lemma ServerLogGood(sys: System, strict: bool, i: int)
    requires SysInv(sys, strict) && 0 <= i < |sys.servers|
    ensures GoodLog(sys.hist.reigns, sys.servers[i].log)
  {
    var p := View(sys, strict);
    assert p.log[i] == sys.servers[i].log;
  }

  /** Log matching: logs of any peers at any two moments of a run that hold an entry with the same
      index and term are equal up to that entry. */
  lemma LogMatching(n: nat, states: seq<System>, acts: seq<Action>, guarded: bool,
                    j: nat, k: nat, a: int, b: int, x: int)
    requires IsRun(n, states, acts, guarded) && j <= k < |states|
    requires 0 <= a < |states[j].servers| && 0 <= b < |states[k].servers|
    requires 0 <= x < |states[j].servers[a].log| && x < |states[k].servers[b].log|
    requires states[j].servers[a].log[x].term == states[k].servers[b].log[x].term
    ensures states[j].servers[a].log[..x + 1] == states[k].servers[b].log[..x + 1]
  {
    RunHolds(n, states, acts, guarded, j);
    RunHolds(n, states, acts, guarded, k);
    RunExtends(n, states, acts, guarded, j, k);
    ServerLogGood(states[j], guarded, a);
    ServerLogGood(states[k], guarded, b);
    RootedGrows(states[j].hist.reigns, states[k].hist.reigns, states[j].servers[a].log);
    RootedAgree(states[k].hist.reigns, states[j].servers[a].log, states[k].servers[b].log, x);
  }

  ghost function CommittedLog(sys: System, i: int): Log
    requires 0 <= i < |sys.servers| && 0 <= sys.servers[i].commitIndex < |sys.servers[i].log|
  {
    sys.servers[i].log[..sys.servers[i].commitIndex + 1]
  }

  lemma CommittedLogCovered(sys: System, i: int)
    requires SysInv(sys, true) && 0 <= i < |sys.servers|
    ensures 0 <= sys.servers[i].commitIndex < |sys.servers[i].log|
    ensures var s := sys.servers[i];
            Covered(|sys.servers|, sys.hist.acks, sys.hist.reigns, CommittedLog(sys, i), s.currentTerm)
    ensures CommittedLog(sys, i)[0] == SENTINEL
  {
    var p := View(sys, true);
    CommitFacts(p, i);
    ServerLogGood(sys, true, i);
    assert p.log[i] == sys.servers[i].log && p.commit[i] == sys.servers[i].commitIndex;
  }

  /** What a peer holds committed at one moment is covered by the history of any later one. */
  lemma CoveredLater(n: nat, states: seq<System>, acts: seq<Action>, j: nat, k: nat, i: int)
    requires IsRun(n, states, acts, true) && j <= k < |states| && 0 <= i < n
    ensures |states[j].servers| == n && 0 <= states[j].servers[i].commitIndex < |states[j].servers[i].log|
    ensures SysInv(states[k], true)
    ensures CommittedLog(states[j], i)[0] == SENTINEL
    ensures Covered(n, states[k].hist.acks, states[k].hist.reigns, CommittedLog(states[j], i),
                    states[j].servers[i].currentTerm)
  {
    RunHolds(n, states, acts, true, j);
    RunHolds(n, states, acts, true, k);
    RunExtends(n, states, acts, true, j, k);
    CommittedLogCovered(states[j], i);
    var t := states[j].servers[i].currentTerm;
    CoveredGrows(n, states[j].hist.acks, states[k].hist.acks, states[j].hist.reigns, states[k].hist.reigns,
                 CommittedLog(states[j], i), t, t);
  }

  /** Two covered prefixes never disagree. */
  lemma CoveredAgree(p: Proto, a: Log, ta: int, b: Log, tb: int)
    requires Inv(p) && |a| > 0 && |b| > 0 && a[0] == b[0]
    requires Covered(|p.term|, p.acks, p.reigns, a, ta) && Covered(|p.term|, p.acks, p.reigns, b, tb)
    ensures a <= b || b <= a
  {
    hide LogsOK, RolesOK, BallotsOK, NetOK, MatchOK, AcksOK, AckKept, CommitOK, AppliedOK;
    var n := |p.term|;
    if |a| > 1 && |b| > 1 {
      var s: int, m: nat :| s <= ta && Committed(n, p.acks, p.reigns, s, m) && a <= p.reigns[s].log[..m];
      var t: int, l: nat :| t <= tb && Committed(n, p.acks, p.reigns, t, l) && b <= p.reigns[t].log[..l];
      var u := if s > t then s else t;
      assert Covered(n, p.acks, p.reigns, a, u);
      assert Covered(n, p.acks, p.reigns, b, u);
      CoveredInReign(p, a, u);
      CoveredInReign(p, b, u);
    }
  }

  /** Committed logs of any peers at any two moments are prefixes of one another. */
  lemma CommittedLogsAgree(n: nat, states: seq<System>, acts: seq<Action>, j: nat, k: nat, a: int, b: int)
    requires IsRun(n, states, acts, true) && j <= k < |states| && 0 <= a < n && 0 <= b < n
    ensures && |states[j].servers| == n && 0 <= states[j].servers[a].commitIndex < |states[j].servers[a].log|
            && |states[k].servers| == n && 0 <= states[k].servers[b].commitIndex < |states[k].servers[b].log|
            && (CommittedLog(states[j], a) <= CommittedLog(states[k], b)
                || CommittedLog(states[k], b) <= CommittedLog(states[j], a))
  {
    hide Inv;
    CoveredLater(n, states, acts, j, k, a);
    CoveredLater(n, states, acts, k, k, b);
    CoveredAgree(View(states[k], true), CommittedLog(states[j], a), states[j].servers[a].currentTerm,
                 CommittedLog(states[k], b), states[k].servers[b].currentTerm);
  }

  /** State machine safety: no two peers ever hand different commands to their services at one index. */
  lemma StateMachineSafety(n: nat, states: seq<System>, acts: seq<Action>, j: nat, k: nat)
    requires IsRun(n, states, acts, true) && j <= k < |acts|
    requires acts[j].ApplyNext? && acts[k].ApplyNext?
    ensures && 0 <= acts[j].i < |states[j].servers| && 0 <= acts[k].i < |states[k].servers|
            && var s, t := states[j].servers[acts[j].i], states[k].servers[acts[k].i];
               && 0 <= s.lastApplied && s.lastApplied + 1 < |s.log| && 0 <= t.lastApplied && t.lastApplied + 1 < |t.log|
               && (s.lastApplied == t.lastApplied ==>
                     s.log[s.lastApplied + 1].command == t.log[t.lastApplied + 1].command)
  {
    hide Inv;
    assert StepAt(states, acts, j, true) && StepAt(states, acts, k, true);
    RunHolds(n, states, acts, true, j);
    RunHolds(n, states, acts, true, k);
    var a, b := acts[j].i, acts[k].i;
    CommittedLogsAgree(n, states, acts, j, k, a, b);
    var x := states[j].servers[a].lastApplied + 1;
    if states[k].servers[b].lastApplied + 1 == x {
      assert CommittedLog(states[j], a)[x] == CommittedLog(states[k], b)[x];
    }
  }

  /** Leader completeness: what any peer holds committed in term t is in the log of every leader of
      every later term, whenever it leads. */
  lemma CommittedInLaterLeaders(n: nat, states: seq<System>, acts: seq<Action>, j: nat, k: nat, a: int, b: int, u: int)
    requires IsRun(n, states, acts, true) && j < |states| && k < |states| && 0 <= a < n
    requires LeaderAt(states[k], b, u)
    ensures |states[j].servers| == n && 0 <= states[j].servers[a].commitIndex < |states[j].servers[a].log|
    ensures u > states[j].servers[a].currentTerm ==> CommittedLog(states[j], a) <= states[k].servers[b].log
  {
    hide Inv;
    var m := if j > k then j else k;
    CoveredLater(n, states, acts, j, m, a);
    RunHolds(n, states, acts, true, k);
    RunExtends(n, states, acts, true, k, m);
    LeaderHasReign(states[k], true, b, u);
    if u > states[j].servers[a].currentTerm {
      LaterReignStartsWith(View(states[m], true), CommittedLog(states[j], a), states[j].servers[a].currentTerm, u);
      ServerLogGood(states[k], true, b);
      ReignStart(View(states[k], true), u);
      if |CommittedLog(states[j], a)| > 1 {
        PrefixTrans(CommittedLog(states[j], a), states[k].hist.reigns[u].start, states[k].servers[b].log);
      }
    }
  }

  lemma LaterReignStartsWith(p: Proto, q: Log, t: int, u: int)
    requires Inv(p) && Covered(|p.term|, p.acks, p.reigns, q, t) && t < u && u in p.reigns
    ensures |q| > 1 ==> q <= p.reigns[u].start
  {
    hide LogsOK, RolesOK, BallotsOK, NetOK, MatchOK, AcksOK, AckKept, CommitOK, AppliedOK;
    if |q| > 1 {
      var s: int, m: nat :| s <= t && Committed(|p.term|, p.acks, p.reigns, s, m) && q <= p.reigns[s].log[..m];
      LeaderCompleteness(p, s, m, u);
      PrefixTrans(q, p.reigns[s].log[..m], p.reigns[u].start);
    }
  }

  lemma ReignStart(p: Proto, u: int)
    requires Inv(p) && u in p.reigns
    ensures p.reigns[u].start <= p.reigns[u].log
  {
    assert ReignOK(p.term, p.reigns, p.grants, u);
  }

  /** Within one incarnation a commit index never falls. */
  lemma CommitIndexNeverFalls(n: nat, states: seq<System>, acts: seq<Action>, k: nat, i: int)
    requires IsRun(n, states, acts, true) && k < |acts| && 0 <= i < n && acts[k] != CrashRestart(i)
    ensures |states[k].servers| == n && |states[k + 1].servers| == n
    ensures states[k].servers[i].commitIndex <= states[k + 1].servers[i].commitIndex
  {
    hide Inv;
    RunHolds(n, states, acts, true, k);
    RunHolds(n, states, acts, true, k + 1);
    assert StepAt(states, acts, k, true);
    var s := states[k].servers[i];
    match acts[k]
    case TakeAppendRequest(v, m) =>
      if v == i {
        MessageHolds(states[k], true, m);
        FollowerCommitRises(states[k], i, m.aargs);
      }
    case TakeAppendResponse(v, m) =>
      if v == i {
        LeaderCommitRises(s, i, m.from, m.aargs, m.areply);
      }
    case _ =>
  }

  lemma LeaderCommitRises(s: Server, me: int, p: int, a: AppendArgs, r: AppendReply)
    requires s.Valid() && 0 <= p < |s.nextIndex|
    ensures OnAppendResponse(s, me, p, a, r).commitIndex >= s.commitIndex
  {
    if r.term <= s.currentTerm && s.state == Leader {
      var s1 := MatchedServer(s, p, a, r);
      CommitRises(s1, me);
      assert s1.commitIndex == s.commitIndex;
    }
  }

  lemma FollowerCommitRises(sys: System, i: int, a: AppendArgs)
    requires SysInv(sys, true) && 0 <= i < |sys.servers|
    requires AppendOK(true, |sys.servers|, sys.hist.reigns, sys.hist.acks, a)
    ensures OnAppendRequest(sys.servers[i], a).0.commitIndex >= sys.servers[i].commitIndex
  {
    hide Covered, Inv;
    CommittedLogCovered(sys, i);
    var s := sys.servers[i];
    if 0 <= a.prevLogIndex < |s.log| {
      MergeReaches(s.log, a.prevLogIndex, a.entries);
    }
  }

  lemma MergeReaches(l: Log, prev: int, es: seq<Entry>)
    requires 0 <= prev < |l|
    ensures |Merge(l, prev, es)| >= prev + 1 + |es|
    decreases |es|
  {
  }

  /** Every request reaches at least as far as the commit index it carries: the leader ships its whole
      tail, so a follower never commits entries the request did not verify. */
  lemma RequestsReachTheirCommit(n: nat, states: seq<System>, acts: seq<Action>, k: nat, m: Message)
    requires IsRun(n, states, acts, true) && k < |states| && m in states[k].net && m.AppendRequest?
    ensures 0 <= m.aargs.leaderCommit <= m.aargs.prevLogIndex + |m.aargs.entries|
  {
    hide Inv;
    RunHolds(n, states, acts, true, k);
    MessageHolds(states[k], true, m);
  }

  /** A leader's nextIndex stays within its log, so the snapshot path is never taken. */
  lemma LeaderNeverNeedsSnapshot(n: nat, states: seq<System>, acts: seq<Action>, k: nat, i: int, p: int)
    requires IsRun(n, states, acts, true) && k < |states| && 0 <= i < n && 0 <= p < n
    ensures |states[k].servers| == n && Shaped(states[k])
    ensures var s := states[k].servers[i]; s.state == Leader ==> ClampNext(s, p) == s.nextIndex[p] >= 1
  {
    hide Inv;
    RunHolds(n, states, acts, true, k);
  }
}
