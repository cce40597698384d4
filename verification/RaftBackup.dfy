/** The fast backup of nextIndex after a conflict makes progress and ends in agreement. */
module RaftBackup {
  import opened RaftTypes
  import opened RaftProtocol
  import opened RaftInvariant
  import opened RaftServer
  import opened RaftSystem
  import opened RaftRefinement
  import opened RaftSafety

  /** The leader's last entry of the conflicting term lies before the conflict: otherwise log matching
      would make the two logs agree there. */
  lemma LastInTermBeforeConflict(reigns: map<int, Reign>, lead: Log, x: int, prev: int)
    requires GoodLog(reigns, lead) && 0 <= prev < |lead|
    requires WroteAt(reigns, x, prev) && lead[prev].term != x
    ensures LastInTerm(lead, |lead| - 1, x) < prev
  {
    var k := LastInTerm(lead, |lead| - 1, x);
    if k > 0 {
      assert RootedAt(reigns, lead, k);
      assert lead[..k + 1] == reigns[x].log[..k + 1];
      assert forall q :: 0 <= q <= k ==> lead[q] == reigns[x].log[q];
    }
  }

  /** In every run, a conflict reply to a request sent at the current nextIndex lowers nextIndex
      strictly, and never below 1. */
  lemma ConflictLowersNextIndex(n: nat, states: seq<System>, acts: seq<Action>, k: nat, i: int, m: Message)
    requires IsRun(n, states, acts, true) && k < |acts| && acts[k] == TakeAppendResponse(i, m)
    requires 0 <= i < |states[k].servers| && states[k].servers[i].state == Leader
    requires m.AppendResponse? && m.areply.conflict && !m.areply.success
    requires m.areply.term <= states[k].servers[i].currentTerm
    requires 0 <= m.from < |states[k].servers[i].nextIndex|
    requires m.aargs.prevLogIndex == states[k].servers[i].nextIndex[m.from] - 1
    ensures i < |states[k + 1].servers| && m.from < |states[k + 1].servers[i].nextIndex|
    ensures 1 <= states[k + 1].servers[i].nextIndex[m.from] < states[k].servers[i].nextIndex[m.from]
  {
    hide Inv, Commit, Covered;
    RunHolds(n, states, acts, true, k);
    assert StepAt(states, acts, k, true);
    var sys := states[k];
    var s := sys.servers[i];
    MessageHolds(sys, true, m);
    LeaderHasReign(sys, true, i, s.currentTerm);
    ServerLogGood(sys, true, i);
    if m.areply.xTerm != -1 {
      LastInTermBeforeConflict(sys.hist.reigns, s.log, m.areply.xTerm, m.aargs.prevLogIndex);
    }
    CommitKeepsNext(BackUp(s, m.from, m.areply), i);
  }

  lemma CommitKeepsNext(s: Server, me: int)
    requires s.Valid()
    ensures Commit(s, me).nextIndex == s.nextIndex
  {
  }

  /** What one exchange between a leader and a follower does to both. */
  ghost function Exchange(l: Server, me: int, p: int, f: Server): (Server, Server, bool)
    requires l.Valid() && f.Valid() && 0 <= p < |l.nextIndex| && ClampNext(l, p) > 0
  {
    var a := AppendArgsFor(l, me, p);
    var (f', r) := OnAppendRequest(f, a);
    (OnAppendResponse(l, me, p, a, r), f', r.success)
  }

  /** A leader and a peer of no later term, perhaps still leading an older one, with good logs. */
  ghost predicate Pair(reigns: map<int, Reign>, l: Server, me: int, p: int, f: Server) {
    && l.Valid() && f.Valid() && l.state == Leader && f.currentTerm <= l.currentTerm
    && (f.state == Leader ==> f.currentTerm < l.currentTerm)
    && GoodLog(reigns, l.log) && GoodLog(reigns, f.log)
    && 0 <= p < |l.nextIndex| && 1 <= l.nextIndex[p] <= |l.log|
  }

  ghost predicate Matches(l: Log, f: Log, prev: int) {
    0 <= prev < |l| && prev < |f| && f[prev].term == l[prev].term
  }

  /** A successful exchange brings the follower's log up to the leader's, tells the follower what is
      committed and the leader what the follower holds. */
  lemma ExchangeAgrees(reigns: map<int, Reign>, l: Server, me: int, p: int, f: Server)
    requires Pair(reigns, l, me, p, f) && Matches(l.log, f.log, l.nextIndex[p] - 1)
    ensures var (l', f', ok) := Exchange(l, me, p, f);
            && ok && l.log <= f'.log && f'.currentTerm == l.currentTerm
            && (l.commitIndex < |l.log| ==> f'.commitIndex == Max(f.commitIndex, l.commitIndex))
            && l'.log == l.log && |l'.matchIndex| == |l.matchIndex|
            && l'.matchIndex[p] == Max(l.matchIndex[p], |l.log| - 1) && l'.nextIndex[p] == |l.log|
  {
    hide GoodLog, Merge, CommitFrom;
    var a := AppendArgsFor(l, me, p);
    MergeIsLeaderPrefix(reigns, f.log, l.log, a.prevLogIndex, a.entries);
    assert l.log[..a.prevLogIndex + 1 + |a.entries|] == l.log;
  }

  /** A failed one leaves both logs alone and lowers nextIndex. */
  lemma ExchangeBacksUp(reigns: map<int, Reign>, l: Server, me: int, p: int, f: Server)
    requires Pair(reigns, l, me, p, f) && !Matches(l.log, f.log, l.nextIndex[p] - 1)
    ensures var (l', f', ok) := Exchange(l, me, p, f);
            && !ok && Pair(reigns, l', me, p, f') && f'.log == f.log && l'.log == l.log
            && l'.nextIndex[p] < l.nextIndex[p]
  {
    hide Commit, Rooted;
    var a := AppendArgsFor(l, me, p);
    var prev := a.prevLogIndex;
    var (f', r) := OnAppendRequest(f, a);
    ConflictHints(reigns, l, p, f, r);
    CommitKeepsRest(BackUp(l, p, r), me);
  }

  lemma ConflictHints(reigns: map<int, Reign>, l: Server, p: int, f: Server, r: AppendReply)
    requires l.Valid() && 0 <= p < |l.nextIndex| && GoodLog(reigns, l.log) && GoodLog(reigns, f.log)
    requires var prev := l.nextIndex[p] - 1;
             && 0 <= prev < |l.log|
             && if prev < |f.log| then && f.log[prev].term == r.xTerm != l.log[prev].term
                                       && r.xIndex == RunStart(f.log, prev, r.xTerm)
                else r.xTerm == -1 && r.xLen == |f.log|
    ensures 1 <= BackUp(l, p, r).nextIndex[p] < l.nextIndex[p]
  {
    var prev := l.nextIndex[p] - 1;
    if prev < |f.log| {
      assert prev > 0;
      assert RootedAt(reigns, f.log, prev);
      LastInTermBeforeConflict(reigns, l.log, r.xTerm, prev);
      RunStartsLate(f.log, prev, r.xTerm);
    }
  }

  lemma CommitKeepsRest(s: Server, me: int)
    requires s.Valid()
    ensures var s' := Commit(s, me); s'.Valid() && s' == s.(commitIndex := s'.commitIndex)
  {
  }

  // ----- a backup passes over nothing -----

  /** The hints lead to where the logs part, and no further: every index at which both logs hold an entry of
      the same term is at most the new nextIndex. */
  lemma BackupSkipsNothing(reigns: map<int, Reign>, l: Server, me: int, p: int, f: Server, j: int)
    requires Pair(reigns, l, me, p, f) && !Matches(l.log, f.log, l.nextIndex[p] - 1) && Matches(l.log, f.log, j)
    ensures var (l', f', ok) := Exchange(l, me, p, f); p < |l'.nextIndex| && j <= l'.nextIndex[p]
  {
    ExchangeBacksUp(reigns, l, me, p, f);
    var prev := l.nextIndex[p] - 1;
    MatchesStopBefore(reigns, l.log, f.log, prev, j);
    if prev < |f.log| {
      var x := f.log[prev].term;
      HintsReachMatch(l.log, f.log, prev, x, j);
      RunStartsAt(f, AppendArgsFor(l, me, p));
    }
    hide Rooted, Commit, WellFormed;
    CommitKeepsNext(BackUp(l, p, OnAppendRequest(f, AppendArgsFor(l, me, p)).1), me);
  }

  /** By log matching, no agreed entry lies past a conflict. */
  lemma MatchesStopBefore(reigns: map<int, Reign>, l: Log, f: Log, prev: int, j: int)
    requires GoodLog(reigns, l) && GoodLog(reigns, f) && 0 <= prev < |l| && !Matches(l, f, prev) && Matches(l, f, j)
    ensures j < prev
  {
    RootedAgree(reigns, l, f, j);
    assert forall q :: 0 <= q <= j ==> l[..j + 1][q] == l[q] && f[..j + 1][q] == f[q];
  }

  lemma HintsReachMatch(l: Log, f: Log, prev: int, x: int, j: int)
    requires WellFormed(l) && WellFormed(f) && 0 <= j < prev < |l| && prev < |f| && f[prev].term == x
    requires Matches(l, f, j)
    ensures var k := LastInTerm(l, |l| - 1, x); j <= if k > 0 then k else RunStart(f, prev, x)
  {
    LastInTermIsLast(l, |l| - 1, x);
    RunStartIsFirst(f, prev);
    var k := LastInTerm(l, |l| - 1, x);
    assert Ordered(f, j, prev);
    if k > 0 {
      assert Ordered(l, k, j);
    } else {
      var i := RunStart(f, prev, x);
      assert Ordered(f, i, j);
    }
  }

  lemma RunStartsAt(f: Server, a: AppendArgs)
    requires f.Valid() && a.term >= f.currentTerm && 0 <= a.prevLogIndex < |f.log|
    requires f.log[a.prevLogIndex].term != a.prevLogTerm
    ensures var r, x := OnAppendRequest(f, a).1, f.log[a.prevLogIndex].term;
            !r.success && r.conflict && r.xTerm == x && r.xIndex == RunStart(f.log, a.prevLogIndex, x)
  {
  }

  /** In every guarded run, a backup against any peer of no later term passes over no agreed entry. */
  lemma BackupSkipsNothingInRun(n: nat, states: seq<System>, acts: seq<Action>, k: nat, i: int, p: int, j: int)
    requires IsRun(n, states, acts, true) && k < |states| && 0 <= i < n && 0 <= p < n && i != p
    requires |states[k].servers| == n && states[k].servers[i].state == Leader
    requires states[k].servers[p].currentTerm <= states[k].servers[i].currentTerm
    requires p < |states[k].servers[i].nextIndex|
    requires var l, f := states[k].servers[i], states[k].servers[p];
             !Matches(l.log, f.log, l.nextIndex[p] - 1) && Matches(l.log, f.log, j)
    ensures var l, f := states[k].servers[i], states[k].servers[p];
            && l.Valid() && f.Valid() && ClampNext(l, p) > 0
            && var (l', f', ok) := Exchange(l, i, p, f); p < |l'.nextIndex| && j <= l'.nextIndex[p] < l.nextIndex[p]
  {
    PairInRun(n, states, acts, k, i, p);
    hide Exchange, GoodLog;
    var l, f, rs := states[k].servers[i], states[k].servers[p], states[k].hist.reigns;
    BackupSkipsNothing(rs, l, i, p, f, j);
    ExchangeBacksUp(rs, l, i, p, f);
  }

  // ----- retries -----

  /** Leader, follower and outcome after at most k exchanges, stopping at the first success. */
  ghost function Retry(l: Server, me: int, p: int, f: Server, k: nat): (Server, Server, bool)
    requires l.Valid() && f.Valid() && 0 <= p < |l.nextIndex|
    decreases k
  {
    if k == 0 || ClampNext(l, p) <= 0 then (l, f, false)
    else
      var (l', f', ok) := Exchange(l, me, p, f);
      if ok || !l'.Valid() || !f'.Valid() || p >= |l'.nextIndex| then (l', f', ok)
      else Retry(l', me, p, f', k - 1)
  }

  /** Against a follower nobody else touches, nextIndex exchanges are enough: one of them succeeds and
      the follower's log then begins with the leader's whole log. */
  lemma {:induction false} RetriesReachAgreement(reigns: map<int, Reign>, l: Server, me: int, p: int, f: Server, k: nat)
    requires Pair(reigns, l, me, p, f) && k >= l.nextIndex[p]
    ensures var (l', f', ok) := Retry(l, me, p, f, k); ok && l.log <= f'.log
    decreases k
  {
    hide Exchange, Rooted, WellFormed;
    if Matches(l.log, f.log, l.nextIndex[p] - 1) {
      ExchangeAgrees(reigns, l, me, p, f);
    } else {
      ExchangeBacksUp(reigns, l, me, p, f);
      var (l', f', ok) := Exchange(l, me, p, f);
      RetriesReachAgreement(reigns, l', me, p, f', k - 1);
    }
  }

  lemma PairInState(sys: System, i: int, p: int)
    requires SysInv(sys, true) && 0 <= i < |sys.servers| && 0 <= p < |sys.servers| && i != p
    requires sys.servers[i].state == Leader && sys.servers[p].currentTerm <= sys.servers[i].currentTerm
    ensures Pair(sys.hist.reigns, sys.servers[i], i, p, sys.servers[p])
  {
    var l, f := sys.servers[i], sys.servers[p];
    LeaderHasReign(sys, true, i, l.currentTerm);
    if f.state == Leader && l.currentTerm == f.currentTerm {
      LeaderHasReign(sys, true, p, f.currentTerm);
    }
    ServerLogGood(sys, true, i);
    ServerLogGood(sys, true, p);
    hide Inv, GoodLog;
  }

  // ----- one round trip per term -----

  /** How often the term changes along a log. */
  ghost function Runs(l: Log): nat {
    var n := |l| - 1;
    if n <= 0 then 0 else Runs(l[..n]) + (if l[n].term != l[n - 1].term then 1 else 0)
  }

  lemma {:induction false} RunsGrow(l: Log, i: nat, j: nat)
    requires 1 <= i <= j <= |l|
    ensures Runs(l[..i]) <= Runs(l[..j]) && (l[i - 1].term != l[j - 1].term ==> Runs(l[..i]) < Runs(l[..j]))
    decreases j
  {
    if i < j {
      RunsGrow(l, i, j - 1);
      assert l[..j][..j - 1] == l[..j - 1];
    }
  }

  /** After a conflict the next request asks about the end of the peer's log, or about an entry of an
      earlier term than the one refused, unless it will succeed. */
  lemma ConflictTermFalls(reigns: map<int, Reign>, l: Server, me: int, p: int, f: Server)
    requires Pair(reigns, l, me, p, f) && !Matches(l.log, f.log, l.nextIndex[p] - 1)
    ensures var (l', f', ok) := Exchange(l, me, p, f);
            && p < |l'.nextIndex| && 1 <= l'.nextIndex[p] <= |f.log|
            && var prev, prev' := l.nextIndex[p] - 1, l'.nextIndex[p] - 1;
               prev < |f.log| ==> Matches(l.log, f.log, prev') || f.log[prev'].term < f.log[prev].term
  {
    ExchangeBacksUp(reigns, l, me, p, f);
    var prev := l.nextIndex[p] - 1;
    var a := AppendArgsFor(l, me, p);
    if prev < |f.log| {
      RunStartsAt(f, a);
      HintsLeaveTerm(reigns, l.log, f.log, prev);
    }
    hide Rooted, Commit, WellFormed;
    CommitKeepsNext(BackUp(l, p, OnAppendRequest(f, a).1), me);
  }

  lemma HintsLeaveTerm(reigns: map<int, Reign>, l: Log, f: Log, prev: int)
    requires GoodLog(reigns, l) && GoodLog(reigns, f) && 0 <= prev < |l| && prev < |f| && f[prev].term != l[prev].term
    ensures var x := f[prev].term;
            var k := LastInTerm(l, |l| - 1, x);
            var next := if k > 0 then k else RunStart(f, prev, x);
            1 <= next <= prev && (Matches(l, f, next - 1) || f[next - 1].term < x)
  {
    var x := f[prev].term;
    var k := LastInTerm(l, |l| - 1, x);
    assert RootedAt(reigns, f, prev);
    LastInTermBeforeConflict(reigns, l, x, prev);
    RunStartIsFirst(f, prev);
    RunStartsLate(f, prev, x);
    if k > 0 {
      assert Ordered(f, k - 1, prev);
      TermsAgreeBelow(reigns, l, f, k);
    }
  }

  /** If the leader's entry k and the peer's entry k - 1 are of one term, so is the leader's entry k - 1. */
  lemma TermsAgreeBelow(reigns: map<int, Reign>, l: Log, f: Log, k: int)
    requires GoodLog(reigns, l) && GoodLog(reigns, f) && 0 < k < |l| && k <= |f|
    ensures f[k - 1].term == l[k].term ==> l[k - 1].term == f[k - 1].term
  {
    if f[k - 1].term == l[k].term && k > 1 {
      assert RootedAt(reigns, f, k - 1) && RootedAt(reigns, l, k);
      var r := reigns[l[k].term].log;
      assert f[..k][k - 1] == r[k - 1] && l[..k + 1][k - 1] == r[k - 1];
    }
  }

  /** How many exchanges are enough: one that succeeds, one per run of terms to go back over, and one more
      if the peer's log is too short. */
  ghost function Needed(l: Log, f: Log, next: int): nat {
    if Matches(l, f, next - 1) then 1
    else if 0 <= next <= |f| then Runs(f[..next]) + 1
    else Runs(f) + 2
  }

  lemma NeededFalls(l: Log, f: Log, next: int, next': int)
    requires WellFormed(f) && 1 <= next' < next && next' <= |f| && !Matches(l, f, next - 1)
    requires next <= |f| ==> Matches(l, f, next' - 1) || f[next' - 1].term < f[next - 1].term
    ensures Needed(l, f, next') < Needed(l, f, next)
  {
    var end := if next <= |f| then next else |f|;
    assert f[..|f|] == f;
    RunsGrow(f, next', end);
    RunsGrow(f, 1, end);
  }

  lemma NeededAtMost(l: Log, f: Log, next: int)
    requires 1 <= next && |f| > 0
    ensures Needed(l, f, next) <= Runs(f) + 2
  {
    if next <= |f| {
      assert f[..|f|] == f;
      RunsGrow(f, next, |f|);
    }
  }

  /** Agreement costs one exchange per run of equal terms in the peer's log, however long the runs are. */
  lemma {:induction false} RetriesPerTerm(reigns: map<int, Reign>, l: Server, me: int, p: int, f: Server, k: nat)
    requires Pair(reigns, l, me, p, f) && k >= Needed(l.log, f.log, l.nextIndex[p])
    ensures var (l', f', ok) := Retry(l, me, p, f, k); ok && l.log <= f'.log
    decreases k
  {
    hide Exchange, Rooted, WellFormed, Runs;
    var next := l.nextIndex[p];
    if Matches(l.log, f.log, next - 1) {
      ExchangeAgrees(reigns, l, me, p, f);
    } else {
      ExchangeBacksUp(reigns, l, me, p, f);
      ConflictTermFalls(reigns, l, me, p, f);
      var (l', f', ok) := Exchange(l, me, p, f);
      NeededFalls(l.log, f.log, next, l'.nextIndex[p]);
      RetriesPerTerm(reigns, l', me, p, f', k - 1);
    }
  }

  /** k exchanges with nobody interfering are enough for f's log to begin with l's. */
  ghost predicate AgreesWithin(l: Server, me: int, p: int, f: Server, k: nat)
    requires l.Valid() && f.Valid() && 0 <= p < |l.nextIndex|
  {
    var (l', f', ok) := Retry(l, me, p, f, k); ok && l.log <= f'.log
  }

  /** In every guarded run, that many exchanges suffice against any peer of no later term. */
  lemma RetriesPerTermInRun(n: nat, states: seq<System>, acts: seq<Action>, k: nat, i: int, p: int)
    requires IsRun(n, states, acts, true) && k < |states| && 0 <= i < n && 0 <= p < n && i != p
    ensures |states[k].servers| == n && Shaped(states[k])
    ensures var l, f := states[k].servers[i], states[k].servers[p];
            l.state == Leader && f.currentTerm <= l.currentTerm ==>
              AgreesWithin(l, i, p, f, Runs(f.log) + 2)
  {
    RunHolds(n, states, acts, true, k);
    assert Shaped(states[k]);
    hide SysInv, AgreesWithin, Runs, Pair;
    var l, f := states[k].servers[i], states[k].servers[p];
    if l.state == Leader && f.currentTerm <= l.currentTerm {
      PairInState(states[k], i, p);
      EnoughRetries(states[k].hist.reigns, l, i, p, f);
    }
  }

  lemma EnoughRetries(reigns: map<int, Reign>, l: Server, me: int, p: int, f: Server)
    requires Pair(reigns, l, me, p, f)
    ensures AgreesWithin(l, me, p, f, Runs(f.log) + 2)
  {
    hide GoodLog, Retry, Runs, Needed;
    NeededAtMost(l.log, f.log, l.nextIndex[p]);
    RetriesPerTerm(reigns, l, me, p, f, Runs(f.log) + 2);
  }

  // ----- in runs -----

  /** In every guarded run, a leader and any other peer of no later term are such a pair. */
  lemma PairInRun(n: nat, states: seq<System>, acts: seq<Action>, k: nat, i: int, p: int)
    requires IsRun(n, states, acts, true) && k < |states| && 0 <= i < n && 0 <= p < n && i != p
    ensures |states[k].servers| == n
    ensures var l, f := states[k].servers[i], states[k].servers[p];
            l.state == Leader && f.currentTerm <= l.currentTerm ==> Pair(states[k].hist.reigns, l, i, p, f)
  {
    RunHolds(n, states, acts, true, k);
    hide SysInv, Pair;
    var l, f := states[k].servers[i], states[k].servers[p];
    if l.state == Leader && f.currentTerm <= l.currentTerm {
      PairInState(states[k], i, p);
    }
  }

  /** From every state of every guarded run: a leader that keeps asking a peer of no later term, with
      nobody else interfering, succeeds within nextIndex exchanges, and that peer's log then begins with
      the leader's whole log. */
  lemma RetriesReachAgreementInRun(n: nat, states: seq<System>, acts: seq<Action>, k: nat, i: int, p: int)
    requires IsRun(n, states, acts, true) && k < |states| && 0 <= i < n && 0 <= p < n && i != p
    ensures |states[k].servers| == n && Shaped(states[k])
    ensures var l, f := states[k].servers[i], states[k].servers[p];
            l.state == Leader && f.currentTerm <= l.currentTerm ==>
              l.nextIndex[p] >= 1 && var (l', f', ok) := Retry(l, i, p, f, l.nextIndex[p]); ok && l.log <= f'.log
  {
    RunHolds(n, states, acts, true, k);
    PairInRun(n, states, acts, k, i, p);
    hide Inv, GoodLog, Retry;
    var l, f := states[k].servers[i], states[k].servers[p];
    if l.state == Leader && f.currentTerm <= l.currentTerm {
      RetriesReachAgreement(states[k].hist.reigns, l, i, p, f, l.nextIndex[p]);
    }
  }
}
