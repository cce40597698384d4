/** Without the guard on replies, state machine safety fails for every cluster of three or more peers:
    a leader counts success replies of an earlier term of its own, commits alone, and two peers apply
    different commands at index 2. */
module RaftStaleReply {
  import opened RaftTypes
  import opened Quorums
  import opened RaftProtocol
  import opened RaftServer
  import opened RaftSystem
  import opened RaftRefinement
  import opened RaftSafety

  // ----- runs under construction -----

  datatype Trace = Trace(n: nat, states: seq<System>, acts: seq<Action>)

  ghost predicate Good(r: Trace) {
    && r.n >= 3 && |r.states| == |r.acts| + 1 && IsRun(r.n, r.states, r.acts, false)
    && SysInv(Now(r), false) && |Now(r).servers| == r.n
  }

  ghost function Now(r: Trace): System
    requires |r.states| > 0
  {
    r.states[|r.states| - 1]
  }

  ghost predicate Continues(r: Trace, q: Trace) {
    Good(r) && Good(q) && q.n == r.n && r.states <= q.states && r.acts <= q.acts
  }

  lemma Begin(n: nat) returns (r: Trace)
    requires n >= 3
    ensures Good(r) && r.n == n && Now(r) == Initial(n)
  {
    r := Trace(n, [Initial(n)], []);
    InitialHolds(n, false);
  }

  lemma Do(r: Trace, act: Action) returns (q: Trace)
    requires Good(r) && Enabled(Now(r), act, false)
    ensures Continues(r, q) && Now(q) == Exec(Now(r), act, false) && Now(r).net <= Now(q).net
    ensures |q.acts| == |r.acts| + 1 && |q.states| == |r.states| + 1 && q.acts[|r.acts|] == act
  {
    var s := Now(r);
    q := Trace(r.n, r.states + [Exec(s, act, false)], r.acts + [act]);
    ExecKeepsInv(s, act, false);
    ExecKeepsSize(s, act, false);
    Longer(r, act, q);
    NetGrows(s, act);
  }

  lemma Longer(r: Trace, act: Action, q: Trace)
    requires Good(r) && Enabled(Now(r), act, false)
    requires q == Trace(r.n, r.states + [Exec(Now(r), act, false)], r.acts + [act])
    ensures IsRun(q.n, q.states, q.acts, false)
  {
    assert Shaped(Now(r));
    hide SysInv, Enabled, Exec, Shaped;
    forall k | 0 <= k < |q.acts| ensures StepAt(q.states, q.acts, k, false) {
      if k < |r.acts| {
        assert StepAt(r.states, r.acts, k, false);
      }
    }
  }

  lemma NetGrows(sys: System, act: Action)
    requires Shaped(sys) && Enabled(sys, act, false)
    ensures sys.net <= Exec(sys, act, false).net
  {
  }

  lemma GoodShape(r: Trace)
    requires Good(r)
    ensures |r.states| > 0 && Shaped(Now(r)) && |Now(r).servers| == r.n >= 3
    ensures forall i :: 0 <= i < r.n ==> Now(r).servers[i].Valid()
  {
  }

  // ----- what the scenario follows -----

  /** The scenario has two rivals, peers 0 and 1, and just enough voters to make either a majority:
      peers 2 to Last(n) - 1. */
  ghost function Last(n: nat): nat {
    2 + n / 2
  }

  ghost predicate Is(s: Server, n: nat, t: int, l: Log) {
    && s.currentTerm == t && s.log == l && |l| > 0
    && s.commitIndex == 0 && s.lastApplied == 0 && |s.nextIndex| == n && |s.matchIndex| == n
  }

  /** A leader to whom voters below 2 + i have acknowledged index 2, and nobody else anything. */
  ghost predicate Counts(s: Server, n: nat, t: int, l: Log, i: int) {
    && Is(s, n, t, l) && s.state == Leader
    && forall p :: 0 <= p < n ==> s.matchIndex[p] == if 2 <= p < 2 + i then 2 else 0
  }

  /** Nothing acknowledged, and nextIndex still untouched from peer lo on. */
  ghost predicate Leading(s: Server, n: nat, t: int, l: Log, lo: int, next: int) {
    && Counts(s, n, t, l, 0)
    && forall p :: lo <= p < n && 0 <= p ==> s.nextIndex[p] == next
  }

  ghost predicate Voters(sys: System, lo: int, hi: int, n: nat, t: int, l: Log) {
    && 2 <= lo && hi <= |sys.servers|
    && forall v :: lo <= v < hi ==> Is(sys.servers[v], n, t, l) && sys.servers[v].state == Follower
  }

  /** Only c and the voters have changed, and no message is gone. */
  ghost predicate Beside(sys: System, sys': System, c: int) {
    && |sys.servers| == |sys'.servers| && sys.net <= sys'.net
    && forall i :: 0 <= i < 2 <= |sys.servers| && i != c ==> sys'.servers[i] == sys.servers[i]
  }

  // ----- elections -----

  /** Candidate c of term t has i votes besides its own, those of the first i voters. */
  ghost predicate Campaigns(sys: System, n: nat, c: int, t: int, l: Log, i: int) {
    && |sys.servers| == |sys.elections| == n && 0 <= c < 2 <= n
    && Is(sys.servers[c], n, t, l) && sys.servers[c].state == Candidate
    && t in sys.elections[c] && sys.elections[c][t].count == 1 + i && !sys.elections[c][t].fired
    && (forall v :: 2 + i <= v < n ==> v in sys.elections[c][t].awaiting)
    && Asks(sys, n, Plea(c, t, l))
  }

  lemma TimeoutEffect(sys: System, n: nat, c: int, t: int, l: Log)
    requires Shaped(sys) && |sys.servers| == n && 0 <= c < 2 <= n && Is(sys.servers[c], n, t, l)
    ensures Campaigns(DoTimeout(sys, c), n, c, t + 1, l, 0) && Others(sys, DoTimeout(sys, c), c, c)
  {
    var a := Plea(c, t + 1, l);
    var out := set p | p in Peers(n) - {c} :: VoteRequest(a, p);
    assert DoTimeout(sys, c).net == sys.net + out;
    forall v | 0 <= v < n && v != c ensures VoteRequest(a, v) in out {
      assert v in Peers(n) - {c};
    }
  }

  lemma TimesOut(r: Trace, c: int, t: int, l: Log) returns (q: Trace)
    requires Good(r) && 0 <= c < 2 && Is(Now(r).servers[c], r.n, t, l)
    ensures Continues(r, q) && Campaigns(Now(q), r.n, c, t + 1, l, 0) && Others(Now(r), Now(q), c, c)
  {
    TimeoutEffect(Now(r), r.n, c, t, l);
    hide SysInv, Shaped, IsRun, DoTimeout, Campaigns, Others;
    q := Do(r, Timeout(c));
  }

  lemma VoteEffect(sys: System, n: nat, c: int, v: int, t: int, l: Log, i: int, tv: int, lv: Log)
    requires Shaped(sys) && Campaigns(sys, n, c, t, l, i) && 2 <= v < n
    requires Is(sys.servers[v], n, tv, lv) && tv < t && AtLeastAsRecent(LastTerm(l), |l| - 1, lv)
    ensures var a := Plea(c, t, l);
            var sys' := DoVoteRequest(sys, v, a);
            && Campaigns(sys', n, c, t, l, i) && Others(sys, sys', v, v)
            && VoteResponse(a, v, VoteReply(t, true)) in sys'.net
            && Is(sys'.servers[v], n, t, lv) && sys'.servers[v].state == Follower
  {
  }

  lemma CountEffect(sys: System, n: nat, c: int, v: int, t: int, l: Log, i: int)
    requires Shaped(sys) && Campaigns(sys, n, c, t, l, i) && v == 2 + i < n
    ensures var sys' := DoVoteResponse(sys, c, Plea(c, t, l), v, VoteReply(t, true));
            && Others(sys, sys', c, c)
            && (2 * (2 + i) <= n ==> Campaigns(sys', n, c, t, l, i + 1))
            && (2 * (2 + i) > n ==> Leading(sys'.servers[c], n, t, l, 0, |l|) && OffersAll(sys', n, c, t, |l| - 1, l))
  {
    hide Broadcast;
    var sys' := DoVoteResponse(sys, c, Plea(c, t, l), v, VoteReply(t, true));
    if 2 * (2 + i) > n {
      var s := TakeOffice(sys.servers[c]);
      assert sys'.servers[c] == s && sys'.net == sys.net + Broadcast(s, c, true);
      BroadcastOffers(sys', s, n, c, true, t, |l| - 1, l);
    }
  }

  /** One more voter grants its vote, and the candidate counts it. */
  lemma GetsVote(r: Trace, c: int, t: int, l: Log, i: int, tv: int, lv: Log) returns (q: Trace)
    requires Good(r) && 0 <= c < 2 && Campaigns(Now(r), r.n, c, t, l, i) && 0 <= i < r.n / 2
    requires Is(Now(r).servers[2 + i], r.n, tv, lv) && tv < t && AtLeastAsRecent(LastTerm(l), |l| - 1, lv)
    ensures Continues(r, q) && Others(Now(r), Now(q), c, 2 + i)
    ensures Is(Now(q).servers[2 + i], r.n, t, lv) && Now(q).servers[2 + i].state == Follower
    ensures i + 1 < r.n / 2 ==> Campaigns(Now(q), r.n, c, t, l, i + 1)
    ensures i + 1 == r.n / 2 ==>
              Leading(Now(q).servers[c], r.n, t, l, 0, |l|) && OffersAll(Now(q), r.n, c, t, |l| - 1, l)
  {
    hide SysInv, Shaped, IsRun, DoVoteRequest, DoVoteResponse, Leading, OffersAll;
    var v, a := 2 + i, Plea(c, t, l);
    GoodShape(r);
    VoteEffect(Now(r), r.n, c, v, t, l, i, tv, lv);
    var q1 := Do(r, TakeVoteRequest(v, VoteRequest(a, v)));
    GoodShape(q1);
    CountEffect(Now(q1), r.n, c, v, t, l, i);
    q := Do(q1, TakeVoteResponse(c, VoteResponse(a, v, VoteReply(t, true))));
  }

  lemma {:induction false} Collects(r: Trace, c: int, t: int, l: Log, i: int, tv: int, lv: Log) returns (q: Trace)
    requires Good(r) && 0 <= c < 2 && Campaigns(Now(r), r.n, c, t, l, 0) && 0 <= i < r.n / 2
    requires Voters(Now(r), 2, Last(r.n), r.n, tv, lv) && tv < t
    requires |lv| > 0 && |l| > 0 && AtLeastAsRecent(LastTerm(l), |l| - 1, lv)
    ensures Continues(r, q) && Campaigns(Now(q), r.n, c, t, l, i) && Beside(Now(r), Now(q), c)
    ensures Voters(Now(q), 2, 2 + i, r.n, t, lv) && Voters(Now(q), 2 + i, Last(r.n), r.n, tv, lv)
    decreases i
  {
    hide SysInv, Shaped, IsRun, Campaigns, AtLeastAsRecent;
    if i == 0 {
      q := r;
    } else {
      var q1 := Collects(r, c, t, l, i - 1, tv, lv);
      q := GetsVote(q1, c, t, l, i - 1, tv, lv);
    }
  }

  /** c opens an election, the voters vote for it, and with the last of their votes c takes office. */
  lemma Elect(r: Trace, c: int, t: int, l: Log, tv: int, lv: Log) returns (q: Trace)
    requires Good(r) && 0 <= c < 2 && Is(Now(r).servers[c], r.n, t, l)
    requires Voters(Now(r), 2, Last(r.n), r.n, tv, lv) && tv <= t
    requires |lv| > 0 && AtLeastAsRecent(LastTerm(l), |l| - 1, lv)
    ensures Continues(r, q) && Leading(Now(q).servers[c], r.n, t + 1, l, 0, |l|) && Beside(Now(r), Now(q), c)
    ensures Voters(Now(q), 2, Last(r.n), r.n, t + 1, lv) && OffersAll(Now(q), r.n, c, t + 1, |l| - 1, l)
  {
    hide SysInv, Shaped, IsRun, Campaigns, AtLeastAsRecent, Leading, OffersAll;
    var i := r.n / 2 - 1;
    var q1 := TimesOut(r, c, t, l);
    var q2 := Collects(q1, c, t + 1, l, i, tv, lv);
    q := GetsVote(q2, c, t + 1, l, i, tv, lv);
  }

  // ----- what a leader sends -----

  /** The network holds a request of leader c to p that ships c's log from prev + 1 on. */
  ghost predicate Offers(sys: System, c: int, p: int, t: int, prev: int, l: Log) {
    && 0 <= prev < |l|
    && AppendRequest(AppendArgs(t, c, prev, l[prev].term, l[prev + 1..], 0), p) in sys.net
  }

  ghost predicate OffersAll(sys: System, n: nat, c: int, t: int, prev: int, l: Log) {
    forall p :: 0 <= p < n && p != c ==> Offers(sys, c, p, t, prev, l)
  }

  lemma BroadcastOffer(sys: System, s: Server, n: nat, c: int, p: int, heartBeat: bool, t: int, prev: int, l: Log)
    requires Is(s, n, t, l) && Broadcast(s, c, heartBeat) <= sys.net && 0 <= p < n && p != c
    requires s.nextIndex[p] == prev + 1 && 0 <= prev < |l| && (heartBeat || prev + 1 < |l|)
    ensures Offers(sys, c, p, t, prev, l)
  {
    assert Sends(s, c, p, heartBeat);
    assert AppendRequest(AppendArgsFor(s, c, p), p) in Broadcast(s, c, heartBeat);
  }

  lemma BroadcastOffers(sys: System, s: Server, n: nat, c: int, heartBeat: bool, t: int, prev: int, l: Log)
    requires Leading(s, n, t, l, 0, prev + 1) && Broadcast(s, c, heartBeat) <= sys.net
    requires 0 <= prev < |l| && (heartBeat || prev + 1 < |l|)
    ensures OffersAll(sys, n, c, t, prev, l)
  {
    forall p | 0 <= p < n && p != c ensures Offers(sys, c, p, t, prev, l) {
      BroadcastOffer(sys, s, n, c, p, heartBeat, t, prev, l);
    }
  }

  lemma StartEffect(sys: System, n: nat, c: int, t: int, l: Log, next: int, x: Command)
    requires Shaped(sys) && |sys.servers| == n && 0 <= c < n && Leading(sys.servers[c], n, t, l, 0, next)
    requires 1 <= next <= |l| && l[|l| - 1].index == |l| - 1
    ensures var l', sys' := l + [Entry(x, t, |l|)], DoStart(sys, c, x);
            && Leading(sys'.servers[c], n, t, l', 0, next) && Others(sys, sys', c, c)
            && OffersAll(sys', n, c, t, next - 1, l')
  {
    hide Broadcast;
    BroadcastOffers(DoStart(sys, c, x), Append(sys.servers[c], x), n, c, false, t, next - 1, l + [Entry(x, t, |l|)]);
  }

  /** A client command on a leader. */
  lemma Proposes(r: Trace, c: int, t: int, l: Log, next: int, x: Command) returns (q: Trace)
    requires Good(r) && 0 <= c < r.n && Leading(Now(r).servers[c], r.n, t, l, 0, next)
    requires 1 <= next <= |l| && l[|l| - 1].index == |l| - 1
    ensures var l' := l + [Entry(x, t, |l|)];
            && Continues(r, q) && Leading(Now(q).servers[c], r.n, t, l', 0, next) && Others(Now(r), Now(q), c, c)
            && OffersAll(Now(q), r.n, c, t, next - 1, l')
  {
    StartEffect(Now(r), r.n, c, t, l, next, x);
    hide SysInv, Shaped, IsRun, DoStart, OffersAll, Others;
    q := Do(r, ClientStart(c, x));
  }

  // ----- a leader overwrites a follower whose log differs from index 1 on -----

  ghost predicate Differs(l: Log, f: Log, prev: int) {
    && 0 < prev < |l| && |f| > 0 && l[0] == f[0] == SENTINEL
    && (|f| == 1 || prev < |f|)
    && (forall k :: 1 <= k < |f| ==> f[k].term == 1) && (forall k :: 1 <= k < |l| && |f| > 1 ==> l[k].term > 1)
  }

  /** c leads term t and f, of a term not later, does not hold its log. */
  ghost predicate Rivals(sys: System, n: nat, c: int, f: int, t: int, l: Log, next: int, tf: int, lf: Log) {
    && |sys.servers| == n >= 3 && 0 <= c < n && 0 <= f < n && c != f && 1 < next <= |l|
    && Counts(sys.servers[c], n, t, l, 0) && sys.servers[c].nextIndex[f] == next
    && Is(sys.servers[f], n, tf, lf) && tf <= t && (sys.servers[f].state != Leader || tf < t)
    && Offers(sys, c, f, t, next - 1, l) && Differs(l, lf, next - 1)
  }

  /** The follower after it heard of the leader's term. */
  ghost predicate Follows(s: Server, n: nat, t: int, l: Log, before: Role) {
    Is(s, n, t, l) && s.state != Leader && (before == Follower ==> s.state == Follower)
  }

  /** The leader has backed up to the start for f and has asked again. */
  lemma BacksUp(r: Trace, c: int, f: int, t: int, l: Log, next: int, tf: int, lf: Log) returns (q: Trace)
    requires Good(r) && Rivals(Now(r), r.n, c, f, t, l, next, tf, lf)
    ensures Continues(r, q) && Others(Now(r), Now(q), c, f)
    ensures Follows(Now(q).servers[f], r.n, t, lf, Now(r).servers[f].state)
    ensures Counts(Now(q).servers[c], r.n, t, l, 0) && Offers(Now(q), c, f, t, 0, l)
    ensures Now(q).servers[c].nextIndex == Now(r).servers[c].nextIndex[f := 1]
  {
    hide SysInv, Shaped, IsRun, OnAppendRequest, OnAppendResponse, Broadcast, Differs;
    var prev := next - 1;
    var a := AppendArgs(t, c, prev, l[prev].term, l[prev + 1..], 0);
    GoodShape(r);
    ConflictBacksToOne(Now(r), r.n, c, f, a, t, l, next, tf, lf);
    var (sf, reply) := OnAppendRequest(Now(r).servers[f], a);
    var q1 := Do(r, TakeAppendRequest(f, AppendRequest(a, f)));
    assert Now(q1).servers == Now(r).servers[f := sf];
    assert AppendResponse(a, f, reply) in Now(q1).net;
    var q2 := Do(q1, TakeAppendResponse(c, AppendResponse(a, f, reply)));
    q := Do(q2, HeartBeat(c));
    BroadcastOffer(Now(q), Now(q).servers[c], r.n, c, f, true, t, 0, l);
  }

  lemma ConflictBacksToOne(sys: System, n: nat, c: int, f: int, a: AppendArgs, t: int, l: Log, next: int,
                           tf: int, lf: Log)
    requires Rivals(sys, n, c, f, t, l, next, tf, lf) && sys.servers[c].Valid() && sys.servers[f].Valid()
    requires a == AppendArgs(t, c, next - 1, l[next - 1].term, l[next..], 0)
    ensures var (sf, r) := OnAppendRequest(sys.servers[f], a);
            && Follows(sf, n, t, lf, sys.servers[f].state) && !r.success && r.term <= t
            && var sc := OnAppendResponse(sys.servers[c], c, f, a, r);
               Counts(sc, n, t, l, 0) && sc.nextIndex == sys.servers[c].nextIndex[f := 1]
  {
    hide Offers;
    var prev := next - 1;
    var (sf, r) := OnAppendRequest(sys.servers[f], a);
    if prev < |lf| {
      NoneInTerm(l, |l| - 1);
      RunToOne(lf, prev);
    }
    NothingToCommit(BackUp(sys.servers[c], f, r), n, t, l, c);
  }

  lemma NoneInTerm(l: Log, i: int)
    requires 0 <= i < |l| && forall k :: 1 <= k < |l| ==> l[k].term > 1
    ensures LastInTerm(l, i, 1) == -1
  {
  }

  lemma RunToOne(l: Log, k: int)
    requires 1 <= k < |l| && l[0].term == 0 && forall j :: 1 <= j < |l| ==> l[j].term == 1
    ensures RunStart(l, k, 1) == 1
  {
  }

  ghost function FromStart(t: int, c: int, l: Log): AppendArgs
    requires |l| > 0
  {
    AppendArgs(t, c, 0, l[0].term, l[1..], 0)
  }

  /** f has acknowledged the whole log l to leader c of term t. */
  ghost predicate Acked(sys: System, c: int, f: int, t: int, l: Log) {
    |l| > 0 && AppendResponse(FromStart(t, c, l), f, Refuse(t).(success := true)) in sys.net
  }

  lemma Overwrites(r: Trace, c: int, f: int, t: int, l: Log, next: int, tf: int, lf: Log) returns (q: Trace)
    requires Good(r) && Rivals(Now(r), r.n, c, f, t, l, next, tf, lf)
    ensures Continues(r, q) && Others(Now(r), Now(q), c, f) && Acked(Now(q), c, f, t, l)
    ensures Follows(Now(q).servers[f], r.n, t, l, Now(r).servers[f].state)
    ensures Counts(Now(q).servers[c], r.n, t, l, 0)
    ensures Now(q).servers[c].nextIndex == Now(r).servers[c].nextIndex[f := 1]
  {
    hide SysInv, Shaped, IsRun, OnAppendRequest, Counts;
    var q1 := BacksUp(r, c, f, t, l, next, tf, lf);
    GoodShape(q1);
    var b := FromStart(t, c, l);
    MergeFromStart(Now(q1).servers[f], r.n, t, l, lf, b);
    var (sf, reply) := OnAppendRequest(Now(q1).servers[f], b);
    q := Do(q1, TakeAppendRequest(f, AppendRequest(b, f)));
    assert Now(q).servers == Now(q1).servers[f := sf];
  }

  lemma MergeFromStart(s: Server, n: nat, t: int, l: Log, lf: Log, a: AppendArgs)
    requires Is(s, n, t, lf) && s.state != Leader && s.Valid() && |l| > 1 && |lf| > 0 && l[0] == lf[0] == SENTINEL
    requires |lf| == 1 || (|lf| > 1 && lf[1].term != l[1].term)
    requires a.term == t && a.prevLogIndex == 0 && a.prevLogTerm == 0 && a.entries == l[1..] && a.leaderCommit == 0
    ensures var (s', r) := OnAppendRequest(s, a);
            Follows(s', n, t, l, s.state) && r == Refuse(t).(success := true)
  {
    assert lf[..1] + l[1..] == l;
  }

  ghost predicate AllAcked(sys: System, hi: int, c: int, t: int, l: Log) {
    forall f :: 2 <= f < hi ==> Acked(sys, c, f, t, l)
  }

  lemma StillAcked(sys: System, sys': System, hi: int, c: int, t: int, l: Log)
    requires AllAcked(sys, hi, c, t, l) && sys.net <= sys'.net
    ensures AllAcked(sys', hi, c, t, l)
  {
    assert forall f :: Acked(sys, c, f, t, l) ==> Acked(sys', c, f, t, l);
  }

  /** The leader overwrites the first i voters, one after the other. */
  lemma {:induction false} OverwritesVoters(r: Trace, c: int, t: int, l: Log, next: int, lf: Log, i: nat)
    returns (q: Trace)
    requires Good(r) && 0 <= c < 2 && i <= r.n / 2 && 1 < next <= |l| && Differs(l, lf, next - 1)
    requires Leading(Now(r).servers[c], r.n, t, l, 0, next) && OffersAll(Now(r), r.n, c, t, next - 1, l)
    requires Voters(Now(r), 2, Last(r.n), r.n, t, lf)
    ensures Continues(r, q) && Beside(Now(r), Now(q), c) && AllAcked(Now(q), 2 + i, c, t, l)
    ensures Leading(Now(q).servers[c], r.n, t, l, 2 + i, next)
    ensures Voters(Now(q), 2, 2 + i, r.n, t, l) && Voters(Now(q), 2 + i, Last(r.n), r.n, t, lf)
    decreases i
  {
    hide SysInv, Shaped, IsRun, Differs, Acked;
    if i == 0 {
      q := r;
    } else {
      var f := 1 + i;
      var q1 := OverwritesVoters(r, c, t, l, next, lf, i - 1);
      assert Offers(Now(r), c, f, t, next - 1, l);
      assert Rivals(Now(q1), r.n, c, f, t, l, next, t, lf);
      q := Overwrites(q1, c, f, t, l, next, t, lf);
      StillAcked(Now(q1), Now(q), f, c, t, l);
    }
  }

  // ----- counting acknowledgements -----

  /** The voters below 2 + i are the peers counted. */
  lemma {:induction false} VotersCounted(m: seq<int>, me: int, k: int, i: nat, upTo: nat)
    requires upTo <= |m| && 0 <= me < 2 && 1 <= k <= 2
    requires forall p :: 0 <= p < |m| ==> m[p] == if 2 <= p < 2 + i then 2 else 0
    ensures MatchCount(m, me, k, upTo) == if upTo <= 2 then 0 else if upTo <= 2 + i then upTo - 2 else i
    decreases upTo
  {
    if upTo > 0 {
      VotersCounted(m, me, k, i, upTo - 1);
    }
  }

  /** With nothing matched, one peer of three or more is no majority. */
  lemma NothingToCommit(s: Server, n: nat, t: int, l: Log, me: int)
    requires s.Valid() && n >= 3 && Counts(s, n, t, l, 0)
    ensures Commit(s, me) == s
  {
    NothingFrom(s, n, t, l, me, 1);
  }

  lemma {:induction false} NothingFrom(s: Server, n: nat, t: int, l: Log, me: int, k: int)
    requires n >= 3 && Counts(s, n, t, l, 0) && 1 <= k
    ensures CommitFrom(s, me, k, 0) == 0
    decreases |s.log| - k
  {
    if k < |s.log| {
      NobodyCounted(s.matchIndex, me, k, n);
      NothingFrom(s, n, t, l, me, k + 1);
    }
  }

  lemma {:induction false} NobodyCounted(m: seq<int>, me: int, k: int, upTo: nat)
    requires upTo <= |m| && 1 <= k && forall p :: 0 <= p < |m| ==> m[p] == 0
    ensures MatchCount(m, me, k, upTo) == 0
    decreases upTo
  {
    if upTo > 0 {
      NobodyCounted(m, me, k, upTo - 1);
    }
  }

  /** A log of three whose last entry is of term t and the one before is not. */
  ghost predicate Tops(l: Log, t: int) {
    |l| == 3 && l[2].term == t && l[1].term != t
  }

  /** The acknowledgement of the i-th voter: the last one needed for a majority commits index 2. */
  lemma SuccessEffect(s: Server, n: nat, c: int, i: nat, t: int, l: Log, a: AppendArgs, reply: AppendReply)
    requires s.Valid() && Counts(s, n, t, l, i) && 0 <= c < 2 && i < n / 2 && n >= 3 && Tops(l, t)
    requires a.prevLogIndex + |a.entries| == 2 && reply.success && reply.term <= t
    ensures var s' := OnAppendResponse(s, c, 2 + i, a, reply);
            && (i + 1 < n / 2 ==> Counts(s', n, t, l, i + 1))
            && (i + 1 == n / 2 ==> HasApplied(s', l, 0))
  {
    var f := 2 + i;
    var s1 := s.(nextIndex := s.nextIndex[f := Max(s.nextIndex[f], 3)], matchIndex := s.matchIndex[f := 2]);
    VotersCounted(s1.matchIndex, c, 2, i + 1, n);
    assert CanCommit(s1, c, 2) <==> i + 1 == n / 2;
    assert !CanCommit(s1, c, 1);
    var best := if CanCommit(s1, c, 2) then 2 else 0;
    assert CommitFrom(s1, c, 3, best) == best;
    assert CommitFrom(s1, c, 2, 0) == best;
    assert CommitFrom(s1, c, 1, 0) == best;
    assert OnAppendResponse(s, c, f, a, reply) == s1.(commitIndex := best);
  }

  /** Everything up to index 2 is committed and everything up to k applied. */
  ghost predicate HasApplied(s: Server, l: Log, k: int) {
    s.log == l && s.commitIndex == 2 && s.lastApplied == k
  }

  lemma TakesReply(r: Trace, c: int, i: nat, t: int, l: Log, ta: int, la: Log) returns (q: Trace)
    requires Good(r) && 0 <= c < 2 && i < r.n / 2 && Counts(Now(r).servers[c], r.n, t, l, i) && Tops(l, t)
    requires ta <= t && |la| == 3 && Acked(Now(r), c, 2 + i, ta, la)
    ensures Continues(r, q) && Others(Now(r), Now(q), c, c)
    ensures i + 1 < r.n / 2 ==> Counts(Now(q).servers[c], r.n, t, l, i + 1)
    ensures i + 1 == r.n / 2 ==> HasApplied(Now(q).servers[c], l, 0)
  {
    hide SysInv, Shaped, IsRun, OnAppendResponse, Counts, HasApplied, Tops;
    GoodShape(r);
    var a, reply := FromStart(ta, c, la), Refuse(ta).(success := true);
    SuccessEffect(Now(r).servers[c], r.n, c, i, t, l, a, reply);
    q := Do(r, TakeAppendResponse(c, AppendResponse(a, 2 + i, reply)));
  }

  lemma {:induction false} TakesReplies(r: Trace, c: int, i: nat, t: int, l: Log, ta: int, la: Log) returns (q: Trace)
    requires Good(r) && 0 <= c < 2 && i < r.n / 2 && Counts(Now(r).servers[c], r.n, t, l, 0) && Tops(l, t)
    requires ta <= t && |la| == 3 && AllAcked(Now(r), Last(r.n), c, ta, la)
    ensures Continues(r, q) && Others(Now(r), Now(q), c, c) && Counts(Now(q).servers[c], r.n, t, l, i)
    ensures AllAcked(Now(q), Last(r.n), c, ta, la)
    decreases i
  {
    hide SysInv, Shaped, IsRun, Counts, Tops, Acked;
    if i == 0 {
      q := r;
    } else {
      var q1 := TakesReplies(r, c, i - 1, t, l, ta, la);
      assert Acked(Now(q1), c, 1 + i, ta, la);
      q := TakesReply(q1, c, i - 1, t, l, ta, la);
      StillAcked(Now(q1), Now(q), Last(r.n), c, ta, la);
    }
  }

  /** Action j of r hands command x to the service of peer i at index k. */
  ghost predicate AppliedBy(r: Trace, j: int, i: int, k: int, x: Command) {
    && 0 <= j < |r.acts| && |r.states| == |r.acts| + 1 && r.acts[j] == ApplyNext(i)
    && 0 <= i < |r.states[j].servers|
    && var s := r.states[j].servers[i]; s.lastApplied + 1 == k && 0 <= k < |s.log| && s.log[k].command == x
  }

  lemma Applies(r: Trace, c: int, l: Log, k: int) returns (q: Trace)
    requires Good(r) && 0 <= c < r.n && HasApplied(Now(r).servers[c], l, k) && 0 <= k < 2 && |l| == 3
    ensures Continues(r, q) && Others(Now(r), Now(q), c, c) && HasApplied(Now(q).servers[c], l, k + 1)
    ensures |q.acts| > 0 && AppliedBy(q, |q.acts| - 1, c, k + 1, l[k + 1].command)
  {
    hide SysInv, Shaped;
    q := Do(r, ApplyNext(c));
  }

  /** The leader takes the voters' acknowledgements, of whatever term, commits its log of three and
      applies it. */
  lemma CommitsAndApplies(r: Trace, c: int, t: int, l: Log, ta: int, la: Log) returns (q: Trace)
    requires Good(r) && 0 <= c < 2 && Counts(Now(r).servers[c], r.n, t, l, 0) && Tops(l, t)
    requires ta <= t && |la| == 3 && AllAcked(Now(r), Last(r.n), c, ta, la)
    ensures Continues(r, q) && Others(Now(r), Now(q), c, c)
    ensures |q.acts| > 0 && AppliedBy(q, |q.acts| - 1, c, 2, l[2].command)
  {
    hide SysInv, Shaped, IsRun, AppliedBy, Counts, HasApplied;
    var i := r.n / 2 - 1;
    q := TakesReplies(r, c, i, t, l, ta, la);
    assert Acked(Now(q), c, 2 + i, ta, la);
    q := TakesReply(q, c, i, t, l, ta, la);
    q := Applies(q, c, l, 0);
    q := Applies(q, c, l, 1);
  }

  // ----- the run -----

  const A1: Entry := Entry(Payload(1), 1, 1)
  const A2: Entry := Entry(Payload(1), 1, 2)
  const B1: Entry := Entry(Payload(2), 2, 1)
  const C2: Entry := Entry(Payload(3), 5, 2)
  const D2: Entry := Entry(Payload(4), 6, 2)

  /** Where the two rivals and the voters stand. */
  ghost predicate Scene(sys: System, n: nat, t0: int, l0: Log, t1: int, l1: Log, tv: int, lv: Log) {
    && |sys.servers| == n >= 3
    && Is(sys.servers[0], n, t0, l0) && Is(sys.servers[1], n, t1, l1) && Voters(sys, 2, Last(n), n, tv, lv)
  }

  lemma InitialScene(n: nat)
    requires n >= 3
    ensures Scene(Initial(n), n, 0, [SENTINEL], 0, [SENTINEL], 0, [SENTINEL])
  {
    forall i | 0 <= i < n ensures Is(Initial(n).servers[i], n, 0, [SENTINEL]) && Initial(n).servers[i] == Fresh(n) {
    }
  }

  /** Term 1: peer 0 leads, appends two entries and reaches nobody. */
  lemma FirstLeaderAlone(n: nat) returns (r: Trace)
    requires n >= 3
    ensures Good(r) && r.n == n && Scene(Now(r), n, 1, [SENTINEL, A1, A2], 0, [SENTINEL], 1, [SENTINEL])
  {
    hide SysInv, Shaped, IsRun, OffersAll, Enabled, Exec;
    var l := [SENTINEL];
    InitialScene(n);
    r := Begin(n);
    r := Elect(r, 0, 0, l, 0, l);
    r := Proposes(r, 0, 1, l, 1, Payload(1));
    assert l + [A1] == [SENTINEL, A1];
    r := Proposes(r, 0, 1, [SENTINEL, A1], 1, Payload(1));
    assert [SENTINEL, A1] + [A2] == [SENTINEL, A1, A2];
  }

  /** Term 2: peer 1 leads, appends one entry and reaches nobody. */
  lemma SecondLeaderAlone(n: nat) returns (r: Trace)
    requires n >= 3
    ensures Good(r) && r.n == n && Scene(Now(r), n, 1, [SENTINEL, A1, A2], 2, [SENTINEL, B1], 2, [SENTINEL])
  {
    hide SysInv, Shaped, IsRun, OffersAll, Enabled, Exec;
    var l := [SENTINEL];
    r := FirstLeaderAlone(n);
    r := TimesOut(r, 1, 0, l);
    r := Elect(r, 1, 1, l, 1, l);
    r := Proposes(r, 1, 2, l, 1, Payload(2));
    assert l + [B1] == [SENTINEL, B1];
  }

  /** Term 3: peer 0 leads again and overwrites the voters, whose replies stay in the network. */
  lemma RepliesLeftBehind(n: nat) returns (r: Trace)
    requires n >= 3
    ensures Good(r) && r.n == n
    ensures Scene(Now(r), n, 3, [SENTINEL, A1, A2], 2, [SENTINEL, B1], 3, [SENTINEL, A1, A2])
    ensures AllAcked(Now(r), Last(n), 0, 3, [SENTINEL, A1, A2])
  {
    hide SysInv, Shaped, IsRun, Enabled, Exec, OffersAll, AllAcked;
    var la := [SENTINEL, A1, A2];
    r := SecondLeaderAlone(n);
    r := TimesOut(r, 0, 1, la);
    r := Elect(r, 0, 2, la, 2, [SENTINEL]);
    r := OverwritesVoters(r, 0, 3, la, 3, [SENTINEL], n / 2);
  }

  /** Term 4: peer 1 leads again and overwrites peer 0. */
  lemma FirstLeaderOverwritten(n: nat) returns (r: Trace)
    requires n >= 3
    ensures Good(r) && r.n == n
    ensures Scene(Now(r), n, 4, [SENTINEL, B1], 4, [SENTINEL, B1], 4, [SENTINEL, A1, A2])
    ensures AllAcked(Now(r), Last(n), 0, 3, [SENTINEL, A1, A2])
  {
    hide SysInv, Shaped, IsRun, Enabled, Exec, Acked;
    var la, lb := [SENTINEL, A1, A2], [SENTINEL, B1];
    var r0 := RepliesLeftBehind(n);
    r := TimesOut(r0, 1, 2, lb);
    r := Elect(r, 1, 3, lb, 3, la);
    assert Rivals(Now(r), n, 1, 0, 4, lb, 2, 3, la);
    r := Overwrites(r, 1, 0, 4, lb, 2, 3, la);
    StillAcked(Now(r0), Now(r), Last(n), 0, 3, la);
  }

  /** Term 5: peer 0 leads, appends, takes the replies of term 3 for acknowledgements and applies. */
  lemma StaleRepliesCount(n: nat) returns (r: Trace, j: int)
    requires n >= 3
    ensures Good(r) && r.n == n && |Now(r).servers| == n && AppliedBy(r, j, 0, 2, Payload(3))
    ensures Is(Now(r).servers[1], n, 4, [SENTINEL, B1]) && Voters(Now(r), 2, Last(n), n, 5, [SENTINEL, A1, A2])
  {
    hide SysInv, Shaped, IsRun, OffersAll, Enabled, Exec, Acked;
    var la, lb := [SENTINEL, A1, A2], [SENTINEL, B1];
    var r0 := FirstLeaderOverwritten(n);
    r := Elect(r0, 0, 4, lb, 4, la);
    r := Proposes(r, 0, 5, lb, 2, Payload(3));
    assert lb + [C2] == [SENTINEL, B1, C2];
    StillAcked(Now(r0), Now(r), Last(n), 0, 3, la);
    r := CommitsAndApplies(r, 0, 5, [SENTINEL, B1, C2], 3, la);
    j := |r.acts| - 1;
  }

  /** Term 6: peer 1 leads with the votes of the voters, which never held peer 0's entry, and appends
      another, which they acknowledge. */
  lemma RivalReplicates(n: nat) returns (r: Trace, j: int)
    requires n >= 3
    ensures Good(r) && r.n == n && |Now(r).servers| == n && AppliedBy(r, j, 0, 2, Payload(3))
    ensures Counts(Now(r).servers[1], n, 6, [SENTINEL, B1, D2], 0)
    ensures AllAcked(Now(r), Last(n), 1, 6, [SENTINEL, B1, D2])
  {
    hide SysInv, Shaped, IsRun, OffersAll, Enabled, Exec, Acked;
    var la, lb, ld := [SENTINEL, A1, A2], [SENTINEL, B1], [SENTINEL, B1, D2];
    r, j := StaleRepliesCount(n);
    r := TimesOut(r, 1, 4, lb);
    r := Elect(r, 1, 5, lb, 5, la);
    r := Proposes(r, 1, 6, lb, 2, Payload(4));
    assert lb + [D2] == ld;
    r := OverwritesVoters(r, 1, 6, ld, 2, la, n / 2);
  }

  /** Actions j and k of a run hand different commands to two services at one index. */
  ghost predicate Disagree(states: seq<System>, acts: seq<Action>, j: int, k: int) {
    && 0 <= j <= k < |acts| < |states| && acts[j].ApplyNext? && acts[k].ApplyNext?
    && 0 <= acts[j].i < |states[j].servers| && 0 <= acts[k].i < |states[k].servers|
    && var s, t := states[j].servers[acts[j].i], states[k].servers[acts[k].i];
       var x := s.lastApplied + 1;
       && t.lastApplied + 1 == x && 1 <= x < |s.log| && x < |t.log|
       && s.log[x].command != t.log[x].command
  }

  /** In every cluster of three or more, some run of the program as it is makes peers 0 and 1 apply
      different commands at index 2. */
  lemma StaleReplyBreaksSafety(n: nat) returns (states: seq<System>, acts: seq<Action>, j: nat, k: nat)
    requires n >= 3
    ensures IsRun(n, states, acts, false) && j < k < |acts|
    ensures acts[j] == ApplyNext(0) && acts[k] == ApplyNext(1)
    ensures Disagree(states, acts, j, k) && states[j].servers[0].lastApplied == 1
  {
    hide SysInv, Shaped, Enabled, Exec, Acked;
    var ld := [SENTINEL, B1, D2];
    var r, j0 := RivalReplicates(n);
    var q := CommitsAndApplies(r, 1, 6, ld, 6, ld);
    states, acts, j, k := q.states, q.acts, j0, |q.acts| - 1;
    assert q.states[j] == r.states[j] && q.acts[j] == r.acts[j];
  }

  // ----- and nothing else breaks it -----

  ghost predicate CountsStale(states: seq<System>, acts: seq<Action>, k: int) {
    && 0 <= k < |acts| < |states| && acts[k].TakeAppendResponse? && acts[k].m.AppendResponse?
    && 0 <= acts[k].i < |states[k].servers| && IsStale(states[k].servers[acts[k].i], acts[k].m)
  }

  /** In any run of the program as it is, peers that apply different commands at one index do so only
      after a leader counted a stale reply. */
  lemma OnlyStaleRepliesBreakSafety(n: nat, states: seq<System>, acts: seq<Action>, j: nat, k: nat)
    requires IsRun(n, states, acts, false) && j <= k < |acts| && Disagree(states, acts, j, k)
    ensures exists x :: x < k && CountsStale(states, acts, x)
  {
    if forall x :: x < k ==> !CountsStale(states, acts, x) {
      var states', acts' := states[..k + 2], acts[..k + 1];
      forall x | 0 <= x < |acts'| ensures StepAt(states', acts', x, true) {
        assert StepAt(states, acts, x, false);
        if x < k {
          assert !CountsStale(states, acts, x);
        }
      }
      StateMachineSafety(n, states', acts', j, k);
    }
  }
}
