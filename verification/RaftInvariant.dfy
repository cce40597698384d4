/** Every small step of the protocol keeps `Inv`. */
module RaftInvariant {
  import opened RaftTypes
  import opened Quorums
  import opened RaftProtocol

  // ----- facts about logs and histories -----

  /** Log matching, at the level of any two rooted logs. */
  lemma RootedAgree(reigns: map<int, Reign>, a: Log, b: Log, k: int)
    requires GoodLog(reigns, a) && GoodLog(reigns, b)
    requires 0 <= k < |a| && k < |b| && a[k].term == b[k].term
    ensures a[..k + 1] == b[..k + 1]
  {
    if k == 0 {
      assert a[..1] == [a[0]] && b[..1] == [b[0]];
    } else {
      assert RootedAt(reigns, a, k) && RootedAt(reigns, b, k);
      var l := reigns[a[k].term].log;
      assert a[..k + 1] == l[..k + 1];
      assert b[..k + 1] == l[..k + 1];
    }
  }

  /** What one peer may know only grows. */
  ghost predicate Grows(reigns: map<int, Reign>, reigns': map<int, Reign>) {
    forall t :: t in reigns ==>
      && t in reigns'
      && reigns'[t].leader == reigns[t].leader && reigns'[t].start == reigns[t].start
      && reigns'[t].voters == reigns[t].voters && reigns[t].log <= reigns'[t].log
  }

  ghost predicate AcksGrow(acks: map<(int, int), nat>, acks': map<(int, int), nat>) {
    forall i, t :: Ack(acks, i, t) <= Ack(acks', i, t)
  }

  lemma PrefixTrans(a: Log, b: Log, c: Log)
    requires a <= b && b <= c
    ensures a <= c
  {
    assert a == b[..|a|] && b == c[..|b|];
    assert a == c[..|a|];
  }

  lemma RootedGrows(reigns: map<int, Reign>, reigns': map<int, Reign>, l: Log)
    requires Rooted(reigns, l) && Grows(reigns, reigns')
    ensures Rooted(reigns', l)
  {
    forall k ensures RootedAt(reigns', l, k) {
      assert RootedAt(reigns, l, k);
      if 1 <= k < |l| {
        PrefixTrans(l[..k + 1], reigns[l[k].term].log, reigns'[l[k].term].log);
      }
    }
  }

  lemma CommittedGrows(n: nat, acks: map<(int, int), nat>, acks': map<(int, int), nat>,
                       reigns: map<int, Reign>, reigns': map<int, Reign>, t: int, m: nat)
    requires Committed(n, acks, reigns, t, m)
    requires Grows(reigns, reigns') && AcksGrow(acks, acks')
    ensures Committed(n, acks', reigns', t, m)
    ensures reigns'[t].log[..m] == reigns[t].log[..m]
  {
    forall i | i in Ackers(n, acks, t, m) ensures i in Ackers(n, acks', t, m) {
      assert Ack(acks, i, t) <= Ack(acks', i, t);
    }
    BiggerIsQuorum(n, Ackers(n, acks, t, m), Ackers(n, acks', t, m));
  }

  lemma CoveredGrows(n: nat, acks: map<(int, int), nat>, acks': map<(int, int), nat>,
                     reigns: map<int, Reign>, reigns': map<int, Reign>, p: Log, hi: int, hi': int)
    requires Covered(n, acks, reigns, p, hi) && hi <= hi'
    requires Grows(reigns, reigns') && AcksGrow(acks, acks')
    ensures Covered(n, acks', reigns', p, hi')
  {
    if |p| > 1 {
      var t: int, m: nat :| t <= hi && Committed(n, acks, reigns, t, m) && p <= reigns[t].log[..m];
      CommittedGrows(n, acks, acks', reigns, reigns', t, m);
    }
  }

  lemma ChosenGrows(n: nat, acks: map<(int, int), nat>, acks': map<(int, int), nat>,
                    reigns: map<int, Reign>, reigns': map<int, Reign>, k: int, x: Command)
    requires Chosen(n, acks, reigns, k, x)
    requires Grows(reigns, reigns') && AcksGrow(acks, acks')
    ensures Chosen(n, acks', reigns', k, x)
  {
    var t: int, m: nat :| Committed(n, acks, reigns, t, m) && 0 <= k < m && reigns[t].log[k].command == x;
    CommittedGrows(n, acks, acks', reigns, reigns', t, m);
    assert reigns'[t].log[..m][k] == reigns[t].log[..m][k];
  }

  lemma AppendGrows(strict: bool, n: nat, acks: map<(int, int), nat>, acks': map<(int, int), nat>,
                    reigns: map<int, Reign>, reigns': map<int, Reign>, a: AppendArgs)
    requires AppendOK(strict, n, reigns, acks, a)
    requires Grows(reigns, reigns') && AcksGrow(acks, acks')
    ensures AppendOK(strict, n, reigns', acks', a)
  {
    var l, l' := reigns[a.term].log, reigns'[a.term].log;
    var e := a.prevLogIndex + 1 + |a.entries|;
    assert l == l'[..|l|];
    assert l'[a.prevLogIndex + 1..e] == l[a.prevLogIndex + 1..e];
    if strict {
      CoveredGrows(n, acks, acks', reigns, reigns', l[..a.leaderCommit + 1], a.term, a.term);
      assert l'[..a.leaderCommit + 1] == l[..a.leaderCommit + 1];
    }
  }

  lemma NetGrows(strict: bool, n: nat, net: set<Message>, bids: map<(int, int), Log>, bids': map<(int, int), Log>,
                 grants: set<(int, int, int)>, grants': set<(int, int, int)>,
                 acks: map<(int, int), nat>, acks': map<(int, int), nat>,
                 reigns: map<int, Reign>, reigns': map<int, Reign>)
    requires NetOK(strict, n, net, bids, grants, reigns, acks)
    requires Grows(reigns, reigns') && AcksGrow(acks, acks') && grants <= grants'
    requires forall b :: b in bids ==> b in bids' && bids'[b] == bids[b]
    ensures NetOK(strict, n, net, bids', grants', reigns', acks')
  {
    forall m | m in net ensures MessageOK(strict, n, bids', grants', reigns', acks', m) {
      assert MessageOK(strict, n, bids, grants, reigns, acks, m);
      match m
      case VoteRequest(a, _) =>
      case VoteResponse(_, _, _) =>
      case AppendRequest(a, _) => AppendGrows(strict, n, acks, acks', reigns, reigns', a);
      case AppendResponse(a, from, _) =>
        AppendGrows(strict, n, acks, acks', reigns, reigns', a);
        assert Ack(acks, from, a.term) <= Ack(acks', from, a.term);
    }
  }

  lemma GrowsRefl(reigns: map<int, Reign>, acks: map<(int, int), nat>)
    ensures Grows(reigns, reigns) && AcksGrow(acks, acks)
  {
  }

  // ----- leader completeness -----

  /** Figure 3, leader completeness: what is committed in term t is in the log every later leader
      starts with. */
  lemma {:induction false} LeaderCompleteness(p: Proto, t: int, m: nat, u: int)
    requires ReignsOK(p.term, p.reigns, p.grants) && BidsOK(p.term, p.bids, p.reigns)
    requires GrantsOK(p.term, p.vote, p.grants, p.bids)
    requires VotesSafe(p.grants, p.bids, p.acks, p.reigns)
    requires Committed(|p.term|, p.acks, p.reigns, t, m)
    requires t < u && u in p.reigns
    ensures p.reigns[t].log[..m] <= p.reigns[u].start
    decreases u - t
  {
    forall w | t < w < u && w in p.reigns ensures p.reigns[t].log[..m] <= p.reigns[w].start {
      LeaderCompleteness(p, t, m, w);
    }
    LeaderHasWhatVotersAcked(p, t, m, u);
  }

  lemma LeaderHasWhatVotersAcked(p: Proto, t: int, m: nat, u: int)
    requires ReignsOK(p.term, p.reigns, p.grants) && BidsOK(p.term, p.bids, p.reigns)
    requires GrantsOK(p.term, p.vote, p.grants, p.bids)
    requires VotesSafe(p.grants, p.bids, p.acks, p.reigns)
    requires Committed(|p.term|, p.acks, p.reigns, t, m)
    requires t < u && u in p.reigns && Kept(p.reigns, t, u, p.reigns[t].log[..m])
    ensures p.reigns[t].log[..m] <= p.reigns[u].start
  {
    hide VotesSafe, BidsOK, GrantsOK, Kept;
    var v := SomeVoterAcked(p, t, m, u);
    VoterPassedItOn(p, v, t, m, u);
  }

  /** The majority that accepted and the majority that voted share a peer. */
  lemma SomeVoterAcked(p: Proto, t: int, m: nat, u: int) returns (v: int)
    requires ReignsOK(p.term, p.reigns, p.grants) && Committed(|p.term|, p.acks, p.reigns, t, m) && u in p.reigns
    ensures v in p.reigns[u].voters && Ack(p.acks, v, t) >= m
  {
    assert ReignOK(p.term, p.reigns, p.grants, u);
    hide ReignsOK, ReignOK, Quorum;
    v := QuorumsMeet(|p.term|, Ackers(|p.term|, p.acks, t, m), p.reigns[u].voters);
  }

  /** What a voter of a leader had accepted is in the log that leader started with. */
  lemma VoterPassedItOn(p: Proto, v: int, t: int, m: nat, u: int)
    requires ReignsOK(p.term, p.reigns, p.grants) && BidsOK(p.term, p.bids, p.reigns)
    requires GrantsOK(p.term, p.vote, p.grants, p.bids) && VotesSafe(p.grants, p.bids, p.acks, p.reigns)
    requires t < u && u in p.reigns && v in p.reigns[u].voters && t in p.reigns
    requires 1 <= m <= Ack(p.acks, v, t) && m <= |p.reigns[t].log| && p.reigns[t].log[m - 1].term == t
    requires Kept(p.reigns, t, u, p.reigns[t].log[..m])
    ensures p.reigns[t].log[..m] <= p.reigns[u].start
  {
    var c := p.reigns[u].leader;
    VoterGranted(p, v, u);
    hide ReignsOK, Kept;
    assert VoteSafeAt(p.grants, p.bids, p.acks, p.reigns, v, u, c, t, m);
    hide VotesSafe;
  }

  lemma VoterGranted(p: Proto, v: int, u: int)
    requires ReignsOK(p.term, p.reigns, p.grants) && BidsOK(p.term, p.bids, p.reigns)
    requires GrantsOK(p.term, p.vote, p.grants, p.bids) && u in p.reigns && v in p.reigns[u].voters
    ensures var c := p.reigns[u].leader;
            (v, u, c) in p.grants && (c, u) in p.bids && p.bids[(c, u)] == p.reigns[u].start
  {
    assert ReignOK(p.term, p.reigns, p.grants, u);
    hide ReignsOK, GoodLog;
    assert Leads(p.reigns, p.reigns[u].leader, u);
  }

  /** A covered prefix is in the log of the leader of the bounding term. */
  lemma CoveredInReign(p: Proto, q: Log, t: int)
    requires ReignsOK(p.term, p.reigns, p.grants) && BidsOK(p.term, p.bids, p.reigns)
    requires GrantsOK(p.term, p.vote, p.grants, p.bids)
    requires VotesSafe(p.grants, p.bids, p.acks, p.reigns)
    requires Covered(|p.term|, p.acks, p.reigns, q, t) && t in p.reigns && |q| > 1
    ensures q <= p.reigns[t].log
  {
    var s: int, m: nat :| s <= t && Committed(|p.term|, p.acks, p.reigns, s, m) && q <= p.reigns[s].log[..m];
    if s < t {
      LeaderCompleteness(p, s, m, t);
      assert ReignOK(p.term, p.reigns, p.grants, t);
      PrefixTrans(p.reigns[s].log[..m], p.reigns[t].start, p.reigns[t].log);
    }
    PrefixTrans(q, p.reigns[s].log[..m], p.reigns[t].log);
  }

  // ----- steps that touch one column -----

  lemma BumpKeepsInv(p: Proto, i: int, t: int)
    requires Inv(p) && 0 <= i < |p.term| && t > p.term[i] && p.role[i] == Follower
    ensures Inv(Bump(p, i, t))
  {
    LaterTermKeepsAcks(p, i, t);
    if p.strict {
      LaterTermKeepsCommit(p, i, t);
    }
    LaterTermKeepsReigns(p, i, t);
    LaterTermKeepsVotes(p, i, t);
    LaterTermKeepsRoles(p, i, t);
    hide LogsOK, ReignsOK, RolesOK, GrantsOK, BidsOK, BallotsOK, NetOK, MatchOK, AcksOK, AckKept, VotesSafe,
         CommitOK, AppliedOK;
  }

  lemma LaterTermKeepsVotes(p: Proto, i: int, t: int)
    requires GrantsOK(p.term, p.vote, p.grants, p.bids) && BidsOK(p.term, p.bids, p.reigns)
    requires BallotsOK(p.term, p.ballots, p.grants)
    requires 0 <= i < |p.term| && t > p.term[i]
    ensures GrantsOK(p.term[i := t], p.vote[i := -1], p.grants, p.bids)
    ensures BidsOK(p.term[i := t], p.bids, p.reigns)
    ensures BallotsOK(p.term[i := t], p.ballots, p.grants)
  {
  }

  lemma LaterTermKeepsRoles(p: Proto, i: int, t: int)
    requires RolesOK(p.term, p.vote, p.role, p.log, p.bids, p.reigns)
    requires LogsOK(p.term, p.log, p.reigns) && (p.strict ==> MatchOK(p.term, p.role, p.matched, p.acks))
    requires AcksOK(p.term, p.role, p.log, p.acks, p.reigns)
    requires 0 <= i < |p.term| && t > p.term[i] && p.role[i] == Follower
    ensures RolesOK(p.term[i := t], p.vote[i := -1], p.role, p.log, p.bids, p.reigns)
    ensures LogsOK(p.term[i := t], p.log, p.reigns)
    ensures p.strict ==> MatchOK(p.term[i := t], p.role, p.matched, p.acks)
    ensures AcksOK(p.term[i := t], p.role, p.log, p.acks, p.reigns)
  {
  }

  lemma LaterTermKeepsReigns(p: Proto, i: int, t: int)
    requires ReignsOK(p.term, p.reigns, p.grants) && 0 <= i < |p.term| && t > p.term[i]
    ensures ReignsOK(p.term[i := t], p.reigns, p.grants)
  {
    forall s | s in p.reigns ensures ReignOK(p.term[i := t], p.reigns, p.grants, s) {
      assert ReignOK(p.term, p.reigns, p.grants, s);
    }
  }

  /** A later term only strengthens the proviso under which a peer's log is bound. */
  lemma LaterTermKeepsAcks(p: Proto, i: int, t: int)
    requires AckKept(p.term, p.log, p.acks, p.reigns) && 0 <= i < |p.term| && t > p.term[i]
    ensures AckKept(p.term[i := t], p.log, p.acks, p.reigns)
  {
    var term' := p.term[i := t];
    forall j, s, m: nat ensures AckKeptAt(term', p.log, p.acks, p.reigns, j, s, m) {
      assert AckKeptAt(p.term, p.log, p.acks, p.reigns, j, s, m);
      if 0 <= j < |p.term| && s in p.reigns && m <= |p.reigns[s].log|
         && Kept(p.reigns, s, term'[j] + 1, p.reigns[s].log[..m]) {
        assert Kept(p.reigns, s, p.term[j] + 1, p.reigns[s].log[..m]);
      }
    }
  }

  lemma LaterTermKeepsCommit(p: Proto, i: int, t: int)
    requires CommitOK(p.term, p.log, p.commit, p.acks, p.reigns) && 0 <= i < |p.term| && t > p.term[i]
    ensures CommitOK(p.term[i := t], p.log, p.commit, p.acks, p.reigns)
  {
    var term' := p.term[i := t];
    GrowsRefl(p.reigns, p.acks);
    forall j | 0 <= j < |term'| ensures CommitAt(term', p.log, p.commit, p.acks, p.reigns, j) {
      assert CommitAt(p.term, p.log, p.commit, p.acks, p.reigns, j);
      CoveredGrows(|p.term|, p.acks, p.acks, p.reigns, p.reigns, p.log[j][..p.commit[j] + 1], p.term[j], term'[j]);
    }
  }

  lemma SetRoleKeepsInv(p: Proto, i: int, r: Role)
    requires Inv(p) && 0 <= i < |p.term|
    requires r == Follower ||
             (r == Candidate && p.vote[i] == i && (i, p.term[i]) in p.bids && p.bids[(i, p.term[i])] == p.log[i]
              && !Leads(p.reigns, i, p.term[i]))
    ensures Inv(SetRole(p, i, r))
  {
    hide LogsOK, ReignsOK, GrantsOK, BidsOK, BallotsOK, NetOK, AckKept, VotesSafe, CommitOK, AppliedOK;
    var q := SetRole(p, i, r);
    assert RolesOK(q.term, q.vote, q.role, q.log, q.bids, q.reigns);
    assert p.strict ==> MatchOK(q.term, q.role, q.matched, q.acks);
    assert AcksOK(q.term, q.role, q.log, q.acks, q.reigns);
  }

  lemma SendKeepsInv(p: Proto, ms: set<Message>)
    requires Inv(p)
    requires forall m :: m in ms ==> MessageOK(p.strict, |p.term|, p.bids, p.grants, p.reigns, p.acks, m)
    ensures Inv(Send(p, ms))
  {
  }

  lemma SetCommitKeepsInv(p: Proto, i: int, k: int)
    requires Inv(p) && 0 <= i < |p.term|
    requires p.strict ==> 0 <= k < |p.log[i]| && Covered(|p.term|, p.acks, p.reigns, p.log[i][..k + 1], p.term[i])
    ensures Inv(SetCommit(p, i, k))
  {
    hide LogsOK, ReignsOK, RolesOK, GrantsOK, BidsOK, BallotsOK, NetOK, MatchOK, AcksOK, AckKept, VotesSafe, AppliedOK;
    var q := SetCommit(p, i, k);
    forall j | p.strict && 0 <= j < |q.term| ensures CommitAt(q.term, q.log, q.commit, q.acks, q.reigns, j) {
      assert CommitAt(p.term, p.log, p.commit, p.acks, p.reigns, j);
    }
  }

  lemma SetMatchKeepsInv(p: Proto, i: int, ms: seq<int>)
    requires Inv(p) && 0 <= i < |p.term| && |ms| == |p.term|
    requires p.strict && p.role[i] == Leader ==>
               forall v :: 0 <= v < |ms| && v != i && ms[v] > 0 ==> Ack(p.acks, v, p.term[i]) >= ms[v] + 1
    ensures Inv(SetMatch(p, i, ms))
  {
    var q := SetMatch(p, i, ms);
    assert p.strict ==> MatchOK(q.term, q.role, q.matched, q.acks);
  }

  lemma DeliverKeepsInv(p: Proto, i: int, k: int)
    requires Inv(p) && 0 <= i < |p.term| && 1 <= k <= p.commit[i] && k < |p.log[i]|
    ensures Inv(Deliver(p, i, k))
  {
    if p.strict {
      CommittedIsChosen(p, i, k);
    }
  }

  lemma CommittedIsChosen(p: Proto, i: int, k: int)
    requires CommitOK(p.term, p.log, p.commit, p.acks, p.reigns) && 0 <= i < |p.term| && 1 <= k <= p.commit[i]
    ensures Chosen(|p.term|, p.acks, p.reigns, k, p.log[i][k].command)
  {
    var n := |p.term|;
    var l := p.log[i][..p.commit[i] + 1];
    assert CommitAt(p.term, p.log, p.commit, p.acks, p.reigns, i);
    var t: int, m: nat :| t <= p.term[i] && Committed(n, p.acks, p.reigns, t, m) && l <= p.reigns[t].log[..m];
    assert l[k] == p.reigns[t].log[k];
  }

  // ----- elections -----

  lemma NominateKeepsInv(p: Proto, i: int)
    requires Inv(p) && 0 <= i < |p.term| && 1 <= p.term[i] && LastTerm(p.log[i]) < p.term[i]
    requires (i, p.term[i]) !in p.bids && !Leads(p.reigns, i, p.term[i])
    ensures Inv(Nominate(p, i))
  {
    hide ReignsOK, BallotsOK, NetOK, MatchOK, AcksOK, AckKept, VotesSafe, CommitOK, AppliedOK;
    var q := Nominate(p, i);
    GrowsRefl(p.reigns, p.acks);
    NetGrows(p.strict, |p.term|, p.net, p.bids, q.bids, p.grants, q.grants, p.acks, q.acks, p.reigns, q.reigns);
    NominateVotes(p, i);
    assert BidsOK(q.term, q.bids, q.reigns);
  }

  lemma NominateVotes(p: Proto, i: int)
    requires p.Shaped() && GrantsOK(p.term, p.vote, p.grants, p.bids)
    requires VotesSafe(p.grants, p.bids, p.acks, p.reigns)
    requires 0 <= i < |p.term| && (i, p.term[i]) !in p.bids
    ensures var q := Nominate(p, i); VotesSafe(q.grants, q.bids, q.acks, q.reigns)
  {
    var q := Nominate(p, i);
    forall v, u, c, t, m: nat ensures VoteSafeAt(q.grants, q.bids, q.acks, q.reigns, v, u, c, t, m) {
      assert VoteSafeAt(p.grants, p.bids, p.acks, p.reigns, v, u, c, t, m);
    }
  }

  /** The heart of section 5.4.1: a log at least as recent as one holding the prefix holds it too. */
  lemma RecentHoldsPrefix(p: Proto, t: int, m: nat, mine: Log, theirs: Log, u: int)
    requires ReignsOK(p.term, p.reigns, p.grants)
    requires t in p.reigns && 1 <= m <= |p.reigns[t].log| && p.reigns[t].log[m - 1].term == t
    requires GoodLog(p.reigns, mine) && GoodLog(p.reigns, theirs)
    requires p.reigns[t].log[..m] <= mine
    requires AtLeastAsRecent(LastTerm(theirs), |theirs| - 1, mine)
    requires LastTerm(theirs) < u && Kept(p.reigns, t, u, p.reigns[t].log[..m])
    ensures p.reigns[t].log[..m] <= theirs
  {
    var pre := p.reigns[t].log[..m];
    assert ReignOK(p.term, p.reigns, p.grants, t);
    assert mine[m - 1] == pre[m - 1];
    assert Ordered(mine, m - 1, |mine| - 1);
    var k := |theirs| - 1;
    var w := LastTerm(theirs);
    assert theirs[..k + 1] == theirs;
    assert k >= 1;
    assert RootedAt(p.reigns, theirs, k);
    if w > t {
      var r := p.reigns[w];
      assert ReignOK(p.term, p.reigns, p.grants, w);
      assert pre <= r.start;
      assert r.log[k].term == w;
      assert Ordered(r.log, k, |r.start| - 1);
      assert r.start[|r.start| - 1] == r.log[|r.start| - 1];
      assert k >= |r.start|;
      PrefixTrans(pre, r.start, r.log);
    }
  }

  lemma GrantKeepsInv(p: Proto, i: int, c: int)
    requires Inv(p) && 0 <= i < |p.term| && p.vote[i] == -1 && 0 <= c < |p.term| && p.role[i] == Follower
    requires (c, p.term[i]) in p.bids
    requires var l := p.bids[(c, p.term[i])]; |l| > 0 && AtLeastAsRecent(LastTerm(l), |l| - 1, p.log[i])
    ensures Inv(Grant(p, i, c))
  {
    hide LogsOK, ReignsOK, BallotsOK, NetOK, MatchOK, AcksOK, AckKept, VotesSafe, CommitOK, AppliedOK;
    var q := Grant(p, i, c);
    GrowsRefl(p.reigns, p.acks);
    NetGrows(p.strict, |p.term|, p.net, p.bids, q.bids, p.grants, q.grants, p.acks, q.acks, p.reigns, q.reigns);
    GrantVotes(p, i, c);
    GrantBallots(p, i, c);
    GrantReigns(p, i, c);
    assert GrantsOK(q.term, q.vote, q.grants, q.bids);
  }

  lemma GrantReigns(p: Proto, i: int, c: int)
    requires p.Shaped() && ReignsOK(p.term, p.reigns, p.grants) && 0 <= i < |p.term|
    ensures var q := Grant(p, i, c); ReignsOK(q.term, q.reigns, q.grants)
  {
    var q := Grant(p, i, c);
    forall s | s in q.reigns ensures ReignOK(q.term, q.reigns, q.grants, s) {
      assert ReignOK(p.term, p.reigns, p.grants, s);
    }
  }

  lemma GrantVotes(p: Proto, i: int, c: int)
    requires Inv(p) && 0 <= i < |p.term| && p.vote[i] == -1 && 0 <= c < |p.term|
    requires (c, p.term[i]) in p.bids
    requires var l := p.bids[(c, p.term[i])]; |l| > 0 && AtLeastAsRecent(LastTerm(l), |l| - 1, p.log[i])
    ensures var q := Grant(p, i, c); VotesSafe(q.grants, q.bids, q.acks, q.reigns)
  {
    hide LogsOK, ReignsOK, RolesOK, GrantsOK, BidsOK, BallotsOK, NetOK, MatchOK, AcksOK, AckKept, CommitOK, AppliedOK;
    var q := Grant(p, i, c);
    forall v, u, d, t, m: nat ensures VoteSafeAt(q.grants, q.bids, q.acks, q.reigns, v, u, d, t, m) {
      assert VoteSafeAt(p.grants, p.bids, p.acks, p.reigns, v, u, d, t, m);
      if (v, u, d) == (i, p.term[i], c) {
        GrantVoteSafe(p, i, c, t, m);
      }
    }
  }

  lemma GrantVoteSafe(p: Proto, i: int, c: int, t: int, m: nat)
    requires Inv(p) && 0 <= i < |p.term| && p.vote[i] == -1
    requires (c, p.term[i]) in p.bids
    requires var l := p.bids[(c, p.term[i])]; |l| > 0 && AtLeastAsRecent(LastTerm(l), |l| - 1, p.log[i])
    ensures var q := Grant(p, i, c); VoteSafeAt(q.grants, q.bids, q.acks, q.reigns, i, p.term[i], c, t, m)
  {
    GrantIsNew(p, i);
    hide GrantsOK, RolesOK, BallotsOK, NetOK, MatchOK, AcksOK, VotesSafe, CommitOK, AppliedOK, AtLeastAsRecent, Rooted;
    var u := p.term[i];
    if && (u in p.reigns ==> i in p.reigns[u].voters)
       && t in p.reigns && t < u && 1 <= m <= Ack(p.acks, i, t) && m <= |p.reigns[t].log|
       && p.reigns[t].log[m - 1].term == t && Kept(p.reigns, t, u, p.reigns[t].log[..m])
    {
      assert Kept(p.reigns, t, u + 1, p.reigns[t].log[..m]);
      assert AckKeptAt(p.term, p.log, p.acks, p.reigns, i, t, m);
      RecentHoldsPrefix(p, t, m, p.log[i], p.bids[(c, u)], u);
    }
  }

  /** A peer that has not voted in its term is not among the voters of that term's leader. */
  lemma GrantIsNew(p: Proto, i: int)
    requires ReignsOK(p.term, p.reigns, p.grants) && GrantsOK(p.term, p.vote, p.grants, p.bids)
    requires 0 <= i < |p.term| && p.vote[i] == -1
    ensures p.term[i] in p.reigns ==> i !in p.reigns[p.term[i]].voters
  {
    var u := p.term[i];
    if u in p.reigns {
      assert ReignOK(p.term, p.reigns, p.grants, u);
      assert (i, u, p.reigns[u].leader) !in p.grants;
    }
  }

  lemma GrantBallots(p: Proto, i: int, c: int)
    requires p.Shaped() && BallotsOK(p.term, p.ballots, p.grants) && 0 <= i < |p.term|
    ensures var q := Grant(p, i, c); BallotsOK(q.term, q.ballots, q.grants)
  {
    var q := Grant(p, i, c);
    forall d, t | 0 <= d < |q.term| && t in q.ballots[d]
      ensures q.ballots[d][t].count <= |Supporters(|q.term|, q.grants, d, t, q.ballots[d][t].awaiting)|
    {
      var w := q.ballots[d][t].awaiting;
      SubsetSize(Supporters(|p.term|, p.grants, d, t, w), Supporters(|q.term|, q.grants, d, t, w));
    }
  }

  lemma SetBallotsKeepsInv(p: Proto, i: int, b: map<int, Ballot>)
    requires Inv(p) && 0 <= i < |p.term|
    requires forall t :: t in b ==>
      t <= p.term[i] && b[t].count <= |Supporters(|p.term|, p.grants, i, t, b[t].awaiting)|
    ensures Inv(SetBallots(p, i, b))
  {
    hide LogsOK, ReignsOK, RolesOK, GrantsOK, BidsOK, NetOK, MatchOK, AcksOK, AckKept, VotesSafe, CommitOK, AppliedOK;
    var q := SetBallots(p, i, b);
    assert BallotsOK(q.term, q.ballots, q.grants);
  }

  /** Figure 3, election safety, at the moment it matters: a term has no leader yet when one is made. */
  lemma CrownIsFirst(p: Proto, c: int)
    requires ReignsOK(p.term, p.reigns, p.grants) && GrantsOK(p.term, p.vote, p.grants, p.bids)
    requires RolesOK(p.term, p.vote, p.role, p.log, p.bids, p.reigns)
    requires BallotsOK(p.term, p.ballots, p.grants)
    requires 0 <= c < |p.term| && p.role[c] == Candidate && p.term[c] in p.ballots[c]
    requires 2 * p.ballots[c][p.term[c]].count > |p.term|
    ensures p.term[c] !in p.reigns
    ensures Quorum(|p.term|, Supporters(|p.term|, p.grants, c, p.term[c], p.ballots[c][p.term[c]].awaiting))
  {
    var t := p.term[c];
    var voters := Supporters(|p.term|, p.grants, c, t, p.ballots[c][t].awaiting);
    assert Quorum(|p.term|, voters);
    if t in p.reigns {
      assert ReignOK(p.term, p.reigns, p.grants, t);
      var v := QuorumsMeet(|p.term|, voters, p.reigns[t].voters);
      assert (v, t, c) in p.grants && (v, t, p.reigns[t].leader) in p.grants;
      assert Leads(p.reigns, c, t);
      assert false;
    }
  }

  lemma CrownKeepsInv(p: Proto, c: int)
    requires Inv(p) && 0 <= c < |p.term| && p.role[c] == Candidate && p.term[c] in p.ballots[c]
    requires 2 * p.ballots[c][p.term[c]].count > |p.term|
    requires p.matched[c] == seq(|p.term|, _ => 0)
    ensures Inv(Crown(p, c))
  {
    hide LogsOK, ReignsOK, GrantsOK, BallotsOK, BidsOK, NetOK, AckKept, VotesSafe, CommitOK, AppliedOK;
    CrownIsFirst(p, c);
    var q := Crown(p, c);
    CrownGrows(p, c);
    CrownLogs(p, c);
    CrownReigns(p, c);
    CrownAcks(p, c);
    CrownVotes(p, c);
    HistoryGrows(p, q.acks, q.reigns);
    assert RolesOK(q.term, q.vote, q.role, q.log, q.bids, q.reigns);
    assert AcksOK(q.term, q.role, q.log, q.acks, q.reigns);
    assert p.strict ==> MatchOK(q.term, q.role, q.matched, q.acks);
  }

  lemma CrownGrows(p: Proto, c: int)
    requires p.Shaped() && 0 <= c < |p.term| && p.term[c] in p.ballots[c] && p.term[c] !in p.reigns
    requires AcksOK(p.term, p.role, p.log, p.acks, p.reigns)
    ensures var q := Crown(p, c); Grows(p.reigns, q.reigns) && AcksGrow(p.acks, q.acks)
  {
    assert Ack(p.acks, c, p.term[c]) == 0;
  }

  /** What only talks about messages, commit points and applied commands survives any growth of history. */
  lemma HistoryGrows(p: Proto, acks': map<(int, int), nat>, reigns': map<int, Reign>)
    requires Inv(p) && Grows(p.reigns, reigns') && AcksGrow(p.acks, acks')
    ensures NetOK(p.strict, |p.term|, p.net, p.bids, p.grants, reigns', acks')
    ensures p.strict ==> AppliedOK(|p.term|, p.applied, acks', reigns')
    ensures p.strict ==> CommitOK(p.term, p.log, p.commit, acks', reigns')
  {
    hide LogsOK, ReignsOK, RolesOK, GrantsOK, BidsOK, BallotsOK, NetOK, MatchOK, AcksOK, AckKept, VotesSafe;
    var n := |p.term|;
    NetGrows(p.strict, n, p.net, p.bids, p.bids, p.grants, p.grants, p.acks, acks', p.reigns, reigns');
    forall i, k, x | p.strict && (i, k, x) in p.applied ensures k >= 1 && Chosen(n, acks', reigns', k, x) {
      ChosenGrows(n, p.acks, acks', p.reigns, reigns', k, x);
    }
    forall j | p.strict && 0 <= j < n ensures CommitAt(p.term, p.log, p.commit, acks', reigns', j) {
      assert CommitAt(p.term, p.log, p.commit, p.acks, p.reigns, j);
      CoveredGrows(n, p.acks, acks', p.reigns, reigns', p.log[j][..p.commit[j] + 1], p.term[j], p.term[j]);
    }
  }

  lemma CrownLogs(p: Proto, c: int)
    requires p.Shaped() && 0 <= c < |p.term| && p.term[c] in p.ballots[c] && p.term[c] !in p.reigns
    requires LogsOK(p.term, p.log, p.reigns) && BidsOK(p.term, p.bids, p.reigns)
    requires (c, p.term[c]) in p.bids && p.bids[(c, p.term[c])] == p.log[c]
    ensures var q := Crown(p, c); LogsOK(q.term, q.log, q.reigns) && BidsOK(q.term, q.bids, q.reigns)
  {
    var q := Crown(p, c);
    assert Grows(p.reigns, q.reigns);
    forall i | 0 <= i < |q.term| ensures GoodLog(q.reigns, q.log[i]) {
      RootedGrows(p.reigns, q.reigns, p.log[i]);
    }
    forall d, t | (d, t) in q.bids ensures GoodLog(q.reigns, q.bids[(d, t)]) {
      RootedGrows(p.reigns, q.reigns, p.bids[(d, t)]);
    }
  }

  lemma CrownReigns(p: Proto, c: int)
    requires p.Shaped() && 0 <= c < |p.term| && p.term[c] in p.ballots[c] && p.term[c] !in p.reigns
    requires LogsOK(p.term, p.log, p.reigns) && BidsOK(p.term, p.bids, p.reigns)
    requires ReignsOK(p.term, p.reigns, p.grants)
    requires (c, p.term[c]) in p.bids && p.bids[(c, p.term[c])] == p.log[c]
    requires Quorum(|p.term|, Supporters(|p.term|, p.grants, c, p.term[c], p.ballots[c][p.term[c]].awaiting))
    ensures var q := Crown(p, c); ReignsOK(q.term, q.reigns, q.grants)
  {
    var q := Crown(p, c);
    assert Grows(p.reigns, q.reigns);
    forall t | t in q.reigns ensures ReignOK(q.term, q.reigns, q.grants, t) {
      if t == p.term[c] {
        RootedGrows(p.reigns, q.reigns, p.log[c]);
      } else {
        assert ReignOK(p.term, p.reigns, p.grants, t);
        RootedGrows(p.reigns, q.reigns, p.reigns[t].log);
      }
    }
  }

  lemma CrownAcks(p: Proto, c: int)
    requires p.Shaped() && 0 <= c < |p.term| && p.term[c] in p.ballots[c] && p.term[c] !in p.reigns
    requires AckKept(p.term, p.log, p.acks, p.reigns) && AcksOK(p.term, p.role, p.log, p.acks, p.reigns)
    ensures var q := Crown(p, c); AckKept(q.term, q.log, q.acks, q.reigns)
  {
    var q := Crown(p, c);
    forall i, t, m: nat ensures AckKeptAt(q.term, q.log, q.acks, q.reigns, i, t, m) {
      assert AckKeptAt(p.term, p.log, p.acks, p.reigns, i, t, m);
      if t in p.reigns && m <= |p.reigns[t].log| && 0 <= i < |p.term|
         && Kept(q.reigns, t, q.term[i] + 1, p.reigns[t].log[..m]) {
        KeptShrinks(p.reigns, q.reigns, t, p.term[i] + 1, p.reigns[t].log[..m]);
      }
    }
  }

  lemma KeptShrinks(reigns: map<int, Reign>, reigns': map<int, Reign>, lo: int, hi: int, p: Log)
    requires Kept(reigns', lo, hi, p) && Grows(reigns, reigns')
    ensures Kept(reigns, lo, hi, p)
  {
    forall t | lo < t < hi && t in reigns ensures p <= reigns[t].start {
      assert t in reigns';
    }
  }

  lemma CrownVotes(p: Proto, c: int)
    requires p.Shaped() && 0 <= c < |p.term| && p.term[c] in p.ballots[c] && p.term[c] !in p.reigns
    requires VotesSafe(p.grants, p.bids, p.acks, p.reigns) && AcksOK(p.term, p.role, p.log, p.acks, p.reigns)
    requires GrantsOK(p.term, p.vote, p.grants, p.bids)
    ensures var q := Crown(p, c); VotesSafe(q.grants, q.bids, q.acks, q.reigns)
  {
    var q := Crown(p, c);
    forall v, u, d, t, m: nat ensures VoteSafeAt(q.grants, q.bids, q.acks, q.reigns, v, u, d, t, m) {
      assert VoteSafeAt(p.grants, p.bids, p.acks, p.reigns, v, u, d, t, m);
      if t in p.reigns && m <= |p.reigns[t].log| && Kept(q.reigns, t, u, p.reigns[t].log[..m]) {
        KeptShrinks(p.reigns, q.reigns, t, u, p.reigns[t].log[..m]);
      }
    }
  }

  // ----- log growth -----

  lemma ProposeKeepsInv(p: Proto, i: int, x: Command)
    requires Inv(p) && 0 <= i < |p.term| && p.role[i] == Leader
    ensures Inv(Propose(p, i, x))
  {
    assert ReignOK(p.term, p.reigns, p.grants, p.term[i]);
    ProposeTables(p, i, x);
    hide RolesOK, AcksOK, LogsOK, ReignsOK, GrantsOK, BidsOK, BallotsOK, NetOK, MatchOK, AckKept, VotesSafe,
         CommitOK, AppliedOK;
    var q := Propose(p, i, x);
    ProposeGrows(p, i, x);
    ProposeRooted(p, i, x);
    ProposeReigns(p, i, x);
    ProposeAcks(p, i, x);
    ProposeVotes(p, i, x);
    HistoryGrows(p, q.acks, q.reigns);
    if p.strict {
      MatchGrows(p.term, p.role, p.matched, p.acks, q.acks);
      LongerLogsKeepCommit(p, i, q.log[i], q.acks, q.reigns);
    }
  }

  lemma ProposeTables(p: Proto, i: int, x: Command)
    requires p.Shaped() && 0 <= i < |p.term| && p.role[i] == Leader
    requires RolesOK(p.term, p.vote, p.role, p.log, p.bids, p.reigns)
    requires AcksOK(p.term, p.role, p.log, p.acks, p.reigns)
    ensures Leads(p.reigns, i, p.term[i]) && p.reigns[p.term[i]].log == p.log[i]
    ensures var q := Propose(p, i, x);
            && RolesOK(q.term, q.vote, q.role, q.log, q.bids, q.reigns)
            && AcksOK(q.term, q.role, q.log, q.acks, q.reigns)
  {
  }

  lemma MatchGrows(term: seq<int>, role: seq<Role>, matched: seq<seq<int>>,
                   acks: map<(int, int), nat>, acks': map<(int, int), nat>)
    requires MatchOK(term, role, matched, acks) && AcksGrow(acks, acks')
    ensures MatchOK(term, role, matched, acks')
  {
    forall j, v | 0 <= j < |term| && role[j] == Leader && 0 <= v < |term| && v != j && matched[j][v] > 0
      ensures Ack(acks', v, term[j]) >= matched[j][v] + 1
    {
      assert Ack(acks, v, term[j]) <= Ack(acks', v, term[j]);
    }
  }

  lemma ProposeGrows(p: Proto, i: int, x: Command)
    requires p.Shaped() && 0 <= i < |p.term| && p.role[i] == Leader
    requires RolesOK(p.term, p.vote, p.role, p.log, p.bids, p.reigns)
    requires AcksOK(p.term, p.role, p.log, p.acks, p.reigns)
    ensures var q := Propose(p, i, x); Grows(p.reigns, q.reigns) && AcksGrow(p.acks, q.acks)
  {
  }

  lemma ProposeRooted(p: Proto, i: int, x: Command)
    requires p.Shaped() && 0 <= i < |p.term| && Leads(p.reigns, i, p.term[i])
    requires p.reigns[p.term[i]].log == p.log[i] && p.term[i] >= 1
    requires LogsOK(p.term, p.log, p.reigns) && BidsOK(p.term, p.bids, p.reigns)
    ensures var q := Propose(p, i, x); LogsOK(q.term, q.log, q.reigns) && BidsOK(q.term, q.bids, q.reigns)
  {
    var q := Propose(p, i, x);
    assert Grows(p.reigns, q.reigns);
    forall j | 0 <= j < |q.term| ensures GoodLog(q.reigns, q.log[j]) && LastTerm(q.log[j]) <= q.term[j] {
      if j == i {
        AppendedIsGood(p.reigns, q.reigns, p.log[i], q.log[i], p.term[i]);
      } else {
        RootedGrows(p.reigns, q.reigns, p.log[j]);
      }
    }
    forall d, t | (d, t) in q.bids ensures GoodLog(q.reigns, q.bids[(d, t)]) {
      RootedGrows(p.reigns, q.reigns, p.bids[(d, t)]);
    }
  }

  lemma AppendedIsGood(reigns: map<int, Reign>, reigns': map<int, Reign>, l: Log, l': Log, t: int)
    requires GoodLog(reigns, l) && Grows(reigns, reigns') && LastTerm(l) <= t && t >= 1
    requires |l'| == |l| + 1 && l'[..|l|] == l && l'[|l|].term == t && l'[|l|].index == |l|
    requires t in reigns' && reigns'[t].log == l'
    ensures GoodLog(reigns', l')
  {
    RootedGrows(reigns, reigns', l);
    forall k ensures RootedAt(reigns', l', k) {
      assert RootedAt(reigns', l, k);
      if 1 <= k < |l| {
        assert l'[k] == l[k] && l'[..k + 1] == l[..k + 1];
      }
    }
    forall j, k ensures Ordered(l', j, k) {
      assert Ordered(l, j, k) && Ordered(l, j, |l| - 1);
      assert forall n :: 0 <= n < |l| ==> l'[n] == l[n];
    }
    assert forall k :: 0 <= k < |l| ==> l'[k] == l[k];
  }

  lemma ProposeReigns(p: Proto, i: int, x: Command)
    requires p.Shaped() && 0 <= i < |p.term| && Leads(p.reigns, i, p.term[i])
    requires p.reigns[p.term[i]].log == p.log[i]
    requires LogsOK(p.term, p.log, p.reigns) && ReignsOK(p.term, p.reigns, p.grants)
    ensures var q := Propose(p, i, x); ReignsOK(q.term, q.reigns, q.grants)
  {
    var q := Propose(p, i, x);
    assert Grows(p.reigns, q.reigns);
    forall t | t in q.reigns ensures ReignOK(q.term, q.reigns, q.grants, t) {
      assert ReignOK(p.term, p.reigns, p.grants, t);
      if t == p.term[i] {
        AppendedIsGood(p.reigns, q.reigns, p.log[i], q.log[i], t);
      } else {
        RootedGrows(p.reigns, q.reigns, p.reigns[t].log);
      }
    }
  }

  lemma ProposeAcks(p: Proto, i: int, x: Command)
    requires p.Shaped() && 0 <= i < |p.term| && Leads(p.reigns, i, p.term[i])
    requires p.reigns[p.term[i]].log == p.log[i]
    requires AckKept(p.term, p.log, p.acks, p.reigns) && AcksOK(p.term, p.role, p.log, p.acks, p.reigns)
    ensures var q := Propose(p, i, x); AckKept(q.term, q.log, q.acks, q.reigns)
  {
    var q := Propose(p, i, x);
    assert Grows(p.reigns, q.reigns);
    forall j, t, m: nat ensures AckKeptAt(q.term, q.log, q.acks, q.reigns, j, t, m) {
      assert AckKeptAt(p.term, p.log, p.acks, p.reigns, j, t, m);
      if 0 <= j < |q.term| && t in q.reigns && m <= Ack(q.acks, j, t) && (j, t) != (i, p.term[i])
         && Kept(q.reigns, t, q.term[j] + 1, q.reigns[t].log[..m]) {
        assert q.reigns[t].log[..m] == p.reigns[t].log[..m];
        KeptShrinks(p.reigns, q.reigns, t, p.term[j] + 1, p.reigns[t].log[..m]);
        if j == i {
          PrefixTrans(p.reigns[t].log[..m], p.log[i], q.log[i]);
        }
      }
    }
  }

  lemma ProposeVotes(p: Proto, i: int, x: Command)
    requires p.Shaped() && 0 <= i < |p.term| && Leads(p.reigns, i, p.term[i])
    requires p.reigns[p.term[i]].log == p.log[i]
    requires VotesSafe(p.grants, p.bids, p.acks, p.reigns) && AcksOK(p.term, p.role, p.log, p.acks, p.reigns)
    requires GrantsOK(p.term, p.vote, p.grants, p.bids)
    ensures var q := Propose(p, i, x); VotesSafe(q.grants, q.bids, q.acks, q.reigns)
  {
    var q := Propose(p, i, x);
    assert Grows(p.reigns, q.reigns);
    forall v, u, c, t, m: nat ensures VoteSafeAt(q.grants, q.bids, q.acks, q.reigns, v, u, c, t, m) {
      assert VoteSafeAt(p.grants, p.bids, p.acks, p.reigns, v, u, c, t, m);
      if (v, u, c) in q.grants && t in q.reigns && t < u && 1 <= m <= Ack(q.acks, v, t)
         && Kept(q.reigns, t, u, q.reigns[t].log[..m]) {
        assert (v, t) != (i, p.term[i]);
        assert q.reigns[t].log[..m] == p.reigns[t].log[..m];
        assert q.reigns[t].log[m - 1] == p.reigns[t].log[m - 1];
        KeptShrinks(p.reigns, q.reigns, t, u, p.reigns[t].log[..m]);
      }
    }
  }

  /** One peer's log may be replaced by any log that keeps its committed part. */
  lemma LongerLogsKeepCommit(p: Proto, i: int, l: Log, acks: map<(int, int), nat>, reigns: map<int, Reign>)
    requires CommitOK(p.term, p.log, p.commit, acks, reigns) && 0 <= i < |p.term|
    requires p.log[i][..p.commit[i] + 1] <= l
    ensures CommitOK(p.term, p.log[i := l], p.commit, acks, reigns)
  {
    var log' := p.log[i := l];
    forall j | 0 <= j < |p.term| ensures CommitAt(p.term, log', p.commit, acks, reigns, j) {
      assert CommitAt(p.term, p.log, p.commit, acks, reigns, j);
      assert log'[j][..p.commit[j] + 1] == p.log[j][..p.commit[j] + 1];
    }
  }

  // ----- replication -----

  /** A log that matches the leader's at prevLogIndex either already holds all that was sent, or
      becomes exactly the leader's log up to the last entry sent. */
  lemma MergeIsLeaderPrefix(reigns: map<int, Reign>, l: Log, lead: Log, prev: int, es: seq<Entry>)
    requires GoodLog(reigns, l) && GoodLog(reigns, lead)
    requires 0 <= prev < |l| && prev + 1 + |es| <= |lead| && es == lead[prev + 1..prev + 1 + |es|]
    requires l[prev].term == lead[prev].term
    ensures var full := lead[..prev + 1 + |es|];
            Merge(l, prev, es) == if full <= l then l else full
    decreases |es|
  {
    var full := lead[..prev + 1 + |es|];
    RootedAgree(reigns, l, lead, prev);
    if es == [] {
      assert full <= l;
    } else if prev + 1 < |l| && l[prev + 1].term == es[0].term {
      assert es[1..] == lead[prev + 2..prev + 2 + |es[1..]|];
      MergeIsLeaderPrefix(reigns, l, lead, prev + 1, es[1..]);
    } else {
      assert l[..prev + 1] + es == full;
      assert full[prev + 1] == es[0];
    }
  }

  /** Anything in both logs survives the merge. */
  lemma MergeKeepsCommon(l: Log, lead: Log, full: Log, q: Log)
    requires full <= lead && q <= l && q <= lead
    ensures q <= if full <= l then l else full
  {
    if |q| > |full| {
      assert full == lead[..|full|] == q[..|full|] == l[..|full|];
    }
  }

  lemma AcceptKeepsInv(p: Proto, i: int, a: AppendArgs)
    requires Inv(p) && 0 <= i < |p.term| && p.role[i] == Follower
    requires AppendOK(p.strict, |p.term|, p.reigns, p.acks, a) && a.term == p.term[i]
    requires 0 <= a.prevLogIndex < |p.log[i]| && p.log[i][a.prevLogIndex].term == a.prevLogTerm
    ensures Inv(Accept(p, i, a))
    ensures p.reigns[a.term].log[..a.prevLogIndex + 1 + |a.entries|] <= Accept(p, i, a).log[i]
    ensures p.strict ==> 0 <= p.commit[i] < |p.log[i]| && p.log[i][..p.commit[i] + 1] <= Accept(p, i, a).log[i]
  {
    hide GrantsOK, BidsOK, BallotsOK, NetOK, AckKept, VotesSafe, CommitOK, AppliedOK, LogsOK, ReignsOK, Rooted,
         WellFormed;
    var q := Accept(p, i, a);
    assert Grows(p.reigns, q.reigns);
    AcceptMerges(p, i, a);
    AcceptAckGrows(p, i, a);
    AcceptLogs(p, i, a);
    AcceptAcks(p, i, a);
    AcceptVotes(p, i, a);
    HistoryGrows(p, q.acks, q.reigns);
    if p.strict {
      AcceptCommit(p, i, a);
      MatchGrows(p.term, p.role, p.matched, p.acks, q.acks);
      AcceptKeepsCommit(p, i, a);
    }
    hide MatchOK;
    assert RolesOK(q.term, q.vote, q.role, q.log, q.bids, q.reigns);
    assert AcksOK(q.term, q.role, q.log, q.acks, q.reigns);
  }

  lemma AcceptMerges(p: Proto, i: int, a: AppendArgs)
    requires LogsOK(p.term, p.log, p.reigns) && ReignsOK(p.term, p.reigns, p.grants) && 0 <= i < |p.term|
    requires AppendOK(p.strict, |p.term|, p.reigns, p.acks, a)
    requires 0 <= a.prevLogIndex < |p.log[i]| && p.log[i][a.prevLogIndex].term == a.prevLogTerm
    ensures var full := p.reigns[a.term].log[..a.prevLogIndex + 1 + |a.entries|];
            Merge(p.log[i], a.prevLogIndex, a.entries) == if full <= p.log[i] then p.log[i] else full
  {
    assert ReignOK(p.term, p.reigns, p.grants, a.term);
    MergeIsLeaderPrefix(p.reigns, p.log[i], p.reigns[a.term].log, a.prevLogIndex, a.entries);
  }

  lemma AcceptKeepsCommit(p: Proto, i: int, a: AppendArgs)
    requires p.Shaped() && 0 <= i < |p.term| && 0 <= a.prevLogIndex < |p.log[i]|
    requires CommitOK(p.term, p.log, p.commit, Accept(p, i, a).acks, p.reigns)
    requires p.log[i][..p.commit[i] + 1] <= Merge(p.log[i], a.prevLogIndex, a.entries)
    ensures var q := Accept(p, i, a); CommitOK(q.term, q.log, q.commit, q.acks, q.reigns)
  {
    var q := Accept(p, i, a);
    LongerLogsKeepCommit(p, i, q.log[i], q.acks, q.reigns);
  }

  lemma AcceptAckGrows(p: Proto, i: int, a: AppendArgs)
    requires p.Shaped() && 0 <= i < |p.term| && 0 <= a.prevLogIndex < |p.log[i]|
    ensures AcksGrow(p.acks, Accept(p, i, a).acks)
  {
  }

  lemma AcceptLogs(p: Proto, i: int, a: AppendArgs)
    requires p.Shaped() && 0 <= i < |p.term| && 0 <= a.prevLogIndex < |p.log[i]| && a.term in p.reigns
    requires a.prevLogIndex + 1 + |a.entries| <= |p.reigns[a.term].log|
    requires LogsOK(p.term, p.log, p.reigns) && ReignsOK(p.term, p.reigns, p.grants) && a.term == p.term[i]
    requires var full := p.reigns[a.term].log[..a.prevLogIndex + 1 + |a.entries|];
             Merge(p.log[i], a.prevLogIndex, a.entries) == if full <= p.log[i] then p.log[i] else full
    ensures var q := Accept(p, i, a); LogsOK(q.term, q.log, q.reigns)
  {
    assert ReignOK(p.term, p.reigns, p.grants, a.term);
    PrefixIsGood(p.reigns, p.reigns[a.term], a.term, a.prevLogIndex + 1 + |a.entries|);
  }

  lemma PrefixIsGood(reigns: map<int, Reign>, r: Reign, t: int, n: int)
    requires GoodLog(reigns, r.log) && 0 < n <= |r.log|
    requires 0 < |r.start| && r.start <= r.log && LastTerm(r.start) < t
    requires forall k :: |r.start| <= k < |r.log| ==> r.log[k].term == t
    ensures GoodLog(reigns, r.log[..n]) && LastTerm(r.log[..n]) <= t
  {
    var f := r.log[..n];
    forall k ensures RootedAt(reigns, f, k) {
      assert RootedAt(reigns, r.log, k);
      if 1 <= k < n {
        assert f[..k + 1] == r.log[..k + 1];
      }
    }
    forall j, k ensures Ordered(f, j, k) {
      assert Ordered(r.log, j, k);
    }
    assert Ordered(r.log, n - 1, |r.start| - 1);
    assert r.start[|r.start| - 1] == r.log[|r.start| - 1];
  }

  lemma AcceptAcks(p: Proto, i: int, a: AppendArgs)
    requires p.Shaped() && 0 <= i < |p.term| && 0 <= a.prevLogIndex < |p.log[i]| && a.term in p.reigns
    requires a.prevLogIndex + 1 + |a.entries| <= |p.reigns[a.term].log|
    requires AckKept(p.term, p.log, p.acks, p.reigns) && AcksOK(p.term, p.role, p.log, p.acks, p.reigns)
    requires ReignsOK(p.term, p.reigns, p.grants) && a.term == p.term[i]
    requires var full := p.reigns[a.term].log[..a.prevLogIndex + 1 + |a.entries|];
             Merge(p.log[i], a.prevLogIndex, a.entries) == if full <= p.log[i] then p.log[i] else full
    ensures var q := Accept(p, i, a); AckKept(q.term, q.log, q.acks, q.reigns)
  {
    var q := Accept(p, i, a);
    forall j, t, m: nat ensures AckKeptAt(q.term, q.log, q.acks, q.reigns, j, t, m) {
      assert AckKeptAt(p.term, p.log, p.acks, p.reigns, j, t, m);
      if j == i {
        AcceptAckAt(p, i, a, t, m);
      }
    }
  }

  lemma AcceptAckAt(p: Proto, i: int, a: AppendArgs, t: int, m: nat)
    requires p.Shaped() && 0 <= i < |p.term| && 0 <= a.prevLogIndex < |p.log[i]| && a.term in p.reigns
    requires a.prevLogIndex + 1 + |a.entries| <= |p.reigns[a.term].log|
    requires AckKeptAt(p.term, p.log, p.acks, p.reigns, i, t, m) && AcksOK(p.term, p.role, p.log, p.acks, p.reigns)
    requires ReignsOK(p.term, p.reigns, p.grants) && a.term == p.term[i]
    requires var full := p.reigns[a.term].log[..a.prevLogIndex + 1 + |a.entries|];
             Merge(p.log[i], a.prevLogIndex, a.entries) == if full <= p.log[i] then p.log[i] else full
    ensures var q := Accept(p, i, a); AckKeptAt(q.term, q.log, q.acks, q.reigns, i, t, m)
  {
    var q := Accept(p, i, a);
    var lead := p.reigns[a.term].log;
    var full := lead[..a.prevLogIndex + 1 + |a.entries|];
    if t in p.reigns && m <= Ack(q.acks, i, t) && m <= |p.reigns[t].log|
       && Kept(p.reigns, t, p.term[i] + 1, p.reigns[t].log[..m]) {
      var pre := p.reigns[t].log[..m];
      if m <= Ack(p.acks, i, t) {
        if t < a.term {
          assert ReignOK(p.term, p.reigns, p.grants, a.term);
          PrefixTrans(pre, p.reigns[a.term].start, lead);
        }
        MergeKeepsCommon(p.log[i], lead, full, pre);
      } else {
        assert pre <= full;
        if full <= p.log[i] {
          PrefixTrans(pre, full, p.log[i]);
        }
      }
    }
  }

  lemma AcceptVotes(p: Proto, i: int, a: AppendArgs)
    requires p.Shaped() && 0 <= i < |p.term| && 0 <= a.prevLogIndex < |p.log[i]| && a.term == p.term[i]
    requires VotesSafe(p.grants, p.bids, p.acks, p.reigns) && GrantsOK(p.term, p.vote, p.grants, p.bids)
    ensures var q := Accept(p, i, a); VotesSafe(q.grants, q.bids, q.acks, q.reigns)
  {
    var q := Accept(p, i, a);
    forall v, u, c, t, m: nat ensures VoteSafeAt(q.grants, q.bids, q.acks, q.reigns, v, u, c, t, m) {
      assert VoteSafeAt(p.grants, p.bids, p.acks, p.reigns, v, u, c, t, m);
    }
  }

  lemma AcceptCommit(p: Proto, i: int, a: AppendArgs)
    requires Inv(p) && p.strict && 0 <= i < |p.term| && 0 <= a.prevLogIndex < |p.log[i]| && a.term in p.reigns
    requires a.prevLogIndex + 1 + |a.entries| <= |p.reigns[a.term].log| && a.term == p.term[i]
    requires var full := p.reigns[a.term].log[..a.prevLogIndex + 1 + |a.entries|];
             Merge(p.log[i], a.prevLogIndex, a.entries) == if full <= p.log[i] then p.log[i] else full
    ensures 0 <= p.commit[i] < |p.log[i]| && p.log[i][..p.commit[i] + 1] <= Merge(p.log[i], a.prevLogIndex, a.entries)
  {
    hide NetOK, AckKept, BallotsOK, AppliedOK, MatchOK, RolesOK;
    var pre := p.log[i][..p.commit[i] + 1];
    var lead := p.reigns[a.term].log;
    assert CommitAt(p.term, p.log, p.commit, p.acks, p.reigns, i);
    assert ReignOK(p.term, p.reigns, p.grants, a.term);
    if |pre| > 1 {
      CoveredInReign(p, pre, a.term);
    } else {
      assert pre[0] == SENTINEL == lead[0];
    }
    MergeKeepsCommon(p.log[i], lead, lead[..a.prevLogIndex + 1 + |a.entries|], pre);
  }
}
