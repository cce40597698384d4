/** Exactly when the program, with no guard on replies, keeps state machine safety: in clusters of at
    most two peers. There every majority is everybody, so a leader always has the vote of the leader
    before it, who holds its own whole log. */
module RaftSmallCluster {
  import opened Ranges
  import opened RaftTypes
  import opened Quorums
  import opened RaftProtocol
  import opened RaftInvariant
  import opened RaftServer
  import opened RaftSystem
  import opened RaftRefinement
  import opened RaftSafety
  import opened RaftStaleReply

  // ----- a leader acknowledges its own log -----

  ghost predicate SelfAcked(reigns: map<int, Reign>, acks: map<(int, int), nat>) {
    forall t :: t in reigns ==> Ack(acks, reigns[t].leader, t) >= |reigns[t].log|
  }

  lemma ExecKeepsSelfAcked(sys: System, act: Action)
    requires SysInv(sys, false) && Enabled(sys, act, false) && SelfAcked(sys.hist.reigns, sys.hist.acks)
    ensures var h := Exec(sys, act, false).hist; SelfAcked(h.reigns, h.acks)
  {
    hide Inv, OnVoteRequest, OnAppendRequest, OnAppendResponse, OnVoteResponse, Broadcast, ServerOK, View;
    match act
    case ClientStart(i, x) => ViewRow(sys, false, i); LeaderFacts(View(sys, false), i);
    case _ =>
  }

  lemma {:induction false} RunSelfAcked(n: nat, states: seq<System>, acts: seq<Action>, k: nat)
    requires IsRun(n, states, acts, false) && k < |states|
    ensures SelfAcked(states[k].hist.reigns, states[k].hist.acks)
  {
    hide SysInv, Exec, Enabled;
    if k > 0 {
      RunSelfAcked(n, states, acts, k - 1);
      RunHolds(n, states, acts, false, k - 1);
      assert StepAt(states, acts, k - 1, false);
      ExecKeepsSelfAcked(states[k - 1], acts[k - 1]);
    }
  }

  // ----- no reign loses what an earlier one wrote -----

  lemma SmallQuorumIsAll(n: nat, q: set<int>, i: int)
    requires n <= 2 && Quorum(n, q) && 0 <= i < n
    ensures i in q
  {
    assert i in q || |q + {i}| == |q| + 1;
    SubsetSize(q + {i}, Below(n));
  }

  /** The leader of term t wrote entries of its own. */
  ghost predicate Wrote(reigns: map<int, Reign>, t: int) {
    t in reigns && |reigns[t].log| > 0 && LastTerm(reigns[t].log) == t
  }

  lemma {:induction false} LaterReignsKeepAll(p: Proto, t: int, u: int)
    requires Inv(p) && |p.term| <= 2 && SelfAcked(p.reigns, p.acks)
    requires Wrote(p.reigns, t) && t < u && u in p.reigns
    ensures p.reigns[t].log <= p.reigns[u].start
    decreases u - t
  {
    hide LogsOK, RolesOK, BallotsOK, NetOK, MatchOK, AcksOK, AckKept, CommitOK, AppliedOK;
    var l := p.reigns[t].log;
    forall w | t < w < u && w in p.reigns ensures l <= p.reigns[w].start {
      LaterReignsKeepAll(p, t, w);
    }
    assert l[..|l|] == l;
    VoterHeldAll(p, t, u);
  }

  lemma LeaderIsPeer(p: Proto, t: int)
    requires ReignsOK(p.term, p.reigns, p.grants) && t in p.reigns
    ensures 0 <= p.reigns[t].leader < |p.term|
  {
    assert ReignOK(p.term, p.reigns, p.grants, t);
  }

  lemma VotersAreQuorum(p: Proto, u: int)
    requires ReignsOK(p.term, p.reigns, p.grants) && u in p.reigns
    ensures Quorum(|p.term|, p.reigns[u].voters)
  {
    assert ReignOK(p.term, p.reigns, p.grants, u);
  }

  lemma VoterHeldAll(p: Proto, t: int, u: int)
    requires ReignsOK(p.term, p.reigns, p.grants) && BidsOK(p.term, p.bids, p.reigns)
    requires GrantsOK(p.term, p.vote, p.grants, p.bids) && VotesSafe(p.grants, p.bids, p.acks, p.reigns)
    requires |p.term| <= 2 && SelfAcked(p.reigns, p.acks) && Wrote(p.reigns, t) && t < u && u in p.reigns
    requires Kept(p.reigns, t, u, p.reigns[t].log)
    ensures p.reigns[t].log <= p.reigns[u].start
  {
    LeaderIsPeer(p, t);
    VotersAreQuorum(p, u);
    hide ReignsOK, Kept, GrantsOK, BidsOK, VotesSafe;
    var v, l := p.reigns[t].leader, p.reigns[t].log;
    SmallQuorumIsAll(|p.term|, p.reigns[u].voters, v);
    assert l[..|l|] == l;
    VoterPassedItOn(p, v, t, |l|, u);
  }

  // ----- so logs never part -----

  /** A log with entries is part of the log of the reign that wrote its last one. */
  lemma LogIsReignPrefix(p: Proto, l: Log)
    requires ReignsOK(p.term, p.reigns, p.grants) && GoodLog(p.reigns, l) && |l| > 1
    ensures Wrote(p.reigns, LastTerm(l)) && l <= p.reigns[LastTerm(l)].log
  {
    var t := LastTerm(l);
    assert RootedAt(p.reigns, l, |l| - 1) && l[..|l|] == l;
    assert ReignOK(p.term, p.reigns, p.grants, t);
    var r := p.reigns[t];
    assert r.log[|l| - 1] == l[|l| - 1] && r.log[|r.start| - 1] == r.start[|r.start| - 1];
    assert Ordered(r.log, |l| - 1, |r.start| - 1);
    assert r.log[|r.log| - 1].term == t;
  }

  lemma GoodLogsAgree(p: Proto, a: Log, b: Log)
    requires Inv(p) && |p.term| <= 2 && SelfAcked(p.reigns, p.acks)
    requires GoodLog(p.reigns, a) && GoodLog(p.reigns, b)
    ensures a <= b || b <= a
  {
    hide LogsOK, RolesOK, GrantsOK, BidsOK, BallotsOK, NetOK, MatchOK, AcksOK, AckKept, VotesSafe, CommitOK,
         AppliedOK, Rooted;
    if |a| > 1 && |b| > 1 {
      var t, u := LastTerm(a), LastTerm(b);
      LogIsReignPrefix(p, a);
      LogIsReignPrefix(p, b);
      if t < u {
        LogInLaterReign(p, a, t, u);
      } else if u < t {
        LogInLaterReign(p, b, u, t);
      }
    }
  }

  lemma LogInLaterReign(p: Proto, l: Log, t: int, u: int)
    requires Inv(p) && |p.term| <= 2 && SelfAcked(p.reigns, p.acks)
    requires Wrote(p.reigns, t) && l <= p.reigns[t].log && t < u && u in p.reigns
    ensures l <= p.reigns[u].log
  {
    hide Inv;
    LaterReignsKeepAll(p, t, u);
    ReignStart(p, u);
    PrefixTrans(l, p.reigns[t].log, p.reigns[u].start);
    PrefixTrans(l, p.reigns[u].start, p.reigns[u].log);
  }

  /** In a cluster of at most two, the logs of any peers at any two moments are prefixes of one another,
      stale replies or not. */
  lemma LogsNeverPart(n: nat, states: seq<System>, acts: seq<Action>, j: nat, k: nat, a: int, b: int)
    requires IsRun(n, states, acts, false) && n <= 2 && j <= k < |states|
    requires 0 <= a < |states[j].servers| && 0 <= b < |states[k].servers|
    ensures var l, l' := states[j].servers[a].log, states[k].servers[b].log; l <= l' || l' <= l
  {
    RunHolds(n, states, acts, false, j);
    RunHolds(n, states, acts, false, k);
    RunExtends(n, states, acts, false, j, k);
    RunSelfAcked(n, states, acts, k);
    ServerLogGood(states[j], false, a);
    ServerLogGood(states[k], false, b);
    hide Inv, Exec, Enabled;
    RootedGrows(states[j].hist.reigns, states[k].hist.reigns, states[j].servers[a].log);
    GoodLogsAgree(View(states[k], false), states[j].servers[a].log, states[k].servers[b].log);
  }

  // ----- the exact condition -----

  /** No run of n peers, stale replies and all, makes two services disagree. */
  ghost predicate AlwaysSafe(n: nat) {
    forall states, acts, j, k :: IsRun(n, states, acts, false) ==> !Disagree(states, acts, j, k)
  }

  /** State machine safety holds of the program as it is if and only if the cluster has at most two
      peers. */
  lemma SafeIffAtMostTwoPeers(n: nat)
    ensures AlwaysSafe(n) <==> n <= 2
  {
    if n <= 2 {
      forall states, acts: seq<Action>, j, k | IsRun(n, states, acts, false) ensures !Disagree(states, acts, j, k) {
        if Disagree(states, acts, j, k) {
          LogsNeverPart(n, states, acts, j, k, acts[j].i, acts[k].i);
        }
      }
    } else {
      var states, acts, j, k := StaleReplyBreaksSafety(n);
    }
  }
}
