/** Every handler is a sequence of small protocol steps, so every action keeps the invariant. */
module RaftRefinement {
  import opened RaftTypes
  import opened Quorums
  import opened RaftProtocol
  import opened RaftInvariant
  import opened RaftServer
  import opened RaftSystem

  /** One peer's columns of the view, all at once. */
  ghost function Row(p: Proto, i: int, s: Server): Proto
    requires p.Shaped() && 0 <= i < |p.term|
  {
    p.(term := p.term[i := s.currentTerm], vote := p.vote[i := s.votedFor], role := p.role[i := s.state],
       log := p.log[i := s.log], commit := p.commit[i := s.commitIndex], matched := p.matched[i := s.matchIndex])
  }

  /** Changing one peer of the system changes one row of the view. */
  lemma ViewOfPut(sys: System, strict: bool, i: int, s: Server, out: set<Message>, h: History)
    requires Shaped(sys) && 0 <= i < |sys.servers|
    ensures View(Put(sys, i, s, out, h), strict)
         == Row(View(sys, strict), i, s).(net := sys.net + out, grants := h.grants, bids := h.bids,
                                          reigns := h.reigns, acks := h.acks, applied := h.applied)
  {
    var p, q := View(sys, strict), View(Put(sys, i, s, out, h), strict);
    assert q.term == p.term[i := s.currentTerm];
    assert q.vote == p.vote[i := s.votedFor];
    assert q.role == p.role[i := s.state];
    assert q.log == p.log[i := s.log];
    assert q.commit == p.commit[i := s.commitIndex];
    assert q.matched == p.matched[i := s.matchIndex];
  }

  ghost predicate RowIs(p: Proto, i: int, s: Server) {
    && p.Shaped() && 0 <= i < |p.term|
    && p.term[i] == s.currentTerm && p.vote[i] == s.votedFor && p.role[i] == s.state
    && p.log[i] == s.log && p.commit[i] == s.commitIndex && p.matched[i] == s.matchIndex
  }

  ghost predicate SameElsewhere(p: Proto, q: Proto, i: int) {
    && p.Shaped() && q.Shaped() && |q.term| == |p.term|
    && forall j :: 0 <= j < |p.term| && j != i ==>
         && q.term[j] == p.term[j] && q.vote[j] == p.vote[j] && q.role[j] == p.role[j]
         && q.log[j] == p.log[j] && q.commit[j] == p.commit[j] && q.matched[j] == p.matched[j]
  }

  ghost predicate HistoryIs(p: Proto, h: History) {
    p.grants == h.grants && p.bids == h.bids && p.reigns == h.reigns && p.acks == h.acks && p.applied == h.applied
  }

  /** A handler whose effect on the view is a protocol state satisfying `Inv` keeps `SysInv`. */
  lemma Close(sys: System, strict: bool, i: int, s: Server, out: set<Message>, h: History, q: Proto)
    requires Shaped(sys) && 0 <= i < |sys.servers| && q.strict == strict
    requires forall j :: 0 <= j < |sys.servers| ==> ServerOK(sys.servers[j], strict)
    requires Inv(q) && SameElsewhere(View(sys, strict), q, i) && RowIs(q, i, s)
    requires q.net == sys.net + out && HistoryIs(q, h)
    requires s.Valid() && |s.nextIndex| == |sys.servers| && ServerOK(s, strict)
    ensures SysInv(Put(sys, i, s, out, h).(elections := q.ballots), strict)
    ensures View(Put(sys, i, s, out, h).(elections := q.ballots), strict) == q
  {
    hide Inv;
    var p := View(sys, strict);
    ViewOfPut(sys, strict, i, s, out, h);
    var r := Row(p, i, s);
    assert q.term == r.term && q.vote == r.vote && q.role == r.role;
    assert q.log == r.log && q.commit == r.commit && q.matched == r.matched;
  }

  /** The same for a handler that also answers, leaving elections alone. */
  lemma CloseSend(sys: System, strict: bool, i: int, s: Server, out: set<Message>, h: History, q: Proto)
    requires SysInv(sys, strict) && 0 <= i < |sys.servers| && q.strict == strict
    requires Inv(q) && SameElsewhere(View(sys, strict), q, i) && RowIs(q, i, s)
    requires q.net == sys.net && q.ballots == sys.elections && HistoryIs(q, h)
    requires s.Valid() && |s.nextIndex| == |sys.servers| && ServerOK(s, strict)
    requires forall m :: m in out ==> MessageOK(strict, |q.term|, q.bids, q.grants, q.reigns, q.acks, m)
    ensures SysInv(Put(sys, i, s, out, h), strict)
  {
    hide Inv, ServerOK, MessageOK, View;
    SendKeepsInv(q, out);
    Close(sys, strict, i, s, out, h, Send(q, out));
    assert Put(sys, i, s, out, h).(elections := q.ballots) == Put(sys, i, s, out, h);
  }

  lemma SameElsewhereRefl(p: Proto, i: int)
    requires p.Shaped()
    ensures SameElsewhere(p, p, i)
  {
  }

  lemma SameElsewhereTrans(p: Proto, q: Proto, r: Proto, i: int)
    requires SameElsewhere(p, q, i) && SameElsewhere(q, r, i)
    ensures SameElsewhere(p, r, i)
  {
  }

  lemma PeerHolds(sys: System, strict: bool, i: int)
    requires SysInv(sys, strict) && 0 <= i < |sys.servers|
    ensures Shaped(sys) && Inv(View(sys, strict)) && ServerOK(sys.servers[i], strict)
    ensures sys.servers[i].Valid() && |sys.servers[i].nextIndex| == |sys.servers|
  {
  }

  lemma ViewRow(sys: System, strict: bool, i: int)
    requires Shaped(sys) && 0 <= i < |sys.servers|
    ensures var p := View(sys, strict);
            && RowIs(p, i, sys.servers[i]) && |p.term| == |sys.servers| && HistoryIs(p, sys.hist)
            && p.net == sys.net && p.ballots == sys.elections && p.strict == strict
  {
  }

  lemma MessageHolds(sys: System, strict: bool, m: Message)
    requires SysInv(sys, strict) && m in sys.net
    ensures MessageOK(strict, |sys.servers|, sys.hist.bids, sys.hist.grants, sys.hist.reigns, sys.hist.acks, m)
  {
    var p := View(sys, strict);
    assert |p.term| == |sys.servers|;
  }

  // ----- elections -----

  lemma TimeoutKeepsInv(sys: System, strict: bool, i: int)
    requires SysInv(sys, strict) && 0 <= i < |sys.servers|
    ensures SysInv(DoTimeout(sys, i), strict)
  {
    hide Inv;
    var p := View(sys, strict);
    var sys' := DoTimeout(sys, i);
    var (s, a) := BeginElection(sys.servers[i], i);
    var others := Peers(|sys.servers|) - {i};
    var out := set v | v in others :: VoteRequest(a, v);
    var q := CampaignSteps(p, i, others, out, a);
    Close(sys, strict, i, s, out, sys'.hist, q);
  }

  lemma CampaignSteps(p: Proto, i: int, others: set<int>, out: set<Message>, a: VoteArgs) returns (q: Proto)
    requires Inv(p) && p.Shaped() && 0 <= i < |p.term| && i !in others && |p.log[i]| > 0
    requires a == VoteArgs(p.term[i] + 1, i, |p.log[i]| - 1, LastTerm(p.log[i]))
    requires forall m :: m in out ==> m.VoteRequest? && m.vargs == a
    ensures Inv(q) && q.Shaped()
    ensures var t := p.term[i] + 1;
            q == p.(term := p.term[i := t], vote := p.vote[i := i], role := p.role[i := Candidate],
                    ballots := p.ballots[i := p.ballots[i][t := Ballot(1, false, others)]],
                    net := p.net + out, grants := p.grants + {(i, t, i)}, bids := p.bids[(i, t) := p.log[i]])
  {
    hide Inv;
    var t := p.term[i] + 1;
    NewTermIsUnused(p, i);
    SetRoleKeepsInv(p, i, Follower);
    var p1 := SetRole(p, i, Follower);
    BumpKeepsInv(p1, i, t);
    var p2 := Bump(p1, i, t);
    NominateKeepsInv(p2, i);
    var p3 := Nominate(p2, i);
    GrantKeepsInv(p3, i, i);
    var p4 := Grant(p3, i, i);
    var b := p.ballots[i][t := Ballot(1, false, others)];
    CampaignBallots(p, p4, i, others);
    SetBallotsKeepsInv(p4, i, b);
    var p5 := SetBallots(p4, i, b);
    SetRoleKeepsInv(p5, i, Candidate);
    var p6 := SetRole(p5, i, Candidate);
    SendKeepsInv(p6, out);
    q := Send(p6, out);
  }

  lemma NewTermIsUnused(p: Proto, i: int)
    requires Inv(p) && 0 <= i < |p.term|
    ensures (i, p.term[i] + 1) !in p.bids && !Leads(p.reigns, i, p.term[i] + 1)
    ensures 0 <= p.term[i] && |p.log[i]| > 0 && LastTerm(p.log[i]) <= p.term[i]
  {
    hide RolesOK, BallotsOK, NetOK, MatchOK, AcksOK, AckKept, VotesSafe, CommitOK, AppliedOK;
    var t := p.term[i] + 1;
    if t in p.reigns {
      assert ReignOK(p.term, p.reigns, p.grants, t);
    }
  }

  lemma CampaignBallots(p: Proto, q: Proto, i: int, others: set<int>)
    requires Inv(p) && 0 <= i < |p.term| && i !in others && q.Shaped() && |q.term| == |p.term|
    requires q.ballots == p.ballots && q.term[i] == p.term[i] + 1
    requires q.grants == p.grants + {(i, p.term[i] + 1, i)}
    ensures var b := p.ballots[i][p.term[i] + 1 := Ballot(1, false, others)];
            forall t :: t in b ==>
              t <= q.term[i] && b[t].count <= |Supporters(|q.term|, q.grants, i, t, b[t].awaiting)|
  {
    hide LogsOK, ReignsOK, RolesOK, GrantsOK, BidsOK, NetOK, MatchOK, AcksOK, AckKept, VotesSafe, CommitOK, AppliedOK;
    var n := p.term[i] + 1;
    var b := p.ballots[i][n := Ballot(1, false, others)];
    forall t | t in b
      ensures t <= q.term[i] && b[t].count <= |Supporters(|q.term|, q.grants, i, t, b[t].awaiting)|
    {
      var s := Supporters(|q.term|, q.grants, i, t, b[t].awaiting);
      if t == n {
        assert i in s;
      } else {
        assert t in p.ballots[i];
        SubsetSize(Supporters(|p.term|, p.grants, i, t, b[t].awaiting), s);
      }
    }
  }

  /** `setNewTerm`, or nothing, depending on the test its callers make. */
  lemma NewTermSteps(p: Proto, i: int, t: int) returns (q: Proto)
    requires Inv(p) && p.Shaped() && 0 <= i < |p.term|
    ensures Inv(q) && q.Shaped()
    ensures q == if t > p.term[i]
                 then p.(term := p.term[i := t], vote := p.vote[i := -1], role := p.role[i := Follower])
                 else p
  {
    hide Inv;
    if t > p.term[i] {
      SetRoleKeepsInv(p, i, Follower);
      BumpKeepsInv(SetRole(p, i, Follower), i, t);
      q := Bump(SetRole(p, i, Follower), i, t);
    } else {
      q := p;
    }
  }

  lemma VoteRequestKeepsInv(sys: System, strict: bool, i: int, m: Message)
    requires SysInv(sys, strict) && 0 <= i < |sys.servers| && m in sys.net && m.VoteRequest?
    ensures SysInv(DoVoteRequest(sys, i, m.vargs), strict)
  {
    hide Inv, OnVoteRequest, ServerOK, AtLeastAsRecent, View, SysInv, Shaped, SameElsewhere;
    var p := View(sys, strict);
    var a := m.vargs;
    PeerHolds(sys, strict, i);
    ViewRow(sys, strict, i);
    MessageHolds(sys, strict, m);
    VoteRequestEffect(sys.servers[i], strict, a);
    var (s, r) := OnVoteRequest(sys.servers[i], a);
    var q := VoteSteps(p, i, a, r.voteGranted);
    CloseSend(sys, strict, i, s, {VoteResponse(a, i, r)}, DoVoteRequest(sys, i, a).hist, q);
  }

  /** The vote a peer stands by when a request of term t arrives. */
  ghost function StandingVote(term: int, vote: int, t: int): int {
    if t > term then -1 else vote
  }

  lemma VoteRequestEffect(s: Server, strict: bool, a: VoteArgs)
    requires s.Valid() && ServerOK(s, strict)
    ensures var (s', r) := OnVoteRequest(s, a);
            var later := a.term > s.currentTerm;
            var v := StandingVote(s.currentTerm, s.votedFor, a.term);
            && (r.voteGranted <==> a.term >= s.currentTerm && (v == -1 || v == a.candidateId)
                                   && AtLeastAsRecent(a.lastLogTerm, a.lastLogIndex, s.log))
            && s'.currentTerm == (if later then a.term else s.currentTerm)
            && s'.state == (if later then Follower else s.state)
            && s'.votedFor == (if r.voteGranted then a.candidateId else v)
            && s' == s.(currentTerm := s'.currentTerm, state := s'.state, votedFor := s'.votedFor, disk := s'.disk)
            && ServerOK(s', strict)
  {
  }

  lemma VoteSteps(p: Proto, i: int, a: VoteArgs, granted: bool) returns (q: Proto)
    requires Inv(p) && p.Shaped() && 0 <= i < |p.term| && |p.log[i]| > 0
    requires (a.candidateId, a.term) in p.bids
    requires var l := p.bids[(a.candidateId, a.term)];
             |l| > 0 && a.lastLogIndex == |l| - 1 && a.lastLogTerm == LastTerm(l)
    requires var v := StandingVote(p.term[i], p.vote[i], a.term);
             granted <==> a.term >= p.term[i] && (v == -1 || v == a.candidateId)
                          && AtLeastAsRecent(a.lastLogTerm, a.lastLogIndex, p.log[i])
    ensures Inv(q) && q.Shaped() && |q.term| == |p.term| && SameElsewhere(p, q, i)
    ensures granted ==> (i, a.term, a.candidateId) in q.grants
    ensures q.term[i] == if a.term > p.term[i] then a.term else p.term[i]
    ensures q.role[i] == if a.term > p.term[i] then Follower else p.role[i]
    ensures q.vote[i] == if granted then a.candidateId else StandingVote(p.term[i], p.vote[i], a.term)
    ensures q == p.(term := q.term, vote := q.vote, role := q.role,
                    grants := if granted then p.grants + {(i, a.term, a.candidateId)} else p.grants)
  {
    hide Inv, AtLeastAsRecent;
    VoteFacts(p, i, a.candidateId, a.term);
    var p1 := NewTermSteps(p, i, a.term);
    if granted && p1.vote[i] == -1 {
      GrantKeepsInv(p1, i, a.candidateId);
      q := Grant(p1, i, a.candidateId);
    } else {
      q := p1;
      if granted {
        assert q.grants == p.grants + {(i, a.term, a.candidateId)};
      }
    }
  }

  lemma VoteFacts(p: Proto, i: int, c: int, t: int)
    requires Inv(p) && 0 <= i < |p.term| && (c, t) in p.bids
    ensures 0 <= c < |p.term| && t >= 1
    ensures p.vote[i] == -1 ==> p.role[i] == Follower
    ensures p.vote[i] != -1 ==> (i, p.term[i], p.vote[i]) in p.grants
  {
    hide LogsOK, ReignsOK, BallotsOK, NetOK, MatchOK, AcksOK, AckKept, VotesSafe, CommitOK, AppliedOK;
  }

  // ----- counting votes and taking office -----

  lemma VoteResponseKeepsInv(sys: System, strict: bool, i: int, m: Message)
    requires SysInv(sys, strict) && 0 <= i < |sys.servers| && m in sys.net && m.VoteResponse?
    requires m.vargs.candidateId == i && m.vargs.term in sys.elections[i]
    requires m.from in sys.elections[i][m.vargs.term].awaiting
    ensures SysInv(DoVoteResponse(sys, i, m.vargs, m.from, m.vreply), strict)
  {
    hide Inv, OnVoteResponse, ServerOK, Broadcast;
    var a, r := m.vargs, m.vreply;
    MessageHolds(sys, strict, m);
    var b := sys.elections[i][a.term].(awaiting := sys.elections[i][a.term].awaiting - {m.from});
    VoteResponseEffect(sys.servers[i], strict, b, |sys.servers|, a, r);
    var (s, b', won) := OnVoteResponse(sys.servers[i], b, |sys.servers|, a, r);
    var p1 := TallySteps(View(sys, strict), i, a.term, m.from, r.voteGranted, b');
    if won {
      TakeOfficeCloses(sys, strict, i, s, p1, a.term, b');
    } else {
      CountingCloses(sys, strict, i, s, p1, if r.voteGranted then p1.term[i] else r.term);
    }
  }

  lemma TakeOfficeCloses(sys: System, strict: bool, i: int, s: Server, p1: Proto, t: int, b: Ballot)
    requires SysInv(sys, strict) && 0 <= i < |sys.servers|
    requires var bs := sys.elections[i := sys.elections[i][t := b]]; Inv(p1) && p1 == View(sys, strict).(ballots := bs)
    requires var o := sys.servers[i];
             && o.state == Candidate && o.currentTerm == t && |s.nextIndex| == |sys.servers|
             && s.matchIndex == seq(|sys.servers|, _ => 0) && ServerOK(s, strict)
             && s == o.(state := Leader, nextIndex := s.nextIndex, matchIndex := s.matchIndex, disk := s.disk)
    requires 2 * b.count > |sys.servers|
    ensures var voters := Supporters(|sys.servers|, sys.hist.grants, i, t, b.awaiting);
            var h := sys.hist.(reigns := sys.hist.reigns[t := Reign(i, s.log, s.log, voters)],
                               acks := sys.hist.acks[(i, t) := |s.log|]);
            SysInv(Put(sys, i, s, Broadcast(s, i, true), h)
                     .(elections := sys.elections[i := sys.elections[i][t := b]]), strict)
  {
    hide Inv, ServerOK, Broadcast;
    var q := CrownSteps(p1, i, s);
    BroadcastKeepsInv(q, i, s, true);
    var out := Broadcast(s, i, true);
    var voters := Supporters(|sys.servers|, sys.hist.grants, i, t, b.awaiting);
    var h := sys.hist.(reigns := sys.hist.reigns[t := Reign(i, s.log, s.log, voters)],
                       acks := sys.hist.acks[(i, t) := |s.log|]);
    Close(sys, strict, i, s, out, h, Send(q, out));
  }

  /** A reply that changes no more than the count, or sends the peer to a later term. */
  lemma CountingCloses(sys: System, strict: bool, i: int, s: Server, p1: Proto, t: int)
    requires SysInv(sys, strict) && 0 <= i < |sys.servers|
    requires Inv(p1) && p1.Shaped() && p1 == View(sys, strict).(ballots := p1.ballots) && ServerOK(s, strict)
    requires var o := sys.servers[i];
             s == if t > o.currentTerm
                  then o.(currentTerm := t, votedFor := -1, state := Follower, disk := s.disk)
                  else o
    ensures SysInv(Put(sys, i, s, {}, sys.hist).(elections := p1.ballots), strict)
  {
    hide Inv, ServerOK;
    var q := NewTermSteps(p1, i, t);
    assert q.net == sys.net + {};
    Close(sys, strict, i, s, {}, sys.hist, q);
  }

  lemma VoteResponseEffect(s: Server, strict: bool, b: Ballot, n: nat, a: VoteArgs, r: VoteReply)
    requires s.Valid() && ServerOK(s, strict) && |s.nextIndex| == n
    ensures var (s', b', won) := OnVoteResponse(s, b, n, a, r);
            && b'.awaiting == b.awaiting && b'.count == b.count + (if r.voteGranted then 1 else 0)
            && (won ==> && r.voteGranted && 2 * b'.count > n && s.currentTerm == a.term && s.state == Candidate
                        && s'.state == Leader && s'.matchIndex == seq(n, _ => 0) && |s'.nextIndex| == n
                        && s' == s.(state := Leader, nextIndex := s'.nextIndex, matchIndex := s'.matchIndex,
                                    disk := s'.disk))
            && (!won ==> var later := !r.voteGranted && r.term > s.currentTerm;
                         s' == if later
                               then s.(currentTerm := r.term, votedFor := -1, state := Follower, disk := s'.disk)
                               else s)
            && ServerOK(s', strict)
  {
  }

  lemma TallySteps(p: Proto, i: int, t: int, v: int, granted: bool, b: Ballot) returns (q: Proto)
    requires Inv(p) && p.Shaped() && 0 <= i < |p.term| && t in p.ballots[i] && v in p.ballots[i][t].awaiting
    requires granted ==> (v, t, i) in p.grants
    requires b.awaiting == p.ballots[i][t].awaiting - {v}
    requires b.count == p.ballots[i][t].count + if granted then 1 else 0
    ensures Inv(q) && q.Shaped() && q == p.(ballots := p.ballots[i := p.ballots[i][t := b]])
  {
    hide LogsOK, ReignsOK, RolesOK, BidsOK, NetOK, MatchOK, AcksOK, AckKept, VotesSafe, CommitOK, AppliedOK;
    var n := |p.term|;
    var bs := p.ballots[i][t := b];
    forall u | u in bs
      ensures u <= p.term[i] && bs[u].count <= |Supporters(n, p.grants, i, u, bs[u].awaiting)|
    {
      if u == t {
        var s := Supporters(n, p.grants, i, t, p.ballots[i][t].awaiting);
        var s' := Supporters(n, p.grants, i, t, b.awaiting);
        if granted {
          assert v !in s;
          SubsetSize(s + {v}, s');
        } else {
          SubsetSize(s, s');
        }
      }
    }
    SetBallotsKeepsInv(p, i, bs);
    q := SetBallots(p, i, bs);
  }

  lemma CrownSteps(p: Proto, i: int, s: Server) returns (q: Proto)
    requires Inv(p) && p.Shaped() && 0 <= i < |p.term| && p.role[i] == Candidate && p.term[i] in p.ballots[i]
    requires 2 * p.ballots[i][p.term[i]].count > |p.term|
    requires s.matchIndex == seq(|p.term|, _ => 0)
    ensures Inv(q) && q.Shaped()
    ensures var t := p.term[i];
            var voters := Supporters(|p.term|, p.grants, i, t, p.ballots[i][t].awaiting);
            q == p.(role := p.role[i := Leader], matched := p.matched[i := s.matchIndex],
                    reigns := p.reigns[t := Reign(i, p.log[i], p.log[i], voters)],
                    acks := p.acks[(i, t) := |p.log[i]|])
  {
    hide Inv;
    SetMatchKeepsInv(p, i, s.matchIndex);
    var p1 := SetMatch(p, i, s.matchIndex);
    CrownKeepsInv(p1, i);
    q := Crown(p1, i);
  }

  /** Whatever a leader sends is its own log from some point on, so it is a good message. */
  lemma BroadcastKeepsInv(p: Proto, i: int, s: Server, heartBeat: bool)
    requires Inv(p) && RowIs(p, i, s) && s.state == Leader && |s.log| > 0 && |s.nextIndex| == |p.term|
    ensures Inv(Send(p, Broadcast(s, i, heartBeat)))
  {
    hide Inv, AppendOK, AppendArgsFor;
    forall m | m in Broadcast(s, i, heartBeat)
      ensures MessageOK(p.strict, |p.term|, p.bids, p.grants, p.reigns, p.acks, m)
    {
      var v :| 0 <= v < |s.nextIndex| && Sends(s, i, v, heartBeat) && m == AppendRequest(AppendArgsFor(s, i, v), v);
      AppendArgsAreGood(p, i, s, v);
    }
    SendKeepsInv(p, Broadcast(s, i, heartBeat));
  }

  lemma AppendArgsAreGood(p: Proto, i: int, s: Server, v: int)
    requires Inv(p) && RowIs(p, i, s) && s.state == Leader && |s.log| > 0
    requires 0 <= v < |s.nextIndex| && ClampNext(s, v) > 0
    ensures AppendOK(p.strict, |p.term|, p.reigns, p.acks, AppendArgsFor(s, i, v))
    ensures AppendArgsFor(s, i, v).leaderId == i
  {
    hide Inv, Covered;
    LeaderFacts(p, i);
    if p.strict {
      CommitFacts(p, i);
    }
    TailIsGood(|p.term|, p.reigns, p.acks, i, s, v);
    hide AppendArgsFor;
  }

  /** What a leader ships is its own log, all of it from some entry on. */
  lemma TailIsGood(n: nat, reigns: map<int, Reign>, acks: map<(int, int), nat>, i: int, s: Server, v: int)
    requires Leads(reigns, i, s.currentTerm) && reigns[s.currentTerm].log == s.log && |s.log| > 0
    requires 0 <= v < |s.nextIndex| && ClampNext(s, v) > 0
    ensures var a := AppendArgsFor(s, i, v);
            && AppendOK(false, n, reigns, acks, a) && a.prevLogIndex + 1 + |a.entries| == |s.log|
            && a.leaderCommit == s.commitIndex && a.term == s.currentTerm && a.leaderId == i
  {
    var l, k := s.log, ClampNext(s, v);
    assert l[k..] == l[k..|l|];
  }

  lemma CommitFacts(p: Proto, i: int)
    requires Inv(p) && p.strict && 0 <= i < |p.term|
    ensures 0 <= p.commit[i] < |p.log[i]|
    ensures Covered(|p.term|, p.acks, p.reigns, p.log[i][..p.commit[i] + 1], p.term[i])
  {
    assert CommitAt(p.term, p.log, p.commit, p.acks, p.reigns, i);
  }

  lemma HeartBeatKeepsInv(sys: System, strict: bool, i: int)
    requires SysInv(sys, strict) && 0 <= i < |sys.servers| && sys.servers[i].state == Leader
    ensures var s := sys.servers[i]; SysInv(Put(sys, i, s, Broadcast(s, i, true), sys.hist), strict)
  {
    hide Inv;
    var p := View(sys, strict);
    var s := sys.servers[i];
    BroadcastKeepsInv(p, i, s, true);
    Close(sys, strict, i, s, Broadcast(s, i, true), sys.hist, Send(p, Broadcast(s, i, true)));
  }

  lemma StartKeepsInv(sys: System, strict: bool, i: int, x: Command)
    requires SysInv(sys, strict) && 0 <= i < |sys.servers| && sys.servers[i].state == Leader
    ensures SysInv(DoStart(sys, i, x), strict)
  {
    hide Inv, Broadcast;
    var p := View(sys, strict);
    var s := Append(sys.servers[i], x);
    LeaderFacts(p, i);
    ProposeKeepsInv(p, i, x);
    var q := Propose(p, i, x);
    BroadcastKeepsInv(q, i, s, false);
    var out := Broadcast(s, i, false);
    Close(sys, strict, i, s, out, DoStart(sys, i, x).hist, Send(q, out));
  }

  lemma LeaderFacts(p: Proto, i: int)
    requires Inv(p) && 0 <= i < |p.term| && p.role[i] == Leader
    ensures Leads(p.reigns, i, p.term[i]) && p.reigns[p.term[i]].log == p.log[i]
    ensures |p.log[i]| > 0 && p.log[i][|p.log[i]| - 1].index == |p.log[i]| - 1
  {
    hide ReignsOK, GrantsOK, BidsOK, BallotsOK, NetOK, MatchOK, AcksOK, AckKept, VotesSafe, CommitOK, AppliedOK;
  }

  lemma ApplyKeepsInv(sys: System, strict: bool, i: int)
    requires SysInv(sys, strict) && 0 <= i < |sys.servers| && CanApply(sys.servers[i])
    ensures SysInv(DoApply(sys, i), strict)
  {
    hide Inv;
    var p := View(sys, strict);
    var s := Apply(sys.servers[i]);
    DeliverKeepsInv(p, i, s.lastApplied);
    var q := Deliver(p, i, s.lastApplied);
    assert q.net == sys.net + {};
    Close(sys, strict, i, s, {}, DoApply(sys, i).hist, q);
  }

  lemma CrashKeepsInv(sys: System, strict: bool, i: int)
    requires SysInv(sys, strict) && 0 <= i < |sys.servers|
    ensures SysInv(Put(sys, i, Restart(sys.servers[i]), {}, sys.hist).(elections := sys.elections[i := map[]]), strict)
  {
    hide Inv, Covered;
    var p := View(sys, strict);
    var s := Restart(sys.servers[i]);
    SentinelCovered(p, i);
    SetRoleKeepsInv(p, i, Follower);
    var p1 := SetRole(p, i, Follower);
    SetCommitKeepsInv(p1, i, 0);
    var p2 := SetCommit(p1, i, 0);
    SetMatchKeepsInv(p2, i, s.matchIndex);
    var p3 := SetMatch(p2, i, s.matchIndex);
    SetBallotsKeepsInv(p3, i, map[]);
    var q := SetBallots(p3, i, map[]);
    assert q.net == sys.net + {};
    Close(sys, strict, i, s, {}, sys.hist, q);
  }

  lemma SentinelCovered(p: Proto, i: int)
    requires Inv(p) && 0 <= i < |p.term|
    ensures |p.log[i]| > 0 && Covered(|p.term|, p.acks, p.reigns, p.log[i][..1], p.term[i])
  {
  }

  // ----- replication -----

  /** The peer after the term and role part of `AppendEntries`. */
  ghost predicate Listening(s: Server, s': Server, a: AppendArgs) {
    && s'.currentTerm == a.term && s'.state == Follower
    && s'.votedFor == StandingVote(s.currentTerm, s.votedFor, a.term)
    && s' == s.(currentTerm := s'.currentTerm, votedFor := s'.votedFor, state := s'.state,
                leaderId := s'.leaderId, disk := s'.disk)
  }

  lemma AppendRequestEffect(s: Server, strict: bool, a: AppendArgs) returns (s1: Server)
    requires s.Valid() && ServerOK(s, strict) && WellFormed(s.log)
    requires s.state == Leader ==> a.term != s.currentTerm
    requires 0 <= a.prevLogIndex && (a.prevLogIndex == 0 ==> a.prevLogTerm == 0)
    ensures a.term >= s.currentTerm ==> Listening(s, s1, a) && s1.Valid() && ServerOK(s1, strict)
    ensures var (s', r) := OnAppendRequest(s, a);
            && (a.term < s.currentTerm ==> s' == s && !r.success && !r.conflict)
            && (r.success <==> && a.term >= s.currentTerm && a.prevLogIndex < |s.log|
                               && s.log[a.prevLogIndex].term == a.prevLogTerm)
            && (a.term >= s.currentTerm && !r.success ==> s' == s1)
            && (r.success ==> !r.conflict && s' == FollowLeader(s1, a))
            && (r.conflict && r.xTerm == -1 ==> 1 <= r.xLen <= a.prevLogIndex)
            && (r.conflict && r.xTerm != -1 ==>
                  && 1 <= r.xIndex <= a.prevLogIndex < |s.log|
                  && r.xTerm == s.log[a.prevLogIndex].term != a.prevLogTerm)
  {
    s1 := Listen(s, a);
    if 0 < a.prevLogIndex < |s.log| {
      RunStartsLate(s.log, a.prevLogIndex, s.log[a.prevLogIndex].term);
    }
  }

  /** The run of a real term never reaches the sentinel. */
  lemma RunStartsLate(l: Log, k: int, x: int)
    requires WellFormed(l) && 0 < k < |l| && x >= 1
    ensures 1 <= RunStart(l, k, x) <= k
  {
    if l[k - 1].term == x {
      RunStartsLate(l, k - 1, x);
    }
  }

  lemma AppendRequestKeepsInv(sys: System, strict: bool, i: int, m: Message)
    requires SysInv(sys, strict) && 0 <= i < |sys.servers| && m in sys.net && m.AppendRequest? && m.to == i
    ensures SysInv(DoAppendRequest(sys, i, m.aargs), strict)
  {
    hide Inv, OnAppendRequest, ServerOK, AppendOK, WellFormed;
    var a := m.aargs;
    var o := sys.servers[i];
    MessageHolds(sys, strict, m);
    AppendFacts(View(sys, strict), i, a);
    var s1 := AppendRequestEffect(o, strict, a);
    var (s, r) := OnAppendRequest(o, a);
    if r.success {
      AcceptCloses(sys, strict, i, a, s1, r);
    } else {
      if 0 < a.prevLogIndex < |o.log| {
        EntryWasWritten(View(sys, strict), i, a.prevLogIndex);
      }
      RefusalCloses(sys, strict, i, a, s, r);
    }
  }

  lemma EntryWasWritten(p: Proto, i: int, k: int)
    requires Inv(p) && 0 <= i < |p.term| && 0 < k < |p.log[i]|
    ensures WroteAt(p.reigns, p.log[i][k].term, k)
  {
    assert RootedAt(p.reigns, p.log[i], k);
  }

  lemma AppendFacts(p: Proto, i: int, a: AppendArgs)
    requires Inv(p) && 0 <= i < |p.term| && AppendOK(p.strict, |p.term|, p.reigns, p.acks, a) && a.leaderId != i
    ensures p.role[i] == Leader ==> a.term != p.term[i]
    ensures WellFormed(p.log[i]) && 0 <= a.prevLogIndex && (a.prevLogIndex == 0 ==> a.prevLogTerm == 0)
  {
    hide GrantsOK, BidsOK, BallotsOK, NetOK, MatchOK, AcksOK, AckKept, VotesSafe, CommitOK, AppliedOK, Covered;
    assert ReignOK(p.term, p.reigns, p.grants, a.term);
  }

  /** No entry taken: the request was stale, or the logs do not match at prevLogIndex. */
  lemma RefusalCloses(sys: System, strict: bool, i: int, a: AppendArgs, s: Server, r: AppendReply)
    requires SysInv(sys, strict) && 0 <= i < |sys.servers| && !r.success
    requires AppendOK(strict, |sys.servers|, sys.hist.reigns, sys.hist.acks, a) && a.leaderId != i
    requires r.conflict && r.xTerm == -1 ==> 1 <= r.xLen <= a.prevLogIndex
    requires r.conflict && r.xTerm != -1 ==>
               && 1 <= r.xIndex <= a.prevLogIndex && r.xTerm != a.prevLogTerm
               && WroteAt(sys.hist.reigns, r.xTerm, a.prevLogIndex)
    requires var o := sys.servers[i];
             if a.term < o.currentTerm then s == o else Listening(o, s, a) && ServerOK(s, strict)
    ensures SysInv(Put(sys, i, s, {AppendResponse(a, i, r)}, sys.hist), strict)
  {
    hide Inv, ServerOK, AppendOK, View, SysInv, Shaped, SameElsewhere;
    var p := View(sys, strict);
    PeerHolds(sys, strict, i);
    ViewRow(sys, strict, i);
    var q := p;
    if a.term >= p.term[i] {
      q := ListenSteps(p, i, a.term);
    } else {
      SameElsewhereRefl(p, i);
    }
    CloseSend(sys, strict, i, s, {AppendResponse(a, i, r)}, sys.hist, q);
  }

  lemma ListenSteps(p: Proto, i: int, t: int) returns (q: Proto)
    requires Inv(p) && p.Shaped() && 0 <= i < |p.term| && t >= p.term[i]
    ensures Inv(q) && q.Shaped() && |q.term| == |p.term| && SameElsewhere(p, q, i)
    ensures q.term[i] == t && q.role[i] == Follower && q.vote[i] == StandingVote(p.term[i], p.vote[i], t)
    ensures q == p.(term := q.term, vote := q.vote, role := q.role)
  {
    hide Inv;
    var p1 := NewTermSteps(p, i, t);
    SetRoleKeepsInv(p1, i, Follower);
    q := SetRole(p1, i, Follower);
  }

  lemma AcceptCloses(sys: System, strict: bool, i: int, a: AppendArgs, s1: Server, r: AppendReply)
    requires SysInv(sys, strict) && 0 <= i < |sys.servers| && r.success && !r.conflict
    requires AppendOK(strict, |sys.servers|, sys.hist.reigns, sys.hist.acks, a) && a.leaderId != i
    requires var o := sys.servers[i];
             && a.term >= o.currentTerm && Listening(o, s1, a) && s1.Valid() && ServerOK(s1, strict)
             && a.prevLogIndex < |o.log| && o.log[a.prevLogIndex].term == a.prevLogTerm
    ensures var got := a.prevLogIndex + 1 + |a.entries|;
            var had := Ack(sys.hist.acks, i, a.term);
            var h := sys.hist.(acks := sys.hist.acks[(i, a.term) := if got > had then got else had]);
            SysInv(Put(sys, i, FollowLeader(s1, a), {AppendResponse(a, i, r)}, h), strict)
  {
    hide Inv, Covered, Merge, View, FollowLeader, SysInv, Shaped, SameElsewhere;
    var p := View(sys, strict);
    PeerHolds(sys, strict, i);
    ViewRow(sys, strict, i);
    var p1 := ListenSteps(p, i, a.term);
    var q := AcceptSteps(p1, i, a);
    SameElsewhereTrans(p, p1, q, i);
    FollowLeaderEffect(s1, a);
    CloseSend(sys, strict, i, FollowLeader(s1, a), {AppendResponse(a, i, r)}, sys.hist.(acks := q.acks), q);
  }

  lemma FollowLeaderEffect(s: Server, a: AppendArgs)
    requires 0 <= a.prevLogIndex < |s.log| && DiskOK(s)
    ensures var s' := FollowLeader(s, a);
            && s'.log == Merge(s.log, a.prevLogIndex, a.entries)
            && s'.commitIndex == (if a.leaderCommit > s.commitIndex then Min(a.leaderCommit, |s'.log| - 1)
                                  else s.commitIndex)
            && s' == s.(log := s'.log, commitIndex := s'.commitIndex, disk := s'.disk)
            && DiskOK(s')
  {
  }

  lemma AcceptSteps(p: Proto, i: int, a: AppendArgs) returns (q: Proto)
    requires Inv(p) && p.Shaped() && 0 <= i < |p.term| && p.role[i] == Follower && a.term == p.term[i]
    requires AppendOK(p.strict, |p.term|, p.reigns, p.acks, a)
    requires a.prevLogIndex < |p.log[i]| && p.log[i][a.prevLogIndex].term == a.prevLogTerm
    ensures Inv(q) && q.Shaped() && |q.term| == |p.term| && SameElsewhere(p, q, i) && |q.log[i]| > 0
    ensures AppendOK(q.strict, |q.term|, q.reigns, q.acks, a)
    ensures q.log[i] == Merge(p.log[i], a.prevLogIndex, a.entries)
    ensures q.commit[i] == if a.leaderCommit > p.commit[i] then Min(a.leaderCommit, |q.log[i]| - 1) else p.commit[i]
    ensures q == p.(log := q.log, commit := q.commit, acks := q.acks)
    ensures var got := a.prevLogIndex + 1 + |a.entries|;
            var had := Ack(p.acks, i, a.term);
            q.acks == p.acks[(i, a.term) := if got > had then got else had]
    ensures p.strict && a.leaderCommit > p.commit[i] ==> q.commit[i] == a.leaderCommit
  {
    hide Inv, Merge;
    AcceptKeepsInv(p, i, a);
    var p1 := Accept(p, i, a);
    GrowsRefl(p.reigns, p.acks);
    AcceptAckGrows(p, i, a);
    AppendGrows(p.strict, |p.term|, p.acks, p1.acks, p.reigns, p.reigns, a);
    if a.leaderCommit > p.commit[i] {
      var k := Min(a.leaderCommit, |p1.log[i]| - 1);
      if p.strict {
        var lead := p.reigns[a.term].log;
        assert lead[..a.leaderCommit + 1] == p1.log[i][..a.leaderCommit + 1];
      }
      SetCommitKeepsInv(p1, i, k);
      q := SetCommit(p1, i, k);
    } else {
      q := p1;
    }
  }

  // ----- the leader's bookkeeping -----

  lemma AppendResponseKeepsInv(sys: System, strict: bool, i: int, m: Message)
    requires SysInv(sys, strict) && 0 <= i < |sys.servers| && m in sys.net && m.AppendResponse?
    requires m.aargs.leaderId == i && 0 <= m.from < |sys.servers|
    requires strict ==> !IsStale(sys.servers[i], m)
    ensures SysInv(Put(sys, i, OnAppendResponse(sys.servers[i], i, m.from, m.aargs, m.areply), {}, sys.hist), strict)
  {
    hide Inv, Commit, ServerOK, AppendOK, BackUp;
    var p := View(sys, strict);
    var o := sys.servers[i];
    var a, r := m.aargs, m.areply;
    MessageHolds(sys, strict, m);
    if r.term > o.currentTerm {
      NewTermKeepsServer(o, strict, r.term);
      CountingCloses(sys, strict, i, SetNewTerm(o, r.term), p, r.term);
    } else if o.state != Leader {
      CountingCloses(sys, strict, i, o, p, o.currentTerm);
    } else {
      LeaderFacts(p, i);
      var s1 := MatchedServer(o, m.from, a, r);
      MatchedKeepsServer(o, strict, sys, i, m);
      var p1 := MatchSteps(p, i, o, s1, m.from, a, r);
      CommitCloses(sys, strict, i, s1, p1);
    }
  }

  lemma NewTermKeepsServer(s: Server, strict: bool, t: int)
    requires ServerOK(s, strict) && t > s.currentTerm
    ensures var s' := SetNewTerm(s, t);
            ServerOK(s', strict) && s' == s.(currentTerm := t, votedFor := -1, state := Follower, disk := s'.disk)
  {
  }

  /** The leader after noting a reply, before it looks for something to commit. */
  function MatchedServer(s: Server, v: int, a: AppendArgs, r: AppendReply): Server
    requires s.Valid() && 0 <= v < |s.nextIndex|
  {
    var k := a.prevLogIndex + |a.entries|;
    if r.success then s.(nextIndex := s.nextIndex[v := Max(s.nextIndex[v], k + 1)],
                         matchIndex := s.matchIndex[v := Max(s.matchIndex[v], k)])
    else if r.conflict then BackUp(s, v, r)
    else s
  }

  lemma MatchedKeepsServer(s: Server, strict: bool, sys: System, i: int, m: Message)
    requires s.Valid() && ServerOK(s, strict) && s.state == Leader && m.AppendResponse? && 0 <= m.from < |s.nextIndex|
    requires strict ==> Leads(sys.hist.reigns, i, s.currentTerm) && sys.hist.reigns[s.currentTerm].log == s.log
    requires strict ==> m.aargs.term == s.currentTerm
    requires MessageOK(strict, |sys.servers|, sys.hist.bids, sys.hist.grants, sys.hist.reigns, sys.hist.acks, m)
    ensures var s' := MatchedServer(s, m.from, m.aargs, m.areply);
            && ServerOK(s', strict) && s'.Valid() && |s'.nextIndex| == |s.nextIndex|
            && s' == s.(nextIndex := s'.nextIndex, matchIndex := s'.matchIndex)
            && (!m.areply.success ==> s'.matchIndex == s.matchIndex)
  {
    hide Covered;
  }

  lemma MatchSteps(p: Proto, i: int, s: Server, s1: Server, v: int, a: AppendArgs, r: AppendReply) returns (q: Proto)
    requires Inv(p) && RowIs(p, i, s) && s.Valid() && |s.nextIndex| == |p.term| && 0 <= v < |p.term|
    requires s.state == Leader && s1 == MatchedServer(s, v, a, r) && |s1.matchIndex| == |p.term|
    requires !r.success ==> s1.matchIndex == s.matchIndex
    requires p.strict ==> a.term == p.term[i]
    requires r.success ==> Ack(p.acks, v, a.term) >= a.prevLogIndex + 1 + |a.entries|
    ensures Inv(q) && q == p.(matched := p.matched[i := s1.matchIndex])
  {
    if p.strict {
      assert MatchOK(p.term, p.role, p.matched, p.acks);
    }
    hide Inv;
    SetMatchKeepsInv(p, i, s1.matchIndex);
    q := SetMatch(p, i, s1.matchIndex);
  }

  lemma CommitCloses(sys: System, strict: bool, i: int, s1: Server, p1: Proto)
    requires SysInv(sys, strict) && 0 <= i < |sys.servers| && s1.state == Leader && s1.Valid()
    requires |s1.nextIndex| == |sys.servers| && ServerOK(s1, strict)
    requires var o := sys.servers[i]; s1 == o.(nextIndex := s1.nextIndex, matchIndex := s1.matchIndex)
    requires var p := View(sys, strict); Inv(p1) && p1 == p.(matched := p.matched[i := s1.matchIndex])
    ensures SysInv(Put(sys, i, Commit(s1, i), {}, sys.hist), strict)
  {
    hide Inv, CommitFrom, Covered;
    var k := CommitFrom(s1, i, s1.commitIndex + 1, s1.commitIndex);
    if strict {
      CommitFacts(p1, i);
      CommitFromCovered(p1, i, s1, s1.commitIndex + 1, s1.commitIndex);
    }
    CommitRises(s1, i);
    SetCommitKeepsInv(p1, i, k);
    var q := SetCommit(p1, i, k);
    assert q.net == sys.net + {};
    Close(sys, strict, i, Commit(s1, i), {}, sys.hist, q);
  }

  lemma CommitRises(s: Server, me: int)
    requires s.Valid()
    ensures Commit(s, me).commitIndex >= s.commitIndex
  {
  }

  /** Whatever the commit loop settles on is covered. */
  lemma CommitFromCovered(p: Proto, i: int, s: Server, k: int, best: int)
    requires Inv(p) && p.strict && RowIs(p, i, s) && s.state == Leader && 0 <= k && 0 <= best < |s.log|
    requires |s.matchIndex| == |p.term|
    requires Covered(|p.term|, p.acks, p.reigns, s.log[..best + 1], p.term[i])
    ensures var c := CommitFrom(s, i, k, best);
            0 <= c < |s.log| && Covered(|p.term|, p.acks, p.reigns, s.log[..c + 1], p.term[i])
    decreases |s.log| - k
  {
    hide Inv, Covered, CanCommit;
    if k < |s.log| {
      if CanCommit(s, i, k) {
        MajorityCommits(p, i, s, k);
        CommitFromCovered(p, i, s, k + 1, k);
      } else {
        CommitFromCovered(p, i, s, k + 1, best);
      }
    }
  }

  /** The commit rule of section 5.4.2 really establishes commitment. */
  lemma MajorityCommits(p: Proto, i: int, s: Server, k: int)
    requires Inv(p) && p.strict && RowIs(p, i, s) && s.state == Leader && 0 <= k < |s.log|
    requires |s.matchIndex| == |p.term| && CanCommit(s, i, k)
    ensures Committed(|p.term|, p.acks, p.reigns, p.term[i], k + 1)
    ensures Covered(|p.term|, p.acks, p.reigns, s.log[..k + 1], p.term[i])
  {
    hide Inv, Quorum, Ackers, MatchCount, Covered;
    LeaderTermIsReal(p, i);
    AckersMajority(p, i, s, k);
    LeaderFacts(p, i);
    CommittedCovers(|p.term|, p.acks, p.reigns, p.term[i], k + 1);
  }

  /** The sentinel is of no leader's term. */
  lemma LeaderTermIsReal(p: Proto, i: int)
    requires Inv(p) && 0 <= i < |p.term| && p.role[i] == Leader
    ensures |p.log[i]| > 0 && p.log[i][0].term < p.term[i]
  {
    assert ReignOK(p.term, p.reigns, p.grants, p.term[i]);
    hide GrantsOK, BidsOK, BallotsOK, NetOK, MatchOK, AcksOK, AckKept, VotesSafe, CommitOK, AppliedOK, ReignsOK;
  }

  lemma CommittedCovers(n: nat, acks: map<(int, int), nat>, reigns: map<int, Reign>, t: int, m: nat)
    requires Committed(n, acks, reigns, t, m)
    ensures Covered(n, acks, reigns, reigns[t].log[..m], t)
  {
    hide Quorum, Ackers;
  }

  lemma AckersMajority(p: Proto, i: int, s: Server, k: int)
    requires Inv(p) && p.strict && RowIs(p, i, s) && s.state == Leader && 0 < k < |s.log|
    requires |s.matchIndex| == |p.term| && CanCommit(s, i, k)
    ensures Quorum(|p.term|, Ackers(|p.term|, p.acks, p.term[i], k + 1))
  {
    hide LogsOK, ReignsOK, RolesOK, GrantsOK, BidsOK, BallotsOK, NetOK, AckKept, VotesSafe, CommitOK, AppliedOK;
    var n := |p.term|;
    var hs := Holders(s.matchIndex, i, k, n);
    assert i !in hs;
    assert |{i} + hs| == 1 + |hs|;
    SubsetSize({i} + hs, Ackers(n, p.acks, p.term[i], k + 1));
  }

  /** The peers that `MatchCount` counts. */
  ghost function Holders(m: seq<int>, me: int, k: int, upTo: nat): (hs: set<int>)
    requires upTo <= |m|
    ensures forall v :: v in hs <==> 0 <= v < upTo && v != me && m[v] >= k
    ensures |hs| == MatchCount(m, me, k, upTo)
  {
    if upTo == 0 then {}
    else Holders(m, me, k, upTo - 1) + (if upTo - 1 != me && m[upTo - 1] >= k then {upTo - 1} else {})
  }
}
