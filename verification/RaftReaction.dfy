/** How peers react to what they hear, in every run, guarded or not: terms only rise, later terms are
    adopted, refusals carry the news, and the apply loop walks the log one index at a time. */
module RaftReaction {
  import opened RaftTypes
  import opened RaftProtocol
  import opened RaftServer
  import opened RaftSystem
  import opened RaftRefinement
  import opened RaftSafety

  // ----- terms -----

  ghost predicate FollowerOf(s: Server, t: int) {
    s.state == Follower && s.currentTerm == t
  }

  lemma StepKeepsTerm(sys: System, act: Action, guarded: bool, i: int)
    requires SysInv(sys, guarded) && Enabled(sys, act, guarded) && 0 <= i < |sys.servers|
    ensures var sys' := Exec(sys, act, guarded);
            i < |sys'.servers| && sys.servers[i].currentTerm <= sys'.servers[i].currentTerm
  {
    hide Inv, Commit, BackUp, TakeEntries;
    match act
    case TakeAppendRequest(v, m) => RequestKeepsTerm(sys.servers[v], m.aargs);
    case TakeAppendResponse(v, m) => ReplyKeepsTerm(sys.servers[v], v, m.from, m.aargs, m.areply);
    case _ =>
  }

  lemma RequestKeepsTerm(s: Server, a: AppendArgs)
    requires s.Valid()
    ensures OnAppendRequest(s, a).0.currentTerm == Max(s.currentTerm, a.term)
    ensures a.term > s.currentTerm ==> OnAppendRequest(s, a).0.state == Follower
    ensures OnAppendRequest(s, a).1.term == s.currentTerm
    ensures a.term < s.currentTerm ==> OnAppendRequest(s, a).1 == Refuse(s.currentTerm)
  {
    hide Merge;
  }

  lemma ReplyKeepsTerm(s: Server, me: int, p: int, a: AppendArgs, r: AppendReply)
    requires s.Valid() && 0 <= p < |s.nextIndex|
    ensures var s' := OnAppendResponse(s, me, p, a, r);
            if r.term > s.currentTerm then FollowerOf(s', r.term) && s'.votedFor == -1
            else s'.currentTerm == s.currentTerm && s'.state == s.state
  {
  }

  /** No peer's term ever falls, crashes included. */
  lemma {:induction false} TermsNeverFall(n: nat, states: seq<System>, acts: seq<Action>, guarded: bool,
                                          j: nat, k: nat, i: int)
    requires IsRun(n, states, acts, guarded) && j <= k < |states| && 0 <= i < n
    ensures |states[j].servers| == |states[k].servers| == n
    ensures states[j].servers[i].currentTerm <= states[k].servers[i].currentTerm
    decreases k - j
  {
    hide SysInv, Exec, Enabled;
    RunHolds(n, states, acts, guarded, j);
    RunHolds(n, states, acts, guarded, k);
    if j < k {
      TermsNeverFall(n, states, acts, guarded, j, k - 1, i);
      RunHolds(n, states, acts, guarded, k - 1);
      assert StepAt(states, acts, k - 1, guarded);
      StepKeepsTerm(states[k - 1], acts[k - 1], guarded, i);
    }
  }

  /** The term a message asks its reader to come up to: that of a request, or of a reply that is not a
      granted vote. */
  ghost function NewsTerm(m: Message): int {
    match m
    case VoteRequest(a, _) => a.term
    case VoteResponse(a, _, r) => if r.voteGranted then 0 else r.term
    case AppendRequest(a, _) => a.term
    case AppendResponse(_, _, r) => r.term
  }

  ghost predicate Takes(act: Action) {
    act.TakeVoteRequest? || act.TakeVoteResponse? || act.TakeAppendRequest? || act.TakeAppendResponse?
  }

  /** Whoever takes a message with news of a later term is a follower of exactly that term afterwards,
      whatever it was before. */
  lemma LaterTermIsAdopted(n: nat, states: seq<System>, acts: seq<Action>, guarded: bool, k: nat)
    requires IsRun(n, states, acts, guarded) && k < |acts|
    requires Takes(acts[k])
    ensures |states[k].servers| == |states[k + 1].servers| == n && 0 <= acts[k].i < n
    ensures var i, t := acts[k].i, NewsTerm(acts[k].m);
            t > states[k].servers[i].currentTerm ==> FollowerOf(states[k + 1].servers[i], t)
  {
    hide SysInv, Exec, Enabled, NewsTerm;
    RunHolds(n, states, acts, guarded, k);
    RunHolds(n, states, acts, guarded, k + 1);
    assert StepAt(states, acts, k, guarded);
    NewsIsAdopted(states[k], acts[k], guarded);
  }

  lemma NewsIsAdopted(sys: System, act: Action, guarded: bool)
    requires SysInv(sys, guarded) && Enabled(sys, act, guarded) && Takes(act)
    ensures var i, t, sys' := act.i, NewsTerm(act.m), Exec(sys, act, guarded);
            && 0 <= i < |sys.servers| == |sys'.servers|
            && (t > sys.servers[i].currentTerm ==> FollowerOf(sys'.servers[i], t))
  {
    TermIsNatural(sys, guarded, act.i);
    hide Inv, OnAppendRequest, OnAppendResponse, View, ServerOK, Broadcast;
    match act
    case TakeAppendRequest(v, m) => RequestKeepsTerm(sys.servers[v], m.aargs);
    case TakeAppendResponse(v, m) => ReplyKeepsTerm(sys.servers[v], v, m.from, m.aargs, m.areply);
    case _ =>
  }

  lemma TermIsNatural(sys: System, strict: bool, i: int)
    requires SysInv(sys, strict) && 0 <= i < |sys.servers|
    ensures sys.servers[i].currentTerm >= 0
  {
    assert View(sys, strict).term[i] == sys.servers[i].currentTerm;
  }

  // ----- what refusals carry -----

  /** The answer to a vote request carries the voter's term after it, and is a grant exactly under the
      vote rule. */
  lemma VoteReplyTellsTerm(n: nat, states: seq<System>, acts: seq<Action>, guarded: bool, k: nat, v: int, m: Message)
    requires IsRun(n, states, acts, guarded) && k < |acts| && acts[k] == TakeVoteRequest(v, m) && m.VoteRequest?
    ensures |states[k].servers| == |states[k + 1].servers| == n && 0 <= v < n && |states[k].servers[v].log| > 0
    ensures var a, s, s' := m.vargs, states[k].servers[v], states[k + 1].servers[v];
            var granted := && a.term >= s.currentTerm && AtLeastAsRecent(a.lastLogTerm, a.lastLogIndex, s.log)
                           && (a.term > s.currentTerm || s.votedFor == -1 || s.votedFor == a.candidateId);
            && VoteResponse(a, v, VoteReply(s'.currentTerm, granted)) in states[k + 1].net
            && s'.currentTerm == Max(s.currentTerm, a.term) && s'.log == s.log
            && (granted ==> s'.votedFor == a.candidateId)
  {
    RunHolds(n, states, acts, guarded, k);
    RunHolds(n, states, acts, guarded, k + 1);
    assert StepAt(states, acts, k, guarded);
    hide Inv;
  }

  /** A candidate of an old term that takes the refusal it got ends as a follower of the voter's term, or
      has moved on already. */
  lemma RefusedCandidateLearns(n: nat, states: seq<System>, acts: seq<Action>, guarded: bool,
                               j: nat, k: nat, v: int, c: int, a: VoteArgs)
    requires IsRun(n, states, acts, guarded) && j < k < |acts| && acts[j] == TakeVoteRequest(v, VoteRequest(a, v))
    requires 0 <= v < |states[j].servers| && a.term < states[j].servers[v].currentTerm
    requires acts[k] == TakeVoteResponse(c, VoteResponse(a, v, VoteReply(states[j].servers[v].currentTerm, false)))
    ensures VoteResponse(a, v, VoteReply(states[j].servers[v].currentTerm, false)) in states[j + 1].net
    ensures |states[k].servers| == |states[k + 1].servers| == n && 0 <= c < n
    ensures var t := states[j].servers[v].currentTerm;
            FollowerOf(states[k + 1].servers[c], t) || t <= states[k].servers[c].currentTerm
  {
    VoteReplyTellsTerm(n, states, acts, guarded, j, v, VoteRequest(a, v));
    LaterTermIsAdopted(n, states, acts, guarded, k);
  }

  /** A peer refuses an AppendEntries request of an old term with its own term and nothing else; the leader
      that takes the refusal steps down to that term, or has moved on already. */
  lemma DeposedLeaderLearns(n: nat, states: seq<System>, acts: seq<Action>, guarded: bool,
                            j: nat, k: nat, v: int, c: int, a: AppendArgs)
    requires IsRun(n, states, acts, guarded) && j < k < |acts| && acts[j] == TakeAppendRequest(v, AppendRequest(a, v))
    requires 0 <= v < |states[j].servers| && a.term < states[j].servers[v].currentTerm
    requires acts[k] == TakeAppendResponse(c, AppendResponse(a, v, Refuse(states[j].servers[v].currentTerm)))
    ensures AppendResponse(a, v, Refuse(states[j].servers[v].currentTerm)) in states[j + 1].net
    ensures |states[j].servers| == |states[j + 1].servers| == n && states[j + 1].servers[v] == states[j].servers[v]
    ensures |states[k].servers| == |states[k + 1].servers| == n && 0 <= c < n
    ensures var t := states[j].servers[v].currentTerm;
            FollowerOf(states[k + 1].servers[c], t) || t <= states[k].servers[c].currentTerm
  {
    RunHolds(n, states, acts, guarded, j);
    RunHolds(n, states, acts, guarded, j + 1);
    assert StepAt(states, acts, j, guarded);
    hide Inv, TakeEntries, Listen;
    LaterTermIsAdopted(n, states, acts, guarded, k);
  }

  // ----- the apply loop -----

  /** How many entries peer i applied in actions before k since it last started. */
  ghost function AppliedSince(acts: seq<Action>, i: int, k: nat): nat
    requires k <= |acts|
  {
    if k == 0 || acts[k - 1] == CrashRestart(i) then 0
    else AppliedSince(acts, i, k - 1) + (if acts[k - 1] == ApplyNext(i) then 1 else 0)
  }

  lemma StepApplies(sys: System, act: Action, guarded: bool, i: int)
    requires SysInv(sys, guarded) && Enabled(sys, act, guarded) && 0 <= i < |sys.servers|
    ensures var s, sys' := sys.servers[i], Exec(sys, act, guarded);
            && i < |sys'.servers|
            && sys'.servers[i].lastApplied == if act == CrashRestart(i) then 0
                                              else if act == ApplyNext(i) then s.lastApplied + 1 else s.lastApplied
    ensures act == ApplyNext(i) ==>
              var s := sys.servers[i];
              && 0 <= s.lastApplied && s.lastApplied + 1 < |s.log|
              && (i, s.lastApplied + 1, s.log[s.lastApplied + 1].command) in Exec(sys, act, guarded).hist.applied
  {
    hide Inv, Merge, CommitFrom, View, ServerOK;
  }

  /** Within one incarnation a peer hands exactly the indices 1, 2, 3, ... to its service, in order: before
      action k it stands at the number of entries it has applied since it started, and if action k
      applies, the entry is the next one of its log. */
  lemma {:induction false} AppliesInOrder(n: nat, states: seq<System>, acts: seq<Action>, guarded: bool, k: nat, i: int)
    requires IsRun(n, states, acts, guarded) && k < |states| && 0 <= i < n
    ensures |states[k].servers| == n && states[k].servers[i].lastApplied == AppliedSince(acts, i, k)
    ensures k < |acts| && acts[k] == ApplyNext(i) ==>
              var x, l := AppliedSince(acts, i, k) + 1, states[k].servers[i].log;
              x < |l| && (i, x, l[x].command) in states[k + 1].hist.applied
  {
    hide SysInv, Exec, Enabled;
    RunHolds(n, states, acts, guarded, k);
    if k > 0 {
      AppliesInOrder(n, states, acts, guarded, k - 1, i);
      RunHolds(n, states, acts, guarded, k - 1);
      assert StepAt(states, acts, k - 1, guarded);
      StepApplies(states[k - 1], acts[k - 1], guarded, i);
    }
    if k < |acts| {
      assert StepAt(states, acts, k, guarded);
      StepApplies(states[k], acts[k], guarded, i);
    }
  }
}
