/** Validity: logs, and so services, hold only what clients asked for. In every run, guarded or not,
    each entry of each log was started by a client on the leader of the entry's term, with that command,
    when that leader's log had exactly the entries before it. */
module RaftValidity {
  import opened RaftTypes
  import opened RaftProtocol
  import opened RaftInvariant
  import opened RaftServer
  import opened RaftSystem
  import opened RaftRefinement
  import opened RaftSafety

  /** Action j is a client's start of command x on a leader of term t whose log then was `before`. */
  ghost predicate Started(states: seq<System>, acts: seq<Action>, j: int, x: Command, t: int, before: Log) {
    && 0 <= j < |acts| < |states| && acts[j].ClientStart? && acts[j].x == x
    && LeaderAt(states[j], acts[j].i, t) && states[j].servers[acts[j].i].log == before
  }

  /** Some action before k started the entry at index m of l, on the log up to there. */
  ghost predicate WasStarted(states: seq<System>, acts: seq<Action>, k: nat, l: Log, m: int)
    requires 0 <= m < |l|
  {
    exists j :: j < k && Started(states, acts, j, l[m].command, l[m].term, l[..m])
  }

  ghost predicate ReignStarted(states: seq<System>, acts: seq<Action>, k: nat, reigns: map<int, Reign>) {
    forall t, m {:trigger ReignStartedAt(states, acts, k, reigns, t, m)} ::
      ReignStartedAt(states, acts, k, reigns, t, m)
  }

  ghost predicate ReignStartedAt(states: seq<System>, acts: seq<Action>, k: nat, reigns: map<int, Reign>, t: int,
                                 m: int) {
    t in reigns && 0 <= |reigns[t].start| <= m < |reigns[t].log| ==> WasStarted(states, acts, k, reigns[t].log, m)
  }

  /** What one action does to the reigns: nothing, a new one with nothing of its own yet, or one more
      entry, the client's. */
  lemma StepReigns(sys: System, act: Action, guarded: bool, t: int)
    requires SysInv(sys, guarded) && Enabled(sys, act, guarded)
    ensures var rs, rs' := sys.hist.reigns, Exec(sys, act, guarded).hist.reigns;
            && (t in rs' ==> || (t in rs && rs'[t] == rs[t]) || rs'[t].log == rs'[t].start
                             || (&& act.ClientStart? && LeaderAt(sys, act.i, t) && t in rs
                                 && rs[t].log == sys.servers[act.i].log && rs'[t].start == rs[t].start
                                 && rs'[t].log == rs[t].log + [Entry(act.x, t, |rs[t].log|)]))
  {
    hide Inv, OnVoteRequest, OnAppendRequest, OnAppendResponse, OnVoteResponse, Broadcast, ServerOK, View;
    match act
    case ClientStart(i, x) =>
      ViewRow(sys, guarded, i);
      LeaderFacts(View(sys, guarded), i);
    case _ =>
  }

  lemma {:induction false} ReignsStarted(n: nat, states: seq<System>, acts: seq<Action>, guarded: bool, k: nat)
    requires IsRun(n, states, acts, guarded) && k < |states|
    ensures ReignStarted(states, acts, k, states[k].hist.reigns)
  {
    hide SysInv, Exec, Enabled, WasStarted;
    if k > 0 {
      ReignsStarted(n, states, acts, guarded, k - 1);
      RunHolds(n, states, acts, guarded, k - 1);
      assert StepAt(states, acts, k - 1, guarded);
      forall t, m ensures ReignStartedAt(states, acts, k, states[k].hist.reigns, t, m) {
        StepReigns(states[k - 1], acts[k - 1], guarded, t);
        assert ReignStartedAt(states, acts, k - 1, states[k - 1].hist.reigns, t, m);
        StepStarted(states, acts, k, t, m);
      }
    }
  }

  lemma StepStarted(states: seq<System>, acts: seq<Action>, k: nat, t: int, m: int)
    requires 0 < k < |states| == |acts| + 1
    requires ReignStartedAt(states, acts, k - 1, states[k - 1].hist.reigns, t, m)
    requires var act, sys, rs, rs' := acts[k - 1], states[k - 1], states[k - 1].hist.reigns, states[k].hist.reigns;
             && (t in rs' ==> || (t in rs && rs'[t] == rs[t]) || rs'[t].log == rs'[t].start
                              || (&& act.ClientStart? && LeaderAt(sys, act.i, t) && t in rs
                                  && rs[t].log == sys.servers[act.i].log && rs'[t].start == rs[t].start
                                  && rs'[t].log == rs[t].log + [Entry(act.x, t, |rs[t].log|)]))
    ensures ReignStartedAt(states, acts, k, states[k].hist.reigns, t, m)
  {
    var rs, rs' := states[k - 1].hist.reigns, states[k].hist.reigns;
    if t in rs' && |rs'[t].start| <= m < |rs'[t].log| {
      if t in rs && m < |rs[t].log| && rs[t].log <= rs'[t].log {
        StartedEarlier(states, acts, k, rs[t].log, rs'[t].log, m);
      } else {
        assert rs'[t].log[..m] == rs[t].log;
        assert Started(states, acts, k - 1, rs'[t].log[m].command, rs'[t].log[m].term, rs'[t].log[..m]);
      }
    }
  }

  lemma StartedEarlier(states: seq<System>, acts: seq<Action>, k: nat, l: Log, l': Log, m: int)
    requires k > 0 && 0 <= m < |l| && l <= l' && WasStarted(states, acts, k - 1, l, m)
    ensures WasStarted(states, acts, k, l', m)
  {
    assert l'[..m] == l[..m] && l'[m] == l[m];
    var j :| j < k - 1 && Started(states, acts, j, l[m].command, l[m].term, l[..m]);
    assert Started(states, acts, j, l'[m].command, l'[m].term, l'[..m]);
  }

  /** An entry lies past the start of the reign that wrote it. */
  lemma PastTheStart(p: Proto, l: Log, m: int)
    requires ReignsOK(p.term, p.reigns, p.grants) && GoodLog(p.reigns, l) && 1 <= m < |l|
    ensures var t := l[m].term;
            t in p.reigns && |p.reigns[t].start| <= m < |p.reigns[t].log| && l[..m + 1] <= p.reigns[t].log
  {
    var t := l[m].term;
    assert RootedAt(p.reigns, l, m);
    assert ReignOK(p.term, p.reigns, p.grants, t);
    var r := p.reigns[t];
    assert r.log[m] == l[m] && r.log[|r.start| - 1] == r.start[|r.start| - 1];
    assert Ordered(r.log, m, |r.start| - 1);
  }

  /** Validity of logs. */
  lemma LogsHoldWhatClientsStarted(n: nat, states: seq<System>, acts: seq<Action>, guarded: bool, k: nat, i: int,
                                   m: int)
    requires IsRun(n, states, acts, guarded) && k < |states| && 0 <= i < |states[k].servers|
    requires 1 <= m < |states[k].servers[i].log|
    ensures WasStarted(states, acts, k, states[k].servers[i].log, m)
  {
    RunHolds(n, states, acts, guarded, k);
    ReignsStarted(n, states, acts, guarded, k);
    ServerLogGood(states[k], guarded, i);
    var l, rs := states[k].servers[i].log, states[k].hist.reigns;
    LogPastTheStart(states[k], guarded, l, m);
    hide SysInv, GoodLog, WasStarted;
    var t := l[m].term;
    assert ReignStartedAt(states, acts, k, rs, t, m);
    SamePlace(states, acts, k, rs[t].log, l, m);
  }

  lemma LogPastTheStart(sys: System, strict: bool, l: Log, m: int)
    requires SysInv(sys, strict) && GoodLog(sys.hist.reigns, l) && 1 <= m < |l|
    ensures var t, rs := l[m].term, sys.hist.reigns;
            t in rs && |rs[t].start| <= m < |rs[t].log| && l[..m + 1] <= rs[t].log
  {
    hide LogsOK, RolesOK, GrantsOK, BidsOK, BallotsOK, NetOK, MatchOK, AcksOK, AckKept, VotesSafe, CommitOK, AppliedOK;
    PastTheStart(View(sys, strict), l, m);
  }

  lemma SamePlace(states: seq<System>, acts: seq<Action>, k: nat, r: Log, l: Log, m: int)
    requires 0 <= m < |l| && m < |r| && l[..m + 1] <= r && WasStarted(states, acts, k, r, m)
    ensures WasStarted(states, acts, k, l, m)
  {
    assert l[..m] == r[..m] && l[m] == l[..m + 1][m] == r[m];
    var j :| j < k && Started(states, acts, j, r[m].command, r[m].term, r[..m]);
    assert Started(states, acts, j, l[m].command, l[m].term, l[..m]);
  }

  /** Validity of services: whatever is applied, a client started it, on the leader of its term and on
      exactly the log before it. */
  lemma OnlyStartedCommandsAreApplied(n: nat, states: seq<System>, acts: seq<Action>, guarded: bool, k: nat)
    requires IsRun(n, states, acts, guarded) && k < |acts| && acts[k].ApplyNext?
    ensures 0 <= acts[k].i < |states[k].servers|
    ensures var s := states[k].servers[acts[k].i];
            1 <= s.lastApplied + 1 < |s.log| && WasStarted(states, acts, k, s.log, s.lastApplied + 1)
  {
    RunHolds(n, states, acts, guarded, k);
    assert StepAt(states, acts, k, guarded);
    hide Inv, WasStarted;
    LogsHoldWhatClientsStarted(n, states, acts, guarded, k, acts[k].i, states[k].servers[acts[k].i].lastApplied + 1);
  }

  /** A leader's answer to a client is where the command is: the index it returned holds the command, with
      the term it returned, as long as that leader stays in office. */
  lemma StartAnswersTruly(n: nat, states: seq<System>, acts: seq<Action>, guarded: bool, j: nat, k: nat, i: int,
                          x: Command)
    requires IsRun(n, states, acts, guarded) && j < k < |states| && acts[j] == ClientStart(i, x)
    requires 0 <= i < |states[j].servers| && LeaderAt(states[k], i, states[j].servers[i].currentTerm)
    ensures var m, t, l := |states[j].servers[i].log|, states[j].servers[i].currentTerm, states[k].servers[i].log;
            m < |l| && l[m] == Entry(x, t, m) && l[..m] == states[j].servers[i].log
  {
    RunHolds(n, states, acts, guarded, j);
    assert StepAt(states, acts, j, guarded);
    StartAppends(states[j], guarded, i, x);
    LeaderAppendOnly(n, states, acts, guarded, j + 1, k, i, states[j].servers[i].currentTerm);
    var l, l' := states[j + 1].servers[i].log, states[k].servers[i].log;
    assert l == l'[..|l|];
  }

  lemma StartAppends(sys: System, guarded: bool, i: int, x: Command)
    requires SysInv(sys, guarded) && Enabled(sys, ClientStart(i, x), guarded)
    ensures var s, s' := sys.servers[i], Exec(sys, ClientStart(i, x), guarded).servers[i];
            && s'.state == Leader && s'.currentTerm == s.currentTerm
            && s'.log == s.log + [Entry(x, s.currentTerm, |s.log|)]
  {
    ViewRow(sys, guarded, i);
    LeaderFacts(View(sys, guarded), i);
    hide Inv, View, Broadcast;
  }
}
