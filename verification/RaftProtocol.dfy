/** The protocol seen from above: one column per field of the peers, a network, and the history
    of votes, bids, reigns, acknowledgements and applied commands. Every handler of a peer is a
    short sequence of the small steps below (module RaftRefinement proves that), and every small step
    keeps the invariant `Inv` (module RaftInvariant proves that). */
module RaftProtocol {
  import opened RaftTypes
  import opened Quorums

  /** The leadership of one term: who won, with which log and voters, and the log as it grows. */
  datatype Reign = Reign(leader: int, start: Log, log: Log, voters: set<int>)

  datatype Proto = Proto(
    term: seq<int>, vote: seq<int>, role: seq<Role>, log: seq<Log>, commit: seq<int>,
    matched: seq<seq<int>>, ballots: seq<map<int, Ballot>>,
    net: set<Message>,
    // history
    grants: set<(int, int, int)>,       // (voter, term, candidate)
    bids: map<(int, int), Log>,         // (candidate, term) -> log it ran with
    reigns: map<int, Reign>,            // term -> its leadership
    acks: map<(int, int), nat>,         // (peer, term) -> length it accepted from that term's leader
    applied: set<(int, int, Command)>,  // (peer, index, command)
    strict: bool)                       // replies are consumed only in the term of their request
  {
    ghost predicate Shaped() {
      && |vote| == |term| && |role| == |term| && |log| == |term| && |commit| == |term|
      && |matched| == |term| && |ballots| == |term|
    }
  }

  ghost function Ack(acks: map<(int, int), nat>, i: int, t: int): nat {
    if (i, t) in acks then acks[(i, t)] else 0
  }

  /** Every entry was written by the leader of its term, at that place, after those entries. */
  ghost predicate Rooted(reigns: map<int, Reign>, l: Log) {
    forall k {:trigger RootedAt(reigns, l, k)} :: RootedAt(reigns, l, k)
  }

  ghost predicate RootedAt(reigns: map<int, Reign>, l: Log, k: int) {
    1 <= k < |l| ==> l[k].term in reigns && l[..k + 1] <= reigns[l[k].term].log
  }

  ghost predicate GoodLog(reigns: map<int, Reign>, l: Log) {
    WellFormed(l) && Rooted(reigns, l)
  }

  /** No leadership strictly between the two terms started without the prefix p. */
  ghost predicate Kept(reigns: map<int, Reign>, lo: int, hi: int, p: Log) {
    forall t :: lo < t < hi && t in reigns ==> p <= reigns[t].start
  }

  ghost function Ackers(n: nat, acks: map<(int, int), nat>, t: int, m: nat): set<int> {
    set i | 0 <= i < n && Ack(acks, i, t) >= m
  }

  /** The rule of section 5.4.2: a majority accepted m entries, the last one of the leader's own term. */
  ghost predicate Committed(n: nat, acks: map<(int, int), nat>, reigns: map<int, Reign>, t: int, m: nat) {
    && t in reigns
    && 1 <= m <= |reigns[t].log|
    && reigns[t].log[m - 1].term == t
    && Quorum(n, Ackers(n, acks, t, m))
  }

  /** p is the sentinel, or part of what was committed in a term not after hi. */
  ghost predicate Covered(n: nat, acks: map<(int, int), nat>, reigns: map<int, Reign>, p: Log, hi: int) {
    |p| <= 1 || exists t: int, m: nat ::
                  t <= hi && Committed(n, acks, reigns, t, m) && p <= reigns[t].log[..m]
  }

  ghost function Supporters(n: nat, grants: set<(int, int, int)>, c: int, t: int, awaiting: set<int>): set<int> {
    set v | 0 <= v < n && v !in awaiting && (v, t, c) in grants
  }

  // ----- the invariant, one predicate per concern -----

  ghost predicate LogsOK(term: seq<int>, log: seq<Log>, reigns: map<int, Reign>) {
    |log| == |term| && forall i :: 0 <= i < |term| ==> GoodLog(reigns, log[i]) && LastTerm(log[i]) <= term[i]
  }

  ghost predicate ReignOK(term: seq<int>, reigns: map<int, Reign>, grants: set<(int, int, int)>, t: int)
    requires t in reigns
  {
    var r := reigns[t];
    && 0 <= r.leader < |term| && 1 <= t <= term[r.leader]
    && GoodLog(reigns, r.log)
    && 0 < |r.start| && r.start <= r.log
    && LastTerm(r.start) < t
    && (forall k :: |r.start| <= k < |r.log| ==> r.log[k].term == t)
    && (forall v :: v in r.voters ==> (v, t, r.leader) in grants)
    && Quorum(|term|, r.voters)
  }

  ghost predicate ReignsOK(term: seq<int>, reigns: map<int, Reign>, grants: set<(int, int, int)>) {
    forall t {:trigger ReignOK(term, reigns, grants, t)} :: t in reigns ==> ReignOK(term, reigns, grants, t)
  }

  ghost predicate Leads(reigns: map<int, Reign>, i: int, t: int) {
    t in reigns && reigns[t].leader == i
  }

  ghost predicate RolesOK(term: seq<int>, vote: seq<int>, role: seq<Role>, log: seq<Log>,
                          bids: map<(int, int), Log>, reigns: map<int, Reign>)
  {
    && |vote| == |term| && |role| == |term| && |log| == |term|
    && (forall i :: 0 <= i < |term| && role[i] == Leader ==>
          Leads(reigns, i, term[i]) && reigns[term[i]].log == log[i] && vote[i] == i)
    && (forall i :: 0 <= i < |term| && role[i] == Candidate ==>
          && (i, term[i]) in bids && bids[(i, term[i])] == log[i]
          && vote[i] == i && !Leads(reigns, i, term[i]))
  }

  ghost predicate GrantsOK(term: seq<int>, vote: seq<int>, grants: set<(int, int, int)>, bids: map<(int, int), Log>) {
    && |vote| == |term|
    && (forall i :: 0 <= i < |term| ==> 0 <= term[i] && -1 <= vote[i])
    && (forall i :: 0 <= i < |term| && vote[i] >= 0 ==> (i, term[i], vote[i]) in grants)
    && (forall v, t, c :: (v, t, c) in grants ==>
          && 0 <= v < |term| && 0 <= c < |term| && 1 <= t <= term[v]
          && (t == term[v] ==> vote[v] == c)
          && (c, t) in bids)
    && (forall v, t, c, d :: (v, t, c) in grants && (v, t, d) in grants ==> c == d)
  }

  ghost predicate BidsOK(term: seq<int>, bids: map<(int, int), Log>, reigns: map<int, Reign>) {
    forall c, t :: (c, t) in bids ==>
      && 0 <= c < |term| && 1 <= t <= term[c]
      && GoodLog(reigns, bids[(c, t)]) && LastTerm(bids[(c, t)]) < t
      && (Leads(reigns, c, t) ==> reigns[t].start == bids[(c, t)])
  }

  ghost predicate BallotsOK(term: seq<int>, ballots: seq<map<int, Ballot>>, grants: set<(int, int, int)>) {
    && |ballots| == |term|
    && forall c, t :: 0 <= c < |term| && t in ballots[c] ==>
         && t <= term[c]
         && ballots[c][t].count <= |Supporters(|term|, grants, c, t, ballots[c][t].awaiting)|
  }

  ghost predicate AppendOK(strict: bool, n: nat, reigns: map<int, Reign>, acks: map<(int, int), nat>, a: AppendArgs) {
    && a.term in reigns && reigns[a.term].leader == a.leaderId
    && 0 <= a.prevLogIndex && a.prevLogIndex + 1 + |a.entries| <= |reigns[a.term].log|
    && a.prevLogTerm == reigns[a.term].log[a.prevLogIndex].term
    && a.entries == reigns[a.term].log[a.prevLogIndex + 1..a.prevLogIndex + 1 + |a.entries|]
    && (strict ==>
          && 0 <= a.leaderCommit <= a.prevLogIndex + |a.entries|
          && Covered(n, acks, reigns, reigns[a.term].log[..a.leaderCommit + 1], a.term))
  }

  /** The leader of term x wrote the entry at index k. */
  ghost predicate WroteAt(reigns: map<int, Reign>, x: int, k: int) {
    x in reigns && 0 <= k < |reigns[x].log| && reigns[x].log[k].term == x
  }

  ghost predicate MessageOK(strict: bool, n: nat, bids: map<(int, int), Log>, grants: set<(int, int, int)>,
                            reigns: map<int, Reign>, acks: map<(int, int), nat>, m: Message)
  {
    match m
    case VoteRequest(a, to) =>
      && (a.candidateId, a.term) in bids
      && var l := bids[(a.candidateId, a.term)];
         |l| > 0 && a.lastLogIndex == |l| - 1 && a.lastLogTerm == LastTerm(l)
    case VoteResponse(a, from, r) =>
      r.voteGranted ==> (from, a.term, a.candidateId) in grants
    case AppendRequest(a, to) =>
      AppendOK(strict, n, reigns, acks, a) && to != a.leaderId
    case AppendResponse(a, from, r) =>
      && AppendOK(strict, n, reigns, acks, a) && from != a.leaderId
      && (r.success ==> Ack(acks, from, a.term) >= a.prevLogIndex + 1 + |a.entries|)
      && (r.conflict && r.xTerm == -1 ==> 1 <= r.xLen <= a.prevLogIndex)
      && (r.conflict && r.xTerm != -1 ==>
            && 1 <= r.xIndex <= a.prevLogIndex && r.xTerm != a.prevLogTerm && WroteAt(reigns, r.xTerm, a.prevLogIndex))
  }

  ghost predicate NetOK(strict: bool, n: nat, net: set<Message>, bids: map<(int, int), Log>, grants: set<(int, int,
                        int)>,
                        reigns: map<int, Reign>, acks: map<(int, int), nat>)
  {
    forall m :: m in net ==> MessageOK(strict, n, bids, grants, reigns, acks, m)
  }

  ghost predicate MatchOK(term: seq<int>, role: seq<Role>, matched: seq<seq<int>>, acks: map<(int, int), nat>) {
    && |role| == |term| && |matched| == |term|
    && (forall i :: 0 <= i < |term| ==> |matched[i]| == |term|)
    && forall i, p :: 0 <= i < |term| && role[i] == Leader && 0 <= p < |term| && p != i && matched[i][p] > 0 ==>
         Ack(acks, p, term[i]) >= matched[i][p] + 1
  }

  ghost predicate AcksOK(term: seq<int>, role: seq<Role>, log: seq<Log>, acks: map<(int, int), nat>,
                         reigns: map<int, Reign>)
  {
    && |role| == |term| && |log| == |term|
    && (forall i, t :: (i, t) in acks ==>
          0 <= i < |term| && t in reigns && t <= term[i] && acks[(i, t)] <= |reigns[t].log|)
    && (forall i :: 0 <= i < |term| && role[i] == Leader ==> Ack(acks, i, term[i]) == |log[i]|)
  }

  /** What a peer accepted in term t is still in its log, unless a later leader started without it. */
  ghost predicate AckKept(term: seq<int>, log: seq<Log>, acks: map<(int, int), nat>, reigns: map<int, Reign>) {
    && |log| == |term|
    && forall i, t, m: nat {:trigger AckKeptAt(term, log, acks, reigns, i, t, m)} ::
         AckKeptAt(term, log, acks, reigns, i, t, m)
  }

  ghost predicate AckKeptAt(term: seq<int>, log: seq<Log>, acks: map<(int, int), nat>, reigns: map<int, Reign>,
                            i: int, t: int, m: nat)
    requires |log| == |term|
  {
    && 0 <= i < |term| && t in reigns && m <= Ack(acks, i, t) && m <= |reigns[t].log|
    && Kept(reigns, t, term[i] + 1, reigns[t].log[..m])
    ==> reigns[t].log[..m] <= log[i]
  }

  /** What a voter had accepted in an earlier term is in the log it voted for, under the same proviso.
      Only votes that can still elect, or did elect, matter. */
  ghost predicate VotesSafe(grants: set<(int, int, int)>, bids: map<(int, int), Log>,
                            acks: map<(int, int), nat>, reigns: map<int, Reign>)
  {
    forall v, u, c, t, m: nat {:trigger VoteSafeAt(grants, bids, acks, reigns, v, u, c, t, m)} ::
      VoteSafeAt(grants, bids, acks, reigns, v, u, c, t, m)
  }

  ghost predicate VoteSafeAt(grants: set<(int, int, int)>, bids: map<(int, int), Log>,
                             acks: map<(int, int), nat>, reigns: map<int, Reign>,
                             v: int, u: int, c: int, t: int, m: nat)
  {
    && (v, u, c) in grants && (c, u) in bids
    && (u in reigns ==> v in reigns[u].voters)
    && t in reigns && t < u && 1 <= m <= Ack(acks, v, t) && m <= |reigns[t].log|
    && reigns[t].log[m - 1].term == t
    && Kept(reigns, t, u, reigns[t].log[..m])
    ==> reigns[t].log[..m] <= bids[(c, u)]
  }

  ghost predicate CommitOK(term: seq<int>, log: seq<Log>, commit: seq<int>, acks: map<(int, int), nat>,
                           reigns: map<int, Reign>)
  {
    && |log| == |term| && |commit| == |term|
    && (forall i :: 0 <= i < |term| ==> 0 <= commit[i] < |log[i]|)
    && (forall i {:trigger CommitAt(term, log, commit, acks, reigns, i)} ::
          0 <= i < |term| ==> CommitAt(term, log, commit, acks, reigns, i))
  }

  ghost predicate CommitAt(term: seq<int>, log: seq<Log>, commit: seq<int>, acks: map<(int, int), nat>,
                           reigns: map<int, Reign>, i: int)
    requires 0 <= i < |term| && |log| == |term| && |commit| == |term| && 0 <= commit[i] < |log[i]|
  {
    Covered(|term|, acks, reigns, log[i][..commit[i] + 1], term[i])
  }

  ghost predicate Chosen(n: nat, acks: map<(int, int), nat>, reigns: map<int, Reign>, k: int, x: Command) {
    exists t: int, m: nat ::
      Committed(n, acks, reigns, t, m) && 0 <= k < m && reigns[t].log[k].command == x
  }

  ghost predicate AppliedOK(n: nat, applied: set<(int, int, Command)>, acks: map<(int, int), nat>,
                            reigns: map<int, Reign>)
  {
    forall i, k, x :: (i, k, x) in applied ==> k >= 1 && Chosen(n, acks, reigns, k, x)
  }

  ghost predicate Inv(p: Proto) {
    && p.Shaped()
    && LogsOK(p.term, p.log, p.reigns)
    && ReignsOK(p.term, p.reigns, p.grants)
    && RolesOK(p.term, p.vote, p.role, p.log, p.bids, p.reigns)
    && GrantsOK(p.term, p.vote, p.grants, p.bids)
    && BidsOK(p.term, p.bids, p.reigns)
    && BallotsOK(p.term, p.ballots, p.grants)
    && NetOK(p.strict, |p.term|, p.net, p.bids, p.grants, p.reigns, p.acks)
    && (p.strict ==> MatchOK(p.term, p.role, p.matched, p.acks))
    && AcksOK(p.term, p.role, p.log, p.acks, p.reigns)
    && AckKept(p.term, p.log, p.acks, p.reigns)
    && VotesSafe(p.grants, p.bids, p.acks, p.reigns)
    && (p.strict ==> CommitOK(p.term, p.log, p.commit, p.acks, p.reigns))
    && (p.strict ==> AppliedOK(|p.term|, p.applied, p.acks, p.reigns))
  }

  // ----- the small steps -----

  /** A follower enters a later term: the two assignments of `setNewTerm` that persist. */
  ghost function Bump(p: Proto, i: int, t: int): Proto
    requires p.Shaped() && 0 <= i < |p.term|
  {
    p.(term := p.term[i := t], vote := p.vote[i := -1])
  }

  ghost function SetRole(p: Proto, i: int, r: Role): Proto
    requires p.Shaped() && 0 <= i < |p.term|
  {
    p.(role := p.role[i := r])
  }

  /** A peer announces itself as candidate of its current term, with its current log. */
  ghost function Nominate(p: Proto, i: int): Proto
    requires p.Shaped() && 0 <= i < |p.term|
  {
    p.(bids := p.bids[(i, p.term[i]) := p.log[i]])
  }

  /** A peer votes for c in its current term. */
  ghost function Grant(p: Proto, i: int, c: int): Proto
    requires p.Shaped() && 0 <= i < |p.term|
  {
    p.(vote := p.vote[i := c], grants := p.grants + {(i, p.term[i], c)})
  }

  /** The votes a peer has counted, per election it ran. */
  ghost function SetBallots(p: Proto, i: int, b: map<int, Ballot>): Proto
    requires p.Shaped() && 0 <= i < |p.term|
  {
    p.(ballots := p.ballots[i := b])
  }

  /** A candidate with a majority becomes leader. */
  ghost function Crown(p: Proto, c: int): Proto
    requires p.Shaped() && 0 <= c < |p.term| && p.term[c] in p.ballots[c]
  {
    var t := p.term[c];
    var voters := Supporters(|p.term|, p.grants, c, t, p.ballots[c][t].awaiting);
    p.(role := p.role[c := Leader],
       reigns := p.reigns[t := Reign(c, p.log[c], p.log[c], voters)],
       acks := p.acks[(c, t) := |p.log[c]|])
  }

  ghost function Send(p: Proto, ms: set<Message>): Proto {
    p.(net := p.net + ms)
  }

  /** A leader appends a command to its log. */
  ghost function Propose(p: Proto, i: int, x: Command): Proto
    requires p.Shaped() && 0 <= i < |p.term| && p.term[i] in p.reigns
  {
    var t := p.term[i];
    var l := p.log[i] + [Entry(x, t, |p.log[i]|)];
    p.(log := p.log[i := l], reigns := p.reigns[t := p.reigns[t].(log := l)], acks := p.acks[(i, t) := |l|])
  }

  /** A follower whose log matches at prevLogIndex merges what the leader sent. */
  ghost function Accept(p: Proto, i: int, a: AppendArgs): Proto
    requires p.Shaped() && 0 <= i < |p.term| && 0 <= a.prevLogIndex < |p.log[i]|
  {
    var got := a.prevLogIndex + 1 + |a.entries|;
    var had := Ack(p.acks, i, a.term);
    p.(log := p.log[i := Merge(p.log[i], a.prevLogIndex, a.entries)],
       acks := p.acks[(i, a.term) := if got > had then got else had])
  }

  ghost function SetCommit(p: Proto, i: int, k: int): Proto
    requires p.Shaped() && 0 <= i < |p.term|
  {
    p.(commit := p.commit[i := k])
  }

  ghost function SetMatch(p: Proto, i: int, ms: seq<int>): Proto
    requires p.Shaped() && 0 <= i < |p.term|
  {
    p.(matched := p.matched[i := ms])
  }

  /** The apply loop hands the entry at index k to the service. */
  ghost function Deliver(p: Proto, i: int, k: int): Proto
    requires p.Shaped() && 0 <= i < |p.term| && 0 <= k < |p.log[i]|
  {
    p.(applied := p.applied + {(i, k, p.log[i][k].command)})
  }
}
