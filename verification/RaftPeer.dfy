/** A Raft peer as the program runs it: fields updated in place, loops over peers and entries.
    Each handler is proved equal to its function in RaftServer. */
module RaftPeer {
  import opened RaftTypes
  import opened RaftServer

  /** The bytes `persistData` encodes, kept as the value they encode. */
  datatype Image = Image(currentTerm: int, votedFor: int, entries: seq<Entry>, index0: int)

  datatype Storage = Blank | Written(image: Image)

  /** The counters one election's goroutines share. */
  class Tally {
    var count: int
    var fired: bool

    constructor ()
      ensures count == 1 && !fired
    {
      count, fired := 1, false;
    }
  }

  class Peer {
    const me: int
    const n: nat
    var currentTerm: int
    var votedFor: int
    var state: Role
    var leaderId: int
    var entries: seq<Entry>
    var index0: int
    var commitIndex: int
    var lastApplied: int
    var lastIndex: int
    var lastTerm: int
    const nextIndex: array<int>
    const matchIndex: array<int>
    var storage: Storage
    var snapshot: seq<int>

    ghost predicate Valid()
      reads this
    {
      && nextIndex.Length == n && matchIndex.Length == n && nextIndex != matchIndex
      && 0 <= me < n && |entries| > 0 && 0 <= index0 && 0 <= commitIndex && 0 <= lastApplied
    }

    /** The setting of the protocol handlers: nothing has been compacted. */
    ghost predicate Uncompacted()
      reads this
    {
      && Valid() && index0 == 0
      && (storage.Written? ==> storage.image.index0 == 0)
    }

    ghost function Value(): Server
      reads this, nextIndex, matchIndex
    {
      Server(currentTerm, votedFor, state, leaderId, entries, commitIndex, lastApplied, nextIndex[..], matchIndex[..],
             match storage
             case Blank => Empty
             case Written(i) => Holds(Saved(i.currentTerm, i.votedFor, i.entries)))
    }

    /** `Make`: a fresh peer, then whatever the machine has on disk. */
    constructor (me: int, n: nat, disk: Storage, snapshot: seq<int>)
      requires 0 <= me < n
      requires disk.Written? ==> |disk.image.entries| > 0 && disk.image.index0 >= 0
      ensures Valid() && this.me == me && this.n == n && fresh(nextIndex) && fresh(matchIndex)
      ensures storage == disk && this.snapshot == snapshot && state == Follower
      ensures disk.Blank? || disk.image.index0 == 0 ==> Uncompacted()
      ensures disk.Blank? ==> Value() == Fresh(n)
      ensures disk.Written? ==>
                && currentTerm == disk.image.currentTerm && votedFor == disk.image.votedFor
                && entries == disk.image.entries && index0 == disk.image.index0
                && commitIndex == index0 && lastApplied == index0
      ensures forall s: Server ::
                (s.disk == Value().disk && |s.nextIndex| == n && (disk.Blank? || disk.image.index0 == 0))
                ==> Value() == Restart(s)
    {
      this.me, this.n := me, n;
      currentTerm, votedFor, state, leaderId := 0, -1, Follower, 0;
      entries, index0 := [SENTINEL], 0;
      commitIndex, lastApplied, lastIndex, lastTerm := 0, 0, 0, 0;
      nextIndex := new int[n](_ => 0);
      matchIndex := new int[n](_ => 0);
      storage, this.snapshot := disk, snapshot;
      if disk.Written? {
        currentTerm, votedFor := disk.image.currentTerm, disk.image.votedFor;
        entries, index0 := disk.image.entries, disk.image.index0;
        lastApplied, commitIndex := disk.image.index0, disk.image.index0;
      }
      new;
      assert nextIndex[..] == seq(n, _ => 0) && matchIndex[..] == seq(n, _ => 0);
    }

    // ----- the log -----

    function At(idx: int): Entry
      requires index0 <= idx < index0 + |entries|
      reads this
    {
      entries[idx - index0]
    }

    function Len(): int
      reads this
    {
      |entries| + index0
    }

    function LastLog(): Entry
      requires |entries| > 0
      reads this
    {
      At(Len() - 1)
    }

    /** Indices equal positions, counted from Index0. */
    ghost predicate Indexed()
      reads this
    {
      forall k :: 0 <= k < |entries| ==> entries[k].index == index0 + k
    }

    method Persist()
      modifies this`storage
      ensures storage == Written(Image(currentTerm, votedFor, entries, index0))
    {
      storage := Written(Image(currentTerm, votedFor, entries, index0));
    }

    // ----- elections -----

    method SetNewTerm(term: int)
      requires Uncompacted()
      modifies this`state, this`currentTerm, this`votedFor, this`storage
      ensures Uncompacted() && Value() == RaftServer.SetNewTerm(old(Value()), term)
      ensures term > old(currentTerm) ==> currentTerm == term && state == Follower && votedFor == -1
    {
      if term > currentTerm || currentTerm == 0 {
        state := Follower;
        currentTerm := term;
        votedFor := -1;
        Persist();
      }
    }

    /** A new term, a vote for itself, and a request for every other peer's. */
    method LeaderElection() returns (args: VoteArgs, tally: Tally, out: seq<Message>)
      requires Uncompacted() && Indexed()
      modifies this`currentTerm, this`state, this`votedFor, this`storage
      ensures Uncompacted() && fresh(tally) && tally.count == 1 && !tally.fired
      ensures (Value(), args) == BeginElection(old(Value()), me)
      ensures currentTerm == old(currentTerm) + 1 && state == Candidate && votedFor == me
      ensures args == VoteArgs(currentTerm, me, |entries| - 1, LastTerm(entries))
      ensures forall p :: 0 <= p < n && p != me ==> VoteRequest(args, p) in out
      ensures forall m :: m in out ==> m.VoteRequest? && m.vargs == args && 0 <= m.to < n && m.to != me
    {
      currentTerm := currentTerm + 1;
      state := Candidate;
      votedFor := me;
      Persist();
      tally := new Tally();
      var last := LastLog();
      args := VoteArgs(currentTerm, me, last.index, last.term);
      out := [];
      for p := 0 to n
        invariant forall v :: 0 <= v < p && v != me ==> VoteRequest(args, v) in out
        invariant forall m :: m in out ==> m.VoteRequest? && m.vargs == args && 0 <= m.to < p && m.to != me
      {
        if p != me {
          out := out + [VoteRequest(args, p)];
        }
      }
    }

    method RequestVote(args: VoteArgs) returns (reply: VoteReply)
      requires Uncompacted() && Indexed()
      modifies this`state, this`currentTerm, this`votedFor, this`storage
      ensures Uncompacted() && (Value(), reply) == OnVoteRequest(old(Value()), args)
      ensures reply.term == currentTerm == Max(old(currentTerm), args.term)
      ensures args.term > old(currentTerm) ==> state == Follower
      ensures reply.voteGranted <==>
                && args.term == currentTerm && AtLeastAsRecent(args.lastLogTerm, args.lastLogIndex, entries)
                && (args.term > old(currentTerm) || old(votedFor) == -1 || old(votedFor) == args.candidateId)
      ensures reply.voteGranted ==> votedFor == args.candidateId
    {
      if args.term < currentTerm {
        return VoteReply(currentTerm, false);
      }
      if args.term > currentTerm {
        SetNewTerm(args.term);
      }
      var last := LastLog();
      var valid := args.lastLogTerm > last.term || (args.lastLogTerm == last.term && args.lastLogIndex >= last.index);
      var granted := false;
      if (votedFor == -1 || votedFor == args.candidateId) && valid {
        votedFor := args.candidateId;
        Persist();
        granted := true;
      }
      reply := VoteReply(currentTerm, granted);
    }

    /** A goroutine of an election, once its call has returned. */
    method CandidateRequest(tally: Tally, args: VoteArgs, reply: VoteReply, ghost awaiting: set<int>)
      returns (won: bool, out: seq<Message>)
      requires Uncompacted() && Indexed()
      modifies this`state, this`currentTerm, this`votedFor, this`storage, nextIndex, matchIndex, tally
      ensures Uncompacted()
      ensures (Value(), Ballot(tally.count, tally.fired, awaiting), won)
           == OnVoteResponse(old(Value()), Ballot(old(tally.count), old(tally.fired), awaiting), n, args, reply)
      ensures won <==> && reply.voteGranted && old(state) == Candidate && old(currentTerm) == args.term
                       && 2 * (old(tally.count) + 1) > n && !old(tally.fired)
      ensures won ==> state == Leader && currentTerm == old(currentTerm)
      ensures !reply.voteGranted && reply.term > old(currentTerm) ==> state == Follower && currentTerm == reply.term
      ensures forall m :: m in out <==> won && m in Broadcast(Value(), me, true)
    {
      won, out := false, [];
      if !reply.voteGranted && reply.term > currentTerm {
        SetNewTerm(reply.term);
        return;
      }
      if !reply.voteGranted {
        return;
      }
      tally.count := tally.count + 1;
      if 2 * tally.count > n && currentTerm == args.term && state == Candidate && !tally.fired {
        tally.fired := true;
        won := true;
        BecomeLeader();
        out := AppendEntriesToPeers(true);
      }
    }

    method BecomeLeader()
      requires Uncompacted() && Indexed()
      modifies this`state, this`storage, nextIndex, matchIndex
      ensures Uncompacted() && Value() == TakeOffice(old(Value()))
      ensures state == Leader && forall v :: 0 <= v < n ==> nextIndex[v] == |entries| && matchIndex[v] == 0
    {
      state := Leader;
      Persist();
      var last := LastLog();
      for p := 0 to n
        modifies nextIndex, matchIndex
        invariant forall v :: 0 <= v < p ==> nextIndex[v] == |entries| && matchIndex[v] == 0
      {
        nextIndex[p] := last.index + 1;
        matchIndex[p] := 0;
      }
      ghost var s := TakeOffice(old(Value()));
      assert nextIndex[..] == s.nextIndex && matchIndex[..] == s.matchIndex;
    }

    // ----- replication, leader side -----

    /** The request that ships everything from index k on. */
    ghost function Tail(k: int): AppendArgs
      requires 1 <= k <= |entries|
      reads this
    {
      AppendArgs(currentTerm, me, k - 1, entries[k - 1].term, entries[k..], commitIndex)
    }

    /** One round of AppendEntries requests. The snapshot path sends nothing here. */
    method AppendEntriesToPeers(heartBeat: bool) returns (out: seq<Message>)
      requires Uncompacted() && Indexed()
      ensures forall m :: m in out <==> m in Broadcast(Value(), me, heartBeat)
    {
      hide ClampNext, AppendArgsFor;
      out := [];
      var last := LastLog();
      ghost var s := Value();
      for p := 0 to n
        invariant forall m :: m in out ==> m.AppendRequest? && 0 <= m.to < p && Sends(s, me, m.to, heartBeat)
                                           && m == AppendRequest(AppendArgsFor(s, me, m.to), m.to)
        invariant forall v :: 0 <= v < p && Sends(s, me, v, heartBeat) ==>
                                AppendRequest(AppendArgsFor(s, me, v), v) in out
      {
        if p != me && (last.index >= nextIndex[p] || heartBeat) {
          var send, args := RequestFor(p);
          if send {
            out := out + [AppendRequest(args, p)];
          }
        }
      }
    }

    /** The clamps and the slice for one peer; `send` is false where the snapshot path would be taken. */
    method RequestFor(p: int) returns (send: bool, args: AppendArgs)
      requires Uncompacted() && Indexed() && 0 <= p < n
      ensures send <==> ClampNext(Value(), p) > 0
      ensures send ==> args == AppendArgsFor(Value(), me, p)
      ensures 1 <= nextIndex[p] <= |entries| ==>
                send && args == Tail(nextIndex[p])
    {
      var last := LastLog();
      var next := nextIndex[p];
      if next <= 0 {
        next := 1;
      }
      if last.index + 1 < next {
        next := last.index;
      }
      send := next > index0;
      var prev := if send then At(next - 1) else last;
      var tail := if send then entries[next - index0..] else [];
      args := AppendArgs(currentTerm, me, prev.index, prev.term, tail, commitIndex);
    }

    method Start(command: Command) returns (index: int, term: int, isLeader: bool, out: seq<Message>)
      requires Uncompacted() && Indexed()
      modifies this`entries, this`storage
      ensures Uncompacted() && Indexed()
      ensures isLeader <==> old(state) == Leader
      ensures term == currentTerm && index == if isLeader then |old(entries)| else -1
      ensures Value() == if isLeader then Append(old(Value()), command) else old(Value())
      ensures isLeader ==> entries == old(entries) + [Entry(command, currentTerm, |old(entries)|)]
      ensures forall m :: m in out <==> isLeader && m in Broadcast(Value(), me, false)
    {
      out := [];
      if state != Leader {
        return -1, currentTerm, false, out;
      }
      var entry := Entry(command, currentTerm, LastLog().index + 1);
      entries := entries + [entry];
      Persist();
      out := AppendEntriesToPeers(false);
      return entry.index, entry.term, true, out;
    }

    /** The commit rule: the highest index held by a majority whose entry is of the current term. */
    method Commit()
      requires Uncompacted() && Indexed()
      modifies this`commitIndex
      ensures Uncompacted() && Value() == RaftServer.Commit(old(Value()), me)
    {
      if state != Leader {
        return;
      }
      ghost var s := Value();
      assert LastLog().index == |entries| - 1;
      hide CommitFrom, MatchCount, CanCommit, Indexed;
      var k := commitIndex + 1;
      while k <= LastLog().index
        invariant Uncompacted() && s.commitIndex < k && LastLog().index == |s.log| - 1
        invariant Value() == s.(commitIndex := commitIndex)
        invariant CommitFrom(s, me, k, commitIndex) == CommitFrom(s, me, s.commitIndex + 1, s.commitIndex)
      {
        CommitStep(s, me, k, commitIndex);
        var can := Committable(k);
        SameCommit(s, commitIndex, me, k);
        if can {
          commitIndex := k;
        }
        k := k + 1;
      }
      CommitStep(s, me, k, commitIndex);
    }

    /** The two tests on one index: its entry is of the current term, and a majority holds it. */
    method Committable(k: int) returns (can: bool)
      requires Uncompacted() && 0 <= k < |entries|
      ensures can <==> CanCommit(Value(), me, k)
    {
      can := false;
      if At(k).term == currentTerm {
        can := HasMajority(k);
      }
    }

    /** The counting loop of `Commit`, with its early exit. */
    method HasMajority(k: int) returns (enough: bool)
      requires Uncompacted()
      ensures enough <==> 2 * (1 + MatchCount(matchIndex[..], me, k, n)) > n
    {
      var counter := 1;
      enough := false;
      for p := 0 to n
        invariant counter == 1 + MatchCount(matchIndex[..], me, k, p)
        invariant !enough && (p > 0 ==> 2 * counter <= n)
      {
        if p != me && matchIndex[p] >= k {
          counter := counter + 1;
        }
        if counter > n / 2 {
          CountRises(matchIndex[..], me, k, p + 1, n);
          return true;
        }
      }
    }

    method FindLastLogInTerm(x: int) returns (k: int)
      requires Uncompacted() && Indexed()
      ensures k == LastInTerm(entries, |entries| - 1, x)
    {
      var i := LastLog().index;
      while i > 0
        invariant i < |entries| && LastInTerm(entries, i, x) == LastInTerm(entries, |entries| - 1, x)
      {
        var term := At(i).term;
        if term == x {
          return i;
        } else if term < x {
          break;
        }
        i := i - 1;
      }
      return -1;
    }

    /** `leaderSendEntries`, once its call has returned. */
    method LeaderSendEntries(p: int, args: AppendArgs, reply: AppendReply)
      requires Uncompacted() && Indexed() && 0 <= p < n
      modifies this`state, this`currentTerm, this`votedFor, this`storage, this`commitIndex, nextIndex, matchIndex
      ensures Uncompacted() && Value() == OnAppendResponse(old(Value()), me, p, args, reply)
      ensures reply.term > old(currentTerm) ==> state == Follower && currentTerm == reply.term && votedFor == -1
      ensures reply.term <= old(currentTerm) ==> state == old(state) && currentTerm == old(currentTerm)
      ensures reply.term <= old(currentTerm) && state == Leader && reply.success ==>
                matchIndex[p] == Max(old(matchIndex[p]), args.prevLogIndex + |args.entries|)
    {
      if reply.term > currentTerm {
        SetNewTerm(reply.term);
        return;
      }
      if state == Leader {
        ghost var s := Value();
        if reply.success {
          var match_ := args.prevLogIndex + |args.entries|;
          nextIndex[p] := Max(nextIndex[p], match_ + 1);
          matchIndex[p] := Max(matchIndex[p], match_);
        } else if reply.conflict {
          if reply.xTerm == -1 {
            nextIndex[p] := reply.xLen;
          } else {
            var k := FindLastLogInTerm(reply.xTerm);
            if k > 0 {
              nextIndex[p] := k;
            } else {
              nextIndex[p] := reply.xIndex;
            }
          }
          assert nextIndex[..] == BackUp(s, p, reply).nextIndex;
        }
        Commit();
      }
    }

    // ----- replication, follower side -----

    method AppendEntries(args: AppendArgs) returns (reply: AppendReply)
      requires Uncompacted() && Indexed()
      requires forall k :: 0 <= k < |args.entries| ==> args.entries[k].index == args.prevLogIndex + 1 + k
      modifies this`state, this`currentTerm, this`votedFor, this`storage, this`leaderId, this`entries, this`commitIndex
      ensures Uncompacted() && Indexed() && (Value(), reply) == OnAppendRequest(old(Value()), args)
    {
      reply := Refuse(currentTerm);
      if args.term < currentTerm {
        return;
      }
      if args.term > currentTerm {
        SetNewTerm(args.term);
      }
      if args.prevLogIndex < index0 {
        return;
      }
      if state == Candidate {
        state := Follower;
        Persist();
      }
      leaderId := args.leaderId;
      assert Value() == Listen(old(Value()), args);
      reply := MatchAndMerge(args, reply);
    }

    /** The rest of the handler: the check at prevLogIndex, the merge, the commit index. */
    method MatchAndMerge(args: AppendArgs, refusal: AppendReply) returns (reply: AppendReply)
      requires Uncompacted() && Indexed() && 0 <= args.prevLogIndex
      requires forall k :: 0 <= k < |args.entries| ==> args.entries[k].index == args.prevLogIndex + 1 + k
      modifies this`storage, this`entries, this`commitIndex
      ensures Uncompacted() && Indexed() && (Value(), reply) == TakeEntries(old(Value()), args, refusal)
    {
      reply := refusal;
      if LastLog().index < args.prevLogIndex {
        reply := reply.(conflict := true, xTerm := -1, xIndex := -1, xLen := Len());
        return;
      }
      if At(args.prevLogIndex).term != args.prevLogTerm {
        var xTerm := At(args.prevLogIndex).term;
        var xIndex := FindRunStart(args.prevLogIndex, xTerm);
        reply := reply.(conflict := true, xTerm := xTerm, xIndex := xIndex, xLen := Len());
        return;
      }
      MergeEntries(args.prevLogIndex, args.entries);
      if args.leaderCommit > commitIndex {
        commitIndex := Min(args.leaderCommit, LastLog().index);
      }
      reply := reply.(success := true);
    }

    /** The backward scan for the first entry of the conflicting term. */
    method FindRunStart(prev: int, xTerm: int) returns (xIndex: int)
      requires Uncompacted() && 0 <= prev < |entries|
      ensures xIndex == RunStart(entries, prev, xTerm)
    {
      xIndex := 0;
      var x := prev;
      while x > 0
        invariant 0 <= x <= prev && RunStart(entries, x, xTerm) == RunStart(entries, prev, xTerm)
      {
        if At(x - 1).term != xTerm {
          return x;
        }
        x := x - 1;
      }
    }

    /** The loop that cuts the log at the first conflicting entry and appends the rest. */
    method MergeEntries(prev: int, es: seq<Entry>)
      requires Uncompacted() && Indexed() && 0 <= prev < |entries|
      requires forall k :: 0 <= k < |es| ==> es[k].index == prev + 1 + k
      modifies this`entries, this`storage
      ensures Uncompacted() && Indexed()
      ensures entries == Merge(old(entries), prev, es)
      ensures storage == if entries == old(entries) then old(storage)
                         else Written(Image(currentTerm, votedFor, entries, index0))
    {
      hide Merge;
      ghost var l := entries;
      var idx := 0;
      while idx < |es|
        invariant 0 <= idx <= |es| && Uncompacted() && Indexed()
        invariant entries == l && storage == old(storage) && prev + idx < |l|
        invariant Merge(l, prev, es) == Merge(l, prev + idx, es[idx..])
      {
        MergeStep(l, prev + idx, es[idx..]);
        var entry := es[idx];
        if entry.index <= LastLog().index && At(entry.index).term != entry.term {
          entries := entries[..entry.index - index0];
          Persist();
        }
        if entry.index > LastLog().index {
          entries := entries + es[idx..];
          Persist();
          assert entries == l[..prev + idx + 1] + es[idx..];
          return;
        }
        assert es[idx..][1..] == es[idx + 1..];
        idx := idx + 1;
      }
      MergeStep(l, prev + idx, es[idx..]);
    }

    // ----- applying -----

    /** One turn of `LoopCommit`; `applied` is false when the loop would wait. */
    method ApplyOne() returns (applied: bool, index: int, command: Command)
      requires Uncompacted() && Indexed()
      modifies this`lastApplied
      ensures Uncompacted() && applied == CanApply(old(Value()))
      ensures Value() == if applied then Apply(old(Value())) else old(Value())
      ensures applied ==> lastApplied == old(lastApplied) + 1
      ensures applied ==> index == lastApplied && 0 <= index < |entries| && command == entries[index].command
    {
      if commitIndex > lastApplied && LastLog().index > lastApplied {
        lastApplied := lastApplied + 1;
        return true, lastApplied, At(lastApplied).command;
      } else {
        return false, 0, Nil;
      }
    }

    // ----- log compaction -----

    /** The bounds a compacted peer lives by. */
    ghost predicate Bounded()
      reads this
    {
      Valid() && Indexed() && index0 <= lastApplied <= commitIndex < Len()
    }

    /** The disk holds the term, the vote and the compacted log that memory holds. */
    ghost predicate OnDisk()
      reads this
    {
      storage == Written(Image(currentTerm, votedFor, entries, index0))
    }

    /** The service has everything up to index in a snapshot; drop the log before it. The entry at
        index stays, as the new first entry. The peer stays within its bounds exactly when the
        request is turned down or covers only what has been applied. */
    method Snapshot(index: int, data: seq<int>)
      requires Bounded()
      modifies this`entries, this`index0, this`lastIndex, this`lastTerm, this`storage, this`snapshot
      ensures var taken := old(index0) <= index < old(Len()) - 1 && index <= commitIndex;
              && (taken ==> index0 == index && Len() == old(Len()) && OnDisk() && snapshot == data
                            && lastIndex == index && lastTerm == old(At(index)).term)
              && (!taken ==> index0 == old(index0) && entries == old(entries) && storage == old(storage)
                             && snapshot == old(snapshot))
              && (Bounded() <==> !taken || index <= lastApplied)
      ensures Valid() && Indexed() && forall k :: index0 <= k < Len() ==>
                old(index0) <= k < old(Len()) && At(k) == old(At(k))
    {
      if index >= LastLog().index || index < index0 {
        return;
      }
      if index > commitIndex {
        return;
      }
      lastIndex := index;
      lastTerm := At(index).term;
      var kept := [];
      var i := index;
      while i <= LastLog().index
        invariant index <= i <= Len()
        invariant kept == entries[index - index0..i - index0]
      {
        kept := kept + [At(i)];
        i := i + 1;
      }
      entries := kept;
      index0 := index;
      Persist();
      snapshot := data;
    }

    /** Switch to a snapshot received from the leader, unless the log has already committed past it. */
    method CondInstallSnapshot(lastIncludedTerm: int, lastIncludedIndex: int, data: seq<int>) returns (ok: bool)
      requires Bounded()
      modifies this`entries, this`index0, this`lastApplied, this`commitIndex, this`storage, this`snapshot
      ensures Bounded() && ok == (lastIncludedIndex > old(commitIndex))
      ensures !ok ==> && index0 == old(index0) && entries == old(entries) && storage == old(storage)
                      && snapshot == old(snapshot) && commitIndex == old(commitIndex) && lastApplied == old(lastApplied)
      ensures ok ==> index0 == lastApplied == commitIndex == lastIncludedIndex && OnDisk() && snapshot == data
      ensures ok ==> At(index0).term == lastIncludedTerm
      ensures ok ==> var held := lastIncludedIndex < old(Len()) && old(At(lastIncludedIndex)).term == lastIncludedTerm;
                     if held then Len() == old(Len()) && forall k :: index0 <= k < Len() ==> At(k) == old(At(k))
                     else entries == [Entry(Nil, lastIncludedTerm, lastIncludedIndex)]
    {
      if lastIncludedIndex <= commitIndex {
        return false;
      }
      if lastIncludedIndex <= LastLog().index && At(lastIncludedIndex).term == lastIncludedTerm {
        entries := entries[lastIncludedIndex - index0..];
      } else {
        entries := [Entry(Nil, lastIncludedTerm, lastIncludedIndex)];
      }
      index0 := lastIncludedIndex;
      lastApplied := lastIncludedIndex;
      commitIndex := lastIncludedIndex;
      Persist();
      snapshot := data;
      return true;
    }
  }

  /** A crash after a snapshot loses no entry: the peer that restarts has the same compacted log, term
      and vote, and starts applying right after the snapshot. */
  method RecoverFromSnapshot(p: Peer) returns (q: Peer)
    requires p.Bounded() && p.OnDisk()
    ensures fresh(q) && q.Bounded() && q.OnDisk() && q.me == p.me && q.n == p.n
    ensures q.entries == p.entries && q.index0 == p.index0 && q.snapshot == p.snapshot
    ensures q.currentTerm == p.currentTerm && q.votedFor == p.votedFor
    ensures q.lastApplied == q.commitIndex == p.index0 <= p.lastApplied
  {
    q := new Peer(p.me, p.n, p.storage, p.snapshot);
  }

  lemma SameCommit(s: Server, c: int, me: int, k: int)
    requires 0 <= k < |s.log|
    ensures CanCommit(s.(commitIndex := c), me, k) == CanCommit(s, me, k)
  {
  }

  /** One entry of the merge: it is there already, or the log is cut before it and changes. */
  lemma MergeStep(l: Log, prev: int, es: seq<Entry>)
    requires 0 <= prev < |l|
    ensures es == [] ==> Merge(l, prev, es) == l
    ensures es != [] && prev + 1 < |l| && l[prev + 1].term == es[0].term ==>
              Merge(l, prev, es) == Merge(l, prev + 1, es[1..])
    ensures es != [] && !(prev + 1 < |l| && l[prev + 1].term == es[0].term) ==>
              Merge(l, prev, es) == l[..prev + 1] + es && Merge(l, prev, es) != l
  {
    if es != [] {
      assert (l[..prev + 1] + es)[prev + 1] == es[0];
    }
  }

  lemma CommitStep(s: Server, me: int, k: int, best: int)
    requires 0 <= k
    ensures CommitFrom(s, me, k, best) ==
            if k >= |s.log| then best else CommitFrom(s, me, k + 1, if CanCommit(s, me, k) then k else best)
  {
  }

  lemma CountRises(m: seq<int>, me: int, k: int, a: nat, b: nat)
    requires a <= b <= |m|
    ensures MatchCount(m, me, k, a) <= MatchCount(m, me, k, b)
    decreases b
  {
    if a < b {
      CountRises(m, me, k, a, b - 1);
    }
  }
}
