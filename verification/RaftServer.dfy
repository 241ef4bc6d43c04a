/**
 The server as the code writes it: one object whose critical sections update its fields, with
 loops where the code loops. Every method is proved to do to the object what `RaftPeer` says the
 critical section does to the server's value, so the theorems about runs are about these methods.
 */
module RaftServer {
  import opened RaftLog
  import opened RaftPeer

  /** Saves the Raft state and the service's snapshot together, so that they never get out of step. */
  class Persister {
    var disk: Disk

    constructor ()
      ensures disk == Blank
    {
      disk := Blank;
    }

    method Save(term: int, votedFor: int, log: Log, snapIndex: nat, snapshot: seq<Command>)
      modifies this
      ensures disk == Saved(term, votedFor, log, snapIndex, snapshot)
    {
      disk := Saved(term, votedFor, log, snapIndex, snapshot);
    }
  }

  /** The counter shared by the goroutines of one vote round. */
  class VoteRound {
    var supporter: nat

    constructor ()
      ensures supporter == 1
    {
      supporter := 1;
    }
  }

  class Raft {
    const me: nat
    const peers: nat
    const persister: Persister

    var currentTerm: int
    var state: Role
    var votedFor: int
    var log: Log
    var commitIndex: int
    var lastApplied: int
    var nextIndex: seq<int>
    var matchIndex: seq<int>
    var snapIndex: nat
    var snapshot: seq<Command>

    /** The server's value. */
    ghost function View(): Peer
      reads this, persister
    {
      Peer(currentTerm, state, votedFor, log, commitIndex, lastApplied, nextIndex, matchIndex, snapIndex, snapshot,
          persister.disk)
    }

    /** Boot, or restart from what the persister holds. */
    constructor (me: nat, peers: nat, persister: Persister)
      ensures this.me == me && this.peers == peers && this.persister == persister
      ensures View() == Boot(persister.disk)
    {
      this.me, this.peers, this.persister := me, peers, persister;
      currentTerm, state, votedFor := 0, Follower, -1;
      log, commitIndex, lastApplied := [ORIGIN], 0, 0;
      nextIndex, matchIndex := [], [];
      snapIndex, snapshot := 0, [];
      new;
      ReadPersist();
    }

    method ReadPersist()
      modifies this
      ensures persister.disk == Blank ==> View() == old(View())
      ensures persister.disk != Blank ==>
                var b := Boot(persister.disk);
                View() == old(View()).(term := b.term, votedFor := b.votedFor, log := b.log,
                                       snapIndex := b.snapIndex, snapshot := b.snapshot)
    {
      match persister.disk
      case Blank =>
      case Saved(t, v, l, i, s) =>
        currentTerm, votedFor, log, snapIndex, snapshot := t, v, l, i, s;
    }

    method Persist()
      modifies persister
      ensures View() == RaftPeer.Persist(old(View()))
    {
      persister.Save(currentTerm, votedFor, log, snapIndex, snapshot);
    }

    // -------------------------------------------------------------- log access

    function Length(): (r: int)
      reads this, persister
      ensures r == LogLength(View())
    {
      |log| + snapIndex
    }

    function Entry(i: int): (r: Entry)
      reads this, persister
      requires InRange(View(), i)
      ensures r == Get(View(), i)
    {
      log[i - snapIndex]
    }

    method BatchAppend(entries: seq<RaftLog.Entry>)
      modifies this`log, persister
      ensures View() == RaftPeer.Persist(old(View()).(log := old(log) + entries))
    {
      log := log + entries;
      Persist();
    }

    // -------------------------------------------------------------- elections

    method NewGen(term: int)
      modifies this, persister
      ensures View() == RaftPeer.NewGen(old(View()), term)
    {
      currentTerm := term;
      state := Follower;
      votedFor := -1;
      Persist();
    }

    method BecomeCandidate()
      modifies this, persister
      ensures View() == RaftPeer.BecomeCandidate(old(View()), me)
    {
      currentTerm := currentTerm + 1;
      state := Candidate;
      votedFor := me;
      Persist();
    }

    method BecomeLeader()
      modifies this
      ensures View() == RaftPeer.BecomeLeader(old(View()), me, peers)
    {
      state := Leader;
      var lastLogIndex := Length() - 1;
      nextIndex, matchIndex := [], [];
      for i := 0 to peers
        invariant |nextIndex| == |matchIndex| == i && lastLogIndex + 1 == LogLength(old(View()))
        invariant forall j :: 0 <= j < i ==> nextIndex[j] == if j == me then -1 else lastLogIndex + 1
        invariant forall j :: 0 <= j < i ==> matchIndex[j] == if j == me then -1 else 0
        invariant View() == old(View()).(role := Leader, nextIndex := nextIndex, matchIndex := matchIndex)
      {
        if i == me {
          nextIndex, matchIndex := nextIndex + [-1], matchIndex + [-1];
        } else {
          nextIndex, matchIndex := nextIndex + [lastLogIndex + 1], matchIndex + [0];
        }
      }
      assert nextIndex == RaftPeer.BecomeLeader(old(View()), me, peers).nextIndex;
      assert matchIndex == RaftPeer.BecomeLeader(old(View()), me, peers).matchIndex;
    }

    method TryVotingFor(a: VoteArgs) returns (granted: bool)
      requires log != []
      modifies this`votedFor, persister
      ensures granted == GrantsVote(old(View()), a)
      ensures View() == if granted then RaftPeer.Persist(old(View()).(votedFor := a.candidate)) else old(View())
    {
      var myLastIndex := Length() - 1;
      var myLastTerm := Entry(myLastIndex).term;
      var upToDate := a.lastTerm > myLastTerm || (a.lastTerm == myLastTerm && a.lastIndex >= myLastIndex);
      granted := false;
      if (votedFor == -1 || votedFor == a.candidate) && upToDate {
        votedFor := a.candidate;
        Persist();
        granted := true;
      }
    }

    method RequestVote(a: VoteArgs) returns (reply: VoteReply)
      requires log != []
      modifies this, persister
      ensures (View(), reply) == HandleVote(old(View()), a)
    {
      if a.term > currentTerm {
        NewGen(a.term);
      }
      if a.term < currentTerm {
        return VoteReply(currentTerm, false);
      }
      var granted := TryVotingFor(a);
      reply := VoteReply(currentTerm, granted);
    }

    /** The request half of one goroutine of a vote round. */
    method AskForVote() returns (a: VoteArgs)
      requires log != []
      ensures a == MakeVoteArgs(View(), me)
    {
      var lastLogIndex := Length() - 1;
      a := VoteArgs(currentTerm, me, lastLogIndex, Entry(lastLogIndex).term);
    }

    /** The reply half: count the vote, and lead once the round's counter passes half the servers. */
    method CountVote(round: VoteRound, asked: int, reply: VoteReply)
      modifies this, persister, round
      ensures var (p, counts) := HandleVoteReply(old(View()), asked, reply);
              && round.supporter == (if counts then old(round.supporter) + 1 else old(round.supporter))
              && View() == if counts && round.supporter > peers / 2 then RaftPeer.BecomeLeader(p, me, peers) else p
    {
      if reply.term > currentTerm {
        NewGen(reply.term);
      }
      if reply.granted && state == Candidate && currentTerm == asked {
        round.supporter := round.supporter + 1;
        if round.supporter > peers / 2 {
          BecomeLeader();
        }
      }
    }

    // -------------------------------------------------------------- replication, at the follower

    /** Compare entry by entry from `myIdx`; cut at the first conflict; append what is left. */
    method ReconcileEntries(myIdx: int, entries: seq<RaftLog.Entry>)
      requires snapIndex < myIdx <= LogLength(View())
      modifies this`log, persister
      ensures View() == RaftPeer.Persist(old(View()).(log := Reconciled(old(log), myIdx - snapIndex, entries)))
    {
      hide CommonTerms, Spliced;
      var mine, yours := myIdx, 0;
      ghost var at := myIdx - snapIndex;
      ghost var d := CommonTerms(log[at..], entries);
      while mine < Length() && yours < |entries|
        invariant 0 <= yours <= d && mine == myIdx + yours
        invariant View() == old(View())
        decreases |entries| - yours
      {
        CommonAt(log, at, entries, d, yours);
        if Entry(mine).term != entries[yours].term {
          log := log[..mine - snapIndex];
          break;
        }
        mine, yours := mine + 1, yours + 1;
      }
      CommonAt(old(log), at, entries, d, yours);
      SplicedEnd(old(log), at, entries, d);
      BatchAppend(entries[yours..]);
    }

    method TryUpdateCommit(leaderCommit: int)
      modifies this`commitIndex
      ensures View() == RaftPeer.TryUpdateCommit(old(View()), leaderCommit)
    {
      if leaderCommit > commitIndex {
        commitIndex := if leaderCommit <= Length() - 1 then leaderCommit else Length() - 1;
      }
    }

    /** The first index of the conflicting term, scanning back but not into the snapshot. */
    method FirstOfRun(prev: int) returns (xIndex: int)
      requires snapIndex < prev < LogLength(View())
      ensures xIndex == RunStart(View(), prev)
    {
      xIndex := prev;
      while xIndex - 1 >= snapIndex + 1 && Entry(xIndex - 1).term == Entry(prev).term
        invariant snapIndex < xIndex <= prev
        invariant Entry(xIndex).term == Entry(prev).term
        invariant RunStart(View(), xIndex) == RunStart(View(), prev)
      {
        xIndex := xIndex - 1;
      }
    }

    method AppendEntries(a: AppendArgs) returns (reply: AppendReply)
      requires log != []
      modifies this, persister
      ensures (View(), reply) == HandleAppend(old(View()), a)
    {
      if a.term > currentTerm {
        NewGen(a.term);
      } else if state == Candidate && a.term == currentTerm {
        state := Follower;
      }
      if a.term < currentTerm {
        return AppendReply(currentTerm, false, 0, 0, 0);
      }
      assert View() == MeetLeader(old(View()), a.term);
      hide RaftPeer.TakeEntries;
      reply := TakeEntries(a);
    }

    /** The handler once terms are settled: check that the entries fit, and take them. */
    method TakeEntries(a: AppendArgs) returns (reply: AppendReply)
      requires log != []
      modifies this, persister
      ensures (View(), reply) == RaftPeer.TakeEntries(old(View()), a)
    {
      hide Reconciled, RunStart;
      if a.prev <= snapIndex {
        var appendStart := snapIndex - a.prev;
        if appendStart < |a.entries| {
          ReconcileEntries(snapIndex + 1, a.entries[appendStart..]);
        }
        TryUpdateCommit(a.leaderCommit);
        return AppendReply(currentTerm, true, 0, 0, 0);
      }
      if a.prev >= Length() {
        return AppendReply(currentTerm, false, -1, -1, Length());
      }
      if Entry(a.prev).term != a.prevTerm {
        var xIndex := FirstOfRun(a.prev);
        return AppendReply(currentTerm, false, Entry(a.prev).term, xIndex, -1);
      }
      ReconcileEntries(a.prev + 1, a.entries);
      TryUpdateCommit(a.leaderCommit);
      reply := AppendReply(currentTerm, true, 0, 0, 0);
    }

    // -------------------------------------------------------------- replication, at the leader

    /** The send half of one append, for a peer whose previous entry is not under the snapshot. */
    method PrepareAppend(i: nat) returns (a: AppendArgs)
      requires i < |nextIndex| && InRange(View(), nextIndex[i] - 1)
      ensures a == MakeAppendArgs(View(), me, nextIndex[i] - 1)
    {
      var prev := nextIndex[i] - 1;
      a := AppendArgs(currentTerm, me, prev, Entry(prev).term, log[prev + 1 - snapIndex..], commitIndex);
    }

    /** How many servers hold index `i`, this one included. */
    method CountHolders(i: int) returns (count: nat)
      ensures count == Support(View(), me, i, |matchIndex|)
    {
      count := 0;
      for k := 0 to |matchIndex|
        invariant count == Support(View(), me, i, k)
      {
        if k == me || matchIndex[k] >= i {
          count := count + 1;
        }
      }
    }

    method UpdateCommitIndex()
      requires |matchIndex| == peers
      modifies this`commitIndex
      ensures View() == RaftPeer.UpdateCommitIndex(old(View()), me)
    {
      var i := Length() - 1;
      while i > commitIndex && i > snapIndex
        invariant i <= Length() - 1
        invariant View() == old(View())
        invariant CommitPoint(old(View()), me, i) == CommitPoint(old(View()), me, Length() - 1)
        decreases i - snapIndex
      {
        var count := CountHolders(i);
        if count > peers / 2 && Entry(i).term == currentTerm {
          commitIndex := i;
          return;
        }
        i := i - 1;
      }
    }

    method LastIndexOfTerm(term: int) returns (k: int)
      ensures k == RaftPeer.LastIndexOfTerm(View(), term, LogLength(View()) - 1)
    {
      var i := Length() - 1;
      while i > snapIndex
        invariant i <= Length() - 1
        invariant RaftPeer.LastIndexOfTerm(View(), term, i) ==
                  RaftPeer.LastIndexOfTerm(View(), term, LogLength(View()) - 1)
      {
        if Entry(i).term == term {
          return i;
        }
        i := i - 1;
      }
      k := -1;
    }

    method StepBack(server: nat, r: AppendReply)
      requires server < |nextIndex|
      modifies this`nextIndex
      ensures View() == old(View()).(nextIndex := old(nextIndex)[server := SteppedBack(old(View()), r)])
    {
      if r.xTerm == -1 {
        nextIndex := nextIndex[server := if r.xLen <= Length() then r.xLen else Length()];
        return;
      }
      var k := LastIndexOfTerm(r.xTerm);
      if k != -1 {
        nextIndex := nextIndex[server := k + 1];
      } else {
        nextIndex := nextIndex[server := r.xIndex];
      }
    }

    /** The reply half of one append; it says whether to retry at once. */
    method AppendReplied(i: nat, a: AppendArgs, r: AppendReply) returns (retry: bool)
      requires state == Leader && currentTerm == a.term ==> i < |nextIndex| && |nextIndex| == |matchIndex| == peers
      modifies this, persister
      ensures View() == HandleAppendReply(old(View()), me, i, a, r)
      ensures retry <==> r.term <= old(currentTerm) == a.term && old(state) == Leader && !r.success
    {
      if r.term > currentTerm {
        NewGen(r.term);
        return false;
      }
      if currentTerm != a.term || state != Leader {
        return false;
      }
      if !r.success {
        StepBack(i, r);
        return true;
      }
      matchIndex := matchIndex[i := a.prev + |a.entries|];
      nextIndex := nextIndex[i := matchIndex[i] + 1];
      UpdateCommitIndex();
      retry := false;
    }

    method Start(c: Command) returns (index: int, term: int, ok: bool)
      modifies this`log, persister
      ensures View() == HandleStart(old(View()), c)
      ensures ok == (state == Leader)
      ensures ok ==> term == currentTerm && index == LogLength(View()) - 1
      ensures ok ==> InRange(View(), index) && Get(View(), index) == RaftLog.Entry(term, c)
      ensures !ok ==> index == -1 && term == -1
    {
      if state != Leader {
        return -1, -1, false;
      }
      log := log + [RaftLog.Entry(currentTerm, c)];
      Persist();
      return Length() - 1, currentTerm, true;
    }

    // -------------------------------------------------------------- snapshots

    method Snapshot(index: int, data: seq<Command>)
      requires index < LogLength(View())
      modifies this, persister
      ensures View() == TakeSnapshot(old(View()), index, data)
    {
      if index <= snapIndex {
        return;
      }
      var snapTerm := Entry(index).term;
      log := [RaftLog.Entry(snapTerm, NoCommand)] + log[index - snapIndex + 1..];
      snapIndex := index;
      snapshot := data;
      Persist();
    }

    method PrepareInstall() returns (a: InstallArgs)
      requires log != []
      ensures a == MakeInstallArgs(View(), me)
    {
      a := InstallArgs(currentTerm, me, snapIndex, log[0].term, snapshot);
    }

    /** The snapshot replaces the log up to its index; what lies beyond is kept. */
    method ReplaceLog(a: InstallArgs)
      requires a.lastIndex > snapIndex
      modifies this, persister
      ensures View() == Installed(old(View()), a)
    {
      var newLog := [RaftLog.Entry(a.lastTerm, NoCommand)];
      if a.lastIndex < Length() - 1 {
        newLog := newLog + log[a.lastIndex + 1 - snapIndex..];
      }
      assert newLog + [] == newLog;
      log := newLog;
      snapIndex := a.lastIndex;
      snapshot := a.data;
      Persist();
    }

    method InstallSnapshot(a: InstallArgs) returns (term: int, out: seq<ApplyMsg>)
      modifies this, persister
      ensures (View(), term, out) == HandleInstall(old(View()), a)
    {
      hide Installed;
      out := [];
      if a.term < currentTerm {
        return currentTerm, [];
      }
      if a.term > currentTerm {
        NewGen(a.term);
      }
      if a.lastIndex <= snapIndex {
        return currentTerm, [];
      }
      ReplaceLog(a);
      if lastApplied < snapIndex {
        lastApplied := snapIndex;
        commitIndex := snapIndex;
        out := [SnapshotMsg(a.lastIndex, a.data)];
      }
      term := currentTerm;
    }

    method InstallReplied(i: nat, a: InstallArgs, term: int)
      requires i < |nextIndex| && i < |matchIndex|
      modifies this, persister
      ensures View() == HandleInstallReply(old(View()), i, a, term)
    {
      if term > currentTerm {
        NewGen(term);
        return;
      }
      matchIndex := matchIndex[i := a.lastIndex];
      nextIndex := nextIndex[i := a.lastIndex + 1];
    }

    // -------------------------------------------------------------- delivery

    /** Collect the commands between `lastApplied` and `commitIndex`, skipping what the snapshot covers. */
    method Kick() returns (applies: seq<ApplyMsg>)
      requires commitIndex < LogLength(View())
      modifies this`lastApplied
      ensures (View(), applies) == HandleKick(old(View()))
    {
      var start, end := lastApplied + 1, commitIndex;
      applies := [];
      if end < start {
        return;
      }
      ghost var lo := if lastApplied < snapIndex then snapIndex + 1 else lastApplied + 1;
      for i := start to end + 1
        invariant View() == old(View())
        invariant applies == if i <= lo then [] else Batch(View(), lo, i - 1)
      {
        if i > snapIndex {
          applies := applies + [CommandMsg(i, Entry(i).command)];
        }
      }
      lastApplied := commitIndex;
      assert applies == Batch(old(View()), lo, commitIndex);
    }
  }
}
