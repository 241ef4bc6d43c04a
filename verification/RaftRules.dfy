/**
 What each critical section owes the protocol. Safety alone would be met by servers that never vote,
 commit or retry; these rules say what must happen, message by message and index by index.
 */
module RaftRules {
  import opened RaftLog
  import opened RaftPeer
  import opened RaftSystem
  import opened RaftCommitSteps

  function Max(a: int, b: int): int { if a < b then b else a }

  function Min(a: int, b: int): int { if a < b then a else b }

  // ---------------------------------------------------------------- elections

  /** A server stands in the next term, with its own vote, which it remembers over a crash. */
  lemma Stands(p: Peer, me: nat)
    ensures var q := BecomeCandidate(p, me);
            && q.term == p.term + 1 && q.role == Candidate && q.votedFor == me
            && Boot(q.disk).term == p.term + 1 && Boot(q.disk).votedFor == me && Boot(q.disk).log == p.log
            && q.log == p.log && q.snapIndex == p.snapIndex && q.commitIndex == p.commitIndex
  {
  }

  /**
   A vote is given exactly to a candidate whose term is not old, if it is the first asked for in that
   term or asks again, and if its log ends in a later term, or in the same term and is not shorter.
   */
  lemma VoteExact(p: Peer, me: nat, q: Peer)
    requires p.log != [] && q.log != []
    ensures var (q', r) := HandleVote(q, MakeVoteArgs(p, me));
            var mine, yours := p.log[|p.log| - 1].term, q.log[|q.log| - 1].term;
            && (r.granted <==>
                  && (p.term > q.term || (p.term == q.term && (q.votedFor == -1 || q.votedFor == me)))
                  && (mine > yours || (mine == yours && |p.log| + p.snapIndex >= |q.log| + q.snapIndex)))
            && r.term == q'.term == Max(p.term, q.term)
            && q'.votedFor == (if r.granted then me else if p.term > q.term then -1 else q.votedFor)
            && q'.role == (if p.term > q.term then Follower else q.role)
            && q' == q.(term := q'.term, votedFor := q'.votedFor, role := q'.role, disk := q'.disk)
            && (Durable(q) ==> Durable(q'))
  {
  }

  /**
   A reply to a vote request that is still waited for makes its server leader exactly if it grants the
   vote of the term the server stands in and is the one that completes a majority of all servers.
   */
  lemma ElectedExact(n: nat, s: State, m: Msg)
    requires |s.nodes| == n && m in s.msgs && m.VoteResp? && m.to < n && m.from < n
    requires var nd := s.nodes[m.to];
             && nd.peer.log != [] && nd.peer.role != Leader && m.boots == nd.boots && m.round < |nd.rounds|
             && m.from < |nd.rounds[m.round].calls| && nd.rounds[m.round].calls[m.from] == Asked(m.asked)
    ensures var nd, nd' := s.nodes[m.to], Next(n, s, Receive(m)).nodes[m.to];
            var good := m.voteReply.granted && m.voteReply.term <= nd.peer.term == m.asked && nd.peer.role == Candidate;
            && (nd'.peer.role == Leader <==> good && 2 * (nd.rounds[m.round].supporter + 1) > n)
            && nd'.rounds[m.round].supporter == nd.rounds[m.round].supporter + (if good then 1 else 0)
            && nd'.peer.term == Max(nd.peer.term, m.voteReply.term)
            && (m.voteReply.term > nd.peer.term ==> nd'.peer.role == Follower && nd'.peer.votedFor == -1)
  {
  }

  /** A new leader first asks every other server whether it holds the leader's last entry. */
  lemma LeaderProbes(p: Peer, me: nat, n: nat, i: nat)
    requires p.log != [] && i < n && i != me
    ensures var q := BecomeLeader(p, me, n);
            && q.role == Leader && |q.nextIndex| == |q.matchIndex| == n && q.matchIndex[i] == 0
            && InRange(q, q.nextIndex[i] - 1)
            && MakeAppendArgs(q, me, q.nextIndex[i] - 1) ==
               AppendArgs(p.term, me, |p.log| + p.snapIndex - 1, p.log[|p.log| - 1].term, [], p.commitIndex)
  {
    var q := BecomeLeader(p, me, n);
    assert q.nextIndex[i] == LogLength(p);
    assert q.log[|q.log|..] == [];
  }

  // ---------------------------------------------------------------- append entries, at the follower

  /** Terms and roles: an old leader is refused, and nobody stands or leads against a current one. */
  lemma AppendRoles(p: Peer, a: AppendArgs)
    requires p.log != []
    ensures var (q, r) := HandleAppend(p, a);
            && q.term == r.term == Max(p.term, a.term)
            && (a.term < p.term ==> q == p && !r.success)
            && (a.term >= p.term && (p.role != Leader || a.term > p.term) ==> q.role == Follower)
            && (a.term == p.term && p.role == Leader ==> q.role == Leader)
            && q.votedFor == (if a.term > p.term then -1 else p.votedFor)
            && q == p.(term := q.term, role := q.role, votedFor := q.votedFor, log := q.log,
                       commitIndex := q.commitIndex, disk := q.disk)
            && (Durable(p) ==> Durable(q))
  {
    hide Reconciled;
  }

  /** The entries are taken exactly if they follow on: the one before them is here, or under the snapshot. */
  lemma AppendReplies(p: Peer, a: AppendArgs)
    requires p.log != [] && a.term >= p.term
    ensures var (q, r) := HandleAppend(p, a);
            var end := |p.log| + p.snapIndex;
            && (r.success <==>
                  a.prev <= p.snapIndex || (a.prev < end && p.log[a.prev - p.snapIndex].term == a.prevTerm))
            && (!r.success ==> q.log == p.log && q.commitIndex == p.commitIndex)
            && (!r.success && a.prev >= end ==> r.xTerm == -1 && r.xLen == end)
            && (!r.success && a.prev < end ==>
                  && r.xTerm == p.log[a.prev - p.snapIndex].term && p.snapIndex < r.xIndex <= a.prev
                  && (forall j :: r.xIndex <= j <= a.prev ==> Get(p, j).term == r.xTerm)
                  && (r.xIndex - 1 > p.snapIndex ==> Get(p, r.xIndex - 1).term != r.xTerm))
            && (r.success ==> q.commitIndex == if a.leaderCommit > p.commitIndex
                                               then Min(a.leaderCommit, |q.log| + q.snapIndex - 1) else p.commitIndex)
  {
    hide Reconciled;
    var p' := MeetLeader(p, a.term);
    assert p'.log == p.log && p'.snapIndex == p.snapIndex && p'.commitIndex == p.commitIndex;
    if p.snapIndex < a.prev < LogLength(p) {
      var f := RunStart(p', a.prev);
      forall j | f <= j <= a.prev
        ensures Get(p, j).term == Get(p, a.prev).term
      {
        assert Get(p', j).term == Get(p', a.prev).term;
      }
    }
  }

  /** The entry the message has for index `j`. */
  function Sent(a: AppendArgs, j: int): Entry
    requires a.prev < j <= a.prev + |a.entries|
  {
    a.entries[j - a.prev - 1]
  }

  predicate Covers(p: Peer, a: AppendArgs, j: int) {
    a.prev < j <= a.prev + |a.entries| && j > p.snapIndex
  }

  /** Up to index `j`, the server holds what the message has above the snapshot. */
  ghost predicate HeldUpTo(p: Peer, a: AppendArgs, j: int) {
    forall k :: Covers(p, a, k) && k <= j ==> InRange(p, k) && Get(p, k).term == Sent(a, k).term
  }

  /**
   What a log is once entries are taken. In front of the message nothing changes; in it, entries are
   kept as far as their terms agree and then replaced; behind it, entries stay exactly if all agreed.
   */
  lemma AppendMerges(p: Peer, a: AppendArgs)
    requires p.log != [] && a.term >= p.term && HandleAppend(p, a).1.success
    ensures var q := HandleAppend(p, a).0;
            var last := a.prev + |a.entries|;
            && LogLength(q) == (if HeldUpTo(p, a, last) then LogLength(p) else last + 1)
            && (forall j :: InRange(p, j) && j <= a.prev ==> InRange(q, j) && Get(q, j) == Get(p, j))
            && (forall j :: Covers(p, a, j) ==>
                  InRange(q, j) && Get(q, j) == if HeldUpTo(p, a, j) then Get(p, j) else Sent(a, j))
            && (forall j :: j > last && InRange(p, j) && HeldUpTo(p, a, last) ==>
                  InRange(q, j) && Get(q, j) == Get(p, j))
  {
    hide TakeEntries, Reconciled, CommonTerms, HeldUpTo;
    var p' := MeetLeader(p, a.term);
    assert p'.log == p.log && p'.snapIndex == p.snapIndex;
    TakenLog(p', a);
    Merged(p, a, HandleAppend(p, a).0);
  }

  lemma Merged(p: Peer, a: AppendArgs, q: Peer)
    requires p.log != [] && From(p, a) <= LogLength(p) && q.snapIndex == p.snapIndex
    requires q.log == Reconciled(p.log, From(p, a) - p.snapIndex, Fresh(p, a))
    ensures var last := a.prev + |a.entries|;
            && LogLength(q) == (if HeldUpTo(p, a, last) then LogLength(p) else last + 1)
            && (HeldUpTo(p, a, last) ==> q.log == p.log)
            && (forall j :: InRange(p, j) && j <= a.prev ==> InRange(q, j) && Get(q, j) == Get(p, j))
            && (forall j :: Covers(p, a, j) ==>
                  InRange(q, j) && Get(q, j) == if HeldUpTo(p, a, j) then Get(p, j) else Sent(a, j))
  {
    hide Reconciled, CommonTerms, HeldUpTo, Fresh;
    var from, es := From(p, a), Fresh(p, a);
    var at := from - p.snapIndex;
    var d := CommonTerms(p.log[at..], es);
    MergedAt(p.log, at, es);
    HeldMeans(p, a);
    FreshRange(p, a);
    forall j | Covers(p, a, j)
      ensures InRange(q, j) && Get(q, j) == if HeldUpTo(p, a, j) then Get(p, j) else Sent(a, j)
    {
      HeldAt(p, a, j);
      assert at <= j - p.snapIndex < at + |es|;
    }
  }

  /** The first index above the snapshot that the message can have an entry for, and its entries from there. */
  function From(p: Peer, a: AppendArgs): int { Max(a.prev, p.snapIndex) + 1 }

  function Fresh(p: Peer, a: AppendArgs): seq<Entry> {
    if p.snapIndex - a.prev >= |a.entries| then [] else a.entries[From(p, a) - a.prev - 1..]
  }

  lemma TakenLog(p: Peer, a: AppendArgs)
    requires p.log != [] && TakeEntries(p, a).1.success
    ensures From(p, a) <= LogLength(p)
    ensures TakeEntries(p, a).0.log == Reconciled(p.log, From(p, a) - p.snapIndex, Fresh(p, a))
    ensures TakeEntries(p, a).0.snapIndex == p.snapIndex
  {
    hide Reconciled, TakeEntries;
    if a.prev > p.snapIndex {
      TakenBehind(p, a);
      assert a.entries[0..] == a.entries;
    } else {
      TakenAcross(p, a);
      NothingToMerge(p.log);
    }
  }

  lemma TakenBehind(p: Peer, a: AppendArgs)
    requires p.log != [] && a.prev > p.snapIndex && TakeEntries(p, a).1.success
    ensures a.prev < LogLength(p) && TakeEntries(p, a).0.snapIndex == p.snapIndex
    ensures TakeEntries(p, a).0.log == Reconciled(p.log, a.prev + 1 - p.snapIndex, a.entries)
  {
    hide Reconciled, RunStart;
  }

  lemma TakenAcross(p: Peer, a: AppendArgs)
    requires p.log != [] && a.prev <= p.snapIndex
    ensures TakeEntries(p, a).0.snapIndex == p.snapIndex
    ensures TakeEntries(p, a).0.log == if p.snapIndex - a.prev >= |a.entries| then p.log
            else Reconciled(p.log, 1, a.entries[p.snapIndex - a.prev..])
  {
    hide Reconciled, RunStart;
  }

  lemma NothingToMerge(log: Log)
    requires log != []
    ensures Reconciled(log, 1, []) == log
  {
  }

  lemma MergedAt(log: Log, at: nat, es: seq<Entry>)
    requires at <= |log|
    ensures var d := CommonTerms(log[at..], es);
            var r := Reconciled(log, at, es);
            && |r| == (if d == |es| then |log| else at + |es|)
            && (forall k :: 0 <= k < at ==> r[k] == log[k])
            && (forall k :: at <= k < at + |es| ==> k < |r| && (k < at + d ==> k < |log| && r[k] == log[k]) &&
                                                    (k >= at + d ==> r[k] == es[k - at]))
            && (d == |es| ==> r == log)
  {
    hide CommonTerms;
  }

  /** The server holds what the message has up to `j` exactly if the common terms reach that far. */
  lemma HeldMeans(p: Peer, a: AppendArgs)
    requires p.log != [] && From(p, a) <= LogLength(p)
    ensures var d := CommonTerms(p.log[From(p, a) - p.snapIndex..], Fresh(p, a));
            && (forall j :: Covers(p, a, j) ==> (HeldUpTo(p, a, j) <==> j < From(p, a) + d))
            && (HeldUpTo(p, a, a.prev + |a.entries|) <==> d == |Fresh(p, a)|)
  {
    hide CommonTerms, Fresh;
    var from, es := From(p, a), Fresh(p, a);
    var d := CommonTerms(p.log[from - p.snapIndex..], es);
    forall k | Covers(p, a, k)
      ensures from <= k < from + |es|
      ensures k - from < d ==> InRange(p, k) && Get(p, k).term == Sent(a, k).term
      ensures k - from == d ==> !(InRange(p, k) && Get(p, k).term == Sent(a, k).term)
    {
      HeldAt(p, a, k);
    }
    FreshRange(p, a);
    forall j | Covers(p, a, j)
      ensures HeldUpTo(p, a, j) <==> j < from + d
    {
      if j >= from + d {
        assert Covers(p, a, from + d);
      }
    }
    if d < |es| {
      assert Covers(p, a, from + d);
    }
  }

  lemma FreshRange(p: Peer, a: AppendArgs)
    ensures var from, es := From(p, a), Fresh(p, a);
            && (forall k :: from <= k < from + |es| ==> Covers(p, a, k))
            && (es != [] ==> from + |es| == a.prev + |a.entries| + 1)
  {
  }

  /** How index `k` of the message lies in the comparison. */
  lemma HeldAt(p: Peer, a: AppendArgs, k: int)
    requires From(p, a) <= LogLength(p) && Covers(p, a, k)
    ensures var from, es := From(p, a), Fresh(p, a);
            var d := CommonTerms(p.log[from - p.snapIndex..], es);
            && from <= k < from + |es| && Sent(a, k) == es[k - from]
            && (k - from < d ==> InRange(p, k) && Get(p, k).term == Sent(a, k).term)
            && (k - from == d ==> !(InRange(p, k) && Get(p, k).term == Sent(a, k).term))
  {
    var from, es := From(p, a), Fresh(p, a);
    var mine := p.log[from - p.snapIndex..];
    var d := CommonTerms(mine, es);
    hide CommonTerms;
    assert k < LogLength(p) ==> mine[k - from] == Get(p, k);
  }

  // ---------------------------------------------------------------- append entries, at the leader

  /** Index `i` is visible, of the leader's own term, and held by more than half of the servers. */
  ghost predicate OwnMajority(p: Peer, me: nat, i: int) {
    p.snapIndex < i < LogLength(p) && Get(p, i).term == p.term &&
    2 * |Holders(p, me, i, |p.matchIndex|)| > |p.matchIndex|
  }

  /** The commit index moves exactly to the last index of the own term that a majority holds, and never back. */
  lemma CommitExact(p: Peer, me: nat)
    ensures var q := UpdateCommitIndex(p, me);
            && q == p.(commitIndex := q.commitIndex)
            && (q.commitIndex == p.commitIndex || (q.commitIndex > p.commitIndex && OwnMajority(p, me, q.commitIndex)))
            && (forall i :: i > p.commitIndex && OwnMajority(p, me, i) ==> i <= q.commitIndex)
  {
    hide Holders, Support;
    forall i
      ensures Support(p, me, i, |p.matchIndex|) == |Holders(p, me, i, |p.matchIndex|)|
    {
      SupportCounts(p, me, i, |p.matchIndex|);
    }
    var c := UpdateCommitIndex(p, me).commitIndex;
    forall i | i > p.commitIndex && OwnMajority(p, me, i)
      ensures i <= c
    {
      assert Committable(p, me, i);
    }
  }

  /** After a rejection: the follower's length, or behind the leader's last entry of its term, or its first of it. */
  lemma ResumeExact(p: Peer, r: AppendReply, k: int)
    ensures r.xTerm == -1 ==> SteppedBack(p, r) == Min(r.xLen, |p.log| + p.snapIndex)
    ensures r.xTerm != -1 && p.snapIndex < k < LogLength(p) && Get(p, k).term == r.xTerm ==>
              var f := SteppedBack(p, r) - 1;
              k <= f < LogLength(p) && Get(p, f).term == r.xTerm
    ensures r.xTerm != -1 && (forall j :: p.snapIndex < j < LogLength(p) ==> Get(p, j).term != r.xTerm) ==>
              SteppedBack(p, r) == r.xIndex
  {
  }

  /** A reply is heeded exactly by the leader that asked, and only where it concerns the server that replied. */
  lemma ReplyExact(p: Peer, me: nat, i: nat, a: AppendArgs, r: AppendReply)
    requires i < |p.nextIndex| && i < |p.matchIndex|
    ensures var q := HandleAppendReply(p, me, i, a, r);
            var last := a.prev + |a.entries|;
            var heard := p.(matchIndex := p.matchIndex[i := last], nextIndex := p.nextIndex[i := last + 1]);
            && (r.term > p.term ==> q.term == r.term && q.role == Follower && q.votedFor == -1 && q.log == p.log &&
                                    q.commitIndex == p.commitIndex && Boot(q.disk).term == r.term)
            && (r.term <= p.term && (p.role != Leader || p.term != a.term) ==> q == p)
            && (r.term <= p.term == a.term && p.role == Leader ==>
                  && (!r.success ==> q == p.(nextIndex := p.nextIndex[i := q.nextIndex[i]]))
                  && (r.success ==> q == heard.(commitIndex := q.commitIndex) && q.commitIndex >= p.commitIndex)
                  && (r.success ==> forall j :: OwnMajority(heard, me, j) ==> j <= q.commitIndex))
  {
    hide OwnMajority, SteppedBack, UpdateCommitIndex;
    var last := a.prev + |a.entries|;
    CommitExact(p.(matchIndex := p.matchIndex[i := last], nextIndex := p.nextIndex[i := last + 1]), me);
  }

  /**
   A whole exchange. If the follower takes what a leader sends, it then holds every entry the leader
   has from there on, knows what the leader knows to be committed, and the leader knows that it does.
   */
  lemma ExchangeReplicates(p: Peer, me: nat, q: Peer, i: nat, prev: int)
    requires p.role == Leader && q.log != [] && q.term <= p.term && i < |p.nextIndex| && i < |p.matchIndex|
    requires InRange(p, prev) && HandleAppend(q, MakeAppendArgs(p, me, prev)).1.success
    ensures var a := MakeAppendArgs(p, me, prev);
            var (q', r) := HandleAppend(q, a);
            var p' := HandleAppendReply(p, me, i, a, r);
            && LogLength(q') >= LogLength(p) && q'.term == p.term
            && (forall j :: prev < j < LogLength(p) && j > q.snapIndex ==>
                  InRange(q', j) && Get(q', j).term == Get(p, j).term)
            && (q.commitIndex < p.commitIndex < LogLength(p) ==> q'.commitIndex == p.commitIndex)
            && p'.matchIndex[i] == LogLength(p) - 1 && p'.nextIndex[i] == LogLength(p)
  {
    hide HandleAppend, HandleAppendReply, HeldUpTo;
    var a := MakeAppendArgs(p, me, prev);
    AppendRoles(q, a);
    AppendReplies(q, a);
    AppendMerges(q, a);
    var (q', r) := HandleAppend(q, a);
    var last := LogLength(p) - 1;
    assert a.prev + |a.entries| == last;
    ReplyExact(p, me, i, a, r);
    forall j | prev < j < LogLength(p) && j > q.snapIndex
      ensures InRange(q', j) && Get(q', j).term == Get(p, j).term
    {
      assert Covers(q, a, j);
      if HeldUpTo(q, a, j) {
        HeldHere(q, a, j);
      }
    }
    if last > prev && last > q.snapIndex {
      assert InRange(q', last);
    }
  }

  lemma HeldHere(p: Peer, a: AppendArgs, j: int)
    requires HeldUpTo(p, a, j) && Covers(p, a, j)
    ensures InRange(p, j) && Get(p, j).term == Sent(a, j).term
  {
  }

  // ---------------------------------------------------------------- snapshots

  /** A snapshot through a newer index replaces exactly what it covers, and the whole is saved. */
  lemma CompactExact(p: Peer, index: int, data: seq<Command>)
    requires index < LogLength(p)
    ensures var q := TakeSnapshot(p, index, data);
            && (index <= p.snapIndex ==> q == p)
            && (index > p.snapIndex ==>
                  && q.snapIndex == index && q.snapshot == data && LogLength(q) == LogLength(p)
                  && Get(q, index).term == Get(p, index).term
                  && (forall j :: index < j < LogLength(p) ==> Get(q, j) == Get(p, j))
                  && q == p.(log := q.log, snapIndex := index, snapshot := data, disk := q.disk) && Durable(q))
  {
  }

  /** Installing: an old leader or an old snapshot changes no log; a newer one is taken, and the service told once. */
  lemma InstallExact(p: Peer, a: InstallArgs)
    requires p.log != []
    ensures var (q, t, out) := HandleInstall(p, a);
            && q.term == t == Max(p.term, a.term)
            && (a.term < p.term ==> q == p && out == [])
            && (a.term > p.term ==> q.role == Follower && q.votedFor == -1)
            && (a.term == p.term ==> q.role == p.role && q.votedFor == p.votedFor)
            && (a.lastIndex <= p.snapIndex ==> q.log == p.log && q.snapIndex == p.snapIndex && out == [])
            && (a.term >= p.term && a.lastIndex > p.snapIndex ==>
                  && q.snapIndex == a.lastIndex && q.snapshot == a.data && Get(q, a.lastIndex).term == a.lastTerm
                  && LogLength(q) == Max(LogLength(p), a.lastIndex + 1)
                  && (forall j :: a.lastIndex < j < LogLength(p) ==> Get(q, j) == Get(p, j))
                  && q.lastApplied == Max(p.lastApplied, a.lastIndex)
                  && q.commitIndex == (if p.lastApplied < a.lastIndex then a.lastIndex else p.commitIndex)
                  && out == if p.lastApplied < a.lastIndex then [SnapshotMsg(a.lastIndex, a.data)] else [])
            && (Durable(p) ==> Durable(q))
  {
  }

  /** After a snapshot was sent and answered, the next entries the leader sends follow on and are taken. */
  lemma InstallCatchesUp(p: Peer, me: nat, q: Peer, i: nat)
    requires p.log != [] && q.log != [] && q.term <= p.term && i < |p.nextIndex| && i < |p.matchIndex|
    ensures var a := MakeInstallArgs(p, me);
            var (q', t, _) := HandleInstall(q, a);
            var p' := HandleInstallReply(p, i, a, t);
            && q'.log != [] && p' == p.(matchIndex := p.matchIndex[i := p.snapIndex], nextIndex := p'.nextIndex)
            && p'.nextIndex == p.nextIndex[i := p.snapIndex + 1] && InRange(p', p'.nextIndex[i] - 1)
            && HandleAppend(q', MakeAppendArgs(p', me, p'.nextIndex[i] - 1)).1.success
  {
    hide HandleAppend, HandleInstall;
    var a := MakeInstallArgs(p, me);
    InstallExact(q, a);
    var (q', t, _) := HandleInstall(q, a);
    AppendReplies(q', MakeAppendArgs(p, me, p.snapIndex));
    var p' := HandleInstallReply(p, i, a, t);
    assert MakeAppendArgs(p', me, p'.nextIndex[i] - 1) == MakeAppendArgs(p, me, p.snapIndex);
  }

  // ---------------------------------------------------------------- delivery

  lemma {:induction false} BatchAt(p: Peer, lo: int, hi: int)
    requires p.snapIndex < lo <= hi + 1 && hi < LogLength(p)
    ensures |Batch(p, lo, hi)| == hi + 1 - lo
    ensures forall j :: 0 <= j < |Batch(p, lo, hi)| ==>
              Batch(p, lo, hi)[j] == CommandMsg(lo + j, Get(p, lo + j).command)
    decreases hi - lo + 1
  {
    if hi >= lo {
      BatchAt(p, lo, hi - 1);
    }
  }

  /** The service is handed exactly the commands that are committed, not yet handed over, and not in the snapshot. */
  lemma KickExact(p: Peer)
    requires p.commitIndex < LogLength(p)
    ensures var (q, out) := HandleKick(p);
            var done := Max(p.lastApplied, p.snapIndex);
            && q == p.(lastApplied := Max(p.lastApplied, p.commitIndex))
            && |out| == Max(p.commitIndex - done, 0)
            && forall j :: 0 <= j < |out| ==> out[j] == CommandMsg(done + 1 + j, Get(p, done + 1 + j).command)
  {
    hide Batch;
    if p.commitIndex > p.lastApplied && p.commitIndex >= p.snapIndex {
      BatchAt(p, Max(p.lastApplied, p.snapIndex) + 1, p.commitIndex);
    } else if p.commitIndex > p.lastApplied {
      NoBatch(p, p.snapIndex + 1, p.commitIndex);
    }
  }

  lemma NoBatch(p: Peer, lo: int, hi: int)
    requires p.snapIndex < lo && hi < lo && hi < LogLength(p)
    ensures Batch(p, lo, hi) == []
  {
  }

  /** A restarted server hands over everything behind its snapshot again, as it learns what is committed. */
  lemma RestartRedelivers(d: Disk, c: int)
    requires d.Saved? && d.snapIndex < c < |d.log| + d.snapIndex
    ensures var p := Boot(d);
            && p.role == Follower && p.commitIndex == 0 && p.snapshot == d.snapshot
            && var out := HandleKick(p.(commitIndex := c)).1;
               && |out| == c - d.snapIndex
               && forall j :: 0 <= j < |out| ==> out[j].CommandMsg? && out[j].index == d.snapIndex + 1 + j &&
                                                 out[j].command == d.log[j + 1].command
  {
    hide HandleKick;
    KickExact(Boot(d).(commitIndex := c));
  }
}
