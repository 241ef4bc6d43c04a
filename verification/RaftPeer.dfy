/**
 One Raft server as a value, and what each critical section of the code does to it.

 `log[0]` stands for the last index covered by the snapshot: entry `i` is `log[i - snapIndex]`.
 These functions specify the methods of `RaftServer.Raft` and drive the transition system of
 `RaftSystem`.
 */
module RaftPeer {
  import opened RaftLog

  datatype Role = Follower | Candidate | Leader

  /** What the persister holds: nothing yet, or the last saved state and snapshot together. */
  datatype Disk = Blank | Saved(term: int, votedFor: int, log: Log, snapIndex: nat, snapshot: seq<Command>)

  datatype Peer = Peer(
    term: int, role: Role, votedFor: int,
    log: Log, commitIndex: int, lastApplied: int,
    nextIndex: seq<int>, matchIndex: seq<int>,
    snapIndex: nat, snapshot: seq<Command>,
    disk: Disk
  )

  datatype ApplyMsg =
    | CommandMsg(index: int, command: Command)
    | SnapshotMsg(index: int, data: seq<Command>)

  datatype VoteArgs = VoteArgs(term: int, candidate: nat, lastIndex: int, lastTerm: int)
  datatype VoteReply = VoteReply(term: int, granted: bool)
  datatype AppendArgs = AppendArgs(term: int, leader: nat, prev: int, prevTerm: int, entries: seq<Entry>,
      leaderCommit: int)
  datatype AppendReply = AppendReply(term: int, success: bool, xTerm: int, xIndex: int, xLen: int)
  datatype InstallArgs = InstallArgs(term: int, leader: nat, lastIndex: nat, lastTerm: int, data: seq<Command>)

  // ---------------------------------------------------------------- log access (help_log.go)

  function LogLength(p: Peer): int {
    |p.log| + p.snapIndex
  }

  predicate InRange(p: Peer, i: int) {
    p.snapIndex <= i < LogLength(p)
  }

  function Get(p: Peer, i: int): Entry
    requires InRange(p, i)
  {
    p.log[i - p.snapIndex]
  }

  // ---------------------------------------------------------------- persistence (persister.go)

  function Persist(p: Peer): Peer {
    p.(disk := Saved(p.term, p.votedFor, p.log, p.snapIndex, p.snapshot))
  }

  /** The state `Make` builds from the persister. */
  function Boot(d: Disk): Peer {
    var p := Peer(0, Follower, -1, [ORIGIN], 0, 0, [], [], 0, [], d);
    match d
    case Blank => p
    case Saved(t, v, l, i, s) => p.(term := t, votedFor := v, log := l, snapIndex := i, snapshot := s)
  }

  /** A crash now would lose none of the persistent fields. */
  predicate Durable(p: Peer) {
    var b := Boot(p.disk);
    p.term == b.term && p.votedFor == b.votedFor && p.log == b.log && p.snapIndex == b.snapIndex &&
        p.snapshot == b.snapshot
  }

  /** The service hands over a snapshot through `index`. */
  function TakeSnapshot(p: Peer, index: int, data: seq<Command>): Peer
    requires index < LogLength(p)
  {
    if index <= p.snapIndex then p
    else
      Persist(p.(log := [Entry(Get(p, index).term, NoCommand)] + p.log[index - p.snapIndex + 1..],
                 snapIndex := index, snapshot := data))
  }

  // ---------------------------------------------------------------- elections (election.go, help_election.go)

  function NewGen(p: Peer, t: int): Peer {
    Persist(p.(term := t, role := Follower, votedFor := -1))
  }

  function BecomeCandidate(p: Peer, me: nat): Peer {
    Persist(p.(term := p.term + 1, role := Candidate, votedFor := me))
  }

  function BecomeLeader(p: Peer, me: nat, n: nat): Peer {
    p.(role := Leader,
       nextIndex := seq(n, i => if i == me then -1 else LogLength(p)),
       matchIndex := seq(n, i => if i == me then -1 else 0))
  }

  function MakeVoteArgs(p: Peer, me: nat): VoteArgs
    requires p.log != []
  {
    VoteArgs(p.term, me, LogLength(p) - 1, Last(p.log).term)
  }

  predicate GrantsVote(p: Peer, a: VoteArgs)
    requires p.log != []
  {
    (p.votedFor == -1 || p.votedFor == a.candidate) &&
    UpToDate(a.lastTerm, a.lastIndex, Last(p.log).term, LogLength(p) - 1)
  }

  function HandleVote(p: Peer, a: VoteArgs): (Peer, VoteReply)
    requires p.log != []
  {
    var p := if a.term > p.term then NewGen(p, a.term) else p;
    if a.term < p.term || !GrantsVote(p, a) then (p, VoteReply(p.term, false))
    else (Persist(p.(votedFor := a.candidate)), VoteReply(p.term, true))
  }

  /** The reply to one vote request: the new state, and whether it counts as support. */
  function HandleVoteReply(p: Peer, asked: int, r: VoteReply): (Peer, bool) {
    var p := if r.term > p.term then NewGen(p, r.term) else p;
    (p, r.granted && p.role == Candidate && p.term == asked)
  }

  // ---------------------------------------------------------------- replication (replicate.go, help_replicate.go)

  /** What the leader sends peer `i`: the entry before `nextIndex[i]` and its whole suffix. */
  function MakeAppendArgs(p: Peer, me: nat, prev: int): AppendArgs
    requires InRange(p, prev)
  {
    AppendArgs(p.term, me, prev, Get(p, prev).term, p.log[prev + 1 - p.snapIndex..], p.commitIndex)
  }

  /** How many leading entries of `a` and `b` have equal terms. */
  function CommonTerms(a: seq<Entry>, b: seq<Entry>): (d: nat)
    ensures d <= |a| && d <= |b|
    ensures forall i :: 0 <= i < d ==> a[i].term == b[i].term
    ensures d < |a| && d < |b| ==> a[d].term != b[d].term
  {
    if a == [] || b == [] || a[0].term != b[0].term then 0 else 1 + CommonTerms(a[1..], b[1..])
  }

  /** `log` with `entries` matched against it from `at`, when the first `d` of them agree. */
  function Spliced(log: Log, at: nat, entries: seq<Entry>, d: nat): Log
    requires at + d <= |log| && d <= |entries|
  {
    if d == |entries| then log else log[..at + d] + entries[d..]
  }

  /** `log` after matching `entries` against it from position `at`: cut at the first conflict, then extended. */
  function Reconciled(log: Log, at: nat, entries: seq<Entry>): Log
    requires at <= |log|
  {
    Spliced(log, at, entries, CommonTerms(log[at..], entries))
  }

  /** Whether the agreement of a log with the entries goes on behind its first `i` terms. */
  lemma CommonAt(log: Log, at: nat, entries: seq<Entry>, d: nat, i: nat)
    requires at <= |log| && d == CommonTerms(log[at..], entries) && i <= d
    ensures at + i <= |log| && i <= |entries|
    ensures i < d <==> at + i < |log| && i < |entries| && log[at + i].term == entries[i].term
  {
    assert at + i < |log| ==> log[at..][i] == log[at + i];
  }

  /** What is left to append behind the agreeing part, whether or not the log was cut there. */
  lemma SplicedEnd(log: Log, at: nat, entries: seq<Entry>, d: nat)
    requires at + d <= |log| && d <= |entries|
    ensures at + d == |log| ==> log[..at + d] == log
    ensures d < |entries| ==> log[..at + d] + entries[d..] == Spliced(log, at, entries, d)
    ensures d == |entries| ==> log + entries[d..] == Spliced(log, at, entries, d)
  {
    assert d == |entries| ==> log + entries[d..] == log;
  }

  function TryUpdateCommit(p: Peer, leaderCommit: int): Peer {
    if leaderCommit > p.commitIndex then
      p.(commitIndex := if leaderCommit <= LogLength(p) - 1 then leaderCommit else LogLength(p) - 1)
    else p
  }

  /** The first index of the run of equal terms ending at `i`, not reaching into the snapshot. */
  function RunStart(p: Peer, i: int): (f: int)
    requires p.snapIndex < i < LogLength(p)
    ensures p.snapIndex < f <= i
    ensures forall j :: f <= j <= i ==> Get(p, j).term == Get(p, i).term
    ensures f - 1 > p.snapIndex ==> Get(p, f - 1).term != Get(p, i).term
    decreases i
  {
    if i - 1 > p.snapIndex && Get(p, i - 1).term == Get(p, i).term then RunStart(p, i - 1) else i
  }

  /** The handler's opening: adopt a later term, or stop standing against this term's leader. */
  function MeetLeader(p: Peer, t: int): Peer {
    if t > p.term then NewGen(p, t)
    else if p.role == Candidate && t == p.term then p.(role := Follower)
    else p
  }

  /** The rest of the handler, once the sender's term is the server's. */
  function TakeEntries(p: Peer, a: AppendArgs): (Peer, AppendReply)
    requires p.log != []
  {
    if a.prev <= p.snapIndex then
      var start := p.snapIndex - a.prev;
      var q := if start >= |a.entries| then p else Persist(p.(log := Reconciled(p.log, 1, a.entries[start..])));
      (TryUpdateCommit(q, a.leaderCommit), AppendReply(p.term, true, 0, 0, 0))
    else if a.prev >= LogLength(p) then (p, AppendReply(p.term, false, -1, -1, LogLength(p)))
    else if Get(p, a.prev).term != a.prevTerm then
      (p, AppendReply(p.term, false, Get(p, a.prev).term, RunStart(p, a.prev), -1))
    else
      var q := Persist(p.(log := Reconciled(p.log, a.prev + 1 - p.snapIndex, a.entries)));
      (TryUpdateCommit(q, a.leaderCommit), AppendReply(p.term, true, 0, 0, 0))
  }

  function HandleAppend(p: Peer, a: AppendArgs): (Peer, AppendReply)
    requires p.log != []
  {
    var p := MeetLeader(p, a.term);
    if a.term < p.term then (p, AppendReply(p.term, false, 0, 0, 0)) else TakeEntries(p, a)
  }

  /** How many of peers 0 .. k-1, counting `me`, hold index `i`. */
  function Support(p: Peer, me: nat, i: int, k: nat): nat
    requires k <= |p.matchIndex|
  {
    if k == 0 then 0 else Support(p, me, i, k - 1) + if k - 1 == me || p.matchIndex[k - 1] >= i then 1 else 0
  }

  predicate Committable(p: Peer, me: nat, i: int)
    requires InRange(p, i)
  {
    Support(p, me, i, |p.matchIndex|) > |p.matchIndex| / 2 && Get(p, i).term == p.term
  }

  /** The largest committable index in (max(commitIndex, snapIndex), i], or the old commit index. */
  function CommitPoint(p: Peer, me: nat, i: int): (c: int)
    requires i < LogLength(p)
    ensures c == p.commitIndex || (p.commitIndex < c <= i && c > p.snapIndex && Committable(p, me, c))
    ensures forall j :: c < j <= i && j > p.snapIndex && j > p.commitIndex ==> !Committable(p, me, j)
    decreases i - p.snapIndex
  {
    if i <= p.commitIndex || i <= p.snapIndex then p.commitIndex
    else if Committable(p, me, i) then i
    else CommitPoint(p, me, i - 1)
  }

  function UpdateCommitIndex(p: Peer, me: nat): Peer {
    p.(commitIndex := CommitPoint(p, me, LogLength(p) - 1))
  }

  /** The last index of term `t` at or below `i` and above the snapshot, or -1. */
  function LastIndexOfTerm(p: Peer, t: int, i: int): (k: int)
    requires i < LogLength(p)
    ensures k == -1 || (p.snapIndex < k <= i && Get(p, k).term == t)
    ensures forall j :: p.snapIndex < j <= i && j > k ==> Get(p, j).term != t
    decreases i - p.snapIndex
  {
    if i <= p.snapIndex then -1 else if Get(p, i).term == t then i else LastIndexOfTerm(p, t, i - 1)
  }

  /** Where the leader resumes after a rejection. */
  function SteppedBack(p: Peer, r: AppendReply): int {
    if r.xTerm == -1 then (if r.xLen <= LogLength(p) then r.xLen else LogLength(p))
    else
      var k := LastIndexOfTerm(p, r.xTerm, LogLength(p) - 1);
      if k != -1 then k + 1 else r.xIndex
  }

  function HandleAppendReply(p: Peer, me: nat, i: nat, a: AppendArgs, r: AppendReply): Peer
    requires p.role == Leader && p.term == a.term ==> i < |p.nextIndex| && i < |p.matchIndex|
  {
    if r.term > p.term then NewGen(p, r.term)
    else if p.term != a.term || p.role != Leader then p
    else if !r.success then p.(nextIndex := p.nextIndex[i := SteppedBack(p, r)])
    else
      var m := a.prev + |a.entries|;
      UpdateCommitIndex(p.(matchIndex := p.matchIndex[i := m], nextIndex := p.nextIndex[i := m + 1]), me)
  }

  function HandleStart(p: Peer, c: Command): Peer {
    if p.role != Leader then p else Persist(p.(log := p.log + [Entry(p.term, c)]))
  }

  // ---------------------------------------------------------------- snapshots (install.go)

  function MakeInstallArgs(p: Peer, me: nat): InstallArgs
    requires p.log != []
  {
    InstallArgs(p.term, me, p.snapIndex, p.log[0].term, p.snapshot)
  }

  /** The installed state, before the service is told. The suffix is kept by length alone. */
  function Installed(p: Peer, a: InstallArgs): Peer {
    var suffix := if a.lastIndex < LogLength(p) - 1 && p.snapIndex <= a.lastIndex
        then p.log[a.lastIndex + 1 - p.snapIndex..] else [];
    Persist(p.(log := [Entry(a.lastTerm, NoCommand)] + suffix, snapIndex := a.lastIndex, snapshot := a.data))
  }

  /** The new state, the reply term, and what is sent to the service. */
  function HandleInstall(p: Peer, a: InstallArgs): (Peer, int, seq<ApplyMsg>) {
    if a.term < p.term then (p, p.term, [])
    else
      var p := if a.term > p.term then NewGen(p, a.term) else p;
      if a.lastIndex <= p.snapIndex then (p, p.term, [])
      else
        var q := Installed(p, a);
        if q.lastApplied < q.snapIndex then
          (q.(lastApplied := q.snapIndex, commitIndex := q.snapIndex), q.term, [SnapshotMsg(a.lastIndex, a.data)])
        else (q, q.term, [])
  }

  function HandleInstallReply(p: Peer, i: nat, a: InstallArgs, t: int): Peer
    requires i < |p.nextIndex| && i < |p.matchIndex|
  {
    if t > p.term then NewGen(p, t)
    else p.(matchIndex := p.matchIndex[i := a.lastIndex], nextIndex := p.nextIndex[i := a.lastIndex + 1])
  }

  // ---------------------------------------------------------------- delivery (log_commit.go)

  /** The commands at indices lo .. hi, as messages for the service. */
  function Batch(p: Peer, lo: int, hi: int): seq<ApplyMsg>
    requires p.snapIndex < lo && hi < LogLength(p)
    decreases hi - lo + 1
  {
    if hi < lo then [] else Batch(p, lo, hi - 1) + [CommandMsg(hi, Get(p, hi).command)]
  }

  function HandleKick(p: Peer): (Peer, seq<ApplyMsg>)
    requires p.commitIndex < LogLength(p)
  {
    if p.commitIndex < p.lastApplied + 1 then (p, [])
    else
      var lo := if p.lastApplied < p.snapIndex then p.snapIndex + 1 else p.lastApplied + 1;
      (p.(lastApplied := p.commitIndex), Batch(p, lo, p.commitIndex))
  }
}
