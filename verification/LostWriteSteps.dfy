/** Single steps of a cluster of three servers, and what its handlers compute in the run of `LostWrite`. */
module LostWriteSteps {
  import opened KvOps
  import opened RaftLog
  import opened RaftPeer
  import opened RaftSystem

  const A := Op(OpPut, "x", "1", 1, 1)
  const B := Op(OpPut, "y", "2", 2, 1)
  const C := Op(OpGet, "y", "", 3, 1)

  const EA := Entry(1, Request(A))
  const EB := Entry(1, Request(B))
  const EC := Entry(2, Request(C))
  const CUT := Entry(1, NoCommand)       // the sentinel above the snapshot of A

  // ---------------------------------------------------------------- the servers along the run

  function Candidate0(): Peer {
    Persist(Boot(Blank).(term := 1, role := Candidate, votedFor := 0))
  }

  function Leader0(): Peer {
    Candidate0().(role := Leader, nextIndex := [-1, 1, 1], matchIndex := [-1, 0, 0])
  }

  function Leader0A(): Peer {
    Persist(Leader0().(log := [ORIGIN, EA]))
  }

  function Leader0Committed(): Peer {
    Leader0A().(nextIndex := [-1, 2, 1], matchIndex := [-1, 1, 0], commitIndex := 1, lastApplied := 1)
  }

  function Leader0Cut(): Peer {
    Persist(Leader0Committed().(log := [CUT], snapIndex := 1, snapshot := [Request(A)]))
  }

  function Leader0B(): Peer {
    Persist(Leader0Cut().(nextIndex := [-1, 2, 2], matchIndex := [-1, 1, 1], log := [CUT, EB]))
  }

  function Leader0Done(): Peer {
    Leader0B().(nextIndex := [-1, 2, 3], matchIndex := [-1, 1, 2], commitIndex := 2, lastApplied := 2)
  }

  function Voter0(): Peer {
    Persist(Leader0Done().(term := 2, role := Follower, votedFor := 2))
  }

  function Voter1(): Peer {
    Persist(Boot(Blank).(term := 1, votedFor := 0))
  }

  function Installed2(): Peer {
    Persist(Boot(Blank).(term := 1, log := [CUT], snapIndex := 1, snapshot := [Request(A)]))
      .(commitIndex := 1, lastApplied := 1)
  }

  function Holder2(): Peer {
    Persist(Installed2().(log := [CUT, EB]))
  }

  function Candidate2(): Peer {
    Persist(Holder2().(term := 2, role := Candidate, votedFor := 2))
  }

  function Leader2(): Peer {
    Candidate2().(role := Leader, nextIndex := [3, 3, -1], matchIndex := [0, 0, -1])
  }

  function Leader2C(): Peer {
    Persist(Leader2().(log := [CUT, EB, EC]))
  }

  function Leader2Done(): Peer {
    Leader2C().(nextIndex := [4, 3, -1], matchIndex := [3, 0, -1], commitIndex := 3, lastApplied := 3)
  }

  function Asking(t: int, calls: seq<Call>, votes: nat): seq<Round> {
    [Round(t, votes, calls)]
  }

  // ---------------------------------------------------------------- elections

  /** The candidate of a first round, from its timeout to its first vote from `v`. */
  lemma TimesOut(s: State, x: nat, p: Peer)
    requires |s.nodes| == 3 && x < 3 && s.nodes[x].peer == p && p.role != Leader && s.nodes[x].rounds == []
    ensures var nd := s.nodes[x];
            Next(3, s, Timeout(x)).nodes ==
              s.nodes[x := nd.(peer := BecomeCandidate(p, x), rounds := Asking(p.term + 1, [Idle, Idle, Idle], 1))]
  {
    assert seq(3, _ => Idle) == [Idle, Idle, Idle];
    assert [] + [Round(p.term + 1, 1, [Idle, Idle, Idle])] == Asking(p.term + 1, [Idle, Idle, Idle], 1);
  }

  /** The three steps by which candidate `x` gets the vote of `v` and wins. */
  function VoteSteps(x: nat, v: nat, a: VoteArgs): seq<Step> {
    [AskVote(x, 0, v), Receive(VoteReq(x, v, 0, 0, a)), Receive(VoteResp(v, x, 0, 0, a.term, VoteReply(a.term, true)))]
  }

  lemma Asks(s: State, x: nat, v: nat)
    requires |s.nodes| == 3 && x < 3 && v < 3 && v != x
    requires var nd := s.nodes[x];
             nd.rounds == Asking(nd.peer.term, [Idle, Idle, Idle], 1) && nd.peer.log != [] && nd.boots == 0
    ensures var nd := s.nodes[x];
            var s' := Next(3, s, AskVote(x, 0, v));
            var calls := [Idle, Idle, Idle][v := Asked(nd.peer.term)];
            && s'.nodes == s.nodes[x := nd.(rounds := Asking(nd.peer.term, calls, 1))]
            && VoteReq(x, v, 0, 0, MakeVoteArgs(nd.peer, x)) in s'.msgs
  {
    var nd := s.nodes[x];
    var rd := nd.rounds[0].(calls := [Idle, Idle, Idle][v := Asked(nd.peer.term)]);
    assert nd.rounds[0 := rd] == [rd];
  }

  lemma Votes(s: State, x: nat, v: nat, a: VoteArgs, p': Peer)
    requires |s.nodes| == 3 && x < 3 && v < 3 && VoteReq(x, v, 0, 0, a) in s.msgs && s.nodes[v].peer.log != []
    requires HandleVote(s.nodes[v].peer, a) == (p', VoteReply(a.term, true))
    ensures var s' := Next(3, s, Receive(VoteReq(x, v, 0, 0, a)));
            && s'.nodes == s.nodes[v := s.nodes[v].(peer := p')]
            && VoteResp(v, x, 0, 0, a.term, VoteReply(a.term, true)) in s'.msgs
  {
  }

  lemma Wins(s: State, x: nat, v: nat, t: int)
    requires |s.nodes| == 3 && x < 3 && v < 3 && VoteResp(v, x, 0, 0, t, VoteReply(t, true)) in s.msgs
    requires var nd := s.nodes[x];
             && nd.peer.term == t && nd.peer.role == Candidate && nd.peer.log != [] && nd.boots == 0
             && nd.rounds == Asking(t, [Idle, Idle, Idle][v := Asked(t)], 1)
    ensures var nd := s.nodes[x];
            Next(3, s, Receive(VoteResp(v, x, 0, 0, t, VoteReply(t, true)))).nodes ==
              s.nodes[x := nd.(peer := BecomeLeader(nd.peer, x, 3),
                               rounds := Asking(t, [Idle, Idle, Idle][v := Counted], 2))]
  {
    var nd := s.nodes[x];
    assert [Idle, Idle, Idle][v := Asked(t)][v := Counted] == [Idle, Idle, Idle][v := Counted];
    var rd := Round(t, 2, [Idle, Idle, Idle][v := Counted]);
    assert nd.rounds[0 := rd] == [rd];
  }

  // ---------------------------------------------------------------- replication

  function WithPeer(s: State, x: nat, p: Peer): seq<Node>
    requires x < |s.nodes|
  {
    s.nodes[x := s.nodes[x].(peer := p)]
  }

  lemma Proposes(s: State, x: nat, c: Command)
    requires |s.nodes| == 3 && x < 3
    ensures Next(3, s, Start(x, c)).nodes == WithPeer(s, x, HandleStart(s.nodes[x].peer, c))
  {
  }

  lemma Sends(s: State, x: nat, v: nat, a: AppendArgs)
    requires |s.nodes| == 3 && x < 3 && v < 3 && v != x
    requires var p := s.nodes[x].peer;
             && p.role == Leader && p.log != [] && |p.nextIndex| == 3
             && p.snapIndex <= p.nextIndex[v] - 1 < LogLength(p) && a == MakeAppendArgs(p, x, p.nextIndex[v] - 1)
             && s.nodes[x].boots == 0
    ensures var s' := Next(3, s, Replicate(x, v)); s'.nodes == s.nodes && AppendReq(x, v, 0, a) in s'.msgs
  {
  }

  lemma Takes(s: State, x: nat, v: nat, a: AppendArgs, p': Peer, r: AppendReply)
    requires |s.nodes| == 3 && x < 3 && v < 3 && AppendReq(x, v, 0, a) in s.msgs && s.nodes[v].peer.log != []
    requires HandleAppend(s.nodes[v].peer, a) == (p', r)
    ensures var s' := Next(3, s, Receive(AppendReq(x, v, 0, a)));
            s'.nodes == WithPeer(s, v, p') && AppendResp(v, x, 0, a, r) in s'.msgs
  {
  }

  lemma Learns(s: State, x: nat, v: nat, a: AppendArgs, r: AppendReply)
    requires |s.nodes| == 3 && x < 3 && v < 3 && AppendResp(v, x, 0, a, r) in s.msgs && s.nodes[x].boots == 0
    requires var p := s.nodes[x].peer; p.log != [] && |p.nextIndex| == |p.matchIndex| == 3
    ensures Next(3, s, Receive(AppendResp(v, x, 0, a, r))).nodes ==
            WithPeer(s, x, HandleAppendReply(s.nodes[x].peer, x, v, a, r))
  {
  }

  lemma Delivers(s: State, x: nat, p': Peer, out: seq<ApplyMsg>)
    requires |s.nodes| == 3 && x < 3 && s.nodes[x].peer.commitIndex < LogLength(s.nodes[x].peer)
    requires HandleKick(s.nodes[x].peer) == (p', out)
    ensures Next(3, s, Deliver(x)).nodes == s.nodes[x := s.nodes[x].(peer := p', stream := s.nodes[x].stream + out)]
  {
  }

  // ---------------------------------------------------------------- snapshots

  lemma Compacts(s: State, x: nat, i: int, c: Command)
    requires |s.nodes| == 3 && x < 3 && s.nodes[x].base == [] && s.nodes[x].stream == [CommandMsg(i, c)]
    requires i < LogLength(s.nodes[x].peer)
    ensures Next(3, s, Compact(x, 1)).nodes == WithPeer(s, x, TakeSnapshot(s.nodes[x].peer, i, [c]))
  {
    var stream := s.nodes[x].stream;
    assert stream[..1] == stream && stream[..0] == [];
    assert Replay([], stream) == [c];
  }

  lemma SendsSnapshot(s: State, x: nat, v: nat)
    requires |s.nodes| == 3 && x < 3 && v < 3 && v != x && s.nodes[x].boots == 0
    requires var p := s.nodes[x].peer;
             p.role == Leader && p.log != [] && |p.nextIndex| == 3 && p.nextIndex[v] - 1 < p.snapIndex
    ensures var s' := Next(3, s, Replicate(x, v));
            s'.nodes == s.nodes && InstallReq(x, v, 0, MakeInstallArgs(s.nodes[x].peer, x)) in s'.msgs
  {
  }

  lemma Installs(s: State, x: nat, v: nat, a: InstallArgs, p': Peer, t: int, out: seq<ApplyMsg>)
    requires |s.nodes| == 3 && x < 3 && v < 3 && InstallReq(x, v, 0, a) in s.msgs && s.nodes[v].peer.log != []
    requires HandleInstall(s.nodes[v].peer, a) == (p', t, out)
    ensures var s' := Next(3, s, Receive(InstallReq(x, v, 0, a)));
            && s'.nodes == s.nodes[v := s.nodes[v].(peer := p', stream := s.nodes[v].stream + out)]
            && InstallResp(v, x, 0, a, t) in s'.msgs
  {
  }

  lemma LearnsInstalled(s: State, x: nat, v: nat, a: InstallArgs, t: int)
    requires |s.nodes| == 3 && x < 3 && v < 3 && InstallResp(v, x, 0, a, t) in s.msgs && s.nodes[x].boots == 0
    requires var p := s.nodes[x].peer; p.log != [] && |p.nextIndex| == |p.matchIndex| == 3
    ensures Next(3, s, Receive(InstallResp(v, x, 0, a, t))).nodes ==
            WithPeer(s, x, HandleInstallReply(s.nodes[x].peer, v, a, t))
  {
  }

  // ---------------------------------------------------------------- what the handlers compute

  lemma LeaderArrays(p: Peer, me: nat)
    requires me < 3
    ensures var q := BecomeLeader(p, me, 3);
            && |q.nextIndex| == |q.matchIndex| == 3
            && forall i :: 0 <= i < 3 ==>
                 && q.nextIndex[i] == (if i == me then -1 else LogLength(p))
                 && q.matchIndex[i] == if i == me then -1 else 0
  {
  }

  lemma Election0()
    ensures BecomeCandidate(Boot(Blank), 0) == Candidate0() && MakeVoteArgs(Candidate0(), 0) == VoteArgs(1, 0, 0, -1)
    ensures HandleVote(Boot(Blank), VoteArgs(1, 0, 0, -1)) == (Voter1(), VoteReply(1, true))
    ensures BecomeLeader(Candidate0(), 0, 3) == Leader0()
  {
    var c := Candidate0();
    assert LogLength(c) == 1;
    var p := BecomeLeader(c, 0, 3);
    LeaderArrays(c, 0);
    assert p.nextIndex[0] == -1 && p.nextIndex[1] == 1 && p.nextIndex[2] == 1;
    assert p.nextIndex == [-1, 1, 1];
    assert p.matchIndex == [-1, 0, 0];
  }

  const SEND_A := AppendArgs(1, 0, 0, -1, [EA], 0)
  const SEND_B := AppendArgs(1, 0, 1, 1, [EB], 1)
  const SEND_C := AppendArgs(2, 2, 2, 1, [EC], 1)

  function Yes(t: int): AppendReply {
    AppendReply(t, true, 0, 0, 0)
  }

  function Follower1A(): Peer {
    Persist(Voter1().(log := [ORIGIN, EA]))
  }

  lemma Extends(log: Log, e: Entry)
    ensures Reconciled(log, |log|, [e]) == log + [e]
  {
    assert log[|log|..] == [];
    assert log[..|log|] == log;
  }

  lemma Append0A()
    ensures HandleStart(Leader0(), Request(A)) == Leader0A() && MakeAppendArgs(Leader0A(), 0, 0) == SEND_A
    ensures HandleAppend(Voter1(), SEND_A) == (Follower1A(), Yes(1))
  {
    Extends([ORIGIN], EA);
    assert [ORIGIN] + [EA] == [ORIGIN, EA] && [ORIGIN, EA][1..] == [EA];
    assert SEND_A.entries[0..] == [EA];
    assert Reconciled([ORIGIN], 1, [EA]) == [ORIGIN, EA];
    hide Reconciled;
  }

  lemma Commit0A()
    ensures HandleAppendReply(Leader0A(), 0, 1, SEND_A, Yes(1)) == Leader0Committed().(lastApplied := 0)
    ensures HandleKick(Leader0Committed().(lastApplied := 0)) == (Leader0Committed(), [CommandMsg(1, Request(A))])
  {
    var p := Leader0A().(nextIndex := [-1, 2, 1], matchIndex := [-1, 1, 0]);
    assert Leader0A().matchIndex[1 := 1] == [-1, 1, 0] && Leader0A().nextIndex[1 := 2] == [-1, 2, 1];
    CountsTwo(p, 0, 1, 1);
    assert CommitPoint(p, 0, 1) == 1;
    var q := Leader0Committed().(lastApplied := 0);
    assert Batch(q, 1, 0) == [];
    assert Batch(q, 1, 1) == [CommandMsg(1, Request(A))];
  }

  /** Two of three servers hold index `i`. */
  lemma CountsTwo(p: Peer, me: nat, v: nat, i: int)
    requires |p.matchIndex| == 3 && me < 3 && v < 3 && v != me && p.matchIndex[v] >= i
    ensures Support(p, me, i, 3) >= 2
  {
    assert Support(p, me, i, 1) == if 0 == me || p.matchIndex[0] >= i then 1 else 0;
    assert Support(p, me, i, 2) == Support(p, me, i, 1) + if 1 == me || p.matchIndex[1] >= i then 1 else 0;
  }

  const INSTALL_A := InstallArgs(1, 0, 1, 1, [Request(A)])

  lemma Compact0()
    ensures TakeSnapshot(Leader0Committed(), 1, [Request(A)]) == Leader0Cut()
    ensures MakeInstallArgs(Leader0Cut(), 0) == INSTALL_A
  {
    assert [ORIGIN, EA][2..] == [];
    assert [CUT] + [] == [CUT];
  }

  lemma Install2()
    ensures HandleInstall(Boot(Blank), INSTALL_A) == (Installed2(), 1, [SnapshotMsg(1, [Request(A)])])
  {
    assert [CUT] + [] == [CUT];
  }

  lemma Propose0B()
    ensures HandleStart(HandleInstallReply(Leader0Cut(), 2, INSTALL_A, 1), Request(B)) == Leader0B()
  {
    assert Leader0Cut().matchIndex[2 := 1] == [-1, 1, 1] && Leader0Cut().nextIndex[2 := 2] == [-1, 2, 2];
    assert [CUT] + [EB] == [CUT, EB];
  }

  lemma Append0B()
    ensures MakeAppendArgs(Leader0B(), 0, 1) == SEND_B
    ensures HandleAppend(Installed2(), SEND_B) == (Holder2(), Yes(1))
  {
    Extends([CUT], EB);
    assert [CUT] + [EB] == [CUT, EB];
    assert [CUT, EB][1..] == [EB] && SEND_B.entries[0..] == [EB];
  }

  lemma Commit0B()
    ensures HandleAppendReply(Leader0B(), 0, 2, SEND_B, Yes(1)) == Leader0Done().(lastApplied := 1)
    ensures HandleKick(Leader0Done().(lastApplied := 1)) == (Leader0Done(), [CommandMsg(2, Request(B))])
  {
    var p := Leader0B().(nextIndex := [-1, 2, 3], matchIndex := [-1, 1, 2]);
    assert Leader0B().matchIndex[2 := 2] == [-1, 1, 2] && Leader0B().nextIndex[2 := 3] == [-1, 2, 3];
    CountsTwo(p, 0, 2, 2);
    assert CommitPoint(p, 0, 2) == 2;
    var q := Leader0Done().(lastApplied := 1);
    assert Batch(q, 2, 1) == [];
    assert Batch(q, 2, 2) == [CommandMsg(2, Request(B))];
  }

  lemma Election2()
    ensures BecomeCandidate(Holder2(), 2) == Candidate2() && MakeVoteArgs(Candidate2(), 2) == VoteArgs(2, 2, 2, 1)
    ensures HandleVote(Leader0Done(), VoteArgs(2, 2, 2, 1)) == (Voter0(), VoteReply(2, true))
    ensures BecomeLeader(Candidate2(), 2, 3) == Leader2()
  {
    var c := Candidate2();
    assert LogLength(c) == 3;
    var p := BecomeLeader(c, 2, 3);
    LeaderArrays(c, 2);
    assert p.nextIndex[0] == 3 && p.nextIndex[1] == 3 && p.nextIndex[2] == -1;
    assert p.nextIndex == [3, 3, -1];
    assert p.matchIndex == [0, 0, -1];
  }

  function Follower0C(): Peer {
    Persist(Voter0().(log := [CUT, EB, EC]))
  }

  lemma Append2C()
    ensures HandleStart(Leader2(), Request(C)) == Leader2C() && MakeAppendArgs(Leader2C(), 2, 2) == SEND_C
    ensures HandleAppend(Voter0(), SEND_C) == (Follower0C(), Yes(2))
  {
    Extends([CUT, EB], EC);
    assert [CUT, EB] + [EC] == [CUT, EB, EC] && [CUT, EB, EC][2..] == [EC];
  }

  lemma Commit2C()
    ensures HandleAppendReply(Leader2C(), 2, 0, SEND_C, Yes(2)) == Leader2Done().(lastApplied := 1)
  {
    var p := Leader2C().(nextIndex := [4, 3, -1], matchIndex := [3, 0, -1]);
    assert Leader2C().matchIndex[0 := 3] == [3, 0, -1] && Leader2C().nextIndex[0 := 4] == [4, 3, -1];
    CountsTwo(p, 2, 0, 3);
    assert CommitPoint(p, 2, 3) == 3;
  }

  lemma Deliver2C()
    ensures HandleKick(Leader2Done().(lastApplied := 1)) ==
            (Leader2Done(), [CommandMsg(2, Request(B)), CommandMsg(3, Request(C))])
  {
    var q := Leader2Done().(lastApplied := 1);
    assert Batch(q, 2, 1) == [];
    assert Batch(q, 2, 2) == [CommandMsg(2, Request(B))];
    assert Batch(q, 2, 3) == [CommandMsg(2, Request(B)), CommandMsg(3, Request(C))];
  }

  // ---------------------------------------------------------------- whole exchanges

  /** Server `x`, a candidate `c` after its timeout, asks `a`, and a voter `q` becomes `q'` granting it. */
  predicate Stands(p: Peer, q: Peer, x: nat, c: Peer, a: VoteArgs, q': Peer) {
    && p.role != Leader && BecomeCandidate(p, x) == c && c.log != [] && q.log != []
    && MakeVoteArgs(c, x) == a && a.term == c.term == p.term + 1
    && HandleVote(q, a) == (q', VoteReply(a.term, true))
  }

  /** Leader `p` proposes `op`, sends it as `a` to a follower `q`, which takes it, and commits and delivers it. */
  predicate Exchanges(p: Peer, q: Peer, x: nat, v: nat, op: Op, p1: Peer, a: AppendArgs, q': Peer,
                      p2: Peer, p3: Peer, out: seq<ApplyMsg>)
  {
    && v < 3 && q.log != [] && HandleStart(p, Request(op)) == p1
    && p1.role == Leader && p1.log != [] && |p1.nextIndex| == |p1.matchIndex| == 3
    && p1.snapIndex <= p1.nextIndex[v] - 1 < LogLength(p1) && MakeAppendArgs(p1, x, p1.nextIndex[v] - 1) == a
    && HandleAppend(q, a) == (q', Yes(a.term))
    && HandleAppendReply(p1, x, v, a, Yes(a.term)) == p2
    && p2.commitIndex < LogLength(p2) && HandleKick(p2) == (p3, out)
  }

  lemma Stands0()
    ensures Stands(Boot(Blank), Boot(Blank), 0, Candidate0(), VoteArgs(1, 0, 0, -1), Voter1())
    ensures BecomeLeader(Candidate0(), 0, 3) == Leader0()
  {
    hide HandleVote, BecomeLeader;
    Election0();
  }

  lemma Stands2()
    ensures Stands(Holder2(), Leader0Done(), 2, Candidate2(), VoteArgs(2, 2, 2, 1), Voter0())
    ensures BecomeLeader(Candidate2(), 2, 3) == Leader2()
  {
    hide HandleVote, BecomeLeader;
    Election2();
  }

  lemma ExchangesA()
    ensures Exchanges(Leader0(), Voter1(), 0, 1, A, Leader0A(), SEND_A, Follower1A(),
                      Leader0Committed().(lastApplied := 0), Leader0Committed(), [CommandMsg(1, Request(A))])
  {
    hide HandleStart, HandleAppend, HandleAppendReply, HandleKick, MakeAppendArgs;
    Append0A();
    Commit0A();
  }

  /** What server 0 is after it learns that server 2 has the snapshot. */
  function Leader0Told(): Peer {
    HandleInstallReply(Leader0Cut(), 2, INSTALL_A, 1)
  }

  lemma ExchangesB()
    ensures Exchanges(Leader0Told(), Installed2(), 0, 2, B, Leader0B(), SEND_B, Holder2(),
                      Leader0Done().(lastApplied := 1), Leader0Done(), [CommandMsg(2, Request(B))])
  {
    hide HandleStart, HandleAppend, HandleAppendReply, HandleKick, MakeAppendArgs, HandleInstallReply;
    Propose0B();
    Append0B();
    Commit0B();
  }

  lemma ExchangesC()
    ensures Exchanges(Leader2(), Voter0(), 2, 0, C, Leader2C(), SEND_C, Follower0C(),
                      Leader2Done().(lastApplied := 1), Leader2Done(),
                      [CommandMsg(2, Request(B)), CommandMsg(3, Request(C))])
  {
    hide HandleStart, HandleAppend, HandleAppendReply, HandleKick, MakeAppendArgs;
    Append2C();
    Commit2C();
    Deliver2C();
  }
}
