/**
 How far the vote counter can be trusted.

 The goroutines of one vote round share a counter but read the server's term only when they run.
 One that runs after a second timeout asks for the new term, and its vote is added to a counter that
 may already hold votes of the old term. With four servers or more this elects two leaders of one
 term, one of which can then be made to read behind its log; with three or fewer a win always has a
 true majority behind it.
 */
module RaftElectionLimits {
  import opened RaftLog
  import opened RaftPeer
  import opened RaftSystem
  import opened RaftTheorems

  /** Over the whole run, at most one server is ever leader of a term. */
  ghost predicate ElectionSafe(n: nat, steps: seq<Step>) {
    forall i, j, x, y :: 0 <= i <= |steps| && 0 <= j <= |steps| && 0 <= x < n && 0 <= y < n ==>
      var p, q := Run(n, steps[..i]).nodes[x].peer, Run(n, steps[..j]).nodes[y].peer;
      p.role == Leader && q.role == Leader && p.term == q.term ==> x == y
  }

  // ---------------------------------------------------------------- one vote

  /** A server that has never held a log entry or a snapshot. */
  predicate Empty(p: Peer) {
    p.log == [ORIGIN] && p.snapIndex == 0
  }

  /** A candidate of `t` that empty voters find up to date, with `k` supporters counted in its first round. */
  predicate Campaigns(n: nat, nd: Node, t: int, k: nat) {
    && nd.peer.role == Candidate && nd.peer.term == t
    && nd.peer.log != [] && UpToDate(Last(nd.peer.log).term, LogLength(nd.peer) - 1, -1, 0)
    && |nd.rounds| >= 1 && nd.rounds[0].supporter == k && |nd.rounds[0].calls| == n
  }

  /** The candidate's side of one granted vote. */
  function Supported(n: nat, nd: Node, c: nat, i: nat): Node
    requires |nd.rounds| >= 1 && i < |nd.rounds[0].calls|
  {
    var rd := nd.rounds[0];
    var rd' := rd.(supporter := rd.supporter + 1, calls := rd.calls[i := Counted]);
    nd.(peer := if rd'.supporter > n / 2 then BecomeLeader(nd.peer, c, n) else nd.peer, rounds := nd.rounds[0 := rd'])
  }

  /** The three steps by which goroutine i of c's first round asks, is answered, and counts. */
  function VoteSteps(nd: Node, c: nat, i: nat): seq<Step>
    requires nd.peer.log != []
  {
    var a := MakeVoteArgs(nd.peer, c);
    [AskVote(c, 0, i),
     Receive(VoteReq(c, i, nd.boots, 0, a)),
     Receive(VoteResp(i, c, nd.boots, 0, a.term, VoteReply(a.term, true)))]
  }

  lemma RunThree(n: nat, steps: seq<Step>, a: Step, b: Step, c: Step)
    ensures Run(n, steps + [a, b, c]) == Next(n, Next(n, Next(n, Run(n, steps), a), b), c)
  {
    hide Next;
    RunSnoc(n, steps, a);
    RunSnoc(n, steps + [a], b);
    RunSnoc(n, steps + [a] + [b], c);
    assert steps + [a] + [b] + [c] == steps + [a, b, c];
  }

  /** A willing voter's state after it votes. */
  function Voted(nd: Node, a: VoteArgs): Node
    requires nd.peer.log != []
  {
    nd.(peer := HandleVote(nd.peer, a).0)
  }

  predicate Willing(nd: Node, t: int) {
    Empty(nd.peer) && nd.peer.term < t
  }

  lemma WillingVotes(nd: Node, a: VoteArgs)
    requires Willing(nd, a.term) && UpToDate(a.lastTerm, a.lastIndex, -1, 0)
    ensures HandleVote(nd.peer, a).1 == VoteReply(a.term, true)
    ensures Empty(Voted(nd, a).peer) && Voted(nd, a).peer.term == a.term
  {
  }

  lemma OneVote(n: nat, s: State, c: nat, i: nat, t: int, k: nat)
    requires |s.nodes| == n && c < n && i < n && i != c
    requires Campaigns(n, s.nodes[c], t, k) && s.nodes[c].rounds[0].calls[i] == Idle && Willing(s.nodes[i], t)
    ensures var st := VoteSteps(s.nodes[c], c, i);
            Next(n, Next(n, Next(n, s, st[0]), st[1]), st[2]).nodes ==
              s.nodes[i := Voted(s.nodes[i], MakeVoteArgs(s.nodes[c].peer, c))][c := Supported(n, s.nodes[c], c, i)]
  {
    hide HandleVote;
    var nd := s.nodes[c];
    var a := MakeVoteArgs(nd.peer, c);
    var st := VoteSteps(nd, c, i);
    var s1 := Next(n, s, st[0]);
    var rd1 := nd.rounds[0].(calls := nd.rounds[0].calls[i := Asked(t)]);
    assert s1.nodes == s.nodes[c := nd.(rounds := nd.rounds[0 := rd1])] && st[1].m in s1.msgs;
    WillingVotes(s.nodes[i], a);
    var s2 := Next(n, s1, st[1]);
    assert s2.nodes == s1.nodes[i := Voted(s.nodes[i], a)] && st[2].m in s2.msgs;
    var s3 := Next(n, s2, st[2]);
    assert rd1.calls[i := Counted] == nd.rounds[0].calls[i := Counted];
    assert s3.nodes[c] == Supported(n, nd, c, i);
  }

  // ---------------------------------------------------------------- many votes

  lemma {:induction false} Collect(n: nat, pre: seq<Step>, c: nat, lo: nat, hi: nat, t: int, k: nat)
      returns (run: seq<Step>)
    requires c < lo <= hi <= n && k + (hi - lo) <= n / 2
    requires var nodes := Run(n, pre).nodes;
             && Campaigns(n, nodes[c], t, k)
             && forall j :: lo <= j < hi ==> nodes[c].rounds[0].calls[j] == Idle && Willing(nodes[j], t)
    ensures var nodes, nodes' := Run(n, pre).nodes, Run(n, run).nodes;
            && Campaigns(n, nodes'[c], t, k + (hi - lo))
            && nodes'[c].peer == nodes[c].peer && nodes'[c].boots == nodes[c].boots
            && (forall j :: 0 <= j < n && !(lo <= j < hi) ==>
                  nodes'[c].rounds[0].calls[j] == nodes[c].rounds[0].calls[j])
            && (forall j :: 0 <= j < n && j != c && !(lo <= j < hi) ==> nodes'[j] == nodes[j])
            && (forall j :: lo <= j < hi ==> Willing(nodes'[j], t + 1))
    decreases hi - lo
  {
    hide Run, Next;
    if lo == hi {
      run := pre;
    } else {
      var s := Run(n, pre);
      var st := VoteSteps(s.nodes[c], c, lo);
      var mid := pre + [st[0], st[1], st[2]];
      RunThree(n, pre, st[0], st[1], st[2]);
      OneVote(n, s, c, lo, t, k);
      WillingVotes(s.nodes[lo], MakeVoteArgs(s.nodes[c].peer, c));
      run := Collect(n, mid, c, lo + 1, hi, t, k + 1);
    }
  }

  lemma TimeoutAgain(n: nat, pre: seq<Step>, c: nat, t: int, k: nat)
    requires c < n && Campaigns(n, Run(n, pre).nodes[c], t, k)
    ensures var nodes, nodes' := Run(n, pre).nodes, Run(n, pre + [Timeout(c)]).nodes;
            && Campaigns(n, nodes'[c], t + 1, k) && nodes'[c].rounds[0] == nodes[c].rounds[0]
            && nodes'[c].peer == BecomeCandidate(nodes[c].peer, c) && nodes'[c].boots == nodes[c].boots
            && forall j :: 0 <= j < n && j != c ==> nodes'[j] == nodes[j]
  {
    hide Run;
    RunSnoc(n, pre, Timeout(c));
  }

  /** One vote completes a counter that is one short of a majority. */
  lemma VoteWins(n: nat, pre: seq<Step>, c: nat, i: nat, t: int) returns (run: seq<Step>)
    requires c < n && i < n && i != c
    requires var nodes := Run(n, pre).nodes;
             Campaigns(n, nodes[c], t, n / 2) && nodes[c].rounds[0].calls[i] == Idle && Willing(nodes[i], t)
    ensures var nodes, nodes' := Run(n, pre).nodes, Run(n, run).nodes;
            && nodes'[c].peer == BecomeLeader(nodes[c].peer, c, n) && nodes'[c].boots == nodes[c].boots
            && nodes'[c].base == nodes[c].base
            && Willing(nodes'[i], t + 1)
            && forall j :: 0 <= j < n && j != c && j != i ==> nodes'[j] == nodes[j]
  {
    hide Run, Next, BecomeLeader;
    var s := Run(n, pre);
    var st := VoteSteps(s.nodes[c], c, i);
    run := pre + [st[0], st[1], st[2]];
    RunThree(n, pre, st[0], st[1], st[2]);
    OneVote(n, s, c, i, t, n / 2);
    WillingVotes(s.nodes[i], MakeVoteArgs(s.nodes[c].peer, c));
  }

  /** Servers 0 and 1 stand in `t`, nobody has voted in `t`, and the servers from 2 on are empty. */
  predicate BothStand(n: nat, nodes: seq<Node>, t: int) {
    && |nodes| == n >= 4 && Campaigns(n, nodes[0], t, 1) && Campaigns(n, nodes[1], t, 1)
    && (forall j :: 0 <= j < n ==> nodes[0].rounds[0].calls[j] == Idle && nodes[1].rounds[0].calls[j] == Idle)
    && (forall j :: 2 <= j < n ==> Willing(nodes[j], t))
  }

  /** Each gathers all but one vote of a majority in `t`, stands again, and wins with one late vote. */
  lemma BothWin(n: nat, pre: seq<Step>, t: int) returns (run: seq<Step>)
    requires BothStand(n, Run(n, pre).nodes, t)
    ensures var nodes, nodes' := Run(n, pre).nodes, Run(n, run).nodes;
            && nodes'[0].peer == BecomeLeader(BecomeCandidate(nodes[0].peer, 0), 0, n)
            && nodes'[1].peer == BecomeLeader(BecomeCandidate(nodes[1].peer, 1), 1, n)
            && nodes'[0].boots == nodes[0].boots
  {
    hide Run, Next, BecomeLeader;
    var half := n / 2;
    var r1 := Collect(n, pre, 0, 2, half + 1, t, 1);
    var r2 := Collect(n, r1, 1, half + 1, 2 * half, t, 1);
    TimeoutAgain(n, r2, 0, t, half);
    var r3 := r2 + [Timeout(0)];
    var r4 := VoteWins(n, r3, 0, half + 1, t + 1);
    TimeoutAgain(n, r4, 1, t, half);
    var r5 := r4 + [Timeout(1)];
    run := VoteWins(n, r5, 1, 2, t + 1);
  }

  lemma FirstTimeout(n: nat, pre: seq<Step>, c: nat)
    requires c < n && var nd := Run(n, pre).nodes[c];
             && nd.rounds == [] && nd.peer.role == Follower
             && nd.peer.log != [] && UpToDate(Last(nd.peer.log).term, LogLength(nd.peer) - 1, -1, 0)
    ensures var nodes, nodes' := Run(n, pre).nodes, Run(n, pre + [Timeout(c)]).nodes;
            && Campaigns(n, nodes'[c], nodes[c].peer.term + 1, 1)
            && nodes'[c].peer == BecomeCandidate(nodes[c].peer, c) && nodes'[c].boots == nodes[c].boots
            && (forall j :: 0 <= j < n ==> nodes'[c].rounds[0].calls[j] == Idle)
            && forall j :: 0 <= j < n && j != c ==> nodes'[j] == nodes[j]
  {
    hide Run;
    RunSnoc(n, pre, Timeout(c));
  }

  lemma Beginning(n: nat)
    ensures forall j :: 0 <= j < n ==> Run(n, []).nodes[j] == Node(Boot(Blank), [], 0, [], [])
  {
  }

  /** With four servers or more, the code can elect two leaders of one term. */
  lemma TwoLeaders(n: nat) returns (run: seq<Step>)
    requires n >= 4
    ensures var nodes := Run(n, run).nodes;
            && nodes[0].peer.role == Leader && nodes[1].peer.role == Leader
            && nodes[0].peer.term == nodes[1].peer.term
  {
    hide Run, Next;
    Beginning(n);
    var none: seq<Step> := [];
    FirstTimeout(n, none, 0);
    var r1 := none + [Timeout(0)];
    FirstTimeout(n, r1, 1);
    run := BothWin(n, r1 + [Timeout(1)], 1);
  }

  /** Election Safety holds of every run of n servers exactly when n is at most three. */
  lemma ElectionSafetyLimit(n: nat)
    ensures (forall steps :: ElectionSafe(n, steps)) <==> n <= 3
  {
    hide Run, Next;
    if n <= 3 {
      forall steps
        ensures ElectionSafe(n, steps)
      {
        forall i, j, x, y | 0 <= i <= |steps| && 0 <= j <= |steps| && 0 <= x < n && 0 <= y < n
          ensures var p, q := Run(n, steps[..i]).nodes[x].peer, Run(n, steps[..j]).nodes[y].peer;
                  p.role == Leader && q.role == Leader && p.term == q.term ==> x == y
        {
          var p, q := Run(n, steps[..i]).nodes[x].peer, Run(n, steps[..j]).nodes[y].peer;
          if p.role == Leader && q.role == Leader && p.term == q.term {
            ElectionSafety(n, steps, i, j, x, y);
          }
        }
      }
    } else {
      var steps := TwoLeaders(n);
      assert steps[..|steps|] == steps;
      assert !ElectionSafe(n, steps);
    }
  }

  // ---------------------------------------------------------------- out of range

  const OLD := Entry(1, NoCommand)
  const NEW := Entry(3, NoCommand)

  /** Server 1 leads term 1, appends two entries that it sends to nobody, crashes and restarts. */
  lemma OldLeader(n: nat) returns (run: seq<Step>)
    requires n >= 4
    ensures var nodes := Run(n, run).nodes;
            && nodes[0] == Node(Boot(Blank), [], 0, [], [])
            && nodes[1] == Node(Boot(Saved(1, 1, [ORIGIN, OLD, OLD], 0, [])), [], 1, [], [])
            && forall j :: 2 <= j < n ==> Willing(nodes[j], 2)
  {
    hide Run, Next, BecomeLeader;
    Beginning(n);
    var half := n / 2;
    var none: seq<Step> := [];
    FirstTimeout(n, none, 1);
    var r1 := none + [Timeout(1)];
    var r2 := Collect(n, r1, 1, 2, half + 1, 1, 1);
    var r3 := VoteWins(n, r2, 1, half + 1, 1);
    run := AppendsAndCrashes(n, r3);
  }

  lemma AppendsAndCrashes(n: nat, pre: seq<Step>) returns (run: seq<Step>)
    requires n >= 4
    requires var nd := Run(n, pre).nodes[1];
             && nd.peer == BecomeLeader(BecomeCandidate(Boot(Blank), 1), 1, n) && nd.boots == 0
    ensures var nodes, nodes' := Run(n, pre).nodes, Run(n, run).nodes;
            nodes' == nodes[1 := Node(Boot(Saved(1, 1, [ORIGIN, OLD, OLD], 0, [])), [], 1, [], [])]
  {
    hide Run, BecomeLeader;
    LeaderFields(BecomeCandidate(Boot(Blank), 1), 1, n);
    RunThree(n, pre, Start(1, NoCommand), Start(1, NoCommand), Crash(1));
    run := pre + [Start(1, NoCommand), Start(1, NoCommand), Crash(1)];
    assert [ORIGIN] + [OLD] + [OLD] == [ORIGIN, OLD, OLD];
  }

  /** Both lead term 3; server 1 holds the two old entries, server 0 none. */
  lemma LeadersApart(n: nat) returns (run: seq<Step>)
    requires n >= 4
    ensures var p, q := Run(n, run).nodes[0].peer, Run(n, run).nodes[1].peer;
            && p.role == Leader && p.term == 3 && Empty(p) && p.commitIndex == 0 && Run(n, run).nodes[0].boots == 0
            && |p.nextIndex| == n && p.nextIndex[1] == 1
            && q.role == Leader && q.term == 3 && q.log == [ORIGIN, OLD, OLD] && q.snapIndex == 0 && q.commitIndex == 0
            && |q.nextIndex| == n && q.nextIndex[2] == 3
  {
    hide Run, Next, BecomeLeader;
    var r0 := OldLeader(n);
    FirstTimeout(n, r0, 0);
    var r1 := r0 + [Timeout(0)];
    TimeoutAgain(n, r1, 0, 1, 1);
    var r2 := r1 + [Timeout(0)];
    FirstTimeout(n, r2, 1);
    var r3 := r2 + [Timeout(1)];
    run := BothWin(n, r3, 2);
    var nodes := Run(n, r3).nodes;
    LeaderFields(BecomeCandidate(nodes[0].peer, 0), 0, n);
    LeaderFields(BecomeCandidate(nodes[1].peer, 1), 1, n);
  }

  lemma LeaderFields(p: Peer, me: nat, n: nat)
    ensures var q := BecomeLeader(p, me, n);
            && q == p.(role := Leader, nextIndex := q.nextIndex, matchIndex := q.matchIndex)
            && |q.nextIndex| == n && forall i :: 0 <= i < n && i != me ==> q.nextIndex[i] == LogLength(p)
  {
  }

  const SENT := AppendArgs(3, 0, 0, -1, [NEW], 0)

  lemma Overwrites(q: Peer)
    requires q.term == 3 && q.role == Leader && q.log == [ORIGIN, OLD, OLD] && q.snapIndex == 0 && q.commitIndex == 0
    ensures var q' := HandleAppend(q, SENT).0;
            q'.role == Leader && LogLength(q') == 2 && q'.log != [] && q'.nextIndex == q.nextIndex
  {
    assert SENT.entries[0..] == [NEW];
    assert q.log[1..] == [OLD, OLD];
    assert CommonTerms([OLD, OLD], [NEW]) == 0;
    assert Reconciled(q.log, 1, [NEW]) == [ORIGIN] + [NEW];
    hide Reconciled;
  }

  /** Server 1, still leader, takes the other leader's entry and loses its own two: it then reads behind its log. */
  lemma OutOfRange(n: nat) returns (run: seq<Step>)
    requires n >= 4
    ensures !Safe(n, Run(n, run), Replicate(1, 2))
  {
    hide Run, HandleAppend, Reconciled;
    var r0 := LeadersApart(n);
    RunThree(n, r0, Start(0, NoCommand), Replicate(0, 1), Receive(AppendReq(0, 1, 0, SENT)));
    run := r0 + [Start(0, NoCommand), Replicate(0, 1), Receive(AppendReq(0, 1, 0, SENT))];
    var s := Run(n, r0);
    Overwrites(s.nodes[1].peer);
    var s1 := Next(n, s, Start(0, NoCommand));
    assert [ORIGIN] + [NEW] == [ORIGIN, NEW] && [ORIGIN, NEW][1..] == [NEW];
    assert s1.nodes == s.nodes[0 := s.nodes[0].(peer := HandleStart(s.nodes[0].peer, NoCommand))];
    var s2 := Next(n, s1, Replicate(0, 1));
    assert s2.nodes == s1.nodes && AppendReq(0, 1, 0, SENT) in s2.msgs;
    var s3 := Next(n, s2, Receive(AppendReq(0, 1, 0, SENT)));
    assert s3.nodes[1].peer == HandleAppend(s.nodes[1].peer, SENT).0;
  }

  /** Every access of every step of every run of n servers is in range exactly when n is at most three. */
  lemma AccessLimit(n: nat)
    ensures (forall steps, step :: Safe(n, Run(n, steps), step)) <==> n <= 3
  {
    hide Run, Safe;
    if n <= 3 {
      forall steps, step
        ensures Safe(n, Run(n, steps), step)
      {
        AccessesInRange(n, steps, step);
      }
    } else {
      var steps := OutOfRange(n);
    }
  }
}
