/** What every run of the cluster guarantees. */
module RaftTheorems {
  import opened RaftLog
  import opened RaftPeer
  import opened RaftSystem
  import opened Consensus
  import opened ConsensusProof
  import opened RaftInvariant
  import opened RaftElectionSteps
  import opened RaftReplicationSteps
  import opened RaftCommitSteps
  import opened RaftSnapshotSteps

  /** At most three servers, or no vote of a later term was counted in a round. */
  predicate Admissible(n: nat, steps: seq<Step>) {
    n <= 3 || Punctual(n, steps)
  }

  // ---------------------------------------------------------------- every step

  lemma InitOK(n: nat) returns (g: Ghost)
    ensures StateOK(n, InitState(n), g)
  {
    InitInv(n);
    var h := InitHistory(n);
    g := Ghost(h, seq(n, _ => [ORIGIN]));
    InvShape(h);
    hide Inv;
    forall x | 0 <= x < n
      ensures NodeOK(h, g.snaps[x], InitState(n).nodes[x], x)
    {
      assert h.log[x] == [ORIGIN] && h.term[x] == 0;
      assert h.log[x][1..] == [];
    }
  }

  /** Safe accesses, one kind of step at a time. */
  lemma NodeSafe(h: History, snap: Log, nd: Node, x: nat)
    requires Inv(h) && Shape(h) && x < h.n && NodeOK(h, snap, nd, x)
    ensures nd.peer.log != [] && nd.peer.commitIndex < LogLength(nd.peer)
    ensures nd.peer.role == Leader ==> |nd.peer.nextIndex| == |nd.peer.matchIndex| == h.n
    ensures nd.peer.role == Leader ==> forall i :: 0 <= i < h.n ==> nd.peer.nextIndex[i] - 1 < LogLength(nd.peer)
  {
    hide Inv, Committed, StreamOK, RoundsOK, VoteOK;
    NodeLogOK(h, snap, nd, x);
    VisibleEnd(h, snap, nd.peer, x);
    if nd.peer.role == Leader {
      LeaderView(h, snap, nd, x);
    }
  }

  lemma StepSafe(n: nat, s: State, g: Ghost, step: Step)
    requires StateOK(n, s, g)
    ensures Safe(n, s, step)
  {
    hide Inv, NodeOK, Shape, Replay, Position, AppendOK, InstallOK, VoteReqOK;
    InvShape(g.h);
    match step
    case Timeout(x) =>
    case AskVote(x, _, _) => if x < n { NodeSafe(g.h, g.snaps[x], s.nodes[x], x); }
    case Receive(m) =>
      if m in s.msgs && m.to < n && m.from < n {
        assert MsgOK(g.h, s.nodes, m);
        NodeSafe(g.h, g.snaps[m.to], s.nodes[m.to], m.to);
      }
    case Replicate(x, to) => if x < n { NodeSafe(g.h, g.snaps[x], s.nodes[x], x); }
    case Start(x, _) =>
    case Deliver(x) => if x < n { NodeSafe(g.h, g.snaps[x], s.nodes[x], x); }
    case Compact(x, seen) =>
      if x < n && seen <= |s.nodes[x].stream| {
        CompactFacts(g.h, g.snaps[x], s.nodes[x], x, seen);
      }
    case Crash(x) =>
  }

  lemma ReceiveOK(n: nat, s: State, g: Ghost, m: Msg) returns (g': Ghost)
    requires StateOK(n, s, g) && Safe(n, s, Receive(m)) && (n <= 3 || OnTime(n, s, Receive(m)))
    ensures StateOK(n, Next(n, s, Receive(m)), g') && Grows(g.h, g'.h)
  {
    hide StateOK, Inv, Shape;
    StateHistory(n, s, g);
    if m !in s.msgs || m.to >= n || m.from >= n {
      g' := g;
    } else {
      match m
      case VoteReq(_, _, _, _, _) => g' := VoteReqStep(n, s, g, m);
      case VoteResp(_, _, _, _, _, _) => g' := VoteRespStep(n, s, g, m);
      case AppendReq(_, _, _, _) => g' := AppendReqStep(n, s, g, m);
      case AppendResp(_, _, _, _, _) => g' := AppendRespStep(n, s, g, m);
      case InstallReq(_, _, _, _) => g' := InstallReqStep(n, s, g, m);
      case InstallResp(_, _, _, _, _) => g' := InstallRespStep(n, s, g, m);
    }
  }

  lemma StateHistory(n: nat, s: State, g: Ghost)
    requires StateOK(n, s, g)
    ensures Grows(g.h, g.h) && |s.nodes| == n
  {
    hide Inv, NodeOK, MsgOK;
    SelfGrows(g.h);
  }

  lemma NextOK(n: nat, s: State, g: Ghost, step: Step) returns (g': Ghost)
    requires StateOK(n, s, g) && |s.nodes| == n && (n <= 3 || OnTime(n, s, step))
    ensures StateOK(n, Next(n, s, step), g') && Grows(g.h, g'.h)
  {
    hide StateOK, Inv, Shape;
    StateHistory(n, s, g);
    StepSafe(n, s, g, step);
    match step
    case Timeout(x) => if x < n { g' := TimeoutStep(n, s, g, x); } else { g' := g; }
    case AskVote(x, r, to) => if x < n { g' := AskVoteStep(n, s, g, x, r, to); } else { g' := g; }
    case Receive(m) => g' := ReceiveOK(n, s, g, m);
    case Replicate(x, to) => if x < n && to < n { g' := ReplicateStep(n, s, g, x, to); } else { g' := g; }
    case Start(x, c) => if x < n { g' := StartStep(n, s, g, x, c); } else { g' := g; }
    case Deliver(x) => if x < n { g' := DeliverStep(n, s, g, x); } else { g' := g; }
    case Compact(x, seen) =>
      if x < n && seen <= |s.nodes[x].stream| { g' := CompactStep(n, s, g, x, seen); } else { g' := g; }
    case Crash(x) => if x < n { g' := CrashStep(n, s, g, x); } else { g' := g; }
  }

  // ---------------------------------------------------------------- every run

  lemma AdmissiblePrefix(n: nat, steps: seq<Step>, i: nat)
    requires Admissible(n, steps) && i <= |steps|
    ensures Admissible(n, steps[..i])
  {
    if n > 3 {
      forall k | 0 <= k < i
        ensures OnTime(n, Run(n, steps[..i][..k]), steps[..i][k])
      {
        assert steps[..i][..k] == steps[..k];
      }
    }
  }

  /** The invariant holds along a run, with one growing history. */
  ghost predicate Tracks(n: nat, steps: seq<Step>, gs: seq<Ghost>) {
    && |gs| == |steps| + 1
    && (forall i :: 0 <= i <= |steps| ==> StateOK(n, Run(n, steps[..i]), gs[i]))
    && (forall i, j :: 0 <= i <= j <= |steps| ==> Grows(gs[i].h, gs[j].h))
  }

  lemma {:induction false} RunOK(n: nat, steps: seq<Step>) returns (gs: seq<Ghost>)
    requires Admissible(n, steps)
    ensures Tracks(n, steps, gs)
  {
    hide StateOK, Grows, Next, OnTime;
    if steps == [] {
      var g := InitOK(n);
      StateHistory(n, InitState(n), g);
      gs := [g];
    } else {
      var k := |steps| - 1;
      var before := steps[..k];
      AdmissiblePrefix(n, steps, k);
      var gs0 := RunOK(n, before);
      assert before[..k] == before;
      assert StateOK(n, Run(n, before), gs0[k]);
      var g := NextOK(n, Run(n, before), gs0[k], steps[k]);
      gs := gs0 + [g];
      assert steps[..k + 1] == steps;
      StateHistory(n, Run(n, steps), g);
      forall i | 0 <= i <= |steps|
        ensures StateOK(n, Run(n, steps[..i]), gs[i])
      {
        if i <= k {
          assert before[..i] == steps[..i];
        }
      }
      forall i, j | 0 <= i <= j <= |steps|
        ensures Grows(gs[i].h, gs[j].h)
      {
        if j == |steps| && i <= k {
          assert Grows(gs0[i].h, gs0[k].h);
          GrowsTransitive(gs0[i].h, gs0[k].h, g.h);
        }
      }
    }
  }

  // ---------------------------------------------------------------- theorems

  /** No index the code reads or writes is ever out of range, in any run. */
  lemma AccessesInRange(n: nat, steps: seq<Step>, step: Step)
    requires Admissible(n, steps)
    ensures Safe(n, Run(n, steps), step)
  {
    hide StateOK, Grows;
    var gs := RunOK(n, steps);
    assert steps[..|steps|] == steps;
    StepSafe(n, Run(n, steps), gs[|steps|], step);
  }

  lemma LeaderOf(n: nat, s: State, g: Ghost, x: nat)
    requires StateOK(n, s, g) && x < n && s.nodes[x].peer.role == Leader
    ensures s.nodes[x].peer.term in g.h.leader && g.h.leader[s.nodes[x].peer.term] == x
  {
    hide Inv, Shape, Committed, LogOK, CommitOK, StreamOK, RoundsOK, VoteOK, MsgOK;
    InvShape(g.h);
    NodeRole(g.h, g.snaps[x], s.nodes[x], x);
  }

  /** Election Safety: over the whole run, at most one server is ever leader of a term. */
  lemma ElectionSafety(n: nat, steps: seq<Step>, i: nat, j: nat, x: nat, y: nat)
    requires Admissible(n, steps) && i <= |steps| && j <= |steps| && x < n && y < n
    requires Run(n, steps[..i]).nodes[x].peer.role == Leader && Run(n, steps[..j]).nodes[y].peer.role == Leader
    requires Run(n, steps[..i]).nodes[x].peer.term == Run(n, steps[..j]).nodes[y].peer.term
    ensures x == y
  {
    hide StateOK, Shape;
    var gs := RunOK(n, steps);
    LeaderOf(n, Run(n, steps[..i]), gs[i], x);
    LeaderOf(n, Run(n, steps[..j]), gs[j], y);
    assert if i <= j then Grows(gs[i].h, gs[j].h) else Grows(gs[j].h, gs[i].h);
  }

  lemma StateNode(n: nat, s: State, g: Ghost, x: nat)
    requires StateOK(n, s, g) && x < n
    ensures Inv(g.h) && Shape(g.h) && g.h.n == n && |g.snaps| == n == |s.nodes| &&
            NodeOK(g.h, g.snaps[x], s.nodes[x], x)
  {
    hide Inv, NodeOK, MsgOK;
    InvShape(g.h);
  }

  /** Above its snapshot, a server's entries are those of its full log. */
  lemma VisibleEntries(h: History, snap: Log, p: Peer, x: nat)
    requires Shape(h) && x < h.n && LogOK(h, snap, p, x)
    ensures LogLength(p) == |h.log[x]|
    ensures forall i :: p.snapIndex < i < |h.log[x]| ==> Get(p, i) == h.log[x][i]
  {
    hide Committed;
  }

  /** Log Matching: same term at an index above both snapshots, same entries at every index above both up to it. */
  lemma LogMatching(n: nat, steps: seq<Step>, x: nat, y: nat, k: int, j: int)
    requires Admissible(n, steps) && x < n && y < n
    requires var p, q := Run(n, steps).nodes[x].peer, Run(n, steps).nodes[y].peer;
             && p.snapIndex < j <= k < LogLength(p) && q.snapIndex < j <= k < LogLength(q)
             && Get(p, k).term == Get(q, k).term
    ensures Get(Run(n, steps).nodes[x].peer, j) == Get(Run(n, steps).nodes[y].peer, j)
  {
    hide StateOK, Inv, NodeOK, Shape, LogOK, Logs, LeaderLogs, Grows, Chain;
    var gs := RunOK(n, steps);
    assert steps[..|steps|] == steps;
    var s, g := Run(n, steps), gs[|steps|];
    var p, q := s.nodes[x].peer, s.nodes[y].peer;
    StateNode(n, s, g, x);
    StateNode(n, s, g, y);
    Sizes(g.h);
    NodeLogOK(g.h, g.snaps[x], s.nodes[x], x);
    NodeLogOK(g.h, g.snaps[y], s.nodes[y], y);
    VisibleEntries(g.h, g.snaps[x], p, x);
    VisibleEntries(g.h, g.snaps[y], q, y);
    InvLogs(g.h);
    var a, b := g.h.log[x], g.h.log[y];
    TwoChains(g.h, x, y);
    ChainsAgree(a, b, g.h.canon, k);
    assert a[..k + 1][j] == b[..k + 1][j];
  }

  lemma TwoChains(h: History, x: nat, y: nat)
    requires Shape(h) && Logs(h) && x < h.n && y < h.n
    ensures Chain(h.log[x], h.canon) && Chain(h.log[y], h.canon)
  {
    hide Chain;
  }

  /** What a server has committed above its snapshot, as a committed prefix of the history. */
  lemma CommittedView(n: nat, s: State, g: Ghost, x: nat, k: int)
    requires StateOK(n, s, g) && x < n
    requires s.nodes[x].peer.snapIndex < k <= s.nodes[x].peer.commitIndex
    ensures x < |g.h.log| && k < |g.h.log[x]| == LogLength(s.nodes[x].peer)
    ensures Get(s.nodes[x].peer, k) == g.h.log[x][k]
    ensures Committed(g.h, g.h.log[x][..k + 1], s.nodes[x].peer.term)
  {
    hide StateOK, Inv, Committed, StreamOK, RoundsOK, RoleOK, VoteOK, Shape;
    StateNode(n, s, g, x);
    Sizes(g.h);
    var p := s.nodes[x].peer;
    VisibleEntries(g.h, g.snaps[x], p, x);
    CommittedPrefix(g.h, g.h.log[x][..p.commitIndex + 1], g.h.log[x][..k + 1], p.term);
  }

  /** A leader holds, in its log or under its snapshot, every entry committed by its term. */
  lemma LeaderHolds(n: nat, s: State, g: Ghost, y: nat, l: Log, t: int)
    requires StateOK(n, s, g) && y < n && s.nodes[y].peer.role == Leader && t <= s.nodes[y].peer.term
    requires Committed(g.h, l, t) && |l| >= 2
    ensures var q, k := s.nodes[y].peer, |l| - 1;
            if k <= q.snapIndex then k <= |q.snapshot| && q.snapshot[k - 1] == l[k].command
            else k < LogLength(q) && Get(q, k) == l[k]
  {
    hide StateOK, Inv, Committed, StreamOK, RoundsOK, RoleOK, VoteOK, CommitOK;
    StateNode(n, s, g, y);
    var q, h, snap := s.nodes[y].peer, g.h, g.snaps[y];
    LeaderOf(n, s, g, y);
    LeaderView(h, snap, s.nodes[y], y);
    VisibleEntries(h, snap, q, y);
    CommittedInLeader(h, l, t, q.term);
  }

  /**
   Leader Completeness: an entry committed on a server in term t is held by every leader of a
   later term, and by the leader of the same term from then on.
   */
  lemma LeaderCompleteness(n: nat, steps: seq<Step>, i: nat, j: nat, x: nat, y: nat, k: int)
    requires Admissible(n, steps) && i <= |steps| && j <= |steps| && x < n && y < n
    requires var p, q := Run(n, steps[..i]).nodes[x].peer, Run(n, steps[..j]).nodes[y].peer;
             && p.snapIndex < k <= p.commitIndex < LogLength(p)
             && q.role == Leader && (q.term > p.term || (q.term == p.term && i <= j))
    ensures var p, q := Run(n, steps[..i]).nodes[x].peer, Run(n, steps[..j]).nodes[y].peer;
            if k <= q.snapIndex then k <= |q.snapshot| && q.snapshot[k - 1] == Get(p, k).command
            else k < LogLength(q) && Get(q, k) == Get(p, k)
  {
    hide StateOK, Inv, Shape, Committed, Grows, Run, Admissible;
    var gs := RunOK(n, steps);
    var s, s' := Run(n, steps[..i]), Run(n, steps[..j]);
    StateNode(n, s, gs[i], x);
    CommittedView(n, s, gs[i], x, k);
    var l := gs[i].h.log[x][..k + 1];
    var t := s.nodes[x].peer.term;
    if i <= j {
      CommittedGrows(gs[i].h, gs[j].h, l, t, t);
      LeaderHolds(n, s', gs[j], y, l, t);
    } else {
      LaterCommitHeld(n, s', gs[j], gs[i], y, l, t);
    }
  }

  /** A leader's log already holds what is committed later, as long as it is committed in an earlier term. */
  lemma LaterCommitHeld(n: nat, s: State, g: Ghost, g': Ghost, y: nat, l: Log, t: int)
    requires StateOK(n, s, g) && y < n && s.nodes[y].peer.role == Leader && t < s.nodes[y].peer.term
    requires Grows(g.h, g'.h) && Inv(g'.h) && Committed(g'.h, l, t) && |l| >= 2
    ensures var q, k := s.nodes[y].peer, |l| - 1;
            if k <= q.snapIndex then k <= |q.snapshot| && q.snapshot[k - 1] == l[k].command
            else k < LogLength(q) && Get(q, k) == l[k]
  {
    hide StateOK, Inv, NodeOK, LogOK, LeaderLogs, Logs, Shape, Grows, Committed;
    StateNode(n, s, g, y);
    var q, h, snap := s.nodes[y].peer, g.h, g.snaps[y];
    Sizes(h);
    NodeLogOK(h, snap, s.nodes[y], y);
    LeaderOf(n, s, g, y);
    LeaderView(h, snap, s.nodes[y], y);
    VisibleEntries(h, snap, q, y);
    SnapshotOf(h, snap, q, y);
    InvLogs(h);
    InvLogs(g'.h);
    EarlierBase(h, g'.h, l, t, q.term);
  }

  lemma SnapshotOf(h: History, snap: Log, p: Peer, x: nat)
    requires Shape(h) && x < h.n && LogOK(h, snap, p, x)
    ensures |snap| == p.snapIndex + 1 && p.snapshot == Commands(snap)
  {
    hide Committed;
  }

  /** What is committed in an earlier term, even later in the run, is in the log a leader was elected with. */
  lemma EarlierBase(h: History, h': History, l: Log, t: int, u: int)
    requires Inv(h') && Shape(h) && LeaderLogs(h) && Grows(h, h') && u in h.leader && t < u
    requires Committed(h', l, t) && |l| >= 2
    ensures u in h.canon && l <= h.canon[u]
  {
    hide Inv, LeaderLogs, Committed;
    BaseHolds(h', l, t, u);
    LeaderBase(h, u);
    assert Base(h', u) == Base(h, u);
  }

  lemma LeaderBase(h: History, u: int)
    requires Shape(h) && LeaderLogs(h) && u in h.leader
    ensures Base(h, u) <= h.canon[u]
  {
  }

  lemma BaseHolds(h: History, l: Log, t: int, u: int)
    requires Inv(h) && Shape(h) && Committed(h, l, t) && |l| >= 2 && u in h.leader && t < u
    ensures l <= Base(h, u)
  {
    hide Inv;
    var c :| c in h.chosen && c.0 in h.canon && c.0 <= t && 1 <= |l| <= c.1 + 1 && l <= h.canon[c.0];
    LeaderHasChosen(h, c.0, c.1, u);
    assert l <= h.canon[c.0][..c.1 + 1];
  }

  // ---------------------------------------------------------------- delivery

  /** The service state that server x's stream produces at point i of the run. */
  function ServiceState(n: nat, steps: seq<Step>, i: nat, x: nat): seq<Command>
    requires i <= |steps| && x < n
  {
    Replay(Run(n, steps[..i]).nodes[x].base, Run(n, steps[..i]).nodes[x].stream)
  }

  lemma ServiceCommitted(n: nat, s: State, g: Ghost, x: nat) returns (l: Log)
    requires StateOK(n, s, g) && x < n
    ensures l != [] && Replay(s.nodes[x].base, s.nodes[x].stream) == Commands(l)
    ensures Committed(g.h, l, s.nodes[x].peer.term)
    ensures Contiguous(s.nodes[x].base, s.nodes[x].stream)
  {
    hide StateOK, Inv, Committed, RoundsOK, RoleOK, VoteOK, Contiguous, Replay;
    StateNode(n, s, g, x);
    DeliveredCommitted(g.h, g.snaps[x], s.nodes[x], x);
    l := Delivered(g.h, g.snaps[x], s.nodes[x].peer, x);
  }

  /**
   State Machine Safety: at any two points of a run, the services of any two servers have executed
   sequences of commands of which one extends the other.
   */
  lemma StateMachineSafety(n: nat, steps: seq<Step>, i: nat, j: nat, x: nat, y: nat)
    requires Admissible(n, steps) && i <= |steps| && j <= |steps| && x < n && y < n
    ensures Comparable(ServiceState(n, steps, i, x), ServiceState(n, steps, j, y))
  {
    hide StateOK, Inv, Shape, Committed, Grows, Contiguous, Replay, Run, Admissible;
    var gs := RunOK(n, steps);
    var k := ServiceCommitted(n, Run(n, steps[..i]), gs[i], x);
    var l := ServiceCommitted(n, Run(n, steps[..j]), gs[j], y);
    var t, u := Run(n, steps[..i]).nodes[x].peer.term, Run(n, steps[..j]).nodes[y].peer.term;
    var top := if i <= j then gs[j].h else gs[i].h;
    CommittedGrows(gs[i].h, top, k, t, t);
    CommittedGrows(gs[j].h, top, l, u, u);
    StateNode(n, Run(n, steps[..i]), gs[i], x);
    StateNode(n, Run(n, steps[..j]), gs[j], y);
    CommittedAgree(top, k, t, l, u);
    if k <= l {
      CommandsOfPrefix(k, l);
    } else {
      CommandsOfPrefix(l, k);
    }
  }

  /** In a stream without gaps, a command message carries the command at its index of the final state. */
  lemma {:induction false} MessageInState(base: seq<Command>, stream: seq<ApplyMsg>, m: nat)
    requires Contiguous(base, stream) && m < |stream| && stream[m].CommandMsg?
    ensures 1 <= stream[m].index <= |Replay(base, stream)|
    ensures Replay(base, stream)[stream[m].index - 1] == stream[m].command
  {
    var upto := stream[..m + 1];
    ReplayGrows(base, stream, m + 1);
    assert upto[..|upto| - 1] == stream[..m];
    assert upto[|upto| - 1] == stream[m];
  }

  /** No two servers ever hand their service different commands at the same index. */
  lemma SameCommandAtIndex(n: nat, steps: seq<Step>, i: nat, j: nat, x: nat, y: nat, a: nat, b: nat)
    requires Admissible(n, steps) && i <= |steps| && j <= |steps| && x < n && y < n
    requires a < |Run(n, steps[..i]).nodes[x].stream| && b < |Run(n, steps[..j]).nodes[y].stream|
    requires Run(n, steps[..i]).nodes[x].stream[a].CommandMsg? && Run(n, steps[..j]).nodes[y].stream[b].CommandMsg?
    requires Run(n, steps[..i]).nodes[x].stream[a].index == Run(n, steps[..j]).nodes[y].stream[b].index
    ensures Run(n, steps[..i]).nodes[x].stream[a].command == Run(n, steps[..j]).nodes[y].stream[b].command
  {
    hide StateOK, Inv, Shape, Committed, Grows, Contiguous, Replay, Run, Admissible;
    StateMachineSafety(n, steps, i, j, x, y);
    var gs := RunOK(n, steps);
    var s, s' := Run(n, steps[..i]), Run(n, steps[..j]);
    var _ := ServiceCommitted(n, s, gs[i], x);
    var _ := ServiceCommitted(n, s', gs[j], y);
    MessageInState(s.nodes[x].base, s.nodes[x].stream, a);
    MessageInState(s'.nodes[y].base, s'.nodes[y].stream, b);
  }

  /** Delivery: no gap, no repetition, no regression, and a server's snapshot is what its service had. */
  lemma DeliveryContiguous(n: nat, steps: seq<Step>, x: nat)
    requires Admissible(n, steps) && x < n
    ensures var nd := Run(n, steps).nodes[x];
            && Contiguous(nd.base, nd.stream)
            && |Replay(nd.base, nd.stream)| ==
                (if nd.peer.lastApplied <= nd.peer.snapIndex then nd.peer.snapIndex else nd.peer.lastApplied)
            && nd.peer.snapshot <= Replay(nd.base, nd.stream)
  {
    hide StateOK, Inv, Committed, Grows, Contiguous, Replay, RoleOK, RoundsOK, VoteOK;
    var gs := RunOK(n, steps);
    assert steps[..|steps|] == steps;
    var s, g := Run(n, steps), gs[|steps|];
    StateNode(n, s, g, x);
    var nd, snap := s.nodes[x], g.snaps[x];
    DeliveredCommitted(g.h, snap, nd, x);
    var d := Delivered(g.h, snap, nd.peer, x);
    EqualCommitted(g.h, snap, d, nd.peer.term);
    CommandsOfPrefix(snap, d);
  }

  // ---------------------------------------------------------------- durability

  /** What every step keeps of a server, however the run went so far. */
  predicate Progress(p: Peer, q: Peer) {
    Durable(q) && p.term <= q.term && p.snapIndex <= q.snapIndex
  }

  lemma ReceiveProgress(n: nat, s: State, m: Msg, x: nat)
    requires |s.nodes| == n && x < n && Durable(s.nodes[x].peer)
    ensures Progress(s.nodes[x].peer, Next(n, s, Receive(m)).nodes[x].peer)
  {
    hide HandleVote, HandleAppend, HandleAppendReply, HandleInstall;
    if Safe(n, s, Receive(m)) && m in s.msgs && m.to < n && m.from < n && m.to == x {
      var p := s.nodes[x].peer;
      match m
      case VoteReq(_, _, _, _, a) => HandleVoteProgress(p, a);
      case VoteResp(_, _, _, _, _, _) =>
      case AppendReq(_, _, _, a) => HandleAppendProgress(p, a);
      case AppendResp(i, _, _, a, r) => if m.boots == s.nodes[x].boots { HandleAppendReplyProgress(p, x, i, a, r); }
      case InstallReq(_, _, _, a) => HandleInstallProgress(p, a);
      case InstallResp(_, _, _, _, _) =>
    }
  }

  lemma HandleVoteProgress(p: Peer, a: VoteArgs)
    requires p.log != [] && Durable(p)
    ensures Progress(p, HandleVote(p, a).0)
  {
  }

  lemma HandleAppendProgress(p: Peer, a: AppendArgs)
    requires p.log != [] && Durable(p)
    ensures Progress(p, HandleAppend(p, a).0)
  {
    hide TakeEntries;
    var q := MeetLeader(p, a.term);
    assert Progress(p, q) && q.log == p.log;
    if a.term >= q.term {
      TakeEntriesProgress(q, a);
    }
  }

  lemma TakeEntriesProgress(p: Peer, a: AppendArgs)
    requires p.log != [] && Durable(p)
    ensures Progress(p, TakeEntries(p, a).0)
  {
    hide Reconciled, RunStart;
  }

  lemma HandleAppendReplyProgress(p: Peer, me: nat, i: nat, a: AppendArgs, r: AppendReply)
    requires Durable(p) && (p.role == Leader && p.term == a.term ==> i < |p.nextIndex| && i < |p.matchIndex|)
    ensures Progress(p, HandleAppendReply(p, me, i, a, r))
  {
    hide SteppedBack, CommitPoint;
  }

  lemma HandleInstallProgress(p: Peer, a: InstallArgs)
    requires Durable(p)
    ensures Progress(p, HandleInstall(p, a).0)
  {
  }

  /** Every step leaves a durable server durable, and takes neither its term nor its snapshot back. */
  lemma NextProgress(n: nat, s: State, step: Step, x: nat)
    requires |s.nodes| == n && x < n && Durable(s.nodes[x].peer)
    ensures Progress(s.nodes[x].peer, Next(n, s, step).nodes[x].peer)
  {
    if step.Receive? {
      ReceiveProgress(n, s, step.m, x);
    } else {
      hide HandleKick, Replay, Position;
      assert step.Deliver? && step.x == x && Safe(n, s, step) ==>
             HandleKick(s.nodes[x].peer).0.(lastApplied := 0) == s.nodes[x].peer.(lastApplied := 0) by {
        if step.Deliver? && step.x == x && Safe(n, s, step) {
          KickKeeps(s.nodes[x].peer);
        }
      }
    }
  }

  lemma KickKeeps(p: Peer)
    requires p.commitIndex < LogLength(p)
    ensures HandleKick(p).0.(lastApplied := 0) == p.(lastApplied := 0)
  {
    hide Batch;
  }

  /** Along every run, from any point to its end. */
  lemma {:induction false} RunProgress(n: nat, steps: seq<Step>, i: nat, x: nat)
    requires i <= |steps| && x < n
    ensures Progress(Run(n, steps[..i]).nodes[x].peer, Run(n, steps).nodes[x].peer)
  {
    hide Next, Durable;
    if i == |steps| {
      assert steps[..i] == steps;
      RunDurable(n, steps, x);
    } else {
      var before := steps[..|steps| - 1];
      assert before[..i] == steps[..i];
      RunProgress(n, before, i, x);
      NextProgress(n, Run(n, before), steps[|steps| - 1], x);
    }
  }

  lemma {:induction false} RunDurable(n: nat, steps: seq<Step>, x: nat)
    requires x < n
    ensures Durable(Run(n, steps).nodes[x].peer)
  {
    hide Next;
    if steps != [] {
      var before := steps[..|steps| - 1];
      RunDurable(n, before, x);
      NextProgress(n, Run(n, before), steps[|steps| - 1], x);
    }
  }

  /** A crash at any point of any run loses no term, vote, log, snapshot index or snapshot. */
  lemma CrashLosesNothing(n: nat, steps: seq<Step>, x: nat)
    requires x < n
    ensures var p, q := Run(n, steps).nodes[x].peer, Run(n, steps + [Crash(x)]).nodes[x].peer;
            && Durable(p)
            && q.term == p.term && q.votedFor == p.votedFor && q.log == p.log
            && q.snapIndex == p.snapIndex && q.snapshot == p.snapshot
  {
    hide Run;
    RunDurable(n, steps, x);
    RunSnoc(n, steps, Crash(x));
  }

  lemma RunSnoc(n: nat, steps: seq<Step>, step: Step)
    ensures Run(n, steps + [step]) == Next(n, Run(n, steps), step)
  {
    assert (steps + [step])[..|steps|] == steps;
  }

  /** Terms never go back, over crashes included. */
  lemma TermNeverDecreases(n: nat, steps: seq<Step>, i: nat, x: nat)
    requires i <= |steps| && x < n
    ensures Run(n, steps[..i]).nodes[x].peer.term <= Run(n, steps).nodes[x].peer.term
  {
    hide Run, Durable;
    RunProgress(n, steps, i, x);
  }

  /** A server's snapshot index never goes back, over crashes included. */
  lemma SnapshotNeverShrinks(n: nat, steps: seq<Step>, i: nat, x: nat)
    requires i <= |steps| && x < n
    ensures Run(n, steps[..i]).nodes[x].peer.snapIndex <= Run(n, steps).nodes[x].peer.snapIndex
  {
    hide Run, Durable;
    RunProgress(n, steps, i, x);
  }

  // ---------------------------------------------------------------- the follower's commit rule

  lemma ReconciledLength(log: Log, at: nat, es: seq<Entry>)
    requires at <= |log|
    ensures |Reconciled(log, at, es)| >= at + |es|
  {
  }

  lemma TakeEntriesCommit(p: Peer, a: AppendArgs)
    requires p.log != [] && 0 <= a.leaderCommit <= a.prev + |a.entries|
    requires TakeEntries(p, a).1.success
    ensures TakeEntries(p, a).0.commitIndex == if a.leaderCommit > p.commitIndex then a.leaderCommit else p.commitIndex
  {
    hide Reconciled;
    if a.prev <= p.snapIndex {
      if p.snapIndex - a.prev < |a.entries| {
        ReconciledLength(p.log, 1, a.entries[p.snapIndex - a.prev..]);
      }
    } else {
      ReconciledLength(p.log, a.prev + 1 - p.snapIndex, a.entries);
    }
  }

  /**
   The follower's rule is the protocol's: bounding the leader's commit index by the follower's own
   log length is the same as bounding it by the last new entry, because every request carries the
   leader's whole suffix and a commit index inside it.
   */
  lemma FollowerCommitRule(n: nat, steps: seq<Step>, m: Msg)
    requires Admissible(n, steps) && m in Run(n, steps).msgs && m.AppendReq? && m.to < n
    ensures Run(n, steps).nodes[m.to].peer.log != []
    ensures var p, a := Run(n, steps).nodes[m.to].peer, m.appendArgs;
            && a.leaderCommit <= a.prev + |a.entries|
            && (HandleAppend(p, a).1.success ==>
                  HandleAppend(p, a).0.commitIndex ==
                    if a.leaderCommit > p.commitIndex
                    then (if a.leaderCommit <= a.prev + |a.entries| then a.leaderCommit else a.prev + |a.entries|)
                    else p.commitIndex)
  {
    hide StateOK, Inv, Grows, Run, Admissible, Shape, TakeEntries, NodeOK;
    var gs := RunOK(n, steps);
    assert steps[..|steps|] == steps;
    var s, g := Run(n, steps), gs[|steps|];
    StateNode(n, s, g, m.to);
    NodeSafe(g.h, g.snaps[m.to], s.nodes[m.to], m.to);
    StateMessage(n, s, g, m);
    var p, a := s.nodes[m.to].peer, m.appendArgs;
    if HandleAppend(p, a).1.success {
      TakeEntriesCommit(MeetLeader(p, a.term), a);
    }
  }

  lemma StateMessage(n: nat, s: State, g: Ghost, m: Msg)
    requires StateOK(n, s, g) && m in s.msgs && m.AppendReq?
    ensures 0 <= m.appendArgs.leaderCommit <= m.appendArgs.prev + |m.appendArgs.entries|
  {
    hide Inv, NodeOK;
    assert MsgOK(g.h, s.nodes, m);
  }
}
