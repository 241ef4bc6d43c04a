/** Installing and taking snapshots, delivering to the service, and crashing keep the invariant. */
module RaftSnapshotSteps {
  import opened RaftLog
  import opened RaftPeer
  import opened RaftSystem
  import opened Consensus
  import opened ConsensusProof
  import opened RaftInvariant
  import opened RaftElectionSteps
  import opened RaftReplicationSteps

  // ---------------------------------------------------------------- the delivered stream

  /** The service only moves forward: what it had after part of the stream is a prefix of what it has now. */
  lemma {:induction false} ReplayGrows(base: seq<Command>, stream: seq<ApplyMsg>, j: nat)
    requires Contiguous(base, stream) && j <= |stream|
    ensures Contiguous(base, stream[..j]) && Replay(base, stream[..j]) <= Replay(base, stream)
  {
    if j == |stream| {
      assert stream[..j] == stream;
    } else {
      var before := stream[..|stream| - 1];
      ReplayGrows(base, before, j);
      assert before[..j] == stream[..j];
      assert Replay(base, before) <= Replay(base, stream);
    }
  }

  lemma PositionIsLength(base: seq<Command>, stream: seq<ApplyMsg>)
    requires Contiguous(base, stream)
    ensures Position(base, stream) == |Replay(base, stream)|
  {
  }

  lemma ReplaySnoc(base: seq<Command>, stream: seq<ApplyMsg>, m: ApplyMsg)
    ensures (stream + [m])[..|stream|] == stream
    ensures Replay(base, stream + [m]) == Consume(Replay(base, stream), m)
  {
    assert (stream + [m])[..|stream|] == stream;
  }

  // ---------------------------------------------------------------- InstallSnapshot at the follower

  ghost function LogAfterInstall(g: Log, l: Log): Log {
    if |g| <= |l| then l else g
  }

  lemma InstalledLog(h: History, snap: Log, p: Peer, x: nat, a: InstallArgs, l: Log)
    requires Shape(h) && x < h.n && LogOK(h, snap, p, x)
    requires |l| == a.lastIndex + 1 && a.lastTerm == Last(l).term && a.lastIndex > p.snapIndex
    ensures Installed(p, a).log == [Entry(Last(l).term, NoCommand)] + LogAfterInstall(h.log[x], l)[|l|..]
  {
    hide Committed, Shape;
    Sizes(h);
    VisibleEnd(h, snap, p, x);
    var g := h.log[x];
    if |l| < |g| {
      assert p.log[a.lastIndex + 1 - p.snapIndex..] == g[|snap|..][|l| - |snap|..];
    }
  }

  lemma InstalledOK(h: History, h': History, snap: Log, p: Peer, x: nat, a: InstallArgs, l: Log)
    requires Grows(h, h') && x < h.n && LogOK(h, snap, p, x) && a.lastIndex > p.snapIndex
    requires l != [] && |l| == a.lastIndex + 1 && a.lastTerm == Last(l).term && a.data == Commands(l)
    requires Committed(h, l, p.term)
    requires h'.log[x] == LogAfterInstall(h.log[x], l) && h'.term[x] == h.term[x]
    ensures LogOK(h', l, Installed(p, a), x)
  {
    hide Committed;
    InstalledLog(h, snap, p, x, a, l);
    CommittedGrows(h, h', l, p.term, p.term);
  }

  lemma EqualCommitted(h: History, l: Log, k: Log, t: int)
    requires Inv(h) && Committed(h, l, t) && Committed(h, k, t)
    ensures |l| <= |k| ==> l <= k
    ensures |l| == |k| ==> l == k
  {
    hide Inv, Committed;
    CommittedAgree(h, l, t, k, t);
  }

  /** What the service has received is committed. */
  lemma DeliveredCommitted(h: History, snap: Log, nd: Node, x: nat)
    requires Shape(h) && x < h.n && NodeOK(h, snap, nd, x)
    ensures nd.peer.lastApplied < |h.log[x]| && Committed(h, Delivered(h, snap, nd.peer, x), nd.peer.term)
    ensures |Delivered(h, snap, nd.peer, x)| - 1 == if nd.peer.lastApplied <= nd.peer.snapIndex then nd.peer.snapIndex
            else nd.peer.lastApplied
  {
    hide Committed, StreamOK, RoleOK, RoundsOK;
    var p := nd.peer;
    if p.lastApplied > p.snapIndex {
      CommittedPrefix(h, h.log[x][..p.commitIndex + 1], h.log[x][..p.lastApplied + 1], p.term);
    }
  }

  /** The service has not reached the snapshot: it is told, and everything starts from it. */
  lemma InstallTold(h: History, h': History, snap: Log, nd: Node, x: nat, a: InstallArgs, l: Log)
    requires Inv(h) && Grows(h, h') && x < h.n && NodeOK(h, snap, nd, x) && nd.peer.lastApplied < a.lastIndex &&
             a.lastIndex > nd.peer.snapIndex
    requires l != [] && |l| == a.lastIndex + 1 && a.data == Commands(l) && Committed(h, l, nd.peer.term) &&
             |l| <= |h'.log[x]|
    ensures var p' := Installed(nd.peer, a).(lastApplied := a.lastIndex, commitIndex := a.lastIndex);
            && CommitOK(h', p', x)
            && StreamOK(h', l, nd.(peer := p', stream := nd.stream + [SnapshotMsg(a.lastIndex, a.data)]), x)
  {
    hide Inv, Committed, LogOK, RoleOK, RoundsOK, VoteOK;
    var d := Delivered(h, snap, nd.peer, x);
    DeliveredCommitted(h, snap, nd, x);
    EqualCommitted(h, d, l, nd.peer.term);
    CommandsOfPrefix(d, l);
    ReplaySnoc(nd.base, nd.stream, SnapshotMsg(a.lastIndex, a.data));
  }

  /** The service is already past the snapshot: it is not told. */
  lemma InstallUntold(h: History, h': History, snap: Log, nd: Node, x: nat, a: InstallArgs, l: Log)
    requires Inv(h) && Grows(h, h') && x < h.n && NodeOK(h, snap, nd, x) &&
             nd.peer.lastApplied >= a.lastIndex > nd.peer.snapIndex
    requires l != [] && |l| == a.lastIndex + 1 && Committed(h, l, nd.peer.term)
    requires h'.log[x] == LogAfterInstall(h.log[x], l)
    ensures var p' := Installed(nd.peer, a);
            CommitOK(h', p', x) && StreamOK(h', l, nd.(peer := p'), x)
  {
    hide Inv, Committed, LogOK, RoleOK, RoundsOK, VoteOK, Contiguous;
    var p := nd.peer;
    var d := Delivered(h, snap, p, x);
    DeliveredCommitted(h, snap, nd, x);
    EqualCommitted(h, l, d, p.term);
    if p.commitIndex > a.lastIndex {
      CommittedGrows(h, h', h.log[x][..p.commitIndex + 1], p.term, p.term);
    }
  }

  lemma Replaced(h: History, x: nat, l: Log) returns (h': History)
    requires Inv(h) && Shape(h) && FromLeader(h, x, l)
    ensures Inv(h') && Grows(h, h') && OnlyBy(h, h', x) && x < |h.log|
    ensures h' == h.(log := h.log[x := LogAfterInstall(h.log[x], l)])
  {
    hide Inv;
    if |h.log[x]| <= |l| {
      h' := Replace(h, x, l);
      ReplaceInv(h, x, l);
      ReplaceOnly(h, x, l);
    } else {
      h' := h;
      SelfGrows(h);
      OnlyBySelf(h, x);
      assert h.log[x := h.log[x]] == h.log;
    }
  }

  ghost function Covered(h: History, a: InstallArgs): Log
    requires a.term in h.canon && a.lastIndex < |h.canon[a.term]|
  {
    h.canon[a.term][..a.lastIndex + 1]
  }

  lemma InstallNode(h: History, snap: Log, nd: Node, x: nat, from: nat, a: InstallArgs) returns (h': History)
    requires Inv(h) && Shape(h) && x < h.n && NodeOK(h, snap, nd, x) && InstallOK(h, from, a)
    requires a.term == nd.peer.term && from != x && a.lastIndex > nd.peer.snapIndex
    ensures Inv(h') && OnlyBy(h, h', x) && x < h'.n
    ensures var (p, _, out) := HandleInstall(nd.peer, a);
            NodeOK(h', Covered(h, a), nd.(peer := p, stream := nd.stream + out), x)
  {
    hide Inv, Committed, LogOK, RoleOK, RoundsOK, VoteOK, StreamOK, CommitOK, Shape;
    Sizes(h);
    InstallBasics(h, from, a);
    var p := nd.peer;
    var l := Covered(h, a);
    NotLeader(h, snap, nd, x, from, a.term);
    NodeTerm(h, snap, nd, x);
    h' := Replaced(h, x, l);
    InstalledOK(h, h', snap, p, x, a, l);
    var q := Installed(p, a);
    if p.lastApplied < a.lastIndex {
      InstallTold(h, h', snap, nd, x, a, l);
      var q' := q.(lastApplied := a.lastIndex, commitIndex := a.lastIndex);
      LogOther(h', l, q, q', x);
      var nd' := nd.(peer := q', stream := nd.stream + [SnapshotMsg(a.lastIndex, a.data)]);
      InstallRest(h, h', snap, nd, nd', x);
    } else {
      InstallUntold(h, h', snap, nd, x, a, l);
      InstallRest(h, h', snap, nd, nd.(peer := q), x);
      assert nd.stream + [] == nd.stream;
    }
  }

  lemma LogOther(h: History, snap: Log, p: Peer, p': Peer, x: nat)
    requires Shape(h) && x < h.n && LogOK(h, snap, p, x)
    requires p'.term == p.term && p'.log == p.log && p'.snapIndex == p.snapIndex && p'.snapshot == p.snapshot
    ensures LogOK(h, snap, p', x)
  {
    hide Committed, Shape;
  }

  lemma InstallRest(h: History, h': History, snap: Log, nd: Node, nd': Node, x: nat)
    requires Grows(h, h') && x < h.n && NodeOK(h, snap, nd, x) && nd.peer.role != Leader
    requires h'.leader == h.leader && h'.votes == h.votes
    requires nd'.rounds == nd.rounds && nd'.peer.term == nd.peer.term && nd'.peer.role == nd.peer.role
    requires nd'.peer.votedFor == nd.peer.votedFor && nd'.peer.nextIndex == nd.peer.nextIndex &&
             nd'.peer.matchIndex == nd.peer.matchIndex
    ensures RoleOK(h', nd'.peer, x) && VoteOK(h', nd'.peer, x) && RoundsOK(h', nd', x)
  {
    hide Committed, LogOK, RoleOK, RoundsOK, VoteOK, StreamOK, CommitOK, Shape;
    RoundsOKKeep(h, h', nd, nd', x);
    FollowerRole(h, h', nd.peer, nd'.peer, x);
    FollowerVote(h, h', nd.peer, nd'.peer, x);
  }

  lemma InstallBasics(h: History, from: nat, a: InstallArgs)
    requires InstallOK(h, from, a)
    ensures a.term in h.canon && a.lastIndex < |h.canon[a.term]|
  {
    hide Committed;
  }

  lemma HandleInstallNode(h: History, snap: Log, nd: Node, x: nat, from: nat, a: InstallArgs)
      returns (h': History, snap': Log)
    requires Inv(h) && Shape(h) && x < h.n && NodeOK(h, snap, nd, x) && InstallOK(h, from, a) && from != x
    ensures Inv(h') && OnlyBy(h, h', x) && x < h'.n
    ensures var (p, _, out) := HandleInstall(nd.peer, a);
            NodeOK(h', snap', nd.(peer := p, stream := nd.stream + out), x)
  {
    hide Inv, NodeOK, OnlyBy, HandleInstall, NewGen, Shape, Grows, InstallOK;
    var p := nd.peer;
    InstallCases(p, a);
    assert nd.stream + [] == nd.stream;
    if a.term < p.term {
      h', snap' := h, snap;
      OnlyBySelf(h, x);
      assert nd.(peer := p, stream := nd.stream) == nd;
    } else {
      var h1 := MeetTermMaybe(h, snap, nd, x, a.term);
      OnlyByGrows(h, h1, x);
      InstallOKGrows(h, h1, from, a);
      InstallBasics(h1, from, a);
      var p1 := if a.term > p.term then NewGen(p, a.term) else p;
      var nd1 := nd.(peer := p1);
      if a.lastIndex <= p.snapIndex {
        h', snap' := h1, snap;
        assert nd.(peer := p1, stream := nd.stream) == nd1;
      } else {
        h' := InstallNode(h1, snap, nd1, x, from, a);
        snap' := Covered(h1, a);
        OnlyByTransitive(h, h1, h', x);
      }
    }
  }

  /** How the handler opens: a stale sender, an old snapshot, or one to install in the sender's term. */
  lemma InstallCases(p: Peer, a: InstallArgs)
    ensures var p1 := if a.term > p.term then NewGen(p, a.term) else p;
            && p1.snapIndex == p.snapIndex && (a.term >= p.term ==> p1.term == a.term)
            && (a.term < p.term ==> HandleInstall(p, a) == (p, p.term, []))
            && (a.term >= p.term && a.lastIndex <= p.snapIndex ==> HandleInstall(p, a) == (p1, p1.term, []))
            && (a.term >= p.term ==> HandleInstall(p1, a) == HandleInstall(p, a))
  {
    hide Installed;
  }

  lemma HandleInstallKeeps(p: Peer, a: InstallArgs)
    ensures var q := HandleInstall(p, a).0;
            q.snapIndex >= p.snapIndex && q.nextIndex == p.nextIndex && q.matchIndex == p.matchIndex
  {
  }

  lemma InstallReqStep(n: nat, s: State, g: Ghost, m: Msg) returns (g': Ghost)
    requires StateOK(n, s, g) && m in s.msgs && m.InstallReq? && m.to < n
    ensures StateOK(n, DoInstallReq(s, m), g') && Grows(g.h, g'.h)
  {
    hide Inv, NodeOK, OnlyBy, Shape, HandleInstall, InstallOK;
    var x, c, a := m.to, m.from, m.installArgs;
    var nd, snap := s.nodes[x], g.snaps[x];
    assert MsgOK(g.h, s.nodes, m);
    InvShape(g.h);
    var h', snap' := HandleInstallNode(g.h, snap, nd, x, c, a);
    OnlyByGrows(g.h, h', x);
    InstallOKGrows(g.h, h', c, a);
    var (p, t, out) := HandleInstall(nd.peer, a);
    HandleInstallKeeps(nd.peer, a);
    Assemble(n, s, g, x, nd.(peer := p, stream := nd.stream + out), snap', {InstallResp(x, c, m.boots, a, t)}, h');
    g' := Ghost(h', g.snaps[x := snap']);
  }

  // ---------------------------------------------------------------- delivery

  lemma {:induction false} BatchReplay(g: Log, p: Peer, base: seq<Command>, stream: seq<ApplyMsg>, lo: int, hi: int)
    requires p.snapIndex < lo <= hi + 1 && hi < |g| == LogLength(p) && 1 <= lo
    requires forall i :: p.snapIndex < i < |g| ==> Get(p, i) == g[i]
    requires Contiguous(base, stream) && Replay(base, stream) == Commands(g[..lo])
    ensures Contiguous(base, stream + Batch(p, lo, hi))
    ensures Replay(base, stream + Batch(p, lo, hi)) == Commands(g[..hi + 1])
    decreases hi - lo + 1
  {
    if hi < lo {
      assert stream + Batch(p, lo, hi) == stream;
      assert g[..hi + 1] == g[..lo];
    } else {
      var m := CommandMsg(hi, g[hi].command);
      BatchSnoc(p, stream, lo, hi, m);
      hide Replay, Contiguous, Batch, Commands, Get;
      BatchReplay(g, p, base, stream, lo, hi - 1);
      CommandsSnoc(g, hi);
      CommandNext(base, stream + Batch(p, lo, hi - 1), m);
    }
  }

  lemma BatchSnoc(p: Peer, stream: seq<ApplyMsg>, lo: int, hi: int, m: ApplyMsg)
    requires p.snapIndex < lo <= hi < LogLength(p) && m == CommandMsg(hi, Get(p, hi).command)
    ensures stream + Batch(p, lo, hi) == stream + Batch(p, lo, hi - 1) + [m]
  {
  }

  lemma CommandsSnoc(g: Log, hi: nat)
    requires 1 <= hi < |g|
    ensures |Commands(g[..hi])| == hi - 1 && Commands(g[..hi + 1]) == Commands(g[..hi]) + [g[hi].command]
  {
  }

  /** A command at the next index extends a stream without gaps. */
  lemma CommandNext(base: seq<Command>, stream: seq<ApplyMsg>, m: ApplyMsg)
    requires Contiguous(base, stream) && m.CommandMsg? && m.index == |Replay(base, stream)| + 1
    ensures Contiguous(base, stream + [m]) && Replay(base, stream + [m]) == Replay(base, stream) + [m.command]
  {
    ReplaySnoc(base, stream, m);
  }

  /** Beyond the snapshot, a server that has committed further agrees with its snapshot. */
  lemma SnapInside(h: History, snap: Log, p: Peer, x: nat)
    requires Inv(h) && Shape(h) && x < h.n && LogOK(h, snap, p, x) && CommitOK(h, p, x) && p.commitIndex > p.snapIndex
    ensures |snap| == p.snapIndex + 1 && p.commitIndex < |h.log[x]| && snap <= h.log[x]
    ensures LogLength(p) == |h.log[x]|
    ensures forall i :: p.snapIndex < i < |h.log[x]| ==> Get(p, i) == h.log[x][i]
  {
    hide Inv, Committed, Shape;
    Sizes(h);
    EqualCommitted(h, snap, h.log[x][..p.commitIndex + 1], p.term);
  }

  lemma DeliverStream(h: History, snap: Log, nd: Node, nd': Node, x: nat, lo: int)
    requires Inv(h) && Shape(h) && x < h.n && NodeOK(h, snap, nd, x) && nd.peer.commitIndex > nd.peer.lastApplied
    requires lo == (if nd.peer.lastApplied < nd.peer.snapIndex then nd.peer.snapIndex + 1 else nd.peer.lastApplied + 1)
    requires nd.peer.commitIndex < LogLength(nd.peer) && snap != []
    requires nd' == nd.(peer := nd.peer.(lastApplied := nd.peer.commitIndex),
                        stream := nd.stream + Batch(nd.peer, lo, nd.peer.commitIndex))
    ensures LogOK(h, snap, nd'.peer, x) && CommitOK(h, nd'.peer, x) && StreamOK(h, snap, nd', x)
  {
    hide Inv, Committed, RoleOK, RoundsOK, VoteOK, Shape, Contiguous, Replay, LogOK;
    Sizes(h);
    var p := nd.peer;
    LogOther(h, snap, p, nd'.peer, x);
    if p.commitIndex <= p.snapIndex {
      assert Batch(p, lo, p.commitIndex) == [];
      assert nd.stream + [] == nd.stream;
    } else {
      SnapInside(h, snap, nd.peer, x);
      assert Delivered(h, snap, p, x) == h.log[x][..lo];
      BatchReplay(h.log[x], p, nd.base, nd.stream, lo, p.commitIndex);
    }
  }

  lemma DeliverNode(h: History, snap: Log, nd: Node, x: nat)
    requires Inv(h) && Shape(h) && x < h.n && NodeOK(h, snap, nd, x) && nd.peer.commitIndex < LogLength(nd.peer)
    ensures var (p, out) := HandleKick(nd.peer);
            NodeOK(h, snap, nd.(peer := p, stream := nd.stream + out), x)
  {
    hide Inv, Committed, RoleOK, RoundsOK, VoteOK, Shape, StreamOK, LogOK, CommitOK, Batch;
    Sizes(h);
    var p := nd.peer;
    if p.commitIndex < p.lastApplied + 1 {
      assert nd.(peer := p, stream := nd.stream + []) == nd;
    } else {
      var lo := if p.lastApplied < p.snapIndex then p.snapIndex + 1 else p.lastApplied + 1;
      var p' := p.(lastApplied := p.commitIndex);
      var nd' := nd.(peer := p', stream := nd.stream + Batch(p, lo, p.commitIndex));
      NodeTerm(h, snap, nd, x);
      DeliverStream(h, snap, nd, nd', x, lo);
      RoleApplied(h, p, x, p.commitIndex);
      RoundsKeepSelf(h, nd, nd', x);
      FollowerVote(h, h, p, p', x);
    }
  }

  lemma RoleApplied(h: History, p: Peer, x: nat, a: int)
    requires Shape(h) && RoleOK(h, p, x)
    ensures RoleOK(h, p.(lastApplied := a), x)
  {
    hide Shape, Matched;
  }

  lemma DeliverStep(n: nat, s: State, g: Ghost, x: nat) returns (g': Ghost)
    requires StateOK(n, s, g) && x < n && s.nodes[x].peer.commitIndex < LogLength(s.nodes[x].peer)
    ensures StateOK(n, DoDeliver(s, x), g') && Grows(g.h, g'.h)
  {
    hide Inv, NodeOK, OnlyBy, Shape;
    var nd, snap := s.nodes[x], g.snaps[x];
    SelfGrows(g.h);
    OnlyBySelf(g.h, x);
    DeliverNode(g.h, snap, nd, x);
    var (p, out) := HandleKick(nd.peer);
    Assemble(n, s, g, x, nd.(peer := p, stream := nd.stream + out), snap, {}, g.h);
    assert s.msgs + {} == s.msgs;
    g' := Ghost(g.h, g.snaps[x := snap]);
  }

  // ---------------------------------------------------------------- compaction

  /** A snapshot the service takes is inside what it has been sent, so inside the committed log. */
  lemma CompactFacts(h: History, snap: Log, nd: Node, x: nat, seen: nat)
    requires Inv(h) && Shape(h) && x < h.n && NodeOK(h, snap, nd, x) && seen <= |nd.stream|
    ensures var index := Position(nd.base, nd.stream[..seen]);
            && index < LogLength(nd.peer)
            && (index > nd.peer.snapIndex ==>
                  && index <= nd.peer.lastApplied < |h.log[x]|
                  && Replay(nd.base, nd.stream[..seen]) == Commands(h.log[x][..index + 1])
                  && Committed(h, h.log[x][..index + 1], nd.peer.term))
  {
    hide Inv, Committed, RoleOK, RoundsOK, VoteOK, Shape, Contiguous, Replay;
    Sizes(h);
    var p := nd.peer;
    ReplayGrows(nd.base, nd.stream, seen);
    PositionIsLength(nd.base, nd.stream[..seen]);
    DeliveredCommitted(h, snap, nd, x);
    var index := Position(nd.base, nd.stream[..seen]);
    var d := Delivered(h, snap, p, x);
    assert |Commands(d)| == |d| - 1;
    if index > p.snapIndex {
      assert d == h.log[x][..p.lastApplied + 1];
      CommittedPrefix(h, d, h.log[x][..index + 1], p.term);
      assert Commands(h.log[x][..index + 1]) == Commands(d)[..index];
    }
  }

  lemma CompactLog(h: History, snap: Log, p: Peer, x: nat, index: int, data: seq<Command>)
    requires Shape(h) && x < h.n && LogOK(h, snap, p, x) && CommitOK(h, p, x)
    requires p.snapIndex < index <= p.lastApplied && data == Commands(h.log[x][..index + 1])
    requires Committed(h, h.log[x][..index + 1], p.term)
    ensures index < LogLength(p)
    ensures var p' := TakeSnapshot(p, index, data);
            LogOK(h, h.log[x][..index + 1], p', x) && CommitOK(h, p', x)
  {
    hide Committed, Shape;
    Sizes(h);
    VisibleEnd(h, snap, p, x);
    var g := h.log[x];
    assert g[|snap|..][index - p.snapIndex..] == g[index + 1..];
    assert p.log[index - p.snapIndex + 1..] == g[index + 1..];
  }

  lemma CompactNode(h: History, snap: Log, nd: Node, x: nat, seen: nat) returns (snap': Log)
    requires Inv(h) && Shape(h) && x < h.n && NodeOK(h, snap, nd, x) && seen <= |nd.stream|
    ensures Position(nd.base, nd.stream[..seen]) < LogLength(nd.peer)
    ensures var p' := TakeSnapshot(nd.peer, Position(nd.base, nd.stream[..seen]), Replay(nd.base, nd.stream[..seen]));
            NodeOK(h, snap', nd.(peer := p'), x)
  {
    hide Inv, Committed, RoleOK, RoundsOK, VoteOK, LogOK, Contiguous, Replay, Position, Shape, CommitOK, StreamOK;
    Sizes(h);
    var p := nd.peer;
    var index, data := Position(nd.base, nd.stream[..seen]), Replay(nd.base, nd.stream[..seen]);
    CompactFacts(h, snap, nd, x, seen);
    if index <= p.snapIndex {
      snap' := snap;
      assert nd.(peer := p) == nd;
    } else {
      snap' := h.log[x][..index + 1];
      NodeTerm(h, snap, nd, x);
      CompactLog(h, snap, p, x, index, data);
      var p' := TakeSnapshot(p, index, data);
      CompactStream(h, snap, nd, nd.(peer := p'), x, snap', index);
      RoleSnap(h, p, p', x);
      RoundsKeepSelf(h, nd, nd.(peer := p'), x);
      FollowerVote(h, h, p, p', x);
    }
  }

  lemma CompactStream(h: History, snap: Log, nd: Node, nd': Node, x: nat, snap': Log, index: int)
    requires Shape(h) && x < h.n && CommitOK(h, nd.peer, x) && CommitOK(h, nd'.peer, x) && snap != []
    requires StreamOK(h, snap, nd, x) && nd.peer.snapIndex < index <= nd.peer.lastApplied &&
             snap' == h.log[x][..index + 1]
    requires nd'.base == nd.base && nd'.stream == nd.stream && nd'.peer.lastApplied == nd.peer.lastApplied &&
             nd'.peer.snapIndex == index
    ensures StreamOK(h, snap', nd', x)
  {
    hide Committed, Shape, Contiguous, Replay;
  }

  lemma RoleSnap(h: History, p: Peer, p': Peer, x: nat)
    requires Shape(h) && RoleOK(h, p, x) && p'.snapIndex >= p.snapIndex
    requires p' == p.(log := p'.log, snapIndex := p'.snapIndex, snapshot := p'.snapshot, disk := p'.disk)
    ensures RoleOK(h, p', x)
  {
    hide Shape, Matched;
  }

  lemma CompactStep(n: nat, s: State, g: Ghost, x: nat, seen: nat) returns (g': Ghost)
    requires StateOK(n, s, g) && x < n && seen <= |s.nodes[x].stream|
    requires Position(s.nodes[x].base, s.nodes[x].stream[..seen]) < LogLength(s.nodes[x].peer)
    ensures StateOK(n, DoCompact(s, x, seen), g') && Grows(g.h, g'.h)
  {
    hide Inv, NodeOK, OnlyBy, Shape, Replay, Position;
    var nd, snap := s.nodes[x], g.snaps[x];
    SelfGrows(g.h);
    OnlyBySelf(g.h, x);
    var snap' := CompactNode(g.h, snap, nd, x, seen);
    var p' := TakeSnapshot(nd.peer, Position(nd.base, nd.stream[..seen]), Replay(nd.base, nd.stream[..seen]));
    Assemble(n, s, g, x, nd.(peer := p'), snap', {}, g.h);
    assert s.msgs + {} == s.msgs;
    g' := Ghost(g.h, g.snaps[x := snap']);
  }

  // ---------------------------------------------------------------- crashes

  lemma CrashNode(h: History, snap: Log, nd: Node, x: nat)
    requires Shape(h) && x < h.n && NodeOK(h, snap, nd, x)
    ensures var p := Boot(nd.peer.disk);
            NodeOK(h, snap, Node(p, [], nd.boots + 1, p.snapshot, []), x) && p.snapIndex == nd.peer.snapIndex
  {
    hide Committed, RoleOK, RoundsOK, StreamOK, LogOK;
    var p := Boot(nd.peer.disk);
    NodeTerm(h, snap, nd, x);
    LogOther(h, snap, nd.peer, p, x);
    CrashRest(h, snap, Node(p, [], nd.boots + 1, p.snapshot, []), x);
  }

  lemma CrashRest(h: History, snap: Log, nd: Node, x: nat)
    requires Shape(h) && x < h.n && LogOK(h, snap, nd.peer, x) && nd.rounds == [] && nd.stream == [] &&
             nd.base == nd.peer.snapshot
    requires nd.peer.role == Follower && nd.peer.nextIndex == nd.peer.matchIndex == []
    requires nd.peer.commitIndex == nd.peer.lastApplied == 0
    ensures RoleOK(h, nd.peer, x) && RoundsOK(h, nd, x) && CommitOK(h, nd.peer, x) && StreamOK(h, snap, nd, x)
  {
    hide Committed;
  }

  lemma CrashStep(n: nat, s: State, g: Ghost, x: nat) returns (g': Ghost)
    requires StateOK(n, s, g) && x < n
    ensures StateOK(n, DoCrash(s, x), g') && Grows(g.h, g'.h)
  {
    hide Inv, NodeOK, OnlyBy, Shape;
    var nd, snap := s.nodes[x], g.snaps[x];
    SelfGrows(g.h);
    OnlyBySelf(g.h, x);
    CrashNode(g.h, snap, nd, x);
    var p := Boot(nd.peer.disk);
    Assemble(n, s, g, x, Node(p, [], nd.boots + 1, p.snapshot, []), snap, {}, g.h);
    assert s.msgs + {} == s.msgs;
    g' := Ghost(g.h, g.snaps[x := snap]);
  }
}
