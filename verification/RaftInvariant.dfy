/**
 What holds of every reachable cluster state, stated against the history of the run.

 Each server has a full log in the history; what the code keeps of it is the part above the
 snapshot. `snaps[x]` is the log prefix that server x's snapshot summarises. It need not be a prefix
 of the server's full log, because an installed snapshot keeps a suffix without comparing terms.
 */
module RaftInvariant {
  import opened RaftLog
  import opened RaftPeer
  import opened RaftSystem
  import opened Consensus
  import opened ConsensusProof

  datatype Ghost = Ghost(h: History, snaps: seq<Log>)

  // ---------------------------------------------------------------- one server

  ghost predicate LogOK(h: History, snap: Log, p: Peer, x: nat)
    requires Shape(h) && x < h.n
  {
    && p.term == h.term[x]
    && |snap| == p.snapIndex + 1 <= |h.log[x]|
    && Committed(h, snap, p.term)
    && p.snapshot == Commands(snap)
    && p.log == [Entry(Last(snap).term, NoCommand)] + h.log[x][|snap|..]
    && (|h.log[x]| == |snap| ==> h.log[x] == snap)
  }

  ghost predicate CommitOK(h: History, p: Peer, x: nat)
    requires Shape(h) && x < h.n
  {
    && 0 <= p.lastApplied <= p.commitIndex < |h.log[x]|
    && (p.commitIndex > p.snapIndex ==> Committed(h, h.log[x][..p.commitIndex + 1], p.term))
  }

  ghost predicate VoteOK(h: History, p: Peer, x: nat) {
    && p.votedFor >= -1
    && (p.votedFor == -1 ==> (x, p.term) !in h.votes)
    && (p.votedFor >= 0 ==> (x, p.term) in h.votes && h.votes[(x, p.term)] == p.votedFor)
  }

  /** Server `i` holds the leader of `t`'s log up to `m`, or that much is committed already. */
  ghost predicate Matched(h: History, i: nat, t: int, m: int) {
    t in h.canon && 0 <= m < |h.canon[t]| && (Acked(h, i, t, m) || Committed(h, h.canon[t][..m + 1], t))
  }

  ghost predicate RoleOK(h: History, p: Peer, x: nat)
    requires Shape(h)
  {
    && (p.role == Candidate ==>
          && (x, p.term) in h.cand && p.votedFor == x && p.term >= 1
          && (p.term in h.leader ==> h.leader[p.term] != x))
    && (p.role == Leader ==>
          && p.term in h.leader && h.leader[p.term] == x
          && |p.nextIndex| == h.n
          && (forall i :: 0 <= i < h.n ==> p.nextIndex[i] <= |h.canon[p.term]|)
          && (forall i :: 0 <= i < |p.matchIndex| && i != x ==>
                p.matchIndex[i] <= p.snapIndex || Matched(h, i, p.term, p.matchIndex[i])))
    && |p.matchIndex| == |p.nextIndex| && (|p.nextIndex| == 0 || |p.nextIndex| == h.n)
  }

  function CountedSet(rd: Round): set<nat> {
    set i: nat | i < |rd.calls| && rd.calls[i] == Counted
  }

  ghost predicate RoundOK(h: History, rd: Round, term: int, x: nat) {
    && rd.supporter == 1 + |CountedSet(rd)|
    && rd.term <= term
    && |rd.calls| == h.n && (x < h.n ==> rd.calls[x] == Idle)
    && (forall i: nat :: i < |rd.calls| && rd.calls[i].Counted? ==>
        (i, rd.term) in h.votes && h.votes[(i, rd.term)] == x)
  }

  ghost predicate RoundsOK(h: History, nd: Node, x: nat) {
    && (forall r :: 0 <= r < |nd.rounds| ==> |nd.rounds[r].calls| == h.n && (x < h.n ==> nd.rounds[r].calls[x] == Idle))
    && (h.n <= 3 || forall r :: 0 <= r < |nd.rounds| ==> RoundOK(h, nd.rounds[r], nd.peer.term, x))
  }

  /** The stream has no gap and no repetition, and never contradicts what came before. */
  ghost predicate Contiguous(base: seq<Command>, stream: seq<ApplyMsg>) {
    stream == [] ||
    (var before := stream[..|stream| - 1];
     && Contiguous(base, before)
     && match stream[|stream| - 1]
        case CommandMsg(i, _) => i == |Replay(base, before)| + 1
        case SnapshotMsg(i, d) => i == |d| && Replay(base, before) <= d)
  }

  /** The log prefix whose commands the service has received. */
  ghost function Delivered(h: History, snap: Log, p: Peer, x: nat): Log
    requires Shape(h) && x < h.n && p.lastApplied < |h.log[x]|
  {
    if p.lastApplied <= p.snapIndex then snap else h.log[x][..p.lastApplied + 1]
  }

  ghost predicate StreamOK(h: History, snap: Log, nd: Node, x: nat)
    requires Shape(h) && x < h.n && CommitOK(h, nd.peer, x) && snap != []
  {
    && Contiguous(nd.base, nd.stream)
    && Replay(nd.base, nd.stream) == Commands(Delivered(h, snap, nd.peer, x))
  }

  ghost predicate NodeOK(h: History, snap: Log, nd: Node, x: nat)
    requires Shape(h) && x < h.n
  {
    && LogOK(h, snap, nd.peer, x)
    && CommitOK(h, nd.peer, x)
    && VoteOK(h, nd.peer, x)
    && RoleOK(h, nd.peer, x)
    && RoundsOK(h, nd, x)
    && StreamOK(h, snap, nd, x)
    && Durable(nd.peer)
  }

  // ---------------------------------------------------------------- messages

  ghost predicate VoteReqOK(h: History, c: nat, a: VoteArgs) {
    && c < |h.term| && a.candidate == c && a.term <= h.term[c]
    && ((c, a.term) in h.cand && a.term !in h.leader ==>
          var l := h.cand[(c, a.term)]; l != [] && a.lastIndex == |l| - 1 && a.lastTerm == Last(l).term)
  }

  ghost predicate VoteRespOK(h: History, v: nat, c: nat, asked: int, r: VoteReply) {
    r.granted ==> (v, asked) in h.votes && h.votes[(v, asked)] == c
  }

  /** The arguments are a slice of the sender's log in its term, with a committed commit index inside it. */
  ghost predicate AppendOK(h: History, from: nat, a: AppendArgs) {
    && a.term in h.leader && a.term in h.canon && h.leader[a.term] == from
    && 0 <= a.prev && a.prev + |a.entries| < |h.canon[a.term]|
    && a.prevTerm == h.canon[a.term][a.prev].term
    && a.entries == h.canon[a.term][a.prev + 1..a.prev + 1 + |a.entries|]
    && 0 <= a.leaderCommit <= a.prev + |a.entries|
    && Committed(h, h.canon[a.term][..a.leaderCommit + 1], a.term)
  }

  ghost predicate AppendRespOK(h: History, from: nat, a: AppendArgs, r: AppendReply) {
    && (r.success ==> Matched(h, from, a.term, a.prev + |a.entries|))
    && (!r.success && r.term <= a.term ==>
          if r.xTerm == -1 then r.xLen <= a.prev else r.xIndex <= a.prev)
  }

  ghost predicate InstallOK(h: History, from: nat, a: InstallArgs) {
    && a.term in h.leader && a.term in h.canon && h.leader[a.term] == from
    && a.lastIndex < |h.canon[a.term]|
    && a.lastTerm == h.canon[a.term][a.lastIndex].term
    && a.data == Commands(h.canon[a.term][..a.lastIndex + 1])
    && Committed(h, h.canon[a.term][..a.lastIndex + 1], a.term)
  }

  /** An install call still waited for was made by a leader, whose snapshot has not shrunk since. */
  ghost predicate InstallCallOK(nd: Node, n: nat, boots: nat, a: InstallArgs) {
    && boots <= nd.boots
    && a.lastIndex <= nd.peer.snapIndex
    && (boots == nd.boots ==> |nd.peer.nextIndex| == n && |nd.peer.matchIndex| == n)
  }

  ghost predicate MsgOK(h: History, nodes: seq<Node>, m: Msg) {
    && m.from < h.n && m.to < h.n && m.from != m.to && |nodes| == h.n
    && match m
       case VoteReq(c, _, _, _, a) => VoteReqOK(h, c, a)
       case VoteResp(v, c, _, _, asked, r) => VoteRespOK(h, v, c, asked, r)
       case AppendReq(c, _, _, a) => AppendOK(h, c, a)
       case AppendResp(i, c, _, a, r) => AppendOK(h, c, a) && AppendRespOK(h, i, a, r)
       case InstallReq(c, _, b, a) => InstallOK(h, c, a) && InstallCallOK(nodes[c], h.n, b, a)
       case InstallResp(i, c, b, a, _) => InstallOK(h, c, a) && InstallCallOK(nodes[c], h.n, b, a)
  }

  ghost predicate StateOK(n: nat, s: State, g: Ghost) {
    && Inv(g.h) && g.h.n == n && |s.nodes| == n && |g.snaps| == n
    && (forall x :: 0 <= x < n ==> NodeOK(g.h, g.snaps[x], s.nodes[x], x))
    && (forall m :: m in s.msgs ==> MsgOK(g.h, s.nodes, m))
  }

  // ---------------------------------------------------------------- growth

  /** What server x does to the history leaves everyone else's part of it alone. */
  ghost predicate OnlyBy(h: History, h': History, x: nat) {
    && Grows(h, h')
    && (forall y :: 0 <= y < h.n && y != x ==> h'.log[y] == h.log[y] && h'.term[y] == h.term[y])
    && (forall k :: k in h'.votes && k !in h.votes ==> k.0 == x)
    && (forall k :: k in h'.cand && k !in h.cand ==> k.0 == x && k.1 > h.term[x])
    && (forall t :: t in h'.leader && t !in h.leader ==> h'.leader[t] == x)
    && (forall t :: t in h.canon && h'.canon[t] != h.canon[t] ==> h.leader[t] == x)
  }

  lemma MatchedGrows(h: History, h': History, i: nat, t: int, m: int)
    requires Grows(h, h') && Matched(h, i, t, m)
    ensures Matched(h', i, t, m)
  {
    assert h.canon[t] <= h'.canon[t];
    assert h'.canon[t][..m + 1] == h.canon[t][..m + 1];
    if Acked(h, i, t, m) {
      var m' :| m <= m' && (i, t, m') in h.acks;
      assert (i, t, m') in h'.acks;
    } else {
      CommittedGrows(h, h', h.canon[t][..m + 1], t, t);
    }
  }

  lemma AppendOKGrows(h: History, h': History, from: nat, a: AppendArgs)
    requires Grows(h, h') && AppendOK(h, from, a)
    ensures AppendOK(h', from, a)
  {
    var c, c' := h.canon[a.term], h'.canon[a.term];
    assert c <= c';
    assert c'[a.prev] == c[a.prev];
    assert c'[a.prev + 1..a.prev + 1 + |a.entries|] == c[a.prev + 1..a.prev + 1 + |a.entries|];
    assert c'[..a.leaderCommit + 1] == c[..a.leaderCommit + 1];
    CommittedGrows(h, h', c[..a.leaderCommit + 1], a.term, a.term);
  }

  lemma InstallOKGrows(h: History, h': History, from: nat, a: InstallArgs)
    requires Grows(h, h') && InstallOK(h, from, a)
    ensures InstallOK(h', from, a)
  {
    var c, c' := h.canon[a.term], h'.canon[a.term];
    assert c <= c';
    assert c'[a.lastIndex] == c[a.lastIndex];
    assert c'[..a.lastIndex + 1] == c[..a.lastIndex + 1];
    CommittedGrows(h, h', c[..a.lastIndex + 1], a.term, a.term);
  }

  /** How a server may move while calls it has made are outstanding. */
  predicate Advances(nd: Node, nd': Node) {
    && nd.boots <= nd'.boots
    && nd.peer.snapIndex <= nd'.peer.snapIndex
    && (nd'.boots == nd.boots && |nd.peer.nextIndex| != 0 ==>
          |nd'.peer.nextIndex| == |nd.peer.nextIndex| && |nd'.peer.matchIndex| == |nd.peer.matchIndex|)
  }

  lemma VoteReqOKGrows(h: History, h': History, x: nat, c: nat, a: VoteArgs)
    requires OnlyBy(h, h', x) && VoteReqOK(h, c, a)
    ensures VoteReqOK(h', c, a)
  {
  }

  lemma MsgOKGrows(h: History, h': History, nodes: seq<Node>, nodes': seq<Node>, x: nat, m: Msg)
    requires OnlyBy(h, h', x) && x < h.n && MsgOK(h, nodes, m)
    requires |nodes| == |nodes'| == h.n && nodes' == nodes[x := nodes'[x]] && Advances(nodes[x], nodes'[x])
    ensures MsgOK(h', nodes', m)
  {
    hide Committed, Matched, AppendOK, InstallOK, Shape;
    match m
    case VoteReq(c, _, _, _, a) => VoteReqOKGrows(h, h', x, c, a);
    case VoteResp(v, c, _, _, asked, r) =>
    case AppendReq(c, _, _, a) => AppendOKGrows(h, h', c, a);
    case AppendResp(i, c, _, a, r) =>
      AppendOKGrows(h, h', c, a);
      if r.success {
        MatchedGrows(h, h', i, a.term, a.prev + |a.entries|);
      }
    case InstallReq(c, _, b, a) => InstallOKGrows(h, h', c, a);
    case InstallResp(i, c, b, a, _) => InstallOKGrows(h, h', c, a);
  }

  lemma LogOKGrows(h: History, h': History, snap: Log, p: Peer, x: nat)
    requires Grows(h, h') && x < h.n && LogOK(h, snap, p, x)
    requires h'.log[x] == h.log[x] && h'.term[x] == h.term[x]
    ensures LogOK(h', snap, p, x)
  {
    CommittedGrows(h, h', snap, p.term, p.term);
  }

  lemma CommitOKGrows(h: History, h': History, p: Peer, x: nat)
    requires Grows(h, h') && x < h.n && CommitOK(h, p, x)
    requires h'.log[x] == h.log[x]
    ensures CommitOK(h', p, x)
  {
    if p.commitIndex > p.snapIndex {
      CommittedGrows(h, h', h.log[x][..p.commitIndex + 1], p.term, p.term);
    }
  }

  lemma RoleOKGrows(h: History, h': History, p: Peer, x: nat, y: nat)
    requires OnlyBy(h, h', x) && y < h.n && y != x && RoleOK(h, p, y)
    ensures RoleOK(h', p, y)
  {
    hide Committed, Acked;
    if p.role == Leader {
      forall i | 0 <= i < |p.matchIndex| && i != y
        ensures p.matchIndex[i] <= p.snapIndex || Matched(h', i, p.term, p.matchIndex[i])
      {
        if p.matchIndex[i] > p.snapIndex {
          MatchedGrows(h, h', i, p.term, p.matchIndex[i]);
        }
      }
    }
  }

  lemma RoundsOKGrows(h: History, h': History, nd: Node, x: nat)
    requires Grows(h, h') && RoundsOK(h, nd, x)
    ensures RoundsOK(h', nd, x)
  {
  }

  lemma VoteOKGrows(h: History, h': History, p: Peer, x: nat, y: nat)
    requires OnlyBy(h, h', x) && y != x && VoteOK(h, p, y)
    ensures VoteOK(h', p, y)
  {
  }

  lemma NodeOKGrows(h: History, h': History, snap: Log, nd: Node, x: nat, y: nat)
    requires OnlyBy(h, h', x) && y < h.n && y != x && NodeOK(h, snap, nd, y)
    ensures NodeOK(h', snap, nd, y)
  {
    hide Shape, Committed, Contiguous, Durable, LogOK, RoleOK, RoundsOK, VoteOK;
    LogOKGrows(h, h', snap, nd.peer, y);
    CommitOKGrows(h, h', nd.peer, y);
    VoteOKGrows(h, h', nd.peer, x, y);
    RoleOKGrows(h, h', nd.peer, x, y);
    RoundsOKGrows(h, h', nd, y);
  }

  /** A step of server x keeps the invariant if it does so for x itself and for what x sends. */
  lemma Assemble(n: nat, s: State, g: Ghost, x: nat, nd: Node, snap: Log, sent: set<Msg>, h': History)
    requires StateOK(n, s, g) && x < n
    requires Inv(h') && OnlyBy(g.h, h', x)
    requires NodeOK(h', snap, nd, x)
    requires Advances(s.nodes[x], nd)
    requires forall m :: m in sent ==> MsgOK(h', s.nodes[x := nd], m)
    ensures StateOK(n, State(s.nodes[x := nd], s.msgs + sent), Ghost(h', g.snaps[x := snap]))
  {
    hide Shape, Inv, NodeOK, MsgOK, Advances;
    var nodes' := s.nodes[x := nd];
    var snaps' := g.snaps[x := snap];
    forall y | 0 <= y < n
      ensures NodeOK(h', snaps'[y], nodes'[y], y)
    {
      if y != x {
        NodeOKGrows(g.h, h', g.snaps[y], s.nodes[y], x, y);
      }
    }
    forall m | m in s.msgs + sent
      ensures MsgOK(h', nodes', m)
    {
      if m in s.msgs {
        MsgOKGrows(g.h, h', s.nodes, nodes', x, m);
      }
    }
  }
}
