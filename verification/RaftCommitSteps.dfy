/** The leader's handling of replies keeps the invariant. */
module RaftCommitSteps {
  import opened RaftLog
  import opened RaftPeer
  import opened RaftSystem
  import opened Consensus
  import opened ConsensusProof
  import opened RaftInvariant
  import opened RaftElectionSteps
  import opened RaftReplicationSteps

  // ---------------------------------------------------------------- counting replicas

  function Holders(p: Peer, me: nat, i: int, k: nat): set<nat>
    requires k <= |p.matchIndex|
  {
    set j: nat | j < k && (j == me || p.matchIndex[j] >= i)
  }

  lemma {:induction false} SupportCounts(p: Peer, me: nat, i: int, k: nat)
    requires k <= |p.matchIndex|
    ensures Support(p, me, i, k) == |Holders(p, me, i, k)|
  {
    if k == 0 {
      assert Holders(p, me, i, 0) == {};
    } else {
      SupportCounts(p, me, i, k - 1);
      if k - 1 == me || p.matchIndex[k - 1] >= i {
        assert Holders(p, me, i, k) == Holders(p, me, i, k - 1) + {k - 1};
      } else {
        assert Holders(p, me, i, k) == Holders(p, me, i, k - 1);
      }
    }
  }

  lemma AckedLower(h: History, v: nat, t: int, m: nat, c: nat)
    requires Acked(h, v, t, m) && c <= m
    ensures Acked(h, v, t, c)
  {
    var m' :| m <= m' && (v, t, m') in h.acks;
  }

  /** A leader with an entry of its own term has acknowledged everything up to it. */
  lemma LeaderAcked(h: History, t: int, c: nat)
    requires Shape(h) && Logs(h) && Acks(h) && Own(h, t, c) && t in h.leader
    ensures Acked(h, h.leader[t], t, c)
  {
    hide Shape;
    LeaderLast(h, t, c);
    hide Logs;
    assert (h.leader[t], t, |h.canon[t]| - 1) in h.acks;
  }

  lemma LeaderLast(h: History, t: int, c: nat)
    requires Shape(h) && Logs(h) && Own(h, t, c)
    ensures h.canon[t] != [] && Last(h.canon[t]).term == t
  {
    hide Chain;
    var l := h.canon[t];
    ChainTermsOrdered(l, h, c, |l| - 1);
  }

  lemma InvAcks(h: History)
    requires Inv(h)
    ensures Shape(h) && Logs(h) && Acks(h)
  {
    hide Logs, Acks;
  }

  lemma MatchedLower(h: History, i: nat, t: int, m: int, c: nat)
    requires Matched(h, i, t, m) && c <= m
    ensures Acked(h, i, t, c) || Committed(h, h.canon[t][..c + 1], t)
  {
    hide Committed, Acked;
    if Acked(h, i, t, m) {
      AckedLower(h, i, t, m, c);
    } else {
      CommittedPrefix(h, h.canon[t][..m + 1], h.canon[t][..c + 1], t);
    }
  }

  /** The servers the leader counts have acknowledged the entry, unless it is committed already. */
  lemma HoldersChoose(h: History, p: Peer, x: nat, c: nat)
    requires Shape(h) && x < h.n && RoleOK(h, p, x) && p.role == Leader && Acked(h, x, p.term, c)
    requires Own(h, p.term, c) && c > p.snapIndex && Support(p, x, c, |p.matchIndex|) > |p.matchIndex| / 2
    requires !Committed(h, h.canon[p.term][..c + 1], p.term)
    ensures CanChoose(h, p.term, c, Holders(p, x, c, |p.matchIndex|))
  {
    hide Acked, Committed, Shape;
    var q := Holders(p, x, c, |p.matchIndex|);
    SupportCounts(p, x, c, |p.matchIndex|);
    forall v | v in q
      ensures Acked(h, v, p.term, c)
    {
      if v != x {
        MatchedLower(h, v, p.term, p.matchIndex[v], c);
      }
    }
  }

  /** An index the code finds replicated on a majority, in the leader's own term, is committed. */
  lemma CountedIsCommitted(h: History, p: Peer, x: nat, c: nat) returns (h': History)
    requires Inv(h) && Shape(h) && x < h.n && RoleOK(h, p, x) && p.role == Leader
    requires Own(h, p.term, c) && c > p.snapIndex && Support(p, x, c, |p.matchIndex|) > |p.matchIndex| / 2
    ensures Inv(h') && OnlyBy(h, h', x) && h'.canon == h.canon && h'.acks == h.acks && h'.leader == h.leader
    ensures h'.log == h.log && h'.term == h.term && h'.votes == h.votes && h'.cand == h.cand
    ensures Committed(h', h'.canon[p.term][..c + 1], p.term)
  {
    hide Inv, Logs, Acks, Holders, Support, Acked;
    InvAcks(h);
    var t := p.term;
    var q := Holders(p, x, c, |p.matchIndex|);
    LeaderAcked(h, t, c);
    if Committed(h, h.canon[t][..c + 1], t) {
      h' := h;
      OnlyBySelf(h, x);
    } else {
      HoldersChoose(h, p, x, c);
      hide RoleOK;
      h' := Choose(h, t, c, q);
      ChooseInv(h, t, c, q);
      ChooseOnly(h, t, c, q, x);
      assert (t, c) in h'.chosen;
    }
  }

  // ---------------------------------------------------------------- replies to the leader

  lemma MatchRole(h: History, p: Peer, x: nat, i: nat, m: int)
    requires Shape(h) && RoleOK(h, p, x) && i < |p.matchIndex| && i < |p.nextIndex|
    requires p.role == Leader ==> m + 1 <= |h.canon[p.term]| && (m <= p.snapIndex || Matched(h, i, p.term, m))
    ensures RoleOK(h, p.(matchIndex := p.matchIndex[i := m], nextIndex := p.nextIndex[i := m + 1]), x)
  {
    hide Shape, Matched;
  }

  lemma StepBackRole(h: History, p: Peer, x: nat, i: nat, k: int)
    requires Shape(h) && RoleOK(h, p, x) && p.role == Leader && i < |p.nextIndex| && k <= |h.canon[p.term]|
    ensures RoleOK(h, p.(nextIndex := p.nextIndex[i := k]), x)
  {
    hide Shape, Matched;
  }

  /** Changing only the leader's bookkeeping. */
  lemma BookkeepingNode(h: History, snap: Log, nd: Node, p': Peer, x: nat)
    requires Shape(h) && x < h.n && NodeOK(h, snap, nd, x) && RoleOK(h, p', x)
    requires p' == nd.peer.(nextIndex := p'.nextIndex, matchIndex := p'.matchIndex)
    ensures NodeOK(h, snap, nd.(peer := p'), x)
  {
    hide LogOK, RoundsOK, Committed, StreamOK, VoteOK, Shape, RoleOK;
    NodeTerm(h, snap, nd, x);
    DiskOnly(h, snap, nd.peer, p', x);
    StreamKeep(h, h, snap, nd, nd.(peer := p'), x);
    RoundsKeepSelf(h, nd, nd.(peer := p'), x);
    FollowerVote(h, h, nd.peer, p', x);
  }

  lemma CommitLogOK(h: History, h': History, snap: Log, p: Peer, x: nat, c: int)
    requires Grows(h, h') && x < h.n && LogOK(h, snap, p, x) && CommitOK(h, p, x)
    requires h'.log == h.log && h'.term == h.term && p.commitIndex <= c < |h.log[x]|
    requires c > p.snapIndex ==> Committed(h', h.log[x][..c + 1], p.term)
    ensures LogOK(h', snap, p.(commitIndex := c), x) && CommitOK(h', p.(commitIndex := c), x)
  {
    hide Committed;
    CommittedGrows(h, h', snap, p.term, p.term);
  }

  lemma CommitIndexNode(h: History, h': History, snap: Log, nd: Node, x: nat, c: int)
    requires Grows(h, h') && x < h.n && NodeOK(h, snap, nd, x) && nd.peer.role == Leader
    requires h'.log == h.log && h'.term == h.term && h'.votes == h.votes && h'.leader == h.leader && h'.canon == h.canon
    requires nd.peer.commitIndex <= c < |h.log[x]|
    requires c > nd.peer.snapIndex ==> Committed(h', h.log[x][..c + 1], nd.peer.term)
    ensures NodeOK(h', snap, nd.(peer := nd.peer.(commitIndex := c)), x)
  {
    hide RoundsOK, Committed, StreamOK, VoteOK, RoleOK, LogOK, CommitOK;
    var p' := nd.peer.(commitIndex := c);
    var nd' := nd.(peer := p');
    NodeTerm(h, snap, nd, x);
    CommitLogOK(h, h', snap, nd.peer, x, c);
    hide Shape;
    StreamKeep(h, h', snap, nd, nd', x);
    RoundsOKKeep(h, h', nd, nd', x);
    FollowerVote(h, h', nd.peer, p', x);
    StartRole(h, h', nd.peer, nd.peer, x);
    RoleCommit(h', nd.peer, x, c);
  }

  lemma RoleCommit(h: History, p: Peer, x: nat, c: int)
    requires Shape(h) && RoleOK(h, p, x)
    ensures RoleOK(h, p.(commitIndex := c), x)
  {
    hide Shape, Matched;
  }

  /** The commit scan of a leader whose bookkeeping is good. */
  lemma ScanNode(h: History, snap: Log, nd: Node, x: nat) returns (h': History)
    requires Inv(h) && Shape(h) && x < h.n && NodeOK(h, snap, nd, x) && nd.peer.role == Leader
    ensures Inv(h') && OnlyBy(h, h', x) && x < h'.n
    ensures NodeOK(h', snap, nd.(peer := UpdateCommitIndex(nd.peer, x)), x)
  {
    hide Inv, NodeOK, Committed, LogOK, OnlyBy, RoleOK;
    var p := nd.peer;
    LeaderView(h, snap, nd, x);
    NodeLogOK(h, snap, nd, x);
    VisibleEnd(h, snap, p, x);
    var c := CommitPoint(p, x, LogLength(p) - 1);
    if c == p.commitIndex {
      h' := h;
      OnlyBySelf(h, x);
      assert nd.(peer := UpdateCommitIndex(p, x)) == nd;
    } else {
      LeaderEntry(h, snap, p, x, c);
      NodeRole(h, snap, nd, x);
      h' := CountedIsCommitted(h, p, x, c);
      OnlyByGrows(h, h', x);
      CommitIndexNode(h, h', snap, nd, x, c);
    }
  }

  lemma NodeRole(h: History, snap: Log, nd: Node, x: nat)
    requires Shape(h) && x < h.n && NodeOK(h, snap, nd, x)
    ensures RoleOK(h, nd.peer, x)
  {
    hide RoleOK;
  }

  lemma AppendRespNode(h: History, snap: Log, nd: Node, x: nat, i: nat, a: AppendArgs, r: AppendReply)
      returns (h': History)
    requires Inv(h) && Shape(h) && x < h.n && NodeOK(h, snap, nd, x) && i < h.n
    requires AppendOK(h, x, a) && AppendRespOK(h, i, a, r)
    requires nd.peer.role == Leader && nd.peer.term == a.term ==> i < |nd.peer.nextIndex| && i < |nd.peer.matchIndex|
    ensures Inv(h') && OnlyBy(h, h', x) && x < h'.n
    ensures NodeOK(h', snap, nd.(peer := HandleAppendReply(nd.peer, x, i, a, r)), x)
  {
    hide Inv, NodeOK, Committed, OnlyBy, RoleOK, LogOK, Matched;
    var p := nd.peer;
    if r.term > p.term {
      h' := MeetTerm(h, snap, nd, x, r.term);
    } else if p.term != a.term || p.role != Leader {
      h' := h;
      OnlyBySelf(h, x);
      assert nd.(peer := p) == nd;
    } else {
      NodeRole(h, snap, nd, x);
      LeaderView(h, snap, nd, x);
      NodeLogOK(h, snap, nd, x);
      VisibleEnd(h, snap, p, x);
      if !r.success {
        h' := h;
        OnlyBySelf(h, x);
        StepBackRole(h, p, x, i, SteppedBack(p, r));
        BookkeepingNode(h, snap, nd, p.(nextIndex := p.nextIndex[i := SteppedBack(p, r)]), x);
      } else {
        var m := a.prev + |a.entries|;
        MatchRole(h, p, x, i, m);
        var p1 := p.(matchIndex := p.matchIndex[i := m], nextIndex := p.nextIndex[i := m + 1]);
        BookkeepingNode(h, snap, nd, p1, x);
        h' := ScanNode(h, snap, nd.(peer := p1), x);
      }
    }
  }

  lemma AppendRespStep(n: nat, s: State, g: Ghost, m: Msg) returns (g': Ghost)
    requires StateOK(n, s, g) && m in s.msgs && m.AppendResp? && m.to < n
    requires var p := s.nodes[m.to].peer;
             m.boots == s.nodes[m.to].boots && p.role == Leader && p.term == m.appendArgs.term ==>
                 m.from < |p.nextIndex| && m.from < |p.matchIndex|
    ensures StateOK(n, DoAppendResp(s, m), g') && Grows(g.h, g'.h)
  {
    hide Inv, NodeOK, AppendOK, AppendRespOK, OnlyBy, Shape, HandleAppendReply;
    var x := m.to;
    var nd, snap := s.nodes[x], g.snaps[x];
    assert MsgOK(g.h, s.nodes, m);
    SelfGrows(g.h);
    if m.boots != nd.boots {
      g' := g;
    } else {
      var h' := AppendRespNode(g.h, snap, nd, x, m.from, m.appendArgs, m.appendReply);
      OnlyByGrows(g.h, h', x);
      var p := HandleAppendReply(nd.peer, x, m.from, m.appendArgs, m.appendReply);
      HandleAppendReplyKeeps(nd.peer, x, m.from, m.appendArgs, m.appendReply);
      Assemble(n, s, g, x, nd.(peer := p), snap, {}, h');
      assert s.msgs + {} == s.msgs;
      g' := Ghost(h', g.snaps[x := snap]);
    }
  }

  lemma HandleAppendReplyKeeps(p: Peer, me: nat, i: nat, a: AppendArgs, r: AppendReply)
    requires p.role == Leader && p.term == a.term ==> i < |p.nextIndex| && i < |p.matchIndex|
    ensures var q := HandleAppendReply(p, me, i, a, r);
            q.snapIndex == p.snapIndex && |q.nextIndex| == |p.nextIndex| && |q.matchIndex| == |p.matchIndex|
  {
  }

  // ---------------------------------------------------------------- install replies

  lemma InstallRespNode(h: History, snap: Log, nd: Node, x: nat, i: nat, a: InstallArgs, t: int) returns (h': History)
    requires Inv(h) && Shape(h) && x < h.n && NodeOK(h, snap, nd, x)
    requires i < |nd.peer.nextIndex| && i < |nd.peer.matchIndex| && a.lastIndex <= nd.peer.snapIndex
    ensures Inv(h') && OnlyBy(h, h', x) && x < h'.n
    ensures NodeOK(h', snap, nd.(peer := HandleInstallReply(nd.peer, i, a, t)), x)
  {
    hide Inv, NodeOK, Committed, OnlyBy, RoleOK, LogOK;
    var p := nd.peer;
    if t > p.term {
      h' := MeetTerm(h, snap, nd, x, t);
    } else {
      h' := h;
      OnlyBySelf(h, x);
      NodeRole(h, snap, nd, x);
      NodeLogOK(h, snap, nd, x);
      NodeSnap(h, snap, p, x);
      if p.role == Leader {
        LeaderView(h, snap, nd, x);
      }
      MatchRole(h, p, x, i, a.lastIndex);
      var p' := p.(matchIndex := p.matchIndex[i := a.lastIndex], nextIndex := p.nextIndex[i := a.lastIndex + 1]);
      BookkeepingNode(h, snap, nd, p', x);
    }
  }

  lemma InstallRespStep(n: nat, s: State, g: Ghost, m: Msg) returns (g': Ghost)
    requires StateOK(n, s, g) && m in s.msgs && m.InstallResp? && m.to < n
    requires var p := s.nodes[m.to].peer; m.boots == s.nodes[m.to].boots ==>
             m.from < |p.nextIndex| && m.from < |p.matchIndex|
    ensures StateOK(n, DoInstallResp(s, m), g') && Grows(g.h, g'.h)
  {
    hide Inv, NodeOK, InstallOK, OnlyBy, Shape;
    var x := m.to;
    var nd, snap := s.nodes[x], g.snaps[x];
    assert MsgOK(g.h, s.nodes, m);
    SelfGrows(g.h);
    if m.boots != nd.boots {
      g' := g;
    } else {
      var h' := InstallRespNode(g.h, snap, nd, x, m.from, m.installArgs, m.term);
      OnlyByGrows(g.h, h', x);
      var p := HandleInstallReply(nd.peer, m.from, m.installArgs, m.term);
      Assemble(n, s, g, x, nd.(peer := p), snap, {}, h');
      assert s.msgs + {} == s.msgs;
      g' := Ghost(h', g.snaps[x := snap]);
    }
  }
}
