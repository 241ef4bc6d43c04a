/** The election steps keep the invariant. */
module RaftElectionSteps {
  import opened RaftLog
  import opened RaftPeer
  import opened RaftSystem
  import opened Consensus
  import opened ConsensusProof
  import opened RaftInvariant

  // ---------------------------------------------------------------- who changes what

  lemma OnlyByTransitive(a: History, b: History, c: History, x: nat)
    requires OnlyBy(a, b, x) && OnlyBy(b, c, x) && x < a.n
    ensures OnlyBy(a, c, x)
  {
    GrowsTransitive(a, b, c);
    hide Shape;
  }

  lemma OnlyBySelf(h: History, x: nat)
    requires Shape(h)
    ensures OnlyBy(h, h, x)
  {
  }

  lemma InvShape(h: History)
    requires Inv(h)
    ensures Shape(h)
  {
  }

  lemma AdoptTermOnly(h: History, x: nat, t: int)
    requires Shape(h) && x < h.n && t > h.term[x] && Grows(h, AdoptTerm(h, x, t))
    ensures OnlyBy(h, AdoptTerm(h, x, t), x)
  {
    hide Grows;
  }

  lemma StandOnly(h: History, x: nat)
    requires Shape(h) && x < h.n && Grows(h, Stand(h, x))
    ensures OnlyBy(h, Stand(h, x), x)
  {
    hide Grows;
  }

  lemma VoteOnly(h: History, x: nat, c: nat)
    requires Shape(h) && x < h.n && Grows(h, Vote(h, x, c))
    ensures OnlyBy(h, Vote(h, x, c), x)
  {
    hide Grows;
  }

  lemma WinOnly(h: History, x: nat, q: set<nat>)
    requires Shape(h) && x < h.n && h.term[x] !in h.canon && Grows(h, Win(h, x, q))
    ensures OnlyBy(h, Win(h, x, q), x)
  {
    hide Grows;
  }

  // ---------------------------------------------------------------- terms

  /** The two servers hold the same log, snapshot and progress. */
  predicate SameData(p: Peer, p': Peer) {
    && p'.log == p.log && p'.snapIndex == p.snapIndex && p'.snapshot == p.snapshot
    && p'.commitIndex == p.commitIndex && p'.lastApplied == p.lastApplied
  }

  lemma SameDataOK(h: History, h': History, snap: Log, p: Peer, p': Peer, x: nat)
    requires Grows(h, h') && x < h.n && LogOK(h, snap, p, x) && CommitOK(h, p, x)
    requires h'.log[x] == h.log[x] && p.term <= p'.term == h'.term[x] && SameData(p, p')
    ensures LogOK(h', snap, p', x) && CommitOK(h', p', x)
  {
    hide Committed, Chain;
    CommittedGrows(h, h', snap, p.term, p'.term);
    if p.commitIndex > p.snapIndex {
      CommittedGrows(h, h', h.log[x][..p.commitIndex + 1], p.term, p'.term);
    }
  }

  lemma StreamSame(h: History, h': History, snap: Log, nd: Node, nd': Node, x: nat)
    requires Shape(h) && Shape(h') && x < h.n && x < h'.n && CommitOK(h, nd.peer, x) && CommitOK(h', nd'.peer, x)
    requires snap != [] && StreamOK(h, snap, nd, x) && h'.log[x] == h.log[x] && SameData(nd.peer, nd'.peer)
    requires nd'.base == nd.base && nd'.stream == nd.stream
    ensures StreamOK(h', snap, nd', x)
  {
    hide Contiguous, Committed, Shape;
  }

  lemma NewGenNode(h: History, h': History, snap: Log, nd: Node, x: nat, t: int)
    requires Grows(h, h') && x < h.n && NodeOK(h, snap, nd, x) && t > nd.peer.term
    requires h' == AdoptTerm(h, x, t)
    ensures NodeOK(h', snap, nd.(peer := NewGen(nd.peer, t)), x)
  {
    hide Committed, Contiguous;
    var p' := NewGen(nd.peer, t);
    SameDataOK(h, h', snap, nd.peer, p', x);
    assert VoteOK(h', p', x) by {
      assert (x, t) !in h.votes;
    }
    RoundsLater(h, h', nd, nd.(peer := p'), x);
  }

  /** Adopting a later term, as every handler does first. */
  lemma MeetTerm(h: History, snap: Log, nd: Node, x: nat, t: int) returns (h': History)
    requires Inv(h) && Shape(h) && x < h.n && NodeOK(h, snap, nd, x) && t > nd.peer.term
    ensures Inv(h') && OnlyBy(h, h', x) && x < h'.n
    ensures NodeOK(h', snap, nd.(peer := NewGen(nd.peer, t)), x)
  {
    hide Inv, RoleOK, CommitOK, VoteOK, RoundsOK, StreamOK;
    h' := AdoptTerm(h, x, t);
    AdoptTermInv(h, x, t);
    AdoptTermOnly(h, x, t);
    NewGenNode(h, h', snap, nd, x, t);
  }

  /** Adopt `t` only if it is later. */
  lemma MeetTermMaybe(h: History, snap: Log, nd: Node, x: nat, t: int) returns (h': History)
    requires Inv(h) && Shape(h) && x < h.n && NodeOK(h, snap, nd, x)
    ensures Inv(h') && OnlyBy(h, h', x) && x < h'.n
    ensures NodeOK(h', snap, nd.(peer := if t > nd.peer.term then NewGen(nd.peer, t) else nd.peer), x)
  {
    hide NodeOK, Inv;
    if t > nd.peer.term {
      h' := MeetTerm(h, snap, nd, x, t);
    } else {
      h' := h;
      OnlyBySelf(h, x);
      assert nd.(peer := nd.peer) == nd;
    }
  }

  // ---------------------------------------------------------------- ticker

  lemma EmptyRound(h: History, t: int, x: nat)
    requires x < h.n
    ensures RoundOK(h, Round(t, 1, seq(h.n, _ => Idle)), t, x)
  {
    var rd := Round(t, 1, seq(h.n, _ => Idle));
    assert CountedSet(rd) == {};
  }

  lemma TimeoutNode(h: History, h': History, snap: Log, nd: Node, x: nat)
    requires Grows(h, h') && x < h.n && NodeOK(h, snap, nd, x) && h' == Stand(h, x)
    ensures var p := BecomeCandidate(nd.peer, x);
            NodeOK(h', snap, nd.(peer := p, rounds := nd.rounds + [Round(p.term, 1, seq(h.n, _ => Idle))]), x)
  {
    hide Committed, LogOK, CommitOK, StreamOK, RoleOK, VoteOK, RoundsOK, Shape;
    Sizes(h);
    var p := BecomeCandidate(nd.peer, x);
    var nd' := nd.(peer := p, rounds := nd.rounds + [Round(p.term, 1, seq(h.n, _ => Idle))]);
    NodeTerm(h, snap, nd, x);
    SameDataOK(h, h', snap, nd.peer, p, x);
    StreamSame(h, h', snap, nd, nd', x);
    CandidateRole(h, h', nd.peer, x);
    MoreRounds(h, h', nd, nd', x);
  }

  lemma CandidateRole(h: History, h': History, p: Peer, x: nat)
    requires Shape(h) && Shape(h') && x < h.n && p.term == h.term[x] && h' == Stand(h, x) && RoleOK(h, p, x)
    ensures RoleOK(h', BecomeCandidate(p, x), x) && VoteOK(h', BecomeCandidate(p, x), x)
  {
    hide Matched;
    var t := p.term + 1;
    assert t in h.leader && h.leader[t] == x ==> (x, t) in h.cand;
  }

  lemma MoreRounds(h: History, h': History, nd: Node, nd': Node, x: nat)
    requires Grows(h, h') && x < h.n && RoundsOK(h, nd, x) && nd.peer.term <= nd'.peer.term
    requires nd'.rounds == nd.rounds + [Round(nd'.peer.term, 1, seq(h.n, _ => Idle))]
    ensures RoundsOK(h', nd', x)
  {
    hide RoundOK, Shape;
    EmptyRound(h', nd'.peer.term, x);
    RoundsLater(h, h', nd, nd', x);
  }

  /** Old rounds stay good when the term grows. */
  lemma RoundsLater(h: History, h': History, nd: Node, nd': Node, x: nat)
    requires Grows(h, h') && RoundsOK(h, nd, x) && nd.peer.term <= nd'.peer.term
    ensures forall r :: 0 <= r < |nd.rounds| ==>
            |nd.rounds[r].calls| == h'.n && (x < h'.n ==> nd.rounds[r].calls[x] == Idle)
    ensures h.n <= 3 || forall r :: 0 <= r < |nd.rounds| ==> RoundOK(h', nd.rounds[r], nd'.peer.term, x)
  {
  }

  lemma TimeoutStep(n: nat, s: State, g: Ghost, x: nat) returns (g': Ghost)
    requires StateOK(n, s, g) && x < n
    ensures StateOK(n, DoTimeout(n, s, x), g') && Grows(g.h, g'.h)
  {
    hide Inv, NodeOK, MsgOK, OnlyBy;
    InvShape(g.h);
    var nd := s.nodes[x];
    if nd.peer.role == Leader {
      g' := g;
      SelfGrows(g.h);
    } else {
      var h' := Stand(g.h, x);
      StandInv(g.h, x);
      StandOnly(g.h, x);
      TimeoutNode(g.h, h', g.snaps[x], nd, x);
      var p := BecomeCandidate(nd.peer, x);
      var nd' := nd.(peer := p, rounds := nd.rounds + [Round(p.term, 1, seq(n, _ => Idle))]);
      Assemble(n, s, g, x, nd', g.snaps[x], {}, h');
      g' := Ghost(h', g.snaps[x := g.snaps[x]]);
      assert s.msgs + {} == s.msgs;
    }
  }

  lemma OnlyByGrows(h: History, h': History, x: nat)
    requires OnlyBy(h, h', x)
    ensures Grows(h, h')
  {
  }

  lemma SelfGrows(h: History)
    requires Inv(h)
    ensures Grows(h, h) && Shape(h)
  {
    InvShape(h);
    hide Inv;
  }

  // ---------------------------------------------------------------- asking for votes

  /** What the server's visible log ends with is what its full log ends with. */
  lemma VisibleEnd(h: History, snap: Log, p: Peer, x: nat)
    requires Shape(h) && x < h.n && LogOK(h, snap, p, x)
    ensures p.log != [] && LogLength(p) == |h.log[x]| && h.log[x] != [] && Last(p.log).term == Last(h.log[x]).term
  {
  }

  lemma AskVoteMessage(h: History, snap: Log, p: Peer, x: nat)
    requires Shape(h) && CurrentLogs(h) && x < h.n && LogOK(h, snap, p, x)
    ensures p.log != [] && VoteReqOK(h, x, MakeVoteArgs(p, x))
  {
    hide Committed;
    VisibleEnd(h, snap, p, x);
  }

  lemma InvCurrent(h: History)
    requires Inv(h)
    ensures Shape(h) && CurrentLogs(h)
  {
    hide CurrentLogs;
  }

  lemma NodeLogOK(h: History, snap: Log, nd: Node, x: nat)
    requires Shape(h) && x < h.n && NodeOK(h, snap, nd, x)
    ensures LogOK(h, snap, nd.peer, x)
  {
    hide LogOK;
  }

  lemma AskVoteNode(h: History, snap: Log, nd: Node, x: nat, r: nat, to: nat)
    requires Shape(h) && x < h.n && NodeOK(h, snap, nd, x)
    requires r < |nd.rounds| && to < |nd.rounds[r].calls| && to != x && nd.rounds[r].calls[to] == Idle
    ensures var rd' := nd.rounds[r].(calls := nd.rounds[r].calls[to := Asked(nd.peer.term)]);
            NodeOK(h, snap, nd.(rounds := nd.rounds[r := rd']), x)
  {
    var rd := nd.rounds[r];
    var rd' := rd.(calls := rd.calls[to := Asked(nd.peer.term)]);
    assert CountedSet(rd') == CountedSet(rd);
    hide Committed, Shape, LogOK, RoleOK, VoteOK, Contiguous, Durable;
  }

  lemma AskVoteStep(n: nat, s: State, g: Ghost, x: nat, r: nat, to: nat) returns (g': Ghost)
    requires StateOK(n, s, g) && x < n && s.nodes[x].peer.log != []
    ensures StateOK(n, DoAskVote(n, s, x, r, to), g') && Grows(g.h, g'.h)
  {
    hide Inv, NodeOK, Shape, OnlyBy, VoteReqOK, CurrentLogs, LogOK;
    var nd := s.nodes[x];
    SelfGrows(g.h);
    if r < |nd.rounds| && to < |nd.rounds[r].calls| && to != x && nd.rounds[r].calls[to] == Idle {
      InvCurrent(g.h);
      RoundSize(g.h, g.snaps[x], nd, x, r);
      NodeLogOK(g.h, g.snaps[x], nd, x);
      AskVoteMessage(g.h, g.snaps[x], nd.peer, x);
      AskVoteNode(g.h, g.snaps[x], nd, x, r, to);
      OnlyBySelf(g.h, x);
      var rd' := nd.rounds[r].(calls := nd.rounds[r].calls[to := Asked(nd.peer.term)]);
      var nd' := nd.(rounds := nd.rounds[r := rd']);
      var m := VoteReq(x, to, nd.boots, r, MakeVoteArgs(nd.peer, x));
      Assemble(n, s, g, x, nd', g.snaps[x], {m}, g.h);
      g' := Ghost(g.h, g.snaps[x := g.snaps[x]]);
    } else {
      g' := g;
    }
  }

  lemma RoundSize(h: History, snap: Log, nd: Node, x: nat, r: nat)
    requires Shape(h) && x < h.n && NodeOK(h, snap, nd, x) && r < |nd.rounds|
    ensures |nd.rounds[r].calls| == h.n
  {
  }

  // ---------------------------------------------------------------- granting votes

  lemma GrantCan(h: History, snap: Log, nd: Node, x: nat, c: nat, a: VoteArgs)
    requires Shape(h) && x < h.n && c < h.n && NodeOK(h, snap, nd, x)
    requires VoteReqOK(h, c, a) && a.term == nd.peer.term && nd.peer.log != [] && GrantsVote(nd.peer, a)
    ensures CanVote(h, x, c)
  {
    hide Committed, StreamOK, RoundsOK, RoleOK, CommitOK;
    VisibleEnd(h, snap, nd.peer, x);
  }

  lemma GrantNode(h: History, h': History, snap: Log, nd: Node, x: nat, c: nat)
    requires Grows(h, h') && x < h.n && c < h.n && NodeOK(h, snap, nd, x) && h' == Vote(h, x, c)
    requires nd.peer.votedFor == -1 || nd.peer.votedFor == c
    ensures NodeOK(h', snap, nd.(peer := Persist(nd.peer.(votedFor := c))), x)
  {
    hide StreamOK, LogOK, CommitOK, RoundsOK, RoleOK;
    NodeTerm(h, snap, nd, x);
    var nd' := nd.(peer := Persist(nd.peer.(votedFor := c)));
    SameDataOK(h, h', snap, nd.peer, nd'.peer, x);
    StreamSame(h, h', snap, nd, nd', x);
    RoundsOKKeep(h, h', nd, nd', x);
    GrantRole(h, h', nd.peer, x, c);
    RoleSame(h', nd.peer.(votedFor := c), nd'.peer, x);
  }

  lemma RoundsOKKeep(h: History, h': History, nd: Node, nd': Node, x: nat)
    requires Grows(h, h') && RoundsOK(h, nd, x) && nd'.rounds == nd.rounds && nd.peer.term <= nd'.peer.term
    ensures RoundsOK(h', nd', x)
  {
    hide Shape;
  }

  lemma RoleSame(h: History, p: Peer, p': Peer, x: nat)
    requires Shape(h) && RoleOK(h, p, x) && p' == p.(disk := p'.disk)
    ensures RoleOK(h, p', x)
  {
    hide Shape, Matched;
  }

  lemma GrantRole(h: History, h': History, p: Peer, x: nat, c: nat)
    requires Grows(h, h') && RoleOK(h, p, x) && (p.votedFor == -1 || p.votedFor == c)
    requires h'.cand == h.cand && h'.leader == h.leader && h'.canon == h.canon && h'.acks == h.acks
    ensures RoleOK(h', p.(votedFor := c), x)
  {
    hide Committed;
    forall i | p.role == Leader && 0 <= i < |p.matchIndex| && i != x
      ensures p.matchIndex[i] <= p.snapIndex || Matched(h', i, p.term, p.matchIndex[i])
    {
      if p.matchIndex[i] > p.snapIndex {
        MatchedGrows(h, h', i, p.term, p.matchIndex[i]);
      }
    }
  }

  lemma VoteReqNode(h: History, snap: Log, nd: Node, x: nat, c: nat, a: VoteArgs) returns (h': History)
    requires Inv(h) && Shape(h) && x < h.n && c < h.n && NodeOK(h, snap, nd, x) && VoteReqOK(h, c, a) &&
             nd.peer.log != []
    ensures Inv(h') && OnlyBy(h, h', x) && x < h'.n
    ensures NodeOK(h', snap, nd.(peer := HandleVote(nd.peer, a).0), x)
    ensures VoteRespOK(h', x, c, a.term, HandleVote(nd.peer, a).1)
  {
    hide Inv, NodeOK, VoteReqOK, OnlyBy, HandleVote, GrantsVote, NewGen;
    var h1 := MeetTermMaybe(h, snap, nd, x, a.term);
    OnlyByGrows(h, h1, x);
    VoteReqOKGrows(h, h1, x, c, a);
    VoteReqCandidate(h, c, a);
    hide Shape, Grows;
    VoteCases(nd.peer, a);
    var p1 := if a.term > nd.peer.term then NewGen(nd.peer, a.term) else nd.peer;
    var nd1 := nd.(peer := p1);
    if HandleVote(nd.peer, a).1.granted {
      h' := Granted(h1, snap, nd1, x, c, a);
      OnlyByTransitive(h, h1, h', x);
    } else {
      h' := h1;
    }
  }

  /** The vote handler, once the sender's term is met: it grants, or leaves the server as it is. */
  lemma VoteCases(p: Peer, a: VoteArgs)
    requires p.log != []
    ensures var p1 := if a.term > p.term then NewGen(p, a.term) else p;
            && p1.log == p.log
            && HandleVote(p, a).1.term == p1.term
            && (HandleVote(p, a).1.granted <==> a.term == p1.term && GrantsVote(p1, a))
            && HandleVote(p, a).0 == if HandleVote(p, a).1.granted then Persist(p1.(votedFor := a.candidate)) else p1
  {
  }

  lemma Granted(h: History, snap: Log, nd: Node, x: nat, c: nat, a: VoteArgs) returns (h': History)
    requires Inv(h) && Shape(h) && x < h.n && c < h.n && NodeOK(h, snap, nd, x) && VoteReqOK(h, c, a)
    requires a.term == nd.peer.term && nd.peer.log != [] && GrantsVote(nd.peer, a)
    ensures Inv(h') && OnlyBy(h, h', x) && x < h'.n
    ensures NodeOK(h', snap, nd.(peer := Persist(nd.peer.(votedFor := c))), x)
    ensures VoteRespOK(h', x, c, a.term, VoteReply(a.term, true))
  {
    hide Inv, NodeOK, OnlyBy, CanVote;
    GrantCan(h, snap, nd, x, c, a);
    NodeTerm(h, snap, nd, x);
    h' := Vote(h, x, c);
    VoteInv(h, x, c);
    VoteOnly(h, x, c);
    VoteReqCandidate(h, c, a);
    GrantNode(h, h', snap, nd, x, c);
  }

  lemma VoteReqCandidate(h: History, c: nat, a: VoteArgs)
    requires VoteReqOK(h, c, a)
    ensures a.candidate == c
  {
  }

  lemma VoteReqStep(n: nat, s: State, g: Ghost, m: Msg) returns (g': Ghost)
    requires StateOK(n, s, g) && m in s.msgs && m.VoteReq? && m.to < n && s.nodes[m.to].peer.log != []
    ensures StateOK(n, DoVoteReq(s, m), g') && Grows(g.h, g'.h)
  {
    hide Inv, NodeOK, VoteReqOK, OnlyBy, Shape, HandleVote, VoteRespOK;
    var x, c, a := m.to, m.from, m.voteArgs;
    var nd, snap := s.nodes[x], g.snaps[x];
    assert MsgOK(g.h, s.nodes, m);
    InvShape(g.h);
    var h' := VoteReqNode(g.h, snap, nd, x, c, a);
    OnlyByGrows(g.h, h', x);
    var (p, r) := HandleVote(nd.peer, a);
    HandleVoteKeeps(nd.peer, a);
    Assemble(n, s, g, x, nd.(peer := p), snap, {VoteResp(x, c, m.boots, m.round, a.term, r)}, h');
    g' := Ghost(h', g.snaps[x := snap]);
  }

  lemma HandleVoteKeeps(p: Peer, a: VoteArgs)
    requires p.log != []
    ensures var q := HandleVote(p, a).0;
            q.snapIndex == p.snapIndex && q.nextIndex == p.nextIndex && q.matchIndex == p.matchIndex
  {
  }

  lemma NodeTerm(h: History, snap: Log, nd: Node, x: nat)
    requires Shape(h) && x < h.n && NodeOK(h, snap, nd, x)
    ensures nd.peer.term == h.term[x] && snap != []
  {
  }

  // ---------------------------------------------------------------- counting votes

  lemma CallsOf(h: History, nd: Node, x: nat, r: nat, i: nat)
    requires RoundsOK(h, nd, x) && x < h.n && r < |nd.rounds| && i < |nd.rounds[r].calls| &&
             nd.rounds[r].calls[i].Asked?
    ensures i < h.n && i != x
  {
  }

  lemma DeclineRounds(h: History, nd: Node, x: nat, r: nat, i: nat)
    requires RoundsOK(h, nd, x) && x < h.n && r < |nd.rounds| && i < |nd.rounds[r].calls| &&
             nd.rounds[r].calls[i].Asked?
    ensures RoundsOK(h, nd.(rounds := nd.rounds[r := nd.rounds[r].(calls := nd.rounds[r].calls[i := Declined])]), x)
  {
    var rd := nd.rounds[r];
    var rd' := rd.(calls := rd.calls[i := Declined]);
    assert CountedSet(rd') == CountedSet(rd);
  }

  function CountedRound(rd: Round, i: nat): Round
    requires i < |rd.calls|
  {
    rd.(supporter := rd.supporter + 1, calls := rd.calls[i := Counted])
  }

  lemma CountRounds(h: History, nd: Node, x: nat, r: nat, i: nat)
    requires RoundsOK(h, nd, x) && x < h.n && r < |nd.rounds| && i < |nd.rounds[r].calls| &&
             nd.rounds[r].calls[i].Asked?
    requires (i, nd.rounds[r].calls[i].term) in h.votes && h.votes[(i, nd.rounds[r].calls[i].term)] == x
    requires h.n <= 3 || nd.rounds[r].calls[i].term == nd.rounds[r].term
    ensures RoundsOK(h, nd.(rounds := nd.rounds[r := CountedRound(nd.rounds[r], i)]), x)
  {
    var rd := nd.rounds[r];
    var rd' := CountedRound(rd, i);
    assert CountedSet(rd') == CountedSet(rd) + {i};
  }

  /** The voters behind a round's win: with at most three servers, one vote besides the candidate's own. */
  ghost function Backers(h: History, rd: Round, x: nat, i: nat): set<nat> {
    if h.n <= 3 then {x, i} else {x} + CountedSet(rd)
  }

  /** A round whose counter exceeds half the servers is backed by a majority of votes in its term. */
  lemma WinQuorum(h: History, nd: Node, x: nat, r: nat, i: nat)
    requires RoundsOK(h, nd, x) && x < h.n && r < |nd.rounds| && i < |nd.rounds[r].calls| && i != x && i < h.n
    requires nd.rounds[r].calls[i] == Counted && nd.rounds[r].supporter > h.n / 2
    requires (i, nd.peer.term) in h.votes && h.votes[(i, nd.peer.term)] == x
    requires h.n <= 3 || nd.rounds[r].term == nd.peer.term
    requires (x, nd.peer.term) in h.votes && h.votes[(x, nd.peer.term)] == x
    ensures var q := Backers(h, nd.rounds[r], x, i);
            Quorum(q, h.n) && forall v :: v in q ==> (v, nd.peer.term) in h.votes && h.votes[(v, nd.peer.term)] == x
  {
    var rd := nd.rounds[r];
    if h.n <= 3 {
      assert |{x, i}| == 2;
    } else {
      assert x !in CountedSet(rd);
      assert |{x} + CountedSet(rd)| == 1 + |CountedSet(rd)|;
    }
  }

  lemma WinNode(h: History, h': History, snap: Log, nd: Node, x: nat, q: set<nat>)
    requires Grows(h, h') && x < h.n && NodeOK(h, snap, nd, x) && h' == Win(h, x, q)
    requires nd.peer.role == Candidate && nd.peer.term !in h.leader
    ensures NodeOK(h', snap, nd.(peer := BecomeLeader(nd.peer, x, h.n)), x)
  {
    hide StreamOK, LogOK, CommitOK, RoundsOK, RoleOK, VoteOK, Shape;
    Sizes(h);
    NodeTerm(h, snap, nd, x);
    var nd' := nd.(peer := BecomeLeader(nd.peer, x, h.n));
    SameDataOK(h, h', snap, nd.peer, nd'.peer, x);
    StreamSame(h, h', snap, nd, nd', x);
    RoundsOKKeep(h, h', nd, nd', x);
    VisibleEnd(h, snap, nd.peer, x);
    LeaderRole(h, h', nd.peer, x, q);
  }

  lemma LeaderRole(h: History, h': History, p: Peer, x: nat, q: set<nat>)
    requires Shape(h) && Shape(h') && x < h.n && p.term == h.term[x] && h' == Win(h, x, q) && VoteOK(h, p, x)
    requires LogLength(p) == |h.log[x]|
    ensures RoleOK(h', BecomeLeader(p, x, h.n), x) && VoteOK(h', BecomeLeader(p, x, h.n), x)
  {
    hide Matched;
  }

  lemma WinFacts(h: History, snap: Log, nd: Node, x: nat, q: set<nat>)
    requires Inv(h) && Shape(h) && x < h.n && NodeOK(h, snap, nd, x) && nd.peer.role == Candidate
    requires Quorum(q, h.n) && forall v :: v in q ==> (v, nd.peer.term) in h.votes && h.votes[(v, nd.peer.term)] == x
    ensures CanWin(h, x, q) && nd.peer.term == h.term[x]
  {
    hide Inv, StreamOK, CommitOK, RoundsOK, Committed;
    if nd.peer.term in h.leader {
      OneWinner(h, nd.peer.term, x, q);
    }
  }

  /** The counting goroutine's effect on its server. */
  lemma CountNode(h: History, snap: Log, nd: Node, x: nat, r: nat, i: nat) returns (h': History)
    requires Inv(h) && Shape(h) && x < h.n && NodeOK(h, snap, nd, x)
    requires r < |nd.rounds| && i < |nd.rounds[r].calls| && nd.rounds[r].calls[i] == Asked(nd.peer.term)
    requires nd.peer.role == Candidate && (i, nd.peer.term) in h.votes && h.votes[(i, nd.peer.term)] == x
    requires h.n <= 3 || nd.rounds[r].term == nd.peer.term
    ensures Inv(h') && OnlyBy(h, h', x) && x < h'.n
    ensures var rd' := CountedRound(nd.rounds[r], i);
            var p' := if rd'.supporter > h.n / 2 then BecomeLeader(nd.peer, x, h.n) else nd.peer;
            NodeOK(h', snap, nd.(peer := p', rounds := nd.rounds[r := rd']), x)
  {
    hide Inv, OnlyBy, StreamOK, LogOK, CommitOK, RoundsOK;
    var rd' := CountedRound(nd.rounds[r], i);
    var nd1 := nd.(rounds := nd.rounds[r := rd']);
    CallsOf(h, nd, x, r, i);
    CountRounds(h, nd, x, r, i);
    assert NodeOK(h, snap, nd1, x) by {
      NodeTerm(h, snap, nd, x);
      StreamSame(h, h, snap, nd, nd1, x);
    }
    if rd'.supporter > h.n / 2 {
      var q := Backers(h, rd', x, i);
      WinQuorum(h, nd1, x, r, i);
      WinFacts(h, snap, nd1, x, q);
      h' := Win(h, x, q);
      WinInv(h, x, q);
      WinOnly(h, x, q);
      WinNode(h, h', snap, nd1, x, q);
      assert nd1.(peer := BecomeLeader(nd.peer, x, h.n)) ==
          nd.(peer := BecomeLeader(nd.peer, x, h.n), rounds := nd.rounds[r := rd']);
    } else {
      h' := h;
      OnlyBySelf(h, x);
      assert nd1 == nd.(peer := nd.peer, rounds := nd.rounds[r := rd']);
    }
  }

  lemma DeclineNode(h: History, snap: Log, nd: Node, x: nat, r: nat, i: nat)
    requires Shape(h) && x < h.n && NodeOK(h, snap, nd, x)
    requires r < |nd.rounds| && i < |nd.rounds[r].calls| && nd.rounds[r].calls[i].Asked?
    ensures NodeOK(h, snap, nd.(rounds := nd.rounds[r := nd.rounds[r].(calls := nd.rounds[r].calls[i := Declined])]), x)
  {
    hide StreamOK, LogOK, CommitOK, RoundsOK, RoleOK, Durable, VoteOK;
    var nd1 := nd.(rounds := nd.rounds[r := nd.rounds[r].(calls := nd.rounds[r].calls[i := Declined])]);
    DeclineRounds(h, nd, x, r, i);
    NodeTerm(h, snap, nd, x);
    StreamSame(h, h, snap, nd, nd1, x);
  }

  lemma VoteRespStep(n: nat, s: State, g: Ghost, m: Msg) returns (g': Ghost)
    requires StateOK(n, s, g) && m in s.msgs && m.VoteResp? && m.to < n && (n <= 3 || OnTime(n, s, Receive(m)))
    ensures StateOK(n, DoVoteResp(n, s, m), g') && Grows(g.h, g'.h)
  {
    hide Inv, NodeOK, OnlyBy, Shape;
    var x, i, r := m.to, m.from, m.round;
    var nd, snap := s.nodes[x], g.snaps[x];
    assert MsgOK(g.h, s.nodes, m);
    SelfGrows(g.h);
    if m.boots == nd.boots && r < |nd.rounds| && i < |nd.rounds[r].calls| && nd.rounds[r].calls[i] == Asked(m.asked) {
      var (p, counts) := HandleVoteReply(nd.peer, m.asked, m.voteReply);
      if counts {
        var h' := CountNode(g.h, snap, nd, x, r, i);
        var rd' := CountedRound(nd.rounds[r], i);
        var p' := if rd'.supporter > n / 2 then BecomeLeader(nd.peer, x, n) else nd.peer;
        var nd' := nd.(peer := p', rounds := nd.rounds[r := rd']);
        RoleArrays(g.h, snap, nd, x);
        Assemble(n, s, g, x, nd', snap, {}, h');
        g' := Ghost(h', g.snaps[x := snap]);
        OnlyByGrows(g.h, h', x);
      } else {
        var h' := MeetTermMaybe(g.h, snap, nd, x, m.voteReply.term);
        var nd1 := nd.(peer := p);
        OnlyByGrows(g.h, h', x);
        DeclineNode(h', snap, nd1, x, r, i);
        var nd' := nd.(peer := p, rounds := nd.rounds[r := nd.rounds[r].(calls := nd.rounds[r].calls[i := Declined])]);
        assert nd' == nd1.(rounds := nd1.rounds[r := nd1.rounds[r].(calls := nd1.rounds[r].calls[i := Declined])]);
        Assemble(n, s, g, x, nd', snap, {}, h');
        g' := Ghost(h', g.snaps[x := snap]);
      }
      assert s.msgs + {} == s.msgs;
    } else {
      g' := g;
    }
  }

  lemma RoleArrays(h: History, snap: Log, nd: Node, x: nat)
    requires Shape(h) && x < h.n && NodeOK(h, snap, nd, x)
    ensures |nd.peer.matchIndex| == |nd.peer.nextIndex| && (|nd.peer.nextIndex| == 0 || |nd.peer.nextIndex| == h.n)
  {
  }
}
