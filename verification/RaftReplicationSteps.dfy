/** The replication steps keep the invariant. */
module RaftReplicationSteps {
  import opened RaftLog
  import opened RaftPeer
  import opened RaftSystem
  import opened Consensus
  import opened ConsensusProof
  import opened RaftInvariant
  import opened RaftElectionSteps

  // ---------------------------------------------------------------- who changes what

  lemma ExtendOnly(h: History, x: nat, c: Command)
    requires Shape(h) && Leads(h, x) && Grows(h, Extend(h, x, c))
    ensures OnlyBy(h, Extend(h, x, c), x)
  {
    hide Grows;
  }

  lemma AcceptOnly(h: History, x: nat, l: Log)
    requires Shape(h) && x < h.n && l != [] && Grows(h, Accept(h, x, l))
    ensures OnlyBy(h, Accept(h, x, l), x)
  {
    hide Grows;
  }

  lemma ReplaceOnly(h: History, x: nat, l: Log)
    requires Shape(h) && x < h.n && Grows(h, Replace(h, x, l))
    ensures OnlyBy(h, Replace(h, x, l), x)
  {
    hide Grows;
  }

  lemma ChooseOnly(h: History, t: int, m: nat, q: set<nat>, x: nat)
    requires Shape(h) && Grows(h, Choose(h, t, m, q))
    ensures OnlyBy(h, Choose(h, t, m, q), x)
  {
    hide Grows;
  }

  // ---------------------------------------------------------------- the leader's own log

  /** A leader's full log is the history's, and contains all it has snapshotted or committed. */
  lemma LeaderView(h: History, snap: Log, nd: Node, x: nat)
    requires Inv(h) && Shape(h) && x < h.n && NodeOK(h, snap, nd, x) && nd.peer.role == Leader
    ensures var t := nd.peer.term;
            && t == h.term[x] && Leads(h, x)
            && t in h.canon && h.log[x] == h.canon[t] && snap <= h.canon[t]
            && nd.peer.commitIndex < |h.canon[t]| && 0 <= nd.peer.commitIndex
            && Committed(h, h.canon[t][..nd.peer.commitIndex + 1], t)
  {
    hide Inv, StreamOK, RoundsOK, Committed, CurrentLogs;
    var t := nd.peer.term;
    InvCurrent(h);
    assert h.log[x] == h.canon[t] by {
      LeaderLog(h, t);
    }
    CommittedInLeader(h, snap, t, t);
    if nd.peer.commitIndex <= nd.peer.snapIndex {
      CommittedPrefix(h, snap, h.canon[t][..nd.peer.commitIndex + 1], t);
    }
  }

  lemma LeaderLog(h: History, t: int)
    requires Shape(h) && CurrentLogs(h) && t in h.leader && h.term[h.leader[t]] == t
    ensures h.log[h.leader[t]] == h.canon[t]
  {
  }

  /** Entry `i` of a leader, above or at its snapshot, is entry `i` of its full log (the term, at the snapshot). */
  lemma LeaderEntry(h: History, snap: Log, p: Peer, x: nat, i: int)
    requires Shape(h) && x < h.n && LogOK(h, snap, p, x) && snap <= h.log[x] && p.snapIndex <= i < |h.log[x]|
    ensures InRange(p, i) && Get(p, i).term == h.log[x][i].term
    ensures p.log[i + 1 - p.snapIndex..] == h.log[x][i + 1..]
    ensures i > p.snapIndex ==> Get(p, i) == h.log[x][i]
  {
    hide Committed;
    assert LogLength(p) == |h.log[x]|;
    var g := h.log[x];
    assert p.log[i + 1 - p.snapIndex..] == g[|snap|..][i - p.snapIndex..];
  }

  lemma ReplicateMessage(h: History, snap: Log, nd: Node, x: nat, prev: int)
    requires Inv(h) && Shape(h) && x < h.n && NodeOK(h, snap, nd, x) && nd.peer.role == Leader
    requires nd.peer.snapIndex <= prev < LogLength(nd.peer)
    ensures AppendOK(h, x, MakeAppendArgs(nd.peer, x, prev))
  {
    hide Inv, Committed, NodeOK, Shape, LogOK;
    Sizes(h);
    LeaderView(h, snap, nd, x);
    NodeLogOK(h, snap, nd, x);
    VisibleEnd(h, snap, nd.peer, x);
    LeaderEntry(h, snap, nd.peer, x, prev);
    var t := nd.peer.term;
    assert h.log[x][prev + 1..] == h.canon[t][prev + 1..|h.canon[t]|];
  }

  lemma InstallMessage(h: History, snap: Log, nd: Node, x: nat)
    requires Inv(h) && Shape(h) && x < h.n && NodeOK(h, snap, nd, x) && nd.peer.role == Leader
    ensures nd.peer.log != [] && InstallOK(h, x, MakeInstallArgs(nd.peer, x))
    ensures InstallCallOK(nd, h.n, nd.boots, MakeInstallArgs(nd.peer, x))
  {
    hide Inv, Committed, StreamOK, RoundsOK, Shape;
    LeaderView(h, snap, nd, x);
    assert h.canon[nd.peer.term][..nd.peer.snapIndex + 1] == snap;
  }

  lemma ReplicateStep(n: nat, s: State, g: Ghost, x: nat, to: nat) returns (g': Ghost)
    requires StateOK(n, s, g) && x < n && to < n
    requires var p := s.nodes[x].peer; p.role == Leader ==>
             p.log != [] && to < |p.nextIndex| && p.nextIndex[to] - 1 < LogLength(p)
    ensures StateOK(n, DoReplicate(s, x, to), g') && Grows(g.h, g'.h)
  {
    hide Inv, NodeOK, Shape, OnlyBy, AppendOK, InstallOK, InstallCallOK;
    SelfGrows(g.h);
    var nd, snap := s.nodes[x], g.snaps[x];
    var p := nd.peer;
    if p.role != Leader || to == x {
      g' := g;
    } else {
      OnlyBySelf(g.h, x);
      var prev := p.nextIndex[to] - 1;
      var m: Msg;
      if prev < p.snapIndex {
        InstallMessage(g.h, snap, nd, x);
        m := InstallReq(x, to, nd.boots, MakeInstallArgs(p, x));
      } else {
        ReplicateMessage(g.h, snap, nd, x, prev);
        m := AppendReq(x, to, nd.boots, MakeAppendArgs(p, x, prev));
      }
      assert s.nodes[x := nd] == s.nodes && g.snaps[x := snap] == g.snaps;
      Assemble(n, s, g, x, nd, snap, {m}, g.h);
      g' := g;
      assert State(s.nodes[x := nd], s.msgs + {m}) == DoReplicate(s, x, to);
    }
  }

  // ---------------------------------------------------------------- new commands

  lemma StartLog(h: History, h': History, snap: Log, p: Peer, x: nat, e: Entry)
    requires Grows(h, h') && x < h.n && LogOK(h, snap, p, x) && CommitOK(h, p, x)
    requires h'.log[x] == h.log[x] + [e] && h'.term[x] == h.term[x]
    ensures LogOK(h', snap, p.(log := p.log + [e]), x) && CommitOK(h', p.(log := p.log + [e]), x)
  {
    hide Committed;
    CommittedGrows(h, h', snap, p.term, p.term);
    assert (h.log[x] + [e])[|snap|..] == h.log[x][|snap|..] + [e];
    if p.commitIndex > p.snapIndex {
      assert h'.log[x][..p.commitIndex + 1] == h.log[x][..p.commitIndex + 1];
      CommittedGrows(h, h', h.log[x][..p.commitIndex + 1], p.term, p.term);
    }
  }

  lemma DiskOnly(h: History, snap: Log, p: Peer, p': Peer, x: nat)
    requires Shape(h) && x < h.n && LogOK(h, snap, p, x) && CommitOK(h, p, x)
    requires SameData(p, p') && p'.term == p.term
    ensures LogOK(h, snap, p', x) && CommitOK(h, p', x)
  {
    hide Committed, Shape;
  }

  /** The service's progress is unaffected when the applied part of the log is. */
  lemma StreamKeep(h: History, h': History, snap: Log, nd: Node, nd': Node, x: nat)
    requires Shape(h) && Shape(h') && x < h.n && x < h'.n && CommitOK(h, nd.peer, x) && CommitOK(h', nd'.peer, x)
    requires snap != [] && StreamOK(h, snap, nd, x)
    requires nd'.peer.lastApplied == nd.peer.lastApplied && nd'.peer.snapIndex == nd.peer.snapIndex
    requires nd.peer.lastApplied > nd.peer.snapIndex ==>
               h'.log[x][..nd.peer.lastApplied + 1] == h.log[x][..nd.peer.lastApplied + 1]
    requires nd'.base == nd.base && nd'.stream == nd.stream
    ensures StreamOK(h', snap, nd', x)
  {
    hide Contiguous, Committed, Shape;
  }

  lemma StartNode(h: History, h': History, snap: Log, nd: Node, x: nat, c: Command)
    requires Grows(h, h') && Leads(h, x) && NodeOK(h, snap, nd, x) && nd.peer.role == Leader && h' == Extend(h, x, c)
    requires h.log[x] == h.canon[nd.peer.term] && nd.peer.term == h.term[x]
    ensures NodeOK(h', snap, nd.(peer := HandleStart(nd.peer, c)), x)
  {
    hide StreamOK, LogOK, RoundsOK, RoleOK, Committed;
    var p, p' := nd.peer, HandleStart(nd.peer, c);
    var nd' := nd.(peer := p');
    var e := Entry(p.term, c);
    NodeTerm(h, snap, nd, x);
    StartLog(h, h', snap, p, x, e);
    DiskOnly(h', snap, p.(log := p.log + [e]), p', x);
    StreamKeep(h, h', snap, nd, nd', x);
    RoundsOKKeep(h, h', nd, nd', x);
    StartRole(h, h', p, p', x);
  }

  lemma StartRole(h: History, h': History, p: Peer, p': Peer, x: nat)
    requires Grows(h, h') && RoleOK(h, p, x) && p.role == Leader
    requires p' == p.(log := p'.log, disk := p'.disk) && h'.leader == h.leader
    ensures RoleOK(h', p', x)
  {
    hide Matched;
    assert h.canon[p.term] <= h'.canon[p.term];
    forall i | 0 <= i < |p.matchIndex| && i != x
      ensures p.matchIndex[i] <= p.snapIndex || Matched(h', i, p.term, p.matchIndex[i])
    {
      if p.matchIndex[i] > p.snapIndex {
        MatchedGrows(h, h', i, p.term, p.matchIndex[i]);
      }
    }
  }

  lemma StartStep(n: nat, s: State, g: Ghost, x: nat, c: Command) returns (g': Ghost)
    requires StateOK(n, s, g) && x < n
    ensures StateOK(n, SetPeer(s, x, HandleStart(s.nodes[x].peer, c)), g') && Grows(g.h, g'.h)
  {
    hide Inv, NodeOK, Shape, OnlyBy;
    SelfGrows(g.h);
    var nd, snap := s.nodes[x], g.snaps[x];
    if nd.peer.role != Leader {
      g' := g;
      assert SetPeer(s, x, nd.peer) == s;
    } else {
      LeaderView(g.h, snap, nd, x);
      InvCurrent(g.h);
      var h' := Extended(g.h, x, c);
      StartNode(g.h, h', snap, nd, x, c);
      Assemble(n, s, g, x, nd.(peer := HandleStart(nd.peer, c)), snap, {}, h');
      g' := Ghost(h', g.snaps[x := snap]);
      assert s.msgs + {} == s.msgs;
    }
  }

  lemma Extended(h: History, x: nat, c: Command) returns (h': History)
    requires Inv(h) && Shape(h) && Leads(h, x)
    ensures x < |h.term| && x < |h.log| && h.term[x] in h.canon && h' == Extend(h, x, c)
    ensures Inv(h') && Grows(h, h') && OnlyBy(h, h', x)
  {
    hide Inv;
    h' := Extend(h, x, c);
    ExtendInv(h, x, c);
    ExtendOnly(h, x, c);
  }

  // ---------------------------------------------------------------- the follower's log

  /** Entries with equal terms at equal indices are equal, as far as the terms were compared. */
  lemma TermsAgree(g: Log, l: Log, canon: map<int, Log>, a: nat, k: nat)
    requires Chain(g, canon) && Chain(l, canon) && a <= |g| && a <= |l| && k == CommonTerms(g[a..], l[a..]) && k > 0
    ensures a + k <= |g| && a + k <= |l| && g[..a + k] == l[..a + k]
  {
    hide Chain;
    assert g[a..][k - 1].term == l[a..][k - 1].term;
    assert g[a + k - 1].term == l[a + k - 1].term;
    ChainsAgree(g, l, canon, a + k - 1);
  }

  lemma MergeConflict(g: Log, l: Log, a: nat)
    requires a <= |g| && a <= |l|
    ensures var k := CommonTerms(g[a..], l[a..]);
            if k < |l| - a then !(l <= g) && Merge(g, l) == l else (g[..a + k] == l[..a + k] ==> Merge(g, l) == g)
  {
    var k := CommonTerms(g[a..], l[a..]);
    if k < |l| - a {
      assert k < |g| - a ==> g[a + k].term == g[a..][k].term != l[a..][k].term == l[a + k].term;
    } else {
      assert l == l[..a + k];
    }
  }

  /** Cutting and extending the visible part, when the full logs agree up to the conflict. */
  lemma SplicedTail(g: Log, l: Log, cut: nat, a: nat, k: nat, d: Entry)
    requires 1 <= cut <= a <= |g| && a + k <= |g| && a + k <= |l|
    requires a + k < |l| && (g[..a + k] == l[..a + k] || (a == cut && k == 0))
    ensures Spliced([d] + g[cut..], a - cut + 1, l[a..], k) == [d] + l[cut..]
  {
    assert ([d] + g[cut..])[..a - cut + 1 + k] == [d] + g[cut..a + k];
    assert l[a..][k..] == l[a + k..];
    assert l[cut..] == l[cut..a + k] + l[a + k..];
    assert g[cut..a + k] == l[cut..a + k] by {
      if g[..a + k] == l[..a + k] {
        assert g[cut..a + k] == g[..a + k][cut..] && l[cut..a + k] == l[..a + k][cut..];
      }
    }
  }

  /**
   Compaction refines the full log: matching entries against the visible part of a log, from any
   point up to which the two logs agree (or from the snapshot), gives the visible part of the
   merged full log.
   */
  lemma ReconcileRefines(g: Log, l: Log, canon: map<int, Log>, cut: nat, a: nat, d: Entry)
    requires Chain(g, canon) && Chain(l, canon)
    requires 1 <= cut <= a <= |g| && a <= |l| && cut < |l|
    requires a == cut || g[..a] == l[..a]
    ensures Reconciled([d] + g[cut..], a - cut + 1, l[a..]) == [d] + Merge(g, l)[cut..]
  {
    hide Chain, CommonTerms, Reconciled, Merge;
    var k := CommonTerms(g[a..], l[a..]);
    if k > 0 {
      TermsAgree(g, l, canon, a, k);
    }
    AgreedSplice(g, l, cut, a, d);
  }

  /** The same from what the agreement of terms means for the two logs. */
  lemma AgreedSplice(g: Log, l: Log, cut: nat, a: nat, d: Entry)
    requires 1 <= cut <= a <= |g| && a <= |l| && cut < |l|
    requires var k := CommonTerms(g[a..], l[a..]); g[..a + k] == l[..a + k] || (a == cut && k == 0)
    ensures Reconciled([d] + g[cut..], a - cut + 1, l[a..]) == [d] + Merge(g, l)[cut..]
  {
    hide CommonTerms, Reconciled, Merge, Spliced;
    var v, es := [d] + g[cut..], l[a..];
    var k := CommonTerms(g[a..], es);
    ReconciledIs(v, a - cut + 1, es, g[a..]);
    MergeConflict(g, l, a);
    if k < |es| {
      SplicedTail(g, l, cut, a, k, d);
    } else {
      NothingSpliced(v, a - cut + 1, es, k);
    }
  }

  lemma NothingSpliced(v: Log, at: nat, es: seq<Entry>, k: nat)
    requires at + k <= |v| && k == |es|
    ensures Spliced(v, at, es, k) == v
  {
  }

  lemma ReconciledIs(v: Log, at: nat, es: seq<Entry>, rest: seq<Entry>)
    requires at <= |v| && |rest| == |v| - at && forall i :: 0 <= i < |rest| ==> v[at + i] == rest[i]
    ensures var k := CommonTerms(rest, es);
            Reconciled(v, at, es) == Spliced(v, at, es, k)
  {
    hide CommonTerms, Spliced;
    assert v[at..] == rest;
  }

  /** What is committed stays where it is when a follower takes a prefix of its leader's log. */
  lemma CommitSurvives(h: History, x: nat, l: Log, c: int)
    requires Inv(h) && Shape(h) && FromLeader(h, x, l) && 0 <= c < |h.log[x]|
    requires Committed(h, h.log[x][..c + 1], h.term[x])
    ensures c < |Merge(h.log[x], l)| && Merge(h.log[x], l)[..c + 1] == h.log[x][..c + 1]
  {
    hide Inv, Committed;
    var k := h.log[x][..c + 1];
    var u := h.term[x];
    CommittedInLeader(h, k, u, u);
    PrefixesCompare(k, l, h.canon[u]);
    if |l| <= |k| {
      assert l <= k <= h.log[x];
    }
  }

  /** The prefix of the sender's log that an AppendEntries message describes. */
  ghost function Told(h: History, a: AppendArgs): Log
    requires a.term in h.canon && 0 <= a.prev && a.prev + |a.entries| < |h.canon[a.term]|
  {
    h.canon[a.term][..a.prev + |a.entries| + 1]
  }

  lemma TryUpdateCommitOK(h: History, snap: Log, p: Peer, x: nat, lc: int, l: Log)
    requires Shape(h) && x < h.n && LogOK(h, snap, p, x) && CommitOK(h, p, x)
    requires 0 <= lc < |l| && Committed(h, l[..lc + 1], p.term)
    requires |l| <= |snap| || l <= h.log[x]
    ensures LogOK(h, snap, TryUpdateCommit(p, lc), x) && CommitOK(h, TryUpdateCommit(p, lc), x)
    ensures TryUpdateCommit(p, lc).commitIndex == if lc > p.commitIndex then lc else p.commitIndex
  {
    hide Committed;
    VisibleEnd(h, snap, p, x);
    if lc > p.commitIndex && lc > p.snapIndex {
      assert h.log[x][..lc + 1] == l[..lc + 1];
    }
  }

  lemma TryUpdateCommitRole(h: History, p: Peer, x: nat, lc: int)
    requires Shape(h) && RoleOK(h, p, x)
    ensures RoleOK(h, TryUpdateCommit(p, lc), x)
  {
    hide Shape, Matched;
  }

  /** The handler's last act, when the follower's log already contains what it was told. */
  lemma CommitNode(h: History, snap: Log, nd: Node, x: nat, lc: int, l: Log)
    requires Shape(h) && x < h.n && NodeOK(h, snap, nd, x)
    requires 0 <= lc < |l| && Committed(h, l[..lc + 1], nd.peer.term)
    requires |l| <= |snap| || l <= h.log[x]
    ensures NodeOK(h, snap, nd.(peer := TryUpdateCommit(nd.peer, lc)), x)
  {
    hide LogOK, RoleOK, RoundsOK, Committed, Shape, StreamOK;
    var nd' := nd.(peer := TryUpdateCommit(nd.peer, lc));
    NodeTerm(h, snap, nd, x);
    TryUpdateCommitOK(h, snap, nd.peer, x, lc, l);
    TryUpdateCommitRole(h, nd.peer, x, lc);
    StreamKeep(h, h, snap, nd, nd', x);
    RoundsKeepSelf(h, nd, nd', x);
  }

  lemma RoundsKeepSelf(h: History, nd: Node, nd': Node, x: nat)
    requires RoundsOK(h, nd, x) && nd'.rounds == nd.rounds && nd'.peer.term == nd.peer.term
    ensures RoundsOK(h, nd', x)
  {
  }

  lemma TakeLogOK(h: History, h': History, snap: Log, p: Peer, x: nat, l: Log)
    requires Grows(h, h') && x < h.n && LogOK(h, snap, p, x) && CommitOK(h, p, x) && h'.term[x] == h.term[x]
    requires |snap| < |l| && h'.log[x] == Merge(h.log[x], l)
    requires p.commitIndex > p.snapIndex ==>
               p.commitIndex < |h'.log[x]| && h'.log[x][..p.commitIndex + 1] == h.log[x][..p.commitIndex + 1]
    ensures var p' := p.(log := [p.log[0]] + h'.log[x][|snap|..]);
            LogOK(h', snap, p', x) && CommitOK(h', p', x)
  {
    hide Committed;
    CommittedGrows(h, h', snap, p.term, p.term);
    if p.commitIndex > p.snapIndex {
      CommittedGrows(h, h', h.log[x][..p.commitIndex + 1], p.term, p.term);
    }
  }

  lemma FollowerRole(h: History, h': History, p: Peer, p': Peer, x: nat)
    requires Grows(h, h') && RoleOK(h, p, x) && p.role != Leader && h'.leader == h.leader
    requires p'.role == p.role && p'.votedFor == p.votedFor && p'.term == p.term
    requires p'.nextIndex == p.nextIndex && p'.matchIndex == p.matchIndex
    ensures RoleOK(h', p', x)
  {
  }

  lemma FollowerVote(h: History, h': History, p: Peer, p': Peer, x: nat)
    requires VoteOK(h, p, x) && h'.votes == h.votes && p'.votedFor == p.votedFor && p'.term == p.term
    ensures VoteOK(h', p', x)
  {
  }

  /** A follower that has taken the prefix `l` and saved its new log. */
  lemma TakeNode(h: History, h': History, snap: Log, nd: Node, x: nat, l: Log)
    requires Inv(h) && Grows(h, h') && FromLeader(h, x, l) && NodeOK(h, snap, nd, x) && nd.peer.role != Leader
    requires |snap| < |l| && nd.peer.log != [] && h' == Accept(h, x, l)
    ensures NodeOK(h', snap, nd.(peer := Persist(nd.peer.(log := [nd.peer.log[0]] + h'.log[x][|snap|..]))), x)
  {
    hide Inv, LogOK, RoleOK, RoundsOK, Committed, StreamOK, VoteOK, Shape, CommitOK, Merge;
    Sizes(h);
    var p := nd.peer;
    var p1 := p.(log := [p.log[0]] + h'.log[x][|snap|..]);
    var p' := Persist(p1);
    var nd' := nd.(peer := p');
    NodeTerm(h, snap, nd, x);
    AppliedSurvives(h, h', p, x, l);
    TakeLogOK(h, h', snap, p, x, l);
    DiskOnly(h', snap, p1, p', x);
    StreamKeep(h, h', snap, nd, nd', x);
    RoundsOKKeep(h, h', nd, nd', x);
    FollowerRole(h, h', p, p', x);
    FollowerVote(h, h', p, p', x);
  }

  /** What is committed and applied above the snapshot stays where it is. */
  lemma AppliedSurvives(h: History, h': History, p: Peer, x: nat, l: Log)
    requires Inv(h) && Shape(h) && FromLeader(h, x, l) && CommitOK(h, p, x) && p.term == h.term[x]
    requires h' == Accept(h, x, l)
    ensures x < |h'.log|
    ensures p.commitIndex > p.snapIndex ==>
              p.commitIndex < |h'.log[x]| && h'.log[x][..p.commitIndex + 1] == h.log[x][..p.commitIndex + 1]
    ensures p.lastApplied > p.snapIndex ==>
              p.lastApplied < |h'.log[x]| && h'.log[x][..p.lastApplied + 1] == h.log[x][..p.lastApplied + 1]
  {
    hide Inv, Committed;
    if p.commitIndex > p.snapIndex {
      CommitSurvives(h, x, l, p.commitIndex);
    }
    if p.lastApplied > p.snapIndex {
      assert h'.log[x][..p.lastApplied + 1] == h'.log[x][..p.commitIndex + 1][..p.lastApplied + 1];
    }
  }

  lemma Accepted(h: History, x: nat, l: Log) returns (h': History)
    requires Inv(h) && Shape(h) && FromLeader(h, x, l)
    ensures x < |h.term| && x < |h.log| && h' == Accept(h, x, l)
    ensures Inv(h') && Grows(h, h') && OnlyBy(h, h', x) && Acked(h', x, h.term[x], |l| - 1)
  {
    hide Inv;
    h' := Accept(h, x, l);
    AcceptInv(h, x, l);
    AcceptOnly(h, x, l);
    assert (x, h.term[x], |l| - 1) in h'.acks;
  }

  // ---------------------------------------------------------------- AppendEntries at the follower

  lemma StopStanding(h: History, snap: Log, nd: Node, x: nat)
    requires Shape(h) && x < h.n && NodeOK(h, snap, nd, x)
    ensures NodeOK(h, snap, nd.(peer := nd.peer.(role := Follower)), x)
  {
    hide LogOK, RoundsOK, Committed, StreamOK, VoteOK, Shape;
    var p' := nd.peer.(role := Follower);
    NodeTerm(h, snap, nd, x);
    DiskOnly(h, snap, nd.peer, p', x);
    StreamKeep(h, h, snap, nd, nd.(peer := p'), x);
    RoundsKeepSelf(h, nd, nd.(peer := p'), x);
    FollowerVote(h, h, nd.peer, p', x);
  }

  lemma MeetLeaderNode(h: History, snap: Log, nd: Node, x: nat, t: int) returns (h': History)
    requires Inv(h) && Shape(h) && x < h.n && NodeOK(h, snap, nd, x)
    ensures Inv(h') && OnlyBy(h, h', x) && x < h'.n
    ensures NodeOK(h', snap, nd.(peer := MeetLeader(nd.peer, t)), x)
  {
    hide NodeOK, Inv;
    h' := MeetTermMaybe(h, snap, nd, x, t);
    if nd.peer.role == Candidate && t == nd.peer.term {
      StopStanding(h', snap, nd, x);
    }
    assert t <= nd.peer.term && !(nd.peer.role == Candidate && t == nd.peer.term) ==> nd.(peer := nd.peer) == nd;
  }

  lemma NotLeader(h: History, snap: Log, nd: Node, x: nat, from: nat, t: int)
    requires Shape(h) && x < h.n && NodeOK(h, snap, nd, x)
    requires t in h.leader && h.leader[t] == from && from != x && nd.peer.term == t
    ensures nd.peer.role != Leader
  {
  }

  /** All the entries lie inside the snapshot: nothing to do, and all of it is committed. */
  lemma InsideSnapshot(h: History, snap: Log, nd: Node, x: nat, from: nat, a: AppendArgs)
    requires Inv(h) && Shape(h) && x < h.n && NodeOK(h, snap, nd, x) && AppendOK(h, from, a) && a.term == nd.peer.term
    requires a.prev + |a.entries| <= nd.peer.snapIndex
    ensures Matched(h, x, a.term, a.prev + |a.entries|)
    ensures NodeOK(h, snap, nd.(peer := TryUpdateCommit(nd.peer, a.leaderCommit)), x)
  {
    hide Inv, NodeOK, Committed, Shape, LogOK;
    var l := Told(h, a);
    NodeLogOK(h, snap, nd, x);
    NodeSnap(h, snap, nd.peer, x);
    CommittedInLeader(h, snap, a.term, a.term);
    PrefixesCompare(l, snap, h.canon[a.term]);
    CommittedPrefix(h, snap, l, a.term);
    assert l[..a.leaderCommit + 1] == h.canon[a.term][..a.leaderCommit + 1];
    CommitNode(h, snap, nd, x, a.leaderCommit, l);
  }

  lemma NodeSnap(h: History, snap: Log, p: Peer, x: nat)
    requires Shape(h) && x < h.n && LogOK(h, snap, p, x)
    ensures |snap| == p.snapIndex + 1 <= |h.log[x]| && Committed(h, snap, p.term) && p.term == h.term[x]
    ensures p.log == [Entry(Last(snap).term, NoCommand)] + h.log[x][|snap|..]
  {
    hide Committed;
  }

  /** The entries reach beyond the snapshot and fit: the follower takes them. */
  lemma TakeAndCommit(h: History, snap: Log, nd: Node, x: nat, from: nat, a: AppendArgs, q: Peer) returns (h': History)
    requires Inv(h) && Shape(h) && x < h.n && NodeOK(h, snap, nd, x) && AppendOK(h, from, a) && a.term == nd.peer.term
    requires from != x && nd.peer.log != [] && |snap| <= a.prev + |a.entries|
    requires nd.peer.term == h.term[x]
    requires q == Persist(nd.peer.(log := [nd.peer.log[0]] + Merge(h.log[x], Told(h, a))[|snap|..]))
    ensures Inv(h') && OnlyBy(h, h', x) && x < h'.n
    ensures Matched(h', x, a.term, a.prev + |a.entries|)
    ensures NodeOK(h', snap, nd.(peer := TryUpdateCommit(q, a.leaderCommit)), x)
  {
    hide Inv, NodeOK, Committed, LogOK, Shape, OnlyBy, AppendOK, Acked, Matched;
    Sizes(h);
    AppendBasics(h, from, a);
    AppendLeader(h, from, a);
    var l := Told(h, a);
    NotLeader(h, snap, nd, x, from, a.term);
    h' := Accepted(h, x, l);
    TakeNode(h, h', snap, nd, x, l);
    ToldGrows(h, h', from, a, x);
    CommitNode(h', snap, nd.(peer := q), x, a.leaderCommit, l);
  }

  /** What the message says is still committed, and acknowledged, after the server has taken it. */
  lemma ToldGrows(h: History, h': History, from: nat, a: AppendArgs, x: nat)
    requires AppendOK(h, from, a) && Grows(h, h') && Acked(h', x, a.term, a.prev + |a.entries|)
    ensures 0 <= a.leaderCommit < |Told(h, a)|
    ensures Committed(h', Told(h, a)[..a.leaderCommit + 1], a.term)
    ensures Matched(h', x, a.term, a.prev + |a.entries|)
  {
    hide Committed, Shape, Acked;
    var l := Told(h, a);
    assert l[..a.leaderCommit + 1] == h.canon[a.term][..a.leaderCommit + 1];
    CommittedGrows(h, h', l[..a.leaderCommit + 1], a.term, a.term);
    assert |h.canon[a.term]| <= |h'.canon[a.term]|;
  }

  /** The entries reach beyond the snapshot and fit what the server holds. */
  predicate Fits(p: Peer, a: AppendArgs) {
    if a.prev <= p.snapIndex then p.snapIndex - a.prev < |a.entries|
    else a.prev < LogLength(p) && Get(p, a.prev).term == a.prevTerm
  }

  /** The log the reconciliation leaves. */
  function Got(p: Peer, a: AppendArgs): Log
    requires p.log != [] && Fits(p, a)
  {
    if a.prev <= p.snapIndex then Reconciled(p.log, 1, a.entries[p.snapIndex - a.prev..])
    else Reconciled(p.log, a.prev + 1 - p.snapIndex, a.entries)
  }

  /** The message describes the prefix `l` of the sender's log. */
  ghost predicate Describes(a: AppendArgs, l: Log) {
    0 <= a.prev && |l| == a.prev + |a.entries| + 1 && l[a.prev].term == a.prevTerm && l[a.prev + 1..] == a.entries
  }

  lemma GotAtSnapshot(g: Log, l: Log, canon: map<int, Log>, p: Peer, a: AppendArgs, d: Entry)
    requires Chain(g, canon) && Chain(l, canon) && Describes(a, l)
    requires p.snapIndex + 1 <= |g| && p.log == [d] + g[p.snapIndex + 1..] && Fits(p, a) && a.prev <= p.snapIndex
    ensures p.snapIndex + 1 <= |Merge(g, l)| && Got(p, a) == [d] + Merge(g, l)[p.snapIndex + 1..]
  {
    hide Chain, Reconciled, Merge;
    var cut := p.snapIndex + 1;
    MergeLong(g, l, cut);
    assert l[cut..] == l[a.prev + 1..][cut - a.prev - 1..];
    ReconcileRefines(g, l, canon, cut, cut, d);
  }

  lemma GotAbove(g: Log, l: Log, canon: map<int, Log>, p: Peer, a: AppendArgs, d: Entry)
    requires Chain(g, canon) && Chain(l, canon) && Describes(a, l)
    requires p.snapIndex + 1 <= |g| && p.log == [d] + g[p.snapIndex + 1..] && Fits(p, a) && a.prev > p.snapIndex
    ensures p.snapIndex + 1 <= |Merge(g, l)| && Got(p, a) == [d] + Merge(g, l)[p.snapIndex + 1..]
  {
    hide Chain, Reconciled, Merge;
    var cut := p.snapIndex + 1;
    MergeLong(g, l, cut);
    assert g[a.prev] == Get(p, a.prev);
    ChainsAgree(g, l, canon, a.prev);
    ReconcileRefines(g, l, canon, cut, a.prev + 1, d);
  }

  lemma ToldDescribes(h: History, from: nat, a: AppendArgs)
    requires AppendOK(h, from, a)
    ensures Describes(a, Told(h, a))
  {
    hide Committed;
  }

  /** It is the visible part of the merged full log. */
  lemma ReconcileVisible(h: History, snap: Log, p: Peer, x: nat, from: nat, a: AppendArgs)
    requires Shape(h) && Logs(h) && x < h.n && LogOK(h, snap, p, x) && AppendOK(h, from, a) && a.term == p.term
    requires p.log != [] && Fits(p, a)
    ensures |snap| <= a.prev + |a.entries| && |snap| <= |Merge(h.log[x], Told(h, a))|
    ensures Got(p, a) == [p.log[0]] + Merge(h.log[x], Told(h, a))[|snap|..]
  {
    hide Committed, Logs, Chain, Reconciled, Merge, LogOK, Shape, AppendOK, Describes, Got;
    Sizes(h);
    NodeSnap(h, snap, p, x);
    AppendBasics(h, from, a);
    FollowerChains(h, x, a.term);
    PrefixChain(Told(h, a), h.canon[a.term], h.canon);
    ToldDescribes(h, from, a);
    if a.prev <= p.snapIndex {
      GotAtSnapshot(h.log[x], Told(h, a), h.canon, p, a, p.log[0]);
    } else {
      GotAbove(h.log[x], Told(h, a), h.canon, p, a, p.log[0]);
    }
  }

  lemma FollowerChains(h: History, x: nat, t: int)
    requires Shape(h) && Logs(h) && x < h.n && t in h.canon
    ensures Chain(h.log[x], h.canon) && Chain(h.canon[t], h.canon)
  {
    hide Chain;
  }

  lemma InvLogs(h: History)
    requires Inv(h)
    ensures Shape(h) && Logs(h) && LeaderLogs(h)
  {
    hide Logs, LeaderLogs;
  }

  lemma TakeEntriesNode(h: History, snap: Log, nd: Node, x: nat, from: nat, a: AppendArgs) returns (h': History)
    requires Inv(h) && Shape(h) && x < h.n && NodeOK(h, snap, nd, x) && AppendOK(h, from, a)
    requires a.term == nd.peer.term && from != x && nd.peer.log != []
    ensures Inv(h') && OnlyBy(h, h', x) && x < h'.n
    ensures NodeOK(h', snap, nd.(peer := TakeEntries(nd.peer, a).0), x)
    ensures AppendRespOK(h', x, a, TakeEntries(nd.peer, a).1)
  {
    hide Inv, NodeOK, Committed, OnlyBy, AppendOK, LogOK, Matched, Reconciled;
    var p := nd.peer;
    NodeLogOK(h, snap, nd, x);
    NodeSnap(h, snap, p, x);
    if a.prev <= p.snapIndex && p.snapIndex - a.prev >= |a.entries| {
      hide Shape;
      InsideSnapshot(h, snap, nd, x, from, a);
      h' := h;
      OnlyBySelf(h, x);
    } else if a.prev > p.snapIndex && (a.prev >= LogLength(p) || Get(p, a.prev).term != a.prevTerm) {
      hide Shape;
      h' := h;
      OnlyBySelf(h, x);
      assert nd.(peer := p) == nd;
    } else {
      h' := TakeMatching(h, snap, nd, x, from, a);
    }
  }

  lemma TakeMatching(h: History, snap: Log, nd: Node, x: nat, from: nat, a: AppendArgs) returns (h': History)
    requires Inv(h) && Shape(h) && x < h.n && NodeOK(h, snap, nd, x) && AppendOK(h, from, a)
    requires a.term == nd.peer.term && from != x && nd.peer.log != [] && Fits(nd.peer, a)
    ensures Inv(h') && OnlyBy(h, h', x) && x < h'.n
    ensures NodeOK(h', snap, nd.(peer := TakeEntries(nd.peer, a).0), x)
    ensures AppendRespOK(h', x, a, TakeEntries(nd.peer, a).1)
  {
    hide Inv, NodeOK, Committed, OnlyBy, AppendOK, LogOK, Matched, Logs, LeaderLogs, Reconciled, TakeEntries, Merge,
         Shape, Persist, TryUpdateCommit, Got, Fits, Told;
    Sizes(h);
    var p := nd.peer;
    NodeLogOK(h, snap, nd, x);
    SnapTerm(h, snap, p, x);
    AppendBasics(h, from, a);
    InvLogs(h);
    ReconcileVisible(h, snap, p, x, from, a);
    TakeEntriesIs(p, a);
    h' := TakeAndCommit(h, snap, nd, x, from, a, Persist(p.(log := Got(p, a))));
  }

  lemma SnapTerm(h: History, snap: Log, p: Peer, x: nat)
    requires Shape(h) && x < h.n && LogOK(h, snap, p, x)
    ensures p.term == h.term[x]
  {
    hide Committed;
  }

  lemma MergeLong(g: Log, l: Log, n: nat)
    requires n <= |g| && n <= |l|
    ensures n <= |Merge(g, l)|
  {
  }

  lemma TakeEntriesIs(p: Peer, a: AppendArgs)
    requires p.log != [] && Fits(p, a)
    ensures TakeEntries(p, a) ==
            (TryUpdateCommit(Persist(p.(log := Got(p, a))), a.leaderCommit), AppendReply(p.term, true, 0, 0, 0))
  {
  }

  lemma AppendLeader(h: History, from: nat, a: AppendArgs)
    requires AppendOK(h, from, a)
    ensures a.term in h.leader && h.leader[a.term] == from
  {
    hide Committed;
  }

  lemma AppendBasics(h: History, from: nat, a: AppendArgs)
    requires AppendOK(h, from, a)
    ensures a.term in h.canon && 0 <= a.prev && a.prev + |a.entries| < |h.canon[a.term]|
  {
    hide Committed;
  }

  lemma AppendNode(h: History, snap: Log, nd: Node, x: nat, from: nat, a: AppendArgs) returns (h': History)
    requires Inv(h) && Shape(h) && x < h.n && NodeOK(h, snap, nd, x) && AppendOK(h, from, a)
    requires from != x && nd.peer.log != []
    ensures Inv(h') && OnlyBy(h, h', x) && x < h'.n && AppendOK(h', from, a)
    ensures NodeOK(h', snap, nd.(peer := HandleAppend(nd.peer, a).0), x)
    ensures AppendRespOK(h', x, a, HandleAppend(nd.peer, a).1)
  {
    hide Inv, NodeOK, Shape, OnlyBy, AppendOK, Matched, TakeEntries;
    var h1 := MeetLeaderNode(h, snap, nd, x, a.term);
    OnlyByGrows(h, h1, x);
    AppendOKGrows(h, h1, from, a);
    var p1 := MeetLeader(nd.peer, a.term);
    if a.term < p1.term {
      h' := h1;
    } else {
      h' := TakeEntriesNode(h1, snap, nd.(peer := p1), x, from, a);
      OnlyByTransitive(h, h1, h', x);
      OnlyByGrows(h1, h', x);
      AppendOKGrows(h1, h', from, a);
    }
  }

  lemma HandleAppendKeeps(p: Peer, a: AppendArgs)
    requires p.log != []
    ensures var q := HandleAppend(p, a).0;
            q.snapIndex == p.snapIndex && q.nextIndex == p.nextIndex && q.matchIndex == p.matchIndex
  {
  }

  lemma AppendReqStep(n: nat, s: State, g: Ghost, m: Msg) returns (g': Ghost)
    requires StateOK(n, s, g) && m in s.msgs && m.AppendReq? && m.to < n && s.nodes[m.to].peer.log != []
    ensures StateOK(n, DoAppendReq(s, m), g') && Grows(g.h, g'.h)
  {
    hide Inv, NodeOK, AppendOK, OnlyBy, Shape, HandleAppend, AppendRespOK;
    var x, c, a := m.to, m.from, m.appendArgs;
    var nd, snap := s.nodes[x], g.snaps[x];
    assert MsgOK(g.h, s.nodes, m);
    InvShape(g.h);
    var h' := AppendNode(g.h, snap, nd, x, c, a);
    OnlyByGrows(g.h, h', x);
    var (p, r) := HandleAppend(nd.peer, a);
    HandleAppendKeeps(nd.peer, a);
    Assemble(n, s, g, x, nd.(peer := p), snap, {AppendResp(x, c, m.boots, a, r)}, h');
    g' := Ghost(h', g.snaps[x := snap]);
  }
}
