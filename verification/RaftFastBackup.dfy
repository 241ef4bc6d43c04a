/** How fast a leader finds the point where a follower's log agrees with its own. */
module RaftFastBackup {
  import opened RaftLog
  import opened RaftPeer
  import opened RaftSystem
  import opened Consensus
  import opened ConsensusProof
  import opened RaftInvariant
  import opened RaftElectionSteps
  import opened RaftReplicationSteps
  import opened RaftRules
  import opened RaftTheorems

  /**
   What the backup relies on: the terms of neither log decrease, the follower's are real ones, and if
   the leader holds a term at index j that the follower holds at an earlier index i, the leader holds
   that term at i too.
   */
  ghost predicate Agreeable(p: Peer, q: Peer) {
    && p.log != [] && q.log != []
    && Ordered(p) && Ordered(q)
    && (forall i {:trigger Get(q, i)} :: q.snapIndex < i < LogLength(q) ==> Get(q, i).term >= 1)
    && (forall i, j {:trigger Get(q, i), Get(p, j)} ::
          p.snapIndex <= i <= j < LogLength(p) && p.snapIndex < j && q.snapIndex < i < LogLength(q) ==>
          (Get(p, j).term == Get(q, i).term ==> Get(p, i).term == Get(q, i).term))
  }

  ghost predicate Ordered(q: Peer) {
    forall i, j {:trigger Get(q, i), Get(q, j)} :: q.snapIndex < i <= j < LogLength(q) ==>
      Get(q, i).term <= Get(q, j).term
  }

  /** With `nextIndex` at `ni` the leader sends entries, and the follower rejects them. */
  predicate Rejected(p: Peer, q: Peer, ni: int)
    requires q.log != []
  {
    p.snapIndex < ni <= LogLength(p) && !TakeEntries(q, MakeAppendArgs(p, 0, ni - 1)).1.success
  }

  function NextTry(p: Peer, q: Peer, ni: int): int
    requires q.log != [] && Rejected(p, q, ni)
  {
    SteppedBack(p, TakeEntries(q, MakeAppendArgs(p, 0, ni - 1)).1)
  }

  /** Where the follower's rejection points, and that the leader resumes strictly earlier. */
  lemma RejectionLowers(p: Peer, q: Peer, ni: int)
    requires Agreeable(p, q) && Rejected(p, q, ni)
    ensures q.snapIndex < ni - 1 && NextTry(p, q, ni) < ni
    ensures NextTry(p, q, ni) - 1 < LogLength(q)
    ensures ni - 1 < LogLength(q) && q.snapIndex < NextTry(p, q, ni) - 1 && Rejected(p, q, NextTry(p, q, ni)) ==>
              Get(q, NextTry(p, q, ni) - 1).term < Get(q, ni - 1).term
  {
    var prev := ni - 1;
    if prev < LogLength(q) {
      var k := LastIndexOfTerm(p, Get(q, prev).term, LogLength(p) - 1);
      assert k != -1 ==> k < prev;
    }
  }

  /** How many rejections follow, for fixed logs, before the follower accepts or a snapshot is sent. */
  ghost function Rejections(p: Peer, q: Peer, ni: int): nat
    requires Agreeable(p, q)
    decreases if ni > 0 then ni else 0
  {
    if !Rejected(p, q, ni) then 0
    else
      RejectionLowers(p, q, ni);
      1 + Rejections(p, q, NextTry(p, q, ni))
  }

  /** The terms in the follower's visible log that are at most `t`. */
  function TermsUpTo(q: Peer, t: int): set<int> {
    set i | q.snapIndex < i < LogLength(q) && Get(q, i).term <= t :: Get(q, i).term
  }

  function VisibleTerms(q: Peer): set<int> {
    set i | q.snapIndex < i < LogLength(q) :: Get(q, i).term
  }

  lemma SmallerSet(a: set<int>, b: set<int>, t: int)
    requires a <= b && t in b && t !in a
    ensures |a| < |b|
  {
    assert a <= b - {t};
    SubsetSize(a, b - {t});
  }

  lemma SubsetSize(a: set<int>, b: set<int>)
    requires a <= b
    ensures |a| <= |b|
  {
    assert b == a + (b - a);
  }

  /** Once the probe is inside the follower's log, each rejection uses up one of its terms. */
  lemma {:induction false} ConflictsUseTerms(p: Peer, q: Peer, ni: int)
    requires Agreeable(p, q) && q.snapIndex < ni - 1 < LogLength(q)
    ensures Rejections(p, q, ni) <= |TermsUpTo(q, Get(q, ni - 1).term)|
    decreases if ni > 0 then ni else 0
  {
    hide Rejected, NextTry, Agreeable;
    AgreeableLogs(p, q);
    if Rejected(p, q, ni) {
      RejectionLowers(p, q, ni);
      var ni' := NextTry(p, q, ni);
      if Rejected(p, q, ni') {
        RejectionLowers(p, q, ni');
        ConflictsUseTerms(p, q, ni');
        var t, t' := Get(q, ni - 1).term, Get(q, ni' - 1).term;
        assert t in TermsUpTo(q, t) && t !in TermsUpTo(q, t');
        SmallerSet(TermsUpTo(q, t'), TermsUpTo(q, t), t);
      } else {
        var t := Get(q, ni - 1).term;
        assert t in TermsUpTo(q, t);
        SmallerSet({}, TermsUpTo(q, t), t);
      }
    }
  }

  lemma AgreeableLogs(p: Peer, q: Peer)
    requires Agreeable(p, q)
    ensures p.log != [] && q.log != []
  {
  }

  /** At most one rejection for a log that is too short, and one for each distinct term it holds. */
  lemma BackupBound(p: Peer, q: Peer, ni: int)
    requires Agreeable(p, q)
    ensures Rejections(p, q, ni) <= 1 + |VisibleTerms(q)|
  {
    hide Rejected, NextTry, Agreeable;
    AgreeableLogs(p, q);
    if Rejected(p, q, ni) {
      RejectionLowers(p, q, ni);
      var ni' := NextTry(p, q, ni);
      if Rejected(p, q, ni') {
        RejectionLowers(p, q, ni');
        ConflictsUseTerms(p, q, ni');
        SubsetSize(TermsUpTo(q, Get(q, ni' - 1).term), VisibleTerms(q));
      }
    }
  }

  /** Above both snapshots, the two logs have different terms at every index from `lo` to below `hi`. */
  ghost predicate Apart(p: Peer, q: Peer, lo: int, hi: int) {
    forall i {:trigger Get(p, i), Get(q, i)} :: lo <= i < hi && Visible(p, i) && Visible(q, i) ==>
      Get(p, i).term != Get(q, i).term
  }

  predicate Visible(p: Peer, i: int) {
    p.snapIndex < i < LogLength(p)
  }

  /** Backing up skips no index at which the logs agree. */
  lemma NothingSkipped(p: Peer, q: Peer, ni: int)
    requires Agreeable(p, q) && Rejected(p, q, ni)
    ensures Apart(p, q, NextTry(p, q, ni), ni)
  {
    var prev := ni - 1;
    if prev < LogLength(q) {
      var t := Get(q, prev).term;
      var k := LastIndexOfTerm(p, t, LogLength(p) - 1);
      forall i {:trigger Get(p, i), Get(q, i)} | NextTry(p, q, ni) <= i < ni && Visible(p, i) && Visible(q, i)
        ensures Get(p, i).term != Get(q, i).term
      {
        assert Get(q, i).term <= t;
        if k != -1 {
          assert Get(p, k).term <= Get(p, i).term;
        } else {
          assert Get(p, i).term != t;
        }
      }
    }
  }

  /** Where the leader's `nextIndex` comes to rest, for fixed logs. */
  ghost function Settled(p: Peer, q: Peer, ni: int): int
    requires Agreeable(p, q)
    decreases if ni > 0 then ni else 0
  {
    if !Rejected(p, q, ni) then ni
    else
      RejectionLowers(p, q, ni);
      Settled(p, q, NextTry(p, q, ni))
  }

  /** The whole backup ends without having passed an agreeing index. */
  lemma {:induction false} SettledApart(p: Peer, q: Peer, ni: int)
    requires Agreeable(p, q)
    ensures Settled(p, q, ni) <= ni && !Rejected(p, q, Settled(p, q, ni)) && Apart(p, q, Settled(p, q, ni), ni)
    decreases if ni > 0 then ni else 0
  {
    hide Agreeable, Rejected, NextTry;
    AgreeableLogs(p, q);
    if Rejected(p, q, ni) {
      RejectionLowers(p, q, ni);
      NothingSkipped(p, q, ni);
      SettledApart(p, q, NextTry(p, q, ni));
    }
  }

  /**
   Where the backup comes to rest, either a snapshot is due, or the follower takes the leader's
   entries and then has the leader's term at every visible index from there to the leader's last.
   */
  lemma SettledAccepts(p: Peer, q: Peer, ni: int)
    requires Agreeable(p, q) && ni <= LogLength(p)
    ensures var at := Settled(p, q, ni);
            at <= LogLength(p) && (at - 1 < p.snapIndex || TakesAll(p, q, at - 1))
  {
    hide Agreeable, TakeEntries;
    AgreeableLogs(p, q);
    SettledApart(p, q, ni);
    var at := Settled(p, q, ni);
    if at - 1 >= p.snapIndex {
      TakenTerms(p, q, at - 1);
    }
  }

  /** The follower takes the entries behind `prev`, and then has the leader's term wherever it sees that far. */
  ghost predicate TakesAll(p: Peer, q: Peer, prev: int)
    requires q.log != [] && InRange(p, prev)
  {
    var (q', r) := TakeEntries(q, MakeAppendArgs(p, 0, prev));
    && r.success && LogLength(q') >= LogLength(p) && q'.snapIndex == q.snapIndex
    && forall j :: prev < j < LogLength(p) && j > q.snapIndex ==> Get(q', j).term == Get(p, j).term
  }

  lemma TakenTerms(p: Peer, q: Peer, prev: int)
    requires q.log != [] && InRange(p, prev) && TakeEntries(q, MakeAppendArgs(p, 0, prev)).1.success
    ensures TakesAll(p, q, prev)
  {
    hide TakeEntries, Reconciled, HeldUpTo;
    var a := MakeAppendArgs(p, 0, prev);
    var q' := TakeEntries(q, a).0;
    TakenLog(q, a);
    Merged(q, a, q');
    forall j | prev < j < LogLength(p) && j > q.snapIndex
      ensures InRange(q', j) && Get(q', j).term == Get(p, j).term
    {
      assert RaftRules.Covers(q, a, j);
      if HeldUpTo(q, a, j) {
        HeldHere(q, a, j);
      }
    }
    if LogLength(p) - 1 > prev && LogLength(p) - 1 > q.snapIndex {
      assert InRange(q', LogLength(p) - 1);
    }
  }

  // ---------------------------------------------------------------- in every run

  lemma AgreeableChains(h: History, a: Log, b: Log, i: int, j: int)
    requires Shape(h) && Logs(h) && Chain(a, h.canon) && Chain(b, h.canon)
    requires 0 <= i <= j < |a| && 0 < i < |b| && a[j].term == b[i].term
    ensures a[i] == b[i]
  {
    hide Logs;
    var c := h.canon[b[i].term];
    assert a[..j + 1] <= c && b[..i + 1] <= c;
    assert a[i] == a[..j + 1][i] == c[i];
    assert b[i] == b[..i + 1][i];
  }

  lemma LeaderAgreeable(h: History, snap: Log, p: Peer, x: nat, snap': Log, q: Peer, y: nat)
    requires Shape(h) && Logs(h) && x < h.n && y < h.n && LogOK(h, snap, p, x) && snap <= h.log[x] &&
             LogOK(h, snap', q, y)
    ensures Agreeable(p, q)
  {
    hide Logs, Chain, Shape, Committed;
    Sizes(h);
    TwoChains(h, x, y);
    VisibleEntries(h, snap, p, x);
    VisibleEntries(h, snap', q, y);
    var a, b := h.log[x], h.log[y];
    forall i, j {:trigger Get(q, i), Get(q, j)} | q.snapIndex < i <= j < LogLength(q)
      ensures Get(q, i).term <= Get(q, j).term
    {
      ChainTermsOrdered(b, h, i, j);
    }
    forall i, j {:trigger Get(p, i), Get(p, j)} | p.snapIndex < i <= j < LogLength(p)
      ensures Get(p, i).term <= Get(p, j).term
    {
      ChainTermsOrdered(a, h, i, j);
    }
    forall i {:trigger Get(q, i)} | q.snapIndex < i < LogLength(q)
      ensures Get(q, i).term >= 1
    {
      EntryTerm(b, h.canon, i);
    }
    forall i, j {:trigger Get(q, i), Get(p, j)} | p.snapIndex <= i <= j < LogLength(p) && p.snapIndex < j &&
        q.snapIndex < i < LogLength(q)
      ensures Get(p, j).term == Get(q, i).term ==> Get(p, i).term == Get(q, i).term
    {
      if Get(p, j).term == Get(q, i).term {
        AgreeableChains(h, a, b, i, j);
        assert snap[|snap| - 1] == a[p.snapIndex];
      }
    }
  }

  /**
   Fast backup, in every reachable state: whatever `nextIndex` a leader holds for a server, each
   log-inconsistency rejection strictly lowers it, for fixed logs there are at most one plus the
   number of distinct terms in that server's visible log, and no index at which the logs agree is
   passed over. The backup ends with a snapshot due or with the entries taken.
   */
  lemma FastBackup(n: nat, steps: seq<Step>, x: nat, y: nat, ni: int)
    requires Admissible(n, steps) && x < n && y < n && Run(n, steps).nodes[x].peer.role == Leader
    ensures var p, q := Run(n, steps).nodes[x].peer, Run(n, steps).nodes[y].peer;
            && Agreeable(p, q)
            && (Rejected(p, q, ni) ==> NextTry(p, q, ni) < ni)
            && Rejections(p, q, ni) <= 1 + |VisibleTerms(q)|
            && Apart(p, q, Settled(p, q, ni), ni)
            && (p.snapIndex < Settled(p, q, ni) <= ni <= LogLength(p) ==> TakesAll(p, q, Settled(p, q, ni) - 1))
  {
    hide StateOK, Inv, NodeOK, Shape, LogOK, Logs, LeaderLogs, Grows, Run, Agreeable, Rejected, NextTry, Committed,
         Admissible;
    var gs := RunOK(n, steps);
    assert steps[..|steps|] == steps;
    var s, g := Run(n, steps), gs[|steps|];
    StateNode(n, s, g, x);
    StateNode(n, s, g, y);
    NodeLogOK(g.h, g.snaps[x], s.nodes[x], x);
    NodeLogOK(g.h, g.snaps[y], s.nodes[y], y);
    LeaderView(g.h, g.snaps[x], s.nodes[x], x);
    InvLogs(g.h);
    var p, q := s.nodes[x].peer, s.nodes[y].peer;
    LeaderAgreeable(g.h, g.snaps[x], p, x, g.snaps[y], q, y);
    AgreeableLogs(p, q);
    if Rejected(p, q, ni) {
      RejectionLowers(p, q, ni);
    }
    BackupBound(p, q, ni);
    SettledApart(p, q, ni);
    if ni <= LogLength(p) {
      SettledAccepts(p, q, ni);
    }
  }
}
