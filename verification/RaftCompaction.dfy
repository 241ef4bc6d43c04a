/** A compacted server answers AppendEntries as the same server with its whole log would. */
module RaftCompaction {
  import opened RaftLog
  import opened RaftPeer
  import opened RaftSystem
  import opened Consensus
  import opened ConsensusProof
  import opened RaftInvariant
  import opened RaftElectionSteps
  import opened RaftReplicationSteps
  import opened RaftTheorems

  /** `q` is `p` with its whole log `g`: no snapshot, everything else that the handler reads the same. */
  predicate Uncompacted(p: Peer, q: Peer, g: Log) {
    && p.snapIndex < |g| && |p.log| == |g| - p.snapIndex && p.log[1..] == g[p.snapIndex + 1..]
    && q.log == g && q.snapIndex == 0
    && q.term == p.term && q.role == p.role && q.commitIndex == p.commitIndex
  }

  /**
   The two handlers end the same: same reply, same commit index, and the compacted log is the
   visible part of the whole one. A rejection's first index is cut off at the snapshot.
   */
  predicate SameOutcome(cut: nat, compacted: (Peer, AppendReply), whole: (Peer, AppendReply)) {
    var (p, r) := compacted;
    var (q, r') := whole;
    && r.success == r'.success && r.term == r'.term && r.xTerm == r'.xTerm && r.xLen == r'.xLen
    && r.xIndex == (if r'.xTerm > 0 && r'.xIndex <= cut then cut + 1 else r'.xIndex)
    && p.commitIndex == q.commitIndex && LogLength(p) == LogLength(q)
    && p.snapIndex == cut && |p.log| >= 1 && cut < |q.log| && p.log[1..] == q.log[cut + 1..]
  }

  /** Follower and leader agree under the snapshot, as far as the message reaches. */
  predicate Compatible(p: Peer, a: AppendArgs, g: Log, l: Log)
    requires p.snapIndex < |g| && 0 <= a.prev < |l|
  {
    a.prev <= p.snapIndex ==>
      && g[a.prev].term == a.prevTerm
      && (|l| <= p.snapIndex + 1 ==> |l| == |g| || g[|l| - 1].term == l[|l| - 1].term)
  }

  // ---------------------------------------------------------------- the whole log

  /** What the handler leaves of a whole log that fits the message. */
  lemma WholeTaken(g: Log, l: Log, canon: map<int, Log>, q: Peer, a: AppendArgs)
    requires Chain(g, canon) && Chain(l, canon) && Describes(a, l) && q.log == g && q.snapIndex == 0
    requires a.prev < |g| && g[a.prev].term == a.prevTerm
    ensures TakeEntries(q, a).1 == AppendReply(q.term, true, 0, 0, 0)
    ensures TakeEntries(q, a).0.log == Merge(g, l) && TakeEntries(q, a).0.snapIndex == 0
    ensures TakeEntries(q, a).0.commitIndex == Raised(q.commitIndex, a.leaderCommit, |Merge(g, l)|)
  {
    hide Chain, Reconciled, Merge, TakeEntries, Describes;
    DescribedSuffix(a, l);
    WholeLog(g, l, canon, a);
    WholeIsReconciled(q, a);
  }

  lemma ChainStart(l: Log, canon: map<int, Log>)
    requires Chain(l, canon)
    ensures l != [] && l[0] == ORIGIN
  {
  }

  lemma DescribedSuffix(a: AppendArgs, l: Log)
    requires Describes(a, l)
    ensures 0 <= a.prev && |l| == a.prev + |a.entries| + 1
    ensures l[a.prev + 1..] == a.entries && l[a.prev].term == a.prevTerm
  {
  }

  lemma WholeLog(g: Log, l: Log, canon: map<int, Log>, a: AppendArgs)
    requires Chain(g, canon) && Chain(l, canon) && Describes(a, l)
    requires a.prev < |g| && g[a.prev].term == a.prevTerm
    ensures Reconciled(g, a.prev + 1, a.entries) == Merge(g, l)
  {
    hide Chain, Reconciled, Merge, Describes;
    ChainStart(g, canon);
    ChainStart(l, canon);
    DescribedSuffix(a, l);
    ChainsAgree(g, l, canon, a.prev);
    if a.entries == [] {
      assert l == g[..a.prev + 1];
      MergeInside(g, l);
      NothingNew(g, a.prev + 1);
    } else {
      assert [g[0]] + g[1..] == g;
      ReconcileRefines(g, l, canon, 1, a.prev + 1, g[0]);
      MergeStart(g, l);
    }
  }

  lemma WholeIsReconciled(q: Peer, a: AppendArgs)
    requires q.snapIndex == 0 && 0 <= a.prev < |q.log| && q.log[a.prev].term == a.prevTerm
    ensures var l := Reconciled(q.log, a.prev + 1, a.entries);
            && TakeEntries(q, a).1 == AppendReply(q.term, true, 0, 0, 0)
            && TakeEntries(q, a).0.log == l && TakeEntries(q, a).0.snapIndex == 0
            && TakeEntries(q, a).0.commitIndex == Raised(q.commitIndex, a.leaderCommit, |l|)
  {
    hide Reconciled;
    if a.entries == [] {
      NothingNew(q.log, a.prev + 1);
    }
    assert a.entries[0..] == a.entries;
  }

  lemma MergeInside(g: Log, l: Log)
    requires l <= g
    ensures Merge(g, l) == g
  {
  }

  lemma MergeStart(g: Log, l: Log)
    requires g != [] && l != [] && g[0] == l[0]
    ensures [g[0]] + Merge(g, l)[1..] == Merge(g, l)
  {
  }

  lemma NothingNew(log: Log, at: nat)
    requires at <= |log|
    ensures Reconciled(log, at, []) == log
  {
  }

  function Raised(commit: int, leaderCommit: int, length: nat): int {
    if leaderCommit > commit then (if leaderCommit <= length - 1 then leaderCommit else length - 1) else commit
  }

  // ---------------------------------------------------------------- the compacted log

  /** Entirely under the snapshot: nothing changes but the commit index. */
  lemma InsideTaken(p: Peer, a: AppendArgs)
    requires p.log != [] && a.prev <= p.snapIndex && p.snapIndex - a.prev >= |a.entries|
    ensures TakeEntries(p, a).1 == AppendReply(p.term, true, 0, 0, 0)
    ensures TakeEntries(p, a).0 == p.(commitIndex := Raised(p.commitIndex, a.leaderCommit, LogLength(p)))
  {
  }

  /** Reaching above the snapshot, and fitting there. */
  lemma VisibleTaken(g: Log, l: Log, canon: map<int, Log>, p: Peer, a: AppendArgs)
    requires Chain(g, canon) && Chain(l, canon) && Describes(a, l) && Fits(p, a)
    requires p.snapIndex < |g| && |p.log| == |g| - p.snapIndex && p.log[1..] == g[p.snapIndex + 1..]
    ensures TakeEntries(p, a).1 == AppendReply(p.term, true, 0, 0, 0)
    ensures var p', m := TakeEntries(p, a).0, Merge(g, l);
            && p'.snapIndex == p.snapIndex < |m| && p'.log == [p.log[0]] + m[p.snapIndex + 1..]
            && p'.commitIndex == Raised(p.commitIndex, a.leaderCommit, |m|)
  {
    hide Chain, Reconciled, Merge, TakeEntries, Got, Fits, Describes;
    assert p.log == [p.log[0]] + g[p.snapIndex + 1..];
    if a.prev <= p.snapIndex {
      GotAtSnapshot(g, l, canon, p, a, p.log[0]);
    } else {
      GotAbove(g, l, canon, p, a, p.log[0]);
    }
    TakeEntriesIs(p, a);
  }

  lemma {:induction false} RunStartCut(p: Peer, q: Peer, g: Log, i: int)
    requires Uncompacted(p, q, g) && p.snapIndex < i < |g|
    ensures RunStart(p, i) == if RunStart(q, i) <= p.snapIndex then p.snapIndex + 1 else RunStart(q, i)
    decreases i
  {
    assert Get(p, i) == p.log[1..][i - p.snapIndex - 1] == g[i];
    if i - 1 > p.snapIndex {
      assert Get(p, i - 1) == p.log[1..][i - 1 - p.snapIndex - 1] == g[i - 1];
      RunStartCut(p, q, g, i - 1);
    }
  }

  // ---------------------------------------------------------------- the comparison

  lemma AboveSnapshot(g: Log, l: Log, canon: map<int, Log>, p: Peer, q: Peer, a: AppendArgs)
    requires Chain(g, canon) && Chain(l, canon) && Describes(a, l) && Uncompacted(p, q, g) && a.prev > p.snapIndex
    ensures SameOutcome(p.snapIndex, TakeEntries(p, a), TakeEntries(q, a))
  {
    hide Chain, TakeEntries, Merge, Describes, Reconciled, SameOutcome;
    if a.prev >= |g| {
      ShortReplies(p, q, g, a);
    } else {
      EntryOf(p, q, g, canon, a.prev);
      if g[a.prev].term == a.prevTerm {
        DescribedSuffix(a, l);
        VisibleTaken(g, l, canon, p, a);
        WholeTaken(g, l, canon, q, a);
        BothTaken(p.snapIndex, TakeEntries(p, a), TakeEntries(q, a), Merge(g, l));
      } else {
        ConflictReplies(p, q, g, a);
      }
    }
  }

  lemma BothTaken(cut: nat, x: (Peer, AppendReply), y: (Peer, AppendReply), m: Log)
    requires x.1 == y.1 && x.1.xTerm == 0 && x.1.xIndex == 0 && x.0.commitIndex == y.0.commitIndex
    requires x.0.snapIndex == cut < |m| && |x.0.log| >= 1 && x.0.log == [x.0.log[0]] + m[cut + 1..]
    requires y.0.log == m && y.0.snapIndex == 0
    ensures SameOutcome(cut, x, y)
  {
  }

  /** An index above the snapshot holds the entry of the whole log. */
  lemma EntryOf(p: Peer, q: Peer, g: Log, canon: map<int, Log>, i: int)
    requires Chain(g, canon) && Uncompacted(p, q, g) && p.snapIndex < i < |g|
    ensures Get(p, i) == g[i] && g[i].term >= 1
  {
    assert Get(p, i) == p.log[1..][i - p.snapIndex - 1];
  }

  lemma ShortReplies(p: Peer, q: Peer, g: Log, a: AppendArgs)
    requires Uncompacted(p, q, g) && a.prev > p.snapIndex && a.prev >= |g|
    ensures SameOutcome(p.snapIndex, TakeEntries(p, a), TakeEntries(q, a))
  {
    hide Reconciled;
  }

  lemma ConflictReplies(p: Peer, q: Peer, g: Log, a: AppendArgs)
    requires Uncompacted(p, q, g) && p.snapIndex < a.prev < |g|
    requires Get(p, a.prev) == g[a.prev] && g[a.prev].term >= 1 && g[a.prev].term != a.prevTerm
    ensures SameOutcome(p.snapIndex, TakeEntries(p, a), TakeEntries(q, a))
  {
    hide RunStart, Reconciled;
    RunStartCut(p, q, g, a.prev);
  }

  lemma AtSnapshot(g: Log, l: Log, canon: map<int, Log>, p: Peer, q: Peer, a: AppendArgs)
    requires Chain(g, canon) && Chain(l, canon) && Describes(a, l) && Uncompacted(p, q, g)
    requires a.prev <= p.snapIndex && p.snapIndex + 1 < |l| && g[a.prev].term == a.prevTerm
    ensures SameOutcome(p.snapIndex, TakeEntries(p, a), TakeEntries(q, a))
  {
    hide Chain, TakeEntries, Merge;
    VisibleTaken(g, l, canon, p, a);
    WholeTaken(g, l, canon, q, a);
  }

  lemma UnderSnapshot(g: Log, l: Log, canon: map<int, Log>, p: Peer, q: Peer, a: AppendArgs)
    requires Chain(g, canon) && Chain(l, canon) && Describes(a, l) && Uncompacted(p, q, g)
    requires a.prev <= p.snapIndex && |l| <= p.snapIndex + 1 && g[a.prev].term == a.prevTerm
    ensures SameOutcome(p.snapIndex, TakeEntries(p, a), TakeEntries(q, a)) <==>
            |l| == |g| || g[|l| - 1].term == l[|l| - 1].term
  {
    hide TakeEntries, Chain, Describes, Merge;
    DescribedSuffix(a, l);
    InsideTaken(p, a);
    WholeTaken(g, l, canon, q, a);
    if g[|l| - 1].term == l[|l| - 1].term {
      ChainsAgree(g, l, canon, |l| - 1);
      MergeInside(g, l);
    } else {
      MergeOutside(g, l);
      if |l| == |g| {
        assert p.log[1..] == [] == l[p.snapIndex + 1..];
      }
    }
  }

  lemma MergeOutside(g: Log, l: Log)
    requires l != [] && |l| <= |g| && g[|l| - 1] != l[|l| - 1]
    ensures Merge(g, l) == l
  {
  }

  lemma WholeRejects(g: Log, l: Log, p: Peer, q: Peer, a: AppendArgs)
    requires Describes(a, l) && Uncompacted(p, q, g) && l[0] == g[0]
    requires a.prev <= p.snapIndex && g[a.prev].term != a.prevTerm
    ensures TakeEntries(p, a).1.success && !TakeEntries(q, a).1.success
  {
    assert a.prev > 0;
  }

  /**
   Compaction is transparent to the handler exactly if follower and leader agree under the
   snapshot: then, and only then, the reply, the commit index and the visible log are those of the
   server that kept its whole log.
   */
  lemma CompactionExact(g: Log, l: Log, canon: map<int, Log>, p: Peer, q: Peer, a: AppendArgs)
    requires Chain(g, canon) && Chain(l, canon) && Describes(a, l) && Uncompacted(p, q, g)
    ensures SameOutcome(p.snapIndex, TakeEntries(p, a), TakeEntries(q, a)) <==> Compatible(p, a, g, l)
  {
    hide Chain, TakeEntries, SameOutcome;
    ChainStart(g, canon);
    ChainStart(l, canon);
    if a.prev > p.snapIndex {
      AboveSnapshot(g, l, canon, p, q, a);
    } else if g[a.prev].term != a.prevTerm {
      WholeRejects(g, l, p, q, a);
      assert !SameOutcome(p.snapIndex, TakeEntries(p, a), TakeEntries(q, a)) by {
        Differs(p.snapIndex, TakeEntries(p, a), TakeEntries(q, a));
      }
    } else if |l| > p.snapIndex + 1 {
      AtSnapshot(g, l, canon, p, q, a);
    } else {
      UnderSnapshot(g, l, canon, p, q, a);
    }
  }

  lemma Differs(cut: nat, x: (Peer, AppendReply), y: (Peer, AppendReply))
    requires x.1.success != y.1.success
    ensures !SameOutcome(cut, x, y)
  {
  }

  // ---------------------------------------------------------------- by terms alone

  /** Terms that agree at the start of both can be left out of the comparison. */
  lemma {:induction false} CommonTermsSkip(a: seq<Entry>, b: seq<Entry>, k: nat)
    requires k <= |a| && k <= |b| && forall i :: 0 <= i < k ==> a[i].term == b[i].term
    ensures CommonTerms(a, b) == k + CommonTerms(a[k..], b[k..])
  {
    if k > 0 {
      CommonTermsSkip(a[1..], b[1..], k - 1);
      assert a[1..][k - 1..] == a[k..] && b[1..][k - 1..] == b[k..];
    } else {
      assert a[0..] == a && b[0..] == b;
    }
  }

  lemma SplicedSkip(log: Log, at: nat, es: seq<Entry>, k: nat, d: nat)
    requires at + k + d <= |log| && k + d <= |es|
    ensures Spliced(log, at, es, k + d) == Spliced(log, at + k, es[k..], d)
  {
    assert es[k..][d..] == es[k + d..];
  }

  lemma ReconciledSkip(log: Log, at: nat, es: seq<Entry>, k: nat)
    requires at + k <= |log| && k <= |es| && forall i :: 0 <= i < k ==> log[at + i].term == es[i].term
    ensures Reconciled(log, at, es) == Reconciled(log, at + k, es[k..])
  {
    hide CommonTerms, Spliced;
    assert forall i :: 0 <= i < k ==> log[at..][i] == log[at + i];
    CommonTermsSkip(log[at..], es, k);
    assert log[at..][k..] == log[at + k..];
    SplicedSkip(log, at, es, k, CommonTerms(log[at + k..], es[k..]));
  }

  /** `v` shows what `w` holds above index `cut`. */
  predicate Shows(v: Log, w: Log, cut: nat) {
    cut < |w| && |v| == |w| - cut && v[1..] == w[cut + 1..]
  }

  lemma ShowsAt(v: Log, w: Log, cut: nat, at: nat)
    requires Shows(v, w, cut) && cut < at <= |w|
    ensures v[at - cut..] == w[at..]
  {
    assert v[at - cut..] == v[1..][at - cut - 1..];
    assert w[at..] == w[cut + 1..][at - cut - 1..];
  }

  lemma ShowsSpliced(v: Log, w: Log, cut: nat, at: nat, es: seq<Entry>, d: nat)
    requires Shows(v, w, cut) && cut < at && at + d <= |w| && d <= |es|
    ensures Shows(Spliced(v, at - cut, es, d), Spliced(w, at, es, d), cut)
  {
    hide Shows;
    ShowsLength(v, w, cut);
    if d < |es| {
      ShowsCut(v, w, cut, at + d, es[d..]);
    }
  }

  lemma ShowsCut(v: Log, w: Log, cut: nat, k: nat, es: seq<Entry>)
    requires Shows(v, w, cut) && cut < k <= |w|
    ensures Shows(v[..k - cut] + es, w[..k] + es, cut)
  {
    TailOf(v, 0, k - cut, es);
    TailOf(w, cut, k, es);
  }

  lemma TailOf(w: Log, cut: nat, k: nat, es: seq<Entry>)
    requires cut < k <= |w|
    ensures (w[..k] + es)[cut + 1..] == w[cut + 1..][..k - cut - 1] + es
  {
  }

  /** Reconciling above the snapshot does to the visible log what it does to the whole one. */
  lemma ShowsReconciled(v: Log, w: Log, cut: nat, at: nat, es: seq<Entry>)
    requires Shows(v, w, cut) && cut < at <= |w|
    ensures Shows(Reconciled(v, at - cut, es), Reconciled(w, at, es), cut)
  {
    hide CommonTerms, Spliced, Shows;
    ShowsAt(v, w, cut, at);
    assert |v| == |w| - cut by {
      ShowsLength(v, w, cut);
    }
    ShowsSpliced(v, w, cut, at, es, CommonTerms(w[at..], es));
  }

  lemma ShowsLength(v: Log, w: Log, cut: nat)
    requires Shows(v, w, cut)
    ensures cut < |w| && |v| == |w| - cut
  {
  }

  /** The terms the message gives under the snapshot are those of the whole log. */
  predicate AgreesUnder(p: Peer, a: AppendArgs, w: Log)
    requires p.snapIndex < |w|
  {
    0 <= a.prev <= p.snapIndex ==>
      && w[a.prev].term == a.prevTerm
      && forall i :: 0 <= i < |a.entries| && a.prev + 1 + i <= p.snapIndex ==>
           w[a.prev + 1 + i].term == a.entries[i].term
  }

  lemma GotShows(p: Peer, q: Peer, w: Log, a: AppendArgs)
    requires Uncompacted(p, q, w) && a.prev >= 0 && AgreesUnder(p, a, w) && Fits(p, a) && a.prev < |w|
    ensures Shows(Got(p, a), Reconciled(w, a.prev + 1, a.entries), p.snapIndex)
  {
    hide Reconciled;
    assert Shows(p.log, w, p.snapIndex);
    if a.prev <= p.snapIndex {
      var k := p.snapIndex - a.prev;
      ReconciledSkip(w, a.prev + 1, a.entries, k);
      ShowsReconciled(p.log, w, p.snapIndex, p.snapIndex + 1, a.entries[k..]);
    } else {
      ShowsReconciled(p.log, w, p.snapIndex, a.prev + 1, a.entries);
    }
  }

  /** Taking what fits. */
  lemma TakenAlike(p: Peer, q: Peer, w: Log, a: AppendArgs)
    requires Uncompacted(p, q, w) && a.prev >= 0 && AgreesUnder(p, a, w) && Fits(p, a)
    requires a.prev < |w| && w[a.prev].term == a.prevTerm
    ensures SameOutcome(p.snapIndex, TakeEntries(p, a), TakeEntries(q, a))
  {
    hide Reconciled, Got, Fits, TakeEntries;
    GotShows(p, q, w, a);
    TakeEntriesIs(p, a);
    WholeIsReconciled(q, a);
  }

  /** Nothing above the snapshot. */
  lemma InsideAlike(p: Peer, q: Peer, w: Log, a: AppendArgs)
    requires Uncompacted(p, q, w) && AgreesUnder(p, a, w)
    requires 0 <= a.prev <= p.snapIndex && p.snapIndex - a.prev >= |a.entries|
    ensures SameOutcome(p.snapIndex, TakeEntries(p, a), TakeEntries(q, a))
  {
    hide Reconciled, TakeEntries;
    InsideTaken(p, a);
    WholeIsReconciled(q, a);
    ReconciledSkip(w, a.prev + 1, a.entries, |a.entries|);
    assert a.entries[|a.entries|..] == [];
    NothingNew(w, a.prev + 1 + |a.entries|);
  }

  /** Compaction needs no more than that follower and message agree in their terms under the snapshot. */
  lemma CompactionByTerms(p: Peer, q: Peer, w: Log, a: AppendArgs)
    requires Uncompacted(p, q, w) && a.prev >= 0 && AgreesUnder(p, a, w)
    requires forall i :: p.snapIndex < i < |w| ==> w[i].term >= 1
    ensures SameOutcome(p.snapIndex, TakeEntries(p, a), TakeEntries(q, a))
  {
    hide TakeEntries, SameOutcome, Reconciled;
    if a.prev >= |w| {
      ShortReplies(p, q, w, a);
    } else if a.prev <= p.snapIndex {
      if p.snapIndex - a.prev >= |a.entries| {
        InsideAlike(p, q, w, a);
      } else {
        TakenAlike(p, q, w, a);
      }
    } else {
      assert Get(p, a.prev) == p.log[1..][a.prev - p.snapIndex - 1] == w[a.prev];
      if w[a.prev].term == a.prevTerm {
        TakenAlike(p, q, w, a);
      } else {
        ConflictReplies(p, q, w, a);
      }
    }
  }

  // ---------------------------------------------------------------- every run

  /** The same server with its whole log. */
  function Whole(p: Peer, g: Log): Peer {
    p.(log := g, snapIndex := 0)
  }

  /** The log a server would hold had it not compacted: what its snapshot stands for, and what it shows. */
  ghost function WholeLogOf(h: History, snap: Log, x: nat): Log
    requires x < |h.log| && |snap| <= |h.log[x]|
  {
    snap + h.log[x][|snap|..]
  }

  lemma WholeIs(h: History, snap: Log, p: Peer, x: nat)
    requires Shape(h) && Logs(h) && x < h.n && LogOK(h, snap, p, x)
    ensures var w := WholeLogOf(h, snap, x);
            && Uncompacted(p, Whole(p, w), w) && w[p.snapIndex].term == p.log[0].term
            && Commands(w[..p.snapIndex + 1]) == p.snapshot
            && forall i :: p.snapIndex < i < |w| ==> w[i].term >= 1
  {
    hide Committed, Chain;
    var w := WholeLogOf(h, snap, x);
    assert w[..p.snapIndex + 1] == snap;
    assert w[p.snapIndex] == Last(snap);
    forall i | p.snapIndex < i < |w|
      ensures w[i].term >= 1
    {
      assert w[i] == h.log[x][i];
      EntryTerm(h.log[x], h.canon, i);
    }
  }

  /** What a snapshot stands for is in the log of every leader a server hears from. */
  lemma SnapshotAgrees(h: History, snap: Log, p: Peer, x: nat, from: nat, a: AppendArgs)
    requires Inv(h) && Shape(h) && x < h.n && LogOK(h, snap, p, x) && AppendOK(h, from, a) && p.term <= a.term
    requires |snap| <= |h.log[x]| && p.snapIndex < |WholeLogOf(h, snap, x)|
    ensures a.prev >= 0 && AgreesUnder(p, a, WholeLogOf(h, snap, x))
  {
    hide Inv, Shape, Committed, LogOK, AppendOK, Describes;
    Sizes(h);
    NodeSnap(h, snap, p, x);
    AppendBasics(h, from, a);
    AppendLeader(h, from, a);
    ToldDescribes(h, from, a);
    CommittedInLeader(h, snap, p.term, a.term);
    var l, c, w := Told(h, a), h.canon[a.term], WholeLogOf(h, snap, x);
    DescribedSuffix(a, l);
    assert forall i :: 0 <= i <= p.snapIndex ==> w[i] == snap[i] == c[i];
    assert forall i :: 0 <= i < |a.entries| ==> a.entries[i] == l[a.prev + 1..][i] == c[a.prev + 1 + i];
  }

  /** The opening of the handler touches neither log nor commit index. */
  lemma MeetUncompacted(p: Peer, q: Peer, g: Log, t: int)
    requires Uncompacted(p, q, g)
    ensures Uncompacted(MeetLeader(p, t), MeetLeader(q, t), g)
    ensures MeetLeader(p, t).log == p.log && MeetLeader(p, t).snapIndex == p.snapIndex
    ensures MeetLeader(p, t).term == if t > p.term then t else p.term
  {
  }

  /** The whole handler, from the same for what follows its opening. */
  lemma HandlersAgree(p: Peer, w: Log, a: AppendArgs)
    requires Uncompacted(p, Whole(p, w), w) && (a.term >= p.term ==> a.prev >= 0 && AgreesUnder(p, a, w))
    requires forall i :: p.snapIndex < i < |w| ==> w[i].term >= 1
    ensures p.log != [] && w != []
    ensures SameOutcome(p.snapIndex, HandleAppend(p, a), HandleAppend(Whole(p, w), a))
  {
    hide TakeEntries, MeetLeader;
    var q := Whole(p, w);
    MeetUncompacted(p, q, w, a.term);
    var p1, q1 := MeetLeader(p, a.term), MeetLeader(q, a.term);
    if a.term >= p.term {
      CompactionByTerms(p1, q1, w, a);
    }
  }

  /**
   Compaction is transparent in every run: for each server there is one whole log, of which its
   snapshot and its visible log are the two parts, such that it handles every request in the network
   as if it had kept it all. This covers servers that kept the rest of a conflicting log when they
   installed a snapshot.
   */
  lemma CompactionTransparent(n: nat, steps: seq<Step>, x: nat) returns (whole: Log)
    requires Admissible(n, steps) && x < n
    ensures var p := Run(n, steps).nodes[x].peer;
            && p.log != [] && whole != [] && Uncompacted(p, Whole(p, whole), whole)
            && whole[p.snapIndex].term == p.log[0].term && Commands(whole[..p.snapIndex + 1]) == p.snapshot
            && forall m :: m in Run(n, steps).msgs && m.AppendReq? && m.to == x ==>
                 SameOutcome(p.snapIndex, HandleAppend(p, m.appendArgs), HandleAppend(Whole(p, whole), m.appendArgs))
  {
    hide StateOK, Inv, Grows, Run, Admissible, Shape, HandleAppend, NodeOK, LogOK, Uncompacted, AppendOK, SameOutcome,
         AgreesUnder, Logs, LeaderLogs, Commands;
    var gs := RunOK(n, steps);
    assert steps[..|steps|] == steps;
    var s, g := Run(n, steps), gs[|steps|];
    StateNode(n, s, g, x);
    Sizes(g.h);
    InvLogs(g.h);
    var p, snap := s.nodes[x].peer, g.snaps[x];
    NodeLogOK(g.h, snap, s.nodes[x], x);
    NodeSnap(g.h, snap, p, x);
    whole := WholeLogOf(g.h, snap, x);
    WholeIs(g.h, snap, p, x);
    forall m | m in s.msgs && m.AppendReq? && m.to == x
      ensures SameOutcome(p.snapIndex, HandleAppend(p, m.appendArgs), HandleAppend(Whole(p, whole), m.appendArgs))
    {
      RequestOK(n, s, g, m);
      if m.appendArgs.term >= p.term {
        SnapshotAgrees(g.h, snap, p, x, m.from, m.appendArgs);
      }
      HandlersAgree(p, whole, m.appendArgs);
    }
  }

  lemma RequestOK(n: nat, s: State, g: Ghost, m: Msg)
    requires StateOK(n, s, g) && m in s.msgs && m.AppendReq?
    ensures AppendOK(g.h, m.from, m.appendArgs)
  {
    hide Inv, NodeOK, AppendOK;
    assert MsgOK(g.h, s.nodes, m);
  }
}
