/** Nothing is made up: every command in the cluster was submitted by a service. */
module RaftProvenance {
  import opened RaftLog
  import opened RaftPeer
  import opened RaftSystem

  ghost predicate AllIn(cs: seq<Command>, reqs: set<Command>) {
    forall i :: 0 <= i < |cs| ==> cs[i] in reqs
  }

  ghost predicate EntriesIn(l: seq<Entry>, reqs: set<Command>) {
    forall i :: 0 <= i < |l| ==> l[i].command in reqs
  }

  /** A log's entries, without the sentinel. */
  ghost predicate LogIn(l: Log, reqs: set<Command>) {
    forall i :: 0 < i < |l| ==> l[i].command in reqs
  }

  ghost predicate DiskIn(d: Disk, reqs: set<Command>) {
    d.Saved? ==> LogIn(d.log, reqs) && AllIn(d.snapshot, reqs)
  }

  ghost predicate PeerIn(p: Peer, reqs: set<Command>) {
    LogIn(p.log, reqs) && AllIn(p.snapshot, reqs) && DiskIn(p.disk, reqs)
  }

  ghost predicate StreamIn(stream: seq<ApplyMsg>, reqs: set<Command>) {
    forall i :: 0 <= i < |stream| ==>
      match stream[i]
      case CommandMsg(_, c) => c in reqs
      case SnapshotMsg(_, d) => AllIn(d, reqs)
  }

  ghost predicate NodeIn(nd: Node, reqs: set<Command>) {
    PeerIn(nd.peer, reqs) && AllIn(nd.base, reqs) && StreamIn(nd.stream, reqs)
  }

  ghost predicate MsgIn(m: Msg, reqs: set<Command>) {
    && (m.AppendReq? ==> EntriesIn(m.appendArgs.entries, reqs))
    && (m.InstallReq? ==> AllIn(m.installArgs.data, reqs))
  }

  /** Every command anywhere in the cluster is one of `reqs`. */
  ghost predicate StateIn(s: State, reqs: set<Command>) {
    && (forall x :: 0 <= x < |s.nodes| ==> NodeIn(s.nodes[x], reqs))
    && (forall m :: m in s.msgs ==> MsgIn(m, reqs))
  }

  // ---------------------------------------------------------------- handlers

  lemma PersistIn(p: Peer, reqs: set<Command>)
    requires LogIn(p.log, reqs) && AllIn(p.snapshot, reqs)
    ensures PeerIn(Persist(p), reqs)
  {
  }

  lemma ReconciledIn(log: Log, at: nat, entries: seq<Entry>, reqs: set<Command>)
    requires 1 <= at <= |log| && LogIn(log, reqs) && EntriesIn(entries, reqs)
    ensures LogIn(Reconciled(log, at, entries), reqs)
  {
    var d := CommonTerms(log[at..], entries);
    var l := Reconciled(log, at, entries);
    forall i | 0 < i < |l|
      ensures l[i].command in reqs
    {
      if d < |entries| && i >= at + d {
        assert l[i] == entries[i - at];
      }
    }
  }

  lemma TakeEntriesIn(p: Peer, a: AppendArgs, reqs: set<Command>)
    requires p.log != [] && PeerIn(p, reqs) && EntriesIn(a.entries, reqs)
    ensures PeerIn(TakeEntries(p, a).0, reqs)
  {
    hide Reconciled, LogIn;
    if a.prev <= p.snapIndex && p.snapIndex - a.prev < |a.entries| {
      var tail := a.entries[p.snapIndex - a.prev..];
      assert EntriesIn(tail, reqs);
      ReconciledIn(p.log, 1, tail, reqs);
    } else if p.snapIndex < a.prev < LogLength(p) && Get(p, a.prev).term == a.prevTerm {
      ReconciledIn(p.log, a.prev + 1 - p.snapIndex, a.entries, reqs);
    }
  }

  lemma HandleAppendIn(p: Peer, a: AppendArgs, reqs: set<Command>)
    requires p.log != [] && PeerIn(p, reqs) && EntriesIn(a.entries, reqs)
    ensures PeerIn(HandleAppend(p, a).0, reqs)
  {
    hide LogIn, EntriesIn, AllIn, TakeEntries;
    var q := MeetLeader(p, a.term);
    assert PeerIn(q, reqs);
    TakeEntriesIn(q, a, reqs);
  }

  lemma InstallIn(p: Peer, a: InstallArgs, reqs: set<Command>)
    requires PeerIn(p, reqs) && AllIn(a.data, reqs)
    ensures PeerIn(HandleInstall(p, a).0, reqs) && StreamIn(HandleInstall(p, a).2, reqs)
  {
    var q := if a.term > p.term then NewGen(p, a.term) else p;
    assert LogIn(Installed(q, a).log, reqs);
    PersistIn(Installed(q, a), reqs);
  }

  lemma {:induction false} BatchIn(p: Peer, lo: int, hi: int, reqs: set<Command>)
    requires p.snapIndex < lo && hi < LogLength(p) && LogIn(p.log, reqs)
    ensures StreamIn(Batch(p, lo, hi), reqs)
    decreases hi - lo + 1
  {
    if hi >= lo {
      BatchIn(p, lo, hi - 1, reqs);
    }
  }

  lemma {:induction false} ReplayIn(base: seq<Command>, stream: seq<ApplyMsg>, reqs: set<Command>)
    requires AllIn(base, reqs) && StreamIn(stream, reqs)
    ensures AllIn(Replay(base, stream), reqs)
  {
    if stream != [] {
      var before := stream[..|stream| - 1];
      assert StreamIn(before, reqs);
      ReplayIn(base, before, reqs);
    }
  }

  lemma CompactIn(nd: Node, seen: nat, reqs: set<Command>)
    requires NodeIn(nd, reqs) && seen <= |nd.stream|
    requires Position(nd.base, nd.stream[..seen]) < LogLength(nd.peer)
    ensures var consumed := nd.stream[..seen];
            PeerIn(TakeSnapshot(nd.peer, Position(nd.base, consumed), Replay(nd.base, consumed)), reqs)
  {
    hide Replay, Position;
    assert StreamIn(nd.stream[..seen], reqs);
    ReplayIn(nd.base, nd.stream[..seen], reqs);
  }

  // ---------------------------------------------------------------- steps

  lemma SetNodeIn(s: State, s': State, x: nat, reqs: set<Command>)
    requires StateIn(s, reqs) && x < |s.nodes| == |s'.nodes|
    requires s'.nodes == s.nodes[x := s'.nodes[x]] && NodeIn(s'.nodes[x], reqs)
    requires forall m :: m in s'.msgs && m !in s.msgs ==> MsgIn(m, reqs)
    ensures StateIn(s', reqs)
  {
    hide NodeIn, MsgIn;
  }

  lemma ReceiveIn(n: nat, s: State, m: Msg, reqs: set<Command>)
    requires StateIn(s, reqs) && |s.nodes| == n
    ensures StateIn(Next(n, s, Receive(m)), reqs)
  {
    if Safe(n, s, Receive(m)) && m in s.msgs && m.to < n && m.from < n {
      assert NodeIn(s.nodes[m.to], reqs) && MsgIn(m, reqs);
      hide LogIn, AllIn, EntriesIn, StateIn, HandleInstall, TakeEntries;
      var s' := Next(n, s, Receive(m));
      var p := s.nodes[m.to].peer;
      match m
      case VoteReq(_, _, _, _, _) => SetNodeIn(s, s', m.to, reqs);
      case VoteResp(_, _, _, _, _, _) => SetNodeIn(s, s', m.to, reqs);
      case AppendReq(_, _, _, _) =>
        HandleAppendIn(p, m.appendArgs, reqs);
        hide HandleAppend;
        SetNodeIn(s, s', m.to, reqs);
      case AppendResp(_, _, _, _, _) => SetNodeIn(s, s', m.to, reqs);
      case InstallReq(_, _, _, _) =>
        InstallIn(p, m.installArgs, reqs);
        SetNodeIn(s, s', m.to, reqs);
      case InstallResp(_, _, _, _, _) => SetNodeIn(s, s', m.to, reqs);
    }
  }

  lemma ReplicateIn(s: State, x: nat, to: nat, reqs: set<Command>)
    requires StateIn(s, reqs) && x < |s.nodes| && to < |s.nodes| && Safe(|s.nodes|, s, Replicate(x, to))
    ensures StateIn(DoReplicate(s, x, to), reqs)
  {
    var p := s.nodes[x].peer;
    assert NodeIn(s.nodes[x], reqs);
    var s' := DoReplicate(s, x, to);
    forall m | m in s'.msgs && m !in s.msgs
      ensures MsgIn(m, reqs)
    {
    }
    SetNodeIn(s, s', x, reqs);
  }

  /** A step brings in no command except the one a service submits. */
  lemma NextIn(n: nat, s: State, step: Step, reqs: set<Command>)
    requires StateIn(s, reqs) && |s.nodes| == n && (step.Start? ==> step.c in reqs)
    ensures StateIn(Next(n, s, step), reqs)
  {
    if Safe(n, s, step) {
      match step
      case Timeout(x) => if x < n { LocalIn(n, s, step, x, reqs); }
      case AskVote(x, _, _) => if x < n { LocalIn(n, s, step, x, reqs); }
      case Receive(m) => ReceiveIn(n, s, m, reqs);
      case Replicate(x, to) => if x < n && to < n { ReplicateIn(s, x, to, reqs); }
      case Start(x, c) => if x < n { LocalIn(n, s, step, x, reqs); }
      case Deliver(x) => if x < n { DeliverIn(n, s, x, reqs); }
      case Compact(x, seen) => if x < n && seen <= |s.nodes[x].stream| { CompactStepIn(n, s, x, seen, reqs); }
      case Crash(x) => if x < n { LocalIn(n, s, step, x, reqs); }
    }
  }

  lemma LocalIn(n: nat, s: State, step: Step, x: nat, reqs: set<Command>)
    requires StateIn(s, reqs) && |s.nodes| == n && x < n && Safe(n, s, step)
    requires step == Timeout(x) || step == Crash(x) || (step.AskVote? && step.x == x) ||
             (step.Start? && step.x == x && step.c in reqs)
    ensures StateIn(Next(n, s, step), reqs)
  {
    assert NodeIn(s.nodes[x], reqs);
    SetNodeIn(s, Next(n, s, step), x, reqs);
  }

  lemma DeliverIn(n: nat, s: State, x: nat, reqs: set<Command>)
    requires StateIn(s, reqs) && |s.nodes| == n && x < n && Safe(n, s, Deliver(x))
    ensures StateIn(Next(n, s, Deliver(x)), reqs)
  {
    var p := s.nodes[x].peer;
    assert NodeIn(s.nodes[x], reqs);
    if p.commitIndex >= p.lastApplied + 1 {
      BatchIn(p, if p.lastApplied < p.snapIndex then p.snapIndex + 1 else p.lastApplied + 1, p.commitIndex, reqs);
    }
    SetNodeIn(s, Next(n, s, Deliver(x)), x, reqs);
  }

  lemma CompactStepIn(n: nat, s: State, x: nat, seen: nat, reqs: set<Command>)
    requires StateIn(s, reqs) && |s.nodes| == n && x < n && seen <= |s.nodes[x].stream| && Safe(n, s, Compact(x, seen))
    ensures StateIn(Next(n, s, Compact(x, seen)), reqs)
  {
    hide TakeSnapshot, PeerIn;
    assert NodeIn(s.nodes[x], reqs);
    CompactIn(s.nodes[x], seen, reqs);
    SetNodeIn(s, Next(n, s, Compact(x, seen)), x, reqs);
  }

  ghost function Submitted(steps: seq<Step>): set<Command> {
    set i | 0 <= i < |steps| && steps[i].Start? :: steps[i].c
  }

  /** In every run, every command in a log, snapshot, message or stream had been submitted before. */
  lemma {:induction false} OnlySubmitted(n: nat, steps: seq<Step>)
    ensures StateIn(Run(n, steps), Submitted(steps))
  {
    hide StateIn;
    if steps == [] {
      InitIn(n);
      assert Submitted(steps) == {};
    } else {
      var before := steps[..|steps| - 1];
      OnlySubmitted(n, before);
      assert Submitted(before) <= Submitted(steps) by {
        forall c | c in Submitted(before)
          ensures c in Submitted(steps)
        {
          var i :| 0 <= i < |before| && before[i].Start? && before[i].c == c;
          assert steps[i] == before[i];
        }
      }
      MoreIn(Run(n, before), Submitted(before), Submitted(steps));
      NextIn(n, Run(n, before), steps[|steps| - 1], Submitted(steps));
    }
  }

  lemma InitIn(n: nat)
    ensures StateIn(InitState(n), {})
  {
  }

  lemma MoreIn(s: State, a: set<Command>, b: set<Command>)
    requires StateIn(s, a) && a <= b
    ensures StateIn(s, b)
  {
    forall x | 0 <= x < |s.nodes|
      ensures NodeIn(s.nodes[x], b)
    {
      assert NodeIn(s.nodes[x], a);
    }
    forall m | m in s.msgs
      ensures MsgIn(m, b)
    {
      assert MsgIn(m, a);
    }
  }
}
