/**
 Any majority of servers is enough: from every state a run can reach, those servers alone, without
 restarting, can elect a leader, replicate a new command, commit it and hand it to the service.
 */
module RaftAvailability {
  import opened RaftLog
  import opened RaftPeer
  import opened RaftSystem
  import opened RaftCommitSteps
  import opened RaftRules
  import opened RaftTheorems
  import opened RaftElectionSteps
  import opened RaftInvariant
  import opened Consensus
  import RaftFastBackup

  /** The step involves only servers of `q`, neither restarts nor compacts one, and submits nothing. */
  predicate Among(q: set<nat>, step: Step) {
    match step
    case Timeout(x) => x in q
    case AskVote(x, _, to) => x in q && to in q
    case Receive(m) => m.from in q && m.to in q
    case Replicate(x, to) => x in q && to in q
    case Start(_, _) => false
    case Deliver(x) => x in q
    case Compact(_, _) => false
    case Crash(_) => false
  }

  /** The run goes on from `steps` to `end` by the servers of `q` alone. */
  ghost predicate GoesOn(n: nat, q: set<nat>, steps: seq<Step>, end: seq<Step>) {
    && steps <= end && Admissible(n, end)
    && forall i :: |steps| <= i < |end| ==> Among(q, end[i])
  }

  lemma GoesOnTransitive(n: nat, q: set<nat>, a: seq<Step>, b: seq<Step>, c: seq<Step>)
    requires GoesOn(n, q, a, b) && GoesOn(n, q, b, c)
    ensures GoesOn(n, q, a, c)
  {
    hide Admissible, Among;
    forall i | |a| <= i < |c|
      ensures Among(q, c[i])
    {
      if i < |b| {
        assert c[i] == b[i];
      }
    }
  }

  lemma GoesOnSelf(n: nat, q: set<nat>, steps: seq<Step>)
    requires Admissible(n, steps)
    ensures GoesOn(n, q, steps, steps)
  {
  }

  /** The same, with the command `c` submitted on the way to a server of `q`. */
  ghost predicate GoesOnWith(n: nat, q: set<nat>, c: Command, steps: seq<Step>, end: seq<Step>) {
    && steps <= end && Admissible(n, end)
    && forall i :: |steps| <= i < |end| ==> Among(q, end[i]) || (end[i].Start? && end[i].x in q && end[i].c == c)
  }

  /** Before, at and behind the one submission. */
  lemma GoesOnAround(n: nat, q: set<nat>, x: nat, c: Command, a: seq<Step>, b: seq<Step>, d: seq<Step>)
    requires GoesOn(n, q, a, b) && GoesOn(n, q, b + [Start(x, c)], d) && x in q
    ensures GoesOnWith(n, q, c, a, d)
  {
    hide Admissible, Among;
    forall i | |a| <= i < |d|
      ensures Among(q, d[i]) || (d[i].Start? && d[i].x in q && d[i].c == c)
    {
      if i < |b| {
        assert d[i] == b[i];
      } else if i == |b| {
        assert d[i] == (b + [Start(x, c)])[i];
      }
    }
  }

  lemma OneStep(n: nat, q: set<nat>, steps: seq<Step>, step: Step)
    requires Admissible(n, steps) && OnTime(n, Run(n, steps), step) && Among(q, step)
    ensures GoesOn(n, q, steps, steps + [step])
    ensures Run(n, steps + [step]) == Next(n, Run(n, steps), step)
  {
    hide Run, Next, OnTime, Among, Admissible;
    NextAdmissible(n, steps, step);
  }

  lemma NextAdmissible(n: nat, steps: seq<Step>, step: Step)
    requires Admissible(n, steps) && OnTime(n, Run(n, steps), step)
    ensures Admissible(n, steps + [step]) && Run(n, steps + [step]) == Next(n, Run(n, steps), step)
  {
    hide Next, OnTime;
    var end := steps + [step];
    assert end[..|steps|] == steps;
    if n > 3 {
      forall i | 0 <= i < |end|
        ensures OnTime(n, Run(n, end[..i]), end[i])
      {
        assert i < |steps| ==> end[..i] == steps[..i] && OnTime(n, Run(n, steps[..i]), steps[i]);
      }
    }
  }

  // ---------------------------------------------------------------- exchanges of messages

  /** A leader sends entries, the follower handles them, and the leader handles the reply. */
  lemma AppendExchange(n: nat, s: State, x: nat, y: nat)
    requires |s.nodes| == n && x < n && y < n && x != y && s.nodes[y].peer.log != []
    requires var p := s.nodes[x].peer;
             && p.role == Leader && p.log != [] && |p.nextIndex| == |p.matchIndex| == n
             && p.snapIndex <= p.nextIndex[y] - 1 < LogLength(p)
    ensures var p, q := s.nodes[x].peer, s.nodes[y].peer;
            var a := MakeAppendArgs(p, x, p.nextIndex[y] - 1);
            var (q', r) := HandleAppend(q, a);
            var b := s.nodes[x].boots;
            var s' := Next(n, Next(n, Next(n, s, Replicate(x, y)), Receive(AppendReq(x, y, b, a))),
                           Receive(AppendResp(y, x, b, a, r)));
            s'.nodes == s.nodes[y := s.nodes[y].(peer := q')]
                               [x := s.nodes[x].(peer := HandleAppendReply(p, x, y, a, r))]
  {
    hide HandleAppend, HandleAppendReply, MakeAppendArgs;
  }

  /** A leader sends its snapshot. */
  lemma InstallExchange(n: nat, s: State, x: nat, y: nat)
    requires |s.nodes| == n && x < n && y < n && x != y && s.nodes[y].peer.log != []
    requires var p := s.nodes[x].peer;
             && p.role == Leader && p.log != [] && |p.nextIndex| == |p.matchIndex| == n
             && p.nextIndex[y] - 1 < p.snapIndex
    ensures var p, nd := s.nodes[x].peer, s.nodes[y];
            var a := MakeInstallArgs(p, x);
            var (q', t, out) := HandleInstall(nd.peer, a);
            var b := s.nodes[x].boots;
            var s' := Next(n, Next(n, Next(n, s, Replicate(x, y)), Receive(InstallReq(x, y, b, a))),
                           Receive(InstallResp(y, x, b, a, t)));
            s'.nodes == s.nodes[y := nd.(peer := q', stream := nd.stream + out)]
                               [x := s.nodes[x].(peer := HandleInstallReply(p, y, a, t))]
  {
    hide HandleInstall, HandleInstallReply, MakeInstallArgs;
  }

  /** One goroutine of a round asks, the other server answers, and the goroutine counts. */
  lemma VoteExchange(n: nat, s: State, x: nat, r: nat, y: nat)
    requires |s.nodes| == n && x < n && y < n && x != y && s.nodes[x].peer.log != [] && s.nodes[y].peer.log != []
    requires var nd := s.nodes[x]; r < |nd.rounds| && |nd.rounds[r].calls| == n && nd.rounds[r].calls[y] == Idle
    ensures var nd, p, q := s.nodes[x], s.nodes[x].peer, s.nodes[y].peer;
            var (q', v) := HandleVote(q, MakeVoteArgs(p, x));
            var s1 := Next(n, s, AskVote(x, r, y));
            var s2 := Next(n, s1, Receive(VoteReq(x, y, nd.boots, r, MakeVoteArgs(p, x))));
            var m := VoteResp(y, x, nd.boots, r, p.term, v);
            && m in s2.msgs && s2.nodes[x].rounds[r].calls[y] == Asked(p.term)
            && s2.nodes == s.nodes[y := s.nodes[y].(peer := q')][x := nd.(rounds := s2.nodes[x].rounds)]
            && |s2.nodes[x].rounds| == |nd.rounds|
            && s2.nodes[x].rounds[r] == nd.rounds[r].(calls := nd.rounds[r].calls[y := Asked(p.term)])
  {
    hide HandleVote;
  }

  /** The last of the three steps, when the vote is granted in the term the server stands in. */
  lemma VoteCounted(n: nat, s: State, m: Msg)
    requires |s.nodes| == n && m in s.msgs && m.VoteResp? && m.to < n && m.from < n
    requires var nd := s.nodes[m.to];
             && nd.peer.log != [] && nd.peer.role == Candidate && m.boots == nd.boots && m.round < |nd.rounds|
             && m.from < |nd.rounds[m.round].calls| && nd.rounds[m.round].calls[m.from] == Asked(m.asked)
             && m.voteReply.granted && m.voteReply.term <= nd.peer.term == m.asked
    ensures var nd, rd := s.nodes[m.to], s.nodes[m.to].rounds[m.round];
            var rd' := rd.(supporter := rd.supporter + 1, calls := rd.calls[m.from := Counted]);
            var p' := if 2 * (rd.supporter + 1) > n then BecomeLeader(nd.peer, m.to, n) else nd.peer;
            Next(n, s, Receive(m)).nodes == s.nodes[m.to := nd.(peer := p', rounds := nd.rounds[m.round := rd'])]
  {
    hide BecomeLeader;
  }

  // ---------------------------------------------------------------- in a run

  /** What every server of a run is like, as far as the exchanges need it. */
  ghost predicate Sane(n: nat, p: Peer) {
    && p.log != [] && p.commitIndex < LogLength(p) && p.lastApplied <= p.commitIndex
    && (p.role == Leader ==>
          |p.nextIndex| == |p.matchIndex| == n && forall i :: 0 <= i < n ==> p.nextIndex[i] - 1 < LogLength(p))
  }

  lemma RunSane(n: nat, steps: seq<Step>, x: nat)
    requires Admissible(n, steps) && x < n
    ensures Sane(n, Run(n, steps).nodes[x].peer)
  {
    hide StateOK, Grows, Inv, Shape, NodeOK, Run, Admissible;
    var gs := RunOK(n, steps);
    assert steps[..|steps|] == steps;
    var s, g := Run(n, steps), gs[|steps|];
    StateNode(n, s, g, x);
    NodeSafe(g.h, g.snaps[x], s.nodes[x], x);
    NodeApplied(g.h, g.snaps[x], s.nodes[x], x);
  }

  lemma NodeApplied(h: History, snap: Log, nd: Node, x: nat)
    requires Shape(h) && x < h.n && NodeOK(h, snap, nd, x)
    ensures nd.peer.lastApplied <= nd.peer.commitIndex
  {
    hide Shape, LogOK, VoteOK, RoleOK, RoundsOK, StreamOK;
  }

  /** An append exchange as three steps of a run. */
  lemma AppendRound(n: nat, q: set<nat>, steps: seq<Step>, x: nat, y: nat) returns (end: seq<Step>)
    requires Admissible(n, steps) && x in q && y in q && x < n && y < n && x != y
    requires var p := Run(n, steps).nodes[x].peer;
             p.role == Leader && |p.nextIndex| == n && p.snapIndex < p.nextIndex[y]
    ensures GoesOn(n, q, steps, end)
    ensures var s := Run(n, steps);
            var p := s.nodes[x].peer;
            && InRange(p, p.nextIndex[y] - 1) && s.nodes[y].peer.log != [] && |p.matchIndex| == n
            && var a := MakeAppendArgs(p, x, p.nextIndex[y] - 1);
               var (q', r) := HandleAppend(s.nodes[y].peer, a);
               Run(n, end).nodes == s.nodes[y := s.nodes[y].(peer := q')]
                                           [x := s.nodes[x].(peer := HandleAppendReply(p, x, y, a, r))]
  {
    hide Run, Next, Admissible, HandleAppend, HandleAppendReply, GoesOn;
    RunSane(n, steps, x);
    RunSane(n, steps, y);
    var s := Run(n, steps);
    AppendExchange(n, s, x, y);
    var p, b := s.nodes[x].peer, s.nodes[x].boots;
    var a := MakeAppendArgs(p, x, p.nextIndex[y] - 1);
    var r := HandleAppend(s.nodes[y].peer, a).1;
    end := ThreeSteps(n, q, steps, Replicate(x, y), Receive(AppendReq(x, y, b, a)), Receive(AppendResp(y, x, b, a, r)));
  }

  lemma InstallRound(n: nat, q: set<nat>, steps: seq<Step>, x: nat, y: nat) returns (end: seq<Step>)
    requires Admissible(n, steps) && x in q && y in q && x < n && y < n && x != y
    requires var p := Run(n, steps).nodes[x].peer;
             p.role == Leader && |p.nextIndex| == n && p.nextIndex[y] <= p.snapIndex
    ensures GoesOn(n, q, steps, end)
    ensures var s := Run(n, steps);
            var p, nd := s.nodes[x].peer, s.nodes[y];
            && p.log != [] && |p.matchIndex| == n && nd.peer.log != []
            && var a := MakeInstallArgs(p, x);
               var (q', t, out) := HandleInstall(nd.peer, a);
               Run(n, end).nodes == s.nodes[y := nd.(peer := q', stream := nd.stream + out)]
                                           [x := s.nodes[x].(peer := HandleInstallReply(p, y, a, t))]
  {
    hide Run, Next, Admissible, HandleInstall, HandleInstallReply, GoesOn;
    RunSane(n, steps, x);
    RunSane(n, steps, y);
    var s := Run(n, steps);
    InstallExchange(n, s, x, y);
    var p, b := s.nodes[x].peer, s.nodes[x].boots;
    var a := MakeInstallArgs(p, x);
    var t := HandleInstall(s.nodes[y].peer, a).1;
    end := ThreeSteps(n, q, steps, Replicate(x, y), Receive(InstallReq(x, y, b, a)),
      Receive(InstallResp(y, x, b, a, t)));
  }

  lemma ThreeSteps(n: nat, q: set<nat>, steps: seq<Step>, a: Step, b: Step, c: Step) returns (end: seq<Step>)
    requires Admissible(n, steps) && Among(q, a) && Among(q, b) && Among(q, c)
    requires !IsVote(a) && !IsVote(b) && !IsVote(c)
    ensures GoesOn(n, q, steps, end)
    ensures Run(n, end) == Next(n, Next(n, Next(n, Run(n, steps), a), b), c)
  {
    hide Run, Next, Among;
    OneStep(n, q, steps, a);
    OneStep(n, q, steps + [a], b);
    OneStep(n, q, steps + [a] + [b], c);
    end := steps + [a] + [b] + [c];
    GoesOnTransitive(n, q, steps, steps + [a], steps + [a] + [b]);
    GoesOnTransitive(n, q, steps, steps + [a] + [b], end);
  }

  predicate IsVote(step: Step) { step.Receive? && step.m.VoteResp? }

  // ---------------------------------------------------------------- a leader catches a follower up

  /** Server `x` leads, and no server of `q` is in a later term. */
  ghost predicate Leads(n: nat, s: State, q: set<nat>, x: nat)
    requires |s.nodes| == n
  {
    && x in q && (forall z :: z in q ==> z < n) && s.nodes[x].peer.role == Leader
    && (forall z :: z in q ==> s.nodes[z].peer.term <= s.nodes[x].peer.term)
  }

  /** The leader that asks is not part of what the follower does. */
  lemma LeaderField(q: Peer, a: AppendArgs)
    requires q.log != []
    ensures TakeEntries(q, a) == TakeEntries(q, a.(leader := 0))
  {
  }

  lemma AgreeableSame(p: Peer, q: Peer, q': Peer)
    requires RaftFastBackup.Agreeable(p, q) && q'.log == q.log && q'.snapIndex == q.snapIndex
    ensures RaftFastBackup.Agreeable(p, q')
  {
    assert forall i :: InRange(q, i) ==> Get(q', i) == Get(q, i);
  }

  /** A rejection by a server that is not in a later term makes the leader go back. */
  lemma RejectionGoesBack(n: nat, steps: seq<Step>, x: nat, y: nat, ni: int)
    requires Admissible(n, steps) && x < n && y < n && Run(n, steps).nodes[x].peer.role == Leader
    requires var p, q := Run(n, steps).nodes[x].peer, Run(n, steps).nodes[y].peer;
             && q.log != [] && q.term <= p.term && p.snapIndex < ni <= LogLength(p)
             && !HandleAppend(q, MakeAppendArgs(p, x, ni - 1)).1.success
    ensures var p, q := Run(n, steps).nodes[x].peer, Run(n, steps).nodes[y].peer;
            SteppedBack(p, HandleAppend(q, MakeAppendArgs(p, x, ni - 1)).1) < ni
  {
    hide Run, Admissible, TakeEntries, SteppedBack, RaftFastBackup.Agreeable;
    var p, q := Run(n, steps).nodes[x].peer, Run(n, steps).nodes[y].peer;
    RaftFastBackup.FastBackup(n, steps, x, y, ni);
    var q' := MeetLeader(q, p.term);
    AgreeableSame(p, q, q');
    LeaderField(q', MakeAppendArgs(p, x, ni - 1));
    RaftFastBackup.RejectionLowers(p, q', ni);
  }

  /** What one append exchange does to the leader and to the follower's term. */
  lemma ExchangeOutcome(p: Peer, x: nat, q: Peer, y: nat)
    requires p.role == Leader && q.log != [] && q.term <= p.term && y < |p.nextIndex| && y < |p.matchIndex|
    requires InRange(p, p.nextIndex[y] - 1)
    ensures var a := MakeAppendArgs(p, x, p.nextIndex[y] - 1);
            var (q', r) := HandleAppend(q, a);
            var p' := HandleAppendReply(p, x, y, a, r);
            && q'.term == p.term
            && (!r.success ==> p' == p.(nextIndex := p.nextIndex[y := SteppedBack(p, r)]))
            && (r.success ==> Caught(p, x, p', y))
  {
    hide HandleAppend, SteppedBack, HandleAppendReply, MakeAppendArgs, Caught;
    var a := MakeAppendArgs(p, x, p.nextIndex[y] - 1);
    var r := HandleAppend(q, a).1;
    SentTerm(p, x, p.nextIndex[y] - 1);
    AppendRoles(q, a);
    RejectedReply(p, x, y, a, r);
    if r.success {
      SuccessCatches(p, x, y, p.nextIndex[y] - 1, r);
    }
  }

  lemma SentTerm(p: Peer, x: nat, prev: int)
    requires InRange(p, prev)
    ensures var a := MakeAppendArgs(p, x, prev); a.term == p.term && a.prev + |a.entries| == LogLength(p) - 1
  {
  }

  lemma SuccessCatches(p: Peer, x: nat, y: nat, prev: int, r: AppendReply)
    requires p.role == Leader && y < |p.nextIndex| && y < |p.matchIndex| && InRange(p, prev)
    requires r.success && r.term <= p.term
    ensures Caught(p, x, HandleAppendReply(p, x, y, MakeAppendArgs(p, x, prev), r), y)
  {
    hide OwnMajority, HandleAppendReply, MakeAppendArgs;
    var a := MakeAppendArgs(p, x, prev);
    SentTerm(p, x, prev);
    ReplyExact(p, x, y, a, r);
    var p' := HandleAppendReply(p, x, y, a, r);
    SameMajority(p.(matchIndex := p'.matchIndex, nextIndex := p'.nextIndex), p', x);
  }

  lemma RejectedReply(p: Peer, x: nat, y: nat, a: AppendArgs, r: AppendReply)
    requires y < |p.nextIndex| && y < |p.matchIndex| && p.role == Leader
    ensures r.term <= p.term == a.term && !r.success ==>
              HandleAppendReply(p, x, y, a, r) == p.(nextIndex := p.nextIndex[y := SteppedBack(p, r)])
  {
    hide SteppedBack;
  }

  lemma SameMajority(p: Peer, q: Peer, x: nat)
    requires q == p.(commitIndex := q.commitIndex)
    ensures forall j :: OwnMajority(p, x, j) <==> OwnMajority(q, x, j)
  {
    forall j
      ensures OwnMajority(p, x, j) <==> OwnMajority(q, x, j)
    {
      assert Holders(p, x, j, |p.matchIndex|) == Holders(q, x, j, |q.matchIndex|);
    }
  }

  /** The leader knows that `y` holds its whole log, and has committed what a majority holds. */
  ghost predicate Caught(p: Peer, x: nat, p': Peer, y: nat) {
    && y < |p.matchIndex|
    && p' == p.(matchIndex := p.matchIndex[y := LogLength(p) - 1], nextIndex := p'.nextIndex,
                commitIndex := p'.commitIndex)
    && forall j :: OwnMajority(p', x, j) ==> j <= p'.commitIndex
  }

  /** Only `x` and `y` have changed, and at `x` only what it knows of `y` and of commitment. */
  ghost predicate CaughtUp(n: nat, s: State, s': State, q: set<nat>, x: nat, y: nat)
    requires |s.nodes| == n == |s'.nodes|
  {
    && Leads(n, s', q, x) && x < n && y < n
    && s'.nodes == s.nodes[y := s'.nodes[y]][x := s.nodes[x].(peer := s'.nodes[x].peer)]
    && Caught(s.nodes[x].peer, x, s'.nodes[x].peer, y)
  }

  lemma NowCaughtUp(n: nat, s: State, s': State, q: set<nat>, x: nat, y: nat)
    requires |s.nodes| == n == |s'.nodes| && Leads(n, s, q, x) && y in q && y != x
    requires s'.nodes == s.nodes[y := s'.nodes[y]][x := s.nodes[x].(peer := s'.nodes[x].peer)]
    requires Caught(s.nodes[x].peer, x, s'.nodes[x].peer, y) && s'.nodes[y].peer.term <= s.nodes[x].peer.term
    ensures CaughtUp(n, s, s', q, x, y)
  {
    hide OwnMajority;
  }

  /** However far the leader has to go back, it brings a server of its majority up to its own log. */
  lemma {:induction false} CatchUp(n: nat, q: set<nat>, steps: seq<Step>, x: nat, y: nat) returns (end: seq<Step>)
    requires Admissible(n, steps) && Leads(n, Run(n, steps), q, x) && y in q && y != x
    requires |Run(n, steps).nodes[x].peer.nextIndex| == n
    ensures GoesOn(n, q, steps, end) && CaughtUp(n, Run(n, steps), Run(n, end), q, x, y)
    decreases Max(0, Run(n, steps).nodes[x].peer.nextIndex[y])
  {
    hide Run, Admissible, GoesOn, HandleAppend, HandleAppendReply, Caught, SteppedBack, HandleInstall, MakeAppendArgs;
    var s := Run(n, steps);
    var p := s.nodes[x].peer;
    RunSane(n, steps, x);
    RunSane(n, steps, y);
    if p.nextIndex[y] <= p.snapIndex {
      end := CatchUpBySnapshot(n, q, steps, x, y);
    } else {
      var more := AppendRound(n, q, steps, x, y);
      ExchangeOutcome(p, x, s.nodes[y].peer, y);
      var a := MakeAppendArgs(p, x, p.nextIndex[y] - 1);
      if HandleAppend(s.nodes[y].peer, a).1.success {
        end := more;
        NowCaughtUp(n, s, Run(n, end), q, x, y);
      } else {
        RejectionGoesBack(n, steps, x, y, p.nextIndex[y]);
        GoesOnAdmissible(n, q, steps, more);
        end := CatchUp(n, q, more, x, y);
        GoesOnTransitive(n, q, steps, more, end);
        CaughtLater(p, Run(n, more).nodes[x].peer, x, Run(n, end).nodes[x].peer, y);
        NowCaughtUp(n, s, Run(n, end), q, x, y);
      }
    }
  }

  lemma GoesOnAdmissible(n: nat, q: set<nat>, steps: seq<Step>, end: seq<Step>)
    requires GoesOn(n, q, steps, end)
    ensures Admissible(n, end)
  {
  }

  /** What the leader knew of `y` before does not matter. */
  lemma CaughtLater(p: Peer, p1: Peer, x: nat, p2: Peer, y: nat)
    requires y < |p.matchIndex| && y < |p.nextIndex| && Caught(p1, x, p2, y)
    requires p1 == p.(nextIndex := p1.nextIndex, matchIndex := p.matchIndex[y := p1.matchIndex[y]])
    ensures Caught(p, x, p2, y) && p2.term == p.term
  {
    hide OwnMajority;
  }

  lemma CatchUpBySnapshot(n: nat, q: set<nat>, steps: seq<Step>, x: nat, y: nat) returns (end: seq<Step>)
    requires Admissible(n, steps) && Leads(n, Run(n, steps), q, x) && y in q && y != x
    requires var p := Run(n, steps).nodes[x].peer; |p.nextIndex| == n && p.nextIndex[y] <= p.snapIndex
    ensures GoesOn(n, q, steps, end) && CaughtUp(n, Run(n, steps), Run(n, end), q, x, y)
  {
    hide Run, Admissible, GoesOn, HandleAppend, HandleAppendReply, Caught, SteppedBack, HandleInstall, MakeAppendArgs,
         HandleInstallReply, MakeInstallArgs;
    var s := Run(n, steps);
    var p := s.nodes[x].peer;
    var more := InstallRound(n, q, steps, x, y);
    SentSnapshot(p, x);
    InstallExact(s.nodes[y].peer, MakeInstallArgs(p, x));
    InstallCatchesUp(p, x, s.nodes[y].peer, y);
    GoesOnAdmissible(n, q, steps, more);
    var s1 := Run(n, more);
    var p1 := s1.nodes[x].peer;
    end := AppendRound(n, q, more, x, y);
    ExchangeOutcome(p1, x, s1.nodes[y].peer, y);
    GoesOnTransitive(n, q, steps, more, end);
    CaughtLater(p, p1, x, Run(n, end).nodes[x].peer, y);
    NowCaughtUp(n, s, Run(n, end), q, x, y);
  }

  lemma SentSnapshot(p: Peer, x: nat)
    requires p.log != []
    ensures MakeInstallArgs(p, x).term == p.term
  {
  }

  /** The leader does so for every server of `todo`. */
  lemma {:induction false} CatchUpAll(n: nat, q: set<nat>, steps: seq<Step>, x: nat, todo: set<nat>)
      returns (end: seq<Step>)
    requires Admissible(n, steps) && Leads(n, Run(n, steps), q, x) && todo <= q - {x}
    ensures GoesOn(n, q, steps, end) && Leads(n, Run(n, end), q, x) && x < n
    ensures AllCaught(n, Run(n, steps).nodes[x], Run(n, end).nodes[x], x, todo)
    decreases |todo|
  {
    hide Run, Admissible, GoesOn, CaughtUp, AllCaught;
    RunSane(n, steps, x);
    if todo == {} {
      end := steps;
      GoesOnSelf(n, q, steps);
      NoneCaught(n, Run(n, steps).nodes[x], x);
    } else {
      var y :| y in todo;
      var before := CatchUpAll(n, q, steps, x, todo - {y});
      GoesOnAdmissible(n, q, steps, before);
      RunSane(n, before, x);
      end := CatchUp(n, q, before, x, y);
      GoesOnTransitive(n, q, steps, before, end);
      OneMoreCaught(n, Run(n, steps).nodes[x], Run(n, before), Run(n, end), q, x, y, todo);
    }
  }

  /** From `nd` to `nd'` the leader has learnt that all of `todo` hold its log, and has counted them. */
  ghost predicate AllCaught(n: nat, nd: Node, nd': Node, x: nat, todo: set<nat>) {
    var p, p' := nd.peer, nd'.peer;
    && |p.matchIndex| == |p'.matchIndex| == n && nd' == nd.(peer := p')
    && p' == p.(matchIndex := p'.matchIndex, nextIndex := p'.nextIndex, commitIndex := p'.commitIndex)
    && (forall y :: y in todo ==> y < n && p'.matchIndex[y] == LogLength(p) - 1)
    && (todo != {} ==> forall j :: OwnMajority(p', x, j) ==> j <= p'.commitIndex)
  }

  lemma NoneCaught(n: nat, nd: Node, x: nat)
    requires |nd.peer.matchIndex| == n
    ensures AllCaught(n, nd, nd, x, {})
  {
  }

  lemma OneMoreCaught(n: nat, nd: Node, s: State, s': State, q: set<nat>, x: nat, y: nat, todo: set<nat>)
    requires |s.nodes| == n == |s'.nodes| && x < n && CaughtUp(n, s, s', q, x, y) && y in todo && y != x
    requires AllCaught(n, nd, s.nodes[x], x, todo - {y})
    ensures AllCaught(n, nd, s'.nodes[x], x, todo) && Leads(n, s', q, x)
  {
    hide OwnMajority, Leads;
    LeadsStill(n, s, s', q, x, y);
    var p, p1, p' := nd.peer, s.nodes[x].peer, s'.nodes[x].peer;
    assert p'.matchIndex == p1.matchIndex[y := LogLength(p) - 1];
    forall z | z in todo
      ensures z < n && p'.matchIndex[z] == LogLength(p) - 1
    {
      assert z != y ==> z in todo - {y};
    }
  }

  lemma LeadsStill(n: nat, s: State, s': State, q: set<nat>, x: nat, y: nat)
    requires |s.nodes| == n == |s'.nodes| && CaughtUp(n, s, s', q, x, y)
    ensures Leads(n, s', q, x)
  {
  }

  // ---------------------------------------------------------------- a leader commits

  /** The leader takes a command, brings its majority up to it, and so commits it and hands it over. */
  lemma Commits(n: nat, q: set<nat>, steps: seq<Step>, x: nat, c: Command) returns (end: seq<Step>)
    requires Admissible(n, steps) && Quorum(q, n) && n >= 2 && Leads(n, Run(n, steps), q, x)
    ensures GoesOn(n, q, steps + [Start(x, c)], end) && HandedOver(Run(n, end), x, c)
  {
    hide Run, Admissible, GoesOn, AllCaught, HandedOver, Next;
    RunSane(n, steps, x);
    var s := Run(n, steps);
    NextAdmissible(n, steps, Start(x, c));
    var started := steps + [Start(x, c)];
    StartEffect(n, s, q, x, c);
    var s1 := Run(n, started);
    OthersNeeded(q, n, x);
    var caught := CatchUpAll(n, q, started, x, q - {x});
    GoesOnAdmissible(n, q, started, caught);
    RunSane(n, caught, x);
    LastCommitted(n, s1.nodes[x], Run(n, caught).nodes[x], q, x);
    OneStep(n, q, caught, Deliver(x));
    end := caught + [Deliver(x)];
    GoesOnTransitive(n, q, started, caught, end);
    DeliverEffect(n, Run(n, caught), x, c);
  }

  /** The last message for the service of `x` is the command. */
  predicate HandedOver(s: State, x: nat, c: Command) {
    x < |s.nodes| && s.nodes[x].stream != [] &&
    var m := s.nodes[x].stream[|s.nodes[x].stream| - 1];
    m.CommandMsg? && m.command == c
  }

  lemma OthersNeeded(q: set<nat>, n: nat, x: nat)
    requires Quorum(q, n) && n >= 2 && x in q
    ensures q - {x} != {}
  {
    assert q == (q - {x}) + {x};
  }

  /** After `Start` the command is the last entry, of the leader's term, and nothing of it is applied. */
  lemma StartEffect(n: nat, s: State, q: set<nat>, x: nat, c: Command)
    requires |s.nodes| == n && Leads(n, s, q, x) && Sane(n, s.nodes[x].peer)
    ensures var s' := Next(n, s, Start(x, c));
            var p := s'.nodes[x].peer;
            && Leads(n, s', q, x) && |p.log| >= 2 && p.log[|p.log| - 1] == Entry(p.term, c)
            && p.lastApplied < LogLength(p) - 1
  {
  }

  /** When all of a majority hold the leader's last entry, and it is of the leader's term, it is committed. */
  lemma LastCommitted(n: nat, nd: Node, nd': Node, q: set<nat>, x: nat)
    requires Quorum(q, n) && x in q && q - {x} != {} && AllCaught(n, nd, nd', x, q - {x})
    requires |nd.peer.log| >= 2 && nd.peer.log[|nd.peer.log| - 1].term == nd.peer.term
    requires Sane(n, nd'.peer)
    ensures nd'.peer.commitIndex == LogLength(nd.peer) - 1 && nd'.peer.log == nd.peer.log
    ensures nd'.peer.snapIndex == nd.peer.snapIndex && nd'.peer.lastApplied == nd.peer.lastApplied
  {
    var p' := nd'.peer;
    var last := LogLength(p') - 1;
    var h := Holders(p', x, last, n);
    forall y | y in q
      ensures y in h
    {
      assert y != x ==> y in q - {x};
    }
    SubsetSmaller(q, h);
    assert OwnMajority(p', x, last);
  }

  lemma SubsetSmaller(a: set<nat>, b: set<nat>)
    requires forall y :: y in a ==> y in b
    ensures |a| <= |b|
  {
    assert b == a + (b - a);
  }

  lemma DeliverEffect(n: nat, s: State, x: nat, c: Command)
    requires |s.nodes| == n && x < n
    requires var p := s.nodes[x].peer;
             && |p.log| >= 2 && p.commitIndex == LogLength(p) - 1 && p.lastApplied < p.commitIndex
             && p.log[|p.log| - 1].command == c
    ensures HandedOver(Next(n, s, Deliver(x)), x, c)
  {
    hide HandleKick;
    KickExact(s.nodes[x].peer);
  }

  // ---------------------------------------------------------------- a majority elects

  /** The last entry's term and index. */
  predicate AtLeast(p: Peer, q: Peer)
    requires p.log != [] && q.log != []
  {
    UpToDate(Last(p.log).term, LogLength(p) - 1, Last(q.log).term, LogLength(q) - 1)
  }

  /** Some server's log is at least as up to date as any other's. */
  lemma {:induction false} BestLog(nodes: seq<Node>, q: set<nat>) returns (x: nat)
    requires q != {} && forall z :: z in q ==> z < |nodes| && nodes[z].peer.log != []
    ensures x in q && forall z :: z in q ==> AtLeast(nodes[x].peer, nodes[z].peer)
    decreases |q|
  {
    var y :| y in q;
    var rest := q - {y};
    if rest == {} {
      x := y;
      assert q == {y};
    } else {
      var best := BestLog(nodes, rest);
      x := if AtLeast(nodes[y].peer, nodes[best].peer) then y else best;
      forall z | z in q
        ensures AtLeast(nodes[x].peer, nodes[z].peer)
      {
        assert z != y ==> z in rest && AtLeast(nodes[best].peer, nodes[z].peer);
      }
    }
  }

  lemma {:induction false} LatestTerm(nodes: seq<Node>, q: set<nat>) returns (t: int)
    requires forall z :: z in q ==> z < |nodes|
    ensures forall z :: z in q ==> nodes[z].peer.term <= t
    decreases |q|
  {
    t := 0;
    if q != {} {
      var y :| y in q;
      var rest := LatestTerm(nodes, q - {y});
      t := Max(rest, nodes[y].peer.term);
      assert forall z :: z in q && z != y ==> z in q - {y};
    }
  }

  /** Server `x` stands in round `r`, and the servers of `todo` have not been asked and would grant their votes. */
  ghost predicate Stands(n: nat, s: State, x: nat, r: nat, todo: set<nat>)
    requires |s.nodes| == n
  {
    && x < n && s.nodes[x].peer.role == Candidate && s.nodes[x].peer.log != []
    && r < |s.nodes[x].rounds| && s.nodes[x].rounds[r].term == s.nodes[x].peer.term
    && |s.nodes[x].rounds[r].calls| == n
    && forall y :: y in todo ==>
         && y < n && y != x && s.nodes[x].rounds[r].calls[y] == Idle && s.nodes[y].peer.log != []
         && s.nodes[y].peer.term < s.nodes[x].peer.term && AtLeast(s.nodes[x].peer, s.nodes[y].peer)
  }

  /** The election timer fires until the server is in a later term than `t`. */
  lemma {:induction false} Campaign(n: nat, q: set<nat>, steps: seq<Step>, x: nat, t: int) returns (end: seq<Step>)
    requires Admissible(n, steps) && x in q && x < n && Run(n, steps).nodes[x].peer.role != Leader
    ensures GoesOn(n, q, steps, end)
    ensures var nd, nd' := Run(n, steps).nodes[x], Run(n, end).nodes[x];
            && Run(n, end).nodes == Run(n, steps).nodes[x := nd'] && nd'.rounds != []
            && nd'.peer.role == Candidate && nd'.peer.term > t && nd'.peer.log == nd.peer.log
            && nd'.peer.snapIndex == nd.peer.snapIndex
            && nd'.rounds[|nd'.rounds| - 1] == Round(nd'.peer.term, 1, seq(n, _ => Idle))
    decreases Max(0, t - Run(n, steps).nodes[x].peer.term)
  {
    hide Run, Admissible, GoesOn;
    OneStep(n, q, steps, Timeout(x));
    var more := steps + [Timeout(x)];
    GoesOnAdmissible(n, q, steps, more);
    if Run(n, more).nodes[x].peer.term > t {
      end := more;
    } else {
      end := Campaign(n, q, more, x, t);
      GoesOnTransitive(n, q, steps, more, end);
    }
  }

  /** What a granted vote of `y` leaves behind. */
  ghost predicate Voted(n: nat, s: State, s': State, x: nat, r: nat, todo: set<nat>, y: nat)
    requires |s.nodes| == n == |s'.nodes| && x < n && y < n && r < |s.nodes[x].rounds|
  {
    var rd := s.nodes[x].rounds[r];
    && (forall z :: 0 <= z < n && z != x && z != y ==> s'.nodes[z] == s.nodes[z])
    && s'.nodes[y].peer.term == s'.nodes[x].peer.term == s.nodes[x].peer.term
    && (2 * (rd.supporter + 1) > n ==> s'.nodes[x].peer.role == Leader)
    && (2 * (rd.supporter + 1) <= n ==>
          Stands(n, s', x, r, todo - {y}) && s'.nodes[x].rounds[r].supporter == rd.supporter + 1)
  }

  lemma VoteEffect(n: nat, s: State, s2: State, x: nat, r: nat, todo: set<nat>, y: nat, m: Msg)
    requires |s.nodes| == n == |s2.nodes| && Stands(n, s, x, r, todo) && y in todo && m in s2.msgs
    requires m.VoteResp? && m == VoteResp(y, x, s.nodes[x].boots, r, s.nodes[x].peer.term, m.voteReply)
    requires m.voteReply.granted && m.voteReply.term == s.nodes[x].peer.term
    requires var nd := s.nodes[x];
             && s2.nodes == s.nodes[y := s2.nodes[y]][x := nd.(rounds := s2.nodes[x].rounds)]
             && s2.nodes[y].peer.term == nd.peer.term && |s2.nodes[x].rounds| == |nd.rounds|
             && s2.nodes[x].rounds[r] == nd.rounds[r].(calls := nd.rounds[r].calls[y := Asked(nd.peer.term)])
    ensures Voted(n, s, Next(n, s2, Receive(m)), x, r, todo, y)
  {
    hide Next, AtLeast, BecomeLeader;
    VoteCounted(n, s2, m);
    LeaderIs(s.nodes[x].peer, x, n);
  }

  lemma LeaderIs(p: Peer, x: nat, n: nat)
    ensures BecomeLeader(p, x, n).role == Leader && BecomeLeader(p, x, n).term == p.term
  {
  }

  /** One server of `todo` is asked and grants its vote. */
  lemma OneVote(n: nat, q: set<nat>, steps: seq<Step>, x: nat, r: nat, todo: set<nat>, y: nat) returns (end: seq<Step>)
    requires Admissible(n, steps) && Stands(n, Run(n, steps), x, r, todo) && y in todo && x in q && y in q
    ensures GoesOn(n, q, steps, end) && Voted(n, Run(n, steps), Run(n, end), x, r, todo, y)
  {
    hide Run, Admissible, GoesOn, HandleVote, Voted, Next, MakeVoteArgs, AtLeast;
    var s := Run(n, steps);
    var p, b := s.nodes[x].peer, s.nodes[x].boots;
    var a := MakeVoteArgs(p, x);
    var v := HandleVote(s.nodes[y].peer, a).1;
    Granted(p, x, s.nodes[y].peer);
    VoteExchange(n, s, x, r, y);
    OneStep(n, q, steps, AskVote(x, r, y));
    var s1 := steps + [AskVote(x, r, y)];
    GoesOnAdmissible(n, q, steps, s1);
    OneStep(n, q, s1, Receive(VoteReq(x, y, b, r, a)));
    var s2 := s1 + [Receive(VoteReq(x, y, b, r, a))];
    GoesOnTransitive(n, q, steps, s1, s2);
    GoesOnAdmissible(n, q, steps, s2);
    var m := VoteResp(y, x, b, r, p.term, v);
    OneStep(n, q, s2, Receive(m));
    end := s2 + [Receive(m)];
    GoesOnTransitive(n, q, steps, s2, end);
    VoteEffect(n, s, Run(n, s2), x, r, todo, y, m);
  }

  lemma Granted(p: Peer, x: nat, q: Peer)
    requires p.log != [] && q.log != [] && p.term > q.term && AtLeast(p, q)
    ensures var (q', v) := HandleVote(q, MakeVoteArgs(p, x)); v.granted && v.term == q'.term == p.term
  {
  }

  /** Asking one server after another, the candidate is elected as soon as a majority has granted its vote. */
  lemma {:induction false} Elected(n: nat, q: set<nat>, steps: seq<Step>, x: nat, r: nat, todo: set<nat>)
      returns (end: seq<Step>)
    requires Admissible(n, steps) && Stands(n, Run(n, steps), x, r, todo) && x in q && todo <= q
    requires forall z :: z in q ==> z < n && Run(n, steps).nodes[z].peer.term <= Run(n, steps).nodes[x].peer.term
    requires var k := Run(n, steps).nodes[x].rounds[r].supporter; 2 * k <= n < 2 * (k + |todo|)
    ensures GoesOn(n, q, steps, end) && Leads(n, Run(n, end), q, x)
    decreases |todo|
  {
    hide Run, Admissible, GoesOn, AtLeast;
    var y :| y in todo;
    var more := OneVote(n, q, steps, x, r, todo, y);
    if Run(n, more).nodes[x].peer.role == Leader {
      end := more;
    } else {
      GoesOnAdmissible(n, q, steps, more);
      end := Elected(n, q, more, x, r, todo - {y});
      GoesOnTransitive(n, q, steps, more, end);
    }
  }

  /** A leader that hears of a later term steps down; whom it asked has not changed. */
  lemma StepsDown(n: nat, q: set<nat>, steps: seq<Step>, x: nat, y: nat) returns (end: seq<Step>)
    requires Admissible(n, steps) && x in q && y in q && x < n && y < n
    requires var s := Run(n, steps); s.nodes[x].peer.role == Leader && s.nodes[y].peer.term > s.nodes[x].peer.term
    ensures GoesOn(n, q, steps, end)
    ensures var nd, nd' := Run(n, steps).nodes[x], Run(n, end).nodes[x];
            && Run(n, end).nodes == Run(n, steps).nodes[x := nd'] && nd'.peer.role == Follower
            && nd'.peer.log == nd.peer.log && nd'.peer.snapIndex == nd.peer.snapIndex
  {
    hide Run, Admissible, GoesOn, HandleAppend, HandleInstall;
    RunSane(n, steps, x);
    RunSane(n, steps, y);
    var s := Run(n, steps);
    var p, other := s.nodes[x].peer, s.nodes[y].peer;
    if p.nextIndex[y] <= p.snapIndex {
      end := InstallRound(n, q, steps, x, y);
      InstallExact(other, MakeInstallArgs(p, x));
      assert s.nodes[y].stream + [] == s.nodes[y].stream;
    } else {
      end := AppendRound(n, q, steps, x, y);
      AppendRoles(other, MakeAppendArgs(p, x, p.nextIndex[y] - 1));
    }
    assert s.nodes[y := s.nodes[y]] == s.nodes;
    assert Run(n, end).nodes[y] == s.nodes[y];
  }

  /** From every reachable state, a majority can get to have a leader that none of it is ahead of. */
  lemma CanElect(n: nat, q: set<nat>, steps: seq<Step>) returns (end: seq<Step>, x: nat)
    requires Admissible(n, steps) && Quorum(q, n) && n >= 2
    ensures GoesOn(n, q, steps, end) && Leads(n, Run(n, end), q, x)
  {
    hide Run, Admissible, GoesOn, AtLeast, Sane;
    var s := Run(n, steps);
    AllSane(n, steps, q);
    x := BestLog(s.nodes, q);
    var t := LatestTerm(s.nodes, q);
    if s.nodes[x].peer.role == Leader && (forall z :: z in q ==> s.nodes[z].peer.term <= s.nodes[x].peer.term) {
      end := steps;
      GoesOnSelf(n, q, steps);
    } else {
      var down := steps;
      GoesOnSelf(n, q, steps);
      if s.nodes[x].peer.role == Leader {
        var y :| y in q && s.nodes[y].peer.term > s.nodes[x].peer.term;
        down := StepsDown(n, q, steps, x, y);
        GoesOnAdmissible(n, q, steps, down);
      }
      var standing := Campaign(n, q, down, x, t);
      GoesOnTransitive(n, q, steps, down, standing);
      GoesOnAdmissible(n, q, steps, standing);
      var s' := Run(n, standing);
      var r := |s'.nodes[x].rounds| - 1;
      ReadyToAsk(n, s, s', q, x, t);
      OthersCount(q, n, x);
      end := Elected(n, q, standing, x, r, q - {x});
      GoesOnTransitive(n, q, steps, standing, end);
    }
  }

  lemma AllSane(n: nat, steps: seq<Step>, q: set<nat>)
    requires Admissible(n, steps) && forall z :: z in q ==> z < n
    ensures forall z :: z in q ==> Run(n, steps).nodes[z].peer.log != []
  {
    hide Run, Admissible;
    forall z | z in q
      ensures Run(n, steps).nodes[z].peer.log != []
    {
      RunSane(n, steps, z);
    }
  }

  lemma OthersCount(q: set<nat>, n: nat, x: nat)
    requires Quorum(q, n) && x in q
    ensures n < 2 * (1 + |q - {x}|)
  {
    assert q == (q - {x}) + {x};
  }

  lemma ReadyToAsk(n: nat, s: State, s': State, q: set<nat>, x: nat, t: int)
    requires |s.nodes| == n == |s'.nodes| && x in q && x < n && s'.nodes == s.nodes[x := s'.nodes[x]]
    requires forall z :: z in q ==> z < n && s.nodes[z].peer.log != [] && s.nodes[z].peer.term <= t
    requires forall z :: z in q ==> AtLeast(s.nodes[x].peer, s.nodes[z].peer)
    requires var nd, nd' := s.nodes[x], s'.nodes[x];
             && nd'.rounds != [] && nd'.peer.role == Candidate && nd'.peer.term > t && nd'.peer.log == nd.peer.log
             && nd'.peer.snapIndex == nd.peer.snapIndex
             && nd'.rounds[|nd'.rounds| - 1] == Round(nd'.peer.term, 1, seq(n, _ => Idle))
    ensures Stands(n, s', x, |s'.nodes[x].rounds| - 1, q - {x})
  {
  }

  // ---------------------------------------------------------------- the theorem

  /**
   Availability: after any run, any majority can go on by itself until a command given to one of its
   servers has been committed and handed to that server's service.
   */
  lemma Available(n: nat, steps: seq<Step>, q: set<nat>, c: Command) returns (end: seq<Step>, x: nat)
    requires Admissible(n, steps) && Quorum(q, n) && n >= 2
    ensures GoesOnWith(n, q, c, steps, end) && x in q && HandedOver(Run(n, end), x, c)
  {
    hide Run, Admissible, GoesOn, HandedOver, GoesOnWith;
    var elected;
    elected, x := CanElect(n, q, steps);
    GoesOnAdmissible(n, q, steps, elected);
    end := Commits(n, q, elected, x, c);
    GoesOnAround(n, q, x, c, steps, elected, end);
  }

  ghost predicate CanHandOver(n: nat, steps: seq<Step>, q: set<nat>, c: Command) {
    exists end, x :: GoesOnWith(n, q, c, steps, end) && x in q && HandedOver(Run(n, end), x, c)
  }

  /**
   What a run of a single server is like: it never leads, because only the reply of another server
   makes a candidate count its votes, and so it never hands anything over.
   */
  ghost predicate Alone(s: State) {
    && |s.nodes| == 1 && s.msgs == {}
    && var nd := s.nodes[0];
       && nd.peer.role != Leader && nd.peer.commitIndex == 0 && nd.peer.lastApplied == 0 && nd.stream == []
       && forall r :: 0 <= r < |nd.rounds| ==> |nd.rounds[r].calls| == 1
  }

  lemma StaysAlone(s: State, step: Step)
    requires Alone(s)
    ensures Alone(Next(1, s, step))
  {
  }

  lemma {:induction false} AloneNeverLeads(steps: seq<Step>)
    ensures Alone(Run(1, steps))
  {
    hide Next, Alone;
    if steps == [] {
      StartsAlone();
    } else {
      AloneNeverLeads(steps[..|steps| - 1]);
      StaysAlone(Run(1, steps[..|steps| - 1]), steps[|steps| - 1]);
    }
  }

  lemma StartsAlone()
    ensures Alone(InitState(1))
  {
  }

  /** Every majority of `n` servers is always enough if and only if there is not just one server. */
  lemma AvailabilityLimit(n: nat)
    ensures n != 1 <==> forall steps, q, c :: Admissible(n, steps) && Quorum(q, n) ==> CanHandOver(n, steps, q, c)
  {
    hide Run, Admissible, GoesOnWith, HandedOver;
    if n == 1 {
      var steps: seq<Step> := [];
      StartsAdmissible(1);
      assert Quorum({0}, 1);
      forall end, x | x in {0}
        ensures !HandedOver(Run(1, end), x, NoCommand)
      {
        AloneNeverLeads(end);
        NothingHandedOver(Run(1, end), NoCommand);
      }
      assert !CanHandOver(1, steps, {0}, NoCommand);
    } else {
      forall steps, q, c | Admissible(n, steps) && Quorum(q, n)
        ensures CanHandOver(n, steps, q, c)
      {
        SomeServer(q, n);
        var end, x := Available(n, steps, q, c);
      }
    }
  }

  lemma StartsAdmissible(n: nat)
    requires n <= 3
    ensures Admissible(n, [])
  {
  }

  lemma NothingHandedOver(s: State, c: Command)
    requires Alone(s)
    ensures !HandedOver(s, 0, c)
  {
  }

  lemma SomeServer(q: set<nat>, n: nat)
    requires Quorum(q, n)
    ensures n >= 1
  {
    var v :| v in q;
  }
}
