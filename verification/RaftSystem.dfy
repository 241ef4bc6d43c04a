/**
 A cluster of Raft servers and the network between them, as a transition system.

 Each critical section under the server's lock is one step. Messages are never removed from the
 network, so a run may lose, delay, reorder or repeat them. A reply is received only by the
 incarnation (`boots`) that sent the request, because a crash ends the goroutine that waits for it.
 What is sent on the apply channel is appended to `stream` inside the locked step.
 */
module RaftSystem {
  import opened RaftLog
  import opened RaftPeer

  /** One goroutine of a vote round: not yet run, waiting for its reply, or done. */
  datatype Call = Idle | Asked(term: int) | Declined | Counted

  /** One `collectOpinion`: its shared counter, and the term the server had when it was started. */
  datatype Round = Round(term: int, supporter: nat, calls: seq<Call>)

  datatype Node = Node(
    peer: Peer,
    rounds: seq<Round>,
    boots: nat,                 // how often the server has restarted
    base: seq<Command>,         // the service's state at boot, as the commands it summarises
    stream: seq<ApplyMsg>       // what has been sent to the service since boot
  )

  datatype Msg =
    | VoteReq(from: nat, to: nat, boots: nat, round: nat, voteArgs: VoteArgs)
    | VoteResp(from: nat, to: nat, boots: nat, round: nat, asked: int, voteReply: VoteReply)
    | AppendReq(from: nat, to: nat, boots: nat, appendArgs: AppendArgs)
    | AppendResp(from: nat, to: nat, boots: nat, appendArgs: AppendArgs, appendReply: AppendReply)
    | InstallReq(from: nat, to: nat, boots: nat, installArgs: InstallArgs)
    | InstallResp(from: nat, to: nat, boots: nat, installArgs: InstallArgs, term: int)

  datatype State = State(nodes: seq<Node>, msgs: set<Msg>)

  datatype Step =
    | Timeout(x: nat)                     // the election timer fires
    | AskVote(x: nat, round: nat, to: nat)  // one goroutine of a round reads the state and sends its request
    | Receive(m: Msg)                     // a request is handled, or a reply is processed
    | Replicate(x: nat, to: nat)          // the leader sends a suffix or a snapshot
    | Start(x: nat, c: Command)           // the service submits a command
    | Deliver(x: nat)                     // guardKick sends a batch to the service
    | Compact(x: nat, seen: nat)          // the service, having seen that much of the stream, snapshots
    | Crash(x: nat)                       // the server stops and restarts from its disk

  /** A service state is the sequence of commands executed: a command extends it, a snapshot replaces it. */
  function Consume(st: seq<Command>, m: ApplyMsg): seq<Command> {
    match m
    case CommandMsg(_, c) => st + [c]
    case SnapshotMsg(_, d) => d
  }

  /** The service's state after consuming `stream`. */
  function Replay(base: seq<Command>, stream: seq<ApplyMsg>): seq<Command> {
    if stream == [] then base else Consume(Replay(base, stream[..|stream| - 1]), stream[|stream| - 1])
  }

  /** The index the service reports having applied. */
  function Position(base: seq<Command>, stream: seq<ApplyMsg>): int {
    if stream == [] then |base| else stream[|stream| - 1].index
  }

  function InitState(n: nat): State {
    State(seq(n, _ => Node(Boot(Blank), [], 0, [], [])), {})
  }

  // ---------------------------------------------------------------- steps

  /** Every index the step's code reads or writes is in range. */
  predicate Safe(n: nat, s: State, step: Step)
    requires |s.nodes| == n
  {
    match step
    case AskVote(x, _, _) => x < n ==> s.nodes[x].peer.log != []
    case Receive(m) =>
      m in s.msgs && m.to < n && m.from < n ==>
        var p := s.nodes[m.to].peer;
        && p.log != []
        && (m.AppendResp? && m.boots == s.nodes[m.to].boots && p.role == Leader && p.term == m.appendArgs.term ==>
              m.from < |p.nextIndex| && |p.matchIndex| == n)
        && (m.InstallResp? && m.boots == s.nodes[m.to].boots ==> m.from < |p.nextIndex| && m.from < |p.matchIndex|)
    case Replicate(x, to) =>
      x < n && s.nodes[x].peer.role == Leader && to < n ==>
        var p := s.nodes[x].peer;
        p.log != [] && to < |p.nextIndex| && p.nextIndex[to] - 1 < LogLength(p)
    case Deliver(x) => x < n ==> s.nodes[x].peer.commitIndex < LogLength(s.nodes[x].peer)
    case Compact(x, seen) =>
      x < n && seen <= |s.nodes[x].stream| ==>
        Position(s.nodes[x].base, s.nodes[x].stream[..seen]) < LogLength(s.nodes[x].peer)
    case _ => true
  }

  function SetPeer(s: State, x: nat, p: Peer): State
    requires x < |s.nodes|
  {
    s.(nodes := s.nodes[x := s.nodes[x].(peer := p)])
  }

  function SendTo(s: State, m: Msg): State {
    s.(msgs := s.msgs + {m})
  }

  function DoTimeout(n: nat, s: State, x: nat): State
    requires |s.nodes| == n && x < n
  {
    var nd := s.nodes[x];
    if nd.peer.role == Leader then s
    else
      var p := BecomeCandidate(nd.peer, x);
      s.(nodes := s.nodes[x := nd.(peer := p, rounds := nd.rounds + [Round(p.term, 1, seq(n, _ => Idle))])])
  }

  function DoAskVote(n: nat, s: State, x: nat, r: nat, to: nat): State
    requires |s.nodes| == n && x < n && s.nodes[x].peer.log != []
  {
    var nd := s.nodes[x];
    if r < |nd.rounds| && to < |nd.rounds[r].calls| && to != x && nd.rounds[r].calls[to] == Idle then
      var rd := nd.rounds[r].(calls := nd.rounds[r].calls[to := Asked(nd.peer.term)]);
      State(s.nodes[x := nd.(rounds := nd.rounds[r := rd])],
            s.msgs + {VoteReq(x, to, nd.boots, r, MakeVoteArgs(nd.peer, x))})
    else s
  }

  function DoVoteReq(s: State, m: Msg): State
    requires m.VoteReq? && m.to < |s.nodes| && s.nodes[m.to].peer.log != []
  {
    var (p, r) := HandleVote(s.nodes[m.to].peer, m.voteArgs);
    SendTo(SetPeer(s, m.to, p), VoteResp(m.to, m.from, m.boots, m.round, m.voteArgs.term, r))
  }

  /** One goroutine of a round processes its reply: it may raise the round's counter, and win. */
  function DoVoteResp(n: nat, s: State, m: Msg): State
    requires m.VoteResp? && m.to < |s.nodes|
  {
    var nd := s.nodes[m.to];
    if m.boots == nd.boots && m.round < |nd.rounds| && m.from < |nd.rounds[m.round].calls|
       && nd.rounds[m.round].calls[m.from] == Asked(m.asked)
    then
      var rd := nd.rounds[m.round];
      var (p, counts) := HandleVoteReply(nd.peer, m.asked, m.voteReply);
      if counts then
        var rd' := rd.(supporter := rd.supporter + 1, calls := rd.calls[m.from := Counted]);
        var p' := if rd'.supporter > n / 2 then BecomeLeader(p, m.to, n) else p;
        s.(nodes := s.nodes[m.to := nd.(peer := p', rounds := nd.rounds[m.round := rd'])])
      else
        var rd' := rd.(calls := rd.calls[m.from := Declined]);
        s.(nodes := s.nodes[m.to := nd.(peer := p, rounds := nd.rounds[m.round := rd'])])
    else s
  }

  function DoReplicate(s: State, x: nat, to: nat): State
    requires x < |s.nodes|
    requires var p := s.nodes[x].peer; p.role == Leader ==>
             p.log != [] && to < |p.nextIndex| && p.nextIndex[to] - 1 < LogLength(p)
  {
    var p := s.nodes[x].peer;
    if p.role != Leader || to == x then s
    else
      var prev := p.nextIndex[to] - 1;
      if prev < p.snapIndex then SendTo(s, InstallReq(x, to, s.nodes[x].boots, MakeInstallArgs(p, x)))
      else SendTo(s, AppendReq(x, to, s.nodes[x].boots, MakeAppendArgs(p, x, prev)))
  }

  function DoAppendReq(s: State, m: Msg): State
    requires m.AppendReq? && m.to < |s.nodes| && s.nodes[m.to].peer.log != []
  {
    var (p, r) := HandleAppend(s.nodes[m.to].peer, m.appendArgs);
    SendTo(SetPeer(s, m.to, p), AppendResp(m.to, m.from, m.boots, m.appendArgs, r))
  }

  function DoAppendResp(s: State, m: Msg): State
    requires m.AppendResp? && m.to < |s.nodes|
    requires var p := s.nodes[m.to].peer;
             m.boots == s.nodes[m.to].boots && p.role == Leader && p.term == m.appendArgs.term ==>
                 m.from < |p.nextIndex| && m.from < |p.matchIndex|
  {
    if m.boots != s.nodes[m.to].boots then s
    else SetPeer(s, m.to, HandleAppendReply(s.nodes[m.to].peer, m.to, m.from, m.appendArgs, m.appendReply))
  }

  function DoInstallReq(s: State, m: Msg): State
    requires m.InstallReq? && m.to < |s.nodes|
  {
    var nd := s.nodes[m.to];
    var (p, t, out) := HandleInstall(nd.peer, m.installArgs);
    State(s.nodes[m.to := nd.(peer := p, stream := nd.stream + out)],
          s.msgs + {InstallResp(m.to, m.from, m.boots, m.installArgs, t)})
  }

  function DoInstallResp(s: State, m: Msg): State
    requires m.InstallResp? && m.to < |s.nodes|
    requires var p := s.nodes[m.to].peer; m.boots == s.nodes[m.to].boots ==>
             m.from < |p.nextIndex| && m.from < |p.matchIndex|
  {
    if m.boots != s.nodes[m.to].boots then s
    else SetPeer(s, m.to, HandleInstallReply(s.nodes[m.to].peer, m.from, m.installArgs, m.term))
  }

  function DoDeliver(s: State, x: nat): State
    requires x < |s.nodes| && s.nodes[x].peer.commitIndex < LogLength(s.nodes[x].peer)
  {
    var nd := s.nodes[x];
    var (p, out) := HandleKick(nd.peer);
    s.(nodes := s.nodes[x := nd.(peer := p, stream := nd.stream + out)])
  }

  function DoCompact(s: State, x: nat, seen: nat): State
    requires x < |s.nodes| && seen <= |s.nodes[x].stream|
    requires Position(s.nodes[x].base, s.nodes[x].stream[..seen]) < LogLength(s.nodes[x].peer)
  {
    var nd := s.nodes[x];
    var consumed := nd.stream[..seen];
    SetPeer(s, x, TakeSnapshot(nd.peer, Position(nd.base, consumed), Replay(nd.base, consumed)))
  }

  function DoCrash(s: State, x: nat): State
    requires x < |s.nodes|
  {
    var nd := s.nodes[x];
    var p := Boot(nd.peer.disk);
    s.(nodes := s.nodes[x := Node(p, [], nd.boots + 1, p.snapshot, [])])
  }

  /** One step of the cluster. A step that is not enabled changes nothing. */
  function Next(n: nat, s: State, step: Step): (s': State)
    requires |s.nodes| == n
    ensures |s'.nodes| == n
  {
    if !Safe(n, s, step) then s
    else
      match step
      case Timeout(x) => if x < n then DoTimeout(n, s, x) else s
      case AskVote(x, r, to) => if x < n then DoAskVote(n, s, x, r, to) else s
      case Receive(m) =>
        if m !in s.msgs || m.to >= n || m.from >= n then s
        else (
          match m
          case VoteReq(_, _, _, _, _) => DoVoteReq(s, m)
          case VoteResp(_, _, _, _, _, _) => DoVoteResp(n, s, m)
          case AppendReq(_, _, _, _) => DoAppendReq(s, m)
          case AppendResp(_, _, _, _, _) => DoAppendResp(s, m)
          case InstallReq(_, _, _, _) => DoInstallReq(s, m)
          case InstallResp(_, _, _, _, _) => DoInstallResp(s, m))
      case Replicate(x, to) => if x < n && to < n then DoReplicate(s, x, to) else s
      case Start(x, c) => if x < n then SetPeer(s, x, HandleStart(s.nodes[x].peer, c)) else s
      case Deliver(x) => if x < n then DoDeliver(s, x) else s
      case Compact(x, seen) => if x < n && seen <= |s.nodes[x].stream| then DoCompact(s, x, seen) else s
      case Crash(x) => if x < n then DoCrash(s, x) else s
  }

  /** The state a run of `n` servers reaches. */
  function Run(n: nat, steps: seq<Step>): (s: State)
    ensures |s.nodes| == n
  {
    if steps == [] then InitState(n) else Next(n, Run(n, steps[..|steps| - 1]), steps[|steps| - 1])
  }

  /** The reply `m` raises the counter of the round that asked. */
  predicate Counts(s: State, m: Msg)
    requires m.VoteResp? && m.to < |s.nodes|
  {
    var nd := s.nodes[m.to];
    && m.boots == nd.boots && m.round < |nd.rounds| && m.from < |nd.rounds[m.round].calls|
    && nd.rounds[m.round].calls[m.from] == Asked(m.asked)
    && HandleVoteReply(nd.peer, m.asked, m.voteReply).1
  }

  /**
   A vote that is counted now is one of the term its round was started in.
   The code does not check this: a goroutine asks for whatever term the server has when it runs.
   */
  predicate OnTime(n: nat, s: State, step: Step)
    requires |s.nodes| == n
  {
    step.Receive? && step.m.VoteResp? && step.m.to < n && Counts(s, step.m) ==>
      step.m.asked == s.nodes[step.m.to].rounds[step.m.round].term
  }

  /** No vote of a later term was ever counted in a round. Late requests and late replies are allowed. */
  predicate Punctual(n: nat, steps: seq<Step>) {
    forall i :: 0 <= i < |steps| ==> OnTime(n, Run(n, steps[..i]), steps[i])
  }
}
