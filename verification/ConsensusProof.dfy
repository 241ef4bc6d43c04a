/** Each event keeps the consensus invariant, and what the invariant implies. */
module ConsensusProof {
  import opened RaftLog
  import opened Consensus

  lemma InitInv(n: nat)
    ensures Inv(InitHistory(n))
  {
    var h := InitHistory(n);
    assert forall x :: 0 <= x < n ==> h.log[x] == [ORIGIN];
  }

  // ---------------------------------------------------------------- frame lemmas

  lemma LogsFrame(h: History, h': History)
    requires Inv(h) && Grows(h, h')
    requires forall x :: 0 <= x < h.n && h'.log[x] != h.log[x] ==>
               Chain(h'.log[x], h'.canon) && TermsAtMost(h'.log[x], h'.term[x])
    requires forall t :: t in h'.canon && (t !in h.canon || h'.canon[t] != h.canon[t]) ==>
               Chain(h'.canon[t], h'.canon) && TermsAtMost(h'.canon[t], t)
    requires forall k :: k in h'.cand && k !in h.cand ==>
               Chain(h'.cand[k], h'.canon) && TermsAtMost(h'.cand[k], k.1 - 1)
    ensures Logs(h')
  {
    hide Elections, LeaderLogs, VotesKeep, Choices, Acks, LeadersKeep, ServersKeep, CurrentLogs, Chain;
    forall x | 0 <= x < h.n
      ensures Chain(h'.log[x], h'.canon) && TermsAtMost(h'.log[x], h'.term[x])
    {
      if h'.log[x] == h.log[x] {
        ChainGrows(h.log[x], h, h');
      }
    }
    forall t | t in h'.canon
      ensures Chain(h'.canon[t], h'.canon) && TermsAtMost(h'.canon[t], t)
    {
      if t in h.canon && h'.canon[t] == h.canon[t] {
        ChainGrows(h.canon[t], h, h');
      }
    }
    forall k | k in h'.cand
      ensures Chain(h'.cand[k], h'.canon) && TermsAtMost(h'.cand[k], k.1 - 1)
    {
      if k in h.cand {
        ChainGrows(h.cand[k], h, h');
      }
    }
  }

  /** Old acknowledgements name the same prefixes in the grown history. */
  lemma OwnFrame(h: History, h': History, t: int, m: nat)
    requires Inv(h) && Grows(h, h')
    requires t in h.canon && m < |h.canon[t]|
    ensures Own(h', t, m) <==> Own(h, t, m)
    ensures h'.canon[t][..m + 1] == h.canon[t][..m + 1]
  {
    hide Chain, Logs, LeaderLogs, CurrentLogs, Elections, Acks, ServersKeep, VotesKeep, LeadersKeep, Choices;
    assert h.canon[t] <= h'.canon[t];
    assert h'.canon[t][m] == h.canon[t][m];
  }

  lemma AckedInside(h: History, v: nat, t: int, m: nat)
    requires Inv(h) && Acked(h, v, t, m)
    ensures v < h.n && t in h.canon && m < |h.canon[t]| && t <= h.term[v]
  {
    hide Chain, Logs, LeaderLogs, CurrentLogs, Elections, ServersKeep, VotesKeep, LeadersKeep, Choices;
    var m' :| m <= m' && (v, t, m') in h.acks;
  }

  lemma LeaderLogsFrame(h: History, h': History)
    requires Shape(h) && LeaderLogs(h) && Grows(h, h') && h'.leader == h.leader && h'.canon == h.canon
    ensures LeaderLogs(h')
  {
    forall t | t in h'.leader
      ensures Base(h', t) <= h'.canon[t]
      ensures forall p {:trigger h'.canon[t][p]} :: |Base(h', t)| <= p < |h'.canon[t]| ==> h'.canon[t][p].term == t
    {
      assert Base(h', t) == Base(h, t);
    }
  }

  lemma ElectionsFrame(h: History, h': History)
    requires Shape(h) && Elections(h) && Grows(h, h') && h'.leader == h.leader
    ensures Elections(h')
  {
  }

  lemma AcksFrame(h: History, h': History)
    requires Shape(h) && Acks(h) && Grows(h, h') && h'.acks == h.acks && h'.leader == h.leader && h'.canon == h.canon
    ensures Acks(h')
  {
  }

  lemma ServersKeepFrame(h: History, h': History)
    requires Inv(h) && Grows(h, h') && h'.acks == h.acks && h'.log == h.log
    ensures ServersKeep(h')
  {
    hide Elections, LeaderLogs, VotesKeep, Choices, Chain, Logs, CurrentLogs, Acks, LeadersKeep;
    forall v: nat, t: int, m: nat | Acked(h', v, t, m) && Own(h', t, m) && v < h'.n
      ensures Keeps(h', h'.canon[t][..m + 1], t, h'.term[v] + 1, h'.log[v])
    {
      assert Acked(h, v, t, m);
      AckedInside(h, v, t, m);
      OwnFrame(h, h', t, m);
      KeepsGrows(h, h', h.canon[t][..m + 1], t, h.term[v] + 1, h'.term[v] + 1, h.log[v]);
    }
  }

  lemma VotesKeepFrame(h: History, h': History)
    requires Inv(h) && Grows(h, h') && h'.acks == h.acks
    requires forall k :: k in h'.votes && k !in h.votes ==>
               k.1 in h'.leader || (h'.votes[k], k.1) !in h'.cand
    requires forall k :: k in h.votes && (h.votes[k], k.1) !in h.cand ==> (h.votes[k], k.1) !in h'.cand
    ensures VotesKeep(h')
  {
    hide Elections, LeaderLogs, LeadersKeep, Choices, Chain, Logs, CurrentLogs, Acks, ServersKeep;
    forall v: nat, u: int, t: int, m: nat {:trigger h'.votes[(v, u)], Acked(h', v, t, m)} |
      (v, u) in h'.votes && u !in h'.leader && (h'.votes[(v, u)], u) in h'.cand &&
      Acked(h', v, t, m) && Own(h', t, m) && t < u
      ensures Keeps(h', h'.canon[t][..m + 1], t, u, h'.cand[(h'.votes[(v, u)], u)])
    {
      assert Acked(h, v, t, m);
      AckedInside(h, v, t, m);
      OwnFrame(h, h', t, m);
      assert (v, u) in h.votes;
      KeepsGrows(h, h', h.canon[t][..m + 1], t, u, u, h.cand[(h.votes[(v, u)], u)]);
    }
  }

  lemma LeadersKeepFrame(h: History, h': History)
    requires Inv(h) && Grows(h, h') && h'.acks == h.acks && h'.leader == h.leader
    ensures LeadersKeep(h')
  {
    hide Elections, LeaderLogs, VotesKeep, Choices, Chain, Logs, CurrentLogs, Acks, ServersKeep;
    forall v: nat, u: int, t: int, m: nat {:trigger v in h'.quorum[u], Acked(h', v, t, m)} |
      u in h'.leader && v in h'.quorum[u] && Acked(h', v, t, m) && Own(h', t, m) && t < u
      ensures Keeps(h', h'.canon[t][..m + 1], t, u, Base(h', u))
    {
      assert Acked(h, v, t, m);
      AckedInside(h, v, t, m);
      OwnFrame(h, h', t, m);
      assert v in h.quorum[u];
      KeepsGrows(h, h', h.canon[t][..m + 1], t, u, u, Base(h, u));
    }
  }

  lemma ChoicesFrame(h: History, h': History)
    requires Inv(h) && Grows(h, h') && h'.chosen == h.chosen
    ensures Choices(h')
  {
    hide Chain, Logs, LeaderLogs, CurrentLogs, Elections, Acks, ServersKeep, VotesKeep, LeadersKeep, Shape, Acked,
         Own, Quorum;
    forall c | c in h'.chosen
      ensures Own(h', c.0, c.1) && Quorum(h'.chosen[c], h'.n)
    {
      OwnInside(h, c.0, c.1);
      OwnFrame(h, h', c.0, c.1);
    }
    forall c, v | c in h'.chosen && v in h'.chosen[c]
      ensures Acked(h', v, c.0, c.1)
    {
      assert Acked(h, v, c.0, c.1);
      AckedStays(h, h', v, c.0, c.1);
    }
  }

  lemma OwnInside(h: History, t: int, m: nat)
    requires Own(h, t, m)
    ensures t in h.canon && m < |h.canon[t]|
  {
  }

  lemma AckedStays(h: History, h': History, v: nat, t: int, m: nat)
    requires Acked(h, v, t, m) && h.acks <= h'.acks
    ensures Acked(h', v, t, m)
  {
    var m' :| m <= m' && (v, t, m') in h.acks;
    assert (v, t, m') in h'.acks;
  }

  // ---------------------------------------------------------------- terms and elections

  lemma AdoptTermShape(h: History, x: nat, t: int)
    requires Shape(h) && x < h.n && t > h.term[x]
    ensures Shape(AdoptTerm(h, x, t))
  {
  }

  lemma AdoptTermGrows(h: History, x: nat, t: int)
    requires Shape(h) && x < h.n && t > h.term[x]
    ensures Grows(h, AdoptTerm(h, x, t))
  {
    AdoptTermShape(h, x, t);
    hide Shape;
  }

  lemma AdoptTermCurrent(h: History, x: nat, t: int)
    requires Shape(h) && x < h.n && t > h.term[x] && CurrentLogs(h) && Shape(AdoptTerm(h, x, t))
    ensures CurrentLogs(AdoptTerm(h, x, t))
  {
    var h' := AdoptTerm(h, x, t);
    forall u | u in h'.leader && h'.term[h'.leader[u]] == u
      ensures h'.log[h'.leader[u]] == h'.canon[u]
    {
      assert (h.leader[u], u) in h.cand;
    }
  }

  lemma AdoptTermInv(h: History, x: nat, t: int)
    requires Inv(h) && x < h.n && t > h.term[x]
    ensures Inv(AdoptTerm(h, x, t)) && Grows(h, AdoptTerm(h, x, t))
  {
    var h' := AdoptTerm(h, x, t);
    hide Shape, Chain, Logs, LeaderLogs, CurrentLogs, Elections, Acks, ServersKeep, VotesKeep, LeadersKeep, Choices;
    AdoptTermGrows(h, x, t);
    LogsFrame(h, h');
    LeaderLogsFrame(h, h');
    AdoptTermCurrent(h, x, t);
    ElectionsFrame(h, h');
    AcksFrame(h, h');
    ServersKeepFrame(h, h');
    VotesKeepFrame(h, h');
    LeadersKeepFrame(h, h');
    ChoicesFrame(h, h');
  }

  lemma StandShape(h: History, x: nat)
    requires Shape(h) && x < h.n
    ensures Shape(Stand(h, x))
  {
  }

  lemma StandGrows(h: History, x: nat)
    requires Shape(h) && x < h.n
    ensures Grows(h, Stand(h, x))
  {
    hide Shape;
    Sizes(h);
    StandShape(h, x);
    StandKeeps(h, x);
  }

  lemma StandKeeps(h: History, x: nat)
    requires Shape(h) && x < h.n
    ensures forall k :: k in h.votes ==> k != (x, h.term[x] + 1)
    ensures forall k :: k in h.cand ==> k != (x, h.term[x] + 1)
  {
  }

  lemma StandCurrent(h: History, x: nat)
    requires Shape(h) && x < h.n && CurrentLogs(h) && Shape(Stand(h, x))
    ensures CurrentLogs(Stand(h, x))
  {
    var h' := Stand(h, x);
    forall u | u in h'.leader && h'.term[h'.leader[u]] == u
      ensures h'.log[h'.leader[u]] == h'.canon[u]
    {
      assert (h.leader[u], u) in h.cand;
    }
  }

  lemma StandLogs(h: History, x: nat)
    requires Inv(h) && x < h.n && Grows(h, Stand(h, x))
    ensures Logs(Stand(h, x))
  {
    hide Elections, LeaderLogs, VotesKeep, Choices, Acks, LeadersKeep, ServersKeep, CurrentLogs;
    LogsFrame(h, Stand(h, x));
  }

  lemma StandVotes(h: History, x: nat)
    requires Inv(h) && x < h.n && Grows(h, Stand(h, x))
    ensures VotesKeep(Stand(h, x))
  {
    hide Elections, LeaderLogs, LeadersKeep, Choices, Chain, Logs, CurrentLogs, Acks;
    var h' := Stand(h, x);
    forall v: nat, u: int, t: int, m: nat {:trigger h'.votes[(v, u)], Acked(h', v, t, m)} |
      (v, u) in h'.votes && u !in h'.leader && (h'.votes[(v, u)], u) in h'.cand &&
      Acked(h', v, t, m) && Own(h', t, m) && t < u
      ensures Keeps(h', h'.canon[t][..m + 1], t, u, h'.cand[(h'.votes[(v, u)], u)])
    {
      assert Acked(h, v, t, m);
      AckedInside(h, v, t, m);
      if (v, u) == (x, h.term[x] + 1) {
        KeepsGrows(h, h', h.canon[t][..m + 1], t, u, u, h.log[x]);
      } else {
        assert (v, u) in h.votes;
        KeepsGrows(h, h', h.canon[t][..m + 1], t, u, u, h.cand[(h.votes[(v, u)], u)]);
      }
    }
  }

  lemma StandInv(h: History, x: nat)
    requires Inv(h) && x < h.n
    ensures Inv(Stand(h, x)) && Grows(h, Stand(h, x))
  {
    var h' := Stand(h, x);
    hide Shape, Chain, Logs, LeaderLogs, CurrentLogs, Elections, Acks, ServersKeep, VotesKeep, LeadersKeep, Choices;
    StandGrows(h, x);
    StandLogs(h, x);
    LeaderLogsFrame(h, h');
    StandCurrent(h, x);
    ElectionsFrame(h, h');
    AcksFrame(h, h');
    ServersKeepFrame(h, h');
    StandVotes(h, x);
    LeadersKeepFrame(h, h');
    ChoicesFrame(h, h');
  }

  /** The election restriction: a candidate a voter finds up to date has all the voter keeps. */
  lemma UpToDateKeeps(h: History, mine: Log, l: Log, p: Log, t: int, u: int)
    requires Shape(h) && Logs(h) && LeaderLogs(h)
    requires Chain(mine, h.canon) && Chain(l, h.canon) && TermsAtMost(l, u - 1)
    requires UpToDate(Last(l).term, |l| - 1, Last(mine).term, |mine| - 1)
    requires t >= 1 && p != [] && Last(p).term == t && p <= mine
    ensures Keeps(h, p, t, u, l)
  {
    assert mine[|p| - 1] == Last(p);
    ChainTermsOrdered(mine, h, |p| - 1, |mine| - 1);
    var lt := Last(l).term;
    assert l[|l| - 1].term == lt >= t;
    WholeChain(l, h.canon);
    if lt == Last(mine).term {
      WholeChain(mine, h.canon);
      PrefixesCompare(mine, l, h.canon[lt]);
      assert p <= mine <= l;
    } else if p <= Base(h, lt) {
      BaseInside(h, l, lt);
      assert p <= Base(h, lt) <= l;
    } else {
      assert lt in h.leader && t < lt < u && !(p <= Base(h, lt));
    }
  }

  lemma WholeChain(l: Log, canon: map<int, Log>)
    requires Chain(l, canon) && Last(l).term >= 1
    ensures Last(l).term in canon && l <= canon[Last(l).term]
  {
    assert l[..|l|] == l;
    assert l[|l| - 1] == Last(l);
  }

  /** A log whose last entry has term `t` extends the log its leader was elected with. */
  lemma BaseInside(h: History, l: Log, t: int)
    requires Shape(h) && Logs(h) && LeaderLogs(h)
    requires t in h.leader && l != [] && l <= h.canon[t] && Last(l).term == t
    ensures Base(h, t) <= l
  {
    var b := Base(h, t);
    assert b <= h.canon[t];
    assert l[|l| - 1] == h.canon[t][|l| - 1];
    assert TermsAtMost(b, t - 1);
    PrefixesCompare(b, l, h.canon[t]);
  }

  lemma VoteVotes(h: History, x: nat, c: nat)
    requires Inv(h) && CanVote(h, x, c) && Grows(h, Vote(h, x, c))
    ensures VotesKeep(Vote(h, x, c))
  {
    hide Elections, LeaderLogs, LeadersKeep, Choices, Chain, Logs, CurrentLogs, Acks, ServersKeep;
    var h' := Vote(h, x, c);
    forall v: nat, u: int, t: int, m: nat {:trigger h'.votes[(v, u)], Acked(h', v, t, m)} |
      (v, u) in h'.votes && u !in h'.leader && (h'.votes[(v, u)], u) in h'.cand &&
      Acked(h', v, t, m) && Own(h', t, m) && t < u
      ensures Keeps(h', h'.canon[t][..m + 1], t, u, h'.cand[(h'.votes[(v, u)], u)])
    {
      assert Acked(h, v, t, m);
      AckedInside(h, v, t, m);
      if (v, u) == (x, h.term[x]) {
        NewVoteKeeps(h, x, c, t, m);
        KeepsGrows(h, h', h.canon[t][..m + 1], t, u, u, h.cand[(c, u)]);
      } else {
        assert (v, u) in h.votes;
        KeepsGrows(h, h', h.canon[t][..m + 1], t, u, u, h.cand[(h.votes[(v, u)], u)]);
      }
    }
  }

  lemma ServerKeeps(h: History, x: nat, t: int, m: nat)
    requires Shape(h) && ServersKeep(h) && x < h.n && Acked(h, x, t, m) && Own(h, t, m)
    ensures Keeps(h, h.canon[t][..m + 1], t, h.term[x] + 1, h.log[x])
  {
    hide Acked, Keeps;
  }

  lemma CandidateChains(h: History, x: nat, c: nat, t: int, m: nat)
    requires Shape(h) && Logs(h) && x < h.n && (c, h.term[x]) in h.cand && Own(h, t, m)
    ensures Chain(h.log[x], h.canon) && Chain(h.cand[(c, h.term[x])], h.canon)
    ensures TermsAtMost(h.cand[(c, h.term[x])], h.term[x] - 1)
    ensures t >= 1 && h.canon[t][..m + 1] != [] && Last(h.canon[t][..m + 1]).term == t
  {
    hide Chain;
  }

  lemma NewVoteKeeps(h: History, x: nat, c: nat, t: int, m: nat)
    requires Inv(h) && CanVote(h, x, c)
    requires h.term[x] !in h.leader && (c, h.term[x]) in h.cand
    requires Acked(h, x, t, m) && Own(h, t, m)
    ensures Keeps(h, h.canon[t][..m + 1], t, h.term[x], h.cand[(c, h.term[x])])
  {
    hide Elections, Acks, VotesKeep, LeadersKeep, Choices, Chain, Logs, LeaderLogs, CurrentLogs, Acked, Own, Shape,
         ServersKeep, Base;
    Sizes(h);
    OwnInside(h, t, m);
    var p := h.canon[t][..m + 1];
    var u := h.term[x];
    ServerKeeps(h, x, t, m);
    if p <= h.log[x] {
      CandidateChains(h, x, c, t, m);
      UpToDateKeeps(h, h.log[x], h.cand[(c, u)], p, t, u);
    } else {
      var w :| w in h.leader && t < w < u + 1 && !(p <= Base(h, w));
      assert t < w < u;
    }
  }

  lemma VoteShape(h: History, x: nat, c: nat)
    requires Shape(h) && CanVote(h, x, c)
    ensures Shape(Vote(h, x, c))
  {
  }

  lemma VoteGrows(h: History, x: nat, c: nat)
    requires Shape(h) && CanVote(h, x, c)
    ensures Grows(h, Vote(h, x, c))
  {
    VoteShape(h, x, c);
    hide Shape;
  }

  lemma VoteInv(h: History, x: nat, c: nat)
    requires Inv(h) && CanVote(h, x, c)
    ensures Inv(Vote(h, x, c)) && Grows(h, Vote(h, x, c))
  {
    var h' := Vote(h, x, c);
    hide Shape, Chain, Logs, LeaderLogs, CurrentLogs, Elections, Acks, ServersKeep, VotesKeep, LeadersKeep, Choices;
    VoteGrows(h, x, c);
    LogsFrame(h, h');
    LeaderLogsFrame(h, h');
    CurrentFrame(h, h');
    ElectionsFrame(h, h');
    AcksFrame(h, h');
    ServersKeepFrame(h, h');
    VoteVotes(h, x, c);
    LeadersKeepFrame(h, h');
    ChoicesFrame(h, h');
  }

  lemma WinShape(h: History, x: nat, q: set<nat>)
    requires Shape(h) && CanWin(h, x, q)
    ensures Shape(Win(h, x, q))
  {
    hide Quorum;
    var h' := Win(h, x, q);
    forall t | t in h'.leader
      ensures t >= 1 && h'.leader[t] < h'.n && (h'.leader[t], t) in h'.cand
    {
      assert t == h.term[x] || t in h.leader;
    }
  }

  lemma WinGrows(h: History, x: nat, q: set<nat>)
    requires Shape(h) && CanWin(h, x, q)
    ensures Grows(h, Win(h, x, q))
  {
    WinShape(h, x, q);
    hide Shape;
  }

  lemma WinLogs(h: History, x: nat, q: set<nat>)
    requires Inv(h) && CanWin(h, x, q) && Grows(h, Win(h, x, q))
    ensures Logs(Win(h, x, q))
  {
    hide Elections, LeaderLogs, VotesKeep, Choices, Acks, LeadersKeep, ServersKeep;
    var h' := Win(h, x, q);
    ChainGrows(h.log[x], h, h');
    LogsFrame(h, h');
  }

  lemma WinLeaderLogs(h: History, x: nat, q: set<nat>)
    requires Inv(h) && CanWin(h, x, q) && Shape(Win(h, x, q))
    ensures LeaderLogs(Win(h, x, q))
  {
    hide Elections, VotesKeep, Choices, Acks, LeadersKeep, ServersKeep, Logs, Chain;
    var h' := Win(h, x, q);
    forall t | t in h'.leader
      ensures Base(h', t) <= h'.canon[t]
      ensures forall p {:trigger h'.canon[t][p]} :: |Base(h', t)| <= p < |h'.canon[t]| ==> h'.canon[t][p].term == t
    {
      if t == h.term[x] {
        assert h.log[x] == h.cand[(x, t)];
      } else {
        assert Base(h', t) == Base(h, t);
      }
    }
  }

  lemma WinElections(h: History, x: nat, q: set<nat>)
    requires Shape(h) && CanWin(h, x, q) && Shape(Win(h, x, q))
    requires Elections(h)
    ensures Elections(Win(h, x, q))
  {
  }

  lemma WinCurrent(h: History, x: nat, q: set<nat>)
    requires Shape(h) && CanWin(h, x, q) && Shape(Win(h, x, q))
    requires CurrentLogs(h)
    ensures CurrentLogs(Win(h, x, q))
  {
  }

  /** A candidate's log ends in an earlier term. */
  lemma CandidateLog(h: History, x: nat)
    requires Shape(h) && Logs(h) && CurrentLogs(h) && x < h.n && (x, h.term[x]) in h.cand && h.term[x] !in h.leader
    ensures h.log[x] != [] ==> Last(h.log[x]).term < h.term[x]
  {
    hide Chain;
    assert h.log[x] == h.cand[(x, h.term[x])];
    assert TermsAtMost(h.cand[(x, h.term[x])], h.term[x] - 1);
  }

  lemma WinAcks(h: History, x: nat, q: set<nat>)
    requires Shape(h) && Logs(h) && CurrentLogs(h) && Acks(h) && CanWin(h, x, q) && Shape(Win(h, x, q))
    ensures Acks(Win(h, x, q))
  {
    hide Logs, CurrentLogs;
    CandidateLog(h, x);
    assert h.term[x] !in h.canon;
  }

  lemma WinLeaders(h: History, x: nat, q: set<nat>)
    requires Inv(h) && CanWin(h, x, q) && Grows(h, Win(h, x, q))
    ensures LeadersKeep(Win(h, x, q))
  {
    hide Elections, LeaderLogs, Choices, Chain, Logs, Acks, ServersKeep;
    var h' := Win(h, x, q);
    forall v: nat, u: int, t: int, m: nat {:trigger v in h'.quorum[u], Acked(h', v, t, m)} |
      u in h'.leader && v in h'.quorum[u] && Acked(h', v, t, m) && Own(h', t, m) && t < u
      ensures Keeps(h', h'.canon[t][..m + 1], t, u, Base(h', u))
    {
      assert Acked(h, v, t, m);
      AckedInside(h, v, t, m);
      OwnFrame(h, h', t, m);
      if u == h.term[x] {
        assert h.votes[(v, u)] == x;
        KeepsGrows(h, h', h.canon[t][..m + 1], t, u, u, h.cand[(x, u)]);
      } else {
        assert v in h.quorum[u];
        KeepsGrows(h, h', h.canon[t][..m + 1], t, u, u, Base(h, u));
      }
    }
  }

  lemma WinInv(h: History, x: nat, q: set<nat>)
    requires Inv(h) && CanWin(h, x, q)
    ensures Inv(Win(h, x, q)) && Grows(h, Win(h, x, q))
  {
    var h' := Win(h, x, q);
    hide Shape, Chain, Logs, LeaderLogs, CurrentLogs, Elections, Acks, ServersKeep, VotesKeep, LeadersKeep, Choices;
    WinGrows(h, x, q);
    WinLogs(h, x, q);
    WinLeaderLogs(h, x, q);
    WinCurrent(h, x, q);
    WinElections(h, x, q);
    WinAcks(h, x, q);
    ServersKeepFrame(h, h');
    VotesKeepFrame(h, h');
    WinLeaders(h, x, q);
    ChoicesFrame(h, h');
  }

  // ---------------------------------------------------------------- replication

  lemma ExtendShape(h: History, x: nat, c: Command)
    requires Shape(h) && CurrentLogs(h) && Leads(h, x)
    ensures Shape(Extend(h, x, c))
  {
  }

  lemma ExtendGrows(h: History, x: nat, c: Command)
    requires Shape(h) && CurrentLogs(h) && Leads(h, x)
    ensures Grows(h, Extend(h, x, c))
  {
    ExtendShape(h, x, c);
    hide Shape;
  }

  lemma ChainSnoc(l: Log, e: Entry, canon: map<int, Log>)
    requires Chain(l, canon) && e.term >= 1 && e.term in canon && l + [e] <= canon[e.term]
    ensures Chain(l + [e], canon)
  {
    var l' := l + [e];
    forall p {:trigger l'[p]} | 0 < p < |l'|
      ensures l'[p].term >= 1 && l'[p].term in canon && l'[..p + 1] <= canon[l'[p].term]
    {
      if p < |l| {
        assert l'[p] == l[p] && l'[..p + 1] == l[..p + 1];
      } else {
        assert l'[..p + 1] == l';
      }
    }
  }

  lemma ExtendLogs(h: History, x: nat, c: Command)
    requires Inv(h) && Leads(h, x) && Grows(h, Extend(h, x, c))
    ensures Logs(Extend(h, x, c))
  {
    hide Elections, LeaderLogs, ServersKeep, VotesKeep, LeadersKeep, Choices, Acks, Chain, CurrentLogs, Shape;
    Sizes(h);
    LeadsCanon(h, x);
    var h' := Extend(h, x, c);
    ChainGrows(h.log[x], h, h');
    ChainSnoc(h.log[x], Entry(h.term[x], c), h'.canon);
    assert TermsAtMost(h.log[x] + [Entry(h.term[x], c)], h.term[x]);
    LogsFrame(h, h');
  }

  lemma ExtendLeaderLogs(h: History, x: nat, c: Command)
    requires Shape(h) && CurrentLogs(h) && LeaderLogs(h) && Leads(h, x) && Shape(Extend(h, x, c))
    ensures LeaderLogs(Extend(h, x, c))
  {
    var h' := Extend(h, x, c);
    forall t | t in h'.leader
      ensures Base(h', t) <= h'.canon[t]
      ensures forall p {:trigger h'.canon[t][p]} :: |Base(h', t)| <= p < |h'.canon[t]| ==> h'.canon[t][p].term == t
    {
      assert Base(h', t) == Base(h, t);
      assert h.canon[t] <= h'.canon[t];
      assert forall p :: 0 <= p < |h.canon[t]| ==> h'.canon[t][p] == h.canon[t][p];
    }
  }

  lemma ExtendCurrent(h: History, x: nat, c: Command)
    requires Shape(h) && CurrentLogs(h) && Leads(h, x) && Shape(Extend(h, x, c))
    ensures CurrentLogs(Extend(h, x, c))
  {
  }

  lemma ExtendAcks(h: History, x: nat, c: Command)
    requires Shape(h) && CurrentLogs(h) && Acks(h) && Leads(h, x) && Grows(h, Extend(h, x, c))
    ensures Acks(Extend(h, x, c))
  {
    hide Shape, Grows, CurrentLogs;
    Sizes(h);
    LeadsCanon(h, x);
    LeadsLog(h, x);
    var h' := Extend(h, x, c);
    forall a | a in h'.acks
      ensures a.0 < h'.n && a.1 in h'.canon && a.2 < |h'.canon[a.1]| && a.1 <= h'.term[a.0]
    {
      if a in h.acks {
        assert |h.canon[a.1]| <= |h'.canon[a.1]|;
      }
    }
  }

  /** An acknowledgement of `h'` that is not one of `h` is by `x`, in its current term. */
  ghost predicate NewAcksOf(h: History, h': History, x: nat)
    requires x < |h.term|
  {
    forall a :: a in h'.acks && a !in h.acks ==> a.0 == x && a.1 == h.term[x]
  }

  lemma VotesKeepAck(h: History, h': History, x: nat)
    requires Inv(h) && Grows(h, h') && x < h.n && NewAcksOf(h, h', x) && h'.term == h.term
    requires h'.leader == h.leader && h'.votes == h.votes && h'.cand == h.cand
    ensures VotesKeep(h')
  {
    hide Elections, LeaderLogs, LeadersKeep, Choices, Chain, Logs, CurrentLogs, Acks, ServersKeep;
    forall v: nat, u: int, t: int, m: nat {:trigger h'.votes[(v, u)], Acked(h', v, t, m)} |
      (v, u) in h'.votes && u !in h'.leader && (h'.votes[(v, u)], u) in h'.cand &&
      Acked(h', v, t, m) && Own(h', t, m) && t < u
      ensures Keeps(h', h'.canon[t][..m + 1], t, u, h'.cand[(h'.votes[(v, u)], u)])
    {
      OldAck(h, h', x, v, t, m, u);
      AckedInside(h, v, t, m);
      OwnFrame(h, h', t, m);
      KeepsGrows(h, h', h.canon[t][..m + 1], t, u, u, h.cand[(h.votes[(v, u)], u)]);
    }
  }

  lemma OldAck(h: History, h': History, x: nat, v: nat, t: int, m: nat, u: int)
    requires Shape(h) && x < h.n && NewAcksOf(h, h', x) && Acked(h', v, t, m)
    requires (v, u) in h.votes && t < u
    ensures Acked(h, v, t, m)
  {
    var m' :| m <= m' && (v, t, m') in h'.acks;
    assert u <= h.term[v];
    assert (v, t, m') in h.acks;
  }

  lemma LeadersKeepAck(h: History, h': History, x: nat)
    requires Inv(h) && Grows(h, h') && x < h.n && NewAcksOf(h, h', x) && h'.term == h.term
    requires h'.leader == h.leader
    ensures LeadersKeep(h')
  {
    hide LeaderLogs, VotesKeep, Choices, Chain, Logs, CurrentLogs, Acks, ServersKeep;
    forall v: nat, u: int, t: int, m: nat {:trigger v in h'.quorum[u], Acked(h', v, t, m)} |
      u in h'.leader && v in h'.quorum[u] && Acked(h', v, t, m) && Own(h', t, m) && t < u
      ensures Keeps(h', h'.canon[t][..m + 1], t, u, Base(h', u))
    {
      assert v in h.quorum[u] && (v, u) in h.votes;
      OldAck(h, h', x, v, t, m, u);
      AckedInside(h, v, t, m);
      OwnFrame(h, h', t, m);
      KeepsGrows(h, h', h.canon[t][..m + 1], t, u, u, Base(h, u));
    }
  }

  lemma ServersKeepAck(h: History, h': History, x: nat)
    requires Inv(h) && Grows(h, h') && x < h.n && NewAcksOf(h, h', x) && h'.term == h.term
    requires forall y :: 0 <= y < h.n && y != x ==> h'.log[y] == h.log[y]
    requires forall t: int, m: nat :: Acked(h', x, t, m) && Own(h', t, m) ==>
               Keeps(h', h'.canon[t][..m + 1], t, h.term[x] + 1, h'.log[x])
    ensures ServersKeep(h')
  {
    hide Elections, LeaderLogs, VotesKeep, Choices, Chain, Logs, CurrentLogs, Acks, LeadersKeep;
    forall v: nat, t: int, m: nat | Acked(h', v, t, m) && Own(h', t, m) && v < h'.n
      ensures Keeps(h', h'.canon[t][..m + 1], t, h'.term[v] + 1, h'.log[v])
    {
      if v != x {
        var m' :| m <= m' && (v, t, m') in h'.acks;
        assert (v, t, m') in h.acks;
        assert Acked(h, v, t, m);
        AckedInside(h, v, t, m);
        OwnFrame(h, h', t, m);
        KeepsGrows(h, h', h.canon[t][..m + 1], t, h.term[v] + 1, h'.term[v] + 1, h.log[v]);
      }
    }
  }

  /** An old acknowledgement by `x`, seen in the grown history. */
  lemma OldAckKeeps(h: History, h': History, x: nat, t: int, m: nat)
    requires Inv(h) && Grows(h, h') && x < h.n && NewAcksOf(h, h', x)
    requires Acked(h', x, t, m) && Own(h', t, m) && t != h.term[x]
    ensures t < h.term[x] && Own(h, t, m) && h'.canon[t][..m + 1] == h.canon[t][..m + 1]
    ensures Keeps(h, h.canon[t][..m + 1], t, h.term[x] + 1, h.log[x])
  {
    hide Elections, LeaderLogs, VotesKeep, LeadersKeep, Choices, Chain, Logs, Acks, CurrentLogs;
    var m' :| m <= m' && (x, t, m') in h'.acks;
    assert (x, t, m') in h.acks;
    assert Acked(h, x, t, m);
    AckedInside(h, x, t, m);
    OwnFrame(h, h', t, m);
  }

  lemma ExtendServers(h: History, x: nat, c: Command)
    requires Inv(h) && Leads(h, x) && Grows(h, Extend(h, x, c))
    ensures ServersKeep(Extend(h, x, c))
  {
    hide Elections, LeaderLogs, VotesKeep, LeadersKeep, Choices, Chain, Logs, Acks, CurrentLogs, ServersKeep;
    var h' := Extend(h, x, c);
    var u := h.term[x];
    forall t: int, m: nat | Acked(h', x, t, m) && Own(h', t, m)
      ensures Keeps(h', h'.canon[t][..m + 1], t, u + 1, h'.log[x])
    {
      if t != u {
        OldAckKeeps(h, h', x, t, m);
        KeepsLonger(h, h', h.canon[t][..m + 1], t, u + 1, h.log[x], h'.log[x]);
      }
    }
    ServersKeepAck(h, h', x);
  }

  lemma KeepsLonger(h: History, h': History, p: Log, t: int, u: int, l: Log, l': Log)
    requires Grows(h, h') && Keeps(h, p, t, u, l) && (p <= l ==> p <= l')
    ensures Keeps(h', p, t, u, l')
  {
    if !(p <= l) {
      KeepsGrows(h, h', p, t, u, u, l);
      var w :| w in h'.leader && t < w < u && !(p <= Base(h', w));
    }
  }

  lemma LeadsLog(h: History, x: nat)
    requires Shape(h) && CurrentLogs(h) && Leads(h, x)
    ensures x < |h.log| && h.term[x] in h.canon && h.log[x] == h.canon[h.term[x]]
  {
  }

  lemma LeadsCanon(h: History, x: nat)
    requires Shape(h) && Leads(h, x)
    ensures x < h.n == |h.term| && h.term[x] in h.canon && h.term[x] >= 1
  {
  }

  lemma ExtendInv(h: History, x: nat, c: Command)
    requires Inv(h) && Leads(h, x)
    ensures Inv(Extend(h, x, c)) && Grows(h, Extend(h, x, c))
  {
    hide Chain, Logs, LeaderLogs, CurrentLogs, Elections, Acks, ServersKeep, VotesKeep, LeadersKeep, Choices, Shape;
    Sizes(h);
    LeadsCanon(h, x);
    var h' := Extend(h, x, c);
    ExtendGrows(h, x, c);
    ExtendLogs(h, x, c);
    ExtendLeaderLogs(h, x, c);
    ExtendCurrent(h, x, c);
    ElectionsFrame(h, h');
    ExtendAcks(h, x, c);
    ExtendServers(h, x, c);
    VotesKeepAck(h, h', x);
    LeadersKeepAck(h, h', x);
    ChoicesFrame(h, h');
  }

  lemma AcceptShape(h: History, x: nat, l: Log)
    requires Shape(h) && FromLeader(h, x, l)
    ensures Shape(Accept(h, x, l))
  {
  }

  lemma AcceptGrows(h: History, x: nat, l: Log)
    requires Shape(h) && FromLeader(h, x, l)
    ensures Grows(h, Accept(h, x, l))
  {
    AcceptShape(h, x, l);
    hide Shape;
  }

  lemma PrefixChain(l: Log, c: Log, canon: map<int, Log>)
    requires l != [] && l <= c && Chain(c, canon)
    ensures Chain(l, canon)
  {
    forall p {:trigger l[p]} | 0 < p < |l|
      ensures l[p].term >= 1 && l[p].term in canon && l[..p + 1] <= canon[l[p].term]
    {
      assert l[p] == c[p] && l[..p + 1] == c[..p + 1];
    }
  }

  /** Changing one server's log, within its own term's leader's log, keeps the shape of all logs. */
  lemma TakeLogs(h: History, h': History, x: nat, l: Log)
    requires Inv(h) && Grows(h, h') && FromLeader(h, x, l)
    requires h'.log == h.log[x := l] && h'.term == h.term && h'.canon == h.canon && h'.cand == h.cand
    ensures Logs(h')
  {
    hide Elections, LeaderLogs, ServersKeep, VotesKeep, LeadersKeep, Choices, Acks, Chain, CurrentLogs, Shape;
    Sizes(h);
    PrefixChain(l, h.canon[h.term[x]], h.canon);
    assert TermsAtMost(l, h.term[x]) by {
      assert TermsAtMost(h.canon[h.term[x]], h.term[x]);
    }
    LogsFrame(h, h');
  }

  /** A leader's own log does not change when it meets a prefix of itself. */
  lemma TakeCurrent(h: History, h': History, x: nat, l: Log)
    requires Shape(h) && CurrentLogs(h) && Shape(h') && FromLeader(h, x, l)
    requires h'.term == h.term && h'.leader == h.leader && h'.canon == h.canon && h'.cand == h.cand
    requires h'.log == h.log[x := l]
    requires |h.log[x]| <= |l| || !(l <= h.log[x])
    ensures CurrentLogs(h')
  {
    forall t | t in h'.leader && h'.term[h'.leader[t]] == t
      ensures h'.log[h'.leader[t]] == h'.canon[t]
    {
      if h.leader[t] == x {
        assert h.log[x] == h.canon[t];
      }
    }
  }

  /** What `x` has acknowledged survives taking a prefix of its leader's log. */
  lemma TakeKeeps(h: History, x: nat, l: Log, p: Log, t: int)
    requires Shape(h) && LeaderLogs(h) && FromLeader(h, x, l)
    requires t <= h.term[x] && (t == h.term[x] ==> p <= h.canon[t])
    requires Keeps(h, p, t, h.term[x] + 1, h.log[x])
    requires |h.log[x]| <= |l| || !(l <= h.log[x])
    ensures Keeps(h, p, t, h.term[x] + 1, l)
  {
    var u := h.term[x];
    if p <= h.log[x] {
      if t < u && !(p <= Base(h, u)) {
        assert u in h.leader && t < u < u + 1 && !(p <= Base(h, u));
      } else {
        assert p <= h.canon[u];
        PrefixesCompare(p, l, h.canon[u]);
        assert l <= p ==> l <= h.log[x];
      }
    }
  }

  lemma AcceptServers(h: History, x: nat, l: Log)
    requires Inv(h) && FromLeader(h, x, l) && Grows(h, Accept(h, x, l))
    ensures ServersKeep(Accept(h, x, l))
  {
    hide Elections, VotesKeep, LeadersKeep, Choices, Chain, Logs, Acks, CurrentLogs, ServersKeep, LeaderLogs;
    var h' := Accept(h, x, l);
    var u := h.term[x];
    forall t: int, m: nat | Acked(h', x, t, m) && Own(h', t, m)
      ensures Keeps(h', h'.canon[t][..m + 1], t, u + 1, h'.log[x])
    {
      AcceptKeeps(h, x, l, t, m);
      KeepsGrows(h, h', h.canon[t][..m + 1], t, u + 1, u + 1, h'.log[x]);
    }
    ServersKeepAck(h, h', x);
  }

  lemma AcceptKeeps(h: History, x: nat, l: Log, t: int, m: nat)
    requires Inv(h) && FromLeader(h, x, l)
    requires Acked(Accept(h, x, l), x, t, m) && Own(h, t, m)
    ensures Keeps(h, h.canon[t][..m + 1], t, h.term[x] + 1, Merge(h.log[x], l))
  {
    hide Elections, VotesKeep, LeadersKeep, Choices, Chain, Logs, CurrentLogs, LeaderLogs;
    var u := h.term[x];
    var p := h.canon[t][..m + 1];
    var m' :| m <= m' && (x, t, m') in Accept(h, x, l).acks;
    if (x, t, m') in h.acks {
      assert Acked(h, x, t, m);
      assert Keeps(h, p, t, u + 1, h.log[x]);
      AckedInside(h, x, t, m);
      if !(l <= h.log[x]) {
        TakeKeeps(h, x, l, p, t);
      }
    } else {
      assert t == u && m' == |l| - 1;
      PrefixesCompare(p, l, h.canon[u]);
      assert p <= l <= Merge(h.log[x], l);
    }
  }

  lemma AcceptAcks(h: History, x: nat, l: Log)
    requires Shape(h) && Acks(h) && FromLeader(h, x, l) && Shape(Accept(h, x, l))
    ensures Acks(Accept(h, x, l))
  {
  }

  lemma Sizes(h: History)
    requires Shape(h)
    ensures |h.term| == |h.log| == h.n
  {
  }

  lemma AcceptInv(h: History, x: nat, l: Log)
    requires Inv(h) && FromLeader(h, x, l)
    ensures Inv(Accept(h, x, l)) && Grows(h, Accept(h, x, l))
  {
    hide Chain, Logs, LeaderLogs, CurrentLogs, Elections, Acks, ServersKeep, VotesKeep, LeadersKeep, Choices, Shape;
    Sizes(h);
    var h' := Accept(h, x, l);
    AcceptGrows(h, x, l);
    if l <= h.log[x] {
      assert h'.log == h.log;
      LogsFrame(h, h');
      CurrentFrame(h, h');
    } else {
      TakeLogs(h, h', x, l);
      TakeCurrent(h, h', x, l);
    }
    LeaderLogsFrame(h, h');
    ElectionsFrame(h, h');
    AcceptAcks(h, x, l);
    AcceptServers(h, x, l);
    VotesKeepAck(h, h', x);
    LeadersKeepAck(h, h', x);
    ChoicesFrame(h, h');
  }

  lemma CurrentFrame(h: History, h': History)
    requires Shape(h) && CurrentLogs(h) && Shape(h')
    requires h'.term == h.term && h'.leader == h.leader && h'.canon == h.canon && h'.cand == h.cand && h'.log == h.log
    ensures CurrentLogs(h')
  {
  }

  lemma ReplaceGrows(h: History, x: nat, l: Log)
    requires Shape(h) && FromLeader(h, x, l)
    ensures Grows(h, Replace(h, x, l))
  {
  }

  lemma ReplaceInv(h: History, x: nat, l: Log)
    requires Inv(h) && FromLeader(h, x, l) && |h.log[x]| <= |l|
    ensures Inv(Replace(h, x, l)) && Grows(h, Replace(h, x, l))
  {
    hide Chain, Logs, LeaderLogs, CurrentLogs, Elections, Acks, ServersKeep, VotesKeep, LeadersKeep, Choices;
    var h' := Replace(h, x, l);
    ReplaceGrows(h, x, l);
    TakeLogs(h, h', x, l);
    TakeCurrent(h, h', x, l);
    LeaderLogsFrame(h, h');
    ElectionsFrame(h, h');
    AcksFrame(h, h');
    ReplaceServers(h, x, l);
    VotesKeepAck(h, h', x);
    LeadersKeepAck(h, h', x);
    ChoicesFrame(h, h');
  }

  lemma ReplaceServers(h: History, x: nat, l: Log)
    requires Inv(h) && FromLeader(h, x, l) && |h.log[x]| <= |l| && Grows(h, Replace(h, x, l))
    ensures ServersKeep(Replace(h, x, l))
  {
    hide Elections, VotesKeep, LeadersKeep, Choices, Chain, Logs, Acks, CurrentLogs, LeaderLogs;
    var h' := Replace(h, x, l);
    var u := h.term[x];
    forall t: int, m: nat | Acked(h', x, t, m) && Own(h', t, m)
      ensures Keeps(h', h'.canon[t][..m + 1], t, u + 1, h'.log[x])
    {
      assert Acked(h, x, t, m) && Own(h, t, m);
      AckedInside(h, x, t, m);
      var p := h.canon[t][..m + 1];
      TakeKeeps(h, x, l, p, t);
      KeepsGrows(h, h', p, t, u + 1, u + 1, l);
    }
    ServersKeepAck(h, h', x);
  }

  lemma ChooseGrows(h: History, t: int, m: nat, q: set<nat>)
    requires Shape(h)
    ensures Grows(h, Choose(h, t, m, q))
  {
  }

  lemma ChooseInv(h: History, t: int, m: nat, q: set<nat>)
    requires Inv(h) && CanChoose(h, t, m, q)
    ensures Inv(Choose(h, t, m, q)) && Grows(h, Choose(h, t, m, q))
  {
    var h' := Choose(h, t, m, q);
    hide Shape, Chain, Logs, LeaderLogs, CurrentLogs, Elections, Acks, ServersKeep, VotesKeep, LeadersKeep, Choices;
    ChooseGrows(h, t, m, q);
    LogsFrame(h, h');
    LeaderLogsFrame(h, h');
    CurrentFrame(h, h');
    ElectionsFrame(h, h');
    AcksFrame(h, h');
    ServersKeepFrame(h, h');
    VotesKeepFrame(h, h');
    LeadersKeepFrame(h, h');
    ChooseChoices(h, t, m, q);
  }

  lemma ChooseChoices(h: History, t: int, m: nat, q: set<nat>)
    requires Shape(h) && Choices(h) && CanChoose(h, t, m, q) && Shape(Choose(h, t, m, q))
    ensures Choices(Choose(h, t, m, q))
  {
    hide Shape, Own, Acked, Quorum;
    var h' := Choose(h, t, m, q);
    forall c | c in h'.chosen
      ensures Own(h', c.0, c.1) && Quorum(h'.chosen[c], h'.n)
    {
      SameOwn(h, h', c.0, c.1);
    }
    forall c, v | c in h'.chosen && v in h'.chosen[c]
      ensures Acked(h', v, c.0, c.1)
    {
      SameAcked(h, h', v, c.0, c.1);
    }
  }

  lemma SameOwn(h: History, h': History, t: int, m: nat)
    requires h'.canon == h.canon
    ensures Own(h', t, m) <==> Own(h, t, m)
  {
  }

  lemma SameAcked(h: History, h': History, v: nat, t: int, m: nat)
    requires h'.acks == h.acks
    ensures Acked(h', v, t, m) <==> Acked(h, v, t, m)
  {
  }

  // ---------------------------------------------------------------- what follows

  /** Leader Completeness: a chosen prefix is in the log of every later leader, from its election on. */
  lemma {:induction false} LeaderHasChosen(h: History, t: int, m: nat, u: int)
    requires Inv(h) && (t, m) in h.chosen && u in h.leader && t < u
    ensures t in h.canon && m < |h.canon[t]| && h.canon[t][..m + 1] <= Base(h, u) <= h.canon[u]
    decreases u
  {
    hide VotesKeep, ServersKeep, Chain, Logs, CurrentLogs, Acks;
    var v := QuorumsIntersect(h.chosen[(t, m)], h.quorum[u], h.n);
    assert Acked(h, v, t, m);
    var p := h.canon[t][..m + 1];
    assert Keeps(h, p, t, u, Base(h, u));
    if !(p <= Base(h, u)) {
      var w :| w in h.leader && t < w < u && !(p <= Base(h, w));
      LeaderHasChosen(h, t, m, w);
      assert false;
    }
  }

  /** The prefix `l` is covered by an entry chosen in term `t` or earlier. */
  ghost predicate Committed(h: History, l: Log, t: int) {
    l == [ORIGIN] ||
    exists c :: c in h.chosen && c.0 in h.canon && c.0 <= t && 1 <= |l| <= c.1 + 1 && l <= h.canon[c.0]
  }

  lemma CommittedGrows(h: History, h': History, l: Log, t: int, t': int)
    requires Committed(h, l, t) && Grows(h, h') && t <= t'
    ensures Committed(h', l, t')
  {
    if l != [ORIGIN] {
      var c :| c in h.chosen && c.0 in h.canon && c.0 <= t && 1 <= |l| <= c.1 + 1 && l <= h.canon[c.0];
      assert c in h'.chosen && c.0 in h'.canon && c.0 <= t';
      assert l <= h.canon[c.0] <= h'.canon[c.0];
    }
  }

  lemma CommittedPrefix(h: History, l: Log, k: Log, t: int)
    requires Committed(h, l, t) && k != [] && k <= l
    ensures Committed(h, k, t)
  {
    if l != [ORIGIN] {
      var c :| c in h.chosen && c.0 in h.canon && c.0 <= t && 1 <= |l| <= c.1 + 1 && l <= h.canon[c.0];
      assert k <= h.canon[c.0];
    }
  }

  lemma LeaderStart(h: History, u: int)
    requires Shape(h) && Logs(h) && u in h.leader
    ensures [ORIGIN] <= h.canon[u]
  {
    assert Chain(h.canon[u], h.canon);
  }

  /** Whatever is committed by term `t` is in the log of the leader of `t` and of every later one. */
  lemma CommittedInLeader(h: History, l: Log, t: int, u: int)
    requires Inv(h) && Committed(h, l, t) && u in h.leader && t <= u
    ensures l <= h.canon[u]
  {
    hide VotesKeep, ServersKeep, LeadersKeep, CurrentLogs, Acks, Elections, LeaderLogs, Choices, Logs;
    if l == [ORIGIN] {
      LeaderStart(h, u);
    } else {
      var c :| c in h.chosen && c.0 in h.canon && c.0 <= t && 1 <= |l| <= c.1 + 1 && l <= h.canon[c.0];
      if c.0 < u {
        LeaderHasChosen(h, c.0, c.1, u);
        assert l <= h.canon[c.0][..c.1 + 1] <= h.canon[u];
      }
    }
  }

  /** Two committed prefixes never disagree. */
  lemma CommittedAgree(h: History, l: Log, t: int, k: Log, u: int)
    requires Inv(h) && Committed(h, l, t) && Committed(h, k, u)
    ensures Comparable(l, k)
  {
    hide VotesKeep, ServersKeep, LeadersKeep, CurrentLogs, Acks, Elections, LeaderLogs, Logs, Choices;
    if l == [ORIGIN] {
      CommittedStart(h, k, u);
    } else if k == [ORIGIN] {
      CommittedStart(h, l, t);
    } else {
      var c :| c in h.chosen && c.0 in h.canon && c.0 <= t && 1 <= |l| <= c.1 + 1 && l <= h.canon[c.0];
      var d :| d in h.chosen && d.0 in h.canon && d.0 <= u && 1 <= |k| <= d.1 + 1 && k <= h.canon[d.0];
      assert Committed(h, l, c.0) && Committed(h, k, d.0);
      var top := if c.0 <= d.0 then d.0 else c.0;
      CommittedInLeader(h, l, c.0, top);
      CommittedInLeader(h, k, d.0, top);
      PrefixesCompare(l, k, h.canon[top]);
    }
  }

  lemma CommittedStart(h: History, k: Log, u: int)
    requires Inv(h) && Committed(h, k, u)
    ensures [ORIGIN] <= k
  {
    hide VotesKeep, ServersKeep, LeadersKeep, CurrentLogs, Acks, Elections, LeaderLogs, Choices;
    if k != [ORIGIN] {
      var d :| d in h.chosen && d.0 in h.canon && d.0 <= u && 1 <= |k| <= d.1 + 1 && k <= h.canon[d.0];
      assert Chain(h.canon[d.0], h.canon);
    }
  }

  /** Two winners of one term are the same server. */
  lemma OneWinner(h: History, t: int, x: nat, q: set<nat>)
    requires Inv(h) && t in h.leader && Quorum(q, h.n)
    requires forall v :: v in q ==> (v, t) in h.votes && h.votes[(v, t)] == x
    ensures h.leader[t] == x
  {
    var v := QuorumsIntersect(q, h.quorum[t], h.n);
  }
}
