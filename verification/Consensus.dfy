/**
 The consensus argument, over whole uncompacted logs.

 A `History` records what the run has done so far: each server's term and full log, every vote
 ever cast, the log each candidate stood with, the log of each term's leader, every acknowledged
 match, and every entry a leader has committed by counting a majority. Its events are what the
 code's steps amount to once offsets and snapshots are erased.
 */
module Consensus {
  import opened RaftLog

  datatype History = History(
    n: nat,
    term: seq<int>,                          // current term of each server
    log: seq<Log>,                           // full log of each server
    votes: map<(nat, int), nat>,             // (voter, term) -> candidate
    cand: map<(nat, int), Log>,              // (candidate, term) -> the log it stood with
    leader: map<int, nat>,                   // term -> elected server
    canon: map<int, Log>,                    // term -> log of that term's leader
    quorum: map<int, set<nat>>,              // term -> the voters that elected its leader
    acks: set<(nat, int, nat)>,              // (server, term, index): holds canon[term] up to index
    chosen: map<(int, nat), set<nat>>        // (term, index) committed by that majority
  )

  function InitHistory(n: nat): History {
    History(n, seq(n, _ => 0), seq(n, _ => [ORIGIN]), map[], map[], map[], map[], map[], {}, map[])
  }

  // ---------------------------------------------------------------- the invariant

  /** Every entry of `l` was made by the leader of its term, on top of exactly the prefix it has in `l`. */
  ghost predicate Chain(l: Log, canon: map<int, Log>) {
    && |l| >= 1
    && l[0] == ORIGIN
    && forall p {:trigger l[p]} :: 0 < p < |l| ==>
         l[p].term >= 1 && l[p].term in canon && l[..p + 1] <= canon[l[p].term]
  }

  ghost predicate TermsAtMost(l: Log, t: int) {
    forall p {:trigger l[p]} :: 0 <= p < |l| ==> l[p].term <= t
  }

  ghost predicate Shape(h: History) {
    && |h.term| == h.n && |h.log| == h.n
    && h.leader.Keys == h.canon.Keys == h.quorum.Keys
    && (forall x :: 0 <= x < h.n ==> h.term[x] >= 0)
    && (forall t :: t in h.leader ==> t >= 1 && h.leader[t] < h.n && (h.leader[t], t) in h.cand)
    && (forall k :: k in h.votes ==> k.0 < h.n && h.votes[k] < h.n && k.1 <= h.term[k.0] && k.1 <= h.term[h.votes[k]])
    && (forall k :: k in h.cand ==> k.0 < h.n && k.1 <= h.term[k.0])
  }

  ghost predicate Logs(h: History)
    requires Shape(h)
  {
    && (forall x :: 0 <= x < h.n ==> Chain(h.log[x], h.canon) && TermsAtMost(h.log[x], h.term[x]))
    && (forall t :: t in h.canon ==> Chain(h.canon[t], h.canon) && TermsAtMost(h.canon[t], t))
    && (forall k :: k in h.cand ==> Chain(h.cand[k], h.canon) && TermsAtMost(h.cand[k], k.1 - 1))
  }

  /** The log the leader of `t` was elected with. */
  ghost function Base(h: History, t: int): Log
    requires Shape(h) && t in h.leader
  {
    h.cand[(h.leader[t], t)]
  }

  /** A leader's log extends the one it was elected with, by entries of its own term. */
  ghost predicate LeaderLogs(h: History)
    requires Shape(h)
  {
    forall t :: t in h.leader ==>
      && Base(h, t) <= h.canon[t]
      && forall p {:trigger h.canon[t][p]} :: |Base(h, t)| <= p < |h.canon[t]| ==> h.canon[t][p].term == t
  }

  /** A server still in the term it leads, or stands in, has the log the history records. */
  ghost predicate CurrentLogs(h: History)
    requires Shape(h)
  {
    && (forall t :: t in h.leader && h.term[h.leader[t]] == t ==> h.log[h.leader[t]] == h.canon[t])
    && (forall k :: k in h.cand && h.term[k.0] == k.1 && k.1 !in h.leader ==> h.log[k.0] == h.cand[k])
  }

  ghost predicate Elections(h: History)
    requires Shape(h)
  {
    && (forall t :: t in h.leader ==> Quorum(h.quorum[t], h.n))
    && (forall t, v :: t in h.leader && v in h.quorum[t] ==> (v, t) in h.votes && h.votes[(v, t)] == h.leader[t])
  }

  ghost predicate Acks(h: History)
    requires Shape(h)
  {
    && (forall a :: a in h.acks ==> a.0 < h.n && a.1 in h.canon && a.2 < |h.canon[a.1]| && a.1 <= h.term[a.0])
    && (forall t :: t in h.leader && h.canon[t] != [] && Last(h.canon[t]).term == t ==>
          (h.leader[t], t, |h.canon[t]| - 1) in h.acks)
  }

  /** Server `v` has acknowledged index `m` (or more) of the log of the leader of `t`. */
  ghost predicate Acked(h: History, v: nat, t: int, m: nat) {
    exists m' :: m <= m' && (v, t, m') in h.acks
  }

  /** Index `m` of the leader of `t`'s log holds an entry of term `t` itself. */
  ghost predicate Own(h: History, t: int, m: nat) {
    t in h.canon && 0 < m < |h.canon[t]| && h.canon[t][m].term == t
  }

  /** `l` contains `p`, unless some leader between `t` and `u` was elected without it. */
  ghost predicate Keeps(h: History, p: Log, t: int, u: int, l: Log)
    requires Shape(h)
  {
    p <= l || exists w :: w in h.leader && t < w < u && !(p <= Base(h, w))
  }

  ghost predicate ServersKeep(h: History)
    requires Shape(h)
  {
    forall v: nat, t: int, m: nat :: Acked(h, v, t, m) && Own(h, t, m) && v < h.n ==>
      Keeps(h, h.canon[t][..m + 1], t, h.term[v] + 1, h.log[v])
  }

  ghost predicate VotesKeep(h: History)
    requires Shape(h)
  {
    forall v: nat, u: int, t: int, m: nat {:trigger h.votes[(v, u)], Acked(h, v, t, m)} ::
      (v, u) in h.votes && u !in h.leader && (h.votes[(v, u)], u) in h.cand &&
      Acked(h, v, t, m) && Own(h, t, m) && t < u ==>
        Keeps(h, h.canon[t][..m + 1], t, u, h.cand[(h.votes[(v, u)], u)])
  }

  ghost predicate LeadersKeep(h: History)
    requires Shape(h)
  {
    forall v: nat, u: int, t: int, m: nat {:trigger v in h.quorum[u], Acked(h, v, t, m)} ::
      u in h.leader && v in h.quorum[u] && Acked(h, v, t, m) && Own(h, t, m) && t < u ==>
        Keeps(h, h.canon[t][..m + 1], t, u, Base(h, u))
  }

  ghost predicate Choices(h: History)
    requires Shape(h)
  {
    && (forall c :: c in h.chosen ==> Own(h, c.0, c.1) && Quorum(h.chosen[c], h.n))
    && (forall c, v :: c in h.chosen && v in h.chosen[c] ==> Acked(h, v, c.0, c.1))
  }

  ghost predicate Inv(h: History) {
    && Shape(h) && Logs(h) && LeaderLogs(h) && CurrentLogs(h) && Elections(h) && Acks(h)
    && ServersKeep(h) && VotesKeep(h) && LeadersKeep(h) && Choices(h)
  }

  // ---------------------------------------------------------------- events

  /** A server adopts a later term. */
  function AdoptTerm(h: History, x: nat, t: int): History
    requires x < |h.term|
  {
    h.(term := h.term[x := t])
  }

  /** A server starts an election in the next term and votes for itself. */
  function Stand(h: History, x: nat): History
    requires x < |h.term| && x < |h.log|
  {
    var t := h.term[x] + 1;
    h.(term := h.term[x := t], votes := h.votes[(x, t) := x], cand := h.cand[(x, t) := h.log[x]])
  }

  ghost predicate CanVote(h: History, x: nat, c: nat)
    requires Shape(h)
  {
    && x < h.n && c < h.n && h.log[x] != []
    && h.term[x] <= h.term[c]
    && ((x, h.term[x]) in h.votes ==> h.votes[(x, h.term[x])] == c)
    && ((c, h.term[x]) in h.cand && h.term[x] !in h.leader ==>
          var l := h.cand[(c, h.term[x])];
          l != [] && UpToDate(Last(l).term, |l| - 1, Last(h.log[x]).term, |h.log[x]| - 1))
  }

  function Vote(h: History, x: nat, c: nat): History
    requires x < |h.term|
  {
    h.(votes := h.votes[(x, h.term[x]) := c])
  }

  ghost predicate CanWin(h: History, x: nat, q: set<nat>)
    requires Shape(h)
  {
    && x < h.n && (x, h.term[x]) in h.cand && h.term[x] >= 1
    && h.term[x] !in h.leader
    && Quorum(q, h.n)
    && forall v :: v in q ==> (v, h.term[x]) in h.votes && h.votes[(v, h.term[x])] == x
  }

  function Win(h: History, x: nat, q: set<nat>): History
    requires x < |h.term| && x < |h.log|
  {
    var t := h.term[x];
    h.(leader := h.leader[t := x], canon := h.canon[t := h.log[x]], quorum := h.quorum[t := q])
  }

  ghost predicate Leads(h: History, x: nat)
    requires Shape(h)
  {
    x < h.n && h.term[x] in h.leader && h.leader[h.term[x]] == x
  }

  /** A leader appends a new command to its log. */
  function Extend(h: History, x: nat, c: Command): History
    requires x < |h.term| && x < |h.log| && h.term[x] in h.canon
  {
    var t := h.term[x];
    var l := h.log[x] + [Entry(t, c)];
    h.(log := h.log[x := l], canon := h.canon[t := l], acks := h.acks + {(x, t, |h.log[x]|)})
  }

  /** What a follower's full log becomes when it takes the prefix `l` of its leader's log. */
  function Merge(mine: Log, l: Log): (r: Log)
    ensures l <= r
  {
    if l <= mine then mine else l
  }

  ghost predicate FromLeader(h: History, x: nat, l: Log)
    requires Shape(h)
  {
    x < h.n && h.term[x] in h.canon && l != [] && l <= h.canon[h.term[x]]
  }

  /** A follower takes the prefix `l` of its term's leader's log and acknowledges it. */
  function Accept(h: History, x: nat, l: Log): History
    requires x < |h.term| && x < |h.log| && l != []
  {
    h.(log := h.log[x := Merge(h.log[x], l)], acks := h.acks + {(x, h.term[x], |l| - 1)})
  }

  /** A follower's log, no longer than the installed snapshot, is replaced by what the snapshot covers. */
  function Replace(h: History, x: nat, l: Log): History
    requires x < |h.log|
  {
    h.(log := h.log[x := l])
  }

  ghost predicate CanChoose(h: History, t: int, m: nat, q: set<nat>) {
    Own(h, t, m) && Quorum(q, h.n) && forall v :: v in q ==> Acked(h, v, t, m)
  }

  function Choose(h: History, t: int, m: nat, q: set<nat>): History {
    h.(chosen := h.chosen[(t, m) := q])
  }

  // ---------------------------------------------------------------- histories only grow

  ghost predicate Grows(h: History, h': History) {
    && Shape(h) && Shape(h')
    && h'.n == h.n
    && (forall x :: 0 <= x < h.n ==> h.term[x] <= h'.term[x])
    && (forall k :: k in h.votes ==> k in h'.votes && h'.votes[k] == h.votes[k])
    && (forall k :: k in h.cand ==> k in h'.cand && h'.cand[k] == h.cand[k])
    && (forall t :: t in h.leader ==> t in h'.leader && h'.leader[t] == h.leader[t] && h'.quorum[t] == h.quorum[t])
    && (forall t :: t in h.canon ==> t in h'.canon && h.canon[t] <= h'.canon[t])
    && h.acks <= h'.acks
    && (forall c :: c in h.chosen ==> c in h'.chosen)
  }

  lemma GrowsTransitive(a: History, b: History, c: History)
    requires Grows(a, b) && Grows(b, c)
    ensures Grows(a, c)
  {
    forall t | t in a.canon
      ensures t in c.canon && a.canon[t] <= c.canon[t]
    {
      assert a.canon[t] <= b.canon[t] <= c.canon[t];
    }
  }

  lemma ChainGrows(l: Log, h: History, h': History)
    requires Grows(h, h') && Chain(l, h.canon)
    ensures Chain(l, h'.canon)
  {
    forall p {:trigger l[p]} | 0 < p < |l|
      ensures l[p].term >= 1 && l[p].term in h'.canon && l[..p + 1] <= h'.canon[l[p].term]
    {
      assert l[..p + 1] <= h.canon[l[p].term] <= h'.canon[l[p].term];
    }
  }

  lemma KeepsGrows(h: History, h': History, p: Log, t: int, u: int, u': int, l: Log)
    requires Grows(h, h') && Keeps(h, p, t, u, l) && u <= u'
    ensures Keeps(h', p, t, u', l)
  {
    if !(p <= l) {
      var w :| w in h.leader && t < w < u && !(p <= Base(h, w));
      assert Base(h', w) == Base(h, w);
      assert w in h'.leader && t < w < u';
    }
  }

  lemma ChainTermsOrdered(l: Log, h: History, p: nat, q: nat)
    requires Shape(h) && Logs(h) && Chain(l, h.canon) && p <= q < |l|
    ensures l[p].term <= l[q].term
  {
    if p < q {
      var t := l[q].term;
      assert l[..q + 1] <= h.canon[t];
      assert l[p] == l[..q + 1][p] == h.canon[t][p];
      assert TermsAtMost(h.canon[t], t);
    }
  }

  lemma EntryTerm(l: Log, canon: map<int, Log>, i: nat)
    requires Chain(l, canon) && 0 < i < |l|
    ensures l[i].term >= 1
  {
  }

  /** Two chains that hold the same term at the same index agree up to that index. */
  lemma ChainsAgree(a: Log, b: Log, canon: map<int, Log>, p: nat)
    requires Chain(a, canon) && Chain(b, canon)
    requires p < |a| && p < |b| && a[p].term == b[p].term
    ensures a[..p + 1] == b[..p + 1]
  {
    if p > 0 {
      var c := canon[a[p].term];
      assert a[..p + 1] == c[..p + 1];
      assert b[..p + 1] == c[..p + 1];
    }
  }
}
