/** Log entries and whole logs. Index 0 of a log is a sentinel; the first real entry has index 1. */
module RaftLog {
  import opened KvOps

  datatype Command = NoCommand | Request(op: Op)

  datatype Entry = Entry(term: int, command: Command)

  type Log = seq<Entry>

  const ORIGIN := Entry(-1, NoCommand)

  function Last(l: Log): Entry
    requires l != []
  {
    l[|l| - 1]
  }

  /** The commands of a log, without the sentinel. */
  function Commands(l: Log): seq<Command>
    requires l != []
  {
    seq(|l| - 1, i requires 0 <= i < |l| - 1 => l[i + 1].command)
  }

  /** The comparison a voter makes between a candidate's last entry and its own. */
  predicate UpToDate(lastTerm: int, lastIndex: int, myTerm: int, myIndex: int) {
    lastTerm > myTerm || (lastTerm == myTerm && lastIndex >= myIndex)
  }

  predicate Comparable<T(==)>(a: seq<T>, b: seq<T>) {
    a <= b || b <= a
  }

  lemma PrefixesCompare<T>(a: seq<T>, b: seq<T>, c: seq<T>)
    requires a <= c && b <= c
    ensures |a| <= |b| ==> a <= b
    ensures |b| <= |a| ==> b <= a
  {
  }

  lemma CommandsOfPrefix(a: Log, b: Log)
    requires a != [] && a <= b
    ensures Commands(a) <= Commands(b)
  {
  }

  /** A majority of servers 0 .. n-1. */
  ghost predicate Quorum(q: set<nat>, n: nat) {
    (forall v :: v in q ==> v < n) && 2 * |q| > n
  }

  lemma {:induction false} BoundedSetSize(s: set<nat>, n: nat)
    requires forall v :: v in s ==> v < n
    ensures |s| <= n
  {
    if n == 0 {
      assert s == {};
    } else {
      var s' := s - {n - 1};
      BoundedSetSize(s', n - 1);
      if n - 1 in s {
        assert s == s' + {n - 1};
      } else {
        assert s == s';
      }
    }
  }

  lemma QuorumsIntersect(q1: set<nat>, q2: set<nat>, n: nat) returns (v: nat)
    requires Quorum(q1, n) && Quorum(q2, n)
    ensures v in q1 && v in q2
  {
    BoundedSetSize(q1 + q2, n);
    assert q1 !! q2 ==> |q1 + q2| == |q1| + |q2|;
    v :| v in q1 && v in q2;
  }
}
