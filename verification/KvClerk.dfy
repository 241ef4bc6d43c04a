/** What the key/value handlers report. */
module KvRpc {
  datatype Err = OK | ErrNoKey | ErrWrongLeader
}

/** The clerk: a client that retries until it is answered. */
module KvClerk {
  import opened KvRpc

  /** What one remote call brought back; not `arrived` means it was lost. */
  datatype Outcome = Outcome(arrived: bool, err: Err, value: string)

  predicate Refused(o: Outcome) {
    !o.arrived || o.err == ErrWrongLeader
  }

  /** How many outcomes a clerk goes through before the first one that is not refused. */
  function Refusals(outcomes: seq<Outcome>): (r: nat)
    ensures r <= |outcomes|
    ensures r < |outcomes| ==> outcomes[r].arrived && outcomes[r].err != ErrWrongLeader
    ensures forall i :: 0 <= i < r ==> !outcomes[i].arrived || outcomes[i].err == ErrWrongLeader
  {
    if outcomes == [] || !Refused(outcomes[0]) then 0 else 1 + Refusals(outcomes[1..])
  }

  lemma RefusalsAt(outcomes: seq<Outcome>, i: nat)
    requires i <= |outcomes| && forall j :: 0 <= j < i ==> Refused(outcomes[j])
    requires i < |outcomes| ==> !Refused(outcomes[i])
    ensures Refusals(outcomes) == i
  {
  }

  // ---------------------------------------------------------------- going round

  lemma DivMod(x: nat, m: nat)
    requires m > 0
    ensures x == (x / m) * m + x % m && 0 <= x % m < m
  {
  }

  lemma Multiples(a: int, b: int, m: int)
    requires m > 0
    ensures a * m - b * m == (a - b) * m && (a > b ==> (a - b) * m >= m)
  {
    if a > b {
      Multiple(a - b, m);
    }
  }

  lemma Multiple(d: int, m: int)
    requires d >= 1 && m > 0
    ensures d * m >= m
  {
  }

  lemma SameQuotient(a: int, b: int, r: int, s: int, m: int)
    requires m > 0 && a * m + r == b * m + s && 0 <= r < m && 0 <= s < m
    ensures a == b && r == s
  {
    Multiples(a, b, m);
    Multiples(b, a, m);
  }

  lemma Remainder(x: nat, q: int, r: int, m: nat)
    requires 0 <= r < m && x == q * m + r
    ensures x % m == r
  {
    DivMod(x, m);
    SameQuotient(x / m, q, x % m, r, m);
  }

  /** Whom a clerk that starts with `leader` asks after `k` refusals. */
  function Turn(leader: nat, k: nat, servers: nat): (s: nat)
    requires servers > 0
    ensures s < servers
  {
    (leader + k) % servers
  }

  /** One step further round, from the last server to the first. */
  lemma NextTurn(leader: nat, k: nat, servers: nat)
    requires servers > 0
    ensures var s := Turn(leader, k, servers);
            Turn(leader, k + 1, servers) == (s + 1) % servers == if s + 1 < servers then s + 1 else 0
  {
    var x := leader + k;
    var q, s := x / servers, x % servers;
    DivMod(x, servers);
    if s + 1 < servers {
      Remainder(x + 1, q, s + 1, servers);
      Remainder(s + 1, 0, s + 1, servers);
    } else {
      Multiples(q + 1, q, servers);
      Remainder(x + 1, q + 1, 0, servers);
      Remainder(servers, 1, 0, servers);
    }
  }

  lemma FirstTurn(leader: nat, servers: nat)
    requires leader < servers
    ensures Turn(leader, 0, servers) == leader
  {
    Remainder(leader, 0, leader, servers);
  }

  lemma TurnIs(leader: nat, k: nat, servers: nat)
    requires servers > 0
    ensures Turn(leader, k, servers) == (leader + k) % servers
  {
  }

  /** Among any `servers` attempts in a row, every server is asked exactly once. */
  lemma EveryServerAsked(leader: nat, servers: nat, k: nat, s: nat) returns (i: nat)
    requires s < servers
    ensures k <= i < k + servers && Turn(leader, i, servers) == s
    ensures forall j: nat :: k <= j < k + servers && Turn(leader, j, servers) == s ==> j == i
  {
    var x := leader + k;
    var q, r := x / servers, x % servers;
    DivMod(x, servers);
    Multiples(q + 1, q, servers);
    i := if s >= r then k + (s - r) else k + (s + servers - r);
    Remainder(leader + i, if s >= r then q else q + 1, s, servers);
    hide Turn;
    forall j: nat | k <= j < k + servers && Turn(leader, j, servers) == s
      ensures j == i
    {
      SameTurn(leader, i, j, servers);
    }
  }

  lemma SameTurn(leader: nat, i: nat, j: nat, servers: nat)
    requires servers > 0 && Turn(leader, i, servers) == Turn(leader, j, servers)
    requires i < j + servers && j < i + servers
    ensures i == j
  {
    var x, y := leader + i, leader + j;
    DivMod(x, servers);
    DivMod(y, servers);
    Multiples(x / servers, y / servers, servers);
    Multiples(y / servers, x / servers, servers);
  }

  class Clerk {
    const clientId: int
    const servers: nat
    var seqNum: int
    var leader: nat

    constructor (servers: nat, clientId: int)
      requires servers > 0
      ensures this.servers == servers && this.clientId == clientId && seqNum == 1 && leader == 0
    {
      this.servers, this.clientId := servers, clientId;
      seqNum, leader := 1, 0;
    }

    predicate Valid()
      reads this
    {
      leader < servers
    }

    /**
     Retry, moving on from server to server in a circle, until an answer comes. The request keeps its
     number through all attempts, and the number grows by one exactly when it is answered. `asked` is
     whom each attempt went to.
     */
    method Get(key: string, outcomes: seq<Outcome>)
        returns (args: (string, int, int), asked: seq<nat>, answered: bool, value: string)
      requires Valid()
      modifies this
      ensures Valid() && args == (key, clientId, old(seqNum))
      ensures var r := Refusals(outcomes);
              && answered == (r < |outcomes|)
              && |asked| == (if answered then r + 1 else r)
              && (forall i :: 0 <= i < |asked| ==> asked[i] == Turn(old(leader), i, servers))
              && leader == (old(leader) + r) % servers
              && seqNum == old(seqNum) + (if answered then 1 else 0)
              && (answered ==> value == if outcomes[r].err == ErrNoKey then "" else outcomes[r].value)
    {
      hide Turn;
      args := (key, clientId, seqNum);
      asked, answered, value := [], false, "";
      var i := 0;
      FirstTurn(leader, servers);
      while i < |outcomes| && Refused(outcomes[i])
        invariant 0 <= i <= |outcomes| && Valid() && seqNum == old(seqNum)
        invariant forall j :: 0 <= j < i ==> Refused(outcomes[j])
        invariant leader == Turn(old(leader), i, servers) && |asked| == i
        invariant forall j :: 0 <= j < i ==> asked[j] == Turn(old(leader), j, servers)
      {
        asked := asked + [leader];
        NextTurn(old(leader), i, servers);
        leader := (leader + 1) % servers;
        i := i + 1;
      }
      RefusalsAt(outcomes, i);
      TurnIs(old(leader), i, servers);
      if i < |outcomes| {
        asked := asked + [leader];
        seqNum := seqNum + 1;
        answered := true;
        value := if outcomes[i].err == ErrNoKey then "" else outcomes[i].value;
      }
    }
  }
}
