/**
 The linearizability checker: a backtracking search that lifts operations out of a doubly linked
 list of events, undoes its choices, and remembers the configurations it has been in.
 */
module Checker {
  import opened Linearizability
  import opened DancingLinks
  import opened CheckerSearch
  import opened CheckerInvariant

  /** A node's payload: an input, an output, or nothing at the head. */
  datatype Payload<V> = Nil | Of(value: V)

  class Node<V> {
    const payload: Payload<V>
    const ret: Node?<V>            // a call's return; null for a return and for the head
    const id: int
    var next: Node?<V>
    var prev: Node?<V>

    constructor (payload: Payload<V>, ret: Node?<V>, id: int)
      ensures this.payload == payload && this.ret == ret && this.id == id && next == null && prev == null
    {
      this.payload, this.ret, this.id, this.next, this.prev := payload, ret, id, null, null;
    }
  }

  // ---------------------------------------------------------------- the list in memory

  ghost function At<V>(nodes: seq<Node<V>>, p: nat): Node?<V> {
    if p < |nodes| then nodes[p] else null
  }

  ghost predicate Different<V>(nodes: seq<Node<V>>) {
    forall i, j :: 0 <= i < j < |nodes| ==> nodes[i] != nodes[j]
  }

  /** The nodes' pointers are those of `k`. */
  ghost predicate Mirrors<V>(nodes: seq<Node<V>>, k: Links)
    reads nodes
  {
    && |k.next| == |k.prev| == |nodes|
    && (forall p :: 0 <= p < |nodes| ==> nodes[p].next == At(nodes, k.next[p]))
    && (forall p :: 0 <= p < |nodes| ==> nodes[p].prev == At(nodes, k.prev[p]))
  }

  /** Node p carries the event at history position p - 1; a call knows its return. */
  ghost predicate Labelled<V>(nodes: seq<Node<V>>, h: History<V>) {
    && |nodes| == |h| + 1 && nodes[0].ret == null
    && forall p :: 1 <= p <= |h| ==>
         && nodes[p].id == h[p - 1].id && nodes[p].payload == Of(h[p - 1].value)
         && nodes[p].ret == if h[p - 1].isReturn then null else At(nodes, RetAt(h, h[p - 1].id))
  }

  /** A call leaves the list. Its successor exists, so the code does not test for it. */
  method UnlinkCall<V>(e: Node<V>, ghost nodes: seq<Node<V>>, ghost k: Links, ghost p: nat)
    requires Mirrors(nodes, k) && Different(nodes) && p < |nodes| && nodes[p] == e
    requires k.prev[p] < |nodes| && k.prev[p] != p && k.next[p] < |nodes|
    modifies nodes
    ensures Mirrors(nodes, Unlink(k, p))
  {
    e.prev.next := e.next;
    e.next.prev := e.prev;
  }

  /** A return leaves the list, at whose end it may be. */
  method UnlinkReturn<V>(e: Node<V>, ghost nodes: seq<Node<V>>, ghost k: Links, ghost p: nat)
    requires Mirrors(nodes, k) && Different(nodes) && p < |nodes| && nodes[p] == e
    requires k.prev[p] < |nodes| && k.prev[p] != p
    modifies nodes
    ensures Mirrors(nodes, Unlink(k, p))
  {
    e.prev.next := e.next;
    if e.next != null {
      e.next.prev := e.prev;
    }
  }

  method RelinkCall<V>(e: Node<V>, ghost nodes: seq<Node<V>>, ghost k: Links, ghost p: nat)
    requires Mirrors(nodes, k) && Different(nodes) && p < |nodes| && nodes[p] == e
    requires k.prev[p] < |nodes| && k.prev[p] != p && k.next[p] < |nodes|
    modifies nodes
    ensures Mirrors(nodes, Relink(k, p))
  {
    e.prev.next := e;
    e.next.prev := e;
  }

  method RelinkReturn<V>(e: Node<V>, ghost nodes: seq<Node<V>>, ghost k: Links, ghost p: nat)
    requires Mirrors(nodes, k) && Different(nodes) && p < |nodes| && nodes[p] == e
    requires k.prev[p] < |nodes| && k.prev[p] != p
    modifies nodes
    ensures Mirrors(nodes, Relink(k, p))
  {
    e.prev.next := e;
    if e.next != null {
      e.next.prev := e;
    }
  }

  /** Take a call and its return out of the list. */
  method Lift<V>(e: Node<V>, ghost nodes: seq<Node<V>>, ghost h: History<V>, ghost ids: seq<nat>, ghost id: nat)
    requires WellFormed(h) && Chosen(h, ids) && id < Ops(h) && id !in ids && Chosen(h, ids + [id])
    requires Different(nodes) && Labelled(nodes, h) && Mirrors(nodes, ListAfter(h, ids))
    requires CallAt(h, id) < |nodes| && nodes[CallAt(h, id)] == e
    modifies nodes
    ensures Mirrors(nodes, ListAfter(h, ids + [id]))
  {
    hide *;
    ghost var k, c, r := ListAfter(h, ids), CallAt(h, id), RetAt(h, id);
    CallNode(nodes, h, id);
    MirrorsSize(nodes, ListAfter(h, ids));
    LiftFacts(h, ids, id);
    UnlinkCall(e, nodes, k, c);
    UnlinkReturn(e.ret, nodes, Unlink(k, c), r);
  }

  /** Put the call and return last taken out back into the list. */
  method Unlift<V>(e: Node<V>, ghost nodes: seq<Node<V>>, ghost h: History<V>, ghost ids: seq<nat>, ghost id: nat)
    requires WellFormed(h) && Chosen(h, ids) && id < Ops(h) && id !in ids && Chosen(h, ids + [id])
    requires Different(nodes) && Labelled(nodes, h) && Mirrors(nodes, ListAfter(h, ids + [id]))
    requires CallAt(h, id) < |nodes| && nodes[CallAt(h, id)] == e
    modifies nodes
    ensures Mirrors(nodes, ListAfter(h, ids))
  {
    hide *;
    ghost var k, c, r := ListAfter(h, ids), CallAt(h, id), RetAt(h, id);
    CallNode(nodes, h, id);
    MirrorsSize(nodes, ListAfter(h, ids + [id]));
    LiftFacts(h, ids, id);
    RelinkReturn(e.ret, nodes, Unlink(Unlink(k, c), r), r);
    RelinkCall(e, nodes, Unlink(k, c), c);
  }

  /** A call still in the list is not at its end: its own return, at the latest, comes after it. */
  lemma CallHasNext<V>(h: History<V>, ids: seq<nat>, id: nat)
    requires WellFormed(h) && Chosen(h, ids) && id < Ops(h) && id !in ids
    ensures CallAt(h, id) < |ListAfter(h, ids).next|
    ensures CallAt(h, id) < ListAfter(h, ids).next[CallAt(h, id)] <= RetAt(h, id) <= |h|
  {
    hide WellFormed, Chosen, Gone, Consistent, ListAfter, CallAt, RetAt;
    NotGone(h, ids, id);
    ConsistentBasics(ListAfter(h, ids), |h| + 1, Gone(h, ids));
    NextInList(ListAfter(h, ids), |h| + 1, Gone(h, ids), CallAt(h, id));
  }

  /** The list before, between and after taking out the two events of an operation. */
  lemma LiftFacts<V>(h: History<V>, ids: seq<nat>, id: nat)
    requires WellFormed(h) && Chosen(h, ids) && id < Ops(h) && id !in ids && Chosen(h, ids + [id])
    ensures var k, c, r, n := ListAfter(h, ids), CallAt(h, id), RetAt(h, id), |h| + 1;
            && c < r < n && |k.next| == |k.prev| == n && k.prev[c] < n && k.prev[c] != c && k.next[c] < n
            && var k1 := Unlink(k, c);
               && |k1.next| == |k1.prev| == n && k1.prev[c] == k.prev[c] && k1.next[c] == k.next[c]
               && k1.prev[r] < n && k1.prev[r] != r
               && var k2 := Unlink(k1, r);
                  && |k2.next| == |k2.prev| == n && k2.prev[r] == k1.prev[r]
                  && ListAfter(h, ids + [id]) == k2 && Relink(k2, r) == k1 && Relink(k1, c) == k
  {
    hide WellFormed, Chosen, Gone, Consistent, ListAfter, CallAt, RetAt;
    var k, n, gone, c, r := ListAfter(h, ids), |h| + 1, Gone(h, ids), CallAt(h, id), RetAt(h, id);
    NotGone(h, ids, id);
    CallHasNext(h, ids, id);
    LinkedBack(k, n, gone, c);
    UnlinkConsistent(k, n, gone, c);
    RelinkUndoes(k, n, gone, c);
    LinkedBack(Unlink(k, c), n, gone + {c}, r);
    RelinkUndoes(Unlink(k, c), n, gone + {c}, r);
    ListSnoc(h, ids, id);
    UnlinkKeeps(k, c);
    UnlinkKeeps(Unlink(k, c), r);
  }

  lemma UnlinkKeeps(k: Links, p: nat)
    requires p < |k.next| && p < |k.prev| && k.prev[p] < p && p < k.next[p]
    ensures Unlink(k, p).prev[p] == k.prev[p] && Unlink(k, p).next[p] == k.next[p]
  {
  }

  lemma LinkedBack(k: Links, n: nat, gone: set<nat>, p: nat)
    requires Consistent(k, n, gone) && 1 <= p < n && p !in gone
    ensures |k.next| == |k.prev| == n && k.prev[p] < p && p < k.next[p]
  {
    assert PrevOK(k, n, gone, p) && NextOK(k, n, gone, p);
  }

  lemma CallNode<V>(nodes: seq<Node<V>>, h: History<V>, id: nat)
    requires WellFormed(h) && Labelled(nodes, h) && id < Ops(h)
    ensures 1 <= CallAt(h, id) < RetAt(h, id) < |nodes|
    ensures nodes[CallAt(h, id)].ret == nodes[RetAt(h, id)] && nodes[CallAt(h, id)].id == id
    ensures nodes[CallAt(h, id)].payload == Of(h[CallPos(h, id)].value)
    ensures nodes[RetAt(h, id)].payload == Of(h[RetPos(h, id)].value)
  {
    WellFormedOp(h, id);
  }

  lemma ListSnoc<V>(h: History<V>, ids: seq<nat>, id: nat)
    requires WellFormed(h) && Chosen(h, ids) && id < Ops(h) && id !in ids && Chosen(h, ids + [id])
    ensures var k, c, r := ListAfter(h, ids), CallAt(h, id), RetAt(h, id);
            && c < |k.next| && c < |k.prev| && k.prev[c] < |k.next|
            && var k1 := Unlink(k, c);
               r < |k1.next| && r < |k1.prev| && k1.prev[r] < |k1.next| && ListAfter(h, ids + [id]) == Unlink(k1, r)
  {
    hide WellFormed, Consistent, Gone, Unlink;
    assert Front(ids + [id]) == ids;
    LiftedOK(h, ListAfter(h, ids), ids, id);
  }

  // ---------------------------------------------------------------- building the list

  method InsertBefore<V>(n: Node<V>, mark: Node?<V>)
    requires n != mark && n.next == null && n.prev == null && (mark != null ==> mark.prev != n && mark.prev != mark)
    modifies n, if mark == null then {} else {mark}, if mark == null || mark.prev == null then {} else {mark.prev}
    ensures mark == null ==> n.next == null && n.prev == null
    ensures mark != null ==> n.next == mark && mark.prev == n && n.prev == old(mark.prev) && mark.next == old(mark.next)
    ensures mark != null && old(mark.prev) != null ==> old(mark.prev).next == n
  {
    if mark != null {
      var beforeMark := mark.prev;
      mark.prev := n;
      n.next := mark;
      if beforeMark != null {
        n.prev := beforeMark;
        beforeMark.next := n;
      }
    }
  }

  /** The nodes from history position `from` on, linked in order. */
  ghost predicate Strung<V>(nodes: seq<Node<V>>)
    reads nodes
  {
    && (forall p :: 0 <= p < |nodes| ==> nodes[p].next == At(nodes, p + 1))
    && (nodes != [] ==> nodes[0].prev == null)
    && (forall p {:trigger nodes[p].prev} :: 1 <= p < |nodes| ==> nodes[p].prev == nodes[p - 1])
  }

  /** The node of position `p`, in a list that starts at position `from`. */
  ghost predicate CarriesAt<V>(nodes: seq<Node<V>>, h: History<V>, from: nat, p: nat)
    requires from <= p < |h| && |nodes| + from == |h|
  {
    var e := nodes[p - from];
    && e.id == h[p].id && e.payload == Of(h[p].value)
    && (h[p].isReturn ==> e.ret == null)
    && (!h[p].isReturn && from <= RetPos(h, h[p].id) < |h| ==> e.ret == nodes[RetPos(h, h[p].id) - from])
  }

  ghost predicate Carries<V>(nodes: seq<Node<V>>, h: History<V>, from: nat) {
    |nodes| + from == |h| && forall p :: from <= p < |h| ==> CarriesAt(nodes, h, from, p)
  }

  /** A new node in front of the list that starts at `root`. */
  method Prepend<V>(payload: Payload<V>, ret: Node?<V>, id: int, root: Node?<V>, ghost nodes: seq<Node<V>>)
      returns (entry: Node<V>)
    requires Different(nodes) && Strung(nodes) && root == At(nodes, 0)
    modifies nodes
    ensures entry.payload == payload && entry.ret == ret && entry.id == id
    ensures fresh(entry) && Different([entry] + nodes) && Strung([entry] + nodes)
  {
    assert nodes != [] ==> nodes[0].prev == null;
    entry := new Node(payload, ret, id);
    InsertBefore(entry, root);
    ghost var all := [entry] + nodes;
    assert forall p :: 1 <= p < |all| ==> all[p] == nodes[p - 1];
  }

  method MakeLinkedEntries<V>(h: History<V>) returns (root: Node?<V>, ghost nodes: seq<Node<V>>)
    requires WellFormed(h)
    ensures |nodes| == |h| && Different(nodes) && Strung(nodes) && Carries(nodes, h, 0)
    ensures root == At(nodes, 0)
    ensures forall p :: 0 <= p < |nodes| ==> fresh(nodes[p])
  {
    hide WellFormed, Carries, Strung, Different;
    root, nodes := null, [];
    var match_: map<nat, Node<V>> := map[];
    var i := |h|;
    assert Different(nodes) && Strung(nodes) && Carries(nodes, h, i) by {
      NoNodes(nodes, h);
    }
    while i > 0
      invariant 0 <= i <= |h| && |nodes| + i == |h|
      invariant root == At(nodes, 0)
      invariant forall p :: 0 <= p < |nodes| ==> fresh(nodes[p])
      invariant Different(nodes) && Strung(nodes) && Carries(nodes, h, i)
      invariant Returns(h, nodes, i, match_)
    {
      i := i - 1;
      var elem := h[i];
      EventPosition(h, i);
      var ret := if elem.isReturn then null else if elem.id in match_ then match_[elem.id] else null;
      var entry := Prepend(Of(elem.value), ret, elem.id, root, nodes);
      CarriesCons(nodes, entry, h, i);
      ReturnsCons(h, nodes, entry, i, match_);
      if elem.isReturn {
        match_ := match_[elem.id := entry];
      }
      nodes := [entry] + nodes;
      root := entry;
    }
  }

  lemma NoNodes<V>(nodes: seq<Node<V>>, h: History<V>)
    requires nodes == []
    ensures Different(nodes) && Strung(nodes) && Carries(nodes, h, |h|)
  {
  }

  /** The map of returns met so far. */
  ghost predicate Returns<V>(h: History<V>, nodes: seq<Node<V>>, from: nat, r: map<nat, Node<V>>)
    requires |nodes| + from == |h|
  {
    forall id: nat :: id < Ops(h) && from <= RetPos(h, id) < |h| ==> id in r && r[id] == nodes[RetPos(h, id) - from]
  }

  lemma ReturnsCons<V>(h: History<V>, nodes: seq<Node<V>>, e: Node<V>, i: nat, r: map<nat, Node<V>>)
    requires WellFormed(h) && i < |h| && |nodes| + i + 1 == |h| && Returns(h, nodes, i + 1, r)
    ensures Returns(h, [e] + nodes, i, if h[i].isReturn then r[h[i].id := e] else r)
  {
    hide WellFormed;
    var r' := if h[i].isReturn then r[h[i].id := e] else r;
    EventPosition(h, i);
    forall id: nat | id < Ops(h) && i <= RetPos(h, id) < |h|
      ensures id in r' && r'[id] == ([e] + nodes)[RetPos(h, id) - i]
    {
      EventPosition(h, RetPos(h, id));
    }
  }

  lemma EventPosition<V>(h: History<V>, p: nat)
    requires WellFormed(h) && p < |h|
    ensures h[p].id < Ops(h) && CallPos(h, h[p].id) < RetPos(h, h[p].id) < |h|
    ensures p == if h[p].isReturn then RetPos(h, h[p].id) else CallPos(h, h[p].id)
  {
  }

  lemma CarriesCons<V>(nodes: seq<Node<V>>, e: Node<V>, h: History<V>, i: nat)
    requires WellFormed(h) && i < |h| && Carries(nodes, h, i + 1)
    requires e.id == h[i].id && e.payload == Of(h[i].value) && (h[i].isReturn ==> e.ret == null)
    requires !h[i].isReturn ==> i < RetPos(h, h[i].id) < |h| && e.ret == nodes[RetPos(h, h[i].id) - i - 1]
    ensures Carries([e] + nodes, h, i)
  {
    hide WellFormed;
    forall p | i <= p < |h|
      ensures CarriesAt([e] + nodes, h, i, p)
    {
      if p > i {
        assert CarriesAt(nodes, h, i + 1, p);
        EventPosition(h, p);
      }
    }
  }

  // ---------------------------------------------------------------- the cache

  type Config<S> = (set<nat>, S)

  /** The buckets hold exactly the configurations of `seen`, each under its set's hash. */
  ghost predicate Caches<S(!new)>(cache: map<int, seq<Config<S>>>, hash: set<nat> -> int, seen: set<Config<S>>) {
    forall c: Config<S> :: c in seen <==> hash(c.0) in cache && c in cache[hash(c.0)]
  }

  method CacheContains<S(==, !new)>(cache: map<int, seq<Config<S>>>, hash: set<nat> -> int, c: Config<S>)
      returns (found: bool)
    ensures found <==> hash(c.0) in cache && c in cache[hash(c.0)]
  {
    if hash(c.0) !in cache {
      return false;
    }
    var bucket := cache[hash(c.0)];
    for i := 0 to |bucket|
      invariant c !in bucket[..i]
    {
      if c.0 == bucket[i].0 && c.1 == bucket[i].1 {
        return true;
      }
    }
    assert bucket[..|bucket|] == bucket;
    found := false;
  }

  function CacheAdd<S>(cache: map<int, seq<Config<S>>>, hash: set<nat> -> int, c: Config<S>): map<int, seq<Config<S>>> {
    cache[hash(c.0) := (if hash(c.0) in cache then cache[hash(c.0)] else []) + [c]]
  }

  lemma CacheAdds<S(!new)>(cache: map<int, seq<Config<S>>>, hash: set<nat> -> int, seen: set<Config<S>>, c: Config<S>)
    requires Caches(cache, hash, seen)
    ensures Caches(CacheAdd(cache, hash, c), hash, seen + {c})
  {
  }

  // ---------------------------------------------------------------- the search

  /** The call stack records the chosen operations, each with the state before it. */
  ghost predicate StackOK<S(!new), V>(m: Model<S, V>, h: History<V>, nodes: seq<Node<V>>, ids: seq<nat>,
      calls: seq<(Node<V>, S)>)
    requires WellFormed(h) && Chosen(h, ids)
  {
    |calls| == |ids| &&
    (ids != [] ==>
       && CallAt(h, Final(ids)) < |nodes| &&
           calls[|calls| - 1] == (nodes[CallAt(h, Final(ids))], StateAfter(m, h, Front(ids)))
       && StackOK(m, h, nodes, Front(ids), calls[..|calls| - 1]))
  }

  lemma StackSnoc<S(!new), V>(m: Model<S, V>, h: History<V>, nodes: seq<Node<V>>, ids: seq<nat>,
      calls: seq<(Node<V>, S)>, id: nat)
    requires WellFormed(h) && Chosen(h, ids) && Chosen(h, ids + [id]) && StackOK(m, h, nodes, ids, calls) &&
             CallAt(h, id) < |nodes|
    ensures StackOK(m, h, nodes, ids + [id], calls + [(nodes[CallAt(h, id)], StateAfter(m, h, ids))])
  {
    hide WellFormed, StateAfter;
    var calls' := calls + [(nodes[CallAt(h, id)], StateAfter(m, h, ids))];
    assert Front(ids + [id]) == ids;
    assert calls'[..|calls'| - 1] == calls;
  }

  /** The node the scan is at, while any operation is left. */
  ghost predicate Current<V>(h: History<V>, nodes: seq<Node<V>>, ids: seq<nat>, pos: nat, entry: Node?<V>) {
    |ids| < Ops(h) ==> 1 <= pos < |nodes| && entry == nodes[pos]
  }

  lemma StrungMirrors<V>(nodes: seq<Node<V>>)
    requires nodes != [] && Strung(nodes)
    ensures Mirrors(nodes, Whole(|nodes|))
  {
    var k := Whole(|nodes|);
    forall p | 0 <= p < |nodes|
      ensures nodes[p].next == At(nodes, k.next[p]) && nodes[p].prev == At(nodes, k.prev[p])
    {
      assert k.next[p] == p + 1;
      assert p > 0 ==> k.prev[p] == p - 1;
    }
  }

  lemma ListStart<V>(h: History<V>, nodes0: seq<Node<V>>, head: Node<V>)
    requires WellFormed(h) && |nodes0| == |h| && Strung([head] + nodes0)
    ensures Mirrors([head] + nodes0, ListAfter(h, []))
  {
    hide WellFormed, Consistent, Whole, Strung, Mirrors;
    StrungMirrors([head] + nodes0);
  }

  lemma LabelStart<V>(h: History<V>, nodes0: seq<Node<V>>, head: Node<V>)
    requires WellFormed(h) && Carries(nodes0, h, 0) && head.ret == null
    ensures Labelled([head] + nodes0, h)
  {
    hide WellFormed;
    var nodes := [head] + nodes0;
    forall p | 1 <= p <= |h|
      ensures nodes[p].id == h[p - 1].id && nodes[p].payload == Of(h[p - 1].value)
      ensures nodes[p].ret == if h[p - 1].isReturn then null else At(nodes, RetAt(h, h[p - 1].id))
    {
      assert CarriesAt(nodes0, h, 0, p - 1);
      EventPosition(h, p - 1);
    }
  }

  lemma EventNode<V>(nodes: seq<Node<V>>, h: History<V>, pos: nat)
    requires WellFormed(h) && Labelled(nodes, h) && 1 <= pos <= |h|
    ensures var e := h[pos - 1];
            && nodes[pos].id == e.id && e.id < Ops(h) && CallPos(h, e.id) < |h| && RetPos(h, e.id) < |h|
            && (nodes[pos].ret == null <==> e.isReturn)
            && (!e.isReturn ==>
                  && CallAt(h, e.id) == pos < RetAt(h, e.id) < |nodes| && nodes[pos].ret == nodes[RetAt(h, e.id)]
                  && nodes[pos].payload == Of(h[CallPos(h, e.id)].value)
                  && nodes[RetAt(h, e.id)].payload == Of(h[RetPos(h, e.id)].value))
  {
    EventPosition(h, pos - 1);
  }

  lemma PointsTo<V>(nodes: seq<Node<V>>, k: Links, p: nat)
    requires Mirrors(nodes, k) && p < |nodes|
    ensures nodes[p].next == At(nodes, k.next[p])
  {
  }

  lemma Fewer<T>(a: set<T>, seen: set<T>, c: T)
    requires c in a && c !in seen
    ensures |a - (seen + {c})| < |a - seen|
  {
    assert a - seen == (a - (seen + {c})) + {c};
  }

  // ---------------------------------------------------------------- one iteration

  lemma StartFacts<S(!new), V>(m: Model<S, V>, h: History<V>, nodes0: seq<Node<V>>, head: Node<V>, entry: Node?<V>,
      hash: set<nat> -> int)
    requires WellFormed(h) && |nodes0| == |h| && Strung([head] + nodes0) && Carries(nodes0, h, 0) && head.ret == null
    requires entry == At(nodes0, 0)
    ensures var nodes := [head] + nodes0;
            && Labelled(nodes, h) && SearchOK(m, h, [], 1, {}) && Chosen(h, []) && Mirrors(nodes, ListAfter(h, []))
            && Elements([]) == {} && m.init == StateAfter(m, h, []) && StackOK(m, h, nodes, [], [])
            && Current(h, nodes, [], 1, entry)
    ensures Caches<S>(map[], hash, {})
  {
    hide WellFormed, Mirrors, Labelled, Carries, Strung, SearchOK;
    ListStart(h, nodes0, head);
    LabelStart(h, nodes0, head);
    StartOK(m, h);
  }

  /** The scan is at a node of the list; a call carries its input and its return the output. */
  lemma AtEvent<S(!new), V>(m: Model<S, V>, h: History<V>, nodes: seq<Node<V>>, ids: seq<nat>, pos: nat,
      seen: set<Config<S>>, entry: Node?<V>)
    requires WellFormed(h) && SearchOK(m, h, ids, pos, seen) && Chosen(h, ids) && Labelled(nodes, h) &&
             Mirrors(nodes, ListAfter(h, ids))
    requires nodes != [] && nodes[0].next != null && Current(h, nodes, ids, pos, entry)
    ensures |ids| < Ops(h) && 1 <= pos <= |h| < |nodes| && entry == nodes[pos] && entry.id == h[pos - 1].id
    ensures entry.ret == null <==> h[pos - 1].isReturn
    ensures CallPos(h, h[pos - 1].id) < |h| && RetPos(h, h[pos - 1].id) < |h| && h[pos - 1].id < Ops(h)
    ensures entry.ret != null ==>
              && entry.payload.Of? && entry.ret.payload.Of? && CallAt(h, h[pos - 1].id) == pos
              && m.step(StateAfter(m, h, ids), entry.payload.value, entry.ret.payload.value) ==
                  StepOf(m, h, StateAfter(m, h, ids), h[pos - 1].id)
  {
    hide WellFormed, Labelled, StateAfter, Sound, LevelsOK, SeenOK, Scanned, Gone, Consistent, Mirrors;
    LabelledSize(nodes, h);
    FirstLeft(h, ids);
    MirrorsSize(nodes, ListAfter(h, ids));
    PointsTo(nodes, ListAfter(h, ids), 0);
    EventNode(nodes, h, pos);
  }

  lemma LabelledSize<V>(nodes: seq<Node<V>>, h: History<V>)
    requires Labelled(nodes, h)
    ensures |nodes| == |h| + 1
  {
  }

  lemma MirrorsSize<V>(nodes: seq<Node<V>>, k: Links)
    requires Mirrors(nodes, k)
    ensures |k.next| == |k.prev| == |nodes|
  {
  }

  /** A rejected or remembered choice fails. */
  lemma CallFails<S(!new), V>(m: Model<S, V>, h: History<V>, ids: seq<nat>, pos: nat, seen: set<Config<S>>)
    requires WellFormed(h) && SearchOK(m, h, ids, pos, seen) && |ids| < Ops(h) && 1 <= pos <= |h| &&
             !h[pos - 1].isReturn
    requires Chosen(h, ids) && CallPos(h, h[pos - 1].id) < |h| && RetPos(h, h[pos - 1].id) < |h|
    requires var t := StepOf(m, h, StateAfter(m, h, ids), h[pos - 1].id);
             !t.0 || (Elements(ids) + {h[pos - 1].id}, t.1) in seen
    ensures Fails(m, h, Elements(ids), StateAfter(m, h, ids), h[pos - 1].id)
  {
    hide WellFormed, StateAfter, Sound, LevelsOK, SeenOK, Scanned, Gone, Reachable;
    if StepOf(m, h, StateAfter(m, h, ids), h[pos - 1].id).0 {
      ScanReachesCall(m, h, ids, pos);
      EventOp(h, pos);
      SeenFails(m, h, ids, h[pos - 1].id, seen);
    }
  }

  lemma SkipFacts<S(!new), V>(m: Model<S, V>, h: History<V>, nodes: seq<Node<V>>, ids: seq<nat>, pos: nat,
      seen: set<Config<S>>)
    requires WellFormed(h) && SearchOK(m, h, ids, pos, seen) && |ids| < Ops(h) && 1 <= pos <= |h| &&
             !h[pos - 1].isReturn
    requires Chosen(h, ids) && CallPos(h, h[pos - 1].id) < |h| && RetPos(h, h[pos - 1].id) < |h|
    requires var t := StepOf(m, h, StateAfter(m, h, ids), h[pos - 1].id);
             !t.0 || (Elements(ids) + {h[pos - 1].id}, t.1) in seen
    requires |nodes| == |h| + 1 && Mirrors(nodes, ListAfter(h, ids))
    ensures pos < |ListAfter(h, ids).next|
    ensures var pos' := ListAfter(h, ids).next[pos];
            pos < pos' <= |h| && SearchOK(m, h, ids, pos', seen) && nodes[pos].next == nodes[pos']
            && Current(h, nodes, ids, pos', nodes[pos].next)
  {
    hide WellFormed, StateAfter, SearchOK, Fails, Mirrors, Consistent;
    CallFails(m, h, ids, pos, seen);
    MirrorsSize(nodes, ListAfter(h, ids));
    PointsTo(nodes, ListAfter(h, ids), pos);
    Skip(m, h, ids, pos, ListAfter(h, ids).next[pos], seen);
  }

  lemma PushFacts<S(!new), V>(m: Model<S, V>, h: History<V>, nodes: seq<Node<V>>, ids: seq<nat>, pos: nat,
      seen: set<Config<S>>, calls: seq<(Node<V>, S)>)
    requires WellFormed(h) && SearchOK(m, h, ids, pos, seen) && |ids| < Ops(h) && 1 <= pos <= |h| < |nodes| &&
             !h[pos - 1].isReturn
    requires Chosen(h, ids) && CallPos(h, h[pos - 1].id) < |h| && RetPos(h, h[pos - 1].id) < |h| &&
             CallAt(h, h[pos - 1].id) == pos
    requires StackOK(m, h, nodes, ids, calls)
    requires StepOf(m, h, StateAfter(m, h, ids), h[pos - 1].id).0
    requires (Elements(ids) + {h[pos - 1].id}, StepOf(m, h, StateAfter(m, h, ids), h[pos - 1].id).1) !in seen
    ensures var id := h[pos - 1].id;
            var c := (Elements(ids) + {id}, StepOf(m, h, StateAfter(m, h, ids), id).1);
            && id < Ops(h) && id !in ids && Chosen(h, ids + [id]) && StateAfter(m, h, ids + [id]) == c.1 &&
                Elements(ids + [id]) == c.0
            && ListAfter(h, ids + [id]).next != []
            && SearchOK(m, h, ids + [id], ListAfter(h, ids + [id]).next[0], seen + {c})
            && StackOK(m, h, nodes, ids + [id], calls + [(nodes[pos], StateAfter(m, h, ids))])
            && |Reachable(m, h, Ops(h)) - (seen + {c})| < |Reachable(m, h, Ops(h)) - seen|
  {
    hide WellFormed, StateAfter, SearchOK, StackOK, Reachable;
    var id := h[pos - 1].id;
    EventOp(h, pos);
    Push(m, h, ids, pos, seen);
    NewId(m, h, ids, pos, seen);
    StackSnoc(m, h, nodes, ids, calls, id);
    Fewer(Reachable(m, h, Ops(h)), seen, (Elements(ids) + {id}, StepOf(m, h, StateAfter(m, h, ids), id).1));
  }

  lemma NewId<S(!new), V>(m: Model<S, V>, h: History<V>, ids: seq<nat>, pos: nat, seen: set<Config<S>>)
    requires WellFormed(h) && SearchOK(m, h, ids, pos, seen) && |ids| < Ops(h) && 1 <= pos <= |h| &&
             !h[pos - 1].isReturn
    ensures h[pos - 1].id !in ids
  {
    hide WellFormed, StateAfter, Sound, LevelsOK, SeenOK, Scanned, Gone, Reachable;
    ScanReachesCall(m, h, ids, pos);
  }

  /** After a choice, the scan resumes at the front of the list. */
  lemma FrontNode<V>(h: History<V>, nodes: seq<Node<V>>, ids: seq<nat>)
    requires WellFormed(h) && Chosen(h, ids) && |nodes| == |h| + 1 && Mirrors(nodes, ListAfter(h, ids))
    ensures ListAfter(h, ids).next != [] && Current(h, nodes, ids, ListAfter(h, ids).next[0], nodes[0].next)
  {
    hide WellFormed, Mirrors, Consistent, Gone;
    MirrorsSize(nodes, ListAfter(h, ids));
    PointsTo(nodes, ListAfter(h, ids), 0);
    FirstLeft(h, ids);
  }

  lemma StackTop<S(!new), V>(m: Model<S, V>, h: History<V>, nodes: seq<Node<V>>, ids: seq<nat>,
      calls: seq<(Node<V>, S)>)
    requires WellFormed(h) && Chosen(h, ids) && ids != [] && Chosen(h, Front(ids)) && StackOK(m, h, nodes, ids, calls)
    ensures |calls| == |ids| && CallAt(h, Final(ids)) < |nodes|
    ensures calls[|calls| - 1] == (nodes[CallAt(h, Final(ids))], StateAfter(m, h, Front(ids)))
    ensures StackOK(m, h, nodes, Front(ids), calls[..|calls| - 1])
  {
    hide WellFormed, Chosen, StateAfter;
  }

  /** The choice to undo, and where the scan goes on after it. */
  lemma PopFacts<S(!new), V>(m: Model<S, V>, h: History<V>, nodes: seq<Node<V>>, ids: seq<nat>, pos: nat,
      seen: set<Config<S>>, calls: seq<(Node<V>, S)>)
    requires WellFormed(h) && SearchOK(m, h, ids, pos, seen) && Chosen(h, ids) && |ids| < Ops(h) && ids != []
    requires 1 <= pos <= |h| && |nodes| == |h| + 1 && h[pos - 1].isReturn && Labelled(nodes, h) &&
             StackOK(m, h, nodes, ids, calls)
    ensures var front, id := Front(ids), Final(ids);
            && |calls| == |ids| && ids == front + [id] && Chosen(h, front) && id < Ops(h) && id !in front
            && 1 <= CallAt(h, id) < |nodes| && nodes[CallAt(h, id)].id == id
            && calls[|calls| - 1] == (nodes[CallAt(h, id)], StateAfter(m, h, front))
            && StackOK(m, h, nodes, front, calls[..|calls| - 1])
            && Elements(front) == Elements(ids) - {id}
            && CallAt(h, id) < |ListAfter(h, front).next|
            && var pos' := ListAfter(h, front).next[CallAt(h, id)];
               1 <= pos' <= |h| && SearchOK(m, h, front, pos', seen)
  {
    hide WellFormed, StateAfter, SearchOK, Labelled, Consistent, Gone, Elements, Distinct, Chosen, StackOK, ListAfter,
         CallAt, RetAt;
    var front, id := Front(ids), Final(ids);
    assert ids == front + [id];
    hide Front, Final;
    ChosenFront(h, ids);
    StackTop(m, h, nodes, ids, calls);
    CallNode(nodes, h, id);
    ElementsSnoc(ids);
    InElements(front, id);
    ConsistentBasics(ListAfter(h, front), |h| + 1, Gone(h, front));
    Pop(m, h, ids, pos, ListAfter(h, front).next[CallAt(h, id)], seen);
  }

  /**
   The checker is exact and terminates: it answers true if and only if the history is linearizable.
   Every iteration remembers a configuration not seen before, or undoes a choice, or moves on in the list.
   */
  method CheckSingle<S(==, !new), V>(m: Model<S, V>, h: History<V>, hash: set<nat> -> int) returns (ok: bool)
    requires WellFormed(h)
    ensures ok <==> Linearizable(m, h)
  {
    hide *;
    var entry, nodes0 := MakeLinkedEntries(h);
    var linearized: set<nat> := {};
    var cache: map<int, seq<Config<S>>> := map[];
    var calls: seq<(Node<V>, S)> := [];
    var state := m.init;
    var headEntry := Prepend<V>(Nil, null, -1, entry, nodes0);
    ghost var nodes := [headEntry] + nodes0;
    ghost var ids: seq<nat> := [];
    ghost var pos: nat := 1;
    ghost var seen: set<Config<S>> := {};
    StartFacts(m, h, nodes0, headEntry, entry, hash);
    while headEntry.next != null
      invariant fresh(nodes) && nodes != [] && nodes[0] == headEntry && |nodes| == |h| + 1
      invariant Different(nodes) && Labelled(nodes, h)
      invariant SearchOK(m, h, ids, pos, seen) && Chosen(h, ids)
      invariant Mirrors(nodes, ListAfter(h, ids))
      invariant linearized == Elements(ids) && state == StateAfter(m, h, ids)
      invariant StackOK(m, h, nodes, ids, calls) && |calls| == |ids|
      invariant Current(h, nodes, ids, pos, entry)
      invariant Caches(cache, hash, seen)
      decreases |Reachable(m, h, Ops(h)) - seen|, |ids|, |h| + 1 - pos
    {
      AtEvent(m, h, nodes, ids, pos, seen, entry);
      if entry.ret != null {
        var matching := entry.ret;
        var (accepted, newState) := m.step(state, entry.payload.value, matching.payload.value);
        var id: nat := entry.id;
        var newConfig := (linearized + {id}, newState);
        var found := CacheContains(cache, hash, newConfig);
        CachesMeans(cache, hash, seen, newConfig);
        if accepted && !found {
          CacheAdds(cache, hash, seen, newConfig);
          PushFacts(m, h, nodes, ids, pos, seen, calls);
          cache := CacheAdd(cache, hash, newConfig);
          calls := calls + [(entry, state)];
          state := newState;
          linearized := linearized + {id};
          Lift(entry, nodes, h, ids, id);
          seen, ids := seen + {newConfig}, ids + [id];
          pos := ListAfter(h, ids).next[0];
          FrontNode(h, nodes, ids);
          entry := headEntry.next;
        } else {
          SkipFacts(m, h, nodes, ids, pos, seen);
          pos := ListAfter(h, ids).next[pos];
          entry := entry.next;
        }
      } else {
        if |calls| == 0 {
          Exhausted(m, h, pos, seen);
          return false;
        }
        PopFacts(m, h, nodes, ids, pos, seen, calls);
        var callsTop := calls[|calls| - 1];
        entry := callsTop.0;
        state := callsTop.1;
        var id: nat := entry.id;
        linearized := linearized - {id};
        calls := calls[..|calls| - 1];
        ids := Front(ids);
        Unlift(entry, nodes, h, ids, id);
        pos := ListAfter(h, ids).next[CallAt(h, id)];
        NextNode(h, nodes, ids, CallAt(h, id));
        entry := entry.next;
      }
    }
    Complete(m, h, nodes, ids, pos, seen);
    ok := true;
  }

  lemma CachesMeans<S(!new)>(cache: map<int, seq<Config<S>>>, hash: set<nat> -> int, seen: set<Config<S>>, c: Config<S>)
    requires Caches(cache, hash, seen)
    ensures c in seen <==> hash(c.0) in cache && c in cache[hash(c.0)]
  {
  }

  lemma NextNode<V>(h: History<V>, nodes: seq<Node<V>>, ids: seq<nat>, p: nat)
    requires WellFormed(h) && Chosen(h, ids) && |nodes| == |h| + 1 && Mirrors(nodes, ListAfter(h, ids)) && p < |nodes|
    ensures |ListAfter(h, ids).next| == |nodes|
    ensures var q := ListAfter(h, ids).next[p];
            nodes[p].next == At(nodes, q) && (1 <= q <= |h| ==> Current(h, nodes, ids, q, nodes[p].next))
  {
    hide WellFormed, Mirrors, Consistent;
    MirrorsSize(nodes, ListAfter(h, ids));
    PointsTo(nodes, ListAfter(h, ids), p);
  }

  lemma Complete<S(!new), V>(m: Model<S, V>, h: History<V>, nodes: seq<Node<V>>, ids: seq<nat>, pos: nat,
      seen: set<Config<S>>)
    requires WellFormed(h) && SearchOK(m, h, ids, pos, seen) && Chosen(h, ids) && |nodes| == |h| + 1
    requires Mirrors(nodes, ListAfter(h, ids)) && nodes[0].next == null
    ensures Linearizable(m, h)
  {
    hide WellFormed, SearchOK, Mirrors, Consistent, Linearizable;
    FirstLeft(h, ids);
    PointsTo(nodes, ListAfter(h, ids), 0);
    MirrorsSize(nodes, ListAfter(h, ids));
    Finished(m, h, ids, pos, seen);
  }
}
