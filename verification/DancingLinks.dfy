/**
 A doubly linked list over positions 0 .. n-1 whose elements are unlinked and relinked in
 last-in-first-out order. Position 0 is the list head; `n` stands for nil.
 */
module DancingLinks {
  datatype Links = Links(next: seq<nat>, prev: seq<nat>)

  /** Position `p` points forward to its nearest neighbour not in `gone`, which points back. */
  ghost predicate NextOK(k: Links, n: nat, gone: set<nat>, p: nat)
    requires |k.next| == |k.prev| == n && p < n
  {
    && p < k.next[p] <= n && k.next[p] !in gone
    && (forall q :: p < q < k.next[p] ==> q in gone)
    && (k.next[p] < n ==> k.prev[k.next[p]] == p)
  }

  ghost predicate PrevOK(k: Links, n: nat, gone: set<nat>, p: nat)
    requires |k.next| == |k.prev| == n && p < n
  {
    k.prev[p] < p && k.prev[p] !in gone && k.next[k.prev[p]] == p
  }

  /** Every position of 0 .. n-1 not in `gone` points to its nearest neighbours not in `gone`. */
  ghost predicate Consistent(k: Links, n: nat, gone: set<nat>) {
    && |k.next| == |k.prev| == n && n >= 1 && 0 !in gone
    && (forall p: nat :: p < n && p !in gone ==> NextOK(k, n, gone, p))
    && (forall p: nat :: 1 <= p < n && p !in gone ==> PrevOK(k, n, gone, p))
    && (forall q :: q in gone ==> q < n)
  }

  function Unlink(k: Links, p: nat): Links
    requires p < |k.next| && p < |k.prev| && k.prev[p] < |k.next|
  {
    var next := k.next[k.prev[p] := k.next[p]];
    var prev := if k.next[p] < |k.prev| then k.prev[k.next[p] := k.prev[p]] else k.prev;
    Links(next, prev)
  }

  function Relink(k: Links, p: nat): Links
    requires p < |k.next| && p < |k.prev| && k.prev[p] < |k.next|
  {
    var next := k.next[k.prev[p] := p];
    var prev := if k.next[p] < |k.prev| then k.prev[k.next[p] := p] else k.prev;
    Links(next, prev)
  }

  /** The list 0 .. n-1 with nothing unlinked. */
  function Whole(n: nat): Links
    requires n >= 1
  {
    Links(seq(n, i requires 0 <= i < n => i + 1), seq(n, i requires 0 <= i < n => if i == 0 then n else i - 1))
  }

  lemma WholeConsistent(n: nat)
    requires n >= 1
    ensures Consistent(Whole(n), n, {})
  {
  }

  lemma UnlinkNext(k: Links, n: nat, gone: set<nat>, p: nat, q: nat)
    requires |k.next| == |k.prev| == n && 1 <= p < n && p !in gone && q < n && q !in gone && q != p
    requires NextOK(k, n, gone, p) && PrevOK(k, n, gone, p) && NextOK(k, n, gone, q) && NextOK(k, n, gone, k.prev[p])
    ensures NextOK(Unlink(k, p), n, gone + {p}, q)
  {
    var a, b := k.prev[p], k.next[p];
    var k' := Unlink(k, p);
    if q == a {
      assert k'.next[q] == b;
    } else {
      assert k.next[q] != p;
      assert k'.next[q] == k.next[q];
    }
  }

  lemma UnlinkPrev(k: Links, n: nat, gone: set<nat>, p: nat, q: nat)
    requires |k.next| == |k.prev| == n && 1 <= p < n && p !in gone && 1 <= q < n && q !in gone && q != p
    requires NextOK(k, n, gone, p) && PrevOK(k, n, gone, p) && PrevOK(k, n, gone, q) && NextOK(k, n, gone, k.prev[p])
    ensures PrevOK(Unlink(k, p), n, gone + {p}, q)
  {
    var a, b := k.prev[p], k.next[p];
    var k' := Unlink(k, p);
    if q != b {
      assert k'.prev[q] == k.prev[q];
      assert k.prev[q] != p && k.prev[q] != a;
    }
  }

  /** Unlinking an element removes exactly it from the list. */
  lemma UnlinkConsistent(k: Links, n: nat, gone: set<nat>, p: nat)
    requires Consistent(k, n, gone) && 1 <= p < n && p !in gone
    ensures p < |k.next| && p < |k.prev| && k.prev[p] < |k.next|
    ensures Consistent(Unlink(k, p), n, gone + {p})
  {
    assert PrevOK(k, n, gone, p);
    var k' := Unlink(k, p);
    assert |k'.next| == |k'.prev| == n;
    hide Unlink, NextOK, PrevOK;
    forall q: nat | q < n && q !in gone + {p}
      ensures NextOK(k', n, gone + {p}, q)
    {
      UnlinkNext(k, n, gone, p, q);
    }
    forall q: nat | 1 <= q < n && q !in gone + {p}
      ensures PrevOK(k', n, gone + {p}, q)
    {
      UnlinkPrev(k, n, gone, p, q);
    }
  }

  /** Undo is exact: relinking the element last unlinked restores every pointer. */
  lemma RelinkUndoes(k: Links, n: nat, gone: set<nat>, p: nat)
    requires Consistent(k, n, gone) && 1 <= p < n && p !in gone
    ensures p < |k.next| && p < |k.prev| && k.prev[p] < |k.next|
    ensures var k' := Unlink(k, p);
            p < |k'.next| && p < |k'.prev| && k'.prev[p] < |k'.next| && Relink(k', p) == k
  {
    assert PrevOK(k, n, gone, p) && NextOK(k, n, gone, p) && NextOK(k, n, gone, k.prev[p]);
  }
}
