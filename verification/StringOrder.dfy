/** The order of strings, and sorting by it. */
module StringOrder {
  /** `a` comes before `b`: they first differ where `a` has ended or has the smaller character. */
  predicate Before(a: string, b: string) {
    b != [] && (a == [] || a[0] < b[0] || (a[0] == b[0] && Before(a[1..], b[1..])))
  }

  /** Behind a common beginning, one string has ended or has the smaller character. */
  lemma {:induction false} BeforeMeans(a: string, b: string)
    ensures Before(a, b) <==> exists k: nat :: Parts(a, b, k)
  {
    if a == [] || b == [] {
      assert b != [] ==> Parts(a, b, 0);
    } else if a[0] != b[0] {
      assert a[0] < b[0] ==> Parts(a, b, 0);
      assert forall k: nat :: Parts(a, b, k) ==> k == 0 || a[..k][0] == b[..k][0];
    } else {
      BeforeMeans(a[1..], b[1..]);
      forall k: nat
        ensures Parts(a[1..], b[1..], k) <==> Parts(a, b, k + 1)
      {
        PartsLater(a, b, k);
      }
      assert !Parts(a, b, 0);
      if exists k: nat :: Parts(a, b, k) {
        var k: nat :| Parts(a, b, k);
        assert Parts(a[1..], b[1..], k - 1);
      }
    }
  }

  /** `a` and `b` are the same up to position `k`, and there `a` is the lesser. */
  predicate Parts(a: string, b: string, k: nat) {
    k <= |a| && k < |b| && a[..k] == b[..k] && (k == |a| || a[k] < b[k])
  }

  lemma PartsLater(a: string, b: string, k: nat)
    requires a != [] && b != [] && a[0] == b[0]
    ensures Parts(a[1..], b[1..], k) <==> Parts(a, b, k + 1)
  {
    if k < |a| && k < |b| {
      assert a[..k + 1] == [a[0]] + a[1..][..k] && b[..k + 1] == [b[0]] + b[1..][..k];
      assert a[1..][..k] == a[..k + 1][1..] && b[1..][..k] == b[..k + 1][1..];
    }
  }

  lemma {:induction false} OneWay(a: string, b: string)
    ensures (Before(a, b) || Before(b, a)) <==> a != b
    ensures !(Before(a, b) && Before(b, a))
  {
    if a != [] && b != [] && a[0] == b[0] {
      assert a == [a[0]] + a[1..] && b == [b[0]] + b[1..];
      OneWay(a[1..], b[1..]);
    }
  }

  lemma {:induction false} BeforeTransitive(a: string, b: string, c: string)
    requires Before(a, b) && Before(b, c)
    ensures Before(a, c)
  {
    if a != [] && a[0] == b[0] && b[0] == c[0] {
      BeforeTransitive(a[1..], b[1..], c[1..]);
    }
  }

  predicate Ascending(keys: seq<string>) {
    forall i, j :: 0 <= i < j < |keys| ==> !Before(keys[j], keys[i])
  }

  /** In order, each key once. */
  predicate Increasing(keys: seq<string>) {
    forall i, j :: 0 <= i < j < |keys| ==> Before(keys[i], keys[j])
  }

  /** Where a key goes in a sorted list: behind all that do not come after it. */
  method Place(keys: seq<string>, k: string) returns (p: nat)
    requires Ascending(keys)
    ensures p <= |keys| && Ascending(keys[..p] + [k] + keys[p..])
    ensures forall i :: 0 <= i < p ==> !Before(k, keys[i])
    ensures forall i :: p <= i < |keys| ==> Before(k, keys[i])
  {
    hide Before;
    p := |keys|;
    while p > 0 && Before(k, keys[p - 1])
      invariant p <= |keys|
      invariant forall i :: p <= i < |keys| ==> Before(k, keys[i])
    {
      p := p - 1;
    }
    Placed(keys, k, p);
  }

  lemma Placed(keys: seq<string>, k: string, p: nat)
    requires Ascending(keys) && p <= |keys| && (p > 0 ==> !Before(k, keys[p - 1]))
    requires forall i :: p <= i < |keys| ==> Before(k, keys[i])
    ensures Ascending(keys[..p] + [k] + keys[p..])
    ensures forall i :: 0 <= i < p ==> !Before(k, keys[i])
  {
    hide Before;
    forall i | 0 <= i < p
      ensures !Before(k, keys[i])
    {
      if Before(k, keys[i]) {
        OneWay(keys[i], keys[p - 1]);
        if i < p - 1 && keys[i] != keys[p - 1] {
          BeforeTransitive(k, keys[i], keys[p - 1]);
        }
      }
    }
    forall i | p <= i < |keys|
      ensures !Before(keys[i], k)
    {
      OneWay(k, keys[i]);
    }
  }

  /** A set of keys, listed in order. */
  method SortStrings(all: set<string>) returns (keys: seq<string>)
    ensures Increasing(keys)
    ensures forall k :: k in keys <==> k in all
  {
    hide Before, Ascending;
    keys := [];
    assert Ascending([]) by {
      EmptyAscending();
    }
    var left := all;
    while left != {}
      invariant left <= all && Ascending(keys)
      invariant forall i, j :: 0 <= i < j < |keys| ==> keys[i] != keys[j]
      invariant forall k :: k in keys <==> k in all - left
      decreases left
    {
      var k :| k in left;
      var p := Place(keys, k);
      KeysWith(keys, k, p);
      keys := keys[..p] + [k] + keys[p..];
      left := left - {k};
    }
    DistinctIncrease(keys);
  }

  lemma KeysWith(keys: seq<string>, k: string, p: nat)
    requires p <= |keys| && k !in keys && forall i, j :: 0 <= i < j < |keys| ==> keys[i] != keys[j]
    ensures var more := keys[..p] + [k] + keys[p..];
            && (forall i, j :: 0 <= i < j < |more| ==> more[i] != more[j])
            && (forall key :: key in more <==> key in keys || key == k)
  {
    assert keys == keys[..p] + keys[p..];
  }

  lemma DistinctIncrease(keys: seq<string>)
    requires Ascending(keys) && forall i, j :: 0 <= i < j < |keys| ==> keys[i] != keys[j]
    ensures Increasing(keys)
  {
    hide Before;
    forall i, j | 0 <= i < j < |keys|
      ensures Before(keys[i], keys[j])
    {
      OneWay(keys[i], keys[j]);
    }
  }

  lemma EmptyAscending()
    ensures Ascending([])
  {
  }
}
