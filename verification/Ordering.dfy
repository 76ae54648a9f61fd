/** `ORDER BY` on a unique integer key: the one ascending listing of a finite set. */
module Ordering {

  predicate Ascending(s: seq<int>) {
    forall i, j :: 0 <= i < j < |s| ==> s[i] < s[j]
  }

  function Least(keys: set<int>): (m: int)
    requires keys != {}
    ensures m in keys && forall k :: k in keys ==> m <= k
  {
    LeastExists(keys);
    var m :| m in keys && forall k :: k in keys ==> m <= k;
    m
  }

  lemma {:induction false} LeastExists(keys: set<int>)
    requires keys != {}
    ensures exists m :: m in keys && forall k :: k in keys ==> m <= k
  {
    assert (forall x :: x !in keys) ==> keys == {};
    var x :| x in keys;
    if keys != {x} {
      var rest := keys - {x};
      LeastExists(rest);
      var m :| m in rest && forall k :: k in rest ==> m <= k;
      var least := if x < m then x else m;
      assert forall k :: k in keys ==> k == x || k in rest;
      assert least in keys && forall k :: k in keys ==> least <= k;
    }
  }

  /** The keys of a table in ascending order. */
  function Sorted(keys: set<int>): seq<int> {
    if keys == {} then [] else [Least(keys)] + Sorted(keys - {Least(keys)})
  }

  lemma {:induction false} SortedLists(keys: set<int>)
    ensures Ascending(Sorted(keys)) && |Sorted(keys)| == |keys|
    ensures forall k :: k in Sorted(keys) <==> k in keys
  {
    if keys != {} {
      var m := Least(keys);
      var rest := Sorted(keys - {m});
      SortedLists(keys - {m});
      assert forall i :: 0 <= i < |rest| ==> rest[i] in keys - {m};
    }
  }

  /** An ascending listing is determined by what it lists. */
  lemma {:induction false} AscendingUnique(a: seq<int>, b: seq<int>)
    requires Ascending(a) && Ascending(b)
    requires forall k :: k in a <==> k in b
    ensures a == b
  {
    assert |a| > 0 ==> a[0] in a;
    assert |b| > 0 ==> b[0] in b;
    if |a| > 0 {
      assert a[0] in b && b[0] in a;
      assert a[0] == b[0];
      forall k | k in a[1..] ensures k in b[1..] {
        var i :| 0 <= i < |a[1..]| && a[1..][i] == k;
        assert k == a[i + 1] && k in b && k != b[0];
      }
      forall k | k in b[1..] ensures k in a[1..] {
        var i :| 0 <= i < |b[1..]| && b[1..][i] == k;
        assert k == b[i + 1] && k in a && k != a[0];
      }
      AscendingUnique(a[1..], b[1..]);
    }
  }

  function UpTo(n: nat): (keys: set<int>)
    ensures |keys| == n && forall k :: k in keys <==> 1 <= k <= n
  {
    if n == 0 then {} else UpTo(n - 1) + {n}
  }

  lemma {:induction false} SubsetSize(a: set<int>, b: set<int>)
    requires a <= b
    ensures |a| <= |b|
  {
    if a != {} {
      assert (forall x :: x !in a) ==> a == {};
      var x :| x in a;
      SubsetSize(a - {x}, b - {x});
    }
  }
}
