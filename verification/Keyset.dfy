// Keyset pagination over any total order: asking for the first rows after the last row seen
// walks the ordered table without repeating or skipping a row.
module Keyset {

  ghost predicate TotalOrder<K(!new)>(lt: (K, K) -> bool) {
    && (forall a :: !lt(a, a))
    && (forall a, b :: a != b ==> lt(a, b) || lt(b, a))
    && (forall a, b, c :: lt(a, b) && lt(b, c) ==> lt(a, c))
  }

  ghost predicate Ascending<K(!new)>(s: seq<K>, lt: (K, K) -> bool) {
    forall i, j :: 0 <= i < j < |s| ==> lt(s[i], s[j])
  }

  predicate IsLeast<K(!new)>(k: K, keys: set<K>, lt: (K, K) -> bool) {
    k in keys && forall j :: j in keys ==> j == k || lt(k, j)
  }

  lemma {:induction false} LeastExists<K(!new)>(keys: set<K>, lt: (K, K) -> bool)
    requires TotalOrder(lt) && keys != {}
    ensures exists k :: IsLeast(k, keys, lt)
    decreases |keys|
  {
    var x :| x in keys;
    var rest := keys - {x};
    if rest == {} {
      assert keys == {x};
      assert IsLeast(x, keys, lt);
    } else {
      LeastExists(rest, lt);
      var m :| IsLeast(m, rest, lt);
      assert keys == rest + {x};
      assert IsLeast(if lt(x, m) then x else m, keys, lt);
    }
  }

  lemma LeastUnique<K(!new)>(keys: set<K>, lt: (K, K) -> bool)
    requires TotalOrder(lt)
    ensures forall a, b :: IsLeast(a, keys, lt) && IsLeast(b, keys, lt) ==> a == b
  {
    forall a, b | IsLeast(a, keys, lt) && IsLeast(b, keys, lt)
      ensures a == b
    {
      assert !(lt(a, b) && lt(b, a)) || lt(a, a);
    }
  }

  function Least<K(!new)>(keys: set<K>, lt: (K, K) -> bool): (k: K)
    requires TotalOrder(lt) && keys != {}
    ensures IsLeast(k, keys, lt)
  {
    LeastExists(keys, lt);
    LeastUnique(keys, lt);
    var k :| k in keys && IsLeast(k, keys, lt);
    k
  }

  // The keys in order.
  function Ordered<K(!new)>(keys: set<K>, lt: (K, K) -> bool): seq<K>
    requires TotalOrder(lt)
    decreases |keys|
  {
    if keys == {} then []
    else
      var k := Least(keys, lt);
      [k] + Ordered(keys - {k}, lt)
  }

  // `ORDER BY ... LIMIT n`
  function First<K(!new)>(keys: set<K>, lt: (K, K) -> bool, n: nat): seq<K>
    requires TotalOrder(lt)
  {
    var s := Ordered(keys, lt);
    if |s| <= n then s else s[..n]
  }

  function After<K(!new)>(keys: set<K>, lt: (K, K) -> bool, k: K): set<K> {
    set x | x in keys && lt(k, x)
  }

  lemma {:induction false} OrderedExact<K(!new)>(keys: set<K>, lt: (K, K) -> bool)
    requires TotalOrder(lt)
    ensures var s := Ordered(keys, lt);
            && |s| == |keys|
            && (forall x :: x in s <==> x in keys)
            && Ascending(s, lt)
    decreases |keys|
  {
    if keys != {} {
      var k := Least(keys, lt);
      OrderedExact(keys - {k}, lt);
    }
  }

  lemma FirstIsMember<K>(s: seq<K>)
    requires |s| > 0
    ensures exists x :: x in s
  {
    assert s[0] in s;
  }

  lemma Asymmetric<K(!new)>(lt: (K, K) -> bool, a: K, b: K)
    requires TotalOrder(lt)
    ensures !(lt(a, b) && lt(b, a))
  {
    assert lt(a, b) && lt(b, a) ==> lt(a, a);
  }

  lemma Transitive<K(!new)>(lt: (K, K) -> bool, a: K, b: K, c: K)
    requires TotalOrder(lt)
    ensures lt(a, b) && lt(b, c) ==> lt(a, c)
  {
  }

  // There is one way to list a set in order.
  lemma {:induction false} OrderedUnique<K(!new)>(keys: set<K>, lt: (K, K) -> bool, s: seq<K>)
    requires TotalOrder(lt) && Ascending(s, lt) && forall x :: x in s <==> x in keys
    ensures s == Ordered(keys, lt)
    decreases |keys|
  {
    if keys == {} {
      if |s| > 0 {
        FirstIsMember(s);
      }
    } else {
      var k := Least(keys, lt);
      assert k in s;
      var i :| 0 <= i < |s| && s[i] == k;
      assert s[0] in s;
      Asymmetric(lt, s[0], s[i]);
      assert i == 0;
      assert s == [k] + s[1..];
      forall x
        ensures x in s[1..] <==> x in keys - {k}
      {
        if x in s[1..] {
          var j :| 0 <= j < |s| - 1 && s[1..][j] == x;
          assert s[j + 1] == x && lt(s[0], s[j + 1]);
        }
        if x in keys - {k} {
          assert x in s;
        }
      }
      OrderedUnique(keys - {k}, lt, s[1..]);
    }
  }

  // What is after the n-th key is the rest of the order.
  lemma AfterIsRest<K(!new)>(keys: set<K>, lt: (K, K) -> bool, n: nat)
    requires TotalOrder(lt) && 0 < n <= |Ordered(keys, lt)|
    ensures Ordered(After(keys, lt, Ordered(keys, lt)[n - 1]), lt) == Ordered(keys, lt)[n..]
  {
    OrderedExact(keys, lt);
    var s := Ordered(keys, lt);
    var k := s[n - 1];
    forall x
      ensures x in s[n..] <==> x in After(keys, lt, k)
    {
      if x in s[n..] {
        var j :| n <= j < |s| && s[j] == x;
        assert lt(s[n - 1], s[j]);
        assert s[j] in s;
      }
      if x in After(keys, lt, k) {
        assert x in s;
        var j :| 0 <= j < |s| && s[j] == x;
        Asymmetric(lt, s[j], s[n - 1]);
        assert n <= j;
        assert s[n..][j - n] == x;
      }
    }
    assert Ascending(s[n..], lt);
    OrderedUnique(After(keys, lt, k), lt, s[n..]);
  }

  // Theorem: the concatenated pages of an unchanging table are the table in order, and a
  // page is short exactly when nothing is left.
  lemma {:induction false} PagesWalkTheOrder<K(!new)>(keys: set<K>, lt: (K, K) -> bool, n: nat)
    requires TotalOrder(lt) && n >= 1
    ensures Pages(keys, lt, n) == Ordered(keys, lt)
    decreases |keys|
  {
    hide Ordered, After, Ascending, TotalOrder;
    var s := Ordered(keys, lt);
    OrderedExact(keys, lt);
    if |s| > n {
      AfterIsRest(keys, lt, n);
      AfterShrinks(keys, lt, s[n - 1]);
      PagesWalkTheOrder(After(keys, lt, s[n - 1]), lt, n);
      assert First(keys, lt, n + 1)[..n] == s[..n];
      assert s == s[..n] + s[n..];
    }
  }

  lemma AfterShrinks<K(!new)>(keys: set<K>, lt: (K, K) -> bool, k: K)
    requires TotalOrder(lt) && k in keys
    ensures After(keys, lt, k) < keys && |After(keys, lt, k)| < |keys|
  {
    assert k !in After(keys, lt, k);
    SubsetSize(After(keys, lt, k), keys - {k});
  }

  lemma {:induction false} SubsetSize<K(!new)>(a: set<K>, b: set<K>)
    requires a <= b
    ensures |a| <= |b|
    decreases |a|
  {
    if a != {} {
      var x :| x in a;
      SubsetSize(a - {x}, b - {x});
    }
  }

  // Following the cursor: a page of n rows and the pages after its last row, until a page
  // comes back with no more than n of the n + 1 rows asked for.
  function Pages<K(!new)>(keys: set<K>, lt: (K, K) -> bool, n: nat): seq<K>
    requires TotalOrder(lt) && n >= 1
    decreases |keys|
  {
    var rows := First(keys, lt, n + 1);
    if |rows| <= n then rows
    else
      OrderedExact(keys, lt);
      assert rows[n - 1] == Ordered(keys, lt)[n - 1];
      AfterShrinks(keys, lt, rows[n - 1]);
      rows[..n] + Pages(After(keys, lt, rows[n - 1]), lt, n)
  }
}
