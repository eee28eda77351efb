/** Finite sums over sets of keys, for totals over the store's maps. */
module Sums {

  ghost function Sum<K(!new)>(keys: set<K>, f: K -> int): int {
    if keys == {} then 0
    else
      var k :| k in keys;
      f(k) + Sum(keys - {k}, f)
  }

  /** Any key can be taken out first. */
  lemma {:induction false} SumTake<K(!new)>(keys: set<K>, f: K -> int, x: K)
    requires x in keys
    ensures Sum(keys, f) == f(x) + Sum(keys - {x}, f)
    decreases keys
  {
    var k :| k in keys && Sum(keys, f) == f(k) + Sum(keys - {k}, f);
    if k != x {
      SumTake(keys - {k}, f, x);
      SumTake(keys - {x}, f, k);
      assert keys - {k} - {x} == keys - {x} - {k};
    }
  }

  lemma SumAdd<K(!new)>(keys: set<K>, f: K -> int, x: K)
    requires x !in keys
    ensures Sum(keys + {x}, f) == Sum(keys, f) + f(x)
  {
    SumTake(keys + {x}, f, x);
    assert keys + {x} - {x} == keys;
  }

  /** Pointwise comparison carries over to the sums. */
  lemma {:induction false} SumOrder<K(!new)>(keys: set<K>, f: K -> int, g: K -> int)
    requires forall k :: k in keys ==> f(k) <= g(k)
    ensures Sum(keys, f) <= Sum(keys, g)
    decreases keys
  {
    if keys != {} {
      var k :| k in keys;
      SumTake(keys, f, k);
      SumTake(keys, g, k);
      SumOrder(keys - {k}, f, g);
    }
  }

  lemma SumSame<K(!new)>(keys: set<K>, f: K -> int, g: K -> int)
    requires forall k :: k in keys ==> f(k) == g(k)
    ensures Sum(keys, f) == Sum(keys, g)
  {
    SumOrder(keys, f, g);
    SumOrder(keys, g, f);
  }

  /** Changing one value changes the sum by the difference. */
  lemma SumChange<K(!new)>(keys: set<K>, f: K -> int, g: K -> int, x: K)
    requires x in keys && forall k :: k in keys && k != x ==> f(k) == g(k)
    ensures Sum(keys, g) == Sum(keys, f) - f(x) + g(x)
  {
    SumTake(keys, f, x);
    SumTake(keys, g, x);
    SumSame(keys - {x}, f, g);
  }

  /** Terms that are zero may be left out. */
  lemma {:induction false} SumDrop<K(!new)>(keys: set<K>, dropped: set<K>, f: K -> int)
    requires forall k :: k in dropped ==> f(k) == 0
    ensures Sum(keys - dropped, f) == Sum(keys, f)
    decreases keys
  {
    if keys == {} {
      assert keys - dropped == {};
    } else {
      var k :| k in keys;
      SumTake(keys, f, k);
      SumDrop(keys - {k}, dropped, f);
      if k in dropped {
        assert keys - dropped == keys - {k} - dropped;
      } else {
        SumTake(keys - dropped, f, k);
        assert keys - dropped - {k} == keys - {k} - dropped;
      }
    }
  }

  lemma SumNonNegative<K(!new)>(keys: set<K>, f: K -> int)
    requires forall k :: k in keys ==> f(k) >= 0
    ensures Sum(keys, f) >= 0
    decreases keys
  {
    if keys != {} {
      var k :| k in keys;
      SumTake(keys, f, k);
      SumNonNegative(keys - {k}, f);
    }
  }

  lemma SumSubset<K(!new)>(some: set<K>, all: set<K>, f: K -> int)
    requires some <= all && forall k :: k in all ==> f(k) >= 0
    ensures Sum(some, f) <= Sum(all, f)
    decreases all
  {
    if k :| k in all && k !in some {
      SumTake(all, f, k);
      SumSubset(some, all - {k}, f);
    } else {
      assert some == all;
    }
  }

  lemma {:induction false} SumPlus<K(!new)>(keys: set<K>, f: K -> int, g: K -> int, h: K -> int)
    requires forall k :: k in keys ==> h(k) == f(k) + g(k)
    ensures Sum(keys, h) == Sum(keys, f) + Sum(keys, g)
    decreases keys
  {
    if keys != {} {
      var k :| k in keys;
      SumTake(keys, f, k);
      SumTake(keys, g, k);
      SumTake(keys, h, k);
      SumPlus(keys - {k}, f, g, h);
    }
  }

  /** A sum of ones and zeros counts the ones. */
  lemma {:induction false} SumCounts<K(!new)>(keys: set<K>, ones: set<K>, f: K -> int)
    requires ones <= keys && forall k :: k in keys ==> f(k) == if k in ones then 1 else 0
    ensures Sum(keys, f) == |ones|
    decreases keys
  {
    if keys != {} {
      var k :| k in keys;
      SumTake(keys, f, k);
      SumCounts(keys - {k}, ones - {k}, f);
    }
  }
}
