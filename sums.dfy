/**
 * Sums of real-valued terms over a finite set of keys: the accumulations
 * over a dictionary's categories, whose result does not depend on the
 * order the dictionary is iterated in.
 */
module Sums {

  /** The sum of `f(k)` over the keys. */
  ghost function SumOver(keys: set<string>, f: string -> real): real
    decreases keys
  {
    if keys == {} then 0.0 else var k :| k in keys; f(k) + SumOver(keys - {k}, f)
  }

  /** Any key may be taken out first. */
  lemma {:induction false} SumOverRemove(keys: set<string>, f: string -> real, k: string)
    requires k in keys
    ensures SumOver(keys, f) == f(k) + SumOver(keys - {k}, f)
    decreases keys
  {
    var j :| j in keys && SumOver(keys, f) == f(j) + SumOver(keys - {j}, f);
    if j != k {
      SumOverRemove(keys - {j}, f, k);
      SumOverRemove(keys - {k}, f, j);
      assert keys - {j} - {k} == keys - {k} - {j};
    }
  }

  /** Adding one key adds its term. */
  lemma SumOverAdd(keys: set<string>, f: string -> real, k: string)
    requires k !in keys
    ensures SumOver(keys + {k}, f) == SumOver(keys, f) + f(k)
  {
    SumOverRemove(keys + {k}, f, k);
    assert keys + {k} - {k} == keys;
  }

  /** Terms between 0 and 100 times their weights sum to between 0 and 100 times the total weight. */
  lemma {:induction false} SumOverBounds(keys: set<string>, f: string -> real, g: string -> real)
    requires forall k :: k in keys ==> 0.0 <= f(k) <= 100.0 * g(k)
    ensures 0.0 <= SumOver(keys, f) <= 100.0 * SumOver(keys, g)
    decreases keys
  {
    if keys != {} {
      var k :| k in keys;
      SumOverRemove(keys, f, k);
      SumOverRemove(keys, g, k);
      SumOverBounds(keys - {k}, f, g);
    }
  }

  /** Terms that are everywhere 100 times their weights sum to 100 times the total weight. */
  lemma {:induction false} SumOverScaled(keys: set<string>, f: string -> real, g: string -> real)
    requires forall k :: k in keys ==> f(k) == 100.0 * g(k)
    ensures SumOver(keys, f) == 100.0 * SumOver(keys, g)
    decreases keys
  {
    if keys != {} {
      var k :| k in keys;
      SumOverRemove(keys, f, k);
      SumOverRemove(keys, g, k);
      SumOverScaled(keys - {k}, f, g);
    }
  }

  /** Sums are monotone in their terms. */
  lemma {:induction false} SumOverMonotone(keys: set<string>, f: string -> real, g: string -> real)
    requires forall k :: k in keys ==> f(k) <= g(k)
    ensures SumOver(keys, f) <= SumOver(keys, g)
    decreases keys
  {
    if keys != {} {
      var k :| k in keys;
      SumOverRemove(keys, f, k);
      SumOverRemove(keys, g, k);
      SumOverMonotone(keys - {k}, f, g);
    }
  }

  /** A sum of zero terms is zero. */
  lemma {:induction false} SumOverZero(keys: set<string>, f: string -> real)
    requires forall k :: k in keys ==> f(k) == 0.0
    ensures SumOver(keys, f) == 0.0
    decreases keys
  {
    if keys != {} {
      var k :| k in keys;
      SumOverRemove(keys, f, k);
      SumOverZero(keys - {k}, f);
    }
  }

  /** A subset is no larger than its superset. */
  lemma {:induction false} SubsetCard<T>(a: set<T>, b: set<T>)
    requires a <= b
    ensures |a| <= |b|
    decreases a
  {
    if a != {} {
      var x :| x in a;
      SubsetCard(a - {x}, b - {x});
    }
  }
}
