/** Sizes of finite sets. */
module Sets {

  lemma {:induction false} SubsetSize<T>(a: set<T>, b: set<T>)
    requires a <= b
    ensures |a| <= |b|
    ensures |a| == |b| ==> a == b
  {
    if x :| x in a {
      SubsetSize(a - {x}, b - {x});
      assert a == (a - {x}) + {x} && b == (b - {x}) + {x};
    } else {
      assert a == {};
    }
  }

  /** A map that is injective on a and sends a into b shows that a is no larger than b. */
  lemma {:induction false} InjectionSize<T, U>(a: set<T>, b: set<U>, f: map<T, U>)
    requires forall x | x in a :: x in f && f[x] in b
    requires forall x, y | x in a && y in a && f[x] == f[y] :: x == y
    ensures |a| <= |b|
  {
    if x :| x in a {
      InjectionSize(a - {x}, b - {f[x]}, f);
      assert a == (a - {x}) + {x} && b == (b - {f[x]}) + {f[x]};
    }
  }

  lemma {:induction false} Largest(used: set<nat>) returns (top: nat)
    requires used != {}
    ensures top in used && forall k | k in used :: k <= top
    decreases used
  {
    top :| top in used;
    var rest := used - {top};
    assert forall k | k in used :: k == top || k in rest;
    if rest != {} {
      var other := Largest(rest);
      if other > top { top := other; }
    }
  }

  /** There is always another id to draw. */
  lemma SomeNatIsNew(used: set<nat>)
    ensures exists k: nat :: k !in used
  {
    if used != {} {
      var top := Largest(used);
      assert top + 1 !in used;
    } else {
      assert 0 !in used;
    }
  }
}
