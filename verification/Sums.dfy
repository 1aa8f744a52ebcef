/** Sums over finite sets of keys. */
module Sums {

  ghost function Sum(keys: set<string>, f: string -> int): int
    decreases |keys|
  {
    if keys == {} then 0 else var k :| k in keys; f(k) + Sum(keys - {k}, f)
  }

  lemma {:induction false} SumTake(keys: set<string>, f: string -> int, k: string)
    requires k in keys
    ensures Sum(keys, f) == f(k) + Sum(keys - {k}, f)
    decreases |keys|
  {
    var first :| first in keys && Sum(keys, f) == f(first) + Sum(keys - {first}, f);
    if first != k {
      SumTake(keys - {first}, f, k);
      SumTake(keys - {k}, f, first);
      assert keys - {first} - {k} == keys - {k} - {first};
    }
  }

  lemma {:induction false} SumSame(keys: set<string>, f: string -> int, g: string -> int)
    requires forall k :: k in keys ==> f(k) == g(k)
    ensures Sum(keys, f) == Sum(keys, g)
    decreases |keys|
  {
    if keys != {} {
      var k :| k in keys;
      SumTake(keys, f, k);
      SumTake(keys, g, k);
      SumSame(keys - {k}, f, g);
    }
  }

  /** One key gets another value, or joins. */
  lemma SumChange(keys: set<string>, f: string -> int, g: string -> int, k: string)
    requires forall x :: x in keys && x != k ==> f(x) == g(x)
    ensures Sum(keys + {k}, g) == Sum(keys, f) + g(k) - (if k in keys then f(k) else 0)
  {
    SumTake(keys + {k}, g, k);
    assert keys + {k} - {k} == keys - {k};
    SumSame(keys - {k}, f, g);
    if k in keys { SumTake(keys, f, k); } else { assert keys - {k} == keys; }
  }

  lemma {:induction false} SumPlus(keys: set<string>, f: string -> int, g: string -> int, h: string -> int)
    requires forall k :: k in keys ==> h(k) == f(k) + g(k)
    ensures Sum(keys, h) == Sum(keys, f) + Sum(keys, g)
    decreases |keys|
  {
    if keys != {} {
      var k :| k in keys;
      SumTake(keys, f, k);
      SumTake(keys, g, k);
      SumTake(keys, h, k);
      SumPlus(keys - {k}, f, g, h);
    }
  }

  /** Keys worth nothing do not matter. */
  lemma {:induction false} SumPart(part: set<string>, keys: set<string>, f: string -> int)
    requires part <= keys && forall k :: k in keys - part ==> f(k) == 0
    ensures Sum(part, f) == Sum(keys, f)
    decreases |keys|
  {
    if keys - part == {} {
      assert part == keys;
    } else {
      var k :| k in keys - part;
      SumTake(keys, f, k);
      SumPart(part, keys - {k}, f);
    }
  }
}
