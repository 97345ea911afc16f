/** Small building blocks shared by the model: optional values, results with an
    error, numpy's sign on integers, and Python dictionaries filled key by key. */
module Base {

  datatype Option<T> = None | Some(value: T)

  datatype Result<T, E> = Ok(value: T) | Failure(error: E)

  /** numpy.sign on an integer: -1, 0 or 1. */
  function Sign(x: int): (s: int)
    ensures s * x == Abs(x) && -1 <= s <= 1
    ensures s == 0 <==> x == 0
  {
    if x > 0 then 1 else if x < 0 then -1 else 0
  }

  /** numpy.abs on an integer. */
  function Abs(x: int): (a: nat)
    ensures a == x || a == -x
  {
    if x < 0 then -x else x
  }

  /** The dictionary that `d = {}` followed by `d[k] = v` for every pair, in order,
      leaves behind: a later write to the same key replaces an earlier one. */
  function Build<K, V>(pairs: seq<(K, V)>): map<K, V>
  {
    if pairs == [] then map[]
    else Build(pairs[..|pairs| - 1])[pairs[|pairs| - 1].0 := pairs[|pairs| - 1].1]
  }

  /** The keys that occur in a sequence of pairs. */
  ghost function KeysOf<K, V>(pairs: seq<(K, V)>): set<K>
  {
    set i | 0 <= i < |pairs| :: pairs[i].0
  }

  /** One more write is one more map update. */
  lemma BuildSnoc<K, V>(pairs: seq<(K, V)>, x: (K, V))
    ensures Build(pairs + [x]) == Build(pairs)[x.0 := x.1]
  {
    assert (pairs + [x])[..|pairs|] == pairs;
  }

  /** Filling a dictionary from `a` and then from `b` is the union in which `b` wins. */
  lemma {:induction false} BuildConcat<K, V>(a: seq<(K, V)>, b: seq<(K, V)>)
    ensures Build(a + b) == Build(a) + Build(b)
  {
    if b == [] {
      assert a + b == a;
    } else {
      var b' := b[..|b| - 1];
      var x := b[|b| - 1];
      assert b == b' + [x];
      assert a + b == (a + b') + [x];
      BuildSnoc(a + b', x);
      BuildConcat(a, b');
      BuildSnoc(b', x);
    }
  }

  /** A key is present exactly when some pair writes it. */
  lemma {:induction false} BuildKeys<K, V>(pairs: seq<(K, V)>)
    ensures Build(pairs).Keys == KeysOf(pairs)
  {
    if pairs != [] {
      var p := pairs[..|pairs| - 1];
      BuildKeys(p);
      assert pairs == p + [pairs[|pairs| - 1]];
      forall k | k in KeysOf(pairs) ensures k in Build(pairs) {
        var i :| 0 <= i < |pairs| && pairs[i].0 == k;
        if i < |pairs| - 1 { assert p[i].0 == k; }
      }
      forall k | k in Build(pairs) ensures k in KeysOf(pairs) {
        if k != pairs[|pairs| - 1].0 {
          assert k in KeysOf(p);
          var i :| 0 <= i < |p| && p[i].0 == k;
          assert pairs[i].0 == k;
        }
      }
    }
  }

  /** When every write to `k` writes `v`, the dictionary holds `v` at `k`. */
  lemma {:induction false} BuildUniform<K, V>(pairs: seq<(K, V)>, k: K, v: V)
    requires k in Build(pairs)
    requires forall i :: 0 <= i < |pairs| && pairs[i].0 == k ==> pairs[i].1 == v
    ensures Build(pairs)[k] == v
  {
    var p := pairs[..|pairs| - 1];
    var x := pairs[|pairs| - 1];
    if x.0 != k {
      assert forall i :: 0 <= i < |p| ==> p[i] == pairs[i];
      BuildUniform(p, k, v);
    }
  }
}
