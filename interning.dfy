/** Dense interning, as `PstatsParser.get_function` and
    `lsprof2dot.Parser.index` do it: a key seen for the first time gets the
    number of keys seen before it, a key seen again gets what it got the
    first time. The ids handed out are then exactly 0, 1, ..., n - 1. */
module Interning {

  /** The ids of `ids` are 0 .. |ids| - 1, each given to one key. */
  ghost predicate Dense<K>(ids: map<K, int>) {
    (forall k :: k in ids ==> 0 <= ids[k] < |ids|) &&
    (forall k1, k2 :: k1 in ids && k2 in ids && ids[k1] == ids[k2] ==> k1 == k2) &&
    (forall i :: 0 <= i < |ids| ==> i in ids.Values)
  }

  /** The table after looking `key` up, and the id it stands for. */
  function Intern<K>(ids: map<K, int>, key: K): (r: (map<K, int>, int))
    ensures key in r.0 && r.0[key] == r.1
    ensures ids.Keys <= r.0.Keys && forall k :: k in ids ==> r.0[k] == ids[k]
  {
    if key in ids then (ids, ids[key]) else (ids[key := |ids|], |ids|)
  }

  /** Interning keeps the table dense; a new key gets the size of the table
      before it and grows it by one, a known key changes nothing. */
  lemma InternDense<K>(ids: map<K, int>, key: K)
    requires Dense(ids)
    ensures Dense(Intern(ids, key).0)
    ensures key !in ids ==> Intern(ids, key).1 == |ids| && |Intern(ids, key).0| == |ids| + 1
    ensures key in ids ==> Intern(ids, key) == (ids, ids[key])
  {
    if key !in ids {
      var r := Intern(ids, key).0;
      assert |r| == |ids| + 1;
      forall i | 0 <= i < |r| ensures i in r.Values {
        if i < |ids| {
          assert i in ids.Values;
          var k :| k in ids && ids[k] == i;
          assert r[k] == i;
        } else {
          assert r[key] == i;
        }
      }
    }
  }

  /** Looking the same key up twice gives the same id and the second
      look-up changes nothing. */
  lemma InternIdempotent<K>(ids: map<K, int>, key: K)
    ensures Intern(Intern(ids, key).0, key) == Intern(ids, key)
  {
  }

  /** Distinct keys get distinct ids. */
  lemma InternDistinct<K>(ids: map<K, int>, k1: K, k2: K)
    requires Dense(ids) && k1 != k2
    ensures Intern(Intern(ids, k1).0, k2).1 != Intern(ids, k1).1
  {
    InternDense(ids, k1);
  }
}
