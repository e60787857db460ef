/**
 * JavaScript objects whose keys are not integer-like, as ordered maps: the
 * keys iterate in insertion order, and assigning to a key already present
 * keeps its place and replaces its value.
 */
module Ordered {
  import opened Wrappers

  type Entries<T> = seq<(string, T)>

  function KeysOf<T>(m: Entries<T>): set<string> {
    set i | 0 <= i < |m| :: m[i].0
  }

  predicate UniqueKeys<T>(m: Entries<T>) {
    forall i, j :: 0 <= i < j < |m| ==> m[i].0 != m[j].0
  }

  lemma KeysOfCons<T>(m: Entries<T>)
    requires |m| > 0
    ensures KeysOf(m) == {m[0].0} + KeysOf(m[1..])
  {
    forall x | x in KeysOf(m) ensures x in {m[0].0} + KeysOf(m[1..]) {
      var i :| 0 <= i < |m| && m[i].0 == x;
      if i > 0 { assert m[1..][i - 1].0 == x; }
    }
    forall x | x in KeysOf(m[1..]) ensures x in KeysOf(m) {
      var i :| 0 <= i < |m[1..]| && m[1..][i].0 == x;
      assert m[i + 1].0 == x;
    }
  }

  /** `obj[k]`: the value of the first entry under `k`. */
  function ValueOf<T>(m: Entries<T>, k: string): (r: Option<T>)
    ensures r.None? <==> k !in KeysOf(m)
  {
    if |m| == 0 then None
    else if m[0].0 == k then Some(m[0].1)
    else
      KeysOfCons(m);
      ValueOf(m[1..], k)
  }

  /** `obj[k] = v`. */
  function Put<T>(m: Entries<T>, k: string, v: T): (r: Entries<T>)
    ensures |r| >= |m|
  {
    if |m| == 0 then [(k, v)]
    else if m[0].0 == k then [(k, v)] + m[1..]
    else [m[0]] + Put(m[1..], k, v)
  }

  /** After `obj[k] = v` the keys are the old ones and `k`. */
  lemma {:induction false} PutKeys<T>(m: Entries<T>, k: string, v: T)
    ensures KeysOf(Put(m, k, v)) == KeysOf(m) + {k}
  {
    var r := Put(m, k, v);
    KeysOfCons(r);
    if |m| > 0 {
      KeysOfCons(m);
      if m[0].0 == k {
        assert r[1..] == m[1..];
      } else {
        assert r[1..] == Put(m[1..], k, v);
        PutKeys(m[1..], k, v);
      }
    }
  }

  /** After `obj[k] = v`, `k` holds `v` and every other key what it held. */
  lemma {:induction false} PutValues<T>(m: Entries<T>, k: string, v: T, other: string)
    ensures ValueOf(Put(m, k, v), k) == Some(v)
    ensures other != k ==> ValueOf(Put(m, k, v), other) == ValueOf(m, other)
  {
    var r := Put(m, k, v);
    if |m| > 0 {
      if m[0].0 == k {
        assert r[1..] == m[1..];
      } else {
        assert r[1..] == Put(m[1..], k, v);
        PutValues(m[1..], k, v, other);
      }
    }
  }

  /**
   * A present key keeps its place, so the key order is unchanged; a new
   * key goes last.
   */
  lemma {:induction false} PutPlace<T>(m: Entries<T>, k: string, v: T)
    ensures k in KeysOf(m) ==> |Put(m, k, v)| == |m| && forall i :: 0 <= i < |m| ==> Put(m, k, v)[i].0 == m[i].0
    ensures k !in KeysOf(m) ==> Put(m, k, v) == m + [(k, v)]
  {
    if |m| > 0 {
      KeysOfCons(m);
      if m[0].0 != k {
        PutPlace(m[1..], k, v);
        var r := Put(m, k, v);
        assert r[1..] == Put(m[1..], k, v);
        if k !in KeysOf(m) {
          assert m == [m[0]] + m[1..];
        }
      }
    }
  }

  /** `obj[k] = v` never duplicates a key. */
  lemma {:induction false} PutUnique<T>(m: Entries<T>, k: string, v: T)
    requires UniqueKeys(m)
    ensures UniqueKeys(Put(m, k, v))
  {
    if |m| > 0 {
      assert UniqueKeys(m[1..]) by {
        forall a, b | 0 <= a < b < |m[1..]| ensures m[1..][a].0 != m[1..][b].0 {
          assert m[1..][a] == m[a + 1] && m[1..][b] == m[b + 1];
        }
      }
      if m[0].0 != k {
        PutUnique(m[1..], k, v);
        PutKeys(m[1..], k, v);
        var r := Put(m, k, v);
        assert r[1..] == Put(m[1..], k, v);
        assert m[0].0 !in KeysOf(m[1..]) by {
          forall i | 0 <= i < |m[1..]| ensures m[1..][i].0 != m[0].0 {
            assert m[1..][i] == m[i + 1];
          }
        }
        assert r[0] == m[0];
        forall i | 1 <= i < |r| ensures r[i].0 != r[0].0 {
          assert r[i].0 == r[1..][i - 1].0;
          assert r[1..][i - 1].0 in KeysOf(Put(m[1..], k, v));
        }
      } else {
        var r := Put(m, k, v);
        forall a, b | 0 <= a < b < |r| ensures r[a].0 != r[b].0 {
          assert r[b] == m[b];
        }
      }
    }
  }

  /** Every entry after `obj[k] = v` is the new one or an old one. */
  lemma {:induction false} PutEntries<T>(m: Entries<T>, k: string, v: T)
    ensures forall i :: 0 <= i < |Put(m, k, v)| ==> Put(m, k, v)[i] == (k, v) || Put(m, k, v)[i] in m
  {
    if |m| > 0 && m[0].0 != k {
      PutEntries(m[1..], k, v);
      var r := Put(m, k, v);
      forall i | 1 <= i < |r| ensures r[i] == (k, v) || r[i] in m {
        assert r[i] == Put(m[1..], k, v)[i - 1];
      }
    }
  }
}
