/** Small value types, status codes and map arithmetic shared by the models. */
module Common {

  datatype Option<+T> = None | Some(value: T)

  type Status = int         // QStatus

  const ER_OK: Status := 0
  const ER_FAIL: Status := 1
  const ER_BUFFER_TOO_SMALL: Status := 3

  /** No element occurs twice. */
  ghost predicate Distinct<T>(s: seq<T>) {
    forall i, j :: 0 <= i < j < |s| ==> s[i] != s[j]
  }

  /** A finite set leaves room for a new identity. */
  lemma {:induction false} Unused(s: set<nat>) returns (n: nat)
    ensures forall x :: x in s ==> x < n
  {
    n := 0;
    if s != {} {
      var x :| x in s;
      var m := Unused(s - {x});
      n := if m <= x then x + 1 else m;
      assert forall y :: y in s ==> y == x || y in s - {x};
    }
  }

  // ---------------------------------------------------------------- sums over maps

  /** The sum of the values of a finite map: the weight of all activations of a protocol. */
  ghost function Sum<K>(m: map<K, nat>): (total: nat)
    decreases |m|
  {
    if m == map[] then 0 else
      var k :| k in m;
      assert |m - {k}| < |m| by { assert m.Keys == (m - {k}).Keys + {k}; }
      m[k] + Sum(m - {k})
  }

  /** Which key is taken out first does not matter. */
  lemma {:induction false} SumRemove<K>(m: map<K, nat>, k: K)
    requires k in m
    ensures Sum(m) == m[k] + Sum(m - {k})
    decreases |m|
  {
    var j :| j in m && Sum(m) == m[j] + Sum(m - {j});
    if j != k {
      assert m.Keys == (m - {j}).Keys + {j} && m.Keys == (m - {k}).Keys + {k};
      SumRemove(m - {j}, k);
      SumRemove(m - {k}, j);
      assert m - {j} - {k} == m - {k} - {j};
    }
  }

  /** Changing one value changes the sum by exactly that much. */
  lemma SumUpdate<K>(m: map<K, nat>, k: K, w: nat)
    requires k in m
    ensures Sum(m[k := w]) == Sum(m) - m[k] + w
  {
    SumRemove(m, k);
    SumRemove(m[k := w], k);
    assert m[k := w] - {k} == m - {k};
  }
}
