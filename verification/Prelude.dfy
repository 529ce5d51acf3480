/** Small vocabulary shared by every component of the model. */
module Prelude {

  datatype Option<+T> = None | Some(value: T)

  /** The source's thrown errors and error replies, in place of a value. */
  datatype Result<+T, +E> = Ok(value: T) | Err(error: E)

  /** The sum of a weight over all entries of a map. */
  ghost function Total<K, V>(m: map<K, V>, weight: V -> int): int {
    if m == map[] then 0 else
    var k :| k in m;
    weight(m[k]) + Total(m - {k}, weight)
  }

  lemma {:induction false} TotalWithout<K, V>(m: map<K, V>, k: K, weight: V -> int)
    requires k in m
    ensures Total(m, weight) == weight(m[k]) + Total(m - {k}, weight)
  {
    var j :| j in m && Total(m, weight) == weight(m[j]) + Total(m - {j}, weight);
    if j != k {
      TotalWithout(m - {j}, k, weight);
      TotalWithout(m - {k}, j, weight);
      assert m - {j} - {k} == m - {k} - {j};
    }
  }

  /** Filing one entry changes the sum by the difference of two weights. */
  lemma TotalFiled<K, V>(m: map<K, V>, k: K, v: V, weight: V -> int)
    ensures Total(m[k := v], weight) == Total(m, weight) + weight(v) - (if k in m then weight(m[k]) else 0)
  {
    TotalWithout(m[k := v], k, weight);
    assert m[k := v] - {k} == m - {k};
    if k in m {
      TotalWithout(m, k, weight);
    } else {
      assert m - {k} == m;
    }
  }

  lemma OneMore(n: int, r: int)
    ensures (n + 1) * r == n * r + r
  {
  }

  lemma NonNegativeProduct(x: int, y: int)
    requires x >= 0 && y >= 0
    ensures x * y >= 0
  {
  }

  lemma Distributes(claimed: int, room: int, r: int)
    ensures (claimed + 1 + room) * r == claimed * r + r + room * r
  {
  }

  lemma RoomForOneMore(claimed: int, limit: int, reservation: int)
    requires claimed < limit && reservation >= 0
    ensures claimed * reservation + reservation <= limit * reservation
  {
    var room := limit - claimed - 1;
    NonNegativeProduct(room, reservation);
    assert limit == claimed + 1 + room;
    Distributes(claimed, room, reservation);
  }
}
