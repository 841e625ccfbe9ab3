/** Option and Result, the failure values every other module uses. */
module Wrappers {
  datatype Option<+T> = None | Some(value: T)

  datatype Result<+T, +E> = Ok(value: T) | Err(error: E)
}

/** What a query that expects at most one row answers. */
module Query {
  datatype Scalar<+K> = NoRow | OneRow(key: K) | MultipleRows

  /** `scalar_one_or_none()`: two matching rows are an error, not a choice. */
  function ScalarOneOrNone<K(==)>(rows: set<K>): (r: Scalar<K>)
    ensures r.NoRow? <==> rows == {}
    ensures r.OneRow? ==> rows == {r.key}
    ensures r.MultipleRows? <==> exists a, b | a in rows && b in rows :: a != b
  {
    if rows == {} then NoRow
    else if exists k | k in rows :: rows == {k} then
      var k :| k in rows && rows == {k};
      OneRow(k)
    else
      assert exists a, b | a in rows && b in rows :: a != b by {
        var a :| a in rows;
        assert rows != {a};
        assert exists b | b in rows :: b != a;
      }
      MultipleRows
  }
}
