/** Values that several modules share. */
module Base {

  /** A nullable column, or a query's `.first()`. */
  datatype Option<+T> = None | Some(value: T)

  /** A submission's status. */
  datatype Status = Pending | Running | Done | Error

  /** The agent is finished with the submission, one way or the other. */
  predicate Terminal(st: Status) {
    st == Done || st == Error
  }

  function Max(a: int, b: int): int {
    if a < b then b else a
  }

  function Min(a: int, b: int): int {
    if a < b then a else b
  }

  /** No value occurs twice. */
  predicate Distinct<T(==)>(s: seq<T>) {
    forall i, j | 0 <= i < j < |s| :: s[i] != s[j]
  }

  /** A primary key that no row has yet. */
  lemma {:induction false} FreshKey(keys: set<nat>) returns (k: nat)
    ensures k !in keys && forall j | j in keys :: j < k
  {
    if keys == {} {
      k := 0;
    } else {
      var j :| j in keys;
      var rest := FreshKey(keys - {j});
      k := Max(rest, j + 1);
      assert forall i | i in keys :: i == j || i in keys - {j};
    }
  }

  lemma MulKeepsOrder(c: nat, x: int, y: int)
    requires x <= y
    ensures c * x <= c * y
  {
    assert c * (y - x) >= 0;
  }
}
