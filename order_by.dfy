/**
 * SQL's `ORDER BY key DESC` over the rows of a table: an enumeration of a
 * finite set of rows, each once, with non-increasing keys. Rows with equal
 * keys come in an order the query leaves unspecified; the model picks one.
 */
module OrderBy {

  /** `r` lists the rows of `s`, each exactly once. */
  ghost predicate Enumerates<T>(r: seq<T>, s: set<T>) {
    && |r| == |s|
    && (forall i :: 0 <= i < |r| ==> r[i] in s)
    && (forall x :: x in s ==> x in r)
    && (forall i, j :: 0 <= i < j < |r| ==> r[i] != r[j])
  }

  /** Keys never increase along `r`. */
  ghost predicate Descending<T>(r: seq<T>, key: T -> int) {
    forall i, j :: 0 <= i < j < |r| ==> key(r[i]) >= key(r[j])
  }

  /** A non-empty finite set has an element with the largest key. */
  lemma {:induction false} LargestExists<T>(s: set<T>, key: T -> int)
    requires s != {}
    ensures exists x :: x in s && forall y :: y in s ==> key(y) <= key(x)
    decreases |s|
  {
    var z :| z in s;
    if s - {z} == {} {
      forall y | y in s ensures key(y) <= key(z) {
        assert y !in s - {z};
      }
    } else {
      LargestExists(s - {z}, key);
      var m :| m in s - {z} && forall y :: y in s - {z} ==> key(y) <= key(m);
      if key(z) <= key(m) {
        assert forall y :: y in s ==> key(y) <= key(m);
      } else {
        assert forall y :: y in s ==> key(y) <= key(z);
      }
    }
  }

  /** The rows of `s` in descending order of `key`. */
  ghost function Desc<T>(s: set<T>, key: T -> int): (r: seq<T>)
    ensures Enumerates(r, s)
    ensures Descending(r, key)
    decreases |s|
  {
    if s == {} then []
    else
      LargestExists(s, key);
      var x :| x in s && forall y :: y in s ==> key(y) <= key(x);
      var rest := Desc(s - {x}, key);
      assert forall i :: 0 <= i < |rest| ==> rest[i] in s - {x};
      [x] + rest
  }
}
