/**
 * PHP values as they travel through the search request body, the context and the
 * search response, and the two PHP operators on array keys the provider relies on:
 * `isset($a[$k])` and `$a[$k] ??= $v`.
 */
module PhpValue {

  /** A PHP value: `null`, a scalar, a list, a string-keyed array, or an `stdClass` object. */
  datatype Value =
    | Null
    | Bool(b: bool)
    | Int(i: int)
    | Str(s: string)
    | List(items: seq<Value>)
    | Assoc(entries: map<string, Value>)
    | StdObject(properties: map<string, Value>)

  /** A string-keyed PHP array, such as the search body `$body` or the `$context`. */
  type Dict = map<string, Value>

  /**
   * `isset($a[$k])`: the key is present AND does not hold `null`. A key holding
   * `0`, `false`, `""` or `[]` is set.
   */
  predicate IsSet(a: Dict, k: string)
  {
    k in a && a[k] != Null
  }

  /**
   * `$a[$k] ??= $v`: assigns only when the key is not set (absent or `null`);
   * a set key keeps whatever it holds.
   */
  function CoalesceAssign(a: Dict, k: string, v: Value): (r: Dict)
    ensures IsSet(a, k) ==> r == a
    ensures !IsSet(a, k) ==> k in r && r[k] == v
    ensures r.Keys == a.Keys + {k}
    ensures forall j :: j in a && j != k ==> j in r && r[j] == a[j]
  {
    if IsSet(a, k) then a else a[k := v]
  }

  /** After `$a[$k] ??= $v` with a non-null `$v`, the key is set. */
  lemma CoalesceAssignSets(a: Dict, k: string, v: Value)
    requires v != Null
    ensures IsSet(CoalesceAssign(a, k, v), k)
  {
  }

  /** `??=` is idempotent: a second assignment, with any value, changes nothing. */
  lemma CoalesceAssignIdempotent(a: Dict, k: string, v: Value, w: Value)
    requires v != Null
    ensures CoalesceAssign(CoalesceAssign(a, k, v), k, w) == CoalesceAssign(a, k, v)
  {
  }

  /** First write wins: a key holding `0` is set and is never overwritten. */
  lemma ZeroIsSet(a: Dict, k: string, v: Value)
    requires k in a && a[k] == Int(0)
    ensures CoalesceAssign(a, k, v)[k] == Int(0)
  {
  }

  /** A key holding `null` counts as unset and is overwritten. */
  lemma NullIsUnset(a: Dict, k: string, v: Value)
    requires k in a && a[k] == Null
    ensures CoalesceAssign(a, k, v)[k] == v
  {
  }
}
