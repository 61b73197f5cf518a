/** Shared vocabulary: optional values, results, and the dynamically typed
    dictionaries the program passes around (lead records, CSV rows, CRM
    records, action payloads). */
module Base {

  datatype Option<T> = None | Some(value: T)

  datatype Result<T, E> = Ok(value: T) | Err(error: E)

  /** A value stored in a dictionary.  `Null` is Python's `None` (JSON null). */
  datatype Value = Null | Str(s: string) | Int(i: int) | Bool(b: bool)

  /** A Python dict with string keys; a key that is absent is not in the map. */
  type Dict = map<string, Value>

  /** `d.get(k, default)` */
  function Get(d: Dict, k: string, default: Value): (v: Value)
    ensures k in d ==> v == d[k]
    ensures k !in d ==> v == default
  {
    if k in d then d[k] else default
  }

  /** Python truthiness of a dictionary value. */
  predicate Truthy(v: Value) {
    match v
    case Null => false
    case Str(s) => s != ""
    case Int(i) => i != 0
    case Bool(b) => b
  }

  /** `a or b` on dictionary values: the first operand when it is truthy. */
  function Or(a: Value, b: Value): (v: Value)
    ensures Truthy(a) ==> v == a
    ensures !Truthy(a) ==> v == b
  {
    if Truthy(a) then a else b
  }

  /** The names of the fields that failed validation, in declaration order. */
  datatype ValidationError = ValidationError(fields: seq<string>)

  /** A field declared `str` with a default: absent takes the default, only strings are accepted. */
  predicate StrOk(d: Dict, k: string) {
    k !in d || d[k].Str?
  }

  function StrOr(d: Dict, k: string, default: string): (s: string)
    ensures k in d && d[k].Str? ==> s == d[k].s
    ensures k !in d ==> s == default
  {
    if k in d && d[k].Str? then d[k].s else default
  }

  /** Python truthiness of an optional string (`None` and `""` are false). */
  predicate Present(s: Option<string>) {
    s.Some? && s.value != ""
  }

  function Min(a: int, b: int): int {
    if a <= b then a else b
  }

  function Max(a: int, b: int): int {
    if a >= b then a else b
  }

  /** Python's `s[:limit]`: a negative limit counts from the end. */
  function Take<T>(s: seq<T>, limit: int): (r: seq<T>)
    ensures |r| == if limit >= 0 then Min(limit, |s|) else Max(0, |s| + limit)
    ensures |r| <= |s| && r == s[..|r|]
  {
    if limit >= 0 then s[..Min(limit, |s|)] else s[..Max(0, |s| + limit)]
  }

  /** Cutting `a` to `limit`, appending `b` and cutting again keeps the cut
      `a` in front, followed by as much of `b` as fits. */
  lemma TakeAppendTake<T>(a: seq<T>, b: seq<T>, limit: nat)
    ensures var d := Min(limit, |a|);
      var r := Take(Take(a, limit) + b, limit);
      |r| == Min(limit, d + |b|) && r[..d] == a[..d] && forall i :: d <= i < |r| ==> r[i] == b[i - d]
  {
    var d := Min(limit, |a|);
    var c := Take(a, limit) + b;
    var r := Take(c, limit);
    assert r == c[..|r|];
    forall i | 0 <= i < d ensures r[i] == a[i] {
      assert r[i] == c[i];
    }
    forall i | d <= i < |r| ensures r[i] == b[i - d] {
      assert r[i] == c[i];
    }
  }
}
