/** Values shared by the script generator and the pipeline: an optional value,
    the outcome of a call that either returns or raises, and the JSON-shaped
    Python values that the stages produce. */
module Values {

  datatype Option<+T> = None | Some(value: T)

  /** The outcome of a Python call: it returns a value, or it raises an
      exception whose `str(e)` is `message`. */
  datatype Outcome<+T> = Returned(value: T) | Raised(message: string)

  /** A value as `json.loads` produces it (floats are not modelled). */
  datatype Json =
    | JNull
    | JBool(b: bool)
    | JNum(n: int)
    | JStr(s: string)
    | JArr(items: seq<Json>)
    | JObj(fields: map<string, Json>)

  /** Python truthiness of a value. */
  predicate Truthy(j: Json)
  {
    match j
    case JNull => false
    case JBool(b) => b
    case JNum(n) => n != 0
    case JStr(s) => s != ""
    case JArr(items) => items != []
    case JObj(fields) => fields != map[]
  }

  /** The name CPython's error messages use for the type of a value. */
  function TypeName(j: Json): string
  {
    match j
    case JNull => "NoneType"
    case JBool(_) => "bool"
    case JNum(_) => "int"
    case JStr(_) => "str"
    case JArr(_) => "list"
    case JObj(_) => "dict"
  }

  /** Whether `len(j)` is defined. */
  predicate Sized(j: Json)
  {
    j.JStr? || j.JArr? || j.JObj?
  }

  /** `len(j)` when it is defined, raising CPython's TypeError otherwise. */
  function Len(j: Json): (r: Outcome<nat>)
    ensures r.Returned? <==> Sized(j)
  {
    match j
    case JStr(s) => Returned(|s|)
    case JArr(items) => Returned(|items|)
    case JObj(fields) => Returned(|fields|)
    case _ => Raised("object of type '" + TypeName(j) + "' has no len()")
  }

  /** Whether `s` starts with `prefix`. */
  predicate StartsWith(s: string, prefix: string)
  {
    |prefix| <= |s| && s[..|prefix|] == prefix
  }

  /** Python's `k in s` for two strings: `k` occurs somewhere in `s`. */
  predicate Substring(k: string, s: string)
    decreases |s|
  {
    StartsWith(s, k) || (s != [] && Substring(k, s[1..]))
  }

  /** `k` occurs in `s` at position `i`. */
  predicate OccursAt(k: string, s: string, i: int)
  {
    0 <= i && i + |k| <= |s| && s[i..i + |k|] == k
  }

  lemma OccursAtTail(k: string, s: string, i: nat)
    requires s != []
    ensures OccursAt(k, s, i + 1) <==> OccursAt(k, s[1..], i)
  {
    if i + 1 + |k| <= |s| {
      assert s[1..][i..i + |k|] == s[i + 1..i + 1 + |k|];
    }
  }

  /** `k in s` holds exactly when `k` occurs in `s` at some position. */
  lemma {:induction false} SubstringOccurs(k: string, s: string)
    ensures Substring(k, s) <==> exists i :: OccursAt(k, s, i)
    decreases |s|
  {
    if StartsWith(s, k) {
      assert OccursAt(k, s, 0);
    } else if s == [] {
      assert forall i :: !OccursAt(k, s, i);
    } else {
      SubstringOccurs(k, s[1..]);
      if exists i :: OccursAt(k, s, i) {
        var i :| OccursAt(k, s, i);
        assert i != 0;
        OccursAtTail(k, s, i - 1);
      }
      if exists j :: OccursAt(k, s[1..], j) {
        var j :| OccursAt(k, s[1..], j);
        OccursAtTail(k, s, j);
      }
    }
  }

  /** Python's `key in v` for a string key. */
  function In(key: string, v: Json): (r: Outcome<bool>)
    ensures r.Returned? <==> Sized(v)
    ensures v.JObj? ==> r == Returned(key in v.fields)
    ensures v.JArr? ==> r == Returned(JStr(key) in v.items)
    ensures v.JStr? ==> r == Returned(Substring(key, v.s))
    ensures !Sized(v) ==> r == Raised("argument of type '" + TypeName(v) + "' is not iterable")
  {
    match v
    case JObj(fields) => Returned(key in fields)
    case JArr(items) => Returned(JStr(key) in items)
    case JStr(s) => Returned(Substring(key, s))
    case _ => Raised("argument of type '" + TypeName(v) + "' is not iterable")
  }

  /** Python's `v[key]` for a string key; a missing key raises a KeyError,
      whose `str` is the quoted key. */
  function Subscript(v: Json, key: string): (r: Outcome<Json>)
    ensures r.Returned? <==> v.JObj? && key in v.fields
    ensures r.Returned? ==> r.value == v.fields[key]
  {
    match v
    case JObj(fields) => if key in fields then Returned(fields[key]) else Raised("'" + key + "'")
    case JArr(_) => Raised("list indices must be integers or slices, not str")
    case JStr(_) => Raised("string indices must be integers, not 'str'")
    case _ => Raised("'" + TypeName(v) + "' object is not subscriptable")
  }
}
