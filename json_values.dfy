/**
 * The JSON-like values the course catalog is made of, with the Python
 * operations the schedule generators apply to them. An object is a sequence
 * of (key, value) pairs in insertion order, as a Python dict iterates; the
 * catalogs used here never repeat a key inside one object, and where an
 * object does, the first pair with that key is the one looked up.
 */
module JsonValues {
  import opened Wrappers
  import opened Text

  datatype Json =
    | Null
    | Bool(b: bool)
    | Int(i: int)
    | Str(s: string)
    | Arr(items: seq<Json>)
    | Obj(fields: seq<(string, Json)>)

  /** The keys of a dict, in insertion order. */
  function Keys(fields: seq<(string, Json)>): (ks: seq<string>)
    ensures |ks| == |fields|
    ensures forall i :: 0 <= i < |fields| ==> ks[i] == fields[i].0
  {
    if fields == [] then [] else [fields[0].0] + Keys(fields[1..])
  }

  /** `d.get(k)`: the value of the first pair with key `k`. */
  function Get(fields: seq<(string, Json)>, k: string): (r: Option<Json>)
    ensures r.Some? <==> k in Keys(fields)
    ensures r.Some? ==> (k, r.value) in fields
  {
    if fields == [] then None
    else if fields[0].0 == k then Some(fields[0].1)
    else Get(fields[1..], k)
  }

  /** A value found under a key is strictly smaller than the dict holding it. */
  lemma {:induction false} GetSmaller(fields: seq<(string, Json)>, k: string)
    requires Get(fields, k).Some?
    ensures Get(fields, k).value < Obj(fields)
  {
    if fields[0].0 != k {
      GetSmaller(fields[1..], k);
    }
  }

  /** `v[k]` for a string key `k`. */
  function Lookup(v: Json, k: string): Result<Json> {
    match v
    case Obj(fields) =>
      (match Get(fields, k)
       case Some(x) => Success(x)
       case None => Failure(KeyError(k)))
    case _ => Failure(TypeError)
  }

  /**
   * `k in v` for a string `k`: key membership for a dict, element equality for
   * a list, substring for a string; any other value is not a container.
   */
  function Contains(v: Json, k: string): Result<bool> {
    match v
    case Obj(fields) => Success(k in Keys(fields))
    case Arr(items) => Success(Str(k) in items)
    case Str(s) => Success(IsSubstring(k, s))
    case _ => Failure(TypeError)
  }

  /** `v.items()`: only a dict has it. */
  function Items(v: Json): Result<seq<(string, Json)>> {
    if v.Obj? then Success(v.fields) else Failure(AttributeError)
  }

  function KeyStrings(fields: seq<(string, Json)>): (r: seq<Json>)
    ensures |r| == |fields|
    ensures forall i :: 0 <= i < |fields| ==> r[i] == Str(fields[i].0)
  {
    if fields == [] then [] else [Str(fields[0].0)] + KeyStrings(fields[1..])
  }

  function CharStrings(s: string): (r: seq<Json>)
    ensures |r| == |s|
    ensures forall i :: 0 <= i < |s| ==> r[i] == Str([s[i]])
  {
    if s == [] then [] else [Str([s[0]])] + CharStrings(s[1..])
  }

  /**
   * What `for x in v` visits: the items of a list, the keys of a dict, the
   * one-character strings of a string; other values are not iterable.
   */
  function Elements(v: Json): Result<seq<Json>> {
    match v
    case Arr(items) => Success(items)
    case Obj(fields) => Success(KeyStrings(fields))
    case Str(s) => Success(CharStrings(s))
    case _ => Failure(TypeError)
  }

  /**
   * `d2 = d.copy(); d2[k] = v`: the copy maps `k` to `v` and agrees with
   * the original on every other key; an existing key keeps its place and a
   * new key goes last.
   */
  function SetKey(fields: seq<(string, Json)>, k: string, v: Json): (r: seq<(string, Json)>)
    ensures Get(r, k) == Some(v)
    ensures forall k' :: k' != k ==> Get(r, k') == Get(fields, k')
    ensures Keys(r) == if k in Keys(fields) then Keys(fields) else Keys(fields) + [k]
  {
    if fields == [] then [(k, v)]
    else if fields[0].0 == k then
      var r := [(k, v)] + fields[1..];
      assert r[1..] == fields[1..];
      r
    else
      var rest := SetKey(fields[1..], k, v);
      var r := [fields[0]] + rest;
      assert r[1..] == rest;
      r
  }
}
