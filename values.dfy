/** Python values as json.loads produces them, the exceptions the core can raise,
    and the dictionary operations (lookup, `del`, item assignment) it applies to them. */
module Values {
  import Decimal
  import opened Options

  /** A JSON value once it is a Python object. Objects keep their keys in
      insertion order, as Python dicts iterate. */
  datatype Json =
    | JNull
    | JBool(b: bool)
    | JInt(i: int)
    | JFloat(text: string)  // a float, carried as the text that str() prints for it
    | JStr(s: string)
    | JArray(elems: seq<Json>)
    | JObject(fields: seq<Field>)
  {
    /** Not a dict and not a list: the values that walk hands to str() and urlize. */
    predicate IsScalar() { !JArray? && !JObject? }
  }

  type Field = (string, Json)

  /** One step of a path into a JSON document, and the key of a KeyError. */
  datatype PathElem = Name(name: string) | Index(index: int)

  /** The exceptions the modelled code raises. */
  datatype PyError =
    | KeyError(key: PathElem)
    | TypeError
    | ValueError
    | NameError     // also UnboundLocalError, a subclass of NameError
    | VersionError  // packaging.version.InvalidVersion / IrrationalVersionError

  datatype Result<T> = Ok(value: T) | Err(error: PyError)

  /** The keys of an association list, in order. */
  function Keys<V>(fs: seq<(string, V)>): (ks: seq<string>)
    ensures |ks| == |fs|
    ensures forall i :: 0 <= i < |fs| ==> ks[i] == fs[i].0
  {
    if fs == [] then [] else [fs[0].0] + Keys(fs[1..])
  }

  /** `d.get(k)`: the value stored under `k`, if any. */
  function Lookup<V>(fs: seq<(string, V)>, k: string): (r: Option<V>)
    ensures r.Some? <==> k in Keys(fs)
    ensures r.Some? ==> (k, r.value) in fs
  {
    if fs == [] then None
    else if fs[0].0 == k then Some(fs[0].1)
    else Lookup(fs[1..], k)
  }

  /** `del d[k]` on a dict that holds `k`; leaves the dict as it is otherwise. */
  function Remove<V>(fs: seq<(string, V)>, k: string): seq<(string, V)>
  {
    if fs == [] then []
    else if fs[0].0 == k then Remove(fs[1..], k)
    else [fs[0]] + Remove(fs[1..], k)
  }

  /** `del d[k]` takes `k` out and leaves every other key and its value. */
  lemma {:induction false} RemoveSpec<V>(fs: seq<(string, V)>, k: string)
    ensures k !in Keys(Remove(fs, k))
    ensures forall k' :: k' != k ==> Lookup(Remove(fs, k), k') == Lookup(fs, k')
    ensures k !in Keys(fs) ==> Remove(fs, k) == fs
    ensures forall k' :: k' in Keys(Remove(fs, k)) <==> k' != k && k' in Keys(fs)
  {
    if fs != [] {
      var rest := Remove(fs[1..], k);
      RemoveSpec(fs[1..], k);
      if fs[0].0 != k {
        var r := [fs[0]] + rest;
        assert r[1..] == rest;
        assert Keys(r) == [fs[0].0] + Keys(rest);
        assert k !in Keys(fs) ==> k !in Keys(fs[1..]) && r == fs;
      }
    }
    forall k' ensures k' in Keys(Remove(fs, k)) <==> k' != k && k' in Keys(fs) {
      if k' != k {
        assert Lookup(Remove(fs, k), k') == Lookup(fs, k');
      }
    }
  }

  /** `d[k] = v`: replaces the value in place when `k` is present, appends otherwise. */
  function Assign<V>(fs: seq<(string, V)>, k: string, v: V): (r: seq<(string, V)>)
    ensures Lookup(r, k) == Some(v)
    ensures forall k' :: k' != k ==> Lookup(r, k') == Lookup(fs, k')
    ensures k in Keys(fs) ==> Keys(r) == Keys(fs)
  {
    if k in Keys(fs) then Replace(fs, k, v)
    else
      LookupAppend(fs, k, v);
      fs + [(k, v)]
  }

  /** The value of a present key replaced where it stands. */
  function Replace<V>(fs: seq<(string, V)>, k: string, v: V): (r: seq<(string, V)>)
    requires k in Keys(fs)
    ensures Lookup(r, k) == Some(v)
    ensures forall k' :: k' != k ==> Lookup(r, k') == Lookup(fs, k')
    ensures Keys(r) == Keys(fs)
  {
    if fs[0].0 == k then
      var r := [(k, v)] + fs[1..];
      assert r[1..] == fs[1..];
      assert Keys(r) == [k] + Keys(fs[1..]);
      r
    else
      assert Keys(fs) == [fs[0].0] + Keys(fs[1..]);
      var rest := Replace(fs[1..], k, v);
      var r := [fs[0]] + rest;
      assert r[1..] == rest;
      assert Keys(r) == [fs[0].0] + Keys(rest);
      r
  }

  /** Looking up in a dict with one more pair at the end. */
  lemma {:induction false} LookupAppend<V>(fs: seq<(string, V)>, k: string, v: V)
    requires k !in Keys(fs)
    ensures Lookup(fs + [(k, v)], k) == Some(v)
    ensures forall k' :: k' != k ==> Lookup(fs + [(k, v)], k') == Lookup(fs, k')
  {
    if fs != [] {
      assert Keys(fs) == [fs[0].0] + Keys(fs[1..]);
      LookupAppend(fs[1..], k, v);
      assert (fs + [(k, v)])[1..] == fs[1..] + [(k, v)];
    }
  }

  /** Storing the value a key already holds changes nothing. */
  lemma {:induction false} AssignSame<V>(fs: seq<(string, V)>, k: string, v: V)
    requires Lookup(fs, k) == Some(v)
    ensures Assign(fs, k, v) == fs
  {
    ReplaceSame(fs, k, v);
  }

  lemma {:induction false} ReplaceSame<V>(fs: seq<(string, V)>, k: string, v: V)
    requires Lookup(fs, k) == Some(v)
    ensures k in Keys(fs) && Replace(fs, k, v) == fs
  {
    if fs[0].0 != k {
      assert Keys(fs) == [fs[0].0] + Keys(fs[1..]);
      ReplaceSame(fs[1..], k, v);
    }
  }

  /** `v[k]` for a string key `k`. */
  function Subscript(v: Json, k: string): (r: Result<Json>)
    ensures r.Ok? <==> v.JObject? && k in Keys(v.fields)
    ensures r.Ok? ==> Lookup(v.fields, k) == Some(r.value)
    ensures r == Err(TypeError) <==> !v.JObject?
    ensures r == Err(KeyError(Name(k))) <==> v.JObject? && k !in Keys(v.fields)
  {
    match v
    case JObject(fs) =>
      (match Lookup(fs, k)
       case Some(x) => Ok(x)
       case None => Err(KeyError(Name(k))))
    // a list wants an integer index; a string, a number, a bool and None are not subscriptable by a string
    case _ => Err(TypeError)
  }

  /** `del v[k]` for a string key `k`: the value afterwards, or the exception raised. */
  function DelItem(v: Json, k: string): (r: Result<Json>)
    ensures r.Ok? <==> v.JObject? && k in Keys(v.fields)
    ensures r.Ok? ==> r.value == JObject(Remove(v.fields, k))
    ensures r == Err(TypeError) <==> !v.JObject?
    ensures r == Err(KeyError(Name(k))) <==> v.JObject? && k !in Keys(v.fields)
  {
    match v
    case JObject(fs) =>
      if k in Keys(fs) then Ok(JObject(Remove(fs, k))) else Err(KeyError(Name(k)))
    case _ => Err(TypeError)
  }

  /** Whether `v` can be used as a dict key (lists and dicts cannot: TypeError). */
  predicate Hashable(v: Json) { v.IsScalar() }

  /** Python's str() of a scalar value. */
  function Str(v: Json): (r: string)
    requires v.IsScalar()
    ensures v.JStr? ==> r == v.s
    ensures v.JInt? ==> Decimal.ParseInt(r) == Some(v.i)
  {
    match v
    case JNull => "None"
    case JBool(b) => if b then "True" else "False"
    case JInt(i) => Decimal.IntRoundTrip(i); Decimal.IntToStr(i)
    case JFloat(t) => t
    case JStr(s) => s
  }

  /** str() of one element of a jsonschema error path. */
  function PathStr(p: PathElem): string
  {
    match p
    case Name(s) => s
    case Index(i) => Decimal.IntToStr(i)
  }
}
