/** A community record: the Python dict json.loads makes of one community's
    API file, which both scripts change in place. The record's own keys are
    state of the object; the values under them (nested dicts and lists
    included) are plain values, and a change inside a nested dict is made by
    storing the changed value back under its key, which keeps the key where
    it was, as an in-place change would. */
module Record {
  import opened Values
  import opened Options

  /** What a call on a record returns or raises, with the record's items as
      the call leaves them. */
  datatype Outcome<T> = Outcome(result: Result<T>, record: seq<Field>)

  class Dict {
    /** The items in iteration order. */
    var items: seq<Field>

    constructor (items: seq<Field>)
      ensures this.items == items
    {
      this.items := items;
    }

    /** `d[k]`: the value stored under `k`, or KeyError. */
    method Get(k: string) returns (r: Result<Json>)
      ensures r.Ok? <==> k in Keys(items)
      ensures r.Ok? ==> Lookup(items, k) == Some(r.value)
      ensures r.Err? ==> r.error == KeyError(Name(k))
    {
      match Lookup(items, k)
      case Some(v) => r := Ok(v);
      case None => r := Err(KeyError(Name(k)));
    }

    /** `del d[k]`: removes `k`, or raises KeyError and changes nothing. */
    method DelItem(k: string) returns (raised: Option<PyError>)
      modifies this
      ensures items == Remove(old(items), k)
      ensures raised.None? <==> k in Keys(old(items))
      ensures raised.Some? ==> raised.value == KeyError(Name(k))
    {
      if k in Keys(items) {
        items := Remove(items, k);
        raised := None;
      } else {
        RemoveSpec(items, k);
        raised := Some(KeyError(Name(k)));
      }
    }

    /** `d[k] = v`. */
    method SetItem(k: string, v: Json)
      modifies this
      ensures items == Assign(old(items), k, v)
    {
      items := Assign(items, k, v);
    }

    /** A new dict with the same items: `copy.deepcopy(d)` and `d.copy()`
        alike, since the values are not objects here. Where the source relies
        on a shallow copy sharing a nested dict, the caller says so. */
    method Copy() returns (c: Dict)
      ensures fresh(c)
      ensures c.items == items
    {
      c := new Dict(items);
    }
  }
}
