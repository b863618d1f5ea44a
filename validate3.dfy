/** `validate_community` of render3.py (lines 88-144): checks one community
    record against the JSON schema of the API version it declares, and says
    whether it is valid, out of date or invalid.

    It works on the record in place: it deletes the bookkeeping keys the
    directory adds and, for API 0.5.x, the legacy coordinates, before it
    hands the record to the validator. */
module Validate3 {
  import opened Values
  import opened Options
  import Text
  import Version
  import Sorting
  import opened Schema
  import opened Record

  /** The statements of a `try` block run so far: the value they leave, and
      the exception that stopped them, if one did. */
  datatype Step<T> = Step(value: T, raised: Option<PyError>)

  const TooOld: string := "API version too old! You should upgrade your file"

  /** The mapping validate_community returns when it gets to the end. */
  function Verdict(status: string, statusText: string, result: string): Json
  {
    JObject([("status", JStr(status)), ("status_text", JStr(statusText)), ("result", JStr(result))])
  }

  /** The result text for errors: each pass of the loop overwrites the one
      before, so only the last error is listed, and the list is closed with
      `</ul`, without `>`. */
  function LastErrorList(errors: seq<SchemaError>): string
    requires |errors| > 0
  {
    "<ul>" + ErrorItem(errors[|errors| - 1]) + "</ul"
  }

  /** Lines 123-142: the verdict on the sorted errors and the declared API
      version. An unparsable version raises. */
  function Classify(api: string, errors: seq<SchemaError>): (r: Result<Json>)
    ensures r.Ok? ==> r.value.JObject? && Keys(r.value.fields) == ["status", "status_text", "result"]
    ensures r.Err? <==> |errors| == 0 && Version.ParseRelease(api).None?
    ensures r.Err? ==> r.error == VersionError
    ensures r.Ok? ==> (Lookup(r.value.fields, "status") == Some(JStr("invalid")) <==> |errors| > 0)
    ensures r.Ok? && |errors| == 0 ==>
      (Lookup(r.value.fields, "status") == Some(JStr("warning"))
       <==> Version.Compare(Version.ParseRelease(api).value, Version.Threshold) < 0)
    ensures |errors| > 0 ==> r == Ok(Verdict("invalid", "Invalid", "<ul>" + ErrorItem(errors[|errors| - 1]) + "</ul"))
    ensures r.Ok? && |errors| == 0 ==>
      r.value == if Version.Compare(Version.ParseRelease(api).value, Version.Threshold) < 0
                 then Verdict("warning", "Warning", TooOld)
                 else Verdict("valid", "Valid", "")
  {
    if |errors| > 0 then Ok(Verdict("invalid", "Invalid", LastErrorList(errors)))
    else
      match Version.OlderThanThreshold(api)
      case Err(e) => Err(e)
      case Ok(tooOld) =>
        Ok(if tooOld then Verdict("warning", "Warning", TooOld) else Verdict("valid", "Valid", ""))
  }

  /** Lines 95-108: the three bookkeeping keys go, if they are there. */
  function StripBookkeeping(fields: seq<Field>): seq<Field>
  {
    Remove(Remove(Remove(fields, "mtime"), "etime"), "error")
  }

  /** One `del v[k]` statement of the legacy block. */
  function DelStep(v: Json, k: string): (s: Step<Json>)
    ensures s.raised.None? ==> s.value.JObject?
    ensures s.raised.Some? ==> s.value == v
  {
    match DelItem(v, k)
    case Ok(v') => Step(v', None)
    case Err(e) => Step(v, Some(e))
  }

  /** Lines 115-116 for one additional location: its lat, then its lon. */
  function StripPair(e: Json): Step<Json>
  {
    var lat := DelStep(e, "lat");
    if lat.raised.Some? then lat else DelStep(lat.value, "lon")
  }

  /** Runs a `body` of statements on the first `n` elements of a list in
      turn, each on the element as it stands, until one pass raises. */
  function TryEach(xs: seq<Json>, n: nat, body: Json -> Step<Json>): (r: Step<seq<Json>>)
    requires n <= |xs|
    ensures |r.value| == |xs|
  {
    if n == 0 then Step(xs, None)
    else
      var done := TryEach(xs, n - 1, body);
      if done.raised.Some? then done
      else
        var pass := body(done.value[n - 1]);
        Step(done.value[n - 1 := pass.value], pass.raised)
  }

  /** The loop of lines 114-116 over the first `n` additional locations. */
  function StripElems(xs: seq<Json>, n: nat): (r: Step<seq<Json>>)
    requires n <= |xs|
    ensures |r.value| == |xs|
  {
    TryEach(xs, n, StripPair)
  }

  /** Line 114 iterates whatever the additionalLocations value is. */
  function StripAdditional(adds: Json): Step<Json>
  {
    match adds
    case JArray(xs) =>
      var s := StripElems(xs, |xs|);
      Step(JArray(s.value), s.raised)
    // a dict iterates its keys, and the dict has no key 0
    case JObject(fs) => Step(adds, if fs == [] then None else Some(KeyError(Index(0))))
    // a string iterates its characters, which take no string subscript
    case JStr(s) => Step(adds, if s == "" then None else Some(TypeError))
    // None, a bool and a number cannot be iterated
    case _ => Step(adds, Some(TypeError))
  }

  /** Lines 112-116 on the location value. */
  function StripLocation(loc: Json): Step<Json>
  {
    var lat := DelStep(loc, "lat");
    if lat.raised.Some? then lat
    else
      var lon := DelStep(lat.value, "lon");
      if lon.raised.Some? then lon
      else
        var fs := lon.value.fields;
        match Lookup(fs, "additionalLocations")
        case None => Step(lon.value, Some(KeyError(Name("additionalLocations"))))
        case Some(adds) =>
          var s := StripAdditional(adds);
          Step(JObject(Assign(fs, "additionalLocations", s.value)), s.raised)
  }

  /** Lines 111-116 on the record: the body of the `try`. */
  function StripLegacy(fields: seq<Field>): Step<seq<Field>>
  {
    match Lookup(fields, "location")
    case None => Step(fields, Some(KeyError(Name("location"))))
    case Some(loc) =>
      var s := StripLocation(loc);
      Step(Assign(fields, "location", s.value), s.raised)
  }

  /** Whether the declared API is a key of `specs`; TypeError for a list or a
      dict, which cannot be looked up. */
  predicate Known(specs: seq<(string, Json)>, api: Json)
  {
    api.JStr? && api.s in Keys(specs)
  }

  /** validate_community on a record: its result and the record it leaves. */
  function Validate(specs: seq<(string, Json)>, fields: seq<Field>, validator: Validator): Outcome<Json>
  {
    match Lookup(fields, "api")
    case None => Outcome(Err(KeyError(Name("api"))), fields)
    case Some(api) =>
      if !Hashable(api) then Outcome(Err(TypeError), fields)
      else if !Known(specs, api) then
        Outcome(if "url" in Keys(fields) then Ok(JObject([])) else Err(KeyError(Name("url"))), fields)
      else ValidateKnown(specs, api.s, fields, validator)
  }

  /** Lines 95-144, once the declared version `api` is known to be in `specs`. */
  function ValidateKnown(specs: seq<(string, Json)>, api: string, fields: seq<Field>, validator: Validator): Outcome<Json>
    requires api in Keys(specs)
  {
    var kept := StripBookkeeping(fields);
    var s := if Text.StartsWith(api, "0.5.") then StripLegacy(kept) else Step(kept, None);
    if s.raised.Some? && !s.raised.value.KeyError? then Outcome(Err(s.raised.value), s.value)
    else
      var errors := SortErrors(validator(Lookup(specs, api).value, JObject(s.value)));
      Outcome(Classify(api, errors), s.value)
  }

  /** validate_community as render3.py runs it, on the record in place. */
  method ValidateCommunity(specs: seq<(string, Json)>, instance: Dict, validator: Validator) returns (r: Result<Json>)
    modifies instance
    ensures Outcome(r, instance.items) == Validate(specs, old(instance.items), validator)
  {
    var api := instance.Get("api");
    if api.Err? {
      return Err(api.error);
    }
    if !Hashable(api.value) {
      return Err(TypeError);
    }
    if !Known(specs, api.value) {
      var url := instance.Get("url");
      if url.Err? {
        return Err(url.error);
      }
      return Ok(JObject([]));
    }
    r := ValidateKnownCommunity(specs, api.value.s, instance, validator);
  }

  /** Lines 95-144 in place. */
  method ValidateKnownCommunity(specs: seq<(string, Json)>, api: string, instance: Dict, validator: Validator)
    returns (r: Result<Json>)
    requires api in Keys(specs)
    modifies instance
    ensures Outcome(r, instance.items) == ValidateKnown(specs, api, old(instance.items), validator)
  {
    StripBookkeepingKeys(instance);
    if Text.StartsWith(api, "0.5.") {
      var raised := StripLegacyKeys(instance);
      if raised.Some? && !raised.value.KeyError? {
        return Err(raised.value);
      }
    }
    var errors := SortErrors(validator(Lookup(specs, api).value, JObject(instance.items)));
    r := ClassifyErrors(api, errors);
  }

  /** Lines 95-108 in place: each `del` whose KeyError is ignored. */
  method StripBookkeepingKeys(instance: Dict)
    modifies instance
    ensures instance.items == StripBookkeeping(old(instance.items))
  {
    var _ := instance.DelItem("mtime");
    var _ := instance.DelItem("etime");
    var _ := instance.DelItem("error");
  }

  /** Lines 123-142 with their loop over the errors. */
  method ClassifyErrors(api: string, errors: seq<SchemaError>) returns (r: Result<Json>)
    ensures r == Classify(api, errors)
  {
    if |errors| > 0 {
      var collected := "";
      for i := 0 to |errors|
        invariant i > 0 ==> collected == ErrorItem(errors[i - 1])
      {
        var joined := JoinPath(errors[i].path);
        collected := "<li>Error in " + joined + ": " + errors[i].message + "</li>";
      }
      r := Ok(Verdict("invalid", "Invalid", "<ul>" + collected + "</ul"));
    } else {
      var tooOld := Version.OlderThanThreshold(api);
      if tooOld.Err? {
        r := Err(tooOld.error);
      } else if tooOld.value {
        r := Ok(Verdict("warning", "Warning", TooOld));
      } else {
        r := Ok(Verdict("valid", "Valid", ""));
      }
    }
  }

  /** Lines 111-116 on the record; returns the exception that ended the
      block early, if any. The deletions inside the location mapping are
      made on its value, which is stored back when the block ends. */
  method StripLegacyKeys(instance: Dict) returns (raised: Option<PyError>)
    modifies instance
    ensures Step(instance.items, raised) == StripLegacy(old(instance.items))
  {
    var loc := instance.Get("location");
    if loc.Err? {
      return Some(loc.error);
    }
    var stripped;
    stripped, raised := StripLocationKeys(loc.value);
    instance.SetItem("location", stripped);
  }

  /** Lines 112-116 on the location value. */
  method StripLocationKeys(loc: Json) returns (out: Json, raised: Option<PyError>)
    ensures Step(out, raised) == StripLocation(loc)
  {
    var lat := DelStep(loc, "lat");
    if lat.raised.Some? {
      return lat.value, lat.raised;
    }
    var lon := DelStep(lat.value, "lon");
    if lon.raised.Some? {
      return lon.value, lon.raised;
    }
    var fs := lon.value.fields;
    var adds := Lookup(fs, "additionalLocations");
    if adds.None? {
      return lon.value, Some(KeyError(Name("additionalLocations")));
    }
    var s;
    s, raised := StripAdditionalKeys(adds.value);
    out := JObject(Assign(fs, "additionalLocations", s));
  }

  /** Line 114's loop over the additionalLocations value. */
  method StripAdditionalKeys(adds: Json) returns (out: Json, raised: Option<PyError>)
    ensures Step(out, raised) == StripAdditional(adds)
  {
    if !adds.JArray? {
      assert StripAdditional(adds).value == adds;
      return adds, StripAdditional(adds).raised;
    }
    var xs := adds.elems;
    var cur := xs;
    for num := 0 to |xs|
      invariant TryEach(xs, num, StripPair) == Step(cur, None)
    {
      var pass := StripPairKeys(cur[num]);
      cur := cur[num := pass.value];
      assert TryEach(xs, num + 1, StripPair) == Step(cur, pass.raised);
      if pass.raised.Some? {
        TryEachStopped(xs, num + 1, |xs|, StripPair);
        return JArray(cur), pass.raised;
      }
    }
    return JArray(cur), None;
  }

  /** Lines 115-116, the body of the loop, on one additional location. */
  method StripPairKeys(e: Json) returns (pass: Step<Json>)
    ensures pass == StripPair(e)
  {
    pass := DelStep(e, "lat");
    if pass.raised.None? {
      pass := DelStep(pass.value, "lon");
    }
  }

  /** Once an exception has ended the loop, later passes change nothing. */
  lemma {:induction false} TryEachStopped(xs: seq<Json>, n: nat, m: nat, body: Json -> Step<Json>)
    requires n <= m <= |xs|
    requires TryEach(xs, n, body).raised.Some?
    ensures TryEach(xs, m, body) == TryEach(xs, n, body)
    decreases m
  {
    if m > n {
      TryEachStopped(xs, n, m - 1, body);
    }
  }

  /** Every element a pass has not reached is still the element it was. */
  lemma {:induction false} TryEachUntouched(xs: seq<Json>, n: nat, body: Json -> Step<Json>, i: nat)
    requires n <= i < |xs|
    ensures TryEach(xs, n, body).value[i] == xs[i]
  {
    if n > 0 {
      TryEachUntouched(xs, n - 1, body, i);
    }
  }

  /** A location mapping or an additional location once both its coordinates
      are gone. */
  predicate Cleared(v: Json)
  {
    v.JObject? && "lat" !in Keys(v.fields) && "lon" !in Keys(v.fields)
  }

  /** `del v['lat']`, then `del v['lon']`, when neither raises, leaves a
      mapping with neither key. */
  lemma StripPairClears(e: Json)
    requires StripPair(e).raised.None?
    ensures Cleared(StripPair(e).value)
  {
    var lat := DelStep(e, "lat");
    RemoveSpec(e.fields, "lat");
    RemoveSpec(lat.value.fields, "lon");
  }

  /** When the loop runs to the end, every additional location it passed has
      lost both coordinates, and the others are as they were. */
  lemma {:induction false} StripElemsClears(xs: seq<Json>, n: nat)
    requires n <= |xs|
    requires StripElems(xs, n).raised.None?
    ensures forall i :: 0 <= i < n ==> Cleared(StripElems(xs, n).value[i])
    ensures forall i :: n <= i < |xs| ==> StripElems(xs, n).value[i] == xs[i]
  {
    forall i | n <= i < |xs|
      ensures StripElems(xs, n).value[i] == xs[i]
    {
      TryEachUntouched(xs, n, StripPair, i);
    }
    if n > 0 {
      StripElemsClears(xs, n - 1);
      StripPairClears(StripElems(xs, n - 1).value[n - 1]);
    }
  }

  /** The loop stops at the first pass that raises: the loop raises that
      pass's exception, and every element `i` after it is left as it was.
      With StripPair as the body, this is lines 114-118 stopping at the first
      additional location that misses a coordinate or is not a mapping. */
  lemma TryEachStopsAt(xs: seq<Json>, k: nat, body: Json -> Step<Json>, i: nat)
    requires k < i < |xs|
    requires TryEach(xs, k, body).raised.None?
    requires body(xs[k]).raised.Some?
    ensures TryEach(xs, |xs|, body).raised == body(xs[k]).raised
    ensures TryEach(xs, |xs|, body).value[i] == xs[i]
  {
    TryEachStoppedAt(xs, k, |xs|, body, i);
  }

  lemma {:induction false} TryEachStoppedAt(xs: seq<Json>, k: nat, m: nat, body: Json -> Step<Json>, i: nat)
    requires k < i < |xs| && k < m <= |xs|
    requires TryEach(xs, k, body).raised.None?
    requires body(xs[k]).raised.Some?
    ensures TryEach(xs, m, body).raised == body(xs[k]).raised
    ensures TryEach(xs, m, body).value[i] == xs[i]
    decreases m
  {
    if m == k + 1 {
      TryEachUntouched(xs, k, body, k);
      TryEachUntouched(xs, k + 1, body, i);
    } else {
      TryEachStoppedAt(xs, k, m - 1, body, i);
    }
  }

  /** When lines 112-116 raise nothing, the location has lost both
      coordinates, and so has every additional location in a list. */
  lemma StripLocationClears(loc: Json)
    requires StripLocation(loc).raised.None?
    ensures Cleared(StripLocation(loc).value)
    ensures var adds := Lookup(StripLocation(loc).value.fields, "additionalLocations");
      adds.Some? && (adds.value.JArray? ==> forall i :: 0 <= i < |adds.value.elems| ==> Cleared(adds.value.elems[i]))
  {
    var lat := DelStep(loc, "lat");
    assert lat.raised.None?;
    var f1 := Remove(loc.fields, "lat");
    assert lat.value == JObject(f1);
    var lon := DelStep(lat.value, "lon");
    assert lon.raised.None?;
    var fs := Remove(f1, "lon");
    assert lon.value == JObject(fs);
    assert "lat" !in Keys(fs) && "lon" !in Keys(fs) by {
      RemoveSpec(loc.fields, "lat");
      RemoveSpec(f1, "lon");
    }
    var adds := Lookup(fs, "additionalLocations").value;
    var s := StripAdditional(adds);
    var out := Assign(fs, "additionalLocations", s.value);
    assert StripLocation(loc).value == JObject(out);
    assert Keys(out) == Keys(fs);
    assert Lookup(out, "additionalLocations") == Some(s.value);
    if adds.JArray? {
      StripElemsClears(adds.elems, |adds.elems|);
    }
  }

  /** `sorted(errors, key=str)` puts last an error whose str() is the
      greatest: the one render3.py reports. */
  lemma ReportedErrorSortsLast(es: seq<SchemaError>)
    requires |es| > 0
    ensures var sorted := SortErrors(es);
      |sorted| == |es|
      && sorted[|sorted| - 1] in es
      && forall e :: e in es ==> Text.StrLe(e.text, sorted[|sorted| - 1].text)
  {
    var sorted := SortErrors(es);
    assert |sorted| == |es| by {
      assert |multiset(sorted)| == |multiset(es)|;
    }
    var last := sorted[|sorted| - 1];
    assert last in multiset(sorted);
    forall e | e in es
      ensures Text.StrLe(e.text, last.text)
    {
      assert e in multiset(sorted);
      var i :| 0 <= i < |sorted| && sorted[i] == e;
      if i == |sorted| - 1 {
        Text.StrLeReflexive(e.text);
      } else {
        assert ErrorText(sorted[i]) == e.text && ErrorText(last) == last.text;
      }
    }
  }

  /** The legacy block changes the record under "location" only, and keeps
      its keys. */
  lemma StripLegacyKeeps(fields: seq<Field>)
    ensures forall k :: k != "location" ==> Lookup(StripLegacy(fields).value, k) == Lookup(fields, k)
    ensures Keys(StripLegacy(fields).value) == Keys(fields)
  {
    match Lookup(fields, "location")
    case None =>
    case Some(loc) =>
      assert StripLegacy(fields).value == Assign(fields, "location", StripLocation(loc).value);
  }

  /** The record ValidateKnown leaves. */
  lemma ValidateKnownRecord(specs: seq<(string, Json)>, api: string, fields: seq<Field>, validator: Validator)
    requires api in Keys(specs)
    ensures var kept := StripBookkeeping(fields);
      ValidateKnown(specs, api, fields, validator).record
      == if Text.StartsWith(api, "0.5.") then StripLegacy(kept).value else kept
  {
  }

  /** validate_community changes a record only by deleting the bookkeeping
      keys and changing the location mapping. */
  lemma ValidateTouchesOnly(specs: seq<(string, Json)>, fields: seq<Field>, validator: Validator)
    ensures var o := Validate(specs, fields, validator);
      forall k :: k !in ["mtime", "etime", "error", "location"] ==> Lookup(o.record, k) == Lookup(fields, k)
  {
    var api := Lookup(fields, "api");
    var record := Validate(specs, fields, validator).record;
    if api.Some? && Known(specs, api.value) {
      var kept := StripBookkeeping(fields);
      assert record == ValidateKnown(specs, api.value.s, fields, validator).record;
      ValidateKnownRecord(specs, api.value.s, fields, validator);
      assert forall k :: k !in ["mtime", "etime", "error"] ==> Lookup(kept, k) == Lookup(fields, k) by {
        BookkeepingKeeps(fields);
      }
      assert forall k :: k != "location" ==> Lookup(StripLegacy(kept).value, k) == Lookup(kept, k) by {
        StripLegacyKeeps(kept);
      }
    } else {
      assert record == fields;
    }
  }

  /** An unknown API version leaves the record as it was, and only API 0.5.x
      touches the location. */
  lemma ValidateKeepsLocation(specs: seq<(string, Json)>, fields: seq<Field>, validator: Validator)
    ensures var o := Validate(specs, fields, validator);
      var api := Lookup(fields, "api");
      !(api.Some? && Known(specs, api.value)) ==> o.record == fields
    ensures var o := Validate(specs, fields, validator);
      var api := Lookup(fields, "api");
      api.Some? && Known(specs, api.value) && !Text.StartsWith(api.value.s, "0.5.") ==>
        Lookup(o.record, "location") == Lookup(fields, "location")
  {
    var api := Lookup(fields, "api");
    if api.Some? && Known(specs, api.value) {
      if !Text.StartsWith(api.value.s, "0.5.") {
        assert Validate(specs, fields, validator).record == StripBookkeeping(fields) by {
          ValidateKnownRecord(specs, api.value.s, fields, validator);
        }
        BookkeepingKeepsLocation(fields);
      }
    } else {
      assert Validate(specs, fields, validator).record == fields;
    }
  }

  /** What the bookkeeping deletions keep. */
  lemma BookkeepingKeeps(fields: seq<Field>)
    ensures forall k :: k !in ["mtime", "etime", "error"] ==> Lookup(StripBookkeeping(fields), k) == Lookup(fields, k)
    ensures forall k :: k in ["mtime", "etime", "error"] ==> k !in Keys(StripBookkeeping(fields))
  {
    var a := Remove(fields, "mtime");
    var b := Remove(a, "etime");
    RemoveSpec(fields, "mtime");
    RemoveSpec(a, "etime");
    RemoveSpec(b, "error");
  }

  /** The bookkeeping deletions keep the location. */
  lemma BookkeepingKeepsLocation(fields: seq<Field>)
    ensures Lookup(StripBookkeeping(fields), "location") == Lookup(fields, "location")
  {
    var a := Remove(fields, "mtime");
    var b := Remove(a, "etime");
    RemoveSpec(fields, "mtime");
    RemoveSpec(a, "etime");
    RemoveSpec(b, "error");
  }

  /** For a known API version, the record handed on has no bookkeeping keys. */
  lemma BookkeepingStripped(specs: seq<(string, Json)>, fields: seq<Field>, validator: Validator)
    requires var api := Lookup(fields, "api"); api.Some? && Known(specs, api.value)
    ensures var o := Validate(specs, fields, validator);
      "mtime" !in Keys(o.record) && "etime" !in Keys(o.record) && "error" !in Keys(o.record)
  {
    var api := Lookup(fields, "api").value;
    var kept := StripBookkeeping(fields);
    assert Validate(specs, fields, validator).record == ValidateKnown(specs, api.s, fields, validator).record;
    ValidateKnownRecord(specs, api.s, fields, validator);
    BookkeepingKeeps(fields);
    StripLegacyKeeps(kept);
  }

  /** In the legacy block only KeyError is caught: a record with no location
      is validated as it is. */
  lemma MissingLocationTolerated(specs: seq<(string, Json)>, fields: seq<Field>, validator: Validator)
    requires var api := Lookup(fields, "api");
      api.Some? && Known(specs, api.value) && Text.StartsWith(api.value.s, "0.5.")
    requires "location" !in Keys(fields)
    ensures var api := Lookup(fields, "api").value.s;
      Validate(specs, fields, validator)
      == Outcome(Classify(api, SortErrors(validator(Lookup(specs, api).value, JObject(StripBookkeeping(fields))))),
                 StripBookkeeping(fields))
  {
    var api := Lookup(fields, "api").value.s;
    var kept := StripBookkeeping(fields);
    assert Validate(specs, fields, validator) == ValidateKnown(specs, api, fields, validator);
    assert Lookup(kept, "location").None? by {
      BookkeepingKeepsLocation(fields);
    }
    assert StripLegacy(kept) == Step(kept, Some(KeyError(Name("location"))));
  }

  /** ... but a location that is not a mapping raises TypeError out of
      validate_community. */
  lemma NonMappingLocationRaises(specs: seq<(string, Json)>, fields: seq<Field>, validator: Validator)
    requires var api := Lookup(fields, "api");
      api.Some? && Known(specs, api.value) && Text.StartsWith(api.value.s, "0.5.")
    requires var loc := Lookup(fields, "location"); loc.Some? && !loc.value.JObject?
    ensures Validate(specs, fields, validator).result == Err(TypeError)
  {
    var api := Lookup(fields, "api").value.s;
    var kept := StripBookkeeping(fields);
    assert Validate(specs, fields, validator) == ValidateKnown(specs, api, fields, validator);
    var loc := Lookup(fields, "location");
    assert Lookup(kept, "location") == loc by {
      BookkeepingKeepsLocation(fields);
    }
    assert DelStep(loc.value, "lat") == Step(loc.value, Some(TypeError));
    assert StripLegacy(kept).raised == Some(TypeError);
  }

  /** Lines 90-93: a version that is not listed leaves the record as it was
      and returns `{}`, but only after the message has read `url`; the
      membership test itself raises TypeError for an unhashable `api`. */
  lemma UnknownApi(specs: seq<(string, Json)>, fields: seq<Field>, validator: Validator)
    requires Lookup(fields, "api").Some? && !Known(specs, Lookup(fields, "api").value)
    ensures var o := Validate(specs, fields, validator);
      && o.record == fields
      && (Hashable(Lookup(fields, "api").value) && "url" in Keys(fields) ==> o.result == Ok(JObject([])))
      && (Hashable(Lookup(fields, "api").value) && "url" !in Keys(fields) ==> o.result == Err(KeyError(Name("url"))))
      && (!Hashable(Lookup(fields, "api").value) ==> o.result == Err(TypeError))
  {
  }
}
