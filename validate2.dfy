/** `validate_community` of render.py (lines 70-110), the Python 2 variant:
    the same verdict as render3.py's, reached without changing the record. It
    validates against the spec's "schema" entry, lists every error, and
    compares versions with NormalizedVersion. Its KeyError handler refers to
    the undefined name `api_content`, so a missing key ends in NameError. */
module Validate2 {
  import opened Values
  import opened Options
  import Text
  import Version
  import opened Schema
  import opened Record
  import V3 = Validate3

  /** The mapping validate_community returns, in the order it is filled. */
  function Verdict(statusText: string, status: string, result: string): Json
  {
    JObject([("status_text", JStr(statusText)), ("status", JStr(status)), ("result", JStr(result))])
  }

  /** Lines 80-106: the verdict on the sorted errors and the declared API
      version. */
  function Classify(api: string, errors: seq<SchemaError>): (r: Result<Json>)
    ensures r.Ok? ==> r.value.JObject? && Keys(r.value.fields) == ["status_text", "status", "result"]
    ensures r.Err? <==> |errors| == 0 && Version.NormalizedOlderThanThreshold(api).Err?
    ensures r.Err? ==> r.error == VersionError
    ensures r.Ok? ==> (Lookup(r.value.fields, "status") == Some(JStr("invalid")) <==> |errors| > 0)
    ensures |errors| > 0 ==>
      r == Ok(Verdict("Invalid", "invalid",
                      "<ul>" + Text.Join(seq(|errors|, i requires 0 <= i < |errors| => ErrorItem(errors[i])), "") + "</ul>"))
    ensures r.Ok? && |errors| == 0 ==>
      r.value == if Version.Compare(Version.ParseRelease(api).value, Version.Threshold) < 0
                 then Verdict("Warning", "warning", V3.TooOld)
                 else Verdict("Valid", "valid", "")
  {
    if |errors| > 0 then
      ErrorItemsJoin(errors, |errors|);
      Ok(Verdict("Invalid", "invalid", ErrorList(errors)))
    else
      match Version.NormalizedOlderThanThreshold(api)
      case Err(e) => Err(e)
      case Ok(tooOld) =>
        Ok(if tooOld then Verdict("Warning", "warning", V3.TooOld) else Verdict("Valid", "valid", ""))
  }

  /** validate_community of render.py on a record. */
  function Validate(specs: seq<(string, Json)>, fields: seq<Field>, validator: Validator): Result<Json>
  {
    match Lookup(fields, "api")
    // the KeyError is caught, and the handler's `api_content` is undefined
    case None => Err(NameError)
    case Some(api) =>
      if !Hashable(api) then Err(TypeError)
      else if !V3.Known(specs, api) then Err(NameError)
      else
        match Subscript(Lookup(specs, api.s).value, "schema")
        case Err(e) => if e.KeyError? then Err(NameError) else Err(e)
        case Ok(schema) => Classify(api.s, SortErrors(validator(schema, JObject(fields))))
  }

  /** validate_community as render.py runs it. It reads the record and has
      no `modifies` clause: the record is the same afterwards. */
  method ValidateCommunity(specs: seq<(string, Json)>, instance: Dict, validator: Validator) returns (r: Result<Json>)
    ensures r == Validate(specs, instance.items, validator)
  {
    var api := instance.Get("api");
    if api.Err? {
      return Err(NameError);
    }
    if !Hashable(api.value) {
      return Err(TypeError);
    }
    if !V3.Known(specs, api.value) {
      return Err(NameError);
    }
    var schema := Subscript(Lookup(specs, api.value.s).value, "schema");
    if schema.Err? {
      return if schema.error.KeyError? then Err(NameError) else Err(schema.error);
    }
    var errors := SortErrors(validator(schema.value, JObject(instance.items)));
    r := ClassifyErrors(api.value.s, errors);
  }

  /** Lines 80-106 with their loop: `has_error` and `text_result`. */
  method ClassifyErrors(api: string, errors: seq<SchemaError>) returns (r: Result<Json>)
    ensures r == Classify(api, errors)
  {
    var textResult := "";
    var hasError := false;
    for i := 0 to |errors|
      invariant hasError <==> i > 0
      invariant textResult == if i == 0 then "" else "<ul>" + ErrorItems(errors, i)
    {
      if !hasError {
        textResult := "<ul>";
      }
      hasError := true;
      var item := "<li>Error in " + JoinPath(errors[i].path) + ": " + errors[i].message + "</li>";
      assert item == ErrorItem(errors[i]);
      Text.AppendAssoc("<ul>", ErrorItems(errors, i), item);
      textResult := textResult + item;
    }
    if hasError {
      textResult := textResult + "</ul>";
      return Ok(Verdict("Invalid", "invalid", textResult));
    }
    var tooOld := Version.NormalizedOlderThanThreshold(api);
    if tooOld.Err? {
      r := Err(tooOld.error);
    } else if tooOld.value {
      r := Ok(Verdict("Warning", "warning", V3.TooOld));
    } else {
      r := Ok(Verdict("Valid", "valid", textResult));
    }
  }

  /** The `<li>`s are the errors' items, in order, with nothing between. */
  lemma {:induction false} ErrorItemsJoin(es: seq<SchemaError>, n: nat)
    requires 0 < n <= |es|
    ensures ErrorItems(es, n) == Text.Join(seq(n, i requires 0 <= i < n => ErrorItem(es[i])), "")
  {
    var items := seq(n, i requires 0 <= i < n => ErrorItem(es[i]));
    if n > 1 {
      ErrorItemsJoin(es, n - 1);
      var init := seq(n - 1, i requires 0 <= i < n - 1 => ErrorItem(es[i]));
      assert items == init + [ErrorItem(es[n - 1])];
      Text.JoinAppend(init, [ErrorItem(es[n - 1])], "");
    }
  }

  /** render.py lists every error; render3.py keeps only the last and drops
      the closing `>`. With one error the two differ by that `>` alone; with
      more, render.py's list is strictly longer. */
  lemma {:induction false} LastErrorOnly(errors: seq<SchemaError>)
    requires |errors| > 0
    ensures |errors| == 1 ==> ErrorList(errors) == V3.LastErrorList(errors) + ">"
    ensures |errors| >= 2 ==> |ErrorList(errors)| > |V3.LastErrorList(errors)| + 1
  {
    var n := |errors|;
    var last := ErrorItem(errors[n - 1]);
    assert ErrorItems(errors, n) == ErrorItems(errors, n - 1) + last;
    if n >= 2 {
      assert ErrorItems(errors, n - 1) == ErrorItems(errors, n - 2) + ErrorItem(errors[n - 2]);
      assert |ErrorItem(errors[n - 2])| > 0;
    }
  }

  /** A record with no "api" key: render3.py raises KeyError, render.py a
      NameError from its handler. */
  lemma MissingApi(specs: seq<(string, Json)>, fields: seq<Field>, validator: Validator)
    requires "api" !in Keys(fields)
    ensures Validate(specs, fields, validator) == Err(NameError)
    ensures V3.Validate(specs, fields, validator).result == Err(KeyError(Name("api")))
  {
  }

  /** Lines 76 and 109-110: an unlisted version, or a spec without a
      "schema" entry, is a KeyError, which the handler turns into NameError;
      an unhashable `api` raises TypeError past the handler. */
  lemma UnknownApi(specs: seq<(string, Json)>, fields: seq<Field>, validator: Validator)
    requires Lookup(fields, "api").Some?
    ensures var api := Lookup(fields, "api").value;
      !Hashable(api) ==> Validate(specs, fields, validator) == Err(TypeError)
    ensures var api := Lookup(fields, "api").value;
      Hashable(api) && !V3.Known(specs, api) ==> Validate(specs, fields, validator) == Err(NameError)
    ensures var api := Lookup(fields, "api").value;
      V3.Known(specs, api) && Subscript(Lookup(specs, api.s).value, "schema").Err? ==>
        Validate(specs, fields, validator)
        == if Lookup(specs, api.s).value.JObject? then Err(NameError) else Err(TypeError)
  {
  }
}
