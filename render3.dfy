/** `render_community` (lines 65-86) and `render_communities` (lines
    209-218) of render3.py: each community record is validated and then
    rendered into its page, each step on its own deep copy of the record, and
    the record itself only gains its "validation" entry. */
module Render3 {
  import opened Values
  import opened Options
  import opened Record
  import opened Pages
  import opened WalkTree
  import DL = DefinitionList
  import Text
  import Walk3
  import V3 = Validate3
  import Schema

  /** The foreign functions render_community calls. `parse` is
      dateutil.parser.parse on a string: the str() of the datetime it
      returns, or None where it raises ParserError. `isFloat` tells which
      strings float() accepts. `urlize` is jinja2's. */
  datatype Env = Env(urlize: Json -> string, parse: string -> Option<string>, isFloat: string -> bool)

  /** The four keys the page takes from the record, in the order they are read. */
  const PageKeys: seq<string> := ["name", "url", "api", "validation"]

  /** Lines 68-74: `data['state']['lastchange']` replaced by its parsed
      datetime. ParserError and TypeError (a state that is not a mapping, a
      lastchange that is not a string) are ignored; a missing key is not. */
  function RewriteState(fields: seq<Field>, parse: string -> Option<string>): (r: Result<seq<Field>>)
    ensures r.Ok? ==> Keys(r.value) == Keys(fields)
    ensures r.Ok? ==> forall k :: k != "state" ==> Lookup(r.value, k) == Lookup(fields, k)
    ensures r.Err? <==> ("state" !in Keys(fields)
      || (Lookup(fields, "state").value.JObject? && "lastchange" !in Keys(Lookup(fields, "state").value.fields)))
    ensures r.Err? ==> r.error.KeyError?
    ensures r.Ok? ==>
      var st := Lookup(fields, "state").value;
      var lc := Subscript(st, "lastchange");
      if lc.Ok? && lc.value.JStr? && parse(lc.value.s).Some?
      then Lookup(r.value, "state") == Some(JObject(Assign(st.fields, "lastchange", JStr(parse(lc.value.s).value))))
      else r.value == fields
  {
    match Lookup(fields, "state")
    case None => Err(KeyError(Name("state")))
    case Some(st) =>
      match Subscript(st, "lastchange")
      case Err(e) => if e.KeyError? then Err(e) else Ok(fields)
      case Ok(lc) =>
        if lc.JStr? && parse(lc.s).Some? then
          Ok(Assign(fields, "state", JObject(Assign(st.fields, "lastchange", JStr(parse(lc.s).value)))))
        else Ok(fields)
  }

  /** `fields[k]` for each of `ks` in turn: their values, or the KeyError of
      the first that is missing. */
  function ValuesOf(fields: seq<Field>, ks: seq<string>): (r: Result<seq<Json>>)
    ensures r.Ok? ==> |r.value| == |ks| && forall i :: 0 <= i < |ks| ==> Lookup(fields, ks[i]) == Some(r.value[i])
    ensures r.Err? ==> exists i :: 0 <= i < |ks| && ks[i] !in Keys(fields) && r.error == KeyError(Name(ks[i]))
  {
    if ks == [] then Ok([])
    else
      match Lookup(fields, ks[0])
      case None => Err(KeyError(Name(ks[0])))
      case Some(v) =>
        match ValuesOf(fields, ks[1..])
        case Err(e) => Err(e)
        case Ok(vs) => Ok([v] + vs)
  }

  /** `del fields[k]` for each of `ks` in turn, on keys known to be there. */
  function RemoveAll(fields: seq<Field>, ks: seq<string>): seq<Field>
    decreases ks
  {
    if ks == [] then fields else RemoveAll(Remove(fields, ks[0]), ks[1..])
  }

  /** Lines 77-78: the four values, read in order, and the record once the
      four keys are deleted. */
  function Take(fields: seq<Field>): Outcome<seq<Json>>
  {
    match ValuesOf(fields, PageKeys)
    case Err(e) => Outcome(Err(e), fields)
    case Ok(vs) => Outcome(Ok(vs), RemoveAll(fields, PageKeys))
  }

  /** render_community on a record: the page, or the exception raised, and
      the record it leaves. */
  function Render(fields: seq<Field>, env: Env): Outcome<Page>
  {
    match RewriteState(fields, env.parse)
    case Err(e) => Outcome(Err(e), fields)
    case Ok(dated) =>
      match Coordinates(dated, env.isFloat)
      case Err(e) => Outcome(Err(e), dated)
      case Ok(latlon) =>
        var taken := Take(dated);
        match taken.result
        case Err(e) => Outcome(Err(e), taken.record)
        case Ok(vs) =>
          Outcome(Ok(Page(vs[0], vs[1], vs[2], latlon.0, latlon.1, vs[3],
                          Walk(taken.record, Walk3.Texts3(env.urlize)))),
                  taken.record)
  }

  /** render_community as render3.py runs it, on the record in place. */
  method RenderCommunity(data: Dict, env: Env) returns (r: Result<Page>)
    modifies data
    ensures Outcome(r, data.items) == Render(old(data.items), env)
  {
    var raised := RewriteStateKeys(data, env.parse);
    if raised.Some? {
      return Err(raised.value);
    }
    var latlon := Coordinates(data.items, env.isFloat);
    if latlon.Err? {
      return Err(latlon.error);
    }
    var taken := TakePageKeys(data);
    if taken.Err? {
      return Err(taken.error);
    }
    var content := Walk3.WalkLoop(data.items, env.urlize);
    var vs := taken.value;
    r := Ok(Page(vs[0], vs[1], vs[2], latlon.value.0, latlon.value.1, vs[3], content));
  }

  /** Lines 68-74 in place; returns the exception that escapes. */
  method RewriteStateKeys(data: Dict, parse: string -> Option<string>) returns (raised: Option<PyError>)
    modifies data
    ensures var r := RewriteState(old(data.items), parse);
      if r.Ok? then raised.None? && data.items == r.value
      else raised == Some(r.error) && data.items == old(data.items)
  {
    var st := data.Get("state");
    if st.Err? {
      return Some(st.error);
    }
    var lc := Subscript(st.value, "lastchange");
    if lc.Err? {
      return if lc.error.KeyError? then Some(lc.error) else None;
    }
    if lc.value.JStr? {
      var parsed := parse(lc.value.s);
      if parsed.Some? {
        data.SetItem("state", JObject(Assign(st.value.fields, "lastchange", JStr(parsed.value))));
      }
    }
    return None;
  }

  /** Lines 77-78: the four values are read in order, then all four keys
      are deleted. */
  method TakePageKeys(data: Dict) returns (r: Result<seq<Json>>)
    modifies data
    ensures Outcome(r, data.items) == Take(old(data.items))
  {
    ghost var fields := data.items;
    var community := data.Get("name");
    var url := data.Get("url");
    var api := data.Get("api");
    var validation := data.Get("validation");
    ReadFour(fields);
    if community.Err? {
      return Err(community.error);
    } else if url.Err? {
      return Err(url.error);
    } else if api.Err? {
      return Err(api.error);
    } else if validation.Err? {
      return Err(validation.error);
    }
    var _ := data.DelItem("name");
    var _ := data.DelItem("url");
    var _ := data.DelItem("api");
    var _ := data.DelItem("validation");
    DeleteFour(fields);
    r := Ok([community.value, url.value, api.value, validation.value]);
  }

  /** Reading the four page keys in order: the first one missing decides the
      KeyError. */
  lemma ReadFour(fields: seq<Field>)
    ensures ValuesOf(fields, PageKeys)
         == if "name" !in Keys(fields) then Err(KeyError(Name("name")))
            else if "url" !in Keys(fields) then Err(KeyError(Name("url")))
            else if "api" !in Keys(fields) then Err(KeyError(Name("api")))
            else if "validation" !in Keys(fields) then Err(KeyError(Name("validation")))
            else Ok([Lookup(fields, "name").value, Lookup(fields, "url").value,
                     Lookup(fields, "api").value, Lookup(fields, "validation").value])
  {
    ReadKeys4(fields, "name", "url", "api", "validation");
  }

  /** Reading four keys in order, whatever they are. */
  lemma ReadKeys4(fields: seq<Field>, a: string, b: string, c: string, d: string)
    ensures ValuesOf(fields, [a, b, c, d])
         == if a !in Keys(fields) then Err(KeyError(Name(a)))
            else if b !in Keys(fields) then Err(KeyError(Name(b)))
            else if c !in Keys(fields) then Err(KeyError(Name(c)))
            else if d !in Keys(fields) then Err(KeyError(Name(d)))
            else Ok([Lookup(fields, a).value, Lookup(fields, b).value,
                     Lookup(fields, c).value, Lookup(fields, d).value])
  {
    var x := Lookup(fields, a);
    ReadKeys3(fields, b, c, d);
    var three := ValuesOf(fields, [b, c, d]);
    assert [a, b, c, d] == [a] + [b, c, d];
    ValuesOfCons(fields, a, [b, c, d]);
    if x.Some? && three.Ok? {
      var t := three.value;
      assert [x.value] + t == [x.value, t[0], t[1], t[2]];
    }
  }

  lemma ReadKeys3(fields: seq<Field>, b: string, c: string, d: string)
    ensures ValuesOf(fields, [b, c, d])
         == if b !in Keys(fields) then Err(KeyError(Name(b)))
            else if c !in Keys(fields) then Err(KeyError(Name(c)))
            else if d !in Keys(fields) then Err(KeyError(Name(d)))
            else Ok([Lookup(fields, b).value, Lookup(fields, c).value, Lookup(fields, d).value])
  {
    var x := Lookup(fields, b);
    ReadKeys2(fields, c, d);
    var two := ValuesOf(fields, [c, d]);
    assert [b, c, d] == [b] + [c, d];
    ValuesOfCons(fields, b, [c, d]);
    if x.Some? && two.Ok? {
      var t := two.value;
      assert [x.value] + t == [x.value, t[0], t[1]];
    }
  }

  lemma ReadKeys2(fields: seq<Field>, c: string, d: string)
    ensures ValuesOf(fields, [c, d])
         == if c !in Keys(fields) then Err(KeyError(Name(c)))
            else if d !in Keys(fields) then Err(KeyError(Name(d)))
            else Ok([Lookup(fields, c).value, Lookup(fields, d).value])
  {
    var y := Lookup(fields, d);
    ValuesOfCons(fields, d, []);
    assert [d] == [d] + [];
    assert ValuesOf(fields, []) == Ok([]);
    assert y.Some? ==> [y.value] + [] == [y.value];
    ValuesOfCons(fields, c, [d]);
    assert [c, d] == [c] + [d];
    var x := Lookup(fields, c);
    assert x.Some? && y.Some? ==> [x.value] + [y.value] == [x.value, y.value];
  }

  /** ValuesOf reads its first key, then the rest. */
  lemma ValuesOfCons(fields: seq<Field>, k: string, ks: seq<string>)
    ensures ValuesOf(fields, [k] + ks)
         == match Lookup(fields, k)
            case None => Err(KeyError(Name(k)))
            case Some(v) => (match ValuesOf(fields, ks) case Err(e) => Err(e) case Ok(vs) => Ok([v] + vs))
  {
    assert ([k] + ks)[1..] == ks;
  }

  /** Deleting the four page keys one after the other. */
  lemma DeleteFour(fields: seq<Field>)
    ensures RemoveAll(fields, PageKeys) == Remove(Remove(Remove(Remove(fields, "name"), "url"), "api"), "validation")
  {
    var f1 := Remove(fields, "name");
    var f2 := Remove(f1, "url");
    var f3 := Remove(f2, "api");
    var f4 := Remove(f3, "validation");
    assert RemoveAll(f4, []) == f4;
    assert RemoveAll(f3, ["validation"]) == f4 by {
      assert ["validation"][1..] == [];
    }
    assert RemoveAll(f2, ["api", "validation"]) == f4 by {
      assert ["api", "validation"][1..] == ["validation"];
    }
    assert RemoveAll(f1, ["url", "api", "validation"]) == f4 by {
      assert ["url", "api", "validation"][1..] == ["api", "validation"];
    }
    assert PageKeys[1..] == ["url", "api", "validation"];
  }

  /** One pass of render_communities' loop on a record: validate_community
      on a deep copy, the verdict stored under "validation", then
      render_community on another deep copy. The result is the page, or the
      exception that ends the loop, and the record is what the pass leaves of
      the community's own mapping. */
  function Handle(specs: seq<(string, Json)>, fields: seq<Field>, validator: Schema.Validator, env: Env): Outcome<Page>
  {
    match V3.Validate(specs, fields, validator).result
    case Err(e) => Outcome(Err(e), fields)
    case Ok(v) =>
      var stored := Assign(fields, "validation", v);
      Outcome(Render(stored, env).result, stored)
  }

  /** Lines 213-217 for one community. */
  method HandleCommunity(specs: seq<(string, Json)>, data: Dict, validator: Schema.Validator, env: Env)
    returns (r: Result<Page>)
    modifies data
    ensures Outcome(r, data.items) == Handle(specs, old(data.items), validator, env)
  {
    var copy := data.Copy();
    var v := V3.ValidateCommunity(specs, copy, validator);
    if v.Err? {
      return Err(v.error);
    }
    data.SetItem("validation", v.value);
    var page := data.Copy();
    r := RenderCommunity(page, env);
  }

  /** Pass `i` of the loop, on community `before[i]`, did not raise: it left
      the community as `after[i]` and wrote page `pages[i]`. */
  predicate Passed(specs: seq<(string, Json)>, validator: Schema.Validator, env: Env,
                   before: seq<(string, seq<Field>)>, after: seq<(string, seq<Field>)>, pages: seq<Page>, i: int)
  {
    0 <= i < |before| && i < |after| && i < |pages| && after[i].0 == before[i].0
    && Handle(specs, before[i].1, validator, env) == Outcome(Ok(pages[i]), after[i].1)
  }

  /** Storing what pass `n` left of its community keeps the passes before it. */
  lemma Store(specs: seq<(string, Json)>, validator: Schema.Validator, env: Env,
              before: seq<(string, seq<Field>)>, after: seq<(string, seq<Field>)>, pages: seq<Page>,
              record: (string, seq<Field>))
    requires |pages| < |after|
    requires forall i {:trigger Passed(specs, validator, env, before, after, pages, i)} :: 0 <= i < |pages| ==>
      Passed(specs, validator, env, before, after, pages, i)
    ensures forall i {:trigger Passed(specs, validator, env, before, after[|pages| := record], pages, i)} ::
      0 <= i < |pages| ==> Passed(specs, validator, env, before, after[|pages| := record], pages, i)
  {
    var after' := after[|pages| := record];
    forall i | 0 <= i < |pages|
      ensures Passed(specs, validator, env, before, after', pages, i)
    {
      assert Passed(specs, validator, env, before, after, pages, i);
    }
  }

  /** A pass that did not raise extends the passes before it. */
  lemma Extend(specs: seq<(string, Json)>, validator: Schema.Validator, env: Env,
               before: seq<(string, seq<Field>)>, after: seq<(string, seq<Field>)>, pages: seq<Page>, page: Page)
    requires |pages| < |before| && |pages| < |after|
    requires forall i {:trigger Passed(specs, validator, env, before, after, pages, i)} :: 0 <= i < |pages| ==>
      Passed(specs, validator, env, before, after, pages, i)
    requires after[|pages|].0 == before[|pages|].0
    requires Handle(specs, before[|pages|].1, validator, env) == Outcome(Ok(page), after[|pages|].1)
    ensures forall i {:trigger Passed(specs, validator, env, before, after, pages + [page], i)} ::
      0 <= i <= |pages| ==> Passed(specs, validator, env, before, after, pages + [page], i)
  {
    forall i | 0 <= i <= |pages|
      ensures Passed(specs, validator, env, before, after, pages + [page], i)
    {
      if i < |pages| {
        assert Passed(specs, validator, env, before, after, pages, i);
      }
    }
  }

  /** Pass `k` of the loop, on community `before[k]`, raised `e` and left the
      community as `after[k]`. */
  predicate Stopped(specs: seq<(string, Json)>, validator: Schema.Validator, env: Env,
                    before: seq<(string, seq<Field>)>, after: seq<(string, seq<Field>)>, k: int, e: PyError)
  {
    0 <= k < |before| && k < |after| && after[k].0 == before[k].0
    && Handle(specs, before[k].1, validator, env) == Outcome(Err(e), after[k].1)
  }

  /** render_communities on the communities in iteration order, as (name,
      mapping) pairs. `communities'` is what the loop leaves of them;
      `rendered` and `pages` are what it adds to the `rendered` dict (which
      main passes in empty) and writes to the page files, in order. An
      exception from either step leaves the loop and the function, and is
      returned in `raised`. */
  method RenderCommunities(specs: seq<(string, Json)>, communities: seq<(string, seq<Field>)>,
                           validator: Schema.Validator, env: Env)
    returns (communities': seq<(string, seq<Field>)>, rendered: seq<(string, seq<Field>)>, pages: seq<Page>,
             raised: Option<PyError>)
    ensures |communities'| == |communities|
    ensures |rendered| == |pages| <= |communities|
    ensures raised.None? <==> |rendered| == |communities|
    ensures rendered == communities'[..|rendered|]
    ensures forall i {:trigger Passed(specs, validator, env, communities, communities', pages, i)} ::
      0 <= i < |rendered| ==> Passed(specs, validator, env, communities, communities', pages, i)
    ensures raised.Some? ==> Stopped(specs, validator, env, communities, communities', |rendered|, raised.value)
    ensures forall i :: |rendered| < i < |communities| ==> communities'[i] == communities[i]
  {
    communities', rendered, pages := communities, [], [];
    for n := 0 to |communities|
      invariant |communities'| == |communities|
      invariant |rendered| == |pages| == n
      invariant rendered == communities'[..n]
      invariant forall i {:trigger Passed(specs, validator, env, communities, communities', pages, i)} ::
        0 <= i < n ==> Passed(specs, validator, env, communities, communities', pages, i)
      invariant forall i :: n <= i < |communities| ==> communities'[i] == communities[i]
    {
      var before := communities';
      var r;
      communities', r := Advance(specs, communities, communities', pages, validator, env);
      assert forall i :: n < i < |communities| ==> communities'[i] == before[i];
      if r.Err? {
        return communities', rendered, pages, Some(r.error);
      }
      assert communities'[..n + 1] == rendered + [communities'[n]];
      rendered := rendered + [communities'[n]];
      pages := pages + [r.value];
    }
    raised := None;
  }

  /** One pass of the loop: community `|pages|` is validated and rendered, and
      what the pass leaves of it is stored in its place. */
  method Advance(specs: seq<(string, Json)>, communities: seq<(string, seq<Field>)>,
                 current: seq<(string, seq<Field>)>, pages: seq<Page>, validator: Schema.Validator, env: Env)
    returns (current': seq<(string, seq<Field>)>, r: Result<Page>)
    requires |pages| < |communities| == |current|
    requires forall i {:trigger Passed(specs, validator, env, communities, current, pages, i)} ::
      0 <= i < |pages| ==> Passed(specs, validator, env, communities, current, pages, i)
    ensures |current'| == |current| && current' == current[|pages| := current'[|pages|]]
    ensures r.Ok? ==> forall i {:trigger Passed(specs, validator, env, communities, current', pages + [r.value], i)} ::
      0 <= i <= |pages| ==> Passed(specs, validator, env, communities, current', pages + [r.value], i)
    ensures r.Err? ==> forall i {:trigger Passed(specs, validator, env, communities, current', pages, i)} ::
      0 <= i < |pages| ==> Passed(specs, validator, env, communities, current', pages, i)
    ensures r.Err? ==> Stopped(specs, validator, env, communities, current', |pages|, r.error)
  {
    var n := |pages|;
    var (name, record) := communities[n];
    var data := new Dict(record);
    r := HandleCommunity(specs, data, validator, env);
    Store(specs, validator, env, communities, current, pages, (name, data.items));
    current' := current[n := (name, data.items)];
    if r.Ok? {
      Extend(specs, validator, env, communities, current', pages, r.value);
    }
  }

  /** Deleting each of `ks` removes exactly those keys. */
  lemma {:induction false} RemoveAllSpec(fields: seq<Field>, ks: seq<string>)
    ensures forall k :: k in ks ==> k !in Keys(RemoveAll(fields, ks))
    ensures forall k :: k !in ks ==> Lookup(RemoveAll(fields, ks), k) == Lookup(fields, k)
    decreases ks
  {
    if ks != [] {
      var rest := Remove(fields, ks[0]);
      RemoveSpec(fields, ks[0]);
      RemoveAllSpec(rest, ks[1..]);
      assert forall k :: k in ks ==> k == ks[0] || k in ks[1..];
    }
  }

  /** Reading keys in order fails exactly when one is missing, and then with
      the KeyError of the first one missing. */
  lemma {:induction false} ValuesOfFirstMissing(fields: seq<Field>, ks: seq<string>)
    ensures ValuesOf(fields, ks).Err? <==> FirstMissing(fields, ks).Some?
    ensures ValuesOf(fields, ks).Err? ==> ValuesOf(fields, ks).error == KeyError(Name(FirstMissing(fields, ks).value))
  {
    if ks != [] {
      ValuesOfFirstMissing(fields, ks[1..]);
    }
  }

  /** The page render_community makes: the four values are the record's, the
      record keeps every other key with its value (the state's lastchange
      aside), and the content is the definition list of what is left. */
  lemma RenderedPage(fields: seq<Field>, env: Env)
    ensures var o := Render(fields, env);
      o.result.Ok? ==>
        && Lookup(fields, "name") == Some(o.result.value.community)
        && Lookup(fields, "url") == Some(o.result.value.url)
        && Lookup(fields, "api") == Some(o.result.value.api)
        && Lookup(fields, "validation") == Some(o.result.value.validation)
        && (forall k :: k in PageKeys ==> k !in Keys(o.record))
        && (forall k :: k !in PageKeys && k != "state" ==> Lookup(o.record, k) == Lookup(fields, k))
        && o.result.value.content == DL.Render(Tree(o.record, Walk3.Texts3(env.urlize)))
  {
    var o := Render(fields, env);
    if o.result.Ok? {
      var dated := RewriteState(fields, env.parse).value;
      var vs := ValuesOf(dated, PageKeys).value;
      var rest := RemoveAll(dated, PageKeys);
      assert o == Outcome(Ok(Page(vs[0], vs[1], vs[2], o.result.value.lat, o.result.value.lon, vs[3],
                                  Walk(rest, Walk3.Texts3(env.urlize)))), rest);
      TakenValues(fields, dated, vs);
      RemoveAllSpec(dated, PageKeys);
      WalkRenders(rest, Walk3.Texts3(env.urlize));
    }
  }

  /** The values read from the dated record are the record's own. */
  lemma TakenValues(fields: seq<Field>, dated: seq<Field>, vs: seq<Json>)
    requires forall k :: k != "state" ==> Lookup(dated, k) == Lookup(fields, k)
    requires ValuesOf(dated, PageKeys) == Ok(vs)
    ensures |vs| == 4
    ensures Lookup(fields, "name") == Some(vs[0]) && Lookup(fields, "url") == Some(vs[1])
    ensures Lookup(fields, "api") == Some(vs[2]) && Lookup(fields, "validation") == Some(vs[3])
  {
    assert PageKeys[0] == "name" && PageKeys[1] == "url" && PageKeys[2] == "api" && PageKeys[3] == "validation";
    assert Lookup(dated, PageKeys[0]) == Some(vs[0]) && Lookup(dated, PageKeys[1]) == Some(vs[1]);
    assert Lookup(dated, PageKeys[2]) == Some(vs[2]) && Lookup(dated, PageKeys[3]) == Some(vs[3]);
  }

  /** The four values are read before anything is deleted: when one is
      missing, render_community raises the KeyError of the first one missing
      and leaves all four keys in the record. */
  lemma MissingPageKey(fields: seq<Field>, env: Env)
    requires RewriteState(fields, env.parse).Ok?
    requires Coordinates(RewriteState(fields, env.parse).value, env.isFloat).Ok?
    requires FirstMissing(fields, PageKeys).Some?
    ensures Render(fields, env)
         == Outcome(Err(KeyError(Name(FirstMissing(fields, PageKeys).value))), RewriteState(fields, env.parse).value)
  {
    var dated := RewriteState(fields, env.parse).value;
    SameKeysFirstMissing(dated, fields, PageKeys);
    ValuesOfFirstMissing(dated, PageKeys);
  }

  /** FirstMissing depends on the keys only. */
  lemma {:induction false} SameKeysFirstMissing(fields: seq<Field>, fields': seq<Field>, ks: seq<string>)
    requires Keys(fields) == Keys(fields')
    ensures FirstMissing(fields, ks) == FirstMissing(fields', ks)
  {
    if ks != [] {
      SameKeysFirstMissing(fields, fields', ks[1..]);
    }
  }

  /** What one pass leaves of the community's own mapping: validate_community
      and render_community each work on a deep copy, so the mapping only
      gains the verdict under "validation", and keeps every other key,
      whatever either step raises. */
  lemma HandleKeepsCommunity(specs: seq<(string, Json)>, fields: seq<Field>, validator: Schema.Validator, env: Env)
    ensures var o := Handle(specs, fields, validator, env);
      forall k :: k != "validation" ==> Lookup(o.record, k) == Lookup(fields, k)
    ensures var o := Handle(specs, fields, validator, env);
      var v := V3.Validate(specs, fields, validator).result;
      (v.Ok? ==> Lookup(o.record, "validation") == Some(v.value)) && (v.Err? ==> o == Outcome(Err(v.error), fields))
  {
  }

  /** The page of a pass that did not raise shows the verdict, and walks the
      community's mapping as it was before validate_community stripped its
      copy: the bookkeeping keys and the coordinates are still there. */
  lemma HandlePage(specs: seq<(string, Json)>, fields: seq<Field>, validator: Schema.Validator, env: Env)
    ensures var o := Handle(specs, fields, validator, env);
      var v := V3.Validate(specs, fields, validator).result;
      o.result.Ok? ==>
        && v.Ok? && o.result.value.validation == v.value
        && Lookup(fields, "name") == Some(o.result.value.community)
        && Lookup(fields, "url") == Some(o.result.value.url)
        && Lookup(fields, "api") == Some(o.result.value.api)
    ensures var o := Handle(specs, fields, validator, env);
      var shown := Render(o.record, env).record;
      o.result.Ok? ==>
        && o.result.value.content == DL.Render(Tree(shown, Walk3.Texts3(env.urlize)))
        && forall k :: k !in PageKeys && k != "state" ==> Lookup(shown, k) == Lookup(fields, k)
  {
    var o := Handle(specs, fields, validator, env);
    if o.result.Ok? {
      RenderedPage(o.record, env);
      HandleKeepsCommunity(specs, fields, validator, env);
    }
  }

  /** Lines 112-113 take "lat" out of a location mapping that has it, whatever
      raises afterwards. */
  lemma StripLocationDropsLatitude(loc: Json)
    requires loc.JObject? && "lat" in Keys(loc.fields)
    ensures V3.StripLocation(loc).value.JObject? && "lat" !in Keys(V3.StripLocation(loc).value.fields)
  {
    var lat := V3.DelStep(loc, "lat");
    RemoveSpec(loc.fields, "lat");
    assert lat.value == JObject(Remove(loc.fields, "lat"));
    var lon := V3.DelStep(lat.value, "lon");
    RemoveSpec(lat.value.fields, "lon");
  }

  /** Why validate_community gets a deep copy: were the record it strips
      the one rendered, a 0.5.x record whose location has coordinates would
      make render_community raise KeyError('lat'). The deep copy keeps the
      location. */
  lemma SharedRecordLosesLatitude(specs: seq<(string, Json)>, fields: seq<Field>, validator: Schema.Validator, env: Env)
    requires var api := Lookup(fields, "api");
      api.Some? && V3.Known(specs, api.value) && Text.StartsWith(api.value.s, "0.5.")
    requires var loc := Lookup(fields, "location"); loc.Some? && loc.value.JObject? && "lat" in Keys(loc.value.fields)
    requires V3.Validate(specs, fields, validator).result.Ok?
    requires RewriteState(fields, env.parse).Ok?
    ensures var o := V3.Validate(specs, fields, validator);
      Render(Assign(o.record, "validation", o.result.value), env).result == Err(KeyError(Name("lat")))
    ensures Lookup(Handle(specs, fields, validator, env).record, "location") == Lookup(fields, "location")
  {
    var o := V3.Validate(specs, fields, validator);
    StrippedLocation(specs, fields, validator);
    var stored := Assign(o.record, "validation", o.result.value);
    ValidateKeepsState(specs, fields, validator);
    assert Lookup(stored, "state") == Lookup(o.record, "state");
    RenderWithoutLatitude(stored, env);
    HandleKeepsCommunity(specs, fields, validator, env);
  }

  /** The location validate_community leaves in a 0.5.x record has no "lat". */
  lemma StrippedLocation(specs: seq<(string, Json)>, fields: seq<Field>, validator: Schema.Validator)
    requires var api := Lookup(fields, "api");
      api.Some? && V3.Known(specs, api.value) && Text.StartsWith(api.value.s, "0.5.")
    requires var loc := Lookup(fields, "location"); loc.Some? && loc.value.JObject? && "lat" in Keys(loc.value.fields)
    ensures var loc := Lookup(V3.Validate(specs, fields, validator).record, "location");
      loc.Some? && loc.value.JObject? && "lat" !in Keys(loc.value.fields)
  {
    var o := V3.Validate(specs, fields, validator);
    var api := Lookup(fields, "api").value.s;
    var loc := Lookup(fields, "location").value;
    var kept := V3.StripBookkeeping(fields);
    assert o == V3.ValidateKnown(specs, api, fields, validator);
    V3.ValidateKnownRecord(specs, api, fields, validator);
    assert Lookup(kept, "location") == Some(loc) by {
      V3.BookkeepingKeepsLocation(fields);
    }
    assert o.record == Assign(kept, "location", V3.StripLocation(loc).value);
    StripLocationDropsLatitude(loc);
  }

  /** validate_community leaves the state mapping alone. */
  lemma ValidateKeepsState(specs: seq<(string, Json)>, fields: seq<Field>, validator: Schema.Validator)
    ensures Lookup(V3.Validate(specs, fields, validator).record, "state") == Lookup(fields, "state")
  {
    V3.ValidateTouchesOnly(specs, fields, validator);
    var bookkeeping: seq<string> := ["mtime", "etime", "error", "location"];
    assert "state" != bookkeeping[0] && "state" != bookkeeping[1] && "state" != bookkeeping[2] && "state" != bookkeeping[3];
  }

  /** render_community on a record whose location mapping has no "lat". */
  lemma RenderWithoutLatitude(fields: seq<Field>, env: Env)
    requires RewriteState(fields, env.parse).Ok?
    requires var loc := Lookup(fields, "location"); loc.Some? && loc.value.JObject? && "lat" !in Keys(loc.value.fields)
    ensures Render(fields, env).result == Err(KeyError(Name("lat")))
  {
    var dated := RewriteState(fields, env.parse).value;
    assert Lookup(dated, "location") == Lookup(fields, "location");
  }
}
