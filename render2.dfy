/** `render_community` (lines 33-68) and the per-community loop of the main
    block (lines 173-183) of render.py, the Python 2 variant. The record is
    validated as it is, its "validation" entry is set, and it is rendered
    from a shallow copy: the copy's own keys come and go without touching the
    record, but the "state" mapping is the same object in both, so the
    rewritten lastchange shows in the record too. */
module Render2 {
  import opened Values
  import opened Options
  import opened Record
  import opened Pages
  import opened WalkTree
  import DL = DefinitionList
  import Text
  import Walk2
  import V2 = Validate2
  import Schema

  /** The foreign functions render_community calls. `stamp` is
      `datetime.fromtimestamp(float(v)).ctime()` of a lastchange value `v`, or
      None where any of the three raises. `isFloat` tells which strings
      float() accepts. `urlize` is jinja2's. */
  datatype Env = Env(urlize: Json -> string, stamp: Json -> Option<string>, isFloat: string -> bool)

  /** Lines 48-53 on the state value: lastchange replaced by its ctime()
      text; every failure on the way is swallowed by the bare `except`. */
  function Stamped(st: Json, stamp: Json -> Option<string>): (r: Json)
    ensures r.JObject? <==> st.JObject?
    ensures r.JObject? ==> Keys(r.fields) == Keys(st.fields)
    ensures r.JObject? ==> forall k :: k != "lastchange" ==> Lookup(r.fields, k) == Lookup(st.fields, k)
    ensures r != st ==> exists lc :: Subscript(st, "lastchange") == Ok(lc) && stamp(lc).Some?
                                  && Lookup(r.fields, "lastchange") == Some(JStr(stamp(lc).value))
    ensures var lc := Subscript(st, "lastchange");
      if lc.Ok? && stamp(lc.value).Some?
      then r.JObject? && Lookup(r.fields, "lastchange") == Some(JStr(stamp(lc.value).value))
      else r == st
  {
    match Subscript(st, "lastchange")
    case Err(_) => st
    case Ok(lc) =>
      match stamp(lc)
      case None => st
      case Some(t) => JObject(Assign(st.fields, "lastchange", JStr(t)))
  }

  /** Lines 48-53 on a record: the state value replaced by its stamped form. */
  function Restamp(fields: seq<Field>, stamp: Json -> Option<string>): (r: seq<Field>)
    ensures Keys(r) == Keys(fields)
    ensures forall k :: k != "state" ==> Lookup(r, k) == Lookup(fields, k)
    ensures Lookup(fields, "state").Some? ==> Lookup(r, "state") == Some(Stamped(Lookup(fields, "state").value, stamp))
  {
    match Lookup(fields, "state")
    case None => fields
    case Some(st) => Assign(fields, "state", Stamped(st, stamp))
  }

  /** render_community on a record: the page, or the exception raised, and
      the record (the shallow copy) as it is left. */
  function Render(fields: seq<Field>, env: Env): Outcome<Page>
  {
    // lines 35-46: each of name and url is taken out when it is there
    var community := Lookup(fields, "name");
    var named := Remove(fields, "name");
    var url := Lookup(named, "url");
    var dated := Dated(fields, env.stamp);
    match Coordinates(dated, env.isFloat)
    case Err(e) => Outcome(Err(e), dated)
    case Ok(latlon) =>
      match Lookup(dated, "validation")
      case None => Outcome(Err(KeyError(Name("validation"))), dated)
      case Some(validation) => Finish(Remove(dated, "validation"), community, url, latlon, validation, env)
  }

  /** Lines 60-66, once validation has been taken out: api is read and kept,
      and the page needs the community name and url read at the start. */
  function Finish(rest: seq<Field>, community: Option<Json>, url: Option<Json>, latlon: (Json, Json), validation: Json,
                  env: Env): (o: Outcome<Page>)
    ensures o.record == rest
    ensures o.result.Ok? <==> "api" in Keys(rest) && community.Some? && url.Some?
    ensures o.result.Err? && "api" !in Keys(rest) ==> o.result.error == KeyError(Name("api"))
    ensures o.result.Err? && "api" in Keys(rest) ==> o.result.error == NameError
    ensures o.result.Ok? ==> && o.result.value.community == community.value && o.result.value.url == url.value
                             && Lookup(rest, "api") == Some(o.result.value.api)
                             && o.result.value.validation == validation
                             && o.result.value.content == Walk(rest, Walk2.Texts2(env.urlize))
  {
    match Lookup(rest, "api")
    case None => Outcome(Err(KeyError(Name("api"))), rest)
    case Some(api) =>
      // line 66 reads `community` and `url`, unbound when the key was missing
      if community.None? || url.None? then Outcome(Err(NameError), rest)
      else
        Outcome(Ok(Page(community.value, url.value, api, latlon.0, latlon.1, validation,
                        Walk(rest, Walk2.Texts2(env.urlize)))),
                rest)
  }

  /** render_community as render.py runs it, on the copy in place. */
  method RenderCommunity(data: Dict, env: Env) returns (r: Result<Page>)
    modifies data
    ensures Outcome(r, data.items) == Render(old(data.items), env)
  {
    var community := TakeTolerantly(data, "name");
    var url := TakeTolerantly(data, "url");
    RestampKeys(data, env.stamp);
    var latlon := Coordinates(data.items, env.isFloat);
    if latlon.Err? {
      return Err(latlon.error);
    }
    var validation := data.Get("validation");
    if validation.Err? {
      return Err(validation.error);
    }
    var _ := data.DelItem("validation");
    var api := data.Get("api");
    if api.Err? {
      return Err(api.error);
    }
    var content := Walk2.WalkLoop(data.items, env.urlize);
    if community.None? || url.None? {
      return Err(NameError);
    }
    r := Ok(Page(community.value, url.value, api.value, latlon.value.0, latlon.value.1, validation.value, content));
  }

  /** `try: v = data[k]; del data[k] except: pass`. */
  method TakeTolerantly(data: Dict, k: string) returns (v: Option<Json>)
    modifies data
    ensures v == Lookup(old(data.items), k)
    ensures data.items == Remove(old(data.items), k)
  {
    var got := data.Get(k);
    if got.Ok? {
      var _ := data.DelItem(k);
      return Some(got.value);
    }
    RemoveSpec(data.items, k);
    return None;
  }

  /** Lines 48-53 in place. */
  method RestampKeys(data: Dict, stamp: Json -> Option<string>)
    modifies data
    ensures data.items == Restamp(old(data.items), stamp)
  {
    var st := data.Get("state");
    if st.Err? {
      return;
    }
    var lc := Subscript(st.value, "lastchange");
    if lc.Ok? {
      var text := stamp(lc.value);
      if text.Some? {
        data.SetItem("state", JObject(Assign(st.value.fields, "lastchange", JStr(text.value))));
        return;
      }
    }
    AssignSame(data.items, "state", st.value);
  }

  /** One pass of the loop on a record: the verdict, or the exception that
      skips the community, and what the pass leaves of the record. */
  function Handle(specs: seq<(string, Json)>, fields: seq<Field>, validator: Schema.Validator, env: Env): Outcome<Page>
  {
    match V2.Validate(specs, fields, validator)
    case Err(e) => Outcome(Err(e), fields)
    case Ok(v) =>
      var stored := Assign(fields, "validation", v);
      Outcome(Render(stored, env).result, Restamp(stored, env.stamp))
  }

  /** Lines 178-180 for one community. */
  method HandleCommunity(specs: seq<(string, Json)>, data: Dict, validator: Schema.Validator, env: Env)
    returns (r: Result<Page>)
    modifies data
    ensures Outcome(r, data.items) == Handle(specs, old(data.items), validator, env)
  {
    var v := V2.ValidateCommunity(specs, data, validator);
    if v.Err? {
      return Err(v.error);
    }
    data.SetItem("validation", v.value);
    ghost var stored := data.items;
    var copy := data.Copy();
    r := RenderCommunity(copy, env);
    // the copy holds the record's own "state" mapping, so the rewrite made
    // through the copy is the record's as well
    var shared := copy.Get("state");
    SharedState(stored, env);
    if shared.Ok? {
      data.SetItem("state", shared.value);
    }
  }

  /** What render_community leaves under "state" in the copy is the record's
      state, stamped. */
  lemma SharedState(fields: seq<Field>, env: Env)
    ensures var state := Lookup(Render(fields, env).record, "state");
      Restamp(fields, env.stamp) == if state.Some? then Assign(fields, "state", state.value) else fields
  {
    var named := Remove(fields, "name");
    var dated := Restamp(Remove(named, "url"), env.stamp);
    assert Lookup(dated, "state") == Lookup(Restamp(fields, env.stamp), "state") by {
      RemoveSpec(fields, "name");
      RemoveSpec(named, "url");
    }
    assert Lookup(Render(fields, env).record, "state") == Lookup(dated, "state") by {
      RenderLeaves(fields, env);
      RemoveSpec(dated, "validation");
    }
  }

  /** The copy render_community leaves: the record without name and url,
      stamped, and without validation once that has been read. */
  lemma RenderLeaves(fields: seq<Field>, env: Env)
    ensures var dated := Restamp(Remove(Remove(fields, "name"), "url"), env.stamp);
      Render(fields, env).record == dated || Render(fields, env).record == Remove(dated, "validation")
  {
  }

  /** What the loop has left after some communities: every record as its pass
      left it, and the `rendered` entries and pages of the passes that did not
      raise, in order. */
  datatype Run = Run(communities: seq<(string, seq<Field>)>, rendered: seq<(string, seq<Field>)>, pages: seq<Page>)

  /** Lines 173-183 on the communities in iteration order, as (name, record)
      pairs; `rendered` starts empty. */
  function RunAll(specs: seq<(string, Json)>, cs: seq<(string, seq<Field>)>, validator: Schema.Validator, env: Env): (r: Run)
    ensures |r.communities| == |cs|
    ensures |r.rendered| == |r.pages| <= |cs|
    decreases |cs|
  {
    if cs == [] then Run([], [], [])
    else
      var (name, record) := cs[|cs| - 1];
      Next(RunAll(specs, cs[..|cs| - 1], validator, env), name, Handle(specs, record, validator, env))
  }

  /** One more pass, on community `name`, with outcome `o`. */
  function Next(done: Run, name: string, o: Outcome<Page>): (r: Run)
    ensures r.communities == done.communities + [(name, o.record)]
    ensures o.result.Ok? ==> r.rendered == done.rendered + [(name, o.record)] && r.pages == done.pages + [o.result.value]
    ensures o.result.Err? ==> r.rendered == done.rendered && r.pages == done.pages
  {
    match o.result
    case Err(_) => Run(done.communities + [(name, o.record)], done.rendered, done.pages)
    case Ok(page) => Run(done.communities + [(name, o.record)], done.rendered + [(name, o.record)], done.pages + [page])
  }

  /** The loop of lines 173-183: an exception from validation or rendering is
      caught and skips the community; the loop goes on with the next. */
  method RenderAll(specs: seq<(string, Json)>, communities: seq<(string, seq<Field>)>,
                   validator: Schema.Validator, env: Env)
    returns (communities': seq<(string, seq<Field>)>, rendered: seq<(string, seq<Field>)>, pages: seq<Page>)
    ensures Run(communities', rendered, pages) == RunAll(specs, communities, validator, env)
  {
    communities', rendered, pages := [], [], [];
    for n := 0 to |communities|
      invariant Run(communities', rendered, pages) == RunAll(specs, communities[..n], validator, env)
    {
      var (name, record) := communities[n];
      var data := new Dict(record);
      var r := HandleCommunity(specs, data, validator, env);
      assert communities[..n + 1][..n] == communities[..n];
      communities' := communities' + [(name, data.items)];
      if r.Ok? {
        rendered := rendered + [(name, data.items)];
        pages := pages + [r.value];
      }
    }
    assert communities[..|communities|] == communities;
  }

  /** The exceptions render_community raises, in the order it meets them,
      read off the record it is given: the coordinates first, then a missing
      validation or api, and only then a missing name or url, whose removal
      was tolerated but whose value the template call reads. */
  lemma RenderRaises(fields: seq<Field>, env: Env)
    ensures var r := Render(fields, env).result;
      r.Err? <==> Coordinates(fields, env.isFloat).Err? || "validation" !in Keys(fields) || "api" !in Keys(fields)
                  || "name" !in Keys(fields) || "url" !in Keys(fields)
    ensures var r := Render(fields, env).result;
      r.Err? ==> r.error == if Coordinates(fields, env.isFloat).Err? then Coordinates(fields, env.isFloat).error
                            else if "validation" !in Keys(fields) then KeyError(Name("validation"))
                            else if "api" !in Keys(fields) then KeyError(Name("api"))
                            else NameError
  {
    RenderReads(fields, env);
  }

  /** What render_community reads from the copy is what the record held. */
  lemma RenderReads(fields: seq<Field>, env: Env)
    ensures var dated := Dated(fields, env.stamp);
      && Coordinates(dated, env.isFloat) == Coordinates(fields, env.isFloat)
      && Lookup(dated, "validation") == Lookup(fields, "validation")
      && Lookup(Remove(dated, "validation"), "api") == Lookup(fields, "api")
      && Lookup(Remove(fields, "name"), "url") == Lookup(fields, "url")
  {
    var dated := Dated(fields, env.stamp);
    assert Lookup(dated, "location") == Lookup(fields, "location")
        && Lookup(dated, "validation") == Lookup(fields, "validation")
        && Lookup(dated, "api") == Lookup(fields, "api") by {
      DatedKeeps(fields, env.stamp);
      KeysDiffer();
    }
    CoordinatesOfLocation(dated, fields, env.isFloat);
    assert Lookup(Remove(dated, "validation"), "api") == Lookup(dated, "api") by {
      RemoveSpec(dated, "validation");
      KeysDiffer();
    }
    assert Lookup(Remove(fields, "name"), "url") == Lookup(fields, "url") by {
      RemoveSpec(fields, "name");
      KeysDiffer();
    }
  }

  /** The copy once name and url are taken out and the state is stamped. */
  function Dated(fields: seq<Field>, stamp: Json -> Option<string>): seq<Field>
  {
    Restamp(Remove(Remove(fields, "name"), "url"), stamp)
  }

  /** Taking out name and url and stamping the state change nothing else. */
  lemma DatedKeeps(fields: seq<Field>, stamp: Json -> Option<string>)
    ensures forall k :: k != "name" && k != "url" && k != "state" ==> Lookup(Dated(fields, stamp), k) == Lookup(fields, k)
    ensures "name" !in Keys(Dated(fields, stamp)) && "url" !in Keys(Dated(fields, stamp))
  {
    var named := Remove(fields, "name");
    RemoveSpec(fields, "name");
    RemoveSpec(named, "url");
  }

  /** The page of a community that renders: the values read from the
      record, and the definition list of what the copy holds then. */
  lemma RenderedPage(fields: seq<Field>, env: Env)
    ensures var o := Render(fields, env);
      o.result.Ok? ==>
        && Lookup(fields, "name") == Some(o.result.value.community)
        && Lookup(fields, "url") == Some(o.result.value.url)
        && Lookup(fields, "api") == Some(o.result.value.api)
        && Lookup(fields, "validation") == Some(o.result.value.validation)
        && o.result.value.content == DL.Render(Tree(o.record, Walk2.Texts2(env.urlize)))
  {
    var o := Render(fields, env);
    if o.result.Ok? {
      var dated := Dated(fields, env.stamp);
      var rest := Remove(dated, "validation");
      var community, url := Lookup(fields, "name"), Lookup(Remove(fields, "name"), "url");
      var latlon, validation := Coordinates(dated, env.isFloat).value, Lookup(dated, "validation").value;
      assert o == Finish(rest, community, url, latlon, validation, env);
      RenderReads(fields, env);
      WalkRenders(rest, Walk2.Texts2(env.urlize));
    }
  }

  /** The copy a rendered page walks has lost name, url and validation, and
      still holds api and every other key of the record (the state aside). */
  lemma RenderedRecord(fields: seq<Field>, env: Env)
    ensures var o := Render(fields, env);
      o.result.Ok? ==>
        && "name" !in Keys(o.record) && "url" !in Keys(o.record) && "validation" !in Keys(o.record)
        && Lookup(o.record, "api") == Lookup(fields, "api")
        && (forall k :: k != "name" && k != "url" && k != "validation" && k != "state" ==>
              Lookup(o.record, k) == Lookup(fields, k))
  {
    var o := Render(fields, env);
    if o.result.Ok? {
      var dated := Dated(fields, env.stamp);
      var rest := Remove(dated, "validation");
      assert o.record == rest by {
        RenderLeaves(fields, env);
      }
      DatedKeeps(fields, env.stamp);
      RemoveSpec(dated, "validation");
      assert "name" !in Keys(rest) && "url" !in Keys(rest) && Lookup(rest, "api") == Lookup(fields, "api") by {
        KeysDiffer();
        assert Lookup(rest, "name") == Lookup(dated, "name") && Lookup(rest, "url") == Lookup(dated, "url");
      }
    }
  }

  /** Because api is kept, the page's definition list has an "Api" term. */
  lemma ApiTermShown(fields: seq<Field>, env: Env)
    requires Render(fields, env).result.Ok?
    ensures var d := Tree(Render(fields, env).record, Walk2.Texts2(env.urlize));
      exists i :: 0 <= i < |d.entries| && d.entries[i].term == "Api"
  {
    RenderedPage(fields, env);
    RenderedRecord(fields, env);
    ApiTerm(Render(fields, env).record, Walk2.Texts2(env.urlize));
  }

  /** A mapping with an "api" key walks to a list with an "Api" term. */
  lemma ApiTerm(rec: seq<Field>, t: Texts)
    requires "api" in Keys(rec)
    ensures exists i :: 0 <= i < |Tree(rec, t).entries| && Tree(rec, t).entries[i].term == "Api"
  {
    var i :| 0 <= i < |rec| && rec[i].0 == "api";
    ApiCapitalized();
    assert Tree(rec, t).entries[i].term == "Api";
  }

  /** `'api'.capitalize()` is "Api". */
  lemma ApiCapitalized()
    ensures Text.Capitalize("api") == "Api"
  {
    var c := Text.Capitalize("api");
    assert c[0] == 'A' && c[1] == 'p' && c[2] == 'i';
  }

  /** What one pass leaves of the record: the verdict is stored before
      rendering and stays when rendering raises; the copy's deletions do not
      reach the record; the state's lastchange rewrite, made through the copy,
      does. A pass whose validation raises leaves the record as it was. */
  lemma HandleKeepsRecord(specs: seq<(string, Json)>, fields: seq<Field>, validator: Schema.Validator, env: Env)
    ensures var o := Handle(specs, fields, validator, env);
      forall k :: k != "validation" && k != "state" ==> Lookup(o.record, k) == Lookup(fields, k)
    ensures var o := Handle(specs, fields, validator, env);
      var v := V2.Validate(specs, fields, validator);
      && (v.Err? ==> o == Outcome(Err(v.error), fields))
      && (v.Ok? ==> Lookup(o.record, "validation") == Some(v.value))
      && (v.Ok? && Lookup(fields, "state").Some? ==>
            Lookup(o.record, "state") == Some(Stamped(Lookup(fields, "state").value, env.stamp)))
  {
  }

  /** Every community is passed over once, in order, and keeps its name and
      its place. */
  lemma {:induction false} RunAllRecord(specs: seq<(string, Json)>, cs: seq<(string, seq<Field>)>,
                                        validator: Schema.Validator, env: Env, i: nat)
    requires i < |cs|
    ensures RunAll(specs, cs, validator, env).communities[i] == (cs[i].0, Handle(specs, cs[i].1, validator, env).record)
    decreases |cs|
  {
    if i < |cs| - 1 {
      RunAllRecord(specs, cs[..|cs| - 1], validator, env, i);
    }
  }

  /** `rendered` holds, in order, exactly the records of the passes that did
      not raise. */
  lemma {:induction false} RunAllRendered(specs: seq<(string, Json)>, cs: seq<(string, seq<Field>)>,
                                          validator: Schema.Validator, env: Env)
    ensures RunAll(specs, cs, validator, env).rendered == Passes(specs, cs, validator, env)
    decreases |cs|
  {
    if cs != [] {
      RunAllRendered(specs, cs[..|cs| - 1], validator, env);
    }
  }

  /** The records, with their names, of the passes that do not raise. */
  function Passes(specs: seq<(string, Json)>, cs: seq<(string, seq<Field>)>, validator: Schema.Validator, env: Env)
    : (r: seq<(string, seq<Field>)>)
    ensures |r| <= |cs|
    decreases |cs|
  {
    if cs == [] then []
    else
      var o := Handle(specs, cs[|cs| - 1].1, validator, env);
      Passes(specs, cs[..|cs| - 1], validator, env) + (if o.result.Ok? then [(cs[|cs| - 1].0, o.record)] else [])
  }

  /** The record keys render_community names are six different strings. */
  lemma KeysDiffer()
    ensures "name" != "url" && "name" != "validation" && "name" != "api" && "name" != "state" && "name" != "location"
    ensures "url" != "validation" && "url" != "api" && "url" != "state" && "url" != "location"
    ensures "validation" != "api" && "validation" != "state" && "validation" != "location"
    ensures "api" != "state" && "api" != "location" && "state" != "location"
  {
  }
}
