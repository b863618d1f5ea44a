/** `walk` of render3.py (lines 48-63): a nested mapping rendered as an HTML
    definition list.

    `urlize` (jinja2.utils.urlize) is foreign code and stays a parameter: the
    model says which value reaches it, never what it makes of it. It takes the
    Python object walk passes, because walk passes list elements to it without
    str(). */
module Walk3 {
  import opened Values
  import Text
  import DL = DefinitionList
  import opened WalkTree

  /** The `<dd>` texts of render3.py: a list element goes to urlize as it is,
      any other value as its str(). */
  function Texts3(urlize: Json -> string): (t: Texts)
    ensures t.element == urlize
    ensures forall v: Json :: v.IsScalar() ==> t.scalar(v) == urlize(JStr(Str(v)))
  {
    Texts(urlize, (v: Json) => if v.IsScalar() then urlize(JStr(Str(v))) else urlize(v))
  }

  /** walk as render3.py runs it: loops that append to a local string. */
  method WalkLoop(node: seq<Field>, urlize: Json -> string) returns (html: string)
    ensures html == Walk(node, Texts3(urlize))
    ensures html == DL.Render(Tree(node, Texts3(urlize)))
    decreases JObject(node), 1
  {
    ghost var t := Texts3(urlize);
    var body := "";
    for i := 0 to |node|
      invariant body == Chunks(node, i, t)
    {
      body := AppendEntry(body, node[i].0, node[i].1, urlize);
    }
    html := DL.ListTag(body);
    WalkRenders(node, t);
  }

  /** One pass of walk's loop: appends the term for `key` and the `<dd>`s of
      its `value` to `html`. */
  method AppendEntry(html: string, key: string, value: Json, urlize: Json -> string) returns (out: string)
    ensures out == html + Chunk(key, value, Texts3(urlize))
    decreases value, 2
  {
    ghost var t := Texts3(urlize);
    var term := DL.TermTag(Text.Capitalize(key));
    out := html + term;
    ghost var dds;
    if value.JObject? {
      var inner := WalkLoop(value.fields, urlize);
      dds := DL.DefTag(inner);
      out := out + DL.DefTag(inner);
    } else if value.JArray? {
      dds := Items(value.elems, |value.elems|, t);
      out := AppendItems(out, value.elems, urlize);
    } else {
      dds := DL.DefTag(urlize(JStr(Str(value))));
      out := out + DL.DefTag(urlize(JStr(Str(value))));
    }
    assert dds == DefsText(value, t);
    Text.AppendAssoc(html, term, dds);
  }

  /** The inner loop of walk, over the elements of a list value: appends one
      `<dd>` per element to `html`. */
  method AppendItems(html: string, xs: seq<Json>, urlize: Json -> string) returns (out: string)
    ensures out == html + Items(xs, |xs|, Texts3(urlize))
    decreases JArray(xs), 1
  {
    ghost var t := Texts3(urlize);
    out := html;
    for j := 0 to |xs|
      invariant out == html + Items(xs, j, t)
    {
      var dd;
      if xs[j].JObject? {
        var inner := WalkLoop(xs[j].fields, urlize);
        dd := DL.DefTag(inner);
      } else {
        dd := DL.DefTag(urlize(xs[j]));
      }
      assert dd == ItemText(xs[j], t);
      assert Items(xs, j + 1, t) == Items(xs, j, t) + dd;
      Text.AppendAssoc(html, Items(xs, j, t), dd);
      out := out + dd;
    }
  }
}
