/** `walk` of render.py (lines 121-137), the Python 2 variant: the same
    definition list as render3.py's, built by appending to a string that starts
    with `<dl>`. The one difference is the text of a scalar `<dd>`: only an
    `int` or a `float` is turned into its str() before urlize; a str, a bool,
    None or a `long` reaches urlize as it is. */
module Walk2 {
  import opened Values
  import Text
  import DL = DefinitionList
  import opened WalkTree
  import Walk3

  /** The width of a Python 2 `int` on a 64-bit build: a larger integer is a
      `long`. */
  const IntMin: int := -0x8000_0000_0000_0000
  const IntMax: int := 0x7FFF_FFFF_FFFF_FFFF

  /** `type(item) is int or type(item) is float`: a bool is not an int here. */
  predicate IsIntOrFloat(v: Json)
  {
    (v.JInt? && IntMin <= v.i <= IntMax) || v.JFloat?
  }

  /** The `<dd>` texts of render.py. */
  function Texts2(urlize: Json -> string): (t: Texts)
    ensures t.element == urlize
    ensures forall v: Json :: IsIntOrFloat(v) ==> t.scalar(v) == urlize(JStr(Str(v)))
    ensures forall v: Json :: !IsIntOrFloat(v) ==> t.scalar(v) == urlize(v)
  {
    Texts(urlize, (v: Json) => if IsIntOrFloat(v) then urlize(JStr(Str(v))) else urlize(v))
  }

  /** walk as render.py runs it. */
  method WalkLoop(node: seq<Field>, urlize: Json -> string) returns (html: string)
    ensures html == Walk(node, Texts2(urlize))
    ensures html == DL.Render(Tree(node, Texts2(urlize)))
    decreases JObject(node), 1
  {
    ghost var t := Texts2(urlize);
    html := "<dl>";
    for i := 0 to |node|
      invariant html == "<dl>" + Chunks(node, i, t)
    {
      Text.AppendAssoc("<dl>", Chunks(node, i, t), Chunk(node[i].0, node[i].1, t));
      html := AppendEntry(html, node[i].0, node[i].1, urlize);
    }
    html := html + "</dl>";
    WalkRenders(node, t);
  }

  /** One pass of walk's loop: appends the term for `key` and the `<dd>`s of
      its value `item` to `html`. */
  method AppendEntry(html: string, key: string, item: Json, urlize: Json -> string) returns (out: string)
    ensures out == html + Chunk(key, item, Texts2(urlize))
    decreases item, 2
  {
    ghost var t := Texts2(urlize);
    var term := DL.TermTag(Text.Capitalize(key));
    out := html + term;
    ghost var dds;
    if item.JObject? {
      var inner := WalkLoop(item.fields, urlize);
      dds := DL.DefTag(inner);
      out := out + DL.DefTag(inner);
    } else if item.JArray? {
      dds := Items(item.elems, |item.elems|, t);
      out := AppendItems(out, item.elems, urlize);
    } else {
      var text := item;
      if IsIntOrFloat(item) {
        text := JStr(Str(item));
      }
      dds := DL.DefTag(urlize(text));
      out := out + DL.DefTag(urlize(text));
    }
    assert dds == DefsText(item, t);
    Text.AppendAssoc(html, term, dds);
  }

  /** The inner loop of walk, over the elements of a list value. */
  method AppendItems(html: string, xs: seq<Json>, urlize: Json -> string) returns (out: string)
    ensures out == html + Items(xs, |xs|, Texts2(urlize))
    decreases JArray(xs), 1
  {
    ghost var t := Texts2(urlize);
    out := html;
    for j := 0 to |xs|
      invariant out == html + Items(xs, j, t)
    {
      var dd;
      if xs[j].JObject? {
        var inner := WalkLoop(xs[j].fields, urlize);
        dd := DL.DefTag(inner);
      } else {
        dd := DL.DefTag(urlize(xs[j]));
      }
      assert dd == ItemText(xs[j], t);
      assert Items(xs, j + 1, t) == Items(xs, j, t) + dd;
      Text.AppendAssoc(html, Items(xs, j, t), dd);
      out := out + dd;
    }
  }

  /** The two variants of walk return the same markup whenever urlize makes the
      same text of a scalar as of its str(). */
  lemma VariantsAgree(node: seq<Field>, urlize: Json -> string)
    requires forall v: Json :: v.IsScalar() ==> urlize(v) == urlize(JStr(Str(v)))
    ensures Walk(node, Texts2(urlize)) == Walk(node, Walk3.Texts3(urlize))
  {
    WalkSameTexts(node, Texts2(urlize), Walk3.Texts3(urlize));
  }

  /** A bool, None, a str and a long reach urlize unconverted in render.py and as
      their str() in render3.py; so with a urlize that tells the two apart, the
      variants differ on `{"open": True}`. */
  lemma BoolReachesUrlizeRaw()
    ensures var u := (v: Json) => if v.JStr? then "text" else "object";
      Walk([("open", JBool(true))], Texts2(u)) != Walk([("open", JBool(true))], Walk3.Texts3(u))
  {
    var u := (v: Json) => if v.JStr? then "text" else "object";
    var node := [("open", JBool(true))];
    var t2, t3 := Texts2(u), Walk3.Texts3(u);
    assert DefsText(JBool(true), t2) == DL.DefTag("object");
    assert DefsText(JBool(true), t3) == DL.DefTag("text");
    assert Chunks(node, 1, t2) == Chunks(node, 0, t2) + Chunk("open", JBool(true), t2);
    assert Chunks(node, 1, t3) == Chunks(node, 0, t3) + Chunk("open", JBool(true), t3);
    assert |Walk(node, t2)| == |Walk(node, t3)| + 2;
  }
}
