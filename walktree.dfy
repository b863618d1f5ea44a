/** The markup `walk` builds for a nested mapping, shared by both variants of
    walk: a definition list with one entry per key, in iteration order.

    The variants differ only in the text of a `<dd>` that holds no nested list,
    and that text comes from `urlize` (jinja2.utils.urlize), which is foreign
    code. So the markup is described here for any pair of text functions, and
    each variant supplies its own pair. */
module WalkTree {
  import opened Values
  import Text
  import DL = DefinitionList

  /** How a `<dd>` gets its text: `element` for an element of a list value that
      is not a mapping, `scalar` for a value that is neither list nor mapping. */
  datatype Texts = Texts(element: Json -> string, scalar: Json -> string)

  /** The definition list walk is meant to produce for a mapping: one entry per
      key, in iteration order, whose term is the capitalized key. */
  function Tree(fields: seq<Field>, t: Texts): (d: DL.Dl)
    ensures |d.entries| == |fields|
    decreases JObject(fields), 2, 0
  {
    DL.Dl(seq(|fields|, i requires 0 <= i < |fields| => TreeEntry(fields[i].0, fields[i].1, t)))
  }

  function TreeEntry(key: string, value: Json, t: Texts): DL.Entry
    decreases value, 3, 0
  {
    DL.Entry(Text.Capitalize(key), Defs(value, t))
  }

  /** The `<dd>`s of one key: one nested list for a mapping; one per element
      for a list, nested for a mapping element and text otherwise (a list inside
      a list is not walked); one text for anything else. */
  function Defs(value: Json, t: Texts): seq<DL.Dd>
    decreases value, 2, 1
  {
    match value
    case JObject(fs) => [DL.Nested(Tree(fs, t))]
    case JArray(xs) =>
      seq(|xs|, j requires 0 <= j < |xs| =>
        if xs[j].JObject? then DL.Nested(Tree(xs[j].fields, t)) else DL.Text(t.element(xs[j])))
    case _ => [DL.Text(t.scalar(value))]
  }

  /** The HTML walk returns for a mapping. */
  function Walk(fields: seq<Field>, t: Texts): string
    decreases JObject(fields), 2, 0
  {
    DL.ListTag(Chunks(fields, |fields|, t))
  }

  /** What the loop has appended to `html` after the first `n` keys. */
  function Chunks(fields: seq<Field>, n: nat, t: Texts): string
    requires n <= |fields|
    decreases JObject(fields), 1, n
  {
    if n == 0 then ""
    else Chunks(fields, n - 1, t) + Chunk(fields[n - 1].0, fields[n - 1].1, t)
  }

  /** What one pass of the loop appends for `key` and its `value`. */
  function Chunk(key: string, value: Json, t: Texts): string
    decreases value, 3, 0
  {
    DL.TermTag(Text.Capitalize(key)) + DefsText(value, t)
  }

  /** The `<dd>`s that pass appends after the term. */
  function DefsText(value: Json, t: Texts): string
    decreases value, 2, 1
  {
    match value
    case JObject(fs) => DL.DefTag(Walk(fs, t))
    case JArray(xs) => Items(xs, |xs|, t)
    case _ => DL.DefTag(t.scalar(value))
  }

  /** What the inner loop appends for the first `m` elements of a list value. */
  function Items(xs: seq<Json>, m: nat, t: Texts): string
    requires m <= |xs|
    decreases JArray(xs), 1, m
  {
    if m == 0 then "" else Items(xs, m - 1, t) + ItemText(xs[m - 1], t)
  }

  /** The `<dd>` the inner loop appends for one element of a list value. */
  function ItemText(x: Json, t: Texts): string
    decreases x, 2, 1
  {
    if x.JObject? then DL.DefTag(Walk(x.fields, t)) else DL.DefTag(t.element(x))
  }

  /** The shape of the list: one entry per key, in iteration order, whose term
      is the capitalized key; one `<dd>` for a mapping or a scalar, one per
      element for a list; and `<dl></dl>` for an empty mapping. */
  lemma TreeShape(fields: seq<Field>, t: Texts)
    ensures DL.Terms(Tree(fields, t)) == seq(|fields|, i requires 0 <= i < |fields| => Text.Capitalize(fields[i].0))
    ensures forall i :: 0 <= i < |fields| ==>
      |Tree(fields, t).entries[i].defs| == if fields[i].1.JArray? then |fields[i].1.elems| else 1
    ensures fields == [] ==> Walk(fields, t) == "<dl></dl>"
  {
    var d := Tree(fields, t);
    forall i | 0 <= i < |fields|
      ensures DL.Terms(d)[i] == Text.Capitalize(fields[i].0)
      ensures |d.entries[i].defs| == if fields[i].1.JArray? then |fields[i].1.elems| else 1
    {
      assert d.entries[i] == TreeEntry(fields[i].0, fields[i].1, t);
      var v := fields[i].1;
      if v.JArray? {
        assert |Defs(v, t)| == |v.elems|;
      } else {
        assert |Defs(v, t)| == 1;
      }
    }
    if fields == [] {
      assert Chunks(fields, 0, t) == "";
    }
  }

  /** walk's output is the markup of the definition list Tree describes. */
  lemma {:induction false} WalkRenders(fields: seq<Field>, t: Texts)
    ensures Walk(fields, t) == DL.Render(Tree(fields, t))
    decreases JObject(fields), 2, 0
  {
    ChunksRender(fields, |fields|, t);
  }

  lemma {:induction false} ChunksRender(fields: seq<Field>, n: nat, t: Texts)
    requires n <= |fields|
    ensures Chunks(fields, n, t) == DL.RenderEntries(Tree(fields, t), n)
    decreases JObject(fields), 1, n
  {
    if n > 0 {
      ChunksRender(fields, n - 1, t);
      ChunkRender(fields[n - 1].0, fields[n - 1].1, t);
      EntriesStep(fields, n, t);
    }
  }

  /** The entry Tree holds for the n-th key. */
  lemma EntriesStep(fields: seq<Field>, n: nat, t: Texts)
    requires 0 < n <= |fields|
    ensures DL.RenderEntries(Tree(fields, t), n)
         == DL.RenderEntries(Tree(fields, t), n - 1) + DL.RenderEntry(TreeEntry(fields[n - 1].0, fields[n - 1].1, t))
  {
    var d := Tree(fields, t);
    assert d.entries[n - 1] == TreeEntry(fields[n - 1].0, fields[n - 1].1, t);
  }

  lemma {:induction false} ChunkRender(key: string, value: Json, t: Texts)
    ensures Chunk(key, value, t) == DL.RenderEntry(TreeEntry(key, value, t))
    decreases value, 3, 0
  {
    var e := TreeEntry(key, value, t);
    assert e.term == Text.Capitalize(key) && e.defs == Defs(value, t);
    assert DL.RenderEntry(e) == DL.TermTag(e.term) + DL.RenderDefs(e, |e.defs|);
    assert DefsText(value, t) == DL.RenderDefs(e, |e.defs|) by {
      match value
      case JObject(fs) =>
        WalkRenders(fs, t);
        assert e.defs == [DL.Nested(Tree(fs, t))];
        assert DL.RenderDefs(e, 1) == DL.RenderDefs(e, 0) + DL.RenderDd(e.defs[0]);
      case JArray(xs) =>
        ItemsRender(xs, |xs|, t);
        assert |e.defs| == |xs|;
        DL.RenderDefsOfSameDefs(DL.Entry("", e.defs), e, |xs|);
      case _ =>
        assert e.defs == [DL.Text(t.scalar(value))];
        assert DL.RenderDefs(e, 1) == DL.RenderDefs(e, 0) + DL.RenderDd(e.defs[0]);
    }
  }

  lemma {:induction false} ItemsRender(xs: seq<Json>, m: nat, t: Texts)
    requires m <= |xs|
    ensures Items(xs, m, t) == DL.RenderDefs(DL.Entry("", Defs(JArray(xs), t)), m)
    decreases JArray(xs), 1, m
  {
    if m > 0 {
      ItemsRender(xs, m - 1, t);
      DefsStep(xs, m, t);
      if xs[m - 1].JObject? {
        WalkRenders(xs[m - 1].fields, t);
      }
    }
  }

  /** The `<dd>` Defs holds for the m-th element of a list value. */
  lemma DefsStep(xs: seq<Json>, m: nat, t: Texts)
    requires 0 < m <= |xs|
    ensures var e := DL.Entry("", Defs(JArray(xs), t));
      DL.RenderDefs(e, m) == DL.RenderDefs(e, m - 1)
        + DL.RenderDd(if xs[m - 1].JObject? then DL.Nested(Tree(xs[m - 1].fields, t)) else DL.Text(t.element(xs[m - 1])))
  {
    var e := DL.Entry("", Defs(JArray(xs), t));
    assert e.defs[m - 1]
        == if xs[m - 1].JObject? then DL.Nested(Tree(xs[m - 1].fields, t)) else DL.Text(t.element(xs[m - 1]));
  }

  /** Two ways of making `<dd>` texts that agree on every value walk hands them. */
  ghost predicate SameTexts(t: Texts, t': Texts)
  {
    (forall x :: t.element(x) == t'.element(x))
    && (forall v: Json :: v.IsScalar() ==> t.scalar(v) == t'.scalar(v))
  }

  /** The markup depends on the texts only through the values they are given. */
  lemma {:induction false} WalkSameTexts(fields: seq<Field>, t: Texts, t': Texts)
    requires SameTexts(t, t')
    ensures Walk(fields, t) == Walk(fields, t')
    decreases JObject(fields), 2, 0
  {
    ChunksSameTexts(fields, |fields|, t, t');
  }

  lemma {:induction false} ChunksSameTexts(fields: seq<Field>, n: nat, t: Texts, t': Texts)
    requires SameTexts(t, t') && n <= |fields|
    ensures Chunks(fields, n, t) == Chunks(fields, n, t')
    decreases JObject(fields), 1, n
  {
    if n > 0 {
      var key, value := fields[n - 1].0, fields[n - 1].1;
      var done, entry := Chunks(fields, n - 1, t), Chunk(key, value, t);
      assert done == Chunks(fields, n - 1, t') by {
        ChunksSameTexts(fields, n - 1, t, t');
      }
      assert entry == Chunk(key, value, t') by {
        ChunkSameTexts(key, value, t, t');
      }
    }
  }

  lemma {:induction false} ChunkSameTexts(key: string, value: Json, t: Texts, t': Texts)
    requires SameTexts(t, t')
    ensures Chunk(key, value, t) == Chunk(key, value, t')
    decreases value, 3, 0
  {
    assert DefsText(value, t) == DefsText(value, t') by {
      match value
      case JObject(fs) => WalkSameTexts(fs, t, t');
      case JArray(xs) => ItemsSameTexts(xs, |xs|, t, t');
      case _ =>
    }
  }

  lemma {:induction false} ItemsSameTexts(xs: seq<Json>, m: nat, t: Texts, t': Texts)
    requires SameTexts(t, t') && m <= |xs|
    ensures Items(xs, m, t) == Items(xs, m, t')
    decreases JArray(xs), 1, m
  {
    if m > 0 {
      ItemsSameTexts(xs, m - 1, t, t');
      if xs[m - 1].JObject? {
        WalkSameTexts(xs[m - 1].fields, t, t');
      }
    }
  }
}
