/** The HTML definition lists walk produces, as a tree, and their serialization.
    Both variants of walk emit this shape; they differ only in the text of the
    definitions they build. */
module DefinitionList {

  /** `<dl>` ... `</dl>`. */
  datatype Dl = Dl(entries: seq<Entry>)

  /** One `<dt>` term followed by its `<dd>` definitions (there may be none). */
  datatype Entry = Entry(term: string, defs: seq<Dd>)

  /** A `<dd>` holding a nested list or a piece of text. */
  datatype Dd = Nested(list: Dl) | Text(text: string)

  /** `<dl>body</dl>`, `<dt>term</dt>` and `<dd>text</dd>`. */
  function ListTag(body: string): string { "<dl>" + body + "</dl>" }

  function TermTag(term: string): string { "<dt>" + term + "</dt>" }

  function DefTag(text: string): string { "<dd>" + text + "</dd>" }

  function Render(d: Dl): string
    decreases d, 2, 0
  {
    ListTag(RenderEntries(d, |d.entries|))
  }

  /** The markup of the first `n` entries of `d`. */
  function RenderEntries(d: Dl, n: nat): string
    requires n <= |d.entries|
    decreases d, 1, n
  {
    if n == 0 then "" else RenderEntries(d, n - 1) + RenderEntry(d.entries[n - 1])
  }

  function RenderEntry(e: Entry): string
    decreases e, 3, 0
  {
    TermTag(e.term) + RenderDefs(e, |e.defs|)
  }

  /** The markup of the first `n` definitions of `e`. */
  function RenderDefs(e: Entry, n: nat): string
    requires n <= |e.defs|
    decreases e, 2, n
  {
    if n == 0 then "" else RenderDefs(e, n - 1) + RenderDd(e.defs[n - 1])
  }

  function RenderDd(dd: Dd): string
    decreases dd, 3, 0
  {
    match dd
    case Nested(l) => DefTag(Render(l))
    case Text(t) => DefTag(t)
  }

  /** The `<dt>` terms of a list, in order. */
  function Terms(d: Dl): (ts: seq<string>)
    ensures |ts| == |d.entries|
  {
    seq(|d.entries|, i requires 0 <= i < |d.entries| => d.entries[i].term)
  }

  /** The markup of a run of definitions depends on the definitions alone. */
  lemma {:induction false} RenderDefsOfSameDefs(e: Entry, e': Entry, n: nat)
    requires e.defs == e'.defs && n <= |e.defs|
    ensures RenderDefs(e, n) == RenderDefs(e', n)
  {
    if n > 0 {
      RenderDefsOfSameDefs(e, e', n - 1);
    }
  }
}
