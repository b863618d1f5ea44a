/** The jsonschema side of validate_community: the errors a validator reports,
    their `str()` order, and the HTML list both variants make of them.

    jsonschema itself is foreign code. A validator is a function parameter that
    maps a schema and an instance to the errors iter_errors yields; an error
    carries its path, its message and the text `str(error)` gives, which is
    the key the errors are sorted by. */
module Schema {
  import opened Values
  import Text
  import Sorting

  datatype SchemaError = SchemaError(path: seq<PathElem>, message: string, text: string)

  /** `validator(schema).iter_errors(instance)`, as a list. */
  type Validator = (Json, Json) -> seq<SchemaError>

  /** `str(error)`, the sort key of `sorted(errors, key=str)`. */
  function ErrorText(e: SchemaError): string { e.text }

  /** `sorted(errors, key=str)`. */
  function SortErrors(es: seq<SchemaError>): (r: seq<SchemaError>)
    ensures Sorting.SortedBy(r, ErrorText)
    ensures multiset(r) == multiset(es)
  {
    Sorting.SortSorted(es, ErrorText);
    Sorting.SortBy(es, ErrorText)
  }

  /** `"->".join(str(p) for p in error.path)`. */
  function JoinPath(path: seq<PathElem>): string
  {
    Text.Join(seq(|path|, i requires 0 <= i < |path| => PathStr(path[i])), "->")
  }

  /** One more path element adds one arrow and its text. */
  lemma JoinPathAppend(path: seq<PathElem>, p: PathElem)
    requires |path| > 0
    ensures JoinPath(path + [p]) == JoinPath(path) + "->" + PathStr(p)
  {
    var strs := seq(|path|, i requires 0 <= i < |path| => PathStr(path[i]));
    assert seq(|path + [p]|, i requires 0 <= i < |path + [p]| => PathStr((path + [p])[i])) == strs + [PathStr(p)];
    Text.JoinAppend(strs, [PathStr(p)], "->");
  }

  /** The `<li>` of one error. */
  function ErrorItem(e: SchemaError): string
  {
    "<li>Error in " + JoinPath(e.path) + ": " + e.message + "</li>"
  }

  /** The `<li>`s of the first `n` errors, in order. */
  function ErrorItems(es: seq<SchemaError>, n: nat): string
    requires n <= |es|
  {
    if n == 0 then "" else ErrorItems(es, n - 1) + ErrorItem(es[n - 1])
  }

  /** A well-formed HTML list of every error, the shape render.py makes. */
  function ErrorList(es: seq<SchemaError>): string
  {
    "<ul>" + ErrorItems(es, |es|) + "</ul>"
  }
}
