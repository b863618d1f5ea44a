# Freifunk API viewer: community pages and validation

The Freifunk API viewer builds a static web site from the summarized
Freifunk API directory: one HTML page per community, plus an index. Before
a community's page is rendered, the community's API file is checked
against the JSON schema of the API version it declares. The verdict
(`valid`, `warning` or `invalid`, with a text) is stored in the record
under `validation`, and the record is then turned into the page.

The repository has two variants of this pipeline, and this project models
both side by side:

- `render3.py`, the Python 3 variant. `validate_community` strips
  bookkeeping and (for API 0.5.x) legacy coordinate keys, validates with a
  Draft 7 validator and compares versions with `packaging.version`.
  `render_community` rewrites the `state.lastchange` timestamp, reads the
  coordinates, takes `name`, `url`, `api` and `validation` out of the
  record, and walks the rest into a nested HTML definition list.
  `render_communities` hands each function its own deep copy of the record.
- `render.py`, the Python 2 variant. Its `validate_community` reads the
  record without changing it and lists every schema error. Its
  `render_community` tolerates a missing name or url at first, but then
  fails at the template call. The main loop gives `render_community` a
  shallow copy, so the rewritten `state` mapping is shared with the stored
  record. It catches any exception per community.

The modules:

- `Values` holds the JSON values after `json.loads`. It covers ordered
  mappings as association lists, Python's subscript and `del`, and the
  exceptions that can be raised.
- `Record` holds the community record as a mutable dictionary (`class Dict`).
- `Text`, `Decimal`, `Sorting`, `Schema` and `Version` hold the library
  behaviour the core depends on:
  - `str.capitalize`, `str()` of integers, and string order;
  - `sorted(..., key=str)` as a stable sort, and the error-list markup;
  - release-version parsing and comparison.
- `DefinitionList` and `WalkTree` describe the markup `walk` produces as a
  definition-list tree. `Walk3` and `Walk2` are the two loops, each proved
  to produce that markup.
- `Validate3` and `Validate2` are the two `validate_community`s.
- `Pages`, `Render3` and `Render2` are the two `render_community`s and
  their driver loops.

The model follows the code at these points, where the code does something
other than its names or comments suggest:

- render3.py's invalid verdict lists only the last error. The loop
  overwrites `collected_errors` on every pass. The list also closes with
  `</ul` without the `>`.
- render3.py's message for an unknown API version reads `instance['url']`.
  So a record with an unknown `api` and no `url` raises KeyError instead of
  returning `{}`.
- render.py's `KeyError` handler in `validate_community` refers to the
  undefined name `api_content`. So every KeyError there ends in NameError.
- render.py's `render_community` swallows a missing `name` or `url`. The
  unbound local then raises NameError at the template call.
- render3.py's validator works on a deep copy that has lost the 0.5.x
  coordinates. The rendered page is built from the record that still has
  them.

## Model

| member | source | states |
|---|---|---|
| Values.Keys | render3.py:51 | the keys of a mapping, in insertion order, one per field |
| Values.Lookup | render3.py:77 | `d[k]` finds a value exactly when `k` is a key, and the value is the one stored under `k` |
| Values.Remove | render3.py:78 | `del d[k]` on the field list: every field with key `k` is dropped, the rest keep their order |
| Values.RemoveSpec | render3.py:78 | `del d[k]` removes `k`, leaves every other key's value as it was, and changes nothing when `k` is absent |
| Values.Assign | render3.py:214 | `d[k] = v` makes `k` map to `v`, leaves every other key alone, and keeps the key order when `k` was present |
| Values.Replace | render3.py:69-70 | overwriting an existing key keeps the key order and every other value |
| Values.LookupAppend | render3.py:214 | adding a new key at the end makes it map to the new value and hides no other key |
| Values.AssignSame | render3.py:214 | assigning a key the value it already has leaves the mapping unchanged |
| Values.ReplaceSame | render3.py:69-70 | overwriting a key with its own value leaves the mapping unchanged |
| Values.Subscript | render3.py:112 | subscripting succeeds exactly on a mapping that has the key, raises TypeError on a non-mapping and KeyError for a missing key |
| Values.DelItem | render3.py:112-113 | `del v[k]` succeeds exactly on a mapping that has the key, with the key removed; TypeError on a non-mapping, KeyError for a missing key |
| Values.PathStr | render3.py:128 | `str()` of a path element: a key as it is, an index in decimal |
| Values.Str | render3.py:62 | `str()` of a string is the string itself, and `str()` of an integer reads back as that integer |
| Decimal.NatToStr | render.py:135 | the decimal form of a natural number is a nonempty digit string without a leading zero |
| Decimal.NatRoundTrip | render.py:135 | reading back the decimal form of a natural number gives the number |
| Decimal.IntRoundTrip | render3.py:62 | parsing `str(i)` gives `i` for every integer, negative ones included |
| Text.Capitalize | render3.py:52 | `key.capitalize()` keeps the characters up to case, with the first not lower-case and the rest not upper-case |
| Text.CapitalizeUnique | render.py:124 | those three properties determine the capitalized key uniquely |
| Text.JoinAppend | render3.py:128 | joining two nonempty runs equals joining each and putting the separator between them |
| Text.StrLeTotal | render3.py:121 | Python's string order compares any two strings |
| Text.StrLeTransitive | render3.py:121 | Python's string order is transitive |
| Text.StrLeAntisymmetric | render3.py:121 | two strings that are each at most the other are equal |
| Text.StrLeReflexive | render3.py:121 | every string is at most itself |
| Sorting.InsertSorted | render.py:81 | inserting into a sorted run keeps it sorted and adds exactly that element |
| Sorting.Insert | render3.py:121 | one step of the stable sort: the element goes before the first element whose key is not smaller |
| Sorting.SortBy | render3.py:121 | `sorted(..., key=...)` as insertion sort of each element into the sorted rest |
| Sorting.InsertWithKey | render.py:81 | insertion puts an element before the elements that have the same key, which is what keeps the sort stable |
| Sorting.SortSorted | render3.py:121 | `sorted(errors, key=str)` is ordered by the key and is a permutation of the errors |
| Sorting.SortStable | render3.py:121 | elements with equal keys keep their relative order (Python's sort is stable) |
| Schema.SortErrors | render3.py:121 | the sorted errors are ordered by `str(error)` and are a permutation of the validator's errors |
| Schema.JoinPath | render3.py:128 | `"->".join(str(path) for path in error.path)` |
| Schema.ErrorItem | render.py:85 | the `<li>Error in <path>: <message></li>` item of one error |
| Schema.ErrorItems | render.py:81-85 | the items of the first `n` errors, in sorted order, with nothing between |
| Schema.ErrorList | render.py:82-88 | `<ul>`, every error's item, `</ul>` |
| Schema.JoinPathAppend | render3.py:128 | the joined path of `p + [e]` is the joined path of `p`, then `->`, then `str(e)` |
| Version.Split | render3.py:131 | splitting a version string on `.` yields at least one component |
| Version.SplitPrefix | render3.py:131 | a leading piece without a separator is glued onto the first component |
| Version.SplitJoin | render3.py:131 | splitting components joined with `.` gives back the components |
| Version.ParseRelease | render3.py:131 | a parsed release has one number per dot-separated component |
| Version.ParseFormat | render3.py:131 | parsing the printed form of a release gives back the release |
| Version.DigitsFormat | render3.py:131 | the printed form of a release is its components' decimal texts joined with dots |
| Version.Compare | render3.py:131 | version comparison answers -1, 0 or 1 |
| Version.CompareAntisymmetric | render3.py:131 | swapping the operands negates the comparison |
| Version.CompareZeroPadding | render3.py:131 | trailing zero components do not change a comparison (`0.4` equals `0.4.0`) |
| Version.CompareZeroPaddingEmpty | render3.py:131 | the release `0` compares like the empty release |
| Version.CompareReflexive | render3.py:131 | every release equals itself |
| Version.CompareTransitive | render3.py:131 | "older than" is transitive |
| Version.OlderThanThreshold | render3.py:131 | the warning test succeeds exactly on a parsable version and answers whether it is below 0.4.0 |
| Version.NormalizedOlderThanThreshold | render.py:91 | NormalizedVersion also needs two components; where it parses it agrees with the Python 3 test |
| Version.OldVersionWarns | render3.py:131-134 | API version 0.3.5 is below 0.4.0 in both variants |
| Version.TenNotOld | render.py:91 | 0.10.0 is not below 0.4.0: components compare as numbers |
| Version.TenFormat | render3.py:131 | release `[0, 10, 0]` prints as `0.10.0` |
| Version.TenSortsFirst | render3.py:131 | as strings, `0.10.0` sorts before `0.4.0`, so a string comparison would have been wrong |
| Version.NumericNotLexicographic | render3.py:131 | both variants say 0.10.0 is not old, although the string `0.10.0` sorts before `0.4.0` |
| Version.ShortFormNotOld | render3.py:131 | `0.4` is not below 0.4.0 |
| WalkTree.Tree | render3.py:48-63 | the definition list has exactly one entry per key |
| WalkTree.TreeShape | render3.py:51-63 | terms are the capitalized keys in order; a mapping or scalar gets one `<dd>`, a list one per element; an empty mapping is `<dl></dl>` |
| WalkTree.Walk | render3.py:48-63 | `walk(node)`: the entries' markup inside `<dl>` and `</dl>` |
| WalkTree.Chunks | render3.py:51-62 | what the outer loop has appended after the first `n` keys |
| WalkTree.Chunk | render3.py:52-62 | one outer pass: the capitalized key's `<dt>`, then its `<dd>`s |
| WalkTree.DefsText | render3.py:53-62 | a mapping value is walked into one `<dd>`, a list value goes to the inner loop, any other value is one `<dd>` of text |
| WalkTree.Items | render3.py:56-60 | what the inner loop has appended after the first `m` elements |
| WalkTree.ItemText | render3.py:57-60 | a mapping element is walked, any other element goes to `urlize` |
| WalkTree.WalkRenders | render.py:121-137 | the HTML `walk` returns is the markup of that definition list |
| WalkTree.ChunksRender | render3.py:51-62 | after `n` keys the loop has appended the markup of the first `n` entries |
| WalkTree.ChunkRender | render3.py:52-62 | one pass of the loop appends exactly one entry's markup |
| WalkTree.ItemsRender | render3.py:56-60 | the inner loop appends one `<dd>` per list element, nested for a mapping element |
| WalkTree.WalkSameTexts | render.py:121-137 | two walks whose leaf texts agree produce the same HTML |
| Walk3.Texts3 | render3.py:60-62 | list elements go to `urlize` as they are; other leaves go to `urlize` as `str(value)` |
| Walk3.WalkLoop | render3.py:48-63 | the loop returns the markup of the definition list for the mapping |
| Walk3.AppendEntry | render3.py:52-62 | one outer pass appends the key's term and its `<dd>`s |
| Walk3.AppendItems | render3.py:56-60 | the inner loop appends the elements' `<dd>`s in order |
| Walk2.Texts2 | render.py:128-136 | list elements go to `urlize` raw; an int or float leaf goes as `str(item)`; every other leaf goes raw |
| Walk2.WalkLoop | render.py:121-137 | the loop returns the markup of the definition list for the mapping |
| Walk2.AppendEntry | render.py:124-136 | one outer pass appends the key's term and its `<dd>`s |
| Walk2.AppendItems | render.py:128-132 | the inner loop appends the elements' `<dd>`s in order |
| Walk2.VariantsAgree | render.py:133-136 | with both interpreters taken to iterate the mapping in one order and to print floats alike (see Left out), and `urlize` treating a scalar and its `str()` alike, both walks give the same HTML |
| Walk2.BoolReachesUrlizeRaw | render.py:134-136 | a bool leaf reaches `urlize` unconverted in render.py, so the variants can differ |
| Record.Dict.constructor | render3.py:214 | a fresh dictionary holding the given fields |
| Record.Dict.Get | render3.py:90 | `d[k]` gives the stored value, or KeyError(k) exactly when `k` is absent |
| Record.Dict.DelItem | render3.py:96-108 | `del d[k]` removes the key, raising KeyError(k) exactly when it was absent |
| Record.Dict.SetItem | render3.py:214 | `d[k] = v` stores `v` under `k` and nothing else changes |
| Record.Dict.Copy | render.py:179 | `data.copy()` is a fresh dictionary with the same fields |
| Pages.ToFloat | render3.py:75 | `float(v)` accepts numbers, bools and float literals; any other string raises ValueError, anything else TypeError |
| Pages.Coordinate | render3.py:75 | a coordinate is read from the record's `location` mapping; no `location` raises KeyError |
| Pages.CoordinatesOfLocation | render.py:55 | the coordinates depend on the record only through `location` |
| Pages.FirstMissing | render3.py:77 | the key reading stops at a missing key, and only when one is missing |
| Validate3.LastErrorList | render3.py:127-130 | the result text for errors: `<ul>`, the last error's item, `</ul` |
| Validate3.Classify | render3.py:123-142 | with errors: status `invalid`, status_text `Invalid`, result `<ul>` + the last error's item + `</ul`; without: `warning`/`Warning`/the upgrade text iff the version is below 0.4.0, else `valid`/`Valid`/`""`; an unparsable version raises; keys are filled as status, status_text, result |
| Validate3.StripBookkeeping | render3.py:95-108 | deleting `mtime`, `etime` and `error`, each absence swallowed |
| Validate3.StripPair | render3.py:115-116 | `del e['lat']` then `del e['lon']`, stopping at the first that raises |
| Validate3.StripAdditional | render3.py:114-116 | the enumerate loop: a list is cleaned element by element; a nonempty mapping raises KeyError(0); a nonempty string or any other value raises TypeError |
| Validate3.StripLocation | render3.py:111-116 | `lat`, `lon`, then `additionalLocations` (KeyError when missing), stopping at the first exception |
| Validate3.StripLegacy | render3.py:110-118 | the legacy block on the record: KeyError when there is no `location`, otherwise the cleaned location written back |
| Validate3.Known | render3.py:90 | the declared `api` is one of the specs' keys |
| Validate3.Validate | render3.py:88-144 | KeyError without `api`; TypeError for an unhashable one; `{}` (or KeyError('url')) for an unlisted one; otherwise the listed path |
| Validate3.ValidateKnown | render3.py:95-144 | bookkeeping keys go, 0.5.x legacy keys go with KeyError swallowed and any other exception raised, then the sorted errors are classified |
| Validate3.UnknownApi | render3.py:90-93 | an unlisted `api` leaves the record, returns `{}` when `url` is there and raises KeyError('url') when not; an unhashable one raises TypeError |
| Validate3.DelStep | render3.py:112-113 | a `del` that raises leaves the value as it was |
| Validate3.TryEach | render3.py:114-118 | the loop keeps the list's length |
| Validate3.StripElems | render3.py:114-116 | deleting in the elements keeps the list's length |
| Validate3.ValidateCommunity | render3.py:88-144 | the method returns the verdict and leaves exactly the record the specification function describes |
| Validate3.ValidateKnownCommunity | render3.py:95-144 | the same for an API version listed in the specs |
| Validate3.StripBookkeepingKeys | render3.py:95-108 | deleting `mtime`, `etime` and `error`, each tolerated when absent |
| Validate3.ClassifyErrors | render3.py:123-144 | the loop over the errors and the version test give `Classify`'s verdict |
| Validate3.StripLegacyKeys | render3.py:110-118 | the 0.5.x clean-up changes the record as `StripLegacy` says, and reports the KeyError it swallowed |
| Validate3.StripLocationKeys | render3.py:111-118 | the statements of lines 112-116 run one by one, proved to end as `StripLocation` says |
| Validate3.StripAdditionalKeys | render3.py:114-116 | the loop over `additionalLocations` stops at the first element that raises |
| Validate3.StripPairKeys | render3.py:115-116 | the two `del` statements run one by one, proved to end as `StripPair` says |
| Validate3.TryEachStopped | render3.py:114-118 | once an element raises, later passes change nothing |
| Validate3.TryEachUntouched | render3.py:114-116 | elements the loop has not reached are unchanged |
| Validate3.StripPairClears | render3.py:115-116 | a pair deletion that did not raise leaves a mapping without `lat` and `lon` |
| Validate3.StripElemsClears | render3.py:114-116 | with no exception, the visited elements have neither `lat` nor `lon` and the rest are unchanged |
| Validate3.TryEachStopsAt | render3.py:114-118 | the first element that raises decides the exception, and elements after it stay as they were |
| Validate3.TryEachStoppedAt | render3.py:114-118 | the same for every later prefix of the loop |
| Validate3.StripLocationClears | render3.py:111-116 | a clean-up that did not raise leaves `location` and every additional location without `lat` and `lon` |
| Validate3.ReportedErrorSortsLast | render3.py:121-130 | the one error render3.py reports is a maximum of the errors in `str` order |
| Validate3.StripLegacyKeeps | render3.py:110-118 | the 0.5.x clean-up changes only `location` and keeps the record's keys |
| Validate3.ValidateKnownRecord | render3.py:95-118 | for a listed version the record loses its bookkeeping keys, and for 0.5.x also its legacy coordinates |
| Validate3.ValidateTouchesOnly | render3.py:88-118 | validation changes no key except `mtime`, `etime`, `error` and `location` |
| Validate3.ValidateKeepsLocation | render3.py:90-110 | an unknown version leaves the record untouched; a version other than 0.5.x keeps `location` |
| Validate3.BookkeepingKeeps | render3.py:95-108 | the bookkeeping deletions remove exactly `mtime`, `etime` and `error` |
| Validate3.BookkeepingKeepsLocation | render3.py:95-108 | the bookkeeping deletions keep `location` |
| Validate3.BookkeepingStripped | render3.py:95-108 | after validating against a listed version, the record has no `mtime`, `etime` or `error` |
| Validate3.MissingLocationTolerated | render3.py:110-118 | a 0.5.x record without `location` is validated as the bookkeeping-stripped record, its KeyError swallowed |
| Validate3.NonMappingLocationRaises | render3.py:112 | a 0.5.x record whose `location` is not a mapping raises TypeError, which the handler does not catch |
| Validate2.Classify | render.py:80-106 | with errors: status_text `Invalid`, status `invalid`, result `<ul>` + every error's item in order + `</ul>`; without: `Warning`/`warning`/the upgrade text iff NormalizedVersion puts the version below 0.4.0, else `Valid`/`valid`/`""`; an unparsable version raises; keys are filled as status_text, status, result |
| Validate2.Validate | render.py:70-110 | NameError without `api`, for an unlisted one or a spec without `schema`; TypeError for an unhashable `api`; otherwise the classified sorted errors |
| Validate2.UnknownApi | render.py:76-110 | an unhashable `api` raises TypeError; an unlisted one, or a listed spec mapping without `schema`, ends in NameError |
| Validate2.ValidateCommunity | render.py:70-110 | the verdict is the specification function's, and the record is left unchanged |
| Validate2.ClassifyErrors | render.py:80-106 | the loop with `has_error` and `text_result` gives `Classify`'s verdict |
| Validate2.ErrorItemsJoin | render.py:81-88 | the `<li>`s are every error's item, in sorted order |
| Validate2.LastErrorOnly | render.py:81-88 | with one error the two variants' lists differ by the final `>` alone; with more, render.py's is strictly longer |
| Validate2.MissingApi | render.py:109-110 | without `api`, render.py ends in NameError and render3.py raises KeyError('api') |
| Render3.RewriteState | render3.py:68-74 | a string `lastchange` that parses is replaced by the parsed timestamp inside `state`; any other outcome leaves the record as it was; every key but `state` is kept; KeyError exactly when `state`, or the `lastchange` of a mapping `state`, is missing |
| Render3.ValuesOf | render3.py:77 | reading keys in order gives their values, or KeyError for a missing one |
| Render3.RenderCommunity | render3.py:65-86 | the method returns the page and leaves the record that `Render` describes |
| Render3.RewriteStateKeys | render3.py:68-74 | a parse failure leaves the record alone; a KeyError leaves it and propagates |
| Render3.TakePageKeys | render3.py:77-78 | taking out name, url, api and validation, or raising at the first missing one |
| Render3.Take | render3.py:77-78 | the four page values in order and the record without them, or the KeyError of the first missing one with the record unchanged |
| Render3.Render | render3.py:65-86 | state rewrite, coordinates, the four page keys taken out, and the walk of what is left |
| Render3.ReadFour | render3.py:77 | the KeyError names the first of name, url, api and validation that is missing |
| Render3.DeleteFour | render3.py:78 | the `del` statement removes the four keys in order |
| Render3.RemoveAllSpec | render3.py:78 | deleting a list of keys removes exactly those keys |
| Render3.ValuesOfFirstMissing | render3.py:77 | reading the keys raises exactly when one is missing, and names the first missing one |
| Render3.RenderedPage | render3.py:65-86 | the page shows the record's name, url, api and validation; the content is the walk of the record without those four keys |
| Render3.TakenValues | render3.py:77 | the four values taken after the state rewrite are the original record's |
| Render3.MissingPageKey | render3.py:75-78 | when coordinates are fine and a page key is missing, rendering raises KeyError for the first missing key |
| Render3.SameKeysFirstMissing | render3.py:68-77 | the state rewrite does not change which page key is missing first |
| Render3.Handle | render3.py:212-217 | validate a copy; on success store the verdict under `validation` and render another copy; the stored record is the one with the verdict |
| Render3.HandleCommunity | render3.py:212-217 | one pass of the loop stores the verdict and renders a deep copy, as `Handle` says |
| Render3.RenderCommunities | render3.py:209-218 | every rendered community passed, `rendered` is the prefix before the first failure, and later communities are untouched |
| Render3.Advance | render3.py:212-217 | one pass extends the invariant, or stops with the exception |
| Render3.HandleKeepsCommunity | render3.py:214 | the deep copies protect the stored record: only `validation` changes, and a failed validation changes nothing |
| Render3.HandlePage | render3.py:214-216 | a rendered page carries the verdict, and its content walks the stored record minus the page keys |
| Render3.StripLocationDropsLatitude | render3.py:112 | the 0.5.x clean-up removes `lat` from a location that had it |
| Render3.SharedRecordLosesLatitude | render3.py:214-216 | without the deep copy, a 0.5.x page would fail at `lat`; with it, the stored location is kept |
| Render3.StrippedLocation | render3.py:110-113 | the validated copy of a 0.5.x record has no `lat` in its location |
| Render3.ValidateKeepsState | render3.py:88-144 | validation never changes `state` |
| Render3.RenderWithoutLatitude | render3.py:75 | rendering a record whose location has no `lat` raises KeyError('lat') |
| Render2.Stamped | render.py:49-53 | when `lastchange` is there and converts, it becomes its `ctime()` text; otherwise the state is unchanged; no other key changes |
| Render2.Restamp | render.py:49-53 | the record keeps every key, and only `state` changes |
| Render2.Finish | render.py:57-66 | the page is built exactly when api, name and url are there; otherwise KeyError('api') or NameError |
| Render2.Render | render.py:33-68 | name and url taken out if there, state restamped, coordinates, validation taken out, then the page |
| Render2.Dated | render.py:35-53 | the copy after name and url are taken out and the timestamp is rewritten |
| Render2.RenderCommunity | render.py:33-68 | the method returns the page and leaves the copy that `Render` describes |
| Render2.TakeTolerantly | render.py:35-46 | a key is read and deleted, and a missing one is ignored |
| Render2.RestampKeys | render.py:49-53 | the timestamp rewrite, with every failure swallowed |
| Render2.Handle | render.py:176-183 | validate the record; on success store the verdict, render a shallow copy, and keep the copy's restamped `state` |
| Render2.HandleCommunity | render.py:176-183 | one pass of the main loop: the verdict is stored, the copy is rendered, and the shared `state` is written back |
| Render2.SharedState | render.py:179 | the stored record's `state` becomes the rendered copy's `state`, the effect of the shallow copy |
| Render2.RenderLeaves | render.py:33-58 | the copy loses name and url, gets its timestamp rewritten and, once past line 58, loses validation |
| Render2.RunAll | render.py:173-183 | every community is visited; there are as many pages as rendered records |
| Render2.Next | render.py:176-183 | a pass that raises adds nothing to `rendered`; one that succeeds adds the record and its page |
| Render2.RenderAll | render.py:173-183 | the loop's results are `RunAll`'s |
| Render2.RenderRaises | render.py:33-66 | rendering fails exactly on bad coordinates or a missing validation, api, name or url, with the matching exception |
| Render2.RenderReads | render.py:49-60 | the timestamp rewrite does not change coordinates, validation or api |
| Render2.DatedKeeps | render.py:35-53 | the copy keeps every key but name, url and state |
| Render2.RenderedPage | render.py:33-66 | the page shows name, url, api and validation; the content walks the record without name, url and validation |
| Render2.RenderedRecord | render.py:33-64 | the walked record keeps `api` and loses name, url and validation |
| Render2.ApiTermShown | render.py:60-64 | unlike render3.py, render.py's page body still has an `Api` entry |
| Render2.ApiTerm | render.py:124 | a record with `api` gives a definition list with an `Api` term |
| Render2.ApiCapitalized | render.py:124 | `'api'.capitalize()` is `Api` |
| Render2.HandleKeepsRecord | render.py:178-179 | only `validation` and `state` of the stored record change; a failed validation changes nothing |
| Render2.RunAllRecord | render.py:173-183 | each stored record ends as its own pass left it, whatever other communities do |
| Render2.Passes | render.py:176-180 | the (name, record) pairs of the communities whose pass did not raise, in order |
| Render2.RunAllRendered | render.py:176-183 | `rendered` holds exactly the communities whose pass did not raise, in order |

## Left out

- The HTTP download of the API specs and the directory, zip extraction,
  file writes, copying static files, the index page and the command line:
  I/O outside the core.
- jinja2 templates and `urlize`: the page is modelled as the template's
  arguments (`Pages.Page`). `urlize` is a function parameter from any JSON
  value to text, because both variants hand it values that are not strings.
- jsonschema: the validator is a parameter that maps a schema and an
  instance to the errors it reports. `check_schema` and `validator_for`
  (render.py:76-78) are not modelled; a schema they reject is treated like
  any other schema.
- Floating point: `float()` is modelled by which values it accepts
  (`isFloat` for strings). `gen_bbox` and the coordinates' values are not
  modelled.
- Timestamps: `dateutil.parser.parse` and `datetime.fromtimestamp(...).ctime()`
  are parameters (`parse`, `stamp`). `datetime.now()` is not modelled.
- `print` output, including the unknown-version message, is not modelled.
  Only the key read it performs is.
- Walk2.Texts2: Python 2 `int` is taken to be 64-bit, so JSON integers
  outside that range are `long` and reach `urlize` unconverted.
- Render3.RenderCommunities: communities are a sequence of (name, record)
  pairs in the dictionary's order. `rendered` starts empty.
- Render2.RenderAll: the same modelling of communities. An exception ends
  only the current pass, as in the source.
- Record.Dict: only the top-level record is a mutable object. Nested
  mappings are values: an in-place change to a nested mapping is modelled
  by writing the new value back under its key. This also covers
  render.py's shallow copy sharing `state` (Render2.HandleCommunity).
- Aliasing between records of different communities is not modelled;
  each record is its own value.
- Render2.Passes: its own contract states only a length bound. Its meaning
  is given by Render2.RunAllRendered.
- Values: a mapping is taken to have distinct keys, as `json.loads` makes
  them (a repeated key keeps its last value). A field list with a repeated
  key is not excluded by a predicate, and `Lookup` would find its first value.
- Values: a record's field order stands for the order its dictionary
  iterates. In render3.py that is the JSON document's order. In render.py
  (Python 2) `json.load` builds dicts that iterate in hash order, so the
  order of render.py's `<dt>`s is not modelled.
- Walk2.Texts2: a float carries one `str()` text for both variants. Python
  2's `str()` rounds a float to 12 significant digits, so render.py can hand
  `urlize` a different text than render3.py for the same float. That
  difference is not modelled.
- Walk2.VariantsAgree: it holds under the two assumptions above (one
  iteration order, one float text), which Python 2 does not meet.
- Validate2.Validate: `str(path)` at render.py:85 raises UnicodeEncodeError
  in Python 2 for a non-ASCII key in an error path; that exception is not
  modelled.
- Text.Capitalize: case mapping covers ASCII letters only. Python's
  `capitalize` also maps non-ASCII letters (`ärzte` becomes `Ärzte`) and,
  in Python 3, can change length (`ß` becomes `Ss`); the model leaves
  non-ASCII characters as they are.
- Version.OlderThanThreshold: only releases of dot-separated digit groups
  parse. `packaging.version` also accepts a leading `v`, surrounding
  whitespace, and pre-, post- and dev-release suffixes (`v0.4.0`,
  `0.4.0rc1`, `0.4.0.post1`, ` 0.4.0 `); the model raises VersionError for
  them.
- Version.NormalizedOlderThanThreshold: NormalizedVersion accepts `a`, `b`,
  `c`, `rc`, `.post` and `.dev` suffixes, which the model rejects, and
  rejects a component with a leading zero (`00.4`), which the model accepts.
- Pages.ToFloat: every integer converts. Python's `float()` raises
  OverflowError for an integer beyond about 1.8e308; that is not modelled.
- Render3.RewriteState: the parser is a parameter that either succeeds or
  fails with ParserError. An OverflowError from dateutil, which the `try` at
  render3.py:68-74 does not catch, is not modelled.
