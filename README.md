# nanographql request builder, modelled in Dafny

nanographql is a tagged-template helper for GraphQL clients. Writing
``gql`query foo ($n: Int!) { ... }` `` calls the tag function `taggify`. It
splices the template's raw segments and its substitutions into one query
string, with an array substitution joined with no separator. It then hands the
string to `nanogql`, which runs one fixed regular expression over it to find
the operation name. `nanogql` returns a closure. Each call of the closure with
some `variables` builds the request record `{query, variables?, operationName?}`:

- `query` is always the spliced string;
- `variables` is present only when the argument is truthy, and then holds its
  JSON serialisation;
- `operationName` is present only when the pattern matched, and then holds the
  pattern's first group, which may be `undefined`.

The model has four modules:

- `Wrappers` (`wrappers.dfy`): the `Option` type.
- `OpName` (`opname.dfy`): the pattern `/query ([\w\d-_]+)? ?\(.*?\)? \{/` as a
  deterministic matcher, `Exec`. Next to it is `Parse`, a declarative account
  of every way the pattern can match, written item by item. The lemmas prove
  three things: the matcher accepts exactly where a parse exists; it reports
  the leftmost such position; and every parse at that position captures the
  same group 1, namely the longest run of `[A-Za-z0-9_-]` after `query `. So
  the backtracking engine and this matcher report the same name.
- `NanoGql` (`nanogql.dfy`): `merge` and the `reduce` that uses it, `nanogql`
  (a function returning the closure's captured state as a `Builder` value), the
  closure (`Call`, a pure record-valued function), and `taggify` (a method whose
  loop does the `forEach` splice), proved against `Interleave`.
- `HeaderExamples` (`examples_headers.dfy`): what the pattern does with headers
  of the kinds used in the repository's test file.

The model follows `index.js`, and `index.js` differs from the test file and
the type declarations in several ways:

- The closure returns an object, not a string.
- A `mutation ...` header, an argument-less `query foo {` header and
  `query(...)` without a space all get no `operationName` key, because the
  pattern needs `query `, then an optional name and space, then `(`.
- A second argument to the closure is ignored.

The larger design sometimes described for this project is not in `index.js`
and is not modelled: compilation memoised by template identity, placeholder
markers, fragment inlining, and a cache-aware dispatcher.

## Model

| member | source | states |
|---|---|---|
| `OpName.NameRun` | index.js:3 | group `([\w\d-_]+)` is the longest run of name characters: every character in the run is `[A-Za-z0-9_-]`, and the run ends at the end of the string or before a character that is not |
| `OpName.ExecFrom` | index.js:3 | scanning from `i`, the result is the first position at or after `i` where the matcher accepts, with the group found there; no result means no position at or after `i` matches |
| `OpName.Exec` | index.js:7 | `getOpname.exec(str)`: the leftmost match. A defined group is a non-empty run of name characters sitting right after `query `. An undefined group means no name character follows `query `. No match means the matcher accepts nowhere |
| `OpName.ParseCapturesNameRun` | index.js:3 | every way the pattern can match at a position captures the maximal name run as group 1, and is followed there by `(` or by ` (`; so group 1 depends only on where the match starts |
| `OpName.BraceOnLineFrom` | index.js:3 | if ` {` occurs at or after `q` with no line terminator in between, then `.*?\)? \{` can finish from `q` |
| `OpName.BraceOnLineWitness` | index.js:3 | conversely, if `.*?\)? \{` can finish from `q`, it returns a position of ` {` at or after `q` with no line terminator before it |
| `OpName.MatchesAtHasParse` | index.js:3 | where the matcher accepts, the pattern has a parse |
| `OpName.ParseMatchesAt` | index.js:3 | where the pattern has a parse, including one in which `\)?` takes a `)`, the matcher accepts |
| `OpName.MatchesAtIffRegex` | index.js:3 | the matcher accepts at `i` if and only if `i` starts a parse of the pattern |
| `OpName.ExecIsLeftmostRegexMatch` | index.js:7 | `Exec` reports a match iff the pattern matches somewhere. The match is at the leftmost such position, and its group equals the group of every parse there |
| `NanoGql.FlattenLength` | index.js:37 | joining pieces with the empty separator gives a string whose length is the sum of the pieces' lengths |
| `NanoGql.ReduceMergeIsFlatten` | index.js:16-18 | `parts.reduce(merge, acc)` is `acc` followed by all the parts, in order from left to right |
| `NanoGql.NanoGql` | index.js:5-8 | for a string input the compiled query is that string unchanged; for an array input it is the concatenation of the elements in order. The name is the result of the pattern on the compiled query, computed once when the builder is made |
| `NanoGql.Call` | index.js:8-13 | the record's `query` is the captured string. `variables` is present iff the argument is truthy, and then holds its serialisation. `operationName` is missing iff there was no match, `undefined` iff the match skipped the group, and otherwise the captured name |
| `NanoGql.QueryIsCompiledSource` | index.js:9 | a built request's `query` is the string, or the concatenation of the array, given to `nanogql`, whatever `variables` is |
| `NanoGql.OperationNameFixedAtConstruction` | index.js:7-11 | two calls of one builder, with any variables, yield the same `operationName` presence and value and the same `query` |
| `NanoGql.OperationNamePresentIffMatch` | index.js:11 | the request has an `operationName` key iff the pattern matches somewhere in its `query` |
| `NanoGql.DefinedOperationName` | index.js:11 | a defined `operationName` is a non-empty run of `[A-Za-z0-9_-]` that starts right after the `query ` of the leftmost match in `query` |
| `NanoGql.UndefinedOperationName` | index.js:11 | an `operationName` key with an undefined value comes from a leftmost match whose `query ` is not followed by a name character |
| `NanoGql.InterleaveLength` | index.js:30-31 | the spliced string is as long as all raw segments and all substitution texts together |
| `NanoGql.InterleaveKeepsEnds` | index.js:31 | the spliced string starts with the first raw segment and ends with the last one, verbatim |
| `NanoGql.Taggify` | index.js:20-41 | the tag builds `raw[0] + s0 + raw[1] + ... + s(n-1) + raw[n]` over the raw segments. A string substitution goes in verbatim; an array substitution goes in as the concatenation of its elements. The length is the sum of all segment and substitution lengths. With no substitutions the result is exactly `raw[0]`. The builder returned is `nanogql` of that string |
| `HeaderExamples.NoKeywordNoMatch` | index.js:3 | a string without the letter `q` never matches |
| `HeaderExamples.NamedQueryHeader` | index.js:3 | `query foo ($n: Int!) {` matches at 0 with the name `foo` |
| `HeaderExamples.ArgumentlessQueryHeader` | index.js:3 | `query foo {` does not match; test.js:68-87 expects the name `foo` here |
| `HeaderExamples.UnspacedQueryHeader` | index.js:3 | `query($n: Int!) {` does not match: there is no space after `query` |
| `HeaderExamples.MutationHeader` | index.js:3 | `mutation CreateSomethingBig($input: Idea!) {` does not match; test.js:51-65 expects a name here |
| `HeaderExamples.HeaderRequests` | index.js:11 | the built requests carry `operationName: "foo"` for the named query header, and no `operationName` key for the other three headers |

## Left out

- The copy of `arguments` into an array and its `shift()` (index.js:21-26) are not modelled as a loop. `Taggify` receives the template object and the substitutions as two parameters, which is what that code separates them into.
- `Taggify` requires one more raw segment than substitutions, which every tagged template supplies. When the tag is called by hand with other lengths, the source reads missing segments as `undefined`; that case is not modelled.
- Only string and array-of-string substitutions are modelled. JavaScript's `ToString` coercion of other values is not (numbers, objects, and `null` or `undefined` array elements that `join` turns into empty strings).
- `nanogql` is modelled for string and array-of-string inputs only; the coercion `exec` applies to other values is not modelled.
- `JSON.stringify` is an unmodelled function passed in as the `stringify` parameter. The case where it returns `undefined` is not modelled.
- JavaScript truthiness of `variables` is reduced to present (`Some`) or absent (`None`).
- Of the array that `exec` returns, only the match index and group 1 are kept. The whole matched text and the `input` property are unused by the source.
- Strings are sequences of Unicode scalar values, not UTF-16 code units; so match indices differ for text with characters outside the Basic Multilingual Plane. Whether the pattern matches, and the name it captures, do not change, since the pattern only inspects ASCII characters and the four line terminators.
- The cooked template segments are carried in `TemplateStrings` but unused, as in the source.
- `module.exports` (index.js:43) is not modelled.
