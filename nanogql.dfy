/**
  The request builder of index.js: the tag function `taggify` splices the
  template's raw segments and its substitutions into one string, `nanogql`
  normalises that string and extracts the operation name once, and the closure
  it returns builds the request record `{query, variables?, operationName?}`.
 */
module NanoGql {
  import opened Wrappers
  import OpName

  // ---------------------------------------------------------------------------
  // Strings made of pieces
  // ---------------------------------------------------------------------------

  /** The pieces written one after the other, with nothing between them. */
  function Flatten(parts: seq<string>): string {
    if parts == [] then "" else parts[0] + Flatten(parts[1..])
  }

  /** The sum of the lengths of the pieces. */
  function TotalLength(parts: seq<string>): nat {
    if parts == [] then 0 else |parts[0]| + TotalLength(parts[1..])
  }

  lemma {:induction false} FlattenLength(parts: seq<string>)
    ensures |Flatten(parts)| == TotalLength(parts)
  {
    if parts != [] {
      FlattenLength(parts[1..]);
    }
  }

  /** `merge`: the reducer that appends one chunk. */
  function Merge(str: string, chunk: string): string {
    str + chunk
  }

  /** `parts.reduce(merge, acc)`: a left fold, applying `merge` to the pieces from first to last. */
  function ReduceMerge(acc: string, parts: seq<string>): string
    decreases |parts|
  {
    if parts == [] then acc else ReduceMerge(Merge(acc, parts[0]), parts[1..])
  }

  /** Reducing with `merge` appends the pieces, left to right, to the initial value. */
  lemma {:induction false} ReduceMergeIsFlatten(acc: string, parts: seq<string>)
    ensures ReduceMerge(acc, parts) == acc + Flatten(parts)
    decreases |parts|
  {
    if parts != [] {
      ReduceMergeIsFlatten(acc + parts[0], parts[1..]);
      assert acc + parts[0] + Flatten(parts[1..]) == acc + (parts[0] + Flatten(parts[1..]));
    }
  }

  // ---------------------------------------------------------------------------
  // nanogql and the closure it returns
  // ---------------------------------------------------------------------------

  /** What `nanogql` accepts: a string, or an array of strings. */
  datatype Source = Text(s: string) | Parts(parts: seq<string>)

  /** The closure's captured state: the compiled string and the result of `getOpname.exec` on it. */
  datatype Builder = Builder(query: string, name: Option<OpName.Match>)

  /** The `operationName` key of the request: missing, present with `undefined`, or a name. */
  datatype NameField = Absent | Undefined | Defined(name: string)

  /** The record the closure returns; `variables` is None when the key is missing. */
  datatype Request = Request(query: string, variables: Option<string>, operationName: NameField)

  /** `nanogql(str)`: an array is reduced by concatenation, a string kept as it is; the name is extracted once. */
  function NanoGql(src: Source): (b: Builder)
    ensures src.Text? ==> b.query == src.s
    ensures src.Parts? ==> b.query == Flatten(src.parts)
    ensures b.name == OpName.Exec(b.query)
  {
    var str := if src.Parts? then ReduceMerge("", src.parts) else src.s;
    (if src.Parts? then ReduceMergeIsFlatten("", src.parts); Builder(str, OpName.Exec(str))
     else Builder(str, OpName.Exec(str)))
  }

  /**
    The closure `function (variables) {...}`. A truthy `variables` is `Some`;
    `stringify` stands for `JSON.stringify`, which is not modelled.
   */
  function Call<V>(b: Builder, variables: Option<V>, stringify: V -> string): (r: Request)
    ensures r.query == b.query
    ensures r.variables.Some? <==> variables.Some?
    ensures variables.Some? ==> r.variables.value == stringify(variables.value)
    ensures r.operationName.Absent? <==> b.name.None?
    ensures r.operationName.Undefined? <==> b.name.Some? && b.name.value.group.None?
    ensures r.operationName.Defined? ==> b.name == Some(OpName.Match(b.name.value.index, Some(r.operationName.name)))
  {
    var data := Request(b.query, None, Absent);
    var data := if variables.Some? then data.(variables := Some(stringify(variables.value))) else data;
    if b.name.Some? then
      data.(operationName := if b.name.value.group.Some? then Defined(b.name.value.group.value) else Undefined)
    else data
  }

  /** The `query` field is the compiled string, whatever `variables` is. */
  lemma QueryIsCompiledSource<V>(src: Source, variables: Option<V>, stringify: V -> string)
    ensures src.Text? ==> Call(NanoGql(src), variables, stringify).query == src.s
    ensures src.Parts? ==> Call(NanoGql(src), variables, stringify).query == Flatten(src.parts)
  {
  }

  /** The name is extracted when the builder is made: every call of one builder agrees on it. */
  lemma OperationNameFixedAtConstruction<V>(b: Builder, v1: Option<V>, v2: Option<V>, stringify: V -> string)
    ensures Call(b, v1, stringify).operationName == Call(b, v2, stringify).operationName
    ensures Call(b, v1, stringify).query == Call(b, v2, stringify).query
  {
  }

  /** The request has an `operationName` key exactly when the pattern matches somewhere in the query. */
  lemma OperationNamePresentIffMatch<V>(src: Source, variables: Option<V>, stringify: V -> string)
    ensures var r := Call(NanoGql(src), variables, stringify);
      !r.operationName.Absent? <==> exists k: nat :: OpName.RegexMatchesAt(r.query, k)
  {
    OpName.ExecIsLeftmostRegexMatch(NanoGql(src).query);
  }

  /**
    A defined `operationName` is a non-empty run of `[A-Za-z0-9_-]` that
    follows the leftmost match of `query ` in the query text.
   */
  lemma DefinedOperationName<V>(src: Source, variables: Option<V>, stringify: V -> string)
    ensures var r := Call(NanoGql(src), variables, stringify);
      r.operationName.Defined? ==>
        exists i: nat :: OpName.LeftmostAt(r.query, i) && OpName.NameAfterKeyword(r.query, i, r.operationName.name)
  {
    var b := NanoGql(src);
    OpName.ExecIsLeftmostRegexMatch(b.query);
    var r := Call(b, variables, stringify);
    if r.operationName.Defined? {
      var i := b.name.value.index;
      assert OpName.LeftmostAt(r.query, i) && OpName.NameAfterKeyword(r.query, i, r.operationName.name);
    }
  }

  /** A match whose group is skipped yields the key with an undefined value: no name character follows `query `. */
  lemma UndefinedOperationName<V>(src: Source, variables: Option<V>, stringify: V -> string)
    ensures var r := Call(NanoGql(src), variables, stringify);
      r.operationName.Undefined? ==>
        exists i: nat ::
          && OpName.LeftmostAt(r.query, i)
          && OpName.KeywordAt(r.query, i)
          && (i + |OpName.Keyword| == |r.query| || !OpName.IsNameChar(r.query[i + |OpName.Keyword|]))
  {
    var b := NanoGql(src);
    OpName.ExecIsLeftmostRegexMatch(b.query);
    var r := Call(b, variables, stringify);
    if r.operationName.Undefined? {
      var i := b.name.value.index;
      assert OpName.LeftmostAt(r.query, i);
    }
  }

  // ---------------------------------------------------------------------------
  // taggify
  // ---------------------------------------------------------------------------

  /** A substitution of the template: a string, or an array of strings. */
  datatype Substitution = Str(s: string) | Arr(items: seq<string>)

  /** The template object a tag receives first: cooked segments and their `raw` form. */
  datatype TemplateStrings = TemplateStrings(cooked: seq<string>, raw: seq<string>)

  /** What a substitution contributes: a string verbatim, an array joined with the empty separator. */
  function SubstitutionText(arg: Substitution): string {
    match arg
    case Str(s) => s
    case Arr(items) => Flatten(items)
  }

  function Texts(subs: seq<Substitution>): (t: seq<string>)
    ensures |t| == |subs|
    ensures forall k | 0 <= k < |subs| :: t[k] == SubstitutionText(subs[k])
  {
    seq(|subs|, k requires 0 <= k < |subs| => SubstitutionText(subs[k]))
  }

  /** `raw[0] + subs[0] + raw[1] + ... + subs[n-1] + raw[n]`. */
  function Interleave(raw: seq<string>, subs: seq<string>): string
    requires |raw| == |subs| + 1
    decreases |subs|
  {
    if subs == [] then raw[0] else raw[0] + subs[0] + Interleave(raw[1..], subs[1..])
  }

  /** Splicing from segment `i` on: one segment and one substitution, then the rest. */
  lemma InterleaveFrom(raw: seq<string>, subs: seq<string>, i: nat)
    requires |raw| == |subs| + 1 && i <= |subs|
    ensures i < |subs| ==>
      Interleave(raw[i..], subs[i..]) == raw[i] + subs[i] + Interleave(raw[i + 1..], subs[i + 1..])
    ensures i == |subs| ==> Interleave(raw[i..], subs[i..]) == raw[i]
  {
  }

  /** The spliced string is as long as all segments and all substitutions together. */
  lemma {:induction false} InterleaveLength(raw: seq<string>, subs: seq<string>)
    requires |raw| == |subs| + 1
    ensures |Interleave(raw, subs)| == TotalLength(raw) + TotalLength(subs)
    decreases |subs|
  {
    if subs != [] {
      InterleaveLength(raw[1..], subs[1..]);
    } else {
      assert raw[1..] == [];
    }
  }

  /** The first segment opens the spliced string and the last one closes it, verbatim. */
  lemma {:induction false} InterleaveKeepsEnds(raw: seq<string>, subs: seq<string>)
    requires |raw| == |subs| + 1
    ensures var r := Interleave(raw, subs);
      && |raw[0]| <= |r| && r[..|raw[0]|] == raw[0]
      && |raw[|subs|]| <= |r| && r[|r| - |raw[|subs|]|..] == raw[|subs|]
    decreases |subs|
  {
    if subs != [] {
      InterleaveKeepsEnds(raw[1..], subs[1..]);
      var rest := Interleave(raw[1..], subs[1..]);
      var last := raw[|subs|];
      assert raw[1..][|subs| - 1] == last;
      var r := raw[0] + subs[0] + rest;
      assert r[|r| - |last|..] == rest[|rest| - |last|..];
    }
  }

  /**
    `taggify(strings, ...args)`, the tag function: each substitution is
    appended after its raw segment, the last raw segment closes the string, and
    the result is handed to `nanogql`. A tagged template always passes one raw
    segment more than it passes substitutions.
   */
  method Taggify(strings: TemplateStrings, args: seq<Substitution>) returns (b: Builder)
    requires |strings.raw| == |args| + 1
    ensures b.query == Interleave(strings.raw, Texts(args))
    ensures |b.query| == TotalLength(strings.raw) + TotalLength(Texts(args))
    ensures args == [] ==> b.query == strings.raw[0]
    ensures b == NanoGql(Text(b.query))
  {
    var raw := strings.raw;
    var result := "";
    ghost var texts := Texts(args);
    for i := 0 to |args|
      invariant result + Interleave(raw[i..], texts[i..]) == Interleave(raw, texts)
    {
      // applySubstitutions(arg, i)
      var lit := raw[i];
      var arg := SubstitutionText(args[i]);
      InterleaveFrom(raw, texts, i);
      result := result + (lit + arg);
    }
    InterleaveFrom(raw, texts, |args|);
    result := result + raw[|raw| - 1];
    InterleaveLength(raw, texts);
    b := NanoGql(Text(result));
  }
}
