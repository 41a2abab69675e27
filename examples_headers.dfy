/**
  What the operation-name pattern makes of operation headers of the four kinds
  used in the repository's test file (with shorter argument lists): a named
  query with arguments gets its name, while a mutation, a query without
  arguments and `query(` without a space get no `operationName` key at all.
 */
module HeaderExamples {
  import opened Wrappers
  import opened OpName
  import NanoGql

  /** No character of `s` ends a line. */
  predicate SingleLine(s: string) {
    '\n' !in s && '\r' !in s && '\U{2028}' !in s && '\U{2029}' !in s
  }

  /** Without a `q` the keyword occurs nowhere, so nothing matches. */
  lemma NoKeywordNoMatch(s: string)
    requires 'q' !in s
    ensures Exec(s).None?
  {
    forall k: nat | k + |Keyword| <= |s| ensures !KeywordAt(s, k) {
      assert s[k..k + |Keyword|][0] == s[k];
      assert s[k] in s;
    }
  }

  /** When the only `q` is the first character, `exec` reports a match at 0 or none at all. */
  lemma OnlyCandidateAtStart(s: string)
    requires |s| >= 1 && 'q' !in s[1..]
    ensures Exec(s) == if MatchesAt(s, 0) then Some(Match(0, GroupAt(s, 0))) else None
  {
    forall k: nat | 1 <= k ensures !KeywordAt(s, k) {
      if k + |Keyword| <= |s| {
        assert s[1..][k - 1] == s[k];
        assert s[k..k + |Keyword|][0] == s[k];
      }
    }
  }

  /** A one-line string that ends with ` {` satisfies `.*?\)? \{` from any earlier position. */
  lemma BraceEndsLine(s: string, q: nat)
    requires q + 2 <= |s| && s[|s| - 2..] == " {" && SingleLine(s)
    ensures BraceOnLine(s, q)
  {
    var j := |s| - 2;
    assert s[|s| - 2..][0] == s[j];
    assert s[|s| - 2..][1] == s[j + 1];
    forall k | q <= k < j ensures !IsLineTerminator(s[k]) {
      assert s[k] in s;
    }
    BraceOnLineFrom(s, q, j);
  }

  lemma NamedHeaderName(s: string)
    requires s == "query foo ($n: Int!) {"
    ensures KeywordAt(s, 0) && NameEnd(s, 0) == 9 && GroupAt(s, 0) == Some("foo")
    ensures s[9] == ' ' && s[10] == '('
  {
    assert s[..6] == Keyword;
    assert s[9] == ' ';
    assert NameRun(s, 9) == 0;
    assert NameRun(s, 6) == 3;
    assert s[6] == 'f' && s[7] == 'o' && s[8] == 'o';
    assert s[6..9] == "foo";
  }

  lemma NamedHeaderBrace(s: string)
    requires s == "query foo ($n: Int!) {"
    ensures BraceOnLine(s, 11)
  {
    assert SingleLine(s);
    assert s[|s| - 2..] == " {";
    BraceEndsLine(s, 11);
  }

  /** A named query with arguments: the name is `foo`. */
  lemma NamedQueryHeader(s: string)
    requires s == "query foo ($n: Int!) {"
    ensures Exec(s) == Some(Match(0, Some("foo")))
  {
    OnlyCandidateAtStart(s);
    NamedHeaderName(s);
    NamedHeaderBrace(s);
  }

  /** A query without arguments: no `(` follows the name, so there is no match. */
  lemma ArgumentlessQueryHeader(s: string)
    requires s == "query foo {"
    ensures Exec(s).None?
  {
  }

  /** `query(` without a space never contains the keyword `query `. */
  lemma UnspacedQueryHeader(s: string)
    requires s == "query($n: Int!) {"
    ensures Exec(s).None?
  {
  }

  /** A mutation header has no `query ` in it. */
  lemma MutationHeader(s: string)
    requires s == "mutation CreateSomethingBig($input: Idea!) {"
    ensures Exec(s).None?
  {
    NoKeywordNoMatch(s);
  }

  /** The requests built for these headers: a name for the first, no key for the others. */
  lemma HeaderRequests<V>(variables: Option<V>, stringify: V -> string)
    ensures NanoGql.Call(NanoGql.NanoGql(NanoGql.Text("query foo ($n: Int!) {")), variables, stringify)
              .operationName == NanoGql.Defined("foo")
    ensures NanoGql.Call(NanoGql.NanoGql(NanoGql.Text("query foo {")), variables, stringify)
              .operationName == NanoGql.Absent
    ensures NanoGql.Call(NanoGql.NanoGql(NanoGql.Text("query($n: Int!) {")), variables, stringify)
              .operationName == NanoGql.Absent
    ensures NanoGql.Call(NanoGql.NanoGql(NanoGql.Text("mutation CreateSomethingBig($input: Idea!) {")), variables, stringify)
              .operationName == NanoGql.Absent
  {
    NamedQueryHeader("query foo ($n: Int!) {");
    ArgumentlessQueryHeader("query foo {");
    UnspacedQueryHeader("query($n: Int!) {");
    MutationHeader("mutation CreateSomethingBig($input: Idea!) {");
  }
}
