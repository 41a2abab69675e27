/**
  The operation-name pattern of index.js:3,

      /query ([\w\d-_]+)? ?\(.*?\)? \{/

  written as a hand-made matcher over strings (`Exec`, the counterpart of
  `RegExp.prototype.exec` for this one pattern), together with a declarative
  description of the strings the pattern accepts (`Parse`), which reads off the
  pattern item by item. The lemmas prove that the matcher finds exactly the
  leftmost position where some parse exists, and that every parse at a position
  captures the same group 1, so the matcher's capture is the one `exec` reports.
 */
module OpName {
  import opened Wrappers

  /** The literal that opens the pattern. */
  const Keyword: string := "query "

  /** `[\w\d-_]`: ASCII letters, digits, underscore and hyphen (`\d` adds nothing to `\w`). */
  predicate IsNameChar(c: char) {
    || ('a' <= c <= 'z')
    || ('A' <= c <= 'Z')
    || ('0' <= c <= '9')
    || c == '_'
    || c == '-'
  }

  /** The characters that `.` does not match without the `s` flag. */
  predicate IsLineTerminator(c: char) {
    c == '\n' || c == '\r' || c as int == 0x2028 || c as int == 0x2029
  }

  predicate KeywordAt(s: string, i: nat) {
    i + |Keyword| <= |s| && s[i..i + |Keyword|] == Keyword
  }

  /** The length of the longest run of name characters starting at `p`. */
  function NameRun(s: string, p: nat): (n: nat)
    requires p <= |s|
    decreases |s| - p
    ensures p + n <= |s|
    ensures forall k | p <= k < p + n :: IsNameChar(s[k])
    ensures p + n == |s| || !IsNameChar(s[p + n])
  {
    if p < |s| && IsNameChar(s[p]) then 1 + NameRun(s, p + 1) else 0
  }

  /**
    `.*?\)? \{` from position `q`: a space followed by `{` occurs at or after
    `q` with no line terminator in between (the optional `)` is also matched by
    `.`, so it does not change which strings are accepted).
   */
  predicate BraceOnLine(s: string, q: nat)
    decreases |s| - q
  {
    if q + 2 <= |s| && s[q] == ' ' && s[q + 1] == '{' then true
    else if q < |s| && !IsLineTerminator(s[q]) then BraceOnLine(s, q + 1)
    else false
  }

  /** The position just after the (possibly empty) maximal name run that follows the keyword at `i`. */
  function NameEnd(s: string, i: nat): nat
    requires KeywordAt(s, i)
  {
    i + |Keyword| + NameRun(s, i + |Keyword|)
  }

  /** The deterministic matcher: does the pattern match starting at position `i`? */
  predicate MatchesAt(s: string, i: nat) {
    && KeywordAt(s, i)
    && var b := NameEnd(s, i);
       if b < |s| && s[b] == '(' then BraceOnLine(s, b + 1)
       else b + 1 < |s| && s[b] == ' ' && s[b + 1] == '(' && BraceOnLine(s, b + 2)
  }

  /** Group 1 of a match at `i`: the maximal name run, or undefined when that run is empty. */
  function GroupAt(s: string, i: nat): Option<string>
    requires KeywordAt(s, i)
  {
    var a := i + |Keyword|;
    var n := NameRun(s, a);
    if n == 0 then None else Some(s[a..a + n])
  }

  /** What `exec` reports: the index of the match and its group 1. */
  datatype Match = Match(index: nat, group: Option<string>)

  /** `w` is a non-empty name that sits right after the keyword found at `i`. */
  predicate NameAfterKeyword(s: string, i: nat, w: string) {
    && KeywordAt(s, i)
    && |w| >= 1
    && (forall k | 0 <= k < |w| :: IsNameChar(w[k]))
    && i + |Keyword| + |w| <= |s|
    && s[i + |Keyword|..i + |Keyword| + |w|] == w
  }

  /** The scan of `exec` from position `i` onward: the first position where the pattern matches. */
  function ExecFrom(s: string, i: nat): (m: Option<Match>)
    requires i <= |s|
    decreases |s| - i
    ensures m.Some? ==>
      && i <= m.value.index
      && MatchesAt(s, m.value.index)
      && m.value.group == GroupAt(s, m.value.index)
      && forall k | i <= k < m.value.index :: !MatchesAt(s, k)
    ensures m.None? ==> forall k: nat | i <= k :: !MatchesAt(s, k)
  {
    if |s| < i + |Keyword| then None
    else if MatchesAt(s, i) then Some(Match(i, GroupAt(s, i)))
    else ExecFrom(s, i + 1)
  }

  /** `getOpname.exec(s)`: the leftmost match, with group 1 a well-formed name right after the keyword. */
  function Exec(s: string): (m: Option<Match>)
    ensures m.Some? ==>
      && MatchesAt(s, m.value.index)
      && (forall k: nat | k < m.value.index :: !MatchesAt(s, k))
      && m.value.group == GroupAt(s, m.value.index)
    ensures m.Some? && m.value.group.Some? ==> NameAfterKeyword(s, m.value.index, m.value.group.value)
    ensures m.Some? && m.value.group.None? ==>
      var a := m.value.index + |Keyword|; a == |s| || !IsNameChar(s[a])
    ensures m.None? ==> forall k: nat :: !MatchesAt(s, k)
  {
    ExecFrom(s, 0)
  }

  // ---------------------------------------------------------------------------
  // The pattern's language, stated item by item
  // ---------------------------------------------------------------------------

  /**
    One way for the pattern to match at `i`: `g` is what the optional group
    `([\w\d-_]+)?` consumed (None when the group is skipped), `sp` the number of
    spaces ` ?` consumed, `j` where `.*?` stops and `cp` the number of `)` that
    `\)?` consumed.
   */
  ghost predicate Parse(s: string, i: nat, g: Option<string>, sp: nat, j: nat, cp: nat) {
    var a := i + |Keyword|;
    var b := a + (if g.Some? then |g.value| else 0);
    var c := b + sp;
    && KeywordAt(s, i)
    && sp <= 1
    && cp <= 1
    && c < |s|
    && c + 1 <= j
    && j + cp + 2 <= |s|
    && (g.Some? ==>
          && |g.value| >= 1
          && (forall k | 0 <= k < |g.value| :: IsNameChar(g.value[k]))
          && s[a..b] == g.value)
    && (sp == 1 ==> s[b] == ' ')
    && s[c] == '('
    && (forall k | c + 1 <= k < j :: !IsLineTerminator(s[k]))
    && (cp == 1 ==> s[j] == ')')
    && s[j + cp] == ' '
    && s[j + cp + 1] == '{'
  }

  ghost predicate RegexMatchesAt(s: string, i: nat) {
    exists g: Option<string>, sp: nat, j: nat, cp: nat :: Parse(s, i, g, sp, j, cp)
  }

  /** `i` is where `exec` reports a match: the pattern matches there and nowhere earlier. */
  ghost predicate LeftmostAt(s: string, i: nat) {
    RegexMatchesAt(s, i) && forall k: nat | k < i :: !RegexMatchesAt(s, k)
  }

  /** Every way of matching at `i` captures the maximal name run, and consumes it whole. */
  lemma ParseCapturesNameRun(s: string, i: nat, g: Option<string>, sp: nat, j: nat, cp: nat)
    requires Parse(s, i, g, sp, j, cp)
    ensures g == GroupAt(s, i)
    ensures NameEnd(s, i) + sp < |s| && s[NameEnd(s, i) + sp] == '('
  {
    // A shorter group would be followed by a name character where ' ' or '(' is needed;
    // a longer one would contain the character that ends the maximal run.
  }

  /** Where `.*?\)? \{` can stop, `BraceOnLine` holds. */
  lemma {:induction false} BraceOnLineFrom(s: string, q: nat, j: nat)
    requires q <= j && j + 2 <= |s|
    requires s[j] == ' ' && s[j + 1] == '{'
    requires forall k | q <= k < j :: !IsLineTerminator(s[k])
    ensures BraceOnLine(s, q)
    decreases j - q
  {
    if q < j && !(s[q] == ' ' && s[q + 1] == '{') {
      BraceOnLineFrom(s, q + 1, j);
    }
  }

  /** When `BraceOnLine` holds, `j` is a place where `.*?` may stop. */
  lemma {:induction false} BraceOnLineWitness(s: string, q: nat) returns (j: nat)
    requires BraceOnLine(s, q)
    ensures q <= j && j + 2 <= |s|
    ensures s[j] == ' ' && s[j + 1] == '{'
    ensures forall k | q <= k < j :: !IsLineTerminator(s[k])
    decreases |s| - q
  {
    if q + 2 <= |s| && s[q] == ' ' && s[q + 1] == '{' {
      j := q;
    } else {
      j := BraceOnLineWitness(s, q + 1);
    }
  }

  /** Where the matcher accepts, the pattern has a parse: the maximal name, its space if any, and `.*?` up to ` {`. */
  lemma MatchesAtHasParse(s: string, i: nat)
    requires MatchesAt(s, i)
    ensures RegexMatchesAt(s, i)
  {
    var b := NameEnd(s, i);
    var sp: nat := if b < |s| && s[b] == '(' then 0 else 1;
    var j := BraceOnLineWitness(s, b + sp + 1);
    assert Parse(s, i, GroupAt(s, i), sp, j, 0);
  }

  /** Where the pattern has a parse, the matcher accepts. */
  lemma ParseMatchesAt(s: string, i: nat, g: Option<string>, sp: nat, j: nat, cp: nat)
    requires Parse(s, i, g, sp, j, cp)
    ensures MatchesAt(s, i)
  {
    ParseCapturesNameRun(s, i, g, sp, j, cp);
    var b := NameEnd(s, i);
    var c := b + sp;
    if cp == 1 {
      assert !IsLineTerminator(s[j]);
      BraceOnLineFrom(s, c + 1, j + 1);
    } else {
      BraceOnLineFrom(s, c + 1, j);
    }
    if sp == 1 {
      assert s[b] == ' ';
    }
  }

  /** The deterministic matcher accepts exactly where the pattern has a parse. */
  lemma MatchesAtIffRegex(s: string, i: nat)
    ensures MatchesAt(s, i) <==> RegexMatchesAt(s, i)
  {
    if MatchesAt(s, i) {
      MatchesAtHasParse(s, i);
    }
    if RegexMatchesAt(s, i) {
      var g: Option<string>, sp: nat, j: nat, cp: nat :| Parse(s, i, g, sp, j, cp);
      ParseMatchesAt(s, i, g, sp, j, cp);
    }
  }

  /**
    `Exec` is `exec` for this pattern: it reports a match exactly when the
    pattern matches somewhere, at the leftmost such position, and with the
    group 1 that every parse at that position captures.
   */
  lemma ExecIsLeftmostRegexMatch(s: string)
    ensures Exec(s).Some? <==> exists k: nat :: RegexMatchesAt(s, k)
    ensures Exec(s).Some? ==> LeftmostAt(s, Exec(s).value.index)
    ensures Exec(s).Some? ==>
      forall g: Option<string>, sp: nat, j: nat, cp: nat | Parse(s, Exec(s).value.index, g, sp, j, cp) ::
        g == Exec(s).value.group
  {
    forall k: nat ensures MatchesAt(s, k) <==> RegexMatchesAt(s, k) {
      MatchesAtIffRegex(s, k);
    }
    var m := Exec(s);
    if m.Some? {
      forall g: Option<string>, sp: nat, j: nat, cp: nat | Parse(s, m.value.index, g, sp, j, cp)
        ensures g == m.value.group
      {
        ParseCapturesNameRun(s, m.value.index, g, sp, j, cp);
      }
    }
  }
}
