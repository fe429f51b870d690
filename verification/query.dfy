/**
 * Query preparation in the entity search handler (src/tool_handlers.py):
 * the value sanitiser applied to free-text search terms, and the test that
 * decides whether a query is already structured (SQL-like) and is passed
 * through untouched. The regular expressions of the test are written out as
 * predicates over the query's characters.
 */
module Query {
  import opened Strings

  // ---------------------------------------------------------------------
  // Sanitiser
  // ---------------------------------------------------------------------

  /** `_sanitize_query_value`: double every quote, then drop every `--`,
      then drop every `;`. */
  function Sanitize(v: string): string {
    Replace(Replace(Replace(v, "'", "''"), "--", ""), ";", "")
  }

  /** The text after the second step, before the `;` removal. */
  function SanitizeUpToDashes(v: string): string {
    Replace(Replace(v, "'", "''"), "--", "")
  }

  /** No two adjacent characters of `t` are both `c`. */
  predicate NoDouble(t: string, c: char) {
    forall i :: 0 <= i < |t| - 1 ==> !(t[i] == c && t[i + 1] == c)
  }

  /** Every quote of `t` is half of an adjacent pair `''`, so inside a
      quoted literal the text cannot close it. */
  predicate QuotesPaired(t: string)
    decreases |t|
  {
    if |t| == 0 then true
    else if t[0] != '\'' then QuotesPaired(t[1..])
    else |t| >= 2 && t[1] == '\'' && QuotesPaired(t[2..])
  }

  lemma {:induction false} CountDoubled(s: string, c: char)
    ensures Count(Replace(s, [c], [c, c]), c) == 2 * Count(s, c)
    decreases |s|
  {
    if |s| > 0 {
      CountDoubled(s[1..], c);
      if s[..1] == [c] {
        CountAppend([c, c], Replace(s[1..], [c], [c, c]), c);
      } else {
        CountAppend([s[0]], Replace(s[1..], [c], [c, c]), c);
      }
    }
  }

  /** Deleting a pattern that does not contain `c` keeps the count of `c`. */
  lemma {:induction false} CountDeleted(s: string, pat: string, c: char)
    requires |pat| > 0 && c !in pat
    ensures Count(Replace(s, pat, ""), c) == Count(s, c)
    decreases |s|
  {
    if |s| >= |pat| {
      if s[..|pat|] == pat {
        CountDeleted(s[|pat|..], pat, c);
        assert Replace(s, pat, "") == Replace(s[|pat|..], pat, "");
        assert s == pat + s[|pat|..];
        CountAppend(pat, s[|pat|..], c);
        CountAbsent(pat, c);
      } else {
        CountDeleted(s[1..], pat, c);
        CountAppend([s[0]], Replace(s[1..], pat, ""), c);
        assert s == [s[0]] + s[1..];
        CountAppend([s[0]], s[1..], c);
      }
    }
  }

  lemma {:induction false} CountAbsent(s: string, c: char)
    requires c !in s
    ensures Count(s, c) == 0
  {
    if |s| > 0 {
      CountAbsent(s[1..], c);
    }
  }

  /** Deleting a one-character pattern leaves none of that character. */
  lemma {:induction false} DeletedCharAbsent(s: string, c: char)
    ensures c !in Replace(s, [c], "")
    decreases |s|
  {
    if |s| > 0 {
      DeletedCharAbsent(s[1..], c);
    }
  }

  /** The first character survives a deletion when no match starts there. */
  lemma ReplaceKeepsHead(t: string, pat: string)
    requires |pat| > 0 && |t| > 0 && t[0] != pat[0]
    ensures |Replace(t, pat, "")| > 0 && Replace(t, pat, "")[0] == t[0]
  {
  }

  /** Deleting every `cc` leaves no `cc`. */
  lemma {:induction false} DeletedPairAbsent(s: string, c: char)
    ensures NoDouble(Replace(s, [c, c], ""), c)
    decreases |s|
  {
    var r := Replace(s, [c, c], "");
    if |s| >= 2 {
      if s[..2] == [c, c] {
        DeletedPairAbsent(s[2..], c);
      } else {
        var rest := Replace(s[1..], [c, c], "");
        DeletedPairAbsent(s[1..], c);
        assert r == [s[0]] + rest;
        if s[0] == c {
          assert s[1] != c by { assert s[..2] == [s[0], s[1]]; }
          ReplaceKeepsHead(s[1..], [c, c]);
        }
        forall i | 0 <= i < |r| - 1 ensures !(r[i] == c && r[i + 1] == c) {
          if i > 0 {
            assert r[i] == rest[i - 1] && r[i + 1] == rest[i];
          }
        }
      }
    }
  }

  lemma {:induction false} DoubledQuotesPaired(s: string)
    ensures QuotesPaired(Replace(s, "'", "''"))
    decreases |s|
  {
    if |s| > 0 {
      DoubledQuotesPaired(s[1..]);
      var rest := Replace(s[1..], "'", "''");
      if s[..1] == "'" {
        assert Replace(s, "'", "''") == "''" + rest;
        assert ("''" + rest)[2..] == rest;
      } else {
        assert Replace(s, "'", "''") == [s[0]] + rest;
        assert ([s[0]] + rest)[1..] == rest;
      }
    }
  }

  lemma {:induction false} QuotesPairedSuffix(t: string, n: nat)
    requires QuotesPaired(t) && n <= |t|
    requires forall i :: 0 <= i < n ==> t[i] != '\''
    ensures QuotesPaired(t[n..])
  {
    if n > 0 {
      QuotesPairedSuffix(t[1..], n - 1);
      assert t[1..][n - 1..] == t[n..];
    }
  }

  /** Deleting a quote-free pattern keeps quotes paired. */
  lemma {:induction false} DeletionKeepsQuotesPaired(t: string, pat: string)
    requires |pat| > 0 && '\'' !in pat
    requires QuotesPaired(t)
    ensures QuotesPaired(Replace(t, pat, ""))
    decreases |t|
  {
    var r := Replace(t, pat, "");
    if |t| >= |pat| {
      if t[..|pat|] == pat {
        assert forall i :: 0 <= i < |pat| ==> t[i] == pat[i];
        QuotesPairedSuffix(t, |pat|);
        DeletionKeepsQuotesPaired(t[|pat|..], pat);
        assert r == Replace(t[|pat|..], pat, "");
      } else if t[0] != '\'' {
        DeletionKeepsQuotesPaired(t[1..], pat);
        assert r == [t[0]] + Replace(t[1..], pat, "");
        assert r[1..] == Replace(t[1..], pat, "");
      } else {
        assert pat[0] != '\'' by { assert pat[0] in pat; }
        var u := t[1..];
        assert u[0] == '\'' && u[1..] == t[2..];
        DeletionKeepsQuotesPaired(t[2..], pat);
        var rest := Replace(t[2..], pat, "");
        assert Replace(u, pat, "") == [u[0]] + rest by {
          assert |u| < |pat| || u[..|pat|] != pat by {
            if |u| >= |pat| { assert u[..|pat|][0] == '\''; }
          }
        }
        assert r == "''" + rest;
        assert r[2..] == rest;
      }
    } else {
      assert r == t;
    }
  }

  /** The sanitiser exactly doubles the quotes, leaves no `;`, and leaves
      every quote paired, so a sanitised value placed between quotes stays
      one literal. */
  lemma SanitizeProperties(v: string)
    ensures Count(Sanitize(v), '\'') == 2 * Count(v, '\'')
    ensures ';' !in Sanitize(v)
    ensures QuotesPaired(Sanitize(v))
  {
    var s1 := Replace(v, "'", "''");
    var s2 := Replace(s1, "--", "");
    CountDoubled(v, '\'');
    CountDeleted(s1, "--", '\'');
    CountDeleted(s2, ";", '\'');
    DeletedCharAbsent(s2, ';');
    DoubledQuotesPaired(v);
    DeletionKeepsQuotesPaired(s1, "--");
    DeletionKeepsQuotesPaired(s2, ";");
  }

  /** Right after the `--` removal step no `--` is left. */
  lemma NoDashPairAfterSecondStep(v: string)
    ensures NoDouble(SanitizeUpToDashes(v), '-')
  {
    DeletedPairAbsent(Replace(v, "'", "''"), '-');
  }

  /** ...but the `;` removal that follows can join two dashes again. */
  lemma SemicolonRemovalRejoinsDashes()
    ensures Sanitize("-;-") == "--"
    ensures !NoDouble(Sanitize("-;-"), '-')
  {
    assert Replace("-;-", "'", "''") == "-;-";
    assert Replace("-;-", "--", "") == "-;-";
    assert Replace("-;-", ";", "") == "--";
  }

  /** A value with no quote, `;` or `--` passes through unchanged. */
  lemma {:induction false} SanitizeKeepsCleanValue(v: string)
    requires '\'' !in v && ';' !in v && NoDouble(v, '-')
    ensures Sanitize(v) == v
  {
    ReplaceAbsentChar(v, '\'', "''");
    ReplaceNoPair(v, '-');
    ReplaceAbsentChar(v, ';', "");
  }

  lemma {:induction false} ReplaceAbsentChar(s: string, c: char, rep: string)
    requires c !in s
    ensures Replace(s, [c], rep) == s
    decreases |s|
  {
    if |s| > 0 {
      ReplaceAbsentChar(s[1..], c, rep);
      assert s[..1] == [s[0]];
      assert s == [s[0]] + s[1..];
    }
  }

  lemma {:induction false} ReplaceNoPair(s: string, c: char)
    requires NoDouble(s, c)
    ensures Replace(s, [c, c], "") == s
    decreases |s|
  {
    if |s| >= 2 {
      assert s[..2] == [s[0], s[1]];
      assert NoDouble(s[1..], c) by {
        forall i | 0 <= i < |s[1..]| - 1 ensures !(s[1..][i] == c && s[1..][i + 1] == c) {
          assert s[1..][i] == s[i + 1] && s[1..][i + 1] == s[i + 2];
        }
      }
      ReplaceNoPair(s[1..], c);
      assert s == [s[0]] + s[1..];
    }
  }

  // ---------------------------------------------------------------------
  // Structured-query detection
  // ---------------------------------------------------------------------

  /** `\b` before a word character at `i`: nothing word-like precedes it. */
  predicate WordStart(s: string, i: int) {
    0 <= i <= |s| && (i == 0 || !IsWordChar(s[i - 1]))
  }

  /** `\b` after a word character ending at `j`. */
  predicate WordEnd(s: string, j: int) {
    0 <= j <= |s| && (j == |s| || !IsWordChar(s[j]))
  }

  /** Case-insensitive match of one character against a lower-case ASCII
      letter, as the regex engine's IGNORECASE does it: the upper-case
      letter, and the non-ASCII letters whose case mapping lands on `i`,
      `s` or `k`. */
  predicate CaselessChar(c: char, w: char) {
    || c == w
    || ('a' <= w <= 'z' && c as int == w as int - 32)
    || (w == 'i' && (c == '\U{130}' || c == '\U{131}'))
    || (w == 's' && c == '\U{17f}')
    || (w == 'k' && c == '\U{212a}')
  }

  predicate CaselessAt(s: string, w: string, i: int) {
    0 <= i && i + |w| <= |s| && forall t :: 0 <= t < |w| ==> CaselessChar(s[i + t], w[t])
  }

  /** `\bW\b` matches at `i`, ignoring case. */
  predicate KeywordAt(s: string, w: string, i: int) {
    WordStart(s, i) && CaselessAt(s, w, i) && WordEnd(s, i + |w|)
  }

  predicate HasKeyword(s: string, w: string) {
    exists i :: 0 <= i <= |s| && KeywordAt(s, w, i)
  }

  /** `\bIS\b\s+\bNULL\b` matches at `i` with the spaces ending at `k`. */
  predicate IsNullAt(s: string, i: int, k: int) {
    && WordStart(s, i) && CaselessAt(s, "is", i)
    && i + 2 < k && k <= |s|
    && (forall t :: i + 2 <= t < k ==> IsSpace(s[t]))
    && CaselessAt(s, "null", k) && WordEnd(s, k + 4)
  }

  predicate IsComparisonChar(c: char) {
    c == '=' || c == '<' || c == '>' || c == '!'
  }

  /** `\b\w+\s*[=<>!]+\s*` matches with the word at `i..j`, spaces at
      `j..k` and the first operator character at `k`. */
  predicate ComparisonAt(s: string, i: int, j: int, k: int) {
    && WordStart(s, i) && 0 <= i < j <= k < |s|
    && (forall t :: i <= t < j ==> IsWordChar(s[t]))
    && (forall t :: j <= t < k ==> IsSpace(s[t]))
    && IsComparisonChar(s[k])
  }

  predicate HasComparison(s: string) {
    exists i, j, k | 0 <= i < j <= k < |s| :: ComparisonAt(s, i, j, k)
  }

  /** `_is_structured_query`: any of the eight patterns is found. */
  predicate IsStructured(s: string) {
    || HasComparison(s)
    || HasKeyword(s, "and") || HasKeyword(s, "or")
    || HasKeyword(s, "like") || HasKeyword(s, "in")
    || HasKeyword(s, "not") || HasKeyword(s, "between")
    || (exists i, k | 0 <= i < k <= |s| :: IsNullAt(s, i, k))
  }

  /** Reference reading of the comparison pattern: some operator character
      follows a word character, with only whitespace between. The `\b` and
      the length of the word add nothing. */
  predicate OperatorAfterWord(s: string) {
    exists w, k :: 0 <= w < k < |s| && IsWordChar(s[w])
      && (forall t :: w < t < k ==> IsSpace(s[t])) && IsComparisonChar(s[k])
  }

  /** From a word character, walking left to the start of its word. */
  lemma {:induction false} WordStartBefore(s: string, j: int) returns (i: int)
    requires 0 < j <= |s| && IsWordChar(s[j - 1])
    ensures 0 <= i < j && WordStart(s, i)
    ensures forall t :: i <= t < j ==> IsWordChar(s[t])
    decreases j
  {
    if j - 1 == 0 || !IsWordChar(s[j - 2]) {
      i := j - 1;
    } else {
      i := WordStartBefore(s, j - 1);
    }
  }

  lemma HasComparisonIff(s: string)
    ensures HasComparison(s) <==> OperatorAfterWord(s)
  {
    if OperatorAfterWord(s) {
      var w, k :| 0 <= w < k < |s| && IsWordChar(s[w])
        && (forall t :: w < t < k ==> IsSpace(s[t])) && IsComparisonChar(s[k]);
      var i := WordStartBefore(s, w + 1);
      assert ComparisonAt(s, i, w + 1, k);
    }
    if HasComparison(s) {
      var i, j, k :| 0 <= i < j <= k < |s| && ComparisonAt(s, i, j, k);
      var w := j - 1;
      assert IsWordChar(s[w]);
      assert forall t :: w < t < k ==> IsSpace(s[t]);
    }
  }

  /** In a string of word characters a word starts only at its ends. */
  lemma WordStartsOfWord(s: string, i: int)
    requires forall t :: 0 <= t < |s| ==> IsWordChar(s[t])
    requires WordStart(s, i)
    ensures i == 0 || i == |s|
  {
    if 0 < i < |s| {
      assert IsWordChar(s[i - 1]);
    }
  }

  /** A keyword match in a single word must be the whole word from its start. */
  lemma KeywordInWord(s: string, w: string, i: int)
    requires forall t :: 0 <= t < |s| ==> IsWordChar(s[t])
    requires |w| > 0 && KeywordAt(s, w, i)
    ensures i == 0 && CaselessChar(s[0], w[0])
  {
    WordStartsOfWord(s, i);
  }

  /** A single word is free of a keyword that does not start with its first letter. */
  lemma NoKeywordInWord(s: string, w: string)
    requires |s| > 0 && forall t :: 0 <= t < |s| ==> IsWordChar(s[t])
    requires |w| > 0 && !CaselessChar(s[0], w[0])
    ensures !HasKeyword(s, w)
    ensures w == "is" ==> forall i, k :: !IsNullAt(s, i, k)
  {
    forall i | 0 <= i <= |s| ensures !KeywordAt(s, w, i) {
      if KeywordAt(s, w, i) {
        KeywordInWord(s, w, i);
      }
    }
    if w == "is" {
      forall i, k ensures !IsNullAt(s, i, k) {
        if IsNullAt(s, i, k) {
          WordStartsOfWord(s, i);
        }
      }
    }
  }

  /** In a string of word characters a keyword match spans the whole string. */
  lemma KeywordIsWholeWord(s: string, w: string, i: int)
    requires forall t :: 0 <= t < |s| ==> IsWordChar(s[t])
    requires |w| > 0 && KeywordAt(s, w, i)
    ensures i == 0 && |w| == |s|
  {
    KeywordInWord(s, w, i);
  }

  /** A single word is free of every keyword of another length, and a word
      of more than two letters holds no `IS NULL`. */
  lemma NoKeywordOfOtherLength(s: string, w: string)
    requires forall t :: 0 <= t < |s| ==> IsWordChar(s[t]) && !IsSpace(s[t])
    requires |w| > 0 && |w| != |s|
    ensures !HasKeyword(s, w)
    ensures |s| > 2 ==> forall i, k :: !IsNullAt(s, i, k)
  {
    forall i | 0 <= i <= |s| ensures !KeywordAt(s, w, i) {
      if KeywordAt(s, w, i) {
        KeywordIsWholeWord(s, w, i);
      }
    }
    if |s| > 2 {
      forall i, k ensures !IsNullAt(s, i, k) {
        if WordStart(s, i) {
          WordStartsOfWord(s, i);
        }
        assert !IsSpace(s[2]);
      }
    }
  }

  /** A word with an accented letter is one word: "Inés" holds no `IN`,
      and an accented field name can be compared. */
  lemma AccentedWords()
    ensures !IsStructured("In\U{e9}s")
    ensures IsStructured("\U{e9}=1")
  {
    var s := "In\U{e9}s";
    assert forall t :: 0 <= t < |s| ==> IsWordChar(s[t]) && !IsSpace(s[t]);
    assert !HasComparison(s) by {
      HasComparisonIff(s);
      assert forall k :: 0 <= k < |s| ==> !IsComparisonChar(s[k]);
    }
    NoKeywordOfOtherLength(s, "and");
    NoKeywordOfOtherLength(s, "or");
    NoKeywordInWord(s, "like");
    NoKeywordOfOtherLength(s, "in");
    NoKeywordOfOtherLength(s, "not");
    NoKeywordOfOtherLength(s, "between");
    assert ComparisonAt("\U{e9}=1", 0, 1, 1);
  }

  /** A field comparison and a lower-case keyword are both detected. */
  lemma StructuredExamples()
    ensures IsStructured("status='Active'")
    ensures IsStructured("a and b")
  {
    assert ComparisonAt("status='Active'", 0, 6, 6);
    assert KeywordAt("a and b", "and", 2);
  }

  /** A plain word is free text. */
  lemma PlainWordNotStructured()
    ensures !IsStructured("smith")
  {
    var s := "smith";
    assert forall t :: 0 <= t < |s| ==> IsWordChar(s[t]);
    assert !HasComparison(s) by {
      HasComparisonIff(s);
      assert forall k :: 0 <= k < |s| ==> !IsComparisonChar(s[k]);
    }
    NoKeywordInWord(s, "and");
    NoKeywordInWord(s, "or");
    NoKeywordInWord(s, "like");
    NoKeywordInWord(s, "in");
    NoKeywordInWord(s, "not");
    NoKeywordInWord(s, "between");
    NoKeywordInWord(s, "is");
  }
}
