/**
 * JavaScript string operations as the site uses them: `toLowerCase` and
 * `toUpperCase` (on ASCII letters), the `\s` character class, `split`,
 * `join`, `trim`, `includes`, `replace` of one character, number
 * formatting and the UTF-16 `length`.
 */
module Text {
  import opened Seqs

  function LowerChar(c: char): char
  {
    if 'A' <= c <= 'Z' then (c as int + 32) as char else c
  }

  function UpperChar(c: char): char
  {
    if 'a' <= c <= 'z' then (c as int - 32) as char else c
  }

  /** `s.toLowerCase()` restricted to ASCII letters. */
  function ToLower(s: string): (r: string)
    ensures |r| == |s|
    ensures forall i :: 0 <= i < |s| ==> r[i] == LowerChar(s[i])
  {
    seq(|s|, i requires 0 <= i < |s| => LowerChar(s[i]))
  }

  /** `s.toUpperCase()` restricted to ASCII letters. */
  function ToUpper(s: string): (r: string)
    ensures |r| == |s|
    ensures forall i :: 0 <= i < |s| ==> r[i] == UpperChar(s[i])
  {
    seq(|s|, i requires 0 <= i < |s| => UpperChar(s[i]))
  }

  predicate IsLowerLetter(c: char) { 'a' <= c <= 'z' }

  predicate IsDigit(c: char) { '0' <= c <= '9' }

  /** Lower-casing is idempotent. */
  lemma ToLowerIdempotent(s: string)
    ensures ToLower(ToLower(s)) == ToLower(s)
  {
  }

  /** Case folding forgets the case it started from, in either direction. */
  lemma CaseFoldsAgree(s: string)
    ensures ToUpper(ToLower(s)) == ToUpper(s)
    ensures ToLower(ToUpper(s)) == ToLower(s)
  {
  }

  /**
   * The ECMAScript `\s` class: the WhiteSpace and LineTerminator code
   * points. `String.prototype.trim` strips the same set.
   */
  predicate IsSpace(c: char)
  {
    c == '\t' || c == '\n' || c == '\U{000B}' || c == '\U{000C}' || c == '\r' || c == ' '
    || c == '\U{00A0}' || c == '\U{1680}' || ('\U{2000}' <= c <= '\U{200A}')
    || c == '\U{2028}' || c == '\U{2029}' || c == '\U{202F}' || c == '\U{205F}'
    || c == '\U{3000}' || c == '\U{FEFF}'
  }

  predicate NoSpace(s: string)
  {
    forall i :: 0 <= i < |s| ==> !IsSpace(s[i])
  }

  predicate AllSpace(s: string)
  {
    forall i :: 0 <= i < |s| ==> IsSpace(s[i])
  }

  // ---------------------------------------------------------------------
  // split / join on one character
  // ---------------------------------------------------------------------

  /**
   * `s.split(sep)` for a one-character separator: the pieces between the
   * separators, empty pieces included (`"".split(sep)` is `[""]`).
   */
  function Split(s: string, sep: char): (r: seq<string>)
    ensures |r| >= 1
    decreases |s|
  {
    if |s| == 0 then [""]
    else
      var rest := Split(s[1..], sep);
      if s[0] == sep then [""] + rest
      else [[s[0]] + rest[0]] + rest[1..]
  }

  /** Every character of a piece is a character of the split string. */
  lemma {:induction false} SplitPiecesWithin(s: string, sep: char, k: nat, x: char)
    requires k < |Split(s, sep)| && x in Split(s, sep)[k]
    ensures x in s
    decreases |s|
  {
    if |s| > 0 {
      var rest := Split(s[1..], sep);
      if s[0] == sep {
        if k > 0 {
          SplitPiecesWithin(s[1..], sep, k - 1, x);
        }
      } else if k == 0 {
        if x != s[0] {
          assert x in rest[0];
          SplitPiecesWithin(s[1..], sep, 0, x);
        }
      } else {
        SplitPiecesWithin(s[1..], sep, k, x);
      }
    }
  }

  /** The pieces of a string of whitespace are whitespace. */
  lemma SplitAllSpace(s: string, sep: char)
    requires AllSpace(s)
    ensures forall k :: 0 <= k < |Split(s, sep)| ==> AllSpace(Split(s, sep)[k])
  {
    forall k, i | 0 <= k < |Split(s, sep)| && 0 <= i < |Split(s, sep)[k]|
      ensures IsSpace(Split(s, sep)[k][i])
    {
      SplitPiecesWithin(s, sep, k, Split(s, sep)[k][i]);
    }
  }

  /** `parts.join(sep)`. */
  function Join(parts: seq<string>, sep: string): string
  {
    if |parts| == 0 then ""
    else if |parts| == 1 then parts[0]
    else parts[0] + sep + Join(parts[1..], sep)
  }

  function Occurrences(s: string, c: char): nat
  {
    if |s| == 0 then 0 else (if s[0] == c then 1 else 0) + Occurrences(s[1..], c)
  }

  /**
   * Splitting and joining with the same character are inverse: joining the
   * pieces back gives the original string.
   */
  lemma {:induction false} SplitJoin(s: string, sep: char)
    ensures Join(Split(s, sep), [sep]) == s
    decreases |s|
  {
    if |s| > 0 {
      var rest := Split(s[1..], sep);
      SplitJoin(s[1..], sep);
      if s[0] == sep {
        assert Split(s, sep) == [""] + rest;
        assert ([""] + rest)[1..] == rest;
        assert s == [sep] + s[1..];
      } else {
        var r := Split(s, sep);
        assert r == [[s[0]] + rest[0]] + rest[1..];
        assert r[1..] == rest[1..];
        if |rest| > 1 {
          assert Join(rest, [sep]) == rest[0] + [sep] + Join(rest[1..], [sep]);
        }
        assert s == [s[0]] + s[1..];
      }
    }
  }

  /** There is one more piece than separators, and no piece holds a separator. */
  lemma {:induction false} SplitPieces(s: string, sep: char)
    ensures |Split(s, sep)| == Occurrences(s, sep) + 1
    ensures forall k :: 0 <= k < |Split(s, sep)| ==> sep !in Split(s, sep)[k]
    decreases |s|
  {
    if |s| > 0 {
      var rest := Split(s[1..], sep);
      SplitPieces(s[1..], sep);
      var r := Split(s, sep);
      if s[0] == sep {
        assert r == [""] + rest;
        forall k | 0 <= k < |r| ensures sep !in r[k] {
          if k > 0 {
            assert r[k] == rest[k - 1];
          }
        }
      } else {
        assert r == [[s[0]] + rest[0]] + rest[1..];
        forall k | 0 <= k < |r| ensures sep !in r[k] {
          if k > 0 {
            assert r[k] == rest[k];
          }
        }
      }
    }
  }

  /** `s.replace(/c/g, d)` for single characters `c` and `d`. */
  function ReplaceChar(s: string, c: char, d: char): (r: string)
    ensures |r| == |s|
    ensures forall i :: 0 <= i < |s| ==> r[i] == if s[i] == c then d else s[i]
  {
    seq(|s|, i requires 0 <= i < |s| => if s[i] == c then d else s[i])
  }

  // ---------------------------------------------------------------------
  // words: s.split(/\s+/).filter(w => w.length > 0)
  // ---------------------------------------------------------------------

  /** Length of the longest prefix of `s` free of `\s` characters. */
  function NonSpaceRun(s: string): (n: nat)
    ensures n <= |s|
    ensures NoSpace(s[..n])
    ensures n < |s| ==> IsSpace(s[n])
  {
    if |s| == 0 || IsSpace(s[0]) then 0
    else
      var m := NonSpaceRun(s[1..]);
      assert s[..m + 1] == [s[0]] + s[1..][..m];
      m + 1
  }

  /**
   * `s.split(/\s+/).filter(w => w.length > 0)`: the maximal runs of
   * characters outside `\s`, in order.
   */
  function Words(s: string): (r: seq<string>)
    decreases |s|
  {
    if |s| == 0 then []
    else if IsSpace(s[0]) then Words(s[1..])
    else
      var n := NonSpaceRun(s);
      [s[..n]] + Words(s[n..])
  }

  /** Every word is non-empty and holds no `\s` character. */
  lemma {:induction false} WordsAreRuns(s: string)
    ensures forall k :: 0 <= k < |Words(s)| ==> |Words(s)[k]| > 0 && NoSpace(Words(s)[k])
    decreases |s|
  {
    if |s| > 0 {
      if IsSpace(s[0]) {
        WordsAreRuns(s[1..]);
      } else {
        var n := NonSpaceRun(s);
        WordsAreRuns(s[n..]);
        assert Words(s) == [s[..n]] + Words(s[n..]);
      }
    }
  }

  /** `s` with every `\s` character removed. */
  function WithoutSpaces(s: string): (r: string)
    ensures NoSpace(r)
  {
    if |s| == 0 then ""
    else (if IsSpace(s[0]) then "" else [s[0]]) + WithoutSpaces(s[1..])
  }

  lemma {:induction false} WithoutSpacesAppend(a: string, b: string)
    ensures WithoutSpaces(a + b) == WithoutSpaces(a) + WithoutSpaces(b)
  {
    if |a| > 0 {
      assert (a + b)[1..] == a[1..] + b;
      WithoutSpacesAppend(a[1..], b);
    } else {
      assert a + b == b;
    }
  }

  lemma {:induction false} WithoutSpacesOfNoSpace(s: string)
    requires NoSpace(s)
    ensures WithoutSpaces(s) == s
  {
    if |s| > 0 {
      WithoutSpacesOfNoSpace(s[1..]);
      assert s == [s[0]] + s[1..];
    }
  }

  /**
   * Splitting into words loses exactly the whitespace: the words
   * concatenated are the input with every `\s` character removed.
   */
  lemma {:induction false} WordsCoverText(s: string)
    ensures Flatten(Words(s)) == WithoutSpaces(s)
    decreases |s|
  {
    if |s| > 0 {
      if IsSpace(s[0]) {
        WordsCoverText(s[1..]);
      } else {
        var n := NonSpaceRun(s);
        WordsCoverText(s[n..]);
        SliceSplit(s, n);
        WithoutSpacesAppend(s[..n], s[n..]);
        WithoutSpacesOfNoSpace(s[..n]);
        assert ([s[..n]] + Words(s[n..]))[1..] == Words(s[n..]);
      }
    }
  }

  /** A string has no words exactly when it is all whitespace. */
  lemma {:induction false} WordsEmptyIffBlank(s: string)
    ensures Words(s) == [] <==> AllSpace(s)
    decreases |s|
  {
    if |s| > 0 {
      WordsEmptyIffBlank(s[1..]);
      if IsSpace(s[0]) {
        if AllSpace(s[1..]) {
          forall i | 0 <= i < |s| ensures IsSpace(s[i]) {
            if i > 0 { assert s[i] == s[1..][i - 1]; }
          }
        } else {
          var j :| 0 <= j < |s[1..]| && !IsSpace(s[1..][j]);
          assert !IsSpace(s[j + 1]);
        }
      }
    }
  }

  /**
   * Words depend only on which characters are whitespace and on the
   * non-whitespace characters themselves; exchanging one whitespace
   * character for another changes nothing.
   */
  lemma {:induction false} WordsRespectSpacing(a: string, b: string)
    requires |a| == |b|
    requires forall i :: 0 <= i < |a| ==> IsSpace(a[i]) == IsSpace(b[i])
    requires forall i :: 0 <= i < |a| && !IsSpace(a[i]) ==> a[i] == b[i]
    ensures Words(a) == Words(b)
    decreases |a|
  {
    if |a| > 0 {
      if IsSpace(a[0]) {
        WordsRespectSpacing(a[1..], b[1..]);
      } else {
        var n := NonSpaceRun(a);
        RunRespectsSpacing(a, b);
        assert a[..n] == b[..n];
        WordsRespectSpacing(a[n..], b[n..]);
      }
    }
  }

  lemma {:induction false} RunRespectsSpacing(a: string, b: string)
    requires |a| == |b|
    requires forall i :: 0 <= i < |a| ==> IsSpace(a[i]) == IsSpace(b[i])
    ensures NonSpaceRun(a) == NonSpaceRun(b)
    decreases |a|
  {
    if |a| > 0 && !IsSpace(a[0]) {
      RunRespectsSpacing(a[1..], b[1..]);
    }
  }

  /** Replacing line feeds by spaces leaves the words unchanged. */
  lemma NewlinesToSpacesKeepWords(s: string)
    ensures Words(ReplaceChar(s, '\n', ' ')) == Words(s)
  {
    WordsRespectSpacing(ReplaceChar(s, '\n', ' '), s);
  }

  /**
   * A separator character between two strings splits their words apart:
   * the words of `a + [c] + b` are those of `a` followed by those of `b`.
   */
  lemma {:induction false} WordsAroundSpace(a: string, c: char, b: string)
    requires IsSpace(c)
    ensures Words(a + [c] + b) == Words(a) + Words(b)
    decreases |a|
  {
    var s := a + [c] + b;
    if |a| == 0 {
      assert s == [c] + b;
      WordsSkipSpace([c] + b);
    } else if IsSpace(a[0]) {
      assert s[1..] == a[1..] + [c] + b;
      WordsSkipSpace(s);
      WordsSkipSpace(a);
      WordsAroundSpace(a[1..], c, b);
    } else {
      WordsAroundSpaceRun(a, c, b);
    }
  }

  /** The step of `WordsAroundSpace` where `a` starts with a word. */
  lemma {:induction false} WordsAroundSpaceRun(a: string, c: char, b: string)
    requires IsSpace(c) && |a| > 0 && !IsSpace(a[0])
    ensures Words(a + [c] + b) == Words(a) + Words(b)
    decreases |a|, 0
  {
    var t := [c] + b;
    var n := NonSpaceRun(a);
    assert a + [c] + b == a + t;
    WordsAfterRun(a, t);
    WordsFirstRun(a);
    assert Words(a[n..] + t) == Words(a[n..]) + Words(b) by {
      if n < |a| {
        assert a[n..] + t == a[n..] + [c] + b;
        WordsAroundSpace(a[n..], c, b);
      } else {
        assert a[n..] + t == t;
        WordsSkipSpace(t);
        assert t[1..] == b;
        assert a[n..] == [];
      }
    }
    AppendAssoc([a[..n]], Words(a[n..]), Words(b));
  }

  /** A word at the front of `a` is still the first word once `\s`-led text follows. */
  lemma WordsAfterRun(a: string, t: string)
    requires |a| > 0 && !IsSpace(a[0]) && |t| > 0 && IsSpace(t[0])
    ensures Words(a + t) == [a[..NonSpaceRun(a)]] + Words(a[NonSpaceRun(a)..] + t)
  {
    var n := NonSpaceRun(a);
    RunOfPrefix(a, t);
    WordsFirstRun(a + t);
    assert (a + t)[..n] == a[..n];
    assert (a + t)[n..] == a[n..] + t;
  }

  /** A leading `\s` character starts no word. */
  lemma WordsSkipSpace(s: string)
    requires |s| > 0 && IsSpace(s[0])
    ensures Words(s) == Words(s[1..])
  {
  }

  /** A string starting outside `\s` starts with the run up to the first `\s`. */
  lemma WordsFirstRun(s: string)
    requires |s| > 0 && !IsSpace(s[0])
    ensures Words(s) == [s[..NonSpaceRun(s)]] + Words(s[NonSpaceRun(s)..])
  {
  }

  lemma WordsAtBreak(s: string, i: nat)
    requires i < |s| && IsSpace(s[i])
    ensures Words(s) == Words(s[..i]) + Words(s[i + 1..])
  {
    PivotSplit(s, i);
    WordsAroundSpace(s[..i], s[i], s[i + 1..]);
  }

  lemma {:induction false} RunOfPrefix(a: string, t: string)
    requires |t| > 0 && IsSpace(t[0])
    ensures NonSpaceRun(a + t) == NonSpaceRun(a)
    decreases |a|
  {
    if |a| > 0 && !IsSpace(a[0]) {
      assert (a + t)[1..] == a[1..] + t;
      RunOfPrefix(a[1..], t);
    } else if |a| == 0 {
      assert a + t == t;
    }
  }

  /**
   * The words of a text are the words of its lines, in order: splitting on
   * line feeds and then on whitespace finds the same words as splitting the
   * whole text on whitespace.
   */
  lemma {:induction false} WordsOfLines(s: string)
    ensures Flatten(Map(Words, Split(s, '\n'))) == Words(s)
    decreases |s|
  {
    var i := FirstLineBreak(s);
    SplitAtFirst(s, i);
    if i < |s| {
      WordsOfLines(s[i + 1..]);
      WordsAtBreak(s, i);
      FlattenMapCons(Words, s[..i], Split(s[i + 1..], '\n'));
    } else {
      FlattenMapCons(Words, s, []);
    }
  }

  /** Index of the first line feed; `|s|` when there is none. */
  function FirstLineBreak(s: string): (i: nat)
    ensures i <= |s|
    ensures '\n' !in s[..i]
    ensures i < |s| ==> s[i] == '\n'
  {
    if |s| == 0 then 0
    else if s[0] == '\n' then 0
    else
      var j := FirstLineBreak(s[1..]);
      assert s[..j + 1] == [s[0]] + s[1..][..j];
      j + 1
  }

  lemma {:induction false} SplitAtFirst(s: string, i: nat)
    requires i == FirstLineBreak(s)
    ensures i < |s| ==> Split(s, '\n') == [s[..i]] + Split(s[i + 1..], '\n')
    ensures i == |s| ==> Split(s, '\n') == [s]
    decreases |s|
  {
    if |s| > 0 {
      var rest := Split(s[1..], '\n');
      if s[0] == '\n' {
        assert s[..0] == "";
      } else {
        SplitAtFirst(s[1..], i - 1);
        assert s[..i] == [s[0]] + s[1..][..i - 1];
        if i < |s| {
          assert s[1..][i - 1 + 1..] == s[i + 1..];
          assert rest[0] == s[1..][..i - 1];
          assert rest[1..] == Split(s[i + 1..], '\n');
        } else {
          assert rest == [s[1..]];
          assert s == [s[0]] + s[1..];
        }
      }
    }
  }

  // ---------------------------------------------------------------------
  // trim
  // ---------------------------------------------------------------------

  function TrimStart(s: string): (r: string)
    ensures r <= s || (|r| <= |s| && r == s[|s| - |r|..])
    ensures |r| > 0 ==> !IsSpace(r[0])
    decreases |s|
  {
    if |s| > 0 && IsSpace(s[0]) then TrimStart(s[1..]) else s
  }

  function TrimEnd(s: string): (r: string)
    ensures r <= s
    ensures |r| > 0 ==> !IsSpace(r[|r| - 1])
    decreases |s|
  {
    if |s| > 0 && IsSpace(s[|s| - 1]) then TrimEnd(s[..|s| - 1]) else s
  }

  /** `s.trim()`: `s` without leading and trailing `\s` characters. */
  function Trim(s: string): string
  {
    TrimEnd(TrimStart(s))
  }

  lemma {:induction false} WordsTrimStart(s: string)
    ensures Words(TrimStart(s)) == Words(s)
    decreases |s|
  {
    if |s| > 0 && IsSpace(s[0]) {
      WordsTrimStart(s[1..]);
    }
  }

  lemma {:induction false} WordsTrimEnd(s: string)
    ensures Words(TrimEnd(s)) == Words(s)
    decreases |s|
  {
    if |s| > 0 && IsSpace(s[|s| - 1]) {
      var t := s[..|s| - 1];
      assert TrimEnd(s) == TrimEnd(t);
      WordsTrimEnd(t);
      WordsAroundSpace(t, s[|s| - 1], "");
      LastSplit(s);
      assert Words("") == [];
    }
  }

  /** Trimming never changes the words of a string. */
  lemma WordsOfTrim(s: string)
    ensures Words(Trim(s)) == Words(s)
  {
    WordsTrimStart(s);
    WordsTrimEnd(TrimStart(s));
  }

  /** A string trims to nothing exactly when it has no words. */
  lemma {:induction false} TrimEmptyIffNoWords(s: string)
    ensures Trim(s) == "" <==> Words(s) == []
  {
    WordsOfTrim(s);
    WordsEmptyIffBlank(s);
    WordsEmptyIffBlank(Trim(s));
    var t := Trim(s);
    if |t| > 0 {
      assert !IsSpace(t[|t| - 1]);
    }
  }

  // ---------------------------------------------------------------------
  // includes, numbers, UTF-16 length
  // ---------------------------------------------------------------------

  /** `s.includes(q)`. */
  predicate Contains(s: string, q: string)
  {
    exists i :: 0 <= i <= |s| - |q| && OccursAt(s, q, i)
  }

  predicate OccursAt(s: string, q: string, i: int)
  {
    0 <= i <= |s| - |q| && s[i..i + |q|] == q
  }

  /** Every string includes the empty string and itself. */
  lemma ContainsTrivial(s: string)
    ensures Contains(s, "") && Contains(s, s)
  {
    assert OccursAt(s, "", 0);
    assert OccursAt(s, s, 0);
  }

  function DigitChar(d: nat): char
    requires d < 10
  {
    ('0' as int + d) as char
  }

  /** `String(n)` for a non-negative integer. */
  function NatToString(n: nat): (r: string)
    ensures |r| > 0
    ensures forall i :: 0 <= i < |r| ==> IsDigit(r[i])
  {
    if n < 10 then [DigitChar(n)] else NatToString(n / 10) + [DigitChar(n % 10)]
  }

  function DigitValue(c: char): nat
    requires IsDigit(c)
  {
    c as int - '0' as int
  }

  /** The value of a string of decimal digits. */
  function ParseNat(s: string): nat
    requires forall i :: 0 <= i < |s| ==> IsDigit(s[i])
  {
    if |s| == 0 then 0 else ParseNat(s[..|s| - 1]) * 10 + DigitValue(s[|s| - 1])
  }

  /** Formatting a number and reading it back gives the number. */
  lemma {:induction false} NatToStringRoundTrip(n: nat)
    ensures ParseNat(NatToString(n)) == n
  {
    var r := NatToString(n);
    if n >= 10 {
      NatToStringRoundTrip(n / 10);
      assert r[..|r| - 1] == NatToString(n / 10);
    }
  }

  /** `${n}` for an integer: a minus sign before the digits of a negative number. */
  function IntToString(n: int): (r: string)
    ensures |r| > 0
    ensures r[0] == '-' <==> n < 0
    ensures IsDigit(r[0]) <==> n >= 0
  {
    if n < 0 then "-" + NatToString(-n) else NatToString(n)
  }

  /** `s.length`: code points beyond U+FFFF take two UTF-16 code units. */
  function Utf16Length(s: string): (n: nat)
    ensures |s| <= n <= 2 * |s|
  {
    if |s| == 0 then 0 else (if s[0] as int > 0xFFFF then 2 else 1) + Utf16Length(s[1..])
  }

  /** The length of a concatenation is the sum of the lengths. */
  lemma {:induction false} Utf16LengthAppend(a: string, b: string)
    ensures Utf16Length(a + b) == Utf16Length(a) + Utf16Length(b)
  {
    if |a| > 0 {
      assert (a + b)[1..] == a[1..] + b;
      Utf16LengthAppend(a[1..], b);
    } else {
      assert a + b == b;
    }
  }
}
