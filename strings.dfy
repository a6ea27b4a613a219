/**
 * The few Python `str` operations the pipeline relies on, over `seq<char>`:
 * `strip`/`rstrip` with no argument, `replace`, `split` on a one-character
 * separator, `in` on substrings, `startswith`/`endswith`, `c * n` and the
 * decimal rendering of an `int` inside an f-string.
 */
module Strings {
  import opened Util

  /** Python's `str.isspace()` for a single character. */
  predicate IsSpace(c: char)
  {
    var n := c as int;
    n == 0x20 || (0x09 <= n <= 0x0D) || (0x1C <= n <= 0x1F) || n == 0x85 || n == 0xA0
    || n == 0x1680 || (0x2000 <= n <= 0x200A) || n == 0x2028 || n == 0x2029
    || n == 0x202F || n == 0x205F || n == 0x3000
  }

  /** `s.rstrip()`: drops trailing whitespace. */
  function RStrip(s: string): string
    decreases |s|
  {
    if |s| > 0 && IsSpace(s[|s| - 1]) then RStrip(s[..|s| - 1]) else s
  }

  /** `s.lstrip()`: drops leading whitespace. */
  function LStrip(s: string): string
    decreases |s|
  {
    if |s| > 0 && IsSpace(s[0]) then LStrip(s[1..]) else s
  }

  /** `s.strip()`. */
  function Strip(s: string): string
  {
    LStrip(RStrip(s))
  }

  /** `rstrip` keeps the longest prefix that does not end in whitespace. */
  lemma {:induction false} RStripShape(s: string)
    ensures var r := RStrip(s);
      && r <= s
      && (forall j :: |r| <= j < |s| ==> IsSpace(s[j]))
      && (r != [] ==> !IsSpace(r[|r| - 1]))
    decreases |s|
  {
    if |s| > 0 && IsSpace(s[|s| - 1]) {
      RStripShape(s[..|s| - 1]);
    }
  }

  /** `lstrip` keeps the longest suffix that does not start with whitespace. */
  lemma {:induction false} LStripShape(s: string)
    ensures var r := LStrip(s);
      && |r| <= |s| && r == s[|s| - |r|..]
      && (forall j :: 0 <= j < |s| - |r| ==> IsSpace(s[j]))
      && (r != [] ==> !IsSpace(r[0]))
    decreases |s|
  {
    if |s| > 0 && IsSpace(s[0]) {
      LStripShape(s[1..]);
    }
  }

  /** Stripping both ends leaves nothing exactly when the text is all
      whitespace, which is when stripping the right end leaves nothing, and
      otherwise ends on the same last visible character. */
  lemma StripEnds(s: string)
    ensures Strip(s) == [] <==> forall j :: 0 <= j < |s| ==> IsSpace(s[j])
    ensures Strip(s) == [] <==> RStrip(s) == []
    ensures Strip(s) != [] ==>
      var t := RStrip(s);
      t != [] && Strip(s)[|Strip(s)| - 1] == t[|t| - 1]
  {
    var t := RStrip(s);
    var u := LStrip(t);
    RStripShape(s);
    LStripShape(t);
    if t == [] {
      assert u == [];
    } else {
      assert !IsSpace(t[|t| - 1]);
      assert u != [];
      assert u[|u| - 1] == t[|t| - 1];
      assert !IsSpace(s[|t| - 1]);
    }
  }

  /** `pat` occurs in `s` starting at index `i`. */
  predicate OccursAt(s: string, pat: string, i: nat)
  {
    i + |pat| <= |s| && s[i..i + |pat|] == pat
  }

  /** Python's `pat in s`. */
  predicate Contains(s: string, pat: string)
  {
    exists i: nat | i <= |s| :: OccursAt(s, pat, i)
  }

  /** `s.startswith(prefix)`. */
  predicate StartsWith(s: string, prefix: string)
  {
    prefix <= s
  }

  /** `s.endswith(suffix)`. */
  predicate EndsWith(s: string, suffix: string)
  {
    |suffix| <= |s| && s[|s| - |suffix|..] == suffix
  }

  /** `s.replace(pat, rep)` for a non-empty pattern: every occurrence,
      found left to right without overlap, is replaced. */
  function Replace(s: string, pat: string, rep: string): string
    requires pat != []
    decreases |s|
  {
    if |s| < |pat| then s
    else if s[..|pat|] == pat then rep + Replace(s[|pat|..], pat, rep)
    else [s[0]] + Replace(s[1..], pat, rep)
  }

  /** Text in which the pattern does not occur is returned unchanged. */
  lemma {:induction false} ReplaceAbsent(s: string, pat: string, rep: string)
    requires pat != []
    requires !Contains(s, pat)
    ensures Replace(s, pat, rep) == s
    decreases |s|
  {
    if |s| >= |pat| {
      assert !OccursAt(s, pat, 0);
      assert !Contains(s[1..], pat) by {
        forall i: nat | OccursAt(s[1..], pat, i)
          ensures false
        {
          assert s[1..][i..i + |pat|] == s[i + 1..i + 1 + |pat|];
          assert OccursAt(s, pat, i + 1);
        }
      }
      ReplaceAbsent(s[1..], pat, rep);
    }
  }

  /** A two-character pattern cannot occur where one of its characters is
      missing. */
  lemma {:induction false} ReplaceMissingChar(s: string, pat: string, rep: string)
    requires |pat| == 2 && (pat[0] !in s || pat[1] !in s)
    ensures Replace(s, pat, rep) == s
    decreases |s|
  {
    if |s| >= 2 {
      assert s[..2] != pat by {
        assert s[0] in s && s[1] in s;
      }
      ReplaceMissingChar(s[1..], pat, rep);
      assert [s[0]] + s[1..] == s;
    }
  }

  /** An occurrence at the front is replaced and the rest is scanned on. */
  lemma ReplaceHit(s: string, pat: string, rep: string)
    requires pat != []
    ensures Replace(pat + s, pat, rep) == rep + Replace(s, pat, rep)
  {
    ConcatSlices(pat, s, |pat|);
  }

  /** Deleting occurrences never makes the text longer. */
  lemma {:induction false} ReplaceByNothingShrinks(s: string, pat: string)
    requires pat != []
    ensures |Replace(s, pat, "")| <= |s|
    decreases |s|
  {
    if |s| >= |pat| {
      if s[..|pat|] == pat {
        ReplaceByNothingShrinks(s[|pat|..], pat);
      } else {
        ReplaceByNothingShrinks(s[1..], pat);
      }
    }
  }

  /** For a two-character pattern, replacing in `a + b` is replacing in each
      part, unless an occurrence could straddle the boundary. */
  lemma {:induction false} ReplaceConcat(a: string, b: string, pat: string, rep: string)
    requires |pat| == 2
    requires !(a != [] && b != [] && a[|a| - 1] == pat[0] && b[0] == pat[1])
    ensures Replace(a + b, pat, rep) == Replace(a, pat, rep) + Replace(b, pat, rep)
    decreases |a|
  {
    if a == [] {
      assert a + b == b;
    } else if |a| == 1 {
      ConcatSlices(a, b, 1);
      if b != [] {
        assert (a + b)[..2] == [a[0], b[0]];
      } else {
        assert a + b == a;
      }
    } else if a[..2] == pat {
      ConcatSlices(a, b, 2);
      ReplaceConcat(a[2..], b, pat, rep);
      AppendAssoc(rep, Replace(a[2..], pat, rep), Replace(b, pat, rep));
    } else {
      ConcatSlices(a, b, 2);
      ConcatSlices(a, b, 1);
      ReplaceConcat(a[1..], b, pat, rep);
      AppendAssoc([a[0]], Replace(a[1..], pat, rep), Replace(b, pat, rep));
    }
  }


  /** Python's `s.split(sep)` for a one-character separator: the pieces
      between separators, empty pieces included; never an empty list. */
  function Split(s: string, sep: char): (parts: seq<string>)
    ensures |parts| >= 1
    decreases |s|
  {
    if s == [] then [[]]
    else
      var rest := Split(s[1..], sep);
      if s[0] == sep then [[]] + rest
      else [[s[0]] + rest[0]] + rest[1..]
  }

  /** There is more than one piece exactly when the separator occurs. */
  lemma {:induction false} SplitSingle(s: string, sep: char)
    ensures |Split(s, sep)| == 1 <==> sep !in s
    decreases |s|
  {
    if s != [] {
      SplitSingle(s[1..], sep);
      assert s == [s[0]] + s[1..];
    }
  }

  /** Text without the separator is a single piece. */
  lemma {:induction false} SplitWithoutSeparator(s: string, sep: char)
    requires sep !in s
    ensures Split(s, sep) == [s]
    decreases |s|
  {
    if s != [] {
      SplitWithoutSeparator(s[1..], sep);
      assert [s[0]] + s[1..] == s;
    }
  }

  /** Splitting at a separator splits the two sides independently. */
  lemma {:induction false} SplitAtSeparator(a: string, b: string, sep: char)
    ensures Split(a + [sep] + b, sep) == Split(a, sep) + Split(b, sep)
    decreases |a|
  {
    if a == [] {
      assert (a + [sep] + b)[1..] == b;
    } else {
      SplitAtSeparator(a[1..], b, sep);
      assert a == [a[0]] + a[1..];
      if a[0] == sep {
        assert (a + [sep] + b)[1..] == a[1..] + [sep] + b;
        AppendAssoc([[]], Split(a[1..], sep), Split(b, sep));
      } else {
        SplitStep(a[0], a[1..], b, sep);
      }
    }
  }

  /** The inductive step of `SplitAtSeparator`: one more leading character
      that is not the separator. */
  lemma SplitStep(x: char, a: string, b: string, sep: char)
    requires x != sep
    requires Split(a + [sep] + b, sep) == Split(a, sep) + Split(b, sep)
    ensures Split([x] + a + [sep] + b, sep) == Split([x] + a, sep) + Split(b, sep)
  {
    var t := a + [sep] + b;
    assert [x] + a + [sep] + b == [x] + t;
    var A, B, R := Split(a, sep), Split(b, sep), Split(t, sep);
    SplitCons(x, t, sep);
    SplitCons(x, a, sep);
    ConcatParts(A, B);
    AppendAssoc([[x] + A[0]], A[1..], B);
  }

  /** One unfolding of `Split` on a text given as first character and rest. */
  lemma SplitCons(x: char, s: string, sep: char)
    ensures Split([x] + s, sep) ==
      if x == sep then [[]] + Split(s, sep)
      else [[x] + Split(s, sep)[0]] + Split(s, sep)[1..]
  {
    assert ([x] + s)[1..] == s;
  }

  /** Two pieces around a single separator. */
  lemma SplitPair(a: string, b: string, sep: char)
    requires sep !in a && sep !in b
    ensures Split(a + [sep] + b, sep) == [a, b]
  {
    SplitAtSeparator(a, b, sep);
    SplitWithoutSeparator(a, sep);
    SplitWithoutSeparator(b, sep);
  }

  /** The first piece of a split: the text before the first separator. */
  lemma {:induction false} SplitFirst(s: string, sep: char)
    ensures var f := Split(s, sep)[0];
      f <= s && sep !in f && (|f| == |s| || s[|f|] == sep)
    decreases |s|
  {
    if s != [] && s[0] != sep {
      SplitFirst(s[1..], sep);
    }
  }

  /** Python's `s.split(sep)[-1]`. */
  function LastField(s: string, sep: char): string
  {
    var parts := Split(s, sep);
    parts[|parts| - 1]
  }

  /** The last piece of a split: the text after the last separator, or the
      whole text when there is none. */
  lemma {:induction false} SplitLast(s: string, sep: char)
    ensures var l := LastField(s, sep);
      |l| <= |s| && l == s[|s| - |l|..] && sep !in l &&
      (|l| == |s| <==> sep !in s) &&
      (|l| < |s| ==> s[|s| - |l| - 1] == sep)
    decreases |s|
  {
    if s != [] {
      var rest := Split(s[1..], sep);
      SplitLast(s[1..], sep);
      SplitSingle(s[1..], sep);
      assert s == [s[0]] + s[1..];
      SplitCons(s[0], s[1..], sep);
      if s[0] != sep && |rest| == 1 {
        assert Split(s, sep) == [[s[0]] + rest[0]];
      } else {
        assert Split(s, sep)[|Split(s, sep)| - 1] == rest[|rest| - 1];
      }
    }
  }

  /** Python's `sep.join(parts)` for a non-empty list. */
  function Join(parts: seq<string>, sep: char): string
    requires parts != []
    decreases |parts|
  {
    if |parts| == 1 then parts[0] else parts[0] + [sep] + Join(parts[1..], sep)
  }

  /** Splitting a join gives the parts back when none holds the separator. */
  lemma {:induction false} SplitJoin(parts: seq<string>, sep: char)
    requires parts != [] && forall k :: 0 <= k < |parts| ==> sep !in parts[k]
    ensures Split(Join(parts, sep), sep) == parts
    decreases |parts|
  {
    if |parts| == 1 {
      SplitWithoutSeparator(parts[0], sep);
    } else {
      SplitJoin(parts[1..], sep);
      SplitWithoutSeparator(parts[0], sep);
      SplitAtSeparator(parts[0], Join(parts[1..], sep), sep);
      assert [parts[0]] + parts[1..] == parts;
    }
  }

  /** Joining the pieces of a split gives the text back. */
  lemma {:induction false} JoinSplit(s: string, sep: char)
    ensures Join(Split(s, sep), sep) == s
    decreases |s|
  {
    if s != [] {
      var x, t := s[0], s[1..];
      var rest := Split(t, sep);
      JoinSplit(t, sep);
      assert s == [x] + t;
      SplitCons(x, t, sep);
      if x == sep {
        assert ([[]] + rest)[1..] == rest;
      } else if |rest| > 1 {
        var parts := [[x] + rest[0]] + rest[1..];
        assert parts[1..] == rest[1..];
        AppendAssoc([x], rest[0] + [sep], Join(rest[1..], sep));
        AppendAssoc(rest[0], [sep], Join(rest[1..], sep));
        AppendAssoc([x] + rest[0], [sep], Join(rest[1..], sep));
        AppendAssoc([x], rest[0], [sep]);
      }
    }
  }

  /** Joining two lists puts one separator between their joins. */
  lemma {:induction false} JoinAppend(a: seq<string>, b: seq<string>, sep: char)
    requires a != [] && b != []
    ensures Join(a + b, sep) == Join(a, sep) + [sep] + Join(b, sep)
    decreases |a|
  {
    if |a| == 1 {
      assert (a + b)[1..] == b;
    } else {
      JoinAppend(a[1..], b, sep);
      assert (a + b)[1..] == a[1..] + b;
    }
  }

  /** Python's `str(c) * n`: `n` copies, none when `n` is not positive. */
  function Repeat(c: char, n: int): (r: string)
    ensures |r| == if n <= 0 then 0 else n
    ensures forall j :: 0 <= j < |r| ==> r[j] == c
    decreases n
  {
    if n <= 0 then [] else [c] + Repeat(c, n - 1)
  }

  /** Decimal digits of a natural number, most significant first. */
  function NatToString(n: nat): (r: string)
    ensures r != [] && forall j :: 0 <= j < |r| ==> '0' <= r[j] <= '9'
    decreases n
  {
    var d := "0123456789"[n % 10];
    if n < 10 then [d] else NatToString(n / 10) + [d]
  }

  /** `str(i)` for a Python `int`: a minus sign for negatives, then the digits. */
  function IntToString(i: int): (r: string)
    ensures ' ' !in r
    ensures r != [] && (r[0] == '-' <==> i < 0)
  {
    if i < 0 then "-" + NatToString(-i) else NatToString(i)
  }
}
