/** The handful of Python `str` operations the modelled code relies on:
    `split`, `join`, `strip`, `find`, `startswith`, `isdigit`, `capitalize`
    and `str(int)`. */
module Strings {

  import opened Common

  /** Python `str.split(sep)` with a one-character separator: the pieces
      between separators, empty pieces included, at least one piece. */
  function Split(s: string, sep: char): (parts: seq<string>)
    ensures |parts| >= 1
    ensures forall i :: 0 <= i < |parts| ==> sep !in parts[i]
    decreases |s|
  {
    if |s| == 0 then [""]
    else if s[0] == sep then [""] + Split(s[1..], sep)
    else
      var rest := Split(s[1..], sep);
      [[s[0]] + rest[0]] + rest[1..]
  }

  /** Python `sep.join(parts)`. */
  function Join(parts: seq<string>, sep: string): string
  {
    if |parts| == 0 then ""
    else if |parts| == 1 then parts[0]
    else parts[0] + sep + Join(parts[1..], sep)
  }

  /** Joining the pieces of a split with the separator gives back the string. */
  lemma {:induction false} JoinSplit(s: string, sep: char)
    ensures Join(Split(s, sep), [sep]) == s
    decreases |s|
  {
    if |s| == 0 {
    } else {
      var rest := Split(s[1..], sep);
      JoinSplit(s[1..], sep);
      assert s == [s[0]] + s[1..];
      if s[0] == sep {
        assert Split(s, sep) == [""] + rest;
      } else {
        var parts := Split(s, sep);
        assert parts == [[s[0]] + rest[0]] + rest[1..];
        if |rest| == 1 {
          assert Join(rest, [sep]) == rest[0];
        } else {
          assert parts[1..] == rest[1..];
          assert Join(rest, [sep]) == rest[0] + [sep] + Join(rest[1..], [sep]);
        }
      }
    }
  }

  /** Splitting a word free of the separator, followed by the separator and
      more text, yields that word and then the pieces of the rest. */
  lemma {:induction false} SplitAfterWord(w: string, sep: char, rest: string)
    requires sep !in w
    ensures Split(w + [sep] + rest, sep) == [w] + Split(rest, sep)
    decreases |w|
  {
    if |w| == 0 {
      assert w + [sep] + rest == [sep] + rest;
      assert ([sep] + rest)[1..] == rest;
    } else {
      SplitAfterWord(w[1..], sep, rest);
      assert (w + [sep] + rest)[1..] == w[1..] + [sep] + rest;
      assert [w[0]] + w[1..] == w;
    }
  }

  /** Splitting a word free of the separator yields just that word. */
  lemma {:induction false} SplitWord(w: string, sep: char)
    requires sep !in w
    ensures Split(w, sep) == [w]
    decreases |w|
  {
    if |w| > 0 {
      SplitWord(w[1..], sep);
      assert [w[0]] + w[1..] == w;
    }
  }

  /** Splitting a join of separator-free words gives back the words. */
  lemma {:induction false} SplitJoin(words: seq<string>, sep: char)
    requires |words| >= 1
    requires forall i :: 0 <= i < |words| ==> sep !in words[i]
    ensures Split(Join(words, [sep]), sep) == words
    decreases |words|
  {
    if |words| == 1 {
      SplitWord(words[0], sep);
    } else {
      SplitJoin(words[1..], sep);
      SplitAfterWord(words[0], sep, Join(words[1..], [sep]));
      assert words == [words[0]] + words[1..];
    }
  }

  /** Joining all but the last of at least two pieces, then the separator and
      the last piece, is joining them all. */
  lemma {:induction false} JoinSnoc(parts: seq<string>, sep: string)
    requires |parts| >= 2
    ensures Join(parts, sep) == Join(parts[..|parts| - 1], sep) + sep + parts[|parts| - 1]
    decreases |parts|
  {
    if |parts| > 2 {
      JoinSnoc(parts[1..], sep);
      assert parts[1..][..|parts| - 2] == parts[..|parts| - 1][1..];
    }
  }

  /** The index of the last occurrence of `c` in `s`, if any. */
  function LastIndexOf(s: string, c: char): (r: Option<nat>)
    ensures r.None? <==> c !in s
    ensures r.Some? ==> r.value < |s| && s[r.value] == c && c !in s[r.value + 1..]
    decreases |s|
  {
    if |s| == 0 then None
    else if s[|s| - 1] == c then Some(|s| - 1)
    else
      assert s == s[..|s| - 1] + [s[|s| - 1]];
      LastIndexOf(s[..|s| - 1], c)
  }

  /** A position holding `c` with no `c` after it is the one `LastIndexOf` finds. */
  lemma LastIndexOfUnique(s: string, c: char, k: nat)
    requires k < |s| && s[k] == c && c !in s[k + 1..]
    ensures LastIndexOf(s, c) == Some(k)
  {
    var j := LastIndexOf(s, c).value;
    assert forall m :: k < m < |s| ==> s[m] != c by {
      forall m | k < m < |s|
        ensures s[m] != c
      {
        assert s[m] == s[k + 1..][m - k - 1];
      }
    }
  }

  /** Python's whitespace characters (the ones `str.strip()` removes). */
  predicate IsSpace(ch: char)
  {
    ch == ' ' || ('\t' <= ch <= '\r') || ('\U{1C}' <= ch <= '\U{1F}')
    || ch == '\U{85}' || ch == '\U{A0}' || ch == '\U{1680}'
    || ('\U{2000}' <= ch <= '\U{200A}') || ch == '\U{2028}' || ch == '\U{2029}'
    || ch == '\U{202F}' || ch == '\U{205F}' || ch == '\U{3000}'
  }

  /** `s.lstrip()`: the suffix of `s` left after removing leading whitespace. */
  function TrimLeft(s: string): (r: string)
    ensures |r| <= |s| && r == s[|s| - |r|..]
    ensures r == [] || !IsSpace(r[0])
    ensures forall k :: 0 <= k < |s| - |r| ==> IsSpace(s[k])
    decreases |s|
  {
    if |s| > 0 && IsSpace(s[0]) then TrimLeft(s[1..]) else s
  }

  /** `s.rstrip()`: the prefix of `s` left after removing trailing whitespace. */
  function TrimRight(s: string): (r: string)
    ensures |r| <= |s| && r == s[..|r|]
    ensures r == [] || !IsSpace(r[|r| - 1])
    ensures forall k :: |r| <= k < |s| ==> IsSpace(s[k])
    decreases |s|
  {
    if |s| > 0 && IsSpace(s[|s| - 1]) then TrimRight(s[..|s| - 1]) else s
  }

  /** `s.strip()`: the slice of `s` between its leading and its trailing
      whitespace, which neither starts nor ends with whitespace. */
  function Strip(s: string): (r: string)
    ensures |r| <= |s|
    ensures r == [] || (!IsSpace(r[0]) && !IsSpace(r[|r| - 1]))
  {
    var l := TrimLeft(s);
    var r := TrimRight(l);
    assert r != [] ==> r[0] == l[0];
    r
  }

  /** `strip` cuts a slice out of `s`: the one that starts after the
      leading whitespace. */
  lemma StripSlice(s: string)
    ensures var a := |s| - |TrimLeft(s)|;
      && a + |Strip(s)| <= |s|
      && forall k :: 0 <= k < |Strip(s)| ==> Strip(s)[k] == s[a + k]
  {
    var l := TrimLeft(s);
    var r := TrimRight(l);
    var a := |s| - |l|;
    assert Strip(s) == r;
    forall k | 0 <= k < |r|
      ensures r[k] == s[a + k]
    {
      assert r[k] == l[k];
    }
  }

  /** What `strip` removes around that slice is whitespace only. */
  lemma StripRemovesSpace(s: string)
    ensures var a := |s| - |TrimLeft(s)|;
      && (forall k :: 0 <= k < a ==> IsSpace(s[k]))
      && (forall k :: a + |Strip(s)| <= k < |s| ==> IsSpace(s[k]))
  {
    var l := TrimLeft(s);
    var r := TrimRight(l);
    var a := |s| - |l|;
    assert Strip(s) == r;
    forall k | a + |r| <= k < |s|
      ensures IsSpace(s[k])
    {
      assert s[k] == l[k - a];
    }
  }

  predicate StartsWith(s: string, prefix: string)
  {
    |prefix| <= |s| && s[..|prefix|] == prefix
  }

  /** Python `s.find(pattern, from)`: the lowest index at or after `from` where
      `pattern` occurs, or -1. */
  function FindFrom(s: string, pattern: string, from: nat): (r: int)
    requires from <= |s|
    ensures r == -1 || (from <= r <= |s| - |pattern| && StartsWith(s[r..], pattern))
    ensures r == -1 ==> forall k :: from <= k <= |s| - |pattern| ==> !StartsWith(s[k..], pattern)
    ensures r != -1 ==> forall k :: from <= k < r ==> !StartsWith(s[k..], pattern)
    decreases |s| - from
  {
    if |s| - from < |pattern| then -1
    else if StartsWith(s[from..], pattern) then from
    else FindFrom(s, pattern, from + 1)
  }

  /** Python `s.find(pattern)`. */
  function Find(s: string, pattern: string): int
  {
    FindFrom(s, pattern, 0)
  }

  predicate IsDigit(ch: char)
  {
    '0' <= ch <= '9'
  }

  /** Python `s.isdigit()`: non-empty and every character a digit. */
  predicate AllDigits(s: string)
  {
    |s| > 0 && forall i :: 0 <= i < |s| ==> IsDigit(s[i])
  }

  function Upper(ch: char): char
  {
    if 'a' <= ch <= 'z' then (ch as int - 'a' as int + 'A' as int) as char else ch
  }

  function Lower(ch: char): char
  {
    if 'A' <= ch <= 'Z' then (ch as int - 'A' as int + 'a' as int) as char else ch
  }

  function LowerAll(s: string): (r: string)
    ensures |r| == |s| && forall i :: 0 <= i < |s| ==> r[i] == Lower(s[i])
  {
    if |s| == 0 then "" else [Lower(s[0])] + LowerAll(s[1..])
  }

  /** Python `word.capitalize()`: first character upper case, the rest lower. */
  function Capitalize(word: string): (r: string)
    ensures |r| == |word|
    ensures |word| > 0 ==> r[0] == Upper(word[0])
    ensures forall i :: 0 < i < |word| ==> r[i] == Lower(word[i])
  {
    if |word| == 0 then "" else [Upper(word[0])] + LowerAll(word[1..])
  }

  function DigitChar(d: nat): char
    requires d < 10
  {
    ('0' as int + d) as char
  }

  /** The number a string of decimal digits denotes, most significant first. */
  function DigitsValue(s: string): nat
    requires forall i :: 0 <= i < |s| ==> IsDigit(s[i])
  {
    if |s| == 0 then 0
    else
      assert IsDigit(s[|s| - 1]);
      DigitsValue(s[..|s| - 1]) * 10 + (s[|s| - 1] as int - '0' as int)
  }

  /** Python `str(n)` for a non-negative integer: its decimal digits. */
  function NatToString(n: nat): (r: string)
    ensures AllDigits(r)
    ensures n < 10 ==> r == [DigitChar(n)]
  {
    if n < 10 then [DigitChar(n)] else NatToString(n / 10) + [DigitChar(n % 10)]
  }

  /** Python `str(n)`: a `-` before the digits of `-n` for a negative `n`. */
  function IntToString(n: int): (r: string)
    ensures n >= 0 ==> AllDigits(r)
    ensures n < 0 ==> |r| > 1 && r[0] == '-' && AllDigits(r[1..])
  {
    if n >= 0 then NatToString(n) else "-" + NatToString(-n)
  }

  /** The digits `str(n)` writes denote `n`, with no leading zero unless the
      text is `"0"`. */
  lemma {:induction false} NatToStringValue(n: nat)
    ensures DigitsValue(NatToString(n)) == n
    ensures n > 0 ==> NatToString(n)[0] != '0'
  {
    if n >= 10 {
      NatToStringValue(n / 10);
      var r := NatToString(n);
      assert r[..|r| - 1] == NatToString(n / 10);
    }
  }

  /** `str(n)` of any integer denotes `n`: its digits after an optional `-`
      give the magnitude, with no leading zero unless `n` is 0. */
  lemma IntToStringValue(n: int)
    ensures n >= 0 ==> DigitsValue(IntToString(n)) == n && (n > 0 ==> IntToString(n)[0] != '0')
    ensures n < 0 ==> DigitsValue(IntToString(n)[1..]) == -n && IntToString(n)[1] != '0'
  {
    if n >= 0 {
      NatToStringValue(n);
    } else {
      NatToStringValue(-n);
      assert IntToString(n)[1..] == NatToString(-n);
    }
  }

  /** A two-digit number prints as its tens digit, then its units digit. */
  lemma TwoDigits(n: nat)
    requires 10 <= n < 100
    ensures IntToString(n) == [DigitChar(n / 10), DigitChar(n % 10)]
  {
    assert NatToString(n / 10) == [DigitChar(n / 10)];
  }
}
