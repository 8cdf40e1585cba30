/**
 * String primitives the library relies on: `startsWith`/`endsWith`/`includes`,
 * `split` on one character and `join`, decimal text of numbers, and the ASCII
 * letter classes its regular expressions use (`[a-z]`, `[A-Z]`, `\d`).
 */
module Text {

  // ---- gluing sequences: steps the solver is spared from rediscovering ----

  lemma AppendAssoc<T>(a: seq<T>, b: seq<T>, c: seq<T>)
    ensures a + b + c == a + (b + c)
  {
  }

  lemma ConsTail<T>(x: T, s: seq<T>)
    ensures ([x] + s)[1..] == s && ([x] + s)[0] == x
  {
  }

  predicate StartsWith(s: string, p: string) {
    |p| <= |s| && s[..|p|] == p
  }

  predicate EndsWith(s: string, p: string) {
    |p| <= |s| && s[|s| - |p|..] == p
  }

  lemma PrefixOfAppend<T>(a: seq<T>, b: seq<T>)
    ensures (a + b)[..|a|] == a
  {
  }

  lemma EndsWithAppend(s: string, t: string)
    ensures EndsWith(s + t, t)
  {
    assert (s + t)[|s|..] == t;
  }

  /** `s.includes(sub)`. */
  predicate Contains(s: string, sub: string)
    decreases |s|
  {
    StartsWith(s, sub) || (|s| > 0 && Contains(s[1..], sub))
  }

  /** A string that does not hold `c` cannot hold a word that starts with `c`. */
  lemma {:induction false} NotContainsChar(s: string, sub: string)
    requires |sub| > 0 && sub[0] !in s
    ensures !Contains(s, sub)
    decreases |s|
  {
    if |s| > 0 {
      NotContainsChar(s[1..], sub);
    }
  }

  /** `xs.join(sep)`. */
  function Join(sep: string, xs: seq<string>): string {
    if |xs| == 0 then ""
    else if |xs| == 1 then xs[0]
    else xs[0] + sep + Join(sep, xs[1..])
  }

  /** `s.split(c)` for a one-character separator: the pieces between the separators. */
  function Split(s: string, c: char): (parts: seq<string>)
    ensures |parts| >= 1
  {
    if |s| == 0 then [""]
    else if s[0] == c then [""] + Split(s[1..], c)
    else
      var rest := Split(s[1..], c);
      [[s[0]] + rest[0]] + rest[1..]
  }

  /** Splitting and joining back with the same separator gives the string back, and no piece holds the separator. */
  lemma {:induction false} SplitJoin(s: string, c: char)
    ensures Join([c], Split(s, c)) == s
    ensures forall k :: 0 <= k < |Split(s, c)| ==> c !in Split(s, c)[k]
  {
    if |s| > 0 {
      SplitJoin(s[1..], c);
      var rest := Split(s[1..], c);
      if s[0] != c {
        if |rest| == 1 {
          assert Split(s, c) == [[s[0]] + rest[0]];
        } else {
          assert Split(s, c) == [[s[0]] + rest[0]] + rest[1..];
          assert rest == [rest[0]] + rest[1..];
          assert Join([c], rest) == rest[0] + [c] + Join([c], rest[1..]);
        }
      } else {
        assert Split(s, c) == [""] + rest;
      }
    }
  }

  /** There is one more piece than there are separators; a string without `c` is one piece. */
  lemma {:induction false} SplitSingle(s: string, c: char)
    ensures |Split(s, c)| == 1 <==> c !in s
  {
    if |s| > 0 {
      SplitSingle(s[1..], c);
    }
  }

  /** `s.split(c).pop()`: the text after the last `c`, or all of `s`. */
  function AfterLast(s: string, c: char): string {
    var parts := Split(s, c);
    parts[|parts| - 1]
  }

  /** `s.split(c).shift()`: the text before the first `c`, or all of `s`. */
  function BeforeFirst(s: string, c: char): string {
    Split(s, c)[0]
  }

  /** How the last piece of `s` relates to the last piece of `s[1..]`. */
  lemma LastPieceStep(s: string, c: char)
    requires |s| > 0
    ensures var rest := Split(s[1..], c);
      AfterLast(s, c) == if s[0] != c && |rest| == 1 then [s[0]] + rest[0] else rest[|rest| - 1]
  {
    var rest := Split(s[1..], c);
    if s[0] == c {
      assert Split(s, c) == [""] + rest;
    } else if |rest| > 1 {
      assert Split(s, c) == [[s[0]] + rest[0]] + rest[1..];
    }
  }

  /** Once `s` holds a `c`, dropping its first character keeps the last piece. */
  lemma AfterLastSkip(s: string, c: char)
    requires c in s
    ensures AfterLast(s, c) == AfterLast(s[1..], c)
  {
    LastPieceStep(s, c);
    if s[0] != c {
      assert c in s[1..];
      SplitSingle(s[1..], c);
    }
  }

  /** The last piece is a suffix of `s` free of `c`, and it is either all of `s` or preceded by a `c`. */
  lemma {:induction false} AfterLastIsTail(s: string, c: char)
    ensures c !in AfterLast(s, c)
    ensures EndsWith(s, AfterLast(s, c))
    ensures |AfterLast(s, c)| == |s| || s[|s| - |AfterLast(s, c)| - 1] == c
  {
    if c !in s {
      SplitNoSep(s, c);
    } else {
      AfterLastSkip(s, c);
      AfterLastIsTail(s[1..], c);
      var t := AfterLast(s, c);
      assert s[|s| - |t|..] == s[1..][|s[1..]| - |t|..];
      if |t| == |s[1..]| {
        assert t == s[1..];
        assert s[|s| - |t| - 1] == s[0];
      } else {
        assert s[|s| - |t| - 1] == s[1..][|s[1..]| - |t| - 1];
      }
    }
  }

  /** The first piece is a prefix of `s` free of `c`, followed in `s` by a `c` unless it is all of `s`. */
  lemma {:induction false} BeforeFirstIsHead(s: string, c: char)
    ensures c !in BeforeFirst(s, c)
    ensures StartsWith(s, BeforeFirst(s, c))
    ensures |BeforeFirst(s, c)| == |s| || s[|BeforeFirst(s, c)|] == c
  {
    if |s| > 0 && s[0] != c {
      var h := BeforeFirst(s[1..], c);
      BeforeFirstIsHead(s[1..], c);
      BeforeFirstStep(s, c);
      assert s[..|h| + 1] == [s[0]] + s[1..][..|h|];
    }
  }

  /** The first piece of a string that does not start with `c` begins with its first character. */
  lemma BeforeFirstStep(s: string, c: char)
    requires |s| > 0 && s[0] != c
    ensures BeforeFirst(s, c) == [s[0]] + BeforeFirst(s[1..], c)
  {
  }

  /** A string with no `c` after a given prefix `p + [c]`: its last piece is that tail. */
  lemma {:induction false} AfterLastOfTail(p: string, c: char, t: string)
    requires c !in t
    ensures AfterLast(p + [c] + t, c) == t
    decreases |p|
  {
    var s := p + [c] + t;
    LastPieceStep(s, c);
    if |p| == 0 {
      assert s[1..] == t;
      SplitNoSep(t, c);
    } else {
      AfterLastOfTail(p[1..], c, t);
      assert s[1..] == p[1..] + [c] + t;
      assert c in s[1..] by { assert s[1..][|p| - 1] == c; }
      SplitSingle(s[1..], c);
    }
  }

  /** A string without `c` splits into itself alone. */
  lemma {:induction false} SplitNoSep(s: string, c: char)
    requires c !in s
    ensures Split(s, c) == [s]
  {
    if |s| > 0 {
      SplitNoSep(s[1..], c);
      assert [s[0]] + s[1..] == s;
    }
  }

  /** A prefix free of `c` followed by `c` is a piece of its own. */
  lemma {:induction false} SplitAfterHead(h: string, c: char, t: string)
    requires c !in h
    ensures Split(h + [c] + t, c) == [h] + Split(t, c)
  {
    if |h| > 0 {
      SplitAfterHead(h[1..], c, t);
      assert (h + [c] + t)[1..] == h[1..] + [c] + t;
      assert [h[0]] + h[1..] == h;
    } else {
      assert (h + [c] + t)[1..] == t;
    }
  }

  /** Joining pieces free of `c` with `c` and splitting again gives the pieces back. */
  lemma {:induction false} JoinSplit(xs: seq<string>, c: char)
    requires |xs| > 0
    requires forall k :: 0 <= k < |xs| ==> c !in xs[k]
    ensures Split(Join([c], xs), c) == xs
  {
    if |xs| == 1 {
      SplitNoSep(xs[0], c);
    } else {
      JoinSplit(xs[1..], c);
      SplitAfterHead(xs[0], c, Join([c], xs[1..]));
      assert xs == [xs[0]] + xs[1..];
    }
  }

  /** A prefix free of `c` followed by `c`: its first piece is that prefix. */
  lemma {:induction false} BeforeFirstOfHead(h: string, c: char, t: string)
    requires c !in h
    ensures BeforeFirst(h + [c] + t, c) == h
  {
    if |h| > 0 {
      BeforeFirstOfHead(h[1..], c, t);
      assert (h + [c] + t)[1..] == h[1..] + [c] + t;
      assert [h[0]] + h[1..] == h;
    } else {
      assert h + [c] + t == [c] + t;
    }
  }

  // ---- ASCII letter classes and decimal text ----

  predicate IsLower(ch: char) { 'a' <= ch <= 'z' }

  predicate IsUpper(ch: char) { 'A' <= ch <= 'Z' }

  predicate IsDigit(ch: char) { '0' <= ch <= '9' }

  /** `ch.toUpperCase()` on a letter matched by `[a-z]`. */
  function ToUpper(ch: char): (r: char)
    requires IsLower(ch)
    ensures IsUpper(r)
  {
    (ch as int - 'a' as int + 'A' as int) as char
  }

  /** `ch.toLowerCase()` on a letter matched by `[A-Z]`. */
  function ToLower(ch: char): (r: char)
    requires IsUpper(ch)
    ensures IsLower(r) && ToUpper(r) == ch
  {
    (ch as int - 'A' as int + 'a' as int) as char
  }

  lemma ToLowerUpper(ch: char)
    requires IsLower(ch)
    ensures ToLower(ToUpper(ch)) == ch
  {
  }

  predicate AllDigits(s: string) {
    forall i :: 0 <= i < |s| ==> IsDigit(s[i])
  }

  function DigitChar(d: nat): (ch: char)
    requires d < 10
    ensures IsDigit(ch)
  {
    ('0' as int + d) as char
  }

  /** The decimal text JavaScript prints for a non-negative integer. */
  function NatText(n: nat): (s: string)
    ensures |s| > 0 && AllDigits(s)
    ensures s[0] == '0' ==> n == 0
  {
    if n < 10 then [DigitChar(n)] else NatText(n / 10) + [DigitChar(n % 10)]
  }

  /** The decimal text of an integer, with a leading `-` when it is negative. */
  function IntText(i: int): string {
    if i < 0 then "-" + NatText(-i) else NatText(i)
  }

  /** The value of a string of decimal digits. */
  function DigitsValue(s: string): nat
    requires AllDigits(s)
  {
    if |s| == 0 then 0 else DigitsValue(s[..|s| - 1]) * 10 + (s[|s| - 1] as int - '0' as int)
  }

  /** Printing a number in decimal and reading the digits back gives the number. */
  lemma {:induction false} NatTextValue(n: nat)
    ensures DigitsValue(NatText(n)) == n
  {
    if n >= 10 {
      NatTextValue(n / 10);
      var s := NatText(n);
      assert s[..|s| - 1] == NatText(n / 10);
    }
  }
}
