/** The few pieces of Python's `str` behaviour the core relies on, restricted
    to ASCII: `lower`, `isupper`, `startswith`/`endswith`, `in` (substring),
    `split(sep)`, `split()`, `join`, `strip` and decimal formatting of ints. */
module Strings {

  /** Characters Python's `str.isspace` accepts in the ASCII range. */
  predicate IsSpace(c: char) {
    c == ' ' || c == '\t' || c == '\n' || c == '\r' || c == '\U{0B}' || c == '\U{0C}'
    || c == '\U{1C}' || c == '\U{1D}' || c == '\U{1E}' || c == '\U{1F}'
  }

  predicate IsUpper(c: char) { 'A' <= c <= 'Z' }

  function LowerChar(c: char): (d: char)
    ensures !IsUpper(d)
    ensures !IsUpper(c) ==> d == c
    ensures IsUpper(c) ==> 'a' <= d <= 'z' && d as int == c as int + 32
  {
    if IsUpper(c) then (c as int + 32) as char else c
  }

  /** `s.lower()` on ASCII: the result has the same length and no upper-case letter. */
  function Lower(s: string): (r: string)
    ensures |r| == |s|
    ensures forall i :: 0 <= i < |r| ==> !IsUpper(r[i])
    ensures forall i :: 0 <= i < |s| && !IsUpper(s[i]) ==> r[i] == s[i]
    ensures forall i :: 0 <= i < |s| && IsUpper(s[i]) ==> 'a' <= r[i] <= 'z' && r[i] as int == s[i] as int + 32
  {
    seq(|s|, i requires 0 <= i < |s| => LowerChar(s[i]))
  }

  predicate StartsWith(s: string, prefix: string) {
    |prefix| <= |s| && s[..|prefix|] == prefix
  }

  predicate EndsWith(s: string, suffix: string) {
    |suffix| <= |s| && s[|s| - |suffix|..] == suffix
  }

  /** `p in s` for strings: `p` occurs as a contiguous substring of `s`. */
  predicate Contains(s: string, p: string) {
    exists i | 0 <= i <= |s| :: StartsWith(s[i..], p)
  }

  /** Every letter of an occurring keyword occurs in the string. */
  lemma ContainedLetterOccurs(s: string, p: string, c: char)
    requires Contains(s, p) && c in p
    ensures c in s
  {
    var i :| 0 <= i <= |s| && StartsWith(s[i..], p);
    var k :| 0 <= k < |p| && p[k] == c;
    assert s[i..][k] == s[i + k];
  }

  /** A keyword cannot occur in a string that lacks one of its letters. */
  lemma NotContained(s: string, p: string, c: char)
    requires c in p && c !in s
    ensures !Contains(s, p)
  {
    if Contains(s, p) {
      ContainedLetterOccurs(s, p, c);
    }
  }

  /** `any(k in s for k in keys)` */
  predicate MentionsAny(s: string, keys: seq<string>) {
    exists i | 0 <= i < |keys| :: Contains(s, keys[i])
  }

  /** From position `i` on, `w` holds one letter of each keyword, in order. */
  predicate LetterOfEach(keys: seq<string>, w: string, i: nat)
    requires |w| == |keys|
    decreases |keys| - i
  {
    i >= |keys| || (w[i] in keys[i] && LetterOfEach(keys, w, i + 1))
  }

  /** A string without any of the letters in `w`, which holds a letter of
      each keyword, mentions none of the keywords. */
  lemma {:induction false} NoneMentioned(s: string, keys: seq<string>, w: string, i: nat)
    requires |w| == |keys| && LetterOfEach(keys, w, i)
    requires forall c | c in w :: c !in s
    ensures forall k | i <= k < |keys| :: !Contains(s, keys[k])
    decreases |keys| - i
  {
    if i < |keys| {
      NotContained(s, keys[i], w[i]);
      NoneMentioned(s, keys, w, i + 1);
    }
  }

  /** A keyword that starts at position `i` occurs in the string. */
  lemma ContainsAt(s: string, p: string, i: nat)
    requires i <= |s| && StartsWith(s[i..], p)
    ensures Contains(s, p)
  {
  }

  /** Number of occurrences of `c` in `s`. */
  function Occurrences(s: string, c: char): (n: nat)
    ensures n <= |s|
    ensures n == 0 <==> c !in s
  {
    if |s| == 0 then 0 else (if s[0] == c then 1 else 0) + Occurrences(s[1..], c)
  }

  /** Occurrences add up over a concatenation. */
  lemma {:induction false} OccurrencesAppend(a: string, b: string, c: char)
    ensures Occurrences(a + b, c) == Occurrences(a, c) + Occurrences(b, c)
  {
    if |a| > 0 {
      assert (a + b)[1..] == a[1..] + b;
      OccurrencesAppend(a[1..], b, c);
    } else {
      assert a + b == b;
    }
  }

  /** `s.split(c)` for a one-character separator. */
  function SplitOn(s: string, c: char): (parts: seq<string>)
    ensures |parts| >= 1
    ensures forall k :: 0 <= k < |parts| ==> c !in parts[k]
  {
    if |s| == 0 then [""]
    else
      var rest := SplitOn(s[1..], c);
      if s[0] == c then [""] + rest else [[s[0]] + rest[0]] + rest[1..]
  }

  /** `sep.join(xs)`. */
  function Join(sep: string, xs: seq<string>): string {
    if |xs| == 0 then ""
    else if |xs| == 1 then xs[0]
    else xs[0] + sep + Join(sep, xs[1..])
  }

  /** Splitting on `c` yields one more part than there are separators. */
  lemma {:induction false} SplitOnLength(s: string, c: char)
    ensures |SplitOn(s, c)| == Occurrences(s, c) + 1
  {
    if |s| > 0 {
      SplitOnLength(s[1..], c);
    }
  }

  /** Joining the parts back with the separator gives the original string. */
  lemma {:induction false} JoinSplitOn(s: string, c: char)
    ensures Join([c], SplitOn(s, c)) == s
  {
    if |s| > 0 {
      JoinSplitOn(s[1..], c);
      var rest := SplitOn(s[1..], c);
      if s[0] != c && |rest| > 1 {
        assert Join([c], [[s[0]] + rest[0]] + rest[1..]) == [s[0]] + rest[0] + [c] + Join([c], rest[1..]);
      }
    }
  }

  /** Length of the longest prefix of `s` whose characters all satisfy `p`. */
  function Span(s: string, p: char -> bool): (n: nat)
    ensures n <= |s|
    ensures forall i :: 0 <= i < n ==> p(s[i])
    ensures n < |s| ==> !p(s[n])
  {
    if |s| == 0 || !p(s[0]) then 0 else 1 + Span(s[1..], p)
  }

  predicate NotSpace(c: char) { !IsSpace(c) }

  /** `s.split()`: the maximal runs of non-whitespace characters, in order. */
  function Words(s: string): (ws: seq<string>)
    ensures forall k :: 0 <= k < |ws| ==> |ws[k]| > 0
    ensures forall k, i :: 0 <= k < |ws| && 0 <= i < |ws[k]| ==> !IsSpace(ws[k][i])
    decreases |s|
  {
    if |s| == 0 then []
    else if IsSpace(s[0]) then Words(s[1..])
    else
      var n := Span(s, NotSpace);
      [s[..n]] + Words(s[n..])
  }

  /** A span that stops inside `x`, or right at the end of `x` because `y`
      opens with a character failing `p`, is not changed by appending `y`. */
  lemma SpanAppend(x: string, y: string, p: char -> bool)
    requires Span(x, p) < |x| || (|y| > 0 && !p(y[0]))
    ensures Span(x + y, p) == Span(x, p)
  {
    var n, m := Span(x, p), Span(x + y, p);
    assert forall i :: 0 <= i < n ==> (x + y)[i] == x[i];
    assert n < |x + y| && !p((x + y)[n]);
  }

  /** A run with no whitespace is one word. */
  lemma WordsOfRun(w: string)
    requires |w| > 0 && forall i :: 0 <= i < |w| ==> !IsSpace(w[i])
    ensures Words(w) == [w]
  {
    assert Span(w, NotSpace) == |w| by {
      assert forall i :: 0 <= i < |w| ==> NotSpace(w[i]);
    }
    assert w[..|w|] == w;
  }

  /** One step of `Words` on a text that opens with a non-whitespace run. */
  lemma WordsStep(s: string)
    requires |s| > 0 && !IsSpace(s[0])
    ensures Words(s) == [s[..Span(s, NotSpace)]] + Words(s[Span(s, NotSpace)..])
  { }

  /** `split()` cuts at every whitespace character: the words of `a`, a
      whitespace character, then `b` are the words of `a` followed by those
      of `b`. With `WordsOfRun` this makes the words the maximal runs. */
  lemma {:induction false} WordsAtSpace(a: string, c: char, b: string)
    requires IsSpace(c)
    ensures Words(a + [c] + b) == Words(a) + Words(b)
    decreases |a|
  {
    var t := [c] + b;
    assert a + [c] + b == a + t;
    if |a| == 0 {
      assert a + t == t && t[1..] == b;
    } else if IsSpace(a[0]) {
      assert (a + t)[1..] == a[1..] + [c] + b;
      WordsAtSpace(a[1..], c, b);
    } else {
      WordsAfterRun(a, c, b);
    }
  }

  /** The case of `WordsAtSpace` where `a` opens with a word. */
  lemma {:induction false} WordsAfterRun(a: string, c: char, b: string)
    requires IsSpace(c) && |a| > 0 && !IsSpace(a[0])
    ensures Words(a + [c] + b) == Words(a) + Words(b)
    decreases |a|, 0
  {
    var t := [c] + b;
    var n := Span(a, NotSpace);
    var u := a[n..] + t;
    assert a + [c] + b == a + t;
    assert u == a[n..] + [c] + b;
    SpanAppend(a, t, NotSpace);
    CutAppend(a, t, n);
    WordsStep(a + t);
    WordsStep(a);
    WordsAtSpace(a[n..], c, b);
    calc {
      Words(a + t);
      [a[..n]] + Words(u);
      [a[..n]] + (Words(a[n..]) + Words(b));
      ([a[..n]] + Words(a[n..])) + Words(b);
      Words(a) + Words(b);
    }
  }

  lemma CutAppend(a: string, t: string, n: nat)
    requires n <= |a|
    ensures (a + t)[..n] == a[..n] && (a + t)[n..] == a[n..] + t
  { }

  /** `s` with every whitespace character removed. */
  function NonSpace(s: string): string {
    if |s| == 0 then [] else (if IsSpace(s[0]) then [] else [s[0]]) + NonSpace(s[1..])
  }

  function Concat(xs: seq<string>): string {
    if |xs| == 0 then [] else xs[0] + Concat(xs[1..])
  }

  lemma {:induction false} NonSpaceAppend(a: string, b: string)
    ensures NonSpace(a + b) == NonSpace(a) + NonSpace(b)
  {
    if |a| > 0 {
      assert (a + b)[0] == a[0];
      assert (a + b)[1..] == a[1..] + b;
      NonSpaceAppend(a[1..], b);
    } else {
      assert a + b == b;
    }
  }

  lemma {:induction false} NonSpaceOfWord(w: string)
    requires forall i :: 0 <= i < |w| ==> !IsSpace(w[i])
    ensures NonSpace(w) == w
  {
    if |w| > 0 {
      NonSpaceOfWord(w[1..]);
    }
  }

  /** The words of `s` are exactly its non-whitespace characters, cut into pieces. */
  lemma {:induction false} WordsCoverNonSpace(s: string)
    ensures Concat(Words(s)) == NonSpace(s)
    decreases |s|
  {
    if |s| > 0 {
      if IsSpace(s[0]) {
        WordsCoverNonSpace(s[1..]);
      } else {
        var n := Span(s, NotSpace);
        WordsCoverNonSpace(s[n..]);
        assert s == s[..n] + s[n..];
        NonSpaceAppend(s[..n], s[n..]);
        NonSpaceOfWord(s[..n]);
      }
    }
  }


  /** `s.lstrip()`: drop leading whitespace. */
  function StripLeft(s: string): (r: string)
    ensures |r| <= |s| && r == s[|s| - |r|..]
    ensures forall i :: 0 <= i < |s| - |r| ==> IsSpace(s[i])
    ensures |r| > 0 ==> !IsSpace(r[0])
  {
    if |s| > 0 && IsSpace(s[0]) then StripLeft(s[1..]) else s
  }

  /** `s.rstrip()`: drop trailing whitespace. */
  function StripRight(s: string): (r: string)
    ensures |r| <= |s| && r == s[..|r|]
    ensures forall i :: |r| <= i < |s| ==> IsSpace(s[i])
    ensures |r| > 0 ==> !IsSpace(r[|r| - 1])
  {
    if |s| > 0 && IsSpace(s[|s| - 1]) then StripRight(s[..|s| - 1]) else s
  }

  /** `s.strip()`: drop whitespace at both ends. */
  function Strip(s: string): (r: string)
    ensures |r| <= |s|
    ensures |r| > 0 ==> !IsSpace(r[0]) && !IsSpace(r[|r| - 1])
  {
    StripRight(StripLeft(s))
  }

  /** A string with no whitespace at either end is its own stripped form. */
  lemma {:induction false} StripTrimmed(s: string)
    requires |s| > 0 ==> !IsSpace(s[0]) && !IsSpace(s[|s| - 1])
    ensures Strip(s) == s
  {
  }

  /** Stripping twice is stripping once. */
  lemma StripIdempotent(s: string)
    ensures Strip(Strip(s)) == Strip(s)
  {
    StripTrimmed(Strip(s));
  }

  predicate IsDigit(c: char) { '0' <= c <= '9' }

  /** `str(n)` for a non-negative int: its decimal digits, no leading zero. */
  function NatToString(n: nat): (s: string)
    ensures |s| > 0 && forall i :: 0 <= i < |s| ==> IsDigit(s[i])
    ensures |s| > 1 ==> s[0] != '0'
  {
    if n < 10 then [('0' as int + n) as char]
    else NatToString(n / 10) + [('0' as int + n % 10) as char]
  }

  function DigitsValue(s: string): nat
    requires forall i :: 0 <= i < |s| ==> IsDigit(s[i])
  {
    if |s| == 0 then 0
    else
      var last := s[|s| - 1];
      assert IsDigit(last);
      DigitsValue(s[..|s| - 1]) * 10 + (last as int - '0' as int)
  }

  /** Reading the digits back gives the number. */
  lemma {:induction false} NatToStringRoundTrip(n: nat)
    ensures DigitsValue(NatToString(n)) == n
  {
    if n >= 10 {
      NatToStringRoundTrip(n / 10);
      var s := NatToString(n);
      assert s[..|s| - 1] == NatToString(n / 10);
    }
  }
}
