/**
 * Characters and strings as the translator sees them: the ASCII part of
 * Python's whitespace, letter, digit and word classes, `str.upper`,
 * `str.strip`, `str.isdigit`/`int(...)` on digit strings, `str(n)`, and the
 * code-point order `sorted` uses on strings.
 */
module Text {

  /** Concatenation is associative; long proofs about appended lists call this at the step that needs it. */
  lemma AppendAssoc<T>(a: seq<T>, b: seq<T>, c: seq<T>)
    ensures (a + b) + c == a + (b + c)
  {
  }

  /** `str.isspace` (and regex `\s`) restricted to ASCII: space, \t \n \v \f \r and 0x1C-0x1F. */
  predicate IsSpace(c: char) {
    c == ' ' || ('\t' <= c <= '\r') || ('\U{1C}' <= c <= '\U{1F}')
  }

  predicate IsDigit(c: char) { '0' <= c <= '9' }

  predicate IsLetter(c: char) { ('A' <= c <= 'Z') || ('a' <= c <= 'z') }

  /** Regex `\w` restricted to ASCII. */
  predicate IsWordChar(c: char) { IsLetter(c) || IsDigit(c) || c == '_' }

  predicate AllSpace(s: string) { forall k :: 0 <= k < |s| ==> IsSpace(s[k]) }

  predicate AllWord(s: string) { forall k :: 0 <= k < |s| ==> IsWordChar(s[k]) }

  /** `[A-Za-z]\w*` */
  predicate IsIdent(s: string) { |s| > 0 && IsLetter(s[0]) && AllWord(s) }

  /** `str.isdigit()` on ASCII: non-empty and every character a decimal digit. */
  predicate AllDigits(s: string) { |s| > 0 && forall k :: 0 <= k < |s| ==> IsDigit(s[k]) }

  /** `str.upper()` on one ASCII character. */
  function UpperChar(c: char): char {
    if 'a' <= c <= 'z' then (c as int - 32) as char else c
  }

  function Upper(s: string): string {
    seq(|s|, k requires 0 <= k < |s| => UpperChar(s[k]))
  }

  /** Case-insensitive equality with an upper-case keyword, as `re.IGNORECASE` matches a literal. */
  predicate CiEquals(s: string, kw: string) {
    |s| == |kw| && forall k :: 0 <= k < |s| ==> UpperChar(s[k]) == kw[k]
  }

  /** A keyword of the pseudocode: non-empty, upper-case letters only. */
  predicate IsKeyword(kw: string) { |kw| > 0 && forall k :: 0 <= k < |kw| ==> 'A' <= kw[k] <= 'Z' }

  lemma UpperIdempotent(s: string)
    ensures Upper(Upper(s)) == Upper(s)
  {
  }

  /** Upper-casing keeps a word a word, an identifier an identifier and a digit string a digit string. */
  lemma UpperKeepsClasses(s: string)
    ensures AllWord(s) ==> AllWord(Upper(s))
    ensures IsIdent(s) ==> IsIdent(Upper(s))
    ensures AllDigits(s) ==> Upper(s) == s
  {
  }

  /** A character that matches an upper-case keyword letter case-insensitively is a letter, so not a space. */
  lemma KeywordCharNotSpace(c: char, k: char)
    requires 'A' <= k <= 'Z' && UpperChar(c) == k
    ensures IsLetter(c) && !IsSpace(c) && IsWordChar(c)
  {
  }

  // ---------------------------------------------------------------------------
  // str.strip()

  function StripLeft(s: string): (r: string)
    ensures |r| <= |s|
  {
    if |s| > 0 && IsSpace(s[0]) then StripLeft(s[1..]) else s
  }

  function StripRight(s: string): (r: string)
    ensures |r| <= |s|
  {
    if |s| > 0 && IsSpace(s[|s| - 1]) then StripRight(s[..|s| - 1]) else s
  }

  /** `str.strip()`: drop leading and trailing whitespace. */
  function Strip(s: string): string {
    StripRight(StripLeft(s))
  }

  lemma {:induction false} StripLeftPadded(pre: string, x: string)
    requires AllSpace(pre)
    requires x == [] || !IsSpace(x[0])
    ensures StripLeft(pre + x) == x
    decreases |pre|
  {
    if pre == [] {
      assert pre + x == x;
    } else {
      assert (pre + x)[1..] == pre[1..] + x;
      StripLeftPadded(pre[1..], x);
    }
  }

  lemma {:induction false} StripRightPadded(x: string, post: string)
    requires AllSpace(post)
    requires x == [] || !IsSpace(x[|x| - 1])
    ensures StripRight(x + post) == x
    decreases |post|
  {
    if post == [] {
      assert x + post == x;
    } else {
      var n := |post|;
      assert (x + post)[..|x + post| - 1] == x + post[..n - 1];
      StripRightPadded(x, post[..n - 1]);
    }
  }

  /**
   * Strip undoes padding: a middle part with no whitespace at either end,
   * surrounded by whitespace, strips to exactly that middle part.
   */
  lemma StripPadded(pre: string, mid: string, post: string)
    requires AllSpace(pre) && AllSpace(post)
    requires mid != [] ==> !IsSpace(mid[0]) && !IsSpace(mid[|mid| - 1])
    ensures Strip(pre + mid + post) == mid
  {
    if mid == [] {
      assert pre + mid + post == pre + post;
      StripBlank(pre + post);
    } else {
      assert pre + mid + post == pre + (mid + post);
      StripLeftPadded(pre, mid + post);
      StripRightPadded(mid, post);
    }
  }

  /** A line of whitespace strips to nothing. */
  lemma StripBlank(s: string)
    requires AllSpace(s)
    ensures Strip(s) == []
  {
    StripLeftPadded(s, []);
    assert s + [] == s;
  }

  lemma {:induction false} StripLeftSplit(s: string) returns (pre: string)
    ensures s == pre + StripLeft(s) && AllSpace(pre)
    ensures StripLeft(s) == [] || !IsSpace(StripLeft(s)[0])
    decreases |s|
  {
    if |s| > 0 && IsSpace(s[0]) {
      var p := StripLeftSplit(s[1..]);
      pre := [s[0]] + p;
    } else {
      pre := [];
    }
  }

  lemma {:induction false} StripRightSplit(s: string) returns (post: string)
    ensures s == StripRight(s) + post && AllSpace(post)
    ensures StripRight(s) == [] || !IsSpace(StripRight(s)[|StripRight(s)| - 1])
    decreases |s|
  {
    if |s| > 0 && IsSpace(s[|s| - 1]) {
      var p := StripRightSplit(s[..|s| - 1]);
      post := p + [s[|s| - 1]];
    } else {
      post := [];
    }
  }

  /**
   * What `str.strip()` promises: the line is the stripped text with only
   * whitespace around it, and the stripped text neither starts nor ends
   * with whitespace.
   */
  lemma StripSplit(s: string) returns (pre: string, post: string)
    ensures s == pre + Strip(s) + post && AllSpace(pre) && AllSpace(post)
    ensures Strip(s) != [] ==> !IsSpace(Strip(s)[0]) && !IsSpace(Strip(s)[|Strip(s)| - 1])
  {
    pre := StripLeftSplit(s);
    var l := StripLeft(s);
    post := StripRightSplit(l);
    var r := StripRight(l);
    if r != [] {
      assert l == r + post;
      assert l[0] == r[0];
    }
  }

  /** A line strips to nothing exactly when it is all whitespace (Python's `if not linea`). */
  lemma StripEmptyIffBlank(s: string)
    ensures Strip(s) == [] <==> AllSpace(s)
  {
    var pre, post := StripSplit(s);
    if AllSpace(s) {
      StripPadded(s, [], []);
      assert s + [] + [] == s;
    }
    if Strip(s) == [] {
      assert s == pre + post;
      forall k | 0 <= k < |s| ensures IsSpace(s[k]) {
        if k < |pre| { assert s[k] == pre[k]; } else { assert s[k] == post[k - |pre|]; }
      }
    }
  }

  // ---------------------------------------------------------------------------
  // int(tok) and str(n)

  function DigitValue(c: char): nat
    requires IsDigit(c)
  {
    c as int - '0' as int
  }

  function DigitChar(d: nat): (c: char)
    requires d < 10
    ensures IsDigit(c) && DigitValue(c) == d
  {
    ('0' as int + d) as char
  }

  /** `int(tok)` for a string of decimal digits; leading zeros are allowed, as in Python. */
  function DigitsValue(s: string): nat
    requires forall k :: 0 <= k < |s| ==> IsDigit(s[k])
  {
    if s == [] then 0 else DigitsValue(s[..|s| - 1]) * 10 + DigitValue(s[|s| - 1])
  }

  /** `str(n)`: the decimal numeral of `n`, without leading zeros. */
  function NatToString(n: nat): (r: string)
    ensures AllDigits(r)
    ensures |r| > 1 ==> r[0] != '0'
  {
    if n < 10 then [DigitChar(n)] else NatToString(n / 10) + [DigitChar(n % 10)]
  }

  /** `int(str(n)) == n`. */
  lemma {:induction false} DigitsValueOfNatToString(n: nat)
    ensures DigitsValue(NatToString(n)) == n
  {
    if n >= 10 {
      DigitsValueOfNatToString(n / 10);
      var r := NatToString(n);
      assert r[..|r| - 1] == NatToString(n / 10);
    }
  }

  /** Distinct numbers have distinct numerals, so `"CTE" + str(v)` labels never clash. */
  lemma NatToStringInjective(m: nat, n: nat)
    ensures NatToString(m) == NatToString(n) <==> m == n
  {
    if NatToString(m) == NatToString(n) {
      DigitsValueOfNatToString(m);
      DigitsValueOfNatToString(n);
    }
  }

  // ---------------------------------------------------------------------------
  // The order Python's `sorted` uses on str: code point by code point, a proper prefix first.

  predicate LexLess(a: string, b: string)
    decreases |a|
  {
    if a == [] then b != []
    else if b == [] then false
    else if a[0] != b[0] then a[0] < b[0]
    else LexLess(a[1..], b[1..])
  }

  lemma {:induction false} LexLessIrreflexive(a: string)
    ensures !LexLess(a, a)
    decreases |a|
  {
    if a != [] { LexLessIrreflexive(a[1..]); }
  }

  lemma {:induction false} LexLessTransitive(a: string, b: string, c: string)
    requires LexLess(a, b) && LexLess(b, c)
    ensures LexLess(a, c)
    decreases |a|
  {
    if a != [] && b != [] && c != [] && a[0] == b[0] && b[0] == c[0] {
      LexLessTransitive(a[1..], b[1..], c[1..]);
    }
  }

  lemma {:induction false} LexLessTotal(a: string, b: string)
    ensures a == b || LexLess(a, b) || LexLess(b, a)
    decreases |a|
  {
    if a != [] && b != [] && a[0] == b[0] {
      LexLessTotal(a[1..], b[1..]);
      if a[1..] == b[1..] {
        assert a == [a[0]] + a[1..] && b == [b[0]] + b[1..];
      }
    }
  }
}
