/** Character classes and the handful of Python string operations the
    scene-id parsers and URL templates rely on (`lstrip`, `lower`,
    `replace`, `split`, `startswith`, `in`, `{:02d}` padding), over
    `seq<char>`.  Character classes are the ASCII ones. */
module Text {

  type Str = seq<char>

  predicate IsDigit(c: char) { '0' <= c <= '9' }
  predicate IsUpper(c: char) { 'A' <= c <= 'Z' }
  predicate IsLower(c: char) { 'a' <= c <= 'z' }
  predicate IsLetter(c: char) { IsUpper(c) || IsLower(c) }
  /** `\w` restricted to ASCII. */
  predicate IsWordChar(c: char) { IsLetter(c) || IsDigit(c) || c == '_' }
  /** `[A-Z0-9]`. */
  predicate IsUpperOrDigit(c: char) { IsUpper(c) || IsDigit(c) }

  predicate AllDigits(s: Str) { forall i :: 0 <= i < |s| ==> IsDigit(s[i]) }
  predicate AllUpper(s: Str) { forall i :: 0 <= i < |s| ==> IsUpper(s[i]) }
  predicate AllWord(s: Str) { forall i :: 0 <= i < |s| ==> IsWordChar(s[i]) }
  predicate AllUpperOrDigit(s: Str) { forall i :: 0 <= i < |s| ==> IsUpperOrDigit(s[i]) }
  /** `[A-Z]` under IGNORECASE. */
  predicate AllLetters(s: Str) { forall i :: 0 <= i < |s| ==> IsLetter(s[i]) }
  /** `[0-9A-Z]` under IGNORECASE. */
  predicate AllAlnum(s: Str) { forall i :: 0 <= i < |s| ==> IsLetter(s[i]) || IsDigit(s[i]) }

  predicate StartsWith(s: Str, p: Str) { |p| <= |s| && s[..|p|] == p }
  predicate EndsWith(s: Str, p: Str) { |p| <= |s| && s[|s| - |p|..] == p }

  /** Python's `x in s` for two strings: `x` occurs as a contiguous substring. */
  predicate Occurs(x: Str, s: Str) {
    exists i :: 0 <= i <= |s| - |x| && OccursAt(x, s, i)
  }

  predicate OccursAt(x: Str, s: Str, i: int)
    requires 0 <= i <= |s| - |x|
  {
    s[i..i + |x|] == x
  }

  /** The text a `...$` pattern is matched against: Python's `$` also
      matches just before one final newline. */
  function Body(s: Str): (b: Str)
    ensures b == s || (b + "\n" == s)
    ensures |s| > 0 && s[|s| - 1] == '\n' ==> |b| == |s| - 1
  {
    if |s| > 0 && s[|s| - 1] == '\n' then s[..|s| - 1] else s
  }

  function LowerChar(c: char): char {
    if IsUpper(c) then (c as int + 32) as char else c
  }

  /** The upper-case form of an ASCII letter; a literal or class of
      upper-case letters under IGNORECASE accepts `c` exactly when it
      accepts `UpperChar(c)`. */
  function UpperChar(c: char): char {
    if IsLower(c) then (c as int - 32) as char else c
  }

  /** `str.lower()` on ASCII letters. */
  function Lower(s: Str): (r: Str)
    ensures |r| == |s|
    ensures forall i :: 0 <= i < |s| ==> r[i] == LowerChar(s[i])
  {
    seq(|s|, i requires 0 <= i < |s| => LowerChar(s[i]))
  }

  /** `s.lstrip(c)` for a one-character argument. */
  function LStrip(s: Str, c: char): (r: Str)
    ensures |r| <= |s| && r == s[|s| - |r|..]
    ensures r == [] || r[0] != c
    ensures forall i :: 0 <= i < |s| - |r| ==> s[i] == c
  {
    if |s| > 0 && s[0] == c then LStrip(s[1..], c) else s
  }

  /** `s.replace(c, rep)` for a one-character pattern. */
  function ReplaceChar(s: Str, c: char, rep: Str): (r: Str)
    ensures c !in s ==> r == s
  {
    if s == [] then []
    else (if s[0] == c then rep else [s[0]]) + ReplaceChar(s[1..], c, rep)
  }

  lemma {:induction false} ReplaceCharAppend(a: Str, b: Str, c: char, rep: Str)
    ensures ReplaceChar(a + b, c, rep) == ReplaceChar(a, c, rep) + ReplaceChar(b, c, rep)
  {
    if a != [] {
      assert (a + b)[1..] == a[1..] + b;
      ReplaceCharAppend(a[1..], b, c, rep);
    } else {
      assert a + b == b;
    }
  }

  /** `s.split(sep)` for a one-character separator: never empty, and
      consecutive separators give empty fields. */
  function Split(s: Str, sep: char): (parts: seq<Str>)
    ensures |parts| >= 1
    ensures forall k :: 0 <= k < |parts| ==> sep !in parts[k]
  {
    if sep !in s then [s]
    else
      var i := FirstIndex(s, sep);
      [s[..i]] + Split(s[i + 1..], sep)
  }

  /** `sep.join(parts)`. */
  function Join(parts: seq<Str>, sep: char): Str
    requires |parts| >= 1
  {
    if |parts| == 1 then parts[0] else parts[0] + [sep] + Join(parts[1..], sep)
  }

  function FirstIndex(s: Str, c: char): (i: nat)
    requires c in s
    ensures i < |s| && s[i] == c && c !in s[..i]
  {
    if s[0] == c then 0 else 1 + FirstIndex(s[1..], c)
  }

  /** Splitting and joining on the same separator gives back the text. */
  lemma {:induction false} JoinSplit(s: Str, sep: char)
    ensures Join(Split(s, sep), sep) == s
    decreases |s|
  {
    if sep in s {
      var i := FirstIndex(s, sep);
      var rest := Split(s[i + 1..], sep);
      JoinSplit(s[i + 1..], sep);
      assert Split(s, sep) == [s[..i]] + rest;
      assert (Split(s, sep))[1..] == rest;
      assert s == s[..i] + [sep] + s[i + 1..];
    }
  }

  /** Splitting a join of separator-free fields gives back the fields. */
  lemma {:induction false} SplitJoin(parts: seq<Str>, sep: char)
    requires |parts| >= 1
    requires forall k :: 0 <= k < |parts| ==> sep !in parts[k]
    ensures Split(Join(parts, sep), sep) == parts
  {
    if |parts| > 1 {
      SplitJoin(parts[1..], sep);
      assert Join(parts, sep) == parts[0] + ([sep] + Join(parts[1..], sep));
      SplitFirstField(parts[0], Join(parts[1..], sep), sep);
    }
  }

  /** A separator-free field followed by the separator splits off first. */
  lemma SplitFirstField(p0: Str, rest: Str, sep: char)
    requires sep !in p0
    ensures Split(p0 + ([sep] + rest), sep) == [p0] + Split(rest, sep)
  {
    var s := p0 + ([sep] + rest);
    assert s[|p0|] == sep;
    assert s[..|p0|] == p0;
    FirstIndexAt(s, sep, |p0|);
    assert s[|p0| + 1..] == rest;
  }

  lemma FirstIndexAt(s: Str, c: char, i: nat)
    requires i < |s| && s[i] == c && c !in s[..i]
    ensures FirstIndex(s, c) == i
  {
  }

  /** Decimal value of a digit string (empty string has value 0). */
  function DigitsValue(s: Str): nat
    requires AllDigits(s)
  {
    if s == [] then 0
    else DigitsValue(s[..|s| - 1]) * 10 + (s[|s| - 1] as int - '0' as int)
  }

  function DigitChar(d: nat): (c: char)
    requires d < 10
    ensures IsDigit(c) && c as int - '0' as int == d
  {
    ('0' as int + d) as char
  }

  /** `str(n)`: the shortest decimal rendering of `n`. */
  function NatToStr(n: nat): (s: Str)
    ensures |s| >= 1 && AllDigits(s) && DigitsValue(s) == n
    ensures n > 0 ==> s[0] != '0'
    ensures n < 10 ==> |s| == 1
  {
    if n < 10 then [DigitChar(n)]
    else
      var p := NatToStr(n / 10);
      var s := p + [DigitChar(n % 10)];
      assert s[..|s| - 1] == p;
      s
  }

  /** `format(n, "0{w}d")`: `n` in decimal, left-padded with zeros to at
      least `w` characters (a wider number keeps all its digits). */
  function ZeroPad(n: nat, w: nat): (s: Str)
    ensures AllDigits(s) && DigitsValue(s) == n
    ensures |s| >= w && |s| >= 1
    ensures |s| == if |NatToStr(n)| >= w then |NatToStr(n)| else w
  {
    var d := NatToStr(n);
    if |d| >= w then d
    else
      var s := Zeros(w - |d|) + d;
      ZerosPrefixValue(w - |d|, d);
      s
  }

  function Zeros(k: nat): (z: Str)
    ensures |z| == k && AllDigits(z) && forall i :: 0 <= i < k ==> z[i] == '0'
  {
    seq(k, _ => '0')
  }

  /** Leading zeros do not change a digit string's value. */
  lemma {:induction false} ZerosPrefixValue(k: nat, d: Str)
    requires AllDigits(d)
    ensures AllDigits(Zeros(k) + d) && DigitsValue(Zeros(k) + d) == DigitsValue(d)
    decreases |d|
  {
    var s := Zeros(k) + d;
    if d == [] {
      assert s == Zeros(k);
      ZerosValue(k);
    } else {
      assert s[..|s| - 1] == Zeros(k) + d[..|d| - 1];
      ZerosPrefixValue(k, d[..|d| - 1]);
    }
  }

  lemma {:induction false} ZerosValue(k: nat)
    ensures DigitsValue(Zeros(k)) == 0
  {
    if k > 0 {
      assert Zeros(k)[..k - 1] == Zeros(k - 1);
      ZerosValue(k - 1);
    }
  }

  /** Two digit strings each followed by a non-digit: if the texts are
      equal, the digit runs are equal, and so are the tails. */
  lemma {:induction false} DigitRunUnique(a: Str, x: Str, b: Str, y: Str)
    requires AllDigits(a) && AllDigits(b)
    requires x != [] && !IsDigit(x[0]) && y != [] && !IsDigit(y[0])
    requires a + x == b + y
    ensures a == b && x == y
  {
    if a != [] && b != [] {
      assert a[0] == b[0] by { assert (a + x)[0] == a[0]; assert (b + y)[0] == b[0]; }
      assert (a + x)[1..] == a[1..] + x;
      assert (b + y)[1..] == b[1..] + y;
      DigitRunUnique(a[1..], x, b[1..], y);
      assert a == [a[0]] + a[1..];
      assert b == [b[0]] + b[1..];
    } else {
      // the first character is a digit exactly when the digit run is non-empty
      var t := a + x;
      assert !IsDigit(t[0]) <==> a == [];
      assert !IsDigit(t[0]) <==> b == [];
      assert a == [] && b == [];
      assert a + x == x && b + y == y;
    }
  }

  /** Equal zero-padded renderings come from equal numbers. */
  lemma ZeroPadInjective(n: nat, m: nat, w: nat)
    requires ZeroPad(n, w) == ZeroPad(m, w)
    ensures n == m
  {
  }

  /** `"{}-{}-{}".format(year, month, day)`. */
  function DateText(year: Str, month: Str, day: Str): Str {
    year + "-" + month + "-" + day
  }

  lemma DateSplits(y: Str, m: Str, d: Str)
    requires AllDigits(y) && AllDigits(m) && AllDigits(d)
    ensures Split(DateText(y, m, d), '-') == [y, m, d]
  {
    var parts := [y, m, d];
    assert '-' !in y && '-' !in m && '-' !in d by {
      assert !IsDigit('-');
    }
    assert forall k :: 0 <= k < |parts| ==> '-' !in parts[k] by {
      assert parts[0] == y && parts[1] == m && parts[2] == d;
    }
    SplitJoin(parts, '-');
    JoinThree(y, m, d, '-');
  }

  lemma JoinThree(y: Str, m: Str, d: Str, sep: char)
    ensures Join([y, m, d], sep) == y + [sep] + m + [sep] + d
  {
    assert [y, m, d][1..] == [m, d] && [m, d][1..] == [d];
    assert Join([d], sep) == d;
    assert Join([m, d], sep) == m + [sep] + d;
  }

  // Slicing helpers for proofs about fixed-width ids.

  lemma PrefixStep(b: Str, j: nat, k: nat)
    requires j <= k <= |b|
    ensures b[..j] + b[j..k] == b[..k]
  {
  }

  lemma Peel(t: Str, n: nat, p: Str, x: Str)
    requires n <= |t| && |p| + |x| == n && t[..n] == p + x
    ensures t[..|p|] == p && t[|p|..n] == x
  {
    assert t[..|p|] == t[..n][..|p|];
    assert t[|p|..n] == t[..n][|p|..];
  }

  lemma SingleChar(t: Str, i: nat)
    requires i < |t|
    ensures t[i..i + 1] == [t[i]]
  {
  }
}
