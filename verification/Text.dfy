/** Python `str` operations the tracker relies on, written out over `seq<char>`:
    `isspace`, `strip`, `startswith`/`endswith`, slicing `s[:n]`, `split(sep)`,
    `split()` with no argument, `sep.join(...)`, ASCII `lower()`, `int(...)`
    and the decimal rendering of an `int`. */
module Text {
  import opened Wrappers

  /** Python's `str.isspace()`: exactly the code points that `strip()` and
      argument-less `split()` treat as whitespace. */
  predicate IsSpace(c: char) {
    c == ' ' || ('\t' <= c <= '\r') || ('\U{1C}' <= c <= '\U{1F}')
    || c == '\U{85}' || c == '\U{A0}' || c == '\U{1680}'
    || ('\U{2000}' <= c <= '\U{200A}') || c == '\U{2028}' || c == '\U{2029}'
    || c == '\U{202F}' || c == '\U{205F}' || c == '\U{3000}'
  }

  predicate NoSpace(s: string) {
    forall i :: 0 <= i < |s| ==> !IsSpace(s[i])
  }

  /** Every character is whitespace (vacuously so for the empty string). */
  predicate NoneButSpace(s: string) {
    forall i :: 0 <= i < |s| ==> IsSpace(s[i])
  }

  /** Neither the first nor the last character is whitespace: what `strip()` produces. */
  predicate IsTrimmed(s: string) {
    s == [] || (!IsSpace(s[0]) && !IsSpace(s[|s| - 1]))
  }

  predicate StartsWith(s: string, prefix: string) {
    |prefix| <= |s| && s[..|prefix|] == prefix
  }

  predicate EndsWith(s: string, suffix: string) {
    |suffix| <= |s| && s[|s| - |suffix|..] == suffix
  }

  /** Python's slice `s[:n]`. */
  function Take<T>(s: seq<T>, n: nat): (r: seq<T>)
    ensures |r| == if |s| < n then |s| else n
    ensures r == s[..|r|]
  {
    if |s| <= n then s else s[..n]
  }

  /** A non-empty sequence is its front followed by its last element. */
  lemma InitLast<T>(s: seq<T>)
    requires s != []
    ensures s == s[..|s| - 1] + [s[|s| - 1]]
  {
  }

  /** A sequence is its three slices at `i` and `j`, put back together. */
  lemma CutInThree<T>(s: seq<T>, i: nat, j: nat)
    requires i <= j <= |s|
    ensures s == s[..i] + (s[i..j] + s[j..])
  {
  }

  /** The front and the last element of a concatenation with a non-empty right part. */
  lemma ConcatInit<T>(a: seq<T>, b: seq<T>)
    requires b != []
    ensures (a + b)[..|a + b| - 1] == a + b[..|b| - 1]
    ensures (a + b)[|a + b| - 1] == b[|b| - 1]
  {
  }

  // ---------------------------------------------------------------- strip()

  /** Number of leading whitespace characters. */
  function LeadingSpace(s: string): (k: nat)
    ensures k <= |s|
    ensures forall i :: 0 <= i < k ==> IsSpace(s[i])
    ensures k == |s| || !IsSpace(s[k])
  {
    if s == [] || !IsSpace(s[0]) then 0 else 1 + LeadingSpace(s[1..])
  }

  /** Index just past the last non-whitespace character (0 when there is none). */
  function TrailingStart(s: string): (k: nat)
    ensures k <= |s|
    ensures forall i :: k <= i < |s| ==> IsSpace(s[i])
    ensures k == 0 || !IsSpace(s[k - 1])
  {
    if s == [] || !IsSpace(s[|s| - 1]) then |s| else TrailingStart(s[..|s| - 1])
  }

  /** Python's `s.strip()`: the result is trimmed, every character of it comes
      from `s`, and a string that is already trimmed is left alone. */
  function Strip(s: string): (r: string)
    ensures IsTrimmed(r)
    ensures IsTrimmed(s) ==> r == s
    ensures forall c :: c in r ==> c in s
    ensures r == [] <==> forall i :: 0 <= i < |s| ==> IsSpace(s[i])
  {
    var i := LeadingSpace(s);
    var j := TrailingStart(s);
    if j <= i then []
    else
      var r := s[i..j];
      assert forall c :: c in r ==> c in s by {
        forall c | c in r ensures c in s {
          var k :| 0 <= k < |r| && r[k] == c;
          assert s[i + k] == c;
        }
      }
      r
  }

  /** `strip()` removes exactly the whitespace at both ends: what is left is a
      slice of `s` with nothing but whitespace before and after it. */
  lemma StripCutsEnds(s: string)
    ensures exists i, j ::
              (0 <= i <= j <= |s| && Strip(s) == s[i..j]
               && (forall k :: 0 <= k < i ==> IsSpace(s[k])) && (forall k :: j <= k < |s| ==> IsSpace(s[k])))
  {
    var i := LeadingSpace(s);
    var j := TrailingStart(s);
    if j <= i {
      assert Strip(s) == s[i..i];
    } else {
      assert Strip(s) == s[i..j];
    }
  }

  /** Stripping one space and a trimmed word gives the word. */
  lemma StripAfterSpace(x: string)
    requires x != [] && IsTrimmed(x)
    ensures Strip(" " + x) == x
  {
    var s := " " + x;
    assert s[1..] == x;
    assert LeadingSpace(s) == 1;
    assert TrailingStart(s) == |s|;
  }

  // ----------------------------------------------------------- split / join

  /** Python's `sep.join(parts)`. */
  function Join(parts: seq<string>, sep: string): string {
    if |parts| == 0 then []
    else if |parts| == 1 then parts[0]
    else parts[0] + sep + Join(parts[1..], sep)
  }

  /** A join of non-empty trimmed parts is trimmed, whatever the separator. */
  lemma {:induction false} JoinTrimmed(parts: seq<string>, sep: string)
    requires forall i :: 0 <= i < |parts| ==> parts[i] != [] && IsTrimmed(parts[i])
    ensures IsTrimmed(Join(parts, sep))
    ensures |parts| >= 1 ==> |Join(parts, sep)| >= 1
  {
    if |parts| > 1 {
      JoinTrimmed(parts[1..], sep);
      var rest := Join(parts[1..], sep);
      assert (parts[0] + sep + rest)[0] == parts[0][0];
      assert (parts[0] + sep + rest)[|parts[0] + sep + rest| - 1] == rest[|rest| - 1];
    }
  }

  /** Python's `s.split(c)` for a one-character separator: never empty, and no
      piece contains the separator. */
  function SplitOn(s: string, c: char): (r: seq<string>)
    ensures |r| >= 1
    ensures forall i :: 0 <= i < |r| ==> c !in r[i]
  {
    if s == [] then [[]]
    else if s[0] == c then [[]] + SplitOn(s[1..], c)
    else
      var rest := SplitOn(s[1..], c);
      [[s[0]] + rest[0]] + rest[1..]
  }

  lemma {:induction false} JoinConsHead(x: string, parts: seq<string>, sep: string)
    requires |parts| >= 1
    ensures Join([x + parts[0]] + parts[1..], sep) == x + Join(parts, sep)
  {
    var ps := [x + parts[0]] + parts[1..];
    if |parts| > 1 {
      assert ps[1..] == parts[1..];
    }
  }

  /** Joining the pieces of `s.split(c)` with `c` gives `s` back. */
  lemma {:induction false} JoinSplitOn(s: string, c: char)
    ensures Join(SplitOn(s, c), [c]) == s
  {
    if s == [] {
    } else if s[0] == c {
      JoinSplitOn(s[1..], c);
      var rest := SplitOn(s[1..], c);
      assert ([[]] + rest)[1..] == rest;
    } else {
      JoinSplitOn(s[1..], c);
      JoinConsHead([s[0]], SplitOn(s[1..], c), [c]);
    }
  }

  lemma {:induction false} SplitOnFree(a: string, c: char)
    requires c !in a
    ensures SplitOn(a, c) == [a]
  {
    if a != [] {
      SplitOnFree(a[1..], c);
      assert [a[0]] + a[1..] == a;
    }
  }

  lemma {:induction false} SplitOnConcat(a: string, c: char, b: string)
    requires c !in a
    ensures SplitOn(a + [c] + b, c) == [a] + SplitOn(b, c)
  {
    if a == [] {
      assert a + [c] + b == [c] + b;
      assert ([c] + b)[1..] == b;
    } else {
      assert (a + [c] + b)[1..] == a[1..] + [c] + b;
      SplitOnConcat(a[1..], c, b);
      assert [a[0]] + a[1..] == a;
    }
  }

  /** Splitting a join on a separator none of the parts contains gives the parts back. */
  lemma {:induction false} SplitOnJoin(parts: seq<string>, c: char)
    requires |parts| >= 1
    requires forall i :: 0 <= i < |parts| ==> c !in parts[i]
    ensures SplitOn(Join(parts, [c]), c) == parts
  {
    if |parts| == 1 {
      SplitOnFree(parts[0], c);
    } else {
      SplitOnJoin(parts[1..], c);
      SplitOnConcat(parts[0], c, Join(parts[1..], [c]));
      assert [parts[0]] + parts[1..] == parts;
    }
  }

  // ------------------------------------------------- split() with no argument

  /** Python's `s.split()`: the maximal runs of non-whitespace, in order. */
  function Tokens(s: string): (r: seq<string>)
    ensures forall i :: 0 <= i < |r| ==> r[i] != [] && NoSpace(r[i])
    ensures s != [] && !IsSpace(s[0]) ==> r != [] && r[0][0] == s[0]
    decreases |s|
  {
    if s == [] then []
    else if IsSpace(s[0]) then Tokens(s[1..])
    else
      var rest := Tokens(s[1..]);
      if |s| > 1 && !IsSpace(s[1]) then [[s[0]] + rest[0]] + rest[1..]
      else [[s[0]]] + rest
  }

  /** Leading whitespace adds no word. */
  lemma {:induction false} TokensAfterBlank(w: string, b: string)
    requires NoneButSpace(w)
    ensures Tokens(w + b) == Tokens(b)
    decreases |w|
  {
    if w != [] {
      assert (w + b)[0] == w[0] && (w + b)[1..] == w[1..] + b;
      TokensAfterBlank(w[1..], b);
    } else {
      assert w + b == b;
    }
  }

  /** Whitespace between two texts separates their words and adds none. */
  lemma {:induction false} TokensAroundBlank(a: string, w: string, b: string)
    requires w != [] && NoneButSpace(w)
    ensures Tokens(a + w + b) == Tokens(a) + Tokens(b)
    decreases |a|
  {
    var s := a + w + b;
    if a == [] {
      assert s == w + b;
      TokensAfterBlank(w, b);
    } else {
      assert s[0] == a[0] && s[1..] == a[1..] + w + b;
      assert s[1] == if |a| > 1 then a[1] else w[0];
      TokensAroundBlank(a[1..], w, b);
    }
  }

  lemma {:induction false} TokensOfWord(w: string)
    requires w != [] && NoSpace(w)
    ensures Tokens(w) == [w]
    decreases |w|
  {
    if |w| > 1 {
      TokensOfWord(w[1..]);
      assert !IsSpace(w[1]);
      assert [w[0]] + w[1..] == w;
    } else {
      assert w[1..] == [];
      assert [w[0]] == w;
    }
  }

  /** `" ".join(words).split() == words` for non-empty words without whitespace. */
  lemma {:induction false} TokensOfJoin(words: seq<string>)
    requires forall i :: 0 <= i < |words| ==> words[i] != [] && NoSpace(words[i])
    ensures Tokens(Join(words, " ")) == words
  {
    if |words| == 1 {
      TokensOfWord(words[0]);
    } else if |words| > 1 {
      TokensOfJoin(words[1..]);
      TokensOfWord(words[0]);
      TokensAroundBlank(words[0], " ", Join(words[1..], " "));
      assert [words[0]] + words[1..] == words;
    }
  }

  /** The words of each part, in order: `[w for p in parts for w in p.split()]`. */
  function TokensOfAll(parts: seq<string>): seq<string> {
    if parts == [] then [] else Tokens(parts[0]) + TokensOfAll(parts[1..])
  }

  lemma {:induction false} TokensOfAllAppend(a: seq<string>, b: seq<string>)
    ensures TokensOfAll(a + b) == TokensOfAll(a) + TokensOfAll(b)
  {
    if a != [] {
      assert (a + b)[0] == a[0] && (a + b)[1..] == a[1..] + b;
      TokensOfAllAppend(a[1..], b);
    } else {
      assert a + b == b;
    }
  }

  /** Joining with a whitespace separator neither merges nor splits words:
      the words of the join are the words of the parts, in order. */
  lemma {:induction false} TokensOfBlankJoin(parts: seq<string>, sep: string)
    requires sep != [] && NoneButSpace(sep)
    ensures Tokens(Join(parts, sep)) == TokensOfAll(parts)
  {
    if |parts| == 1 {
      assert TokensOfAll(parts) == Tokens(parts[0]) + TokensOfAll([]);
    } else if |parts| > 1 {
      TokensOfBlankJoin(parts[1..], sep);
      TokensAroundBlank(parts[0], sep, Join(parts[1..], sep));
    }
  }

  /** `s.strip().split() == s.split()`. */
  lemma TokensOfStrip(s: string)
    ensures Tokens(Strip(s)) == Tokens(s)
  {
    var i := LeadingSpace(s);
    var j := TrailingStart(s);
    if j <= i {
      assert NoneButSpace(s);
      TokensAfterBlank(s, []);
      assert s + [] == s;
    } else {
      var m := s[i..j];
      assert Strip(s) == m;
      assert NoneButSpace(s[..i]);
      assert NoneButSpace(s[j..]);
      TokensAfterBlank(s[..i], m + s[j..]);
      if j < |s| {
        TokensAroundBlank(m, s[j..], []);
        assert m + s[j..] + [] == m + s[j..];
      } else {
        assert m + s[j..] == m;
      }
      CutInThree(s, i, j);
    }
  }

  // ------------------------------------------------------------------ lower()

  predicate IsAsciiLetter(c: char) {
    'a' <= c <= 'z' || 'A' <= c <= 'Z'
  }

  function LowerChar(c: char): char {
    if 'A' <= c <= 'Z' then (c as int + 32) as char else c
  }

  function UpperChar(c: char): char {
    if 'a' <= c <= 'z' then (c as int - 32) as char else c
  }

  /** Upper-casing a letter gives a capital of the same letter. */
  lemma UpperOfLetter(c: char)
    requires IsAsciiLetter(c)
    ensures 'A' <= UpperChar(c) <= 'Z' && LowerChar(UpperChar(c)) == LowerChar(c)
  {
  }

  /** Python's `s.lower()` restricted to the ASCII letters. */
  function Lower(s: string): (r: string)
    ensures |r| == |s|
  {
    seq(|s|, i requires 0 <= i < |s| => LowerChar(s[i]))
  }

  /** Lower-casing twice is lower-casing once. */
  lemma LowerIdempotent(s: string)
    ensures Lower(Lower(s)) == Lower(s)
  {
    var l := Lower(s);
    assert forall i :: 0 <= i < |s| ==> Lower(l)[i] == l[i];
  }

  // ------------------------------------------------------------ int <-> text

  predicate IsDigit(c: char) {
    '0' <= c <= '9'
  }

  function DigitChar(d: nat): (c: char)
    requires d < 10
    ensures IsDigit(c) && c as int - '0' as int == d
  {
    ('0' as int + d) as char
  }

  /** `str(n)` for a natural number. */
  function NatToString(n: nat): (s: string)
    ensures |s| >= 1 && IsDigit(s[0]) && IsDigit(s[|s| - 1])
    ensures forall i :: 0 <= i < |s| ==> IsDigit(s[i])
  {
    if n < 10 then [DigitChar(n)] else NatToString(n / 10) + [DigitChar(n % 10)]
  }

  /** `str(i)` for any integer. */
  function IntToString(i: int): string {
    if i < 0 then "-" + NatToString(-i) else NatToString(i)
  }

  /** The body of a Python decimal literal as `int()` accepts it: digits, with
      single underscores allowed between two digits. */
  predicate IsDecimalBody(s: string) {
    && |s| >= 1
    && (forall i :: 0 <= i < |s| ==> IsDigit(s[i]) || s[i] == '_')
    && (forall i :: 0 <= i < |s| && s[i] == '_' ==> 0 < i < |s| - 1 && IsDigit(s[i - 1]) && IsDigit(s[i + 1]))
  }

  /** The value of the digits of `s`, skipping underscores. */
  function DigitsValue(s: string): nat {
    if s == [] then 0
    else if IsDigit(s[|s| - 1]) then 10 * DigitsValue(s[..|s| - 1]) + (s[|s| - 1] as int - '0' as int)
    else DigitsValue(s[..|s| - 1])
  }

  /** Python's `int(s)` on a string already stripped of surrounding whitespace:
      `None` where Python raises `ValueError`. */
  function ParseInt(s: string): (r: Option<int>)
    ensures r.Some? ==> |s| >= 1
  {
    if |s| >= 1 && (s[0] == '+' || s[0] == '-') then
      var body := s[1..];
      if !IsDecimalBody(body) then None
      else if s[0] == '-' then Some(0 - DigitsValue(body) as int)
      else Some(DigitsValue(body))
    else if IsDecimalBody(s) then Some(DigitsValue(s))
    else None
  }

  lemma {:induction false} DigitsValueOfNat(n: nat)
    ensures DigitsValue(NatToString(n)) == n
  {
    var s := NatToString(n);
    if n >= 10 {
      DigitsValueOfNat(n / 10);
      assert s[..|s| - 1] == NatToString(n / 10);
    }
  }

  /** A non-empty run of digits is a decimal literal body. */
  lemma DigitsAreDecimalBody(s: string)
    requires |s| >= 1 && forall i :: 0 <= i < |s| ==> IsDigit(s[i])
    ensures IsDecimalBody(s)
  {
  }

  /** A run of digits, with or without a minus sign, is read as its value. */
  lemma ParseIntOfDigits(body: string)
    requires |body| >= 1 && forall i :: 0 <= i < |body| ==> IsDigit(body[i])
    ensures ParseInt(body) == Some(DigitsValue(body) as int)
    ensures ParseInt("-" + body) == Some(0 - DigitsValue(body) as int)
  {
    DigitsAreDecimalBody(body);
    var s := "-" + body;
    assert s[0] == '-' && s[1..] == body;
    assert IsDigit(body[0]);
  }

  /** `int(str(i)) == i`. */
  lemma ParseIntOfIntToString(i: int)
    ensures ParseInt(IntToString(i)) == Some(i)
  {
    var n: nat := if i < 0 then -i else i;
    var body := NatToString(n);
    DigitsValueOfNat(n);
    ParseIntOfDigits(body);
    assert IntToString(i) == if i < 0 then "-" + body else body;
  }
}
