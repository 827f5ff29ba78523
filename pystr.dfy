/** The few Python `str` operations the modelled code relies on: whitespace
    splitting and stripping, splitting on a separator, prefix and suffix
    tests, ASCII lower-casing, `int(text)`, `str(n)` and `'%04i' % n`. */
module PyStr {
  import opened Wrappers

  /** Python's `str.isspace()` for one character. */
  predicate IsSpace(c: char) {
    var n := c as int;
    c == ' ' || 9 <= n <= 13 || 28 <= n <= 31 || n == 0x85 || n == 0xA0 || n == 0x1680
    || 0x2000 <= n <= 0x200A || n == 0x2028 || n == 0x2029 || n == 0x202F || n == 0x205F || n == 0x3000
  }

  predicate IsDigit(c: char) { '0' <= c <= '9' }

  predicate AllDigits(s: string) { forall i :: 0 <= i < |s| ==> IsDigit(s[i]) }

  predicate StartsWith(s: string, p: string) { |p| <= |s| && s[..|p|] == p }

  predicate EndsWith(s: string, p: string) { |p| <= |s| && s[|s| - |p|..] == p }

  /** `s.lstrip()`: the longest suffix of `s` that does not begin with whitespace. */
  function LStrip(s: string): (r: string)
    ensures |r| <= |s| && r == s[|s| - |r|..]
    ensures r == [] || !IsSpace(r[0])
    ensures forall i :: 0 <= i < |s| - |r| ==> IsSpace(s[i])
  {
    if |s| > 0 && IsSpace(s[0]) then LStrip(s[1..]) else s
  }

  /** `s.rstrip()`: the longest prefix of `s` that does not end with whitespace. */
  function RStrip(s: string): (r: string)
    ensures |r| <= |s| && r == s[..|r|]
    ensures r == [] || !IsSpace(r[|r| - 1])
    ensures forall i :: |r| <= i < |s| ==> IsSpace(s[i])
  {
    if |s| > 0 && IsSpace(s[|s| - 1]) then RStrip(s[..|s| - 1]) else s
  }

  /** `s.strip()`. */
  function Strip(s: string): string {
    RStrip(LStrip(s))
  }

  lemma StripIsContained(s: string)
    ensures exists i, j :: 0 <= i <= j <= |s| && Strip(s) == s[i..j]
  {
    var l := LStrip(s);
    var k := |s| - |l|;
    assert Strip(s) == s[k..k + |RStrip(l)|];
  }

  /** Strip leaves a string without surrounding whitespace unchanged, so it is idempotent. */
  lemma StripOfStripped(s: string)
    requires s == [] || (!IsSpace(s[0]) && !IsSpace(s[|s| - 1]))
    ensures Strip(s) == s
  {
  }

  lemma StripIdempotent(s: string)
    ensures Strip(Strip(s)) == Strip(s)
  {
    var t := Strip(s);
    var l := LStrip(s);
    if t != [] {
      assert t == l[..|t|];
      assert t[0] == l[0];
    }
    StripOfStripped(t);
  }

  /** ASCII lower-casing; `str.lower()` also folds non-ASCII letters. */
  function LowerChar(c: char): char {
    if 'A' <= c <= 'Z' then (c as int + 32) as char else c
  }

  function Lower(s: string): (r: string)
    ensures |r| == |s| && forall i :: 0 <= i < |s| ==> r[i] == LowerChar(s[i])
  {
    if s == [] then [] else [LowerChar(s[0])] + Lower(s[1..])
  }

  /** `s.split()` with no argument: the maximal runs of non-whitespace characters. */
  function Words(s: string): (r: seq<string>)
    ensures |s| > 0 && !IsSpace(s[0]) ==> |r| > 0 && |r[0]| > 0 && r[0][0] == s[0]
    ensures forall w :: w in r ==> |w| > 0
  {
    if s == [] then []
    else
      var rest := Words(s[1..]);
      if IsSpace(s[0]) then rest
      else if |s| > 1 && !IsSpace(s[1]) then [[s[0]] + rest[0]] + rest[1..]
      else [[s[0]]] + rest
  }

  function Concat(ws: seq<string>): string {
    if ws == [] then [] else ws[0] + Concat(ws[1..])
  }

  function RemoveSpaces(s: string): string {
    if s == [] then [] else (if IsSpace(s[0]) then [] else [s[0]]) + RemoveSpaces(s[1..])
  }

  /** No word holds whitespace. */
  lemma {:induction false} WordsHaveNoSpace(s: string)
    ensures forall k, i :: 0 <= k < |Words(s)| && 0 <= i < |Words(s)[k]| ==> !IsSpace(Words(s)[k][i])
  {
    if s != [] {
      WordsHaveNoSpace(s[1..]);
      var rest := Words(s[1..]);
      if !IsSpace(s[0]) && |s| > 1 && !IsSpace(s[1]) {
        var ws := [[s[0]] + rest[0]] + rest[1..];
        assert Words(s) == ws;
        forall k, i | 0 <= k < |ws| && 0 <= i < |ws[k]| ensures !IsSpace(ws[k][i]) {
          if k == 0 && i > 0 { assert ws[0][i] == rest[0][i - 1]; }
          else if k > 0 { assert ws[k] == rest[k]; }
        }
      } else if !IsSpace(s[0]) {
        var ws := [[s[0]]] + rest;
        assert Words(s) == ws;
        forall k, i | 0 <= k < |ws| && 0 <= i < |ws[k]| ensures !IsSpace(ws[k][i]) {
          if k > 0 { assert ws[k] == rest[k - 1]; }
        }
      }
    }
  }

  /** Together the words are exactly the non-whitespace characters of `s`, in order. */
  lemma {:induction false} WordsConcat(s: string)
    ensures Concat(Words(s)) == RemoveSpaces(s)
  {
    if s != [] {
      WordsConcat(s[1..]);
      var rest := Words(s[1..]);
      if !IsSpace(s[0]) && |s| > 1 && !IsSpace(s[1]) {
        var ws := [[s[0]] + rest[0]] + rest[1..];
        assert Words(s) == ws;
        assert Concat(rest) == rest[0] + Concat(rest[1..]);
        assert ws[1..] == rest[1..];
        assert Concat(ws) == [s[0]] + rest[0] + Concat(rest[1..]);
      } else if !IsSpace(s[0]) {
        var ws := [[s[0]]] + rest;
        assert Words(s) == ws;
        assert ws[1..] == rest;
      }
    }
  }

  /** `s.split(sep)` for a one-character separator. */
  function SplitOn(s: string, sep: char): (r: seq<string>)
    ensures |r| >= 1
  {
    if s == [] then [[]]
    else
      var rest := SplitOn(s[1..], sep);
      if s[0] == sep then [[]] + rest else [[s[0]] + rest[0]] + rest[1..]
  }

  function Join(ws: seq<string>, sep: string): string {
    if ws == [] then [] else if |ws| == 1 then ws[0] else ws[0] + sep + Join(ws[1..], sep)
  }

  /** The pieces contain no separator and joining them back gives `s`. */
  lemma {:induction false} SplitJoin(s: string, sep: char)
    ensures Join(SplitOn(s, sep), [sep]) == s
    ensures forall w :: w in SplitOn(s, sep) ==> sep !in w
  {
    if s != [] {
      SplitJoin(s[1..], sep);
      var rest := SplitOn(s[1..], sep);
      if s[0] == sep {
        assert SplitOn(s, sep) == [[]] + rest;
      } else {
        var ws := [[s[0]] + rest[0]] + rest[1..];
        assert SplitOn(s, sep) == ws;
        if |rest| == 1 {
          assert Join(ws, [sep]) == [s[0]] + rest[0];
        } else {
          assert Join(rest, [sep]) == rest[0] + [sep] + Join(rest[1..], [sep]);
          assert Join(ws, [sep]) == [s[0]] + rest[0] + [sep] + Join(rest[1..], [sep]);
        }
        forall w | w in ws ensures sep !in w {
          if w == [s[0]] + rest[0] { assert w[1..] == rest[0]; }
        }
      }
    }
  }

  /** A text with no separator splits into itself. */
  lemma {:induction false} SplitOnNoSep(x: string, sep: char)
    requires sep !in x
    ensures SplitOn(x, sep) == [x]
  {
    if x != [] {
      assert sep !in x[1..] by { assert forall i :: 0 <= i < |x| - 1 ==> x[1..][i] == x[i + 1]; }
      SplitOnNoSep(x[1..], sep);
      assert [x[0]] + x[1..] == x;
    }
  }

  /** Splitting at the first separator: the part before it is the first piece. */
  lemma {:induction false} SplitOnConcat(x: string, y: string, sep: char)
    requires sep !in x
    ensures SplitOn(x + [sep] + y, sep) == [x] + SplitOn(y, sep)
  {
    if x == [] {
      assert [] + [sep] + y == [sep] + y;
      assert ([sep] + y)[1..] == y;
    } else {
      var s := x + [sep] + y;
      assert s[1..] == x[1..] + [sep] + y;
      assert sep !in x[1..] by { assert forall i :: 0 <= i < |x| - 1 ==> x[1..][i] == x[i + 1]; }
      SplitOnConcat(x[1..], y, sep);
      assert [x[0]] + x[1..] == x;
    }
  }

  /** `str(i)` is a sign and digits only. */
  lemma IntToStringChars(i: int, c: char)
    requires c != '-' && !IsDigit(c)
    ensures c !in IntToString(i)
  {
    var d := NatToString(if i < 0 then -i else i);
    assert forall k :: 0 <= k < |d| ==> d[k] != c;
    if i < 0 {
      var s := IntToString(i);
      assert forall k :: 0 <= k < |s| ==> s[k] != c by {
        forall k | 0 <= k < |s| ensures s[k] != c {
          if k > 0 { assert s[k] == d[k - 1]; }
        }
      }
    }
  }

  /** `s.split(sep)[-1]`. */
  function LastSegment(s: string, sep: char): string {
    var parts := SplitOn(s, sep);
    parts[|parts| - 1]
  }

  function DigitValue(c: char): nat requires IsDigit(c) { c as int - '0' as int }

  function DigitChar(d: nat): char requires d < 10 { ('0' as int + d) as char }

  /** The value of a run of decimal digits, most significant first. */
  function DigitsValue(s: string): nat
    requires AllDigits(s)
  {
    if s == [] then 0 else DigitsValue(s[..|s| - 1]) * 10 + DigitValue(s[|s| - 1])
  }

  /** `str(n)` for a natural number. */
  function NatToString(n: nat): (r: string)
    ensures |r| > 0 && AllDigits(r)
  {
    if n < 10 then [DigitChar(n)] else NatToString(n / 10) + [DigitChar(n % 10)]
  }

  /** `str(i)` and `'%i' % i`. */
  function IntToString(i: int): string {
    if i < 0 then "-" + NatToString(-i) else NatToString(i)
  }

  lemma {:induction false} NatToStringValue(n: nat)
    ensures DigitsValue(NatToString(n)) == n
  {
    if n >= 10 {
      NatToStringValue(n / 10);
      var s := NatToString(n);
      assert s[..|s| - 1] == NatToString(n / 10);
    }
  }

  /** Distinct numbers print differently. */
  lemma NatToStringInjective(m: nat, n: nat)
    requires NatToString(m) == NatToString(n)
    ensures m == n
  {
    NatToStringValue(m);
    NatToStringValue(n);
  }

  /** Python's `int(text)` on a decimal literal: surrounding whitespace, an
      optional sign, then one or more ASCII digits. */
  function ParseInt(s: string): (r: Option<int>)
  {
    ParseStripped(Strip(s))
  }

  /** `int()` once surrounding whitespace is gone. */
  function ParseStripped(t: string): (r: Option<int>)
  {
    if |t| > 1 && (t[0] == '-' || t[0] == '+') && AllDigits(t[1..]) then
      Some(if t[0] == '-' then -(DigitsValue(t[1..]) as int) else DigitsValue(t[1..]))
    else if |t| > 0 && AllDigits(t) then Some(DigitsValue(t))
    else None
  }

  /** A sign, `z` leading zeros and the digits of `n` as `str` prints them:
      the spellings of an integer that `int()` reads. */
  function Spelling(sign: string, z: nat, n: nat): string {
    sign + seq(z, _ => '0') + NatToString(n)
  }

  function Abs(i: int): nat { if i < 0 then -i else i }

  /** A sign `int()` reads in front of the digits, agreeing with `i`'s sign. */
  predicate SignFits(sign: string, i: int) {
    (sign == "" || sign == "+" || sign == "-") && (sign == "-" ==> i <= 0) && (sign != "-" ==> i >= 0)
  }

  /** `int(text) == i` exactly when the stripped text is `i`'s digits, after
      optional zeros and a sign that agrees with `i`; nothing else is read. */
  lemma ParseIntSpelled(s: string, i: int)
    ensures ParseInt(s) == Some(i) <==> exists sign, z: nat :: SignFits(sign, i) && Strip(s) == Spelling(sign, z, Abs(i))
  {
    if ParseInt(s) == Some(i) {
      var sign, z := ParsedIsSpelled(Strip(s), i);
    }
    if exists sign, z: nat :: SignFits(sign, i) && Strip(s) == Spelling(sign, z, Abs(i)) {
      var sign, z: nat :| SignFits(sign, i) && Strip(s) == Spelling(sign, z, Abs(i));
      SpelledIsParsed(Strip(s), i, sign, z);
    }
  }

  lemma ParsedIsSpelled(t: string, i: int) returns (sign: string, z: nat)
    requires ParseStripped(t) == Some(i)
    ensures SignFits(sign, i) && t == Spelling(sign, z, Abs(i))
  {
    if |t| > 1 && (t[0] == '-' || t[0] == '+') && AllDigits(t[1..]) {
      sign := [t[0]];
      z := CanonicalDigits(t[1..]);
      assert t == sign + t[1..];
    } else {
      sign := "";
      z := CanonicalDigits(t);
    }
  }

  lemma SpelledIsParsed(t: string, i: int, sign: string, z: nat)
    requires SignFits(sign, i) && t == Spelling(sign, z, Abs(i))
    ensures ParseStripped(t) == Some(i)
  {
    var d := seq(z, _ => '0') + NatToString(Abs(i));
    assert |d| > 0 && AllDigits(d) && IsDigit(d[0]) && DigitsValue(d) == Abs(i) by {
      ZerosThenDigits(z, Abs(i));
    }
    if sign == "" {
      assert t == d;
      UnsignedParsed(d);
    } else {
      assert t == [sign[0]] + d;
      SignedParsed(sign[0], d);
    }
  }

  /** Digits alone read as their value. */
  lemma UnsignedParsed(d: string)
    requires |d| > 0 && AllDigits(d) && IsDigit(d[0])
    ensures ParseStripped(d) == Some(DigitsValue(d))
  {
  }

  /** A sign in front of digits reads as their value with that sign. */
  lemma SignedParsed(c: char, d: string)
    requires (c == '-' || c == '+') && |d| > 0 && AllDigits(d)
    ensures ParseStripped([c] + d) == Some(if c == '-' then -(DigitsValue(d) as int) else DigitsValue(d))
  {
    assert ([c] + d)[1..] == d;
  }

  /** Leading zeros in front of a number's digits do not change its value. */
  lemma ZerosThenDigits(z: nat, n: nat)
    ensures var d := seq(z, _ => '0') + NatToString(n);
      |d| > 0 && AllDigits(d) && IsDigit(d[0]) && DigitsValue(d) == n
  {
    LeadingZeros(z, NatToString(n));
    NatToStringValue(n);
  }

  /** A run of digits is its value's digits after some leading zeros. */
  lemma {:induction false} CanonicalDigits(d: string) returns (z: nat)
    requires |d| > 0 && AllDigits(d)
    ensures d == seq(z, _ => '0') + NatToString(DigitsValue(d))
    decreases |d|
  {
    if |d| > 1 && d[0] == '0' {
      DigitsValueFront(d);
      var z' := CanonicalDigits(d[1..]);
      z := z' + 1;
      assert d == ['0'] + d[1..];
      assert seq(z, _ => '0') == ['0'] + seq(z', _ => '0');
    } else {
      z := 0;
      NoLeadingZeroCanonical(d);
      assert seq(z, _ => '0') == [];
    }
  }

  /** Without a leading zero (or being "0" itself), digits are exactly what
      `str` prints for their value. */
  lemma {:induction false} NoLeadingZeroCanonical(d: string)
    requires |d| > 0 && AllDigits(d) && (d[0] != '0' || |d| == 1)
    ensures NatToString(DigitsValue(d)) == d
    decreases |d|
  {
    if |d| > 1 {
      var init := d[..|d| - 1];
      NoLeadingZeroCanonical(init);
      DigitsValueFront(init);
      assert DigitValue(init[0]) >= 1;
      var v := DigitsValue(d);
      assert v == DigitsValue(init) * 10 + DigitValue(d[|d| - 1]);
      assert v / 10 == DigitsValue(init) && v % 10 == DigitValue(d[|d| - 1]);
      assert d == init + [d[|d| - 1]];
    }
  }

  /** `int(str(i)) == i`. */
  lemma ParseIntOfIntToString(i: int)
    ensures ParseInt(IntToString(i)) == Some(i)
  {
    var s := IntToString(i);
    var d := NatToString(if i < 0 then -i else i);
    NatToStringValue(if i < 0 then -i else i);
    assert s[0] == '-' || IsDigit(s[0]);
    assert IsDigit(s[|s| - 1]);
    StripOfStripped(s);
    if i < 0 { assert s[1..] == d; }
  }

  /** `'%04i' % n` for a natural number: zero-padded to at least four digits. */
  function Pad4(n: nat): (r: string)
    ensures AllDigits(r)
  {
    var d := NatToString(n);
    if |d| >= 4 then d else seq(4 - |d|, _ => '0') + d
  }

  lemma {:induction false} LeadingZeros(z: nat, d: string)
    requires AllDigits(d)
    ensures AllDigits(seq(z, _ => '0') + d) && DigitsValue(seq(z, _ => '0') + d) == DigitsValue(d)
    decreases |d|
  {
    var s := seq(z, _ => '0') + d;
    if d == [] {
      assert s == seq(z, _ => '0');
      ZerosValue(z);
    } else {
      assert s[..|s| - 1] == seq(z, _ => '0') + d[..|d| - 1];
      LeadingZeros(z, d[..|d| - 1]);
    }
  }

  lemma {:induction false} ZerosValue(z: nat)
    ensures AllDigits(seq(z, _ => '0')) && DigitsValue(seq(z, _ => '0')) == 0
  {
    if z > 0 {
      assert seq(z, _ => '0')[..z - 1] == seq(z - 1, _ => '0');
      ZerosValue(z - 1);
    }
  }

  lemma {:induction false} NatToStringLength(n: nat)
    ensures n < 10 ==> |NatToString(n)| == 1
    ensures n < 100 ==> |NatToString(n)| <= 2
    ensures n < 1000 ==> |NatToString(n)| <= 3
    ensures n < 10000 ==> |NatToString(n)| <= 4
    ensures n >= 10 ==> |NatToString(n)| >= 2
    ensures n >= 100 ==> |NatToString(n)| >= 3
    ensures n >= 1000 ==> |NatToString(n)| >= 4
  {
    if n >= 10 { NatToStringLength(n / 10); }
  }

  /** Below 10000 the padded form has exactly four digits and reads back as `n`. */
  lemma Pad4Value(n: nat)
    ensures DigitsValue(Pad4(n)) == n
    ensures n < 10000 ==> |Pad4(n)| == 4
  {
    var d := NatToString(n);
    NatToStringValue(n);
    NatToStringLength(n);
    if |d| < 4 { LeadingZeros(4 - |d|, d); }
  }

  /** The piece after the last separator is what follows it. */
  lemma {:induction false} LastSegmentAfter(x: string, y: string, sep: char)
    requires sep !in y
    ensures |SplitOn(x + [sep] + y, sep)| >= 2
    ensures LastSegment(x + [sep] + y, sep) == y
  {
    var s := x + [sep] + y;
    if x == [] {
      assert s[1..] == y;
      SplitOnNoSep(y, sep);
    } else {
      assert s[1..] == x[1..] + [sep] + y;
      LastSegmentAfter(x[1..], y, sep);
    }
  }

  /** `s.rsplit(sep, 1)[0]`: what precedes the last `sep`, or all of `s`
      when it holds none. */
  function RSplitHead(s: string, sep: char): (r: string)
    ensures sep !in s ==> r == s
    ensures sep in s ==> |r| < |s| && s[..|r|] == r && s[|r|] == sep && sep !in s[|r| + 1..]
  {
    if sep !in s then s
    else if s[|s| - 1] == sep then s[..|s| - 1]
    else
      var t := s[..|s| - 1];
      assert s == t + [s[|s| - 1]];
      var r := RSplitHead(t, sep);
      assert s[|r| + 1..] == t[|r| + 1..] + [s[|s| - 1]];
      r
  }

  /** The head and the last piece put back together, around the separator,
      give `s` again. */
  lemma RSplitHeadLastSegment(s: string, sep: char)
    requires sep in s
    ensures RSplitHead(s, sep) + [sep] + LastSegment(s, sep) == s
  {
    var r := RSplitHead(s, sep);
    SplitAround(s, |r|);
    LastSegmentAfter(r, s[|r| + 1..], sep);
  }

  lemma SplitAround(s: string, i: nat)
    requires i < |s|
    ensures s == s[..i] + [s[i]] + s[i + 1..]
  {
    assert s[i..] == [s[i]] + s[i + 1..];
    assert s == s[..i] + s[i..];
  }

  /** `int(d)` of a run of digits is its value. */
  lemma ParseDigits(d: string)
    requires |d| > 0 && AllDigits(d)
    ensures ParseInt(d) == Some(DigitsValue(d) as int)
  {
    assert IsDigit(d[0]) && IsDigit(d[|d| - 1]);
    StripOfStripped(d);
  }

  /** Python's `<=` on strings: character by character, a prefix first. */
  predicate LexLe(a: string, b: string) {
    a == [] || (b != [] && (a[0] < b[0] || (a[0] == b[0] && LexLe(a[1..], b[1..]))))
  }

  function Pow10(n: nat): (p: nat)
    ensures p >= 1
  {
    if n == 0 then 1 else 10 * Pow10(n - 1)
  }

  /** The leading digit weighs `10^(|s| - 1)`. */
  lemma {:induction false} DigitsValueFront(s: string)
    requires AllDigits(s) && s != []
    ensures DigitsValue(s) == DigitValue(s[0]) * Pow10(|s| - 1) + DigitsValue(s[1..])
    decreases |s|
  {
    if |s| > 1 {
      var init := s[..|s| - 1];
      DigitsValueFront(init);
      assert init[1..] == s[1..][..|s| - 2];
      var d0, p, v, l := DigitValue(s[0]), Pow10(|s| - 2), DigitsValue(init[1..]), DigitValue(s[|s| - 1]);
      assert DigitsValue(s[1..]) == v * 10 + l;
      assert DigitsValue(s) == (d0 * p + v) * 10 + l;
      MulTen(d0, p);
    } else {
      assert s[1..] == [];
    }
  }

  lemma MulTen(x: nat, p: nat)
    ensures (x * p) * 10 == x * (10 * p)
  {
  }

  lemma {:induction false} DigitsValueBound(s: string)
    requires AllDigits(s)
    ensures DigitsValue(s) < Pow10(|s|)
  {
    if s != [] {
      DigitsValueBound(s[..|s| - 1]);
    }
  }

  /** On digit strings of one length, string order is numeric order. */
  lemma {:induction false} LexLeDigits(a: string, b: string)
    requires AllDigits(a) && AllDigits(b) && |a| == |b| && LexLe(a, b)
    ensures DigitsValue(a) <= DigitsValue(b)
    decreases |a|
  {
    if a != [] {
      DigitsValueFront(a);
      DigitsValueFront(b);
      if a[0] < b[0] {
        DigitsValueBound(a[1..]);
        LeadingDigitDominates(DigitValue(a[0]), DigitValue(b[0]), Pow10(|a| - 1), DigitsValue(a[1..]), DigitsValue(b[1..]));
      } else {
        LexLeDigits(a[1..], b[1..]);
      }
    }
  }

  lemma LeadingDigitDominates(da: nat, db: nat, p: nat, va: nat, vb: nat)
    requires da < db && va < p
    ensures da * p + va <= db * p + vb
  {
    assert (da + 1) * p <= db * p;
  }

  /** Comparing two strings with a common prefix compares what follows it. */
  lemma {:induction false} LexLeDropPrefix(p: string, a: string, b: string)
    requires LexLe(p + a, p + b)
    ensures LexLe(a, b)
  {
    if p == [] {
      assert p + a == a && p + b == b;
    } else {
      assert (p + a)[1..] == p[1..] + a && (p + b)[1..] == p[1..] + b;
      LexLeDropPrefix(p[1..], a, b);
    }
  }
}
