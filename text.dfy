/** The JavaScript string operations the core relies on, on `seq<char>`:
    `split` on one separator character, `join`, `trim`, `includes`,
    the decimal rendering of a non-negative integer and `padStart`. */
module Text {

  /** The characters `String.prototype.trim` removes: the ECMAScript
      WhiteSpace and LineTerminator code points. */
  predicate IsWhitespace(c: char) {
    || c == '\t' || c == '\n' || c == '\U{000B}' || c == '\U{000C}' || c == '\r'
    || c == ' ' || c == '\U{00A0}' || c == '\U{1680}'
    || ('\U{2000}' <= c <= '\U{200A}')
    || c == '\U{2028}' || c == '\U{2029}' || c == '\U{202F}' || c == '\U{205F}'
    || c == '\U{3000}' || c == '\U{FEFF}'
  }

  // ---------------------------------------------------------------------
  // split / join

  /** `s.split(sep)` for a one-character separator: every piece between two
      separators, empty pieces included, and `[""]` for the empty string. */
  function Split(s: string, sep: char): (r: seq<string>)
    ensures |r| >= 1
    ensures forall k :: 0 <= k < |r| ==> sep !in r[k]
    decreases |s|
  {
    if |s| == 0 then [""]
    else if s[0] == sep then [""] + Split(s[1..], sep)
    else
      var rest := Split(s[1..], sep);
      [[s[0]] + rest[0]] + rest[1..]
  }

  /** `parts.join(sep)` for a one-character separator. */
  function Join(parts: seq<string>, sep: char): string
    decreases |parts|
  {
    if |parts| == 0 then ""
    else if |parts| == 1 then parts[0]
    else parts[0] + [sep] + Join(parts[1..], sep)
  }

  /** Splitting and joining again on the same separator gives back the
      original string: no character is lost or added by `split`. */
  lemma {:induction false} JoinSplit(s: string, sep: char)
    ensures Join(Split(s, sep), sep) == s
    decreases |s|
  {
    if |s| == 0 {
    } else if s[0] == sep {
      JoinSplit(s[1..], sep);
      var rest := Split(s[1..], sep);
      assert Split(s, sep) == [""] + rest;
      assert Join([""] + rest, sep) == "" + [sep] + Join(rest, sep);
    } else {
      JoinSplit(s[1..], sep);
      var rest := Split(s[1..], sep);
      var r := Split(s, sep);
      assert r == [[s[0]] + rest[0]] + rest[1..];
      if |rest| == 1 {
        assert Join(r, sep) == [s[0]] + rest[0];
      } else {
        assert Join(rest, sep) == rest[0] + [sep] + Join(rest[1..], sep);
        assert r[1..] == rest[1..];
        assert Join(r, sep) == [s[0]] + rest[0] + [sep] + Join(rest[1..], sep);
      }
    }
  }

  /** Splitting `a + [sep] + b` splits `a` and `b` independently. */
  lemma {:induction false} SplitAppend(a: string, b: string, sep: char)
    ensures Split(a + [sep] + b, sep) == Split(a, sep) + Split(b, sep)
    decreases |a|
  {
    var s := a + [sep] + b;
    if |a| == 0 {
      assert s[0] == sep && s[1..] == b;
    } else {
      assert s[0] == a[0] && s[1..] == a[1..] + [sep] + b;
      SplitAppend(a[1..], b, sep);
      if a[0] != sep {
        var rest := Split(a[1..], sep);
        assert Split(s[1..], sep) == rest + Split(b, sep);
        assert (rest + Split(b, sep))[0] == rest[0];
        assert (rest + Split(b, sep))[1..] == rest[1..] + Split(b, sep);
      }
    }
  }

  // ---------------------------------------------------------------------
  // trim

  /** Where the text starts once the whitespace from `i` on is skipped. */
  function Leading(s: string, i: nat): (a: nat)
    requires i <= |s|
    ensures i <= a <= |s|
    ensures forall k :: i <= k < a ==> IsWhitespace(s[k])
    ensures a < |s| ==> !IsWhitespace(s[a])
    decreases |s| - i
  {
    if i < |s| && IsWhitespace(s[i]) then Leading(s, i + 1) else i
  }

  /** Where the text ends once the whitespace before `e` is dropped, not
      going below `lo`. */
  function Trailing(s: string, lo: nat, e: nat): (b: nat)
    requires lo <= e <= |s|
    ensures lo <= b <= e
    ensures forall k :: b <= k < e ==> IsWhitespace(s[k])
    ensures b > lo ==> !IsWhitespace(s[b - 1])
    decreases e - lo
  {
    if e > lo && IsWhitespace(s[e - 1]) then Trailing(s, lo, e - 1) else e
  }

  /** Where `trim(s)` starts inside `s`. */
  function TrimOffset(s: string): nat
  {
    Leading(s, 0)
  }

  /** `s.trim()`: the leading whitespace is removed, then the trailing. */
  function Trim(s: string): string {
    s[TrimOffset(s)..Trailing(s, TrimOffset(s), |s|)]
  }

  /** `trim` leaves a contiguous piece of `s` that neither starts nor ends
      with whitespace, and everything it cut off is whitespace. */
  lemma TrimSpec(s: string)
    ensures var r, i := Trim(s), TrimOffset(s);
      && (r != [] ==> !IsWhitespace(r[0]) && !IsWhitespace(r[|r| - 1]))
      && i + |r| <= |s|
      && (forall k :: 0 <= k < |r| ==> r[k] == s[i + k])
      && (forall k :: 0 <= k < i ==> IsWhitespace(s[k]))
      && (forall k :: i + |r| <= k < |s| ==> IsWhitespace(s[k]))
  {
    var i := TrimOffset(s);
    var b := Trailing(s, i, |s|);
    assert |Trim(s)| == b - i;
  }

  /** Every character of `trim(s)` is a character of `s`. */
  lemma TrimSubset(s: string, c: char)
    requires c in Trim(s)
    ensures c in s
  {
    TrimSpec(s);
    var r, i := Trim(s), TrimOffset(s);
    var k :| 0 <= k < |r| && r[k] == c;
    assert s[i + k] == c;
  }

  // ---------------------------------------------------------------------
  // includes

  /** `s.includes(t)`: `t` occurs in `s` as a contiguous piece. */
  function Includes(s: string, t: string): (b: bool)
    ensures b <==> exists i :: 0 <= i <= |s| && t <= s[i..]
    decreases |s|
  {
    if t <= s then assert s[0..] == s; true
    else if |s| == 0 then false
    else
      var b := Includes(s[1..], t);
      assert forall i :: 1 <= i <= |s| ==> s[i..] == s[1..][i - 1..];
      assert b ==> exists i :: 0 <= i <= |s| && t <= s[i..] by {
        if b {
          var j :| 0 <= j <= |s| - 1 && t <= s[1..][j..];
          assert t <= s[j + 1..];
        }
      }
      b
  }

  /** Any string includes itself, and every string includes the empty one. */
  lemma IncludesSelf(s: string, t: string)
    ensures Includes(s, s)
    ensures Includes(t, "")
  {
    assert s <= s[0..];
    assert "" <= t[0..];
  }

  // ---------------------------------------------------------------------
  // numbers as text

  predicate IsDigit(c: char) {
    '0' <= c <= '9'
  }

  function DigitChar(d: nat): (c: char)
    requires d < 10
    ensures IsDigit(c)
  {
    ('0' as int + d) as char
  }

  /** The value of a digit; other characters count as 0, and the clock
      lemmas below state separately that every field is made of digits. */
  function DigitValue(c: char): (v: nat)
    ensures v < 10
  {
    if IsDigit(c) then (c as int - '0' as int) as nat else 0
  }

  /** `n.toString()` for a non-negative integer: its decimal digits, with no
      leading zero except for 0 itself. */
  function Decimal(n: nat): (r: string)
    ensures |r| >= 1
    ensures forall k :: 0 <= k < |r| ==> IsDigit(r[k])
    ensures r[0] == '0' ==> n == 0
    decreases n
  {
    if n < 10 then [DigitChar(n)] else Decimal(n / 10) + [DigitChar(n % 10)]
  }

  /** The value of a string of decimal digits, read left to right. */
  function ParseDigits(s: string): nat
    decreases |s|
  {
    if |s| == 0 then 0 else 10 * ParseDigits(s[..|s| - 1]) + DigitValue(s[|s| - 1])
  }

  lemma DigitRoundTrip(d: nat)
    requires d < 10
    ensures DigitValue(DigitChar(d)) == d
  {
  }

  /** Reading back the decimal rendering gives the number. */
  lemma {:induction false} DecimalRoundTrip(n: nat)
    ensures ParseDigits(Decimal(n)) == n
    decreases n
  {
    var r := Decimal(n);
    if n < 10 {
      DigitRoundTrip(n);
      assert r[..0] == [];
    } else {
      DecimalRoundTrip(n / 10);
      DigitRoundTrip(n % 10);
      assert r[..|r| - 1] == Decimal(n / 10);
    }
  }

  /** A number below 10 has one digit, one below 100 at most two. */
  lemma DecimalLength(n: nat)
    ensures n < 10 ==> |Decimal(n)| == 1
    ensures 10 <= n < 100 ==> |Decimal(n)| == 2
  {
  }

  /** `s.padStart(width, c)`: `s` preceded by as many copies of `c` as are
      needed to reach `width`; a longer `s` is left as it is. */
  function PadStart(s: string, width: nat, c: char): (r: string)
    ensures |r| == if |s| >= width then |s| else width
    ensures r == seq(|r| - |s|, _ => c) + s
    decreases width - |s|
  {
    if |s| >= width then s else PadStart([c] + s, width, c)
  }

  /** A leading zero does not change the value of a digit string. */
  lemma {:induction false} ParseLeadingZero(s: string)
    requires forall k :: 0 <= k < |s| ==> IsDigit(s[k])
    ensures ParseDigits(['0'] + s) == ParseDigits(s)
    decreases |s|
  {
    var t := ['0'] + s;
    if |s| == 0 {
      assert t[..0] == [];
    } else {
      assert t[..|t| - 1] == ['0'] + s[..|s| - 1];
      ParseLeadingZero(s[..|s| - 1]);
    }
  }

  /** Padding a digit string with zeros keeps it a digit string of the same
      value. */
  lemma {:induction false} ParseZeroPadded(s: string, width: nat)
    requires forall k :: 0 <= k < |s| ==> IsDigit(s[k])
    ensures forall k :: 0 <= k < |PadStart(s, width, '0')| ==> IsDigit(PadStart(s, width, '0')[k])
    ensures ParseDigits(PadStart(s, width, '0')) == ParseDigits(s)
    decreases width - |s|
  {
    if |s| < width {
      ParseLeadingZero(s);
      ParseZeroPadded(['0'] + s, width);
    }
  }

  /** A number below 100, written with two digits. */
  lemma TwoDigits(n: nat)
    requires n < 100
    ensures |PadStart(Decimal(n), 2, '0')| == 2
    ensures forall k :: 0 <= k < 2 ==> IsDigit(PadStart(Decimal(n), 2, '0')[k])
    ensures ParseDigits(PadStart(Decimal(n), 2, '0')) == n
  {
    DecimalLength(n);
    DecimalRoundTrip(n);
    ParseZeroPadded(Decimal(n), 2);
  }

  /** The number a clock `m:ss` shows: the minutes before the colon and
      the two digits of seconds after it. */
  function ClockValue(r: string): nat
    requires |r| >= 3
  {
    60 * ParseDigits(r[..|r| - 3]) + 10 * DigitValue(r[|r| - 2]) + DigitValue(r[|r| - 1])
  }

  /** A two-character digit string, read digit by digit. */
  lemma TwoCharacters(ss: string)
    requires |ss| == 2
    ensures ParseDigits(ss) == 10 * DigitValue(ss[0]) + DigitValue(ss[1])
  {
    var first := ss[..1];
    assert first[..0] == [] && first[0] == ss[0];
    assert ParseDigits(first) == DigitValue(ss[0]);
    assert ss[..|ss| - 1] == first;
  }

  /** A digit field, a colon and a two-digit field: where the characters
      go, and the number the clock shows. */
  lemma ClockFields(m: string, ss: string)
    requires |m| >= 1 && |ss| == 2
    requires forall k :: 0 <= k < |m| ==> IsDigit(m[k])
    requires forall k :: 0 <= k < 2 ==> IsDigit(ss[k])
    ensures var r := m + ":" + ss;
      && |r| == |m| + 3 && r[|r| - 3] == ':' && r[0] == m[0]
      && r[|r| - 2] == ss[0] && r[|r| - 1] == ss[1]
      && (forall k :: 0 <= k < |r| && k != |r| - 3 ==> IsDigit(r[k]))
      && ClockValue(r) == 60 * ParseDigits(m) + ParseDigits(ss)
  {
    var r := m + ":" + ss;
    assert r[..|r| - 3] == m;
    TwoCharacters(ss);
    forall k | 0 <= k < |r| && k != |r| - 3 ensures IsDigit(r[k]) {
      if k < |m| {
        assert r[k] == m[k];
      } else {
        assert r[k] == ss[k - |m| - 1];
      }
    }
  }
}
