/**
 * Wall-clock times as the system writes them: "HH:MM" strings.
 *
 * The server compares these strings with MongoDB's string order (`$lt`, `$gt`) and
 * also turns them into instants with `new Date('2000-01-01T' + s)`; the client builds
 * them with `padStart` and with `parseInt(...) + 1`. This module gives each of those
 * operations a definition and proves how they relate.
 */
module TimeOfDay {
  import opened Wrappers

  const MinutesPerDay: nat := 1440
  const MsPerDay: int := 86_400_000

  /** The instant (milliseconds since the epoch) at which a calendar day starts. */
  function DayStart(day: int): int
  {
    day * MsPerDay
  }

  // ---------------------------------------------------------------- digits

  predicate IsDigit(c: char)
  {
    '0' <= c <= '9'
  }

  function DigitValue(c: char): (d: nat)
    requires IsDigit(c)
    ensures d < 10
  {
    c as int - '0' as int
  }

  function DigitChar(d: nat): (c: char)
    requires d < 10
    ensures IsDigit(c) && DigitValue(c) == d
  {
    (d + '0' as int) as char
  }

  /** Digit characters are ordered as the digits they stand for. */
  lemma DigitOrder(a: char, b: char)
    requires IsDigit(a) && IsDigit(b)
    ensures a < b <==> DigitValue(a) < DigitValue(b)
    ensures a == b <==> DigitValue(a) == DigitValue(b)
  {
  }

  // ---------------------------------------------------------------- JS string order

  /**
   * `a < b` on JavaScript strings and MongoDB's string comparison: code-unit order,
   * and a proper prefix is smaller.
   */
  predicate LexLess(a: string, b: string)
  {
    if |b| == 0 then false
    else if |a| == 0 then true
    else a[0] < b[0] || (a[0] == b[0] && LexLess(a[1..], b[1..]))
  }

  lemma {:induction false} LexLessIrreflexive(a: string)
    ensures !LexLess(a, a)
  {
    if |a| > 0 {
      LexLessIrreflexive(a[1..]);
    }
  }

  // ---------------------------------------------------------------- "HH:MM"

  /** Well formed "HH:MM" with HH in 00..23 and MM in 00..59. */
  predicate IsTimeText(s: string)
  {
    && |s| == 5
    && IsDigit(s[0]) && IsDigit(s[1]) && s[2] == ':' && IsDigit(s[3]) && IsDigit(s[4])
    && 10 * DigitValue(s[0]) + DigitValue(s[1]) < 24
    && 10 * DigitValue(s[3]) + DigitValue(s[4]) < 60
  }

  /**
   * Minutes since midnight of `new Date('2000-01-01T' + s)`; `None` is the Invalid Date
   * (NaN) that the source gets for anything that is not "HH:MM".
   */
  function ParseTime(s: string): (r: Option<nat>)
    ensures r.Some? <==> IsTimeText(s)
    ensures r.Some? ==> r.value < MinutesPerDay
  {
    if IsTimeText(s) then
      Some((10 * DigitValue(s[0]) + DigitValue(s[1])) * 60 + 10 * DigitValue(s[3]) + DigitValue(s[4]))
    else None
  }

  /** The zero-padded "HH:MM" text of a minute of the day. */
  function FormatTime(m: nat): (s: string)
    requires m < MinutesPerDay
    ensures |s| == 5 && s[2] == ':'
  {
    var h, mm := m / 60, m % 60;
    [DigitChar(h / 10), DigitChar(h % 10), ':', DigitChar(mm / 10), DigitChar(mm % 10)]
  }

  /** Formatting then parsing gives the minute back. */
  lemma ParseFormat(m: nat)
    requires m < MinutesPerDay
    ensures ParseTime(FormatTime(m)) == Some(m)
  {
    var s := FormatTime(m);
    var h, mm := m / 60, m % 60;
    assert DigitValue(s[0]) == h / 10 && DigitValue(s[1]) == h % 10;
    assert DigitValue(s[3]) == mm / 10 && DigitValue(s[4]) == mm % 10;
    assert 10 * (h / 10) + h % 10 == h;
    assert 10 * (mm / 10) + mm % 10 == mm;
    assert h * 60 + mm == m;
  }

  /** Parsing then formatting gives the text back: "HH:MM" texts and minutes are in bijection. */
  lemma FormatParse(s: string)
    requires ParseTime(s).Some?
    ensures FormatTime(ParseTime(s).value) == s
  {
    var h := 10 * DigitValue(s[0]) + DigitValue(s[1]);
    var mm := 10 * DigitValue(s[3]) + DigitValue(s[4]);
    var m := h * 60 + mm;
    assert m / 60 == h && m % 60 == mm;
    assert h / 10 == DigitValue(s[0]) && h % 10 == DigitValue(s[1]);
    assert mm / 10 == DigitValue(s[3]) && mm % 10 == DigitValue(s[4]);
    var f := FormatTime(m);
    assert f[0] == s[0] && f[1] == s[1] && f[3] == s[3] && f[4] == s[4];
    assert f == s;
  }

  /**
   * For zero-padded "HH:MM" texts, string order is time order. This is what makes the
   * server's lexicographic `$lt`/`$gt` overlap query agree with numeric overlap.
   */
  lemma LexOrderIsTimeOrder(a: string, b: string)
    requires ParseTime(a).Some? && ParseTime(b).Some?
    ensures LexLess(a, b) <==> ParseTime(a).value < ParseTime(b).value
  {
    DigitOrder(a[0], b[0]);
    DigitOrder(a[1], b[1]);
    DigitOrder(a[3], b[3]);
    DigitOrder(a[4], b[4]);
    assert LexLess(a, b) <==> a[0] < b[0] || (a[0] == b[0] && LexLess(a[1..], b[1..]));
    assert LexLess(a[1..], b[1..]) <==> a[1] < b[1] || (a[1] == b[1] && LexLess(a[2..], b[2..]));
    assert a[2..][1..] == a[3..] && b[2..][1..] == b[3..];
    assert LexLess(a[2..], b[2..]) <==> LexLess(a[3..], b[3..]);
    assert a[3..][1..] == a[4..] && b[3..][1..] == b[4..];
    assert LexLess(a[3..], b[3..]) <==> a[3] < b[3] || (a[3] == b[3] && LexLess(a[4..], b[4..]));
    assert a[4..][1..] == [] && b[4..][1..] == [];
    assert LexLess(a[4..], b[4..]) <==> a[4] < b[4];
  }

  // ---------------------------------------------------------------- JS number <-> text

  /** `n.toString()` for a non-negative integer. */
  function NatToString(n: nat): (s: string)
    ensures |s| > 0
    ensures forall i :: 0 <= i < |s| ==> IsDigit(s[i])
  {
    if n < 10 then [DigitChar(n)] else NatToString(n / 10) + [DigitChar(n % 10)]
  }

  /** `s.padStart(n, c)` with a one-character pad. */
  function PadStart(s: string, n: nat, c: char): (r: string)
    ensures |r| == if |s| >= n then |s| else n
    ensures r[|r| - |s|..] == s
    ensures forall i :: 0 <= i < |r| - |s| ==> r[i] == c
    decreases n - |s|
  {
    if |s| >= n then s else PadStart([c] + s, n, c)
  }

  /** The value of a string of decimal digits, most significant first. */
  function DigitsValue(s: string): nat
    requires forall i :: 0 <= i < |s| ==> IsDigit(s[i])
  {
    if s == [] then 0 else 10 * DigitsValue(s[..|s| - 1]) + DigitValue(s[|s| - 1])
  }

  /** The longest prefix of `s` made of decimal digits. */
  function DigitPrefix(s: string): (p: string)
    ensures |p| <= |s| && p == s[..|p|]
    ensures forall i :: 0 <= i < |p| ==> IsDigit(p[i])
    ensures |p| < |s| ==> !IsDigit(s[|p|])
  {
    if s == [] || !IsDigit(s[0]) then [] else [s[0]] + DigitPrefix(s[1..])
  }

  /** `parseInt(s)` on a string that starts with its digits; `None` is NaN. */
  function ParseIntPrefix(s: string): Option<nat>
  {
    var p := DigitPrefix(s);
    if p == [] then None else Some(DigitsValue(p))
  }

  /** Whatever precedes the first `c`: `s.split(c)[0]`. */
  function UpTo(s: string, c: char): (r: string)
    ensures |r| <= |s| && r == s[..|r|]
    ensures c !in r
    ensures |r| < |s| ==> s[|r|] == c
  {
    if s == [] || s[0] == c then [] else [s[0]] + UpTo(s[1..], c)
  }

  lemma {:induction false} DigitsValueOfNatToString(n: nat)
    ensures DigitsValue(NatToString(n)) == n
  {
    var s := NatToString(n);
    if n >= 10 {
      DigitsValueOfNatToString(n / 10);
      assert s[..|s| - 1] == NatToString(n / 10);
    }
  }

  lemma {:induction false} DigitPrefixOfDigits(s: string)
    requires forall i :: 0 <= i < |s| ==> IsDigit(s[i])
    ensures DigitPrefix(s) == s
  {
    if s != [] {
      DigitPrefixOfDigits(s[1..]);
      assert [s[0]] + s[1..] == s;
    }
  }

  /** `parseInt(n.toString()) == n`. */
  lemma ParseIntOfNatToString(n: nat)
    ensures ParseIntPrefix(NatToString(n)) == Some(n)
  {
    DigitPrefixOfDigits(NatToString(n));
    DigitsValueOfNatToString(n);
  }

  /** The zero-padded text of a whole hour: its two digits, then ":00". */
  lemma WholeHourFormat(h: nat)
    requires h < 24
    ensures FormatTime(h * 60) == [DigitChar(h / 10), DigitChar(h % 10)] + ":00"
  {
    var m := h * 60;
    assert m / 60 == h && m % 60 == 0;
    assert DigitChar(0) == '0';
  }

  /** The label `hour.toString().padStart(2, '0') + ':00'` of a whole hour is its zero-padded time text. */
  lemma HourLabel(h: nat)
    requires h < 24
    ensures PadStart(NatToString(h), 2, '0') + ":00" == FormatTime(h * 60)
  {
    WholeHourFormat(h);
    if h < 10 {
      SingleDigitLabel(h);
    } else {
      TwoDigitText(h);
    }
  }

  /** Below ten the digit is padded with one '0'. */
  lemma SingleDigitLabel(h: nat)
    requires h < 10
    ensures PadStart(NatToString(h), 2, '0') == [DigitChar(h / 10), DigitChar(h % 10)]
  {
    assert h / 10 == 0 && h % 10 == h;
    assert NatToString(h) == [DigitChar(h)];
    PadOneChar(DigitChar(h));
    assert DigitChar(0) == '0';
  }

  lemma PadOneChar(c: char)
    ensures PadStart([c], 2, '0') == ['0', c]
  {
    assert PadStart(['0', c], 2, '0') == ['0', c];
  }

  /** `s.split(c)[0]` is the whole text when `c` does not occur in it. */
  lemma {:induction false} UpToAbsent(s: string, c: char)
    requires c !in s
    ensures UpTo(s, c) == s
  {
    if s != [] {
      assert s[0] != c;
      assert c !in s[1..];
      UpToAbsent(s[1..], c);
      assert [s[0]] + s[1..] == s;
    }
  }

  lemma TwoDigitText(h: nat)
    requires 10 <= h < 100
    ensures NatToString(h) == [DigitChar(h / 10), DigitChar(h % 10)]
  {
    assert NatToString(h / 10) == [DigitChar(h / 10)];
  }

  /** From ten o'clock on, the unpadded label `hour + ':00'` is already the zero-padded time text. */
  lemma WholeHourText(h: nat)
    requires 10 <= h < 24
    ensures NatToString(h) + ":00" == FormatTime(h * 60)
  {
    HourLabel(h);
    TwoDigitText(h);
    assert PadStart(NatToString(h), 2, '0') == NatToString(h);
  }

  /** `parseInt(slot.split(':')[0])` of a whole hour's text gives the hour back. */
  lemma HourOfText(h: nat)
    requires 10 <= h < 24
    ensures ParseIntPrefix(UpTo(FormatTime(h * 60), ':')) == Some(h)
  {
    WholeHourText(h);
    var f := FormatTime(h * 60);
    var t := NatToString(h);
    TwoDigitText(h);
    assert f == t + ":00";
    assert f[0] == t[0] && f[1] == t[1] && f[2] == ':';
    assert f[0] != ':' && f[1] != ':';
    assert UpTo(f[2..], ':') == [];
    assert UpTo(f[1..], ':') == [f[1]];
    assert UpTo(f, ':') == [f[0], f[1]] == t;
    ParseIntOfNatToString(h);
  }
}
