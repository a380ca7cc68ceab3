/**
 * `formatTime`: a whole number of seconds shown as minutes, a colon and a
 * two-digit seconds field ("0:05", "3:07", "61:40"). Minutes are not split
 * into hours and are written without padding.
 */
module Clock {
  import opened Common

  predicate IsDigit(c: char) { '0' <= c <= '9' }

  predicate AllDigits(s: string)
  {
    forall i :: 0 <= i < |s| ==> IsDigit(s[i])
  }

  function DigitChar(d: nat): (c: char)
    requires d < 10
    ensures IsDigit(c)
  {
    ('0' as int + d) as char
  }

  /** The number a string of decimal digits denotes; the empty string denotes 0. */
  function Value(s: string): nat
    requires AllDigits(s)
    decreases |s|
  {
    if s == [] then 0 else Value(s[..|s| - 1]) * 10 + (s[|s| - 1] as int - '0' as int)
  }

  /** A decimal numeral with no superfluous leading zero ("0" is the only numeral that starts with '0'). */
  predicate Canonical(s: string)
  {
    |s| >= 1 && AllDigits(s) && (|s| > 1 ==> s[0] != '0')
  }

  /** `Number.prototype.toString()` on a non-negative integer: its canonical decimal numeral. */
  function Decimal(n: nat): (s: string)
    ensures Canonical(s)
    ensures Value(s) == n
    decreases n
  {
    if n < 10 then [DigitChar(n)]
    else
      var init := Decimal(n / 10);
      var s := init + [DigitChar(n % 10)];
      assert s[..|s| - 1] == init;
      s
  }

  /** `padStart(2, '0')`: a string shorter than two characters gets zeros in front until it has two. */
  function PadStart2(s: string): (r: string)
    ensures |s| >= 2 ==> r == s
    ensures |s| < 2 ==> |r| == 2 && r[2 - |s|..] == s && forall i :: 0 <= i < 2 - |s| ==> r[i] == '0'
  {
    if |s| >= 2 then s else seq(2 - |s|, _ => '0') + s
  }

  /** `formatTime(seconds)` for a whole, non-negative number of seconds. */
  function FormatTime(seconds: nat): string
  {
    Decimal(seconds / 60) + ":" + PadStart2(Decimal(seconds % 60))
  }

  /** A seconds value below sixty, written by `PadStart2(Decimal(_))`, is exactly two digits denoting it. */
  lemma SecondsField(n: nat)
    requires n < 60
    ensures |PadStart2(Decimal(n))| == 2
    ensures AllDigits(PadStart2(Decimal(n)))
    ensures Value(PadStart2(Decimal(n))) == n
  {
  }

  /**
   * The shape of a formatted time: a canonical minutes numeral, a colon and a
   * two-digit seconds field below sixty, with minutes * 60 + seconds equal to
   * the input.
   */
  lemma FormatTimeFields(seconds: nat)
    ensures var t := FormatTime(seconds);
      |t| >= 4 && t[|t| - 3] == ':' &&
      Canonical(t[..|t| - 3]) && AllDigits(t[|t| - 2..]) &&
      Value(t[|t| - 2..]) < 60 &&
      Value(t[..|t| - 3]) * 60 + Value(t[|t| - 2..]) == seconds
  {
    var mins, secs := Decimal(seconds / 60), PadStart2(Decimal(seconds % 60));
    SecondsField(seconds % 60);
    var t := FormatTime(seconds);
    assert t == mins + ":" + secs;
    assert t[..|t| - 3] == mins;
    assert t[|t| - 2..] == secs;
  }

  /** Reads back a "minutes:ss" string: None unless it has the shape `FormatTime` writes. */
  function ParseTime(t: string): Option<nat>
  {
    if |t| >= 4 && t[|t| - 3] == ':' && Canonical(t[..|t| - 3]) && AllDigits(t[|t| - 2..]) && Value(t[|t| - 2..]) < 60
    then Some(Value(t[..|t| - 3]) * 60 + Value(t[|t| - 2..]))
    else None
  }

  /** Reading a formatted time gives back the seconds it was made from. */
  lemma ParseFormatTime(seconds: nat)
    ensures ParseTime(FormatTime(seconds)) == Some(seconds)
  {
    FormatTimeFields(seconds);
  }

  /** Different numbers of seconds never format alike. */
  lemma FormatTimeInjective(a: nat, b: nat)
    requires FormatTime(a) == FormatTime(b)
    ensures a == b
  {
    ParseFormatTime(a);
    ParseFormatTime(b);
  }

  /** A canonical numeral is the one `Decimal` writes for its value. */
  lemma {:induction false} CanonicalIsDecimal(s: string)
    requires Canonical(s)
    ensures Decimal(Value(s)) == s
    decreases |s|
  {
    if |s| > 1 {
      var init := s[..|s| - 1];
      assert Canonical(init) by {
        assert init[0] == s[0];
      }
      CanonicalIsDecimal(init);
      var n := Value(s);
      var d := s[|s| - 1] as int - '0' as int;
      assert n == Value(init) * 10 + d;
      assert n / 10 == Value(init) && n % 10 == d;
      assert Value(init) >= 1 by {
        assert init == Decimal(Value(init)) && init[0] != '0';
        assert Decimal(0)[0] == '0';
      }
      assert s == init + [s[|s| - 1]];
    } else {
      assert s[..0] == [];
    }
  }

  /** Every string that reads as a time is the formatting of what it reads as. */
  lemma FormatParseTime(t: string)
    requires ParseTime(t).Some?
    ensures FormatTime(ParseTime(t).value) == t
  {
    var mins, secs := t[..|t| - 3], t[|t| - 2..];
    var n := ParseTime(t).value;
    MinutesAndSeconds(Value(mins), Value(secs));
    CanonicalIsDecimal(mins);
    SecondsField(Value(secs));
    TwoDigitsDetermined(PadStart2(Decimal(Value(secs))), secs);
    assert t == mins + ":" + secs;
  }

  lemma MinutesAndSeconds(m: nat, s: nat)
    requires s < 60
    ensures (m * 60 + s) / 60 == m && (m * 60 + s) % 60 == s
  {
  }

  /** Two two-digit strings with the same value are equal. */
  lemma TwoDigitsDetermined(a: string, b: string)
    requires |a| == 2 && |b| == 2 && AllDigits(a) && AllDigits(b) && Value(a) == Value(b)
    ensures a == b
  {
  }
}
