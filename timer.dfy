/** The countdown display: remaining seconds shown as `HH:MM:SS`, each field
    left-padded to two digits, and the colour band that signals urgency.
    The hook's `formatTimeLeft` is the same computation as the timer's
    `formatTime`, so both use `FormatClock`. */
module Countdown {
  import opened Seqs

  predicate IsDigit(c: char)
  {
    '0' <= c <= '9'
  }

  function DigitChar(d: nat): (c: char)
    requires d < 10
    ensures IsDigit(c) && c as int - '0' as int == d
  {
    "0123456789"[d]
  }

  /** The value of a string of decimal digits, most significant first. */
  function ValueOf(s: string): int
  {
    if s == [] then 0 else ValueOf(s[..|s| - 1]) * 10 + (s[|s| - 1] as int - '0' as int)
  }

  /** `n.toString()` for a whole number: its decimal digits without leading zeros. */
  function Decimal(n: nat): (r: string)
    ensures 1 <= |r| && forall i :: 0 <= i < |r| ==> IsDigit(r[i])
    ensures |r| == 1 <==> n < 10
    ensures n >= 100 ==> |r| >= 3
    ensures r[0] == '0' ==> n == 0
    decreases n
  {
    if n < 10 then [DigitChar(n)] else Decimal(n / 10) + [DigitChar(n % 10)]
  }

  /** Reading back the digits of a number gives the number. */
  lemma {:induction false} DecimalValue(n: nat)
    ensures ValueOf(Decimal(n)) == n
    decreases n
  {
    if n >= 10 {
      DecimalValue(n / 10);
      var d := Decimal(n);
      assert d[..|d| - 1] == Decimal(n / 10);
    } else {
      assert Decimal(n)[..0] == [];
    }
  }

  /** `s.padStart(2, '0')`. */
  function PadStart2(s: string): (r: string)
    ensures |r| == if |s| < 2 then 2 else |s|
    ensures r[|r| - |s|..] == s
    ensures forall i :: 0 <= i < |r| - |s| ==> r[i] == '0'
  {
    if |s| >= 2 then s else if |s| == 1 then "0" + s else "00"
  }

  /** The two-character field for a value below 100, and its value. */
  lemma TwoDigitField(n: nat)
    requires n < 100
    ensures |Field(n)| == 2
    ensures IsDigit(Field(n)[0]) && IsDigit(Field(n)[1])
    ensures PairValue(Field(n)[0], Field(n)[1]) == n
  {
    if n >= 10 {
      assert Decimal(n / 10) == [DigitChar(n / 10)];
    }
  }

  /** The value of two decimal digits. */
  function PairValue(tens: char, ones: char): int
  {
    (tens as int - '0' as int) * 10 + (ones as int - '0' as int)
  }

  /** A number's field of the display: its digits, padded to two. */
  function Field(n: nat): string
  {
    PadStart2(Decimal(n))
  }

  /** `hh:mm:ss` from the three fields. */
  function Join(h: nat, m: nat, s: nat): string
  {
    Field(h) + ":" + Field(m) + ":" + Field(s)
  }

  /** `formatTime` / `formatTimeLeft`: non-positive inputs show `00:00:00`;
      otherwise hours, minutes and seconds, each padded to two digits. */
  function FormatClock(seconds: int): (r: string)
    ensures |r| >= 8
    ensures seconds <= 0 ==> r == "00:00:00"
  {
    if seconds <= 0 then "00:00:00"
    else Join(seconds / 3600, seconds % 3600 / 60, seconds % 60)
  }

  /** The three fields recompose the input, and minutes and seconds stay below 60. */
  lemma ClockFields(seconds: int)
    requires seconds > 0
    ensures seconds / 3600 * 3600 + seconds % 3600 / 60 * 60 + seconds % 60 == seconds
    ensures seconds % 3600 / 60 < 60 && seconds % 60 < 60
  {
  }

  lemma LongJoin(h: nat, m: nat, s: nat)
    requires h >= 100
    ensures |Join(h, m, s)| > 8
  {
    assert |Join(h, m, s)| == |Field(h)| + |Field(m)| + |Field(s)| + 2;
  }

  lemma HourBound(seconds: int)
    requires seconds > 0
    ensures seconds < 360000 <==> seconds / 3600 < 100
  {
  }

  /** Where the parts of `a:b:c` sit when each part has two characters. */
  lemma Slices(a: string, b: string, c: string)
    requires |a| == 2 && |b| == 2 && |c| == 2
    ensures var t := a + ":" + b + ":" + c;
      |t| == 8 && t[2] == ':' && t[5] == ':' &&
      t[0] == a[0] && t[1] == a[1] && t[3] == b[0] && t[4] == b[1] && t[6] == c[0] && t[7] == c[1]
  {
  }

  /** Three fields below 100 join into `dd:dd:dd`, whose fields read back as the values. */
  lemma JoinShape(h: nat, m: nat, s: nat)
    requires h < 100 && m < 100 && s < 100
    ensures var t := Join(h, m, s);
      |t| == 8 && t[2] == ':' && t[5] == ':' &&
      IsDigit(t[0]) && IsDigit(t[1]) && IsDigit(t[3]) && IsDigit(t[4]) && IsDigit(t[6]) && IsDigit(t[7]) &&
      PairValue(t[0], t[1]) == h && PairValue(t[3], t[4]) == m && PairValue(t[6], t[7]) == s
  {
    TwoDigitField(h);
    TwoDigitField(m);
    TwoDigitField(s);
    Slices(Field(h), Field(m), Field(s));
  }

  /** Below 100 hours the display is exactly `HH:MM:SS`; from 100 hours on the hour field grows. */
  lemma ClockShape(seconds: int)
    ensures seconds < 360000 ==>
              |FormatClock(seconds)| == 8 && FormatClock(seconds)[2] == ':' && FormatClock(seconds)[5] == ':'
    ensures seconds >= 360000 ==> |FormatClock(seconds)| > 8
  {
    if seconds > 0 {
      var h, m, s := seconds / 3600, seconds % 3600 / 60, seconds % 60;
      assert FormatClock(seconds) == Join(h, m, s);
      HourBound(seconds);
      if seconds < 360000 {
        ClockFields(seconds);
        JoinShape(h, m, s);
      } else {
        LongJoin(h, m, s);
      }
    }
  }

  /** Reads an `HH:MM:SS` display back into seconds. */
  function ParseClock(t: string): Option<int>
  {
    if |t| == 8 && t[2] == ':' && t[5] == ':' &&
       IsDigit(t[0]) && IsDigit(t[1]) && IsDigit(t[3]) && IsDigit(t[4]) && IsDigit(t[6]) && IsDigit(t[7])
    then Some(PairValue(t[0], t[1]) * 3600 + PairValue(t[3], t[4]) * 60 + PairValue(t[6], t[7]))
    else None
  }

  /** Three fields below 100 read back as their weighted sum. */
  lemma ParseJoin(h: nat, m: nat, s: nat)
    requires h < 100 && m < 100 && s < 100
    ensures ParseClock(Join(h, m, s)) == Some(h * 3600 + m * 60 + s)
  {
    JoinShape(h, m, s);
  }

  /** Below 100 hours the display determines the time: reading it back gives
      the input (or 0 for a non-positive input). */
  lemma ClockRoundTrip(seconds: int)
    requires seconds < 360000
    ensures ParseClock(FormatClock(seconds)) == Some(if seconds <= 0 then 0 else seconds)
  {
    if seconds <= 0 {
      assert FormatClock(seconds) == Join(0, 0, 0);
      ParseJoin(0, 0, 0);
    } else {
      var h, m, s := seconds / 3600, seconds % 3600 / 60, seconds % 60;
      assert FormatClock(seconds) == Join(h, m, s);
      HourBound(seconds);
      ClockFields(seconds);
      ParseJoin(h, m, s);
    }
  }

  /** What the timer component renders, and whether it calls `onTimeUp`. */
  datatype Rendered = Rendered(text: string, timeUp: bool)

  /** `formatTime` of the timer component: the display, and the `onTimeUp`
      call that happens exactly when no time is left. */
  function FormatTime(seconds: int): (r: Rendered)
    ensures r.timeUp <==> seconds <= 0
    ensures r.timeUp ==> r.text == "00:00:00"
    ensures !r.timeUp ==> ParseClock(r.text) == Some(seconds) || seconds >= 360000
  {
    ClockRoundTrip(if seconds < 360000 then seconds else 0);
    Rendered(FormatClock(seconds), seconds <= 0)
  }

  /** The colour names the timer passes to its icon and text. */
  datatype Tone = Error | Warning | Primary

  /** `getColor`. */
  function Color(timeLeft: int): Tone
  {
    if timeLeft <= 60 then Error else if timeLeft <= 300 then Warning else Primary
  }

  function Urgency(t: Tone): nat
  {
    match t
    case Error => 2
    case Warning => 1
    case Primary => 0
  }

  /** The three colour bands. */
  lemma ColorBands(timeLeft: int)
    ensures Color(timeLeft) == Error <==> timeLeft <= 60
    ensures Color(timeLeft) == Warning <==> 60 < timeLeft <= 300
    ensures Color(timeLeft) == Primary <==> 300 < timeLeft
  {
  }

  /** Less time left never shows a calmer colour. */
  lemma UrgencyMonotone(a: int, b: int)
    requires a <= b
    ensures Urgency(Color(a)) >= Urgency(Color(b))
  {
  }
}
