/**
 * The shared display helpers: text truncation, the colour and sign of a
 * change, the e-mail check, the relative-time phrase and the market-status
 * marker.
 */
module Utils {
  import opened Seqs
  import opened Js

  // ------------------------------------------------------------ truncation

  function Max(a: int, b: int): int
  {
    if a >= b then a else b
  }

  /**
   * `truncateText(text, maxLength)`: the text itself when it fits, else its
   * first `maxLength` characters (none for a negative length) and '...'.
   */
  function TruncateText(text: string, maxLength: int): (r: string)
    ensures |text| <= maxLength ==> r == text
    ensures |text| > maxLength ==>
              |r| == Max(maxLength, 0) + 3 && r[|r| - 3..] == "..." && text[..|r| - 3] == r[..|r| - 3]
  {
    if |text| <= maxLength then text else text[..Max(maxLength, 0)] + "..."
  }

  /** A truncated text never runs more than three characters past the limit. */
  lemma TruncateLength(text: string, maxLength: nat)
    ensures |TruncateText(text, maxLength)| <= maxLength + 3
    ensures |TruncateText(text, maxLength)| <= |text| || |text| > maxLength
  {
  }

  // ---------------------------------------------------------------- change

  /** `getValueChangeColor`: green when rising, red when falling, gray otherwise (zero or NaN). */
  function ValueChangeColor(value: Num): (color: string)
    ensures color == "text-green-400" <==> Positive(value)
    ensures color == "text-red-400" <==> Negative(value)
    ensures color == "text-gray-400" <==> !Positive(value) && !Negative(value)
  {
    if Positive(value) then "text-green-400"
    else if Negative(value) then "text-red-400"
    else "text-gray-400"
  }

  /**
   * `formatPercentage(value, decimals)`, given the text `value.toFixed(decimals)`
   * prints: a '+' only for a strictly positive value, then that text and '%'.
   */
  function FormatPercentage(value: Num, fixedText: string): (r: string)
    ensures |r| > 0 && r[|r| - 1] == '%'
    ensures Positive(value) ==> r == "+" + fixedText + "%"
    ensures !Positive(value) ==> r == fixedText + "%"
  {
    (if Positive(value) then "+" else "") + fixedText + "%"
  }

  /** Zero and NaN are printed without a sign. */
  lemma NoSignForZero(fixedText: string)
    ensures FormatPercentage(Finite(0.0), fixedText) == fixedText + "%"
    ensures FormatPercentage(NaN, fixedText) == fixedText + "%"
  {
  }

  // ----------------------------------------------------------------- email

  /** A character `[^\s@]` accepts. */
  predicate Plain(c: char)
  {
    !IsSpace(c) && c != '@'
  }

  predicate AllPlain(s: string)
  {
    forall k :: 0 <= k < |s| ==> Plain(s[k])
  }

  /** `e` is `a@b.c` with each part one or more plain characters. */
  predicate EmailParts(e: string, a: string, b: string, c: string)
  {
    && e == a + "@" + b + "." + c
    && |a| > 0 && |b| > 0 && |c| > 0
    && AllPlain(a) && AllPlain(b) && AllPlain(c)
  }

  /** The language of `/^[^\s@]+@[^\s@]+\.[^\s@]+$/`. */
  ghost predicate EmailPattern(e: string)
  {
    exists a, b, c :: EmailParts(e, a, b, c)
  }

  /** A dot with at least one character on each side. */
  predicate InnerDot(d: string)
  {
    exists j :: 0 < j < |d| - 1 && d[j] == '.'
  }

  /**
   * `isValidEmail`: split at the first '@'; the part before must be
   * non-empty, both parts free of white space and further '@', and the part
   * after must hold a dot with something on each side.
   */
  function IsValidEmail(email: string): (ok: bool)
    ensures ok <==> EmailPattern(email)
  {
    if '@' !in email then
      assert !EmailPattern(email);
      false
    else
      var i := FirstIndex(email, '@');
      var ok := i > 0 && AllPlain(email[..i]) && AllPlain(email[i + 1..]) && InnerDot(email[i + 1..]);
      EmailSplit(email, i);
      ok
  }

  /** The first-'@' split accepts exactly the strings of the pattern. */
  lemma EmailSplit(email: string, i: nat)
    requires '@' in email && i == FirstIndex(email, '@')
    ensures (i > 0 && AllPlain(email[..i]) && AllPlain(email[i + 1..]) && InnerDot(email[i + 1..]))
            <==> EmailPattern(email)
  {
    if i > 0 && AllPlain(email[..i]) && AllPlain(email[i + 1..]) && InnerDot(email[i + 1..]) {
      SplitMatches(email, i);
    }
    if EmailPattern(email) {
      var a, b, c :| EmailParts(email, a, b, c);
      PatternSplits(email, a, b, c);
    }
  }

  lemma SplitMatches(email: string, i: nat)
    requires i < |email| && email[i] == '@'
    requires i > 0 && AllPlain(email[..i]) && AllPlain(email[i + 1..]) && InnerDot(email[i + 1..])
    ensures EmailPattern(email)
  {
    var local, domain := email[..i], email[i + 1..];
    var j :| 0 < j < |domain| - 1 && domain[j] == '.';
    var b, c := domain[..j], domain[j + 1..];
    assert domain == b + "." + c;
    assert email == local + "@" + domain;
    assert EmailParts(email, local, b, c);
  }

  lemma PatternSplits(email: string, a: string, b: string, c: string)
    requires EmailParts(email, a, b, c)
    ensures '@' in email && FirstIndex(email, '@') == |a|
    ensures |a| > 0 && AllPlain(email[..|a|])
    ensures AllPlain(email[|a| + 1..]) && InnerDot(email[|a| + 1..])
  {
    var domain := b + "." + c;
    assert email == a + "@" + domain;
    assert email[..|a|] == a && email[|a| + 1..] == domain;
    assert email[|a|] == '@';
    assert domain[|b|] == '.';
    forall k | 0 <= k < |domain| ensures Plain(domain[k]) {
      if k < |b| {
        assert domain[k] == b[k];
      } else if k > |b| {
        assert domain[k] == c[k - |b| - 1];
      }
    }
  }

  lemma ValidEmailExample()
    ensures IsValidEmail("a@b.c")
  {
    assert EmailParts("a@b.c", "a", "b", "c");
  }

  /** Nothing shorter than `a@b.c` is accepted. */
  lemma ShortEmailRejected(email: string)
    requires |email| < 5
    ensures !IsValidEmail(email)
  {
  }

  // --------------------------------------------------------- relative time

  datatype TimeUnit = Years | Months | Days | Hours | Minutes | Seconds

  function UnitSeconds(u: TimeUnit): nat
  {
    match u
    case Years => 31536000
    case Months => 2592000
    case Days => 86400
    case Hours => 3600
    case Minutes => 60
    case Seconds => 1
  }

  /** Position in the order the units are tried. */
  function Rank(u: TimeUnit): nat
  {
    match u
    case Years => 0
    case Months => 1
    case Days => 2
    case Hours => 3
    case Minutes => 4
    case Seconds => 5
  }

  function UnitName(u: TimeUnit): string
  {
    match u
    case Years => "years"
    case Months => "months"
    case Days => "days"
    case Hours => "hours"
    case Minutes => "minutes"
    case Seconds => "seconds"
  }

  /**
   * The unit `getRelativeTime` picks for an elapsed number of whole seconds:
   * the first, from years down, whose quotient exceeds 1, else seconds.
   */
  function PickUnit(seconds: int): (u: TimeUnit)
    ensures u != Seconds ==> seconds > UnitSeconds(u)
    ensures forall v :: Rank(v) < Rank(u) ==> seconds <= UnitSeconds(v)
  {
    if seconds > 31536000 then Years
    else if seconds > 2592000 then Months
    else if seconds > 86400 then Days
    else if seconds > 3600 then Hours
    else if seconds > 60 then Minutes
    else Seconds
  }

  /** The count printed: the floored quotient by the unit. */
  function UnitCount(seconds: int): int
  {
    seconds / UnitSeconds(PickUnit(seconds))
  }

  /** `getRelativeTime(date)` at `now`, both in milliseconds. */
  function RelativeTime(nowMs: int, dateMs: int): (r: string)
    ensures var name := UnitName(PickUnit((nowMs - dateMs) / 1000));
            |r| >= |name| + 5 && r[|r| - |name| - 5..] == " " + name + " ago"
  {
    var seconds := (nowMs - dateMs) / 1000;
    var count := IntToString(UnitCount(seconds));
    var tail := " " + UnitName(PickUnit(seconds)) + " ago";
    assert (count + tail)[|count|..] == tail;
    count + tail
  }

  /**
   * The printed count is at least 1 for every unit above seconds, and never
   * reaches the next unit up: at most 12 months, 30 days, 24 hours, 60
   * minutes or 60 seconds.
   */
  lemma UnitCountRange(seconds: int)
    ensures PickUnit(seconds) != Seconds ==> UnitCount(seconds) >= 1
    ensures PickUnit(seconds) == Months ==> UnitCount(seconds) <= 12
    ensures PickUnit(seconds) == Days ==> UnitCount(seconds) <= 30
    ensures PickUnit(seconds) == Hours ==> UnitCount(seconds) <= 24
    ensures PickUnit(seconds) == Minutes ==> UnitCount(seconds) <= 60
    ensures PickUnit(seconds) == Seconds ==> UnitCount(seconds) == seconds <= 60
  {
  }

  lemma TwoHoursAgo()
    ensures RelativeTime(7200000, 0) == "2 hours ago"
  {
    assert PickUnit(7200) == Hours && UnitCount(7200) == 2;
    assert IntToString(2) == "2";
  }

  lemma SixtySecondsAgo()
    ensures RelativeTime(60000, 0) == "60 seconds ago"
  {
    assert PickUnit(60) == Seconds && UnitCount(60) == 60;
    assert IntToString(60) == "60" by {
      assert DigitChar(6) == '6' && DigitChar(0) == '0';
      assert NatToString(6) == ['6'];
      assert NatToString(60) == NatToString(6) + [DigitChar(0)];
    }
    assert RelativeTime(60000, 0) == IntToString(60) + (" " + UnitName(Seconds) + " ago");
  }

  // ---------------------------------------------------------------- market

  datatype MarketStatus = Open | Closed | Pre | After

  /**
   * `getMarketStatusEmoji`: the characters written in the source file's
   * status table (a mis-decoded green, red and yellow circle).
   */
  function MarketStatusEmoji(status: MarketStatus): (mark: string)
    ensures |mark| == 4
  {
    match status
    case Open => "ğŸŸ¢"
    case Closed => "ğŸ”´"
    case Pre => "ğŸŸ¡"
    case After => "ğŸŸ¡"
  }

  /** Pre-market and after-hours share a marker; the other statuses are told apart. */
  lemma MarketStatusMarkers()
    ensures MarketStatusEmoji(Pre) == MarketStatusEmoji(After)
    ensures forall s, t :: (MarketStatusEmoji(s) == MarketStatusEmoji(t)) <==>
                           (s == t || ((s == Pre || s == After) && (t == Pre || t == After)))
  {
    assert MarketStatusEmoji(Open)[3] != MarketStatusEmoji(Pre)[3];
    assert MarketStatusEmoji(Open)[2] != MarketStatusEmoji(Closed)[2];
    assert MarketStatusEmoji(Closed)[2] != MarketStatusEmoji(Pre)[2];
  }
}
