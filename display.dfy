/**
 * What the controller shows on its SSD1306 display (`update_display`): a heading chosen by
 * the playing flag and two text lines, each cut to the line limit. Pixels are not modelled;
 * a drawn screen is recorded as a `Frame`.
 */
module Display {
  /** Longest text line `update_display` draws unchanged. */
  const LINE_WIDTH: nat := 21
  /** Characters kept from a longer line before the ellipsis. */
  const KEPT_WIDTH: nat := 18
  const ELLIPSIS: string := "..."

  /** One screen as drawn: heading, title line and subtitle line. */
  datatype Frame = Frame(heading: string, title: string, subtitle: string)

  /** The three globals shown on screen: `current_song_name`, `current_artist`, `is_playing`. */
  datatype Playback = Playback(songName: string, artist: string, isPlaying: bool)

  /** `s[:18] + "..."` for a line longer than 21 characters, the line itself otherwise. */
  function Truncate(s: string): (r: string)
    ensures |r| <= LINE_WIDTH
    ensures |s| <= LINE_WIDTH ==> r == s
    ensures |s| > LINE_WIDTH ==> |r| == LINE_WIDTH && r == s[..KEPT_WIDTH] + ELLIPSIS
  {
    if |s| > LINE_WIDTH then s[..KEPT_WIDTH] + ELLIPSIS else s
  }

  /** A line that has been cut once already is left alone. */
  lemma TruncateIdempotent(s: string)
    ensures Truncate(Truncate(s)) == Truncate(s)
  {
  }

  /** `update_display(title, subtitle, playing)`. */
  function Render(title: string, subtitle: string, playing: bool): (f: Frame)
    ensures f.heading == (if playing then "Now Playing:" else "Ready:")
    ensures |f.title| <= LINE_WIDTH && |f.subtitle| <= LINE_WIDTH
    ensures |title| <= LINE_WIDTH ==> f.title == title
    ensures |subtitle| <= LINE_WIDTH ==> f.subtitle == subtitle
    ensures f.title == Truncate(title) && f.subtitle == Truncate(subtitle)
  {
    Frame(if playing then "Now Playing:" else "Ready:", Truncate(title), Truncate(subtitle))
  }

  function DigitChar(d: nat): (c: char)
    requires d < 10
    ensures '0' <= c <= '9'
  {
    ('0' as int + d) as char
  }

  predicate IsDigits(s: string)
  {
    forall i :: 0 <= i < |s| ==> '0' <= s[i] <= '9'
  }

  /** Python's `str(n)` for a non-negative integer: decimal digits without leading zeros. */
  function Decimal(n: nat): (s: string)
    ensures |s| > 0 && IsDigits(s)
    ensures s[0] == '0' ==> n == 0
    ensures s[0] == '0' ==> s == "0"
  {
    if n < 10 then [DigitChar(n)] else Decimal(n / 10) + [DigitChar(n % 10)]
  }

  /** The value of a string of decimal digits. */
  function DecimalValue(s: string): nat
    requires IsDigits(s)
  {
    if s == [] then 0 else DecimalValue(s[..|s| - 1]) * 10 + (s[|s| - 1] as int - '0' as int)
  }

  /** `Decimal` loses nothing: the number can be read back from its text. */
  lemma {:induction false} DecimalRoundTrip(n: nat)
    ensures DecimalValue(Decimal(n)) == n
  {
    if n >= 10 {
      var s := Decimal(n);
      assert s[..|s| - 1] == Decimal(n / 10);
      DecimalRoundTrip(n / 10);
    }
  }

  /** A digit string with no leading zero, other than "0" itself. */
  predicate Canonical(t: string)
  {
    |t| > 0 && IsDigits(t) && (t[0] == '0' ==> t == "0")
  }

  /** A digit string that does not start with `0` has a positive value. */
  lemma {:induction false} LeadingDigitPositive(t: string)
    requires |t| > 0 && IsDigits(t) && t[0] != '0'
    ensures DecimalValue(t) >= 1
    decreases |t|
  {
    if |t| > 1 {
      LeadingDigitPositive(t[..|t| - 1]);
    }
  }

  /** `Decimal(n)` is the only canonical digit string whose value is `n`, so it is `str(n)`. */
  lemma {:induction false} DecimalUnique(t: string, n: nat)
    requires Canonical(t) && DecimalValue(t) == n
    ensures t == Decimal(n)
    decreases |t|
  {
    var d := t[|t| - 1] as int - '0' as int;
    if |t| == 1 {
      assert DigitChar(n) == t[0];
    } else {
      var u := t[..|t| - 1];
      assert t[0] != '0';
      assert u[0] == t[0];
      LeadingDigitPositive(u);
      assert n / 10 == DecimalValue(u) && n % 10 == d;
      DecimalUnique(u, n / 10);
      assert t == u + [t[|t| - 1]];
    }
  }
}
