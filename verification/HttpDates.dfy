/**
 * The text of `Retry-After` headers (section 10.2.3 of RFC 9110): a number of seconds, or a date in the
 * one form that senders must use (section 5.6.7).  Header text is ASCII, so a character is a byte.
 */
module HttpDates {
  import opened Wrappers
  import opened CivilDates

  // ------------------------------------------------------------------ numbers

  predicate Digit(c: char) {
    '0' <= c <= '9'
  }

  predicate AllDigits(s: string) {
    forall i | 0 <= i < |s| :: Digit(s[i])
  }

  function Value(s: string): nat
    requires AllDigits(s)
  {
    if s == "" then 0 else Value(s[..|s| - 1]) * 10 + (s[|s| - 1] - '0') as nat
  }

  /** An optional plus sign, then digits. */
  function Unsigned(s: string): Option<nat> {
    var digits := if s != "" && s[0] == '+' then s[1..] else s;
    if digits != "" && AllDigits(digits) then Some(Value(digits)) else None
  }

  /** The same, or a minus sign and digits. */
  function Signed(s: string): Option<int> {
    if s != "" && s[0] == '-' then
      if |s| > 1 && AllDigits(s[1..]) then Some(0 - Value(s[1..])) else None
    else if Unsigned(s).Some? then Some(Unsigned(s).value) else None
  }

  predicate Space(c: char) {
    c == ' ' || '\t' <= c <= '\r'
  }

  function TrimEnd(s: string): string {
    if s != "" && Space(s[|s| - 1]) then TrimEnd(s[..|s| - 1]) else s
  }

  function TrimStart(s: string): string {
    if s != "" && Space(s[0]) then TrimStart(s[1..]) else s
  }

  function Trim(s: string): string {
    TrimEnd(TrimStart(s))
  }

  // -------------------------------------------------------------------- dates

  const MONTHS := ["Jan", "Feb", "Mar", "Apr", "May", "Jun", "Jul", "Aug", "Sep", "Oct", "Nov", "Dec"]

  function MonthNumber(s: string): (m: Option<int>)
    ensures m.Some? ==> 1 <= m.value <= 12
  {
    match s
    case "Jan" => Some(1)
    case "Feb" => Some(2)
    case "Mar" => Some(3)
    case "Apr" => Some(4)
    case "May" => Some(5)
    case "Jun" => Some(6)
    case "Jul" => Some(7)
    case "Aug" => Some(8)
    case "Sep" => Some(9)
    case "Oct" => Some(10)
    case "Nov" => Some(11)
    case "Dec" => Some(12)
    case _ => None
  }

  /** The instant of a date by the position of its fields; weekday and separators are not looked at. */
  function ParseHttpDate(s: string): Option<nat> {
    if |s| < 29 || s[|s| - 3..] != "GMT" then None
    else
      var day, month, year := Unsigned(Trim(s[5..7])), MonthNumber(s[8..11]), Signed(s[12..16]);
      var hour, minute, second := Unsigned(s[17..19]), Unsigned(s[20..22]), Unsigned(s[23..25]);
      if day.None? || month.None? || year.None? || hour.None? || minute.None? || second.None? then None
      else Instant(Stamp(Date(year.value, month.value, day.value), hour.value, minute.value, second.value))
  }

  function DigitOf(n: nat): (c: char)
    requires n < 10
    ensures Digit(c) && (c - '0') as nat == n
  {
    '0' + n as char
  }

  function Two(n: nat): string
    requires n < 100
  {
    [DigitOf(n / 10), DigitOf(n % 10)]
  }

  function Four(n: nat): string
    requires n < 10000
  {
    Two(n / 100) + Two(n % 100)
  }

  /** Fields that fit the places the form has for them, whether or not they make a date. */
  predicate Fits(s: Stamp) {
    && 1 <= s.date.month <= 12 && 0 <= s.date.year < 10000 && 0 <= s.date.day < 100
    && s.hour < 100 && s.minute < 100 && s.second < 100
  }

  function DatePart(weekday: string, s: Stamp): string
    requires |weekday| == 3 && Fits(s)
  {
    weekday + ", " + Two(s.date.day) + " " + MONTHS[s.date.month - 1] + " " + Four(s.date.year)
  }

  function TimePart(s: Stamp): string
    requires Fits(s)
  {
    " " + Two(s.hour) + ":" + Two(s.minute) + ":" + Two(s.second) + " GMT"
  }

  /** `Sun, 06 Nov 1994 08:49:37 GMT` */
  function ImfFixdate(weekday: string, s: Stamp): string
    requires |weekday| == 3 && Fits(s)
  {
    DatePart(weekday, s) + TimePart(s)
  }

  /** A sign may stand before the digits of a year, and only a plus before those of another field; none stands alone. */
  lemma SignsAreRead(digits: string)
    requires AllDigits(digits)
    ensures digits != "" ==> Signed("-" + digits) == Some(0 - Value(digits)) && Unsigned("-" + digits) == None
    ensures digits != "" ==>
              Signed("+" + digits) == Some(Value(digits)) && Unsigned("+" + digits) == Some(Value(digits))
    ensures Signed("-") == None && Signed("+") == None && Signed("") == None
  {
    assert ("-" + digits)[1..] == digits && ("+" + digits)[1..] == digits;
    assert "-"[1..] == "" && "+"[1..] == "";
    assert !Digit(("-" + digits)[0]);
  }

  // ----------------------------------------------------------- what was written is read

  lemma TwoDigits(n: nat)
    requires n < 100
    ensures AllDigits(Two(n)) && Unsigned(Two(n)) == Some(n) && Trim(Two(n)) == Two(n)
  {
    var s := Two(n);
    assert s[..1] == [DigitOf(n / 10)] && s[..1][..0] == "";
    assert Value(s[..1]) == n / 10;
    assert TrimStart(s) == s && TrimEnd(s) == s;
  }

  lemma FourDigits(n: nat)
    requires n < 10000
    ensures Signed(Four(n)) == Some(n)
  {
    var s := Four(n);
    ValueConcat(Two(n / 100), Two(n % 100));
    TwoDigits(n / 100);
    TwoDigits(n % 100);
  }

  lemma ValueConcat(s: string, t: string)
    requires |t| == 2 && AllDigits(s) && AllDigits(t)
    ensures AllDigits(s + t) && Value(s + t) == Value(s) * 100 + Value(t)
  {
    var d0, d1 := (t[0] - '0') as nat, (t[1] - '0') as nat;
    assert (s + t)[..|s| + 1] == s + t[..1];
    assert (s + t[..1])[..|s|] == s;
    assert Value(s + t[..1]) == Value(s) * 10 + d0;
    assert t[..1][..0] == "";
    assert Value(t[..1]) == d0;
    assert Value(t) == d0 * 10 + d1;
  }

  lemma MonthsAreRead(m: int)
    requires 1 <= m <= 12
    ensures |MONTHS[m - 1]| == 3 && MonthNumber(MONTHS[m - 1]) == Some(m)
  {
  }

  lemma DateFields(weekday: string, s: Stamp)
    requires |weekday| == 3 && Fits(s)
    ensures var t := DatePart(weekday, s);
            |t| == 16 && t[5..7] == Two(s.date.day) && t[8..11] == MONTHS[s.date.month - 1]
              && t[12..16] == Four(s.date.year)
  {
    MonthsAreRead(s.date.month);
  }

  lemma TimeFields(s: Stamp)
    requires Fits(s)
    ensures var t := TimePart(s);
            && |t| == 13 && t[10..] == "GMT"
            && t[1..3] == Two(s.hour) && t[4..6] == Two(s.minute) && t[7..9] == Two(s.second)
  {
  }

  lemma Fields(weekday: string, s: Stamp)
    requires |weekday| == 3 && Fits(s)
    ensures var t := ImfFixdate(weekday, s);
            && |t| == 29 && t[26..] == "GMT"
            && t[5..7] == Two(s.date.day) && t[8..11] == MONTHS[s.date.month - 1] && t[12..16] == Four(s.date.year)
            && t[17..19] == Two(s.hour) && t[20..22] == Two(s.minute) && t[23..25] == Two(s.second)
  {
    var t, d, u := ImfFixdate(weekday, s), DatePart(weekday, s), TimePart(s);
    DateFields(weekday, s);
    TimeFields(s);
    assert t[5..7] == d[5..7] && t[8..11] == d[8..11] && t[12..16] == d[12..16];
    assert t[17..19] == u[1..3] && t[20..22] == u[4..6] && t[23..25] == u[7..9] && t[26..] == u[10..];
  }

  /** Whatever stands in its fields, the written form is read as the instant of those fields. */
  lemma ReadsImfFixdate(weekday: string, s: Stamp)
    requires |weekday| == 3 && Fits(s)
    ensures ParseHttpDate(ImfFixdate(weekday, s)) == Instant(s)
  {
    Fields(weekday, s);
    TwoDigits(s.date.day);
    MonthsAreRead(s.date.month);
    FourDigits(s.date.year);
    TwoDigits(s.hour);
    TwoDigits(s.minute);
    TwoDigits(s.second);
  }

  // -------------------------------------------------------------- the header

  const U64_RANGE := 0x1_0000_0000_0000_0000

  /** The time left until an instant, and none if it is past. */
  function WaitUntil(at: Option<nat>, now: real): (wait: Option<real>)
    ensures wait.Some? ==> wait.value >= 0.0
  {
    match at
    case None => None
    case Some(t) => Some(if t as real > now then t as real - now else 0.0)
  }

  /** How long from `now`, in seconds, the server asks to wait. */
  function RetryAfter(text: string, now: real): (wait: Option<real>)
    ensures wait.Some? ==> wait.value >= 0.0
  {
    var v := Trim(text);
    if v == "" then None
    else if AllDigits(v) then
      if Value(v) < U64_RANGE then Some(Value(v) as real) else None
    else
      WaitUntil(ParseHttpDate(v), now)
  }

  /** Spaces, tabs, line ends, vertical tabs and form feeds. */
  predicate Blank(s: string) {
    forall i | 0 <= i < |s| :: s[i] == ' ' || 9 <= s[i] as int <= 13
  }

  lemma {:induction false} TrimsStart(before: string, s: string)
    requires Blank(before) && s != "" && !Space(s[0])
    ensures TrimStart(before + s) == s
  {
    if before == "" {
      assert before + s == s;
    } else {
      assert (before + s)[1..] == before[1..] + s;
      TrimsStart(before[1..], s);
    }
  }

  lemma {:induction false} TrimsEnd(s: string, after: string)
    requires Blank(after) && s != "" && !Space(s[|s| - 1])
    ensures TrimEnd(s + after) == s
  {
    if after == "" {
      assert s + after == s;
    } else {
      assert (s + after)[..|s + after| - 1] == s + after[..|after| - 1];
      TrimsEnd(s, after[..|after| - 1]);
    }
  }

  lemma Trims(before: string, s: string, after: string)
    requires Blank(before) && Blank(after) && s != "" && !Space(s[0]) && !Space(s[|s| - 1])
    ensures Trim(before + s + after) == s
  {
    assert before + s + after == before + (s + after);
    TrimsStart(before, s + after);
    TrimsEnd(s, after);
  }

  /** A number of seconds is honoured as written, if 64 bits hold it. */
  lemma SecondsAreRead(before: string, digits: string, after: string, now: real)
    requires Blank(before) && Blank(after) && digits != "" && AllDigits(digits)
    ensures RetryAfter(before + digits + after, now)
         == if Value(digits) <= 0xFFFF_FFFF_FFFF_FFFF then Some(Value(digits) as real) else None
  {
    Trims(before, digits, after);
  }

  lemma FixdateEnds(weekday: string, s: Stamp)
    requires |weekday| == 3 && Fits(s)
    ensures var t := ImfFixdate(weekday, s); |t| == 29 && t[0] == weekday[0] && !Space(t[28]) && !AllDigits(t)
  {
    Fields(weekday, s);
    var t, d := ImfFixdate(weekday, s), DatePart(weekday, s);
    assert t[26..][2] == 'T';
    assert d == weekday + ", " + d[5..];
    assert t[..16] == d by {
      DateFields(weekday, s);
    }
    assert !Digit(t[3]);
  }

  lemma WaitIs(at: Option<nat>, now: real)
    ensures WaitUntil(at, now).Some? <==> at.Some?
    ensures at.Some? && at.value as real <= now ==> WaitUntil(at, now).value == 0.0
    ensures at.Some? && at.value as real >= now ==> now + WaitUntil(at, now).value == at.value as real
  {
  }

  lemma DateIsAwaited(text: string, v: string, now: real)
    requires Trim(text) == v && v != "" && !AllDigits(v)
    ensures RetryAfter(text, now) == WaitUntil(ParseHttpDate(v), now)
  {
  }

  /** A date means the time until then, and none if it is past. */
  lemma DatesAreRead(before: string, weekday: string, s: Stamp, after: string, now: real)
    requires Blank(before) && Blank(after) && |weekday| == 3 && !Blank(weekday[..1]) && Fits(s)
    ensures var wait := RetryAfter(before + ImfFixdate(weekday, s) + after, now);
            && (wait.Some? <==> Instant(s).Some?)
            && (wait.Some? ==>
                  && (Instant(s).value as real <= now ==> wait.value == 0.0)
                  && (Instant(s).value as real >= now ==> now + wait.value == Instant(s).value as real))
  {
    hide Instant, ParseHttpDate, ImfFixdate, RetryAfter, Trim, WaitUntil;
    var t := ImfFixdate(weekday, s);
    assert weekday[..1][0] == weekday[0];
    FixdateEnds(weekday, s);
    Trims(before, t, after);
    DateIsAwaited(before + t + after, t, now);
    ReadsImfFixdate(weekday, s);
    WaitIs(Instant(s), now);
  }

  /** Anything else is no wait at all: neither digits alone nor a text of 29 characters or more that ends in GMT. */
  lemma OthersAreIgnored(v: string, now: real)
    requires v != "" && !Blank(v[..1]) && !Blank(v[|v| - 1..]) && !AllDigits(v)
    requires |v| < 29 || v[|v| - 3..] != "GMT" || forall m | 0 <= m < 12 :: v[8..11] != MONTHS[m]
    ensures RetryAfter(v, now) == None
  {
    assert "" + v + "" == v;
    assert v[..1][0] == v[0] && v[|v| - 1..][0] == v[|v| - 1];
    Trims("", v, "");
    if |v| >= 29 && v[|v| - 3..] == "GMT" {
      NoSuchMonth(v[8..11]);
    }
  }

  lemma NoSuchMonth(s: string)
    requires forall m | 0 <= m < 12 :: s != MONTHS[m]
    ensures MonthNumber(s) == None
  {
    assert MONTHS[0] == "Jan" && MONTHS[1] == "Feb" && MONTHS[2] == "Mar" && MONTHS[3] == "Apr";
    assert MONTHS[4] == "May" && MONTHS[5] == "Jun" && MONTHS[6] == "Jul" && MONTHS[7] == "Aug";
    assert MONTHS[8] == "Sep" && MONTHS[9] == "Oct" && MONTHS[10] == "Nov" && MONTHS[11] == "Dec";
  }
}
