/** Dates and instants as the ISO text `str()` prints and `fromisoformat` reads (request serialisation uses both). */
module IsoText {
  import opened Prelude

  function Pow10(n: nat): nat {
    if n == 0 then 1 else 10 * Pow10(n - 1)
  }

  function DigitChar(n: nat): char
    requires n < 10
  {
    (n + 48) as char
  }

  predicate AllDigits(s: string) {
    forall i :: 0 <= i < |s| ==> '0' <= s[i] <= '9'
  }

  /** `n` in exactly `width` digits. */
  function Digits(n: nat, width: nat): (s: string)
    requires n < Pow10(width)
    ensures |s| == width && AllDigits(s)
  {
    if width == 0 then "" else Digits(n / 10, width - 1) + [DigitChar(n % 10)]
  }

  function Read(s: string): nat
    requires AllDigits(s)
  {
    if s == [] then 0 else 10 * Read(s[..|s| - 1]) + ((s[|s| - 1] as int) - 48)
  }

  lemma {:induction false} ReadDigits(n: nat, width: nat)
    requires n < Pow10(width)
    ensures Read(Digits(n, width)) == n
  {
    if width > 0 {
      ReadDigits(n / 10, width - 1);
      assert Digits(n, width)[..width - 1] == Digits(n / 10, width - 1);
    }
  }

  lemma PowersOfTen()
    ensures Pow10(2) == 100 && Pow10(4) == 10_000 && Pow10(6) == 1_000_000
  {
    assert Pow10(3) == 1000;
  }

  function Two(n: nat): (s: string)
    requires n < 100
    ensures |s| == 2 && AllDigits(s) && Read(s) == n
  {
    PowersOfTen();
    ReadDigits(n, 2);
    Digits(n, 2)
  }

  function Six(n: nat): (s: string)
    requires n < 1_000_000
    ensures |s| == 6 && AllDigits(s) && Read(s) == n
  {
    PowersOfTen();
    ReadDigits(n, 6);
    Digits(n, 6)
  }

  function Four(n: nat): (s: string)
    requires n < 10_000
    ensures |s| == 4 && AllDigits(s) && Read(s) == n
  {
    PowersOfTen();
    ReadDigits(n, 4);
    Digits(n, 4)
  }

  // ---------------------------------------------------------------------------------------------------------------
  // Dates
  // ---------------------------------------------------------------------------------------------------------------

  predicate Leap(year: int) {
    year % 4 == 0 && (year % 100 != 0 || year % 400 == 0)
  }

  function DaysIn(year: int, month: int): int {
    if month == 2 then if Leap(year) then 29 else 28
    else if month == 4 || month == 6 || month == 9 || month == 11 then 30
    else 31
  }

  predicate RealDate(year: int, month: int, day: int) {
    1 <= year <= 9999 && 1 <= month <= 12 && 1 <= day <= DaysIn(year, month)
  }

  datatype RawDate = RawDate(year: int, month: int, day: int)

  type Date = d: RawDate | RealDate(d.year, d.month, d.day) witness RawDate(1, 1, 1)

  function DateText(d: Date): (s: string)
    ensures |s| == 10
  {
    Four(d.year) + "-" + Two(d.month) + "-" + Two(d.day)
  }

  function ParseDate(s: string): Option<Date> {
    if |s| == 10 && s[4] == '-' && s[7] == '-' && AllDigits(s[..4]) && AllDigits(s[5..7]) && AllDigits(s[8..])
       && RealDate(Read(s[..4]), Read(s[5..7]), Read(s[8..]))
    then Some(RawDate(Read(s[..4]), Read(s[5..7]), Read(s[8..]))) else None
  }

  lemma DateRoundTrip(d: Date)
    ensures ParseDate(DateText(d)) == Some(d)
  {
    var s := DateText(d);
    assert s[..4] == Four(d.year) && s[5..7] == Two(d.month) && s[8..] == Two(d.day);
  }

  // ---------------------------------------------------------------------------------------------------------------
  // Clock times, offsets, instants
  // ---------------------------------------------------------------------------------------------------------------

  const MINUTE: nat := 60_000_000
  const HOUR: nat := 60 * MINUTE
  const DAY: nat := 24 * HOUR

  /** "HH:MM:SS", and six more digits when there is a fraction. */
  function SecondsText(t: nat): (s: string)
    requires t < DAY
    ensures |s| == 8 || |s| == 15
  {
    Two(t / HOUR) + ":" + Two(t % HOUR / MINUTE) + ":" + Two(t % MINUTE / 1_000_000)
    + if t % 1_000_000 == 0 then "" else "." + Six(t % 1_000_000)
  }

  predicate ClockShaped(s: string) {
    && |s| >= 5 && s[2] == ':' && AllDigits(s[..2]) && AllDigits(s[3..5])
    && (|s| >= 6 ==> |s| >= 8 && s[5] == ':' && AllDigits(s[6..8]))
    && (|s| >= 9 ==> |s| == 15 && s[8] == '.' && AllDigits(s[9..]))
  }

  /** Reads "HH:MM", "HH:MM:SS" and "HH:MM:SS.ffffff" as microseconds. */
  function ParseClock(s: string): (r: Option<nat>)
    ensures r.Some? ==> r.value < DAY
  {
    if !ClockShaped(s) then None
    else
      var hours, minutes := Read(s[..2]), Read(s[3..5]);
      var seconds := if |s| >= 8 then Read(s[6..8]) else 0;
      var fraction := if |s| == 15 then Read(s[9..]) else 0;
      if hours < 24 && minutes < 60 && seconds < 60 && fraction < 1_000_000
      then Some(hours * HOUR + minutes * MINUTE + seconds * 1_000_000 + fraction) else None
  }

  lemma Recompose(t: nat)
    requires t < DAY
    ensures t / HOUR < 24 && t % HOUR / MINUTE < 60 && t % MINUTE / 1_000_000 < 60
    ensures t == t / HOUR * HOUR + t % HOUR / MINUTE * MINUTE + t % MINUTE / 1_000_000 * 1_000_000 + t % 1_000_000
  {
    assert t % HOUR % MINUTE == t % MINUTE;
    assert t % MINUTE % 1_000_000 == t % 1_000_000;
  }

  lemma SecondsRoundTrip(t: nat)
    requires t < DAY
    ensures ParseClock(SecondsText(t)) == Some(t)
  {
    var s := SecondsText(t);
    Recompose(t);
    assert s[..2] == Two(t / HOUR) && s[3..5] == Two(t % HOUR / MINUTE) && s[6..8] == Two(t % MINUTE / 1_000_000);
    if t % 1_000_000 != 0 { assert s[9..] == Six(t % 1_000_000); }
  }

  /** "HH:MM", with seconds only when there are any. */
  function MinutesText(t: nat): (s: string)
    requires t < DAY
  {
    if t % MINUTE == 0 then Two(t / HOUR) + ":" + Two(t % HOUR / MINUTE) else SecondsText(t)
  }

  lemma MinutesRoundTrip(t: nat)
    requires t < DAY
    ensures ParseClock(MinutesText(t)) == Some(t)
  {
    if t % MINUTE == 0 { WholeMinutesRoundTrip(t); } else { SecondsRoundTrip(t); }
  }

  lemma WholeMinutesRoundTrip(t: nat)
    requires t < DAY && t % MINUTE == 0
    ensures ParseClock(Two(t / HOUR) + ":" + Two(t % HOUR / MINUTE)) == Some(t)
  {
    Recompose(t);
    HoursAndMinutes(t / HOUR, t % HOUR / MINUTE);
  }

  lemma HoursAndMinutes(hours: nat, minutes: nat)
    requires hours < 24 && minutes < 60
    ensures ParseClock(Two(hours) + ":" + Two(minutes)) == Some(hours * HOUR + minutes * MINUTE)
  {
    var s := Two(hours) + ":" + Two(minutes);
    assert s[..2] == Two(hours) && s[3..5] == Two(minutes);
  }

  predicate IsSign(c: char) {
    c == '+' || c == '-' || c == 'Z'
  }

  /** Where the offset starts. */
  function SignAt(s: string): (i: nat)
    ensures i <= |s|
  {
    if s == [] || IsSign(s[0]) then 0 else 1 + SignAt(s[1..])
  }

  lemma {:induction false} SignAtEnd(clock: string, offset: string)
    requires forall i :: 0 <= i < |clock| ==> !IsSign(clock[i])
    requires offset == [] || IsSign(offset[0])
    ensures SignAt(clock + offset) == |clock|
  {
    if clock == [] {
      assert clock + offset == offset;
    } else {
      assert (clock + offset)[1..] == clock[1..] + offset;
      SignAtEnd(clock[1..], offset);
    }
  }

  /** A UTC offset in microseconds, less than a day either way; None is a naive instant. */
  type Offset = o: int | 0 - DAY < o < DAY

  function OffsetText(o: Option<Offset>): string {
    if o.None? then "" else if o.value < 0 then "-" + MinutesText(-o.value) else "+" + MinutesText(o.value)
  }

  function ParseOffset(s: string): Result<Option<Offset>, ()> {
    if s == [] then Ok(None)
    else if s == "Z" then Ok(Some(0))
    else
      var clock := ParseClock(s[1..]);
      if clock.None? || (s[0] != '-' && s[0] != '+') then Err(())
      else
        var size: int := clock.value;
        Ok(Some(if s[0] == '-' then -size else size))
  }

  lemma OffsetRoundTrip(o: Option<Offset>)
    ensures ParseOffset(OffsetText(o)) == Ok(o)
    ensures OffsetText(o) == [] || IsSign(OffsetText(o)[0])
  {
    if o.Some? {
      var t: nat := if o.value < 0 then -o.value else o.value;
      MinutesRoundTrip(t);
      var sign := if o.value < 0 then '-' else '+';
      var text := OffsetText(o);
      assert text == [sign] + MinutesText(t);
      SignedClock(sign, MinutesText(t));
      assert text[0] == sign;
    }
  }

  lemma SignedClock(sign: char, clock: string)
    requires sign == '-' || sign == '+'
    ensures var offset := ParseOffset([sign] + clock);
            if ParseClock(clock).None? then offset == Err(())
            else
              var size: int := ParseClock(clock).value;
              offset == Ok(Some(if sign == '-' then -size else size))
  {
    var s := [sign] + clock;
    assert s[1..] == clock && s[0] == sign && s != "Z";
  }

  datatype RawInstant = RawInstant(date: Date, time: nat, offset: Option<Offset>)

  type Instant = i: RawInstant | i.time < DAY witness RawInstant(RawDate(1, 1, 1), 0, None)

  function InstantText(i: Instant): string {
    DateText(i.date) + " " + SecondsText(i.time) + OffsetText(i.offset)
  }

  /** Any character may stand between date and time. */
  function ParseInstant(s: string): Option<Instant> {
    if |s| < 11 then None
    else
      var rest := s[11..];
      var date, time, offset := ParseDate(s[..10]), ParseClock(rest[..SignAt(rest)]), ParseOffset(rest[SignAt(rest)..]);
      if date.None? || time.None? || offset.Err? then None
      else Some(RawInstant(date.value, time.value, offset.value))
  }

  lemma NoSignInDigits(s: string)
    requires AllDigits(s)
    ensures forall i :: 0 <= i < |s| ==> !IsSign(s[i])
  {
  }

  lemma NoSignJoined(a: string, b: string)
    requires forall i :: 0 <= i < |a| ==> !IsSign(a[i])
    requires forall i :: 0 <= i < |b| ==> !IsSign(b[i])
    ensures forall i :: 0 <= i < |a + b| ==> !IsSign((a + b)[i])
  {
  }

  lemma ClockHasNoSign(t: nat)
    requires t < DAY
    ensures forall i :: 0 <= i < |SecondsText(t)| ==> !IsSign(SecondsText(t)[i])
  {
    var h, m, s := Two(t / HOUR), Two(t % HOUR / MINUTE), Two(t % MINUTE / 1_000_000);
    NoSignInDigits(h);
    NoSignInDigits(m);
    NoSignInDigits(s);
    NoSignJoined(h, ":");
    NoSignJoined(h + ":", m);
    NoSignJoined(h + ":" + m, ":");
    NoSignJoined(h + ":" + m + ":", s);
    if t % 1_000_000 != 0 {
      NoSignInDigits(Six(t % 1_000_000));
      NoSignJoined(".", Six(t % 1_000_000));
      NoSignJoined(h + ":" + m + ":" + s, "." + Six(t % 1_000_000));
    }
  }

  /** The three parts are found where they were put. */
  lemma PartsApart(date: string, clock: string, offset: string)
    requires |date| == 10 && forall i :: 0 <= i < |clock| ==> !IsSign(clock[i])
    requires offset == [] || IsSign(offset[0])
    ensures var s := date + " " + clock + offset;
            && s[..10] == date
            && SignAt(s[11..]) == |clock|
            && s[11..][..|clock|] == clock && s[11..][|clock|..] == offset
  {
    var s := date + " " + clock + offset;
    assert s[11..] == clock + offset;
    SignAtEnd(clock, offset);
  }

  lemma InstantRoundTrip(i: Instant)
    ensures ParseInstant(InstantText(i)) == Some(i)
  {
    ClockHasNoSign(i.time);
    OffsetRoundTrip(i.offset);
    PartsApart(DateText(i.date), SecondsText(i.time), OffsetText(i.offset));
    DateRoundTrip(i.date);
    SecondsRoundTrip(i.time);
  }
}
