/**
 The typed filter printer (modules/integration/idempiere_client.py, `build_filter`) and a reader for the filters it
 prints (the shape of OData 4.0 Part 2 URL Conventions, section 5.1.1): whatever a string value holds, the reader gets
 back exactly the conditions that were printed.
 */
module ODataFilter {
  import opened Prelude

  datatype Value = Flag(b: bool) | Number(n: int) | Words(s: string)

  datatype Eq = Eq(column: string, value: Value)

  datatype FilterError = NotAColumn | ControlCharacter

  // ---------------------------------------------------------------------------------------------------------------
  // Printing
  // ---------------------------------------------------------------------------------------------------------------

  predicate IsLetter(c: char) {
    'A' <= c <= 'Z' || 'a' <= c <= 'z'
  }

  predicate IsDigit(c: char) {
    '0' <= c <= '9'
  }

  predicate InName(c: char) {
    IsLetter(c) || IsDigit(c) || c == '_'
  }

  predicate IsColumn(s: string) {
    s != [] && IsLetter(s[0]) && forall i :: 0 <= i < |s| ==> InName(s[i])
  }

  predicate Printable(s: string) {
    forall i :: 0 <= i < |s| ==> (s[i] as int) >= 32
  }

  function Decimal(n: nat): (s: string)
    ensures s != [] && forall i :: 0 <= i < |s| ==> IsDigit(s[i])
  {
    (if n < 10 then [] else Decimal(n / 10)) + [(48 + n % 10) as char]
  }

  function NumberText(n: int): string {
    if n < 0 then "-" + Decimal(-n) else Decimal(n)
  }

  /** `value.replace("'", "''")`. */
  function Doubled(s: string): string {
    if s == [] then [] else (if s[0] == '\'' then ['\'', '\''] else [s[0]]) + Doubled(s[1..])
  }

  function Rendered(v: Value): string {
    match v
    case Flag(b) => if b then "true" else "false"
    case Number(n) => NumberText(n)
    case Words(s) => ['\''] + Doubled(s) + ['\'']
  }

  predicate Acceptable(c: Eq) {
    IsColumn(c.column) && (c.value.Words? ==> Printable(c.value.s))
  }

  function Part(c: Eq): string {
    c.column + " eq " + Rendered(c.value)
  }

  const AND := " and "

  /** `" and ".join(parts)`. */
  function Joined(parts: seq<string>): string {
    if parts == [] then "" else if |parts| == 1 then parts[0] else parts[0] + AND + Joined(parts[1..])
  }

  function Parts(conditions: seq<Eq>): seq<string> {
    seq(|conditions|, i requires 0 <= i < |conditions| => Part(conditions[i]))
  }

  /** `build_filter`: the first condition that is not acceptable stops it. */
  method BuildFilter(conditions: seq<Eq>) returns (result: Result<string, FilterError>)
    ensures result.Ok? <==> forall i :: 0 <= i < |conditions| ==> Acceptable(conditions[i])
    ensures result.Ok? ==> result.value == Joined(Parts(conditions))
  {
    var parts: seq<string> := [];
    for i := 0 to |conditions|
      invariant parts == Parts(conditions[..i])
      invariant forall j :: 0 <= j < i ==> Acceptable(conditions[j])
    {
      var c := conditions[i];
      if !IsColumn(c.column) {
        return Err(NotAColumn);
      }
      var rendered: string;
      match c.value {
        case Flag(b) => rendered := if b then "true" else "false";
        case Number(n) => rendered := NumberText(n);
        case Words(s) =>
          if !Printable(s) {
            return Err(ControlCharacter);
          }
          rendered := ['\''] + Doubled(s) + ['\''];
      }
      parts := parts + [c.column + " eq " + rendered];
    }
    assert conditions[..|conditions|] == conditions;
    result := Ok(Joined(parts));
  }

  // ---------------------------------------------------------------------------------------------------------------
  // Reading
  // ---------------------------------------------------------------------------------------------------------------

  /** The longest front of name characters. */
  function NameLength(s: string): (n: nat)
    ensures n <= |s|
  {
    if s != [] && InName(s[0]) then 1 + NameLength(s[1..]) else 0
  }

  function DigitLength(s: string): (n: nat)
    ensures n <= |s|
    ensures forall i :: 0 <= i < n ==> IsDigit(s[i])
  {
    if s != [] && IsDigit(s[0]) then 1 + DigitLength(s[1..]) else 0
  }

  function ReadDecimal(s: string): nat
    requires forall i :: 0 <= i < |s| ==> IsDigit(s[i])
  {
    if s == [] then 0
    else
      var last := s[|s| - 1];
      assert IsDigit(last);
      10 * ReadDecimal(s[..|s| - 1]) + ((last as int) - 48)
  }

  /** What follows an opening quote, up to the closing one. */
  function ReadQuoted(s: string): Option<(string, string)> {
    if s == [] then None
    else if s[0] != '\'' then
      var rest := ReadQuoted(s[1..]);
      if rest.None? then None else Some(([s[0]] + rest.value.0, rest.value.1))
    else if |s| >= 2 && s[1] == '\'' then
      var rest := ReadQuoted(s[2..]);
      if rest.None? then None else Some((['\''] + rest.value.0, rest.value.1))
    else Some(("", s[1..]))
  }

  function ReadNumber(s: string): Option<(Value, string)> {
    var n := DigitLength(s);
    if n == 0 then None else Some((Number(ReadDecimal(s[..n])), s[n..]))
  }

  /** A value and what is left of the text. */
  function ReadValue(s: string): Option<(Value, string)> {
    if s == [] then None
    else if s[0] == '\'' then
      var quoted := ReadQuoted(s[1..]);
      if quoted.None? then None else Some((Words(quoted.value.0), quoted.value.1))
    else if s[0] == '-' then
      var number := ReadNumber(s[1..]);
      if number.None? then None else Some((Number(-number.value.0.n), number.value.1))
    else if IsDigit(s[0]) then ReadNumber(s)
    else if "true" <= s then Some((Flag(true), s[4..]))
    else if "false" <= s then Some((Flag(false), s[5..]))
    else None
  }

  /** One condition and what is left. */
  function ReadCondition(s: string): (r: Option<(Eq, string)>)
    ensures r.Some? ==> |r.value.1| < |s|
  {
    var n := NameLength(s);
    var column, rest := s[..n], s[n..];
    if !IsColumn(column) || !(" eq " <= rest) then None
    else
      var value := ReadValue(rest[4..]);
      if value.None? || |value.value.1| >= |s| then None else Some((Eq(column, value.value.0), value.value.1))
  }

  function ReadFilter(s: string): Option<seq<Eq>>
    decreases |s|
  {
    if s == [] then Some([])
    else
      var first := ReadCondition(s);
      if first.None? then None
      else if first.value.1 == [] then Some([first.value.0])
      else if !(AND <= first.value.1) then None
      else
        var rest := first.value.1[|AND|..];
        var more := if rest == [] then None else ReadFilter(rest);
        if more.None? then None else Some([first.value.0] + more.value)
  }

  // ---------------------------------------------------------------------------------------------------------------
  // The reader undoes the printer
  // ---------------------------------------------------------------------------------------------------------------

  lemma {:induction false} NameEnds(name: string, rest: string)
    requires forall i :: 0 <= i < |name| ==> InName(name[i])
    requires rest == [] || !InName(rest[0])
    ensures NameLength(name + rest) == |name|
  {
    if name == [] {
      assert name + rest == rest;
    } else {
      assert (name + rest)[1..] == name[1..] + rest;
      NameEnds(name[1..], rest);
    }
  }

  lemma {:induction false} DigitsEnd(digits: string, rest: string)
    requires forall i :: 0 <= i < |digits| ==> IsDigit(digits[i])
    requires rest == [] || !IsDigit(rest[0])
    ensures DigitLength(digits + rest) == |digits|
  {
    if digits == [] {
      assert digits + rest == rest;
    } else {
      assert (digits + rest)[1..] == digits[1..] + rest;
      DigitsEnd(digits[1..], rest);
    }
  }

  lemma {:induction false} DecimalRoundTrip(n: nat)
    ensures ReadDecimal(Decimal(n)) == n
  {
    var front: string := if n < 10 then [] else Decimal(n / 10);
    var s := Decimal(n);
    assert s == front + [(48 + n % 10) as char];
    assert s[..|s| - 1] == front;
    if n >= 10 { DecimalRoundTrip(n / 10); }
  }

  lemma NumberRead(digits: string, rest: string)
    requires digits != [] && forall i :: 0 <= i < |digits| ==> IsDigit(digits[i])
    requires rest == [] || !IsDigit(rest[0])
    ensures ReadNumber(digits + rest) == Some((Number(ReadDecimal(digits)), rest))
  {
    DigitsEnd(digits, rest);
    assert (digits + rest)[..|digits|] == digits && (digits + rest)[|digits|..] == rest;
  }

  lemma {:induction false} QuotedRead(s: string, rest: string)
    requires rest == [] || rest[0] != '\''
    ensures ReadQuoted(Doubled(s) + ['\''] + rest) == Some((s, rest))
  {
    var text := Doubled(s) + ['\''] + rest;
    if s == [] {
      assert text == ['\''] + rest;
      assert text[1..] == rest;
    } else {
      QuotedRead(s[1..], rest);
      var tail := Doubled(s[1..]) + ['\''] + rest;
      assert s == [s[0]] + s[1..];
      if s[0] == '\'' {
        assert text == ['\'', '\''] + tail;
        assert text[2..] == tail;
      } else {
        assert text == [s[0]] + tail;
        assert text[1..] == tail;
      }
    }
  }

  /** What may follow a value: nothing, or a space. */
  predicate Clear(rest: string) {
    rest == [] || rest[0] == ' '
  }

  lemma FlagRead(b: bool, rest: string)
    ensures ReadValue(Rendered(Flag(b)) + rest) == Some((Flag(b), rest))
  {
    var s := Rendered(Flag(b)) + rest;
    if b {
      assert s[..4] == "true" && s[4..] == rest && s[0] == 't';
    } else {
      assert s[..5] == "false" && s[5..] == rest && s[0] == 'f';
    }
  }

  lemma DigitStartsNumber(s: string)
    requires s != [] && IsDigit(s[0])
    ensures ReadValue(s) == ReadNumber(s)
  {
  }

  lemma MinusStartsNumber(s: string, n: nat, rest: string)
    requires ReadNumber(s) == Some((Number(n), rest))
    ensures ReadValue("-" + s) == Some((Number(0 - n), rest))
  {
    assert ("-" + s)[0] == '-' && ("-" + s)[1..] == s;
  }

  predicate Numeral(digits: string) {
    digits != [] && forall i :: 0 <= i < |digits| ==> IsDigit(digits[i])
  }

  lemma PositiveRead(digits: string, rest: string)
    requires Numeral(digits) && Clear(rest)
    ensures ReadValue(digits + rest) == Some((Number(ReadDecimal(digits)), rest))
  {
    NumberRead(digits, rest);
    assert (digits + rest)[0] == digits[0];
    DigitStartsNumber(digits + rest);
  }

  lemma NegativeRead(digits: string, rest: string)
    requires Numeral(digits) && Clear(rest)
    ensures ReadValue("-" + digits + rest) == Some((Number(0 - ReadDecimal(digits)), rest))
  {
    NumberRead(digits, rest);
    MinusStartsNumber(digits + rest, ReadDecimal(digits), rest);
    assert "-" + (digits + rest) == "-" + digits + rest;
  }

  lemma NumberValueRead(n: int, rest: string)
    requires Clear(rest)
    ensures ReadValue(Rendered(Number(n)) + rest) == Some((Number(n), rest))
  {
    if n < 0 {
      DecimalRoundTrip(-n);
      NegativeRead(Decimal(-n), rest);
    } else {
      DecimalRoundTrip(n);
      PositiveRead(Decimal(n), rest);
    }
  }

  lemma WordsRead(w: string, rest: string)
    requires Clear(rest)
    ensures ReadValue(Rendered(Words(w)) + rest) == Some((Words(w), rest))
  {
    var s := Rendered(Words(w)) + rest;
    assert s[0] == '\'' && s[1..] == Doubled(w) + ['\''] + rest;
    QuotedRead(w, rest);
  }

  lemma ValueRead(v: Value, rest: string)
    requires Clear(rest)
    ensures ReadValue(Rendered(v) + rest) == Some((v, rest))
  {
    match v
    case Flag(b) => FlagRead(b, rest);
    case Number(n) => NumberValueRead(n, rest);
    case Words(w) => WordsRead(w, rest);
  }

  lemma ConditionRead(c: Eq, rest: string)
    requires Acceptable(c) && Clear(rest)
    ensures ReadCondition(Part(c) + rest) == Some((c, rest))
  {
    var s := Part(c) + rest;
    var tail := " eq " + Rendered(c.value) + rest;
    assert s == c.column + tail;
    NameEnds(c.column, tail);
    assert s[..|c.column|] == c.column && s[|c.column|..] == tail;
    assert tail[..4] == " eq " && tail[4..] == Rendered(c.value) + rest;
    ValueRead(c.value, rest);
  }

  lemma PartNotEmpty(c: Eq)
    requires Acceptable(c)
    ensures Part(c) != []
  {
  }

  /** Reading a printed filter gives back exactly the conditions, quotes, " and " and " eq " inside values and all. */
  lemma {:induction false} RoundTrip(conditions: seq<Eq>)
    requires forall i :: 0 <= i < |conditions| ==> Acceptable(conditions[i])
    ensures ReadFilter(Joined(Parts(conditions))) == Some(conditions)
  {
    if conditions != [] {
      var c, more := conditions[0], conditions[1..];
      assert Parts(conditions)[1..] == Parts(more);
      PartNotEmpty(c);
      if more == [] {
        ConditionRead(c, "");
        assert Part(c) + "" == Part(c) == Joined(Parts(conditions));
        assert conditions == [c];
      } else {
        RoundTrip(more);
        MoreRead(c, more);
        assert conditions == [c] + more;
      }
    }
  }

  lemma MoreRead(c: Eq, more: seq<Eq>)
    requires Acceptable(c) && more != [] && Acceptable(more[0])
    requires ReadFilter(Joined(Parts(more))) == Some(more)
    ensures ReadFilter(Part(c) + AND + Joined(Parts(more))) == Some([c] + more)
  {
    var tail := AND + Joined(Parts(more));
    assert Part(c) + AND + Joined(Parts(more)) == Part(c) + tail;
    ConditionRead(c, tail);
    assert tail[..|AND|] == AND && tail[|AND|..] == Joined(Parts(more));
    PartNotEmpty(more[0]);
    PartNotEmpty(c);
    assert Parts(more)[0] == Part(more[0]);
    assert Joined(Parts(more)) != [];
  }

  /** Different condition lists are never printed alike, so no value can widen or rewrite a query. */
  lemma FilterInjective(a: seq<Eq>, b: seq<Eq>)
    requires forall i :: 0 <= i < |a| ==> Acceptable(a[i])
    requires forall i :: 0 <= i < |b| ==> Acceptable(b[i])
    requires Joined(Parts(a)) == Joined(Parts(b))
    ensures a == b
  {
    RoundTrip(a);
    RoundTrip(b);
  }
}
