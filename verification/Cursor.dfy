/** The page cursor: a decimal int64, a bar, and an event id. */
module Cursor {
  import opened Sequences

  const INT64_MIN: int := -0x8000_0000_0000_0000
  const INT64_MAX: int := 0x7fff_ffff_ffff_ffff

  predicate IsInt64(n: int) {
    INT64_MIN <= n <= INT64_MAX
  }

  datatype Cursor = Start | After(occurredAt: int, eventId: string)
  datatype ParseResult = Parsed(cursor: Cursor) | Invalid

  function Digit(d: int): char
    requires 0 <= d < 10
  {
    '0' + d as char
  }

  predicate IsDigit(c: char) {
    '0' <= c <= '9'
  }

  /** Decimal digits of a natural number, as strconv.FormatInt writes them. */
  function Digits(n: nat): string {
    if n < 10 then [Digit(n)] else Digits(n / 10) + [Digit(n % 10)]
  }

  function FormatInt(n: int): string {
    if n < 0 then ['-'] + Digits(-n) else Digits(n)
  }

  function DigitsValue(s: string): Option<nat> {
    if s == [] then Some(0)
    else
      var front, last := DigitsValue(s[..|s| - 1]), s[|s| - 1];
      if front.Some? && IsDigit(last) then Some(front.value * 10 + (last as int - '0' as int)) else None
  }

  /** strconv.ParseInt in base 10 and 64 bits: an optional sign, at least one digit, in range. */
  function ParseInt(s: string): Option<int> {
    if s == [] then None
    else
      var signed := s[0] == '-' || s[0] == '+';
      var digits := if signed then s[1..] else s;
      var magnitude := DigitsValue(digits);
      if digits == [] || magnitude.None? then None
      else
        var n: int := if s[0] == '-' then -(magnitude.value as int) else magnitude.value;
        if IsInt64(n) then Some(n) else None
  }

  /** The position of the first bar, or the length if there is none. */
  function FirstBar(s: string): nat {
    if s == [] || s[0] == '|' then 0 else 1 + FirstBar(s[1..])
  }

  lemma {:induction false} FirstBarSplits(s: string)
    ensures FirstBar(s) <= |s|
    ensures forall k :: 0 <= k < FirstBar(s) ==> s[k] != '|'
    ensures FirstBar(s) < |s| ==> s[FirstBar(s)] == '|'
  {
    if s != [] && s[0] != '|' {
      FirstBarSplits(s[1..]);
      forall k | 0 <= k < FirstBar(s) ensures s[k] != '|' {
        assert k > 0 ==> s[k] == s[1..][k - 1];
      }
    }
  }

  function Format(occurredAt: int, eventId: string): string {
    if eventId == "" then "" else FormatInt(occurredAt) + ['|'] + eventId
  }

  function Parse(cursor: string): ParseResult {
    if cursor == "" then Parsed(Start)
    else
      FirstBarSplits(cursor);
      var bar := FirstBar(cursor);
      if bar == |cursor| || bar == 0 || bar + 1 == |cursor| then Invalid
      else
        var occurredAt := ParseInt(cursor[..bar]);
        if occurredAt.None? then Invalid else Parsed(After(occurredAt.value, cursor[bar + 1..]))
  }

  lemma {:induction false} DigitsRoundTrip(n: nat)
    ensures Digits(n) != [] && DigitsValue(Digits(n)) == Some(n)
    ensures forall c :: c in Digits(n) ==> IsDigit(c)
  {
    if n >= 10 {
      DigitsRoundTrip(n / 10);
      var s := Digits(n);
      assert s[..|s| - 1] == Digits(n / 10);
      assert n == n / 10 * 10 + n % 10;
    } else {
      assert Digits(n)[..0] == [];
    }
  }

  /** The usual decimal notation: the last digit is the remainder by ten, a minus sign stands first. */
  lemma DecimalNotation(n: int)
    ensures 0 <= n < 10 ==> FormatInt(n) == ["0123456789"[n]]
    ensures n >= 10 ==> FormatInt(n) == FormatInt(n / 10) + ["0123456789"[n % 10]]
    ensures n < 0 ==> FormatInt(n) == ['-'] + FormatInt(-n)
  {
  }

  /** A plus sign is accepted, zeros in front change nothing, and any other character is refused. */
  lemma NumbersAccepted(n: nat, s: string)
    requires IsInt64(n)
    ensures ParseInt(['+'] + Digits(n)) == Some(n)
    ensures DigitsValue(['0'] + Digits(n)) == Some(n)
    ensures (exists c :: c in s && !IsDigit(c)) ==> DigitsValue(s) == None
  {
    DigitsRoundTrip(n);
    assert (['+'] + Digits(n))[1..] == Digits(n);
    ZeroInFront(Digits(n));
    OnlyDigits(s);
  }

  lemma {:induction false} ZeroInFront(s: string)
    requires s != "" && DigitsValue(s).Some?
    ensures DigitsValue(['0'] + s) == DigitsValue(s)
  {
    var n := |s| - 1;
    assert (['0'] + s)[..n + 1] == ['0'] + s[..n] && (['0'] + s)[n + 1] == s[n];
    if n > 0 {
      ZeroInFront(s[..n]);
    } else {
      assert ['0'] + s[..0] == ['0'] && ['0'][..0] == "";
    }
  }

  lemma {:induction false} OnlyDigits(s: string)
    ensures DigitsValue(s).Some? ==> forall c :: c in s ==> IsDigit(c)
  {
    if s != "" {
      OnlyDigits(s[..|s| - 1]);
      assert s == s[..|s| - 1] + [s[|s| - 1]];
    }
  }

  lemma FormatIntRoundTrip(n: int)
    requires IsInt64(n)
    ensures ParseInt(FormatInt(n)) == Some(n)
    ensures forall c :: c in FormatInt(n) ==> c != '|'
  {
    var m := if n < 0 then -n else n;
    DigitsRoundTrip(m);
    if n < 0 {
      assert FormatInt(n)[1..] == Digits(m);
    } else {
      assert Digits(m)[0] in Digits(m);
    }
  }

  lemma {:induction false} FirstBarAfter(s: string, rest: string)
    requires forall c :: c in s ==> c != '|'
    ensures FirstBar(s + ['|'] + rest) == |s|
  {
    if s == [] {
      assert s + ['|'] + rest == ['|'] + rest;
    } else {
      assert (s + ['|'] + rest)[1..] == s[1..] + ['|'] + rest;
      assert s[0] in s && forall c :: c in s[1..] ==> c in s;
      FirstBarAfter(s[1..], rest);
    }
  }

  /** Every int64 and every non-empty id survive the round trip, bars in the id included. */
  lemma CursorRoundTrip(occurredAt: int, eventId: string)
    requires IsInt64(occurredAt) && eventId != ""
    ensures Format(occurredAt, eventId) != ""
    ensures Parse(Format(occurredAt, eventId)) == Parsed(After(occurredAt, eventId))
  {
    var text := FormatInt(occurredAt);
    FormatIntRoundTrip(occurredAt);
    FirstBarAfter(text, eventId);
    var cursor := Format(occurredAt, eventId);
    assert cursor[..|text|] == text && cursor[|text| + 1..] == eventId;
    assert text != [];
  }

  lemma FormatIsInjective(t1: int, id1: string, t2: int, id2: string)
    requires IsInt64(t1) && IsInt64(t2) && id1 != "" && id2 != ""
    requires Format(t1, id1) == Format(t2, id2)
    ensures t1 == t2 && id1 == id2
  {
    CursorRoundTrip(t1, id1);
    CursorRoundTrip(t2, id2);
  }

  /** Whatever Parse accepts denotes an int64 time and a non-empty id, or the start. */
  lemma ParsedCursorsAreProper(cursor: string)
    ensures Parse(cursor).Parsed? ==>
      match Parse(cursor).cursor
      case Start => cursor == ""
      case After(t, id) => IsInt64(t) && id != "" && Parse(Format(t, id)) == Parse(cursor)
  {
    FirstBarSplits(cursor);
    match Parse(cursor) {
      case Parsed(After(t, id)) => CursorRoundTrip(t, id);
      case _ =>
    }
  }
}
