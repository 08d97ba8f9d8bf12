/**
 * A stand-in for Go's `strconv.ParseUint(s, 10, 64)`, the one parse the
 * parameter lookup relies on: no sign, no underscores (those are accepted
 * only in base 0), leading zeros allowed, value below 2^64.
 */
module Decimal {
  import opened Core

  const Uint64Limit: nat := 0x1_0000_0000_0000_0000

  type uint64 = x: int | 0 <= x < Uint64Limit

  /** Go's NumError.Err: the two ways the parse fails. */
  datatype Reason = ErrSyntax | ErrRange

  /** Go's NumError for ParseUint: the rejected input and the reason. */
  datatype NumError = NumError(num: string, reason: Reason)

  predicate IsDigit(c: char)
  {
    '0' <= c <= '9'
  }

  function DigitValue(c: char): (d: nat)
    requires IsDigit(c)
    ensures d < 10
  {
    c as int - '0' as int
  }

  predicate AllDigits(s: string)
  {
    forall i :: 0 <= i < |s| ==> IsDigit(s[i])
  }

  /** The number a digit string denotes, most significant digit first. */
  function Value(s: string): nat
    requires AllDigits(s)
  {
    if |s| == 0 then 0 else 10 * Value(s[..|s| - 1]) + DigitValue(s[|s| - 1])
  }

  /** The strings ParseUint accepts. */
  predicate IsUint64Decimal(s: string)
  {
    s != [] && AllDigits(s) && Value(s) < Uint64Limit
  }

  /** The end of the run of digits that starts at `i`. */
  function DigitRun(s: string, i: nat): (k: nat)
    requires i <= |s|
    ensures i <= k <= |s|
    ensures forall j :: i <= j < k ==> IsDigit(s[j])
    ensures k < |s| ==> !IsDigit(s[k])
    decreases |s| - i
  {
    if i == |s| || !IsDigit(s[i]) then i else DigitRun(s, i + 1)
  }

  /**
   * The verdict on a non-empty input, read off its leading run of digits:
   * if that run already denotes 2^64 or more, the scan overflows inside it
   * (a range error); otherwise a character after it is a syntax error; and
   * a string that is all digits is accepted with its value.
   */
  ghost function Reference(s: string): Result<uint64, NumError>
    requires s != []
  {
    var k := DigitRun(s, 0);
    assert AllDigits(s[..k]);
    var v := Value(s[..k]);
    if v >= Uint64Limit then Err(NumError(s, ErrRange))
    else if k < |s| then Err(NumError(s, ErrSyntax))
    else Ok(v)
  }

  lemma {:induction false} ValuePrefixMonotone(s: string, j: nat, k: nat)
    requires j <= k <= |s| && AllDigits(s[..k])
    ensures AllDigits(s[..j]) && Value(s[..j]) <= Value(s[..k])
    decreases k - j
  {
    if j < k {
      assert s[..k][..k - 1] == s[..k - 1];
      ValuePrefixMonotone(s, j, k - 1);
    }
  }

  /**
   * The scan loop of ParseUint: `acc` is the value of the digits before `i`.
   * A non-digit is a syntax error; a digit that would take the value to
   * 2^64 or beyond is a range error.
   */
  function Scan(s: string, i: nat, acc: uint64): (r: Result<uint64, NumError>)
    requires s != [] && i <= |s| && AllDigits(s[..i]) && acc == Value(s[..i])
    ensures r == Reference(s)
    decreases |s| - i
  {
    if i == |s| then
      assert s[..i] == s[..DigitRun(s, 0)];
      Ok(acc)
    else if !IsDigit(s[i]) then
      assert DigitRun(s, 0) == i;
      Err(NumError(s, ErrSyntax))
    else
      var next := 10 * acc + DigitValue(s[i]);
      assert s[..i + 1][..i] == s[..i];
      assert Value(s[..i + 1]) == next;
      if next >= Uint64Limit then
        ValuePrefixMonotone(s, i + 1, DigitRun(s, 0));
        Err(NumError(s, ErrRange))
      else
        Scan(s, i + 1, next)
  }

  /** `strconv.ParseUint(s, 10, 64)`; the value Go returns beside an error is not modelled. */
  function ParseUint(s: string): (r: Result<uint64, NumError>)
    ensures s == [] ==> r == Err(NumError(s, ErrSyntax))
    ensures s != [] ==> r == Reference(s)
    ensures r.Err? ==> r.error.num == s
  {
    if s == [] then Err(NumError(s, ErrSyntax)) else Scan(s, 0, 0)
  }

  /** The parse succeeds exactly on the decimals below 2^64, with their value. */
  lemma ParseUintSucceedsIff(s: string)
    ensures ParseUint(s).Ok? <==> IsUint64Decimal(s)
    ensures ParseUint(s).Ok? ==> ParseUint(s).value == Value(s)
  {
    if s != [] {
      var k := DigitRun(s, 0);
      if AllDigits(s) {
        assert k == |s| && s[..k] == s;
      } else {
        var j :| 0 <= j < |s| && !IsDigit(s[j]);
        assert k <= j;
      }
    }
  }

  /** A sign, an underscore, a space: any non-digit anywhere rejects the input. */
  lemma ParseUintRejectsNonDigit(s: string, i: nat)
    requires i < |s| && !IsDigit(s[i])
    ensures ParseUint(s).Err?
  {
    ParseUintSucceedsIff(s);
  }

  lemma {:induction false} ValueLeadingZero(s: string)
    requires AllDigits(s)
    ensures AllDigits("0" + s) && Value("0" + s) == Value(s)
    decreases |s|
  {
    if s != [] {
      var t := s[..|s| - 1];
      assert ("0" + s)[..|s|] == "0" + t;
      ValueLeadingZero(t);
    }
  }

  /** Leading zeros are accepted and do not change the value ("007" is 7). */
  lemma ParseUintLeadingZero(s: string)
    requires s != []
    ensures ParseUint("0" + s).Ok? <==> ParseUint(s).Ok?
    ensures ParseUint(s).Ok? ==> ParseUint("0" + s).value == ParseUint(s).value
  {
    ParseUintSucceedsIff(s);
    ParseUintSucceedsIff("0" + s);
    if AllDigits(s) {
      ValueLeadingZero(s);
    } else {
      var j :| 0 <= j < |s| && !IsDigit(s[j]);
      assert !IsDigit(("0" + s)[j + 1]);
    }
  }

  /** The empty string and signed or grouped inputs are syntax errors; small decimals parse. */
  lemma ParseUintExamples()
    ensures ParseUint("") == Err(NumError("", ErrSyntax))
    ensures ParseUint("-1") == Err(NumError("-1", ErrSyntax))
    ensures ParseUint("+1") == Err(NumError("+1", ErrSyntax))
    ensures ParseUint("1_0") == Err(NumError("1_0", ErrSyntax))
    ensures ParseUint("123") == Ok(123)
  {
    assert DigitRun("-1", 0) == 0;
    assert DigitRun("+1", 0) == 0;
    assert DigitRun("1_0", 0) == 1;
    assert "1_0"[..1] == "1";
    assert DigitRun("123", 0) == 3;
    assert "123"[..3] == "123";
    assert "123"[..2] == "12";
    assert "12"[..1] == "1";
  }
}
