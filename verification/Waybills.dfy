/** Waybill numbers: a carrier prefix and a seven digit serial, drawn from a bounded
    sequence. */
module Waybills {
  import opened Common
  import Text

  const PREFIX := "MUST-"
  const WIDTH := 7
  const FIRST_SERIAL := 1
  const LAST_SERIAL := 9_999_999

  datatype WaybillError = InvalidWaybillNumber | SequenceExhausted

  function Zeros(n: nat): (s: string)
    ensures |s| == n && Text.AllDigits(s)
  {
    seq(n, _ => '0')
  }

  function Padded(s: string, width: nat): string {
    if |s| >= width then s else Zeros(width - |s|) + s
  }

  /** Zero-padded to a width, the sign counting towards it. */
  function Format(serial: int): string {
    if serial >= 0 then Padded(Text.Decimal(serial), WIDTH) else "-" + Padded(Text.Decimal(-serial), WIDTH - 1)
  }

  /** The carrier format: the prefix and exactly seven digits. */
  predicate WellFormed(value: string) {
    |value| == |PREFIX| + WIDTH && value[..|PREFIX|] == PREFIX && Text.AllDigits(value[|PREFIX|..])
  }

  function MakeWaybill(value: string): Result<string, WaybillError> {
    var normalized := Text.Upper(Text.Trim(value));
    if WellFormed(normalized) then Ok(normalized) else Err(InvalidWaybillNumber)
  }

  function FromSerial(serial: int): Result<string, WaybillError> {
    MakeWaybill(PREFIX + Format(serial))
  }

  /** The serial a well-formed number carries. */
  function Serial(value: string): nat
    requires WellFormed(value)
  {
    Text.DigitsValue(value[|PREFIX|..])
  }

  function Pow10(w: nat): nat {
    if w == 0 then 1 else 10 * Pow10(w - 1)
  }

  // ----- digits ------------------------------------------------------------

  lemma {:induction false} LeadingZeros(n: nat, s: string)
    requires Text.AllDigits(s)
    ensures Text.AllDigits(Zeros(n) + s) && Text.DigitsValue(Zeros(n) + s) == Text.DigitsValue(s)
    decreases n + |s|
  {
    var all := Zeros(n) + s;
    if s != [] {
      LeadingZeros(n, s[..|s| - 1]);
      assert all[..|all| - 1] == Zeros(n) + s[..|s| - 1];
    } else if n > 0 {
      LeadingZeros(n - 1, s);
      assert all[..n - 1] == Zeros(n - 1) + s;
    }
  }

  /** How many digits a number has. */
  lemma {:induction false} DecimalLength(n: nat, w: nat)
    requires w > 0
    ensures |Text.Decimal(n)| <= w <==> n < Pow10(w)
  {
    if w == 1 {
      assert Pow10(1) == 10;
    } else if n >= 10 {
      DecimalLength(n / 10, w - 1);
    } else {
      PowersGrow(w);
    }
  }

  lemma {:induction false} PowersGrow(w: nat)
    requires w > 0
    ensures Pow10(w) >= 10
  {
    if w > 1 {
      PowersGrow(w - 1);
    }
  }

  lemma {:induction false} DigitsBounded(s: string)
    requires Text.AllDigits(s)
    ensures Text.DigitsValue(s) < Pow10(|s|)
  {
    if s != [] {
      DigitsBounded(s[..|s| - 1]);
    }
  }

  /** Digit strings of one length are told apart by their value. */
  lemma {:induction false} SameValueSameDigits(a: string, b: string)
    requires Text.AllDigits(a) && Text.AllDigits(b) && |a| == |b| && Text.DigitsValue(a) == Text.DigitsValue(b)
    ensures a == b
  {
    if a != [] {
      var last := |a| - 1;
      assert Text.DigitValue(a[last]) == Text.DigitsValue(a) % 10 == Text.DigitValue(b[last]);
      SameValueSameDigits(a[..last], b[..last]);
      assert a == a[..last] + [a[last]] && b == b[..last] + [b[last]];
    }
  }

  lemma {:induction false} LastSerialIsTheLast()
    ensures Pow10(WIDTH) == LAST_SERIAL + 1
  {
    assert Pow10(3) == 1000;
    assert Pow10(5) == 100000;
    assert Pow10(7) == 10000000;
  }

  // ----- printing ----------------------------------------------------------

  lemma {:induction false} PaddedDigits(serial: nat)
    ensures Text.AllDigits(Format(serial)) && Text.DigitsValue(Format(serial)) == serial
    ensures |Format(serial)| == WIDTH <==> serial <= LAST_SERIAL
  {
    var digits := Text.Decimal(serial);
    DecimalLength(serial, WIDTH);
    LastSerialIsTheLast();
    if |digits| < WIDTH {
      LeadingZeros(WIDTH - |digits|, digits);
    }
  }

  /** Printing leaves nothing for normalizing to change. */
  lemma {:induction false} PrintedIsNormal(s: string)
    requires Text.AllDigits(s)
    ensures Text.Upper(Text.Trim(PREFIX + s)) == PREFIX + s
  {
    var value := PREFIX + s;
    assert value[0] == 'M';
    if s == [] {
      assert value[|value| - 1] == '-';
    } else {
      assert value[|value| - 1] == s[|s| - 1];
    }
    assert forall i :: 0 <= i < |value| ==> !('a' <= value[i] <= 'z');
  }

  /** A value with anything but digits after the prefix is refused. */
  lemma {:induction false} OddValueIsRefused(rest: string)
    requires rest != [] && !Text.IsSpace(rest[|rest| - 1]) && rest[0] == '-'
    ensures MakeWaybill(PREFIX + rest) == Err(InvalidWaybillNumber)
  {
    var value := PREFIX + rest;
    assert value[0] == 'M' && value[|value| - 1] == rest[|rest| - 1];
    assert Text.Trim(value) == value;
    var normalized := Text.Upper(value);
    assert value[|PREFIX|] == '-' && normalized[|PREFIX|] == '-';
    assert |normalized| > |PREFIX| && normalized[|PREFIX|..][0] == '-';
  }

  lemma {:induction false} NegativeIsRefused(serial: int)
    requires serial < 0
    ensures FromSerial(serial) == Err(InvalidWaybillNumber)
  {
    var decimal := Text.Decimal(-serial);
    var digits := Padded(decimal, WIDTH - 1);
    if |decimal| < WIDTH - 1 {
      LeadingZeros(WIDTH - 1 - |decimal|, decimal);
    }
    assert Text.AllDigits(digits) && Text.IsDigit(digits[|digits| - 1]);
    OddValueIsRefused("-" + digits);
  }

  /** A serial prints as a well-formed number exactly when it is one the sequence can
      issue or zero, and the number then gives the serial back. */
  lemma {:induction false} PrintsIff(serial: int)
    ensures FromSerial(serial).Ok? <==> 0 <= serial <= LAST_SERIAL
    ensures 0 <= serial <= LAST_SERIAL ==>
              FromSerial(serial) == Ok(PREFIX + Format(serial)) && WellFormed(FromSerial(serial).value) &&
              Serial(FromSerial(serial).value) == serial
  {
    if serial < 0 {
      NegativeIsRefused(serial);
    } else {
      PaddedDigits(serial);
      PrintedIsNormal(Format(serial));
      assert (PREFIX + Format(serial))[|PREFIX|..] == Format(serial);
    }
  }

  /** A carrier number is `MUST-` and seven digits. Read in any case and with space around
      it, it is that number upper-cased; anything else is refused. */
  lemma {:induction false} ReadsExactly(value: string)
    ensures var number := Text.Upper(Text.Trim(value));
            MakeWaybill(value) ==
            if |number| == 12 && number[..5] == "MUST-" && (forall i :: 5 <= i < 12 ==> '0' <= number[i] <= '9')
            then Ok(number) else Err(InvalidWaybillNumber)
  {
    var number := Text.Upper(Text.Trim(value));
    if |number| == 12 {
      assert forall i :: 5 <= i < 12 ==> number[i] == number[5..][i - 5];
    }
  }

  /** Every well-formed number is the printed form of the serial it carries. */
  lemma {:induction false} ReadsBack(value: string)
    requires WellFormed(value)
    ensures Serial(value) <= LAST_SERIAL && FromSerial(Serial(value)) == Ok(value)
  {
    var digits := value[|PREFIX|..];
    DigitsBounded(digits);
    LastSerialIsTheLast();
    PrintsIff(Serial(value));
    PaddedDigits(Serial(value));
    SameValueSameDigits(digits, Format(Serial(value)));
    assert value == PREFIX + digits;
  }

  // ----- the sequence ------------------------------------------------------

  /** The database sequence: drawing moves it on for good, whatever becomes of the
      transaction that drew. */
  class WaybillSerialSequence {
    var last: nat

    constructor ()
      ensures last == FIRST_SERIAL - 1
    {
      last := FIRST_SERIAL - 1;
    }

    method NextValue() returns (serial: Option<nat>)
      modifies this
      ensures serial == if old(last) < LAST_SERIAL then Some(old(last) + 1) else None
      ensures last == if old(last) < LAST_SERIAL then old(last) + 1 else old(last)
    {
      if last >= LAST_SERIAL {
        return None;
      }
      last := last + 1;
      return Some(last);
    }
  }

  class WaybillNumberGenerator {
    const sequence: WaybillSerialSequence

    constructor (sequence: WaybillSerialSequence)
      ensures this.sequence == sequence
    {
      this.sequence := sequence;
    }

    method Next() returns (r: Result<string, WaybillError>)
      modifies sequence
      ensures r == Number(Drawn(old(sequence.last)))
      ensures sequence.last == After(old(sequence.last))
    {
      var serial := sequence.NextValue();
      if serial.None? {
        return Err(SequenceExhausted);
      }
      r := FromSerial(serial.value);
    }
  }

  function Drawn(last: nat): Option<nat> {
    if last < LAST_SERIAL then Some(last + 1) else None
  }

  function After(last: nat): nat {
    if last < LAST_SERIAL then last + 1 else last
  }

  /** The number a draw issues. */
  function Number(drawn: Option<nat>): Result<string, WaybillError> {
    if drawn.Some? then FromSerial(drawn.value) else Err(SequenceExhausted)
  }

  /** Where a run of draws leaves a fresh sequence. */
  function AfterDraws(draws: nat): nat {
    if draws == 0 then FIRST_SERIAL - 1 else After(AfterDraws(draws - 1))
  }

  /** The number the draw after that many others issues. */
  function Issued(draws: nat): Result<string, WaybillError> {
    Number(Drawn(AfterDraws(draws)))
  }

  lemma {:induction false} DrawsCountUp(draws: nat)
    ensures AfterDraws(draws) == if draws <= LAST_SERIAL then draws else LAST_SERIAL
  {
    if draws > 0 {
      DrawsCountUp(draws - 1);
    }
  }

  /** Every run of draws from a fresh sequence issues well-formed numbers, pairwise
      distinct, until the sequence is exhausted - after exactly 9,999,999 of them. */
  lemma {:induction false} IssuedAreDistinct(i: nat, j: nat)
    requires i < j
    ensures Issued(i).Ok? <==> i < 9_999_999
    ensures Issued(i).Ok? ==> WellFormed(Issued(i).value) && Serial(Issued(i).value) == i + 1
    ensures Issued(i).Ok? && Issued(j).Ok? ==> Issued(i).value != Issued(j).value
  {
    DrawsCountUp(i);
    DrawsCountUp(j);
    if i < LAST_SERIAL {
      PrintsIff(i + 1);
    }
    if j < LAST_SERIAL {
      PrintsIff(j + 1);
    }
  }
}
