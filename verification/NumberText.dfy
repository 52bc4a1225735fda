/** Numbers as JSON text: JSON.stringify of a finite number, and a reader for it. */
module NumberText {
  import opened RailStates
  import opened JsonValues
  import opened JsonText

  const MINUS: Unit := 0x2D
  const PLUS: Unit := 0x2B
  const DOT: Unit := 0x2E
  const EXPONENT: Unit := 0x65
  const ZERO: Unit := 0x30

  predicate IsDigit(u: Unit) { 0x30 <= u <= 0x39 }
  predicate AllDigits(t: Text) { forall u <- t :: IsDigit(u) }

  // ----- Natural numbers -----

  function LastDigit(n: nat): (u: Unit)
    ensures IsDigit(u) && u - 0x30 == n % 10
  {
    var d := n % 10;
    0x30 + d
  }

  function Digits(n: nat): (t: Text)
    ensures |t| > 0 && AllDigits(t)
  {
    if n < 10 then [0x30 + n] else Digits(n / 10) + [LastDigit(n)]
  }

  function DigitsValue(t: Text): int {
    if t == [] then 0
    else
      var last: int := t[|t| - 1];
      DigitsValue(t[..|t| - 1]) * 10 + (last - 0x30)
  }

  lemma {:induction false} DigitsRead(n: nat)
    ensures DigitsValue(Digits(n)) == n
  {
    if n < 10 {
      assert Digits(n)[..0] == [];
    } else {
      var init := Digits(n / 10);
      assert Digits(n)[..|init|] == init;
      DigitsRead(n / 10);
    }
  }

  function DigitRun(t: Text): (k: nat)
    ensures k <= |t| && AllDigits(t[..k])
  {
    if t == [] || !IsDigit(t[0]) then 0
    else
      var k := DigitRun(t[1..]);
      assert t[..k + 1] == [t[0]] + t[1..][..k];
      k + 1
  }

  lemma {:induction false} DigitRunEnds(digits: Text, rest: Text)
    requires AllDigits(digits)
    requires rest == [] || !IsDigit(rest[0])
    ensures DigitRun(digits + rest) == |digits|
    ensures (digits + rest)[..|digits|] == digits && (digits + rest)[|digits|..] == rest
  {
    if digits == [] {
      assert digits + rest == rest;
    } else {
      assert (digits + rest)[1..] == digits[1..] + rest;
      assert digits[0] in digits && forall u <- digits[1..] :: u in digits;
      DigitRunEnds(digits[1..], rest);
    }
  }

  // ----- Writing -----

  function Units(digits: seq<int>): (t: Text)
    requires AreDigits(digits)
    ensures |t| == |digits| && AllDigits(t) && forall i :: 0 <= i < |t| ==> t[i] == 0x30 + digits[i]
  {
    assert forall i :: 0 <= i < |digits| ==> digits[i] in digits;
    seq(|digits|, i requires 0 <= i < |digits| => 0x30 + digits[i])
  }

  function Zeros(k: nat): (t: Text)
    ensures |t| == k && AllDigits(t)
  {
    seq(k, _ => ZERO)
  }

  function ExponentText(exponent: Option<int>): Text {
    match exponent
    case None => []
    case Some(e) => [EXPONENT, if e < 0 then MINUS else PLUS] + Digits(if e < 0 then -e else e)
  }

  function FractionText(fraction: Text): Text { if fraction == [] then [] else [DOT] + fraction }

  function Spelled(whole: Text, fraction: Text, exponent: Option<int>): Text {
    whole + (FractionText(fraction) + ExponentText(exponent))
  }

  /** Plain up to 21 digits before the point and six zeros behind it, with an exponent beyond. */
  function Magnitude(digits: seq<int>, point: int): Text
    requires AreDigits(digits) && |digits| > 0
  {
    var t, k := Units(digits), |digits|;
    if k <= point <= 21 then Spelled(t + Zeros(point - k), [], None)
    else if 0 < point <= 21 then Spelled(t[..point], t[point..], None)
    else if -6 < point <= 0 then Spelled([ZERO], Zeros(-point) + t, None)
    else Spelled([t[0]], t[1..], Some(point - 1))
  }

  /** JSON.stringify of a number; both zeros are written alike. */
  function NumeralText(n: Numeral): Text {
    match n
    case Zero(_) => [ZERO]
    case Nonzero(negative, digits, point) =>
      if negative then [MINUS] + Magnitude(digits, point) else Magnitude(digits, point)
  }

  // ----- Reading -----

  function Values(t: Text): (digits: seq<int>)
    requires AllDigits(t)
    ensures |digits| == |t| && AreDigits(digits) && forall i :: 0 <= i < |t| ==> digits[i] + 0x30 == t[i]
  {
    assert forall i :: 0 <= i < |t| ==> t[i] in t;
    seq(|t|, i requires 0 <= i < |t| => t[i] - 0x30)
  }

  function StripEnd(digits: seq<int>): (r: seq<int>)
    requires AreDigits(digits)
    ensures AreDigits(r) && r <= digits && (r != [] ==> r[|r| - 1] != 0)
    ensures digits != [] && digits[0] != 0 ==> r != []
  {
    if digits != [] && digits[|digits| - 1] == 0 then
      var init := digits[..|digits| - 1];
      assert forall i :: 0 <= i < |init| ==> init[i] == digits[i] && digits[i] in digits;
      StripEnd(init)
    else digits
  }

  function Normalized(negative: bool, digits: seq<int>, point: int): Numeral
    requires AreDigits(digits)
    decreases |digits|
  {
    if digits == [] then Zero(negative)
    else if digits[0] == 0 then
      assert forall d <- digits[1..] :: d in digits;
      Normalized(negative, digits[1..], point - 1)
    else Nonzero(negative, StripEnd(digits), point)
  }

  function ReadFraction(text: Text): (r: (Text, Text))
    ensures AllDigits(r.0) && |r.1| <= |text|
  {
    if text != [] && text[0] == DOT then
      var k := DigitRun(text[1..]);
      (text[1..][..k], text[1..][k..])
    else ([], text)
  }

  function ReadExponent(text: Text): (r: (int, Text))
    ensures |r.1| <= |text|
  {
    if |text| >= 2 && text[0] == EXPONENT && (text[1] == PLUS || text[1] == MINUS) then
      var k := DigitRun(text[2..]);
      var e := DigitsValue(text[2..][..k]);
      (if text[1] == MINUS then -e else e, text[2..][k..])
    else (0, text)
  }

  function ReadMagnitude(negative: bool, text: Text): (r: Option<(Numeral, Text)>)
    ensures r.Some? ==> |r.value.1| < |text|
  {
    var k := DigitRun(text);
    if k == 0 then None
    else
      var whole := text[..k];
      var (fraction, afterFraction) := ReadFraction(text[k..]);
      var (exponent, rest) := ReadExponent(afterFraction);
      Some((Normalized(negative, Values(whole + fraction), k + exponent), rest))
  }

  function ReadNumber(text: Text): (r: Option<(Numeral, Text)>)
    ensures r.Some? ==> |r.value.1| < |text|
  {
    if text != [] && text[0] == MINUS then ReadMagnitude(true, text[1..]) else ReadMagnitude(false, text)
  }

  // ----- Reading back -----

  /** What may follow a written number: nothing, or anything a number cannot go on with. */
  predicate Ends(rest: Text) { rest == [] || (!IsDigit(rest[0]) && rest[0] != DOT && rest[0] != EXPONENT) }

  lemma FractionReadsBack(fraction: Text, tail: Text)
    requires AllDigits(fraction) && (tail == [] || (!IsDigit(tail[0]) && tail[0] != DOT))
    ensures ReadFraction(FractionText(fraction) + tail) == (fraction, tail)
  {
    if fraction == [] {
      assert FractionText(fraction) + tail == tail;
    } else {
      var text := [DOT] + (fraction + tail);
      assert FractionText(fraction) + tail == text && text[1..] == fraction + tail;
      DigitRunEnds(fraction, tail);
    }
  }

  lemma ExponentReadsBack(exponent: Option<int>, rest: Text)
    requires Ends(rest)
    ensures ReadExponent(ExponentText(exponent) + rest) == (if exponent.Some? then exponent.value else 0, rest)
  {
    match exponent {
      case None => assert ExponentText(exponent) + rest == rest;
      case Some(e) =>
        var digits := Digits(if e < 0 then -e else e);
        var text := [EXPONENT, if e < 0 then MINUS else PLUS] + (digits + rest);
        assert ExponentText(exponent) + rest == text && text[2..] == digits + rest;
        DigitRunEnds(digits, rest);
        DigitsRead(if e < 0 then -e else e);
    }
  }

  lemma FollowersEndDigits(fraction: Text, exponent: Option<int>, rest: Text)
    requires Ends(rest)
    ensures var behind := ExponentText(exponent) + rest;
            var tail := FractionText(fraction) + behind;
            && (behind == [] || (!IsDigit(behind[0]) && behind[0] != DOT)) && (tail == [] || !IsDigit(tail[0]))
  {
  }

  lemma SpellingReadsBack(negative: bool, whole: Text, fraction: Text, exponent: Option<int>, rest: Text)
    requires whole != [] && AllDigits(whole) && AllDigits(fraction) && Ends(rest)
    ensures AllDigits(whole + fraction)
    ensures ReadMagnitude(negative, Spelled(whole, fraction, exponent) + rest) ==
              Some((Normalized(negative, Values(whole + fraction), |whole| + if exponent.Some? then exponent.value
                else 0), rest))
  {
    hide Digits, DigitsValue, Normalized, Values, DigitRun, ReadFraction, ReadExponent, FractionText, ExponentText;
    FollowersEndDigits(fraction, exponent, rest);
    var behind := ExponentText(exponent) + rest;
    var tail := FractionText(fraction) + behind;
    assert Spelled(whole, fraction, exponent) + rest == whole + tail;
    DigitRunEnds(whole, tail);
    FractionReadsBack(fraction, behind);
    ExponentReadsBack(exponent, rest);
  }

  lemma {:induction false} TrailingZerosGo(digits: seq<int>, k: nat)
    requires AreDigits(digits) && digits != [] && digits[|digits| - 1] != 0
    ensures AreDigits(digits + Nulls(k)) && StripEnd(digits + Nulls(k)) == digits
    decreases k
  {
    var all := digits + Nulls(k);
    if k == 0 {
      assert all == digits;
    } else {
      assert all[..|all| - 1] == digits + Nulls(k - 1);
      TrailingZerosGo(digits, k - 1);
    }
  }

  function Nulls(k: nat): (zeros: seq<int>)
    ensures |zeros| == k && AreDigits(zeros)
  {
    seq(k, _ => 0)
  }

  /** Zeros around the digits only move the point. */
  lemma {:induction false} NormalizedIsShortest(negative: bool, j: nat, digits: seq<int>, k: nat, point: int)
    requires AreDigits(digits) && digits != [] && digits[0] != 0 && digits[|digits| - 1] != 0
    ensures AreDigits(Nulls(j) + (digits + Nulls(k)))
    ensures Normalized(negative, Nulls(j) + (digits + Nulls(k)), point) == Nonzero(negative, digits, point - j)
    decreases j
  {
    hide StripEnd;
    var all := Nulls(j) + (digits + Nulls(k));
    TrailingZerosGo(digits, k);
    if j == 0 {
      assert all == digits + Nulls(k);
    } else {
      assert all[1..] == Nulls(j - 1) + (digits + Nulls(k));
      NormalizedIsShortest(negative, j - 1, digits, k, point - 1);
    }
  }

  lemma ValuesOfUnits(j: nat, digits: seq<int>, k: nat)
    requires AreDigits(digits)
    ensures AllDigits(Zeros(j) + (Units(digits) + Zeros(k)))
    ensures Values(Zeros(j) + (Units(digits) + Zeros(k))) == Nulls(j) + (digits + Nulls(k))
  {
    var t, expected := Zeros(j) + (Units(digits) + Zeros(k)), Nulls(j) + (digits + Nulls(k));
    assert forall u <- t :: u in Zeros(j) || u in Units(digits) || u in Zeros(k);
    assert forall i :: 0 <= i < |t| ==> Values(t)[i] == expected[i];
  }

  lemma MagnitudeReadsBack(negative: bool, digits: seq<int>, point: int, rest: Text)
    requires IsNumeral(Nonzero(negative, digits, point)) && Ends(rest)
    ensures ReadMagnitude(negative, Magnitude(digits, point) + rest) == Some((Nonzero(negative, digits, point), rest))
  {
    hide ReadMagnitude, Spelled, Normalized, Values, Units, Zeros, Nulls;
    var t, k := Units(digits), |digits|;
    assert forall u <- t[..1] :: u in t;
    assert forall u <- t[1..] :: u in t;
    if k <= point <= 21 {
      SpellingReadsBack(negative, t + Zeros(point - k), [], None, rest);
      assert t + Zeros(point - k) + [] == Zeros(0) + (t + Zeros(point - k));
      ValuesOfUnits(0, digits, point - k);
      NormalizedIsShortest(negative, 0, digits, point - k, point);
    } else if 0 < point <= 21 {
      assert forall u <- t[..point] :: u in t;
      assert forall u <- t[point..] :: u in t;
      SpellingReadsBack(negative, t[..point], t[point..], None, rest);
      assert t[..point] + t[point..] == Zeros(0) + (t + Zeros(0));
      ValuesOfUnits(0, digits, 0);
      NormalizedIsShortest(negative, 0, digits, 0, point);
    } else if -6 < point <= 0 {
      SpellingReadsBack(negative, [ZERO], Zeros(-point) + t, None, rest);
      OneMoreZero(-point);
      assert [ZERO] + (Zeros(-point) + t) == Zeros(1 - point) + (t + Zeros(0));
      ValuesOfUnits(1 - point, digits, 0);
      NormalizedIsShortest(negative, 1 - point, digits, 0, 1);
    } else {
      SpellingReadsBack(negative, [t[0]], t[1..], Some(point - 1), rest);
      assert [t[0]] + t[1..] == Zeros(0) + (t + Zeros(0));
      ValuesOfUnits(0, digits, 0);
      NormalizedIsShortest(negative, 0, digits, 0, point);
    }
  }

  lemma OneMoreZero(k: nat)
    ensures [ZERO] + Zeros(k) == Zeros(k + 1)
  {
  }

  /** Both zeros read back as zero; every other number reads back as itself. */
  function Unsigned(n: Numeral): Numeral { if n.Zero? then Zero(false) else n }

  lemma ZeroReadsBack(rest: Text)
    requires Ends(rest)
    ensures ReadMagnitude(false, [ZERO] + rest) == Some((Zero(false), rest))
  {
    hide ReadMagnitude;
    SpellingReadsBack(false, [ZERO], [], None, rest);
    assert Spelled([ZERO], [], None) == [ZERO] && [ZERO] + [] == [ZERO];
    assert Values([ZERO]) == [0] && [0][1..] == [];
  }

  lemma NumberReadsBack(n: Numeral, rest: Text)
    requires Ends(rest)
    ensures ReadNumber(NumeralText(n) + rest) == Some((Unsigned(n), rest))
  {
    hide ReadMagnitude, Magnitude;
    match n {
      case Zero(_) => ZeroReadsBack(rest);
      case Nonzero(negative, digits, point) =>
        MagnitudeReadsBack(negative, digits, point, rest);
        FirstOfMagnitude(digits, point);
        if negative {
          var text := [MINUS] + (Magnitude(digits, point) + rest);
          assert NumeralText(n) + rest == text && text[1..] == Magnitude(digits, point) + rest;
        }
    }
  }

  lemma FirstOfMagnitude(digits: seq<int>, point: int)
    requires AreDigits(digits) && |digits| > 0
    ensures |Magnitude(digits, point)| > 0 && IsDigit(Magnitude(digits, point)[0])
  {
    var t := Units(digits);
    assert t[0] in t;
  }

  lemma FirstOfNumeral(n: Numeral)
    ensures |NumeralText(n)| > 0 && (IsDigit(NumeralText(n)[0]) || NumeralText(n)[0] == MINUS)
  {
    if n.Nonzero? {
      FirstOfMagnitude(n.digits, n.point);
    }
  }

  /** Two numbers are written alike if and only if they are one number up to the sign of zero. */
  lemma NumeralTextIsExact(m: Numeral, n: Numeral)
    ensures NumeralText(m) == NumeralText(n) <==> Unsigned(m) == Unsigned(n)
  {
    NumberReadsBack(m, []);
    NumberReadsBack(n, []);
    assert NumeralText(m) + [] == NumeralText(m) && NumeralText(n) + [] == NumeralText(n);
  }
}
