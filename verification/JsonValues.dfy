/** JSON values as the repository handles them after parsing.

    `T` is the type of strings: `string` where only the identity of a name matters, sequences of
    UTF-16 code units where the encoding itself is modelled. `N` is the type of numbers: `real`
    where facts are compared, `Numeral` where numbers are written. */
module JsonValues {
  datatype Json<T, N> =
    | Null
    | Bool(b: bool)
    | Number(n: N)
    | Str(text: T)
    | Arr(items: seq<Json<T, N>>)
    | Obj(members: seq<Member<T, N>>)

  datatype Member<T, N> = Member(name: T, value: Json<T, N>)

  /** A finite number as ECMAScript writes it (section 6.1.6.1.20 of ECMA-262): the shortest
      digits d1 d2 ... dk and the place of the decimal point, for 0.d1d2...dk times 10^point. */
  datatype FiniteNumber = Zero(negative: bool) | Nonzero(negative: bool, digits: seq<int>, point: int)

  predicate AreDigits(digits: seq<int>) { forall d <- digits :: 0 <= d <= 9 }

  predicate IsNumeral(d: FiniteNumber) {
    d.Nonzero? ==> AreDigits(d.digits) && |d.digits| > 0 && d.digits[0] != 0 && d.digits[|d.digits| - 1] != 0
  }

  type Numeral = d: FiniteNumber | IsNumeral(d) witness Zero(false)
}
