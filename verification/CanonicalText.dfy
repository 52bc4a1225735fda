/** Writing JSON values as text and reading them back (src/canonical.js): JSON.stringify for the
    leaves, members in the order they have. */
module CanonicalText {
  import opened RailStates
  import opened JsonValues
  import opened JsonText
  import opened NumberText
  import JsonInput

  type Value = Json<Text, Numeral>

  const NULL_TEXT: Text := [0x6E, 0x75, 0x6C, 0x6C]
  const TRUE_TEXT: Text := [0x74, 0x72, 0x75, 0x65]
  const FALSE_TEXT: Text := [0x66, 0x61, 0x6C, 0x73, 0x65]

  // ----- Strings -----

  function HexDigit(n: int): Unit
    requires 0 <= n < 16
  {
    if n < 10 then 0x30 + n else 0x61 + n - 10
  }

  function UnicodeEscape(u: Unit): Text {
    [BACKSLASH, 0x75, HexDigit(u / 4096), HexDigit(u / 256 % 16), HexDigit(u / 16 % 16), HexDigit(u % 16)]
  }

  predicate IsHigh(u: Unit) { 0xD800 <= u <= 0xDBFF }
  predicate IsLow(u: Unit) { 0xDC00 <= u <= 0xDFFF }

  function EscapeUnit(u: Unit): Text {
    if u == QUOTE || u == BACKSLASH then [BACKSLASH, u]
    else if u == 0x08 then [BACKSLASH, 0x62]
    else if u == 0x0C then [BACKSLASH, 0x66]
    else if u == 0x0A then [BACKSLASH, 0x6E]
    else if u == 0x0D then [BACKSLASH, 0x72]
    else if u == 0x09 then [BACKSLASH, 0x74]
    else if u < 0x20 || IsHigh(u) || IsLow(u) then UnicodeEscape(u)
    else [u]
  }

  /** JSON.stringify of a string, between the quotes: surrogates are escaped unless paired. */
  function Escape(s: Text): Text {
    if s == [] then []
    else if |s| >= 2 && IsHigh(s[0]) && IsLow(s[1]) then [s[0], s[1]] + Escape(s[2..])
    else EscapeUnit(s[0]) + Escape(s[1..])
  }

  lemma HexDigitValue(n: int)
    requires 0 <= n < 16
    ensures IsHex(HexDigit(n)) && HexValue(HexDigit(n)) == n
  {
  }

  lemma HexDigitsMakeUnit(u: Unit)
    ensures u / 4096 < 16
    ensures u == ((u / 4096 * 16 + u / 256 % 16) * 16 + u / 16 % 16) * 16 + u % 16
  {
  }

  lemma UnicodeEscapeDecodes(u: Unit, rest: Text)
    requires IsStringBody(rest)
    ensures IsStringBody(UnicodeEscape(u) + rest) && Decode(UnicodeEscape(u) + rest) == [u] + Decode(rest)
  {
    hide HexDigit, HexValue;
    var raw := UnicodeEscape(u) + rest;
    assert raw[6..] == rest;
    HexDigitsMakeUnit(u);
    HexDigitValue(u / 4096);
    HexDigitValue(u / 256 % 16);
    HexDigitValue(u / 16 % 16);
    HexDigitValue(u % 16);
  }

  lemma EscapedUnitDecodes(u: Unit, rest: Text)
    requires IsStringBody(rest)
    ensures IsStringBody(EscapeUnit(u) + rest) && Decode(EscapeUnit(u) + rest) == [u] + Decode(rest)
  {
    var raw := EscapeUnit(u) + rest;
    if |EscapeUnit(u)| == 6 {
      UnicodeEscapeDecodes(u, rest);
    } else if |EscapeUnit(u)| == 2 {
      assert raw[2..] == rest && raw[1] != 0x75;
    } else {
      assert raw[1..] == rest;
    }
  }

  lemma NothingDecodes()
    ensures IsStringBody([]) && Decode([]) == []
  {
  }

  lemma PairDecodes(high: Unit, low: Unit, rest: Text)
    requires IsHigh(high) && IsLow(low) && IsStringBody(rest)
    ensures IsStringBody([high, low] + rest) && Decode([high, low] + rest) == [high, low] + Decode(rest)
  {
    var raw := [high, low] + rest;
    assert raw[1..] == [low] + rest && raw[1..][1..] == rest;
    assert [high, low] + Decode(rest) == [high] + ([low] + Decode(rest));
  }

  lemma {:induction false} EscapeDecodes(s: Text)
    ensures IsStringBody(Escape(s)) && Decode(Escape(s)) == s
    decreases |s|
  {
    hide EscapeUnit, IsStringBody, Decode;
    if s == [] {
      NothingDecodes();
    } else if |s| >= 2 && IsHigh(s[0]) && IsLow(s[1]) {
      EscapeDecodes(s[2..]);
      PairDecodes(s[0], s[1], Escape(s[2..]));
      assert s == [s[0], s[1]] + s[2..];
    } else {
      EscapeDecodes(s[1..]);
      EscapedUnitDecodes(s[0], Escape(s[1..]));
      assert s == [s[0]] + s[1..];
    }
  }

  // ----- Writing -----

  function Join(parts: seq<Text>): Text {
    if parts == [] then []
    else if |parts| == 1 then parts[0]
    else parts[0] + ([COMMA] + Join(parts[1..]))
  }

  function WriteMember(name: Text, written: Text): Text { Quote(Escape(name)) + ([COLON] + written) }

  function ItemTexts(items: seq<Value>): (parts: seq<Text>)
    ensures |parts| == |items| && forall i :: 0 <= i < |items| ==> parts[i] == Write(items[i])
    decreases items, 0
  {
    seq(|items|, i requires 0 <= i < |items| => Write(items[i]))
  }

  /** A value with its members in the order they have. */
  function Write(v: Value): Text
    decreases v, 1
  {
    match v
    case Null => NULL_TEXT
    case Bool(b) => if b then TRUE_TEXT else FALSE_TEXT
    case Number(n) => NumeralText(n)
    case Str(s) => Quote(Escape(s))
    case Arr(items) => [OPEN_BRACKET] + Join(ItemTexts(items)) + [CLOSE_BRACKET]
    case Obj(members) => [OPEN_BRACE] + Join(MemberTexts(v)) + [CLOSE_BRACE]
  }

  function MemberTexts(v: Value): (parts: seq<Text>)
    requires v.Obj?
    ensures |parts| == |v.members|
    ensures forall i :: 0 <= i < |parts| ==> parts[i] == WriteMember(v.members[i].name, Write(v.members[i].value))
    decreases v, 0
  {
    seq(|v.members|, i requires 0 <= i < |v.members| =>
      (assert v.members[i] in v.members; WriteMember(v.members[i].name, Write(v.members[i].value))))
  }

  // ----- Reading -----

  function ReadString(text: Text): (r: Option<(Text, Text)>)
    ensures r.Some? ==> |r.value.1| < |text|
  {
    if text == [] || text[0] != QUOTE then None
    else match JsonInput.StringEnd(text, 1)
      case None => None
      case Some(end) =>
        var body := text[1..end - 1];
        if end >= 2 && IsStringBody(body) then Some((Decode(body), text[end..])) else None
  }

  function ReadValue(text: Text): (r: Option<(Value, Text)>)
    ensures r.Some? ==> |r.value.1| < |text|
    decreases |text|, 0
  {
    if NULL_TEXT <= text then Some((Null, text[4..]))
    else if TRUE_TEXT <= text then Some((Bool(true), text[4..]))
    else if FALSE_TEXT <= text then Some((Bool(false), text[5..]))
    else if text == [] then None
    else if text[0] == QUOTE then
      (match ReadString(text) case Some((s, rest)) => Some((Str(s), rest)) case None => None)
    else if text[0] == OPEN_BRACKET then
      if |text| >= 2 && text[1] == CLOSE_BRACKET then Some((Arr([]), text[2..]))
      else (match ReadItems(text[1..]) case Some((items, rest)) => Some((Arr(items), rest)) case None => None)
    else if text[0] == OPEN_BRACE then
      if |text| >= 2 && text[1] == CLOSE_BRACE then Some((Obj([]), text[2..]))
      else (match ReadMembers(text[1..]) case Some((members, rest)) => Some((Obj(members), rest)) case None => None)
    else match ReadNumber(text) case Some((n, rest)) => Some((Number(n), rest)) case None => None
  }

  function ReadItems(text: Text): (r: Option<(seq<Value>, Text)>)
    ensures r.Some? ==> |r.value.1| < |text|
    decreases |text|, 1
  {
    match ReadValue(text)
    case None => None
    case Some((v, rest)) =>
      if rest == [] then None
      else if rest[0] == CLOSE_BRACKET then Some(([v], rest[1..]))
      else if rest[0] != COMMA then None
      else match ReadItems(rest[1..]) case Some((vs, end)) => Some(([v] + vs, end)) case None => None
  }

  function ReadMembers(text: Text): (r: Option<(seq<Member<Text, Numeral>>, Text)>)
    ensures r.Some? ==> |r.value.1| < |text|
    decreases |text|, 1
  {
    match ReadString(text)
    case None => None
    case Some((name, afterName)) =>
      if afterName == [] || afterName[0] != COLON then None
      else match ReadValue(afterName[1..])
        case None => None
        case Some((v, rest)) =>
          if rest == [] then None
          else if rest[0] == CLOSE_BRACE then Some(([Member(name, v)], rest[1..]))
          else if rest[0] != COMMA then None
          else match ReadMembers(rest[1..]) case Some((ms, end)) => Some(([Member(name, v)] + ms, end))
            case None => None
  }

  // ----- Reading back -----

  /** A value with both zeros written as one. */
  function ZerosUnsigned(v: Value): (r: Value)
    decreases v
  {
    match v
    case Number(n) => Number(Unsigned(n))
    case Arr(items) => Arr(seq(|items|, i requires 0 <= i < |items| => ZerosUnsigned(items[i])))
    case Obj(members) =>
      Obj(seq(|members|, i requires 0 <= i < |members| =>
        (assert members[i] in members; Member(members[i].name, ZerosUnsigned(members[i].value)))))
    case _ => v
  }

  lemma StringReadsBack(s: Text, rest: Text)
    ensures ReadString(Quote(Escape(s)) + rest) == Some((s, rest))
  {
    hide Escape, Decode, Quote, IsStringBody;
    var text, body := Quote(Escape(s)) + rest, Escape(s);
    EscapeDecodes(s);
    QuotedParts(body, rest);
    JsonInput.BodyIsOneToken(text, 1, body);
  }

  lemma QuotedParts(body: Text, rest: Text)
    ensures var text, n := Quote(body) + rest, |body|;
            && |text| == n + 2 + |rest| && text[0] == QUOTE
            && text[1..n + 1] == body && text[n + 2..] == rest
            && JsonInput.StandsAt(text, 1, body + [QUOTE])
  {
    assert Quote(body) + rest == [QUOTE] + (body + ([QUOTE] + rest));
    var text, n := [QUOTE] + (body + ([QUOTE] + rest)), |body|;
    assert text[1..n + 1] == body && text[1..n + 2] == body + [QUOTE] && text[n + 2..] == rest;
  }

  /** The first unit of a written value tells what it is. */
  lemma FirstOfWritten(v: Value)
    ensures |Write(v)| > 0
    ensures v.Str? <==> Write(v)[0] == QUOTE
    ensures v.Arr? <==> Write(v)[0] == OPEN_BRACKET
    ensures v.Obj? <==> Write(v)[0] == OPEN_BRACE
    ensures v.Null? <==> Write(v)[0] == 0x6E
    ensures v.Bool? <==> Write(v)[0] == 0x74 || Write(v)[0] == 0x66
    ensures Write(v)[0] != CLOSE_BRACKET && Write(v)[0] != CLOSE_BRACE
  {
    hide NumeralText;
    if v.Number? {
      FirstOfNumeral(v.n);
    }
  }

  lemma LiteralReadsBack(v: Value, rest: Text)
    requires v.Null? || v.Bool?
    ensures ReadValue(Write(v) + rest) == Some((v, rest))
  {
    var text := Write(v) + rest;
    assert text[|Write(v)|..] == rest;
    assert Write(v) <= text;
    if v == Bool(true) {
      assert text[0] == 0x74;
    } else if v == Bool(false) {
      assert text[0] == 0x66;
    }
  }

  /** Reading back what was written gives the value, its zeros without a sign, and leaves what
      follows it. */
  lemma {:induction false} ValueReadsBack(v: Value, rest: Text)
    requires Ends(rest)
    ensures ReadValue(Write(v) + rest) == Some((ZerosUnsigned(v), rest))
    decreases v, 1, 0
  {
    match v {
      case Null => LiteralReadsBack(v, rest);
      case Bool(_) => LiteralReadsBack(v, rest);
      case Number(n) => NumberIsRead(n, rest);
      case Str(s) => StringIsRead(s, rest);
      case Arr(items) =>
        if items != [] {
          ItemsReadBack(v, 0, rest);
          assert ZerosUnsigned(v).items[0..] == ZerosUnsigned(v).items && ItemTexts(items)[0..] == ItemTexts(items);
        }
        ArrayIsRead(items, ZerosUnsigned(v).items, rest);
      case Obj(members) =>
        if members != [] {
          MembersReadBack(v, MemberTexts(v), 0, rest);
          assert ZerosUnsigned(v).members[0..] == ZerosUnsigned(v).members && MemberTexts(v)[0..] == MemberTexts(v);
        }
        ObjectIsRead(v, ZerosUnsigned(v).members, rest);
    }
  }

  lemma NotALiteral(v: Value, rest: Text)
    requires !v.Null? && !v.Bool?
    ensures var text := Write(v) + rest;
            text[0] == Write(v)[0] && !(NULL_TEXT <= text) && !(TRUE_TEXT <= text) && !(FALSE_TEXT <= text)
  {
    FirstOfWritten(v);
  }

  lemma NumberIsRead(n: Numeral, rest: Text)
    requires Ends(rest)
    ensures ReadValue(Write(Number(n)) + rest) == Some((Number(Unsigned(n)), rest))
  {
    hide NumeralText, ReadNumber;
    NotALiteral(Number(n), rest);
    FirstOfWritten(Number(n));
    NumberReadsBack(n, rest);
  }

  lemma StringIsRead(s: Text, rest: Text)
    ensures ReadValue(Write(Str(s)) + rest) == Some((Str(s), rest))
  {
    NotALiteral(Str(s), rest);
    StringReadsBack(s, rest);
  }

  lemma ArrayIsRead(items: seq<Value>, read: seq<Value>, rest: Text)
    requires |read| == |items|
    requires items != [] ==> ReadItems(Join(ItemTexts(items)) + ([CLOSE_BRACKET] + rest)) == Some((read, rest))
    ensures ReadValue(Write(Arr(items)) + rest) == Some((Arr(read), rest))
  {
    hide ReadItems, ReadValue, Join;
    var inside := Join(ItemTexts(items));
    assert Write(Arr(items)) + rest == [OPEN_BRACKET] + (inside + ([CLOSE_BRACKET] + rest));
    if items == [] {
      EmptyArrayIsRead(rest);
      NothingJoins();
      assert [] + ([CLOSE_BRACKET] + rest) == [CLOSE_BRACKET] + rest;
    } else {
      FirstOfWritten(items[0]);
      JoinStarts(ItemTexts(items));
      BracketsAreRead(inside + ([CLOSE_BRACKET] + rest), read, rest);
    }
  }

  lemma NothingJoins()
    ensures Join([]) == []
  {
  }

  lemma EmptyArrayIsRead(rest: Text)
    ensures ReadValue([OPEN_BRACKET] + ([CLOSE_BRACKET] + rest)) == Some((Arr([]), rest))
  {
    hide ReadItems, ReadMembers, ReadString, ReadNumber;
    var text := [OPEN_BRACKET] + ([CLOSE_BRACKET] + rest);
    assert text[0] == OPEN_BRACKET && text[1] == CLOSE_BRACKET && text[2..] == rest;
  }

  lemma BracketsAreRead(inside: Text, items: seq<Value>, rest: Text)
    requires inside != [] && inside[0] != CLOSE_BRACKET && ReadItems(inside) == Some((items, rest))
    ensures ReadValue([OPEN_BRACKET] + inside) == Some((Arr(items), rest))
  {
    hide ReadItems, ReadMembers, ReadString, ReadNumber;
    var text := [OPEN_BRACKET] + inside;
    assert text[1..] == inside && text[0] == OPEN_BRACKET && text[1] == inside[0];
  }

  lemma JoinStarts(parts: seq<Text>)
    requires parts != [] && parts[0] != []
    ensures Join(parts) != [] && Join(parts)[0] == parts[0][0]
  {
  }

  lemma ObjectIsRead(v: Value, read: seq<Member<Text, Numeral>>, rest: Text)
    requires v.Obj? && |read| == |v.members|
    requires v.members != [] ==> ReadMembers(Join(MemberTexts(v)) + ([CLOSE_BRACE] + rest)) == Some((read, rest))
    ensures ReadValue(Write(v) + rest) == Some((Obj(read), rest))
  {
    hide ReadMembers, ReadValue, Join;
    var inside := Join(MemberTexts(v));
    assert Write(v) + rest == [OPEN_BRACE] + (inside + ([CLOSE_BRACE] + rest));
    if v.members == [] {
      EmptyObjectIsRead(rest);
      NothingJoins();
      assert [] + ([CLOSE_BRACE] + rest) == [CLOSE_BRACE] + rest;
    } else {
      JoinStarts(MemberTexts(v));
      assert MemberTexts(v)[0][0] == QUOTE;
      BracesAreRead(inside + ([CLOSE_BRACE] + rest), read, rest);
    }
  }

  lemma EmptyObjectIsRead(rest: Text)
    ensures ReadValue([OPEN_BRACE] + ([CLOSE_BRACE] + rest)) == Some((Obj([]), rest))
  {
    hide ReadItems, ReadMembers, ReadString, ReadNumber;
    var text := [OPEN_BRACE] + ([CLOSE_BRACE] + rest);
    assert text[0] == OPEN_BRACE && text[1] == CLOSE_BRACE && text[2..] == rest;
  }

  lemma BracesAreRead(inside: Text, members: seq<Member<Text, Numeral>>, rest: Text)
    requires inside != [] && inside[0] != CLOSE_BRACE && ReadMembers(inside) == Some((members, rest))
    ensures ReadValue([OPEN_BRACE] + inside) == Some((Obj(members), rest))
  {
    hide ReadItems, ReadMembers, ReadString, ReadNumber;
    var text := [OPEN_BRACE] + inside;
    assert text[1..] == inside && text[0] == OPEN_BRACE && text[1] == inside[0];
  }

  lemma {:induction false} ItemsReadBack(v: Value, k: nat, rest: Text)
    requires v.Arr? && k < |v.items|
    ensures ReadItems(Join(ItemTexts(v.items)[k..])
            + ([CLOSE_BRACKET] + rest)) == Some((ZerosUnsigned(v).items[k..], rest))
    decreases v, 0, |v.items| - k
  {
    var parts := ItemTexts(v.items)[k..];
    var item := v.items[k];
    if k == |v.items| - 1 {
      ValueReadsBack(item, [CLOSE_BRACKET] + rest);
      assert ([CLOSE_BRACKET] + rest)[1..] == rest && ZerosUnsigned(v).items[k..] == [ZerosUnsigned(item)];
    } else {
      var tail := Join(ItemTexts(v.items)[k + 1..]) + ([CLOSE_BRACKET] + rest);
      assert parts[1..] == ItemTexts(v.items)[k + 1..];
      assert Join(parts) + ([CLOSE_BRACKET] + rest) == Write(item) + ([COMMA] + tail);
      ValueReadsBack(item, [COMMA] + tail);
      assert ([COMMA] + tail)[1..] == tail;
      ItemsReadBack(v, k + 1, rest);
      assert ZerosUnsigned(v).items[k..] == [ZerosUnsigned(item)] + ZerosUnsigned(v).items[k + 1..];
    }
  }

  lemma {:induction false} MembersReadBack(v: Value, parts: seq<Text>, k: nat, rest: Text)
    requires v.Obj? && k < |v.members| && |parts| == |v.members|
    requires forall i :: 0 <= i < |parts| ==> parts[i] == WriteMember(v.members[i].name, Write(v.members[i].value))
    ensures ReadMembers(Join(parts[k..]) + ([CLOSE_BRACE] + rest)) == Some((ZerosUnsigned(v).members[k..], rest))
    decreases v, 0, |v.members| - k
  {
    hide ReadMembers, ReadValue, Join, WriteMember;
    var m := v.members[k];
    assert m in v.members;
    if k == |v.members| - 1 {
      ValueReadsBack(m.value, [CLOSE_BRACE] + rest);
      LastMemberReads(m, rest);
      JoinLast(parts, k);
      assert ZerosUnsigned(v).members[k..] == [Member(m.name, ZerosUnsigned(m.value))];
    } else {
      var tail := Join(parts[k + 1..]) + ([CLOSE_BRACE] + rest);
      ValueReadsBack(m.value, [COMMA] + tail);
      MembersReadBack(v, parts, k + 1, rest);
      NextMemberReads(m, tail, ZerosUnsigned(v).members[k + 1..], rest);
      JoinNext(parts, k, [CLOSE_BRACE] + rest);
      assert ZerosUnsigned(v).members[k..] == [Member(m.name, ZerosUnsigned(m.value))]
        + ZerosUnsigned(v).members[k + 1..];
    }
  }

  lemma JoinLast(parts: seq<Text>, k: nat)
    requires k + 1 == |parts|
    ensures Join(parts[k..]) == parts[k]
  {
    assert parts[k..] == [parts[k]];
  }

  lemma JoinNext(parts: seq<Text>, k: nat, rest: Text)
    requires k + 1 < |parts|
    ensures Join(parts[k..]) + rest == parts[k] + ([COMMA] + (Join(parts[k + 1..]) + rest))
  {
    assert parts[k..][1..] == parts[k + 1..];
  }

  lemma LastMemberReads(m: Member<Text, Numeral>, rest: Text)
    requires ReadValue(Write(m.value) + ([CLOSE_BRACE] + rest)) == Some((ZerosUnsigned(m.value), [CLOSE_BRACE] + rest))
    ensures ReadMembers(WriteMember(m.name, Write(m.value))
            + ([CLOSE_BRACE] + rest)) == Some(([Member(m.name, ZerosUnsigned(m.value))], rest))
  {
    MemberReadsBack(m, [CLOSE_BRACE] + rest);
    assert ([CLOSE_BRACE] + rest)[1..] == rest;
  }

  lemma NextMemberReads(m: Member<Text, Numeral>, tail: Text, later: seq<Member<Text, Numeral>>, rest: Text)
    requires ReadValue(Write(m.value) + ([COMMA] + tail)) == Some((ZerosUnsigned(m.value), [COMMA] + tail))
    requires ReadMembers(tail) == Some((later, rest))
    ensures ReadMembers(WriteMember(m.name, Write(m.value))
            + ([COMMA] + tail)) == Some(([Member(m.name, ZerosUnsigned(m.value))] + later, rest))
  {
    MemberReadsBack(m, [COMMA] + tail);
    assert ([COMMA] + tail)[1..] == tail;
  }

  lemma MemberReadsBack(m: Member<Text, Numeral>, rest: Text)
    ensures var text := WriteMember(m.name, Write(m.value)) + rest;
            var behind := [COLON] + (Write(m.value) + rest);
            ReadString(text) == Some((m.name, behind)) && behind[1..] == Write(m.value) + rest
  {
    var behind := [COLON] + (Write(m.value) + rest);
    assert WriteMember(m.name, Write(m.value)) + rest == Quote(Escape(m.name)) + behind;
    StringReadsBack(m.name, behind);
  }

  lemma {:induction false} SignOfZeroIsNotWritten(v: Value)
    ensures Write(ZerosUnsigned(v)) == Write(v)
    decreases v
  {
    match v {
      case Number(n) => NumeralTextIsExact(n, Unsigned(n));
      case Arr(items) =>
        forall i | 0 <= i < |items|
          ensures ItemTexts(ZerosUnsigned(v).items)[i] == ItemTexts(items)[i]
        {
          SignOfZeroIsNotWritten(items[i]);
        }
        assert ItemTexts(ZerosUnsigned(v).items) == ItemTexts(items);
      case Obj(members) =>
        forall i | 0 <= i < |members|
          ensures MemberTexts(ZerosUnsigned(v))[i] == MemberTexts(v)[i]
        {
          assert members[i] in members;
          SignOfZeroIsNotWritten(members[i].value);
        }
        assert MemberTexts(ZerosUnsigned(v)) == MemberTexts(v);
      case _ =>
    }
  }

  /** So the text determines the value up to the sign of zeros, and nothing but that. */
  lemma WriteIsExact(a: Value, b: Value)
    ensures Write(a) == Write(b) <==> ZerosUnsigned(a) == ZerosUnsigned(b)
  {
    ValueReadsBack(a, []);
    ValueReadsBack(b, []);
    SignOfZeroIsNotWritten(a);
    SignOfZeroIsNotWritten(b);
    assert Write(a) + [] == Write(a) && Write(b) + [] == Write(b);
  }
}
