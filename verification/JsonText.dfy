/** JSON texts (RFC 8259) as they are derived by the grammar: objects in section 4, strings in
    section 7. A text is a sequence of UTF-16 code units. */
module JsonText {
  import opened JsonValues

  type Unit = u: int | 0 <= u < 0x10000
  type Text = seq<Unit>

  const QUOTE: Unit := 0x22
  const BACKSLASH: Unit := 0x5C
  const COLON: Unit := 0x3A
  const COMMA: Unit := 0x2C
  const OPEN_BRACE: Unit := 0x7B
  const CLOSE_BRACE: Unit := 0x7D
  const OPEN_BRACKET: Unit := 0x5B
  const CLOSE_BRACKET: Unit := 0x5D

  predicate IsBracket(u: Unit) { u == OPEN_BRACE || u == CLOSE_BRACE || u == OPEN_BRACKET || u == CLOSE_BRACKET }

  /** The `ws` of the grammar. */
  predicate IsWhitespace(u: Unit) { u == 0x20 || u == 0x09 || u == 0x0A || u == 0x0D }

  predicate IsGap(t: Text) { forall u <- t :: IsWhitespace(u) }

  // ----- Strings -----

  predicate IsHex(u: Unit) { 0x30 <= u <= 0x39 || 0x41 <= u <= 0x46 || 0x61 <= u <= 0x66 }

  function HexValue(u: Unit): (v: int)
    ensures IsHex(u) ==> 0 <= v < 16
  {
    if u <= 0x39 then u - 0x30 else if u <= 0x46 then u - 0x41 + 10 else u - 0x61 + 10
  }

  predicate IsSimpleEscape(u: Unit) { u in {0x22, 0x5C, 0x2F, 0x62, 0x66, 0x6E, 0x72, 0x74} }

  function SimpleEscape(u: Unit): Unit {
    if u == 0x62 then 0x08
    else if u == 0x66 then 0x0C
    else if u == 0x6E then 0x0A
    else if u == 0x72 then 0x0D
    else if u == 0x74 then 0x09
    else u
  }

  predicate IsUnicodeEscape(raw: Text) {
    |raw| >= 6 && raw[0] == BACKSLASH && raw[1] == 0x75 && IsHex(raw[2]) && IsHex(raw[3]) && IsHex(raw[4])
      && IsHex(raw[5])
  }

  /** What may stand between the quotes. */
  predicate IsStringBody(raw: Text) {
    if raw == [] then true
    else if raw[0] == BACKSLASH then
      if IsUnicodeEscape(raw) then IsStringBody(raw[6..])
      else |raw| >= 2 && IsSimpleEscape(raw[1]) && IsStringBody(raw[2..])
    else raw[0] != QUOTE && raw[0] >= 0x20 && IsStringBody(raw[1..])
  }

  /** The string a body stands for. */
  function Decode(raw: Text): Text
    requires IsStringBody(raw)
  {
    if raw == [] then []
    else if raw[0] == BACKSLASH then
      if IsUnicodeEscape(raw) then
        [((HexValue(raw[2]) * 16 + HexValue(raw[3])) * 16 + HexValue(raw[4])) * 16 + HexValue(raw[5])]
          + Decode(raw[6..])
      else [SimpleEscape(raw[1])] + Decode(raw[2..])
    else [raw[0]] + Decode(raw[1..])
  }

  // ----- Values -----

  /** A derivation. `Scalar` stands for numbers and for true, false and null; only what it cannot
      contain matters here. A list's elements carry the whitespace around them; an empty list
      carries the whitespace between its brackets. */
  datatype Tree = Scalar(raw: Text) | Quoted(body: Text) | Array(items: Items) | Object(members: Members)
  datatype Items = NoItems(gap: Text) | Item(before: Text, value: Tree, after: Text, rest: Items)
  datatype Members =
    | NoMembers(gap: Text)
    | Entry(before: Text, name: Text, beforeColon: Text, afterColon: Text, value: Tree, after: Text, rest: Members)

  predicate IsScalar(raw: Text) {
    |raw| > 0 && forall u <- raw :: u != QUOTE && !IsBracket(u) && u != COLON
  }

  predicate WellFormed(t: Tree) {
    match t
    case Scalar(raw) => IsScalar(raw)
    case Quoted(body) => IsStringBody(body)
    case Array(items) => WellFormedItems(items)
    case Object(members) => WellFormedMembers(members)
  }

  predicate WellFormedItems(items: Items) {
    match items
    case NoItems(gap) => IsGap(gap)
    case Item(before, value, after, rest) => IsGap(before) && WellFormed(value) && IsGap(after) && WellFormedItems(rest)
  }

  predicate WellFormedMembers(members: Members) {
    match members
    case NoMembers(gap) => IsGap(gap)
    case Entry(before, name, beforeColon, afterColon, value, after, rest) =>
      && IsGap(before) && IsStringBody(name) && IsGap(beforeColon) && IsGap(afterColon) && WellFormed(value)
      && IsGap(after)
      && WellFormedMembers(rest)
  }

  function Quote(body: Text): Text { [QUOTE] + body + [QUOTE] }

  function Unparse(t: Tree): Text {
    match t
    case Scalar(raw) => raw
    case Quoted(body) => Quote(body)
    case Array(items) => [OPEN_BRACKET] + UnparseItems(items, true) + [CLOSE_BRACKET]
    case Object(members) => [OPEN_BRACE] + UnparseMembers(members, true) + [CLOSE_BRACE]
  }

  /** What stands before an element: the comma of all but the first, and whitespace. */
  function Lead(first: bool, before: Text): Text { if first then before else [COMMA] + before }

  /** A member's name and its colon. */
  function Head(name: Text, beforeColon: Text): Text { Quote(name) + beforeColon + [COLON] }

  function UnparseItems(items: Items, first: bool): Text {
    match items
    case NoItems(gap) => if first then gap else []
    case Item(before, value, after, rest) =>
      Lead(first, before) + (Unparse(value) + (after + UnparseItems(rest, false)))
  }

  function UnparseMembers(members: Members, first: bool): Text {
    match members
    case NoMembers(gap) => if first then gap else []
    case Entry(before, name, beforeColon, afterColon, value, after, rest) =>
      Lead(first, before) +
      (Head(name, beforeColon) + (afterColon + (Unparse(value) + (after + UnparseMembers(rest, false)))))
  }

  /** The parsed value, every member of every object kept. Numbers and literals are not told apart. */
  function ValueOf(t: Tree): Json<Text, Numeral>
    requires WellFormed(t)
  {
    match t
    case Scalar(_) => Null
    case Quoted(body) => Str(Decode(body))
    case Array(items) => Arr(ItemValues(items))
    case Object(members) => Obj(MemberValues(members))
  }

  function ItemValues(items: Items): seq<Json<Text, Numeral>>
    requires WellFormedItems(items)
  {
    match items case NoItems(_) => [] case Item(_, value, _, rest) => [ValueOf(value)] + ItemValues(rest)
  }

  function MemberValues(members: Members): seq<Member<Text, Numeral>>
    requires WellFormedMembers(members)
  {
    match members
    case NoMembers(_) => []
    case Entry(_, name, _, _, value, _, rest) => [Member(Decode(name), ValueOf(value))] + MemberValues(rest)
  }

  /** Some object in the value has two members with the same name. */
  ghost predicate HasDuplicate(j: Json<Text, Numeral>) {
    match j
    case Arr(items) => exists item <- items :: HasDuplicate(item)
    case Obj(members) =>
      || (exists i, k :: 0 <= i < k < |members| && members[i].name == members[k].name)
      || (exists m <- members :: HasDuplicate(m.value))
    case _ => false
  }

  function Max(a: nat, b: nat): nat { if a < b then b else a }

  /** How deep arrays and objects are nested. */
  function Height(t: Tree): nat {
    match t
    case Array(items) => 1 + ItemsHeight(items)
    case Object(members) => 1 + MembersHeight(members)
    case _ => 0
  }

  function ItemsHeight(items: Items): nat {
    match items case NoItems(_) => 0 case Item(_, value, _, rest) => Max(Height(value), ItemsHeight(rest))
  }

  function MembersHeight(members: Members): nat {
    match members case NoMembers(_) => 0
      case Entry(_, _, _, _, value, _, rest) => Max(Height(value), MembersHeight(rest))
  }
}
