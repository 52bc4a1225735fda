/** The one-pass scanner that finds duplicate members in a valid JSON text (src/json-input.js). */
module JsonInput {
  import opened RailStates
  import opened JsonValues
  import opened JsonText

  const MAX_DEPTH := 64

  datatype Error = DuplicateKey | DepthExceeded | NoKeySet
  datatype Frame = Keys(names: set<Text>) | InArray
  datatype Verdict = Accepted | Rejected(error: Error)

  // ----- Tokens -----

  /** Where a string token that starts at `i` ends, if it ends: the regular expression
      `"(?:\\[\s\S]|[^"\\])*"` with `from` inside it. */
  function StringEnd(text: Text, from: nat): (end: Option<nat>)
    requires from <= |text|
    ensures end.Some? ==> from < end.value <= |text|
    decreases |text| - from
  {
    if from == |text| then None
    else if text[from] == QUOTE then Some(from + 1)
    else if text[from] == BACKSLASH then if from + 2 <= |text| then StringEnd(text, from + 2) else None
    else StringEnd(text, from + 1)
  }

  /** JavaScript's \s, which is wider than the grammar's whitespace. */
  predicate IsSpace(u: Unit) {
    || 0x09 <= u <= 0x0D || u == 0x20 || u == 0xA0 || u == 0x1680 || 0x2000 <= u <= 0x200A
    || u == 0x2028 || u == 0x2029 || u == 0x202F || u == 0x205F || u == 0x3000 || u == 0xFEFF
  }

  function SkipSpace(text: Text, from: nat): (next: nat)
    requires from <= |text|
    ensures from <= next <= |text|
    decreases |text| - from
  {
    if from < |text| && IsSpace(text[from]) then SkipSpace(text, from + 1) else from
  }

  predicate ColonFollows(text: Text, from: nat)
    requires from <= |text|
  {
    var next := SkipSpace(text, from);
    next < |text| && text[next] == COLON
  }

  /** JSON.parse of a string token; only called on tokens of a valid text. */
  function KeyOf(token: Text): Text {
    if |token| >= 2 && IsStringBody(token[1..|token| - 1]) then Decode(token[1..|token| - 1]) else token
  }

  // ----- The loop as a function of where it stands -----

  function Scan(text: Text, pos: nat, stack: seq<Frame>): Verdict
    requires pos <= |text|
    decreases |text| - pos
  {
    if pos == |text| then Accepted
    else
      var u := text[pos];
      if u == OPEN_BRACE || u == OPEN_BRACKET then
        var pushed := stack + [if u == OPEN_BRACE then Keys({}) else InArray];
        if |pushed| > MAX_DEPTH + 1 then Rejected(DepthExceeded) else Scan(text, pos + 1, pushed)
      else if u == CLOSE_BRACE || u == CLOSE_BRACKET then
        Scan(text, pos + 1, if stack == [] then [] else stack[..|stack| - 1])
      else if u == QUOTE && StringEnd(text, pos + 1).Some? then
        var end := StringEnd(text, pos + 1).value;
        if !ColonFollows(text, end) then Scan(text, end, stack)
        else if stack == [] || stack[|stack| - 1].InArray? then Rejected(NoKeySet)
        else
          var names := stack[|stack| - 1].names;
          var key := KeyOf(text[pos..end]);
          if key in names then Rejected(DuplicateKey)
          else Scan(text, end, stack[..|stack| - 1] + [Keys(names + {key})])
      else Scan(text, pos + 1, stack)
  }

  /** parseUniqueJson; `value` is what JSON.parse made of the text. */
  method ParseUniqueJson(text: Text, value: Json<Text, Numeral>)
    returns (r: Option<Json<Text, Numeral>>, error: Option<Error>)
    ensures match Scan(text, 0, [])
            case Accepted => r == Some(value) && error == None
            case Rejected(e) => r == None && error == Some(e)
  {
    var stack: seq<Frame> := [];
    var pos := 0;
    while pos < |text|
      invariant pos <= |text|
      invariant Scan(text, pos, stack) == Scan(text, 0, [])
    {
      var u := text[pos];
      if u == OPEN_BRACE || u == OPEN_BRACKET {
        stack := stack + [if u == OPEN_BRACE then Keys({}) else InArray];
        if |stack| > MAX_DEPTH + 1 {
          return None, Some(DepthExceeded);
        }
        pos := pos + 1;
      } else if u == CLOSE_BRACE || u == CLOSE_BRACKET {
        stack := if stack == [] then [] else stack[..|stack| - 1];
        pos := pos + 1;
      } else {
        var end := if u == QUOTE then StringEnd(text, pos + 1) else None;
        if end.None? {
          pos := pos + 1;
        } else {
          var next := end.value;
          while next < |text| && IsSpace(text[next])
            invariant end.value <= next <= |text|
            invariant SkipSpace(text, next) == SkipSpace(text, end.value)
          {
            next := next + 1;
          }
          if next < |text| && text[next] == COLON {
            if stack == [] || stack[|stack| - 1].InArray? {
              return None, Some(NoKeySet);
            }
            var keys := stack[|stack| - 1].names;
            var key := KeyOf(text[pos..end.value]);
            if key in keys {
              return None, Some(DuplicateKey);
            }
            stack := stack[..|stack| - 1] + [Keys(keys + {key})];
          }
          pos := end.value;
        }
      }
    }
    return Some(value), None;
  }

  // ----- What the scan comes to, value by value -----

  function TreeError(t: Tree, depth: nat): Option<Error>
    requires WellFormed(t)
  {
    match t
    case Scalar(_) => None
    case Quoted(_) => None
    case Array(items) => if depth > MAX_DEPTH then Some(DepthExceeded) else ItemsError(items, depth + 1)
    case Object(members) => if depth > MAX_DEPTH then Some(DepthExceeded) else MembersError(members, {}, depth + 1)
  }

  function ItemsError(items: Items, depth: nat): Option<Error>
    requires WellFormedItems(items)
  {
    match items
    case NoItems(_) => None
    case Item(_, value, _, rest) =>
      match TreeError(value, depth) case Some(e) => Some(e) case None => ItemsError(rest, depth)
  }

  function MembersError(members: Members, seen: set<Text>, depth: nat): Option<Error>
    requires WellFormedMembers(members)
  {
    match members
    case NoMembers(_) => None
    case Entry(_, name, _, _, value, _, rest) =>
      if Decode(name) in seen then Some(DuplicateKey)
      else match TreeError(value, depth) case Some(e) => Some(e)
        case None => MembersError(rest, seen + {Decode(name)}, depth)
  }

  /** `part` stands in the text at `pos`. */
  predicate StandsAt(text: Text, pos: nat, part: Text) {
    pos + |part| <= |text| && text[pos..pos + |part|] == part
  }

  lemma StandsSplit(text: Text, pos: nat, left: Text, right: Text)
    requires StandsAt(text, pos, left + right)
    ensures StandsAt(text, pos, left) && StandsAt(text, pos + |left|, right)
  {
    var whole := text[pos..pos + |left + right|];
    assert whole[..|left|] == left && whole[|left|..] == right;
    assert text[pos..pos + |left|] == whole[..|left|];
    assert text[pos + |left|..pos + |left| + |right|] == whole[|left|..];
  }

  lemma FirstUnit(text: Text, pos: nat, u: Unit)
    requires StandsAt(text, pos, [u])
    ensures text[pos] == u
  {
    assert text[pos] == text[pos..pos + 1][0];
  }

  lemma {:induction false} PlainIsSkipped(text: Text, pos: nat, part: Text, stack: seq<Frame>)
    requires StandsAt(text, pos, part)
    requires forall u <- part :: u != QUOTE && !IsBracket(u)
    ensures Scan(text, pos, stack) == Scan(text, pos + |part|, stack)
    decreases |part|
  {
    hide StringEnd, ColonFollows;
    if part != [] {
      assert part == [part[0]] + part[1..];
      StandsSplit(text, pos, [part[0]], part[1..]);
      FirstUnit(text, pos, part[0]);
      assert forall u <- part[1..] :: u in part;
      assert part[0] in part && StandsAt(text, pos + |[part[0]]|, part[1..]) && |[part[0]]| == 1;
      PlainIsSkipped(text, pos + 1, part[1..], stack);
    }
  }

  lemma UnitOf(text: Text, pos: nat, part: Text, i: nat)
    requires StandsAt(text, pos, part) && i < |part|
    ensures text[pos + i] == part[i]
  {
    assert text[pos..pos + |part|][i] == part[i];
  }

  /** An escape sequence of a string body is passed over as a whole. */
  lemma EscapeIsPassed(text: Text, pos: nat, body: Text)
    requires StandsAt(text, pos, body) && pos + |body| < |text| && IsStringBody(body) && body != []
             && body[0] == BACKSLASH
    ensures var n := if IsUnicodeEscape(body) then 6 else 2;
            n <= |body| && IsStringBody(body[n..]) && StringEnd(text, pos) == StringEnd(text, pos + n)
  {
    UnitOf(text, pos, body, 0);
    if IsUnicodeEscape(body) {
      hide IsHex;
      UnitOf(text, pos, body, 1);
      UnitOf(text, pos, body, 2);
      UnitOf(text, pos, body, 3);
      UnitOf(text, pos, body, 4);
      UnitOf(text, pos, body, 5);
      HexIsPlain(text, pos + 2, 4);
    }
  }

  lemma {:induction false} BodyIsOneToken(text: Text, pos: nat, body: Text)
    requires StandsAt(text, pos, body + [QUOTE]) && IsStringBody(body)
    ensures StringEnd(text, pos) == Some(pos + |body| + 1)
    decreases |body|
  {
    hide IsUnicodeEscape, IsSimpleEscape;
    StandsSplit(text, pos, body, [QUOTE]);
    if body == [] {
      UnitOf(text, pos, [QUOTE], 0);
    } else {
      UnitOf(text, pos, body, 0);
      var n := if body[0] != BACKSLASH then 1 else if IsUnicodeEscape(body) then 6 else 2;
      if body[0] == BACKSLASH {
        EscapeIsPassed(text, pos, body);
      }
      assert body + [QUOTE] == body[..n] + (body[n..] + [QUOTE]);
      StandsSplit(text, pos, body[..n], body[n..] + [QUOTE]);
      BodyIsOneToken(text, pos + n, body[n..]);
    }
  }

  lemma {:induction false} HexIsPlain(text: Text, from: nat, n: nat)
    requires from + n <= |text| && forall i :: from <= i < from + n ==> IsHex(text[i])
    ensures StringEnd(text, from) == StringEnd(text, from + n)
    decreases n
  {
    if n > 0 {
      HexIsPlain(text, from + 1, n - 1);
    }
  }

  lemma {:induction false} GapIsSkipped(text: Text, pos: nat, gap: Text)
    requires StandsAt(text, pos, gap) && IsGap(gap)
    ensures SkipSpace(text, pos) == SkipSpace(text, pos + |gap|)
    decreases |gap|
  {
    if gap != [] {
      assert gap == [gap[0]] + gap[1..];
      StandsSplit(text, pos, [gap[0]], gap[1..]);
      FirstUnit(text, pos, gap[0]);
      assert gap[0] in gap && StandsAt(text, pos + |[gap[0]]|, gap[1..]) && |[gap[0]]| == 1;
      GapIsSkipped(text, pos + 1, gap[1..]);
    }
  }

  /** Behind a complete value stands whitespace and then something other than a colon. */
  predicate Ended(text: Text, pos: nat) { pos <= |text| && !ColonFollows(text, pos) }

  lemma EndedBeforeGap(text: Text, pos: nat, gap: Text)
    requires StandsAt(text, pos, gap) && IsGap(gap) && Ended(text, pos + |gap|)
    ensures Ended(text, pos)
  {
    GapIsSkipped(text, pos, gap);
  }

  lemma EndedAtMark(text: Text, pos: nat)
    requires pos < |text| && (text[pos] == COMMA || IsBracket(text[pos]))
    ensures Ended(text, pos)
  {
  }

  lemma QuotedIsSkipped(text: Text, pos: nat, body: Text, stack: seq<Frame>)
    requires StandsAt(text, pos, Quote(body)) && IsStringBody(body) && Ended(text, pos + |Quote(body)|)
    ensures Scan(text, pos, stack) == Scan(text, pos + |Quote(body)|, stack)
  {
    assert Quote(body) == [QUOTE] + (body + [QUOTE]);
    StandsSplit(text, pos, [QUOTE], body + [QUOTE]);
    FirstUnit(text, pos, QUOTE);
    BodyIsOneToken(text, pos + 1, body);
    assert StringEnd(text, pos + 1) == Some(pos + |Quote(body)|);
  }

  lemma NameIsRecorded(text: Text, pos: nat, name: Text, gap: Text, stack: seq<Frame>, seen: set<Text>)
    requires StandsAt(text, pos, Head(name, gap)) && IsStringBody(name) && IsGap(gap)
    ensures var end := pos + |Head(name, gap)|;
            Scan(text, pos, stack + [Keys(seen)]) ==
              if Decode(name) in seen then Rejected(DuplicateKey)
              else Scan(text, end, stack + [Keys(seen + {Decode(name)})])
  {
    var token := Quote(name);
    var end := pos + |token|;
    assert token + gap + [COLON] == token + (gap + [COLON]);
    StandsSplit(text, pos, token, gap + [COLON]);
    StandsSplit(text, end, gap, [COLON]);
    TokenOfName(text, pos, name);
    ColonIsSeen(text, end, gap);
    ScanName(text, pos, end, name, stack, seen);
    if Decode(name) !in seen {
      PlainIsSkipped(text, end, gap + [COLON], stack + [Keys(seen + {Decode(name)})]);
    }
  }

  lemma TokenOfName(text: Text, pos: nat, name: Text)
    requires StandsAt(text, pos, Quote(name)) && IsStringBody(name)
    ensures text[pos] == QUOTE && StringEnd(text, pos + 1) == Some(pos + |Quote(name)|)
    ensures KeyOf(text[pos..pos + |Quote(name)|]) == Decode(name)
  {
    var token := Quote(name);
    assert token == [QUOTE] + (name + [QUOTE]);
    StandsSplit(text, pos, [QUOTE], name + [QUOTE]);
    FirstUnit(text, pos, QUOTE);
    BodyIsOneToken(text, pos + 1, name);
    assert token[1..|token| - 1] == name;
  }

  lemma ColonIsSeen(text: Text, end: nat, gap: Text)
    requires StandsAt(text, end, gap) && StandsAt(text, end + |gap|, [COLON]) && IsGap(gap)
    ensures ColonFollows(text, end)
  {
    GapIsSkipped(text, end, gap);
    FirstUnit(text, end + |gap|, COLON);
  }

  lemma ScanName(text: Text, pos: nat, end: nat, name: Text, stack: seq<Frame>, seen: set<Text>)
    requires pos < end <= |text| && text[pos] == QUOTE && StringEnd(text, pos + 1) == Some(end)
             && ColonFollows(text, end)
    requires IsStringBody(name) && KeyOf(text[pos..end]) == Decode(name)
    ensures Scan(text, pos, stack + [Keys(seen)]) ==
              if Decode(name) in seen then Rejected(DuplicateKey)
                else Scan(text, end, stack + [Keys(seen + {Decode(name)})])
  {
    var top := stack + [Keys(seen)];
    assert top[..|top| - 1] == stack && top[|top| - 1] == Keys(seen);
  }

  // ----- Scanning a complete value -----

  /** The verdict on what stands at `pos`: an error inside it, or else the verdict on the rest
      with the stack as it was. */
  function Continued(text: Text, end: nat, stack: seq<Frame>, error: Option<Error>): Verdict
    requires end <= |text|
  {
    match error case Some(e) => Rejected(e) case None => Scan(text, end, stack)
  }

  lemma {:induction false} TreeIsScanned(text: Text, pos: nat, t: Tree, stack: seq<Frame>)
    requires WellFormed(t) && StandsAt(text, pos, Unparse(t)) && Ended(text, pos + |Unparse(t)|)
    ensures Scan(text, pos, stack) == Continued(text, pos + |Unparse(t)|, stack, TreeError(t, |stack|))
    decreases t, 0
  {
    match t {
      case Scalar(raw) => PlainIsSkipped(text, pos, raw, stack);
      case Quoted(body) => QuotedIsSkipped(text, pos, body, stack);
      case Array(items) => ArrayIsScanned(text, pos, items, stack);
      case Object(members) => ObjectIsScanned(text, pos, members, stack);
    }
  }

  lemma {:induction false} ArrayIsScanned(text: Text, pos: nat, items: Items, stack: seq<Frame>)
    requires WellFormedItems(items) && StandsAt(text, pos, Unparse(Array(items)))
    ensures Scan(text, pos, stack) == Continued(text, pos + |Unparse(Array(items))|, stack,
            TreeError(Array(items), |stack|))
    decreases items, 2
  {
    hide UnparseItems, ColonFollows;
    var inside := UnparseItems(items, true);
    var pushed := stack + [InArray];
    assert Unparse(Array(items)) == [OPEN_BRACKET] + (inside + [CLOSE_BRACKET]);
    StandsSplit(text, pos, [OPEN_BRACKET], inside + [CLOSE_BRACKET]);
    assert text[pos] == text[pos..pos + 1][0];
    StandsSplit(text, pos + 1, inside, [CLOSE_BRACKET]);
    var close := pos + 1 + |inside|;
    assert text[close] == text[close..close + 1][0];
    if |stack| <= MAX_DEPTH {
      EndedAtMark(text, close);
      ItemsAreScanned(text, pos + 1, items, true, pushed);
      assert pushed[..|pushed| - 1] == stack;
    }
  }

  lemma {:induction false} ObjectIsScanned(text: Text, pos: nat, members: Members, stack: seq<Frame>)
    requires WellFormedMembers(members) && StandsAt(text, pos, Unparse(Object(members)))
    ensures Scan(text, pos, stack) == Continued(text, pos + |Unparse(Object(members))|, stack,
            TreeError(Object(members), |stack|))
    decreases members, 3
  {
    hide AllNames, UnparseMembers, ColonFollows;
    var inside := UnparseMembers(members, true);
    assert Unparse(Object(members)) == [OPEN_BRACE] + (inside + [CLOSE_BRACE]);
    StandsSplit(text, pos, [OPEN_BRACE], inside + [CLOSE_BRACE]);
    assert text[pos] == text[pos..pos + 1][0];
    StandsSplit(text, pos + 1, inside, [CLOSE_BRACE]);
    var close := pos + 1 + |inside|;
    assert text[close] == text[close..close + 1][0];
    if |stack| <= MAX_DEPTH {
      EndedAtMark(text, close);
      MembersAreScanned(text, pos + 1, members, true, stack, {});
      var pushed := stack + [Keys(AllNames(members, {}))];
      assert pushed[..|pushed| - 1] == stack;
    }
  }

  /** The text of a non-empty list's remainder starts with its comma; an empty one is followed
      by its bracket. Either way the element before it has ended. */
  lemma RestEndsElement(text: Text, pos: nat, rest: Text)
    requires StandsAt(text, pos, rest) && Ended(text, pos + |rest|)
    requires rest == [] || rest[0] == COMMA
    ensures Ended(text, pos)
  {
    if rest != [] {
      assert text[pos] == text[pos..pos + |rest|][0];
      EndedAtMark(text, pos);
    }
  }

  lemma {:induction false} ItemsAreScanned(text: Text, pos: nat, items: Items, first: bool, stack: seq<Frame>)
    requires WellFormedItems(items) && StandsAt(text, pos, UnparseItems(items, first))
    requires Ended(text, pos + |UnparseItems(items, first)|)
    ensures Scan(text, pos, stack) == Continued(text, pos + |UnparseItems(items, first)|, stack,
            ItemsError(items, |stack|))
    decreases items, 1
  {
    match items {
      case NoItems(gap) => PlainIsSkipped(text, pos, if first then gap else [], stack);
      case Item(before, value, after, rest) =>
        var lead := Lead(first, before);
        var item := ItemTail(value, after, rest);
        assert UnparseItems(items, first) == lead + item;
        StandsSplit(text, pos, lead, item);
        PlainIsSkipped(text, pos, lead, stack);
        ItemIsScanned(text, pos + |lead|, items, stack);
    }
  }

  /** An item from its value on, with the items that follow it. */
  function ItemTail(value: Tree, after: Text, rest: Items): Text {
    Unparse(value) + (after + UnparseItems(rest, false))
  }

  lemma {:induction false} ItemIsScanned(text: Text, pos: nat, items: Items, stack: seq<Frame>)
    requires WellFormedItems(items) && items.Item?
    requires StandsAt(text, pos, ItemTail(items.value, items.after, items.rest))
    requires Ended(text, pos + |ItemTail(items.value, items.after, items.rest)|)
    ensures Scan(text, pos, stack) ==
            Continued(text, pos + |ItemTail(items.value, items.after, items.rest)|, stack, ItemsError(items, |stack|))
    decreases items, 0
  {
    var Item(_, value, after, rest) := items;
    var tail := UnparseItems(rest, false);
    assert [] + ItemTail(value, after, rest) == ItemTail(value, after, rest);
    var next := ValueIsScanned(text, pos, [], value, after, tail, stack);
    ItemsAreScanned(text, next, rest, false, stack);
    ContinuedTwice(text, next, next + |tail|, stack, stack, TreeError(value, |stack|), ItemsError(rest, |stack|));
  }

  /** A value between what stands before it and the rest of its list. */
  lemma {:induction false} ValueIsScanned(text: Text, pos: nat, before: Text, value: Tree, after: Text, tail: Text,
      stack: seq<Frame>)
    returns (next: nat)
    requires IsGap(before) && WellFormed(value) && IsGap(after) && (tail == [] || tail[0] == COMMA)
    requires StandsAt(text, pos, before + (Unparse(value) + (after + tail)))
    requires Ended(text, pos + |before + (Unparse(value) + (after + tail))|)
    ensures next + |tail| == pos + |before + (Unparse(value) + (after + tail))| && StandsAt(text, next, tail)
    ensures Scan(text, pos, stack) == Continued(text, next, stack, TreeError(value, |stack|))
    decreases value, 1
  {
    ElementStands(text, pos, before, Unparse(value), after, tail);
    var at := pos + |before|;
    var behind := at + |Unparse(value)|;
    next := behind + |after|;
    PlainIsSkipped(text, pos, before, stack);
    TreeIsScanned(text, at, value, stack);
    PlainIsSkipped(text, behind, after, stack);
  }

  /** An element's verdict, then the verdict on the elements behind it. */
  lemma ContinuedTwice(text: Text, next: nat, end: nat, stack: seq<Frame>, last: seq<Frame>, error: Option<Error>,
      later: Option<Error>)
    requires next <= |text| && end <= |text|
    requires Scan(text, next, stack) == Continued(text, end, last, later)
    ensures Continued(text, next, stack, error) ==
            Continued(text, end, last, match error case Some(e) => Some(e) case None => later)
  {
  }

  /** An element of a list, between what leads to it and what follows it. */
  lemma ElementStands(text: Text, pos: nat, lead: Text, body: Text, after: Text, tail: Text)
    requires StandsAt(text, pos, lead + (body + (after + tail)))
    requires Ended(text, pos + |lead + (body + (after + tail))|) && IsGap(after)
    requires tail == [] || tail[0] == COMMA
    ensures var at := pos + |lead|;
            && StandsAt(text, pos, lead) && StandsAt(text, at, body) && Ended(text, at + |body|)
            && StandsAt(text, at + |body|, after) && StandsAt(text, at + |body| + |after|, tail)
  {
    hide Ended, StandsAt, IsGap;
    StandsSplit(text, pos, lead, body + (after + tail));
    var at := pos + |lead|;
    StandsSplit(text, at, body, after + tail);
    StandsSplit(text, at + |body|, after, tail);
    RestEndsElement(text, at + |body| + |after|, tail);
    EndedBeforeGap(text, at + |body|, after);
  }

  function AllNames(members: Members, seen: set<Text>): set<Text>
    requires WellFormedMembers(members)
  {
    match members case NoMembers(_) => seen
      case Entry(_, name, _, _, _, _, rest) => AllNames(rest, seen + {Decode(name)})
  }

  lemma {:induction false} MembersAreScanned(text: Text, pos: nat, members: Members, first: bool, stack: seq<Frame>,
      seen: set<Text>)
    requires WellFormedMembers(members) && StandsAt(text, pos, UnparseMembers(members, first))
    requires Ended(text, pos + |UnparseMembers(members, first)|)
    ensures Scan(text, pos, stack + [Keys(seen)]) ==
            Continued(text, pos + |UnparseMembers(members, first)|, stack + [Keys(AllNames(members, seen))],
                      MembersError(members, seen, |stack| + 1))
    decreases members, 2
  {
    match members {
      case NoMembers(gap) => PlainIsSkipped(text, pos, if first then gap else [], stack + [Keys(seen)]);
      case Entry(before, name, beforeColon, afterColon, value, after, rest) =>
        var lead := Lead(first, before);
        var entry := Head(name, beforeColon) + MemberTail(afterColon, value, after, rest);
        assert UnparseMembers(members, first) == lead + entry;
        StandsSplit(text, pos, lead, entry);
        PlainIsSkipped(text, pos, lead, stack + [Keys(seen)]);
        EntryIsScanned(text, pos + |lead|, members, stack, seen);
    }
  }

  /** A member from its name on, with the members that follow it. */
  lemma {:induction false} EntryIsScanned(text: Text, pos: nat, members: Members, stack: seq<Frame>, seen: set<Text>)
    requires WellFormedMembers(members) && members.Entry?
    requires var entry := Head(members.name, members.beforeColon)
             + MemberTail(members.afterColon, members.value, members.after, members.rest);
             StandsAt(text, pos, entry) && Ended(text, pos + |entry|)
    ensures var entry := Head(members.name, members.beforeColon)
            + MemberTail(members.afterColon, members.value, members.after, members.rest);
            Scan(text, pos, stack + [Keys(seen)]) ==
            Continued(text, pos + |entry|, stack + [Keys(AllNames(members, seen))],
              MembersError(members, seen, |stack| + 1))
    decreases members, 1
  {
    var name := Decode(members.name);
    var head := Head(members.name, members.beforeColon);
    StandsSplit(text, pos, head, MemberTail(members.afterColon, members.value, members.after, members.rest));
    NameIsRecorded(text, pos, members.name, members.beforeColon, stack, seen);
    if name !in seen {
      MemberValueIsScanned(text, pos + |head|, members, stack, seen + {name});
    }
  }

  /** A member from behind its colon, with the members that follow it. */
  function MemberTail(before: Text, value: Tree, after: Text, rest: Members): Text {
    before + (Unparse(value) + (after + UnparseMembers(rest, false)))
  }

  lemma {:induction false} MemberValueIsScanned(text: Text, pos: nat, members: Members, stack: seq<Frame>,
      seen: set<Text>)
    requires WellFormedMembers(members) && members.Entry?
    requires StandsAt(text, pos, MemberTail(members.afterColon, members.value, members.after, members.rest))
    requires Ended(text, pos + |MemberTail(members.afterColon, members.value, members.after, members.rest)|)
    ensures var end := pos + |MemberTail(members.afterColon, members.value, members.after, members.rest)|;
            Scan(text, pos, stack + [Keys(seen)]) ==
            Continued(text, end, stack + [Keys(AllNames(members.rest, seen))],
              match TreeError(members.value, |stack| + 1)
              case Some(e) => Some(e)
              case None => MembersError(members.rest, seen, |stack| + 1))
    decreases members, 0
  {
    var Entry(_, _, _, before, value, after, rest) := members;
    var tail := UnparseMembers(rest, false);
    var top := stack + [Keys(seen)];
    var next := ValueIsScanned(text, pos, before, value, after, tail, top);
    MembersAreScanned(text, next, rest, false, stack, seen);
    ContinuedTwice(text, next, next + |tail|, top, stack + [Keys(AllNames(rest, seen))],
      TreeError(value, |stack| + 1), MembersError(rest, seen, |stack| + 1));
  }

  // ----- What the errors mean -----

  predicate Taken(members: seq<Member<Text, Numeral>>, seen: set<Text>) {
    exists i :: 0 <= i < |members| && members[i].name in seen
  }

  predicate Repeats(members: seq<Member<Text, Numeral>>) {
    exists i, k :: 0 <= i < k < |members| && members[i].name == members[k].name
  }

  predicate NamesClash(members: seq<Member<Text, Numeral>>, seen: set<Text>) {
    Taken(members, seen) || Repeats(members)
  }

  lemma TakenByFirst(m: Member<Text, Numeral>, rest: seq<Member<Text, Numeral>>, seen: set<Text>)
    ensures Taken([m] + rest, seen) <==> m.name in seen || Taken(rest, seen)
    ensures Taken(rest, seen + {m.name}) <==> Taken(rest, seen) || Taken(rest, {m.name})
  {
    var all := [m] + rest;
    assert all[0] == m && forall i :: 0 <= i < |rest| ==> all[i + 1] == rest[i];
    if Taken(rest, seen) {
      var i :| 0 <= i < |rest| && rest[i].name in seen;
      assert all[i + 1].name in seen && rest[i].name in seen + {m.name};
    }
    if Taken(rest, {m.name}) {
      var i :| 0 <= i < |rest| && rest[i].name in {m.name};
      assert rest[i].name in seen + {m.name};
    }
    if Taken(rest, seen + {m.name}) {
      var i :| 0 <= i < |rest| && rest[i].name in seen + {m.name};
      assert rest[i].name in seen || rest[i].name in {m.name};
    }
  }

  lemma FirstRepeats(m: Member<Text, Numeral>, rest: seq<Member<Text, Numeral>>)
    ensures Repeats([m] + rest) <==> Taken(rest, {m.name}) || Repeats(rest)
  {
    var all := [m] + rest;
    assert all[0] == m && forall i :: 0 <= i < |rest| ==> all[i + 1] == rest[i];
    if Taken(rest, {m.name}) {
      var i :| 0 <= i < |rest| && rest[i].name in {m.name};
      assert all[0].name == all[i + 1].name;
    }
    if Repeats(rest) {
      var i, k :| 0 <= i < k < |rest| && rest[i].name == rest[k].name;
      assert all[i + 1].name == all[k + 1].name;
    }
    if Repeats(all) {
      RepeatInAll(m, rest);
    }
  }

  lemma RepeatInAll(m: Member<Text, Numeral>, rest: seq<Member<Text, Numeral>>)
    requires Repeats([m] + rest)
    ensures Taken(rest, {m.name}) || Repeats(rest)
  {
    var all := [m] + rest;
    assert all[0] == m && forall i :: 0 < i < |all| ==> all[i] == rest[i - 1];
    var i, k :| 0 <= i < k < |all| && all[i].name == all[k].name;
    if i == 0 {
      assert rest[k - 1].name in {m.name};
    } else {
      assert rest[i - 1].name == rest[k - 1].name;
    }
  }

  lemma ClashOfFirst(m: Member<Text, Numeral>, rest: seq<Member<Text, Numeral>>, seen: set<Text>)
    ensures NamesClash([m] + rest, seen) <==> m.name in seen || NamesClash(rest, seen + {m.name})
  {
    hide Taken, Repeats;
    TakenByFirst(m, rest, seen);
    FirstRepeats(m, rest);
  }

  ghost predicate SomeItemHas(items: seq<Json<Text, Numeral>>) { exists item <- items :: HasDuplicate(item) }
  ghost predicate SomeMemberHas(members: seq<Member<Text, Numeral>>) { exists m <- members :: HasDuplicate(m.value) }

  lemma SomeItemFirst(v: Json<Text, Numeral>, rest: seq<Json<Text, Numeral>>)
    ensures SomeItemHas([v] + rest) <==> HasDuplicate(v) || SomeItemHas(rest)
  {
    assert v in [v] + rest && forall item <- rest :: item in [v] + rest;
    assert forall item <- [v] + rest :: item == v || item in rest;
  }

  lemma SomeMemberFirst(m: Member<Text, Numeral>, rest: seq<Member<Text, Numeral>>)
    ensures SomeMemberHas([m] + rest) <==> HasDuplicate(m.value) || SomeMemberHas(rest)
  {
    assert m in [m] + rest && forall x <- rest :: x in [m] + rest;
    assert forall x <- [m] + rest :: x == m || x in rest;
  }

  /** An error says what it says: none without duplicates within the limit, a duplicate where
      there is one, an excess of depth where there is one. */
  predicate Means(error: Option<Error>, duplicate: bool, tooDeep: bool) {
    match error
    case None => !duplicate && !tooDeep
    case Some(DuplicateKey) => duplicate
    case Some(DepthExceeded) => tooDeep
    case Some(NoKeySet) => false
  }

  lemma {:induction false} TreeErrorMeans(t: Tree, depth: nat)
    requires WellFormed(t) && depth <= MAX_DEPTH + 1
    ensures Means(TreeError(t, depth), HasDuplicate(ValueOf(t)), depth + Height(t) > MAX_DEPTH + 1)
    decreases t, 0
  {
    match t {
      case Scalar(_) =>
      case Quoted(_) =>
      case Array(items) =>
        if depth <= MAX_DEPTH {
          ItemsErrorMeans(items, depth + 1);
        }
      case Object(members) =>
        if depth <= MAX_DEPTH {
          MembersErrorMeans(members, {}, depth + 1);
          assert HasDuplicate(ValueOf(t)) <==>
            NamesClash(MemberValues(members), {}) || SomeMemberHas(MemberValues(members));
        }
    }
  }

  lemma {:induction false} ItemsErrorMeans(items: Items, depth: nat)
    requires WellFormedItems(items) && depth <= MAX_DEPTH + 1
    ensures Means(ItemsError(items, depth), SomeItemHas(ItemValues(items)), depth + ItemsHeight(items) > MAX_DEPTH + 1)
    decreases items, 0
  {
    match items {
      case NoItems(_) =>
      case Item(_, value, _, rest) =>
        TreeErrorMeans(value, depth);
        ItemsErrorMeans(rest, depth);
        SomeItemFirst(ValueOf(value), ItemValues(rest));
    }
  }

  lemma {:induction false} MembersErrorMeans(members: Members, seen: set<Text>, depth: nat)
    requires WellFormedMembers(members) && depth <= MAX_DEPTH + 1
    ensures Means(MembersError(members, seen, depth),
                  NamesClash(MemberValues(members), seen) || SomeMemberHas(MemberValues(members)),
                  depth + MembersHeight(members) > MAX_DEPTH + 1)
    decreases members, 0
  {
    match members {
      case NoMembers(_) =>
      case Entry(_, name, _, _, value, _, rest) =>
        var m := Member(Decode(name), ValueOf(value));
        TreeErrorMeans(value, depth);
        MembersErrorMeans(rest, seen + {Decode(name)}, depth);
        ClashOfFirst(m, MemberValues(rest), seen);
        SomeMemberFirst(m, MemberValues(rest));
    }
  }

  // ----- Whole texts -----

  function Document(before: Text, t: Tree, after: Text): Text { before + (Unparse(t) + after) }

  /** The stack is as it was found behind every complete value, whatever its strings contain. */
  lemma ValueLeavesStackAlone(text: Text, pos: nat, t: Tree, stack: seq<Frame>)
    requires WellFormed(t) && StandsAt(text, pos, Unparse(t)) && Ended(text, pos + |Unparse(t)|)
    requires |stack| + Height(t) <= MAX_DEPTH + 1 && !HasDuplicate(ValueOf(t))
    ensures Scan(text, pos, stack) == Scan(text, pos + |Unparse(t)|, stack)
  {
    TreeIsScanned(text, pos, t, stack);
    TreeErrorMeans(t, |stack|);
  }

  lemma GapIsPlain(gap: Text)
    requires IsGap(gap)
    ensures forall u <- gap :: u != QUOTE && !IsBracket(u)
  {
  }

  lemma ScanEnds(text: Text)
    ensures Scan(text, |text|, []) == Accepted
  {
  }

  lemma NothingFollows(text: Text)
    ensures Ended(text, |text|)
  {
  }

  /** The scanner refines the parser: a valid text is accepted exactly when no object in its
      value has two members of one name and nesting is within the limit, and within the limit
      it is rejected, for a duplicate, exactly when there is one. */
  lemma ScanFindsDuplicates(before: Text, t: Tree, after: Text)
    requires IsGap(before) && WellFormed(t) && IsGap(after)
    ensures var verdict := Scan(Document(before, t, after), 0, []);
            && (verdict == Accepted <==> !HasDuplicate(ValueOf(t)) && Height(t) <= MAX_DEPTH + 1)
            && (Height(t) <= MAX_DEPTH + 1 ==> (verdict == Rejected(DuplicateKey) <==> HasDuplicate(ValueOf(t))))
            && verdict != Rejected(NoKeySet)
  {
    hide HasDuplicate, Height, Unparse, IsGap, Scan, ColonFollows;
    GapIsPlain(before);
    GapIsPlain(after);
    var text, body := Document(before, t, after), Unparse(t);
    assert text[0..|text|] == text;
    StandsSplit(text, 0, before, body + after);
    StandsSplit(text, |before|, body, after);
    var end := |before| + |body|;
    PlainIsSkipped(text, 0, before, []);
    NothingFollows(text);
    EndedBeforeGap(text, end, after);
    TreeIsScanned(text, |before|, t, []);
    PlainIsSkipped(text, end, after, []);
    ScanEnds(text);
    TreeErrorMeans(t, 0);
  }
}
