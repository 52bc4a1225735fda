/** copyJson (src/canonical.js): a deep copy under budgets for depth, nodes and string units that
    the whole copy draws on together. */
module CanonicalCopy {
  import opened RailStates
  import opened JsonValues
  import opened JsonText
  import opened CanonicalText
  import opened Canonical

  const MAX_DEPTH := 64
  const MAX_NODES := 100000
  const MAX_STRING_UNITS := 4194304

  const PROTO: Text := [0x5F, 0x5F, 0x70, 0x72, 0x6F, 0x74, 0x6F, 0x5F, 0x5F]
  const CONSTRUCTOR: Text := [0x63, 0x6F, 0x6E, 0x73, 0x74, 0x72, 0x75, 0x63, 0x74, 0x6F, 0x72]
  const PROTOTYPE: Text := [0x70, 0x72, 0x6F, 0x74, 0x6F, 0x74, 0x79, 0x70, 0x65]

  predicate IsReserved(name: Text) { name == PROTO || name == CONSTRUCTOR || name == PROTOTYPE }

  /** What the copy has drawn so far. */
  datatype Spent = Spent(nodes: nat, units: nat)

  // ----- The copy, with its budgets threaded through -----

  function ByName(v: Value): (members: seq<Member<Text, Numeral>>)
    requires Plain(v) && v.Obj?
    ensures |members| == |v.members| && forall m <- members :: m in v.members
  {
    var order := Order(Names(v.members), |v.members|);
    assert forall j :: 0 <= j < |order| ==> order[j] in order && order[j] < |v.members|;
    var members := seq(|v.members|, j requires 0 <= j < |v.members| => v.members[order[j]]);
    assert forall m <- members :: m in v.members by {
      forall m | m in members
        ensures m in v.members
      {
        var j :| 0 <= j < |members| && members[j] == m;
        assert m == v.members[order[j]];
      }
    }
    members
  }

  function Entries(v: Value, sorted: bool): (members: seq<Member<Text, Numeral>>)
    requires Plain(v) && v.Obj?
    ensures |members| == |v.members| && forall m <- members :: m in v.members
  {
    if sorted then ByName(v) else v.members
  }

  function Copy(v: Value, sorted: bool, s: Spent, depth: nat): Option<(Value, Spent)>
    requires Plain(v)
    decreases v, 1, 0
  {
    if depth > MAX_DEPTH || s.nodes + 1 > MAX_NODES then None
    else
      var t := s.(nodes := s.nodes + 1);
      match v
      case Str(text) => if t.units + |text| > MAX_STRING_UNITS then None else Some((v, t.(units := t.units + |text|)))
      case Arr(items) =>
        if |items| > MAX_NODES then None
        else (match CopyItems(v, |items|, sorted, t, depth + 1) case Some((copies, u)) => Some((Arr(copies), u))
          case None => None)
      case Obj(members) =>
        if |members| > MAX_NODES || (exists m <- members :: IsReserved(m.name)) then None
        else (match CopyEntries(v, Entries(v, sorted), |members|, sorted, t, depth + 1)
              case Some((copies, u)) => Some((Obj(copies), u)) case None => None)
      case _ => Some((v, t))
  }

  /** The first `n` items, copied in turn. */
  function CopyItems(v: Value, n: nat, sorted: bool, s: Spent, depth: nat): Option<(seq<Value>, Spent)>
    requires Plain(v) && v.Arr? && n <= |v.items|
    decreases v, 0, n
  {
    if n == 0 then Some(([], s))
    else match CopyItems(v, n - 1, sorted, s, depth)
      case None => None
      case Some((copies, t)) =>
        match Copy(v.items[n - 1], sorted, t, depth)
        case None => None
        case Some((copy, u)) => Some((copies + [copy], u))
  }

  /** The first `n` of an object's entries: the name is paid for before its value is copied. */
  function CopyEntries(v: Value, entries: seq<Member<Text, Numeral>>, n: nat, sorted: bool, s: Spent, depth: nat):
      Option<(seq<Member<Text, Numeral>>, Spent)>
    requires Plain(v) && v.Obj? && n <= |entries| && forall m <- entries :: m in v.members
    decreases v, 0, n
  {
    if n == 0 then Some(([], s))
    else match CopyEntries(v, entries, n - 1, sorted, s, depth)
      case None => None
      case Some((copies, t)) =>
        var m := entries[n - 1];
        assert m in entries && m in v.members;
        if t.units + |m.name| > MAX_STRING_UNITS then None
        else match Copy(m.value, sorted, t.(units := t.units + |m.name|), depth)
          case None => None
          case Some((copy, u)) => Some((copies + [Member(m.name, copy)], u))
  }

  // ----- The copy as the program makes it -----

  class CopyState {
    var nodes: nat
    var stringUnits: nat

    constructor ()
      ensures nodes == 0 && stringUnits == 0
    {
      nodes, stringUnits := 0, 0;
    }

    function Drawn(): Spent
      reads this
    {
      Spent(nodes, stringUnits)
    }
  }

  method CopyJson(v: Value, sorted: bool, state: CopyState, depth: nat) returns (r: Option<Value>)
    requires Plain(v)
    modifies state
    ensures match Copy(v, sorted, old(state.Drawn()), depth)
            case Some((copy, spent)) => r == Some(copy) && state.Drawn() == spent
            case None => r == None
    decreases v, 1, 0
  {
    if depth > MAX_DEPTH {
      return None;
    }
    state.nodes := state.nodes + 1;
    if state.nodes > MAX_NODES {
      return None;
    }
    match v {
      case Str(text) =>
        state.stringUnits := state.stringUnits + |text|;
        if state.stringUnits > MAX_STRING_UNITS {
          return None;
        }
        return Some(v);
      case Arr(items) =>
        r := CopyArray(v, sorted, state, depth);
      case Obj(members) =>
        r := CopyObject(v, sorted, state, depth);
      case _ => return Some(v);
    }
  }

  method CopyArray(v: Value, sorted: bool, state: CopyState, depth: nat) returns (r: Option<Value>)
    requires Plain(v) && v.Arr?
    modifies state
    ensures if |v.items| > MAX_NODES then r == None
            else match CopyItems(v, |v.items|, sorted, old(state.Drawn()), depth + 1)
                 case Some((copies, spent)) => r == Some(Arr(copies)) && state.Drawn() == spent
                 case None => r == None
    decreases v, 0, 0
  {
    if |v.items| > MAX_NODES {
      return None;
    }
    ghost var start := state.Drawn();
    var copies: seq<Value> := [];
    for n := 0 to |v.items|
      invariant CopyItems(v, n, sorted, start, depth + 1) == Some((copies, state.Drawn()))
    {
      var copy := CopyJson(v.items[n], sorted, state, depth + 1);
      if copy.None? {
        RefusedItemIsFinal(v, n + 1, |v.items|, sorted, start, depth + 1);
        return None;
      }
      copies := copies + [copy.value];
    }
    return Some(Arr(copies));
  }

  method CopyObject(v: Value, sorted: bool, state: CopyState, depth: nat) returns (r: Option<Value>)
    requires Plain(v) && v.Obj?
    modifies state
    ensures if |v.members| > MAX_NODES || (exists m <- v.members :: IsReserved(m.name)) then r == None
            else match CopyEntries(v, Entries(v, sorted), |v.members|, sorted, old(state.Drawn()), depth + 1)
                 case Some((copies, spent)) => r == Some(Obj(copies)) && state.Drawn() == spent
                 case None => r == None
    decreases v, 0, 1
  {
    if |v.members| > MAX_NODES {
      return None;
    }
    for i := 0 to |v.members|
      invariant forall k :: 0 <= k < i ==> !IsReserved(v.members[k].name)
    {
      if IsReserved(v.members[i].name) {
        assert v.members[i] in v.members;
        return None;
      }
    }
    r := CopyMembers(v, Entries(v, sorted), sorted, state, depth);
  }

  lemma MembersArePlain(v: Value)
    requires Plain(v) && v.Obj?
    ensures forall m <- v.members :: Plain(m.value)
  {
  }

  method CopyMembers(v: Value, entries: seq<Member<Text, Numeral>>, sorted: bool, state: CopyState, depth: nat)
    returns (r: Option<Value>)
    requires Plain(v) && v.Obj? && forall m <- entries :: m in v.members
    modifies state
    ensures match CopyEntries(v, entries, |entries|, sorted, old(state.Drawn()), depth + 1)
            case Some((copies, spent)) => r == Some(Obj(copies)) && state.Drawn() == spent
            case None => r == None
    decreases v, 0, 0
  {
    hide Copy, Canon, Entries, Nodes, Units, Plain;
    MembersArePlain(v);
    ghost var start := state.Drawn();
    var output: seq<Member<Text, Numeral>> := [];
    for n := 0 to |entries|
      invariant CopyEntries(v, entries, n, sorted, start, depth + 1) == Some((output, state.Drawn()))
    {
      var m := entries[n];
      assert m in entries && m in v.members;
      state.stringUnits := state.stringUnits + |m.name|;
      if state.stringUnits > MAX_STRING_UNITS {
        RefusedEntryIsFinal(v, entries, n + 1, |entries|, sorted, start, depth + 1);
        return None;
      }
      var copy := CopyJson(m.value, sorted, state, depth + 1);
      if copy.None? {
        RefusedEntryIsFinal(v, entries, n + 1, |entries|, sorted, start, depth + 1);
        return None;
      }
      output := output + [Member(m.name, copy.value)];
    }
    return Some(Obj(output));
  }

  lemma {:induction false} RefusedItemIsFinal(v: Value, n: nat, end: nat, sorted: bool, s: Spent, depth: nat)
    requires Plain(v) && v.Arr? && n <= end <= |v.items| && CopyItems(v, n, sorted, s, depth) == None
    ensures CopyItems(v, end, sorted, s, depth) == None
    decreases end
  {
    if n < end {
      RefusedItemIsFinal(v, n, end - 1, sorted, s, depth);
    }
  }

  lemma {:induction false} RefusedEntryIsFinal(v: Value, entries: seq<Member<Text, Numeral>>, n: nat, end: nat,
      sorted: bool, s: Spent, depth: nat)
    requires Plain(v) && v.Obj? && n <= end <= |entries| && forall m <- entries :: m in v.members
    requires CopyEntries(v, entries, n, sorted, s, depth) == None
    ensures CopyEntries(v, entries, end, sorted, s, depth) == None
    decreases end
  {
    if n < end {
      RefusedEntryIsFinal(v, entries, n, end - 1, sorted, s, depth);
    }
  }

  // ----- Totals -----

  /** How many values there are, the value itself included. */
  function Nodes(v: Value): (n: nat)
    ensures n >= 1
    decreases v, 1, 0
  {
    match v
    case Arr(items) => 1 + ItemNodes(v, |items|)
    case Obj(members) => 1 + MemberNodes(v, members, |members|)
    case _ => 1
  }

  function ItemNodes(v: Value, n: nat): (total: nat)
    requires v.Arr? && n <= |v.items|
    ensures total >= n
    decreases v, 0, n
  {
    if n == 0 then 0 else ItemNodes(v, n - 1) + Nodes(v.items[n - 1])
  }

  function MemberNodes(v: Value, entries: seq<Member<Text, Numeral>>, n: nat): (total: nat)
    requires v.Obj? && n <= |entries| && forall m <- entries :: m in v.members
    ensures total >= n
    decreases v, 0, n
  {
    if n == 0 then 0
    else
      assert entries[n - 1] in entries && entries[n - 1] in v.members;
      MemberNodes(v, entries, n - 1) + Nodes(entries[n - 1].value)
  }

  /** The units of all strings and all member names. */
  function Units(v: Value): nat
    decreases v, 1, 0
  {
    match v
    case Str(text) => |text|
    case Arr(items) => ItemUnits(v, |items|)
    case Obj(members) => MemberUnits(v, members, |members|)
    case _ => 0
  }

  function ItemUnits(v: Value, n: nat): nat
    requires v.Arr? && n <= |v.items|
    decreases v, 0, n
  {
    if n == 0 then 0 else ItemUnits(v, n - 1) + Units(v.items[n - 1])
  }

  function MemberUnits(v: Value, entries: seq<Member<Text, Numeral>>, n: nat): nat
    requires v.Obj? && n <= |entries| && forall m <- entries :: m in v.members
    decreases v, 0, n
  {
    if n == 0 then 0
    else
      assert entries[n - 1] in entries && entries[n - 1] in v.members;
      MemberUnits(v, entries, n - 1) + |entries[n - 1].name| + Units(entries[n - 1].value)
  }

  /** Every value nested in `v`, itself included, is at most `levels` deep in it, and no member
      has a reserved name. */
  ghost predicate Fits(v: Value, levels: int)
    decreases v
  {
    && levels >= 0
    && match v
       case Arr(items) => forall item <- items :: Fits(item, levels - 1)
       case Obj(members) => forall m <- members :: !IsReserved(m.name) && Fits(m.value, levels - 1)
       case _ => true
  }

  // ----- Within the budgets, and only then -----

  ghost predicate Affordable(v: Value, s: Spent, depth: nat) {
    Fits(v, MAX_DEPTH - depth) && s.nodes + Nodes(v) <= MAX_NODES && s.units + Units(v) <= MAX_STRING_UNITS
  }

  /** copyJson accepts a value if and only if its depth, its node total and its string total are
      within the limits and no name is reserved, whatever the order its members are copied in;
      it draws exactly the totals. */
  lemma {:induction false} CopyAcceptsExactly(v: Value, sorted: bool, s: Spent, depth: nat)
    requires Plain(v) && s.nodes <= MAX_NODES && s.units <= MAX_STRING_UNITS
    ensures Copy(v, sorted, s, depth).Some? <==> Affordable(v, s, depth)
    ensures Copy(v, sorted, s, depth).Some? ==>
              Copy(v, sorted, s, depth).value == (if sorted then Canon(v) else v,
                Spent(s.nodes + Nodes(v), s.units + Units(v)))
    decreases v, 1, 0
  {
    if depth <= MAX_DEPTH && s.nodes + 1 <= MAX_NODES {
      var t := s.(nodes := s.nodes + 1);
      match v {
        case Arr(items) =>
          if |items| <= MAX_NODES {
            ArrayAcceptsExactly(v, sorted, t, depth);
          }
        case Obj(members) =>
          if |members| <= MAX_NODES && !(exists m <- members :: IsReserved(m.name)) {
            ObjectAcceptsExactly(v, sorted, t, depth);
          }
        case _ =>
      }
    }
  }

  ghost predicate ItemsFit(v: Value, n: nat, levels: int)
    requires v.Arr? && n <= |v.items|
  {
    forall i :: 0 <= i < n ==> Fits(v.items[i], levels)
  }

  ghost predicate EntriesFit(entries: seq<Member<Text, Numeral>>, n: nat, levels: int)
    requires n <= |entries|
  {
    forall i :: 0 <= i < n ==> Fits(entries[i].value, levels)
  }

  lemma ItemsFitTogether(v: Value, levels: int)
    requires v.Arr? && levels >= -1
    ensures Fits(v, levels + 1) <==> ItemsFit(v, |v.items|, levels)
  {
    assert forall i :: 0 <= i < |v.items| ==> v.items[i] in v.items;
    if ItemsFit(v, |v.items|, levels) {
      forall item <- v.items
        ensures Fits(item, levels)
      {
        var i :| 0 <= i < |v.items| && v.items[i] == item;
      }
    }
  }

  function CopiedItems(v: Value, n: nat, sorted: bool): seq<Value>
    requires Plain(v) && v.Arr? && n <= |v.items|
  {
    seq(n, i requires 0 <= i < n => if sorted then Canon(v.items[i]) else v.items[i])
  }

  function CopiedEntries(v: Value, entries: seq<Member<Text, Numeral>>, n: nat,
      sorted: bool): seq<Member<Text, Numeral>>
    requires Plain(v) && v.Obj? && n <= |entries| && forall m <- entries :: m in v.members
  {
    seq(n, i requires 0 <= i < n =>
      (assert entries[i] in entries;
        Member(entries[i].name, if sorted then Canon(entries[i].value) else entries[i].value)))
  }

  lemma ArrayCopy(v: Value, sorted: bool)
    requires Plain(v) && v.Arr?
    ensures Arr(CopiedItems(v, |v.items|, sorted)) == if sorted then Canon(v) else v
  {
    assert !sorted ==> CopiedItems(v, |v.items|, sorted) == v.items;
    assert sorted ==> CopiedItems(v, |v.items|, sorted) == Canon(v).items;
  }

  lemma {:induction false} ArrayAcceptsExactly(v: Value, sorted: bool, t: Spent, depth: nat)
    requires Plain(v) && v.Arr? && depth <= MAX_DEPTH && t.nodes <= MAX_NODES && t.units <= MAX_STRING_UNITS
    ensures var r := CopyItems(v, |v.items|, sorted, t, depth + 1);
            && (r.Some? <==> Fits(v, MAX_DEPTH - depth) && t.nodes + Nodes(v) - 1 <= MAX_NODES
                             && t.units + Units(v) <= MAX_STRING_UNITS)
            && (r.Some? ==> Arr(r.value.0) == (if sorted then Canon(v) else v) &&
                            r.value.1 == Spent(t.nodes + Nodes(v) - 1, t.units + Units(v)))
    decreases v, 0, |v.items| + 1
  {
    ItemsAcceptExactly(v, |v.items|, sorted, t, depth + 1);
    ArrayCopy(v, sorted);
    ItemsFitTogether(v, MAX_DEPTH - (depth + 1));
  }

  lemma {:induction false} ItemsAcceptExactly(v: Value, n: nat, sorted: bool, s: Spent, depth: nat)
    requires Plain(v) && v.Arr? && n <= |v.items| && s.nodes <= MAX_NODES && s.units <= MAX_STRING_UNITS
    ensures CopyItems(v, n, sorted, s, depth).Some? <==>
              ItemsFit(v, n, MAX_DEPTH - depth) && s.nodes + ItemNodes(v, n) <= MAX_NODES
                && s.units + ItemUnits(v, n) <= MAX_STRING_UNITS
    ensures CopyItems(v, n, sorted, s, depth).Some? ==>
              CopyItems(v, n, sorted, s, depth).value ==
                (CopiedItems(v, n, sorted), Spent(s.nodes + ItemNodes(v, n), s.units + ItemUnits(v, n)))
    decreases v, 0, n
  {
    hide Canon, Fits, Nodes, Units, Copy;
    if n > 0 {
      ItemsAcceptExactly(v, n - 1, sorted, s, depth);
      match CopyItems(v, n - 1, sorted, s, depth) {
        case Some((copies, t)) =>
          CopyAcceptsExactly(v.items[n - 1], sorted, t, depth);
          assert CopiedItems(v, n, sorted) ==
                 CopiedItems(v, n - 1, sorted) + [if sorted then Canon(v.items[n - 1]) else v.items[n - 1]];
        case None =>
      }
      assert ItemsFit(v, n, MAX_DEPTH - depth) <==>
        ItemsFit(v, n - 1, MAX_DEPTH - depth) && Fits(v.items[n - 1], MAX_DEPTH - depth);
    }
  }

  /** What the first `n` entries come to together. */
  function EntriesDrawn(v: Value, entries: seq<Member<Text, Numeral>>, n: nat, s: Spent): Spent
    requires v.Obj? && n <= |entries| && forall m <- entries :: m in v.members
  {
    Spent(s.nodes + MemberNodes(v, entries, n), s.units + MemberUnits(v, entries, n))
  }

  lemma NextDrawn(v: Value, entries: seq<Member<Text, Numeral>>, n: nat, s: Spent)
    requires v.Obj? && 0 < n <= |entries| && forall m <- entries :: m in v.members
    ensures var before, m := EntriesDrawn(v, entries, n - 1, s), entries[n - 1];
            && m in v.members
            && EntriesDrawn(v, entries, n, s) == Spent(before.nodes + Nodes(m.value),
                 before.units + |m.name| + Units(m.value))
  {
    assert entries[n - 1] in entries;
  }

  predicate Within(s: Spent) { s.nodes <= MAX_NODES && s.units <= MAX_STRING_UNITS }

  /** The verdict on the first `n` entries, and what it comes to. */
  ghost predicate EntriesOutcome(v: Value, entries: seq<Member<Text, Numeral>>, n: nat, sorted: bool, s: Spent,
      depth: nat)
    requires Plain(v) && v.Obj? && n <= |entries| && forall m <- entries :: m in v.members
  {
    var r := CopyEntries(v, entries, n, sorted, s, depth);
    && (r.Some? <==> EntriesFit(entries, n, MAX_DEPTH - depth) && Within(EntriesDrawn(v, entries, n, s)))
    && (r.Some? ==> r.value == (CopiedEntries(v, entries, n, sorted), EntriesDrawn(v, entries, n, s)))
  }

  lemma {:induction false} EntriesAcceptExactly(v: Value, entries: seq<Member<Text, Numeral>>, n: nat, sorted: bool,
      s: Spent, depth: nat)
    requires Plain(v) && v.Obj? && n <= |entries| && forall m <- entries :: m in v.members
    requires Within(s)
    ensures EntriesOutcome(v, entries, n, sorted, s, depth)
    decreases v, 0, n + 1
  {
    if n == 0 {
      assert CopiedEntries(v, entries, 0, sorted) == [];
    } else {
      EntriesAcceptExactly(v, entries, n - 1, sorted, s, depth);
      EntriesStep(v, entries, n, sorted, s, depth);
    }
  }

  lemma {:induction false} EntriesStep(v: Value, entries: seq<Member<Text, Numeral>>, n: nat, sorted: bool, s: Spent,
      depth: nat)
    requires Plain(v) && v.Obj? && 0 < n <= |entries| && forall m <- entries :: m in v.members
    requires EntriesOutcome(v, entries, n - 1, sorted, s, depth)
    ensures EntriesOutcome(v, entries, n, sorted, s, depth)
    decreases v, 0, n
  {
    hide Copy, Canon, CopiedEntries, EntriesFit, EntriesDrawn;
    NextDrawn(v, entries, n, s);
    NextCopiedEntry(v, entries, n, sorted, MAX_DEPTH - depth);
    var before := CopyEntries(v, entries, n - 1, sorted, s, depth);
    if before.Some? {
      LastEntryAccepts(v, entries, n, sorted, s, depth, before.value.0, before.value.1);
    }
    var m := entries[n - 1];
    Combine(before, CopyEntries(v, entries, n, sorted, s, depth),
      EntriesFit(entries, n - 1, MAX_DEPTH - depth), Fits(m.value, MAX_DEPTH - depth),
      CopiedEntries(v, entries, n - 1, sorted), Member(m.name, if sorted then Canon(m.value) else m.value),
      EntriesDrawn(v, entries, n - 1, s), EntriesDrawn(v, entries, n, s));
  }

  /** How the last entry joins those before it. */
  lemma Combine(before: Option<(seq<Member<Text, Numeral>>, Spent)>, r: Option<(seq<Member<Text, Numeral>>, Spent)>,
      fitsBefore: bool, fitsLast: bool,
                some: seq<Member<Text, Numeral>>, last: Member<Text, Numeral>, part: Spent, total: Spent)
    requires before.Some? <==> fitsBefore && Within(part)
    requires before.Some? ==> before.value == (some, part)
    requires before.None? ==> r.None?
    requires before.Some? ==> (r.Some? <==> fitsLast && Within(total)) && (r.Some? ==>
             r.value == (before.value.0 + [last], total))
    requires part.nodes <= total.nodes && part.units <= total.units
    ensures r.Some? <==> fitsBefore && fitsLast && Within(total)
    ensures r.Some? ==> r.value == (some + [last], total)
  {
  }

  /** The last entry: its name, then its value. */
  lemma {:induction false} LastEntryAccepts(
      v: Value, entries: seq<Member<Text, Numeral>>, n: nat, sorted: bool, s: Spent, depth: nat,
        copies: seq<Member<Text, Numeral>>, t: Spent)
    requires Plain(v) && v.Obj? && 0 < n <= |entries| && forall m <- entries :: m in v.members
    requires CopyEntries(v, entries, n - 1, sorted, s, depth) == Some((copies, t)) && Within(t)
    ensures var m := entries[n - 1];
            var r := CopyEntries(v, entries, n, sorted, s, depth);
            var total := Spent(t.nodes + Nodes(m.value), t.units + |m.name| + Units(m.value));
            && m in v.members
            && (r.Some? <==> Fits(m.value, MAX_DEPTH - depth) && Within(total))
            && (r.Some? ==> r.value == (copies + [Member(m.name, if sorted then Canon(m.value) else m.value)], total))
    decreases v, 0, n - 1
  {
    var m := entries[n - 1];
    assert m in entries && m in v.members;
    var r := CopyEntries(v, entries, n, sorted, s, depth);
    var named := t.(units := t.units + |m.name|);
    if Within(named) {
      CopyAcceptsExactly(m.value, sorted, named, depth);
      var copy := Copy(m.value, sorted, named, depth);
      assert r.Some? <==> copy.Some?;
      assert r.Some? ==> r.value == (copies + [Member(m.name, copy.value.0)], copy.value.1);
    } else {
      assert r.None?;
    }
  }

  lemma NextCopiedEntry(v: Value, entries: seq<Member<Text, Numeral>>, n: nat, sorted: bool, levels: int)
    requires Plain(v) && v.Obj? && 0 < n <= |entries| && forall m <- entries :: m in v.members
    ensures var m := entries[n - 1];
            && m in entries && m in v.members
            && CopiedEntries(v, entries, n, sorted) ==
                 CopiedEntries(v, entries, n - 1, sorted) + [Member(m.name, if sorted then Canon(m.value) else m.value)]
            && (EntriesFit(entries, n, levels) <==> EntriesFit(entries, n - 1, levels) && Fits(m.value, levels))
  {
  }

  lemma {:induction false} ObjectAcceptsExactly(v: Value, sorted: bool, t: Spent, depth: nat)
    requires Plain(v) && v.Obj? && depth <= MAX_DEPTH && t.nodes <= MAX_NODES && t.units <= MAX_STRING_UNITS
    requires !(exists m <- v.members :: IsReserved(m.name))
    ensures var r := CopyEntries(v, Entries(v, sorted), |v.members|, sorted, t, depth + 1);
            && (r.Some? <==> Fits(v, MAX_DEPTH - depth) && t.nodes + Nodes(v) - 1 <= MAX_NODES
                             && t.units + Units(v) <= MAX_STRING_UNITS)
            && (r.Some? ==> Obj(r.value.0) == (if sorted then Canon(v) else v) &&
                            r.value.1 == Spent(t.nodes + Nodes(v) - 1, t.units + Units(v)))
    decreases v, 0, |v.members| + 2
  {
    hide Canon, Fits;
    var entries := Entries(v, sorted);
    var n := |v.members|;
    EntriesAcceptExactly(v, entries, n, sorted, t, depth + 1);
    EntriesTotal(v, sorted);
    EntriesFitTogether(v, sorted, MAX_DEPTH - (depth + 1));
    ObjectCopy(v, sorted);
  }

  lemma ObjectCopy(v: Value, sorted: bool)
    requires Plain(v) && v.Obj?
    ensures Obj(CopiedEntries(v, Entries(v, sorted), |v.members|, sorted)) == if sorted then Canon(v) else v
  {
    var copied := CopiedEntries(v, Entries(v, sorted), |v.members|, sorted);
    if sorted {
      forall j | 0 <= j < |v.members|
        ensures copied[j] == Canon(v).members[j]
      {
        CanonMembers(v, j);
      }
      assert copied == Canon(v).members;
    } else {
      assert copied == v.members;
    }
  }

  lemma EntriesFitTogether(v: Value, sorted: bool, levels: int)
    requires Plain(v) && v.Obj? && !(exists m <- v.members :: IsReserved(m.name)) && levels >= -1
    ensures Fits(v, levels + 1) <==> EntriesFit(Entries(v, sorted), |v.members|, levels)
  {
    var entries := Entries(v, sorted);
    EntriesAreMembers(v, sorted);
    if EntriesFit(entries, |v.members|, levels) {
      forall m <- v.members
        ensures !IsReserved(m.name) && Fits(m.value, levels)
      {
        var j :| 0 <= j < |entries| && entries[j] == m;
      }
    }
  }

  lemma EntriesAreMembers(v: Value, sorted: bool)
    requires Plain(v) && v.Obj?
    ensures forall m :: m in Entries(v, sorted) <==> m in v.members
  {
    var order := Order(Names(v.members), |v.members|);
    if sorted {
      forall m | m in v.members
        ensures m in ByName(v)
      {
        var i :| 0 <= i < |v.members| && v.members[i] == m;
        assert i in order;
        var j :| 0 <= j < |order| && order[j] == i;
        assert ByName(v)[j] == m;
      }
    }
  }

  // ----- Totals do not depend on the order -----

  predicate InRange(order: seq<nat>, n: nat) { forall j :: 0 <= j < |order| ==> order[j] < n }

  predicate AllDifferent(order: seq<nat>) { forall j, k :: 0 <= j < k < |order| ==> order[j] != order[k] }

  /** `order` lists each number below `n` once. */
  ghost predicate Enumerates(order: seq<nat>, n: nat) {
    |order| == n && (forall x: nat :: x in order <==> x < n) && AllDifferent(order)
  }

  /** The totals over the entries that `order` lists. */
  function PickedNodes(v: Value, order: seq<nat>): nat
    requires v.Obj? && InRange(order, |v.members|)
  {
    if order == [] then 0
    else
      var i := order[|order| - 1];
      assert v.members[i] in v.members;
      PickedNodes(v, order[..|order| - 1]) + Nodes(v.members[i].value)
  }

  function PickedUnits(v: Value, order: seq<nat>): nat
    requires v.Obj? && InRange(order, |v.members|)
  {
    if order == [] then 0
    else
      var i := order[|order| - 1];
      assert v.members[i] in v.members;
      PickedUnits(v, order[..|order| - 1]) + |v.members[i].name| + Units(v.members[i].value)
  }

  lemma {:induction false} PickedSplit(v: Value, a: seq<nat>, i: nat, b: seq<nat>)
    requires v.Obj? && i < |v.members| && InRange(a, |v.members|) && InRange(b, |v.members|)
    ensures InRange(a + [i] + b, |v.members|) && InRange(a + b, |v.members|)
    ensures PickedNodes(v, a + [i] + b) == PickedNodes(v, a + b) + Nodes(v.members[i].value)
    ensures PickedUnits(v, a + [i] + b) == PickedUnits(v, a + b) + |v.members[i].name| + Units(v.members[i].value)
    decreases |b|
  {
    if b == [] {
      assert a + [i] + b == a + [i] && a + b == a && (a + [i])[..|a|] == a;
    } else {
      var n := |b| - 1;
      PickedSplit(v, a, i, b[..n]);
      var with, without := a + [i] + b, a + b;
      assert with[..|with| - 1] == a + [i] + b[..n] && without[..|without| - 1] == a + b[..n];
      assert with[|with| - 1] == b[n] && without[|without| - 1] == b[n];
    }
  }

  /** Any order that lists each of the first `n` positions once has the same totals. */
  lemma {:induction false} TotalsOfOrder(v: Value, order: seq<nat>, n: nat)
    requires v.Obj? && n <= |v.members| && Enumerates(order, n) && InRange(order, |v.members|)
    ensures PickedNodes(v, order) == MemberNodes(v, v.members, n)
            && PickedUnits(v, order) == MemberUnits(v, v.members, n)
    decreases n
  {
    hide Nodes, Units;
    if n == 0 {
      assert order == [];
    } else {
      assert n - 1 in order;
      var p :| 0 <= p < |order| && order[p] == n - 1;
      var a, b := order[..p], order[p + 1..];
      assert order == a + [n - 1] + b;
      WithoutLast(order, n, p);
      TotalsOfRest(v, a, b, n);
      TotalsOfOrder(v, a + b, n - 1);
    }
  }

  lemma TotalsOfRest(v: Value, a: seq<nat>, b: seq<nat>, n: nat)
    requires v.Obj? && 0 < n <= |v.members| && InRange(a, |v.members|) && InRange(b, |v.members|)
    ensures InRange(a + [n - 1] + b, |v.members|) && InRange(a + b, |v.members|)
    ensures PickedNodes(v, a + b) == MemberNodes(v, v.members, n - 1) ==>
            PickedNodes(v, a + [n - 1] + b) == MemberNodes(v, v.members, n)
    ensures PickedUnits(v, a + b) == MemberUnits(v, v.members, n - 1) ==>
            PickedUnits(v, a + [n - 1] + b) == MemberUnits(v, v.members, n)
  {
    PickedSplit(v, a, n - 1, b);
  }

  /** An enumeration of the numbers below `n`, without `n - 1`, enumerates those below `n - 1`. */
  lemma WithoutLast(order: seq<nat>, n: nat, p: nat)
    requires n > 0 && Enumerates(order, n) && p < |order| && order[p] == n - 1
    ensures Enumerates(order[..p] + order[p + 1..], n - 1)
  {
    var rest := order[..p] + order[p + 1..];
    assert forall k :: 0 <= k < |rest| ==> rest[k] == order[if k < p then k else k + 1];
    forall x: nat | x in rest
      ensures x < n - 1
    {
      var k :| 0 <= k < |rest| && rest[k] == x;
      assert order[if k < p then k else k + 1] in order;
    }
    forall x: nat | x < n - 1
      ensures x in rest
    {
      assert x in order;
      var k :| 0 <= k < |order| && order[k] == x;
      assert rest[if k < p then k else k - 1] == x;
    }
  }

  lemma {:induction false} EntriesArePicked(v: Value, order: seq<nat>, entries: seq<Member<Text, Numeral>>, n: nat)
    requires v.Obj? && n <= |order| == |entries| && InRange(order, |v.members|)
             && (forall m <- entries :: m in v.members)
    requires forall j :: 0 <= j < |order| ==> entries[j] == v.members[order[j]]
    ensures MemberNodes(v, entries, n) == PickedNodes(v, order[..n])
            && MemberUnits(v, entries, n) == PickedUnits(v, order[..n])
    decreases n
  {
    if n > 0 {
      EntriesArePicked(v, order, entries, n - 1);
      assert order[..n][..n - 1] == order[..n - 1];
    }
  }

  /** Sorting the entries changes neither total. */
  lemma EntriesTotal(v: Value, sorted: bool)
    requires Plain(v) && v.Obj?
    ensures MemberNodes(v, Entries(v, sorted), |v.members|) == MemberNodes(v, v.members, |v.members|)
    ensures MemberUnits(v, Entries(v, sorted), |v.members|) == MemberUnits(v, v.members, |v.members|)
  {
    hide Order, Less, MemberNodes, MemberUnits, PickedNodes, PickedUnits;
    if sorted {
      var names, n := Names(v.members), |v.members|;
      var order := Order(names, n);
      assert forall j :: 0 <= j < |order| ==> order[j] in order;
      forall j, k | 0 <= j < k < |order|
        ensures order[j] != order[k]
      {
        LessIsStrict(names[order[j]]);
      }
      TotalsOfOrder(v, order, n);
      EntriesArePicked(v, order, ByName(v), n);
      assert order[..n] == order;
    }
  }

  // ----- What the program promises of its copies -----

  /** The same value is accepted sorted or not, and what is accepted is copied as it is, or in
      canonical form. */
  lemma SortingDecidesNothing(v: Value)
    requires Plain(v)
    ensures Copy(v, true, Spent(0, 0), 0).Some? <==> Copy(v, false, Spent(0, 0), 0).Some?
    ensures Copy(v, true, Spent(0, 0), 0).Some? ==>
              Copy(v, true, Spent(0, 0), 0).value.0 == Canon(v) && Copy(v, false, Spent(0, 0), 0).value.0 == v
  {
    CopyAcceptsExactly(v, true, Spent(0, 0), 0);
    CopyAcceptsExactly(v, false, Spent(0, 0), 0);
  }

  /** The canonical form has the totals and the depth of the value. */
  lemma {:induction false} FormKeepsTotals(v: Value, levels: int)
    requires Plain(v) && Plain(Canon(v))
    ensures Nodes(Canon(v)) == Nodes(v) && Units(Canon(v)) == Units(v)
    ensures Fits(Canon(v), levels) <==> Fits(v, levels)
    decreases v, 2, 0
  {
    hide Order;
    match v {
      case Arr(items) =>
        FormKeepsItemTotals(v, |items|);
        if levels >= 0 {
          FormItemsFit(v, levels);
        }
      case Obj(members) =>
        var order := Order(Names(members), |members|);
        FormKeepsMemberTotals(v, |members|);
        OrderEnumerates(v);
        TotalsOfOrder(v, order, |members|);
        assert order[..|members|] == order;
        if levels >= 0 {
          FormMembersFit(v, levels);
        }
      case _ =>
    }
  }

  lemma OrderEnumerates(v: Value)
    requires Plain(v) && v.Obj?
    ensures var order := Order(Names(v.members), |v.members|);
            Enumerates(order, |v.members|) && InRange(order, |v.members|)
  {
    var names, n := Names(v.members), |v.members|;
    var order := Order(names, n);
    assert forall j :: 0 <= j < |order| ==> order[j] in order;
    forall j, k | 0 <= j < k < |order|
      ensures order[j] != order[k]
    {
      LessIsStrict(names[order[j]]);
    }
  }

  lemma {:induction false} FormKeepsItemTotals(v: Value, n: nat)
    requires Plain(v) && v.Arr? && Plain(Canon(v)) && n <= |v.items|
    ensures ItemNodes(Canon(v), n) == ItemNodes(v, n) && ItemUnits(Canon(v), n) == ItemUnits(v, n)
    decreases v, 1, n
  {
    if n > 0 {
      assert v.items[n - 1] in v.items && Canon(v).items[n - 1] in Canon(v).items;
      FormKeepsItemTotals(v, n - 1);
      FormKeepsTotals(v.items[n - 1], 0);
    }
  }

  lemma CanonItems(v: Value)
    requires Plain(v) && v.Arr?
    ensures Canon(v).Arr? && |Canon(v).items| == |v.items|
    ensures forall i :: 0 <= i < |v.items| ==> Plain(v.items[i]) && Canon(v).items[i] == Canon(v.items[i])
  {
    assert forall i :: 0 <= i < |v.items| ==> v.items[i] in v.items;
  }

  lemma {:induction false} FormItemsFit(v: Value, levels: nat)
    requires Plain(v) && v.Arr? && Plain(Canon(v))
    ensures Fits(Canon(v), levels) <==> Fits(v, levels)
    decreases v, 1, 0
  {
    hide Canon, Fits;
    CanonItems(v);
    var form := Canon(v);
    forall i | 0 <= i < |v.items|
      ensures Fits(form.items[i], levels - 1) <==> Fits(v.items[i], levels - 1)
    {
      assert v.items[i] in v.items && form.items[i] in form.items;
      FormKeepsTotals(v.items[i], levels - 1);
    }
    ItemsFitTogether(v, levels - 1);
    ItemsFitTogether(form, levels - 1);
  }

  lemma {:induction false} FormKeepsMemberTotals(v: Value, n: nat)
    requires Plain(v) && v.Obj? && Plain(Canon(v)) && n <= |v.members|
    ensures var order := Order(Names(v.members), |v.members|);
            && InRange(order[..n], |v.members|)
            && MemberNodes(Canon(v), Canon(v).members, n) == PickedNodes(v, order[..n])
            && MemberUnits(Canon(v), Canon(v).members, n) == PickedUnits(v, order[..n])
    decreases v, 1, n
  {
    hide Canon, Order;
    OrderEnumerates(v);
    if n > 0 {
      var order := Order(Names(v.members), |v.members|);
      FormKeepsMemberTotals(v, n - 1);
      CanonMembers(v, n - 1);
      assert Canon(v).members[n - 1] in Canon(v).members;
      FormKeepsTotals(v.members[order[n - 1]].value, 0);
      assert order[..n][..n - 1] == order[..n - 1];
    }
  }

  ghost predicate MemberFits(v: Value, j: nat, levels: int)
    requires v.Obj? && j < |v.members|
  {
    !IsReserved(v.members[j].name) && Fits(v.members[j].value, levels - 1)
  }

  /** An object fits when its members do. */
  lemma {:induction false} ObjectFits(v: Value, levels: int)
    requires v.Obj?
    ensures Fits(v, levels) <==> levels >= 0 && forall j :: 0 <= j < |v.members| ==> MemberFits(v, j, levels)
  {
    if levels >= 0 {
      if Fits(v, levels) {
        forall j | 0 <= j < |v.members|
          ensures MemberFits(v, j, levels)
        {
          assert v.members[j] in v.members;
        }
      } else {
        var m :| m in v.members && (IsReserved(m.name) || !Fits(m.value, levels - 1));
        var j :| 0 <= j < |v.members| && v.members[j] == m;
        assert !MemberFits(v, j, levels);
      }
    }
  }

  lemma {:induction false} FormMemberFits(v: Value, levels: int, j: nat)
    requires Plain(v) && v.Obj? && Plain(Canon(v)) && j < |v.members|
    ensures var i := Order(Names(v.members), |v.members|)[j];
            && Canon(v).Obj? && j < |Canon(v).members| && i < |v.members|
            && (MemberFits(Canon(v), j, levels) <==> MemberFits(v, i, levels))
    decreases v, 1, 0
  {
    hide Fits, Order, Canon;
    CanonMembers(v, j);
    assert Canon(v).members[j] in Canon(v).members;
    FormKeepsTotals(v.members[Order(Names(v.members), |v.members|)[j]].value, levels - 1);
  }

  lemma {:induction false} FormMembersFit(v: Value, levels: nat)
    requires Plain(v) && v.Obj? && Plain(Canon(v))
    ensures Fits(Canon(v), levels) <==> Fits(v, levels)
    decreases v, 1, 1
  {
    hide Fits, Order, Canon, MemberFits;
    var order := Order(Names(v.members), |v.members|);
    ObjectFits(v, levels);
    CanonSize(v);
    ObjectFits(Canon(v), levels);
    OrderEnumerates(v);
    forall j | 0 <= j < |v.members|
      ensures MemberFits(Canon(v), j, levels) <==> MemberFits(v, order[j], levels)
    {
      FormMemberFits(v, levels, j);
    }
    if Fits(Canon(v), levels) {
      forall i | 0 <= i < |v.members|
        ensures MemberFits(v, i, levels)
      {
        assert i in order;
        var j :| 0 <= j < |order| && order[j] == i;
        assert MemberFits(Canon(v), j, levels);
      }
    }
  }

  lemma CanonSize(v: Value)
    requires Plain(v) && v.Obj?
    ensures Canon(v).Obj? && |Canon(v).members| == |v.members|
  {
    hide Order;
  }

  // ----- The sign of zero -----

  lemma {:induction false} UnsigningKeepsTotals(v: Value)
    ensures Nodes(ZerosUnsigned(v)) == Nodes(v) && Units(ZerosUnsigned(v)) == Units(v)
    decreases v, 1, 0
  {
    match v {
      case Arr(items) => UnsigningKeepsItemTotals(v, |items|);
      case Obj(members) => UnsigningKeepsMemberTotals(v, |members|);
      case _ =>
    }
  }

  lemma {:induction false} UnsigningKeepsItemTotals(v: Value, n: nat)
    requires v.Arr? && n <= |v.items|
    ensures ItemNodes(ZerosUnsigned(v), n) == ItemNodes(v, n) && ItemUnits(ZerosUnsigned(v), n) == ItemUnits(v, n)
    decreases v, 0, n
  {
    if n > 0 {
      UnsigningKeepsItemTotals(v, n - 1);
      UnsigningKeepsTotals(v.items[n - 1]);
    }
  }

  lemma {:induction false} UnsigningKeepsMemberTotals(v: Value, n: nat)
    requires v.Obj? && n <= |v.members|
    ensures var u := ZerosUnsigned(v);
            && MemberNodes(u, u.members, n) == MemberNodes(v, v.members, n)
            && MemberUnits(u, u.members, n) == MemberUnits(v, v.members, n)
    decreases v, 0, n
  {
    if n > 0 {
      assert v.members[n - 1] in v.members && ZerosUnsigned(v).members[n - 1] in ZerosUnsigned(v).members;
      UnsigningKeepsMemberTotals(v, n - 1);
      UnsigningKeepsTotals(v.members[n - 1].value);
    }
  }

  lemma {:induction false} UnsigningKeepsFit(v: Value, levels: int)
    ensures Fits(ZerosUnsigned(v), levels) <==> Fits(v, levels)
    decreases v, 1
  {
    match v {
      case Arr(_) => UnsigningKeepsItemsFit(v, levels);
      case Obj(_) => UnsigningKeepsMembersFit(v, levels);
      case _ =>
    }
  }

  lemma {:induction false} UnsigningKeepsItemsFit(v: Value, levels: int)
    requires v.Arr?
    ensures Fits(ZerosUnsigned(v), levels) <==> Fits(v, levels)
    decreases v, 0
  {
    var u := ZerosUnsigned(v);
    forall i | 0 <= i < |v.items|
      ensures Fits(u.items[i], levels - 1) <==> Fits(v.items[i], levels - 1)
    {
      assert v.items[i] in v.items;
      UnsigningKeepsFit(v.items[i], levels - 1);
    }
    if levels >= 0 {
      ItemsFitTogether(v, levels - 1);
      ItemsFitTogether(u, levels - 1);
    }
  }

  lemma {:induction false} UnsigningKeepsMembersFit(v: Value, levels: int)
    requires v.Obj?
    ensures Fits(ZerosUnsigned(v), levels) <==> Fits(v, levels)
    decreases v, 0
  {
    hide Fits;
    var u := ZerosUnsigned(v);
    forall j | 0 <= j < |v.members|
      ensures MemberFits(u, j, levels) <==> MemberFits(v, j, levels)
    {
      assert v.members[j] in v.members;
      UnsigningKeepsFit(v.members[j].value, levels - 1);
    }
    ObjectFits(v, levels);
    ObjectFits(u, levels);
  }

  /** Nor does the order of members decide anything, nor the sign of zero: values that mean the
      same are accepted alike. */
  lemma OrderDecidesNothing(a: Value, b: Value, sorted: bool)
    requires Plain(a) && Plain(b) && MeaningOf(a) == MeaningOf(b)
    ensures Copy(a, sorted, Spent(0, 0), 0).Some? <==> Copy(b, sorted, Spent(0, 0), 0).Some?
  {
    hide Canon, Fits, Nodes, Units, Copy, MeaningOf, Write, ZerosUnsigned;
    MeaningFixesForm(a, b);
    WriteIsExact(Canon(a), Canon(b));
    UnsignedFormAffords(a);
    UnsignedFormAffords(b);
    CopyAcceptsExactly(a, sorted, Spent(0, 0), 0);
    CopyAcceptsExactly(b, sorted, Spent(0, 0), 0);
  }

  lemma UnsignedFormAffords(v: Value)
    requires Plain(v)
    ensures Affordable(ZerosUnsigned(Canon(v)), Spent(0, 0), 0) <==> Affordable(v, Spent(0, 0), 0)
  {
    hide Canon, Fits, Nodes, Units, MeaningOf, ZerosUnsigned;
    FormKeepsMeaning(v);
    FormKeepsTotals(v, MAX_DEPTH);
    UnsigningKeepsTotals(Canon(v));
    UnsigningKeepsFit(Canon(v), MAX_DEPTH);
  }
}
