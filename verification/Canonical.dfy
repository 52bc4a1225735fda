/** Canonical JSON (src/canonical.js): members in code-unit order of their names. Two values have
    the same canonical text exactly when they are the same up to the order of members. */
module Canonical {
  import opened JsonValues
  import opened JsonText
  import opened NumberText
  import opened CanonicalText

  // ----- compareCodeUnits -----

  predicate Less(a: Text, b: Text) {
    if b == [] then false
    else if a == [] then true
    else if a[0] == b[0] then Less(a[1..], b[1..])
    else a[0] < b[0]
  }

  lemma {:induction false} LessIsStrict(a: Text)
    ensures !Less(a, a)
    decreases |a|
  {
    if a != [] {
      LessIsStrict(a[1..]);
    }
  }

  lemma {:induction false} LessIsTransitive(a: Text, b: Text, c: Text)
    requires Less(a, b) && Less(b, c)
    ensures Less(a, c)
    decreases |a|
  {
    if a != [] && a[0] == b[0] == c[0] {
      LessIsTransitive(a[1..], b[1..], c[1..]);
    }
  }

  lemma {:induction false} LessIsTotal(a: Text, b: Text)
    ensures a == b || Less(a, b) || Less(b, a)
    decreases |a|
  {
    if a != [] && b != [] && a[0] == b[0] {
      LessIsTotal(a[1..], b[1..]);
      assert a == [a[0]] + a[1..] && b == [b[0]] + b[1..];
    }
  }

  ghost predicate Ascending(names: seq<Text>) {
    forall j, k :: 0 <= j < k < |names| ==> Less(names[j], names[k])
  }

  /** Names in ascending order are determined by which names there are. */
  lemma {:induction false} AscendingIsUnique(s: seq<Text>, t: seq<Text>)
    requires Ascending(s) && Ascending(t)
    requires forall x :: x in s <==> x in t
    ensures s == t
    decreases |s|
  {
    if s == [] {
      if |t| > 0 {
        FirstIsMember(t);
        assert false;
      }
    } else {
      assert s[0] in t && t != [] && t[0] in s;
      FirstIsLeast(s, t[0]);
      FirstIsLeast(t, s[0]);
      if s[0] != t[0] {
        LessIsTransitive(s[0], t[0], s[0]);
        LessIsStrict(s[0]);
        assert false;
      }
      forall x
        ensures x in s[1..] <==> x in t[1..]
      {
        RestLacksFirst(s);
        RestLacksFirst(t);
        assert x in s <==> x == s[0] || x in s[1..];
        assert x in t <==> x == t[0] || x in t[1..];
      }
      AscendingIsUnique(s[1..], t[1..]);
      assert s == [s[0]] + s[1..] && t == [t[0]] + t[1..];
    }
  }

  lemma FirstIsMember(s: seq<Text>)
    requires |s| > 0
    ensures s[0] in s
  {
  }

  lemma FirstIsLeast(s: seq<Text>, x: Text)
    requires Ascending(s) && x in s
    ensures x == s[0] || Less(s[0], x)
  {
    var i :| 0 <= i < |s| && s[i] == x;
  }

  lemma RestLacksFirst(s: seq<Text>)
    requires Ascending(s) && s != []
    ensures s[0] !in s[1..]
  {
    LessIsStrict(s[0]);
    forall i | 0 <= i < |s[1..]|
      ensures s[1..][i] != s[0]
    {
      assert Less(s[0], s[i + 1]);
    }
  }

  // ----- Sorting by name -----

  ghost predicate Distinct(names: seq<Text>) {
    forall j, k :: 0 <= j < k < |names| ==> names[j] != names[k]
  }

  /** `order` lists positions of `names` in ascending order of the names. */
  ghost predicate Sorts(names: seq<Text>, order: seq<nat>) {
    && (forall x <- order :: x < |names|)
    && forall j, k :: 0 <= j < k < |order| ==>
         order[j] < |names| && order[k] < |names| && Less(names[order[j]], names[order[k]])
  }

  function Insert(names: seq<Text>, i: nat, order: seq<nat>): (r: seq<nat>)
    requires i < |names| && Sorts(names, order) && forall x <- order :: names[x] != names[i]
    ensures Sorts(names, r) && |r| == |order| + 1
    ensures forall x: nat :: x in r <==> x == i || x in order
  {
    if order == [] then [i]
    else
      assert order[0] in order;
      LessIsTotal(names[i], names[order[0]]);
      if Less(names[i], names[order[0]]) then
        InsertedFirst(names, i, order);
        [i] + order
      else
        assert Sorts(names, order[1..]) by {
          assert forall x <- order[1..] :: x in order;
          assert forall j :: 0 <= j < |order[1..]| ==> order[1..][j] == order[j + 1];
        }
        var rest := Insert(names, i, order[1..]);
        InsertedLater(names, i, order, rest);
        [order[0]] + rest
  }

  lemma InsertedFirst(names: seq<Text>, i: nat, order: seq<nat>)
    requires i < |names| && Sorts(names, order) && order != [] && order[0] < |names| && Less(names[i], names[order[0]])
    ensures Sorts(names, [i] + order)
  {
    var r := [i] + order;
    assert forall x <- r :: x == i || x in order;
    forall j, k | 0 <= j < k < |r|
      ensures r[j] < |names| && r[k] < |names| && Less(names[r[j]], names[r[k]])
    {
      assert r[k] == order[k - 1] && order[k - 1] in order;
      if j == 0 {
        if k > 1 {
          LessIsTransitive(names[i], names[order[0]], names[order[k - 1]]);
        }
      } else {
        assert r[j] == order[j - 1];
      }
    }
  }

  lemma PrependedHas(first: nat, rest: seq<nat>)
    ensures forall x: nat :: x in [first] + rest <==> x == first || x in rest
  {
  }

  lemma InsertedLater(names: seq<Text>, i: nat, order: seq<nat>, rest: seq<nat>)
    requires i < |names| && Sorts(names, order) && order != [] && order[0] < |names| && Less(names[order[0]], names[i])
    requires Sorts(names, rest) && forall x: nat :: x in rest <==> x == i || x in order[1..]
    ensures Sorts(names, [order[0]] + rest)
    ensures forall x: nat :: x in [order[0]] + rest <==> x == i || x in order
  {
    hide Less, Sorts;
    FirstIsBelowRest(names, i, order, rest);
    PutInFront(names, order[0], rest);
    PrependedHas(order[0], rest);
    PrependedHas(order[0], order[1..]);
    assert order == [order[0]] + order[1..];
  }

  lemma FirstIsBelowRest(names: seq<Text>, i: nat, order: seq<nat>, rest: seq<nat>)
    requires i < |names| && Sorts(names, order) && order != [] && order[0] < |names| && Less(names[order[0]], names[i])
    requires Sorts(names, rest) && forall x: nat :: x in rest <==> x == i || x in order[1..]
    ensures forall k :: 0 <= k < |rest| ==> rest[k] < |names| && Less(names[order[0]], names[rest[k]])
  {
    hide Less;
    forall k | 0 <= k < |rest|
      ensures rest[k] < |names| && Less(names[order[0]], names[rest[k]])
    {
      assert rest[k] in rest;
      if rest[k] != i {
        var m :| 0 <= m < |order[1..]| && order[1..][m] == rest[k];
        assert rest[k] == order[m + 1];
      }
    }
  }

  lemma PutInFront(names: seq<Text>, first: nat, rest: seq<nat>)
    requires first < |names| && Sorts(names, rest)
    requires forall k :: 0 <= k < |rest| ==> rest[k] < |names| && Less(names[first], names[rest[k]])
    ensures Sorts(names, [first] + rest)
  {
    hide Less;
    var r := [first] + rest;
    assert forall k :: 0 < k < |r| ==> r[k] == rest[k - 1];
    assert forall k :: 0 <= k < |r| ==> r[k] < |names|;
  }

  /** The positions of the first `n` names, in ascending order of the names. */
  function Order(names: seq<Text>, n: nat): (order: seq<nat>)
    requires n <= |names| && Distinct(names)
    ensures Sorts(names, order) && |order| == n
    ensures forall x: nat :: x in order <==> x < n
  {
    if n == 0 then []
    else
      var before := Order(names, n - 1);
      assert forall x <- before :: x < n - 1 && names[x] != names[n - 1];
      var r := Insert(names, n - 1, before);
      assert Sorts(names, r);
      r
  }

  // ----- Canonical form -----

  function Names(members: seq<Member<Text, Numeral>>): (names: seq<Text>)
    ensures |names| == |members| && forall i :: 0 <= i < |names| ==> names[i] == members[i].name
  {
    seq(|members|, i requires 0 <= i < |members| => members[i].name)
  }

  /** No object has two members of one name: what every object in memory satisfies. */
  ghost predicate Plain(v: Value) {
    match v
    case Arr(items) => forall item <- items :: Plain(item)
    case Obj(members) => Distinct(Names(members)) && forall m <- members :: Plain(m.value)
    case _ => true
  }

  /** The value with the members of every object in ascending order. */
  function Canon(v: Value): (r: Value)
    requires Plain(v)
    decreases v
  {
    match v
    case Arr(items) => Arr(seq(|items|, i requires 0 <= i < |items| => Canon(items[i])))
    case Obj(members) =>
      var order := Order(Names(members), |members|);
      Obj(seq(|members|, j requires 0 <= j < |members| =>
        (assert order[j] in order && members[order[j]] in members;
          Member(members[order[j]].name, Canon(members[order[j]].value)))))
    case _ => v
  }

  /** writeCanonicalJson. */
  function WriteCanonical(v: Value): Text
    requires Plain(v)
    decreases v
  {
    match v
    case Arr(items) =>
      [OPEN_BRACKET] + Join(seq(|items|, i requires 0 <= i < |items| => WriteCanonical(items[i]))) + [CLOSE_BRACKET]
    case Obj(members) =>
      var order := Order(Names(members), |members|);
      [OPEN_BRACE] + Join(seq(|members|, j requires 0 <= j < |members| =>
        (assert order[j] in order && members[order[j]] in members;
         WriteMember(members[order[j]].name, WriteCanonical(members[order[j]].value))))) + [CLOSE_BRACE]
    case _ => Write(v)
  }

  /** The canonical text is the text of the canonical form. */
  lemma {:induction false} CanonicalTextOfForm(v: Value)
    requires Plain(v)
    ensures WriteCanonical(v) == Write(Canon(v))
    decreases v
  {
    match v {
      case Arr(items) =>
        var texts := seq(|items|, i requires 0 <= i < |items| => WriteCanonical(items[i]));
        forall i | 0 <= i < |items|
          ensures texts[i] == ItemTexts(Canon(v).items)[i]
        {
          CanonicalTextOfForm(items[i]);
        }
        assert texts == ItemTexts(Canon(v).items);
      case Obj(members) =>
        var order := Order(Names(members), |members|);
        var texts := seq(|members|, j requires 0 <= j < |members| =>
          (assert order[j] in order && members[order[j]] in members;
           WriteMember(members[order[j]].name, WriteCanonical(members[order[j]].value))));
        forall j | 0 <= j < |members|
          ensures texts[j] == MemberTexts(Canon(v))[j]
        {
          assert order[j] in order && members[order[j]] in members;
          CanonicalTextOfForm(members[order[j]].value);
        }
        assert texts == MemberTexts(Canon(v));
      case _ =>
    }
  }

  // ----- Meaning -----

  /** A JSON value with its objects as maps and without signed zeros: what is left when the order
      of members and the sign of zero are not. */
  datatype Meaning =
    | MNull
    | MBool(b: bool)
    | MNumber(n: Numeral)
    | MString(text: Text)
    | MArray(items: seq<Meaning>)
    | MObject(members: map<Text, Meaning>)

  function MeaningOf(v: Value): Meaning
    requires Plain(v)
    decreases v, 1, 0
  {
    match v
    case Null => MNull
    case Bool(b) => MBool(b)
    case Number(n) => MNumber(Unsigned(n))
    case Str(s) => MString(s)
    case Arr(items) => MArray(seq(|items|, i requires 0 <= i < |items| => MeaningOf(items[i])))
    case Obj(members) => MObject(MemberMap(v, |members|))
  }

  /** The first `n` members of an object, as a map. */
  function MemberMap(v: Value, n: nat): map<Text, Meaning>
    requires Plain(v) && v.Obj? && n <= |v.members|
    decreases v, 0, n
  {
    if n == 0 then map[]
    else
      var m := v.members[n - 1];
      assert m in v.members;
      MemberMap(v, n - 1)[m.name := MeaningOf(m.value)]
  }

  lemma {:induction false} MapHoldsMembers(v: Value, n: nat, i: nat)
    requires Plain(v) && v.Obj? && i < n <= |v.members|
    ensures v.members[i] in v.members && Plain(v.members[i].value)
    ensures v.members[i].name in MemberMap(v, n) && MemberMap(v, n)[v.members[i].name] == MeaningOf(v.members[i].value)
    decreases n
  {
    assert v.members[i] in v.members && v.members[n - 1] in v.members;
    if i < n - 1 {
      MapHoldsMembers(v, n - 1, i);
      assert Names(v.members)[i] != Names(v.members)[n - 1];
    }
  }

  lemma {:induction false} MapHoldsNothingElse(v: Value, n: nat, x: Text)
    requires Plain(v) && v.Obj? && n <= |v.members| && x in MemberMap(v, n)
    ensures x in Names(v.members)
    decreases n
  {
    var m := v.members[n - 1];
    assert m in v.members && Names(v.members)[n - 1] == m.name;
    if x != m.name {
      MapHoldsNothingElse(v, n - 1, x);
    }
  }

  lemma MemberMeaning(v: Value, i: nat)
    requires Plain(v) && v.Obj? && i < |v.members|
    ensures v.members[i] in v.members && Plain(v.members[i].value)
    ensures v.members[i].name in MeaningOf(v).members
    ensures MeaningOf(v).members[v.members[i].name] == MeaningOf(v.members[i].value)
  {
    MapHoldsMembers(v, |v.members|, i);
  }

  lemma NamesAreKeys(v: Value)
    requires Plain(v) && v.Obj?
    ensures forall x :: x in MeaningOf(v).members <==> x in Names(v.members)
  {
    forall x
      ensures x in MeaningOf(v).members <==> x in Names(v.members)
    {
      if x in Names(v.members) {
        var i :| 0 <= i < |v.members| && Names(v.members)[i] == x;
        MemberMeaning(v, i);
      } else if x in MeaningOf(v).members {
        MapHoldsNothingElse(v, |v.members|, x);
      }
    }
  }

  lemma CanonMembers(v: Value, j: nat)
    requires Plain(v) && v.Obj? && j < |v.members|
    ensures var order := Order(Names(v.members), |v.members|);
            && Canon(v).Obj? && |Canon(v).members| == |v.members| && order[j] < |v.members|
            && v.members[order[j]] in v.members
            && Canon(v).members[j] == Member(v.members[order[j]].name, Canon(v.members[order[j]].value))
  {
    var order := Order(Names(v.members), |v.members|);
    assert order[j] in order;
  }

  lemma CanonNames(v: Value)
    requires Plain(v) && v.Obj?
    ensures Canon(v).Obj? && Ascending(Names(Canon(v).members))
    ensures forall x :: x in Names(Canon(v).members) <==> x in Names(v.members)
  {
    var names, order := Names(v.members), Order(Names(v.members), |v.members|);
    var sorted := Names(Canon(v).members);
    forall j | 0 <= j < |v.members|
      ensures order[j] < |names| && sorted[j] == names[order[j]]
    {
      CanonMembers(v, j);
    }
    forall x | x in names
      ensures x in sorted
    {
      var i :| 0 <= i < |names| && names[i] == x;
      assert i in order;
      var j :| 0 <= j < |order| && order[j] == i;
      assert sorted[j] == x;
    }
  }

  /** The same meaning gives the same text of the canonical form. */
  lemma {:induction false} MeaningFixesForm(a: Value, b: Value)
    requires Plain(a) && Plain(b) && MeaningOf(a) == MeaningOf(b)
    ensures Write(Canon(a)) == Write(Canon(b))
    decreases a
  {
    match a {
      case Number(n) => NumeralTextIsExact(n, b.n);
      case Arr(items) =>
        assert |items| == |MeaningOf(a).items| == |b.items|;
        forall i | 0 <= i < |items|
          ensures ItemTexts(Canon(a).items)[i] == ItemTexts(Canon(b).items)[i]
        {
          assert MeaningOf(items[i]) == MeaningOf(a).items[i] == MeaningOf(b).items[i] == MeaningOf(b.items[i]);
          MeaningFixesForm(items[i], b.items[i]);
        }
        assert ItemTexts(Canon(a).items) == ItemTexts(Canon(b).items);
      case Obj(_) =>
        SameSortedNames(a, b);
        var n := |Canon(a).members|;
        forall j | 0 <= j < n
          ensures MemberTexts(Canon(a))[j] == MemberTexts(Canon(b))[j]
        {
          CanonMembers(a, j);
          CanonMembers(b, j);
          var i := Order(Names(a.members), |a.members|)[j];
          var k := Order(Names(b.members), |b.members|)[j];
          assert a.members[i].name == Names(Canon(a).members)[j] == Names(Canon(b).members)[j] == b.members[k].name;
          MemberMeaning(a, i);
          MemberMeaning(b, k);
          MeaningFixesForm(a.members[i].value, b.members[k].value);
        }
        assert MemberTexts(Canon(a)) == MemberTexts(Canon(b));
      case _ =>
    }
  }

  lemma SameSortedNames(a: Value, b: Value)
    requires Plain(a) && Plain(b) && a.Obj? && MeaningOf(a) == MeaningOf(b)
    ensures b.Obj? && Names(Canon(a).members) == Names(Canon(b).members)
    ensures |a.members| == |b.members| == |Canon(a).members| == |Canon(b).members|
  {
    NamesAreKeys(a);
    NamesAreKeys(b);
    CanonNames(a);
    CanonNames(b);
    AscendingIsUnique(Names(Canon(a).members), Names(Canon(b).members));
  }

  /** The canonical form has the meaning of the value. */
  lemma {:induction false} FormKeepsMeaning(v: Value)
    requires Plain(v)
    ensures Plain(Canon(v)) && MeaningOf(Canon(v)) == MeaningOf(v)
    decreases v, 2
  {
    match v {
      case Arr(items) =>
        var sorted := Canon(v).items;
        forall i | 0 <= i < |items|
          ensures Plain(sorted[i]) && MeaningOf(sorted[i]) == MeaningOf(items[i])
        {
          FormKeepsMeaning(items[i]);
        }
        assert Plain(Canon(v));
        assert MeaningOf(Canon(v)).items == MeaningOf(v).items;
      case Obj(members) =>
        CanonNames(v);
        var sorted := Canon(v).members;
        AscendingIsDistinct(Names(sorted));
        forall j | 0 <= j < |members|
          ensures Plain(sorted[j].value)
        {
          CanonMembers(v, j);
          FormKeepsMeaning(members[Order(Names(members), |members|)[j]].value);
        }
        assert Plain(Canon(v));
        ObjectFormKeepsMeaning(v);
      case _ =>
    }
  }

  lemma AscendingIsDistinct(names: seq<Text>)
    requires Ascending(names)
    ensures Distinct(names)
  {
    forall j, k | 0 <= j < k < |names|
      ensures names[j] != names[k]
    {
      LessIsStrict(names[j]);
    }
  }

  lemma {:induction false} ObjectFormKeepsMeaning(v: Value)
    requires Plain(v) && v.Obj? && Plain(Canon(v))
    ensures MeaningOf(Canon(v)) == MeaningOf(v)
    decreases v, 1
  {
    var m, c := MeaningOf(v).members, MeaningOf(Canon(v)).members;
    NamesAreKeys(v);
    NamesAreKeys(Canon(v));
    CanonNames(v);
    assert m.Keys == c.Keys;
    forall x | x in c
      ensures c[x] == m[x]
    {
      var j :| 0 <= j < |Canon(v).members| && Names(Canon(v).members)[j] == x;
      FormMemberKeepsMeaning(v, j);
    }
    assert m == c;
  }

  lemma {:induction false} FormMemberKeepsMeaning(v: Value, j: nat)
    requires Plain(v) && v.Obj? && Plain(Canon(v)) && j < |Canon(v).members|
    ensures var x := Canon(v).members[j].name;
            && x in MeaningOf(Canon(v)).members && x in MeaningOf(v).members
            && MeaningOf(Canon(v)).members[x] == MeaningOf(v).members[x]
    decreases v, 0
  {
    CanonMembers(v, j);
    var i := Order(Names(v.members), |v.members|)[j];
    MemberMeaning(v, i);
    MemberMeaning(Canon(v), j);
    FormKeepsMeaning(v.members[i].value);
  }

  /** canonicalJson of a value whose copy succeeds: the sorted copy, written with sorted names. */
  function CanonicalJson(v: Value): Text
    requires Plain(v)
  {
    FormKeepsMeaning(v);
    WriteCanonical(Canon(v))
  }

  /** Canonical JSON is exact: two values have the same text if and only if they are the same
      value up to the order of members and the sign of zero. */
  lemma CanonicalJsonIsExact(a: Value, b: Value)
    requires Plain(a) && Plain(b)
    ensures CanonicalJson(a) == CanonicalJson(b) <==> MeaningOf(a) == MeaningOf(b)
  {
    hide Canon, Write, MeaningOf, CanonicalJson, ZerosUnsigned;
    CanonIsStable(a);
    CanonIsStable(b);
    FormKeepsMeaning(a);
    FormKeepsMeaning(b);
    if CanonicalJson(a) == CanonicalJson(b) {
      WriteIsExact(Canon(a), Canon(b));
      UnsigningKeepsMeaning(Canon(a));
      UnsigningKeepsMeaning(Canon(b));
    }
    if MeaningOf(a) == MeaningOf(b) {
      MeaningFixesForm(a, b);
    }
  }

  /** The second sort changes nothing. */
  lemma CanonIsStable(v: Value)
    requires Plain(v)
    ensures Plain(Canon(v)) && CanonicalJson(v) == Write(Canon(v))
  {
    FormKeepsMeaning(v);
    MeaningFixesForm(Canon(v), v);
    CanonicalTextOfForm(Canon(v));
  }

  lemma UnsignedNames(v: Value)
    requires v.Obj?
    ensures ZerosUnsigned(v).Obj? && Names(ZerosUnsigned(v).members) == Names(v.members)
  {
  }

  lemma {:induction false} UnsigningKeepsMeaning(v: Value)
    requires Plain(v)
    ensures Plain(ZerosUnsigned(v)) && MeaningOf(ZerosUnsigned(v)) == MeaningOf(v)
    decreases v, 1
  {
    match v {
      case Arr(items) =>
        var unsigned := ZerosUnsigned(v).items;
        forall i | 0 <= i < |items|
          ensures Plain(unsigned[i]) && MeaningOf(unsigned[i]) == MeaningOf(items[i])
        {
          UnsigningKeepsMeaning(items[i]);
        }
        assert Plain(ZerosUnsigned(v));
        assert MeaningOf(ZerosUnsigned(v)).items == MeaningOf(v).items;
      case Obj(members) =>
        UnsignedNames(v);
        var unsigned := ZerosUnsigned(v).members;
        forall i | 0 <= i < |members|
          ensures Plain(unsigned[i].value)
        {
          assert members[i] in members;
          UnsigningKeepsMeaning(members[i].value);
        }
        assert Plain(ZerosUnsigned(v));
        UnsigningKeepsMap(v, |members|);
      case _ =>
    }
  }

  lemma {:induction false} UnsigningKeepsMap(v: Value, n: nat)
    requires Plain(v) && v.Obj? && n <= |v.members| && Plain(ZerosUnsigned(v))
    ensures MemberMap(ZerosUnsigned(v), n) == MemberMap(v, n)
    decreases v, 0, n
  {
    if n > 0 {
      assert v.members[n - 1] in v.members && ZerosUnsigned(v).members[n - 1] in ZerosUnsigned(v).members;
      UnsigningKeepsMap(v, n - 1);
      UnsigningKeepsMeaning(v.members[n - 1].value);
    }
  }

  /** Parsing the canonical text back gives the value, up to the order of members and the sign
      of zero. */
  lemma CanonicalJsonReadsBack(v: Value)
    requires Plain(v)
    ensures var read := ReadValue(CanonicalJson(v));
            read.Some? && read.value.1 == [] && Plain(read.value.0) && MeaningOf(read.value.0) == MeaningOf(v)
  {
    hide Canon, Write, MeaningOf, CanonicalJson, ZerosUnsigned, ReadValue;
    CanonIsStable(v);
    FormKeepsMeaning(v);
    ValueReadsBack(Canon(v), []);
    UnsigningKeepsMeaning(Canon(v));
    assert Write(Canon(v)) + [] == Write(Canon(v));
  }
}
