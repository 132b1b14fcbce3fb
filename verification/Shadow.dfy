/** Comparing proposed with observed actions: pairing, diverging fields and order. */
module Shadow {
  import opened Basics

  /**
    A decoded argument with its JSON encoding. The encoding of a number keeps its spelling,
    so the literal 1000.0 and the integer 1000 are different arguments.
   */
  datatype Value = Value(json: Json, text: string)

  type Sent = map<string, Value>

  type Texts = map<string, string>

  function Encoded(args: Sent): Texts {
    map name | name in args :: args[name].text
  }

  /** An action with what the comparison keys on; `canonical` encodes the arguments. */
  datatype Entry = Entry(op: string, resource: string, args: Sent, canonical: string, index: nat)

  datatype Pair = Pair(left: Entry, right: Entry)

  datatype KeyKind = Identical | SameResource

  const NUL: char := 0 as char

  /** An entry with an empty key is never paired. */
  function KeyOf(kind: KeyKind, e: Entry): string {
    match kind
    case Identical => e.op + [NUL] + e.canonical
    case SameResource => if e.resource == [] then [] else e.op + [NUL] + e.resource
  }

  /** Where the first zero byte stands. */
  function Cut(s: string): nat {
    if s == [] || s[0] == NUL then 0 else 1 + Cut(s[1..])
  }

  lemma {:induction false} CutJoined(a: string, x: string)
    requires NUL !in a
    ensures Cut(a + [NUL] + x) == |a|
  {
    var s := a + [NUL] + x;
    if a != [] {
      CutJoined(a[1..], x);
      assert s[1..] == a[1..] + [NUL] + x;
      assert a[0] in a;
    }
  }

  /** Joining at a zero byte is exact for operation IDs without one. */
  lemma JoinIsExact(a: string, b: string, x: string, y: string)
    requires NUL !in a && NUL !in b && a + [NUL] + x == b + [NUL] + y
    ensures a == b && x == y
  {
    var s, t := a + [NUL] + x, b + [NUL] + y;
    CutJoined(a, x);
    CutJoined(b, y);
    assert a == s[..|a|] && b == t[..|b|];
    assert x == s[|a| + 1..] && y == t[|b| + 1..];
  }

  // Orders and sorting ---------------------------------------------------------------------

  datatype Order = ByCanonical | ByOperation

  predicate LessCanonical(a: Entry, b: Entry) {
    Before(a.canonical, b.canonical) || (a.canonical == b.canonical && a.index < b.index)
  }

  predicate Less(order: Order, a: Entry, b: Entry) {
    match order
    case ByCanonical => LessCanonical(a, b)
    case ByOperation => Before(a.op, b.op) || (a.op == b.op && LessCanonical(a, b))
  }

  lemma LessCanonicalTransitive(a: Entry, b: Entry, c: Entry)
    requires LessCanonical(a, b) && LessCanonical(b, c)
    ensures LessCanonical(a, c)
  {
    if Before(a.canonical, b.canonical) && Before(b.canonical, c.canonical) {
      BeforeIsTransitive(a.canonical, b.canonical, c.canonical);
    }
  }

  lemma LessTransitive(order: Order, a: Entry, b: Entry, c: Entry)
    requires Less(order, a, b) && Less(order, b, c)
    ensures Less(order, a, c)
  {
    if order.ByOperation? && Before(a.op, b.op) && Before(b.op, c.op) {
      BeforeIsTransitive(a.op, b.op, c.op);
    }
    if LessCanonical(a, b) && LessCanonical(b, c) {
      LessCanonicalTransitive(a, b, c);
    }
  }

  predicate Sorted(order: Order, s: seq<Entry>) {
    forall i, j | 0 <= i < j < |s| :: !Less(order, s[j], s[i])
  }

  function Insert(order: Order, e: Entry, s: seq<Entry>): (r: seq<Entry>)
    ensures multiset(r) == multiset(s) + multiset{e}
  {
    if s == [] then [e]
    else if Less(order, e, s[0]) then [e] + s
    else
      assert s == [s[0]] + s[1..];
      [s[0]] + Insert(order, e, s[1..])
  }

  lemma {:induction false} InsertSorts(order: Order, e: Entry, s: seq<Entry>)
    requires Sorted(order, s)
    ensures Sorted(order, Insert(order, e, s))
  {
    hide Less;
    var r := Insert(order, e, s);
    if s != [] {
      if Less(order, e, s[0]) {
        forall j | 0 <= j < |s|
          ensures !Less(order, s[j], e)
        {
          if Less(order, s[j], e) {
            LessTransitive(order, s[j], e, s[0]);
            NotLessThanItself(order, s[0]);
          }
        }
      } else {
        InsertSorts(order, e, s[1..]);
        InsertedMembers(order, e, s[1..]);
        var rest := Insert(order, e, s[1..]);
        forall k | 0 <= k < |rest|
          ensures !Less(order, rest[k], s[0])
        {
          assert rest[k] == e || rest[k] in s[1..];
        }
        assert r == [s[0]] + rest;
      }
    }
  }

  lemma InsertedMembers(order: Order, e: Entry, s: seq<Entry>)
    ensures forall x | x in Insert(order, e, s) :: x == e || x in s
  {
    hide Less, Insert;
    var r := Insert(order, e, s);
    forall x | x in r
      ensures x == e || x in s
    {
      assert x in multiset(r);
    }
  }

  lemma NotLessThanItself(order: Order, a: Entry)
    ensures !Less(order, a, a)
  {
    BeforeIsIrreflexive(a.canonical);
    BeforeIsIrreflexive(a.op);
  }

  function Sort(order: Order, s: seq<Entry>): (r: seq<Entry>)
    ensures multiset(r) == multiset(s)
  {
    if s == [] then [] else
      var n := |s| - 1;
      assert s == s[..n] + [s[n]];
      Insert(order, s[n], Sort(order, s[..n]))
  }

  lemma {:induction false} SortSorts(order: Order, s: seq<Entry>)
    ensures Sorted(order, Sort(order, s))
  {
    if s != [] {
      var n := |s| - 1;
      SortSorts(order, s[..n]);
      InsertSorts(order, s[n], Sort(order, s[..n]));
    }
  }

  // Groups -----------------------------------------------------------------------------------

  /** The entries whose key lies in a set, in stream order. */
  function Among(entries: seq<Entry>, kind: KeyKind, keys: set<string>): seq<Entry> {
    if entries == [] then [] else
      var n := |entries| - 1;
      Among(entries[..n], kind, keys) + (if KeyOf(kind, entries[n]) in keys then [entries[n]] else [])
  }

  lemma {:induction false} AmongMember(entries: seq<Entry>, kind: KeyKind, keys: set<string>, e: Entry)
    ensures e in Among(entries, kind, keys) <==> e in entries && KeyOf(kind, e) in keys
  {
    hide KeyOf;
    if entries != [] {
      var n := |entries| - 1;
      AmongMember(entries[..n], kind, keys, e);
      assert entries == entries[..n] + [entries[n]];
    }
  }

  lemma {:induction false} AmongUnion(entries: seq<Entry>, kind: KeyKind, keys: set<string>, k: string)
    requires k !in keys
    ensures multiset(Among(entries, kind, keys + {k}))
            == multiset(Among(entries, kind, keys)) + multiset(Among(entries, kind, {k}))
  {
    if entries != [] {
      AmongUnion(entries[..|entries| - 1], kind, keys, k);
    }
  }

  lemma {:induction false} AmongAll(entries: seq<Entry>, kind: KeyKind, keys: set<string>)
    requires forall i | 0 <= i < |entries| :: KeyOf(kind, entries[i]) in keys
    ensures Among(entries, kind, keys) == entries
  {
    hide KeyOf;
    if entries != [] {
      AmongAll(entries[..|entries| - 1], kind, keys);
    }
  }

  function KeySet(entries: seq<Entry>, kind: KeyKind): set<string> {
    set e | e in entries :: KeyOf(kind, e)
  }

  /** One pass over a stream: the keyed entries by key, and the unkeyed ones. */
  method Group(entries: seq<Entry>, kind: KeyKind) returns (groups: map<string, seq<Entry>>, unkeyed: seq<Entry>)
    ensures groups.Keys == KeySet(entries, kind) - {[]}
    ensures forall k | k in groups :: groups[k] == Among(entries, kind, {k})
    ensures unkeyed == Among(entries, kind, {[]})
  {
    hide KeyOf, KeySet, Among;
    groups, unkeyed := map[], [];
    GroupNothing(kind);
    for i := 0 to |entries|
      invariant groups.Keys == KeySet(entries[..i], kind) - {[]}
      invariant forall k | k in groups :: groups[k] == Among(entries[..i], kind, {k})
      invariant unkeyed == Among(entries[..i], kind, {[]})
    {
      var e := entries[i];
      var k := KeyOf(kind, e);
      GroupStep(entries, kind, i);
      if k == [] {
        unkeyed := unkeyed + [e];
      } else {
        groups := groups[k := (if k in groups then groups[k] else []) + [e]];
      }
    }
    assert entries[..|entries|] == entries;
  }

  lemma GroupNothing(kind: KeyKind)
    ensures KeySet([], kind) == {} && forall k :: Among([], kind, {k}) == []
  {
  }

  lemma GroupStep(entries: seq<Entry>, kind: KeyKind, i: nat)
    requires i < |entries|
    ensures var now, next, e := entries[..i], entries[..i + 1], entries[i];
            && KeySet(next, kind) == KeySet(now, kind) + {KeyOf(kind, e)}
            && (forall k :: Among(next, kind, {k}) == Among(now, kind, {k}) + (if KeyOf(kind, e) == k then [e] else []))
            && (KeyOf(kind, e) !in KeySet(now, kind) ==> Among(now, kind, {KeyOf(kind, e)}) == [])
  {
    hide KeyOf;
    var now, next, e := entries[..i], entries[..i + 1], entries[i];
    assert next == now + [e] && next[..i] == now;
    if KeyOf(kind, e) !in KeySet(now, kind) {
      AmongNone(now, kind, KeyOf(kind, e));
    }
    assert forall x :: x in next <==> x in now || x == e;
  }

  lemma {:induction false} AmongNone(entries: seq<Entry>, kind: KeyKind, k: string)
    requires k !in KeySet(entries, kind)
    ensures Among(entries, kind, {k}) == []
  {
    hide KeyOf;
    if entries != [] {
      var n := |entries| - 1;
      assert entries[n] in entries && forall x | x in entries[..n] :: x in entries;
      AmongNone(entries[..n], kind, k);
    }
  }

  // Pairing ------------------------------------------------------------------------------------

  function Lefts(pairs: seq<Pair>): (r: seq<Entry>)
    ensures |r| == |pairs| && forall i | 0 <= i < |r| :: r[i] == pairs[i].left
  {
    seq(|pairs|, i requires 0 <= i < |pairs| => pairs[i].left)
  }

  function Rights(pairs: seq<Pair>): (r: seq<Entry>)
    ensures |r| == |pairs| && forall i | 0 <= i < |r| :: r[i] == pairs[i].right
  {
    seq(|pairs|, i requires 0 <= i < |pairs| => pairs[i].right)
  }

  function Zip(l: seq<Entry>, r: seq<Entry>): (pairs: seq<Pair>)
    ensures |pairs| == if |l| < |r| then |l| else |r|
    ensures forall i | 0 <= i < |pairs| :: pairs[i] == Pair(l[i], r[i])
  {
    var n := if |l| < |r| then |l| else |r|;
    seq(n, i requires 0 <= i < n => Pair(l[i], r[i]))
  }

  /** Pairs and leftovers are exactly the entries whose keys have been dealt with. */
  predicate Accounts(left: seq<Entry>, kind: KeyKind, keys: set<string>, paired: seq<Entry>, over: seq<Entry>) {
    multiset(paired) + multiset(over) == multiset(Among(left, kind, keys))
  }

  predicate KeysAgree(kind: KeyKind, pairs: seq<Pair>) {
    forall i | 0 <= i < |pairs| :: KeyOf(kind, pairs[i].left) == KeyOf(kind, pairs[i].right) != []
  }

  /** No entry left over on one side could have been paired with one left over on the other. */
  predicate NoneMissed(kind: KeyKind, leftOver: seq<Entry>, rightOver: seq<Entry>) {
    forall a, b | a in leftOver && b in rightOver && KeyOf(kind, a) == KeyOf(kind, b) :: KeyOf(kind, a) == []
  }

  /** Within a key the smallest entries are paired first, by canonical arguments and then by position. */
  predicate SmallestFirst(kind: KeyKind, paired: seq<Entry>, over: seq<Entry>) {
    forall a, b | a in paired && b in over && KeyOf(kind, a) == KeyOf(kind, b) :: !Less(ByCanonical, b, a)
  }

  lemma AccountsStep(entries: seq<Entry>, kind: KeyKind, keys: set<string>, k: string, paired: seq<Entry>,
                     over: seq<Entry>, group: seq<Entry>, n: nat)
    requires Accounts(entries, kind, keys, paired, over) && k !in keys
    requires multiset(group) == multiset(Among(entries, kind, {k})) && n <= |group|
    ensures Accounts(entries, kind, keys + {k}, paired + group[..n], over + group[n..])
  {
    hide KeyOf;
    AmongUnion(entries, kind, keys, k);
    assert group == group[..n] + group[n..];
  }

  lemma OverKeys(entries: seq<Entry>, kind: KeyKind, keys: set<string>, paired: seq<Entry>, over: seq<Entry>, e: Entry)
    requires Accounts(entries, kind, keys, paired, over) && (e in over || e in paired)
    ensures KeyOf(kind, e) in keys && e in entries
  {
    hide KeyOf;
    assert e in multiset(paired) + multiset(over);
    assert e in multiset(Among(entries, kind, keys));
    AmongMember(entries, kind, keys, e);
  }

  lemma GroupKeys(entries: seq<Entry>, kind: KeyKind, k: string, group: seq<Entry>, e: Entry)
    requires multiset(group) == multiset(Among(entries, kind, {k})) && e in group
    ensures KeyOf(kind, e) == k
  {
    hide KeyOf;
    assert e in multiset(group);
    AmongMember(entries, kind, {k}, e);
  }

  lemma NoneMissedStep(left: seq<Entry>, right: seq<Entry>, kind: KeyKind, keys: set<string>, k: string,
                       pairs: seq<Pair>, leftOver: seq<Entry>, rightOver: seq<Entry>, l: seq<Entry>, r: seq<Entry>)
    requires Accounts(left, kind, keys, Lefts(pairs), leftOver) && Accounts(right, kind, keys, Rights(pairs), rightOver)
    requires NoneMissed(kind, leftOver, rightOver) && k !in keys
    requires multiset(l) == multiset(Among(left, kind, {k})) && multiset(r) == multiset(Among(right, kind, {k}))
    ensures var n := |Zip(l, r)|; NoneMissed(kind, leftOver + l[n..], rightOver + r[n..])
  {
    hide KeyOf, Accounts, Among;
    var n := |Zip(l, r)|;
    forall a, b | a in leftOver + l[n..] && b in rightOver + r[n..] && KeyOf(kind, a) == KeyOf(kind, b)
      ensures KeyOf(kind, a) == []
    {
      if a in leftOver {
        OverKeys(left, kind, keys, Lefts(pairs), leftOver, a);
      } else {
        GroupKeys(left, kind, k, l, a);
      }
      if b in rightOver {
        OverKeys(right, kind, keys, Rights(pairs), rightOver, b);
      } else {
        GroupKeys(right, kind, k, r, b);
      }
    }
  }

  lemma SmallestFirstStep(entries: seq<Entry>, kind: KeyKind, keys: set<string>, k: string, paired: seq<Entry>,
                          over: seq<Entry>, group: seq<Entry>, n: nat)
    requires Accounts(entries, kind, keys, paired, over) && SmallestFirst(kind, paired, over) && k !in keys
    requires multiset(group) == multiset(Among(entries, kind, {k})) && Sorted(ByCanonical, group) && n <= |group|
    ensures SmallestFirst(kind, paired + group[..n], over + group[n..])
  {
    hide KeyOf, Accounts, Among, Less;
    forall a, b | a in paired + group[..n] && b in over + group[n..] && KeyOf(kind, a) == KeyOf(kind, b)
      ensures !Less(ByCanonical, b, a)
    {
      if a in paired {
        OverKeys(entries, kind, keys, paired, over, a);
      } else {
        GroupKeys(entries, kind, k, group, a);
      }
      if b in over {
        OverKeys(entries, kind, keys, paired, over, b);
      } else {
        GroupKeys(entries, kind, k, group, b);
      }
      if a !in paired && b !in over {
        var i :| 0 <= i < n && group[i] == a;
        var j :| n <= j < |group| && group[j] == b;
      }
    }
  }

  lemma KeysAgreeStep(left: seq<Entry>, right: seq<Entry>, kind: KeyKind, k: string, pairs: seq<Pair>, l: seq<Entry>,
                      r: seq<Entry>)
    requires KeysAgree(kind, pairs) && k != []
    requires multiset(l) == multiset(Among(left, kind, {k})) && multiset(r) == multiset(Among(right, kind, {k}))
    ensures KeysAgree(kind, pairs + Zip(l, r))
  {
    hide KeyOf, Among;
    var all := pairs + Zip(l, r);
    forall i | |pairs| <= i < |all|
      ensures KeyOf(kind, all[i].left) == KeyOf(kind, all[i].right) != []
    {
      GroupKeys(left, kind, k, l, all[i].left);
      GroupKeys(right, kind, k, r, all[i].right);
    }
  }

  /** Everything a pairing promises. */
  ghost predicate Pairing(left: seq<Entry>, right: seq<Entry>, kind: KeyKind, pairs: seq<Pair>, leftOver: seq<Entry>,
                          rightOver: seq<Entry>) {
    && multiset(Lefts(pairs)) + multiset(leftOver) == multiset(left)
    && multiset(Rights(pairs)) + multiset(rightOver) == multiset(right)
    && KeysAgree(kind, pairs) && NoneMissed(kind, leftOver, rightOver)
    && SmallestFirst(kind, Lefts(pairs), leftOver) && SmallestFirst(kind, Rights(pairs), rightOver)
  }

  /** What holds after the groups of some keys have been dealt with. */
  ghost predicate Progress(left: seq<Entry>, right: seq<Entry>, kind: KeyKind, keys: set<string>,
                           pairs: seq<Pair>, leftOver: seq<Entry>, rightOver: seq<Entry>) {
    && Accounts(left, kind, keys, Lefts(pairs), leftOver) && Accounts(right, kind, keys, Rights(pairs), rightOver)
    && KeysAgree(kind, pairs) && NoneMissed(kind, leftOver, rightOver)
    && SmallestFirst(kind, Lefts(pairs), leftOver) && SmallestFirst(kind, Rights(pairs), rightOver)
  }

  lemma ProgressStep(left: seq<Entry>, right: seq<Entry>, kind: KeyKind, keys: set<string>, k: string,
                     pairs: seq<Pair>, leftOver: seq<Entry>, rightOver: seq<Entry>, l: seq<Entry>, r: seq<Entry>)
    requires Progress(left, right, kind, keys, pairs, leftOver, rightOver) && k !in keys && k != []
    requires multiset(l) == multiset(Among(left, kind, {k})) && multiset(r) == multiset(Among(right, kind, {k}))
    requires Sorted(ByCanonical, l) && Sorted(ByCanonical, r)
    ensures var n := |Zip(l, r)|;
            Progress(left, right, kind, keys + {k}, pairs + Zip(l, r), leftOver + l[n..], rightOver + r[n..])
  {
    hide KeyOf, Accounts, KeysAgree, NoneMissed, SmallestFirst, Sorted, Among;
    var n := |Zip(l, r)|;
    assert Lefts(pairs + Zip(l, r)) == Lefts(pairs) + l[..n];
    assert Rights(pairs + Zip(l, r)) == Rights(pairs) + r[..n];
    AccountsStep(left, kind, keys, k, Lefts(pairs), leftOver, l, n);
    AccountsStep(right, kind, keys, k, Rights(pairs), rightOver, r, n);
    KeysAgreeStep(left, right, kind, k, pairs, l, r);
    NoneMissedStep(left, right, kind, keys, k, pairs, leftOver, rightOver, l, r);
    SmallestFirstStep(left, kind, keys, k, Lefts(pairs), leftOver, l, n);
    SmallestFirstStep(right, kind, keys, k, Rights(pairs), rightOver, r, n);
  }

  lemma ProgressStart(left: seq<Entry>, right: seq<Entry>, kind: KeyKind)
    ensures Progress(left, right, kind, {[]}, [], Among(left, kind, {[]}), Among(right, kind, {[]}))
  {
    hide KeyOf, Among;
    forall a | a in Among(left, kind, {[]})
      ensures KeyOf(kind, a) == []
    {
      AmongMember(left, kind, {[]}, a);
    }
  }

  /** With every key dealt with, nothing is missing, in whatever order the leftovers stand. */
  lemma ProgressEnd(left: seq<Entry>, right: seq<Entry>, kind: KeyKind, keys: set<string>, pairs: seq<Pair>,
                    leftOver: seq<Entry>, rightOver: seq<Entry>, leftSorted: seq<Entry>, rightSorted: seq<Entry>)
    requires Progress(left, right, kind, keys, pairs, leftOver, rightOver)
    requires KeySet(left, kind) <= keys && KeySet(right, kind) <= keys
    requires multiset(leftSorted) == multiset(leftOver) && multiset(rightSorted) == multiset(rightOver)
    ensures Pairing(left, right, kind, pairs, leftSorted, rightSorted)
  {
    hide KeyOf, Less, Among, KeySet, NoneMissed, SmallestFirst, KeysAgree;
    AmongAll(left, kind, keys) by { KeysCover(left, kind, keys); }
    AmongAll(right, kind, keys) by { KeysCover(right, kind, keys); }
    OrderIsIrrelevant(kind, pairs, leftOver, rightOver, leftSorted, rightSorted);
  }

  lemma OrderIsIrrelevant(kind: KeyKind, pairs: seq<Pair>, leftOver: seq<Entry>, rightOver: seq<Entry>,
                          leftSorted: seq<Entry>, rightSorted: seq<Entry>)
    requires NoneMissed(kind, leftOver, rightOver)
    requires SmallestFirst(kind, Lefts(pairs), leftOver) && SmallestFirst(kind, Rights(pairs), rightOver)
    requires multiset(leftSorted) == multiset(leftOver) && multiset(rightSorted) == multiset(rightOver)
    ensures NoneMissed(kind, leftSorted, rightSorted)
    ensures SmallestFirst(kind, Lefts(pairs), leftSorted) && SmallestFirst(kind, Rights(pairs), rightSorted)
  {
    hide KeyOf, Less;
    SameMembers(leftOver, leftSorted);
    SameMembers(rightOver, rightSorted);
  }

  lemma SameMembers(a: seq<Entry>, b: seq<Entry>)
    requires multiset(a) == multiset(b)
    ensures forall e :: e in a <==> e in b
  {
    forall e
      ensures e in a <==> e in b
    {
      assert e in a <==> e in multiset(a);
      assert e in b <==> e in multiset(b);
    }
  }

  lemma KeysCover(entries: seq<Entry>, kind: KeyKind, keys: set<string>)
    requires KeySet(entries, kind) <= keys
    ensures forall i | 0 <= i < |entries| :: KeyOf(kind, entries[i]) in keys
  {
    hide KeyOf;
    forall i | 0 <= i < |entries|
      ensures KeyOf(kind, entries[i]) in keys
    {
      assert entries[i] in entries && KeyOf(kind, entries[i]) in KeySet(entries, kind);
    }
  }

  function NamesBefore(names: seq<string>, i: nat): set<string>
    requires i <= |names|
  {
    set k | k in names[..i]
  }

  lemma NextName(names: seq<string>, i: nat)
    requires Ascending(names) && i < |names|
    ensures names[i] !in NamesBefore(names, i) && NamesBefore(names, i + 1) == NamesBefore(names, i) + {names[i]}
  {
    BeforeIsIrreflexive(names[i]);
    assert names[..i + 1] == names[..i] + [names[i]];
  }

  lemma GroupFound(entries: seq<Entry>, kind: KeyKind, groups: map<string, seq<Entry>>, k: string)
    requires groups.Keys == KeySet(entries, kind) - {[]} && k != []
    requires forall q | q in groups :: groups[q] == Among(entries, kind, {q})
    ensures (if k in groups then groups[k] else []) == Among(entries, kind, {k})
  {
    hide KeyOf;
    if k !in groups {
      AmongNone(entries, kind, k);
    }
  }

  /** Deals with one key: both groups are sorted and matched, the longer one's rest is left over. */
  method PairGroup(left: seq<Entry>, right: seq<Entry>, kind: KeyKind, ghost keys: set<string>, ghost k: string,
                   l0: seq<Entry>, r0: seq<Entry>,
                   pairs: seq<Pair>, leftOver: seq<Entry>, rightOver: seq<Entry>)
    returns (p: seq<Pair>, lo: seq<Entry>, ro: seq<Entry>)
    requires Progress(left, right, kind, keys, pairs, leftOver, rightOver) && k !in keys && k != []
    requires l0 == Among(left, kind, {k}) && r0 == Among(right, kind, {k})
    ensures Progress(left, right, kind, keys + {k}, p, lo, ro)
  {
    hide KeyOf, Among, Progress, Sorted;
    var l, r := Sort(ByCanonical, l0), Sort(ByCanonical, r0);
    SortSorts(ByCanonical, l0);
    SortSorts(ByCanonical, r0);
    ProgressStep(left, right, kind, keys, k, pairs, leftOver, rightOver, l, r);
    var more := Zip(l, r);
    p, lo, ro := pairs + more, leftOver + l[|more|..], rightOver + r[|more|..];
  }

  /** Pairs both streams key by key; each key's members are matched smallest first. */
  method PairOn(left: seq<Entry>, right: seq<Entry>, kind: KeyKind)
    returns (pairs: seq<Pair>, leftOver: seq<Entry>, rightOver: seq<Entry>)
    ensures Pairing(left, right, kind, pairs, leftOver, rightOver)
    ensures Sorted(ByOperation, leftOver) && Sorted(ByOperation, rightOver)
  {
    hide KeyOf, Among, KeySet, Progress, Sorted, Pairing, NamesBefore, Sort;
    var leftGroups, leftUnkeyed := Group(left, kind);
    var rightGroups, rightUnkeyed := Group(right, kind);
    var names := SortedNames(leftGroups.Keys + rightGroups.Keys);
    ghost var done := {[]};
    pairs, leftOver, rightOver := [], leftUnkeyed, rightUnkeyed;
    ProgressStart(left, right, kind);
    FirstNames(names);
    for i := 0 to |names|
      invariant Progress(left, right, kind, done, pairs, leftOver, rightOver)
      invariant done == NamesBefore(names, i) + {[]}
    {
      var k := names[i];
      NextName(names, i);
      assert k in leftGroups.Keys + rightGroups.Keys;
      GroupFound(left, kind, leftGroups, k);
      GroupFound(right, kind, rightGroups, k);
      var l := if k in leftGroups then leftGroups[k] else [];
      var r := if k in rightGroups then rightGroups[k] else [];
      pairs, leftOver, rightOver := PairGroup(left, right, kind, done, k, l, r, pairs, leftOver, rightOver);
      done := done + {k};
    }
    AllNames(names);
    var leftSorted, rightSorted := Sort(ByOperation, leftOver), Sort(ByOperation, rightOver);
    SortSorts(ByOperation, leftOver);
    SortSorts(ByOperation, rightOver);
    ProgressEnd(left, right, kind, done, pairs, leftOver, rightOver, leftSorted, rightSorted);
    leftOver, rightOver := leftSorted, rightSorted;
  }

  lemma FirstNames(names: seq<string>)
    ensures NamesBefore(names, 0) == {}
  {
  }

  lemma AllNames(names: seq<string>)
    ensures forall k :: k in NamesBefore(names, |names|) <==> k in names
  {
    assert names[..|names|] == names;
  }

  // Diverging fields ------------------------------------------------------------------------------

  datatype FieldDivergence = FieldDivergence(field: string, proposed: Option<Value>, observed: Option<Value>)

  function Lookup(args: Sent, name: string): Option<Value> {
    if name in args then Some(args[name]) else None
  }

  /** Both sides miss a field, or both sent it with the same encoding. */
  predicate Same(a: Option<Value>, b: Option<Value>) {
    a.Some? == b.Some? && (a.Some? ==> a.value.text == b.value.text)
  }

  /** A report on a field both sides show differently, missing counting as different. */
  predicate Differs(proposed: Sent, observed: Sent, f: FieldDivergence) {
    f == FieldDivergence(f.field, Lookup(proposed, f.field), Lookup(observed, f.field)) && !Same(f.proposed, f.observed)
  }

  predicate Mentions(out: seq<FieldDivergence>, name: string) {
    exists i :: 0 <= i < |out| && out[i].field == name
  }

  /** A divergence is reported for a field exactly when the two sides differ on it, in field order. */
  predicate Reports(proposed: Sent, observed: Sent, out: seq<FieldDivergence>) {
    && (forall i, j | 0 <= i < j < |out| :: Before(out[i].field, out[j].field))
    && (forall i | 0 <= i < |out| :: Differs(proposed, observed, out[i]))
    && (forall name | name in proposed.Keys + observed.Keys && !Same(Lookup(proposed, name), Lookup(observed, name)) ::
          Mentions(out, name))
  }

  predicate NamedBefore(names: seq<string>, i: nat, name: string)
    requires i <= |names|
  {
    exists j :: 0 <= j < i && names[j] == name
  }

  /** The reports so far: in order, true, and on the first `i` names only. */
  predicate TrueUpTo(proposed: Sent, observed: Sent, names: seq<string>, i: nat, out: seq<FieldDivergence>)
    requires i <= |names|
  {
    && (forall a, b | 0 <= a < b < |out| :: Before(out[a].field, out[b].field))
    && (forall a | 0 <= a < |out| :: Differs(proposed, observed, out[a]) && NamedBefore(names, i, out[a].field))
  }

  predicate CompleteUpTo(proposed: Sent, observed: Sent, names: seq<string>, i: nat, out: seq<FieldDivergence>)
    requires i <= |names|
  {
    forall j | 0 <= j < i && !Same(Lookup(proposed, names[j]), Lookup(observed, names[j])) :: Mentions(out, names[j])
  }

  /** The report on the first `i` of the sorted names. */
  predicate ReportsUpTo(proposed: Sent, observed: Sent, names: seq<string>, i: nat, out: seq<FieldDivergence>)
    requires i <= |names|
  {
    TrueUpTo(proposed, observed, names, i, out) && CompleteUpTo(proposed, observed, names, i, out)
  }

  lemma NamedStays(names: seq<string>, i: nat, name: string)
    requires i < |names| && NamedBefore(names, i, name)
    ensures NamedBefore(names, i + 1, name) && (Ascending(names) ==> Before(name, names[i]))
  {
    var j :| 0 <= j < i && names[j] == name;
  }

  lemma NamedNow(names: seq<string>, i: nat)
    requires i < |names|
    ensures NamedBefore(names, i + 1, names[i])
  {
  }

  lemma TrueStep(proposed: Sent, observed: Sent, names: seq<string>, i: nat, out: seq<FieldDivergence>,
                 f: FieldDivergence)
    requires Ascending(names) && i < |names| && TrueUpTo(proposed, observed, names, i, out)
    requires f.field == names[i] && Differs(proposed, observed, f)
    ensures TrueUpTo(proposed, observed, names, i + 1, out) && TrueUpTo(proposed, observed, names, i + 1, out + [f])
  {
    hide Before, Differs, NamedBefore;
    NamedNow(names, i);
    forall a | 0 <= a < |out|
      ensures NamedBefore(names, i + 1, out[a].field) && Before(out[a].field, f.field)
    {
      NamedStays(names, i, out[a].field);
    }
  }

  lemma TrueStays(proposed: Sent, observed: Sent, names: seq<string>, i: nat, out: seq<FieldDivergence>)
    requires i < |names| && TrueUpTo(proposed, observed, names, i, out)
    ensures TrueUpTo(proposed, observed, names, i + 1, out)
  {
    hide Before, Differs, NamedBefore;
    forall a | 0 <= a < |out|
      ensures NamedBefore(names, i + 1, out[a].field)
    {
      NamedStays(names, i, out[a].field);
    }
  }

  lemma CompleteStep(proposed: Sent, observed: Sent, names: seq<string>, i: nat, out: seq<FieldDivergence>,
                     f: FieldDivergence)
    requires i < |names| && CompleteUpTo(proposed, observed, names, i, out) && f.field == names[i]
    ensures CompleteUpTo(proposed, observed, names, i + 1, out + [f])
    ensures Same(Lookup(proposed, names[i]), Lookup(observed, names[i]))
            ==> CompleteUpTo(proposed, observed, names, i + 1, out)
  {
    hide Lookup, Mentions;
    forall j | 0 <= j <= i && !Same(Lookup(proposed, names[j]), Lookup(observed, names[j]))
      ensures Mentions(out + [f], names[j])
    {
      MentionsMore(out, f, names[j]);
    }
  }

  lemma ReportStep(proposed: Sent, observed: Sent, names: seq<string>, i: nat, out: seq<FieldDivergence>)
    requires Ascending(names) && i < |names| && ReportsUpTo(proposed, observed, names, i, out)
    ensures var f := FieldDivergence(names[i], Lookup(proposed, names[i]), Lookup(observed, names[i]));
            ReportsUpTo(proposed, observed, names, i + 1, if !Same(f.proposed, f.observed) then out + [f] else out)
  {
    hide Lookup, TrueUpTo, CompleteUpTo, Ascending;
    var f := FieldDivergence(names[i], Lookup(proposed, names[i]), Lookup(observed, names[i]));
    CompleteStep(proposed, observed, names, i, out, f);
    if !Same(f.proposed, f.observed) {
      NewDivergence(proposed, observed, f);
      TrueStep(proposed, observed, names, i, out, f);
    } else {
      TrueStays(proposed, observed, names, i, out);
    }
  }

  lemma NewDivergence(proposed: Sent, observed: Sent, f: FieldDivergence)
    requires f.proposed == Lookup(proposed, f.field) && f.observed == Lookup(observed, f.field)
             && !Same(f.proposed, f.observed)
    ensures Differs(proposed, observed, f)
  {
  }

  lemma MentionsMore(out: seq<FieldDivergence>, f: FieldDivergence, name: string)
    requires Mentions(out, name) || f.field == name
    ensures Mentions(out + [f], name)
  {
    var next := out + [f];
    if f.field == name {
      assert next[|out|].field == name;
    } else {
      var k :| 0 <= k < |out| && out[k].field == name;
      assert next[k].field == name;
    }
  }

  lemma ReportEnd(proposed: Sent, observed: Sent, names: seq<string>, out: seq<FieldDivergence>)
    requires ReportsUpTo(proposed, observed, names, |names|, out)
    requires forall name :: name in names <==> name in proposed.Keys + observed.Keys
    ensures Reports(proposed, observed, out) && (out == [] <==> Encoded(proposed) == Encoded(observed))
  {
    hide Before;
    forall name | name in proposed.Keys + observed.Keys && !Same(Lookup(proposed, name), Lookup(observed, name))
      ensures Mentions(out, name)
    {
      var j :| 0 <= j < |names| && names[j] == name;
    }
    SameWhenSilent(proposed, observed);
    if out == [] {
      assert forall name :: !Mentions(out, name);
    } else {
      assert Differs(proposed, observed, out[0]);
    }
  }

  method DivergingFields(proposed: Sent, observed: Sent) returns (out: seq<FieldDivergence>)
    ensures Reports(proposed, observed, out)
    ensures out == [] <==> Encoded(proposed) == Encoded(observed)
  {
    hide Reports, ReportsUpTo;
    var names := SortedNames(proposed.Keys + observed.Keys);
    out := [];
    NothingReported(proposed, observed, names);
    for i := 0 to |names|
      invariant ReportsUpTo(proposed, observed, names, i, out)
    {
      var name := names[i];
      ReportStep(proposed, observed, names, i, out);
      assert name in proposed.Keys + observed.Keys;
      if name in proposed && name in observed && proposed[name].text == observed[name].text {
        continue;
      }
      out := out + [FieldDivergence(name, Lookup(proposed, name), Lookup(observed, name))];
    }
    ReportEnd(proposed, observed, names, out);
  }

  lemma NothingReported(proposed: Sent, observed: Sent, names: seq<string>)
    ensures ReportsUpTo(proposed, observed, names, 0, [])
  {
  }

  lemma SameWhenSilent(proposed: Sent, observed: Sent)
    ensures (forall name | name in proposed.Keys + observed.Keys ::
               Same(Lookup(proposed, name), Lookup(observed, name)))
            <==> Encoded(proposed) == Encoded(observed)
  {
    if forall name | name in proposed.Keys + observed.Keys :: Same(Lookup(proposed, name), Lookup(observed, name)) {
      forall name
        ensures name in proposed <==> name in observed
        ensures name in proposed && name in observed ==> proposed[name].text == observed[name].text
      {
        assert name in proposed || name in observed ==> name in proposed.Keys + observed.Keys;
      }
      assert Encoded(proposed) == Encoded(observed);
    } else {
      var name :| name in proposed.Keys + observed.Keys && !Same(Lookup(proposed, name), Lookup(observed, name));
      assert name in Encoded(proposed) <==> name in proposed;
    }
  }

  // Order ---------------------------------------------------------------------------------------------

  /** Two paired actions the streams sequence differently. */
  datatype Inversion = Inversion(first: Pair, second: Pair)

  predicate Inverted(p: Pair, q: Pair) {
    p.left.index < q.left.index && q.right.index < p.right.index
  }

  predicate DistinctLefts(pairs: seq<Pair>) {
    forall i, j | 0 <= i < j < |pairs| :: pairs[i].left.index != pairs[j].left.index
  }

  function InsertPair(p: Pair, s: seq<Pair>): (r: seq<Pair>)
    ensures multiset(r) == multiset(s) + multiset{p}
  {
    if s == [] then [p]
    else if p.left.index < s[0].left.index then [p] + s
    else
      assert s == [s[0]] + s[1..];
      [s[0]] + InsertPair(p, s[1..])
  }

  predicate Rising(s: seq<Pair>) {
    forall i, j | 0 <= i < j < |s| :: s[i].left.index < s[j].left.index
  }

  lemma {:induction false} InsertPairRises(p: Pair, s: seq<Pair>)
    requires Rising(s) && forall i | 0 <= i < |s| :: s[i].left.index != p.left.index
    ensures Rising(InsertPair(p, s))
  {
    if s != [] && p.left.index >= s[0].left.index {
      InsertPairRises(p, s[1..]);
      var rest := InsertPair(p, s[1..]);
      forall k | 0 <= k < |rest|
        ensures s[0].left.index < rest[k].left.index
      {
        assert rest[k] in multiset(rest);
        if rest[k] != p {
          assert rest[k] in s[1..];
        }
      }
    }
  }

  method SortPairs(pairs: seq<Pair>) returns (r: seq<Pair>)
    requires DistinctLefts(pairs)
    ensures multiset(r) == multiset(pairs) && Rising(r)
  {
    hide Rising;
    r := [];
    assert Rising(r) by { RisingNothing(); }
    for i := 0 to |pairs|
      invariant multiset(r) == multiset(pairs[..i]) && Rising(r)
    {
      assert pairs[..i + 1] == pairs[..i] + [pairs[i]];
      NewIndex(pairs, i, r);
      InsertPairRises(pairs[i], r);
      r := InsertPair(pairs[i], r);
    }
    assert pairs[..|pairs|] == pairs;
  }

  lemma RisingNothing()
    ensures Rising([])
  {
  }

  lemma NewIndex(pairs: seq<Pair>, i: nat, r: seq<Pair>)
    requires DistinctLefts(pairs) && i < |pairs| && multiset(r) == multiset(pairs[..i])
    ensures forall a | 0 <= a < |r| :: r[a].left.index != pairs[i].left.index
  {
    forall a | 0 <= a < |r|
      ensures r[a].left.index != pairs[i].left.index
    {
      assert r[a] in multiset(r);
      assert r[a] in pairs[..i];
    }
  }

  /** The reported divergences are exactly the inversions between the two streams, each once. */
  ghost predicate ExactlyInversions(pairs: seq<Pair>, found: seq<Inversion>) {
    && (forall p, q :: Inversion(p, q) in found <==> p in pairs && q in pairs && Inverted(p, q))
    && (forall i, j | 0 <= i < j < |found| :: found[i] != found[j])
  }

  /** Found so far: every inversion whose first member stands before position `i`, and those of `i` before `j`. */
  predicate Seen(i: nat, j: nat, a: nat, b: nat) {
    a < i || (a == i && b < j)
  }

  ghost predicate IsFound(ordered: seq<Pair>, i: nat, j: nat, v: Inversion) {
    exists a: nat, b: nat ::
      a < b < |ordered| && Seen(i, j, a, b) && v == Inversion(ordered[a], ordered[b])
          && Inverted(ordered[a], ordered[b])
  }

  ghost predicate FoundUpTo(ordered: seq<Pair>, i: nat, j: nat, found: seq<Inversion>) {
    && (forall a: nat, b: nat | a < b < |ordered| && Seen(i, j, a, b) && Inverted(ordered[a], ordered[b]) ::
          Inversion(ordered[a], ordered[b]) in found)
    && (forall v | v in found :: IsFound(ordered, i, j, v))
    && (forall x, y | 0 <= x < y < |found| :: found[x] != found[y])
  }

  lemma FoundStep(ordered: seq<Pair>, i: nat, j: nat, found: seq<Inversion>)
    requires Rising(ordered) && i < j < |ordered| && FoundUpTo(ordered, i, j, found)
    ensures FoundUpTo(ordered, i, j + 1,
              if Inverted(ordered[i], ordered[j]) then found + [Inversion(ordered[i], ordered[j])] else found)
  {
    hide IsFound, Inverted;
    var v := Inversion(ordered[i], ordered[j]);
    forall w | IsFound(ordered, i, j, w)
      ensures IsFound(ordered, i, j + 1, w) && w != v
    {
      FoundStays(ordered, i, j, w);
    }
    assert forall a: nat, b: nat :: Seen(i, j + 1, a, b) <==> Seen(i, j, a, b) || (a == i && b == j);
    if Inverted(ordered[i], ordered[j]) {
      FoundNow(ordered, i, j);
      var next := found + [v];
      assert v !in found && next[|found|] == v;
      assert forall w :: w in next <==> w in found || w == v;
    }
  }

  lemma FoundStays(ordered: seq<Pair>, i: nat, j: nat, w: Inversion)
    requires Rising(ordered) && i < j < |ordered| && IsFound(ordered, i, j, w)
    ensures IsFound(ordered, i, j + 1, w) && w != Inversion(ordered[i], ordered[j])
  {
    hide Inverted;
    var a: nat, b: nat :| a < b < |ordered| && Seen(i, j, a, b) && w == Inversion(ordered[a], ordered[b])
        && Inverted(ordered[a], ordered[b]);
    assert Seen(i, j + 1, a, b);
  }

  lemma FoundNow(ordered: seq<Pair>, i: nat, j: nat)
    requires i < j < |ordered| && Inverted(ordered[i], ordered[j])
    ensures IsFound(ordered, i, j + 1, Inversion(ordered[i], ordered[j]))
  {
    hide Inverted;
    assert Seen(i, j + 1, i, j);
  }

  lemma FoundNextRow(ordered: seq<Pair>, i: nat, found: seq<Inversion>)
    requires i < |ordered| && FoundUpTo(ordered, i, |ordered|, found)
    ensures FoundUpTo(ordered, i + 1, 0, found)
  {
  }

  lemma FoundAll(pairs: seq<Pair>, ordered: seq<Pair>, found: seq<Inversion>)
    requires Rising(ordered) && multiset(ordered) == multiset(pairs) && FoundUpTo(ordered, |ordered|, 0, found)
    ensures ExactlyInversions(pairs, found)
  {
    hide FoundUpTo;
    forall p, q
      ensures Inversion(p, q) in found <==> p in pairs && q in pairs && Inverted(p, q)
    {
      SamePairs(pairs, ordered, p);
      SamePairs(pairs, ordered, q);
      FoundPair(ordered, found, p, q);
    }
    FoundOnce(ordered, found);
  }

  lemma FoundOnce(ordered: seq<Pair>, found: seq<Inversion>)
    requires FoundUpTo(ordered, |ordered|, 0, found)
    ensures forall i, j | 0 <= i < j < |found| :: found[i] != found[j]
  {
  }

  lemma SamePairs(pairs: seq<Pair>, ordered: seq<Pair>, p: Pair)
    requires multiset(ordered) == multiset(pairs)
    ensures p in pairs <==> p in ordered
  {
    assert p in pairs <==> p in multiset(pairs);
    assert p in ordered <==> p in multiset(ordered);
  }

  lemma FoundPair(ordered: seq<Pair>, found: seq<Inversion>, p: Pair, q: Pair)
    requires Rising(ordered) && FoundUpTo(ordered, |ordered|, 0, found)
    ensures Inversion(p, q) in found <==> p in ordered && q in ordered && Inverted(p, q)
  {
    if p in ordered && q in ordered && Inverted(p, q) {
      var a :| 0 <= a < |ordered| && ordered[a] == p;
      var b :| 0 <= b < |ordered| && ordered[b] == q;
      assert a < b;
    }
  }

  method TimingOf(pairs: seq<Pair>) returns (found: seq<Inversion>)
    requires DistinctLefts(pairs)
    ensures ExactlyInversions(pairs, found)
  {
    hide ExactlyInversions, FoundUpTo, Inverted;
    var ordered := SortPairs(pairs);
    found := [];
    NothingFound(ordered);
    for i := 0 to |ordered|
      invariant FoundUpTo(ordered, i, 0, found)
    {
      RowStart(ordered, i, found);
      for j := i + 1 to |ordered|
        invariant FoundUpTo(ordered, i, j, found)
      {
        FoundStep(ordered, i, j, found);
        if Inverted(ordered[i], ordered[j]) {
          found := found + [Inversion(ordered[i], ordered[j])];
        }
      }
      FoundNextRow(ordered, i, found);
    }
    FoundAll(pairs, ordered, found);
  }

  lemma NothingFound(ordered: seq<Pair>)
    ensures FoundUpTo(ordered, 0, 0, [])
  {
  }

  lemma RowStart(ordered: seq<Pair>, i: nat, found: seq<Inversion>)
    requires i < |ordered| && FoundUpTo(ordered, i, 0, found)
    ensures FoundUpTo(ordered, i, i + 1, found)
  {
  }

  // The whole comparison ---------------------------------------------------------------------------------

  datatype Action = Action(op: string, args: Sent)

  /** An argument names a resource when it is `id` or ends in `_id` and holds a string that is not blank. */
  predicate Identifies(name: string, value: Json) {
    && (name == ['i', 'd'] || (|name| >= 3 && name[|name| - 3..] == ['_', 'i', 'd']))
    && value.Str? && exists c | c in value.s :: !IsSpace(c)
  }

  function Joined(names: seq<string>, args: Sent): string
    requires forall name | name in names :: name in args && args[name].json.Str?
  {
    if names == [] then [] else
      var n := |names| - 1;
      var last := names[n] + ['='] + args[names[n]].json.s;
      if n == 0 then last else Joined(names[..n], args) + [','] + last
  }

  function ResourceOf(args: Sent): string {
    Joined(SortedNames(set name | name in args && Identifies(name, args[name].json)), args)
  }

  /** Entries are numbered by position and carry the canonical encoding of their arguments. */
  function EntryOf(encode: Texts -> string, a: Action, i: nat): Entry {
    Entry(a.op, ResourceOf(a.args), a.args, encode(Encoded(a.args)), i)
  }

  function Entries(encode: Texts -> string, actions: seq<Action>): (r: seq<Entry>)
    ensures |r| == |actions| && forall i | 0 <= i < |r| :: r[i] == EntryOf(encode, actions[i], i)
  {
    seq(|actions|, i requires 0 <= i < |actions| => EntryOf(encode, actions[i], i))
  }

  /** No action occurs twice as an entry: positions tell entries apart. */
  lemma EntriesAreDistinct(encode: Texts -> string, actions: seq<Action>, e: Entry)
    ensures multiset(Entries(encode, actions))[e] <= 1
  {
    var s := Entries(encode, actions);
    PositionsAreUnique(s, e);
  }

  lemma {:induction false} PositionsAreUnique(s: seq<Entry>, e: Entry)
    requires forall i | 0 <= i < |s| :: s[i].index == i
    ensures multiset(s)[e] <= 1
  {
    if s != [] {
      var n := |s| - 1;
      assert s == s[..n] + [s[n]];
      PositionsAreUnique(s[..n], e);
      if e == s[n] {
        assert e !in s[..n];
      }
    }
  }

  /** Entries drawn from a stream without repetition have distinct positions. */
  lemma DrawnAreDistinct(encode: Texts -> string, actions: seq<Action>, drawn: seq<Entry>)
    requires multiset(drawn) <= multiset(Entries(encode, actions))
    ensures forall i, j | 0 <= i < j < |drawn| :: drawn[i].index != drawn[j].index
  {
    var s := Entries(encode, actions);
    forall i, j | 0 <= i < j < |drawn|
      ensures drawn[i].index != drawn[j].index
    {
      assert drawn[i] in multiset(drawn) && drawn[j] in multiset(drawn);
      assert drawn[i] in s && drawn[j] in s;
      if drawn[i].index == drawn[j].index {
        assert drawn[i] == drawn[j];
        TwiceIsTwo(drawn, i, j);
        EntriesAreDistinct(encode, actions, drawn[i]);
      }
    }
  }

  lemma TwiceIsTwo(s: seq<Entry>, i: nat, j: nat)
    requires i < j < |s| && s[i] == s[j]
    ensures multiset(s)[s[i]] >= 2
  {
    assert s == s[..j] + [s[j]] + s[j + 1..];
    assert s[i] in s[..j];
  }

  /** Two leftovers of the identical pairing that meet on a resource disagree on an argument. */
  lemma LeftoversDiffer(encode: Texts -> string, left: seq<Entry>, right: seq<Entry>, pairs: seq<Pair>,
                        leftOver: seq<Entry>, rightOver: seq<Entry>,
                        a: Entry, b: Entry)
    requires Pairing(left, right, Identical, pairs, leftOver, rightOver)
    requires a in leftOver && b in rightOver && a.op == b.op
    requires a.canonical == encode(Encoded(a.args)) && b.canonical == encode(Encoded(b.args))
    ensures Encoded(a.args) != Encoded(b.args)
  {
    assert |KeyOf(Identical, a)| > 0;
    assert KeyOf(Identical, a) != KeyOf(Identical, b);
  }

  /** What a pairing takes from the left stream, and what it leaves. */
  lemma LeftMembers(left: seq<Entry>, right: seq<Entry>, kind: KeyKind, pairs: seq<Pair>, leftOver: seq<Entry>,
                    rightOver: seq<Entry>)
    requires Pairing(left, right, kind, pairs, leftOver, rightOver)
    ensures forall i | 0 <= i < |pairs| :: pairs[i].left in left && pairs[i].right in right
    ensures forall e | e in leftOver :: e in left
    ensures forall e | e in rightOver :: e in right
  {
    forall i | 0 <= i < |pairs|
      ensures pairs[i].left in left && pairs[i].right in right
    {
      assert Lefts(pairs)[i] in multiset(Lefts(pairs)) && Rights(pairs)[i] in multiset(Rights(pairs));
      assert pairs[i].left in multiset(left) && pairs[i].right in multiset(right);
    }
    forall e | e in leftOver
      ensures e in left
    {
      assert e in multiset(leftOver) && e in multiset(left);
    }
    forall e | e in rightOver
      ensures e in right
    {
      assert e in multiset(rightOver) && e in multiset(right);
    }
  }

  lemma Totals(left: seq<Entry>, right: seq<Entry>, identical: seq<Pair>, leftRest: seq<Entry>, rightRest: seq<Entry>,
               diverged: seq<Pair>, onlyProposed: seq<Entry>, onlyObserved: seq<Entry>)
    requires Pairing(left, right, Identical, identical, leftRest, rightRest)
    requires Pairing(leftRest, rightRest, SameResource, diverged, onlyProposed, onlyObserved)
    ensures multiset(Lefts(identical)) + multiset(Lefts(diverged)) + multiset(onlyProposed) == multiset(left)
    ensures multiset(Rights(identical)) + multiset(Rights(diverged)) + multiset(onlyObserved) == multiset(right)
  {
    hide KeysAgree, NoneMissed, SmallestFirst;
  }

  lemma PairsAreDrawn(encode: Texts -> string, proposed: seq<Action>, identical: seq<Pair>, diverged: seq<Pair>,
                      rest: seq<Entry>)
    requires multiset(Lefts(identical)) + multiset(Lefts(diverged)) + multiset(rest)
             == multiset(Entries(encode, proposed))
    ensures DistinctLefts(identical + diverged)
  {
    hide Lefts, Entries;
    var pairs := identical + diverged;
    assert Lefts(pairs) == Lefts(identical) + Lefts(diverged);
    DrawnAreDistinct(encode, proposed, Lefts(pairs));
    assert forall i | 0 <= i < |pairs| :: Lefts(pairs)[i] == pairs[i].left;
  }

  predicate FromStream(encode: Texts -> string, e: Entry) {
    NUL !in e.op && e.canonical == encode(Encoded(e.args))
  }

  lemma EntriesAreFromStream(encode: Texts -> string, actions: seq<Action>)
    requires forall i | 0 <= i < |actions| :: NUL !in actions[i].op
    ensures forall e | e in Entries(encode, actions) :: FromStream(encode, e)
  {
    hide Entries, ResourceOf;
  }

  lemma MatchedAgree(encode: Texts -> string, left: seq<Entry>, right: seq<Entry>, pairs: seq<Pair>,
                     leftOver: seq<Entry>, rightOver: seq<Entry>)
    requires forall e | e in left :: FromStream(encode, e)
    requires forall e | e in right :: FromStream(encode, e)
    requires Pairing(left, right, Identical, pairs, leftOver, rightOver)
    ensures forall i | 0 <= i < |pairs| ::
              pairs[i].left.op == pairs[i].right.op
                  && encode(Encoded(pairs[i].left.args)) == encode(Encoded(pairs[i].right.args))
  {
    hide NoneMissed, SmallestFirst;
    LeftMembers(left, right, Identical, pairs, leftOver, rightOver);
    forall i | 0 <= i < |pairs|
      ensures pairs[i].left.op == pairs[i].right.op
              && encode(Encoded(pairs[i].left.args)) == encode(Encoded(pairs[i].right.args))
    {
      var a, b := pairs[i].left, pairs[i].right;
      JoinIsExact(a.op, b.op, a.canonical, b.canonical);
    }
  }

  lemma DivergedAgree(encode: Texts -> string, left: seq<Entry>, right: seq<Entry>, identical: seq<Pair>,
                      leftRest: seq<Entry>, rightRest: seq<Entry>,
                      diverged: seq<Pair>, onlyProposed: seq<Entry>, onlyObserved: seq<Entry>)
    requires forall e | e in left :: FromStream(encode, e)
    requires forall e | e in right :: FromStream(encode, e)
    requires Pairing(left, right, Identical, identical, leftRest, rightRest)
    requires Pairing(leftRest, rightRest, SameResource, diverged, onlyProposed, onlyObserved)
    ensures forall i | 0 <= i < |diverged| ::
              SameTarget(diverged[i]) && Encoded(diverged[i].left.args) != Encoded(diverged[i].right.args)
  {
    hide NoneMissed, SmallestFirst, Pairing;
    LeftMembers(left, right, Identical, identical, leftRest, rightRest);
    LeftMembers(leftRest, rightRest, SameResource, diverged, onlyProposed, onlyObserved);
    PairingKeys(leftRest, rightRest, SameResource, diverged, onlyProposed, onlyObserved);
    forall i | 0 <= i < |diverged|
      ensures SameTarget(diverged[i]) && Encoded(diverged[i].left.args) != Encoded(diverged[i].right.args)
    {
      var a, b := diverged[i].left, diverged[i].right;
      assert FromStream(encode, a) && FromStream(encode, b);
      JoinIsExact(a.op, b.op, a.resource, b.resource);
      LeftoversDiffer(encode, left, right, identical, leftRest, rightRest, a, b);
    }
  }

  predicate SameTarget(p: Pair) {
    p.left.op == p.right.op && p.left.resource == p.right.resource != []
  }

  lemma PairingKeys(left: seq<Entry>, right: seq<Entry>, kind: KeyKind, pairs: seq<Pair>, leftOver: seq<Entry>,
                    rightOver: seq<Entry>)
    requires Pairing(left, right, kind, pairs, leftOver, rightOver)
    ensures KeysAgree(kind, pairs) && NoneMissed(kind, leftOver, rightOver)
  {
  }

  lemma NoneAloneTogether(left: seq<Entry>, right: seq<Entry>, pairs: seq<Pair>, leftOver: seq<Entry>,
                          rightOver: seq<Entry>)
    requires Pairing(left, right, SameResource, pairs, leftOver, rightOver)
    ensures forall a, b | a in leftOver && b in rightOver && a.op == b.op
            && a.resource == b.resource :: a.resource == []
  {
    hide SmallestFirst, KeysAgree;
    forall a, b | a in leftOver && b in rightOver && a.op == b.op && a.resource == b.resource
      ensures a.resource == []
    {
      assert KeyOf(SameResource, a) == KeyOf(SameResource, b);
    }
  }

  datatype Comparison = Comparison(
    matched: seq<Pair>, diverged: seq<Pair>, fields: seq<seq<FieldDivergence>>,
    onlyProposed: seq<Entry>, onlyObserved: seq<Entry>, order: seq<Inversion>)

  /**
    Every action of either stream is accounted for once: matched, diverged or alone.
    Matched actions are the same operation with the same arguments, diverged ones the
    same operation on the same resource with at least one differing field, and the
    order divergences are exactly the inversions among all pairs.
   */
  method CompareWith(encode: Texts -> string, proposed: seq<Action>, observed: seq<Action>) returns (c: Comparison)
    requires forall i | 0 <= i < |proposed| :: NUL !in proposed[i].op
    requires forall i | 0 <= i < |observed| :: NUL !in observed[i].op
    ensures multiset(Lefts(c.matched)) + multiset(Lefts(c.diverged)) + multiset(c.onlyProposed)
            == multiset(Entries(encode, proposed))
    ensures multiset(Rights(c.matched)) + multiset(Rights(c.diverged)) + multiset(c.onlyObserved)
            == multiset(Entries(encode, observed))
    ensures forall i | 0 <= i < |c.matched| ::
              c.matched[i].left.op == c.matched[i].right.op
                  && encode(Encoded(c.matched[i].left.args)) == encode(Encoded(c.matched[i].right.args))
    ensures |c.fields| == |c.diverged|
    ensures forall i | 0 <= i < |c.diverged| ::
              SameTarget(c.diverged[i]) && c.fields[i] != []
                  && Reports(c.diverged[i].left.args, c.diverged[i].right.args, c.fields[i])
    ensures forall a, b | a in c.onlyProposed && b in c.onlyObserved && a.op == b.op
            && a.resource == b.resource :: a.resource == []
    ensures ExactlyInversions(c.matched + c.diverged, c.order)
  {
    hide Pairing, Reports, ExactlyInversions, Sorted, KeyOf, Entries, Lefts, Rights, DistinctLefts;
    var left, right := Entries(encode, proposed), Entries(encode, observed);
    EntriesAreFromStream(encode, proposed);
    EntriesAreFromStream(encode, observed);
    var identical, leftRest, rightRest := PairOn(left, right, Identical);
    var diverged, onlyProposed, onlyObserved := PairOn(leftRest, rightRest, SameResource);
    Totals(left, right, identical, leftRest, rightRest, diverged, onlyProposed, onlyObserved);
    MatchedAgree(encode, left, right, identical, leftRest, rightRest);
    DivergedAgree(encode, left, right, identical, leftRest, rightRest, diverged, onlyProposed, onlyObserved);
    NoneAloneTogether(leftRest, rightRest, diverged, onlyProposed, onlyObserved);
    PairsAreDrawn(encode, proposed, identical, diverged, onlyProposed);
    var fields: seq<seq<FieldDivergence>> := [];
    for i := 0 to |diverged|
      invariant |fields| == i
      invariant forall j | 0 <= j < i ::
                  fields[j] != [] && Reports(diverged[j].left.args, diverged[j].right.args, fields[j])
    {
      var f := DivergingFields(diverged[i].left.args, diverged[i].right.args);
      fields := fields + [f];
    }
    var order := TimingOf(identical + diverged);
    c := Comparison(identical, diverged, fields, onlyProposed, onlyObserved, order);
  }
}
