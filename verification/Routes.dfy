/** Route shapes and the ambiguity check of world manifests. */
module Routes {
  import opened Basics

  const SLASH: char := '/'
  const WILD: string := ['{', '}']

  // Splitting and joining ---------------------------------------------------------------

  /** Splits at every slash; always at least one piece. */
  function Split(s: string): (parts: seq<string>)
    ensures parts != []
  {
    if s == [] then [[]]
    else if s[0] == SLASH then [[]] + Split(s[1..])
    else
      var rest := Split(s[1..]);
      [[s[0]] + rest[0]] + rest[1..]
  }

  function Join(parts: seq<string>): string
    requires parts != []
  {
    if |parts| == 1 then parts[0] else parts[0] + [SLASH] + Join(parts[1..])
  }

  predicate NoSlash(parts: seq<string>) {
    forall i | 0 <= i < |parts| :: SLASH !in parts[i]
  }

  lemma {:induction false} SplitPiece(a: string, rest: string)
    requires SLASH !in a
    ensures Split(a + [SLASH] + rest) == [a] + Split(rest)
    ensures Split(a) == [a]
  {
    var s := a + [SLASH] + rest;
    if a == [] {
      assert s == [SLASH] + rest;
      assert s[1..] == rest;
    } else {
      assert a[0] in a;
      SplitPiece(a[1..], rest);
      assert s[1..] == a[1..] + [SLASH] + rest;
      assert [a[0]] + a[1..] == a;
      assert Split(s[1..])[1..] == Split(rest);
    }
  }

  /** Splitting undoes joining. */
  lemma {:induction false} SplitJoin(parts: seq<string>)
    requires parts != [] && NoSlash(parts)
    ensures Split(Join(parts)) == parts
  {
    if |parts| == 1 {
      SplitPiece(parts[0], []);
    } else {
      SplitJoin(parts[1..]);
      SplitPiece(parts[0], Join(parts[1..]));
    }
  }

  lemma {:induction false} SplitHasNoSlash(s: string)
    ensures NoSlash(Split(s))
  {
    if s != [] {
      SplitHasNoSlash(s[1..]);
    }
  }

  // Paths ---------------------------------------------------------------------------------

  predicate Braced(segment: string) {
    |segment| >= 2 && segment[0] == '{' && segment[|segment| - 1] == '}'
  }

  predicate HasBrace(s: string) {
    '{' in s || '}' in s
  }

  function NameOf(segment: string): string
    requires Braced(segment)
  {
    segment[1..|segment| - 1]
  }

  /** A segment is a literal without braces, or one argument name in braces. */
  predicate GoodSegment(segment: string) {
    segment != [] && if Braced(segment) then NameOf(segment) != [] && !HasBrace(NameOf(segment)) else !HasBrace(segment)
  }

  function ShapeSegment(segment: string): string {
    if Braced(segment) then WILD else segment
  }

  predicate DistinctNames(segments: seq<string>) {
    forall i, j | 0 <= i < j < |segments| && Braced(segments[i])
        && Braced(segments[j]) :: NameOf(segments[i]) != NameOf(segments[j])
  }

  /** The paths a manifest may use. */
  predicate Supported(path: string) {
    && |path| > 1 && path[0] == SLASH && '?' !in path
    && (forall i | 0 <= i < |Split(path[1..])| :: GoodSegment(Split(path[1..])[i]))
    && DistinctNames(Split(path[1..]))
  }

  function ShapeParts(segments: seq<string>): (parts: seq<string>)
    ensures |parts| == |segments| && forall i | 0 <= i < |parts| :: parts[i] == ShapeSegment(segments[i])
  {
    seq(|segments|, i requires 0 <= i < |segments| => ShapeSegment(segments[i]))
  }

  /** The shape of a supported path: arguments become wildcards. */
  function Shape(path: string): string
    requires Supported(path)
  {
    [SLASH] + Join(ShapeParts(Split(path[1..])))
  }

  function ArgumentsOf(segments: seq<string>): set<string> {
    set i | 0 <= i < |segments| && Braced(segments[i]) :: NameOf(segments[i])
  }

  method WorldPath(path: string) returns (r: Option<(set<string>, string)>)
    ensures r.Some? <==> Supported(path)
    ensures r.Some? ==> r.value == (ArgumentsOf(Split(path[1..])), Shape(path))
  {
    hide Split, Join, ArgumentsOf, DistinctNames, ShapeParts, NameOf, HasBrace;
    if |path| == 0 || path[0] != SLASH || |path| == 1 || '?' in path {
      return None;
    }
    var segments := Split(path[1..]);
    var args: set<string> := {};
    var shape: seq<string> := [];
    NoSegments(segments);
    for i := 0 to |segments|
      invariant forall j | 0 <= j < i :: GoodSegment(segments[j])
      invariant DistinctNames(segments[..i]) && args == ArgumentsOf(segments[..i])
      invariant shape == ShapeParts(segments)[..i]
    {
      var segment := segments[i];
      NextSegment(segments, i);
      if segment == [] {
        return None;
      }
      if Braced(segment) {
        var name := NameOf(segment);
        if name == [] || name in args || HasBrace(name) {
          return None;
        }
        args := args + {name};
        shape := shape + [WILD];
      } else {
        if HasBrace(segment) {
          return None;
        }
        shape := shape + [segment];
      }
    }
    assert segments[..|segments|] == segments && shape == ShapeParts(segments);
    r := Some((args, [SLASH] + Join(shape)));
  }

  lemma NoSegments(segments: seq<string>)
    ensures ArgumentsOf(segments[..0]) == {} && DistinctNames(segments[..0])
  {
  }

  lemma NextSegment(segments: seq<string>, i: nat)
    requires i < |segments|
    ensures ArgumentsOf(segments[..i + 1])
            == ArgumentsOf(segments[..i]) + (if Braced(segments[i]) then {NameOf(segments[i])} else {})
    ensures DistinctNames(segments[..i + 1]) <==>
            DistinctNames(segments[..i]) && (Braced(segments[i]) ==> NameOf(segments[i]) !in ArgumentsOf(segments[..i]))
    ensures DistinctNames(segments) ==> DistinctNames(segments[..i + 1])
  {
    hide Braced, NameOf;
    var now, next, s := segments[..i], segments[..i + 1], segments[i];
    assert next[i] == s && forall j | 0 <= j < i :: next[j] == now[j];
    if DistinctNames(now) && Braced(s) && NameOf(s) in ArgumentsOf(now) {
      var j :| 0 <= j < i && Braced(now[j]) && NameOf(now[j]) == NameOf(s);
      assert Braced(next[j]) && Braced(next[i]) && NameOf(next[j]) == NameOf(next[i]);
    }
    forall n | n in ArgumentsOf(next)
      ensures n in ArgumentsOf(now) + (if Braced(s) then {NameOf(s)} else {})
    {
      var j :| 0 <= j < |next| && Braced(next[j]) && NameOf(next[j]) == n;
      if j < i {
        assert Braced(now[j]);
      }
    }
    forall n | n in ArgumentsOf(now)
      ensures n in ArgumentsOf(next)
    {
      var j :| 0 <= j < |now| && Braced(now[j]) && NameOf(now[j]) == n;
      assert Braced(next[j]);
    }
  }

  // Overlap ------------------------------------------------------------------------------

  /** A concrete path: non-empty segments without slashes. */
  predicate Concrete(path: seq<string>) {
    NoSlash(path) && forall i | 0 <= i < |path| :: path[i] != []
  }

  predicate MatchesParts(parts: seq<string>, path: seq<string>) {
    |parts| == |path| && forall i | 0 <= i < |parts| :: parts[i] == WILD || parts[i] == path[i]
  }

  function PartsOf(shape: string): seq<string> {
    Split(if shape != [] && shape[0] == SLASH then shape[1..] else shape)
  }

  predicate Overlap(left: string, right: string) {
    var a, b := PartsOf(left), PartsOf(right);
    |a| == |b| && forall i | 0 <= i < |a| :: a[i] == b[i] || a[i] == WILD || b[i] == WILD
  }

  method RoutesOverlap(left: string, right: string) returns (overlap: bool)
    ensures overlap == Overlap(left, right)
  {
    var a, b := PartsOf(left), PartsOf(right);
    if |a| != |b| {
      return false;
    }
    for i := 0 to |a|
      invariant forall j | 0 <= j < i :: a[j] == b[j] || a[j] == WILD || b[j] == WILD
    {
      if a[i] != b[i] && a[i] != WILD && b[i] != WILD {
        return false;
      }
    }
    overlap := true;
  }

  /** A supported path's shape splits back into its parts, which are never empty. */
  lemma ShapeRoundTrips(path: string)
    requires Supported(path)
    ensures var parts := ShapeParts(Split(path[1..]));
            PartsOf(Shape(path)) == parts && forall i | 0 <= i < |parts| :: parts[i] != [] && SLASH !in parts[i]
  {
    var segments := Split(path[1..]);
    var parts := ShapeParts(segments);
    SplitHasNoSlash(path[1..]);
    SplitJoin(parts);
    assert Shape(path)[1..] == Join(parts);
    forall i | 0 <= i < |parts|
      ensures parts[i] != []
    {
      assert GoodSegment(segments[i]);
    }
  }

  /** The operation a request is routed to: its shape matches the path. */
  predicate Routes_(path: string, request: seq<string>)
    requires Supported(path)
  {
    MatchesParts(ShapeParts(Split(path[1..])), request)
  }

  /** A path both shapes match: literals where there are any, anything where both have a wildcard. */
  function Meeting(a: seq<string>, b: seq<string>): (path: seq<string>)
    requires |a| == |b|
    ensures |path| == |a| && forall i | 0 <= i < |a| :: path[i] == if a[i] != WILD then a[i]
            else if b[i] != WILD then b[i] else ['x']
  {
    seq(|a|, i requires 0 <= i < |a| => if a[i] != WILD then a[i] else if b[i] != WILD then b[i] else ['x'])
  }

  /** Two shapes overlap exactly when some concrete path matches both. */
  lemma OverlapMeansCommonPath(p: string, q: string)
    requires Supported(p) && Supported(q)
    ensures Overlap(Shape(p), Shape(q))
            <==> exists request :: Concrete(request) && Routes_(p, request) && Routes_(q, request)
  {
    hide Shape, Split;
    ShapeRoundTrips(p);
    ShapeRoundTrips(q);
    var a, b := ShapeParts(Split(p[1..])), ShapeParts(Split(q[1..]));
    if Overlap(Shape(p), Shape(q)) {
      var request := Meeting(a, b);
      assert Concrete(request) && Routes_(p, request) && Routes_(q, request);
    }
  }

  // Manifests -------------------------------------------------------------------------------

  datatype Operation = Operation(id: string, verb: string, path: string)

  /** Operation IDs rise, paths are supported, and no two routes of one verb overlap. */
  predicate Unambiguous(ops: seq<Operation>) {
    && (forall i | 0 <= i < |ops| :: ops[i].id != [] && Supported(ops[i].path))
    && (forall i, j | 0 <= i < j < |ops| :: Before(ops[i].id, ops[j].id))
    && (forall i, j | 0 <= i < j < |ops|
      && ops[i].verb == ops[j].verb :: !Overlap(Shape(ops[i].path), Shape(ops[j].path)))
  }

  /** In a validated service each verb and path matches at most one operation. */
  lemma AtMostOneRoute(ops: seq<Operation>, verb: string, request: seq<string>, i: nat, j: nat)
    requires Unambiguous(ops) && Concrete(request) && i < |ops| && j < |ops|
    requires ops[i].verb == verb && Routes_(ops[i].path, request)
    requires ops[j].verb == verb && Routes_(ops[j].path, request)
    ensures i == j
  {
    hide Supported, Shape, Overlap, Routes_, Concrete;
    if i < j {
      OverlapMeansCommonPath(ops[i].path, ops[j].path);
    } else if j < i {
      OverlapMeansCommonPath(ops[j].path, ops[i].path);
    }
  }

  /** The shapes seen so far, by verb and in order. */
  function ShapesFor(ops: seq<Operation>, verb: string): seq<string>
    requires forall i | 0 <= i < |ops| :: Supported(ops[i].path)
  {
    if ops == [] then [] else
      var n := |ops| - 1;
      ShapesFor(ops[..n], verb) + (if ops[n].verb == verb then [Shape(ops[n].path)] else [])
  }

  lemma {:induction false} ShapesMember(ops: seq<Operation>, verb: string, shape: string)
    requires forall i | 0 <= i < |ops| :: Supported(ops[i].path)
    ensures shape in ShapesFor(ops, verb)
            <==> exists i :: 0 <= i < |ops| && ops[i].verb == verb && Shape(ops[i].path) == shape
  {
    hide Supported, Shape;
    if ops != [] {
      var n := |ops| - 1;
      ShapesMember(ops[..n], verb, shape);
      if ops[n].verb == verb && Shape(ops[n].path) == shape {
        assert shape in ShapesFor(ops, verb);
      }
    }
  }

  /** Adding one operation keeps a service unambiguous exactly when the loop's checks pass. */
  lemma NextOperation(ops: seq<Operation>, i: nat)
    requires i < |ops| && Unambiguous(ops[..i]) && ops[i].id != [] && Supported(ops[i].path)
    requires i > 0 ==> Before(ops[i - 1].id, ops[i].id)
    requires forall shape | shape in ShapesFor(ops[..i], ops[i].verb) :: !Overlap(shape, Shape(ops[i].path))
    ensures Unambiguous(ops[..i + 1])
  {
    hide Supported, Shape, Overlap;
    var now, next := ops[..i], ops[..i + 1];
    forall a, b | 0 <= a < b < |next|
      ensures Before(next[a].id, next[b].id)
      ensures next[a].verb == next[b].verb ==> !Overlap(Shape(next[a].path), Shape(next[b].path))
    {
      if b < i {
        assert next[a] == now[a] && next[b] == now[b];
      } else {
        if a < i - 1 {
          assert Before(now[a].id, now[i - 1].id);
          BeforeIsTransitive(next[a].id, ops[i - 1].id, ops[i].id);
        }
        ShapesMember(now, ops[i].verb, Shape(now[a].path));
      }
    }
  }

  lemma PrefixUnambiguous(ops: seq<Operation>, i: nat)
    requires Unambiguous(ops) && i < |ops|
    ensures ops[i].id != [] && Supported(ops[i].path)
    ensures i > 0 ==> Before(ops[i - 1].id, ops[i].id)
    ensures forall shape | shape in ShapesFor(ops[..i], ops[i].verb) :: !Overlap(shape, Shape(ops[i].path))
  {
    hide Supported, Shape, Overlap;
    forall shape | shape in ShapesFor(ops[..i], ops[i].verb)
      ensures !Overlap(shape, Shape(ops[i].path))
    {
      ShapesMember(ops[..i], ops[i].verb, shape);
    }
  }

  method Clashes(seen: seq<string>, shape: string) returns (clash: bool)
    ensures clash <==> exists s | s in seen :: Overlap(s, shape)
  {
    for j := 0 to |seen|
      invariant forall k | 0 <= k < j :: !Overlap(seen[k], shape)
    {
      clash := RoutesOverlap(seen[j], shape);
      if clash {
        return;
      }
    }
    clash := false;
  }

  function Row(routes: map<string, seq<string>>, verb: string): seq<string> {
    if verb in routes then routes[verb] else []
  }

  /** The route table holds exactly the shapes seen so far. */
  ghost predicate TableOf(routes: map<string, seq<string>>, ops: seq<Operation>) {
    && (forall i | 0 <= i < |ops| :: Supported(ops[i].path))
    && forall verb :: Row(routes, verb) == ShapesFor(ops, verb)
  }

  /** The operation loop of one service, with its route table by verb. */
  method CheckRoutes(ops: seq<Operation>) returns (ok: bool)
    ensures ok <==> Unambiguous(ops)
  {
    hide Supported, Shape, Overlap, Unambiguous, ShapesFor, Before;
    var previous: string := [];
    var routes: map<string, seq<string>> := map[];
    ghost var good := Unambiguous(ops);
    NothingAmbiguous();
    assert ops[..0] == [];
    for i := 0 to |ops|
      invariant Unambiguous(ops[..i]) && forall j | 0 <= j < i :: Supported(ops[j].path)
      invariant previous == if i == 0 then [] else ops[i - 1].id
      invariant TableOf(routes, ops[..i])
    {
      var op := ops[i];
      if good {
        PrefixUnambiguous(ops, i);
      }
      BeforeEmpty(op.id);
      BeforeEmpty(previous);
      if op.id == previous || Before(op.id, previous) {
        NotBefore(op.id, previous);
        return false;
      }
      BeforeIsTotal(op.id, previous);
      var parsed := WorldPath(op.path);
      if parsed.None? {
        return false;
      }
      var shape := parsed.value.1;
      var seen := Row(routes, op.verb);
      var clash := Clashes(seen, shape);
      if clash {
        return false;
      }
      NextOperation(ops, i);
      ShapesNext(ops, i, routes);
      routes := routes[op.verb := seen + [shape]];
      previous := op.id;
    }
    assert ops[..|ops|] == ops;
    ok := true;
  }

  lemma NothingAmbiguous()
    ensures Unambiguous([]) && TableOf(map[], [])
  {
  }

  lemma BeforeEmpty(a: string)
    ensures !Before(a, []) && (a != [] ==> Before([], a))
  {
  }

  lemma NotBefore(a: string, b: string)
    requires a == b || Before(a, b)
    ensures !Before(b, a)
  {
    BeforeIsIrreflexive(a);
    if Before(a, b) && Before(b, a) {
      BeforeIsTransitive(a, b, a);
    }
  }

  lemma ShapesNext(ops: seq<Operation>, i: nat, routes: map<string, seq<string>>)
    requires i < |ops| && TableOf(routes, ops[..i]) && Supported(ops[i].path)
    ensures TableOf(routes[ops[i].verb := Row(routes, ops[i].verb) + [Shape(ops[i].path)]], ops[..i + 1])
  {
    hide Supported, Shape;
    var next := routes[ops[i].verb := Row(routes, ops[i].verb) + [Shape(ops[i].path)]];
    assert ops[..i + 1][..i] == ops[..i];
    forall verb
      ensures Row(next, verb) == ShapesFor(ops[..i + 1], verb)
    {
      assert Row(routes, verb) == ShapesFor(ops[..i], verb);
    }
  }
}
