/** Where a counterfactual analysis forks: the tool calls of a ledger and the boundaries chosen for them. */
module Counterfactual {
  import opened Basics
  import opened Protocol
  import opened Engine
  import Agreement
  import Checkpoint
  import Dispatch
  import Execution
  import Reconstruct
  import Replay

  /** Event numbers start at one; zero means not seen. */
  datatype Call = Call(id: string, op: string, request: nat, response: nat, decision: nat)

  /** `awaiting` is the index of the call whose decision is looked for, or -1. */
  datatype Search = Search(calls: seq<Call>, awaiting: int) | OutOfRange

  function SearchNext(s: Search, e: Event, seq_: nat): Search {
    if s.OutOfRange? then s else
      match e
      case ToolRequest(call) => Search(s.calls + [Call(call.id, call.op, seq_, 0, 0)], -1)
      case ToolResponse(_, _, _, _) =>
        var n := |s.calls| - 1;
        if n < 0 then OutOfRange else Search(s.calls[n := s.calls[n].(response := seq_)], n)
      case ModelResponse(_) =>
        if s.awaiting >= 0 then
          if s.awaiting >= |s.calls| then OutOfRange
          else Search(s.calls[s.awaiting := s.calls[s.awaiting].(decision := seq_)], -1)
        else Search(s.calls, -1)
      case _ => s
  }

  function Discover(ledger: seq<Event>): Search {
    if ledger == [] then Search([], -1) else
      SearchNext(Discover(ledger[..|ledger| - 1]), ledger[|ledger| - 1], |ledger|)
  }

  // What a discovered call says about the ledger ----------------------------------------

  /** The request is where the record says. */
  predicate Requested(ledger: seq<Event>, c: Call) {
    && 1 <= c.request <= |ledger| && ledger[c.request - 1].ToolRequest?
    && ledger[c.request - 1].call.id == c.id && ledger[c.request - 1].call.op == c.op
  }

  /** The response is the first response after the request, with no other request between, and it is this call's. */
  predicate Answered(ledger: seq<Event>, c: Call) {
    && c.request < c.response <= |ledger| && ledger[c.response - 1].ToolResponse?
      && ledger[c.response - 1].callId == c.id
    && forall k | c.request <= k < c.response - 1 :: !ledger[k].ToolResponse? && !ledger[k].ToolRequest?
  }

  /** The number of the first turn after the first `k` events, or zero when a tool call comes first or nothing does. */
  function Decision(ledger: seq<Event>, k: nat): nat
    decreases |ledger| - k
  {
    if k >= |ledger| || ledger[k].ToolRequest? then 0
    else if ledger[k].ModelResponse? then k + 1
    else Decision(ledger, k + 1)
  }

  predicate Undecided(ledger: seq<Event>, k: nat) {
    forall j | k <= j < |ledger| :: !ledger[j].ToolRequest? && !ledger[j].ModelResponse?
  }

  lemma {:induction false} DecisionSnoc(ledger: seq<Event>, e: Event, k: nat)
    requires k <= |ledger|
    ensures Decision(ledger + [e], k) ==
            if Undecided(ledger, k) then (if e.ModelResponse? then |ledger| + 1 else 0) else Decision(ledger, k)
    ensures Undecided(ledger + [e], k) <==> Undecided(ledger, k) && !e.ToolRequest? && !e.ModelResponse?
    decreases |ledger| - k
  {
    var next := ledger + [e];
    assert next[|ledger|] == e;
    if k < |ledger| {
      assert next[k] == ledger[k];
      if !ledger[k].ToolRequest? && !ledger[k].ModelResponse? {
        DecisionSnoc(ledger, e, k + 1);
      }
    } else {
      assert Decision(next, k + 1) == 0;
    }
  }

  /** A finished call, fully described: where it was requested and answered, and which turn decided next. */
  predicate Described(ledger: seq<Event>, c: Call) {
    Requested(ledger, c) && Answered(ledger, c) && c.decision == Decision(ledger, c.response)
  }

  /** A call whose response has not come yet. */
  predicate OpenCall(ledger: seq<Event>, c: Call) {
    && Requested(ledger, c) && c.response == 0 && c.decision == 0
    && forall k | c.request <= k < |ledger| :: !ledger[k].ToolResponse? && !ledger[k].ToolRequest?
  }

  function Finished(s: Search, a: Checkpoint.Acc): int
    requires s.Search?
  {
    |s.calls| - (if a.toolOpen then 1 else 0)
  }

  /** Where the search stands when the ledger scan stands at `a`. */
  predicate Standing(ledger: seq<Event>, s: Search, a: Checkpoint.Acc) {
    && s.Search?
    && var n := Finished(s, a);
       && -1 <= s.awaiting < n
       && (forall i | 0 <= i < n ::
           Described(ledger, s.calls[i]) && (Undecided(ledger, s.calls[i].response) <==> i == s.awaiting))
       && (a.toolOpen ==> OpenCall(ledger, s.calls[n]) && s.calls[n].id == a.callId && s.awaiting == -1)
  }

  lemma PlacesStay(ledger: seq<Event>, e: Event, c: Call)
    ensures Requested(ledger, c) ==> Requested(ledger + [e], c)
    ensures Answered(ledger, c) ==> Answered(ledger + [e], c)
  {
    var next := ledger + [e];
    assert forall k | 0 <= k < |ledger| :: next[k] == ledger[k];
  }

  lemma DescribedStays(ledger: seq<Event>, e: Event, c: Call)
    requires Described(ledger, c) && !(Undecided(ledger, c.response) && e.ModelResponse?)
    ensures Described(ledger + [e], c)
    ensures Undecided(ledger + [e], c.response)
            <==> Undecided(ledger, c.response) && !e.ToolRequest? && !e.ModelResponse?
  {
    hide Requested, Decision;
    PlacesStay(ledger, e, c);
    DecisionSnoc(ledger, e, c.response);
    if Undecided(ledger, c.response) {
      DecisionIsSeen(ledger, c.response);
    }
  }

  lemma {:induction false} DecisionIsSeen(ledger: seq<Event>, k: nat)
    requires Undecided(ledger, k)
    ensures Decision(ledger, k) == 0
    decreases |ledger| - k
  {
    if k < |ledger| {
      DecisionIsSeen(ledger, k + 1);
    }
  }

  lemma RequestStands(ledger: seq<Event>, s: Search, a: Checkpoint.Acc, e: Event)
    requires Standing(ledger, s, a) && e.ToolRequest? && !a.toolOpen
    ensures Standing(ledger + [e], SearchNext(s, e, |ledger| + 1),
            a.(toolOpen := true, callId := e.call.id, op := e.call.op))
  {
    hide Described, Undecided;
    var next := ledger + [e];
    forall i | 0 <= i < |s.calls|
      ensures Described(next, s.calls[i]) && !Undecided(next, s.calls[i].response)
    {
      DescribedStays(ledger, e, s.calls[i]);
    }
    assert next[|ledger|] == e;
  }

  lemma ResponseStands(ledger: seq<Event>, s: Search, a: Checkpoint.Acc, e: Event)
    requires Standing(ledger, s, a) && e.ToolResponse? && a.toolOpen && e.callId == a.callId
    ensures Standing(ledger + [e], SearchNext(s, e, |ledger| + 1), a.(toolOpen := false))
  {
    hide Described, Undecided;
    var next, n := ledger + [e], |s.calls| - 1;
    forall i | 0 <= i < n
      ensures Described(next, s.calls[i]) && !Undecided(next, s.calls[i].response)
    {
      DescribedStays(ledger, e, s.calls[i]);
    }
    NewlyAnswered(ledger, e, s.calls[n]);
  }

  lemma NewlyAnswered(ledger: seq<Event>, e: Event, c: Call)
    requires OpenCall(ledger, c) && e.ToolResponse? && e.callId == c.id
    ensures Described(ledger + [e], c.(response := |ledger| + 1)) && Undecided(ledger + [e], |ledger| + 1)
  {
    var next := ledger + [e];
    assert forall k | 0 <= k < |ledger| :: next[k] == ledger[k];
    assert next[|ledger|] == e;
  }

  lemma TurnStands(ledger: seq<Event>, s: Search, a: Checkpoint.Acc, e: Event)
    requires Standing(ledger, s, a) && e.ModelResponse? && !a.toolOpen
    ensures Standing(ledger + [e], SearchNext(s, e, |ledger| + 1), a)
  {
    hide Described, Undecided;
    var next := ledger + [e];
    forall i | 0 <= i < |s.calls| && i != s.awaiting
      ensures Described(next, s.calls[i]) && !Undecided(next, s.calls[i].response)
    {
      DescribedStays(ledger, e, s.calls[i]);
    }
    if s.awaiting >= 0 {
      NewlyDecided(ledger, e, s.calls[s.awaiting]);
    }
  }

  lemma NewlyDecided(ledger: seq<Event>, e: Event, c: Call)
    requires Described(ledger, c) && Undecided(ledger, c.response) && e.ModelResponse?
    ensures Described(ledger + [e], c.(decision := |ledger| + 1)) && !Undecided(ledger + [e], c.response)
  {
    hide Decision;
    PlacesStay(ledger, e, c);
    DecisionSnoc(ledger, e, c.response);
  }

  lemma OtherStands(ledger: seq<Event>, s: Search, a: Checkpoint.Acc, e: Event)
    requires Standing(ledger, s, a) && !e.ToolRequest? && !e.ToolResponse? && !e.ModelResponse?
    ensures Standing(ledger + [e], s, a)
  {
    hide Described, Undecided;
    var next := ledger + [e];
    forall i | 0 <= i < Finished(s, a)
      ensures Described(next, s.calls[i]) && (Undecided(next, s.calls[i].response) <==> i == s.awaiting)
    {
      DescribedStays(ledger, e, s.calls[i]);
    }
    assert forall k | 0 <= k < |ledger| :: next[k] == ledger[k];
  }

  lemma StandingIgnores(ledger: seq<Event>, s: Search, a: Checkpoint.Acc, b: Checkpoint.Acc)
    requires Standing(ledger, s, a) && a.toolOpen == b.toolOpen && a.callId == b.callId
    ensures Standing(ledger, s, b)
  {
    hide Described, Undecided;
  }

  /** On every ledger the scan accepts, the search stays in range and describes every call exactly. */
  lemma {:induction false} SearchStands(ledger: seq<Event>)
    requires Checkpoint.Scan(ledger).Some?
    ensures Standing(ledger, Discover(ledger), Checkpoint.Scan(ledger).value)
  {
    hide Standing, SearchNext;
    if ledger == [] {
      EmptyStands();
    } else {
      var n := |ledger| - 1;
      SearchStands(ledger[..n]);
      StandsOn(ledger[..n], Discover(ledger[..n]), Checkpoint.Scan(ledger[..n]).value, ledger[n], n == 0,
               Checkpoint.Scan(ledger).value);
      assert ledger == ledger[..n] + [ledger[n]];
    }
  }

  lemma EmptyStands()
    ensures Standing([], Discover([]), Checkpoint.Fresh())
  {
  }

  lemma StandsOn(ledger: seq<Event>, s: Search, a: Checkpoint.Acc, e: Event, first: bool, b: Checkpoint.Acc)
    requires Standing(ledger, s, a) && Checkpoint.Admit(a, e, first).Some?
    requires b.toolOpen == Checkpoint.Admit(a, e, first).value.toolOpen
             && b.callId == Checkpoint.Admit(a, e, first).value.callId
    ensures Standing(ledger + [e], SearchNext(s, e, |ledger| + 1), b)
  {
    hide Standing;
    var next := SearchNext(s, e, |ledger| + 1);
    match e
    case ToolRequest(_) =>
      RequestStands(ledger, s, a, e);
      StandingIgnores(ledger + [e], next, a.(toolOpen := true, callId := e.call.id, op := e.call.op), b);
    case ToolResponse(_, _, _, _) =>
      ResponseStands(ledger, s, a, e);
      StandingIgnores(ledger + [e], next, a.(toolOpen := false), b);
    case ModelResponse(_) =>
      TurnStands(ledger, s, a, e);
      StandingIgnores(ledger + [e], next, a, b);
    case _ =>
      OtherStands(ledger, s, a, e);
      SearchKeeps(s, e, |ledger| + 1);
      StandingIgnores(ledger + [e], next, a, b);
  }

  lemma SearchKeeps(s: Search, e: Event, n: nat)
    requires !e.ToolRequest? && !e.ToolResponse? && !e.ModelResponse?
    ensures SearchNext(s, e, n) == s
  {
  }

  /** `discoverCalls`: calls are appended and then edited in place. */
  method DiscoverCalls(ledger: seq<Event>) returns (calls: seq<Call>)
    requires Checkpoint.Scan(ledger).Some?
    ensures Discover(ledger).Search? && calls == Discover(ledger).calls
  {
    hide Checkpoint.Scan;
    calls := [];
    var awaiting := -1;
    for i := 0 to |ledger|
      invariant Discover(ledger[..i]) == Search(calls, awaiting)
    {
      assert ledger[..i + 1][..i] == ledger[..i];
      StaysInRange(ledger, i + 1);
      match ledger[i] {
        case ToolRequest(call) =>
          calls := calls + [Call(call.id, call.op, i + 1, 0, 0)];
          awaiting := -1;
        case ToolResponse(_, _, _, _) =>
          var n := |calls| - 1;
          calls := calls[n := calls[n].(response := i + 1)];
          awaiting := n;
        case ModelResponse(_) =>
          if awaiting >= 0 {
            calls := calls[awaiting := calls[awaiting].(decision := i + 1)];
          }
          awaiting := -1;
        case _ =>
      }
    }
    assert ledger[..|ledger|] == ledger;
  }

  lemma StaysInRange(ledger: seq<Event>, i: nat)
    requires i <= |ledger| && Checkpoint.Scan(ledger).Some?
    ensures Discover(ledger[..i]).Search?
  {
    hide Standing;
    if Checkpoint.Scan(ledger[..i]).None? {
      Checkpoint.RefusedStaysRefused(ledger, i);
    } else {
      SearchStands(ledger[..i]);
      StandingMeansSearch(ledger[..i]);
    }
  }

  lemma StandingMeansSearch(ledger: seq<Event>)
    requires Checkpoint.Scan(ledger).Some? && Standing(ledger, Discover(ledger), Checkpoint.Scan(ledger).value)
    ensures Discover(ledger).Search?
  {
  }

  // Boundaries around every call -----------------------------------------------------------

  /** The event before every tool request is a boundary, and so is the last event while a call is pending. */
  predicate Poised(db: Db) {
    && (Pending(db.core.transcript).Some? ==> db.ledger != [] && Checkpoint.IsBoundary(db.ledger[|db.ledger| - 1]))
    && BoundariesBefore(db.ledger)
  }

  predicate BoundariesBefore(ledger: seq<Event>) {
    forall i | 0 <= i < |ledger| && ledger[i].ToolRequest? :: i > 0 && Checkpoint.IsBoundary(ledger[i - 1])
  }

  lemma QuietBoundaries(ledger: seq<Event>, events: seq<Event>)
    requires BoundariesBefore(ledger) && forall e | e in events :: !e.ToolRequest?
    ensures BoundariesBefore(ledger + events)
  {
    var next := ledger + events;
    assert forall i | 0 <= i < |events| :: !events[i].ToolRequest?;
    assert forall i | 0 <= i < |next| :: next[i] == if i < |ledger| then ledger[i] else events[i - |ledger|];
  }

  lemma BracketBoundaries(ledger: seq<Event>, call: ToolCall, events: seq<Event>, status: int, body: Json)
    requires BoundariesBefore(ledger) && ledger != [] && Checkpoint.IsBoundary(ledger[|ledger| - 1])
    requires Dispatch.IsBracket(call, events, status, body)
    ensures BoundariesBefore(ledger + events)
  {
    var next := ledger + events;
    forall i | 0 <= i < |next| && next[i].ToolRequest?
      ensures i > 0 && Checkpoint.IsBoundary(next[i - 1])
    {
      var k := i - |ledger|;
      if 0 < k < |events| - 1 {
        Reconstruct.InnerAt(call, events, status, body, k);
      }
    }
  }

  lemma StepPoised(env: Env, db: Db, move: Move)
    requires Agreement.Agree(db) && Poised(db) && Apply(env, db, move).Some?
             && NoFailure(Apply(env, db, move).value.ledger)
    ensures Poised(Apply(env, db, move).value)
  {
    hide Agreement.Agree, Dispatch.Invoke, BoundariesBefore, Pending, IsFinal, RequestOf, Rejection;
    match move
    case Dispatched =>
      var call, status, body := Agreement.DispatchKeepsAgreement(env, db);
      Execution.DispatchCommits(env, db, call);
      Replay.PendingFound(db);
      BracketBoundaries(db.ledger, call, Dispatch.Invoke(env, db.core, Retried(db.ledger), call, Float).events,
                        status, body);
    case Turn(m) => QuietBoundaries(db.ledger, TurnEvents(m));
    case TurnFailed(_, _) => Checkpoint.FailureIsRecorded(env, db, move);
    case DispatchFailed(_) => Checkpoint.FailureIsRecorded(env, db, move);
    case _ =>
      var events := Agreement.QuietMove(env, db, move);
      assert forall e | e in events :: Agreement.Neutral(e);
      QuietBoundaries(db.ledger, events);
  }

  lemma {:induction false} ReachablePoised(env: Env, world: World, moves: seq<Move>, db: Db)
    requires Reaches(env, world, moves, db) && NoFailure(db.ledger)
    ensures Poised(db)
  {
    hide Apply, Poised, Agreement.Agree;
    if moves == [] {
      InitPoised(world);
    } else {
      var n := |moves| - 1;
      var before := Exec(env, Init(world), moves[..n]).value;
      Checkpoint.StepExtendsLedger(env, before, moves[n]);
      ReachablePoised(env, world, moves[..n], before);
      Agreement.ReachableAgrees(env, world, moves[..n], before);
      StepPoised(env, before, moves[n]);
    }
  }

  lemma InitPoised(world: World)
    ensures Poised(Init(world))
  {
  }

  predicate HasPoint(points: seq<Checkpoint.Point>, k: nat) {
    exists p | p in points :: |p.prefix| == k
  }

  lemma BoundaryIsListed(db: Db, k: nat)
    requires Checkpoint.ListOf(db).Some? && 0 < k <= |db.ledger| && Checkpoint.IsBoundary(db.ledger[k - 1])
    ensures HasPoint(Checkpoint.ListOf(db).value, k)
  {
    Checkpoint.PointsAreBoundaries(db.ledger, db.ledger[..k]);
    var p :| p in Checkpoint.ListOf(db).value && p.prefix == db.ledger[..k];
  }

  lemma ListedCallsDescribed(db: Db)
    requires Checkpoint.ListOf(db).Some?
    ensures Discover(db.ledger).Search? && forall c | c in Discover(db.ledger).calls :: Described(db.ledger, c)
  {
    hide Described;
    SearchStands(db.ledger);
  }

  /**
    On every ledger the engine writes and `List` accepts, each discovered call is
    described exactly, its response and the event before its request are boundaries,
    and a recorded decision is a turn after the response with no tool call between.
   */
  lemma CallsAreTargets(env: Env, world: World, moves: seq<Move>, db: Db, c: Call)
    requires Reaches(env, world, moves, db) && NoFailure(db.ledger) && Checkpoint.ListOf(db).Some?
    requires Discover(db.ledger).Search? && c in Discover(db.ledger).calls
    ensures Described(db.ledger, c)
    ensures c.request > 1 && HasPoint(Checkpoint.ListOf(db).value, c.request - 1)
    ensures HasPoint(Checkpoint.ListOf(db).value, c.response)
    ensures c.decision != 0 ==> c.response < c.decision <= |db.ledger| && db.ledger[c.decision - 1].ModelResponse?
                                && forall k | c.response <= k < c.decision - 1 ::
                                    !db.ledger[k].ToolRequest? && !db.ledger[k].ModelResponse?
  {
    hide Exec, Checkpoint.ListOf, HasPoint, Pending;
    ListedCallsDescribed(db);
    ReachablePoised(env, world, moves, db);
    assert db.ledger[c.request - 1].ToolRequest?;
    BoundaryIsListed(db, c.request - 1);
    BoundaryIsListed(db, c.response);
    DecisionIsNext(db.ledger, c.response);
  }

  lemma {:induction false} DecisionIsNext(ledger: seq<Event>, k: nat)
    ensures var d := Decision(ledger, k);
            d != 0 ==> k < d <= |ledger| && ledger[d - 1].ModelResponse?
                       && forall j | k <= j < d - 1 :: !ledger[j].ToolRequest? && !ledger[j].ModelResponse?
    decreases |ledger| - k
  {
    if k < |ledger| && !ledger[k].ToolRequest? && !ledger[k].ModelResponse? {
      DecisionIsNext(ledger, k + 1);
    }
  }

  // Planning -----------------------------------------------------------------------------------

  datatype Kind = ModelChange | ResponseChange | DispatchChange

  datatype Intervention = Intervention(kind: Kind, calls: Option<seq<string>>)

  datatype Plan = Plan(call: Call, eventSeq: nat, checkpoint: Checkpoint.Point)

  datatype PlanError = UnknownCall(id: string) | NoDecision(id: string) | NotACheckpoint(k: int) | NothingToDo

  datatype Planned = Plans(plans: seq<Plan>) | NoPlan(error: PlanError)

  function EventSeq(kind: Kind, c: Call): nat {
    match kind
    case ModelChange => c.decision
    case ResponseChange => c.response
    case DispatchChange => c.request
  }

  function CheckpointSeq(kind: Kind, c: Call): int {
    if kind.DispatchChange? then c.request - 1 else c.response
  }

  function Select(points: seq<Checkpoint.Point>, k: int): (p: Option<Checkpoint.Point>)
    ensures p.Some? ==> p.value in points && |p.value.prefix| == k
    ensures p.None? ==> forall q | q in points :: |q.prefix| != k
  {
    if points == [] then None
    else if |points[0].prefix| == k then Some(points[0])
    else Select(points[1..], k)
  }

  function ByID(calls: seq<Call>, id: string): (c: Option<Call>)
    ensures c.Some? ==> c.value in calls && c.value.id == id
    ensures c.None? ==> forall k | k in calls :: k.id != id
  {
    if calls == [] then None
    else if calls[|calls| - 1].id == id then Some(calls[|calls| - 1])
    else ByID(calls[..|calls| - 1], id)
  }

  /** The calls an intervention is aimed at: all of them, or the ones it names. */
  method Targets(calls: seq<Call>, aim: Intervention) returns (targets: seq<Call>, missing: Option<string>)
    ensures forall c | c in targets :: c in calls
    ensures aim.calls.None? ==> targets == calls && missing.None?
    ensures missing.Some? ==>
              aim.calls.Some? && missing.value in aim.calls.value && forall c | c in calls :: c.id != missing.value
    ensures missing.None? && aim.calls.Some? ==>
              |targets| == |aim.calls.value| && forall i | 0 <= i < |targets| :: targets[i].id == aim.calls.value[i]
  {
    missing := None;
    if aim.calls.None? {
      return calls, None;
    }
    targets := [];
    var ids := aim.calls.value;
    for i := 0 to |ids|
      invariant |targets| == i && forall j | 0 <= j < i :: targets[j] in calls && targets[j].id == ids[j]
    {
      var c := ByID(calls, ids[i]);
      if c.None? {
        missing := Some(ids[i]);
        return;
      }
      targets := targets + [c.value];
    }
  }

  /**
    A plan is aimed right: the event changed is the call's own and the fork starts at a
    listed boundary just before it.
   */
  predicate Aimed(calls: seq<Call>, points: seq<Checkpoint.Point>, kind: Kind, p: Plan) {
    && p.call in calls && p.checkpoint in points
    && p.eventSeq == EventSeq(kind, p.call) && p.eventSeq != 0
    && |p.checkpoint.prefix| == CheckpointSeq(kind, p.call)
  }

  /** Every call worth a plan has one: without a decision there is none to change. */
  predicate Covered(plans: seq<Plan>, kind: Kind, c: Call) {
    (kind.ModelChange? && c.decision == 0) || exists p | p in plans :: p.call == c && p.eventSeq == EventSeq(kind, c)
  }

  /** An intervention is carried out on everything it is aimed at. */
  predicate CarriedOut(calls: seq<Call>, plans: seq<Plan>, a: Intervention) {
    && (a.calls.None? ==> forall c | c in calls :: Covered(plans, a.kind, c))
    && (a.calls.Some? ==>
        forall id | id in a.calls.value :: exists c | c in calls :: c.id == id && Covered(plans, a.kind, c))
  }

  lemma StillCarriedOut(calls: seq<Call>, plans: seq<Plan>, more: seq<Plan>, a: Intervention)
    requires CarriedOut(calls, plans, a)
    ensures CarriedOut(calls, plans + more, a)
  {
    assert forall c | Covered(plans, a.kind, c) :: Covered(plans + more, a.kind, c);
  }

  lemma NowCarriedOut(calls: seq<Call>, targets: seq<Call>, plans: seq<Plan>, more: seq<Plan>, a: Intervention)
    requires forall c | c in targets :: c in calls && Covered(more, a.kind, c)
    requires if a.calls.None? then targets == calls
             else |targets| == |a.calls.value| && forall i | 0 <= i < |targets| :: targets[i].id == a.calls.value[i]
    ensures CarriedOut(calls, plans + more, a)
  {
    assert forall c | Covered(more, a.kind, c) :: Covered(plans + more, a.kind, c);
    if a.calls.Some? {
      forall id | id in a.calls.value
        ensures exists c | c in calls :: c.id == id && Covered(plans + more, a.kind, c)
      {
        var i :| 0 <= i < |targets| && a.calls.value[i] == id;
        assert targets[i] in targets;
      }
    }
  }

  predicate Reachable(points: seq<Checkpoint.Point>, c: Call) {
    c.request > 1 && c.response > 0 && HasPoint(points, c.request - 1) && HasPoint(points, c.response)
  }

  /** So planning on an engine-made ledger never misses a checkpoint. */
  lemma EngineCallsAreReachable(env: Env, world: World, moves: seq<Move>, db: Db)
    requires Reaches(env, world, moves, db) && NoFailure(db.ledger) && Checkpoint.ListOf(db).Some?
    ensures Discover(db.ledger).Search?
            && forall c | c in Discover(db.ledger).calls :: Reachable(Checkpoint.ListOf(db).value, c)
  {
    hide Exec, Checkpoint.ListOf, HasPoint;
    ListedCallsDescribed(db);
    forall c | c in Discover(db.ledger).calls
      ensures Reachable(Checkpoint.ListOf(db).value, c)
    {
      CallsAreTargets(env, world, moves, db, c);
    }
  }

  /**
    The checkpoint choice of `planForks`. With every call's boundaries listed it
    never fails for want of a checkpoint: it refuses only a call the run does not
    have, a named call no decision follows, or an intervention that plans nothing.
   */
  method PlanForks(calls: seq<Call>, points: seq<Checkpoint.Point>, aims: seq<Intervention>) returns (r: Planned)
    ensures (forall c | c in calls :: Reachable(points, c)) && r.NoPlan? ==> !r.error.NotACheckpoint?
    ensures r.NoPlan? && r.error.UnknownCall? ==>
              (exists a | a in aims :: a.calls.Some? && r.error.id in a.calls.value)
                  && forall c | c in calls :: c.id != r.error.id
    ensures r.NoPlan? && r.error.NoDecision? ==> exists c | c in calls :: c.id == r.error.id && c.decision == 0
    ensures (forall c | c in calls :: Reachable(points, c)) && r.Plans? ==>
              r.plans != [] && forall p | p in r.plans :: exists a | a in aims :: Aimed(calls, points, a.kind, p)
    ensures r.Plans? ==> forall a | a in aims :: CarriedOut(calls, r.plans, a)
  {
    hide CarriedOut;
    var plans: seq<Plan> := [];
    for i := 0 to |aims|
      invariant forall j | 0 <= j < i :: CarriedOut(calls, plans, aims[j])
      invariant (forall c | c in calls :: Reachable(points, c)) ==>
                  forall p | p in plans :: exists a | a in aims :: Aimed(calls, points, a.kind, p)
    {
      var targets, missing := Targets(calls, aims[i]);
      if missing.Some? {
        assert aims[i] in aims;
        return NoPlan(UnknownCall(missing.value));
      }
      var more := PlanTargets(calls, points, aims[i], targets);
      if more.NoPlan? {
        return more;
      }
      assert aims[i] in aims;
      forall j | 0 <= j < i
        ensures CarriedOut(calls, plans + more.plans, aims[j])
      {
        StillCarriedOut(calls, plans, more.plans, aims[j]);
      }
      NowCarriedOut(calls, targets, plans, more.plans, aims[i]);
      plans := plans + more.plans;
    }
    if plans == [] {
      return NoPlan(NothingToDo);
    }
    r := Plans(plans);
  }

  method PlanTargets(calls: seq<Call>, points: seq<Checkpoint.Point>, aim: Intervention, targets: seq<Call>)
    returns (r: Planned)
    requires forall c | c in targets :: c in calls
    ensures r.NoPlan? ==> r.error.NoDecision? || r.error.NotACheckpoint?
    ensures (forall c | c in calls :: Reachable(points, c)) && r.NoPlan? ==> r.error.NoDecision?
    ensures r.NoPlan? && r.error.NoDecision? ==> exists c | c in calls :: c.id == r.error.id && c.decision == 0
    ensures (forall c | c in calls :: Reachable(points, c)) && r.Plans?
            ==> forall p | p in r.plans :: Aimed(calls, points, aim.kind, p)
    ensures r.Plans? ==> forall c | c in targets :: Covered(r.plans, aim.kind, c)
  {
    var plans: seq<Plan> := [];
    for i := 0 to |targets|
      invariant forall j | 0 <= j < i :: Covered(plans, aim.kind, targets[j])
      invariant (forall c | c in calls :: Reachable(points, c))
                ==> forall p | p in plans :: Aimed(calls, points, aim.kind, p)
    {
      var c := targets[i];
      assert c in calls;
      if aim.kind.ModelChange? && c.decision == 0 {
        if aim.calls.Some? {
          return NoPlan(NoDecision(c.id));
        }
        continue;
      }
      var k := CheckpointSeq(aim.kind, c);
      var p := Select(points, k);
      if p.None? {
        return NoPlan(NotACheckpoint(k));
      }
      var plan := Plan(c, EventSeq(aim.kind, c), p.value);
      assert forall j | 0 <= j < i && Covered(plans, aim.kind, targets[j]) ::
          Covered(plans + [plan], aim.kind, targets[j]);
      plans := plans + [plan];
      assert plan in plans;
    }
    r := Plans(plans);
  }
}
