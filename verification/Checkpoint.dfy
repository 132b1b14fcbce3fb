/** The ledger scan that finds restore boundaries, and why it accepts what the engine writes. */
module Checkpoint {
  import opened Basics
  import opened Protocol
  import opened Engine
  import Agreement
  import Dispatch
  import Execution

  /**
    A restore boundary. The prefix stands for its digest: the digest covers every
    event of the prefix, so equal digests mean equal prefixes.
   */
  datatype Point = Point(prefix: seq<Event>, turns: nat, calls: nat)

  datatype Acc = Acc(
    modelOpen: bool, toolOpen: bool, callId: string, op: string,
    turns: nat, calls: nat, ended: bool, points: seq<Point>)

  predicate IsBoundary(e: Event) {
    e.ModelResponse? || e.ToolResponse? || e.Paused? || e.Completed?
  }

  /** The automaton without the boundary list: `None` is a refused ledger. */
  function Admit(a: Acc, e: Event, first: bool): Option<Acc> {
    if a.ended || (first != e.Started?) then None else
      match e
      case Started => Some(a)
      case ModelRequest(_) => if a.modelOpen || a.toolOpen then None else Some(a.(modelOpen := true))
      case Interrupted(_) => if a.modelOpen then Some(a) else None
      case ModelResponse(m) =>
        if a.modelOpen && !a.toolOpen && m.Assistant? then Some(a.(modelOpen := false, turns := a.turns + 1)) else None
      case ToolRequest(call) =>
        if a.modelOpen || a.toolOpen || |call.id| == 0 || |call.op| == 0 then None
        else Some(a.(toolOpen := true, callId := call.id, op := call.op))
      case ToolResponse(id, op, _, _) =>
        if a.toolOpen && id == a.callId && op == a.op then Some(a.(toolOpen := false, calls := a.calls + 1)) else None
      case Paused(_) => if a.modelOpen || a.toolOpen then None else Some(a)
      case Completed(_) => if a.modelOpen || a.toolOpen then None else Some(a.(ended := true))
      case Error(kind) => if a.toolOpen && kind.Injected503? then Some(a) else None
      case _ => if a.toolOpen then Some(a) else None
  }

  function Fresh(): Acc {
    Acc(false, false, [], [], 0, 0, false, [])
  }

  function AddPoint(a: Acc, prefix: seq<Event>): Acc
    requires prefix != []
  {
    if IsBoundary(prefix[|prefix| - 1]) then a.(points := a.points + [Point(prefix, a.turns, a.calls)]) else a
  }

  function Scan(ledger: seq<Event>): Option<Acc> {
    if ledger == [] then Some(Fresh()) else
      var n := |ledger| - 1;
      match Scan(ledger[..n])
      case None => None
      case Some(a) =>
        match Admit(a, ledger[n], n == 0)
        case None => None
        case Some(b) => Some(AddPoint(b, ledger))
  }

  /** What `List` returns for a run row and its events. */
  function ListOf(db: Db): Option<seq<Point>> {
    if !db.status.StatusPaused? && !db.status.StatusCompleted? then None
    else if db.ledger == [] || Scan(db.ledger).None? then None
    else
      var a := Scan(db.ledger).value;
      var last := db.ledger[|db.ledger| - 1];
      if a.modelOpen || a.toolOpen || a.turns != db.core.step then None
      else if db.status.StatusPaused? && !last.Paused? then None
      else if db.status.StatusCompleted? && !last.Completed? then None
      else Some(a.points)
  }

  lemma {:induction false} RefusedStaysRefused(ledger: seq<Event>, k: nat)
    requires k <= |ledger| && Scan(ledger[..k]).None?
    ensures Scan(ledger).None?
  {
    if k < |ledger| {
      assert ledger[..|ledger| - 1][..k] == ledger[..k];
      RefusedStaysRefused(ledger[..|ledger| - 1], k);
    } else {
      assert ledger[..k] == ledger;
    }
  }

  lemma ScanSnoc(ledger: seq<Event>, i: nat)
    requires i < |ledger|
    ensures Scan(ledger[..i + 1]) ==
            match Scan(ledger[..i])
            case None => None
            case Some(a) =>
              match Admit(a, ledger[i], i == 0)
              case None => None
              case Some(b) => Some(AddPoint(b, ledger[..i + 1]))
  {
    assert ledger[..i + 1][..i] == ledger[..i];
  }

  /** A completion event that is not last is refused there and then. */
  lemma EarlyCompletionRefused(ledger: seq<Event>, i: nat)
    requires i + 1 < |ledger| && ledger[i].Completed?
    ensures Scan(ledger).None?
  {
    hide Scan;
    ScanSnoc(ledger, i);
    ScanSnoc(ledger, i + 1);
    RefusedStaysRefused(ledger, i + 2);
  }

  /** The scan loop of `List`, with its own open flags, counters and list. */
  method List(db: Db) returns (points: Option<seq<Point>>)
    ensures points == ListOf(db)
  {
    hide Agreement.Agree;
    if !db.status.StatusPaused? && !db.status.StatusCompleted? {
      return None;
    }
    var ledger := db.ledger;
    if |ledger| == 0 {
      return None;
    }
    var a := Fresh();
    for i := 0 to |ledger|
      invariant Scan(ledger[..i]) == Some(a)
    {
      var e := ledger[i];
      ScanSnoc(ledger, i);
      if e.Completed? && i != |ledger| - 1 {
        EarlyCompletionRefused(ledger, i);
        return None;
      }
      var b := Step(a, e, i == 0);
      if b.None? {
        RefusedStaysRefused(ledger, i + 1);
        return None;
      }
      a := b.value;
      if IsBoundary(e) {
        a := a.(points := a.points + [Point(ledger[..i + 1], a.turns, a.calls)]);
      }
    }
    assert ledger[..|ledger|] == ledger;
    if a.modelOpen || a.toolOpen || a.turns != db.core.step {
      return None;
    }
    if db.status.StatusPaused? && !ledger[|ledger| - 1].Paused? {
      return None;
    }
    if db.status.StatusCompleted? && !ledger[|ledger| - 1].Completed? {
      return None;
    }
    points := Some(a.points);
  }

  /** One case of the event switch. */
  method Step(a: Acc, e: Event, first: bool) returns (b: Option<Acc>)
    ensures b == Admit(a, e, first)
  {
    if a.ended || first != e.Started? {
      return None;
    }
    var modelOpen, toolOpen, turns, calls, ended := a.modelOpen, a.toolOpen, a.turns, a.calls, a.ended;
    var callId, op := a.callId, a.op;
    match e {
      case Started =>
      case ModelRequest(_) =>
        if modelOpen || toolOpen { return None; }
        modelOpen := true;
      case ModelResponse(m) =>
        if !modelOpen || toolOpen || !m.Assistant? { return None; }
        modelOpen := false;
        turns := turns + 1;
      case ToolRequest(call) =>
        if modelOpen || toolOpen || |call.id| == 0 || |call.op| == 0 { return None; }
        toolOpen, callId, op := true, call.id, call.op;
      case Interrupted(_) =>
        if !modelOpen { return None; }
      case Error(kind) =>
        if !toolOpen || !kind.Injected503? { return None; }
      case ToolResponse(id, o, _, _) =>
        if !toolOpen || id != callId || o != op { return None; }
        toolOpen := false;
        calls := calls + 1;
      case Paused(_) =>
        if modelOpen || toolOpen { return None; }
      case Completed(_) =>
        if modelOpen || toolOpen { return None; }
        ended := true;
      case _ =>
        if !toolOpen { return None; }
    }
    b := Some(Acc(modelOpen, toolOpen, callId, op, turns, calls, ended, a.points));
  }

  // Boundaries --------------------------------------------------------------

  lemma AdmitKeepsPoints(a: Acc, e: Event, first: bool)
    ensures Admit(a, e, first).Some? ==> Admit(a, e, first).value.points == a.points
  {
  }

  /** The last event adds a point exactly when it is a boundary. */
  lemma ScanAddsPoint(ledger: seq<Event>) returns (turns: nat, calls: nat)
    requires ledger != [] && Scan(ledger).Some?
    ensures var n := |ledger| - 1;
            && Scan(ledger[..n]).Some?
            && Scan(ledger).value.points
               == Scan(ledger[..n]).value.points + (if IsBoundary(ledger[n]) then [Point(ledger, turns, calls)] else [])
  {
    hide Admit, IsBoundary;
    var n := |ledger| - 1;
    AdmitKeepsPoints(Scan(ledger[..n]).value, ledger[n], n == 0);
    var b := Admit(Scan(ledger[..n]).value, ledger[n], n == 0).value;
    turns, calls := b.turns, b.calls;
  }

  predicate Lists(points: seq<Point>, prefix: seq<Event>) {
    exists p | p in points :: p.prefix == prefix
  }

  lemma ListsSnoc(points: seq<Point>, p: Point, prefix: seq<Event>)
    ensures Lists(points + [p], prefix) <==> Lists(points, prefix) || p.prefix == prefix
  {
    assert p in points + [p];
  }

  /** The reported points are exactly the prefixes that end in a boundary event. */
  lemma {:induction false} PointsAreBoundaries(ledger: seq<Event>, prefix: seq<Event>)
    requires Scan(ledger).Some?
    ensures Lists(Scan(ledger).value.points, prefix) <==>
            prefix != [] && prefix <= ledger && IsBoundary(prefix[|prefix| - 1])
  {
    hide IsBoundary, Lists;
    if ledger == [] {
      NothingListed(prefix);
    } else {
      var n := |ledger| - 1;
      PointsAreBoundaries(ledger[..n], prefix);
      var turns, calls := ScanAddsPoint(ledger);
      PrefixSnoc(ledger, prefix);
      if IsBoundary(ledger[n]) {
        ListsSnoc(Scan(ledger[..n]).value.points, Point(ledger, turns, calls), prefix);
      } else {
        assert Scan(ledger[..n]).value.points + [] == Scan(ledger[..n]).value.points;
      }
    }
  }

  lemma NothingListed(prefix: seq<Event>)
    ensures Scan([]).Some? && !Lists(Scan([]).value.points, prefix)
  {
  }

  lemma PrefixSnoc(ledger: seq<Event>, prefix: seq<Event>)
    requires ledger != []
    ensures prefix <= ledger <==> prefix <= ledger[..|ledger| - 1] || prefix == ledger
  {
  }

  /** Points are listed in ledger order, so an event sequence number selects at most one. */
  lemma {:induction false} PointsAscend(ledger: seq<Event>)
    requires Scan(ledger).Some?
    ensures var points := Scan(ledger).value.points;
            && (forall i, j | 0 <= i < j < |points| :: |points[i].prefix| < |points[j].prefix|)
            && forall p | p in points :: 0 < |p.prefix| <= |ledger|
  {
    hide Admit, IsBoundary;
    if ledger != [] {
      var n := |ledger| - 1;
      PointsAscend(ledger[..n]);
      AdmitKeepsPoints(Scan(ledger[..n]).value, ledger[n], n == 0);
    }
  }

  // The engine's ledgers ----------------------------------------------------

  predicate NamedOperations(env: Env) {
    forall op | op in env.operations :: |op.id| > 0
  }

  function Blank(a: Acc): Acc {
    a.(points := [])
  }

  function AdmitAll(a: Acc, events: seq<Event>): Option<Acc> {
    if events == [] then Some(a) else
      match AdmitAll(a, events[..|events| - 1])
      case None => None
      case Some(b) => Admit(b, events[|events| - 1], false)
  }

  /** Points are only a by-product: the scan of an extended ledger is the automaton run on from where it stood. */
  lemma {:induction false} ScanExtends(ledger: seq<Event>, events: seq<Event>)
    requires ledger != [] && Scan(ledger).Some? && AdmitAll(Blank(Scan(ledger).value), events).Some?
    ensures Scan(ledger + events).Some?
    ensures Blank(Scan(ledger + events).value) == AdmitAll(Blank(Scan(ledger).value), events).value
  {
    if events == [] {
      assert ledger + events == ledger;
    } else {
      var n := |events| - 1;
      ScanExtends(ledger, events[..n]);
      assert ledger + events == (ledger + events[..n]) + [events[n]];
      ScanOne(ledger + events[..n], events[n]);
    }
  }

  lemma ScanOne(ledger: seq<Event>, e: Event)
    requires ledger != [] && Scan(ledger).Some? && Admit(Blank(Scan(ledger).value), e, false).Some?
    ensures Scan(ledger + [e]).Some?
    ensures Blank(Scan(ledger + [e]).value) == Admit(Blank(Scan(ledger).value), e, false).value
  {
    assert (ledger + [e])[..|ledger|] == ledger;
    AdmitIgnoresPoints(Scan(ledger).value, e);
  }

  lemma AdmitIgnoresPoints(a: Acc, e: Event)
    ensures Admit(a, e, false).Some? <==> Admit(Blank(a), e, false).Some?
    ensures Admit(a, e, false).Some? ==> Blank(Admit(a, e, false).value) == Admit(Blank(a), e, false).value
  {
  }

  lemma {:induction false} AdmitAllAppend(a: Acc, left: seq<Event>, right: seq<Event>)
    requires AdmitAll(a, left).Some?
    ensures AdmitAll(a, left + right) == AdmitAll(AdmitAll(a, left).value, right)
  {
    if right == [] {
      assert left + right == left;
    } else {
      var n := |right| - 1;
      AdmitAllAppend(a, left, right[..n]);
      assert (left + right)[..|left + right| - 1] == left + right[..n];
    }
  }

  lemma AdmitAllOne(a: Acc, e: Event)
    ensures AdmitAll(a, [e]) == Admit(a, e, false)
  {
    assert [e][..0] == [];
  }

  lemma {:induction false} InnerAdmits(a: Acc, inner: seq<Event>)
    requires a.toolOpen && !a.ended && forall e | e in inner :: IsInner(e)
    ensures AdmitAll(a, inner) == Some(a)
  {
    if inner != [] {
      var n := |inner| - 1;
      InnerAdmits(a, inner[..n]);
      assert IsInner(inner[n]);
    }
  }

  lemma BracketAdmits(a: Acc, call: ToolCall, events: seq<Event>, status: int, body: Json)
    requires Dispatch.IsBracket(call, events, status, body)
    requires !a.modelOpen && !a.toolOpen && !a.ended && |call.id| > 0 && |call.op| > 0
    ensures AdmitAll(a, events) == Some(a.(callId := call.id, op := call.op, calls := a.calls + 1))
  {
    var n := |events| - 1;
    var inner := events[1..n];
    var open := a.(toolOpen := true, callId := call.id, op := call.op);
    AdmitAllOne(a, events[0]);
    InnerAdmits(open, inner);
    AdmitAllAppend(a, [events[0]], inner);
    assert events[..n] == [events[0]] + inner;
  }

  lemma {:induction false} InterruptionsAdmit(a: Acc, attempts: seq<Interruption>)
    requires a.modelOpen && !a.ended
    ensures AdmitAll(a, InterruptedEvents(attempts)) == Some(a)
  {
    var events := InterruptedEvents(attempts);
    if attempts != [] {
      var n := |attempts| - 1;
      InterruptionsAdmit(a, attempts[..n]);
      assert events[..n] == InterruptedEvents(attempts[..n]);
    }
  }

  lemma TurnAdmits(a: Acc, m: Message)
    requires a.modelOpen && !a.toolOpen && !a.ended && m.Assistant?
    ensures AdmitAll(a, TurnEvents(m)) == Some(a.(modelOpen := false, turns := a.turns + 1))
  {
    InterruptionsAdmit(a, InterruptionsOf(m));
    AdmitAllOne(a, ModelResponse(m));
    AdmitAllAppend(a, InterruptedEvents(InterruptionsOf(m)), [ModelResponse(m)]);
  }

  /** Where the scan stands on a reachable ledger without recorded failures. */
  predicate Tracks(db: Db) {
    && db.ledger != [] && Scan(db.ledger).Some?
    && var a := Scan(db.ledger).value;
       && a.modelOpen == Open(db.ledger) && !a.toolOpen
       && a.turns == db.core.step && a.calls == |ToolMessages(db.core.transcript)|
       && a.ended == db.status.StatusCompleted?
       && (db.status.StatusCompleted? ==> db.ledger[|db.ledger| - 1].Completed?)
  }

  lemma DispatchTracks(env: Env, db: Db)
    requires Tracks(db) && Agreement.Agree(db) && NamedOperations(env)
    requires Apply(env, db, Dispatched).Some? && !Open(db.ledger)
    ensures Tracks(Apply(env, db, Dispatched).value)
  {
    hide Agreement.Agree, Dispatch.Invoke, ApplyDispatch;
    var call, status, body := Agreement.DispatchKeepsAgreement(env, db);
    var events := Dispatch.Invoke(env, db.core, Retried(db.ledger), call, Float).events;
    DispatchedNames(env, db, call);
    BracketAdmits(Blank(Scan(db.ledger).value), call, events, status, body);
    ScanExtends(db.ledger, events);
    Execution.BracketCloses(db.ledger, events, call, status, body);
    PlainSnoc(db.core.transcript, Tool(call.id, call.op, status, body));
  }

  lemma DispatchedNames(env: Env, db: Db, call: ToolCall)
    requires Agreement.Agree(db) && NamedOperations(env) && call in AllCalls(db.core.transcript)
    requires Dispatch.Invoke(env, db.core, Retried(db.ledger), call, Float).Committed?
    ensures |call.id| > 0 && |call.op| > 0
  {
    hide Dispatch.Perform;
  }

  lemma TurnTracks(env: Env, db: Db, m: Message)
    requires Tracks(db) && Apply(env, db, Turn(m)).Some?
    ensures Tracks(Apply(env, db, Turn(m)).value)
  {
    hide Pending, IsFinal, TurnFaultOf, RequestOf, Scan, ToolMessages, AdmitAll;
    TurnAdmits(Blank(Scan(db.ledger).value), m);
    ScanExtends(db.ledger, TurnEvents(m));
    PlainSnoc(db.core.transcript, m);
    assert ToolMessages(db.core.transcript) + [] == ToolMessages(db.core.transcript);
  }

  lemma QuietTracks(env: Env, db: Db, move: Move)
    requires Tracks(db) && Apply(env, db, move).Some?
             && (move.Request_? || move.Pause? || (move.Complete? && !Open(db.ledger)))
    ensures Tracks(Apply(env, db, move).value)
  {
    hide Pending, IsFinal, RequestOf, Scan, ToolMessages, ApplyDispatch;
    var next := Apply(env, db, move).value;
    if next.ledger != db.ledger {
      var e := next.ledger[|db.ledger|];
      assert next.ledger == db.ledger + [e];
      ScanOne(db.ledger, e);
    }
  }

  /** The ledger only ever grows. */
  lemma StepExtendsLedger(env: Env, db: Db, move: Move)
    requires Apply(env, db, move).Some?
    ensures db.ledger <= Apply(env, db, move).value.ledger
  {
    hide Pending, IsFinal, RequestOf, Rejection, Dispatch.Invoke;
  }

  lemma FailureIsRecorded(env: Env, db: Db, move: Move)
    requires Apply(env, db, move).Some? && (move.TurnFailed? || move.DispatchFailed?)
    ensures !NoFailure(Apply(env, db, move).value.ledger)
  {
    hide Pending, IsFinal, RequestOf;
    var ledger := Apply(env, db, move).value.ledger;
    assert IsFailure(ledger[|ledger| - 1]);
  }

  lemma {:induction false} ReachableTracks(env: Env, world: World, moves: seq<Move>, db: Db)
    requires NamedOperations(env) && Reaches(env, world, moves, db) && NoFailure(db.ledger)
    ensures Tracks(db)
  {
    hide Apply, Pending, IsFinal, Tracks;
    if moves == [] {
      InitTracks(world);
    } else {
      var n := |moves| - 1;
      var before := Exec(env, Init(world), moves[..n]).value;
      StepExtendsLedger(env, before, moves[n]);
      ReachableTracks(env, world, moves[..n], before);
      Agreement.ReachableAgrees(env, world, moves[..n], before);
      Execution.ReachableResumable(env, world, moves[..n], before);
      StepTracks(env, before, moves[n]);
    }
  }

  lemma InitTracks(world: World)
    ensures Tracks(Init(world))
  {
    assert [Started][..0] == [];
  }

  lemma StepTracks(env: Env, db: Db, move: Move)
    requires NamedOperations(env) && Agreement.Agree(db) && Execution.Resumable(env, db) && Tracks(db)
    requires Apply(env, db, move).Some? && NoFailure(Apply(env, db, move).value.ledger)
    ensures Tracks(Apply(env, db, move).value)
  {
    hide Agreement.Agree, Dispatch.Invoke, Tracks, RequestOf, Rejection;
    match move
    case Dispatched => DispatchTracks(env, db);
    case Turn(m) => TurnTracks(env, db, m);
    case TurnFailed(_, _) => FailureIsRecorded(env, db, move);
    case DispatchFailed(_) => FailureIsRecorded(env, db, move);
    case _ => QuietTracks(env, db, move);
  }

  lemma {:induction false} ScannedHasNoFailure(ledger: seq<Event>)
    requires Scan(ledger).Some?
    ensures NoFailure(ledger)
  {
    if ledger != [] {
      var n := |ledger| - 1;
      ScannedHasNoFailure(ledger[..n]);
      assert ledger == ledger[..n] + [ledger[n]];
      AdmittedIsNoFailure(Scan(ledger[..n]).value, ledger[n], n == 0);
    }
  }

  lemma AdmittedIsNoFailure(a: Acc, e: Event, first: bool)
    requires Admit(a, e, first).Some?
    ensures !IsFailure(e)
  {
  }

  /** Which reachable runs `List` accepts: those without a recorded failure that completed or just paused. */
  lemma ListedIff(env: Env, world: World, moves: seq<Move>, db: Db)
    requires NamedOperations(env) && Reaches(env, world, moves, db)
    ensures ListOf(db).Some? <==>
            && NoFailure(db.ledger)
            && (db.status.StatusCompleted?
              || (db.status.StatusPaused? && LastOf(db.ledger) == Some(Paused(db.core.step))))
  {
    hide Exec, Scan, Tracks;
    if ListOf(db).Some? {
      ScannedHasNoFailure(db.ledger);
    }
    if NoFailure(db.ledger) {
      ReachableTracks(env, world, moves, db);
      ReachablePauses(env, world, moves, db);
      if db.status.StatusCompleted? || (db.status.StatusPaused? && db.ledger[|db.ledger| - 1].Paused?) {
        TrackedHasLedger(db);
        var _ := TrackedEnd(db);
      }
    }
  }

  lemma TrackedHasLedger(db: Db)
    requires Tracks(db)
    ensures db.ledger != []
  {
  }

  /** A pause that ends the ledger names the step the run stands at. */
  lemma {:induction false} ReachablePauses(env: Env, world: World, moves: seq<Move>, db: Db)
    requires Reaches(env, world, moves, db)
    ensures db.ledger != [] && (db.ledger[|db.ledger| - 1].Paused? ==> db.ledger[|db.ledger| - 1].step == db.core.step)
  {
    hide Apply;
    if moves != [] {
      var n := |moves| - 1;
      var before := Exec(env, Init(world), moves[..n]).value;
      ReachablePauses(env, world, moves[..n], before);
      Agreement.ReachableAgrees(env, world, moves[..n], before);
      StepPauses(env, before, moves[n]);
    }
  }

  lemma StepPauses(env: Env, db: Db, move: Move)
    requires Agreement.Agree(db) && Apply(env, db, move).Some? && db.ledger != []
    requires db.ledger[|db.ledger| - 1].Paused? ==> db.ledger[|db.ledger| - 1].step == db.core.step
    ensures var next := Apply(env, db, move).value;
            next.ledger != [] && (next.ledger[|next.ledger| - 1].Paused?
                ==> next.ledger[|next.ledger| - 1].step == next.core.step)
  {
    hide Agreement.Agree, Dispatch.Invoke, Pending, IsFinal, RequestOf, Rejection;
    if move.Dispatched? {
      var _, _, _ := Agreement.DispatchKeepsAgreement(env, db);
    }
  }

  /** A tracked run that has ended is listed, and its last point is the whole ledger. */
  lemma TrackedEnd(db: Db) returns (last: Point)
    requires Tracks(db)
    requires db.status.StatusCompleted? || (db.status.StatusPaused? && db.ledger[|db.ledger| - 1].Paused?)
    ensures ListOf(db).Some? && ListOf(db).value != [] && last == ListOf(db).value[|ListOf(db).value| - 1]
    ensures last == Point(db.ledger, db.core.step, |ToolMessages(db.core.transcript)|)
  {
    last := Point(db.ledger, db.core.step, |ToolMessages(db.core.transcript)|);
  }

  /**
    Whenever `Execute` returns paused or completed on a reachable run that
    recorded no failure, `List` accepts the ledger, and the last counters it
    reports are the run's step and the number of tool messages.
   */
  lemma ExecutedRunsHaveCheckpoints(env: Env, world: World, moves: seq<Move>, db: Db, provider: Provider, asked: nat,
                                    maxSteps: nat)
    requires NamedOperations(env) && Reaches(env, world, moves, db) && maxSteps >= 1
    requires var report := Execute(env, db, provider, asked, 0, maxSteps);
             (report.verdict.RunPaused? || report.verdict.RunCompleted?) && NoFailure(report.db.ledger)
    ensures var after := Execute(env, db, provider, asked, 0, maxSteps).db;
            var points := ListOf(after);
            && points.Some? && points.value != []
            && var last := points.value[|points.value| - 1];
               last.prefix == after.ledger && last.turns == after.core.step
               && last.calls == |ToolMessages(after.core.transcript)|
  {
    hide Agreement.Agree, Engine.Execute, Apply;
    Agreement.ReachableAgrees(env, world, moves, db);
    var more := Execution.ExecuteTakesMoves(env, db, provider, asked, 0, maxSteps);
    ExecAppend(env, Init(world), moves, more);
    var after := Engine.Execute(env, db, provider, asked, 0, maxSteps).db;
    ReachableTracks(env, world, moves + more, after);
    var _ := TrackedEnd(after);
  }
}
