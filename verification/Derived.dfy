/**
  Transcript and saved results are determined by the ledger, both in the engine and in
  the rebuilding walk. So a rebuild that reproduces the ledger has reproduced both,
  whatever the handlers did.
 */
module Derived {
  import opened Basics
  import opened Protocol
  import opened Engine
  import opened Reconstruct
  import Agreement
  import Checkpoint
  import Dispatch
  import Execution

  /** What a ledger says so far: transcript, saved results and the call being answered. */
  datatype Told = Told(transcript: seq<Message>, results: map<string, Saved>, open: Option<ToolCall>)

  function Tell(t: Told, e: Event): Told {
    match e
    case ModelResponse(m) => t.(transcript := t.transcript + [m])
    case ToolRequest(call) => t.(open := Some(call))
    case ToolResponse(_, _, status, body) =>
      if t.open.None? then t else
        var call := t.open.value;
        Told(PlainAll(t.transcript) + [Tool(call.id, call.op, status, body)],
             t.results[call.id := Saved(call.op, call.args, status, body)], None)
    case _ => t
  }

  function TellFrom(t: Told, events: seq<Event>): Told {
    if events == [] then t else Tell(TellFrom(t, events[..|events| - 1]), events[|events| - 1])
  }

  function TellAll(ledger: seq<Event>): Told {
    TellFrom(Told([], map[], None), ledger)
  }

  /** The rows are the ones the ledger tells of. */
  predicate Consistent(db: Db) {
    TellAll(db.ledger) == Told(db.core.transcript, db.core.results, None)
  }

  lemma {:induction false} TellAppend(t: Told, a: seq<Event>, b: seq<Event>)
    ensures TellFrom(t, a + b) == TellFrom(TellFrom(t, a), b)
  {
    hide Tell;
    if b == [] {
      assert a + b == a;
    } else {
      var n := |b| - 1;
      TellAppend(t, a, b[..n]);
      assert (a + b)[..|a + b| - 1] == a + b[..n];
    }
  }

  lemma TellOne(t: Told, e: Event)
    ensures TellFrom(t, [e]) == Tell(t, e)
  {
    hide Tell;
    assert [e][..0] == [];
  }

  lemma {:induction false} TellInner(t: Told, inner: seq<Event>)
    requires forall e | e in inner :: IsInner(e)
    ensures TellFrom(t, inner) == t
  {
    if inner != [] {
      var n := |inner| - 1;
      TellInner(t, inner[..n]);
      assert IsInner(inner[n]);
    }
  }

  lemma TellBracket(t: Told, call: ToolCall, events: seq<Event>, status: int, body: Json)
    requires Dispatch.IsBracket(call, events, status, body)
    ensures TellFrom(t, events)
         == Told(PlainAll(t.transcript) + [Tool(call.id, call.op, status, body)],
                 t.results[call.id := Saved(call.op, call.args, status, body)], None)
  {
    var n := |events| - 1;
    var inner := events[1..n];
    TellOne(t, events[0]);
    TellInner(t.(open := Some(call)), inner);
    TellAppend(t, [events[0]], inner);
    assert events[..n] == [events[0]] + inner;
  }

  lemma {:induction false} TellInterruptions(t: Told, attempts: seq<Interruption>)
    ensures TellFrom(t, InterruptedEvents(attempts)) == t
  {
    var events := InterruptedEvents(attempts);
    if attempts != [] {
      var n := |attempts| - 1;
      TellInterruptions(t, attempts[..n]);
      assert events[..n] == InterruptedEvents(attempts[..n]);
    }
  }

  lemma TellTurn(t: Told, m: Message)
    ensures TellFrom(t, TurnEvents(m)) == t.(transcript := t.transcript + [m])
  {
    TellInterruptions(t, InterruptionsOf(m));
    TellOne(t, ModelResponse(m));
    TellAppend(t, InterruptedEvents(InterruptionsOf(m)), [ModelResponse(m)]);
  }

  /** A committed call tells of exactly the rows it wrote, from whichever decoder. */
  lemma CommitIsTold(env: Env, db: Db, call: ToolCall, mode: NumberMode)
    requires Consistent(db) && Dispatch.Invoke(env, db.core, Retried(db.ledger), call, mode).Committed?
    ensures var a := Dispatch.Invoke(env, db.core, Retried(db.ledger), call, mode);
            Consistent(Db(db.status, db.ledger + a.events, a.core))
  {
    hide Dispatch.Invoke, Dispatch.IsBracket, Retried, TellFrom;
    var a := Dispatch.Invoke(env, db.core, Retried(db.ledger), call, mode);
    var status, body := Dispatch.InvokeAgrees(env, db.core, Retried(db.ledger), call, mode);
    TellAppend(Told([], map[], None), db.ledger, a.events);
    TellBracket(TellAll(db.ledger), call, a.events, status, body);
  }

  lemma TurnIsTold(db: Db, m: Message)
    requires Consistent(db)
    ensures Consistent(WriteTurn(db, db.core.step + 1, db.core.transcript + [m], m))
  {
    hide TellFrom, TurnEvents;
    TellAppend(Told([], map[], None), db.ledger, TurnEvents(m));
    TellTurn(TellAll(db.ledger), m);
  }

  lemma QuietIsTold(db: Db, status: Status, e: Event)
    requires Consistent(db) && (e.ModelRequest? || e.Paused? || e.Completed?)
    ensures Consistent(Db(status, db.ledger + [e], db.core))
  {
    hide TellFrom;
    TellAppend(Told([], map[], None), db.ledger, [e]);
    TellOne(TellAll(db.ledger), e);
  }

  lemma InitIsTold(world: World)
    ensures Consistent(Init(world))
  {
    TellOne(Told([], map[], None), Started);
  }

  // The engine ----------------------------------------------------------------------

  lemma StepIsTold(env: Env, db: Db, move: Move)
    requires Agreement.Agree(db) && Consistent(db) && Apply(env, db, move).Some?
    requires NoFailure(Apply(env, db, move).value.ledger)
    ensures Consistent(Apply(env, db, move).value)
  {
    hide Agreement.Agree, Consistent, Dispatch.Invoke, Pending, IsFinal, Rejection, RequestOf, Retried, TurnEvents;
    match move
    case Dispatched =>
      var call, _, _ := Agreement.DispatchKeepsAgreement(env, db);
      Execution.DispatchCommits(env, db, call);
      CommitIsTold(env, db, call, Float);
    case Turn(m) =>
      Agreement.HistoryIsPlain(db);
      TurnIsTold(db, m);
    case TurnFailed(_, _) => Checkpoint.FailureIsRecorded(env, db, move);
    case DispatchFailed(_) => Checkpoint.FailureIsRecorded(env, db, move);
    case Complete => QuietIsTold(db, StatusCompleted, Completed(db.core.step));
    case Pause => QuietIsTold(db, StatusPaused, Paused(db.core.step));
    case Request_ => QuietIsTold(db, db.status, ModelRequest(RequestOf(env, db.core)));
  }

  /** In every reachable run without failures the ledger alone gives transcript and saved results. */
  lemma {:induction false} ReachableIsTold(env: Env, world: World, moves: seq<Move>, db: Db)
    requires Reaches(env, world, moves, db) && NoFailure(db.ledger)
    ensures Consistent(db)
  {
    hide Apply, Consistent, Agreement.Agree;
    if moves == [] {
      InitIsTold(world);
    } else {
      var n := |moves| - 1;
      var before := Exec(env, Init(world), moves[..n]).value;
      Checkpoint.StepExtendsLedger(env, before, moves[n]);
      ReachableIsTold(env, world, moves[..n], before);
      Agreement.ReachableAgrees(env, world, moves[..n], before);
      StepIsTold(env, before, moves[n]);
    }
  }

  // The walk ------------------------------------------------------------------------

  lemma WalkNextIsTold(env: Env, w: Walk, e: Event)
    requires w.Stuck? || Consistent(w.db)
    ensures WalkNext(env, w, e).Stuck? || Consistent(WalkNext(env, w, e).db)
  {
    hide Consistent, Dispatch.Invoke, RequestOf, Retried, WriteTurn;
    if w.Walking? {
      match e
      case ModelRequest(_) => QuietIsTold(w.db, w.db.status, e);
      case ModelResponse(m) => TurnIsTold(w.db, m);
      case ToolRequest(call) =>
        if Dispatch.Invoke(env, w.db.core, Retried(w.db.ledger), call, Literal).Committed? {
          CommitIsTold(env, w.db, call, Literal);
        }
      case Paused(_) => QuietIsTold(w.db, StatusPaused, e);
      case Completed(_) => QuietIsTold(w.db, StatusCompleted, e);
      case _ =>
    }
  }

  lemma {:induction false} WalkIsTold(env: Env, w: Walk, events: seq<Event>)
    requires w.Stuck? || Consistent(w.db)
    ensures WalkFrom(env, w, events).Stuck? || Consistent(WalkFrom(env, w, events).db)
  {
    hide WalkNext, Consistent;
    if events != [] {
      var n := |events| - 1;
      WalkIsTold(env, w, events[..n]);
      WalkNextIsTold(env, WalkFrom(env, w, events[..n]), events[n]);
    }
  }

  /**
    Whatever the handlers do, a boundary that is rebuilt has the transcript and the saved
    results of the run at that boundary.
   */
  lemma RebuiltAsRecorded(env: Env, world: World, moves: seq<Move>, db: Db, p: Checkpoint.Point, rebuilt: Db)
    returns (j: nat, then_: Db)
    requires Reaches(env, world, moves, db) && ReconstructOf(env, world, db, p) == Some(rebuilt)
    ensures j <= |moves| && Reaches(env, world, moves[..j], then_) && then_.ledger == rebuilt.ledger == p.prefix
    ensures rebuilt.core.transcript == then_.core.transcript && rebuilt.core.results == then_.core.results
  {
    hide Exec, WalkFrom, Consistent, Checkpoint.Scan;
    Checkpoint.ScannedHasNoFailure(db.ledger);
    Checkpoint.PointsAreBoundaries(db.ledger, p.prefix);
    assert p in Checkpoint.Scan(db.ledger).value.points;
    j, then_ := BoundaryIsState(env, world, moves, db, p.prefix);
    ReachableStarts(env, world, moves[..j], then_);
    WalkStartsAlike(env, world, p.prefix);
    InitIsTold(world);
    WalkIsTold(env, Walking(Init(world)), p.prefix[1..]);
    NoFailurePrefix(db.ledger, p.prefix);
    ReachableIsTold(env, world, moves[..j], then_);
    SameStory(rebuilt, then_);
  }

  /** So a boundary that ends in a respelled turn is never rebuilt, whatever the handlers do. */
  lemma RebuiltEndsPlainly(env: Env, world: World, moves: seq<Move>, db: Db, p: Checkpoint.Point)
    requires Reaches(env, world, moves, db) && ReconstructOf(env, world, db, p).Some?
    ensures EndsPlainly(p.prefix)
  {
    hide Exec, WalkFrom, Ending, Extends, EndsPlainly, Checkpoint.Scan, Agreement.Agree;
    var rebuilt := ReconstructOf(env, world, db, p).value;
    Checkpoint.ScannedHasNoFailure(db.ledger);
    Checkpoint.PointsAreBoundaries(db.ledger, p.prefix);
    assert p in Checkpoint.Scan(db.ledger).value.points;
    NoFailurePrefix(db.ledger, p.prefix);
    var j, then_ := BoundaryIsState(env, world, moves, db, p.prefix);
    Agreement.ReachableAgrees(env, world, moves[..j], then_);
    ReachableEnding(env, world, moves, db);
    ReachableEnding(env, world, moves[..j], then_);
    PrefixIffPlain(db, then_);
    ReachableIsTold(env, world, moves[..j], then_);
    ReachableStarts(env, world, moves[..j], then_);
    WalkStartsAlike(env, world, p.prefix);
    InitIsTold(world);
    WalkIsTold(env, Walking(Init(world)), p.prefix[1..]);
    SameStory(rebuilt, then_);
  }

  lemma NoFailurePrefix(ledger: seq<Event>, prefix: seq<Event>)
    requires NoFailure(ledger) && prefix <= ledger
    ensures NoFailure(prefix)
  {
    assert forall e | e in prefix :: e in ledger;
  }

  lemma SameStory(a: Db, b: Db)
    requires Consistent(a) && Consistent(b) && a.ledger == b.ledger
    ensures a.core.transcript == b.core.transcript && a.core.results == b.core.results
  {
  }
}
