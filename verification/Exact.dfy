/**
  Exactly which boundaries are rebuilt, and with which rows. A rebuild dispatches every
  recorded call again from its number literals. It succeeds when each of these dispatches
  repeats the run's and the last turn was not respelled, and it ends with the run's rows
  under raised chaos counters.
 */
module Exact {
  import opened Basics
  import opened Protocol
  import opened Engine
  import opened Reconstruct
  import opened Accounting
  import opened ChaosRuns
  import opened Counters
  import opened Echo
  import opened Repeat
  import Agreement
  import Checkpoint
  import Derived
  import Dispatch
  import Execution

  // Whole runs -----------------------------------------------------------------------------------

  /** Events without a request leave the raised counters as they are. */
  lemma RaisedStays(env: Env, ledger: seq<Event>, events: seq<Event>, rows: map<string, RuleRow>)
    requires forall e | e in events :: !e.ToolRequest?
    ensures RaisedRows(env, ledger + events, rows) == RaisedRows(env, ledger, rows)
  {
    hide Chaos.RowOf, Extra;
    forall id
      ensures Extra(env, ledger + events, id) == Extra(env, ledger, id)
    {
      ExtraAppend(env, ledger, events, id);
      NoExtra(env, events, id);
    }
    assert ExtraIds(env, ledger + events) == ExtraIds(env, ledger);
  }

  /** Steps other than a dispatch do the same to raised rows. */
  lemma QuietStaysRaised(env: Env, db: Db, move: Move)
    requires Apply(env, db, move).Some? && (move.Request_? || move.Pause? || move.Complete? || move.Turn?)
    ensures Apply(env, Raised(env, db), move) == Some(Raised(env, Apply(env, db, move).value))
  {
    hide Pending, IsFinal, Rejection, RaisedRows, TurnEvents;
    var next := Apply(env, db, move).value;
    var events := next.ledger[|db.ledger|..];
    assert next.ledger == db.ledger + events;
    OnlyDispatchRequests(env, db, move, events);
    RaisedStays(env, db.ledger, events, db.core.chaos.rules);
  }

  predicate StepRepeats(env: Env, db: Db, move: Move) {
    move.Dispatched? && Pending(db.core.transcript).Some? ==> Repeats(env, db, Pending(db.core.transcript).value)
  }

  /** Every dispatch of a history repeats. */
  predicate AllRepeat(env: Env, world: World, moves: seq<Move>) {
    if moves == [] then true else
      var n := |moves| - 1;
      AllRepeat(env, world, moves[..n])
      && match Exec(env, Init(world), moves[..n])
         case None => true
         case Some(db) => StepRepeats(env, db, moves[n])
  }

  /** One engine step, and the walk over its events from the raised rows. */
  lemma WalkEchoesStep(env: Env, db: Db, move: Move) returns (events: seq<Event>)
    requires ValidPolicy(env) && HandlersTell(env) && Agreement.Agree(db) && Apply(env, db, move).Some?
             && NoFailure(Apply(env, db, move).value.ledger)
    ensures var next := Apply(env, db, move).value;
            && next.ledger == db.ledger + events
            && var w := WalkFrom(env, Walking(Raised(env, db)), events);
               if StepRepeats(env, db, move) then w == Walking(Raised(env, next)) else Parts(w, next.ledger)
  {
    hide ValidPolicy, HandlersTell, Agreement.Agree, Dispatch.Invoke, Pending, IsFinal, Rejection, RequestOf, WalkFrom,
      SaveTurn, RaisedRows, Parts;
    match move
    case Dispatched =>
      var call, status, body := Agreement.DispatchKeepsAgreement(env, db);
      Execution.DispatchCommits(env, db, call);
      Agreement.AgreedPending(db);
      events := Dispatch.Invoke(env, db.core, Retried(db.ledger), call, Float).events;
      DispatchEchoes(env, db, call, events, status, body);
    case Turn(m) =>
      Agreement.HistoryIsPlain(db);
      QuietStaysRaised(env, db, move);
      events := TurnEvents(m);
      WalkTurn(env, Raised(env, db), m);
      SaveTurnLedger(db, m);
    case TurnFailed(_, _) => Checkpoint.FailureIsRecorded(env, db, move);
    case DispatchFailed(_) => Checkpoint.FailureIsRecorded(env, db, move);
    case _ =>
      QuietStaysRaised(env, db, move);
      events := WalkQuiet(env, Raised(env, db), move);
  }

  lemma DispatchEchoes(env: Env, db: Db, call: ToolCall, events: seq<Event>, status: int, body: Json)
    requires ValidPolicy(env) && HandlersTell(env)
    requires var a := Dispatch.Invoke(env, db.core, Retried(db.ledger), call, Float); a.Committed? && a.events == events
    requires Dispatch.IsBracket(call, events, status, body)
    ensures var a := Dispatch.Invoke(env, db.core, Retried(db.ledger), call, Float);
            var w := WalkFrom(env, Walking(Raised(env, db)), events);
            if Repeats(env, db, call) then w == Walking(Raised(env, Db(db.status, db.ledger + events, a.core)))
            else Parts(w, db.ledger + events)
  {
    hide ValidPolicy, HandlersTell, Dispatch.Invoke, WalkFrom, RaisedRows, Parts, Dispatch.IsBracket;
    if Repeats(env, db, call) {
      RepeatStaysRaised(env, db, call);
      WalkBracket(env, Raised(env, db), call, events, status, body);
    } else {
      var _, _ := Dispatch.InvokeAgrees(env, db.core, Retried(db.ledger), call, Float);
      DivergingCallParts(env, Raised(env, db), call, events, status, body);
    }
  }

  lemma InitIsRaised(env: Env, world: World)
    ensures Raised(env, Init(world)) == Init(world)
  {
    hide CountsAgain;
    assert [Started][..0] == [];
    assert forall id :: Extra(env, [Started], id) == 0 by {
      forall id
        ensures Extra(env, [Started], id) == 0
      {
        StartIsFree(env, id);
      }
    }
    assert ExtraIds(env, [Started]) == {};
  }

  lemma StartIsFree(env: Env, id: string)
    ensures Extra(env, [Started], id) == 0
  {
    hide RefusedNumber, Chaos.MatchesSome;
    NoExtra(env, [Started], id);
  }

  /**
    The walk over a whole ledger: it follows the run while calls repeat, and parts for good
    at the first that does not.
   */
  lemma {:induction false} WalkEchoes(env: Env, world: World, moves: seq<Move>, db: Db)
    requires ValidPolicy(env) && HandlersTell(env) && Reaches(env, world, moves, db) && NoFailure(db.ledger)
    ensures db.ledger != []
    ensures var w := WalkAll(env, world, db.ledger);
            if AllRepeat(env, world, moves) then w == Walking(Raised(env, db)) else Parts(w, db.ledger)
  {
    hide Apply, WalkNext, StepRepeats, ValidPolicy, HandlersTell, Agreement.Agree, Parts, Raised;
    if moves == [] {
      assert db.ledger[1..] == [];
      InitIsRaised(env, world);
    } else {
      var n := |moves| - 1;
      var before := Exec(env, Init(world), moves[..n]).value;
      Checkpoint.StepExtendsLedger(env, before, moves[n]);
      WalkEchoes(env, world, moves[..n], before);
      Agreement.ReachableAgrees(env, world, moves[..n], before);
      var events := WalkEchoesStep(env, before, moves[n]);
      WalkGrows(env, world, before.ledger, events);
      if !AllRepeat(env, world, moves[..n]) {
        PartsForGood(env, WalkAll(env, world, before.ledger), before.ledger, events);
      }
    }
  }

  /**
    A state the run was in is rebuilt, raised, exactly when its history repeats and it does
    not end in a respelled turn.
   */
  lemma StateRebuildsIff(env: Env, world: World, moves: seq<Move>, db: Db, p: Checkpoint.Point, earlier: seq<Move>,
                         then_: Db)
    requires ValidPolicy(env) && HandlersTell(env) && Reaches(env, world, moves, db)
    requires Checkpoint.ListOf(db).Some? && p in Checkpoint.ListOf(db).value
    requires Reaches(env, world, earlier, then_) && then_.ledger == p.prefix && Extends(db.core, then_.core)
    ensures ReconstructOf(env, world, db, p)
         == if AllRepeat(env, world, earlier) && EndsPlainly(p.prefix) then Some(Raised(env, then_)) else None
  {
    hide Exec, AllRepeat, ValidPolicy, HandlersTell, Agreement.Agree, WalkAll, Ending, Extends, EndsPlainly, RaisedRows,
      Checkpoint.Scan;
    Checkpoint.ScannedHasNoFailure(db.ledger);
    Checkpoint.PointsAreBoundaries(db.ledger, p.prefix);
    assert p in Checkpoint.Scan(db.ledger).value.points;
    Derived.NoFailurePrefix(db.ledger, p.prefix);
    WalkEchoes(env, world, earlier, then_);
    if AllRepeat(env, world, earlier) {
      Agreement.ReachableAgrees(env, world, earlier, then_);
      SharedResults(db, then_);
      ReachableEnding(env, world, moves, db);
      ReachableEnding(env, world, earlier, then_);
      PrefixIffPlain(db, then_);
    } else {
      ReachableStarts(env, world, earlier, then_);
      WalkStartsAlike(env, world, p.prefix);
    }
  }

  /**
    Exactly which boundaries are rebuilt, and with which rows: every call dispatched before
    the boundary repeats, and the boundary does not end in a turn with calls whose numbers
    the next dispatch respelled. The rebuilt rows are the run's rows at the boundary with
    the chaos counters raised by the refused calls.
   */
  lemma BoundaryRebuildsIff(env: Env, world: World, moves: seq<Move>, db: Db, p: Checkpoint.Point)
    returns (j: nat, then_: Db)
    requires ValidPolicy(env) && HandlersTell(env) && Reaches(env, world, moves, db)
    requires Checkpoint.ListOf(db).Some? && p in Checkpoint.ListOf(db).value
    ensures j <= |moves| && Reaches(env, world, moves[..j], then_)
    ensures then_.ledger == p.prefix <= db.ledger && Extends(db.core, then_.core)
    ensures ReconstructOf(env, world, db, p)
         == if AllRepeat(env, world, moves[..j]) && EndsPlainly(p.prefix) then Some(Raised(env, then_)) else None
  {
    hide Exec, AllRepeat, ValidPolicy, HandlersTell, ReconstructOf, Extends, EndsPlainly, Raised, Checkpoint.Scan;
    Checkpoint.ScannedHasNoFailure(db.ledger);
    Checkpoint.PointsAreBoundaries(db.ledger, p.prefix);
    assert p in Checkpoint.Scan(db.ledger).value.points;
    j, then_ := BoundaryIsState(env, world, moves, db, p.prefix);
    StateRebuildsIff(env, world, moves, db, p, moves[..j], then_);
    assert db.ledger[..|p.prefix|] == p.prefix;
  }

  // Handlers that never borrow the argument check's answer -----------------------------------------

  /** No handler says of an integer argument what the argument check says, nor is one called "arguments". */
  ghost predicate NeverAgain(env: Env) {
    forall op, args | op in env.operations && NumericFault(op, args) ::
      && RefusedName(op, args) != "arguments"
      && forall world, run, id ::
           !AnswersInvalid(env.handler(world, run, id, op.behavior, args, Literal), RefusedName(op, args))
  }

  lemma NeverRepeated(env: Env, db: Db, call: ToolCall)
    requires HandlersTell(env) && NeverAgain(env) && RefusedNumber(env, call) && call.id !in db.core.results
    ensures !Repeats(env, db, call)
  {
    hide HandlersTell, NumericFault, Repeats, RefusedName, AnswersInvalid, Raised;
    RefusalRepeatsIff(env, db, call);
    var op := FindOp(env.operations, call.op).value;
    assert op in env.operations && NumericFault(op, call.args);
  }

  lemma StepKeepsRepeatable(env: Env, db: Db, move: Move)
    requires HandlersTell(env) && NeverAgain(env) && Agreement.Agree(db) && Apply(env, db, move).Some?
             && NoFailure(Apply(env, db, move).value.ledger) && NoneApart(env, Apply(env, db, move).value.ledger)
    requires AllRepeatable(env, db.ledger)
    ensures StepRepeats(env, db, move) <==> AllRepeatable(env, Apply(env, db, move).value.ledger)
  {
    hide HandlersTell, NeverAgain, Agreement.Agree, Dispatch.Invoke, Pending, IsFinal, Rejection, RequestOf,
      RefusedNumber, ReadApart, Raised, Retried, Dispatch.IsBracket;
    var next := Apply(env, db, move).value;
    var events := StepChunk(env, db, move);
    if move.Dispatched? {
      var call, status, body := Agreement.DispatchKeepsAgreement(env, db);
      Agreement.AgreedPending(db);
      assert events == next.ledger[|db.ledger|..]
          == Dispatch.Invoke(env, db.core, Retried(db.ledger), call, Float).events;
      CallRepeatable(env, db.ledger, call, events, status, body);
      var _, _ := Dispatch.InvokeAgrees(env, db.core, Retried(db.ledger), call, Float);
      if RefusedNumber(env, call) {
        NeverRepeated(env, db, call);
      } else {
        EnforcedIsNotRaised(env, db);
        InvokeModesAgree(env, db.core, Retried(db.ledger), call);
      }
    } else {
      OnlyDispatchRequests(env, db, move, events);
    }
  }

  lemma CallRepeatable(env: Env, ledger: seq<Event>, call: ToolCall, events: seq<Event>, status: int, body: Json)
    requires Dispatch.IsBracket(call, events, status, body) && AllRepeatable(env, ledger)
    ensures AllRepeatable(env, ledger + events) <==> !RefusedNumber(env, call)
    ensures NoneApart(env, ledger + events) ==> !ReadApart(env, call)
  {
    hide RefusedNumber, ReadApart;
    assert events[0] in ledger + events;
    forall e | e in events && e.ToolRequest?
      ensures e.call == call
    {
      BracketCall(call, events, status, body, e);
    }
  }

  lemma {:induction false} RepeatableRuns(env: Env, world: World, moves: seq<Move>, db: Db)
    requires HandlersTell(env) && NeverAgain(env) && Reaches(env, world, moves, db) && NoFailure(db.ledger)
             && NoneApart(env, db.ledger)
    ensures AllRepeat(env, world, moves) <==> AllRepeatable(env, db.ledger)
  {
    hide Apply, HandlersTell, NeverAgain, Agreement.Agree, RefusedNumber, ReadApart, StepRepeats;
    if moves != [] {
      var n := |moves| - 1;
      var before := Exec(env, Init(world), moves[..n]).value;
      Checkpoint.StepExtendsLedger(env, before, moves[n]);
      RepeatableRuns(env, world, moves[..n], before);
      Agreement.ReachableAgrees(env, world, moves[..n], before);
      if AllRepeatable(env, before.ledger) {
        StepKeepsRepeatable(env, before, moves[n]);
      }
    }
  }

  /**
    With handlers of that kind, and calls that both decoders read alike, a boundary is rebuilt
    exactly when its prefix holds no refused call and it does not end in a respelled turn; and
    the rebuilt rows are the run's own.
   */
  lemma RepeatableRebuildsIff(env: Env, world: World, moves: seq<Move>, db: Db, p: Checkpoint.Point)
    returns (j: nat, then_: Db)
    requires ValidPolicy(env) && HandlersTell(env) && NeverAgain(env) && Reaches(env, world, moves, db)
    requires Checkpoint.ListOf(db).Some? && p in Checkpoint.ListOf(db).value && NoneApart(env, p.prefix)
    ensures j <= |moves| && Reaches(env, world, moves[..j], then_) && then_.ledger == p.prefix
    ensures ReconstructOf(env, world, db, p)
         == if AllRepeatable(env, p.prefix) && EndsPlainly(p.prefix) then Some(then_) else None
  {
    hide Exec, AllRepeat, ValidPolicy, HandlersTell, NeverAgain, EndsPlainly, RefusedNumber, ReadApart, Extends,
      ReconstructOf, Raised, Checkpoint.Scan;
    j, then_ := BoundaryRebuildsIff(env, world, moves, db, p);
    Checkpoint.ScannedHasNoFailure(db.ledger);
    Derived.NoFailurePrefix(db.ledger, p.prefix);
    RepeatableRuns(env, world, moves[..j], then_);
    if AllRepeatable(env, p.prefix) {
      EnforcedIsNotRaised(env, then_);
    }
  }
}
