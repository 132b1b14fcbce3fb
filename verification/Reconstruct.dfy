/**
  Rebuilding a ledger prefix by re-execution. The walk re-issues requests, saves
  recorded turns and dispatches recorded calls again, skipping over the events a
  dispatch produces by itself.
 */
module Reconstruct {
  import opened Basics
  import opened Protocol
  import opened Engine
  import Agreement
  import Authz
  import Checkpoint
  import Dispatch
  import Execution
  import Numbers

  datatype Walk = Walking(db: Db) | Skipping(db: Db) | Stuck

  function WalkNext(env: Env, w: Walk, e: Event): Walk {
    match w
    case Stuck => Stuck
    case Skipping(db) => if e.ToolResponse? then Walking(db) else w
    case Walking(db) =>
      match e
      case ModelRequest(request) =>
        if request == RequestOf(env, db.core) then Walking(db.(ledger := db.ledger + [e])) else Stuck
      case ModelResponse(m) => Walking(WriteTurn(db, db.core.step + 1, db.core.transcript + [m], m))
      case Interrupted(_) => w
      case ToolRequest(call) =>
        (match Dispatch.Invoke(env, db.core, Retried(db.ledger), call, Literal)
         case Committed(core, events) => Skipping(Db(db.status, db.ledger + events, core))
         case Cached(_) => Skipping(db)
         case Rejected(_) => Stuck)
      case Paused(_) => Walking(db.(status := StatusPaused, ledger := db.ledger + [e]))
      case Completed(_) => Walking(db.(status := StatusCompleted, ledger := db.ledger + [e]))
      case _ => Stuck
  }

  function WalkFrom(env: Env, w: Walk, events: seq<Event>): Walk {
    if events == [] then w else WalkNext(env, WalkFrom(env, w, events[..|events| - 1]), events[|events| - 1])
  }

  /** The walk over a ledger, which starts after its first event. */
  function WalkAll(env: Env, world: World, ledger: seq<Event>): Walk
    requires ledger != []
  {
    WalkFrom(env, Walking(Init(world)), ledger[1..])
  }

  /** Each call requested in the prefix has a saved result on both sides, and they are equal. */
  predicate SameResults(prefix: seq<Event>, source: map<string, Saved>, target: map<string, Saved>) {
    forall e | e in prefix && e.ToolRequest? ::
      e.call.id in source && e.call.id in target && source[e.call.id] == target[e.call.id]
  }

  /** The checks made after the walk, against the recorded prefix and the source's rows. */
  predicate Matches(source: Core, prefix: seq<Event>, target: Db)
    requires prefix != []
  {
    && |target.ledger| == |prefix| && target.ledger[1..] == prefix[1..]
    && SameResults(prefix[1..], source.results, target.core.results)
    && target.core.transcript <= source.transcript
  }

  /** The outcome of `Reconstruct` at a selected boundary: the rebuilt rows, or `None` for any error. */
  function ReconstructOf(env: Env, world: World, source: Db, selected: Checkpoint.Point): Option<Db> {
    var points := Checkpoint.ListOf(source);
    if points.None? || selected !in points.value || selected.prefix == [] then None
    else
      match WalkAll(env, world, selected.prefix)
      case Walking(db) => if Matches(source.core, selected.prefix, db) then Some(db) else None
      case _ => None
  }

  lemma {:induction false} WalkAppend(env: Env, w: Walk, a: seq<Event>, b: seq<Event>)
    ensures WalkFrom(env, w, a + b) == WalkFrom(env, WalkFrom(env, w, a), b)
  {
    hide WalkNext;
    if b == [] {
      assert a + b == a;
    } else {
      var n := |b| - 1;
      WalkAppend(env, w, a, b[..n]);
      assert (a + b)[..|a + b| - 1] == a + b[..n];
    }
  }

  lemma WalkOne(env: Env, w: Walk, e: Event)
    ensures WalkFrom(env, w, [e]) == WalkNext(env, w, e)
  {
    hide WalkNext;
    assert [e][..0] == [];
  }

  lemma WalkGrows(env: Env, world: World, ledger: seq<Event>, events: seq<Event>)
    requires ledger != []
    ensures WalkAll(env, world, ledger + events) == WalkFrom(env, WalkAll(env, world, ledger), events)
  {
    hide WalkNext, WalkFrom;
    WalkAppend(env, Walking(Init(world)), ledger[1..], events);
    assert (ledger + events)[1..] == ledger[1..] + events;
  }

  // Where the two decoders part ---------------------------------------------

  /**
    The runner refuses a number that is not a whole 64-bit value where the schema
    wants an integer; the rebuild, which keeps number literals, does not.
   */
  predicate NumericFault(op: Operation, args: Args) {
    match Dispatch.Validate(op, args, Float)
    case Some(InvalidArgument(name)) =>
      name in args && args[name].Num? && name in op.properties && op.properties[name].IntegerArg?
    case _ => false
  }

  predicate RefusedNumber(env: Env, call: ToolCall) {
    FindOp(env.operations, call.op).Some? && NumericFault(FindOp(env.operations, call.op).value, call.args)
  }

  /** Handler, argument check and refund limit take arguments alike from either decoder. */
  ghost predicate ReadAlike(env: Env, op: Operation, args: Args) {
    && Authz.WholeArg(args, "amount_cents", Float) == Authz.WholeArg(args, "amount_cents", Literal)
    && env.handlerValid(op.behavior, args, Float) == env.handlerValid(op.behavior, args, Literal)
    && forall world, run, id ::
         env.handler(world, run, id, op.behavior, args, Float)
             == env.handler(world, run, id, op.behavior, args, Literal)
  }

  /** A call the runner lets through and the rebuild may understand differently. */
  ghost predicate ReadApart(env: Env, call: ToolCall) {
    && FindOp(env.operations, call.op).Some?
    && var op := FindOp(env.operations, call.op).value;
       Dispatch.Validate(op, call.args, Float).None? && !ReadAlike(env, op, call.args)
  }

  /** The environment's code reads numbers up to 2^53 alike from either decoder. */
  ghost predicate HandlersReadAlike(env: Env) {
    forall world, run, id, op, args | op in env.operations && Numbers.AllSafe(args) ::
      && env.handler(world, run, id, op.behavior, args, Float)
        == env.handler(world, run, id, op.behavior, args, Literal)
      && env.handlerValid(op.behavior, args, Float) == env.handlerValid(op.behavior, args, Literal)
  }

  /** So with such code only a number above 2^53 can be read apart. */
  lemma SafeIsReadAlike(env: Env, call: ToolCall)
    requires HandlersReadAlike(env) && Numbers.AllSafe(call.args)
    ensures !ReadApart(env, call)
  {
    if FindOp(env.operations, call.op).Some? {
      WholeArgsAgree(call.args, "amount_cents");
      var op := FindOp(env.operations, call.op).value;
      var w: World, run: string, id: string := World(map[], [], map[]), [], [];
      assert env.handler(w, run, id, op.behavior, call.args, Float)
          == env.handler(w, run, id, op.behavior, call.args, Literal);
    }
  }

  lemma {:induction false} FaultsAgree(names: seq<string>, op: Operation, args: Args)
    requires forall name | name in names :: name in args
    ensures var f, l := Dispatch.FirstFault(names, op, args, Float), Dispatch.FirstFault(names, op, args, Literal);
            && (f.None? ==> l.None?)
            && (f == l || (f.Some? && f.value.InvalidArgument? && f.value.name in names && args[f.value.name].Num?
                           && f.value.name in op.properties && op.properties[f.value.name].IntegerArg?))
  {
    if names != [] {
      FaultsAgree(names[1..], op, args);
      assert names == [names[0]] + names[1..];
    }
  }

  lemma {:induction false} LiteralNeverRefusesNumbers(names: seq<string>, op: Operation, args: Args)
    requires forall name | name in names :: name in args
    ensures var l := Dispatch.FirstFault(names, op, args, Literal);
            l.Some? && l.value.InvalidArgument? ==>
              && l.value.name in args && l.value.name in op.properties
              && !(args[l.value.name].Num? && op.properties[l.value.name].IntegerArg?)
  {
    if names != [] {
      LiteralNeverRefusesNumbers(names[1..], op, args);
    }
  }

  /** The two validations agree on everything except a refused number. */
  lemma ValidationsAgree(op: Operation, args: Args)
    ensures !NumericFault(op, args) ==> Dispatch.Validate(op, args, Float) == Dispatch.Validate(op, args, Literal)
  {
    FaultsAgree(SortedNames(args.Keys), op, args);
    FirstMissingIsMissing(op.required, args);
  }

  lemma {:induction false} FirstMissingIsMissing(required: seq<string>, args: Args)
    ensures var m := Dispatch.FirstMissing(required, args); m.Some? ==> m.value.MissingArgument?
  {
    if required != [] {
      FirstMissingIsMissing(required[1..], args);
    }
  }

  lemma HandlerStagesAgree(env: Env, op: Operation, call: ToolCall, retried: bool, d: Dispatch.Draft)
    requires d.skip || ReadAlike(env, op, call.args)
    ensures Dispatch.RunHandler(env, op, call, retried, Float, d)
            == Dispatch.RunHandler(env, op, call, retried, Literal, d)
  {
  }

  lemma AuthorizationsAgree(env: Env, op: Operation, call: ToolCall, d: Dispatch.Draft)
    requires d.skip || ReadAlike(env, op, call.args)
    ensures Dispatch.Authorize(env, op, call, Float, d) == Dispatch.Authorize(env, op, call, Literal, d)
  {
    hide ErrorDoc, Authz.GrantReason, Authz.Broad, Authz.ChannelArg, Authz.WholeArg, Authz.Text;
    if !d.skip && env.config.authPolicy.Some? {
      assert Authz.Decide(env, d.core.world, op, call.args, Float, d.core.authCalls)
          == Authz.Decide(env, d.core.world, op, call.args, Literal, d.core.authCalls);
    }
  }

  lemma WholeArgsAgree(args: Args, name: string)
    requires Numbers.AllSafe(args)
    ensures Authz.WholeArg(args, name, Float) == Authz.WholeArg(args, name, Literal)
  {
    if name in args && args[name].Num? {
      Numbers.ReadersAgree(args[name].n);
    }
  }

  lemma SkipPersists(env: Env, op: Operation, call: ToolCall, mode: NumberMode, d: Dispatch.Draft)
    requires d.skip
    ensures Dispatch.Authorize(env, op, call, mode, d) == d && Dispatch.Inject(env, call, d) == Ok(d)
  {
  }

  /** A call neither refused for a number nor read apart runs the same way from either decoder. */
  lemma InvokeModesAgree(env: Env, core: Core, retried: bool, call: ToolCall)
    requires !RefusedNumber(env, call) && !ReadApart(env, call)
    ensures Dispatch.Invoke(env, core, retried, call, Float) == Dispatch.Invoke(env, core, retried, call, Literal)
  {
    hide Dispatch.Validate, ReadAlike, Dispatch.Inject, Dispatch.Authorize, Dispatch.RunHandler, Dispatch.Conceal,
      Dispatch.Capture, Dispatch.Commit;
    if FindOp(env.operations, call.op).Some? {
      var op := FindOp(env.operations, call.op).value;
      ValidationsAgree(op, call.args);
      var d0 := Dispatch.CheckSchema(op, call.args, Float, Dispatch.Begin(core));
      if d0.skip {
        SkipPersists(env, op, call, Float, d0);
      }
      AuthorizationsAgree(env, op, call, d0);
      var d1 := Dispatch.Inject(env, call, Dispatch.Authorize(env, op, call, Float, d0));
      if d1.Ok? {
        HandlerStagesAgree(env, op, call, retried, d1.value);
      }
    }
  }

  // The walk follows the engine ---------------------------------------------

  predicate AllRepeatable(env: Env, ledger: seq<Event>) {
    forall e | e in ledger && e.ToolRequest? :: !RefusedNumber(env, e.call)
  }

  /** No recorded call is one the two decoders may read apart. */
  ghost predicate NoneApart(env: Env, ledger: seq<Event>) {
    forall e | e in ledger && e.ToolRequest? :: !ReadApart(env, e.call)
  }

  lemma {:induction false} SkipsInner(env: Env, db: Db, inner: seq<Event>)
    requires forall e | e in inner :: IsInner(e)
    ensures WalkFrom(env, Skipping(db), inner) == Skipping(db)
  {
    if inner != [] {
      var n := |inner| - 1;
      SkipsInner(env, db, inner[..n]);
      assert IsInner(inner[n]);
    }
  }

  lemma WalkBracket(env: Env, db: Db, call: ToolCall, events: seq<Event>, status: int, body: Json)
    requires Dispatch.IsBracket(call, events, status, body)
    ensures WalkFrom(env, Walking(db), events) ==
            match Dispatch.Invoke(env, db.core, Retried(db.ledger), call, Literal)
            case Committed(core, more) => Walking(Db(db.status, db.ledger + more, core))
            case Cached(_) => Walking(db)
            case Rejected(_) => Stuck
  {
    hide Dispatch.Invoke;
    var n := |events| - 1;
    var inner := events[1..n];
    var w := WalkNext(env, Walking(db), events[0]);
    WalkOne(env, Walking(db), events[0]);
    WalkAppend(env, Walking(db), [events[0]], inner);
    assert events[..n] == [events[0]] + inner;
    if w.Skipping? {
      SkipsInner(env, w.db, inner);
    } else {
      StuckStays(env, inner);
    }
  }

  lemma {:induction false} StuckStays(env: Env, events: seq<Event>)
    ensures WalkFrom(env, Stuck, events) == Stuck
  {
    if events != [] {
      StuckStays(env, events[..|events| - 1]);
    }
  }

  lemma {:induction false} WalkInterruptions(env: Env, w: Walk, attempts: seq<Interruption>)
    requires w.Walking?
    ensures WalkFrom(env, w, InterruptedEvents(attempts)) == w
  {
    var events := InterruptedEvents(attempts);
    if attempts != [] {
      var n := |attempts| - 1;
      WalkInterruptions(env, w, attempts[..n]);
      assert events[..n] == InterruptedEvents(attempts[..n]);
    }
  }

  lemma WalkTurn(env: Env, db: Db, m: Message)
    requires PlainAll(db.core.transcript) == db.core.transcript
    ensures WalkFrom(env, Walking(db), TurnEvents(m)) == Walking(SaveTurn(db, m))
  {
    var events := InterruptedEvents(InterruptionsOf(m));
    WalkInterruptions(env, Walking(db), InterruptionsOf(m));
    WalkOne(env, Walking(db), ModelResponse(m));
    WalkAppend(env, Walking(db), events, [ModelResponse(m)]);
  }

  /** One engine step and the walk over the events it appended lead to the same rows. */
  lemma WalkFollowsStep(env: Env, db: Db, move: Move) returns (events: seq<Event>)
    requires Agreement.Agree(db) && Apply(env, db, move).Some?
    requires var ledger := Apply(env, db, move).value.ledger;
             AllRepeatable(env, ledger) && NoneApart(env, ledger) && NoFailure(ledger)
    ensures var next := Apply(env, db, move).value;
            next.ledger == db.ledger + events && WalkFrom(env, Walking(db), events) == Walking(next)
  {
    hide Agreement.Agree, Dispatch.Invoke, Pending, IsFinal, Rejection, RequestOf, RefusedNumber, ReadApart,
      WalkFrom, SaveTurn;
    var next := Apply(env, db, move).value;
    match move
    case Dispatched =>
      var call, status, body := Agreement.DispatchKeepsAgreement(env, db);
      events := Dispatch.Invoke(env, db.core, Retried(db.ledger), call, Float).events;
      assert events[0] in next.ledger && events[0] == ToolRequest(call);
      InvokeModesAgree(env, db.core, Retried(db.ledger), call);
      WalkBracket(env, db, call, events, status, body);
      Execution.DispatchCommits(env, db, call);
    case Turn(m) =>
      events := TurnEvents(m);
      Agreement.HistoryIsPlain(db);
      WalkTurn(env, db, m);
      SaveTurnLedger(db, m);
    case TurnFailed(_, _) => Checkpoint.FailureIsRecorded(env, db, move);
    case DispatchFailed(_) => Checkpoint.FailureIsRecorded(env, db, move);
    case _ => events := WalkQuiet(env, db, move);
  }

  lemma SaveTurnLedger(db: Db, m: Message)
    ensures SaveTurn(db, m).ledger == db.ledger + TurnEvents(m)
  {
  }

  lemma WalkQuiet(env: Env, db: Db, move: Move) returns (events: seq<Event>)
    requires Apply(env, db, move).Some? && (move.Request_? || move.Pause? || move.Complete?)
    ensures var next := Apply(env, db, move).value;
            next.ledger == db.ledger + events && WalkFrom(env, Walking(db), events) == Walking(next)
  {
    hide Pending, IsFinal, RequestOf;
    var next := Apply(env, db, move).value;
    if next.ledger == db.ledger {
      events := [];
    } else {
      events := [next.ledger[|db.ledger|]];
      WalkOne(env, Walking(db), events[0]);
    }
  }

  lemma {:induction false} WalkRebuilds(env: Env, world: World, moves: seq<Move>, db: Db)
    requires Reaches(env, world, moves, db)
    requires NoFailure(db.ledger) && AllRepeatable(env, db.ledger) && NoneApart(env, db.ledger)
    ensures db.ledger != [] && WalkAll(env, world, db.ledger) == Walking(db)
  {
    hide Apply, RefusedNumber, ReadApart, WalkNext;
    if moves == [] {
      assert db.ledger[1..] == [];
    } else {
      var n := |moves| - 1;
      var before := Exec(env, Init(world), moves[..n]).value;
      Checkpoint.StepExtendsLedger(env, before, moves[n]);
      WalkRebuilds(env, world, moves[..n], before);
      Agreement.ReachableAgrees(env, world, moves[..n], before);
      var events := WalkFollowsStep(env, before, moves[n]);
      WalkGrows(env, world, before.ledger, events);
    }
  }

  // Every boundary is a state the run was in ---------------------------------

  /** Messages stay; whatever is added behind them respells their numbers, and nothing is added to a final turn. */
  predicate Continues(later: seq<Message>, earlier: seq<Message>) {
    || later == earlier
    || (!IsFinal(earlier) && |earlier| < |later| && later[..|earlier|] == PlainAll(earlier))
  }

  lemma ContinuesOn(a: seq<Message>, b: seq<Message>, c: seq<Message>)
    requires Continues(b, a) && Continues(c, b)
    ensures Continues(c, a)
  {
    if b != a && c != b {
      assert c[..|a|] == PlainAll(b)[..|a|] == PlainAll(b[..|a|]);
      assert PlainAll(PlainAll(a)) == PlainAll(a);
    }
  }

  /** What a run holds is never taken back. */
  predicate Extends(later: Core, earlier: Core) {
    && Continues(later.transcript, earlier.transcript)
    && forall id | id in earlier.results :: id in later.results && later.results[id] == earlier.results[id]
  }

  predicate OneBoundary(events: seq<Event>) {
    forall i | 0 <= i < |events| - 1 :: !Checkpoint.IsBoundary(events[i])
  }

  lemma BracketHasOneBoundary(call: ToolCall, events: seq<Event>, status: int, body: Json)
    requires Dispatch.IsBracket(call, events, status, body)
    ensures OneBoundary(events)
  {
    forall i | 0 <= i < |events| - 1
      ensures !Checkpoint.IsBoundary(events[i])
    {
      if i > 0 {
        InnerAt(call, events, status, body, i);
      }
    }
  }

  lemma InnerAt(call: ToolCall, events: seq<Event>, status: int, body: Json, i: nat)
    requires Dispatch.IsBracket(call, events, status, body) && 0 < i < |events| - 1
    ensures IsInner(events[i])
  {
    var inner := events[1..|events| - 1];
    assert inner[i - 1] == events[i] && inner[i - 1] in inner;
  }

  lemma DispatchExtends(env: Env, db: Db)
    requires Agreement.Agree(db) && ApplyDispatch(env, db).Some?
    ensures Extends(ApplyDispatch(env, db).value.core, db.core)
  {
    hide Agreement.Agree, Dispatch.Invoke, Dispatch.IsBracket, Pending, IsFinal, AllCalls, ToolMessages;
    var call, _, _ := Agreement.DispatchKeepsAgreement(env, db);
    var _, _ := Dispatch.InvokeAgrees(env, db.core, Retried(db.ledger), call, Float);
    Agreement.AgreedPending(db);
    if IsFinal(db.core.transcript) {
      Agreement.FinalIsDone(db);
    }
  }

  lemma StepChunk(env: Env, db: Db, move: Move) returns (events: seq<Event>)
    requires Agreement.Agree(db) && Apply(env, db, move).Some? && NoFailure(Apply(env, db, move).value.ledger)
    ensures var next := Apply(env, db, move).value;
            next.ledger == db.ledger + events && OneBoundary(events) && Extends(next.core, db.core)
  {
    hide Agreement.Agree, Dispatch.Invoke, Pending, IsFinal, Rejection, RequestOf;
    match move
    case Dispatched =>
      var call, status, body := Agreement.DispatchKeepsAgreement(env, db);
      events := Dispatch.Invoke(env, db.core, Retried(db.ledger), call, Float).events;
      BracketHasOneBoundary(call, events, status, body);
      DispatchExtends(env, db);
    case Turn(m) => events := TurnEvents(m);
    case TurnFailed(_, _) => Checkpoint.FailureIsRecorded(env, db, move);
    case DispatchFailed(_) => Checkpoint.FailureIsRecorded(env, db, move);
    case _ => events := QuietChunk(env, db, move);
  }

  lemma QuietChunk(env: Env, db: Db, move: Move) returns (events: seq<Event>)
    requires Apply(env, db, move).Some? && (move.Request_? || move.Pause? || move.Complete?)
    ensures var next := Apply(env, db, move).value;
            next.ledger == db.ledger + events && OneBoundary(events) && Extends(next.core, db.core)
  {
    hide Pending, IsFinal, RequestOf;
    var next := Apply(env, db, move).value;
    events := next.ledger[|db.ledger|..];
  }

  /** A boundary prefix of a reachable ledger is the ledger of an earlier state of that run. */
  lemma {:induction false} BoundaryIsState(env: Env, world: World, moves: seq<Move>, db: Db, prefix: seq<Event>)
    returns (j: nat, then_: Db)
    requires Reaches(env, world, moves, db) && NoFailure(db.ledger)
    requires prefix != [] && prefix <= db.ledger && Checkpoint.IsBoundary(prefix[|prefix| - 1])
    ensures j <= |moves| && Reaches(env, world, moves[..j], then_)
    ensures then_.ledger == prefix && Extends(db.core, then_.core)
  {
    hide Apply, Agreement.Agree;
    if moves == [] {
      assert false;
    } else {
      var n := |moves| - 1;
      var before := Exec(env, Init(world), moves[..n]).value;
      Agreement.ReachableAgrees(env, world, moves[..n], before);
      var events := StepChunk(env, before, moves[n]);
      if |prefix| <= |before.ledger| {
        assert prefix == db.ledger[..|prefix|] == before.ledger[..|prefix|];
        j, then_ := BoundaryIsState(env, world, moves[..n], before, prefix);
        assert moves[..n][..j] == moves[..j];
        ContinuesOn(then_.core.transcript, before.core.transcript, db.core.transcript);
      } else {
        assert prefix[|prefix| - 1] == events[|prefix| - |before.ledger| - 1];
        j, then_ := |moves|, db;
        assert moves[..j] == moves;
      }
    }
  }

  /** Every request the ledger holds is the call of a bracket, finished or still open. */
  predicate Bracketed(s: Agreement.Scan, call: ToolCall) {
    match s
    case Closed(done) => exists b | b in done :: b.call == call
    case Within(done, now, _) => now == call || exists b | b in done :: b.call == call
    case Broken => true
  }

  lemma NextKeepsBracketed(s: Agreement.Scan, e: Event, call: ToolCall)
    requires Bracketed(s, call) || (e.ToolRequest? && e.call == call)
    ensures Bracketed(Agreement.Next(s, e), call)
  {
    match s
    case Within(done, now, inner) =>
      if Agreement.Next(s, e).Closed? {
        var b := Agreement.Bracket(now, inner, e.status, e.body);
        assert b in done + [b];
        assert forall x | x in done :: x in done + [b];
      }
    case _ =>
  }

  lemma {:induction false} RequestsAreBracketed(ledger: seq<Event>, i: nat)
    requires i < |ledger| && ledger[i].ToolRequest?
    ensures Bracketed(Agreement.Read(ledger), ledger[i].call)
  {
    var n := |ledger| - 1;
    if i < n {
      RequestsAreBracketed(ledger[..n], i);
    }
    NextKeepsBracketed(Agreement.Read(ledger[..n]), ledger[n], ledger[i].call);
  }

  lemma RequestsAreSaved(db: Db, i: nat)
    requires Agreement.Agree(db) && i < |db.ledger| && db.ledger[i].ToolRequest?
    ensures db.ledger[i].call.id in db.core.results
  {
    RequestsAreBracketed(db.ledger, i);
    var done := Agreement.Read(db.ledger).done;
    var b :| b in done && b.call == db.ledger[i].call;
    var k :| 0 <= k < |done| && done[k] == b;
    assert AllCalls(db.core.transcript)[k] == b.call;
  }

  lemma SharedResults(db: Db, then_: Db)
    requires Agreement.Agree(then_) && Extends(db.core, then_.core) && then_.ledger != []
    ensures SameResults(then_.ledger[1..], db.core.results, then_.core.results)
  {
    hide Agreement.Agree;
    forall e | e in then_.ledger[1..] && e.ToolRequest?
      ensures e.call.id in then_.core.results
    {
      var i :| 0 <= i < |then_.ledger| && then_.ledger[i] == e;
      RequestsAreSaved(then_, i);
    }
  }

  // Spelling ------------------------------------------------------------------

  /** A prefix that ends in a turn with calls has that turn's numbers in their shortest spelling. */
  predicate EndsPlainly(prefix: seq<Event>) {
    prefix != [] ==>
      var e := prefix[|prefix| - 1];
      e.ModelResponse? && e.message.Assistant? && e.message.calls != [] ==> e.message == Plain(e.message)
  }

  /** How the last event and the last message of a run without failures hang together. */
  predicate Ending(db: Db) {
    var history := db.core.transcript;
    && db.ledger != []
    && var e := db.ledger[|db.ledger| - 1];
       && (e.ModelResponse? ==> history != [] && history[|history| - 1] == e.message && e.message.Assistant?)
       && (PlainAll(history) != history ==> e.ModelResponse? || IsFinal(history))
       && (e.Paused? || e.Completed? ==> Pending(history).None?)
  }

  lemma StepKeepsEnding(env: Env, db: Db, move: Move)
    requires Agreement.Agree(db) && Ending(db) && Apply(env, db, move).Some?
             && NoFailure(Apply(env, db, move).value.ledger)
    ensures Ending(Apply(env, db, move).value)
  {
    hide Agreement.Agree, Dispatch.Invoke, Pending, IsFinal, TurnFaultOf, RequestOf;
    match move
    case Dispatched =>
      var call, status, body := Agreement.DispatchKeepsAgreement(env, db);
      var history := Apply(env, db, move).value.core.transcript;
      assert PlainAll(history) == history;
    case TurnFailed(_, _) => Checkpoint.FailureIsRecorded(env, db, move);
    case DispatchFailed(_) => Checkpoint.FailureIsRecorded(env, db, move);
    case Turn(_) =>
    case Complete =>
    case _ => Agreement.HistoryIsPlain(db);
  }

  lemma {:induction false} ReachableEnding(env: Env, world: World, moves: seq<Move>, db: Db)
    requires Reaches(env, world, moves, db) && NoFailure(db.ledger)
    ensures Ending(db)
  {
    hide Apply, Agreement.Agree, Pending, IsFinal;
    if moves == [] {
      assert PlainAll([]) == [];
    } else {
      var n := |moves| - 1;
      var before := Exec(env, Init(world), moves[..n]).value;
      Checkpoint.StepExtendsLedger(env, before, moves[n]);
      ReachableEnding(env, world, moves[..n], before);
      Agreement.ReachableAgrees(env, world, moves[..n], before);
      StepKeepsEnding(env, before, moves[n]);
    }
  }

  /**
    What the transcript comparison of a rebuild comes to: a listed run's transcript
    starts with the transcript it had at a boundary exactly when the boundary does not
    end in a turn whose numbers were respelled afterwards.
   */
  lemma PrefixIffPlain(db: Db, then_: Db)
    requires Ending(db) && Ending(then_) && Agreement.Agree(then_) && Extends(db.core, then_.core)
    requires Checkpoint.ListOf(db).Some?
    ensures then_.core.transcript <= db.core.transcript <==> EndsPlainly(then_.ledger)
  {
    hide Agreement.Settled, Agreement.Witnessed, Pending, Checkpoint.Scan;
    var later, earlier := db.core.transcript, then_.core.transcript;
    var n := |earlier| - 1;
    var e := then_.ledger[|then_.ledger| - 1];
    if EndsPlainly(then_.ledger) {
      if later != earlier {
        assert forall i | 0 <= i <= n :: earlier[i] == Plain(earlier[i]);
        assert PlainAll(earlier) == earlier;
      }
    } else {
      Agreement.CallsArePending(earlier, then_.core.results);
      assert later[..|earlier|][n] == Plain(e.message);
    }
  }

  /** A listed run's messages are never respelled again. */
  lemma ListedStays(db: Db, later: seq<Message>)
    requires Ending(db) && Checkpoint.ListOf(db).Some? && Continues(later, db.core.transcript)
    ensures db.core.transcript <= later
  {
    hide Pending, IsFinal, Checkpoint.Scan;
  }

  /**
    Every boundary `List` reports can be rebuilt: the walk reproduces the recorded
    prefix event for event, and the rebuilt rows are the rows the run had there.
   */
  lemma BoundariesRebuild(env: Env, world: World, moves: seq<Move>, db: Db, p: Checkpoint.Point)
    returns (j: nat, then_: Db)
    requires Reaches(env, world, moves, db) && NoFailure(db.ledger)
    requires Checkpoint.ListOf(db).Some? && p in Checkpoint.ListOf(db).value
    requires AllRepeatable(env, p.prefix) && NoneApart(env, p.prefix) && EndsPlainly(p.prefix)
    ensures j <= |moves| && Reaches(env, world, moves[..j], then_)
    ensures ReconstructOf(env, world, db, p) == Some(then_)
    ensures then_.ledger == p.prefix <= db.ledger && Extends(db.core, then_.core)
  {
    hide Apply, Agreement.Agree, RefusedNumber, ReadApart, WalkAll, Ending, Extends, EndsPlainly;
    Checkpoint.PointsAreBoundaries(db.ledger, p.prefix);
    j, then_ := BoundaryIsState(env, world, moves, db, p.prefix);
    WalkRebuilds(env, world, moves[..j], then_);
    Agreement.ReachableAgrees(env, world, moves[..j], then_);
    SharedResults(db, then_);
    ReachableEnding(env, world, moves, db);
    ReachableEnding(env, world, moves[..j], then_);
    PrefixIffPlain(db, then_);
    assert db.ledger[..|p.prefix|] == p.prefix;
  }

  // Where a walk parts from its ledger -------------------------------------------

  /** What the runner records for a refused number: a request answered 400 at once. */
  function RefusalEvents(call: ToolCall, fault: Fault): seq<Event> {
    [ToolRequest(call), ToolResponse(call.id, call.op, 400, ErrorDoc(fault))]
  }

  lemma RefusalIsImmediate(env: Env, core: Core, retried: bool, call: ToolCall)
    requires RefusedNumber(env, call) && call.id !in core.results
    ensures var fault := Dispatch.Validate(FindOp(env.operations, call.op).value, call.args, Float).value;
            Dispatch.Invoke(env, core, retried, call, Float)
            == Dispatch.Committed(
                 core.(results := core.results[call.id := Saved(call.op, call.args, 400, ErrorDoc(fault))],
                       transcript := PlainAll(core.transcript) + [Tool(call.id, call.op, 400, ErrorDoc(fault))]),
                 RefusalEvents(call, fault))
  {
    hide Dispatch.Validate, Dispatch.Inject, Dispatch.Authorize;
    var op := FindOp(env.operations, call.op).value;
    var d := Dispatch.CheckSchema(op, call.args, Float, Dispatch.Begin(core));
    SkipPersists(env, op, call, Float, d);
    assert Dispatch.Conceal(call, Dispatch.Capture(op, call, d)) == Ok(d);
    assert Dispatch.Commit(call, d).events == RefusalEvents(call, Dispatch.Validate(op, call.args, Float).value);
  }

  /** Whatever the walk goes on to do, the events it has generated stay. */
  lemma {:induction false} WalkKeepsEvents(env: Env, from: Walk, events: seq<Event>)
    ensures var w := WalkFrom(env, from, events);
            w.Stuck? || (!from.Stuck? && from.db.ledger <= w.db.ledger)
  {
    hide Dispatch.Invoke, RequestOf;
    if events != [] {
      WalkKeepsEvents(env, from, events[..|events| - 1]);
    }
  }

  /** The walk failed, or it generated an event the ledger does not have at that place. */
  predicate Parts(w: Walk, ledger: seq<Event>) {
    w.Stuck? || exists k | 0 <= k < |w.db.ledger| && k < |ledger| :: w.db.ledger[k] != ledger[k]
  }

  lemma PartsForGood(env: Env, w: Walk, ledger: seq<Event>, events: seq<Event>)
    requires Parts(w, ledger)
    ensures Parts(WalkFrom(env, w, events), ledger + events)
  {
    hide WalkFrom;
    WalkKeepsEvents(env, w, events);
    var after := WalkFrom(env, w, events);
    if !after.Stuck? {
      var k :| 0 <= k < |w.db.ledger| && k < |ledger| && w.db.ledger[k] != ledger[k];
      assert after.db.ledger[k] == w.db.ledger[k] && (ledger + events)[k] == ledger[k];
    }
  }

  /** Two brackets of one call that are not the same differ at a place both have. */
  lemma BracketsPart(call: ToolCall, a: seq<Event>, aStatus: int, aBody: Json, b: seq<Event>, bStatus: int, bBody: Json)
    returns (k: nat)
    requires Dispatch.IsBracket(call, a, aStatus, aBody) && Dispatch.IsBracket(call, b, bStatus, bBody) && a != b
    ensures k < |a| && k < |b| && a[k] != b[k]
  {
    if |a| < |b| {
      k := |a| - 1;
      InnerAt(call, b, bStatus, bBody, k);
    } else if |b| < |a| {
      k := |b| - 1;
      InnerAt(call, a, aStatus, aBody, k);
    } else {
      k :| 0 <= k < |a| && a[k] != b[k];
    }
  }

  /** A recorded bracket the rebuild's own dispatch does not reproduce is where the walk parts. */
  lemma DivergingCallParts(env: Env, db: Db, call: ToolCall, recorded: seq<Event>, status: int, body: Json)
    requires call.id !in db.core.results && Dispatch.IsBracket(call, recorded, status, body)
    requires var l := Dispatch.Invoke(env, db.core, Retried(db.ledger), call, Literal);
             l.Committed? ==> l.events != recorded
    ensures Parts(WalkFrom(env, Walking(db), recorded), db.ledger + recorded)
  {
    hide Dispatch.Invoke, WalkFrom, Dispatch.IsBracket;
    WalkBracket(env, db, call, recorded, status, body);
    var l := Dispatch.Invoke(env, db.core, Retried(db.ledger), call, Literal);
    if l.Committed? {
      var s, b := Dispatch.InvokeAgrees(env, db.core, Retried(db.ledger), call, Literal);
      var k := BracketsPart(call, l.events, s, b, recorded, status, body);
      var n := |db.ledger| + k;
      assert (db.ledger + l.events)[n] == l.events[k] && (db.ledger + recorded)[n] == recorded[k];
    } else {
      LiteralIsNotCached(env, db.core, Retried(db.ledger), call);
    }
  }

  lemma LiteralIsNotCached(env: Env, core: Core, retried: bool, call: ToolCall)
    requires call.id !in core.results
    ensures !Dispatch.Invoke(env, core, retried, call, Literal).Cached?
  {
  }

  lemma OnlyDispatchRequests(env: Env, db: Db, move: Move, events: seq<Event>)
    requires Apply(env, db, move).Some? && Apply(env, db, move).value.ledger == db.ledger + events && !move.Dispatched?
    ensures forall e | e in events :: !e.ToolRequest?
  {
    assert events == (db.ledger + events)[|db.ledger|..];
    if move.Turn? {
      SaveTurnLedger(db, move.message);
      assert events == TurnEvents(move.message);
    } else {
      var quiet := Agreement.QuietMove(env, db, move);
      assert events == quiet;
      assert forall e | e in events :: Agreement.Neutral(e);
    }
  }

  lemma BracketCall(call: ToolCall, events: seq<Event>, status: int, body: Json, e: Event)
    requires Dispatch.IsBracket(call, events, status, body) && e in events && e.ToolRequest?
    ensures e.call == call
  {
    var i :| 0 <= i < |events| && events[i] == e;
    if 0 < i < |events| - 1 {
      InnerAt(call, events, status, body, i);
    }
  }

  lemma {:induction false} ReachableStarts(env: Env, world: World, moves: seq<Move>, db: Db)
    requires Reaches(env, world, moves, db)
    ensures db.ledger != [] && db.ledger[0] == Started
  {
    hide Apply;
    if moves != [] {
      var n := |moves| - 1;
      var before := Exec(env, Init(world), moves[..n]).value;
      ReachableStarts(env, world, moves[..n], before);
      Checkpoint.StepExtendsLedger(env, before, moves[n]);
    }
  }

  /** The walk starts from the run's first event and never drops it. */
  lemma WalkStartsAlike(env: Env, world: World, ledger: seq<Event>)
    requires ledger != [] && ledger[0].Started?
    ensures var w := WalkAll(env, world, ledger);
            w.Walking? && |w.db.ledger| == |ledger| && w.db.ledger[1..] == ledger[1..] ==> w.db.ledger == ledger
  {
    hide WalkNext;
    WalkKeepsEvents(env, Walking(Init(world)), ledger[1..]);
    var w := WalkAll(env, world, ledger);
    if w.Walking? && |w.db.ledger| == |ledger| && w.db.ledger[1..] == ledger[1..] {
      assert w.db.ledger == [w.db.ledger[0]] + w.db.ledger[1..];
      assert ledger == [ledger[0]] + ledger[1..];
    }
  }
}
