/**
  Runs of the built-in handlers that show what a rebuild does to numbers. Three cannot be
  rebuilt: a fraction where the schema wants an integer, a whole number written with a
  decimal point, and a whole number above 2^53. One with a fraction can, because its
  handler refuses the argument in the same words; and then the chaos counters may be off.
 */
module Divergence {
  import opened Basics
  import opened Protocol
  import opened Engine
  import opened Reconstruct
  import opened Counters
  import opened Echo
  import opened Exact
  import opened Repeat
  import Billing
  import Builtin
  import Chaos
  import Checkpoint
  import Contract
  import Crm
  import Dispatch
  import Execution
  import Numbers

  // The handlers ------------------------------------------------------------------

  function RefundFields(): Billing.Fields {
    Billing.Fields("charge_id", "amount_cents", "reason")
  }

  function StatusFields(): Crm.Fields {
    Crm.Fields("account_id", "status", {"active", "needs_followup", "resolved"})
  }

  const UPDATE_STATUS := OtherBehavior("crm.updateAccountStatus")

  function RefundId(): (string, string) -> string {
    (run: string, id: string) => id
  }

  function Others(): Builtin.OtherHandler {
    (w: World, run: string, id: string, behavior: Behavior, args: Args) =>
      if behavior == UPDATE_STATUS then Crm.Updated(StatusFields(), w, args) else None
  }

  function NoChecks(): (Behavior, Args) -> bool {
    (behavior: Behavior, args: Args) => true
  }

  /** A run with one operation and the built-in handlers, without an authorization policy. */
  function OneOperation(op: Operation, rules: Option<seq<Rule>>): Env {
    Env(Config([], [], [], [], [], [], [], rules, None), [op], Builtin.Handler(RefundFields(), RefundId(), Others()),
        behavior => None, Builtin.Valid(RefundFields().amount, NoChecks()), (w, behavior, args) => None)
  }

  lemma OthersStayOut()
    ensures Builtin.StayOut(Others())
  {
    hide Crm.Updated;
    forall w, run, id, behavior, args
      ensures var o := Others()(w, run, id, behavior, args);
              o.Some? ==> && o.value.world.charges == w.charges && o.value.world.refunds == w.refunds
                          && (o.value.mutation.None? ==> o.value.world == w)
    {
      Crm.UpdateTells(StatusFields(), w, args);
    }
  }

  lemma IsBuiltin(op: Operation, rules: Option<seq<Rule>>)
    ensures var env := OneOperation(op, rules);
            Builtin.IsBuiltin(env, RefundFields(), RefundId(), Others(), NoChecks()) && HandlersTell(env)
  {
    hide Builtin.StayOut, HandlersTell;
    OthersStayOut();
    Builtin.MeetsAssumptions(OneOperation(op, rules), RefundFields(), RefundId(), Others(), NoChecks());
  }

  function FirstTurn(call: ToolCall, spelling: Spelling): Message {
    Assistant([], [call], [], spelling)
  }

  predicate IsFirst(m: Message, call: ToolCall) {
    m.Assistant? && m == FirstTurn(call, m.spelling)
  }

  function LastTurn(): Message {
    Assistant([], [], [], Shortest)
  }

  // One call, from start to completion -----------------------------------------

  function AfterTurn(world: World, first: Message): Core {
    Init(world).core.(step := 1, transcript := [first])
  }

  function TurnLedger(env: Env, world: World, first: Message): seq<Event> {
    [Started, ModelRequest(RequestOf(env, Init(world).core)), ModelResponse(first)]
  }

  /** A recorded turn as the two steps that commit it. */
  lemma TurnOf(env: Env, db: Db, m: Message) returns (after: Db)
    requires !db.status.StatusCompleted? && NeedsTurn(db.core.transcript) && !Open(db.ledger)
    requires Accepted(env, db.core.transcript, m)
    ensures Exec(env, db, [Request_, Turn(m)]) == Some(after)
    ensures after.status == Running && !Open(after.ledger)
    ensures after.core == db.core.(step := db.core.step + 1, transcript := PlainAll(db.core.transcript) + [m])
    ensures after.ledger == db.ledger + [ModelRequest(RequestOf(env, db.core))] + TurnEvents(m)
  {
    hide RequestOf, Pending, IsFinal, Rejection;
    Execution.AnsweredMoves(env, db, m);
    after := SaveTurn(AppendRequest(env, db).value, m);
    Execution.TurnSettlesLedger(AppendRequest(env, db).value, m);
  }

  lemma EmptyHistory()
    ensures NeedsTurn([])
  {
  }

  lemma AskedHistory(first: Message, call: ToolCall)
    requires first.Assistant? && first.calls == [call]
    ensures AllCalls([first]) == [call] && DoneIds([first]) == {} && Pending([first]) == Some(call)
  {
    Snoc([], first);
    assert [] + [first] == [first] && [] + [call] == [call];
  }

  lemma OneCallDone(call: ToolCall)
    ensures FirstOpen([call], {call.id}).None?
  {
    assert [call][1..] == [];
    assert FirstOpen([call][1..], {call.id}).None?;
  }

  lemma AnsweredHistory(first: Message, call: ToolCall, answer: Message)
    requires first.Assistant? && first.calls == [call] && answer.Tool? && answer.callId == call.id
    ensures var history := PlainAll([first]) + [answer];
            NeedsTurn(history) && AllCalls(history) == [call] && DoneIds(history) == {call.id}
  {
    AskedHistory(first, call);
    PlainSnoc([first], answer);
    var history := PlainAll([first]) + [answer];
    assert AllCalls(history) == [call] + [] == [call];
    assert DoneIds(history) == {} + {call.id} == {call.id};
    OneCallDone(call);
    assert history[|history| - 1] == answer;
  }

  lemma DoneHistory(history: seq<Message>, call: ToolCall)
    requires AllCalls(history) == [call] && DoneIds(history) == {call.id}
    ensures var next := PlainAll(history) + [LastTurn()];
            Pending(next).None? && IsFinal(next)
  {
    PlainSnoc(history, LastTurn());
    assert [call] + [] == [call] && {call.id} + {} == {call.id};
    OneCallDone(call);
  }

  lemma FirstAccepted(env: Env, first: Message, call: ToolCall)
    requires first.Assistant? && first.calls == [call] && |call.id| > 0 && FindOp(env.operations, call.op).Some?
    ensures Accepted(env, [], first)
  {
    CallsFaultNone(env.operations, first.calls, IdsOf(AllCalls([])), {});
  }

  lemma LastAccepted(env: Env, history: seq<Message>)
    ensures Accepted(env, history, LastTurn())
  {
  }

  lemma AnswerStep(env: Env, db: Db, call: ToolCall) returns (after: Db, answer: Message)
    requires !db.status.StatusCompleted? && Pending(db.core.transcript) == Some(call)
    requires Dispatch.Invoke(env, db.core, Retried(db.ledger), call, Float).Committed?
    ensures var a := Dispatch.Invoke(env, db.core, Retried(db.ledger), call, Float);
            Exec(env, db, [Dispatched]) == Some(after) && after == Db(db.status, db.ledger + a.events, a.core)
    ensures answer.Tool? && answer.callId == call.id && after.core.transcript == PlainAll(db.core.transcript) + [answer]
    ensures !Open(after.ledger)
  {
    hide Dispatch.Invoke, Pending;
    ExecOne(env, db, Dispatched);
    after := ApplyDispatch(env, db).value;
    var status, body := Dispatch.InvokeAgrees(env, db.core, Retried(db.ledger), call, Float);
    answer := Tool(call.id, call.op, status, body);
  }

  lemma FinishedFrom(env: Env, db: Db) returns (after: Db)
    requires Pending(db.core.transcript).None? && IsFinal(db.core.transcript) && !db.status.StatusCompleted?
    ensures Exec(env, db, [Complete]) == Some(after)
    ensures after.status.StatusCompleted? && after.ledger == db.ledger + [Completed(db.core.step)]
  {
    hide Pending, IsFinal;
    ExecOne(env, db, Complete);
    after := Apply(env, db, Complete).value;
  }

  lemma Chain(env: Env, a: Db, left: seq<Move>, b: Db, right: seq<Move>)
    requires Exec(env, a, left) == Some(b)
    ensures Exec(env, a, left + right) == Exec(env, b, right)
  {
    hide Exec;
    ExecAppend(env, a, left, right);
  }

  /** Steps that dispatch nothing have nothing to repeat. */
  lemma {:induction false} QuietRepeats(env: Env, world: World, a: seq<Move>, b: seq<Move>)
    requires forall move | move in b :: !move.Dispatched?
    ensures AllRepeat(env, world, a + b) <==> AllRepeat(env, world, a)
  {
    hide Exec, Repeats;
    if b == [] {
      assert a + b == a;
    } else {
      var n := |b| - 1;
      QuietRepeats(env, world, a, b[..n]);
      assert (a + b)[..|a + b| - 1] == a + b[..n];
    }
  }

  lemma DispatchRepeats(env: Env, world: World, moves: seq<Move>, db: Db, call: ToolCall)
    requires Reaches(env, world, moves, db) && Pending(db.core.transcript) == Some(call)
    ensures AllRepeat(env, world, moves + [Dispatched]) <==> AllRepeat(env, world, moves) && Repeats(env, db, call)
  {
    hide Exec, Repeats, Pending;
    assert (moves + [Dispatched])[..|moves|] == moves;
  }

  /** The rows after a first turn that asked for a call. */
  function AskedRows(env: Env, world: World, first: Message): Db {
    Db(Running, TurnLedger(env, world, first), AfterTurn(world, first))
  }

  lemma FirstState(env: Env, world: World, first: Message, call: ToolCall) returns (db: Db)
    requires IsFirst(first, call) && |call.id| > 0 && FindOp(env.operations, call.op).Some?
    ensures Reaches(env, world, [Request_, Turn(first)], db)
    ensures db == AskedRows(env, world, first) && !Open(db.ledger) && !Retried(db.ledger)
  {
    hide Exec, Accepted, Pending, IsFinal, RequestOf;
    EmptyHistory();
    FirstAccepted(env, first, call);
    db := TurnOf(env, Init(world), first);
    assert InterruptedEvents([]) == [];
    assert PlainAll([]) + [first] == [first];
  }

  lemma BracketHasNoFailure(call: ToolCall, events: seq<Event>, status: int, body: Json)
    requires Dispatch.IsBracket(call, events, status, body)
    ensures NoFailure(events)
  {
    forall e | e in events
      ensures !IsFailure(e)
    {
      var i :| 0 <= i < |events| && events[i] == e;
      if 0 < i < |events| - 1 {
        InnerAt(call, events, status, body, i);
      }
    }
  }

  /** The steps of such a run, one after the other. */
  function OneCallMoves(first: Message): seq<Move> {
    [Request_, Turn(first)] + [Dispatched] + [Request_, Turn(LastTurn())] + [Complete]
  }

  lemma MovesReach(env: Env, world: World, first: Message, d1: Db, d2: Db, d3: Db, db: Db)
    requires Reaches(env, world, [Request_, Turn(first)], d1) && Exec(env, d1, [Dispatched]) == Some(d2)
    requires Exec(env, d2, [Request_, Turn(LastTurn())]) == Some(d3) && Exec(env, d3, [Complete]) == Some(db)
    ensures Reaches(env, world, OneCallMoves(first), db)
  {
    hide Exec;
    var moves := [Request_, Turn(first)];
    Chain(env, Init(world), moves, d1, [Dispatched]);
    moves := moves + [Dispatched];
    Chain(env, Init(world), moves, d2, [Request_, Turn(LastTurn())]);
    moves := moves + [Request_, Turn(LastTurn())];
    Chain(env, Init(world), moves, d3, [Complete]);
  }

  lemma MovesRepeat(env: Env, world: World, first: Message, call: ToolCall, d1: Db)
    requires Reaches(env, world, [Request_, Turn(first)], d1) && Pending(d1.core.transcript) == Some(call)
    ensures AllRepeat(env, world, OneCallMoves(first)) <==> Repeats(env, d1, call)
  {
    hide Exec, AllRepeat, Repeats, Pending;
    var moves := [Request_, Turn(first)];
    NothingRepeats(env, world);
    QuietRepeats(env, world, [], moves);
    assert [] + moves == moves;
    DispatchRepeats(env, world, moves, d1, call);
    moves := moves + [Dispatched];
    QuietRepeats(env, world, moves, [Request_, Turn(LastTurn())]);
    QuietRepeats(env, world, moves + [Request_, Turn(LastTurn())], [Complete]);
  }

  lemma NothingRepeats(env: Env, world: World)
    ensures AllRepeat(env, world, [])
  {
  }

  /** What follows the call in such a run. */
  function RestOf(env: Env, d2: Db, step: nat): seq<Event> {
    [ModelRequest(RequestOf(env, d2.core))] + TurnEvents(LastTurn()) + [Completed(step)]
  }

  lemma RestIsQuiet(env: Env, d2: Db, step: nat)
    ensures forall e | e in RestOf(env, d2, step) :: !e.ToolRequest? && !IsFailure(e)
  {
    hide RequestOf;
    assert InterruptedEvents([]) == [];
  }

  /** A run that makes one call, whatever it answers, and completes. */
  lemma OneCallRun(env: Env, world: World, first: Message, call: ToolCall)
    returns (moves: seq<Move>, rest: seq<Event>, db: Db)
    requires IsFirst(first, call) && |call.id| > 0 && FindOp(env.operations, call.op).Some?
    requires Dispatch.Invoke(env, AfterTurn(world, first), false, call, Float).Committed?
    ensures Reaches(env, world, moves, db) && NoFailure(db.ledger) && db.status.StatusCompleted?
    ensures db.ledger == TurnLedger(env, world, first)
                         + (Dispatch.Invoke(env, AfterTurn(world, first), false, call, Float).events + rest)
    ensures forall e | e in db.ledger && e.ToolRequest? :: e.call == call
    ensures forall e | e in rest :: !e.ToolRequest?
    ensures AllRepeat(env, world, moves) <==> Repeats(env, AskedRows(env, world, first), call)
  {
    hide Exec, Dispatch.Invoke, Accepted, Pending, IsFinal, RequestOf, NeedsTurn, AllCalls, DoneIds, AllRepeat, Repeats,
      OneCallMoves, TurnEvents;
    var d1 := FirstState(env, world, first, call);
    AskedHistory(first, call);
    var d2, answer := AnswerStep(env, d1, call);
    AnsweredHistory(first, call, answer);
    LastAccepted(env, d2.core.transcript);
    var d3 := TurnOf(env, d2, LastTurn());
    DoneHistory(d2.core.transcript, call);
    db := FinishedFrom(env, d3);
    moves := OneCallMoves(first);
    MovesReach(env, world, first, d1, d2, d3, db);
    MovesRepeat(env, world, first, call, d1);
    rest := RestOf(env, d2, d3.core.step);
    RestIsQuiet(env, d2, d3.core.step);
    var a := Dispatch.Invoke(env, AfterTurn(world, first), false, call, Float);
    assert db.ledger == TurnLedger(env, world, first) + (a.events + rest);
    var status, body := Dispatch.InvokeAgrees(env, AfterTurn(world, first), false, call, Float);
    BracketHasNoFailure(call, a.events, status, body);
    forall e | e in db.ledger && e.ToolRequest?
      ensures e.call == call
    {
      assert e in a.events;
      BracketCall(call, a.events, status, body, e);
    }
  }

  /** The last boundary of a completed run is listed. */
  lemma LastPoint(env: Env, world: World, moves: seq<Move>, db: Db) returns (p: Checkpoint.Point)
    requires Checkpoint.NamedOperations(env) && Reaches(env, world, moves, db) && NoFailure(db.ledger)
             && db.status.StatusCompleted?
    ensures Checkpoint.ListOf(db).Some? && p in Checkpoint.ListOf(db).value && p.prefix == db.ledger
  {
    hide Exec, Checkpoint.Tracks;
    Checkpoint.ReachableTracks(env, world, moves, db);
    p := Checkpoint.TrackedEnd(db);
  }

  // Two ways a call can go ------------------------------------------------------

  /** Without policies a valid call runs its handler and nothing else. */
  lemma HandledCall(env: Env, core: Core, call: ToolCall, mode: NumberMode, o: Outcome)
    requires env.config.chaosPolicy.None? && env.config.authPolicy.None? && env.config.faultOp != call.op
    requires call.id !in core.results && FindOp(env.operations, call.op).Some?
    requires var op := FindOp(env.operations, call.op).value;
             && op.verb.Post? && Dispatch.Validate(op, call.args, mode).None?
             && env.handler(core.world, env.config.runId, call.id, op.behavior, call.args, mode) == Some(o)
    ensures var a := Dispatch.Invoke(env, core, false, call, mode);
            && a.Committed?
            && a.events == [ToolRequest(call)] + Dispatch.MutationEvents(o.mutation)
              + [ToolResponse(call.id, call.op, o.status, o.body)]
  {
    hide Dispatch.Validate;
    var op := FindOp(env.operations, call.op).value;
    var d0 := Dispatch.Begin(core);
    assert Dispatch.Authorize(env, op, call, mode, Dispatch.CheckSchema(op, call.args, mode, d0)) == d0;
    assert Dispatch.Inject(env, call, d0) == Ok(d0);
  }

  // What the checks say -----------------------------------------------------------

  lemma {:induction false} FirstFaultIs(names: seq<string>, op: Operation, args: Args, mode: NumberMode, name: string)
    requires forall n | n in names :: n in args && (n != name ==> Dispatch.ArgumentFault(op, n, args[n], mode).None?)
    ensures Dispatch.FirstFault(names, op, args, mode)
         == if name in names then Dispatch.ArgumentFault(op, name, args[name], mode) else None
  {
    hide Dispatch.ArgumentFault;
    if names != [] {
      FirstFaultIs(names[1..], op, args, mode, name);
      assert names == [names[0]] + names[1..];
    }
  }

  /** If only one argument can be at fault, the check comes down to that argument. */
  lemma OnlyFault(op: Operation, args: Args, mode: NumberMode, name: string)
    requires name in args && forall n | n in op.required :: n in args
    requires forall n | n in args && n != name :: Dispatch.ArgumentFault(op, n, args[n], mode).None?
    ensures Dispatch.Validate(op, args, mode) == Dispatch.ArgumentFault(op, name, args[name], mode)
  {
    hide Dispatch.ArgumentFault;
    Dispatch.FirstMissingNone(op.required, args);
    FirstFaultIs(SortedNames(args.Keys), op, args, mode, name);
  }

  lemma OneOperationFound(op: Operation, rules: Option<seq<Rule>>)
    ensures FindOp(OneOperation(op, rules).operations, op.id) == Some(op)
  {
  }

  // Refunds -----------------------------------------------------------------------

  function RefundOp(): Operation {
    Operation("createRefund", Post, CreateRefund, ["charge_id", "amount_cents", "reason"],
              map["charge_id" := StringArg, "amount_cents" := IntegerArg, "reason" := StringArg])
  }

  function RefundEnv(): Env {
    OneOperation(RefundOp(), None)
  }

  function RefundArgs(amount: real): Args {
    map["charge_id" := Str(['c']), "amount_cents" := Num(amount), "reason" := Str(['r'])]
  }

  function RefundCall(amount: real): ToolCall {
    ToolCall(['c'], "createRefund", RefundArgs(amount))
  }

  const AMOUNT: int := 0x1000_0000_0000_0000
  const RESPELLED: int := 1_152_921_504_606_847_000

  function RefundWorld(): World {
    World(map[['c'] := Charge(2 * AMOUNT, 0)], [], map[])
  }

  lemma RefundIsSupported()
    ensures forall op | op in RefundEnv().operations :: Contract.Supported(op)
  {
    hide Contract.RouteOf;
    Contract.RefundRoute();
    var op, names := RefundOp(), {"charge_id", "reason"} + {"amount_cents"};
    assert op.properties.Keys == names;
    assert |op.properties| == |op.properties.Keys|;
    assert "charge_id" != "reason" && "reason" != "amount_cents" && "amount_cents" != "charge_id";
    assert |names| == 3;
    assert op.required[0] == "charge_id" && op.required[1] == "amount_cents" && op.required[2] == "reason";
  }

  lemma RefundChecked(amount: real, mode: NumberMode)
    ensures FindOp(RefundEnv().operations, RefundCall(amount).op) == Some(RefundOp())
    ensures Dispatch.Validate(RefundOp(), RefundArgs(amount), mode)
         == if mode.Float? && Whole(amount).None? then Some(InvalidArgument("amount_cents")) else None
  {
    hide Dispatch.Validate;
    OneOperationFound(RefundOp(), None);
    OnlyFault(RefundOp(), RefundArgs(amount), mode, "amount_cents");
  }

  lemma RefundNotApart(amount: real, ledger: seq<Event>)
    requires !Numbers.Large(amount) && forall e | e in ledger && e.ToolRequest? :: e.call == RefundCall(amount)
    ensures NoneApart(RefundEnv(), ledger)
  {
    hide ReadApart, HandlersReadAlike, Builtin.IsBuiltin, HandlersTell;
    IsBuiltin(RefundOp(), None);
    Builtin.MeetsAssumptions(RefundEnv(), RefundFields(), RefundId(), Others(), NoChecks());
    SafeIsReadAlike(RefundEnv(), RefundCall(amount));
  }

  /**
    A completed run without any recorded failure whose final boundary `List` reports but
    `Reconstruct` cannot rebuild: the model asked to refund 1.5 cents. The runner refuses
    the number; the rebuild passes it on to a handler that answers something else.
   */
  lemma FractionCannotBeRebuilt(world: World) returns (env: Env, moves: seq<Move>, db: Db, p: Checkpoint.Point)
    ensures env == RefundEnv() && Reaches(env, world, moves, db) && NoFailure(db.ledger)
    ensures Checkpoint.ListOf(db).Some? && p in Checkpoint.ListOf(db).value
    ensures NoneApart(env, p.prefix) && EndsPlainly(p.prefix)
    ensures ReconstructOf(env, world, db, p) == None
  {
    hide Exec, WalkAll, Dispatch.Invoke, Dispatch.Validate, RequestOf, ReadApart, AllRepeat, Repeats, ReconstructOf,
      Builtin.IsBuiltin, Contract.Supported, HandlersTell;
    env := RefundEnv();
    var call, first := RefundCall(1.5), FirstTurn(RefundCall(1.5), Shortest);
    RefundChecked(1.5, Float);
    assert (1.5).Floor == 1;
    RefusalIsImmediate(env, AfterTurn(world, first), false, call);
    var rest;
    moves, rest, db := OneCallRun(env, world, first, call);
    p := LastPoint(env, world, moves, db);
    RefundNotApart(1.5, db.ledger);
    CompletedEndsPlainly(env, world, moves, db);
    assert db.ledger[3] == ToolRequest(call) && RefusedNumber(env, call);
    IsBuiltin(RefundOp(), None);
    RefundIsSupported();
    var _, _ := Contract.ContractRebuildsIff(env, RefundFields(), RefundId(), Others(), NoChecks(), world, moves, db,
                                             p);
  }

  lemma CompletedEndsPlainly(env: Env, world: World, moves: seq<Move>, db: Db)
    requires Checkpoint.NamedOperations(env) && Reaches(env, world, moves, db) && NoFailure(db.ledger)
             && db.status.StatusCompleted?
    ensures EndsPlainly(db.ledger)
  {
    hide Exec, Checkpoint.Scan;
    Checkpoint.ReachableTracks(env, world, moves, db);
  }

  function Receipt(amount: int): Json {
    Arr([Str(['c']), Str(['c']), Num(amount as real), Str(['r'])])
  }

  /** A refund within the charge, as either decoder reads its amount. */
  lemma RefundHandled(r: real, mode: NumberMode, amount: int) returns (o: Outcome)
    requires Billing.Integer(Some(Num(r)), mode) == amount && 0 < amount <= 2 * AMOUNT
    ensures var env, call := RefundEnv(), RefundCall(r);
            env.handler(RefundWorld(), env.config.runId, call.id, CreateRefund, call.args, mode) == Some(o)
    ensures o.mutation == Some(Receipt(amount))
  {
    hide Billing.Integer, ErrorDoc;
    var f, call, w := RefundFields(), RefundCall(r), RefundWorld();
    assert Billing.Lookup(call.args, f.amount) == Some(Num(r));
    assert !Billing.HasRefund(w.refunds, call.id);
    assert Billing.Refunded(f, call.id, w, call.args, mode) == Billing.Create(w, call.id, ['c'], amount, ['r']);
    o := Billing.Create(w, call.id, ['c'], amount, ['r']).value;
  }

  /**
    The model wrote 1000.0 for the integer 1000. The run completes and its final boundary
    is rebuilt, but not the boundary right after that turn: the recorded turn keeps the
    decimal point, and the transcript lost it when the call was dispatched.
   */
  lemma DecimalPointCannotBeRebuilt()
    returns (env: Env, world: World, moves: seq<Move>, db: Db, p: Checkpoint.Point, last: Checkpoint.Point)
    ensures env == RefundEnv() && Reaches(env, world, moves, db) && NoFailure(db.ledger)
    ensures Checkpoint.ListOf(db).Some? && p in Checkpoint.ListOf(db).value && last in Checkpoint.ListOf(db).value
    ensures NoneApart(env, db.ledger) && AllRepeatable(env, db.ledger)
    ensures ReconstructOf(env, world, db, p) == None && ReconstructOf(env, world, db, last).Some?
  {
    hide Exec, WalkAll, Dispatch.Invoke, Dispatch.Validate, RequestOf, ReadApart, Checkpoint.Scan, AllRepeat, Repeats,
      ReconstructOf, Builtin.IsBuiltin, Contract.Supported, HandlersTell;
    env, world := RefundEnv(), RefundWorld();
    var call, first := RefundCall(1000.0), FirstTurn(RefundCall(1000.0), Verbatim("1000.0"));
    RefundChecked(1000.0, Float);
    assert Whole(1000.0) == Some(1000);
    var o := RefundHandled(1000.0, Float, 1000);
    HandledCall(env, AfterTurn(world, first), call, Float, o);
    var rest;
    moves, rest, db := OneCallRun(env, world, first, call);
    last := LastPoint(env, world, moves, db);
    RefundNotApart(1000.0, db.ledger);
    CompletedEndsPlainly(env, world, moves, db);
    var prefix := db.ledger[..3];
    assert prefix == TurnLedger(env, world, first) && prefix[2] == ModelResponse(first);
    Checkpoint.PointsAreBoundaries(db.ledger, prefix);
    p :| p in Checkpoint.ListOf(db).value && p.prefix == prefix;
    IsBuiltin(RefundOp(), None);
    RefundIsSupported();
    var _, _ := Contract.ContractRebuildsIff(env, RefundFields(), RefundId(), Others(), NoChecks(), world, moves, db,
                                             p);
    var _, _ := Contract.ContractRebuildsIff(env, RefundFields(), RefundId(), Others(), NoChecks(), world, moves, db,
                                             last);
  }

  lemma LargeAmounts()
    ensures Billing.Integer(Some(Num(AMOUNT as real)), Float) == AMOUNT
    ensures Billing.Integer(Some(Num(AMOUNT as real)), Literal) == RESPELLED
    ensures Whole(AMOUNT as real) == Some(AMOUNT)
  {
    Numbers.SpelledApart();
    assert Whole(AMOUNT as real) == Some(AMOUNT);
    assert Numbers.ReadWhole(AMOUNT as real, Literal) == Some(RESPELLED);
  }

  /**
    Above 2^53 the rebuild can move a different amount: 2^60 cents come back from the
    recorded request as 1152921504606847000, the shortest literal that names the float64
    value, and the boundary cannot be rebuilt although nothing was refused or misspelled.
   */
  lemma LargeAmountCannotBeRebuilt() returns (env: Env, world: World, moves: seq<Move>, db: Db, p: Checkpoint.Point)
    ensures env == RefundEnv() && Reaches(env, world, moves, db) && NoFailure(db.ledger)
    ensures Checkpoint.ListOf(db).Some? && p in Checkpoint.ListOf(db).value
    ensures AllRepeatable(env, p.prefix) && EndsPlainly(p.prefix)
    ensures ReconstructOf(env, world, db, p) == None
  {
    hide Exec, WalkAll, Dispatch.Invoke, Dispatch.Validate, RequestOf, AllRepeat, Builtin.IsBuiltin, HandlersTell,
      Raised, ReconstructOf;
    env, world := RefundEnv(), RefundWorld();
    var call, first := RefundCall(AMOUNT as real), FirstTurn(RefundCall(AMOUNT as real), Shortest);
    var core := AfterTurn(world, first);
    LargeAmounts();
    RefundChecked(AMOUNT as real, Float);
    RefundChecked(AMOUNT as real, Literal);
    var o := RefundHandled(AMOUNT as real, Float, AMOUNT);
    var l := RefundHandled(AMOUNT as real, Literal, RESPELLED);
    HandledCall(env, core, call, Float, o);
    HandledCall(env, core, call, Literal, l);
    var rest;
    moves, rest, db := OneCallRun(env, world, first, call);
    p := LastPoint(env, world, moves, db);
    CompletedEndsPlainly(env, world, moves, db);
    var d1 := FirstState(env, world, first, call);
    NoPolicyNotRaised(env, d1);
    assert Dispatch.Invoke(env, core, false, call, Float).events[1] == Mutation(Receipt(AMOUNT));
    assert Dispatch.Invoke(env, core, false, call, Literal).events[1] == Mutation(Receipt(RESPELLED));
    IsBuiltin(RefundOp(), None);
    StateRebuildsIff(env, world, moves, db, p, moves, db);
  }

  // A status -------------------------------------------------------------------------

  /** An operation a world manifest may declare: the status of an account as an integer. */
  function StatusOp(): Operation {
    Operation(['o'], Post, UPDATE_STATUS, ["account_id", "status"],
              map["account_id" := StringArg, "status" := IntegerArg])
  }

  function StatusArgs(): Args {
    map["account_id" := Str(['a']), "status" := Num(1.5)]
  }

  function StatusCall(): ToolCall {
    ToolCall(['c'], ['o'], StatusArgs())
  }

  /** A rule that waits for a second matching call. */
  function Later(): Rule {
    Rule(['r'], [['o']], 0, 1, RateLimit)
  }

  lemma StatusChecked(mode: NumberMode)
    ensures Dispatch.Validate(StatusOp(), StatusArgs(), mode)
         == if mode.Float? then Some(InvalidArgument("status")) else None
  {
    hide Dispatch.Validate;
    assert (1.5).Floor == 1;
    OnlyFault(StatusOp(), StatusArgs(), mode, "status");
  }

  /** The handler refuses the number in the words of the argument check. */
  lemma StatusRefused(rules: Option<seq<Rule>>, world: World)
    ensures var env, call := OneOperation(StatusOp(), rules), StatusCall();
            AnswersInvalid(env.handler(world, env.config.runId, call.id, StatusOp().behavior, call.args, Literal),
                           "status")
  {
    hide ErrorDoc, Crm.Updated;
    Crm.UpdateTells(StatusFields(), world, StatusArgs());
    assert 'a' in ['a'] && !IsSpace('a');
  }

  lemma LaterIsNotDue(core: Core, call: ToolCall)
    requires core.chaos.rules == map[]
    ensures Chaos.DecideOn([Later()], core.chaos.rules, core.chaos.snapshots, call.op, call.args).selected.None?
  {
    assert [Later()][..0] == [];
  }

  /** The run with one such call, and its last boundary. */
  lemma StatusRun(rules: Option<seq<Rule>>, world: World)
    returns (moves: seq<Move>, rest: seq<Event>, db: Db, p: Checkpoint.Point)
    requires rules == None || rules == Some([Later()])
    ensures var env := OneOperation(StatusOp(), rules);
            && Reaches(env, world, moves, db) && NoFailure(db.ledger)
            && Checkpoint.ListOf(db).Some? && p in Checkpoint.ListOf(db).value && p.prefix == db.ledger
            && ReconstructOf(env, world, db, p) == Some(Raised(env, db))
            && db.ledger == TurnLedger(env, world, FirstTurn(StatusCall(), Shortest))
                            + (RefusalEvents(StatusCall(), InvalidArgument("status")) + rest)
            && forall e | e in rest :: !e.ToolRequest?
    ensures RefusedNumber(OneOperation(StatusOp(), rules), StatusCall())
  {
    hide Exec, WalkAll, Dispatch.Invoke, Dispatch.Validate, RequestOf, AllRepeat, Repeats, Builtin.IsBuiltin,
      HandlersTell, ReconstructOf, ErrorDoc, Chaos.DecideOn, AnswersInvalid, Raised;
    var env, call, first := OneOperation(StatusOp(), rules), StatusCall(), FirstTurn(StatusCall(), Shortest);
    OneOperationFound(StatusOp(), rules);
    StatusChecked(Float);
    StatusChecked(Literal);
    assert RefusedNumber(env, call);
    RefusalIsImmediate(env, AfterTurn(world, first), false, call);
    moves, rest, db := OneCallRun(env, world, first, call);
    p := LastPoint(env, world, moves, db);
    CompletedEndsPlainly(env, world, moves, db);
    IsBuiltin(StatusOp(), rules);
    var d1 := FirstState(env, world, first, call);
    NothingRefusedYet(env, d1);
    RefusalRepeatsIff(env, d1, call);
    StatusRefused(rules, world);
    LaterIsNotDue(d1.core, call);
    assert Repeats(env, d1, call);
    StateRebuildsIff(env, world, moves, db, p, moves, db);
  }

  lemma NothingRefusedYet(env: Env, db: Db)
    requires forall e | e in db.ledger :: !e.ToolRequest?
    ensures Raised(env, db) == db
  {
    hide Raised, RefusedNumber;
    CountersAreTheRuns(env, db);
  }

  /**
    The refused call is no obstacle here. The runner answers a status of 1.5 with "invalid
    status"; the rebuild lets the literal pass, the CRM handler answers the same, and the
    boundary is rebuilt with the rows of the run.
   */
  lemma StatusIsRebuilt(world: World) returns (env: Env, moves: seq<Move>, db: Db, p: Checkpoint.Point)
    ensures env == OneOperation(StatusOp(), None) && Reaches(env, world, moves, db) && NoFailure(db.ledger)
    ensures Checkpoint.ListOf(db).Some? && p in Checkpoint.ListOf(db).value
    ensures !AllRepeatable(env, p.prefix) && ReconstructOf(env, world, db, p) == Some(db)
  {
    hide Exec, ReconstructOf, RefusedNumber, Raised, TurnLedger;
    env := OneOperation(StatusOp(), None);
    var rest;
    moves, rest, db, p := StatusRun(None, world);
    assert RefusalEvents(StatusCall(), InvalidArgument("status"))[0] in db.ledger;
    NoPolicyNotRaised(env, db);
  }

  /** With a chaos rule that was not due, the rebuild succeeds too, and has counted a call the run has not. */
  lemma StatusIsRebuiltMiscounted(world: World)
    returns (env: Env, moves: seq<Move>, db: Db, p: Checkpoint.Point, rebuilt: Db)
    ensures env == OneOperation(StatusOp(), Some([Later()])) && Reaches(env, world, moves, db) && NoFailure(db.ledger)
    ensures Checkpoint.ListOf(db).Some? && p in Checkpoint.ListOf(db).value && p.prefix == db.ledger
    ensures ReconstructOf(env, world, db, p) == Some(rebuilt)
    ensures Chaos.RowOf(rebuilt.core.chaos.rules, Later().id).calls
         == Chaos.RowOf(db.core.chaos.rules, Later().id).calls + 1
  {
    hide Exec, ReconstructOf, RefusedNumber, TurnLedger, Extra, ErrorDoc, Chaos.RowOf;
    env := OneOperation(StatusOp(), Some([Later()]));
    var rest, id := [], Later().id;
    moves, rest, db, p := StatusRun(Some([Later()]), world);
    rebuilt := Raised(env, db);
    var call, first := StatusCall(), FirstTurn(StatusCall(), Shortest);
    var asked, refused := TurnLedger(env, world, first), RefusalEvents(call, InvalidArgument("status"));
    ExtraAppend(env, asked, refused + rest, id);
    ExtraAppend(env, refused, rest, id);
    NothingCounted(env, asked, id) by {
      TurnHasNoCall(env, world, first);
    }
    NothingCounted(env, rest, id);
    BracketExtra(env, call, refused, 400, ErrorDoc(InvalidArgument("status")), id);
    assert CountsAgain(env, ToolRequest(call), id) by {
      assert Later() in Policy(env) && call.op in Later().operations;
    }
    RaisedRowOf(env, db.ledger, db.core.chaos.rules, id);
  }

  lemma NothingCounted(env: Env, events: seq<Event>, id: string)
    requires forall e | e in events :: !e.ToolRequest?
    ensures Extra(env, events, id) == 0
  {
    hide RefusedNumber;
    NoExtra(env, events, id);
  }

  lemma TurnHasNoCall(env: Env, world: World, first: Message)
    ensures forall e | e in TurnLedger(env, world, first) :: !e.ToolRequest?
  {
    hide RequestOf;
  }
}
