/**
  The run engine. A run is driven by durable steps; everything a worker keeps in
  memory is derived from the rows again after a crash. `Apply` is the durable
  effect of one step and `Execute` the loop that chooses the steps.
 */
module Engine {
  import opened Basics
  import opened Protocol
  import Authz
  import Dispatch

  // The transcript ----------------------------------------------------------

  function AllCalls(history: seq<Message>): seq<ToolCall> {
    if history == [] then [] else
      var last := history[|history| - 1];
      AllCalls(history[..|history| - 1]) + (if last.Assistant? then last.calls else [])
  }

  function ToolMessages(history: seq<Message>): (tools: seq<Message>)
    ensures forall m | m in tools :: m.Tool?
  {
    if history == [] then [] else
      var last := history[|history| - 1];
      ToolMessages(history[..|history| - 1]) + (if last.Tool? then [last] else [])
  }

  function DoneIds(history: seq<Message>): set<string> {
    if history == [] then {} else
      var last := history[|history| - 1];
      DoneIds(history[..|history| - 1]) + (if last.Tool? then {last.callId} else {})
  }

  function FirstOpen(calls: seq<ToolCall>, done: set<string>): Option<ToolCall> {
    if calls == [] then None
    else if calls[0].id !in done then Some(calls[0])
    else FirstOpen(calls[1..], done)
  }

  /** The next call to dispatch: the first one, in transcript order, without a tool message. */
  function Pending(history: seq<Message>): Option<ToolCall> {
    FirstOpen(AllCalls(history), DoneIds(history))
  }

  predicate IsFinal(history: seq<Message>) {
    history != [] && history[|history| - 1].Assistant? && history[|history| - 1].calls == []
  }

  lemma PlainDecides(history: seq<Message>)
    ensures Pending(PlainAll(history)) == Pending(history) && IsFinal(PlainAll(history)) == IsFinal(history)
  {
    PlainSame(history);
  }

  lemma Snoc(history: seq<Message>, m: Message)
    ensures AllCalls(history + [m]) == AllCalls(history) + (if m.Assistant? then m.calls else [])
    ensures ToolMessages(history + [m]) == ToolMessages(history) + (if m.Tool? then [m] else [])
    ensures DoneIds(history + [m]) == DoneIds(history) + (if m.Tool? then {m.callId} else {})
  {
    assert (history + [m])[..|history|] == history;
  }

  lemma PlainPrefix(history: seq<Message>, n: nat)
    requires n <= |history|
    ensures PlainAll(history)[..n] == PlainAll(history[..n])
  {
  }

  /** Respelling numbers changes nothing the engine decides by. */
  lemma {:induction false} PlainSame(history: seq<Message>)
    ensures AllCalls(PlainAll(history)) == AllCalls(history)
    ensures ToolMessages(PlainAll(history)) == ToolMessages(history)
    ensures DoneIds(PlainAll(history)) == DoneIds(history)
  {
    if history != [] {
      var n := |history| - 1;
      PlainSame(history[..n]);
      PlainPrefix(history, n);
    }
  }

  lemma PlainSnoc(history: seq<Message>, m: Message)
    ensures var next := PlainAll(history) + [m];
            && AllCalls(next) == AllCalls(history) + (if m.Assistant? then m.calls else [])
            && ToolMessages(next) == ToolMessages(history) + (if m.Tool? then [m] else [])
            && DoneIds(next) == DoneIds(history) + (if m.Tool? then {m.callId} else {})
  {
    PlainSame(history);
    Snoc(PlainAll(history), m);
  }

  lemma {:induction false} FirstOpenIsOpen(calls: seq<ToolCall>, done: set<string>)
    ensures var c := FirstOpen(calls, done);
            && (c.Some? ==> c.value in calls && c.value.id !in done)
            && (c.None? ==> forall k | k in calls :: k.id in done)
  {
    if calls != [] {
      FirstOpenIsOpen(calls[1..], done);
      assert calls == [calls[0]] + calls[1..];
    }
  }

  // Validation of a turn ----------------------------------------------------

  function CallFault(ops: seq<Operation>, call: ToolCall, seen: set<string>, inTurn: set<string>): Option<TurnFault> {
    if |call.id| == 0 || FindOp(ops, call.op).None? then Some(InvalidCall)
    else if call.id in inTurn then Some(AppearsTwice(call.id))
    else if call.id in seen then Some(Reused(call.id))
    else None
  }

  function CallsFault(ops: seq<Operation>, calls: seq<ToolCall>, seen: set<string>,
                      inTurn: set<string>): Option<TurnFault> {
    if calls == [] then None else
      var fault := CallFault(ops, calls[0], seen, inTurn);
      if fault.Some? then fault else CallsFault(ops, calls[1..], seen, inTurn + {calls[0].id})
  }

  function IdsOf(calls: seq<ToolCall>): set<string> {
    set c | c in calls :: c.id
  }

  /** What is wrong with the calls of a turn, if anything. */
  function TurnFaultOf(ops: seq<Operation>, history: seq<Message>, next: Message): Option<TurnFault> {
    if next.Assistant? then CallsFault(ops, next.calls, IdsOf(AllCalls(history)), {}) else None
  }

  predicate DistinctIds(calls: seq<ToolCall>) {
    forall i, j | 0 <= i < j < |calls| :: calls[i].id != calls[j].id
  }

  /** An accepted turn has compiled, named calls whose IDs are new to the turn and to the run. */
  lemma {:induction false} CallsFaultNone(ops: seq<Operation>, calls: seq<ToolCall>, seen: set<string>,
                                          inTurn: set<string>)
    ensures CallsFault(ops, calls, seen, inTurn).None? <==>
            && (forall c | c in calls :: |c.id| > 0 && FindOp(ops, c.op).Some? && c.id !in seen && c.id !in inTurn)
            && DistinctIds(calls)
  {
    if calls != [] {
      CallsFaultNone(ops, calls[1..], seen, inTurn + {calls[0].id});
      assert calls == [calls[0]] + calls[1..];
      if DistinctIds(calls[1..]) && forall c | c in calls[1..] :: c.id != calls[0].id {
        forall i, j | 0 <= i < j < |calls|
          ensures calls[i].id != calls[j].id
        {
          assert calls[j] == calls[1..][j - 1];
          if i > 0 {
            assert calls[i] == calls[1..][i - 1];
          }
        }
      }
    }
  }

  // Durable steps -----------------------------------------------------------

  datatype Move =
    | Dispatched
    | DispatchFailed(cause: Option<Failure>)
    | Complete
    | Pause
    | Request_
    | Turn(message: Message)
    | TurnFailed(message: Message, fault: ProviderFault)

  function RequestOf(env: Env, core: Core): Request {
    Request(env.config.task, env.config.provider, env.config.model, PlainAll(core.transcript),
            Authz.Exposed(env, core.authCalls))
  }

  predicate Retried(ledger: seq<Event>) {
    exists e | e in ledger :: e.Retry?
  }

  /** The ledger ends in a model request nothing has answered. */
  predicate Open(ledger: seq<Event>) {
    ledger != [] && ledger[|ledger| - 1].ModelRequest?
  }

  /** No call is pending and the last message does not end the run: the model is next. */
  predicate NeedsTurn(history: seq<Message>) {
    Pending(history).None? && !IsFinal(history)
  }

  predicate Answerable(env: Env, db: Db) {
    NeedsTurn(db.core.transcript) && LastOf(db.ledger) == Some(ModelRequest(RequestOf(env, db.core)))
  }

  /** Why an answered turn is recorded as a failure instead of being saved. */
  function Rejection(env: Env, history: seq<Message>, m: Message): Option<ProviderFault> {
    if !m.Assistant? then Some(WrongRole)
    else match TurnFaultOf(env.operations, history, m)
      case None => None
      case Some(fault) => Some(InvalidTurn(fault))
  }

  predicate Accepted(env: Env, history: seq<Message>, m: Message) {
    Rejection(env, history, m).None?
  }

  lemma PlainAccepts(env: Env, history: seq<Message>, m: Message)
    ensures Accepted(env, PlainAll(history), m) == Accepted(env, history, m)
  {
    PlainSame(history);
  }

  /** A turn's attempts are recorded in the same transaction as the response they precede. */
  function TurnEvents(m: Message): seq<Event> {
    InterruptedEvents(InterruptionsOf(m)) + [ModelResponse(m)]
  }

  function FailureEvents(m: Message, fault: ProviderFault): seq<Event> {
    TurnEvents(m) + [Error(ProviderFailure(fault))]
  }

  /** What a turn's transaction writes: its events, the step and the whole transcript column. */
  function WriteTurn(db: Db, step: nat, transcript: seq<Message>, m: Message): Db {
    Db(Running, db.ledger + TurnEvents(m), db.core.(step := step, transcript := transcript))
  }

  /** A turn is saved behind the decoded history, so the turn itself keeps its spelling. */
  function SaveTurn(db: Db, m: Message): Db {
    WriteTurn(db, db.core.step + 1, PlainAll(db.core.transcript) + [m], m)
  }

  function FailTurn(db: Db, m: Message, fault: ProviderFault): Db {
    Db(StatusFailed, db.ledger + FailureEvents(m, fault), db.core)
  }

  function AppendRequest(env: Env, db: Db): Option<Db> {
    var request := RequestOf(env, db.core);
    if !Open(db.ledger) then Some(db.(ledger := db.ledger + [ModelRequest(request)]))
    else if db.ledger[|db.ledger| - 1].request == request then Some(db)
    else None
  }

  function ApplyDispatch(env: Env, db: Db): Option<Db> {
    match Pending(db.core.transcript)
    case None => None
    case Some(call) =>
      match Dispatch.Invoke(env, db.core, Retried(db.ledger), call, Float)
      case Rejected(_) => None
      case Cached(_) => Some(db)
      case Committed(core, events) => Some(Db(db.status, db.ledger + events, core))
  }

  /** The durable effect of one step, or `None` where the engine never takes it. */
  function Apply(env: Env, db: Db, move: Move): Option<Db> {
    if db.status.StatusCompleted? then None else
      match move
      case Dispatched => ApplyDispatch(env, db)
      case DispatchFailed(cause) =>
        if Pending(db.core.transcript).None? then None else
          var call := Pending(db.core.transcript).value;
          Some(db.(status := StatusFailed, ledger := db.ledger + [Error(DispatchFailure(call.id, call.op, cause))]))
      case Complete =>
        if Pending(db.core.transcript).None? && IsFinal(db.core.transcript)
        then Some(db.(status := StatusCompleted, ledger := db.ledger + [Completed(db.core.step)])) else None
      case Pause =>
        if NeedsTurn(db.core.transcript) && !Open(db.ledger)
        then Some(db.(status := StatusPaused, ledger := db.ledger + [Paused(db.core.step)])) else None
      case Request_ => if NeedsTurn(db.core.transcript) then AppendRequest(env, db) else None
      case Turn(m) =>
        if Answerable(env, db) && Accepted(env, db.core.transcript, m) then Some(SaveTurn(db, m)) else None
      case TurnFailed(m, fault) => if Answerable(env, db) then Some(FailTurn(db, m, fault)) else None
  }

  function Init(world: World): Db {
    Db(Running, [Started], Core(0, [], map[], world, ChaosRows(map[], map[], map[]), 0, false))
  }

  /** The state after a whole history of durable steps, whoever took them and however often workers died between. */
  function Exec(env: Env, db: Db, moves: seq<Move>): Option<Db> {
    if moves == [] then Some(db) else
      match Exec(env, db, moves[..|moves| - 1])
      case None => None
      case Some(before) => Apply(env, before, moves[|moves| - 1])
  }

  predicate Reaches(env: Env, world: World, moves: seq<Move>, db: Db) {
    Exec(env, Init(world), moves) == Some(db)
  }

  lemma {:induction false} ExecAppend(env: Env, db: Db, a: seq<Move>, b: seq<Move>)
    requires Exec(env, db, a).Some?
    ensures Exec(env, db, a + b) == Exec(env, Exec(env, db, a).value, b)
  {
    hide Apply;
    if b == [] {
      assert a + b == a;
    } else {
      var n := |b| - 1;
      ExecAppend(env, db, a, b[..n]);
      assert (a + b)[..|a + b| - 1] == a + b[..n];
    }
  }

  lemma ExecOne(env: Env, db: Db, move: Move)
    ensures Exec(env, db, [move]) == Apply(env, db, move)
  {
    hide Apply;
    assert [move][..0] == [];
    assert Exec(env, db, []) == Some(db);
  }

  // The provider ------------------------------------------------------------

  /** One provider attempt. An interrupt may be followed by a wait, which the caller can cancel. */
  datatype Reply =
    | Reply(message: Message)
    | Interrupt(kind: string, reason: string, cancelled: bool)
    | Refused(reason: string)

  /** A provider answers its n-th attempt at a request; nothing else is assumed about it. */
  type Provider = (nat, Request) -> Reply

  const PROVIDER_ATTEMPTS: nat := 2

  datatype TurnResult = Answered(message: Message, asked: nat) | Unanswered(message: Message, asked: nat,
      reason: string)

  function WithInterruptions(m: Message, recorded: seq<Interruption>): Message {
    match m
    case Assistant(content, calls, own, spelling) => Assistant(content, calls, recorded + own, spelling)
    case Tool(_, _, _, _) => m
    case Other(role, own) => Other(role, recorded + own)
  }

  /** The zero message that accompanies an error, carrying the attempts made. */
  function NoMessage(recorded: seq<Interruption>): Message {
    Other([], recorded)
  }

  function CallFrom(provider: Provider, asked: nat, request: Request, attempt: nat,
                    recorded: seq<Interruption>): (r: TurnResult)
    requires 1 <= attempt <= PROVIDER_ATTEMPTS
    decreases PROVIDER_ATTEMPTS - attempt
    ensures asked < r.asked <= asked + PROVIDER_ATTEMPTS + 1 - attempt
  {
    match provider(asked, request)
    case Reply(m) => Answered(WithInterruptions(m, recorded), asked + 1)
    case Refused(reason) => Unanswered(NoMessage(recorded), asked + 1, reason)
    case Interrupt(kind, reason, cancelled) =>
      var now := recorded + [Interruption(attempt, kind, reason)];
      if attempt >= PROVIDER_ATTEMPTS || cancelled then Unanswered(NoMessage(now), asked + 1, reason)
      else CallFrom(provider, asked + 1, request, attempt + 1, now)
  }

  function CallProvider(provider: Provider, asked: nat, request: Request): TurnResult {
    CallFrom(provider, asked, request, 1, [])
  }

  // The loop ----------------------------------------------------------------

  /** How `Execute` returns. `Unending` is the loop that would never leave a cached but unanswered call. */
  datatype Verdict = RunCompleted | RunPaused | RunFailed | RunUnsafe | Unending

  datatype Report = Report(db: Db, asked: nat, verdict: Verdict)

  function OpenCount(calls: seq<ToolCall>, done: set<string>): nat {
    if calls == [] then 0 else (if calls[0].id !in done then 1 else 0) + OpenCount(calls[1..], done)
  }

  lemma {:induction false} DoneLowersOpenCount(calls: seq<ToolCall>, done: set<string>, id: string)
    ensures OpenCount(calls, done + {id}) <= OpenCount(calls, done)
    ensures id !in done && (exists c | c in calls :: c.id == id)
            ==> OpenCount(calls, done + {id}) < OpenCount(calls, done)
  {
    if calls != [] {
      DoneLowersOpenCount(calls[1..], done, id);
      assert calls == [calls[0]] + calls[1..];
    }
  }

  function Backlog(history: seq<Message>): nat {
    OpenCount(AllCalls(history), DoneIds(history))
  }

  /** Committing the pending call leaves one call fewer to dispatch. */
  lemma DispatchLowersBacklog(env: Env, db: Db)
    requires Pending(db.core.transcript).Some?
    requires Dispatch.Invoke(env, db.core, Retried(db.ledger), Pending(db.core.transcript).value, Float).Committed?
    ensures var call := Pending(db.core.transcript).value;
            Backlog(Dispatch.Invoke(env, db.core, Retried(db.ledger), call,
                                    Float).core.transcript) < Backlog(db.core.transcript)
  {
    var history := db.core.transcript;
    var call := Pending(history).value;
    var status, body := Dispatch.InvokeAgrees(env, db.core, Retried(db.ledger), call, Float);
    PlainSnoc(history, Tool(call.id, call.op, status, body));
    FirstOpenIsOpen(AllCalls(history), DoneIds(history));
    DoneLowersOpenCount(AllCalls(history), DoneIds(history), call.id);
    assert AllCalls(history) + [] == AllCalls(history);
  }

  /** One model turn: request, provider, validation, and the transaction that records the outcome. */
  datatype Taken = Taken(db: Db, asked: nat, verdict: Option<Verdict>)

  function TakeTurn(env: Env, db: Db, provider: Provider, asked: nat): Taken {
    match AppendRequest(env, db)
    case None => Taken(db, asked, Some(RunUnsafe))
    case Some(open) =>
      match CallProvider(provider, asked, RequestOf(env, db.core))
      case Unanswered(m, after, reason) => Taken(FailTurn(open, m, ProviderError(reason)), after, Some(RunFailed))
      case Answered(m, after) =>
        match Rejection(env, db.core.transcript, m)
        case None => Taken(SaveTurn(open, m), after, None)
        case Some(fault) => Taken(FailTurn(open, m, fault), after, Some(RunFailed))
  }

  function Execute(env: Env, db: Db, provider: Provider, asked: nat, used: nat, maxSteps: nat): Report
    decreases if used <= maxSteps then maxSteps - used + 1 else 0, Backlog(db.core.transcript)
  {
    if db.status.StatusCompleted? then Report(db, asked, RunCompleted)
    else if Pending(db.core.transcript).Some? then
      var call := Pending(db.core.transcript).value;
      match Dispatch.Invoke(env, db.core, Retried(db.ledger), call, Float)
      case Rejected(cause) => Report(Apply(env, db, DispatchFailed(Some(cause))).value, asked, RunFailed)
      case Cached(_) => Report(db, asked, Unending)
      case Committed(core, events) =>
        DispatchLowersBacklog(env, db);
        Execute(env, Db(db.status, db.ledger + events, core), provider, asked, used, maxSteps)
    else if IsFinal(db.core.transcript) then Report(Apply(env, db, Complete).value, asked, RunCompleted)
    else if used >= maxSteps then
      Report(db.(status := StatusPaused, ledger := db.ledger + [Paused(db.core.step)]), asked, RunPaused)
    else
      var t := TakeTurn(env, db, provider, asked);
      match t.verdict
      case Some(verdict) => Report(t.db, t.asked, verdict)
      case None => Execute(env, t.db, provider, t.asked, used + 1, maxSteps)
  }
}
