/**
  Crashes, pauses and takeovers leave no trace. Any completed history of durable
  steps ends where one uninterrupted `Execute` would have ended, given a provider
  that answers the same requests with the same turns.
 */
module Simulation {
  import opened Basics
  import opened Protocol
  import opened Engine
  import opened Agreement
  import Checkpoint
  import Dispatch
  import Execution

  /** The events a replay compares; start, pause and completion are not among them. */
  predicate Semantic(e: Event) {
    !e.Started? && !e.Paused? && !e.Completed?
  }

  function Sem(ledger: seq<Event>): seq<Event> {
    if ledger == [] then [] else
      var last := ledger[|ledger| - 1];
      Sem(ledger[..|ledger| - 1]) + (if Semantic(last) then [last] else [])
  }

  lemma {:induction false} SemMember(ledger: seq<Event>, e: Event)
    ensures e in Sem(ledger) <==> e in ledger && Semantic(e)
  {
    if ledger != [] {
      var n := |ledger| - 1;
      SemMember(ledger[..n], e);
      assert ledger == ledger[..n] + [ledger[n]];
    }
  }

  lemma {:induction false} SemAppend(a: seq<Event>, b: seq<Event>)
    ensures Sem(a + b) == Sem(a) + Sem(b)
  {
    if b == [] {
      assert a + b == a;
    } else {
      var n := |b| - 1;
      SemAppend(a, b[..n]);
      assert (a + b)[..|a + b| - 1] == a + b[..n];
    }
  }

  lemma {:induction false} SemAll(events: seq<Event>)
    requires forall e | e in events :: Semantic(e)
    ensures Sem(events) == events
  {
    if events != [] {
      SemAll(events[..|events| - 1]);
      assert Semantic(events[|events| - 1]);
    }
  }

  lemma SemGrows(ledger: seq<Event>, events: seq<Event>)
    requires forall e | e in events :: Semantic(e)
    ensures Sem(ledger + events) == Sem(ledger) + events
  {
    SemAppend(ledger, events);
    SemAll(events);
  }

  lemma SemSkips(ledger: seq<Event>, e: Event)
    requires !Semantic(e)
    ensures Sem(ledger + [e]) == Sem(ledger)
  {
    assert (ledger + [e])[..|ledger|] == ledger;
  }

  lemma RetriedIsSemantic(a: seq<Event>, b: seq<Event>)
    requires Sem(a) == Sem(b)
    ensures Retried(a) == Retried(b)
  {
    forall e: Event | e.Retry?
      ensures e in a <==> e in b
    {
      SemMember(a, e);
      SemMember(b, e);
    }
  }

  // The relation ------------------------------------------------------------

  /** The same rows and the same semantic events. */
  predicate Same(a: Db, b: Db) {
    a.core == b.core && Sem(a.ledger) == Sem(b.ledger)
  }

  /** The uninterrupted run has not issued the request an interrupted one may have left open. */
  predicate Related(d: Db, r: Db) {
    && d.core == r.core && !Open(r.ledger) && !r.status.StatusCompleted?
    && Sem(d.ledger) == Sem(r.ledger) + (if Open(d.ledger) then [d.ledger[|d.ledger| - 1]] else [])
  }

  /** The provider answers each turn's request, in order, with the turn that was saved. */
  predicate Follows(env: Env, d: Db, moves: seq<Move>, p: Provider, asked: nat)
    decreases |moves|
  {
    if moves == [] then true else
      match Apply(env, d, moves[0])
      case None => false
      case Some(next) =>
        if moves[0].Turn? then
          var r := CallProvider(p, asked, RequestOf(env, d.core));
          r.Answered? && r.message == moves[0].message && Follows(env, next, moves[1..], p, r.asked)
        else Follows(env, next, moves[1..], p, asked)
  }

  function AskedAfter(env: Env, d: Db, moves: seq<Move>, p: Provider, asked: nat): nat
    requires Follows(env, d, moves, p, asked)
    decreases |moves|
  {
    if moves == [] then asked else
      var next := Apply(env, d, moves[0]).value;
      if moves[0].Turn? then
        AskedAfter(env, next, moves[1..], p, CallProvider(p, asked, RequestOf(env, d.core)).asked)
      else AskedAfter(env, next, moves[1..], p, asked)
  }

  function TurnCount(moves: seq<Move>): nat {
    if moves == [] then 0 else (if moves[0].Turn? then 1 else 0) + TurnCount(moves[1..])
  }

  lemma {:induction false} ExecPrefix(env: Env, d: Db, moves: seq<Move>, k: nat)
    requires Exec(env, d, moves).Some? && k <= |moves|
    ensures Exec(env, d, moves[..k]).Some?
    ensures Exec(env, d, moves[..k]).value.ledger <= Exec(env, d, moves).value.ledger
  {
    hide Apply;
    if k == |moves| {
      assert moves[..k] == moves;
    } else {
      var n := |moves| - 1;
      ExecPrefix(env, d, moves[..n], k);
      assert moves[..n][..k] == moves[..k];
      Checkpoint.StepExtendsLedger(env, Exec(env, d, moves[..n]).value, moves[n]);
    }
  }

  lemma ExecHead(env: Env, d: Db, moves: seq<Move>)
    requires Exec(env, d, moves).Some? && moves != []
    ensures Apply(env, d, moves[0]).Some?
    ensures Exec(env, d, moves) == Exec(env, Apply(env, d, moves[0]).value, moves[1..])
    ensures Apply(env, d, moves[0]).value.ledger <= Exec(env, d, moves).value.ledger
  {
    hide Apply, Exec;
    ExecPrefix(env, d, moves, 1);
    assert moves[..1] == [moves[0]];
    ExecOne(env, d, moves[0]);
    assert moves == [moves[0]] + moves[1..];
    ExecAppend(env, d, [moves[0]], moves[1..]);
  }

  // One step of the interrupted run -------------------------------------------

  lemma PausedStaysRelated(env: Env, d: Db, r: Db)
    requires Related(d, r) && Apply(env, d, Pause).Some?
    ensures Related(Apply(env, d, Pause).value, r)
  {
    hide Pending, IsFinal;
    SemSkips(d.ledger, Paused(d.core.step));
  }

  lemma RequestStaysRelated(env: Env, d: Db, r: Db)
    requires Related(d, r) && Apply(env, d, Request_).Some?
    ensures Related(Apply(env, d, Request_).value, r)
  {
    hide Pending, IsFinal, RequestOf;
    if !Open(d.ledger) {
      SemGrows(d.ledger, [ModelRequest(RequestOf(env, d.core))]);
    }
  }

  lemma BracketIsSemantic(call: ToolCall, events: seq<Event>, status: int, body: Json)
    requires Dispatch.IsBracket(call, events, status, body)
    ensures forall e | e in events :: Semantic(e)
  {
    var n := |events| - 1;
    assert events == [events[0]] + events[1..n] + [events[n]];
    assert forall e | e in events[1..n] :: IsInner(e);
  }

  lemma RelatedMeans(d: Db, r: Db)
    requires Related(d, r)
    ensures d.core == r.core && !r.status.StatusCompleted?
  {
  }

  /** A settled ledger and the same bracket on both sides keep the relation. */
  lemma BracketStaysRelated(d: Db, r: Db, core: Core, call: ToolCall, events: seq<Event>, status: int, body: Json)
    requires Related(d, r) && !Open(d.ledger) && Dispatch.IsBracket(call, events, status, body)
    ensures Related(Db(d.status, d.ledger + events, core), Db(r.status, r.ledger + events, core))
  {
    hide Sem;
    BracketIsSemantic(call, events, status, body);
    SemGrows(d.ledger, events);
    SemGrows(r.ledger, events);
    Execution.BracketCloses(d.ledger, events, call, status, body);
    Execution.BracketCloses(r.ledger, events, call, status, body);
  }

  lemma RelatedRetries(d: Db, r: Db)
    requires Related(d, r) && !Open(d.ledger)
    ensures Retried(d.ledger) == Retried(r.ledger)
  {
    hide Retried, Sem;
    RetriedIsSemantic(d.ledger, r.ledger);
  }

  lemma PendingMeansClosed(env: Env, d: Db)
    requires Execution.Resumable(env, d) && Pending(d.core.transcript).Some?
    ensures !Open(d.ledger)
  {
    hide Pending, IsFinal;
  }

  /** Dispatch does the same work on both sides. */
  lemma DispatchStaysRelated(env: Env, d: Db, r: Db)
    requires Agree(d) && Execution.Resumable(env, d) && Related(d, r) && Apply(env, d, Dispatched).Some?
    ensures var a := Dispatch.Invoke(env, r.core, Retried(r.ledger), Pending(r.core.transcript).value, Float);
            && Pending(r.core.transcript).Some? && a.Committed?
            && Related(Apply(env, d, Dispatched).value, Db(r.status, r.ledger + a.events, a.core))
  {
    hide Agree, Dispatch.Invoke, Dispatch.IsBracket, Pending, AllCalls, ToolMessages, Related, Execution.Resumable,
      Retried, Open;
    RelatedMeans(d, r);
    AgreedPending(d);
    PendingMeansClosed(env, d);
    RelatedRetries(d, r);
    var call, status, body := DispatchKeepsAgreement(env, d);
    var a := Dispatch.Invoke(env, d.core, Retried(d.ledger), call, Float);
    BracketStaysRelated(d, r, a.core, call, a.events, status, body);
  }

  lemma TurnIsSemantic(m: Message)
    ensures forall e | e in TurnEvents(m) :: Semantic(e)
  {
  }

  lemma TurnStaysRelated(env: Env, d: Db, r: Db, m: Message)
    requires Related(d, r) && Apply(env, d, Turn(m)).Some?
    ensures AppendRequest(env, r).Some?
    ensures Related(SaveTurn(d, m), SaveTurn(AppendRequest(env, r).value, m))
  {
    hide Pending, IsFinal, RequestOf, Rejection, Sem, SaveTurn;
    var open := AppendRequest(env, r).value;
    SemGrows(r.ledger, [ModelRequest(RequestOf(env, r.core))]);
    SavedTurn(d, m);
    SavedTurn(open, m);
  }

  lemma SavedTurn(d: Db, m: Message)
    ensures var next := SaveTurn(d, m);
            && Sem(next.ledger) == Sem(d.ledger) + TurnEvents(m) && !Open(next.ledger) && next.status.Running?
            && next.core == d.core.(step := d.core.step + 1, transcript := PlainAll(d.core.transcript) + [m])
  {
    hide Sem;
    TurnIsSemantic(m);
    SemGrows(d.ledger, TurnEvents(m));
    Execution.TurnSettlesLedger(d, m);
  }

  // The end of the uninterrupted loop ------------------------------------------

  lemma CompletionIsSame(env: Env, d: Db, r: Db)
    requires Execution.Resumable(env, d) && Related(d, r) && Apply(env, d, Complete).Some?
    ensures Pending(r.core.transcript).None? && IsFinal(r.core.transcript)
    ensures Same(Db(StatusCompleted, r.ledger + [Completed(r.core.step)], r.core), Apply(env, d, Complete).value)
  {
    hide Pending, IsFinal;
    SemSkips(d.ledger, Completed(d.core.step));
    SemSkips(r.ledger, Completed(r.core.step));
  }

  lemma NothingFollowsCompletion(env: Env, d: Db, moves: seq<Move>)
    requires Exec(env, d, moves).Some? && d.status.StatusCompleted?
    ensures moves == []
  {
    hide Exec;
    if moves != [] {
      ExecHead(env, d, moves);
    }
  }

  // The simulation ------------------------------------------------------------

  predicate Sound(env: Env, d: Db) {
    Agree(d) && Execution.Resumable(env, d) && !d.status.StatusCompleted?
  }

  lemma StaysSound(env: Env, d: Db, move: Move)
    requires Sound(env, d) && Apply(env, d, move).Some? && !move.Complete?
    ensures Sound(env, Apply(env, d, move).value)
  {
    hide Agree, Pending, IsFinal, RequestOf, Rejection, Dispatch.Invoke;
    StepKeepsAgreement(env, d, move);
    Execution.StepStaysResumable(env, d, move);
  }

  /** One durable step is matched by at most one iteration of the loop. */
  lemma SimulateStep(env: Env, d: Db, move: Move, p: Provider, r: Db, asked: nat, used: nat, maxSteps: nat)
    returns (r': Db, asked': nat, used': nat)
    requires Sound(env, d) && Related(d, r) && Apply(env, d, move).Some?
    requires !move.Complete? && !move.TurnFailed? && !move.DispatchFailed?
    requires move.Turn? ==> used < maxSteps
    requires move.Turn? ==>
               var t := CallProvider(p, asked, RequestOf(env, d.core)); t.Answered? && t.message == move.message
    ensures Related(Apply(env, d, move).value, r')
    ensures asked' == if move.Turn? then CallProvider(p, asked, RequestOf(env, d.core)).asked else asked
    ensures used' == if move.Turn? then used + 1 else used
    ensures Execute(env, r, p, asked, used, maxSteps) == Execute(env, r', p, asked', used', maxSteps)
  {
    hide Agree, Related, Execute, Dispatch.Invoke, SaveTurn, AppendRequest, RequestOf, CallProvider, Rejection,
      Pending, IsFinal;
    r', asked', used' := r, asked, used;
    match move
    case Dispatched =>
      DispatchStaysRelated(env, d, r);
      RelatedMeans(d, r);
      Execution.ExecuteDispatches(env, r, p, asked, used, maxSteps);
      var a := Dispatch.Invoke(env, r.core, Retried(r.ledger), Pending(r.core.transcript).value, Float);
      r' := Db(r.status, r.ledger + a.events, a.core);
    case Pause => PausedStaysRelated(env, d, r);
    case Request_ => RequestStaysRelated(env, d, r);
    case Turn(m) =>
      TurnStaysRelated(env, d, r, m);
      RelatedMeans(d, r);
      asked', used' := CallProvider(p, asked, RequestOf(env, d.core)).asked, used + 1;
      Execution.ExecuteTurns(env, r, p, asked, used, maxSteps, m, asked');
      r' := SaveTurn(AppendRequest(env, r).value, m);
  }

  lemma SimulateComplete(env: Env, d: Db, p: Provider, r: Db, asked: nat, used: nat, maxSteps: nat)
    requires Sound(env, d) && Related(d, r) && Apply(env, d, Complete).Some?
    ensures var report := Execute(env, r, p, asked, used, maxSteps);
            report.verdict.RunCompleted? && Same(report.db, Apply(env, d, Complete).value) && report.asked == asked
  {
    hide Agree, Execute, Pending, IsFinal, Apply, Same, Sem;
    CompletionIsSame(env, d, r);
    Execution.ExecuteCompletes(env, r, p, asked, used, maxSteps);
  }

  predicate Fails(move: Move) {
    move.TurnFailed? || move.DispatchFailed?
  }

  lemma NoStepFailed(env: Env, d: Db, moves: seq<Move>)
    requires moves != [] && Exec(env, d, moves).Some? && NoFailure(Exec(env, d, moves).value.ledger)
    ensures !Fails(moves[0])
  {
    hide Exec, Apply;
    ExecHead(env, d, moves);
    if Fails(moves[0]) {
      Checkpoint.FailureIsRecorded(env, d, moves[0]);
    }
  }

  lemma {:induction false} Simulate(env: Env, d: Db, moves: seq<Move>, db: Db, p: Provider, r: Db, asked: nat,
                                    used: nat, maxSteps: nat)
    requires Exec(env, d, moves) == Some(db) && db.status.StatusCompleted? && NoFailure(db.ledger)
    requires Sound(env, d) && Related(d, r)
    requires Follows(env, d, moves, p, asked)
    requires used + TurnCount(moves) <= maxSteps
    ensures var report := Execute(env, r, p, asked, used, maxSteps);
            report.verdict.RunCompleted? && Same(report.db, db) && report.asked == AskedAfter(env, d, moves, p, asked)
    decreases |moves|
  {
    hide Exec, Agree, Related, Same, Execute, Apply, RequestOf, CallProvider;
    if moves == [] {
      SomeMoves(env, d);
    } else {
      ExecHead(env, d, moves);
      NoStepFailed(env, d, moves);
      var next := Apply(env, d, moves[0]).value;
      if moves[0].Complete? {
        SimulateComplete(env, d, p, r, asked, used, maxSteps);
        CompletesAt(env, d);
        NothingFollowsCompletion(env, next, moves[1..]);
        SomeMoves(env, next);
      } else {
        StaysSound(env, d, moves[0]);
        var r', asked', used' := SimulateStep(env, d, moves[0], p, r, asked, used, maxSteps);
        Simulate(env, next, moves[1..], db, p, r', asked', used', maxSteps);
      }
    }
  }

  lemma SomeMoves(env: Env, d: Db)
    ensures Exec(env, d, []) == Some(d)
  {
  }

  lemma CompletesAt(env: Env, d: Db)
    requires Apply(env, d, Complete).Some?
    ensures Apply(env, d, Complete).value.status.StatusCompleted?
  {
    hide Pending, IsFinal;
  }

  // Crash transparency ----------------------------------------------------------

  /** The provider's answer depends on the request alone: task, history and exposed operations. */
  ghost predicate Stateless(p: Provider) {
    forall n, request :: p(n, request) == p(0, request)
  }

  /** Every saved turn is what the provider answers to the request it answered. */
  predicate Supplied(env: Env, d: Db, moves: seq<Move>, p: Provider)
    decreases |moves|
  {
    if moves == [] then true else
      match Apply(env, d, moves[0])
      case None => false
      case Some(next) =>
        (moves[0].Turn? ==>
           var r := CallProvider(p, 0, RequestOf(env, d.core)); r.Answered? && r.message == moves[0].message)
        && Supplied(env, next, moves[1..], p)
  }

  lemma {:induction false} StatelessAnswers(p: Provider, n: nat, m: nat, request: Request, attempt: nat,
                                            recorded: seq<Interruption>)
    requires Stateless(p) && 1 <= attempt <= PROVIDER_ATTEMPTS
    ensures var a, b := CallFrom(p, n, request, attempt, recorded), CallFrom(p, m, request, attempt, recorded);
            a.Answered? == b.Answered? && a.message == b.message
    decreases PROVIDER_ATTEMPTS - attempt
  {
    var reply := p(0, request);
    assert p(n, request) == reply && p(m, request) == reply;
    if reply.Interrupt? && attempt < PROVIDER_ATTEMPTS {
      StatelessAnswers(p, n + 1, m + 1, request, attempt + 1,
                       recorded + [Interruption(attempt, reply.kind, reply.reason)]);
    }
  }

  lemma {:induction false} SuppliedFollows(env: Env, d: Db, moves: seq<Move>, p: Provider, asked: nat)
    requires Stateless(p) && Supplied(env, d, moves, p)
    ensures Follows(env, d, moves, p, asked)
    decreases |moves|
  {
    hide Stateless, Apply, RequestOf, CallFrom;
    if moves != [] {
      var next := Apply(env, d, moves[0]).value;
      StatelessAnswers(p, asked, 0, RequestOf(env, d.core), 1, []);
      SuppliedFollows(env, next, moves[1..], p,
                      if moves[0].Turn? then CallProvider(p, asked, RequestOf(env, d.core)).asked else asked);
    }
  }

  lemma StepCounts(env: Env, d: Db, move: Move)
    requires Sound(env, d) && Apply(env, d, move).Some?
    ensures Apply(env, d, move).value.core.step == d.core.step + (if move.Turn? then 1 else 0)
  {
    hide Agree, Dispatch.Invoke, Pending, IsFinal, RequestOf, Rejection;
    if move.Dispatched? {
      var _, _, _ := DispatchKeepsAgreement(env, d);
    }
  }

  /** The step column counts the saved turns. */
  lemma {:induction false} StepsAreTurns(env: Env, d: Db, moves: seq<Move>)
    requires Sound(env, d) && Exec(env, d, moves).Some?
    ensures Exec(env, d, moves).value.core.step == d.core.step + TurnCount(moves)
    decreases |moves|
  {
    hide Exec, Apply, Agree;
    if moves == [] {
      SomeMoves(env, d);
    } else {
      ExecHead(env, d, moves);
      StepCounts(env, d, moves[0]);
      var next := Apply(env, d, moves[0]).value;
      if moves[0].Complete? {
        CompletesAt(env, d);
        NothingFollowsCompletion(env, next, moves[1..]);
        SomeMoves(env, next);
      } else {
        StaysSound(env, d, moves[0]);
        StepsAreTurns(env, next, moves[1..]);
      }
    }
  }

  lemma InitIsSound(env: Env, world: World)
    ensures Sound(env, Init(world)) && Related(Init(world), Init(world))
  {
    InitAgrees(world);
  }

  /** A completed history is simulated by one `Execute` from the seed, given a provider that repeats its turns. */
  lemma HistoryIsExecution(env: Env, world: World, moves: seq<Move>, db: Db, p: Provider, maxSteps: nat)
    requires Reaches(env, world, moves, db) && db.status.StatusCompleted? && NoFailure(db.ledger)
    requires Follows(env, Init(world), moves, p, 0) && maxSteps >= db.core.step
    ensures var report := Execute(env, Init(world), p, 0, 0, maxSteps);
            report.verdict.RunCompleted? && Same(report.db, db)
            && report.asked == AskedAfter(env, Init(world), moves, p, 0)
  {
    hide Exec, Sound, Related, Same, Execute, Apply;
    InitIsSound(env, world);
    StepsAreTurns(env, Init(world), moves);
    Simulate(env, Init(world), moves, db, p, Init(world), 0, 0, maxSteps);
  }

  /**
    Crash transparency. However often workers died between durable steps, however
    often the run was paused or taken over, a run completed with a provider that is
    a function of the request has the semantic ledger, transcript, saved results,
    chaos and authorization counters and world of one uninterrupted execution.
   */
  lemma CrashTransparency(env: Env, world: World, moves: seq<Move>, db: Db, p: Provider, maxSteps: nat)
    requires Reaches(env, world, moves, db) && db.status.StatusCompleted? && NoFailure(db.ledger)
    requires Stateless(p) && Supplied(env, Init(world), moves, p) && maxSteps >= db.core.step
    ensures var report := Execute(env, Init(world), p, 0, 0, maxSteps);
            && report.verdict.RunCompleted?
            && report.db.core == db.core && Sem(report.db.ledger) == Sem(db.ledger)
  {
    hide Exec, Stateless, Execute, Apply, Sem, Supplied;
    SuppliedFollows(env, Init(world), moves, p, 0);
    HistoryIsExecution(env, world, moves, db, p, maxSteps);
  }
}
