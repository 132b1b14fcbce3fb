/** What the `Execute` loop does, in terms of durable steps. */
module Execution {
  import opened Basics
  import opened Protocol
  import opened Engine
  import opened Agreement
  import Dispatch
  import Authz

  /** A resumed worker may find an unanswered request; after a turn of its own it never does. */
  predicate Settling(db: Db, used: nat) {
    Agree(db) && (used > 0 ==> !Open(db.ledger))
  }

  lemma DispatchSettles(env: Env, db: Db)
    requires Agree(db) && ApplyDispatch(env, db).Some?
    ensures Agree(ApplyDispatch(env, db).value) && !Open(ApplyDispatch(env, db).value.ledger)
  {
    hide Agree, ApplyDispatch, Dispatch.Invoke, Apply;
    var call, status, body := DispatchKeepsAgreement(env, db);
    BracketCloses(db.ledger, Dispatch.Invoke(env, db.core, Retried(db.ledger), call, Float).events, call, status, body);
  }

  lemma BracketCloses(ledger: seq<Event>, events: seq<Event>, call: ToolCall, status: int, body: Json)
    requires Dispatch.IsBracket(call, events, status, body)
    ensures !Open(ledger + events)
  {
  }

  /** The pending call of an agreeing state has no saved result, so dispatch commits or fails. */
  lemma PendingIsFresh(env: Env, db: Db)
    requires Agree(db) && Pending(db.core.transcript).Some?
    ensures var a := Dispatch.Invoke(env, db.core, Retried(db.ledger), Pending(db.core.transcript).value, Float);
            a.Rejected? || (a.Committed? && ApplyDispatch(env, db) == Some(Db(db.status, db.ledger + a.events, a.core)))
  {
    PendingIsNext(db.core.transcript, db.core.results);
  }

  /** Dispatching the next call of an agreeing state commits exactly what its transaction produced. */
  lemma DispatchCommits(env: Env, db: Db, call: ToolCall)
    requires ApplyDispatch(env, db).Some? && Agree(db)
    requires |ToolMessages(db.core.transcript)| < |AllCalls(db.core.transcript)|
             && call == AllCalls(db.core.transcript)[|ToolMessages(db.core.transcript)|]
    requires Dispatch.Invoke(env, db.core, Retried(db.ledger), call, Float).Committed?
    ensures var a := Dispatch.Invoke(env, db.core, Retried(db.ledger), call, Float);
            ApplyDispatch(env, db) == Some(Db(db.status, db.ledger + a.events, a.core))
  {
    hide Dispatch.Invoke;
    PendingIsNext(db.core.transcript, db.core.results);
  }

  lemma RequestIsAnswerable(env: Env, db: Db)
    requires NeedsTurn(db.core.transcript) && AppendRequest(env, db).Some?
    ensures var open := AppendRequest(env, db).value;
            Answerable(env, open) && open.core == db.core && open.status == db.status
  {
  }

  lemma TurnSettlesLedger(db: Db, m: Message)
    ensures !Open(SaveTurn(db, m).ledger)
  {
  }

  lemma Prepend(env: Env, db: Db, first: Move, rest: seq<Move>)
    requires Apply(env, db, first).Some?
    ensures Exec(env, db, [first] + rest) == Exec(env, Apply(env, db, first).value, rest)
  {
    ExecOne(env, db, first);
    ExecAppend(env, db, [first], rest);
  }

  lemma AnsweredMoves(env: Env, db: Db, m: Message)
    requires !db.status.StatusCompleted? && NeedsTurn(db.core.transcript) && AppendRequest(env, db).Some?
    requires Accepted(env, db.core.transcript, m)
    ensures Exec(env, db, [Request_, Turn(m)]) == Some(SaveTurn(AppendRequest(env, db).value, m))
  {
    hide RequestOf, SaveTurn, FailTurn, AppendRequest, Rejection, Pending, IsFinal, ApplyDispatch;
    RequestIsAnswerable(env, db);
    Prepend(env, db, Request_, [Turn(m)]);
    ExecOne(env, AppendRequest(env, db).value, Turn(m));
    assert [Request_] + [Turn(m)] == [Request_, Turn(m)];
  }

  lemma FailedMoves(env: Env, db: Db, m: Message, fault: ProviderFault)
    requires !db.status.StatusCompleted? && NeedsTurn(db.core.transcript) && AppendRequest(env, db).Some?
    ensures Exec(env, db, [Request_, TurnFailed(m, fault)]) == Some(FailTurn(AppendRequest(env, db).value, m, fault))
  {
    hide RequestOf, SaveTurn, FailTurn, AppendRequest, Rejection, Pending, IsFinal, ApplyDispatch;
    RequestIsAnswerable(env, db);
    Prepend(env, db, Request_, [TurnFailed(m, fault)]);
    ExecOne(env, AppendRequest(env, db).value, TurnFailed(m, fault));
    assert [Request_] + [TurnFailed(m, fault)] == [Request_, TurnFailed(m, fault)];
  }

  lemma SavedTurnSettles(env: Env, db: Db, m: Message)
    requires Agree(db) && NeedsTurn(db.core.transcript) && AppendRequest(env, db).Some?
    requires Accepted(env, db.core.transcript, m)
    ensures Settling(SaveTurn(AppendRequest(env, db).value, m), 1)
  {
    hide Agree, Accepted, Authz.Exposed;
    var open := AppendRequest(env, db).value;
    if !Open(db.ledger) {
      QuietKeepsAgreement(db, db.status, [ModelRequest(RequestOf(env, db.core))]);
    }
    TurnKeepsAgreement(env, open, m);
    TurnSettlesLedger(open, m);
  }

  /** An open request is the one the rows still produce, so a worker that resumes can repeat it. */
  predicate Resumable(env: Env, db: Db) {
    Open(db.ledger) ==> Answerable(env, db)
  }

  lemma StepStaysResumable(env: Env, db: Db, move: Move)
    requires Agree(db) && Resumable(env, db) && Apply(env, db, move).Some?
    ensures Resumable(env, Apply(env, db, move).value)
  {
    hide Agree, Dispatch.Invoke, Pending, IsFinal, RequestOf, Rejection;
    if move.Dispatched? {
      DispatchSettles(env, db);
    }
  }

  /** In every reachable state an unanswered request equals the request the next attempt would make. */
  lemma {:induction false} ReachableResumable(env: Env, world: World, moves: seq<Move>, db: Db)
    requires Reaches(env, world, moves, db)
    ensures Resumable(env, db)
  {
    hide Apply, Answerable;
    if moves != [] {
      var n := |moves| - 1;
      var before := Exec(env, Init(world), moves[..n]).value;
      ReachableResumable(env, world, moves[..n], before);
      ReachableAgrees(env, world, moves[..n], before);
      StepStaysResumable(env, before, moves[n]);
    }
  }

  // One iteration of the loop ------------------------------------------------

  lemma ExecuteDispatches(env: Env, r: Db, p: Provider, asked: nat, used: nat, maxSteps: nat)
    requires !r.status.StatusCompleted? && Pending(r.core.transcript).Some?
    requires Dispatch.Invoke(env, r.core, Retried(r.ledger), Pending(r.core.transcript).value, Float).Committed?
    ensures var a := Dispatch.Invoke(env, r.core, Retried(r.ledger), Pending(r.core.transcript).value, Float);
            Execute(env, r, p, asked, used, maxSteps)
            == Execute(env, Db(r.status, r.ledger + a.events, a.core), p, asked, used, maxSteps)
  {
    hide Dispatch.Invoke, Pending, IsFinal, Apply, TakeTurn, Retried;
  }

  lemma ExecuteTurns(env: Env, r: Db, p: Provider, asked: nat, used: nat, maxSteps: nat, m: Message, after: nat)
    requires !r.status.StatusCompleted? && NeedsTurn(r.core.transcript) && used < maxSteps
    requires AppendRequest(env, r).Some? && Accepted(env, r.core.transcript, m)
    requires CallProvider(p, asked, RequestOf(env, r.core)) == Answered(m, after)
    ensures Execute(env, r, p, asked, used, maxSteps)
         == Execute(env, SaveTurn(AppendRequest(env, r).value, m), p, after, used + 1, maxSteps)
  {
    hide Dispatch.Invoke, Pending, IsFinal, Apply, CallProvider, RequestOf, Retried, Rejection;
  }

  lemma ExecuteCompletes(env: Env, r: Db, p: Provider, asked: nat, used: nat, maxSteps: nat)
    requires !r.status.StatusCompleted? && Pending(r.core.transcript).None? && IsFinal(r.core.transcript)
    ensures Execute(env, r, p, asked, used, maxSteps)
         == Report(Db(StatusCompleted, r.ledger + [Completed(r.core.step)], r.core), asked, RunCompleted)
  {
    hide Dispatch.Invoke, Pending, IsFinal, CallProvider, RequestOf, Retried, Rejection;
  }

  lemma ExecuteFailsDispatch(env: Env, r: Db, p: Provider, asked: nat, used: nat, maxSteps: nat)
    requires !r.status.StatusCompleted? && Pending(r.core.transcript).Some?
    requires Dispatch.Invoke(env, r.core, Retried(r.ledger), Pending(r.core.transcript).value, Float).Rejected?
    ensures var a := Dispatch.Invoke(env, r.core, Retried(r.ledger), Pending(r.core.transcript).value, Float);
            var failed := Apply(env, r, DispatchFailed(Some(a.reason)));
            && failed.Some? && failed.value.status.StatusFailed?
            && Execute(env, r, p, asked, used, maxSteps) == Report(failed.value, asked, RunFailed)
  {
    hide Dispatch.Invoke, Pending, IsFinal, TakeTurn, Retried;
  }

  lemma ExecutePauses(env: Env, r: Db, p: Provider, asked: nat, used: nat, maxSteps: nat)
    requires !r.status.StatusCompleted? && NeedsTurn(r.core.transcript) && used >= maxSteps
    ensures Execute(env, r, p, asked, used, maxSteps)
         == Report(Db(StatusPaused, r.ledger + [Paused(r.core.step)], r.core), asked, RunPaused)
  {
    hide Dispatch.Invoke, Pending, IsFinal, TakeTurn, Retried, Apply;
  }

  lemma ExecuteTakesTurn(env: Env, r: Db, p: Provider, asked: nat, used: nat, maxSteps: nat)
    requires !r.status.StatusCompleted? && NeedsTurn(r.core.transcript) && used < maxSteps
    ensures var t := TakeTurn(env, r, p, asked);
            Execute(env, r, p, asked, used, maxSteps)
            == match t.verdict
               case Some(verdict) => Report(t.db, t.asked, verdict)
               case None => Execute(env, t.db, p, t.asked, used + 1, maxSteps)
  {
    hide Dispatch.Invoke, Pending, IsFinal, TakeTurn, Retried, Apply;
  }

  predicate Ended(report: Report) {
    match report.verdict
    case RunCompleted => report.db.status.StatusCompleted?
    case RunPaused => report.db.status.StatusPaused? && LastOf(report.db.ledger) == Some(Paused(report.db.core.step))
    case RunFailed => report.db.status.StatusFailed?
    case RunUnsafe => true
    case Unending => false
  }

  lemma ResumableRepeats(env: Env, db: Db)
    requires Resumable(env, db)
    ensures AppendRequest(env, db).Some?
  {
    hide RequestOf, Pending, IsFinal;
  }

  lemma TurnMoves(env: Env, db: Db, provider: Provider, asked: nat) returns (moves: seq<Move>)
    requires Agree(db) && !db.status.StatusCompleted? && NeedsTurn(db.core.transcript)
    ensures var t := TakeTurn(env, db, provider, asked);
            && Exec(env, db, moves) == Some(t.db)
            && (t.verdict.None? ==> Settling(t.db, 1))
            && (t.verdict.Some? ==> Ended(Report(t.db, t.asked, t.verdict.value)))
            && (Resumable(env, db) ==> t.verdict != Some(RunUnsafe))
  {
    hide Agree, AppendRequest, CallProvider, SaveTurn, Apply, RequestOf, Pending, IsFinal;
    moves := [];
    var open := AppendRequest(env, db);
    if Resumable(env, db) {
      ResumableRepeats(env, db);
    }
    if open.Some? {
      match CallProvider(provider, asked, RequestOf(env, db.core))
      case Unanswered(m, after, reason) =>
        moves := [Request_, TurnFailed(m, ProviderError(reason))];
        FailedMoves(env, db, m, ProviderError(reason));
      case Answered(m, after) =>
        var fault := Rejection(env, db.core.transcript, m);
        if fault.Some? {
          moves := [Request_, TurnFailed(m, fault.value)];
          FailedMoves(env, db, m, fault.value);
        } else {
          moves := [Request_, Turn(m)];
          AnsweredMoves(env, db, m);
          SavedTurnSettles(env, db, m);
        }
    }
  }

  /**
    Whatever the provider answers, `Execute` always returns, takes only durable
    steps of the engine, and its verdict matches the state it leaves behind. From a
    state with no foreign request left open it never refuses to go on.
   */
  lemma {:induction false} ExecuteTakesMoves(env: Env, db: Db, provider: Provider, asked: nat, used: nat, maxSteps: nat)
    returns (moves: seq<Move>)
    requires Settling(db, used) && maxSteps >= 1
    ensures var report := Execute(env, db, provider, asked, used, maxSteps);
            && Exec(env, db, moves) == Some(report.db) && Ended(report)
            && (Resumable(env, db) ==> report.verdict != RunUnsafe)
    decreases if used <= maxSteps then maxSteps - used + 1 else 0, Backlog(db.core.transcript)
  {
    hide Agree, TakeTurn, Dispatch.Invoke, Pending, IsFinal, Execute, Exec, Apply, Answerable, Backlog, Retried;
    var history := db.core.transcript;
    if db.status.StatusCompleted? {
      moves := [];
      AlreadyCompleted(env, db, provider, asked, used, maxSteps);
    } else if Pending(history).Some? {
      PendingIsFresh(env, db);
      var a := Dispatch.Invoke(env, db.core, Retried(db.ledger), Pending(history).value, Float);
      if a.Rejected? {
        moves := [DispatchFailed(Some(a.reason))];
        ExecuteFailsDispatch(env, db, provider, asked, used, maxSteps);
        ExecOne(env, db, moves[0]);
      } else {
        DispatchSettles(env, db);
        DispatchLowersBacklog(env, db);
        ExecuteDispatches(env, db, provider, asked, used, maxSteps);
        var rest := ExecuteTakesMoves(env, ApplyDispatch(env, db).value, provider, asked, used, maxSteps);
        moves := [Dispatched] + rest;
        PrependDispatch(env, db, rest);
      }
    } else if IsFinal(history) {
      moves := [Complete];
      ExecuteCompletes(env, db, provider, asked, used, maxSteps);
      CompleteMove(env, db);
    } else if used >= maxSteps {
      moves := [Pause];
      ExecutePauses(env, db, provider, asked, used, maxSteps);
      PauseMove(env, db);
    } else {
      ExecuteTakesTurn(env, db, provider, asked, used, maxSteps);
      moves := TurnMoves(env, db, provider, asked);
      var t := TakeTurn(env, db, provider, asked);
      if t.verdict.None? {
        var rest := ExecuteTakesMoves(env, t.db, provider, t.asked, used + 1, maxSteps);
        ExecAppend(env, db, moves, rest);
        moves := moves + rest;
      }
    }
  }

  lemma AlreadyCompleted(env: Env, db: Db, provider: Provider, asked: nat, used: nat, maxSteps: nat)
    requires db.status.StatusCompleted?
    ensures Execute(env, db, provider, asked, used, maxSteps) == Report(db, asked, RunCompleted)
    ensures Exec(env, db, []) == Some(db)
  {
    hide Apply, Dispatch.Invoke, TakeTurn;
  }

  lemma PrependDispatch(env: Env, db: Db, rest: seq<Move>)
    requires !db.status.StatusCompleted? && ApplyDispatch(env, db).Some?
    ensures Exec(env, db, [Dispatched] + rest) == Exec(env, ApplyDispatch(env, db).value, rest)
  {
    hide Exec, ApplyDispatch;
    Prepend(env, db, Dispatched, rest);
  }

  lemma CompleteMove(env: Env, db: Db)
    requires !db.status.StatusCompleted? && Pending(db.core.transcript).None? && IsFinal(db.core.transcript)
    ensures Exec(env, db, [Complete]) == Some(Db(StatusCompleted, db.ledger + [Completed(db.core.step)], db.core))
  {
    hide Exec, Pending, IsFinal;
    ExecOne(env, db, Complete);
  }

  lemma PauseMove(env: Env, db: Db)
    requires !db.status.StatusCompleted? && NeedsTurn(db.core.transcript) && !Open(db.ledger)
    ensures Exec(env, db, [Pause]) == Some(Db(StatusPaused, db.ledger + [Paused(db.core.step)], db.core))
  {
    hide Exec, Pending, IsFinal;
    ExecOne(env, db, Pause);
  }

  /**
    A resumed worker never meets an abandoned request that differs from its own: from any
    reachable state, however it was left, `Execute` completes, pauses or records a failure.
   */
  lemma ResumeIsSafe(env: Env, world: World, moves: seq<Move>, db: Db, provider: Provider, asked: nat, maxSteps: nat)
    requires Reaches(env, world, moves, db) && maxSteps >= 1
    ensures var verdict := Execute(env, db, provider, asked, 0, maxSteps).verdict;
            verdict.RunCompleted? || verdict.RunPaused? || verdict.RunFailed?
  {
    hide Exec, Agree, Resumable, Execute;
    ReachableAgrees(env, world, moves, db);
    ReachableResumable(env, world, moves, db);
    var _ := ExecuteTakesMoves(env, db, provider, asked, 0, maxSteps);
  }
}
