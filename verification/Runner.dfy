/** The run rows as a mutable store, its guarded writes, and the `Execute` loop over them. */
module Runner {
  import opened Basics
  import opened Protocol
  import opened Engine
  import Agreement
  import Execution
  import Authz
  import Chaos
  import Dispatch
  import Lease

  lemma {:induction false} AllCallsSplit(history: seq<Message>, i: nat)
    requires i <= |history|
    ensures AllCalls(history) == AllCalls(history[..i]) + AllCalls(history[i..])
  {
    var n := |history| - 1;
    if i == |history| {
      assert history[..i] == history;
      assert history[i..] == [];
    } else {
      AllCallsSplit(history[..n], i);
      assert history[..n][..i] == history[..i];
      assert history[i..][..|history[i..]| - 1] == history[..n][i..];
    }
  }

  lemma {:induction false} FirstOpenConcat(a: seq<ToolCall>, b: seq<ToolCall>, done: set<string>)
    ensures FirstOpen(a + b, done) == if FirstOpen(a, done).Some? then FirstOpen(a, done) else FirstOpen(b, done)
  {
    if a == [] {
      assert a + b == b;
    } else {
      FirstOpenConcat(a[1..], b, done);
      assert (a + b)[1..] == a[1..] + b;
    }
  }

  lemma FoundOpen(before: seq<ToolCall>, calls: seq<ToolCall>, j: nat, after: seq<ToolCall>, done: set<string>)
    requires j < |calls| && FirstOpen(before + calls[..j], done).None? && calls[j].id !in done
    ensures FirstOpen(before + calls + after, done) == Some(calls[j])
  {
    FirstOpenConcat(before + calls[..j], calls[j..] + after, done);
    assert before + calls + after == (before + calls[..j]) + (calls[j..] + after);
  }

  method CollectDone(history: seq<Message>) returns (done: set<string>)
    ensures done == DoneIds(history)
  {
    done := {};
    for i := 0 to |history|
      invariant done == DoneIds(history[..i])
    {
      assert history[..i + 1] == history[..i] + [history[i]];
      Snoc(history[..i], history[i]);
      if history[i].Tool? {
        done := done + {history[i].callId};
      }
    }
    assert history[..|history|] == history;
  }

  method FindOpenCall(ghost before: seq<ToolCall>, calls: seq<ToolCall>, ghost after: seq<ToolCall>, done: set<string>)
    returns (call: Option<ToolCall>)
    requires FirstOpen(before, done).None?
    ensures call.Some? ==> FirstOpen(before + calls + after, done) == call
    ensures call.None? ==> FirstOpen(before + calls, done).None?
  {
    assert before + [] == before;
    for j := 0 to |calls|
      invariant FirstOpen(before + calls[..j], done).None?
    {
      if calls[j].id !in done {
        FoundOpen(before, calls, j, after, done);
        return Some(calls[j]);
      }
      FirstOpenConcat(before + calls[..j], [calls[j]], done);
      assert before + calls[..j + 1] == before + calls[..j] + [calls[j]];
    }
    assert calls[..|calls|] == calls;
    call := None;
  }

  method FindPending(history: seq<Message>) returns (call: Option<ToolCall>)
    ensures call == Pending(history)
  {
    var done := CollectDone(history);
    for i := 0 to |history|
      invariant FirstOpen(AllCalls(history[..i]), done).None?
    {
      AllCallsSplit(history, i + 1);
      assert history[..i + 1] == history[..i] + [history[i]];
      Snoc(history[..i], history[i]);
      if history[i].Assistant? {
        call := FindOpenCall(AllCalls(history[..i]), history[i].calls, AllCalls(history[i + 1..]), done);
        if call.Some? {
          return;
        }
      } else {
        assert AllCalls(history[..i]) + [] == AllCalls(history[..i]);
      }
    }
    assert history[..|history|] == history;
    call := None;
  }

  lemma IdsSnoc(calls: seq<ToolCall>, call: ToolCall)
    ensures IdsOf(calls + [call]) == IdsOf(calls) + {call.id}
  {
  }

  /** The IDs of a turn's calls, added to those already seen. */
  method AddIds(ghost before: seq<ToolCall>, calls: seq<ToolCall>, seen: set<string>) returns (ids: set<string>)
    requires seen == IdsOf(before)
    ensures ids == IdsOf(before + calls)
  {
    hide IdsOf;
    ids := seen;
    assert before + calls[..0] == before;
    for j := 0 to |calls|
      invariant ids == IdsOf(before + calls[..j])
    {
      assert before + calls[..j + 1] == before + calls[..j] + [calls[j]];
      IdsSnoc(before + calls[..j], calls[j]);
      ids := ids + {calls[j].id};
    }
    assert calls[..|calls|] == calls;
  }

  method CollectSeen(history: seq<Message>) returns (seen: set<string>)
    ensures seen == IdsOf(AllCalls(history))
  {
    hide AllCalls;
    seen := {};
    NoIds();
    assert history[..0] == [];
    for i := 0 to |history|
      invariant seen == IdsOf(AllCalls(history[..i]))
    {
      assert history[..i + 1] == history[..i] + [history[i]];
      Snoc(history[..i], history[i]);
      if history[i].Assistant? {
        seen := AddIds(AllCalls(history[..i]), history[i].calls, seen);
      } else {
        assert AllCalls(history[..i]) + [] == AllCalls(history[..i]);
      }
    }
    assert history[..|history|] == history;
  }

  lemma NoIds()
    ensures IdsOf(AllCalls([])) == {}
  {
  }

  method ValidateCalls(ops: seq<Operation>, history: seq<Message>, calls: seq<ToolCall>)
    returns (fault: Option<TurnFault>)
    ensures fault == CallsFault(ops, calls, IdsOf(AllCalls(history)), {})
  {
    hide IdsOf, AllCalls, FindOp;
    var seen := CollectSeen(history);
    var inTurn: set<string> := {};
    for j := 0 to |calls|
      invariant CallsFault(ops, calls, seen, {}) == CallsFault(ops, calls[j..], seen, inTurn)
    {
      assert calls[j..][1..] == calls[j + 1..];
      if |calls[j].id| == 0 || FindOp(ops, calls[j].op).None? {
        return Some(InvalidCall);
      }
      if calls[j].id in inTurn {
        return Some(AppearsTwice(calls[j].id));
      }
      if calls[j].id in seen {
        return Some(Reused(calls[j].id));
      }
      inTurn := inTurn + {calls[j].id};
    }
    fault := None;
  }

  /** Up to two attempts at one turn; only an interrupted attempt is retried. */
  method AskProvider(provider: Provider, asked: nat, request: Request) returns (r: TurnResult)
    ensures r == CallProvider(provider, asked, request)
  {
    var recorded: seq<Interruption> := [];
    var attempt, n := 1, asked;
    while true
      invariant 1 <= attempt <= PROVIDER_ATTEMPTS
      invariant CallProvider(provider, asked, request) == CallFrom(provider, n, request, attempt, recorded)
      decreases PROVIDER_ATTEMPTS - attempt
    {
      var reply := provider(n, request);
      n := n + 1;
      match reply
      case Reply(m) => return Answered(WithInterruptions(m, recorded), n);
      case Refused(reason) => return Unanswered(NoMessage(recorded), n, reason);
      case Interrupt(kind, reason, cancelled) =>
        recorded := recorded + [Interruption(attempt, kind, reason)];
        if attempt >= PROVIDER_ATTEMPTS || cancelled {
          return Unanswered(NoMessage(recorded), n, reason);
        }
        attempt := attempt + 1;
    }
  }

  // The store ---------------------------------------------------------------

  predicate MayWrite(row: Lease.LeaseRow, fence: Option<Lease.Fence>, now: int) {
    fence.Some? ==> Lease.Guard(row, fence.value, now).Some?
  }

  class Store {
    const env: Env
    var status: Status
    var step: nat
    var transcript: seq<Message>
    var ledger: seq<Event>
    var results: map<string, Saved>
    var world: World
    var chaos: ChaosRows
    var authCalls: nat
    var faultConsumed: bool
    var lease: Lease.LeaseRow

    ghost function Rows(): Db
      reads this
    {
      Db(status, ledger, Core(step, transcript, results, world, chaos, authCalls, faultConsumed))
    }

    constructor (env: Env, world: World)
      ensures this.env == env && Rows() == Init(world) && lease == Lease.Unleased()
    {
      this.env := env;
      status, step, transcript, ledger := Running, 0, [], [Started];
      results, this.world, chaos := map[], world, ChaosRows(map[], map[], map[]);
      authCalls, faultConsumed, lease := 0, false, Lease.Unleased();
    }

    /** Proves ownership inside the transaction; a nil fence always passes. */
    method Admit(fence: Option<Lease.Fence>, now: int) returns (ok: bool)
      modifies this`lease
      ensures ok == MayWrite(old(lease), fence, now)
      ensures !ok ==> lease == old(lease)
    {
      ok := true;
      if fence.Some? {
        var row := Lease.Guard(lease, fence.value, now);
        ok := row.Some?;
        if ok {
          lease := row.value;
        }
      }
    }

    method AppendGuarded(fence: Option<Lease.Fence>, now: int, event: Event) returns (ok: bool)
      modifies this`lease, this`ledger
      ensures ok == MayWrite(old(lease), fence, now)
      ensures Rows() == if ok then old(Rows()).(ledger := old(ledger) + [event]) else old(Rows())
    {
      ok := Admit(fence, now);
      if ok {
        ledger := ledger + [event];
      }
    }

    method RecordAttempts(attempts: seq<Interruption>)
      modifies this`ledger
      ensures ledger == old(ledger) + InterruptedEvents(attempts)
    {
      for i := 0 to |attempts|
        invariant ledger == old(ledger) + InterruptedEvents(attempts)[..i]
      {
        assert InterruptedEvents(attempts)[..i + 1] == InterruptedEvents(attempts)[..i] + [Interrupted(attempts[i])];
        ledger := ledger + [Interrupted(attempts[i])];
      }
      assert InterruptedEvents(attempts)[..|attempts|] == InterruptedEvents(attempts);
    }

    method SaveTurnGuarded(fence: Option<Lease.Fence>, now: int, nextStep: nat, next: seq<Message>, m: Message)
      returns (ok: bool)
      modifies this
      ensures ok == MayWrite(old(lease), fence, now)
      ensures Rows() == if ok then WriteTurn(old(Rows()), nextStep, next, m) else old(Rows())
    {
      ok := Admit(fence, now);
      if ok {
        RecordAttempts(InterruptionsOf(m));
        ledger := ledger + [ModelResponse(m)];
        assert ledger == old(ledger) + TurnEvents(m);
        step, transcript, status := nextStep, next, Running;
      }
    }

    method FailModelTurnGuarded(fence: Option<Lease.Fence>, now: int, m: Message, fault: ProviderFault)
      returns (ok: bool)
      modifies this
      ensures ok == MayWrite(old(lease), fence, now)
      ensures Rows() == if ok then FailTurn(old(Rows()), m, fault) else old(Rows())
    {
      ok := Admit(fence, now);
      if ok {
        ledger := ledger + FailureEvents(m, fault);
        status := StatusFailed;
      }
    }

    method SaveStatusGuarded(fence: Option<Lease.Fence>, now: int, next: Status, event: Event) returns (ok: bool)
      modifies this
      ensures ok == MayWrite(old(lease), fence, now)
      ensures Rows() == if ok then old(Rows()).(status := next, ledger := old(ledger) + [event]) else old(Rows())
    {
      ok := Admit(fence, now);
      if ok {
        status := next;
        ledger := ledger + [event];
      }
    }

    /** One tool transaction: either everything below commits or nothing does, the ownership record included. */
    method Invoke(fence: Option<Lease.Fence>, now: int, call: ToolCall, mode: NumberMode)
      returns (ok: bool, attempt: Dispatch.Attempt)
      modifies this
      ensures ok == MayWrite(old(lease), fence, now)
      ensures ok ==> attempt == Dispatch.Invoke(env, old(Rows()).core, Retried(old(ledger)), call, mode)
      ensures Rows() == if ok && attempt.Committed?
                        then Db(old(status), old(ledger) + attempt.events, attempt.core) else old(Rows())
      ensures !(ok && attempt.Committed?) ==> lease == old(lease)
    {
      var before := lease;
      ok := Admit(fence, now);
      attempt := Dispatch.Rejected(OperationNotCompiled);
      if ok {
        attempt := Attempt(call, mode);
        if attempt.Committed? {
          WriteBack(attempt.core, attempt.events);
        } else {
          lease := before;
        }
      }
    }

    method WriteBack(core: Core, events: seq<Event>)
      modifies this
      ensures Rows() == Db(old(status), old(ledger) + events, core) && lease == old(lease)
    {
      ledger := ledger + events;
      step, transcript, results, world := core.step, core.transcript, core.results, core.world;
      chaos, authCalls, faultConsumed := core.chaos, core.authCalls, core.faultConsumed;
    }

    /** The body of the transaction up to its commit. */
    method Attempt(call: ToolCall, mode: NumberMode) returns (attempt: Dispatch.Attempt)
      ensures attempt == Dispatch.Invoke(env, Rows().core, Retried(ledger), call, mode)
    {
      if call.id in results {
        var saved := results[call.id];
        if saved.op != call.op || saved.args != call.args {
          return Dispatch.Rejected(CallReused);
        }
        return Dispatch.Cached(saved);
      }
      var op := FindOp(env.operations, call.op);
      if op.None? {
        return Dispatch.Rejected(OperationNotCompiled);
      }
      var done := Perform(op.value, call, mode);
      if done.Abort? {
        return Dispatch.Rejected(done.reason);
      }
      attempt := Dispatch.Commit(call, done.value);
    }

    /** The work of the open transaction, on a copy of the rows. */
    method Perform(op: Operation, call: ToolCall, mode: NumberMode) returns (r: Tx<Dispatch.Draft>)
      ensures r == Dispatch.Perform(env, op, Rows().core, Retried(ledger), call, mode)
    {
      var draft := Dispatch.Begin(Core(step, transcript, results, world, chaos, authCalls, faultConsumed));
      var fault := Dispatch.CheckArguments(op, call.args, mode);
      if fault.Some? {
        draft := Dispatch.Answer(draft, 400, fault.value);
      }
      draft := Dispatch.Authorize(env, op, call, mode, draft);
      r := Inject(call, draft);
      if r.Abort? {
        return;
      }
      var retried := exists e | e in ledger :: e.Retry?;
      r := Dispatch.RunHandler(env, op, call, retried, mode, r.value);
      if r.Abort? {
        return;
      }
      r := Dispatch.Conceal(call, Dispatch.Capture(op, call, r.value));
    }

    method Inject(call: ToolCall, draft: Dispatch.Draft) returns (r: Tx<Dispatch.Draft>)
      ensures r == Dispatch.Inject(env, call, draft)
    {
      if draft.skip || env.config.chaosPolicy.None? {
        return Ok(draft);
      }
      var rows := draft.core.chaos;
      var decision := Chaos.Decide(env.config.chaosPolicy.value, rows.rules, rows.snapshots, call.op, call.args);
      var d := draft.(core := draft.core.(chaos := rows.(rules := decision.rows)), decision := decision);
      if decision.selected.None? {
        return Ok(d);
      }
      var applied := Dispatch.ApplyEffect(env, call, decision, d);
      if applied.Abort? {
        return applied;
      }
      d := applied.value;
      if !Dispatch.PostEffect(decision) {
        d := d.(events := d.events + [Dispatch.Injection(call, decision)]);
      }
      if decision.selected.value.kind.ConcurrentMutation? {
        r := Dispatch.InvokeActor(env, decision.selected.value, decision.matching, d);
      } else {
        r := Ok(d);
      }
    }

    /** Re-issue a recorded model request, if the rows would still produce it. */
    method RepeatRequest(recorded: Request) returns (ok: bool)
      modifies this
      ensures ok == (recorded == RequestOf(env, old(Rows()).core))
      ensures Rows() == if ok then old(Rows()).(ledger := old(ledger) + [ModelRequest(recorded)]) else old(Rows())
    {
      var operations := Authz.Exposed(env, authCalls);
      var request := Request(env.config.task, env.config.provider, env.config.model, PlainAll(transcript), operations);
      ok := recorded == request;
      if ok {
        ledger := ledger + [ModelRequest(request)];
      }
    }

    /** Dispatch the pending call, or record why it could not be dispatched. */
    method DispatchPending(call: ToolCall) returns (failed: bool)
      requires Agreement.Agree(Rows()) && Pending(transcript) == Some(call) && !status.StatusCompleted?
      modifies this
      ensures var a := Dispatch.Invoke(env, old(Rows()).core, Retried(old(ledger)), call, Float);
              && failed == a.Rejected?
              && Some(Rows()) == if failed then Apply(env, old(Rows()), DispatchFailed(Some(a.reason)))
                else ApplyDispatch(env, old(Rows()))
    {
      hide Agreement.Agree, Dispatch.Invoke;
      Execution.PendingIsFresh(env, Rows());
      var _, a := Invoke(None, 0, call, Float);
      failed := a.Rejected?;
      if failed {
        var _ := SaveStatusGuarded(None, 0, StatusFailed, Error(DispatchFailure(call.id, call.op, Some(a.reason))));
      }
    }

    lemma DispatchProgress(db: Db)
      requires Agreement.Agree(db) && Pending(db.core.transcript).Some?
      ensures ApplyDispatch(env, db).Some? ==>
                && Execution.Settling(ApplyDispatch(env, db).value, 1)
                && Backlog(ApplyDispatch(env, db).value.core.transcript) < Backlog(db.core.transcript)
                && ApplyDispatch(env, db).value.status == db.status
    {
      hide Agreement.Agree, Dispatch.Invoke;
      Execution.PendingIsFresh(env, db);
      if ApplyDispatch(env, db).Some? {
        Execution.DispatchSettles(env, db);
        DispatchLowersBacklog(env, db);
      }
    }

    /** One model turn; a verdict ends the loop. */
    method TakeTurn(provider: Provider, asked: nat) returns (verdict: Option<Verdict>, after: nat)
      requires NeedsTurn(transcript)
      modifies this
      ensures Taken(Rows(), after, verdict) == Engine.TakeTurn(env, old(Rows()), provider, asked)
    {
      hide Authz.Exposed, CallProvider, WriteTurn, FailTurn, Pending, IsFinal, CallsFault, AllCalls, IdsOf, TurnEvents;
      after := asked;
      var operations := Authz.Exposed(env, authCalls);
      var request := Request(env.config.task, env.config.provider, env.config.model, PlainAll(transcript), operations);
      if |ledger| > 0 && ledger[|ledger| - 1].ModelRequest? {
        if ledger[|ledger| - 1].request != request {
          return Some(RunUnsafe), after;
        }
      } else {
        var _ := AppendGuarded(None, 0, ModelRequest(request));
      }
      var r := AskProvider(provider, asked, request);
      after := r.asked;
      if r.Unanswered? {
        var _ := FailModelTurnGuarded(None, 0, r.message, ProviderError(r.reason));
        return Some(RunFailed), after;
      }
      var m := r.message;
      var fault: Option<ProviderFault> := None;
      if !m.Assistant? {
        fault := Some(WrongRole);
      } else {
        PlainSame(transcript);
        var bad := ValidateCalls(env.operations, request.history, m.calls);
        fault := if bad.Some? then Some(InvalidTurn(bad.value)) else None;
      }
      if fault.Some? {
        var _ := FailModelTurnGuarded(None, 0, m, fault.value);
        return Some(RunFailed), after;
      }
      var _ := SaveTurnGuarded(None, 0, step + 1, request.history + [m], m);
      verdict := None;
    }

    /**
      The loop of a local run: it commits exactly the steps of the engine and
      returns exactly the engine's verdict. `None` is the refused argument.
     */
    method Execute(provider: Provider, asked: nat, maxSteps: nat) returns (verdict: Option<Verdict>, after: nat)
      requires Agreement.Agree(Rows())
      modifies this
      ensures maxSteps < 1 ==> verdict == None && Rows() == old(Rows())
      ensures maxSteps >= 1 ==> verdict.Some?
                                && Report(Rows(), after, verdict.value)
                                  == Engine.Execute(env, old(Rows()), provider, asked, 0, maxSteps)
    {
      hide Agreement.Agree, Dispatch.Invoke, Engine.TakeTurn, Pending, AllCalls, DoneIds, Backlog;
      after := asked;
      if maxSteps < 1 {
        return None, after;
      }
      var used := 0;
      while true
        invariant used <= maxSteps
        invariant Execution.Settling(Rows(), used)
        invariant Engine.Execute(env, Rows(), provider, after, used, maxSteps)
               == Engine.Execute(env, old(Rows()), provider, asked, 0, maxSteps)
        decreases maxSteps - used, Backlog(transcript)
      {
        if status.StatusCompleted? {
          return Some(RunCompleted), after;
        }
        var history := PlainAll(transcript);
        PlainDecides(transcript);
        var call := FindPending(history);
        if call.Some? {
          DispatchProgress(Rows());
          var failed := DispatchPending(call.value);
          if failed {
            return Some(RunFailed), after;
          }
          continue;
        }
        if |history| > 0 && history[|history| - 1].Assistant? && history[|history| - 1].calls == [] {
          var _ := SaveStatusGuarded(None, 0, StatusCompleted, Completed(step));
          return Some(RunCompleted), after;
        }
        if used >= maxSteps {
          var _ := SaveStatusGuarded(None, 0, StatusPaused, Paused(step));
          return Some(RunPaused), after;
        }
        var _ := Execution.TurnMoves(env, Rows(), provider, after);
        verdict, after := TakeTurn(provider, after);
        if verdict.Some? {
          return;
        }
        used := used + 1;
      }
    }
  }
}
