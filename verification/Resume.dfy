/**
  The forward half of crash transparency: if the uninterrupted run completes, then
  resuming from whatever a crash left behind completes as well, with the same rows.
 */
module Resume {
  import opened Basics
  import opened Protocol
  import opened Engine
  import opened Agreement
  import opened Simulation
  import Dispatch
  import Execution
  import Takeover
  import Workers

  // One iteration from related states ----------------------------------------------

  lemma CompletedMeansCommitted(env: Env, r: Db, p: Provider, asked: nat, used: nat, maxSteps: nat)
    requires !r.status.StatusCompleted? && Pending(r.core.transcript).Some?
    requires Execute(env, r, p, asked, used, maxSteps).verdict.RunCompleted?
    ensures Dispatch.Invoke(env, r.core, Retried(r.ledger), Pending(r.core.transcript).value, Float).Committed?
  {
    hide Dispatch.Invoke, Pending, IsFinal, Apply, TakeTurn, Retried;
  }

  /** The pending call commits on the resumed side as it does on the other. */
  lemma ResumedDispatch(env: Env, d: Db, r: Db, p: Provider, asked: nat, used: nat, maxSteps: nat)
    requires Sound(env, d) && Related(d, r) && Pending(r.core.transcript).Some?
    requires Execute(env, r, p, asked, used, maxSteps).verdict.RunCompleted?
    ensures Apply(env, d, Dispatched).Some? && !Open(d.ledger) && Retried(d.ledger) == Retried(r.ledger)
    ensures Dispatch.Invoke(env, r.core, Retried(r.ledger), Pending(r.core.transcript).value, Float).Committed?
  {
    hide Agree, Dispatch.Invoke, Pending, Related, Execution.Resumable, Retried, Open, Execute;
    RelatedMeans(d, r);
    CompletedMeansCommitted(env, r, p, asked, used, maxSteps);
    PendingMeansClosed(env, d);
    RelatedRetries(d, r);
  }

  lemma ResumedFinish(env: Env, d: Db, r: Db)
    requires Sound(env, d) && Related(d, r) && Pending(r.core.transcript).None? && IsFinal(r.core.transcript)
    ensures Apply(env, d, Complete) == Some(Db(StatusCompleted, d.ledger + [Completed(d.core.step)], d.core))
    ensures Same(Db(StatusCompleted, r.ledger + [Completed(r.core.step)], r.core),
                 Db(StatusCompleted, d.ledger + [Completed(d.core.step)], d.core))
  {
    hide Agree, Pending, IsFinal, Sem;
    CompletionIsSame(env, d, r);
  }

  /** A completed execution that needs a turn has room for it, and the provider gave an accepted one. */
  lemma CompletedMeansAnswered(env: Env, r: Db, p: Provider, asked: nat, used: nat, maxSteps: nat)
    requires !r.status.StatusCompleted? && NeedsTurn(r.core.transcript)
    requires Execute(env, r, p, asked, used, maxSteps).verdict.RunCompleted?
    ensures used < maxSteps && AppendRequest(env, r).Some?
    ensures var answer := CallProvider(p, asked, RequestOf(env, r.core));
            answer.Answered? && Accepted(env, r.core.transcript, answer.message)
  {
    hide Dispatch.Invoke, Pending, IsFinal, Apply, CallProvider, RequestOf, Retried, TurnFaultOf, AppendRequest,
      SaveTurn;
  }

  /** The resumed side repeats the request it may find open, and gets the same turn. */
  lemma ResumedTurn(env: Env, d: Db, r: Db, m: Message) returns (d': Db, r': Db)
    requires Sound(env, d) && Related(d, r) && NeedsTurn(r.core.transcript) && Accepted(env, r.core.transcript, m)
    ensures AppendRequest(env, d).Some? && d' == SaveTurn(AppendRequest(env, d).value, m)
    ensures AppendRequest(env, r).Some? && r' == SaveTurn(AppendRequest(env, r).value, m)
    ensures Sound(env, d') && Related(d', r')
  {
    hide Agree, Related, RequestOf, Pending, IsFinal, Rejection, SaveTurn;
    RelatedMeans(d, r);
    Execution.ResumableRepeats(env, d);
    Execution.RequestIsAnswerable(env, d);
    var open := AppendRequest(env, d).value;
    assert Apply(env, d, Request_) == Some(open);
    RequestStaysRelated(env, d, r);
    StaysSound(env, d, Request_);
    assert Apply(env, open, Turn(m)) == Some(SaveTurn(open, m));
    TurnStaysRelated(env, open, r, m);
    StaysSound(env, open, Turn(m));
    d', r' := SaveTurn(open, m), SaveTurn(AppendRequest(env, r).value, m);
  }

  // Whole executions -----------------------------------------------------------------

  /** Related states complete together, whatever the resumed worker has asked before. */
  lemma {:induction false} ResumesAlike(
    env: Env, d: Db, r: Db, p: Provider, asked: nat, used: nat, maxSteps: nat, again: nat, reused: nat, budget: nat)
    requires Sound(env, d) && Related(d, r) && Stateless(p)
    requires used <= maxSteps && maxSteps - used <= budget - reused
    requires Execute(env, r, p, asked, used, maxSteps).verdict.RunCompleted?
    ensures var whole, resumed := Execute(env, r, p, asked, used, maxSteps), Execute(env, d, p, again, reused, budget);
            resumed.verdict.RunCompleted? && Same(whole.db, resumed.db)
    decreases maxSteps - used, Backlog(r.core.transcript)
  {
    hide Agree, Related, Stateless, Execute, Apply, Dispatch.Invoke, Pending, IsFinal, Backlog, SaveTurn,
      AppendRequest, RequestOf, CallProvider, Accepted, Same, Sem, Execution.Resumable, Retried, Open;
    RelatedMeans(d, r);
    if Pending(r.core.transcript).Some? {
      ResumedDispatch(env, d, r, p, asked, used, maxSteps);
      DispatchStaysRelated(env, d, r);
      StaysSound(env, d, Dispatched);
      Execution.ExecuteDispatches(env, r, p, asked, used, maxSteps);
      Execution.ExecuteDispatches(env, d, p, again, reused, budget);
      DispatchLowersBacklog(env, r);
      var a := Dispatch.Invoke(env, r.core, Retried(r.ledger), Pending(r.core.transcript).value, Float);
      DispatchIs(env, d, a);
      ResumesAlike(env, Db(d.status, d.ledger + a.events, a.core), Db(r.status, r.ledger + a.events, a.core),
                   p, asked, used, maxSteps, again, reused, budget);
    } else if IsFinal(r.core.transcript) {
      ResumedFinish(env, d, r);
      Execution.ExecuteCompletes(env, r, p, asked, used, maxSteps);
      Execution.ExecuteCompletes(env, d, p, again, reused, budget);
    } else {
      CompletedMeansAnswered(env, r, p, asked, used, maxSteps);
      var request := RequestOf(env, r.core);
      var answer, repeated := CallProvider(p, asked, request), CallProvider(p, again, request);
      SameAnswer(p, asked, again, request);
      var d', r' := ResumedTurn(env, d, r, answer.message);
      Execution.ExecuteTurns(env, r, p, asked, used, maxSteps, answer.message, answer.asked);
      Execution.ExecuteTurns(env, d, p, again, reused, budget, answer.message, repeated.asked);
      ResumesAlike(env, d', r', p, answer.asked, used + 1, maxSteps, repeated.asked, reused + 1, budget);
    }
  }

  lemma SameAnswer(p: Provider, n: nat, m: nat, request: Request)
    requires Stateless(p)
    ensures var a, b := CallProvider(p, n, request), CallProvider(p, m, request);
            a.Answered? == b.Answered? && a.message == b.message
  {
    StatelessAnswers(p, n, m, request, 1, []);
  }

  lemma DispatchIs(env: Env, d: Db, a: Dispatch.Attempt)
    requires !d.status.StatusCompleted? && Pending(d.core.transcript).Some? && a.Committed?
    requires Dispatch.Invoke(env, d.core, Retried(d.ledger), Pending(d.core.transcript).value, Float) == a
    ensures Apply(env, d, Dispatched) == Some(Db(d.status, d.ledger + a.events, a.core))
  {
    hide Dispatch.Invoke, Pending, Retried;
  }

  lemma TurnMeansRoom(env: Env, d: Db, r: Db, m: Message, p: Provider, asked: nat, used: nat, maxSteps: nat)
    requires Related(d, r) && Apply(env, d, Turn(m)).Some?
             && Execute(env, r, p, asked, used, maxSteps).verdict.RunCompleted?
    ensures used < maxSteps
  {
    hide Execute, Pending, IsFinal, RequestOf, Rejection, Sem;
    CompletedMeansAnswered(env, r, p, asked, used, maxSteps);
  }

  /** From the start of a crashed history to its resumption. */
  lemma {:induction false} ResumesAfter(
    env: Env, d: Db, moves: seq<Move>, db: Db, p: Provider, r: Db, asked: nat, used: nat, maxSteps: nat, again: nat,
        budget: nat)
    requires Exec(env, d, moves) == Some(db) && NoFailure(db.ledger) && Sound(env, d) && Related(d, r)
    requires Stateless(p) && Follows(env, d, moves, p, asked)
    requires used <= maxSteps <= budget && Execute(env, r, p, asked, used, maxSteps).verdict.RunCompleted?
    ensures var whole, resumed := Execute(env, r, p, asked, used, maxSteps), Execute(env, db, p, again, 0, budget);
            resumed.verdict.RunCompleted? && Same(whole.db, resumed.db)
    decreases |moves|
  {
    hide Exec, Agree, Related, Stateless, Execute, Apply, RequestOf, CallProvider, Same, Sem, Execution.Resumable;
    if moves == [] {
      SomeMoves(env, d);
      ResumesAlike(env, d, r, p, asked, used, maxSteps, again, 0, budget);
    } else {
      ExecHead(env, d, moves);
      NoStepFailed(env, d, moves);
      var next := Apply(env, d, moves[0]).value;
      if moves[0].Complete? {
        SimulateComplete(env, d, p, r, asked, used, maxSteps);
        CompletesAt(env, d);
        NothingFollowsCompletion(env, next, moves[1..]);
        SomeMoves(env, next);
        Execution.AlreadyCompleted(env, next, p, again, 0, budget);
      } else {
        if moves[0].Turn? {
          TurnMeansRoom(env, d, r, moves[0].message, p, asked, used, maxSteps);
        }
        StaysSound(env, d, moves[0]);
        var r', asked', used' := SimulateStep(env, d, moves[0], p, r, asked, used, maxSteps);
        ResumesAfter(env, next, moves[1..], db, p, r', asked', used', maxSteps, again, budget);
      }
    }
  }

  /**
    Whenever the uninterrupted run completes, `Execute` resumed from any state a crash, a
    pause or a takeover left behind completes too, and ends with the same rows and the
    same semantic ledger.
   */
  lemma ResumeTransparency(env: Env, world: World, moves: seq<Move>, db: Db, p: Provider, maxSteps: nat, again: nat,
                           budget: nat)
    requires Reaches(env, world, moves, db) && NoFailure(db.ledger)
    requires Stateless(p) && Supplied(env, Init(world), moves, p)
    requires Execute(env, Init(world), p, 0, 0, maxSteps).verdict.RunCompleted? && budget >= maxSteps
    ensures var whole, resumed := Execute(env, Init(world), p, 0, 0, maxSteps), Execute(env, db, p, again, 0, budget);
            && resumed.verdict.RunCompleted?
            && resumed.db.core == whole.db.core && Sem(resumed.db.ledger) == Sem(whole.db.ledger)
  {
    hide Exec, Stateless, Execute, Apply, Sem, Supplied, Sound, Related;
    InitIsSound(env, world);
    SuppliedFollows(env, Init(world), moves, p, 0);
    ResumesAfter(env, Init(world), moves, db, p, Init(world), 0, 0, maxSteps, again, budget);
  }

  /** And so does any interleaving of workers: one local execution picks up what they left and ends the same. */
  lemma TakeoverResumes(env: Env, p: Provider, world: World, acts: seq<(nat, Workers.Act)>, maxSteps: nat, again: nat,
                        budget: nat)
    requires Workers.Play(env, Workers.Start(world), acts).Some? && Takeover.AllObey(env, p, Workers.Start(world), acts)
    requires Stateless(p) && NoFailure(Workers.Play(env, Workers.Start(world), acts).value.db.ledger)
    requires Execute(env, Init(world), p, 0, 0, maxSteps).verdict.RunCompleted? && budget >= maxSteps
    ensures var db := Workers.Play(env, Workers.Start(world), acts).value.db;
            var whole, resumed := Execute(env, Init(world), p, 0, 0, maxSteps), Execute(env, db, p, again, 0, budget);
            && resumed.verdict.RunCompleted?
            && resumed.db.core == whole.db.core && Sem(resumed.db.ledger) == Sem(whole.db.ledger)
  {
    hide Workers.Play, Takeover.AllObey, Workers.Coherent, Takeover.Honest, Exec, Execute, Stateless, Supplied, Sem;
    var moves := Takeover.InterleavingIsSupplied(env, p, world, acts);
    ResumeTransparency(env, world, moves, Workers.Play(env, Workers.Start(world), acts).value.db, p, maxSteps, again,
                       budget);
  }
}
