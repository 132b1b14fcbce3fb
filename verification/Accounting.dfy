/** What the tool transaction keeps account of over whole runs: chaos rules, call numbers and refunds. */
module Accounting {
  import opened Basics
  import opened Protocol
  import opened Engine
  import Agreement
  import Authz
  import Billing
  import Chaos
  import Dispatch
  import Execution

  // The stages of one committed call --------------------------------------------

  /** The workspaces a committed call went through. */
  datatype Trail = Trail(checked: Dispatch.Draft, injected: Dispatch.Draft, handled: Dispatch.Draft,
                         done: Dispatch.Draft)

  predicate Followed(env: Env, op: Operation, core: Core, retried: bool, call: ToolCall, mode: NumberMode, t: Trail) {
    && t.checked == Dispatch.Authorize(env, op, call, mode,
                                       Dispatch.CheckSchema(op, call.args, mode, Dispatch.Begin(core)))
    && Dispatch.Inject(env, call, t.checked) == Ok(t.injected)
    && Dispatch.RunHandler(env, op, call, retried, mode, t.injected) == Ok(t.handled)
    && Dispatch.Conceal(call, Dispatch.Capture(op, call, t.handled)) == Ok(t.done)
  }

  lemma CommitTrail(env: Env, core: Core, retried: bool, call: ToolCall, mode: NumberMode)
    returns (op: Operation, t: Trail)
    requires Dispatch.Invoke(env, core, retried, call, mode).Committed?
    ensures FindOp(env.operations, call.op) == Some(op) && call.id !in core.results
    ensures Followed(env, op, core, retried, call, mode, t)
    ensures Dispatch.Invoke(env, core, retried, call, mode) == Dispatch.Commit(call, t.done)
  {
    hide Dispatch.Authorize, Dispatch.CheckSchema, Dispatch.Inject, Dispatch.RunHandler, Dispatch.Conceal,
      Dispatch.Capture, Dispatch.Commit;
    op := FindOp(env.operations, call.op).value;
    var d1 := Dispatch.Authorize(env, op, call, mode, Dispatch.CheckSchema(op, call.args, mode, Dispatch.Begin(core)));
    var d2 := Dispatch.Inject(env, call, d1).value;
    var d3 := Dispatch.RunHandler(env, op, call, retried, mode, d2).value;
    t := Trail(d1, d2, d3, Dispatch.Conceal(call, Dispatch.Capture(op, call, d3)).value);
  }

  // Refund conservation ------------------------------------------------------------

  /** The registered handlers touch the billing tables only the way a refund does. */
  ghost predicate OnlyRefunds(env: Env, f: Billing.Fields) {
    forall world, run, id, behavior, args, mode ::
      var o := env.handler(world, run, id, behavior, args, mode);
      o.Some? ==> Billing.RefundOnly(world, o.value.world, f)
  }

  lemma HandlerConserves(env: Env, f: Billing.Fields, seed: World, world: World, run: string, id: string,
                         behavior: Behavior, args: Args, mode: NumberMode)
    requires OnlyRefunds(env, f) && Billing.Conserved(seed, world)
    ensures var o := env.handler(world, run, id, behavior, args, mode);
            o.Some? ==> Billing.Conserved(seed, o.value.world)
  {
    hide Billing.Conserved, Billing.RefundOnly;
    var o := env.handler(world, run, id, behavior, args, mode);
    if o.Some? {
      Billing.StepConserves(seed, f, world, o.value.world);
    }
  }

  lemma CheckedWorld(env: Env, op: Operation, core: Core, call: ToolCall, mode: NumberMode)
    ensures Dispatch.Authorize(env, op, call, mode,
            Dispatch.CheckSchema(op, call.args, mode, Dispatch.Begin(core))).core.world == core.world
  {
    hide Dispatch.Validate, Authz.Decide;
  }

  lemma EffectWorld(env: Env, call: ToolCall, decision: Chaos.Decision, d: Dispatch.Draft)
    requires decision.selected.Some?
    ensures var r := Dispatch.ApplyEffect(env, call, decision, d); r.Ok? ==> r.value.core == d.core
  {
  }

  lemma InjectConserves(env: Env, f: Billing.Fields, seed: World, call: ToolCall, d: Dispatch.Draft)
    requires OnlyRefunds(env, f) && Billing.Conserved(seed, d.core.world)
    ensures var r := Dispatch.Inject(env, call, d); r.Ok? ==> Billing.Conserved(seed, r.value.core.world)
  {
    hide Billing.Conserved, OnlyRefunds, Dispatch.ApplyEffect, Dispatch.ActorRun, Dispatch.ActorCall;
    if !d.skip && env.config.chaosPolicy.Some? {
      var chaos := d.core.chaos;
      var decision := Chaos.DecideOn(env.config.chaosPolicy.value, chaos.rules, chaos.snapshots, call.op, call.args);
      var d1 := d.(core := d.core.(chaos := chaos.(rules := decision.rows)), decision := decision);
      if decision.selected.Some? {
        var rule := decision.selected.value;
        EffectWorld(env, call, decision, d1);
        if rule.kind.ConcurrentMutation? && FindOp(env.operations, rule.kind.actor.op).Some? {
          HandlerConserves(env, f, seed, d.core.world, Dispatch.ActorRun(env.config.runId),
                           Dispatch.ActorCall(rule.id, decision.matching),
                           FindOp(env.operations, rule.kind.actor.op).value.behavior, rule.kind.actor.args, Float);
        }
      }
    }
  }

  lemma RunConserves(env: Env, f: Billing.Fields, seed: World, op: Operation, call: ToolCall, retried: bool,
                     mode: NumberMode, d: Dispatch.Draft)
    requires OnlyRefunds(env, f) && Billing.Conserved(seed, d.core.world)
    ensures var r := Dispatch.RunHandler(env, op, call, retried, mode, d);
            r.Ok? ==> Billing.Conserved(seed, r.value.core.world)
  {
    hide Billing.Conserved, OnlyRefunds;
    HandlerConserves(env, f, seed, d.core.world, env.config.runId, call.id, op.behavior, call.args, mode);
  }

  lemma ConcealWorld(op: Operation, call: ToolCall, d: Dispatch.Draft)
    ensures var r := Dispatch.Conceal(call, Dispatch.Capture(op, call, d)); r.Ok? ==> r.value.core.world == d.core.world
  {
  }

  lemma InvokeConserves(env: Env, f: Billing.Fields, seed: World, core: Core, retried: bool, call: ToolCall,
                        mode: NumberMode)
    requires OnlyRefunds(env, f) && Billing.Conserved(seed, core.world)
    requires Dispatch.Invoke(env, core, retried, call, mode).Committed?
    ensures Billing.Conserved(seed, Dispatch.Invoke(env, core, retried, call, mode).core.world)
  {
    hide Billing.Conserved, OnlyRefunds, Dispatch.Authorize, Dispatch.CheckSchema, Dispatch.Inject,
      Dispatch.RunHandler, Dispatch.Conceal, Dispatch.Capture, Dispatch.Invoke;
    var op, t := CommitTrail(env, core, retried, call, mode);
    CheckedWorld(env, op, core, call, mode);
    InjectConserves(env, f, seed, call, t.checked);
    RunConserves(env, f, seed, op, call, retried, mode, t.injected);
    ConcealWorld(op, call, t.handled);
  }

  /**
    Refund conservation. Whatever the agent calls, the chaos actors write, is retried
    or rolled back, every charge's refunded amount is its seed value plus its committed
    refund rows, stays between zero and the charge's amount, and fits in 64 bits.
   */
  lemma {:induction false} ReachableConserves(env: Env, f: Billing.Fields, world: World, moves: seq<Move>, db: Db)
    requires OnlyRefunds(env, f) && Billing.SeedFunded(world) && Reaches(env, world, moves, db)
    ensures Billing.Conserved(world, db.core.world)
  {
    hide Billing.Conserved, OnlyRefunds, Apply, Billing.SeedFunded;
    if moves == [] {
      Billing.SeedIsConserved(world);
    } else {
      var n := |moves| - 1;
      var before := Exec(env, Init(world), moves[..n]).value;
      ReachableConserves(env, f, world, moves[..n], before);
      StepConserves(env, f, world, before, moves[n]);
    }
  }

  lemma StepConserves(env: Env, f: Billing.Fields, seed: World, db: Db, move: Move)
    requires OnlyRefunds(env, f) && Billing.Conserved(seed, db.core.world) && Apply(env, db, move).Some?
    ensures Billing.Conserved(seed, Apply(env, db, move).value.core.world)
  {
    hide Billing.Conserved, OnlyRefunds, Dispatch.Invoke, IsFinal, RequestOf, Rejection, Pending;
    if move.Dispatched? {
      var call := Pending(db.core.transcript).value;
      if Dispatch.Invoke(env, db.core, Retried(db.ledger), call, Float).Committed? {
        InvokeConserves(env, f, seed, db.core, Retried(db.ledger), call, Float);
      }
    }
  }

  // Picking events out of a ledger -----------------------------------------------

  datatype Topic = Authorizations | Injections

  predicate About(topic: Topic, e: Event) {
    match topic
    case Authorizations => e.AuthAllowed? || e.AuthDenied?
    case Injections => e.ChaosInjected?
  }

  function Pick(topic: Topic, events: seq<Event>): (picked: seq<Event>)
    ensures forall i | 0 <= i < |picked| :: About(topic, picked[i])
  {
    if events == [] then [] else
      var last := events[|events| - 1];
      Pick(topic, events[..|events| - 1]) + (if About(topic, last) then [last] else [])
  }

  lemma {:induction false} PickAppend(topic: Topic, a: seq<Event>, b: seq<Event>)
    ensures Pick(topic, a + b) == Pick(topic, a) + Pick(topic, b)
  {
    if b == [] {
      assert a + b == a;
    } else {
      var n := |b| - 1;
      PickAppend(topic, a, b[..n]);
      assert (a + b)[..|a + b| - 1] == a + b[..n];
    }
  }

  lemma {:induction false} PickNone(topic: Topic, events: seq<Event>)
    requires forall e | e in events :: !About(topic, e)
    ensures Pick(topic, events) == []
  {
    if events != [] {
      PickNone(topic, events[..|events| - 1]);
      assert events[|events| - 1] in events;
    }
  }

  lemma PickSnoc(topic: Topic, events: seq<Event>, e: Event)
    ensures Pick(topic, events + [e]) == Pick(topic, events) + (if About(topic, e) then [e] else [])
  {
    assert (events + [e])[..|events|] == events;
  }

  /** The bracket of a call shows what its transaction recorded, and nothing else on the topic. */
  lemma PickCommit(topic: Topic, call: ToolCall, d: Dispatch.Draft)
    ensures Pick(topic, Dispatch.Commit(call, d).events) == Pick(topic, d.events)
  {
    hide Pick;
    var tail := Dispatch.MutationEvents(d.mutation) + [Dispatch.ResponseOf(call, d)];
    PickNone(topic, [ToolRequest(call)]);
    PickNone(topic, tail);
    assert [] + Pick(topic, d.events) + [] == Pick(topic, d.events);
    PickAppend(topic, [ToolRequest(call)], d.events);
    PickAppend(topic, [ToolRequest(call)] + d.events, tail);
    assert Dispatch.Commit(call, d).events == [ToolRequest(call)] + d.events + tail;
  }

  lemma PickNeutral(topic: Topic, ledger: seq<Event>, events: seq<Event>)
    requires forall e | e in events :: Agreement.Neutral(e)
    ensures Pick(topic, ledger + events) == Pick(topic, ledger)
  {
    PickAppend(topic, ledger, events);
    assert forall e | e in events :: !About(topic, e) by {
      assert forall e | e in events :: Agreement.Neutral(e);
    }
    PickNone(topic, events);
  }

  // Authorization numbering ----------------------------------------------------------

  /** The transaction so far has numbered at most one call, with the next number. */
  predicate NumbersNext(used: nat, d: Dispatch.Draft) {
    var picked := Pick(Authorizations, d.events);
    || (d.core.authCalls == used && picked == [])
    || (d.core.authCalls == used + 1 && |picked| == 1 && picked[0].index == used + 1)
  }

  lemma CheckNumbers(env: Env, op: Operation, core: Core, call: ToolCall, mode: NumberMode)
    ensures NumbersNext(core.authCalls,
            Dispatch.Authorize(env, op, call, mode, Dispatch.CheckSchema(op, call.args, mode, Dispatch.Begin(core))))
  {
    hide Dispatch.Validate, Authz.Decide, Pick;
    var d := Dispatch.CheckSchema(op, call.args, mode, Dispatch.Begin(core));
    PickNone(Authorizations, []);
    if !d.skip {
      Authz.DecideNumbers(env, d.core.world, op, call.args, mode, d.core.authCalls);
      var (v, used) := Authz.Decide(env, d.core.world, op, call.args, mode, d.core.authCalls);
      if v.Judged? {
        PickSnoc(Authorizations, [], Dispatch.AuthEvent(call, v));
      }
    }
  }

  lemma InjectNumbers(env: Env, used: nat, call: ToolCall, d: Dispatch.Draft)
    requires NumbersNext(used, d)
    ensures var r := Dispatch.Inject(env, call, d); r.Ok? ==> NumbersNext(used, r.value)
  {
    hide Dispatch.ActorRun, Dispatch.ActorCall, NumbersNext;
    var r := Dispatch.Inject(env, call, d);
    if r.Ok? {
      SameNumbers(used, d, r.value, r.value.events[|d.events|..]) by {
        InjectAdds(env, call, d);
      }
    }
  }

  lemma SameNumbers(used: nat, d: Dispatch.Draft, next: Dispatch.Draft, more: seq<Event>)
    requires NumbersNext(used, d) && next.core.authCalls == d.core.authCalls
    requires next.events == d.events + more && forall e | e in more :: !About(Authorizations, e)
    ensures NumbersNext(used, next)
  {
    PickAppend(Authorizations, d.events, more);
    PickNone(Authorizations, more);
  }

  /** Injection adds at most the injection event and the actor's mutation. */
  lemma InjectAdds(env: Env, call: ToolCall, d: Dispatch.Draft)
    ensures var r := Dispatch.Inject(env, call, d);
            r.Ok? ==> |d.events| <= |r.value.events| && r.value.events[..|d.events|] == d.events
                      && r.value.core.authCalls == d.core.authCalls
                      && forall e | e in r.value.events[|d.events|..] :: e.ChaosInjected? || e.ActorMutation?
  {
    hide Dispatch.ActorRun, Dispatch.ActorCall, Dispatch.ApplyEffect, Chaos.DecideOn;
    if !d.skip && env.config.chaosPolicy.Some? {
      var chaos := d.core.chaos;
      var decision := Chaos.DecideOn(env.config.chaosPolicy.value, chaos.rules, chaos.snapshots, call.op, call.args);
      var d1 := d.(core := d.core.(chaos := chaos.(rules := decision.rows)), decision := decision);
      if decision.selected.Some? {
        EffectKeepsEvents(env, call, decision, d1);
      }
    }
  }

  lemma EffectKeepsEvents(env: Env, call: ToolCall, decision: Chaos.Decision, d: Dispatch.Draft)
    requires decision.selected.Some?
    ensures var r := Dispatch.ApplyEffect(env, call, decision, d);
            r.Ok? ==> r.value.events == d.events && r.value.core == d.core
  {
  }

  lemma RunNumbers(env: Env, used: nat, op: Operation, call: ToolCall, retried: bool, mode: NumberMode,
                   d: Dispatch.Draft)
    requires NumbersNext(used, d)
    ensures var r := Dispatch.RunHandler(env, op, call, retried, mode, d); r.Ok? ==> NumbersNext(used, r.value)
  {
    hide NumbersNext;
    var r := Dispatch.RunHandler(env, op, call, retried, mode, d);
    if r.Ok? {
      var more := r.value.events[|d.events|..];
      assert r.value.events == d.events + more;
      SameNumbers(used, d, r.value, more);
    }
  }

  lemma ConcealNumbers(used: nat, op: Operation, call: ToolCall, d: Dispatch.Draft)
    requires NumbersNext(used, d)
    ensures var r := Dispatch.Conceal(call, Dispatch.Capture(op, call, d)); r.Ok? ==> NumbersNext(used, r.value)
  {
    hide NumbersNext;
    var r := Dispatch.Conceal(call, Dispatch.Capture(op, call, d));
    if r.Ok? {
      var more := r.value.events[|d.events|..];
      assert r.value.events == d.events + more;
      SameNumbers(used, d, r.value, more);
    }
  }

  lemma InvokeNumbers(env: Env, core: Core, retried: bool, call: ToolCall, mode: NumberMode)
    requires Dispatch.Invoke(env, core, retried, call, mode).Committed?
    ensures var a := Dispatch.Invoke(env, core, retried, call, mode);
            var picked := Pick(Authorizations, a.events);
            || (a.core.authCalls == core.authCalls && picked == [])
            || (a.core.authCalls == core.authCalls + 1 && |picked| == 1 && picked[0].index == core.authCalls + 1)
  {
    hide Dispatch.Authorize, Dispatch.CheckSchema, Dispatch.Inject, Dispatch.RunHandler, Dispatch.Conceal,
      Dispatch.Capture, Dispatch.Invoke;
    var op, t := CommitTrail(env, core, retried, call, mode);
    CheckNumbers(env, op, core, call, mode);
    InjectNumbers(env, core.authCalls, call, t.checked);
    RunNumbers(env, core.authCalls, op, call, retried, mode, t.injected);
    ConcealNumbers(core.authCalls, op, call, t.handled);
    PickCommit(Authorizations, call, t.done);
  }

  /** The k-th authorization event of the run carries call index k, and the counter is the last one. */
  predicate Numbered(db: Db) {
    var picked := Pick(Authorizations, db.ledger);
    |picked| == db.core.authCalls && forall k | 0 <= k < |picked| :: picked[k].index == k + 1
  }

  lemma StepNumbers(env: Env, db: Db, move: Move)
    requires Agreement.Agree(db) && Numbered(db) && Apply(env, db, move).Some?
    ensures Numbered(Apply(env, db, move).value)
  {
    hide Agreement.Agree, Dispatch.Invoke, Pending, IsFinal, RequestOf, Rejection, Pick;
    if move.Dispatched? {
      var call, _, _ := Agreement.DispatchKeepsAgreement(env, db);
      Execution.DispatchCommits(env, db, call);
      InvokeNumbers(env, db.core, Retried(db.ledger), call, Float);
      PickAppend(Authorizations, db.ledger, Dispatch.Invoke(env, db.core, Retried(db.ledger), call, Float).events);
    } else {
      var events := OtherMove(env, db, move);
      PickNeutral(Authorizations, db.ledger, events);
    }
  }

  /** Every other step leaves world, results, counters and chaos rows alone and adds no event of a call. */
  lemma OtherMove(env: Env, db: Db, move: Move) returns (events: seq<Event>)
    requires Apply(env, db, move).Some? && !move.Dispatched?
    ensures forall e | e in events :: Agreement.Neutral(e)
    ensures var next := Apply(env, db, move).value;
            && next.ledger == db.ledger + events
            && next.core.authCalls == db.core.authCalls && next.core.chaos == db.core.chaos
              && next.core.results == db.core.results
  {
    hide Pending, IsFinal, RequestOf, Rejection;
    if move.Turn? {
      Agreement.TurnEventsNeutral(move.message);
      events := TurnEvents(move.message);
    } else {
      events := Agreement.QuietMove(env, db, move);
    }
  }

  lemma {:induction false} ReachableNumbered(env: Env, world: World, moves: seq<Move>, db: Db)
    requires Reaches(env, world, moves, db)
    ensures Numbered(db)
  {
    hide Apply, Numbered, Agreement.Agree;
    if moves == [] {
      InitNumbered(world);
    } else {
      var n := |moves| - 1;
      var before := Exec(env, Init(world), moves[..n]).value;
      ReachableNumbered(env, world, moves[..n], before);
      Agreement.ReachableAgrees(env, world, moves[..n], before);
      StepNumbers(env, before, moves[n]);
    }
  }

  lemma InitNumbered(world: World)
    ensures Numbered(Init(world))
  {
    PickNone(Authorizations, [Started]);
  }
}
