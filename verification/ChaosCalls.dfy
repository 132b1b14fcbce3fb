/** The matching-call counter behind `after_calls`, read off the ledger. */
module ChaosCalls {
  import opened Basics
  import opened Protocol
  import opened Engine
  import opened Accounting
  import opened ChaosRuns
  import Agreement
  import Authz
  import Chaos
  import Dispatch

  predicate HasAllowed(events: seq<Event>) {
    exists e | e in events :: e.AuthAllowed?
  }

  /** A finished call whose arguments passed the check and that no policy turned away: the chaos rules saw it. */
  predicate ReachedChaos(env: Env, b: Agreement.Bracket) {
    && FindOp(env.operations, b.call.op).Some?
    && Dispatch.Validate(FindOp(env.operations, b.call.op).value, b.call.args, Float).None?
    && (env.config.authPolicy.Some? ==> HasAllowed(b.inner))
  }

  /** How many finished calls that a rule matches reached the chaos rules. */
  function Matching(env: Env, done: seq<Agreement.Bracket>, rule: Rule): nat {
    if done == [] then 0 else
      var b := done[|done| - 1];
      Matching(env, done[..|done| - 1], rule) + (if ReachedChaos(env, b) && b.call.op in rule.operations then 1 else 0)
  }

  lemma MatchingSnoc(env: Env, done: seq<Agreement.Bracket>, b: Agreement.Bracket, rule: Rule)
    ensures Matching(env, done + [b], rule)
         == Matching(env, done, rule) + (if ReachedChaos(env, b) && b.call.op in rule.operations then 1 else 0)
  {
    assert (done + [b])[..|done|] == done;
  }

  // One call -----------------------------------------------------------------------

  /** The first two stages stop a call exactly when its arguments or its policy do. */
  lemma CheckedReaches(env: Env, op: Operation, core: Core, call: ToolCall)
    ensures var d := Dispatch.Authorize(env, op, call, Float,
            Dispatch.CheckSchema(op, call.args, Float, Dispatch.Begin(core)));
            && (!d.skip <==>
                Dispatch.Validate(op, call.args, Float).None? && (env.config.authPolicy.Some? ==> HasAllowed(d.events)))
            && !Dispatch.PostEffect(d.decision) && d.mutation.None?
  {
    hide Dispatch.Validate, Authz.Decide;
    var d0 := Dispatch.CheckSchema(op, call.args, Float, Dispatch.Begin(core));
    if !d0.skip {
      DecideEnforces(env, core.world, op, call.args, core.authCalls);
      var (v, _) := Authz.Decide(env, core.world, op, call.args, Float, core.authCalls);
      if v.Judged? {
        assert [] + [Dispatch.AuthEvent(call, v)] == [Dispatch.AuthEvent(call, v)];
        assert Dispatch.AuthEvent(call, v) in [Dispatch.AuthEvent(call, v)];
      }
    }
  }

  lemma DecideEnforces(env: Env, world: World, op: Operation, args: Args, used: nat)
    ensures var (v, _) := Authz.Decide(env, world, op, args, Float, used);
            v.Unenforced? <==> env.config.authPolicy.None?
  {
    hide Authz.GrantReason, Authz.ResourceReason;
  }

  lemma HandlerAdds(env: Env, op: Operation, call: ToolCall, retried: bool, mode: NumberMode, d: Dispatch.Draft)
    requires Dispatch.RunHandler(env, op, call, retried, mode, d).Ok?
    ensures var h := Dispatch.RunHandler(env, op, call, retried, mode, d).value;
            d.events <= h.events && (d.skip ==> h == d)
  {
  }

  lemma ConcealAdds(op: Operation, call: ToolCall, d: Dispatch.Draft)
    requires Dispatch.Conceal(call, Dispatch.Capture(op, call, d)).Ok?
    ensures var f := Dispatch.Conceal(call, Dispatch.Capture(op, call, d)).value;
            && d.events <= f.events && f.mutation == d.mutation
            && (!Dispatch.PostEffect(d.decision) ==> f.events == d.events)
            && (forall id :: Chaos.RowOf(f.core.chaos.rules, id).calls == Chaos.RowOf(d.core.chaos.rules, id).calls)
  {
    hide Chaos.SaveSnapshots;
  }

  lemma AllowedStays(a: seq<Event>, b: seq<Event>, mutation: Option<Json>)
    requires a <= b
    ensures HasAllowed(a) ==> HasAllowed(b + Dispatch.MutationEvents(mutation))
    ensures a == b ==> (HasAllowed(b + Dispatch.MutationEvents(mutation)) <==> HasAllowed(a))
  {
    assert b + Dispatch.MutationEvents(mutation) == a + (b[|a|..] + Dispatch.MutationEvents(mutation));
  }

  /** Whether the chaos rules were consulted can be read off the finished call. */
  lemma TrailReaches(env: Env, op: Operation, core: Core, retried: bool, call: ToolCall, t: Trail)
    requires Followed(env, op, core, retried, call, Float, t) && FindOp(env.operations, call.op) == Some(op)
    ensures !t.checked.skip <==> ReachedChaos(env, BracketOf(call, t.done))
  {
    hide Dispatch.Authorize, Dispatch.CheckSchema, Dispatch.Inject, Dispatch.RunHandler, Dispatch.Conceal,
      Dispatch.Capture, Dispatch.Validate, HasAllowed, Dispatch.PostEffect;
    CheckedReaches(env, op, core, call);
    InjectAdds(env, call, t.checked);
    HandlerAdds(env, op, call, retried, Float, t.injected);
    ConcealAdds(op, call, t.handled);
    if t.checked.skip {
      SkippedInject(env, call, t.checked);
    }
    assert t.checked.events <= t.injected.events <= t.handled.events <= t.done.events;
    AllowedStays(t.checked.events, t.done.events, t.done.mutation);
  }

  lemma SkippedInject(env: Env, call: ToolCall, d: Dispatch.Draft)
    requires d.skip
    ensures Dispatch.Inject(env, call, d) == Ok(d)
  {
  }

  /** The counter moves with the calls that reach the rules, and with nothing else. */
  lemma TrailCounts(env: Env, op: Operation, core: Core, retried: bool, call: ToolCall, t: Trail, rule: Rule)
    requires ValidPolicy(env) && Followed(env, op, core, retried, call, Float, t)
    requires env.config.chaosPolicy.Some? && rule in env.config.chaosPolicy.value
    ensures Chaos.RowOf(t.done.core.chaos.rules, rule.id).calls
         == Chaos.RowOf(core.chaos.rules, rule.id).calls
            + (if !t.checked.skip && call.op in rule.operations then 1 else 0)
  {
    hide Dispatch.Authorize, Dispatch.CheckSchema, Dispatch.RunHandler, Dispatch.Conceal, Dispatch.Capture,
      Chaos.DecideOn, Chaos.RowOf, Pick, Dispatch.Inject;
    var rules := env.config.chaosPolicy.value;
    CheckLeavesChaos(env, op, core, call, Float);
    if t.checked.skip {
      SkippedInject(env, call, t.checked);
      HandlerAdds(env, op, call, retried, Float, t.injected);
    } else {
      InjectConsults(env, core, call, t.checked);
      RunLeavesChaos(env, op, call, retried, Float, t.injected);
      Chaos.DecideCounts(rules, core.chaos.rules, core.chaos.snapshots, call.op, call.args, rule.id);
      MatchesItself(env, rule, call.op);
    }
    ConcealAdds(op, call, t.handled);
  }

  lemma MatchesItself(env: Env, rule: Rule, op: string)
    requires ValidPolicy(env) && env.config.chaosPolicy.Some? && rule in env.config.chaosPolicy.value
    ensures Chaos.MatchesSome(env.config.chaosPolicy.value, op, rule.id) <==> op in rule.operations
  {
    forall other | other in env.config.chaosPolicy.value && other.id == rule.id
      ensures other == rule
    {
      SameRule(env, other, rule);
    }
  }

  // Whole runs ------------------------------------------------------------------------

  /** Every rule's counter is the number of finished calls it matched that reached the rules. */
  predicate CallsCounted(env: Env, db: Db) {
    && Agreement.Read(db.ledger).Closed?
    && (env.config.chaosPolicy.Some? ==>
          forall rule | rule in env.config.chaosPolicy.value ::
            Chaos.RowOf(db.core.chaos.rules, rule.id).calls == Matching(env, Agreement.Read(db.ledger).done, rule))
  }

  /** An injection says which matching call it hit, counted on the ledger, and that is past `after_calls`. */
  predicate TimelyBy(env: Env, done: seq<Agreement.Bracket>, k: nat, e: Event, rule: Rule)
    requires k < |done| && e.ChaosInjected?
  {
    rule.id == e.rule && rule.afterCalls < e.matching == Matching(env, done[..k + 1], rule)
  }

  predicate TimelyEvent(env: Env, done: seq<Agreement.Bracket>, k: nat, e: Event)
    requires k < |done| && e.ChaosInjected?
  {
    env.config.chaosPolicy.Some?
        && exists rule | rule in env.config.chaosPolicy.value :: TimelyBy(env, done, k, e, rule)
  }

  predicate TimelyAt(env: Env, done: seq<Agreement.Bracket>, k: nat)
    requires k < |done|
  {
    var picked := Pick(Injections, done[k].inner);
    forall i | 0 <= i < |picked| :: TimelyEvent(env, done, k, picked[i])
  }

  predicate Timely(env: Env, db: Db) {
    && Agreement.Read(db.ledger).Closed?
    && forall k | 0 <= k < |Agreement.Read(db.ledger).done| :: TimelyAt(env, Agreement.Read(db.ledger).done, k)
  }

  lemma NewCallCounted(env: Env, op: Operation, db: Db, call: ToolCall, t: Trail)
    requires ValidPolicy(env) && CallsCounted(env, db)
    requires Followed(env, op, db.core, Retried(db.ledger), call, Float, t)
             && FindOp(env.operations, call.op) == Some(op)
    requires env.config.chaosPolicy.Some?
    ensures forall rule | rule in env.config.chaosPolicy.value ::
              Chaos.RowOf(t.done.core.chaos.rules, rule.id).calls
              == Matching(env, Agreement.Read(db.ledger).done + [BracketOf(call, t.done)], rule)
  {
    hide Followed, Chaos.RowOf, Matching, ReachedChaos, Agreement.Read, ValidPolicy;
    TrailReaches(env, op, db.core, Retried(db.ledger), call, t);
    forall rule | rule in env.config.chaosPolicy.value
      ensures Chaos.RowOf(t.done.core.chaos.rules, rule.id).calls
           == Matching(env, Agreement.Read(db.ledger).done + [BracketOf(call, t.done)], rule)
    {
      TrailCounts(env, op, db.core, Retried(db.ledger), call, t, rule);
      MatchingSnoc(env, Agreement.Read(db.ledger).done, BracketOf(call, t.done), rule);
    }
  }

  lemma NewCallTimely(env: Env, op: Operation, db: Db, call: ToolCall, t: Trail)
    requires ValidPolicy(env) && CallsCounted(env, db)
    requires Followed(env, op, db.core, Retried(db.ledger), call, Float, t)
             && FindOp(env.operations, call.op) == Some(op)
    ensures var done := Agreement.Read(db.ledger).done;
            TimelyAt(env, done + [BracketOf(call, t.done)], |done|)
  {
    hide Followed, Chaos.RowOf, Chaos.DecideOn, Matching, ReachedChaos, Agreement.Read, ValidPolicy, Pick,
      HidesCommit, KeepsHidden, Balanced;
    var done, b := Agreement.Read(db.ledger).done, BracketOf(call, t.done);
    TrailAccount(env, op, db.core, Retried(db.ledger), call, Float, t);
    InnerPicks(call, t.done);
    var picked := Pick(Injections, b.inner);
    if picked != [] {
      var i := SelectedIsFirstActive(env, db.core, call);
      var rule := env.config.chaosPolicy.value[i];
      TrailReaches(env, op, db.core, Retried(db.ledger), call, t);
      Consulting(env, op, db.core, Retried(db.ledger), call, t);
      MatchingSnoc(env, done, b, rule);
      assert (done + [b])[..|done| + 1] == done + [b];
      assert TimelyBy(env, done + [b], |done|, picked[0], rule);
    }
  }

  lemma InnerPicks(call: ToolCall, f: Dispatch.Draft)
    ensures Pick(Injections, BracketOf(call, f).inner) == Pick(Injections, f.events)
  {
    hide Pick;
    PickAppend(Injections, f.events, Dispatch.MutationEvents(f.mutation));
    PickNone(Injections, Dispatch.MutationEvents(f.mutation));
  }

  /** A call that was stopped early shows no injection. */
  lemma Consulting(env: Env, op: Operation, core: Core, retried: bool, call: ToolCall, t: Trail)
    requires Followed(env, op, core, retried, call, Float, t) && Pick(Injections, t.done.events) != []
    ensures !t.checked.skip
  {
    hide Dispatch.Authorize, Dispatch.CheckSchema, Dispatch.Inject, Dispatch.RunHandler, Dispatch.Conceal,
      Dispatch.Capture, Pick;
    if t.checked.skip {
      CheckLeavesChaos(env, op, core, call, Float);
      SkippedInject(env, call, t.checked);
      HandlerAdds(env, op, call, retried, Float, t.injected);
      ConcealAdds(op, call, t.handled);
    }
  }

  lemma EarlierStaysTimely(env: Env, done: seq<Agreement.Bracket>, b: Agreement.Bracket, k: nat)
    requires k < |done| && TimelyAt(env, done, k)
    ensures TimelyAt(env, done + [b], k)
  {
    hide Pick, Matching, TimelyBy;
    var picked := Pick(Injections, done[k].inner);
    forall i | 0 <= i < |picked|
      ensures TimelyEvent(env, done + [b], k, picked[i])
    {
      assert TimelyEvent(env, done, k, picked[i]);
      var rule :| rule in env.config.chaosPolicy.value && TimelyBy(env, done, k, picked[i], rule);
      SameTiming(env, done, b, k, picked[i], rule);
    }
  }

  lemma SameTiming(env: Env, done: seq<Agreement.Bracket>, b: Agreement.Bracket, k: nat, e: Event, rule: Rule)
    requires k < |done| && e.ChaosInjected? && TimelyBy(env, done, k, e, rule)
    ensures TimelyBy(env, done + [b], k, e, rule)
  {
    hide Matching;
    assert (done + [b])[..k + 1] == done[..k + 1];
  }

  lemma StepCounts(env: Env, db: Db, move: Move)
    requires ValidPolicy(env) && Agreement.Agree(db) && CallsCounted(env, db) && Timely(env, db)
             && Apply(env, db, move).Some?
    ensures CallsCounted(env, Apply(env, db, move).value) && Timely(env, Apply(env, db, move).value)
  {
    hide ValidPolicy, Agreement.Agree, Followed, Apply, Matching, Agreement.Read, TimelyAt, Chaos.RowOf;
    if move.Dispatched? {
      var call, op, t := DispatchTrail(env, db);
      var done := Agreement.Read(db.ledger).done;
      if env.config.chaosPolicy.Some? {
        NewCallCounted(env, op, db, call, t);
      }
      NewCallTimely(env, op, db, call, t);
      forall k | 0 <= k < |done|
        ensures TimelyAt(env, done + [BracketOf(call, t.done)], k)
      {
        EarlierStaysTimely(env, done, BracketOf(call, t.done), k);
      }
    } else {
      OtherMoveReads(env, db, move);
      var _ := OtherMove(env, db, move);
    }
  }

  lemma InitCounts(env: Env, world: World)
    ensures CallsCounted(env, Init(world)) && Timely(env, Init(world))
  {
    Agreement.ReadNeutral([], [Started]);
  }

  /**
    In every reachable state the counter behind `after_calls` is the number of finished
    calls the rule matched that got past argument check and authorization; and every
    injection names the number of the matching call it hit, always past `after_calls`.
   */
  lemma {:induction false} ReachableCalls(env: Env, world: World, moves: seq<Move>, db: Db)
    requires ValidPolicy(env) && Reaches(env, world, moves, db)
    ensures CallsCounted(env, db) && Timely(env, db)
  {
    hide Apply, CallsCounted, Timely, Agreement.Agree, ValidPolicy;
    if moves == [] {
      InitCounts(env, world);
    } else {
      var n := |moves| - 1;
      var before := Exec(env, Init(world), moves[..n]).value;
      ReachableCalls(env, world, moves[..n], before);
      Agreement.ReachableAgrees(env, world, moves[..n], before);
      StepCounts(env, before, moves[n]);
    }
  }
}
