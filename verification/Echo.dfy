/**
  Two dispatches of one call, on rows that differ in the chaos counters alone: what they
  record tells what they write.
 */
module Echo {
  import opened Basics
  import opened Protocol
  import opened Engine
  import opened Reconstruct
  import opened Accounting
  import opened ChaosRuns
  import opened Counters
  import Authz
  import Chaos
  import ChaosCalls
  import Dispatch

  // Two dispatches that record the same ------------------------------------------------

  /** Workspaces that differ in the chaos counters and the rule selected, and in nothing else. */
  predicate Alike(d: Dispatch.Draft, e: Dispatch.Draft) {
    && e == d.(core := WithRows(d.core, e.core.chaos.rules), decision := e.decision)
    && e.decision.captures == d.decision.captures
  }

  /** What handlers write, they tell: the mutation gives the outcome, and without one the status does. */
  ghost predicate HandlersTell(env: Env) {
    && (forall world, run, id, behavior, args, mode ::
          var o := env.handler(world, run, id, behavior, args, mode);
          o.Some? && o.value.mutation.None? ==> o.value.world == world)
    && forall world, run, id, behavior, args ::
         SameAnswer(env.handler(world, run, id, behavior, args, Float),
                    env.handler(world, run, id, behavior, args, Literal))
  }

  predicate SameAnswer(o: Option<Outcome>, l: Option<Outcome>) {
    (&& o.Some? && l.Some? && o.value.mutation == l.value.mutation
     && (o.value.mutation.None? ==> o.value.status == l.value.status))
    ==> o == l
  }

  lemma AuthorizeLifts(env: Env, op: Operation, call: ToolCall, mode: NumberMode, d: Dispatch.Draft, e: Dispatch.Draft)
    requires Alike(d, e)
    ensures Alike(Dispatch.Authorize(env, op, call, mode, d), Dispatch.Authorize(env, op, call, mode, e))
  {
    hide Authz.Decide, ErrorDoc;
    if !d.skip {
      var (v, used) := Authz.Decide(env, d.core.world, op, call.args, mode, d.core.authCalls);
      var d1, e1 := d.(core := d.core.(authCalls := used)), e.(core := e.core.(authCalls := used));
      assert Alike(d1, e1);
      if v.Judged? {
        var events := d1.events + [Dispatch.AuthEvent(call, v)];
        assert Alike(d1.(events := events), e1.(events := events));
      }
    }
  }

  lemma TrailGrows(env: Env, op: Operation, core: Core, retried: bool, call: ToolCall, mode: NumberMode, t: Trail)
    requires Followed(env, op, core, retried, call, mode, t)
    ensures t.checked.events <= t.injected.events <= t.handled.events <= t.done.events
    ensures t.checked.skip ==> t.done == t.checked
  {
    hide Dispatch.Authorize, Dispatch.CheckSchema, Dispatch.Inject, Dispatch.RunHandler, Pick, Chaos.RowOf;
    CheckLeavesChaos(env, op, core, call, mode);
    InjectAdds(env, call, t.checked);
    ChaosCalls.HandlerAdds(env, op, call, retried, mode, t.injected);
    ChaosCalls.ConcealAdds(op, call, t.handled);
    if t.checked.skip {
      NotConsulted(env, call, t.checked);
    }
  }

  /** What the checks leave behind: one authorization event, or an answer without any. */
  lemma CheckedEvents(env: Env, op: Operation, core: Core, call: ToolCall, mode: NumberMode)
    requires Dispatch.Validate(op, call.args, mode).None?
    ensures var d := Dispatch.Authorize(env, op, call, mode,
                                        Dispatch.CheckSchema(op, call.args, mode, Dispatch.Begin(core)));
            var (v, _) := Authz.Decide(env, core.world, op, call.args, mode, core.authCalls);
            && d.events == (if v.Judged? then [Dispatch.AuthEvent(call, v)] else [])
            && (v.Invalid? ==> d.skip && d.status == 400 && d.body == ErrorDoc(InvalidArguments))
            && (v.Unenforced? ==> d == Dispatch.Begin(core).(core := d.core) && d.core == core)
  {
    hide Dispatch.Validate, ErrorDoc;
    Authz.DecideNumbers(env, core.world, op, call.args, mode, core.authCalls);
  }

  lemma VerdictsAgree(env: Env, op: Operation, core: Core, rows: map<string, RuleRow>, retried: bool, call: ToolCall,
                      t: Trail, u: Trail)
    requires Followed(env, op, core, retried, call, Float, t)
             && Followed(env, op, WithRows(core, rows), retried, call, Literal, u)
    requires Dispatch.Validate(op, call.args, Float).None? && Dispatch.Validate(op, call.args, Literal).None?
    requires t.done.events == u.done.events
    ensures Authz.Decide(env, core.world, op, call.args, Float, core.authCalls)
         == Authz.Decide(env, core.world, op, call.args, Literal, core.authCalls)
  {
    hide Dispatch.Validate, Dispatch.Authorize, Dispatch.CheckSchema, Dispatch.Inject, Dispatch.RunHandler,
      Dispatch.Conceal, Dispatch.Capture, Authz.Decide, ErrorDoc;
    TrailGrows(env, op, core, retried, call, Float, t);
    TrailGrows(env, op, WithRows(core, rows), retried, call, Literal, u);
    CheckedEvents(env, op, core, call, Float);
    CheckedEvents(env, op, WithRows(core, rows), call, Literal);
    Authz.DecideNumbers(env, core.world, op, call.args, Float, core.authCalls);
    Authz.DecideNumbers(env, core.world, op, call.args, Literal, core.authCalls);
    Enforced(env, core, op, call);
    var (v, _) := Authz.Decide(env, core.world, op, call.args, Float, core.authCalls);
    var (w, _) := Authz.Decide(env, core.world, op, call.args, Literal, core.authCalls);
    if v.Judged? || w.Judged? {
      assert t.done.events[0] == u.done.events[0];
    }
  }

  lemma Enforced(env: Env, core: Core, op: Operation, call: ToolCall)
    ensures forall mode :: var (v, _) := Authz.Decide(env, core.world, op, call.args, mode, core.authCalls);
                           && (v.Unenforced? <==> env.config.authPolicy.None?)
                           && (v.Invalid? || v.Judged? ==>
                                 && env.config.authPolicy.Some?
                                 && v.principal == env.config.authPolicy.value.principal)
  {
    hide Authz.GrantReason, Authz.ResourceReason;
  }

  lemma CheckedAlike(env: Env, op: Operation, core: Core, rows: map<string, RuleRow>, retried: bool, call: ToolCall,
                     t: Trail, u: Trail)
    requires Followed(env, op, core, retried, call, Float, t)
             && Followed(env, op, WithRows(core, rows), retried, call, Literal, u)
    requires !NumericFault(op, call.args) && t.done.events == u.done.events
    ensures Alike(t.checked, u.checked)
  {
    hide Dispatch.Validate, Dispatch.Authorize, Dispatch.Inject, Dispatch.RunHandler, Dispatch.Conceal,
      Dispatch.Capture, Authz.Decide, ErrorDoc, NumericFault;
    ValidationsAgree(op, call.args);
    var d := Dispatch.CheckSchema(op, call.args, Float, Dispatch.Begin(core));
    var e := Dispatch.CheckSchema(op, call.args, Literal, Dispatch.Begin(WithRows(core, rows)));
    assert Alike(d, e);
    AuthorizeLifts(env, op, call, Literal, d, e);
    if d.skip {
      SkipPersists(env, op, call, Float, d);
      SkipPersists(env, op, call, Literal, d);
    } else {
      VerdictsAgree(env, op, core, rows, retried, call, t, u);
      SameVerdict(env, op, call, d);
    }
  }

  lemma SameVerdict(env: Env, op: Operation, call: ToolCall, d: Dispatch.Draft)
    requires Authz.Decide(env, d.core.world, op, call.args, Float, d.core.authCalls)
          == Authz.Decide(env, d.core.world, op, call.args, Literal, d.core.authCalls)
    ensures Dispatch.Authorize(env, op, call, Float, d) == Dispatch.Authorize(env, op, call, Literal, d)
  {
    hide Authz.Decide, ErrorDoc;
  }

  // From the checks to the commit --------------------------------------------------------

  /** The same rule with the same number, or none. */
  predicate SamePick(a: Chaos.Decision, b: Chaos.Decision) {
    a.selected == b.selected && (a.selected.Some? ==> a.matching == b.matching)
  }

  /** Nothing to see before the handler has run: no rule, or a commit timeout. */
  predicate Silent(a: Chaos.Decision) {
    a.selected.None? || a.selected.value.kind.TimeoutAfterCommit?
  }

  /** Nothing to see afterwards either: the commit timeout has nothing to hide. */
  predicate GivesBack(d: Dispatch.Draft) {
    && Silent(d.decision)
    && (d.decision.selected.Some? ==> d.ran && !(Dispatch.Success(d.status) && d.mutation.Some?))
  }

  lemma SilentInjects(env: Env, call: ToolCall, d: Dispatch.Draft)
    requires !d.skip && env.config.chaosPolicy.Some? && Silent(DecisionOf(env, d.core, call))
    ensures var decision := DecisionOf(env, d.core, call);
            Dispatch.Inject(env, call, d) == Ok(d.(core := WithRows(d.core, decision.rows), decision := decision))
  {
    hide Chaos.DecideOn, ErrorDoc;
  }

  lemma EffectAlike(env: Env, call: ToolCall, a: Chaos.Decision, b: Chaos.Decision, d: Dispatch.Draft,
                    e: Dispatch.Draft)
    requires Alike(d, e) && a.selected.Some? && SamePick(a, b) && Dispatch.ApplyEffect(env, call, a, d).Ok?
    ensures var r := Dispatch.ApplyEffect(env, call, b, e);
            r.Ok? && Alike(Dispatch.ApplyEffect(env, call, a, d).value, r.value)
  {
    hide Alike, Dispatch.Answer;
    match a.selected.value.kind
    case HttpError(status) => AnswersAlike(d, e, status, SimulatedHttpFailure);
    case Timeout => AnswersAlike(d, e, 0, SimulatedTransportTimeout);
    case RateLimit => AnswersAlike(d, e, 429, SimulatedRateLimit);
    case PermissionRevocation => AnswersAlike(d, e, 403, SimulatedPermissionRevocation);
    case PartialOutage => AnswersAlike(d, e, 503, SimulatedServiceOutage);
    case StaleRead => ServedAlike(call, a.selected.value, d, e);
    case _ =>
  }

  lemma AnswersAlike(d: Dispatch.Draft, e: Dispatch.Draft, status: int, fault: Fault)
    requires Alike(d, e)
    ensures Alike(Dispatch.Answer(d, status, fault), Dispatch.Answer(e, status, fault))
  {
    hide ErrorDoc;
  }

  lemma ServedAlike(call: ToolCall, rule: Rule, d: Dispatch.Draft, e: Dispatch.Draft)
    requires Alike(d, e)
    ensures d.core.chaos.snapshots == e.core.chaos.snapshots
    ensures forall status, body ::
              Alike(d.(status := status, body := body, skip := true), e.(status := status, body := body, skip := true))
  {
  }

  lemma ActorAlike(env: Env, rule: Rule, matching: nat, d: Dispatch.Draft, e: Dispatch.Draft)
    requires Alike(d, e) && rule.kind.ConcurrentMutation? && Dispatch.InvokeActor(env, rule, matching, d).Ok?
    ensures var r := Dispatch.InvokeActor(env, rule, matching, e);
            r.Ok? && Alike(Dispatch.InvokeActor(env, rule, matching, d).value, r.value)
  {
    hide Dispatch.ActorRun, Dispatch.ActorCall;
  }

  lemma PickedInjects(env: Env, call: ToolCall, d: Dispatch.Draft, e: Dispatch.Draft)
    requires Alike(d, e) && !d.skip && env.config.chaosPolicy.Some? && Dispatch.Inject(env, call, d).Ok?
    requires SamePick(DecisionOf(env, d.core, call), DecisionOf(env, e.core, call))
    ensures var r := Dispatch.Inject(env, call, e);
            r.Ok? && Alike(Dispatch.Inject(env, call, d).value, r.value)
            && r.value.decision == DecisionOf(env, e.core, call)
  {
    hide Chaos.DecideOn, Dispatch.ApplyEffect, Dispatch.InvokeActor;
    var a, b := DecisionOf(env, d.core, call), DecisionOf(env, e.core, call);
    SameCaptures(env, call, d.core, e.core);
    var d1 := d.(core := WithRows(d.core, a.rows), decision := a);
    var e1 := e.(core := WithRows(e.core, b.rows), decision := b);
    assert Alike(d1, e1);
    if a.selected.Some? {
      var rule := a.selected.value;
      EffectAlike(env, call, a, b, d1, e1);
      EffectFrames(env, call, a, d1);
      EffectFrames(env, call, b, e1);
      var d2 := Dispatch.ApplyEffect(env, call, a, d1).value;
      var e2 := Dispatch.ApplyEffect(env, call, b, e1).value;
      var d3 := if Dispatch.PostEffect(a) then d2 else d2.(events := d2.events + [Dispatch.Injection(call, a)]);
      var e3 := if Dispatch.PostEffect(b) then e2 else e2.(events := e2.events + [Dispatch.Injection(call, b)]);
      assert Alike(d3, e3);
      if rule.kind.ConcurrentMutation? {
        ActorAlike(env, rule, a.matching, d3, e3);
        ActorFrames(env, rule, a.matching, e3);
      }
    }
  }

  lemma ActorFrames(env: Env, rule: Rule, matching: nat, d: Dispatch.Draft)
    requires rule.kind.ConcurrentMutation? && Dispatch.InvokeActor(env, rule, matching, d).Ok?
    ensures Dispatch.InvokeActor(env, rule, matching, d).value.decision == d.decision
  {
    hide Dispatch.ActorRun, Dispatch.ActorCall;
  }

  lemma SameCaptures(env: Env, call: ToolCall, a: Core, b: Core)
    requires env.config.chaosPolicy.Some?
    ensures DecisionOf(env, a, call).captures == DecisionOf(env, b, call).captures
  {
    hide Chaos.DecideOn;
    Chaos.DecideCaptures(Policy(env), a.chaos.rules, a.chaos.snapshots, call.op, call.args);
    Chaos.DecideCaptures(Policy(env), b.chaos.rules, b.chaos.snapshots, call.op, call.args);
  }

  lemma InjectAlike(env: Env, call: ToolCall, d: Dispatch.Draft, e: Dispatch.Draft)
    requires Alike(d, e) && !d.skip && env.config.chaosPolicy.Some? && Dispatch.Inject(env, call, d).Ok?
    requires var a, b := DecisionOf(env, d.core, call), DecisionOf(env, e.core, call);
             SamePick(a, b) || (Silent(a) && Silent(b))
    ensures var r := Dispatch.Inject(env, call, e);
            r.Ok? && Alike(Dispatch.Inject(env, call, d).value, r.value)
            && r.value.decision == DecisionOf(env, e.core, call)
  {
    hide Chaos.DecideOn, Dispatch.Inject;
    if SamePick(DecisionOf(env, d.core, call), DecisionOf(env, e.core, call)) {
      PickedInjects(env, call, d, e);
    } else {
      SilentInjects(env, call, d);
      SilentInjects(env, call, e);
      SameCaptures(env, call, d.core, e.core);
    }
  }

  /** Whether the injected 503 answers instead of the handler. */
  predicate Faulted(env: Env, call: ToolCall, core: Core) {
    env.config.faultOp == call.op && !core.faultConsumed
  }

  lemma HandledAlike(env: Env, op: Operation, call: ToolCall, retried: bool, m: NumberMode, n: NumberMode,
                     d: Dispatch.Draft, e: Dispatch.Draft)
    requires Alike(d, e) && Dispatch.RunHandler(env, op, call, retried, m, d).Ok?
    requires d.skip || Faulted(env, call, d.core)
             || env.handler(d.core.world, env.config.runId, call.id, op.behavior, call.args, m)
               == env.handler(d.core.world, env.config.runId, call.id, op.behavior, call.args, n)
    ensures var r := Dispatch.RunHandler(env, op, call, retried, n, e);
            r.Ok? && Alike(Dispatch.RunHandler(env, op, call, retried, m, d).value, r.value)
            && r.value.decision == e.decision
  {
    hide ErrorDoc;
  }

  lemma CaptureAlike(op: Operation, call: ToolCall, h: Dispatch.Draft, k: Dispatch.Draft)
    requires Alike(h, k)
    ensures Alike(Dispatch.Capture(op, call, h), Dispatch.Capture(op, call, k))
    ensures var c := Dispatch.Capture(op, call, k);
            c.decision == k.decision && c.ran == k.ran && c.status == k.status && c.mutation == k.mutation
  {
  }

  lemma PickedConceals(call: ToolCall, h: Dispatch.Draft, k: Dispatch.Draft)
    requires Alike(h, k) && SamePick(h.decision, k.decision) && Dispatch.Conceal(call, h).Ok?
    ensures var r := Dispatch.Conceal(call, k); r.Ok? && Alike(Dispatch.Conceal(call, h).value, r.value)
  {
    hide ErrorDoc, Chaos.RowOf;
    if Dispatch.PostEffect(h.decision) {
      assert k.ran && Dispatch.Hides(h) == Dispatch.Hides(k);
      if !Dispatch.Hides(h) {
        GivesInjectionBack(call, h);
      }
    }
  }

  /** A rule that shows nothing leaves everything but the counters as it is. */
  lemma SilentConceals(call: ToolCall, h: Dispatch.Draft)
    requires GivesBack(h)
    ensures var r := Dispatch.Conceal(call, h); r.Ok? && Alike(h, r.value)
  {
    hide ErrorDoc, Chaos.RowOf;
  }

  lemma ConcealAlike(op: Operation, call: ToolCall, h: Dispatch.Draft, k: Dispatch.Draft)
    requires Alike(h, k) && Dispatch.Conceal(call, Dispatch.Capture(op, call, h)).Ok?
    requires SamePick(h.decision, k.decision) || (GivesBack(h) && GivesBack(k))
    ensures var r := Dispatch.Conceal(call, Dispatch.Capture(op, call, k));
            r.Ok? && Alike(Dispatch.Conceal(call, Dispatch.Capture(op, call, h)).value, r.value)
  {
    hide Dispatch.Conceal, Dispatch.Capture;
    CaptureAlike(op, call, h, k);
    CaptureAlike(op, call, h, h);
    var c, e := Dispatch.Capture(op, call, h), Dispatch.Capture(op, call, k);
    if SamePick(h.decision, k.decision) {
      PickedConceals(call, c, e);
    } else {
      SilentConceals(call, c);
      SilentConceals(call, e);
    }
  }

  // The events of a dispatch tell its rows --------------------------------------------------

  lemma PickGrows(a: seq<Event>, b: seq<Event>)
    requires a <= b && Pick(Injections, b) == []
    ensures Pick(Injections, a) == []
  {
    hide Pick;
    assert b == a + b[|a|..];
    PickAppend(Injections, a, b[|a|..]);
  }

  /** A call without a recorded injection met no rule, or a commit timeout that was given back. */
  lemma UnrecordedGivesBack(env: Env, op: Operation, core: Core, retried: bool, call: ToolCall, mode: NumberMode,
                            t: Trail)
    requires Followed(env, op, core, retried, call, mode, t) && env.config.chaosPolicy.Some? && !t.checked.skip
    requires Pick(Injections, t.done.events) == []
    ensures GivesBack(t.handled) && t.handled.decision == DecisionOf(env, core, call)
  {
    hide Dispatch.Authorize, Dispatch.CheckSchema, Dispatch.Inject, Dispatch.RunHandler, Dispatch.Conceal,
      Dispatch.Capture, Pick, Chaos.DecideOn, Chaos.RowOf;
    CheckLeavesChaos(env, op, core, call, mode);
    InjectConsults(env, core, call, t.checked);
    RunLeavesChaos(env, op, call, retried, mode, t.injected);
    TrailGrows(env, op, core, retried, call, mode, t);
    PickGrows(t.injected.events, t.done.events);
    var c := Dispatch.Capture(op, call, t.handled);
    CaptureFrames(op, call, t.handled);
    if Dispatch.PostEffect(c.decision) {
      if Dispatch.Hides(c) {
        ConcealsOutcome(call, c);
        PickSnoc(Injections, c.events, Dispatch.Injection(call, c.decision));
      } else {
        GivesInjectionBack(call, c);
      }
    }
  }

  /** Two dispatches with the same recorded injections were given the same rule, or none that shows. */
  lemma PicksAgree(env: Env, op: Operation, core: Core, rows: map<string, RuleRow>, retried: bool, call: ToolCall,
                   m: NumberMode, t: Trail, n: NumberMode, u: Trail)
    requires ValidPolicy(env) && env.config.chaosPolicy.Some? && !t.checked.skip && !u.checked.skip
    requires Followed(env, op, core, retried, call, m, t)
             && Followed(env, op, WithRows(core, rows), retried, call, n, u)
    requires Pick(Injections, t.done.events) == Pick(Injections, u.done.events)
    ensures var a, b := DecisionOf(env, core, call), DecisionOf(env, WithRows(core, rows), call);
            SamePick(a, b) || (Silent(a) && Silent(b) && GivesBack(t.handled) && GivesBack(u.handled))
  {
    hide Followed, Pick, Chaos.DecideOn, ValidPolicy, KeepsHidden, Balanced, GivesBack, HidesCommit;
    TrailAccount(env, op, core, retried, call, m, t);
    TrailAccount(env, op, WithRows(core, rows), retried, call, n, u);
    var a, b := DecisionOf(env, core, call), DecisionOf(env, WithRows(core, rows), call);
    if Pick(Injections, t.done.events) == [] {
      UnrecordedGivesBack(env, op, core, retried, call, m, t);
      UnrecordedGivesBack(env, op, WithRows(core, rows), retried, call, n, u);
      BackIsSilent(t.handled);
      BackIsSilent(u.handled);
    } else {
      var i := SelectedIsFirstActive(env, core, call);
      var j := SelectedIsFirstActive(env, WithRows(core, rows), call);
      assert Dispatch.Injection(call, a) == Dispatch.Injection(call, b);
      SameRule(env, a.selected.value, b.selected.value);
    }
  }

  lemma BackIsSilent(d: Dispatch.Draft)
    requires GivesBack(d)
    ensures Silent(d.decision)
  {
  }

  /** The outcome of the handler shows in what is recorded. */
  lemma OutcomeShows(env: Env, op: Operation, core: Core, retried: bool, call: ToolCall, mode: NumberMode, t: Trail)
    requires Followed(env, op, core, retried, call, mode, t)
    requires !t.injected.skip && !Faulted(env, call, t.injected.core)
    ensures var o := env.handler(t.injected.core.world, env.config.runId, call.id, op.behavior, call.args, mode);
            && o.Some? && t.done.mutation == o.value.mutation
            && (o.value.mutation.None? ==> t.done.status == o.value.status)
  {
    hide Dispatch.Authorize, Dispatch.CheckSchema, Dispatch.Inject, Dispatch.Conceal, Dispatch.Capture, Chaos.RowOf,
      ErrorDoc;
    var c := Dispatch.Capture(op, call, t.handled);
    CaptureFrames(op, call, t.handled);
    if !Dispatch.PostEffect(c.decision) {
      ConcealsNothing(call, c);
    } else if Dispatch.Hides(c) {
      ConcealsOutcome(call, c);
    } else {
      GivesInjectionBack(call, c);
    }
  }

  /** Two dispatches of an accepted call that record the same leave the same rows, counters aside. */
  lemma SameEventsAlike(env: Env, op: Operation, core: Core, rows: map<string, RuleRow>, retried: bool, call: ToolCall,
                        t: Trail, u: Trail)
    requires ValidPolicy(env) && HandlersTell(env) && !NumericFault(op, call.args)
    requires Followed(env, op, core, retried, call, Float, t)
             && Followed(env, op, WithRows(core, rows), retried, call, Literal, u)
    requires t.done.events == u.done.events && t.done.mutation == u.done.mutation && t.done.status == u.done.status
    ensures Alike(t.done, u.done) && t.checked.skip == u.checked.skip
  {
    hide ValidPolicy, HandlersTell, NumericFault, Dispatch.Authorize, Dispatch.CheckSchema, Dispatch.Inject,
      Dispatch.RunHandler, Dispatch.Conceal, Dispatch.Capture, Chaos.DecideOn, Pick, GivesBack;
    CheckedAlike(env, op, core, rows, retried, call, t, u);
    if t.checked.skip {
      TrailGrows(env, op, core, retried, call, Float, t);
      TrailGrows(env, op, WithRows(core, rows), retried, call, Literal, u);
    } else {
      CheckLeavesChaos(env, op, core, call, Float);
      CheckLeavesChaos(env, op, WithRows(core, rows), call, Literal);
      if env.config.chaosPolicy.None? {
        NotConsulted(env, call, t.checked);
        NotConsulted(env, call, u.checked);
      } else {
        PicksAgree(env, op, core, rows, retried, call, Float, t, Literal, u);
        InjectAlike(env, call, t.checked, t.checked);
        InjectAlike(env, call, t.checked, u.checked);
      }
      RunsAlike(env, op, core, rows, retried, call, t, u);
    }
  }

  lemma RunsAlike(env: Env, op: Operation, core: Core, rows: map<string, RuleRow>, retried: bool, call: ToolCall,
                  t: Trail, u: Trail)
    requires HandlersTell(env)
    requires Followed(env, op, core, retried, call, Float, t)
             && Followed(env, op, WithRows(core, rows), retried, call, Literal, u)
    requires t.done.mutation == u.done.mutation && t.done.status == u.done.status
    requires Alike(t.injected, u.injected)
    requires SamePick(t.injected.decision, u.injected.decision) || (GivesBack(t.handled) && GivesBack(u.handled))
    ensures Alike(t.done, u.done)
  {
    hide Dispatch.Authorize, Dispatch.CheckSchema, Dispatch.Inject, Dispatch.RunHandler, Dispatch.Conceal,
      Dispatch.Capture, GivesBack;
    if !t.injected.skip && !Faulted(env, call, t.injected.core) {
      OutcomeShows(env, op, core, retried, call, Float, t);
      OutcomeShows(env, op, WithRows(core, rows), retried, call, Literal, u);
    }
    HandledAlike(env, op, call, retried, Float, Literal, t.injected, u.injected);
    HandledAlike(env, op, call, retried, Float, Float, t.injected, t.injected);
    ConcealAlike(op, call, t.handled, u.handled);
  }
}
