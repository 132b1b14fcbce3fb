/**
  When a rebuild's dispatch of a call repeats the run's, that is, records the same: for the
  calls the runner refused because of a number, and for those it accepted.
 */
module Repeat {
  import opened Basics
  import opened Protocol
  import opened Engine
  import opened Reconstruct
  import opened Accounting
  import opened ChaosRuns
  import opened Counters
  import opened Echo
  import Authz
  import Chaos
  import Dispatch

  // Calls the runner refused ---------------------------------------------------------------

  /** The document a refused number was answered with names the argument. */
  function RefusedName(op: Operation, args: Args): string
    requires NumericFault(op, args)
  {
    Dispatch.Validate(op, args, Float).value.name
  }

  /** A handler answers the way the argument check did, and writes nothing. */
  predicate AnswersInvalid(o: Option<Outcome>, name: string) {
    o.Some? && o.value.status == 400 && o.value.body == ErrorDoc(InvalidArgument(name)) && o.value.mutation.None?
  }

  /**
    When a call the runner refused is refused again, with the same document and nothing
    else to see: the literal passes the argument check, no policy, rule or fault shows, and
    the handler itself answers that the argument is invalid. Under an authorization policy
    only the policy's own argument check can say so, and it says "invalid arguments".
   */
  predicate RefusedAgain(env: Env, op: Operation, core: Core, retried: bool, call: ToolCall)
    requires NumericFault(op, call.args)
  {
    var name := RefusedName(op, call.args);
    && Dispatch.Validate(op, call.args, Literal).None?
    && if env.config.authPolicy.Some? then !env.handlerValid(op.behavior, call.args, Literal) && name == "arguments"
       else
         && (env.config.chaosPolicy.Some? ==> Silent(DecisionOf(env, core, call)))
         && (env.config.faultOp == call.op ==> core.faultConsumed && retried)
         && AnswersInvalid(env.handler(core.world, env.config.runId, call.id, op.behavior, call.args, Literal), name)
  }

  /** A finished workspace that shows exactly the refusal the runner recorded. */
  predicate ShowsRefusal(name: string, d: Dispatch.Draft) {
    d.events == [] && d.mutation.None? && d.status == 400 && d.body == ErrorDoc(InvalidArgument(name))
  }

  lemma {:induction false} FaultKinds(names: seq<string>, op: Operation, args: Args, mode: NumberMode)
    requires forall name | name in names :: name in args
    ensures var f := Dispatch.FirstFault(names, op, args, mode);
            f.Some? ==> f.value.UnexpectedArgument? || f.value.InvalidArgument?
  {
    if names != [] {
      FaultKinds(names[1..], op, args, mode);
    }
  }

  /** The literal fault of a refused call, if there is one, reads differently. */
  lemma OtherFaultReadsOtherwise(op: Operation, args: Args, fault: Fault)
    requires NumericFault(op, args) && Dispatch.Validate(op, args, Literal) == Some(fault)
    ensures ErrorDoc(fault) != ErrorDoc(InvalidArgument(RefusedName(op, args)))
  {
    hide ErrorDoc;
    LiteralNeverRefusesNumbers(SortedNames(args.Keys), op, args);
    FirstMissingIsMissing(op.required, args);
    FaultKinds(SortedNames(args.Keys), op, args, Literal);
    if ErrorDoc(fault) == ErrorDoc(InvalidArgument(RefusedName(op, args))) {
      CheckerTells(RefusedName(op, args), fault);
    }
  }

  lemma UnenforcedChecks(env: Env, op: Operation, core: Core, call: ToolCall)
    requires env.config.authPolicy.None? && Dispatch.Validate(op, call.args, Literal).None?
    ensures Dispatch.Authorize(env, op, call, Literal,
                               Dispatch.CheckSchema(op, call.args, Literal, Dispatch.Begin(core)))
         == Dispatch.Begin(core)
  {
    hide Dispatch.Validate;
  }

  /** After checks and rules that show nothing the handler runs on the run's own world. */
  lemma SilentReachesHandler(env: Env, core: Core, call: ToolCall) returns (d: Dispatch.Draft)
    requires env.config.chaosPolicy.Some? ==> Silent(DecisionOf(env, core, call))
    ensures Dispatch.Inject(env, call, Dispatch.Begin(core)) == Ok(d)
    ensures d == Dispatch.Begin(core).(core := WithRows(core, d.core.chaos.rules), decision := d.decision)
            && Silent(d.decision)
  {
    hide Chaos.DecideOn, Dispatch.Inject;
    if env.config.chaosPolicy.Some? {
      SilentInjects(env, call, Dispatch.Begin(core));
      d := Dispatch.Inject(env, call, Dispatch.Begin(core)).value;
    } else {
      NotConsulted(env, call, Dispatch.Begin(core));
      d := Dispatch.Begin(core);
    }
  }

  /** A handler's refusal goes through the last stages unchanged. */
  lemma RefusalGoesThrough(op: Operation, call: ToolCall, h: Dispatch.Draft)
    requires Silent(h.decision) && h.ran && h.status == 400
    ensures var r := Dispatch.Conceal(call, Dispatch.Capture(op, call, h));
            r.Ok? && r.value == h.(core := WithRows(h.core, r.value.core.chaos.rules))
  {
    hide Chaos.RowOf, ErrorDoc;
  }

  lemma RefusedAgainAnswers(env: Env, op: Operation, core: Core, retried: bool, call: ToolCall)
    requires HandlersTell(env) && NumericFault(op, call.args) && RefusedAgain(env, op, core, retried, call)
    ensures var r := Dispatch.Perform(env, op, core, retried, call, Literal);
            && r.Ok? && ShowsRefusal(RefusedName(op, call.args), r.value)
            && r.value.core == WithRows(core, r.value.core.chaos.rules)
  {
    hide Dispatch.Validate, Dispatch.Inject, Dispatch.Conceal, Dispatch.Capture, Chaos.DecideOn, ErrorDoc,
      NumericFault;
    if env.config.authPolicy.Some? {
      ArgumentsWording();
      var d0 := Dispatch.Begin(core);
      var d := Dispatch.Answer(d0, 400, InvalidArguments);
      assert Dispatch.Authorize(env, op, call, Literal, d0) == d;
      NotConsulted(env, call, d);
      StoppedCommits(op, call, d);
    } else {
      UnenforcedChecks(env, op, core, call);
      var d := SilentReachesHandler(env, core, call);
      var o := env.handler(core.world, env.config.runId, call.id, op.behavior, call.args, Literal).value;
      assert o.world == core.world;
      var h := Dispatch.RunHandler(env, op, call, retried, Literal, d).value;
      assert h == d.(status := 400, body := o.body, ran := true);
      RefusalGoesThrough(op, call, h);
    }
  }

  lemma ArgumentsWording()
    ensures ErrorDoc(InvalidArguments) == ErrorDoc(InvalidArgument("arguments"))
  {
    assert "invalid " + "arguments" == "invalid arguments";
  }

  lemma StoppedCommits(op: Operation, call: ToolCall, d: Dispatch.Draft)
    requires d.decision.selected.None? && !d.ran
    ensures Dispatch.Conceal(call, Dispatch.Capture(op, call, d)) == Ok(d)
  {
  }

  /** Conversely, a dispatch that shows the same refusal met the condition. */
  lemma ShownRefusalIsAgain(env: Env, op: Operation, core: Core, retried: bool, call: ToolCall, u: Trail)
    requires NumericFault(op, call.args) && Followed(env, op, core, retried, call, Literal, u)
    requires ShowsRefusal(RefusedName(op, call.args), u.done)
    ensures RefusedAgain(env, op, core, retried, call)
  {
    hide Dispatch.Validate, Dispatch.Authorize, Dispatch.Inject, Dispatch.RunHandler, Dispatch.Conceal,
      Dispatch.Capture, Chaos.DecideOn, ErrorDoc, NumericFault, RefusedName, Authz.Decide, Pick;
    TrailGrows(env, op, core, retried, call, Literal, u);
    var d := Dispatch.CheckSchema(op, call.args, Literal, Dispatch.Begin(core));
    if Dispatch.Validate(op, call.args, Literal).Some? {
      OtherFaultReadsOtherwise(op, call.args, Dispatch.Validate(op, call.args, Literal).value);
      SkipPersists(env, op, call, Literal, d);
      assert false;
    } else if env.config.authPolicy.Some? {
      CheckedEvents(env, op, core, call, Literal);
      Enforced(env, core, op, call);
      InvalidVerdict(env, op, core, call);
      CheckerTells(RefusedName(op, call.args), InvalidArguments);
    } else {
      UnenforcedChecks(env, op, core, call);
      PickNone(Injections, []);
      if env.config.chaosPolicy.Some? {
        UnrecordedGivesBack(env, op, core, retried, call, Literal, u);
        BackIsSilent(u.handled);
      }
      var d1 := SilentReachesHandler(env, core, call);
      HandlerRefuses(env, op, core, retried, call, u);
    }
  }

  lemma InvalidVerdict(env: Env, op: Operation, core: Core, call: ToolCall)
    requires env.config.authPolicy.Some?
    ensures var (v, _) := Authz.Decide(env, core.world, op, call.args, Literal, core.authCalls);
            v.Judged? || (v.Invalid? && !env.handlerValid(op.behavior, call.args, Literal))
  {
    hide Authz.GrantReason, Authz.ResourceReason;
  }

  lemma HandlerRefuses(env: Env, op: Operation, core: Core, retried: bool, call: ToolCall, u: Trail)
    requires Followed(env, op, core, retried, call, Literal, u) && u.done.events == [] && u.done.mutation.None?
             && u.done.status == 400
    requires u.injected == Dispatch.Begin(core).(core := WithRows(core, u.injected.core.chaos.rules),
                                                 decision := u.injected.decision) && Silent(u.injected.decision)
    ensures env.config.faultOp == call.op ==> core.faultConsumed && retried
    ensures var o := env.handler(core.world, env.config.runId, call.id, op.behavior, call.args, Literal);
            o.Some? && o.value.status == 400 && o.value.body == u.done.body && o.value.mutation.None?
  {
    hide Dispatch.Authorize, Dispatch.CheckSchema, Dispatch.Inject, Dispatch.Conceal, Dispatch.Capture, ErrorDoc;
    TrailGrows(env, op, core, retried, call, Literal, u);
    assert u.handled.events == [];
    OutcomeShows(env, op, core, retried, call, Literal, u);
    RefusalGoesThrough(op, call, u.handled);
  }

  // One call, recorded and repeated -----------------------------------------------------------

  /** Dispatching the recorded literals on the raised rows records what the run recorded. */
  predicate Repeats(env: Env, db: Db, call: ToolCall) {
    var a := Dispatch.Invoke(env, db.core, Retried(db.ledger), call, Float);
    var l := Dispatch.Invoke(env, Raised(env, db).core, Retried(db.ledger), call, Literal);
    a.Committed? && l.Committed? && l.events == a.events
  }

  lemma LastMutation(d: Dispatch.Draft, inner: seq<Event>)
    requires Dispatch.AllInner(d.events) && inner == d.events + Dispatch.MutationEvents(d.mutation)
    ensures d.mutation
         == if inner != [] && inner[|inner| - 1].Mutation? then Some(inner[|inner| - 1].mutation) else None
    ensures d.events == if d.mutation.Some? then inner[..|inner| - 1] else inner
  {
    if d.mutation.None? && inner != [] {
      assert inner[|inner| - 1] in d.events;
    }
  }

  lemma CommitTells(call: ToolCall, d: Dispatch.Draft, e: Dispatch.Draft)
    requires Dispatch.AllInner(d.events) && Dispatch.AllInner(e.events)
    requires Dispatch.Commit(call, d).events == Dispatch.Commit(call, e).events
    ensures d.events == e.events && d.mutation == e.mutation && d.status == e.status && d.body == e.body
  {
    hide Dispatch.AllInner;
    var a, b := d.events + Dispatch.MutationEvents(d.mutation), e.events + Dispatch.MutationEvents(e.mutation);
    var events := Dispatch.Commit(call, d).events;
    var n := |events| - 1;
    assert events[n] == Dispatch.ResponseOf(call, d) == Dispatch.ResponseOf(call, e);
    assert a == events[1..n] == b;
    LastMutation(d, a);
    LastMutation(e, b);
  }

  lemma TrailIsInner(env: Env, op: Operation, core: Core, retried: bool, call: ToolCall, mode: NumberMode, t: Trail)
    requires Followed(env, op, core, retried, call, mode, t)
    ensures Dispatch.Framed(core, t.done)
  {
    hide Dispatch.Authorize, Dispatch.CheckSchema, Dispatch.Inject, Dispatch.RunHandler, Dispatch.Conceal,
      Dispatch.Capture;
    Dispatch.PerformFrames(env, op, core, retried, call, mode);
  }

  lemma RefusedTrail(env: Env, op: Operation, core: Core, retried: bool, call: ToolCall, t: Trail)
    requires NumericFault(op, call.args) && Followed(env, op, core, retried, call, Float, t)
    ensures t.checked.skip && t.done.core == core && ShowsRefusal(RefusedName(op, call.args), t.done)
  {
    hide Dispatch.Validate, Dispatch.Authorize, Dispatch.Inject, Dispatch.RunHandler, Dispatch.Conceal,
      Dispatch.Capture, ErrorDoc;
    SkipPersists(env, op, call, Float, Dispatch.CheckSchema(op, call.args, Float, Dispatch.Begin(core)));
    TrailGrows(env, op, core, retried, call, Float, t);
  }

  /** A refused call is repeated exactly when it is refused again. */
  lemma RefusalRepeatsIff(env: Env, db: Db, call: ToolCall)
    requires HandlersTell(env) && RefusedNumber(env, call) && call.id !in db.core.results
    ensures var op := FindOp(env.operations, call.op).value;
            Repeats(env, db, call) <==> RefusedAgain(env, op, Raised(env, db).core, Retried(db.ledger), call)
  {
    hide HandlersTell, NumericFault, Dispatch.Invoke, Followed, RefusedAgain, RaisedRows, ErrorDoc, RefusedName,
      ShowsRefusal, Retried;
    var op, core, retried := FindOp(env.operations, call.op).value, Raised(env, db).core, Retried(db.ledger);
    RefusalIsImmediate(env, db.core, retried, call);
    var f, t := CommitTrail(env, db.core, retried, call, Float);
    RefusedTrail(env, op, db.core, retried, call, t);
    TrailIsInner(env, op, db.core, retried, call, Float, t);
    if Repeats(env, db, call) {
      var g, u := CommitTrail(env, core, retried, call, Literal);
      TrailIsInner(env, op, core, retried, call, Literal, u);
      CommitTells(call, t.done, u.done);
      SameRefusal(RefusedName(op, call.args), t.done, u.done);
      ShownRefusalIsAgain(env, op, core, retried, call, u);
    } else if RefusedAgain(env, op, core, retried, call) {
      RefusedAgainAnswers(env, op, core, retried, call);
      PerformedCommits(env, op, core, retried, call, Literal);
      var d := Dispatch.Perform(env, op, core, retried, call, Literal).value;
      SameRefusalEvents(RefusedName(op, call.args), call, t.done, d);
    }
  }

  lemma SameRefusal(name: string, d: Dispatch.Draft, e: Dispatch.Draft)
    requires ShowsRefusal(name, d) && e.events == d.events && e.mutation == d.mutation && e.status == d.status
             && e.body == d.body
    ensures ShowsRefusal(name, e)
  {
  }

  lemma SameRefusalEvents(name: string, call: ToolCall, d: Dispatch.Draft, e: Dispatch.Draft)
    requires ShowsRefusal(name, d) && ShowsRefusal(name, e)
    ensures Dispatch.Commit(call, d).events == Dispatch.Commit(call, e).events
  {
    hide ErrorDoc;
  }

  lemma PerformedCommits(env: Env, op: Operation, core: Core, retried: bool, call: ToolCall, mode: NumberMode)
    requires call.id !in core.results && FindOp(env.operations, call.op) == Some(op)
             && Dispatch.Perform(env, op, core, retried, call, mode).Ok?
    ensures Dispatch.Invoke(env, core, retried, call, mode)
         == Dispatch.Commit(call, Dispatch.Perform(env, op, core, retried, call, mode).value)
  {
    hide Dispatch.Perform, Dispatch.Commit;
  }

  /** What a repeated call leaves behind are the run's rows, raised by one refused call or not at all. */
  lemma RepeatStaysRaised(env: Env, db: Db, call: ToolCall)
    requires ValidPolicy(env) && HandlersTell(env) && Repeats(env, db, call)
    ensures var a := Dispatch.Invoke(env, db.core, Retried(db.ledger), call, Float);
            var l := Dispatch.Invoke(env, Raised(env, db).core, Retried(db.ledger), call, Literal);
            Raised(env, Db(db.status, db.ledger + a.events, a.core)) == Db(db.status, db.ledger + l.events, l.core)
  {
    hide ValidPolicy, HandlersTell, NumericFault, Dispatch.Invoke, Followed, RaisedRows, Moved, Pick, Retried,
      Dispatch.IsBracket;
    var core, retried := Raised(env, db).core, Retried(db.ledger);
    var op, t := CommitTrail(env, db.core, retried, call, Float);
    var g, u := CommitTrail(env, core, retried, call, Literal);
    TrailIsInner(env, op, db.core, retried, call, Float, t);
    TrailIsInner(env, op, core, retried, call, Literal, u);
    CommitTells(call, t.done, u.done);
    TrailMoves(env, op, db.core, retried, call, Float, t);
    TrailMoves(env, op, core, retried, call, Literal, u);
    TrailsStayApart(env, op, db.core, core.chaos.rules, retried, call, t, u);
    var events := Dispatch.Commit(call, t.done).events;
    Dispatch.CommitIsBracket(call, db.core, t.done);
    CallExtra(env, op, call, events, t.done.status, t.done.body, t.checked.skip, u.checked.skip);
    RowsStayRaised(env, db.ledger, events, db.core.chaos.rules, t.done.core.chaos.rules, u.done.core.chaos.rules,
                   call.op, !t.checked.skip, !u.checked.skip, Pick(Injections, t.done.events));
  }

  /**
    Apart from the counters, two dispatches that record the same end alike; only a refused
    call is seen by more rules.
   */
  lemma TrailsStayApart(env: Env, op: Operation, core: Core, rows: map<string, RuleRow>, retried: bool, call: ToolCall,
                        t: Trail, u: Trail)
    requires ValidPolicy(env) && HandlersTell(env)
    requires Followed(env, op, core, retried, call, Float, t)
             && Followed(env, op, WithRows(core, rows), retried, call, Literal, u)
    requires t.done.events == u.done.events && t.done.mutation == u.done.mutation && t.done.status == u.done.status
             && t.done.body == u.done.body
    ensures u.done.core == WithRows(t.done.core, u.done.core.chaos.rules)
    ensures u.checked.skip == if NumericFault(op, call.args) then env.config.authPolicy.Some? else t.checked.skip
    ensures NumericFault(op, call.args) ==> t.checked.skip
  {
    hide ValidPolicy, HandlersTell, NumericFault, Followed, RefusedAgain, ErrorDoc, RefusedName, ShowsRefusal;
    if NumericFault(op, call.args) {
      RefusedTrail(env, op, core, retried, call, t);
      SameRefusal(RefusedName(op, call.args), t.done, u.done);
      ShownRefusalIsAgain(env, op, WithRows(core, rows), retried, call, u);
      RefusedAgainAnswers(env, op, WithRows(core, rows), retried, call);
      TrailPerforms(env, op, WithRows(core, rows), retried, call, Literal, u);
      RefusedAgainSkips(env, op, WithRows(core, rows), retried, call, u);
    } else {
      SameEventsAlike(env, op, core, rows, retried, call, t, u);
    }
  }

  lemma TrailPerforms(env: Env, op: Operation, core: Core, retried: bool, call: ToolCall, mode: NumberMode, t: Trail)
    requires Followed(env, op, core, retried, call, mode, t)
    ensures Dispatch.Perform(env, op, core, retried, call, mode) == Ok(t.done)
  {
    hide Dispatch.Authorize, Dispatch.CheckSchema, Dispatch.Inject, Dispatch.RunHandler, Dispatch.Conceal,
      Dispatch.Capture;
  }

  lemma RefusedAgainSkips(env: Env, op: Operation, core: Core, retried: bool, call: ToolCall, u: Trail)
    requires NumericFault(op, call.args) && RefusedAgain(env, op, core, retried, call)
             && Followed(env, op, core, retried, call, Literal, u)
    ensures u.checked.skip <==> env.config.authPolicy.Some?
  {
    hide Dispatch.Validate, NumericFault, Dispatch.Authorize, Dispatch.Inject, Dispatch.RunHandler, Dispatch.Conceal,
      Dispatch.Capture, ErrorDoc, Authz.Decide;
    if env.config.authPolicy.Some? {
      CheckedEvents(env, op, core, call, Literal);
      JudgedIsValid(env, op, core, call);
    } else {
      UnenforcedChecks(env, op, core, call);
    }
  }

  lemma JudgedIsValid(env: Env, op: Operation, core: Core, call: ToolCall)
    requires env.config.authPolicy.Some? && !env.handlerValid(op.behavior, call.args, Literal)
    ensures Authz.Decide(env, core.world, op, call.args, Literal, core.authCalls).0.Invalid?
  {
  }

  lemma CallExtra(env: Env, op: Operation, call: ToolCall, events: seq<Event>, status: int, body: Json, skipped: bool,
                  again: bool)
    requires FindOp(env.operations, call.op) == Some(op) && Dispatch.IsBracket(call, events, status, body)
    requires again == if NumericFault(op, call.args) then env.config.authPolicy.Some? else skipped
    requires NumericFault(op, call.args) ==> skipped
    ensures forall id :: Extra(env, events, id)
                 == if !again && skipped && Chaos.MatchesSome(Policy(env), call.op, id) then 1 else 0
    ensures again ==> skipped
  {
    hide NumericFault, Extra, Dispatch.IsBracket, Chaos.MatchesSome;
    forall id
      ensures Extra(env, events, id)
           == if !again && skipped && Chaos.MatchesSome(Policy(env), call.op, id) then 1 else 0
    {
      BracketExtra(env, call, events, status, body, id);
    }
  }

  // Calls the runner accepted ---------------------------------------------------------------------

  /** The handler runs, and not to a success with a mutation. */
  predicate NothingToHide(env: Env, op: Operation, core: Core, call: ToolCall) {
    && !Faulted(env, call, core)
    && var o := env.handler(core.world, env.config.runId, call.id, op.behavior, call.args, Float);
       o.Some? && !(Dispatch.Success(o.value.status) && o.value.mutation.Some?)
  }

  /**
    The injection a call records once it has passed the checks: that of the first active
    rule, unless it is given back.
   */
  function Injected(env: Env, op: Operation, core: Core, call: ToolCall): Option<Event> {
    if env.config.chaosPolicy.None? then None else
      var d := DecisionOf(env, core, call);
      if d.selected.None? || (d.selected.value.kind.TimeoutAfterCommit? && NothingToHide(env, op, core, call)) then None
      else Some(Dispatch.Injection(call, d))
  }

  lemma UnenforcedStarts(env: Env, op: Operation, core: Core, retried: bool, call: ToolCall, t: Trail)
    requires env.config.authPolicy.None? && Dispatch.Validate(op, call.args, Float).None?
             && Followed(env, op, core, retried, call, Float, t)
    ensures t.checked == Dispatch.Begin(core)
  {
    hide Dispatch.Validate, Dispatch.Inject, Dispatch.RunHandler, Dispatch.Conceal, Dispatch.Capture;
  }

  /** A silent rule is given back exactly when there is nothing to hide. */
  lemma SilentGivesBack(env: Env, op: Operation, call: ToolCall, retried: bool, core: Core, d: Dispatch.Draft)
    requires d == Dispatch.Begin(core).(core := WithRows(core, d.core.chaos.rules), decision := d.decision)
    requires Silent(d.decision) && Dispatch.RunHandler(env, op, call, retried, Float, d).Ok?
    ensures var h := Dispatch.RunHandler(env, op, call, retried, Float, d).value;
            h.decision == d.decision
            && (GivesBack(h) <==> d.decision.selected.None? || NothingToHide(env, op, core, call))
  {
    hide ErrorDoc;
  }

  /** Both dispatches give the same injection, so the second goes like the first. */
  lemma SameInjectionCommits(env: Env, op: Operation, core: Core, rows: map<string, RuleRow>, retried: bool,
                             call: ToolCall, t: Trail)
    requires ValidPolicy(env) && env.config.authPolicy.None? && env.config.chaosPolicy.Some?
    requires Dispatch.Validate(op, call.args, Float).None? && Followed(env, op, core, retried, call, Float, t)
    requires Injected(env, op, core, call) == Injected(env, op, WithRows(core, rows), call)
    ensures var r := Dispatch.Perform(env, op, WithRows(core, rows), retried, call, Float);
            r.Ok? && Alike(t.done, r.value)
  {
    hide ValidPolicy, Dispatch.Validate, Dispatch.Authorize, Dispatch.Inject, Dispatch.RunHandler, Dispatch.Conceal,
      Dispatch.Capture, Chaos.DecideOn, NothingToHide, GivesBack;
    var again := WithRows(core, rows);
    UnenforcedStarts(env, op, core, retried, call, t);
    FloatChecks(env, op, again, call);
    var d, e := Dispatch.Begin(core), Dispatch.Begin(again);
    var a, b := DecisionOf(env, core, call), DecisionOf(env, again, call);
    SameInjectionPicks(env, op, core, rows, call);
    InjectAlike(env, call, d, e);
    InjectAlike(env, call, d, d);
    var i := Dispatch.Inject(env, call, e).value;
    HandledAlike(env, op, call, retried, Float, Float, t.injected, i);
    var h := Dispatch.RunHandler(env, op, call, retried, Float, i).value;
    if !SamePick(a, b) {
      SilentInjects(env, call, d);
      SilentInjects(env, call, e);
      SilentGivesBack(env, op, call, retried, core, t.injected);
      SilentGivesBack(env, op, call, retried, again, i);
      SameHiding(env, op, core, rows, call);
    } else {
      HandledAlike(env, op, call, retried, Float, Float, t.injected, t.injected);
    }
    ConcealAlike(op, call, t.handled, h);
  }

  lemma SameHiding(env: Env, op: Operation, core: Core, rows: map<string, RuleRow>, call: ToolCall)
    ensures NothingToHide(env, op, core, call) == NothingToHide(env, op, WithRows(core, rows), call)
  {
  }

  lemma FloatChecks(env: Env, op: Operation, core: Core, call: ToolCall)
    requires env.config.authPolicy.None? && Dispatch.Validate(op, call.args, Float).None?
    ensures Dispatch.Authorize(env, op, call, Float, Dispatch.CheckSchema(op, call.args, Float, Dispatch.Begin(core)))
         == Dispatch.Begin(core)
  {
    hide Dispatch.Validate;
  }

  lemma SameInjectionPicks(env: Env, op: Operation, core: Core, rows: map<string, RuleRow>, call: ToolCall)
    requires ValidPolicy(env) && env.config.chaosPolicy.Some?
    requires Injected(env, op, core, call) == Injected(env, op, WithRows(core, rows), call)
    ensures var a, b := DecisionOf(env, core, call), DecisionOf(env, WithRows(core, rows), call);
            || SamePick(a, b)
            || (&& Silent(a) && Silent(b)
                && (a.selected.Some? || b.selected.Some? ==> NothingToHide(env, op, core, call)))
  {
    hide ValidPolicy, Chaos.DecideOn, NothingToHide;
    SameHiding(env, op, core, rows, call);
    var a, b := DecisionOf(env, core, call), DecisionOf(env, WithRows(core, rows), call);
    if Injected(env, op, core, call).Some? {
      var i := SelectedIsFirstActive(env, core, call);
      var j := SelectedIsFirstActive(env, WithRows(core, rows), call);
      SameRule(env, a.selected.value, b.selected.value);
    }
  }

  /** Conversely, the same recorded injections come from the same injection. */
  lemma SameRecordedInjection(env: Env, op: Operation, core: Core, rows: map<string, RuleRow>, retried: bool,
                              call: ToolCall, t: Trail, u: Trail)
    requires ValidPolicy(env) && env.config.authPolicy.None? && env.config.chaosPolicy.Some?
    requires Dispatch.Validate(op, call.args, Float).None?
    requires Followed(env, op, core, retried, call, Float, t)
             && Followed(env, op, WithRows(core, rows), retried, call, Float, u)
    requires t.done.events == u.done.events
    ensures Injected(env, op, core, call) == Injected(env, op, WithRows(core, rows), call)
  {
    hide ValidPolicy, Dispatch.Validate, Dispatch.Authorize, Dispatch.Inject, Dispatch.RunHandler, Dispatch.Conceal,
      Dispatch.Capture, Dispatch.CheckSchema, Chaos.DecideOn, NothingToHide, GivesBack, Pick;
    var again := WithRows(core, rows);
    UnenforcedStarts(env, op, core, retried, call, t);
    UnenforcedStarts(env, op, again, retried, call, u);
    PicksAgree(env, op, core, rows, retried, call, Float, t, Float, u);
    SameHiding(env, op, core, rows, call);
    if !SamePick(DecisionOf(env, core, call), DecisionOf(env, again, call)) {
      SilentInjects(env, call, Dispatch.Begin(core));
      SilentInjects(env, call, Dispatch.Begin(again));
      SilentGivesBack(env, op, call, retried, core, t.injected);
      SilentGivesBack(env, op, call, retried, again, u.injected);
    }
  }

  /**
    An accepted call that reads alike from both decoders is repeated exactly when the raised
    counters give it the injection it had: the same rule with the same number, or none.
   */
  lemma AcceptedRepeatsIff(env: Env, db: Db, call: ToolCall)
    requires ValidPolicy(env) && !RefusedNumber(env, call) && !ReadApart(env, call)
    requires Dispatch.Invoke(env, db.core, Retried(db.ledger), call, Float).Committed?
    ensures var op := FindOp(env.operations, call.op).value;
            Repeats(env, db, call) <==>
              (Dispatch.Validate(op, call.args, Float).None? ==>
                 Injected(env, op, db.core, call) == Injected(env, op, Raised(env, db).core, call))
  {
    hide ValidPolicy, RefusedNumber, ReadApart, Dispatch.Invoke, Dispatch.Validate, Followed, Injected, RaisedRows,
      Retried;
    var core, retried := Raised(env, db).core, Retried(db.ledger);
    InvokeModesAgree(env, core, retried, call);
    var op, t := CommitTrail(env, db.core, retried, call, Float);
    if env.config.authPolicy.Some? {
      EnforcedIsNotRaised(env, db);
    } else if Dispatch.Validate(op, call.args, Float).Some? {
      FaultyCommits(env, op, db.core, core.chaos.rules, retried, call, t);
      PerformedCommits(env, op, core, retried, call, Float);
      AlikeCommits(call, t.done, Dispatch.Perform(env, op, core, retried, call, Float).value);
    } else if env.config.chaosPolicy.None? {
      NoPolicyNotRaised(env, db);
    } else {
      if Injected(env, op, db.core, call) == Injected(env, op, core, call) {
        SameInjectionCommits(env, op, db.core, core.chaos.rules, retried, call, t);
        PerformedCommits(env, op, core, retried, call, Float);
        AlikeCommits(call, t.done, Dispatch.Perform(env, op, core, retried, call, Float).value);
      }
      if Repeats(env, db, call) {
        var g, u := CommitTrail(env, core, retried, call, Float);
        TrailIsInner(env, op, db.core, retried, call, Float, t);
        TrailIsInner(env, op, core, retried, call, Float, u);
        CommitTells(call, t.done, u.done);
        SameRecordedInjection(env, op, db.core, core.chaos.rules, retried, call, t, u);
      }
    }
  }

  lemma AlikeCommits(call: ToolCall, d: Dispatch.Draft, e: Dispatch.Draft)
    requires Alike(d, e)
    ensures Dispatch.Commit(call, d).events == Dispatch.Commit(call, e).events
  {
  }

  lemma FaultyCommits(env: Env, op: Operation, core: Core, rows: map<string, RuleRow>, retried: bool, call: ToolCall,
                      t: Trail)
    requires Dispatch.Validate(op, call.args, Float).Some? && Followed(env, op, core, retried, call, Float, t)
    ensures var r := Dispatch.Perform(env, op, WithRows(core, rows), retried, call, Float);
            r.Ok? && Alike(t.done, r.value)
  {
    hide Dispatch.Validate, Dispatch.Authorize, Dispatch.Inject, Dispatch.Conceal, Dispatch.Capture, ErrorDoc;
    var d := Dispatch.CheckSchema(op, call.args, Float, Dispatch.Begin(core));
    var e := Dispatch.CheckSchema(op, call.args, Float, Dispatch.Begin(WithRows(core, rows)));
    SkipPersists(env, op, call, Float, d);
    SkipPersists(env, op, call, Float, e);
    StoppedCommits(op, call, d);
    StoppedCommits(op, call, e);
  }

  lemma NoPolicyNotRaised(env: Env, db: Db)
    requires env.config.chaosPolicy.None?
    ensures Raised(env, db) == db
  {
    hide RaisedRows, RefusedNumber;
    CountersAreTheRuns(env, db);
  }
}
