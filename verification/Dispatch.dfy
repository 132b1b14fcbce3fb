/**
  The tool transaction. `Invoke` is the whole transaction as one function of the
  run's rows: it either commits new rows together with the ledger events of one
  call, answers from the saved results, or aborts and leaves no trace.
 */
module Dispatch {
  import opened Basics
  import opened Protocol
  import Authz
  import Chaos

  // Argument validation ----------------------------------------------------

  function FirstMissing(required: seq<string>, args: Args): Option<Fault> {
    if required == [] then None
    else if required[0] !in args then Some(MissingArgument(required[0]))
    else FirstMissing(required[1..], args)
  }

  function ArgumentFault(op: Operation, name: string, value: Json, mode: NumberMode): Option<Fault> {
    if name !in op.properties then Some(UnexpectedArgument(name))
    else match op.properties[name]
      case StringArg => if value.Str? && value.s != "" then None else Some(InvalidArgument(name))
      case IntegerArg =>
        if value.Num? && (mode.Literal? || Whole(value.n).Some?) then None else Some(InvalidArgument(name))
      case OtherArg => None
  }

  function FirstFault(names: seq<string>, op: Operation, args: Args, mode: NumberMode): Option<Fault>
    requires forall name | name in names :: name in args
  {
    if names == [] then None
    else
      var fault := ArgumentFault(op, names[0], args[names[0]], mode);
      if fault.Some? then fault else FirstFault(names[1..], op, args, mode)
  }

  function Validate(op: Operation, args: Args, mode: NumberMode): Option<Fault> {
    var missing := FirstMissing(op.required, args);
    if missing.Some? then missing else FirstFault(SortedNames(args.Keys), op, args, mode)
  }

  /** Arguments pass exactly when nothing required is missing and every argument is declared and well typed. */
  lemma ValidateAccepts(op: Operation, args: Args, mode: NumberMode)
    ensures Validate(op, args, mode).None? <==>
            && (forall name | name in op.required :: name in args)
            && (forall name | name in args :: ArgumentFault(op, name, args[name], mode).None?)
  {
    FirstMissingNone(op.required, args);
    FirstFaultNone(SortedNames(args.Keys), op, args, mode);
  }

  lemma {:induction false} FirstMissingNone(required: seq<string>, args: Args)
    ensures FirstMissing(required, args).None? <==> forall name | name in required :: name in args
  {
    if required != [] {
      FirstMissingNone(required[1..], args);
      assert required == [required[0]] + required[1..];
    }
  }

  lemma {:induction false} FirstFaultNone(names: seq<string>, op: Operation, args: Args, mode: NumberMode)
    requires forall name | name in names :: name in args
    ensures FirstFault(names, op, args, mode).None? <==>
            forall name | name in names :: ArgumentFault(op, name, args[name], mode).None?
  {
    if names != [] {
      FirstFaultNone(names[1..], op, args, mode);
      assert names == [names[0]] + names[1..];
    }
  }

  method CheckArguments(op: Operation, args: Args, mode: NumberMode) returns (fault: Option<Fault>)
    ensures fault == Validate(op, args, mode)
  {
    for i := 0 to |op.required|
      invariant FirstMissing(op.required, args) == FirstMissing(op.required[i..], args)
    {
      if op.required[i] !in args {
        return Some(MissingArgument(op.required[i]));
      }
      assert op.required[i..][1..] == op.required[i + 1..];
    }
    var names := SortedNames(args.Keys);
    for i := 0 to |names|
      invariant FirstFault(names, op, args, mode) == FirstFault(names[i..], op, args, mode)
    {
      fault := ArgumentFault(op, names[i], args[names[i]], mode);
      if fault.Some? {
        return;
      }
      assert names[i..][1..] == names[i + 1..];
    }
    fault := None;
  }

  // The transaction, stage by stage ----------------------------------------

  /** The transaction's workspace between stages. */
  datatype Draft = Draft(
    events: seq<Event>, status: int, body: Json, mutation: Option<Json>,
    skip: bool, ran: bool, core: Core, decision: Chaos.Decision)

  datatype Attempt =
    | Committed(core: Core, events: seq<Event>)
    | Cached(saved: Saved)
    | Rejected(reason: Failure)

  predicate Success(status: int) {
    200 <= status < 300
  }

  function Begin(core: Core): Draft {
    Draft([], 0, Null, None, false, false, core, Chaos.Decision(None, 0, [], core.chaos.rules))
  }

  function Answer(d: Draft, status: int, error: Fault): Draft {
    d.(status := status, body := ErrorDoc(error), skip := true)
  }

  function CheckSchema(op: Operation, args: Args, mode: NumberMode, d: Draft): Draft {
    match Validate(op, args, mode)
    case Some(fault) => Answer(d, 400, fault)
    case None => d
  }

  function AuthEvent(call: ToolCall, v: Authz.Verdict): Event
    requires v.Judged?
  {
    if v.Allowed() then AuthAllowed(call.id, call.op, v.principal, v.permission, v.call)
    else AuthDenied(call.id, call.op, v.principal, v.permission, v.call, v.reason)
  }

  function Authorize(env: Env, op: Operation, call: ToolCall, mode: NumberMode, d: Draft): Draft {
    if d.skip then d else
      var (v, used) := Authz.Decide(env, d.core.world, op, call.args, mode, d.core.authCalls);
      var d1 := d.(core := d.core.(authCalls := used));
      match v
      case Unenforced => d1
      case Invalid(_) => Answer(d1, 400, InvalidArguments)
      case Judged(_, _, reason, _) =>
        var d2 := d1.(events := d1.events + [AuthEvent(call, v)]);
        if v.Allowed() then d2 else Answer(d2, 403, AuthorizationDenied(reason))
  }

  function Injection(call: ToolCall, d: Chaos.Decision): Event
    requires d.selected.Some?
  {
    ChaosInjected(d.selected.value.id, d.selected.value.kind, call.id, call.op, d.matching)
  }

  /** The effects that only take place once the handler has run. */
  predicate PostEffect(d: Chaos.Decision) {
    d.selected.Some? && (d.selected.value.kind.TimeoutAfterCommit? || d.selected.value.kind.MalformedResponse?)
  }

  function InvokeActor(env: Env, rule: Rule, matching: nat, d: Draft): Tx<Draft>
    requires rule.kind.ConcurrentMutation?
  {
    var actor := rule.kind.actor;
    match FindOp(env.operations, actor.op)
    case None => Abort(ActorUnavailable)
    case Some(op) =>
      if !op.verb.Post? then Abort(ActorUnavailable) else
        match env.handler(d.core.world, ActorRun(env.config.runId), ActorCall(rule.id, matching), op.behavior,
                          actor.args, Float)
        case None => Abort(ActorFailed)
        case Some(o) =>
          if !Success(o.status) || o.mutation.None? then Abort(ActorDidNotMutate)
          else Ok(d.(core := d.core.(world := o.world),
                     events := d.events + [ActorMutation(rule.id, actor.op, o.status, o.mutation.value)]))
  }

  function ActorRun(runId: string): string {
    runId + "-chaos-actor"
  }

  function ActorCall(rule: string, matching: nat): string {
    rule + "-" + Decimal(matching)
  }

  /** The effect of a selected rule before the handler runs. */
  function ApplyEffect(env: Env, call: ToolCall, decision: Chaos.Decision, d: Draft): Tx<Draft>
    requires decision.selected.Some?
  {
    var rule := decision.selected.value;
    match rule.kind
    case HttpError(status) => Ok(Answer(d, status, SimulatedHttpFailure))
    case Timeout => Ok(Answer(d, 0, SimulatedTransportTimeout))
    case RateLimit => Ok(Answer(d, 429, SimulatedRateLimit))
    case PermissionRevocation => Ok(Answer(d, 403, SimulatedPermissionRevocation))
    case PartialOutage => Ok(Answer(d, 503, SimulatedServiceOutage))
    case Latency(_) => Ok(d)
    case StaleRead =>
      var key := SnapshotKey(rule.id, call.op, call.args);
      if key in d.core.chaos.snapshots then
        var seen := d.core.chaos.snapshots[key];
        Ok(d.(status := seen.status, body := seen.body, skip := true))
      else Abort(SnapshotMissing)
    case TimeoutAfterCommit => Ok(d)
    case MalformedResponse(_) => Ok(d)
    case ConcurrentMutation(_) => Ok(d)
  }

  function Inject(env: Env, call: ToolCall, d: Draft): Tx<Draft> {
    if d.skip || env.config.chaosPolicy.None? then Ok(d) else
      var chaos := d.core.chaos;
      var decision := Chaos.DecideOn(env.config.chaosPolicy.value, chaos.rules, chaos.snapshots, call.op, call.args);
      var d1 := d.(core := d.core.(chaos := chaos.(rules := decision.rows)), decision := decision);
      if decision.selected.None? then Ok(d1) else
        var d2 :- ApplyEffect(env, call, decision, d1);
        var d3 := if PostEffect(decision) then d2 else d2.(events := d2.events + [Injection(call, decision)]);
        if decision.selected.value.kind.ConcurrentMutation?
        then InvokeActor(env, decision.selected.value, decision.matching, d3)
        else Ok(d3)
  }

  /** The injected 503, or the handler; `retried` says the ledger already holds a retry event. */
  function RunHandler(env: Env, op: Operation, call: ToolCall, retried: bool, mode: NumberMode, d: Draft): Tx<Draft> {
    if d.skip then Ok(d)
    else if env.config.faultOp == call.op && !d.core.faultConsumed then
      Ok(d.(status := 503, body := ErrorDoc(InjectedUnavailability),
            core := d.core.(faultConsumed := true), events := d.events + [Error(Injected503(call.id))]))
    else
      var retry := if env.config.faultOp == call.op && !retried then [Retry(call.id, call.op)] else [];
      match env.handler(d.core.world, env.config.runId, call.id, op.behavior, call.args, mode)
      case None => Abort(HandlerFailed)
      case Some(o) =>
        Ok(d.(status := o.status, body := o.body, mutation := o.mutation, ran := true,
              core := d.core.(world := o.world), events := d.events + retry))
  }

  function Capture(op: Operation, call: ToolCall, d: Draft): Draft {
    if d.ran && Success(d.status) && op.verb.Get? then
      var chaos := d.core.chaos;
      d.(core := d.core.(chaos := chaos.(snapshots :=
           Chaos.SaveSnapshots(chaos.snapshots, d.decision.captures, call.op, call.args, Observed(d.status, d.body)))))
    else d
  }

  /** Whether a post effect takes hold: a commit timeout needs a committed mutation to hide. */
  predicate Hides(d: Draft)
    requires PostEffect(d.decision)
  {
    d.decision.selected.value.kind.TimeoutAfterCommit? ==> Success(d.status) && d.mutation.Some?
  }

  function Conceal(call: ToolCall, d: Draft): Tx<Draft> {
    if !PostEffect(d.decision) then Ok(d)
    else if !d.ran then Abort(HandlerDidNotRun)
    else
      var rule := d.decision.selected.value;
      var chaos := d.core.chaos;
      if !Hides(d) then
        var row := Chaos.RowOf(chaos.rules, rule.id);
        Ok(d.(core := d.core.(chaos :=
            chaos.(rules := chaos.rules[rule.id := row.(injections := row.injections - 1)]))))
      else
        var hidden := chaos.hidden[call.id := HiddenOutcome(rule.id, Observed(d.status, d.body))];
        var d1 := d.(core := d.core.(chaos := chaos.(hidden := hidden)),
                     events := d.events + [Injection(call, d.decision)]);
        if rule.kind.TimeoutAfterCommit? then Ok(d1.(status := 0, body := ErrorDoc(SimulatedTransportTimeout)))
        else Ok(d1.(body := Str(rule.kind.body)))
  }

  function MutationEvents(mutation: Option<Json>): seq<Event> {
    if mutation.Some? then [Mutation(mutation.value)] else []
  }

  function ResponseOf(call: ToolCall, d: Draft): Event {
    ToolResponse(call.id, call.op, d.status, d.body)
  }

  /**
    Save the result, append the tool message and close the bracket of events. The
    transcript is decoded and encoded again, which respells every number in it.
   */
  function Commit(call: ToolCall, d: Draft): Attempt {
    Committed(
      d.core.(
        results := d.core.results[call.id := Saved(call.op, call.args, d.status, d.body)],
        transcript := PlainAll(d.core.transcript) + [Tool(call.id, call.op, d.status, d.body)]),
      [ToolRequest(call)] + (d.events + MutationEvents(d.mutation)) + [ResponseOf(call, d)])
  }

  /** Everything between the cache lookup and the commit. */
  function Perform(env: Env, op: Operation, core: Core, retried: bool, call: ToolCall, mode: NumberMode): Tx<Draft> {
    var checked := Authorize(env, op, call, mode, CheckSchema(op, call.args, mode, Begin(core)));
    var injected :- Inject(env, call, checked);
    var handled :- RunHandler(env, op, call, retried, mode, injected);
    Conceal(call, Capture(op, call, handled))
  }

  function Invoke(env: Env, core: Core, retried: bool, call: ToolCall, mode: NumberMode): Attempt {
    if call.id in core.results then
      var saved := core.results[call.id];
      if saved.op != call.op || saved.args != call.args then Rejected(CallReused)
      else Cached(saved)
    else match FindOp(env.operations, call.op)
      case None => Rejected(OperationNotCompiled)
      case Some(op) =>
        match Perform(env, op, core, retried, call, mode)
        case Abort(reason) => Rejected(reason)
        case Ok(d) => Commit(call, d)
  }

  // What every stage leaves alone -------------------------------------------

  predicate AllInner(events: seq<Event>) {
    forall e | e in events :: IsInner(e) && !e.Mutation?
  }

  /** The stages never touch the step, the transcript or the saved results, and only add bracket events. */
  predicate Framed(core: Core, d: Draft) {
    && d.core.step == core.step && d.core.transcript == core.transcript && d.core.results == core.results
    && AllInner(d.events)
  }

  lemma AuthorizeFrames(env: Env, op: Operation, call: ToolCall, mode: NumberMode, core: Core, d: Draft)
    requires Framed(core, d)
    ensures Framed(core, Authorize(env, op, call, mode, d))
  {
  }

  lemma ApplyEffectFrames(env: Env, call: ToolCall, decision: Chaos.Decision, core: Core, d: Draft)
    requires Framed(core, d) && decision.selected.Some?
    ensures var r := ApplyEffect(env, call, decision, d); r.Ok? ==> Framed(core, r.value)
  {
  }

  lemma InjectFrames(env: Env, call: ToolCall, core: Core, d: Draft)
    requires Framed(core, d)
    ensures var r := Inject(env, call, d); r.Ok? ==> Framed(core, r.value)
  {
    if !d.skip && env.config.chaosPolicy.Some? {
      var chaos := d.core.chaos;
      var decision := Chaos.DecideOn(env.config.chaosPolicy.value, chaos.rules, chaos.snapshots, call.op, call.args);
      var d1 := d.(core := d.core.(chaos := chaos.(rules := decision.rows)), decision := decision);
      if decision.selected.Some? {
        ApplyEffectFrames(env, call, decision, core, d1);
      }
    }
  }

  lemma RunHandlerFrames(env: Env, op: Operation, call: ToolCall, retried: bool, mode: NumberMode, core: Core, d: Draft)
    requires Framed(core, d)
    ensures var r := RunHandler(env, op, call, retried, mode, d); r.Ok? ==> Framed(core, r.value)
  {
  }

  lemma ConcealFrames(op: Operation, call: ToolCall, core: Core, d: Draft)
    requires Framed(core, d)
    ensures var r := Conceal(call, Capture(op, call, d)); r.Ok? ==> Framed(core, r.value)
  {
  }

  lemma PerformFrames(env: Env, op: Operation, core: Core, retried: bool, call: ToolCall, mode: NumberMode)
    ensures var r := Perform(env, op, core, retried, call, mode); r.Ok? ==> Framed(core, r.value)
  {
    var d0 := CheckSchema(op, call.args, mode, Begin(core));
    AuthorizeFrames(env, op, call, mode, core, d0);
    var d1 := Authorize(env, op, call, mode, d0);
    InjectFrames(env, call, core, d1);
    var r2 := Inject(env, call, d1);
    if r2.Ok? {
      RunHandlerFrames(env, op, call, retried, mode, core, r2.value);
      var r3 := RunHandler(env, op, call, retried, mode, r2.value);
      if r3.Ok? {
        ConcealFrames(op, call, core, r3.value);
      }
    }
  }

  /** The events of one call: a request, bracket events with at most one mutation, the matching response. */
  predicate IsBracket(call: ToolCall, events: seq<Event>, status: int, body: Json) {
    && |events| >= 2
    && events[0] == ToolRequest(call)
    && events[|events| - 1] == ToolResponse(call.id, call.op, status, body)
    && (forall e | e in events[1..|events| - 1] :: IsInner(e))
    && forall i, j | 1 <= i < j < |events| :: !(events[i].Mutation? && events[j].Mutation?)
  }

  lemma InvokeCommits(env: Env, core: Core, retried: bool, call: ToolCall, mode: NumberMode)
    returns (op: Operation, d: Draft)
    requires Invoke(env, core, retried, call, mode).Committed?
    ensures call.id !in core.results
    ensures FindOp(env.operations, call.op) == Some(op)
    ensures Perform(env, op, core, retried, call, mode) == Ok(d)
    ensures Framed(core, d) && Invoke(env, core, retried, call, mode) == Commit(call, d)
  {
    op := FindOp(env.operations, call.op).value;
    PerformFrames(env, op, core, retried, call, mode);
    d := Perform(env, op, core, retried, call, mode).value;
  }

  lemma CommitIsBracket(call: ToolCall, core: Core, d: Draft)
    requires Framed(core, d)
    ensures IsBracket(call, Commit(call, d).events, d.status, d.body)
  {
    var tail := MutationEvents(d.mutation);
    var events := Commit(call, d).events;
    var inner := d.events + tail;
    assert events == [ToolRequest(call)] + inner + [ResponseOf(call, d)];
    assert events[1..|events| - 1] == inner;
    forall i | 1 <= i < |events| && i != |d.events| + 1
      ensures !events[i].Mutation?
    {
      if i <= |d.events| {
        assert events[i] == d.events[i - 1];
      }
    }
  }

  /**
    A committed call adds exactly one saved result, one tool message and one
    bracket of events, all carrying the same status and body.
   */
  lemma InvokeAgrees(env: Env, core: Core, retried: bool, call: ToolCall, mode: NumberMode)
    returns (status: int, body: Json)
    requires Invoke(env, core, retried, call, mode).Committed?
    ensures call.id !in core.results
    ensures var a := Invoke(env, core, retried, call, mode);
            && IsBracket(call, a.events, status, body)
            && a.core.step == core.step
            && a.core.transcript == PlainAll(core.transcript) + [Tool(call.id, call.op, status, body)]
            && a.core.results == core.results[call.id := Saved(call.op, call.args, status, body)]
  {
    var _, d := InvokeCommits(env, core, retried, call, mode);
    CommitIsBracket(call, core, d);
    status, body := d.status, d.body;
  }
}
