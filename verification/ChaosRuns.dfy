/** Chaos accounting over every run: counters, one lawful injection per call, and stale reads. */
module ChaosRuns {
  import opened Basics
  import opened Protocol
  import opened Engine
  import opened Accounting
  import Agreement
  import Authz
  import Chaos
  import Dispatch
  import Execution

  /** What policy validation guarantees: distinct rule IDs, and error statuses for simulated HTTP failures. */
  predicate ValidPolicy(env: Env) {
    env.config.chaosPolicy.Some? ==>
      && Chaos.UniqueIds(env.config.chaosPolicy.value)
      && forall rule | rule in env.config.chaosPolicy.value && rule.kind.HttpError? :: 400 <= rule.kind.status < 600
  }

  function DecisionOf(env: Env, core: Core, call: ToolCall): Chaos.Decision
    requires env.config.chaosPolicy.Some?
  {
    Chaos.DecideOn(env.config.chaosPolicy.value, core.chaos.rules, core.chaos.snapshots, call.op, call.args)
  }

  // What each stage does to the chaos rows -------------------------------------------

  /** No rule has been consulted. */
  predicate Untouched(core: Core, d: Dispatch.Draft) {
    && d.core.chaos == core.chaos && d.decision.selected.None? && d.decision.captures == []
    && Pick(Injections, d.events) == [] && !d.ran && d.mutation.None?
  }

  /** The rules were consulted; an effect that does not wait for the handler is already recorded. */
  predicate Consulted(env: Env, core: Core, call: ToolCall, d: Dispatch.Draft) {
    && env.config.chaosPolicy.Some? && d.decision == DecisionOf(env, core, call)
    && d.core.chaos == core.chaos.(rules := d.decision.rows)
    && Pick(Injections, d.events) ==
         (if d.decision.selected.Some? && !Dispatch.PostEffect(d.decision)
          then [Dispatch.Injection(call, d.decision)] else [])
  }

  /** What a stale read answers with. */
  predicate ServesSnapshot(core: Core, call: ToolCall, d: Dispatch.Draft)
    requires d.decision.selected.Some?
  {
    var key := SnapshotKey(d.decision.selected.value.id, call.op, call.args);
    d.skip && key in core.chaos.snapshots && Observed(d.status, d.body) == core.chaos.snapshots[key]
  }

  lemma CheckLeavesChaos(env: Env, op: Operation, core: Core, call: ToolCall, mode: NumberMode)
    ensures var d0 := Dispatch.CheckSchema(op, call.args, mode, Dispatch.Begin(core));
            var d := Dispatch.Authorize(env, op, call, mode, d0);
            Untouched(core, d) && (d.skip ==> !Dispatch.Success(d.status))
  {
    hide Dispatch.Validate, Authz.Decide, Pick;
    var d := Dispatch.CheckSchema(op, call.args, mode, Dispatch.Begin(core));
    PickNone(Injections, []);
    if !d.skip {
      var (v, used) := Authz.Decide(env, d.core.world, op, call.args, mode, d.core.authCalls);
      if v.Judged? {
        PickSnoc(Injections, [], Dispatch.AuthEvent(call, v));
      }
    }
  }

  lemma EffectFrames(env: Env, call: ToolCall, decision: Chaos.Decision, d: Dispatch.Draft)
    requires decision.selected.Some? && Dispatch.ApplyEffect(env, call, decision, d).Ok?
    ensures var r := Dispatch.ApplyEffect(env, call, decision, d).value;
            r == d.(status := r.status, body := r.body, skip := r.skip)
  {
  }

  /** The injection event, and after it at most the actor's mutation. */
  lemma InjectEvents(env: Env, call: ToolCall, d: Dispatch.Draft)
    requires !d.skip && env.config.chaosPolicy.Some? && Dispatch.Inject(env, call, d).Ok?
    ensures var r := Dispatch.Inject(env, call, d).value;
            var decision := DecisionOf(env, d.core, call);
            && r.decision == decision && r.core.chaos == d.core.chaos.(rules := decision.rows)
            && r.ran == d.ran && r.mutation == d.mutation
            && |d.events| <= |r.events| && r.events[..|d.events|] == d.events
            && (decision.selected.Some? && !Dispatch.PostEffect(decision) ==>
                  && |r.events| > |d.events| && r.events[|d.events|] == Dispatch.Injection(call, decision)
                  && forall e | e in r.events[|d.events| + 1..] :: e.ActorMutation?)
            && (!(decision.selected.Some? && !Dispatch.PostEffect(decision)) ==> r.events == d.events)
  {
    hide Dispatch.ActorRun, Dispatch.ActorCall, Chaos.DecideOn, Dispatch.ApplyEffect;
    var decision := DecisionOf(env, d.core, call);
    if decision.selected.Some? {
      var d1 := d.(core := d.core.(chaos := d.core.chaos.(rules := decision.rows)), decision := decision);
      EffectFrames(env, call, decision, d1);
    }
  }

  lemma InjectConsults(env: Env, core: Core, call: ToolCall, d: Dispatch.Draft)
    requires Untouched(core, d) && !d.skip && env.config.chaosPolicy.Some? && Dispatch.Inject(env, call, d).Ok?
    ensures var r := Dispatch.Inject(env, call, d).value;
            Consulted(env, core, call, r) && !r.ran && r.mutation.None?
  {
    hide Dispatch.Inject, Chaos.DecideOn, Pick;
    InjectEvents(env, call, d);
    var r := Dispatch.Inject(env, call, d).value;
    if r.decision.selected.Some? && !Dispatch.PostEffect(r.decision) {
      var injection := Dispatch.Injection(call, r.decision);
      var rest := r.events[|d.events| + 1..];
      assert r.events == d.events + [injection] + rest;
      PickSnoc(Injections, d.events, injection);
      PickAppend(Injections, d.events + [injection], rest);
      forall e | e in rest
        ensures !About(Injections, e)
      {
        assert e.ActorMutation?;
      }
      PickNone(Injections, rest);
    }
  }

  lemma InjectSkips(env: Env, call: ToolCall, d: Dispatch.Draft)
    requires ValidPolicy(env) && !d.skip && Dispatch.Inject(env, call, d).Ok?
             && Dispatch.Inject(env, call, d).value.skip
    ensures env.config.chaosPolicy.Some?
    ensures var r := Dispatch.Inject(env, call, d).value;
            && r.decision.selected.Some? && r.decision.selected.value in env.config.chaosPolicy.value
            && if r.decision.selected.value.kind.StaleRead?
               then ServesSnapshot(d.core, call, r) else !Dispatch.Success(r.status)
  {
    hide Dispatch.ActorRun, Dispatch.ActorCall, Chaos.DecideOn;
    var chaos := d.core.chaos;
    Chaos.DecideCaptures(env.config.chaosPolicy.value, chaos.rules, chaos.snapshots, call.op, call.args);
  }

  lemma StaleReadServes(env: Env, call: ToolCall, d: Dispatch.Draft)
    requires !d.skip && env.config.chaosPolicy.Some? && Dispatch.Inject(env, call, d).Ok?
    ensures var r := Dispatch.Inject(env, call, d).value;
            r.decision.selected.Some? && r.decision.selected.value.kind.StaleRead? ==> ServesSnapshot(d.core, call, r)
  {
    hide Dispatch.ActorRun, Dispatch.ActorCall, Chaos.DecideOn;
  }

  lemma RunLeavesChaos(env: Env, op: Operation, call: ToolCall, retried: bool, mode: NumberMode, d: Dispatch.Draft)
    requires Dispatch.RunHandler(env, op, call, retried, mode, d).Ok? && !d.ran
    ensures var h := Dispatch.RunHandler(env, op, call, retried, mode, d).value;
            && h.decision == d.decision && h.core.chaos == d.core.chaos
            && Pick(Injections, h.events) == Pick(Injections, d.events)
            && (d.skip ==> h == d)
            && (!h.ran ==> h.mutation == d.mutation && (!d.skip ==> !Dispatch.Success(h.status)))
  {
    hide Pick;
    var h := Dispatch.RunHandler(env, op, call, retried, mode, d).value;
    var more := h.events[|d.events|..];
    assert h.events == d.events + more;
    PickAppend(Injections, d.events, more);
    PickNone(Injections, more);
  }

  /** Capturing touches the snapshots alone. */
  lemma CaptureFrames(op: Operation, call: ToolCall, d: Dispatch.Draft)
    ensures var c := Dispatch.Capture(op, call, d);
            c == d.(core := d.core.(chaos := d.core.chaos.(snapshots := c.core.chaos.snapshots)))
  {
  }

  /** A rule without a pending effect leaves everything as it is. */
  lemma ConcealsNothing(call: ToolCall, d: Dispatch.Draft)
    requires !Dispatch.PostEffect(d.decision)
    ensures Dispatch.Conceal(call, d) == Ok(d)
  {
  }

  /** A pending effect that takes hold stores what really happened and is recorded now. */
  lemma ConcealsOutcome(call: ToolCall, d: Dispatch.Draft)
    requires Dispatch.PostEffect(d.decision) && Dispatch.Hides(d) && Dispatch.Conceal(call, d).Ok?
    ensures var f := Dispatch.Conceal(call, d).value;
            var rule := d.decision.selected.value;
            && d.ran && f.decision == d.decision && f.mutation == d.mutation
            && f.events == d.events + [Dispatch.Injection(call, d.decision)]
            && f.core.chaos == d.core.chaos.(hidden :=
              d.core.chaos.hidden[call.id := HiddenOutcome(rule.id, Observed(d.status, d.body))])
            && f.status == if rule.kind.TimeoutAfterCommit? then 0 else d.status
  {
  }

  /** A commit timeout with nothing to hide gives its injection back. */
  lemma GivesInjectionBack(call: ToolCall, d: Dispatch.Draft)
    requires Dispatch.PostEffect(d.decision) && !Dispatch.Hides(d) && Dispatch.Conceal(call, d).Ok?
    ensures var rows := d.core.chaos.rules;
            var id := d.decision.selected.value.id;
            && d.ran && d.decision.selected.value.kind.TimeoutAfterCommit?
            && Dispatch.Conceal(call, d).value
               == d.(core := d.core.(chaos := d.core.chaos.(rules :=
                    rows[id := Chaos.RowOf(rows, id).(injections := Chaos.RowOf(rows, id).injections - 1)])))
  {
  }

  // The account of one call --------------------------------------------------------

  function Count(picked: seq<Event>, id: string): nat {
    if picked == [] then 0 else
      var last := picked[|picked| - 1];
      Count(picked[..|picked| - 1], id) + (if last.ChaosInjected? && last.rule == id then 1 else 0)
  }

  lemma {:induction false} CountAppend(a: seq<Event>, b: seq<Event>, id: string)
    ensures Count(a + b, id) == Count(a, id) + Count(b, id)
  {
    if b == [] {
      assert a + b == a;
    } else {
      var n := |b| - 1;
      CountAppend(a, b[..n], id);
      assert (a + b)[..|a + b| - 1] == a + b[..n];
    }
  }

  lemma CountOne(e: Event, id: string)
    requires e.ChaosInjected?
    ensures Count([], id) == 0 && Count([e], id) == if e.rule == id then 1 else 0
  {
    assert [e][..0] == [];
  }

  /** Counted injections are recorded injections. */
  ghost predicate Balanced(before: map<string, RuleRow>, after: map<string, RuleRow>, picked: seq<Event>) {
    forall id :: Chaos.RowOf(after, id).injections == Chaos.RowOf(before, id).injections + Count(picked, id)
  }

  /** A commit timeout hides a committed mutation and shows the caller no status. */
  predicate HidesCommit(call: ToolCall, rule: Rule, status: int, inner: seq<Event>,
                        hidden: map<string, HiddenOutcome>)
  {
    rule.kind.TimeoutAfterCommit? ==>
      && status == 0 && Agreement.HasMutation(inner)
      && call.id in hidden && hidden[call.id].rule == rule.id && Dispatch.Success(hidden[call.id].actual.status)
  }

  /** At most one injection, by the rule the policy selects on the counters as they stood. */
  predicate Injects(env: Env, core: Core, call: ToolCall, f: Dispatch.Draft) {
    var picked := Pick(Injections, f.events);
    picked == [] ||
    (&& env.config.chaosPolicy.Some? && DecisionOf(env, core, call).selected.Some?
     && picked == [Dispatch.Injection(call, DecisionOf(env, core, call))]
     && HidesCommit(call, DecisionOf(env, core, call).selected.value, f.status,
                    f.events + Dispatch.MutationEvents(f.mutation), f.core.chaos.hidden))
  }

  ghost predicate KeepsHidden(core: Core, call: ToolCall, f: Dispatch.Draft) {
    forall id | id != call.id ::
      && (id in f.core.chaos.hidden <==> id in core.chaos.hidden)
      && (id in core.chaos.hidden ==> f.core.chaos.hidden[id] == core.chaos.hidden[id])
  }

  lemma UntouchedAccount(env: Env, core: Core, call: ToolCall, f: Dispatch.Draft)
    requires f.core.chaos.rules == core.chaos.rules && f.core.chaos.hidden == core.chaos.hidden
             && Pick(Injections, f.events) == []
    ensures Injects(env, core, call, f) && KeepsHidden(core, call, f)
            && Balanced(core.chaos.rules, f.core.chaos.rules, Pick(Injections, f.events))
  {
  }

  lemma DecisionBalances(env: Env, core: Core, call: ToolCall)
    requires ValidPolicy(env) && env.config.chaosPolicy.Some?
    ensures var d := DecisionOf(env, core, call);
            Balanced(core.chaos.rules, d.rows, if d.selected.Some? then [Dispatch.Injection(call, d)] else [])
  {
    hide Chaos.DecideOn, Chaos.RowOf, Chaos.UniqueIds;
    var d := DecisionOf(env, core, call);
    forall id
      ensures Chaos.RowOf(d.rows, id).injections
           == Chaos.RowOf(core.chaos.rules, id).injections
               + Count(if d.selected.Some? then [Dispatch.Injection(call, d)] else [], id)
    {
      Chaos.DecideCounts(env.config.chaosPolicy.value, core.chaos.rules, core.chaos.snapshots, call.op, call.args, id);
      if d.selected.Some? {
        CountOne(Dispatch.Injection(call, d), id);
      }
    }
  }

  /** The counters after a consulted call, whichever way its effect went. */
  lemma ConsultedAccount(env: Env, op: Operation, core: Core, call: ToolCall, h: Dispatch.Draft)
    requires ValidPolicy(env) && Consulted(env, core, call, h)
             && Dispatch.Conceal(call, Dispatch.Capture(op, call, h)).Ok?
    ensures var f := Dispatch.Conceal(call, Dispatch.Capture(op, call, h)).value;
            Injects(env, core, call, f) && KeepsHidden(core, call, f)
                && Balanced(core.chaos.rules, f.core.chaos.rules, Pick(Injections, f.events))
  {
    hide Chaos.DecideOn, Chaos.RowOf, ValidPolicy, Balanced, Dispatch.Conceal, Dispatch.Capture, Pick;
    var c := Dispatch.Capture(op, call, h);
    CaptureFrames(op, call, h);
    DecisionBalances(env, core, call);
    if !Dispatch.PostEffect(c.decision) {
      ConcealsNothing(call, c);
    } else if Dispatch.Hides(c) {
      ConcealsOutcome(call, c);
      PickSnoc(Injections, c.events, Dispatch.Injection(call, c.decision));
      MutationShows(c.events + [Dispatch.Injection(call, c.decision)], c.mutation);
    } else {
      GivesInjectionBack(call, c);
      BalanceReturned(core.chaos.rules, c.core.chaos.rules, c.decision.selected.value.id,
                      Dispatch.Injection(call, c.decision));
    }
  }

  lemma MutationShows(events: seq<Event>, mutation: Option<Json>)
    ensures mutation.Some? ==> Agreement.HasMutation(events + Dispatch.MutationEvents(mutation))
  {
    if mutation.Some? {
      assert Mutation(mutation.value) in events + Dispatch.MutationEvents(mutation);
    }
  }

  lemma BalanceReturned(before: map<string, RuleRow>, rows: map<string, RuleRow>, id: string, injection: Event)
    requires Balanced(before, rows, [injection]) && injection.ChaosInjected? && injection.rule == id
    ensures Balanced(before, rows[id := Chaos.RowOf(rows, id).(injections := Chaos.RowOf(rows, id).injections - 1)], [])
  {
    forall other
      ensures Count([injection], other) == (if other == id then 1 else 0) && Count([], other) == 0
    {
      CountOne(injection, other);
    }
  }

  lemma TrailAccount(env: Env, op: Operation, core: Core, retried: bool, call: ToolCall, mode: NumberMode, t: Trail)
    requires ValidPolicy(env) && Followed(env, op, core, retried, call, mode, t)
    ensures Injects(env, core, call, t.done) && KeepsHidden(core, call, t.done)
    ensures Balanced(core.chaos.rules, t.done.core.chaos.rules, Pick(Injections, t.done.events))
  {
    hide ValidPolicy, Balanced, Injects, KeepsHidden, Pick, Chaos.DecideOn, Dispatch.Authorize,
      Dispatch.CheckSchema, Dispatch.RunHandler, Dispatch.Conceal, Dispatch.Capture;
    CheckLeavesChaos(env, op, core, call, mode);
    if t.checked.skip || env.config.chaosPolicy.None? {
      assert t.injected == t.checked;
      RunLeavesChaos(env, op, call, retried, mode, t.injected);
      CaptureFrames(op, call, t.handled);
      ConcealsNothing(call, Dispatch.Capture(op, call, t.handled));
      UntouchedAccount(env, core, call, t.done);
    } else {
      InjectConsults(env, core, call, t.checked);
      RunLeavesChaos(env, op, call, retried, mode, t.injected);
      ConsultedAccount(env, op, core, call, t.handled);
    }
  }

  /** The selected rule is the first active one in policy order, on the counters as they stood. */
  lemma SelectedIsFirstActive(env: Env, core: Core, call: ToolCall) returns (i: nat)
    requires ValidPolicy(env) && env.config.chaosPolicy.Some? && DecisionOf(env, core, call).selected.Some?
    ensures var rules := env.config.chaosPolicy.value;
            var d := DecisionOf(env, core, call);
            && i < |rules| && d.selected.value == rules[i]
            && Chaos.Active(rules[i], core.chaos.rules, core.chaos.snapshots, call.op, call.args)
            && (forall j | 0 <= j < i ::
                  !Chaos.Active(rules[j], core.chaos.rules, core.chaos.snapshots, call.op, call.args))
            && d.matching == Chaos.RowOf(core.chaos.rules, rules[i].id).calls + 1 > rules[i].afterCalls
  {
    hide Chaos.DecideOn;
    i := Chaos.DecideSelectsFirstActive(env.config.chaosPolicy.value, core.chaos.rules, core.chaos.snapshots, call.op,
                                        call.args);
  }

  lemma {:induction false} PickMember(topic: Topic, events: seq<Event>, e: Event)
    requires e in events && About(topic, e)
    ensures e in Pick(topic, events)
  {
    var n := |events| - 1;
    assert events == events[..n] + [events[n]];
    if e != events[n] {
      PickMember(topic, events[..n], e);
    }
  }

  /** An injection in the events of a call is the one of the first active rule, with its matching-call number. */
  lemma InjectionIsFirstActive(env: Env, core: Core, retried: bool, call: ToolCall, mode: NumberMode, e: Event)
    returns (i: nat)
    requires ValidPolicy(env) && Dispatch.Invoke(env, core, retried, call, mode).Committed?
    requires e in Dispatch.Invoke(env, core, retried, call, mode).events && e.ChaosInjected?
    ensures env.config.chaosPolicy.Some? && i < |env.config.chaosPolicy.value|
    ensures var rules := env.config.chaosPolicy.value;
            && Chaos.Active(rules[i], core.chaos.rules, core.chaos.snapshots, call.op, call.args)
            && (forall j | 0 <= j < i ::
                  !Chaos.Active(rules[j], core.chaos.rules, core.chaos.snapshots, call.op, call.args))
            && e == ChaosInjected(rules[i].id, rules[i].kind, call.id, call.op,
                                  Chaos.RowOf(core.chaos.rules, rules[i].id).calls + 1)
  {
    hide ValidPolicy, Dispatch.Invoke, Followed, Pick, Chaos.DecideOn, Balanced;
    var op, t := CommitTrail(env, core, retried, call, mode);
    TrailAccount(env, op, core, retried, call, mode, t);
    PickMember(Injections, Dispatch.Commit(call, t.done).events, e);
    PickCommit(Injections, call, t.done);
    i := SelectedIsFirstActive(env, core, call);
  }

  /** A rule with a limit never goes past it. */
  predicate WithinTimes(env: Env, rows: map<string, RuleRow>) {
    env.config.chaosPolicy.Some? ==>
      forall rule | rule in env.config.chaosPolicy.value && rule.times > 0 ::
        Chaos.RowOf(rows, rule.id).injections <= rule.times
  }

  lemma LimitsHold(env: Env, core: Core, call: ToolCall, f: Dispatch.Draft)
    requires ValidPolicy(env) && WithinTimes(env, core.chaos.rules) && Injects(env, core, call, f)
    requires Balanced(core.chaos.rules, f.core.chaos.rules, Pick(Injections, f.events))
    ensures WithinTimes(env, f.core.chaos.rules)
  {
    hide Chaos.DecideOn, Pick, Chaos.RowOf;
    if env.config.chaosPolicy.Some? {
      forall rule | rule in env.config.chaosPolicy.value && rule.times > 0
        ensures Chaos.RowOf(f.core.chaos.rules, rule.id).injections <= rule.times
      {
        var picked := Pick(Injections, f.events);
        if picked != [] {
          var i := SelectedIsFirstActive(env, core, call);
          CountOne(picked[0], rule.id);
          SameRule(env, env.config.chaosPolicy.value[i], rule);
        }
      }
    }
  }

  lemma SameRule(env: Env, a: Rule, b: Rule)
    requires ValidPolicy(env) && env.config.chaosPolicy.Some? && a in env.config.chaosPolicy.value
             && b in env.config.chaosPolicy.value
    ensures a.id == b.id ==> a == b
  {
  }

  // Whole runs ------------------------------------------------------------------------

  /** The bracket a committed call leaves in the ledger. */
  function BracketOf(call: ToolCall, d: Dispatch.Draft): Agreement.Bracket {
    Agreement.Bracket(call, d.events + Dispatch.MutationEvents(d.mutation), d.status, d.body)
  }

  /** Dispatching the next call, seen as one trail of workspaces and one new bracket. */
  lemma DispatchTrail(env: Env, db: Db) returns (call: ToolCall, op: Operation, t: Trail)
    requires Agreement.Agree(db) && Apply(env, db, Dispatched).Some?
    ensures FindOp(env.operations, call.op) == Some(op) && call.id !in db.core.results
    ensures Followed(env, op, db.core, Retried(db.ledger), call, Float, t)
    ensures var next := Apply(env, db, Dispatched).value;
            && next == Db(db.status, db.ledger + Dispatch.Commit(call, t.done).events,
                          Dispatch.Commit(call, t.done).core)
            && Agreement.Read(db.ledger).Closed?
            && Agreement.Read(next.ledger)
              == Agreement.Closed(Agreement.Read(db.ledger).done + [BracketOf(call, t.done)])
  {
    hide Agreement.Agree, Dispatch.Invoke, Followed, Pending, IsFinal;
    var status, body;
    call, status, body := Agreement.DispatchKeepsAgreement(env, db);
    Execution.DispatchCommits(env, db, call);
    op, t := CommitTrail(env, db.core, Retried(db.ledger), call, Float);
    ReadsClosed(db);
    var events := Dispatch.Commit(call, t.done).events;
    Agreement.ReadAppend(Agreement.Closed([]), db.ledger, events);
    Agreement.ReadBracket(Agreement.Read(db.ledger).done, call, events, status, body);
    assert events[1..|events| - 1] == t.done.events + Dispatch.MutationEvents(t.done.mutation);
    assert events[|events| - 1] == Dispatch.ResponseOf(call, t.done);
  }

  lemma ReadsClosed(db: Db)
    requires Agreement.Agree(db)
    ensures Agreement.Read(db.ledger).Closed?
  {
  }

  lemma OtherMoveReads(env: Env, db: Db, move: Move)
    requires Agreement.Agree(db) && Apply(env, db, move).Some? && !move.Dispatched?
    ensures Agreement.Read(Apply(env, db, move).value.ledger) == Agreement.Read(db.ledger)
  {
    hide Agreement.Agree, Apply;
    ReadsClosed(db);
    var events := OtherMove(env, db, move);
    Agreement.ReadExtended(db.ledger, events);
  }

  /** Every stored counter equals the injections in the ledger, and no limit is exceeded. */
  ghost predicate CountersHold(env: Env, db: Db) {
    && Balanced(map[], db.core.chaos.rules, Pick(Injections, db.ledger))
    && WithinTimes(env, db.core.chaos.rules)
  }

  lemma BalancedJoins(before: map<string, RuleRow>, after: map<string, RuleRow>, old_: seq<Event>, new_: seq<Event>)
    requires Balanced(map[], before, old_) && Balanced(before, after, new_)
    ensures Balanced(map[], after, old_ + new_)
  {
    hide Chaos.RowOf;
    forall id
      ensures Chaos.RowOf(after, id).injections == Chaos.RowOf(map[], id).injections + Count(old_ + new_, id)
    {
      CountAppend(old_, new_, id);
    }
  }

  lemma StepCounters(env: Env, db: Db, move: Move)
    requires ValidPolicy(env) && Agreement.Agree(db) && CountersHold(env, db) && Apply(env, db, move).Some?
    ensures CountersHold(env, Apply(env, db, move).value)
  {
    hide ValidPolicy, Agreement.Agree, Balanced, Followed, Injects, WithinTimes, Apply, KeepsHidden, Pick;
    if move.Dispatched? {
      var call, op, t := DispatchTrail(env, db);
      TrailAccount(env, op, db.core, Retried(db.ledger), call, Float, t);
      LimitsHold(env, db.core, call, t.done);
      PickCommit(Injections, call, t.done);
      PickAppend(Injections, db.ledger, Dispatch.Commit(call, t.done).events);
      BalancedJoins(db.core.chaos.rules, t.done.core.chaos.rules, Pick(Injections, db.ledger),
                    Pick(Injections, t.done.events));
    } else {
      var events := OtherMove(env, db, move);
      PickNeutral(Injections, db.ledger, events);
    }
  }

  lemma InitCounters(env: Env, world: World)
    ensures CountersHold(env, Init(world))
  {
    PickNone(Injections, [Started]);
  }

  /**
    In every reachable state a rule's injection counter is the number of injection
    events it has in the ledger, and a positive `times` is never exceeded.
   */
  lemma {:induction false} ReachableCounters(env: Env, world: World, moves: seq<Move>, db: Db)
    requires ValidPolicy(env) && Reaches(env, world, moves, db)
    ensures CountersHold(env, db)
  {
    hide Apply, CountersHold, Agreement.Agree, ValidPolicy;
    if moves == [] {
      InitCounters(env, world);
    } else {
      var n := |moves| - 1;
      var before := Exec(env, Init(world), moves[..n]).value;
      ReachableCounters(env, world, moves[..n], before);
      Agreement.ReachableAgrees(env, world, moves[..n], before);
      StepCounters(env, before, moves[n]);
    }
  }

  // One lawful injection per call --------------------------------------------------

  /** The injection of a bracket comes from a rule of the policy, past its `after_calls`. */
  predicate FiredBy(rule: Rule, e: Event, b: Agreement.Bracket, hidden: map<string, HiddenOutcome>)
    requires e.ChaosInjected?
  {
    && e == ChaosInjected(rule.id, rule.kind, b.call.id, b.call.op, e.matching)
    && b.call.op in rule.operations && e.matching > rule.afterCalls
    && HidesCommit(b.call, rule, b.status, b.inner, hidden)
  }

  predicate Lawful(env: Env, b: Agreement.Bracket, hidden: map<string, HiddenOutcome>) {
    var picked := Pick(Injections, b.inner);
    picked == [] ||
    (|picked| == 1 && env.config.chaosPolicy.Some?
        && exists rule | rule in env.config.chaosPolicy.value :: FiredBy(rule, picked[0], b, hidden))
  }

  lemma NewBracketLawful(env: Env, core: Core, call: ToolCall, f: Dispatch.Draft)
    requires ValidPolicy(env) && Injects(env, core, call, f)
    ensures Lawful(env, BracketOf(call, f), f.core.chaos.hidden)
  {
    hide ValidPolicy, HidesCommit, Chaos.DecideOn, Pick;
    var b := BracketOf(call, f);
    PickAppend(Injections, f.events, Dispatch.MutationEvents(f.mutation));
    PickNone(Injections, Dispatch.MutationEvents(f.mutation));
    assert Pick(Injections, b.inner) == Pick(Injections, f.events);
    if Pick(Injections, f.events) != [] {
      var i := SelectedIsFirstActive(env, core, call);
      var rule := env.config.chaosPolicy.value[i];
      assert FiredBy(rule, Pick(Injections, b.inner)[0], b, f.core.chaos.hidden);
    }
  }

  lemma StillLawful(env: Env, core: Core, call: ToolCall, f: Dispatch.Draft, b: Agreement.Bracket)
    requires KeepsHidden(core, call, f) && Lawful(env, b, core.chaos.hidden) && b.call.id != call.id
    ensures Lawful(env, b, f.core.chaos.hidden)
  {
    hide Pick;
    var picked := Pick(Injections, b.inner);
    if picked != [] {
      var rule :| rule in env.config.chaosPolicy.value && FiredBy(rule, picked[0], b, core.chaos.hidden);
      assert FiredBy(rule, picked[0], b, f.core.chaos.hidden);
    }
  }

  lemma DoneAreSaved(db: Db, b: Agreement.Bracket)
    requires Agreement.Agree(db) && b in Agreement.Read(db.ledger).done
    ensures b.call.id in db.core.results
  {
    var done := Agreement.Read(db.ledger).done;
    var k :| 0 <= k < |done| && done[k] == b;
    assert AllCalls(db.core.transcript)[k] == b.call;
  }

  /** Every finished call is lawful, and only finished calls have hidden outcomes. */
  predicate AllLawful(env: Env, db: Db) {
    && Agreement.Read(db.ledger).Closed?
    && (forall b | b in Agreement.Read(db.ledger).done :: Lawful(env, b, db.core.chaos.hidden))
    && db.core.chaos.hidden.Keys <= db.core.results.Keys
  }

  lemma StepLawful(env: Env, db: Db, move: Move)
    requires ValidPolicy(env) && Agreement.Agree(db) && AllLawful(env, db) && Apply(env, db, move).Some?
    ensures AllLawful(env, Apply(env, db, move).value)
  {
    hide ValidPolicy, Agreement.Agree, Balanced, Followed, Injects, Apply, Pick, Lawful, Agreement.Read;
    if move.Dispatched? {
      var call, op, t := DispatchTrail(env, db);
      TrailAccount(env, op, db.core, Retried(db.ledger), call, Float, t);
      TrailKeepsResults(env, op, db.core, Retried(db.ledger), call, Float, t);
      NewBracketLawful(env, db.core, call, t.done);
      forall b | b in Agreement.Read(db.ledger).done
        ensures Lawful(env, b, t.done.core.chaos.hidden)
      {
        DoneAreSaved(db, b);
        StillLawful(env, db.core, call, t.done, b);
      }
    } else {
      OtherMoveReads(env, db, move);
      var _ := OtherMove(env, db, move);
    }
  }

  lemma TrailKeepsResults(env: Env, op: Operation, core: Core, retried: bool, call: ToolCall, mode: NumberMode,
                          t: Trail)
    requires Followed(env, op, core, retried, call, mode, t)
    ensures t.done.core.results == core.results
  {
    hide Dispatch.Authorize, Dispatch.CheckSchema, Dispatch.Inject, Dispatch.RunHandler, Dispatch.Conceal,
      Dispatch.Capture;
    Dispatch.PerformFrames(env, op, core, retried, call, mode);
  }

  lemma InitLawful(env: Env, world: World)
    ensures AllLawful(env, Init(world))
  {
    Agreement.ReadNeutral([], [Started]);
  }

  /**
    In every reachable state each finished call shows at most one injection, made by
    a rule of the policy that matches the call and is past its `after_calls`; and a
    commit timeout always stands for a committed mutation whose outcome is kept.
   */
  lemma {:induction false} ReachableLawful(env: Env, world: World, moves: seq<Move>, db: Db)
    requires ValidPolicy(env) && Reaches(env, world, moves, db)
    ensures AllLawful(env, db)
  {
    hide Apply, AllLawful, Agreement.Agree, ValidPolicy;
    if moves == [] {
      InitLawful(env, world);
    } else {
      var n := |moves| - 1;
      var before := Exec(env, Init(world), moves[..n]).value;
      ReachableLawful(env, world, moves[..n], before);
      Agreement.ReachableAgrees(env, world, moves[..n], before);
      StepLawful(env, before, moves[n]);
    }
  }
}
