/** Stale reads answer with the first successful response the run saw for those arguments. */
module Snapshots {
  import opened Basics
  import opened Protocol
  import opened Engine
  import opened Accounting
  import opened ChaosRuns
  import Agreement
  import Chaos
  import Dispatch

  /** What really happened in a call: the kept outcome where the caller was shown something else. */
  function Genuine(b: Agreement.Bracket, hidden: map<string, HiddenOutcome>): Observed {
    if b.call.id in hidden then hidden[b.call.id].actual else Observed(b.status, b.body)
  }

  predicate Successful(b: Agreement.Bracket, hidden: map<string, HiddenOutcome>, op: string, args: Args) {
    b.call.op == op && b.call.args == args && Dispatch.Success(Genuine(b, hidden).status)
  }

  /** The first successful outcome among finished calls of an operation with the given arguments. */
  function First(done: seq<Agreement.Bracket>, hidden: map<string, HiddenOutcome>, op: string,
                 args: Args): Option<Observed> {
    if done == [] then None else
      var n := |done| - 1;
      match First(done[..n], hidden, op, args)
      case Some(seen) => Some(seen)
      case None => if Successful(done[n], hidden, op, args) then Some(Genuine(done[n], hidden)) else None
  }

  function Stored(snapshots: map<SnapshotKey, Observed>, rule: string, op: string, args: Args): Option<Observed> {
    var key := SnapshotKey(rule, op, args);
    if key in snapshots then Some(snapshots[key]) else None
  }

  predicate Watches(env: Env, rule: Rule, op: string) {
    env.config.chaosPolicy.Some? && rule in env.config.chaosPolicy.value && rule.kind.StaleRead?
        && op in rule.operations
  }

  predicate IsRead(env: Env, op: string) {
    FindOp(env.operations, op).Some? && FindOp(env.operations, op).value.verb.Get?
  }

  /** Every stale-read rule that watches a read holds the first successful outcome, or nothing yet. */
  ghost predicate Remembers(env: Env, snapshots: map<SnapshotKey, Observed>, first: Option<Observed>, op: string,
                            args: Args) {
    forall rule | Watches(env, rule, op) :: Stored(snapshots, rule.id, op, args) == first
  }

  lemma {:induction false} FirstKept(done: seq<Agreement.Bracket>, core: Core, call: ToolCall, f: Dispatch.Draft,
                                     op: string, args: Args)
    requires KeepsHidden(core, call, f) && forall b | b in done :: b.call.id != call.id
    ensures First(done, f.core.chaos.hidden, op, args) == First(done, core.chaos.hidden, op, args)
  {
    if done != [] {
      var n := |done| - 1;
      FirstKept(done[..n], core, call, f, op, args);
      assert done[n] in done;
    }
  }

  lemma FirstSnoc(done: seq<Agreement.Bracket>, b: Agreement.Bracket, hidden: map<string, HiddenOutcome>, op: string,
                  args: Args)
    ensures First(done + [b], hidden, op, args) ==
            match First(done, hidden, op, args)
            case Some(seen) => Some(seen)
            case None => if Successful(b, hidden, op, args) then Some(Genuine(b, hidden)) else None
  {
    assert (done + [b])[..|done|] == done;
  }

  // One call ---------------------------------------------------------------------------

  /** What a call adds to the snapshots of a read: its genuine outcome, if nothing was there and it succeeded. */
  ghost predicate Captures(env: Env, core: Core, call: ToolCall, f: Dispatch.Draft) {
    forall rule | Watches(env, rule, call.op) ::
      Stored(f.core.chaos.snapshots, rule.id, call.op, call.args) ==
        match Stored(core.chaos.snapshots, rule.id, call.op, call.args)
        case Some(seen) => Some(seen)
        case None =>
          var actual := Genuine(BracketOf(call, f), f.core.chaos.hidden);
          if Dispatch.Success(actual.status) then Some(actual) else None
  }

  lemma {:induction false} WatchedIsCaptured(rules: seq<Rule>, op: string, rule: Rule)
    requires rule in rules && rule.kind.StaleRead? && op in rule.operations
    ensures rule.id in Chaos.StaleIds(rules, op)
  {
    var n := |rules| - 1;
    assert rules == rules[..n] + [rules[n]];
    if rule != rules[n] {
      WatchedIsCaptured(rules[..n], op, rule);
    }
  }

  /** After the capture a watching rule holds what it held, or what the handler just returned. */
  lemma CaptureStores(env: Env, op: Operation, core: Core, call: ToolCall, h: Dispatch.Draft, rule: Rule)
    requires Consulted(env, core, call, h) && Watches(env, rule, call.op) && op.verb.Get?
    ensures Stored(Dispatch.Capture(op, call, h).core.chaos.snapshots, rule.id, call.op, call.args) ==
            match Stored(core.chaos.snapshots, rule.id, call.op, call.args)
            case Some(seen) => Some(seen)
            case None => if h.ran && Dispatch.Success(h.status) then Some(Observed(h.status, h.body)) else None
  {
    hide Chaos.DecideOn;
    var rules := env.config.chaosPolicy.value;
    Chaos.DecideCaptures(rules, core.chaos.rules, core.chaos.snapshots, call.op, call.args);
    WatchedIsCaptured(rules, call.op, rule);
  }

  /** The genuine outcome of a consulted call is what the workspace held before anything was concealed. */
  lemma GenuineIsHandled(core: Core, call: ToolCall, c: Dispatch.Draft)
    requires Dispatch.Conceal(call, c).Ok? && c.core.chaos.hidden == core.chaos.hidden && call.id !in core.chaos.hidden
    ensures var f := Dispatch.Conceal(call, c).value;
            && Genuine(BracketOf(call, f), f.core.chaos.hidden) == Observed(c.status, c.body)
            && f.core.chaos.snapshots == c.core.chaos.snapshots
            && (Dispatch.PostEffect(c.decision) ==> c.ran)
  {
    hide Dispatch.Conceal;
    if !Dispatch.PostEffect(c.decision) {
      ConcealsNothing(call, c);
    } else if Dispatch.Hides(c) {
      ConcealsOutcome(call, c);
    } else {
      GivesInjectionBack(call, c);
    }
  }

  /** Without a handler run, only a stale read can look successful, and then nothing new is to be learned. */
  lemma UnrunIsUnsuccessful(env: Env, op: Operation, core: Core, retried: bool, call: ToolCall, mode: NumberMode,
                            t: Trail)
    requires ValidPolicy(env) && Followed(env, op, core, retried, call, mode, t) && !t.handled.ran
             && Dispatch.Success(t.handled.status)
    requires t.checked.core.chaos == core.chaos && !t.checked.ran && !t.injected.ran
    requires t.checked.skip ==> !Dispatch.Success(t.checked.status)
    ensures exists rule ::
              Watches(env, rule, call.op) && Stored(core.chaos.snapshots, rule.id, call.op, call.args).Some?
  {
    hide ValidPolicy, Dispatch.Authorize, Dispatch.CheckSchema, Dispatch.RunHandler, Dispatch.Conceal,
      Dispatch.Capture, Chaos.DecideOn;
    RunLeavesChaos(env, op, call, retried, mode, t.injected);
    InjectSkips(env, call, t.checked);
    InjectEvents(env, call, t.checked);
    SelectedMatches(env, t.checked.core, call);
    assert Watches(env, t.injected.decision.selected.value, call.op);
  }

  lemma SelectedMatches(env: Env, core: Core, call: ToolCall)
    requires ValidPolicy(env) && env.config.chaosPolicy.Some? && DecisionOf(env, core, call).selected.Some?
    ensures call.op in DecisionOf(env, core, call).selected.value.operations
  {
    hide Chaos.DecideOn;
    var i := SelectedIsFirstActive(env, core, call);
  }

  lemma SkippedCaptures(env: Env, op: Operation, core: Core, retried: bool, call: ToolCall, mode: NumberMode, t: Trail)
    requires Followed(env, op, core, retried, call, mode, t) && t.checked.skip && call.id !in core.chaos.hidden
    ensures Captures(env, core, call, t.done)
  {
    hide Dispatch.Authorize, Dispatch.CheckSchema, Dispatch.RunHandler, Dispatch.Conceal;
    CheckLeavesChaos(env, op, core, call, mode);
    RunLeavesChaos(env, op, call, retried, mode, t.injected);
    GenuineIsHandled(core, call, Dispatch.Capture(op, call, t.handled));
  }

  lemma ConsultedCaptures(env: Env, op: Operation, core: Core, retried: bool, call: ToolCall, mode: NumberMode,
                          t: Trail, first: Option<Observed>)
    requires ValidPolicy(env) && Followed(env, op, core, retried, call, mode, t) && op.verb.Get?
    requires !t.checked.skip && env.config.chaosPolicy.Some? && call.id !in core.chaos.hidden
    requires Remembers(env, core.chaos.snapshots, first, call.op, call.args)
    ensures Captures(env, core, call, t.done)
  {
    hide ValidPolicy, Dispatch.Authorize, Dispatch.CheckSchema, Dispatch.Inject, Dispatch.RunHandler,
      Dispatch.Conceal, Dispatch.Capture, Chaos.DecideOn, Pick, Genuine;
    CheckLeavesChaos(env, op, core, call, mode);
    InjectConsults(env, core, call, t.checked);
    RunLeavesChaos(env, op, call, retried, mode, t.injected);
    CaptureFrames(op, call, t.handled);
    GenuineIsHandled(core, call, Dispatch.Capture(op, call, t.handled));
    forall rule | Watches(env, rule, call.op)
      ensures Stored(t.done.core.chaos.snapshots, rule.id, call.op, call.args) ==
              match Stored(core.chaos.snapshots, rule.id, call.op, call.args)
              case Some(seen) => Some(seen)
              case None =>
                var actual := Genuine(BracketOf(call, t.done), t.done.core.chaos.hidden);
                if Dispatch.Success(actual.status) then Some(actual) else None
    {
      CaptureStores(env, op, core, call, t.handled, rule);
      if !t.handled.ran && Dispatch.Success(t.handled.status) {
        UnrunIsUnsuccessful(env, op, core, retried, call, mode, t);
      }
    }
  }

  lemma TrailCaptures(env: Env, op: Operation, core: Core, retried: bool, call: ToolCall, mode: NumberMode, t: Trail,
                      first: Option<Observed>)
    requires ValidPolicy(env) && Followed(env, op, core, retried, call, mode, t) && op.verb.Get?
             && call.id !in core.chaos.hidden
    requires Remembers(env, core.chaos.snapshots, first, call.op, call.args)
    ensures Captures(env, core, call, t.done)
  {
    hide ValidPolicy, Followed, Remembers;
    if env.config.chaosPolicy.Some? {
      if t.checked.skip {
        SkippedCaptures(env, op, core, retried, call, mode, t);
      } else {
        ConsultedCaptures(env, op, core, retried, call, mode, t, first);
      }
    }
  }

  /** Snapshots of other operations or arguments are not touched. */
  lemma CaptureIsLocal(env: Env, op: Operation, core: Core, retried: bool, call: ToolCall, mode: NumberMode, t: Trail,
                       rule: string, other: string, args: Args)
    requires Followed(env, op, core, retried, call, mode, t) && (other != call.op || args != call.args)
    ensures Stored(t.done.core.chaos.snapshots, rule, other, args) == Stored(core.chaos.snapshots, rule, other, args)
  {
    hide Dispatch.Authorize, Dispatch.CheckSchema, Dispatch.RunHandler, Dispatch.Conceal, Chaos.DecideOn, Pick;
    CheckLeavesChaos(env, op, core, call, mode);
    if !t.checked.skip && env.config.chaosPolicy.Some? {
      InjectConsults(env, core, call, t.checked);
    }
    RunLeavesChaos(env, op, call, retried, mode, t.injected);
    ConcealKeepsSnapshots(call, Dispatch.Capture(op, call, t.handled));
  }

  lemma ConcealKeepsSnapshots(call: ToolCall, c: Dispatch.Draft)
    requires Dispatch.Conceal(call, c).Ok?
    ensures Dispatch.Conceal(call, c).value.core.chaos.snapshots == c.core.chaos.snapshots
  {
    hide Dispatch.Conceal;
    if !Dispatch.PostEffect(c.decision) {
      ConcealsNothing(call, c);
    } else if Dispatch.Hides(c) {
      ConcealsOutcome(call, c);
    } else {
      GivesInjectionBack(call, c);
    }
  }

  // Whole runs -------------------------------------------------------------------------

  function FirstSeen(db: Db, op: string, args: Args): Option<Observed>
    requires Agreement.Read(db.ledger).Closed?
  {
    First(Agreement.Read(db.ledger).done, db.core.chaos.hidden, op, args)
  }

  ghost predicate RemembersFirst(env: Env, db: Db, op: string, args: Args) {
    && Agreement.Read(db.ledger).Closed?
    && Remembers(env, db.core.chaos.snapshots, FirstSeen(db, op, args), op, args)
  }

  lemma DispatchRemembers(env: Env, db: Db, op: string, args: Args)
    requires ValidPolicy(env) && Agreement.Agree(db) && AllLawful(env, db) && IsRead(env, op)
    requires RemembersFirst(env, db, op, args) && Apply(env, db, Dispatched).Some?
    ensures RemembersFirst(env, Apply(env, db, Dispatched).value, op, args)
  {
    hide ValidPolicy, Agreement.Agree, Followed, Apply, Pick, Lawful, Agreement.Read, Injects, Balanced, First,
      Genuine, Stored, Watches, KeepsHidden;
    var call, o, t := DispatchTrail(env, db);
    var done := Agreement.Read(db.ledger).done;
    TrailAccount(env, o, db.core, Retried(db.ledger), call, Float, t);
    forall b | b in done
      ensures b.call.id != call.id
    {
      DoneAreSaved(db, b);
    }
    FirstKept(done, db.core, call, t.done, op, args);
    FirstSnoc(done, BracketOf(call, t.done), t.done.core.chaos.hidden, op, args);
    if call.op == op && call.args == args {
      TrailCaptures(env, o, db.core, Retried(db.ledger), call, Float, t, FirstSeen(db, op, args));
    } else {
      forall rule | Watches(env, rule, op)
        ensures Stored(t.done.core.chaos.snapshots, rule.id, op, args)
                == Stored(db.core.chaos.snapshots, rule.id, op, args)
      {
        CaptureIsLocal(env, o, db.core, Retried(db.ledger), call, Float, t, rule.id, op, args);
      }
    }
  }

  lemma StepRemembers(env: Env, db: Db, move: Move, op: string, args: Args)
    requires ValidPolicy(env) && Agreement.Agree(db) && AllLawful(env, db) && IsRead(env, op)
    requires RemembersFirst(env, db, op, args) && Apply(env, db, move).Some?
    ensures RemembersFirst(env, Apply(env, db, move).value, op, args)
  {
    hide ValidPolicy, Agreement.Agree, AllLawful, Apply, Agreement.Read, First, Remembers;
    if move.Dispatched? {
      DispatchRemembers(env, db, op, args);
    } else {
      OtherMoveReads(env, db, move);
      var _ := OtherMove(env, db, move);
    }
  }

  lemma {:induction false} ReachableRemembers(env: Env, world: World, moves: seq<Move>, db: Db, op: string, args: Args)
    requires ValidPolicy(env) && IsRead(env, op) && Reaches(env, world, moves, db)
    ensures RemembersFirst(env, db, op, args)
  {
    hide Apply, AllLawful, RemembersFirst, Agreement.Agree, ValidPolicy, IsRead;
    if moves == [] {
      InitRemembers(env, world, op, args);
    } else {
      var n := |moves| - 1;
      var before := Exec(env, Init(world), moves[..n]).value;
      ReachableRemembers(env, world, moves[..n], before, op, args);
      Agreement.ReachableAgrees(env, world, moves[..n], before);
      ReachableLawful(env, world, moves[..n], before);
      StepRemembers(env, before, moves[n], op, args);
    }
  }

  lemma InitRemembers(env: Env, world: World, op: string, args: Args)
    ensures RemembersFirst(env, Init(world), op, args)
  {
    Agreement.ReadNeutral([], [Started]);
  }

  /**
    Whenever a stale-read rule is the one selected for a call of a reachable run, the
    caller is answered with the first successful outcome that run ever had for that
    operation and those arguments, a concealed outcome counting as what it really was.
   */
  lemma StaleReadIsFirstCapture(env: Env, world: World, moves: seq<Move>, db: Db)
    returns (call: ToolCall, op: Operation, t: Trail)
    requires ValidPolicy(env) && Reaches(env, world, moves, db) && Apply(env, db, Dispatched).Some?
    ensures Followed(env, op, db.core, Retried(db.ledger), call, Float, t)
    ensures Apply(env, db, Dispatched).value.ledger == db.ledger + Dispatch.Commit(call, t.done).events
    ensures Agreement.Read(db.ledger).Closed?
    ensures t.done.decision.selected.Some? && t.done.decision.selected.value.kind.StaleRead? && IsRead(env, call.op) ==>
              Some(Observed(t.done.status, t.done.body)) == FirstSeen(db, call.op, call.args)
  {
    hide Exec, ValidPolicy, Agreement.Agree, Followed, Apply, Pick, Agreement.Read, First, Remembers, IsRead,
      Dispatch.Success;
    Agreement.ReachableAgrees(env, world, moves, db);
    call, op, t := DispatchTrail(env, db);
    if t.done.decision.selected.Some? && t.done.decision.selected.value.kind.StaleRead? && IsRead(env, call.op) {
      ReachableRemembers(env, world, moves, db, call.op, call.args);
      StaleAnswer(env, op, db.core, Retried(db.ledger), call, Float, t, FirstSeen(db, call.op, call.args));
    }
  }

  lemma StaleAnswer(env: Env, op: Operation, core: Core, retried: bool, call: ToolCall, mode: NumberMode, t: Trail,
                    first: Option<Observed>)
    requires ValidPolicy(env) && Followed(env, op, core, retried, call, mode, t)
    requires t.done.decision.selected.Some? && t.done.decision.selected.value.kind.StaleRead?
    requires Remembers(env, core.chaos.snapshots, first, call.op, call.args)
    ensures Some(Observed(t.done.status, t.done.body)) == first
  {
    hide ValidPolicy, Dispatch.Authorize, Dispatch.CheckSchema, Dispatch.RunHandler, Dispatch.Conceal,
      Dispatch.Capture, Chaos.DecideOn, Pick;
    CheckLeavesChaos(env, op, core, call, mode);
    RunLeavesChaos(env, op, call, retried, mode, t.injected);
    CaptureFrames(op, call, t.handled);
    ConcealKeepsDecision(call, Dispatch.Capture(op, call, t.handled));
    ConcealsNothing(call, Dispatch.Capture(op, call, t.handled));
    StaleReadServes(env, call, t.checked);
    InjectConsults(env, core, call, t.checked);
    var i := SelectedIsFirstActive(env, core, call);
    assert Watches(env, t.done.decision.selected.value, call.op);
  }

  lemma ConcealKeepsDecision(call: ToolCall, c: Dispatch.Draft)
    requires Dispatch.Conceal(call, c).Ok?
    ensures Dispatch.Conceal(call, c).value.decision == c.decision
  {
  }
}
