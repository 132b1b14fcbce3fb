/**
  The chaos counters of a rebuild. A rebuild shows the rules calls that the runner refused
  before any rule saw them, so its counters are the run's raised by these calls.
 */
module Counters {
  import opened Basics
  import opened Protocol
  import opened Engine
  import opened Reconstruct
  import opened Accounting
  import opened ChaosRuns
  import Chaos
  import Dispatch

  function Policy(env: Env): seq<Rule> {
    if env.config.chaosPolicy.Some? then env.config.chaosPolicy.value else []
  }

  // Raised counters ------------------------------------------------------------------

  /** A refused call that a rebuild shows to a chaos rule; under an authorization policy it never gets there. */
  predicate CountsAgain(env: Env, e: Event, id: string) {
    && e.ToolRequest? && RefusedNumber(env, e.call) && env.config.authPolicy.None?
    && Chaos.MatchesSome(Policy(env), e.call.op, id)
  }

  /** How many recorded calls a rule counts in a rebuild and did not count in the run. */
  function Extra(env: Env, ledger: seq<Event>, id: string): nat {
    if ledger == [] then 0 else
      var n := |ledger| - 1;
      Extra(env, ledger[..n], id) + (if CountsAgain(env, ledger[n], id) then 1 else 0)
  }

  function ExtraIds(env: Env, ledger: seq<Event>): set<string> {
    set rule | rule in Policy(env) && Extra(env, ledger, rule.id) > 0 :: rule.id
  }

  function RaisedRow(env: Env, ledger: seq<Event>, rows: map<string, RuleRow>, id: string): RuleRow {
    var row := Chaos.RowOf(rows, id);
    RuleRow(row.calls + Extra(env, ledger, id), row.injections)
  }

  function RaisedRows(env: Env, ledger: seq<Event>, rows: map<string, RuleRow>): map<string, RuleRow> {
    map id | id in rows.Keys + ExtraIds(env, ledger) :: RaisedRow(env, ledger, rows, id)
  }

  function WithRows(core: Core, rows: map<string, RuleRow>): Core {
    core.(chaos := core.chaos.(rules := rows))
  }

  /** The run's rows with the chaos counters a rebuild has. */
  function Raised(env: Env, db: Db): Db {
    db.(core := WithRows(db.core, RaisedRows(env, db.ledger, db.core.chaos.rules)))
  }

  lemma {:induction false} ExtraAppend(env: Env, a: seq<Event>, b: seq<Event>, id: string)
    ensures Extra(env, a + b, id) == Extra(env, a, id) + Extra(env, b, id)
  {
    hide CountsAgain;
    if b == [] {
      assert a + b == a;
    } else {
      var n := |b| - 1;
      ExtraAppend(env, a, b[..n], id);
      assert (a + b)[..|a + b| - 1] == a + b[..n];
    }
  }

  lemma {:induction false} NoExtra(env: Env, events: seq<Event>, id: string)
    requires forall e | e in events :: !CountsAgain(env, e, id)
    ensures Extra(env, events, id) == 0
  {
    hide CountsAgain;
    if events != [] {
      NoExtra(env, events[..|events| - 1], id);
    }
  }

  lemma {:induction false} BracketExtra(env: Env, call: ToolCall, events: seq<Event>, status: int, body: Json,
                                        id: string)
    requires Dispatch.IsBracket(call, events, status, body)
    ensures Extra(env, events, id) == if CountsAgain(env, ToolRequest(call), id) then 1 else 0
  {
    hide RefusedNumber, Chaos.MatchesSome;
    var rest := events[1..];
    forall e | e in rest
      ensures !e.ToolRequest?
    {
      var i :| 0 <= i < |rest| && rest[i] == e;
      if i < |events| - 2 {
        InnerAt(call, events, status, body, i + 1);
      }
    }
    NoExtra(env, rest, id);
    assert events == [events[0]] + rest;
    ExtraAppend(env, [events[0]], rest, id);
    assert [events[0]][..0] == [];
  }

  /** Counters are raised only for rules of the policy. */
  lemma {:induction false} ExtraIsPolicy(env: Env, ledger: seq<Event>, id: string)
    requires Extra(env, ledger, id) > 0
    ensures id in ExtraIds(env, ledger)
  {
    hide RefusedNumber;
    var n := |ledger| - 1;
    if CountsAgain(env, ledger[n], id) {
      var rule :| rule in Policy(env) && rule.id == id;
    } else {
      ExtraIsPolicy(env, ledger[..n], id);
      var rule :| rule in Policy(env) && rule.id == id;
    }
  }

  lemma RaisedRowOf(env: Env, ledger: seq<Event>, rows: map<string, RuleRow>, id: string)
    ensures Chaos.RowOf(RaisedRows(env, ledger, rows), id) == RaisedRow(env, ledger, rows, id)
  {
    hide Extra;
    if id !in RaisedRows(env, ledger, rows) && Extra(env, ledger, id) > 0 {
      ExtraIsPolicy(env, ledger, id);
    }
  }

  // What one call does to the counters -------------------------------------------------

  function MatchIds(rules: seq<Rule>, op: string): set<string> {
    set rule | rule in rules && op in rule.operations :: rule.id
  }

  /** A call moved the counters: each matching rule counted it if the rules were consulted at all. */
  ghost predicate Moved(env: Env, rows: map<string, RuleRow>, after: map<string, RuleRow>, op: string, consulted: bool,
                        picked: seq<Event>)
  {
    && after.Keys == rows.Keys + (if consulted then MatchIds(Policy(env), op) else {})
    && forall id :: Chaos.RowOf(after, id) == RuleRow(
         Chaos.RowOf(rows, id).calls + (if consulted && Chaos.MatchesSome(Policy(env), op, id) then 1 else 0),
         Chaos.RowOf(rows, id).injections + Count(picked, id))
  }

  lemma {:induction false} DecideKeys(rules: seq<Rule>, rows: map<string, RuleRow>,
                                      snapshots: map<SnapshotKey, Observed>, op: string, args: Args)
    ensures Chaos.DecideOn(rules, rows, snapshots, op, args).rows.Keys == rows.Keys + MatchIds(rules, op)
  {
    hide Chaos.Active, Chaos.RowOf;
    if rules != [] {
      var n := |rules| - 1;
      DecideKeys(rules[..n], rows, snapshots, op, args);
      assert rules == rules[..n] + [rules[n]];
    }
  }

  lemma ConcealKeeps(op: Operation, call: ToolCall, h: Dispatch.Draft)
    requires Dispatch.Conceal(call, Dispatch.Capture(op, call, h)).Ok?
    requires Dispatch.PostEffect(h.decision) ==> h.decision.selected.value.id in h.core.chaos.rules
    ensures var f := Dispatch.Conceal(call, Dispatch.Capture(op, call, h)).value;
            && f.core.chaos.rules.Keys == h.core.chaos.rules.Keys
            && forall id :: Chaos.RowOf(f.core.chaos.rules, id).calls == Chaos.RowOf(h.core.chaos.rules, id).calls
  {
    hide Dispatch.Conceal, Dispatch.Capture;
    var c := Dispatch.Capture(op, call, h);
    CaptureFrames(op, call, h);
    if !Dispatch.PostEffect(c.decision) {
      ConcealsNothing(call, c);
    } else if Dispatch.Hides(c) {
      ConcealsOutcome(call, c);
    } else {
      GivesInjectionBack(call, c);
    }
  }

  lemma SelectedHasRow(env: Env, core: Core, call: ToolCall)
    requires env.config.chaosPolicy.Some? && ValidPolicy(env)
    ensures var d := DecisionOf(env, core, call); d.selected.Some? ==> d.selected.value.id in d.rows
  {
    hide Chaos.DecideOn;
    if DecisionOf(env, core, call).selected.Some? {
      var i := SelectedIsFirstActive(env, core, call);
      DecideKeys(Policy(env), core.chaos.rules, core.chaos.snapshots, call.op, call.args);
    }
  }

  /** One dispatch, from either decoder. */
  lemma TrailMoves(env: Env, op: Operation, core: Core, retried: bool, call: ToolCall, mode: NumberMode, t: Trail)
    requires ValidPolicy(env) && Followed(env, op, core, retried, call, mode, t)
    ensures Moved(env, core.chaos.rules, t.done.core.chaos.rules, call.op, !t.checked.skip,
                  Pick(Injections, t.done.events))
  {
    hide ValidPolicy, Injects, KeepsHidden, Pick, Chaos.DecideOn, Dispatch.Authorize, Dispatch.CheckSchema,
      Dispatch.RunHandler, Dispatch.Conceal, Dispatch.Capture, Dispatch.Inject, Chaos.RowOf, Count;
    TrailAccount(env, op, core, retried, call, mode, t);
    CheckLeavesChaos(env, op, core, call, mode);
    if t.checked.skip || env.config.chaosPolicy.None? {
      NotConsulted(env, call, t.checked);
      RunLeavesChaos(env, op, call, retried, mode, t.injected);
      ConcealKeeps(op, call, t.handled);
    } else {
      InjectConsults(env, core, call, t.checked);
      RunLeavesChaos(env, op, call, retried, mode, t.injected);
      SelectedHasRow(env, core, call);
      ConcealKeeps(op, call, t.handled);
      DecideKeys(Policy(env), core.chaos.rules, core.chaos.snapshots, call.op, call.args);
      forall id
        ensures Chaos.RowOf(t.done.core.chaos.rules, id).calls
             == Chaos.RowOf(core.chaos.rules, id).calls + (if Chaos.MatchesSome(Policy(env), call.op, id) then 1 else 0)
      {
        UniquePolicy(env);
        Chaos.DecideCounts(Policy(env), core.chaos.rules, core.chaos.snapshots, call.op, call.args, id);
      }
    }
  }

  lemma UniquePolicy(env: Env)
    requires ValidPolicy(env)
    ensures Chaos.UniqueIds(Policy(env))
  {
  }

  lemma NotConsulted(env: Env, call: ToolCall, d: Dispatch.Draft)
    requires d.skip || env.config.chaosPolicy.None?
    ensures Dispatch.Inject(env, call, d) == Ok(d)
  {
  }

  /** Counters that moved alike stay apart by the refused calls alone. */
  lemma RowsStayRaised(env: Env, ledger: seq<Event>, events: seq<Event>, rows: map<string, RuleRow>,
                       after: map<string, RuleRow>, raised: map<string, RuleRow>, op: string, ran: bool, reran: bool,
                       picked: seq<Event>)
    requires Moved(env, rows, after, op, ran, picked)
    requires Moved(env, RaisedRows(env, ledger, rows), raised, op, reran, picked)
    requires ran ==> reran
    requires forall id :: Extra(env, events, id)
                  == if reran && !ran && Chaos.MatchesSome(Policy(env), op, id) then 1 else 0
    ensures raised == RaisedRows(env, ledger + events, after)
  {
    hide Chaos.RowOf, Extra, Count;
    var want := RaisedRows(env, ledger + events, after);
    forall id
      ensures Extra(env, ledger + events, id) == Extra(env, ledger, id) + Extra(env, events, id)
      ensures Chaos.RowOf(raised, id) == Chaos.RowOf(want, id)
    {
      ExtraAppend(env, ledger, events, id);
      RaisedRowOf(env, ledger, rows, id);
      RaisedRowOf(env, ledger + events, after, id);
    }
    ExtraIdsGrow(env, ledger, ledger + events, op, reran && !ran);
    assert raised.Keys == want.Keys;
    SameRows(raised, want);
  }

  lemma ExtraIdsGrow(env: Env, ledger: seq<Event>, more: seq<Event>, op: string, grows: bool)
    requires forall id :: Extra(env, more, id)
                  == Extra(env, ledger, id) + if grows && Chaos.MatchesSome(Policy(env), op, id) then 1 else 0
    ensures ExtraIds(env, more) == ExtraIds(env, ledger) + if grows then MatchIds(Policy(env), op) else {}
  {
    hide Extra;
    var have, want := ExtraIds(env, more), ExtraIds(env, ledger) + if grows then MatchIds(Policy(env), op) else {};
    forall id
      ensures id in have <==> id in want
    {
      assert Extra(env, more, id)
          == Extra(env, ledger, id) + if grows && Chaos.MatchesSome(Policy(env), op, id) then 1 else 0;
      assert id in MatchIds(Policy(env), op) <==> Chaos.MatchesSome(Policy(env), op, id);
    }
  }

  lemma SameRows(a: map<string, RuleRow>, b: map<string, RuleRow>)
    requires a.Keys == b.Keys && forall id :: Chaos.RowOf(a, id) == Chaos.RowOf(b, id)
    ensures a == b
  {
    forall id | id in a
      ensures a[id] == b[id]
    {
      assert Chaos.RowOf(a, id) == Chaos.RowOf(b, id);
    }
  }

  // When the counters are the run's ------------------------------------------------------------

  lemma {:induction false} ExtraCounts(env: Env, ledger: seq<Event>, id: string)
    ensures Extra(env, ledger, id) > 0 <==> exists e | e in ledger :: CountsAgain(env, e, id)
  {
    hide CountsAgain;
    if ledger != [] {
      var n := |ledger| - 1;
      ExtraCounts(env, ledger[..n], id);
      assert ledger == ledger[..n] + [ledger[n]];
    }
  }

  /** The rebuilt rows are the run's exactly when no refused call of the ledger matches a chaos rule. */
  lemma CountersAreTheRuns(env: Env, db: Db)
    ensures Raised(env, db) == db <==> forall e, id | e in db.ledger :: !CountsAgain(env, e, id)
  {
    hide CountsAgain, Extra, Chaos.RowOf;
    var rows := db.core.chaos.rules;
    forall id
      ensures Extra(env, db.ledger, id) > 0 <==> exists e | e in db.ledger :: CountsAgain(env, e, id)
      ensures Chaos.RowOf(RaisedRows(env, db.ledger, rows), id) == RaisedRow(env, db.ledger, rows, id)
    {
      ExtraCounts(env, db.ledger, id);
      RaisedRowOf(env, db.ledger, rows, id);
    }
    if forall e, id | e in db.ledger :: !CountsAgain(env, e, id) {
      assert ExtraIds(env, db.ledger) == {};
      SameRows(RaisedRows(env, db.ledger, rows), rows);
    } else {
      var e, id :| e in db.ledger && CountsAgain(env, e, id);
      assert Chaos.RowOf(RaisedRows(env, db.ledger, rows), id) != Chaos.RowOf(rows, id);
    }
  }

  /** Under an authorization policy no refused call reaches the rules. */
  lemma EnforcedIsNotRaised(env: Env, db: Db)
    requires env.config.authPolicy.Some? || AllRepeatable(env, db.ledger)
    ensures Raised(env, db) == db
  {
    hide RefusedNumber, RaisedRows, Chaos.MatchesSome;
    CountersAreTheRuns(env, db);
  }
}
