/** Chaos rules: per-rule counters, selection of the first active rule, and snapshots. */
module Chaos {
  import opened Basics
  import opened Protocol

  datatype Decision = Decision(
    selected: Option<Rule>, matching: nat, captures: seq<string>, rows: map<string, RuleRow>)

  /** Policy validation refuses duplicate rule IDs. */
  predicate UniqueIds(rules: seq<Rule>) {
    forall i, j | 0 <= i < j < |rules| :: rules[i].id != rules[j].id
  }

  function RowOf(rows: map<string, RuleRow>, id: string): RuleRow {
    if id in rows then rows[id] else RuleRow(0, 0)
  }

  /** Whether a rule would fire on its next matching call, judged on the stored counters alone. */
  predicate Active(rule: Rule, rows: map<string, RuleRow>, snapshots: map<SnapshotKey, Observed>, op: string,
                   args: Args) {
    && op in rule.operations
    && RowOf(rows, rule.id).calls + 1 > rule.afterCalls
    && (rule.times == 0 || RowOf(rows, rule.id).injections < rule.times)
    && (rule.kind.StaleRead? ==> SnapshotKey(rule.id, op, args) in snapshots)
  }

  /** One iteration over the policy: advance a matching rule, select it if nothing was selected yet. */
  function Advance(acc: Decision, rule: Rule, snapshots: map<SnapshotKey, Observed>, op: string, args: Args): Decision {
    if op !in rule.operations then acc else
      var row := RowOf(acc.rows, rule.id);
      var captures := if rule.kind.StaleRead? then acc.captures + [rule.id] else acc.captures;
      if acc.selected.None? && Active(rule, acc.rows, snapshots, op, args) then
        Decision(Some(rule), row.calls + 1, captures, acc.rows[rule.id := RuleRow(row.calls + 1, row.injections + 1)])
      else
        Decision(acc.selected, acc.matching, captures, acc.rows[rule.id := RuleRow(row.calls + 1, row.injections)])
  }

  function DecideOn(rules: seq<Rule>, rows: map<string, RuleRow>, snapshots: map<SnapshotKey, Observed>, op: string,
                    args: Args): Decision {
    if rules == [] then Decision(None, 0, [], rows)
    else Advance(DecideOn(rules[..|rules| - 1], rows, snapshots, op, args), rules[|rules| - 1], snapshots, op, args)
  }

  function StaleIds(rules: seq<Rule>, op: string): seq<string> {
    if rules == [] then [] else
      var last := rules[|rules| - 1];
      StaleIds(rules[..|rules| - 1], op) + (if op in last.operations && last.kind.StaleRead? then [last.id] else [])
  }

  predicate MatchesSome(rules: seq<Rule>, op: string, id: string) {
    exists rule | rule in rules :: rule.id == id && op in rule.operations
  }

  lemma DecideSnoc(rules: seq<Rule>, i: nat, rows: map<string, RuleRow>, snapshots: map<SnapshotKey, Observed>,
                   op: string, args: Args)
    requires i < |rules|
    ensures DecideOn(rules[..i + 1], rows, snapshots, op, args)
         == Advance(DecideOn(rules[..i], rows, snapshots, op, args), rules[i], snapshots, op, args)
  {
    assert rules[..i + 1][..i] == rules[..i];
  }

  lemma {:induction false} DecideCaptures(
    rules: seq<Rule>, rows: map<string, RuleRow>, snapshots: map<SnapshotKey, Observed>, op: string, args: Args)
    ensures var d := DecideOn(rules, rows, snapshots, op, args);
            (d.selected.Some? ==> d.selected.value in rules) && d.captures == StaleIds(rules, op)
  {
    if rules != [] {
      DecideCaptures(rules[..|rules| - 1], rows, snapshots, op, args);
    }
  }

  /** One iteration changes only the matching rule's own counters. */
  lemma AdvanceRow(acc: Decision, rule: Rule, snapshots: map<SnapshotKey, Observed>, op: string, args: Args, id: string)
    ensures var d := Advance(acc, rule, snapshots, op, args);
            var fired := d.selected != acc.selected && id == rule.id;
            RowOf(d.rows, id) == RuleRow(
              RowOf(acc.rows, id).calls + (if id == rule.id && op in rule.operations then 1 else 0),
              RowOf(acc.rows, id).injections + (if fired then 1 else 0))
  {
  }

  /** Counters: every matching rule counts the call once, only the selected rule counts an injection. */
  lemma {:induction false} DecideCounts(
    rules: seq<Rule>, rows: map<string, RuleRow>, snapshots: map<SnapshotKey, Observed>, op: string, args: Args,
        id: string)
    requires UniqueIds(rules)
    ensures var d := DecideOn(rules, rows, snapshots, op, args);
            RowOf(d.rows, id) == RuleRow(
              RowOf(rows, id).calls + (if MatchesSome(rules, op, id) then 1 else 0),
              RowOf(rows, id).injections + (if d.selected.Some? && d.selected.value.id == id then 1 else 0))
  {
    if rules != [] {
      var n := |rules| - 1;
      var prefix, last := rules[..n], rules[n];
      DecideCounts(prefix, rows, snapshots, op, args, id);
      DecideCaptures(prefix, rows, snapshots, op, args);
      AdvanceRow(DecideOn(prefix, rows, snapshots, op, args), last, snapshots, op, args, id);
      MatchesSnoc(rules, op, id);
    }
  }

  lemma MatchesSnoc(rules: seq<Rule>, op: string, id: string)
    requires UniqueIds(rules) && rules != []
    ensures var last := rules[|rules| - 1];
            var prefix := rules[..|rules| - 1];
            && (forall rule | rule in prefix :: rule.id != last.id)
            && (MatchesSome(rules, op, id) <==> MatchesSome(prefix, op, id) || (last.id == id && op in last.operations))
  {
    assert forall rule :: rule in rules <==> rule in rules[..|rules| - 1] || rule == rules[|rules| - 1];
  }

  /** Selection: the chosen rule is the first active one in policy order, judged on the stored counters. */
  lemma {:induction false} DecideSelectsFirstActive(
    rules: seq<Rule>, rows: map<string, RuleRow>, snapshots: map<SnapshotKey, Observed>, op: string, args: Args)
    returns (i: nat)
    requires UniqueIds(rules)
    ensures i <= |rules|
    ensures forall j | 0 <= j < i :: !Active(rules[j], rows, snapshots, op, args)
    ensures i < |rules| ==> Active(rules[i], rows, snapshots, op, args)
    ensures var d := DecideOn(rules, rows, snapshots, op, args);
            if i == |rules| then d.selected == None
            else d.selected == Some(rules[i]) && d.matching == RowOf(rows, rules[i].id).calls + 1
  {
    hide Active, RowOf;
    i := 0;
    if rules != [] {
      var n := |rules| - 1;
      var prefix, last := rules[..n], rules[n];
      i := DecideSelectsFirstActive(prefix, rows, snapshots, op, args);
      assert forall j | 0 <= j < n :: prefix[j] == rules[j];
      var acc := DecideOn(prefix, rows, snapshots, op, args);
      LaterRuleIsFresh(rules, rows, snapshots, op, args);
      AdvanceSelects(acc, last, rows, snapshots, op, args);
      if i == n && !Active(last, rows, snapshots, op, args) {
        i := |rules|;
      }
    }
  }

  /** The counters of a rule are untouched until its own turn comes. */
  lemma LaterRuleIsFresh(rules: seq<Rule>, rows: map<string, RuleRow>, snapshots: map<SnapshotKey, Observed>,
                         op: string, args: Args)
    requires UniqueIds(rules) && rules != []
    ensures var n := |rules| - 1;
            RowOf(DecideOn(rules[..n], rows, snapshots, op, args).rows, rules[n].id) == RowOf(rows, rules[n].id)
  {
    hide RowOf, DecideOn;
    var n := |rules| - 1;
    DecideCounts(rules[..n], rows, snapshots, op, args, rules[n].id);
    DecideCaptures(rules[..n], rows, snapshots, op, args);
    MatchesSnoc(rules, op, rules[n].id);
  }

  /** A rule is selected in its turn exactly when none was before and it is active on the stored counters. */
  lemma AdvanceSelects(acc: Decision, rule: Rule, rows: map<string, RuleRow>, snapshots: map<SnapshotKey, Observed>,
                       op: string, args: Args)
    requires RowOf(acc.rows, rule.id) == RowOf(rows, rule.id)
    ensures var d := Advance(acc, rule, snapshots, op, args);
            if acc.selected.None? && Active(rule, rows, snapshots, op, args)
            then d.selected == Some(rule) && d.matching == RowOf(rows, rule.id).calls + 1
            else d.selected == acc.selected && d.matching == acc.matching
  {
  }

  /** One rule of the loop: the counter is written first, and again when the rule fires. */
  method Consult(acc: Decision, rule: Rule, snapshots: map<SnapshotKey, Observed>, op: string, args: Args)
    returns (next: Decision)
    ensures next == Advance(acc, rule, snapshots, op, args)
  {
    if op !in rule.operations {
      return acc;
    }
    var captures := acc.captures;
    if rule.kind.StaleRead? {
      captures := captures + [rule.id];
    }
    var row := RowOf(acc.rows, rule.id);
    var calls, injections := row.calls + 1, row.injections;
    var state := acc.rows[rule.id := RuleRow(calls, injections)];
    var active := acc.selected.None? && calls > rule.afterCalls && (rule.times == 0 || injections < rule.times);
    if active && rule.kind.StaleRead? {
      active := SnapshotKey(rule.id, op, args) in snapshots;
    }
    if !active {
      return Decision(acc.selected, acc.matching, captures, state);
    }
    state := state[rule.id := RuleRow(calls, injections + 1)];
    assert state == acc.rows[rule.id := RuleRow(calls, injections + 1)];
    next := Decision(Some(rule), calls, captures, state);
  }

  /** The rule loop as the dispatcher runs it, over locals that the transaction writes back. */
  method Decide(rules: seq<Rule>, rows: map<string, RuleRow>, snapshots: map<SnapshotKey, Observed>, op: string,
                args: Args)
    returns (d: Decision)
    ensures d == DecideOn(rules, rows, snapshots, op, args)
  {
    hide Advance;
    d := Decision(None, 0, [], rows);
    for i := 0 to |rules|
      invariant d == DecideOn(rules[..i], rows, snapshots, op, args)
    {
      DecideSnoc(rules, i, rows, snapshots, op, args);
      d := Consult(d, rules[i], snapshots, op, args);
    }
    assert rules[..|rules|] == rules;
  }

  /** First write wins: an existing snapshot is kept. */
  function SaveSnapshots(snapshots: map<SnapshotKey, Observed>, ids: seq<string>, op: string, args: Args,
                         seen: Observed)
    : (after: map<SnapshotKey, Observed>)
    ensures forall k | k in snapshots :: k in after && after[k] == snapshots[k]
    ensures forall k | k in after && k !in snapshots ::
              k.rule in ids && k.op == op && k.args == args && after[k] == seen
    ensures forall id | id in ids :: SnapshotKey(id, op, args) in after
  {
    if ids == [] then snapshots else
      var before := SaveSnapshots(snapshots, ids[..|ids| - 1], op, args, seen);
      var key := SnapshotKey(ids[|ids| - 1], op, args);
      if key in before then before else before[key := seen]
  }
}
