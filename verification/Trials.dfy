/** Folding the trials of one benchmark case into one result. */
module Trials {

  datatype Status = Passed | Failed | Errored

  datatype Step = Step(operation: string, status: int)

  datatype CaseResult = CaseResult(
    id: string, status: Status, passed: bool, expectFail: bool, trials: int, passes: int,
    unsafeRetry: bool, agentRefunds: int, duplicateRefunds: int, mutations: int, violations: int,
    failedChecks: seq<string>, error: string, verdictTrial: int, trajectory: seq<Step>)

  function Max(a: int, b: int): int {
    if a > b then a else b
  }

  predicate IsPass(t: CaseResult) {
    t.status == Passed && t.passed
  }

  /** A trial says passed exactly when it passed, as every trial the benchmark runs does. */
  predicate Consistent(trials: seq<CaseResult>) {
    forall t | t in trials :: t.status == Passed <==> t.passed
  }

  // What the fold is, without an order ---------------------------------------------------

  function CountPasses(trials: seq<CaseResult>): nat {
    if trials == [] then 0 else CountPasses(trials[..|trials| - 1]) + (if IsPass(trials[|trials| - 1]) then 1 else 0)
  }

  predicate Has(trials: seq<CaseResult>, status: Status) {
    exists t | t in trials :: t.status == status
  }

  /** A failure must not be hidden; without one an error must not be; passed only when every trial passed. */
  function Verdict(trials: seq<CaseResult>): Status {
    if Has(trials, Failed) then Failed else if Has(trials, Errored) then Errored else Passed
  }

  datatype Counter = Refunds | Duplicates | Mutations | Violations

  function Read(c: Counter, t: CaseResult): int {
    match c
    case Refunds => t.agentRefunds
    case Duplicates => t.duplicateRefunds
    case Mutations => t.mutations
    case Violations => t.violations
  }

  /** The largest value of a counter over the trials. */
  predicate IsMaximum(c: Counter, trials: seq<CaseResult>, m: int) {
    && (exists t | t in trials :: Read(c, t) == m)
    && forall t | t in trials :: Read(c, t) <= m
  }

  predicate AnyUnsafe(trials: seq<CaseResult>) {
    exists t | t in trials :: t.unsafeRetry
  }

  /** The first trial a given status names, if any. */
  function FirstWith(trials: seq<CaseResult>, status: Status): (k: int)
    ensures -1 <= k < |trials|
    ensures k >= 0 ==> trials[k].status == status && forall j | 0 <= j < k :: trials[j].status != status
    ensures k < 0 ==> !Has(trials, status)
  {
    if trials == [] then -1 else
      var n := |trials| - 1;
      var before := FirstWith(trials[..n], status);
      if before >= 0 then before
      else if trials[n].status == status then n
      else
        assert trials == trials[..n] + [trials[n]];
        -1
  }

  /** Everything a folded result promises about its trials. */
  predicate Folds(trials: seq<CaseResult>, r: CaseResult)
    requires trials != []
  {
    && r.trials == |trials| && r.passes == CountPasses(trials)
    && r.status == Verdict(trials) && (r.passed <==> r.status == Passed)
    && (r.unsafeRetry <==> AnyUnsafe(trials))
    && (forall c: Counter :: IsMaximum(c, trials, Read(c, r)))
    && r.id == trials[0].id && r.expectFail == trials[0].expectFail && r.trajectory == trials[0].trajectory
    && (r.status != Passed ==>
          var k := FirstWith(trials, r.status);
          k >= 0 && r.failedChecks == trials[k].failedChecks && r.error == trials[k].error
          && (|trials| > 1 ==> r.verdictTrial == k + 1))
  }

  // The loop ---------------------------------------------------------------------------------

  datatype Tally = Tally(passes: nat, failing: int, errored: int, unsafeRetry: bool, refunds: int, duplicates: int,
                         mutations: int, violations: int)

  function TallyRead(c: Counter, t: Tally): int {
    match c
    case Refunds => t.refunds
    case Duplicates => t.duplicates
    case Mutations => t.mutations
    case Violations => t.violations
  }

  /** Where the loop stands after the first `i` trials; the counters start from the first trial. */
  predicate TalliedUpTo(trials: seq<CaseResult>, i: nat, t: Tally)
    requires 0 < |trials| && i <= |trials|
  {
    && t.passes == CountPasses(trials[..i])
    && t.failing == FirstWith(trials[..i], Failed) && t.errored == FirstWith(trials[..i], Errored)
    && (t.unsafeRetry <==> trials[0].unsafeRetry || AnyUnsafe(trials[..i]))
    && forall c: Counter :: CounterUpTo(c, trials[0], trials[..i], TallyRead(c, t))
  }

  function TallyNext(t: Tally, one: CaseResult, i: nat): Tally {
    Tally(
      if IsPass(one) then t.passes + 1 else t.passes,
      if !IsPass(one) && one.status == Failed && t.failing < 0 then i else t.failing,
      if !IsPass(one) && one.status != Failed && t.errored < 0 then i else t.errored,
      t.unsafeRetry || one.unsafeRetry, Max(t.refunds, one.agentRefunds), Max(t.duplicates, one.duplicateRefunds),
      Max(t.mutations, one.mutations), Max(t.violations, one.violations))
  }

  lemma TallyStep(trials: seq<CaseResult>, i: nat, t: Tally)
    requires 0 < |trials| && i < |trials| && Consistent(trials) && TalliedUpTo(trials, i, t)
    ensures TalliedUpTo(trials, i + 1, TallyNext(t, trials[i], i))
  {
    hide CounterUpTo, FirstWith, AnyUnsafe, CountPasses, Consistent;
    var now, next, one := trials[..i], trials[..i + 1], trials[i];
    var u := TallyNext(t, one, i);
    PrefixStep(trials, i);
    forall c: Counter
      ensures CounterUpTo(c, trials[0], next, TallyRead(c, u))
    {
      CounterStep(c, trials[0], now, one, TallyRead(c, t));
      assert next == now + [one];
    }
  }

  /** What one more trial adds to the count, the first indices and the unsafe flag. */
  lemma PrefixStep(trials: seq<CaseResult>, i: nat)
    requires i < |trials| && Consistent(trials)
    ensures var now, next, one := trials[..i], trials[..i + 1], trials[i];
            && (one.status == Passed <==> one.passed)
            && CountPasses(next) == CountPasses(now) + (if IsPass(one) then 1 else 0)
            && (AnyUnsafe(next) <==> AnyUnsafe(now) || one.unsafeRetry)
            && forall s: Status :: FirstWith(next, s) == if FirstWith(now, s) >= 0 then FirstWith(now, s)
              else if one.status == s then i else -1
  {
    var now, next, one := trials[..i], trials[..i + 1], trials[i];
    assert next[..i] == now && next == now + [one] && one in trials;
  }

  /** The running maximum of a counter, started from the first trial. */
  predicate CounterUpTo(c: Counter, first: CaseResult, trials: seq<CaseResult>, m: int) {
    && (m == Read(c, first) || exists one | one in trials :: Read(c, one) == m)
    && Read(c, first) <= m && forall one | one in trials :: Read(c, one) <= m
  }

  lemma CounterStep(c: Counter, first: CaseResult, trials: seq<CaseResult>, one: CaseResult, m: int)
    requires CounterUpTo(c, first, trials, m)
    ensures CounterUpTo(c, first, trials + [one], Max(m, Read(c, one)))
  {
    assert one in trials + [one];
  }

  function Opening(trials: seq<CaseResult>): Tally
    requires trials != []
  {
    var t := trials[0];
    Tally(0, -1, -1, t.unsafeRetry, t.agentRefunds, t.duplicateRefunds, t.mutations, t.violations)
  }

  function TallyOf(trials: seq<CaseResult>, i: nat): Tally
    requires trials != [] && i <= |trials|
  {
    if i == 0 then Opening(trials) else TallyNext(TallyOf(trials, i - 1), trials[i - 1], i - 1)
  }

  /** Indices the loop records are always indices of trials. */
  lemma {:induction false} TallyInRange(trials: seq<CaseResult>, i: nat)
    requires trials != [] && i <= |trials|
    ensures -1 <= TallyOf(trials, i).failing < i && -1 <= TallyOf(trials, i).errored < i
  {
    if i > 0 {
      TallyInRange(trials, i - 1);
    }
  }

  function Assemble(trials: seq<CaseResult>, t: Tally): CaseResult
    requires trials != [] && t.failing < |trials| && t.errored < |trials|
  {
    var r := trials[0].(
      trials := |trials|, passes := t.passes, unsafeRetry := t.unsafeRetry, agentRefunds := t.refunds,
      duplicateRefunds := t.duplicates, mutations := t.mutations, violations := t.violations);
    var k := if t.failing < 0 then t.errored else t.failing;
    if k < 0 then r else
      r.(status := trials[k].status, passed := false, failedChecks := trials[k].failedChecks, error := trials[k].error,
         verdictTrial := if |trials| > 1 then k + 1 else r.verdictTrial)
  }

  function FoldOf(trials: seq<CaseResult>): CaseResult
    requires trials != []
  {
    TallyInRange(trials, |trials|);
    Assemble(trials, TallyOf(trials, |trials|))
  }

  method FoldTrials(trials: seq<CaseResult>) returns (r: CaseResult)
    requires trials != []
    ensures r == FoldOf(trials)
  {
    r := trials[0].(trials := |trials|);
    var passes, failing, errored := 0, -1, -1;
    for i := 0 to |trials|
      invariant -1 <= failing < i && -1 <= errored < i
      invariant TallyOf(trials, i)
                == Tally(passes, failing, errored, r.unsafeRetry, r.agentRefunds, r.duplicateRefunds, r.mutations,
                         r.violations)
      invariant r == trials[0].(trials := |trials|, unsafeRetry := r.unsafeRetry, agentRefunds := r.agentRefunds,
                                duplicateRefunds := r.duplicateRefunds, mutations := r.mutations,
                                    violations := r.violations)
    {
      var one := trials[i];
      if IsPass(one) {
        passes := passes + 1;
      } else if one.status == Failed && failing < 0 {
        failing := i;
      } else if one.status != Failed && errored < 0 {
        errored := i;
      }
      r := r.(unsafeRetry := r.unsafeRetry || one.unsafeRetry, agentRefunds := Max(r.agentRefunds, one.agentRefunds),
              duplicateRefunds := Max(r.duplicateRefunds, one.duplicateRefunds),
                  mutations := Max(r.mutations, one.mutations),
              violations := Max(r.violations, one.violations));
    }
    r := r.(passes := passes);
    var verdict := if failing < 0 then errored else failing;
    if verdict >= 0 {
      var t := trials[verdict];
      r := r.(status := t.status, passed := false, failedChecks := t.failedChecks, error := t.error);
      if |trials| > 1 {
        r := r.(verdictTrial := verdict + 1);
      }
    }
  }

  lemma {:induction false} TallyIsRight(trials: seq<CaseResult>, i: nat)
    requires trials != [] && i <= |trials| && Consistent(trials)
    ensures TalliedUpTo(trials, i, TallyOf(trials, i))
  {
    if i > 0 {
      TallyIsRight(trials, i - 1);
      TallyStep(trials, i - 1, TallyOf(trials, i - 1));
    }
  }

  /** The fold of consistent trials says what all of them together say. */
  lemma FoldIsRight(trials: seq<CaseResult>)
    requires trials != [] && Consistent(trials)
    ensures Folds(trials, FoldOf(trials))
  {
    var t := TallyOf(trials, |trials|);
    TallyIsRight(trials, |trials|);
    assert trials[..|trials|] == trials;
    var r := FoldOf(trials);
    FoldStatus(trials, t);
    forall c: Counter
      ensures IsMaximum(c, trials, Read(c, r))
    {
      assert Read(c, r) == TallyRead(c, t) && trials[0] in trials;
    }
  }

  lemma FoldStatus(trials: seq<CaseResult>, t: Tally)
    requires trials != [] && Consistent(trials)
    requires t.failing == FirstWith(trials, Failed) && t.errored == FirstWith(trials, Errored)
    ensures Assemble(trials, t).status == Verdict(trials) && (Assemble(trials, t).passed <==> Verdict(trials) == Passed)
    ensures Verdict(trials) != Passed
            ==> FirstWith(trials, Verdict(trials)) == (if t.failing < 0 then t.errored else t.failing) >= 0
  {
    assert trials[0] in trials;
    var k := if t.failing < 0 then t.errored else t.failing;
    if k >= 0 {
      assert trials[k] in trials;
    }
  }

  // Order does not matter --------------------------------------------------------------------

  lemma {:induction false} CountAppend(a: seq<CaseResult>, b: seq<CaseResult>)
    ensures CountPasses(a + b) == CountPasses(a) + CountPasses(b)
  {
    if b == [] {
      assert a + b == a;
    } else {
      var n := |b| - 1;
      CountAppend(a, b[..n]);
      assert (a + b)[..|a + b| - 1] == a + b[..n];
    }
  }

  lemma CountWithout(b: seq<CaseResult>, k: nat)
    requires k < |b|
    ensures CountPasses(b) == CountPasses(b[..k] + b[k + 1..]) + (if IsPass(b[k]) then 1 else 0)
  {
    hide CountPasses, IsPass;
    CountAppend(b[..k], b[k + 1..]);
    CountAppend(b[..k] + [b[k]], b[k + 1..]);
    CountAppend(b[..k], [b[k]]);
    assert b == b[..k] + [b[k]] + b[k + 1..];
    CountOne(b[k]);
  }

  lemma CountOne(t: CaseResult)
    ensures CountPasses([t]) == if IsPass(t) then 1 else 0
  {
    assert [t][..0] == [];
  }

  lemma BagWithout(b: seq<CaseResult>, k: nat)
    requires k < |b|
    ensures multiset(b[..k] + b[k + 1..]) == multiset(b) - multiset{b[k]}
  {
    assert b == b[..k] + [b[k]] + b[k + 1..];
  }

  lemma {:induction false} CountIgnoresOrder(a: seq<CaseResult>, b: seq<CaseResult>)
    requires multiset(a) == multiset(b)
    ensures CountPasses(a) == CountPasses(b)
    decreases |a|
  {
    hide CountPasses, IsPass;
    if a == [] {
      assert |multiset(b)| == 0 && b == [];
    } else {
      assert a[0] in multiset(a) && a[0] in b;
      var k :| 0 <= k < |b| && b[k] == a[0];
      BagWithout(a, 0);
      BagWithout(b, k);
      CountIgnoresOrder(a[..0] + a[1..], b[..k] + b[k + 1..]);
      CountWithout(a, 0);
      CountWithout(b, k);
    }
  }

  lemma SameMembers(a: seq<CaseResult>, b: seq<CaseResult>)
    requires multiset(a) == multiset(b)
    ensures |a| == |b| && forall t :: t in a <==> t in b
  {
    assert |a| == |multiset(a)| && |b| == |multiset(b)|;
    forall t
      ensures t in a <==> t in b
    {
      assert t in a <==> t in multiset(a);
      assert t in b <==> t in multiset(b);
    }
  }

  lemma MaximumIgnoresOrder(c: Counter, a: seq<CaseResult>, b: seq<CaseResult>, m: int)
    requires (forall t :: t in a <==> t in b) && IsMaximum(c, a, m)
    ensures IsMaximum(c, b, m)
  {
    var t :| t in a && Read(c, t) == m;
    assert t in b;
  }

  lemma MaximumIsUnique(c: Counter, trials: seq<CaseResult>, m: int, n: int)
    requires IsMaximum(c, trials, m) && IsMaximum(c, trials, n)
    ensures m == n
  {
  }

  lemma VerdictIgnoresOrder(a: seq<CaseResult>, b: seq<CaseResult>)
    requires forall t :: t in a <==> t in b
    ensures Verdict(a) == Verdict(b) && (AnyUnsafe(a) <==> AnyUnsafe(b)) && (Consistent(a) ==> Consistent(b))
  {
    forall s: Status
      ensures Has(a, s) <==> Has(b, s)
    {
    }
  }

  /** Permuting the trials changes neither status, pass count nor any safety counter. */
  lemma FoldIgnoresOrder(a: seq<CaseResult>, b: seq<CaseResult>)
    requires a != [] && Consistent(a) && multiset(a) == multiset(b)
    ensures b != []
    ensures var x, y := FoldOf(a), FoldOf(b);
            && x.status == y.status && x.passed == y.passed && x.trials == y.trials && x.passes == y.passes
            && x.unsafeRetry == y.unsafeRetry && forall c: Counter :: Read(c, x) == Read(c, y)
  {
    hide FoldOf, Verdict, AnyUnsafe, Consistent, IsMaximum;
    SameMembers(a, b);
    VerdictIgnoresOrder(a, b);
    CountIgnoresOrder(a, b);
    FoldIsRight(a);
    FoldIsRight(b);
    forall c: Counter
      ensures Read(c, FoldOf(a)) == Read(c, FoldOf(b))
    {
      MaximumIgnoresOrder(c, a, b, Read(c, FoldOf(a)));
      MaximumIsUnique(c, b, Read(c, FoldOf(a)), Read(c, FoldOf(b)));
    }
  }

  lemma {:induction false} AllPassedCount(trials: seq<CaseResult>)
    requires Consistent(trials)
    ensures CountPasses(trials) <= |trials|
    ensures CountPasses(trials) == |trials| <==> Verdict(trials) == Passed
  {
    if trials != [] {
      var n := |trials| - 1;
      var before := trials[..n];
      AllPassedCount(before);
      assert trials == before + [trials[n]] && trials[n] in trials;
      forall s: Status
        ensures Has(trials, s) <==> Has(before, s) || trials[n].status == s
      {
      }
    }
  }

  /** A folded case is passed exactly when every trial passed. */
  lemma PassedMeansAllPassed(trials: seq<CaseResult>)
    requires trials != [] && Consistent(trials)
    ensures var r := FoldOf(trials); 0 <= r.passes <= r.trials && (r.status == Passed <==> r.passes == r.trials)
  {
    FoldIsRight(trials);
    AllPassedCount(trials);
  }

  function Sample(status: Status, passed: bool): CaseResult {
    CaseResult([], status, passed, false, 0, 0, false, 0, 0, 0, 0, [], [], 0, [])
  }

  // Trials no benchmark writes -----------------------------------------------------------------

  /** Neither a pass nor a failure: an error, or a trial marked passed that did not pass. */
  predicate Off(t: CaseResult) {
    !IsPass(t) && t.status != Failed
  }

  /** Where the tally stands, whatever the trials say. */
  lemma {:induction false} TallyFinds(trials: seq<CaseResult>, i: nat)
    requires trials != [] && i <= |trials|
    ensures var t := TallyOf(trials, i);
            && -1 <= t.failing < i && -1 <= t.errored < i
            && (t.failing < 0 <==> forall j | 0 <= j < i :: trials[j].status != Failed)
            && (t.failing >= 0 ==> trials[t.failing].status == Failed)
            && (t.errored < 0 <==> forall j | 0 <= j < i :: !Off(trials[j]))
            && (t.errored >= 0 ==> Off(trials[t.errored]) && forall j | 0 <= j < t.errored :: !Off(trials[j]))
  {
    if i > 0 {
      TallyFinds(trials, i - 1);
    }
  }

  /** The folded status of any trials: a failure if there is one, else the first trial that did not pass. */
  lemma FoldStatusOfAny(trials: seq<CaseResult>)
    requires trials != []
    ensures var s := FoldOf(trials).status;
            && (Has(trials, Failed) ==> s == Failed)
            && (!Has(trials, Failed) && Off(trials[0]) ==> s == trials[0].status)
            && (!Has(trials, Failed) ==> s == Passed || Has(trials, Errored))
            && (!Has(trials, Failed) && Has(trials, Errored) && !HasOdd(trials) ==> s == Errored)
  {
    TallyFinds(trials, |trials|);
    var t := TallyOf(trials, |trials|);
    var k := if t.failing < 0 then t.errored else t.failing;
    assert trials[0] in trials;
    if k >= 0 {
      assert trials[k] in trials;
    }
    if Has(trials, Errored) {
      var e :| e in trials && e.status == Errored;
      var j :| 0 <= j < |trials| && trials[j] == e;
      assert Off(trials[j]);
    }
  }

  predicate HasOdd(trials: seq<CaseResult>) {
    exists t | t in trials :: t.status == Passed && !t.passed
  }

  ghost predicate StatusIgnoresOrder(a: seq<CaseResult>)
    requires a != []
  {
    forall b | multiset(b) == multiset(a) :: b != [] && FoldOf(b).status == FoldOf(a).status
  }

  lemma ToFront(a: seq<CaseResult>, t: CaseResult) returns (b: seq<CaseResult>)
    requires t in a
    ensures b != [] && b[0] == t && multiset(b) == multiset(a)
  {
    var k :| 0 <= k < |a| && a[k] == t;
    BagWithout(a, k);
    b := [t] + (a[..k] + a[k + 1..]);
  }

  lemma MembersDecide(a: seq<CaseResult>, b: seq<CaseResult>)
    requires forall t :: t in a <==> t in b
    ensures (HasOdd(a) <==> HasOdd(b)) && forall s: Status :: Has(a, s) <==> Has(b, s)
  {
  }

  /**
    For any trials at all, the folded status is independent of their order exactly when one
    of them failed, or there are not both an error and a trial marked passed that did not pass.
   */
  lemma StatusIgnoresOrderIff(a: seq<CaseResult>)
    requires a != []
    ensures StatusIgnoresOrder(a) <==> Has(a, Failed) || !HasOdd(a) || !Has(a, Errored)
  {
    hide FoldOf, Has, HasOdd;
    if Has(a, Failed) || !HasOdd(a) || !Has(a, Errored) {
      forall b | multiset(b) == multiset(a)
        ensures b != [] && FoldOf(b).status == FoldOf(a).status
      {
        SameMembers(a, b);
        MembersDecide(a, b);
        FoldStatusOfAny(a);
        FoldStatusOfAny(b);
      }
    } else {
      var odd, bad := OddAndErrored(a);
      var b := ToFront(a, odd);
      var c := ToFront(a, bad);
      SameMembers(a, b);
      SameMembers(a, c);
      MembersDecide(a, b);
      MembersDecide(a, c);
      FoldStatusOfAny(b);
      FoldStatusOfAny(c);
      assert FoldOf(b).status != FoldOf(c).status;
    }
  }

  lemma OddAndErrored(a: seq<CaseResult>) returns (odd: CaseResult, bad: CaseResult)
    requires HasOdd(a) && Has(a, Errored)
    ensures odd in a && bad in a && odd.status == Passed && !odd.passed && bad.status == Errored
  {
    odd :| odd in a && odd.status == Passed && !odd.passed;
    bad :| bad in a && bad.status == Errored;
  }
}
