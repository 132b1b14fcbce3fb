/** The regression gate: a candidate report judged against an approved baseline. */
module Gate {
  import opened Basics
  import opened Floats
  import T = Trials

  type Case = T.CaseResult

  datatype Kind =
    | CaseMissing | NewlyFailing | PassRateDrop | ControlUndetected | ExtraMutations | NewViolation
    | NewUnsafeRetry | NewDuplicateRefund | CandidateUnmeasured | TrajectoryChanged | CaseAdded
    | BaselineUnmeasured | CandidateErrored | SuiteChanged | NewlyPassing | ControlDetected | PassRateImproved

  datatype Mode = DefaultMode | FailMode | WarnMode | IgnoreMode | UnknownMode

  datatype Options = Options(tolerance: real, trajectory: Mode)

  datatype Report = Report(suite: string, version: int, digest: string, cases: seq<Case>)

  datatype Finding = Finding(id: string, kind: Kind)

  datatype Findings = Findings(regressions: seq<Finding>, warnings: seq<Finding>, improvements: seq<Finding>)

  /** The rounding allowance, itself a float64 value. */
  function Epsilon(): (e: real)
    ensures e >= 0.0
  {
    FlSides(0.000000001);
    Fl(0.000000001)
  }

  function Trials(c: Case): (n: int)
    ensures n >= 1
  {
    if c.trials < 1 then 1 else c.trials
  }

  predicate PassedNothing(c: Case) {
    c.passes == 0 || Trials(c) <= 1
  }

  /** A share of trials as float64 arithmetic computes it. */
  function Share(part: int, whole: int): real
    requires whole >= 1
  {
    FlSides(whole as real);
    Fl(Fl(part as real) / Fl(whole as real))
  }

  function PassRate(c: Case): real {
    Share(c.passes, Trials(c))
  }

  function DetectionRate(c: Case): real {
    Share(Trials(c) - c.passes, Trials(c))
  }

  predicate IsControl(b: Case, c: Case) {
    b.expectFail && c.expectFail
  }

  predicate Unmeasured(control: bool, x: Case) {
    x.status == T.Errored && (control || PassedNothing(x))
  }

  predicate Rated(b: Case, c: Case, v2: bool) {
    !IsControl(b, c) && v2 && !Unmeasured(false, c) && (b.trials > 1 || c.trials > 1)
  }

  predicate ControlRated(b: Case, c: Case, v2: bool) {
    IsControl(b, c) && v2 && c.status != T.Errored && (b.trials > 1 || c.trials > 1)
  }

  /** A rate fell by more than the tolerance, or rose, beyond the rounding allowance. */
  predicate Fell(before: real, after: real, tolerance: real) {
    after < Fl(Fl(before - tolerance) - Epsilon())
  }

  predicate Rose(before: real, after: real) {
    after > Fl(before + Epsilon())
  }

  // One case ---------------------------------------------------------------------------------

  datatype Verdict = Verdict(regress: seq<Kind>, warn: seq<Kind>, improve: seq<Kind>)

  function Both(a: Verdict, b: Verdict): Verdict {
    Verdict(a.regress + b.regress, a.warn + b.warn, a.improve + b.improve)
  }

  function Quiet(): Verdict {
    Verdict([], [], [])
  }

  function Regress(kind: Kind, when_: bool): Verdict {
    if when_ then Verdict([kind], [], []) else Quiet()
  }

  function Warn(kind: Kind, when_: bool): Verdict {
    if when_ then Verdict([], [kind], []) else Quiet()
  }

  /** The verdict on how the case came out. */
  function OutcomeOf(b: Case, c: Case, v2: bool, tolerance: real): Verdict {
    var control := IsControl(b, c);
    var lost := Unmeasured(control, c);
    if ControlRated(b, c, v2) then
      if Fell(DetectionRate(b), DetectionRate(c), tolerance) then Verdict([ControlUndetected], [], [])
      else if Rose(DetectionRate(b), DetectionRate(c)) then Verdict([], [], [ControlDetected])
      else Quiet()
    else if control then
      if b.status == T.Failed && c.status != T.Failed then Verdict([ControlUndetected], [], [])
      else if b.status != T.Failed && c.status == T.Failed then Verdict([], [], [ControlDetected])
      else Quiet()
    else if lost && b.status == T.Passed then Verdict([NewlyFailing], [], [])
    else if lost && b.passes > 0 then Verdict([CandidateUnmeasured], [], [])
    else if lost then Verdict([], [CandidateErrored], [])
    else if b.status == T.Passed && c.status == T.Failed && !Rated(b, c, v2) then Verdict([NewlyFailing], [], [])
    else if b.status != T.Passed && c.status == T.Passed && !Rated(b, c, v2) then Verdict([], [], [NewlyPassing])
    else Quiet()
  }

  /** The verdict on what the candidate did to the world, and on its pass rate. */
  function EffectsOf(b: Case, c: Case, v2: bool, tolerance: real): Verdict {
    var always := Both(Regress(NewUnsafeRetry, !b.unsafeRetry && c.unsafeRetry),
                       Regress(NewDuplicateRefund, c.agentRefunds > b.agentRefunds));
    if !v2 || Unmeasured(IsControl(b, c), c) then always
    else
      var counted := Both(Regress(ExtraMutations, c.mutations > b.mutations),
                          Regress(NewViolation, c.violations > b.violations));
      var rate :=
        if !Rated(b, c, v2) then Quiet()
        else if Fell(PassRate(b), PassRate(c), tolerance) then Verdict([PassRateDrop], [], [])
        else if Rose(PassRate(b), PassRate(c)) then Verdict([], [], [PassRateImproved])
        else Quiet();
      Both(always, Both(counted, rate))
  }

  function PathOf(b: Case, c: Case, v2: bool, mode: Mode): Verdict {
    if !v2 || Unmeasured(IsControl(b, c), c) || mode.IgnoreMode? || b.status == T.Errored || c.status == T.Errored
       || b.trajectory == c.trajectory then Quiet()
    else if mode.FailMode? then Verdict([TrajectoryChanged], [], [])
    else Verdict([], [TrajectoryChanged], [])
  }

  function CaseVerdict(b: Case, c: Case, v2: bool, o: Options): Verdict {
    if Unmeasured(IsControl(b, c), b) then Verdict([], [BaselineUnmeasured], [])
    else
      var errored := Warn(CandidateErrored, c.status == T.Errored && !Unmeasured(IsControl(b, c), c)
          && !IsControl(b, c));
      Both(Both(OutcomeOf(b, c, v2, o.tolerance), errored),
           Both(EffectsOf(b, c, v2, o.tolerance), PathOf(b, c, v2, o.trajectory)))
  }

  // What a verdict means -----------------------------------------------------------------------

  /** A case as a bench run writes it, folded from its trials. */
  predicate Folded(c: Case) {
    1 <= c.trials && 0 <= c.passes <= c.trials && (c.status == T.Passed <==> c.passes == c.trials)
  }

  lemma FoldedCases(trials: seq<Case>)
    requires trials != [] && T.Consistent(trials)
    ensures Folded(T.FoldOf(trials))
  {
    T.PassedMeansAllPassed(trials);
    T.FoldIsRight(trials);
  }

  // Where rounding hides a loss ------------------------------------------------------------------

  /** One minus the allowance is this many units of 2^-53. */
  const THRESHOLD: int := 9_007_199_245_733_793

  lemma ThresholdIs()
    ensures Fl(Fl(1.0 - 0.0) - Epsilon()) == THRESHOLD as real / SCALE
  {
    hide RoundMagnitude;
    SmallerError(0.000000001);
    OneIsOne();
    FlInRange(1.0 - Epsilon());
    assert NearestInt((1.0 - Epsilon()) * SCALE) == THRESHOLD;
  }

  lemma OneIsOne()
    ensures Fl(1.0) == 1.0
  {
    OneIsFixed(DOUBLINGS);
  }

  /** Rounding to below an odd number means standing at most half a unit below it. */
  lemma NearestBelow(q: real, k: int)
    requires k % 2 == 1
    ensures NearestInt(q) < k <==> q <= k as real - 0.5
  {
  }

  lemma QuotientAtMost(p: real, n: real, r: real)
    requires n > 0.0
    ensures p / n * SCALE <= r <==> p * SCALE <= r * n
  {
    TimesKeepsOrder(r, p / n * SCALE, n);
    Regrouped(p, n);
  }

  lemma Regrouped(p: real, n: real)
    requires n > 0.0
    ensures p / n * SCALE * n == p * SCALE
  {
    assert (p / n) * n == p;
  }

  /** A share is visibly below one exactly when what is missing weighs more than half a unit over the allowance. */
  lemma ShareShows(p: nat, n: nat)
    requires p <= n && 1 <= n < Pow2(53)
    ensures Share(p, n) < THRESHOLD as real / SCALE <==> 18_014_399 * n <= 18_014_398_509_481_984 * (n - p)
  {
    hide Fl, Near, Pow2;
    FlWhole(p);
    FlWhole(n);
    var x := p as real / n as real;
    QuotientRange(p, n);
    FlSides(x);
    if p == n {
      OneIsOne();
    } else if 2 * p >= n {
      RangeShows(p, n);
    }
  }

  lemma QuotientRange(p: nat, n: nat)
    requires p <= n && n >= 1
    ensures var x := p as real / n as real;
            0.0 <= x && (x < 0.5 <==> 2 * p < n) && (x < 1.0 <==> p < n) && (p == n ==> x == 1.0)
  {
    QuotientBelow(p as real, n as real, 0.0);
    QuotientBelow(p as real, n as real, 0.5);
    QuotientBelow(p as real, n as real, 1.0);
  }

  lemma TimesKeepsOrder(a: real, b: real, n: real)
    requires n > 0.0
    ensures a < b <==> a * n < b * n
  {
  }

  lemma QuotientBelow(p: real, n: real, r: real)
    requires n > 0.0
    ensures p / n < r <==> p < r * n
  {
    TimesKeepsOrder(p / n, r, n);
    assert (p / n) * n == p;
  }

  lemma RangeShows(p: nat, n: nat)
    requires p < n <= 2 * p
    ensures Fl(p as real / n as real) < THRESHOLD as real / SCALE
            <==> 18_014_399 * n <= 18_014_398_509_481_984 * (n - p)
  {
    hide Fl, NearestInt;
    var x := p as real / n as real;
    QuotientRange(p, n);
    FlInRange(x);
    NearestBelow(x * SCALE, THRESHOLD);
    QuotientAtMost(p as real, n as real, THRESHOLD as real - 0.5);
    ScaledOrder(NearestInt(x * SCALE), THRESHOLD);
  }

  lemma ScaledOrder(a: int, b: int)
    ensures a as real / SCALE < b as real / SCALE <==> a < b
  {
  }

  /** The pass rate of a case that lost trials is reported as fallen exactly when the loss outweighs the rounding. */
  lemma LossShows(c: Case)
    requires Folded(c) && c.trials < Pow2(53)
    ensures Fell(1.0, PassRate(c), 0.0) <==> 18_014_399 * c.trials <= 18_014_398_509_481_984 * (c.trials - c.passes)
  {
    hide Fl, Share, Epsilon;
    ThresholdIs();
    ShareShows(c.passes, c.trials);
  }

  lemma FullShare(n: int)
    requires n >= 1
    ensures Share(n, n) == 1.0
  {
    hide Fl;
    FlSides(n as real);
    OneIsOne();
    assert Fl(n as real) / Fl(n as real) == 1.0;
  }

  /** Whether the gate reports that a case stopped passing. */
  predicate ReportsLoss(b: Case, c: Case, v2: bool, o: Options) {
    NewlyFailing in CaseVerdict(b, c, v2, o).regress || PassRateDrop in CaseVerdict(b, c, v2, o).regress
  }

  /**
    Soundness at tolerance zero, exactly. A case that passed in the baseline and not in
    the candidate is reported unless it was rated over so many trials that the share
    lost disappears in the rounding allowance and in float64 rounding.
   */
  lemma LossIsReported(b: Case, c: Case, o: Options)
    requires Folded(b) && Folded(c) && !IsControl(b, c) && o.tolerance == 0.0 && c.trials < Pow2(53)
    requires b.status == T.Passed && c.status != T.Passed
    ensures ReportsLoss(b, c, true, o) <==>
            !Rated(b, c, true) || 18_014_399 * c.trials <= 18_014_398_509_481_984 * (c.trials - c.passes)
  {
    hide Share, Fell, Rose, Pow2;
    LossShows(c);
    FullShare(b.trials);
  }

  /** So up to 999,999,972 trials no loss goes unreported. */
  lemma NoLossUnreported(b: Case, c: Case, o: Options)
    requires Folded(b) && Folded(c) && !IsControl(b, c) && o.tolerance == 0.0
    requires b.status == T.Passed && c.status != T.Passed && c.trials <= 999_999_972
    ensures ReportsLoss(b, c, true, o)
  {
    hide CaseVerdict, Pow2;
    CountsAreExact();
    LossIsReported(b, c, o);
  }

  lemma CountsAreExact()
    ensures Pow2(53) > 1_000_000_000
  {
    ScaleIsPower();
  }

  /** And at 999,999,973 trials one lost trial is not reported. */
  lemma LossCanHide()
    ensures var b := T.Sample(T.Passed, true).(trials := 999_999_973, passes := 999_999_973);
            var c := T.Sample(T.Failed, false).(trials := 999_999_973, passes := 999_999_972);
            && Folded(b) && Folded(c) && CaseVerdict(b, c, true, Options(0.0, DefaultMode)).regress == []
  {
    hide Share, Fell, Rose, Pow2;
    var b := T.Sample(T.Passed, true).(trials := 999_999_973, passes := 999_999_973);
    var c := T.Sample(T.Failed, false).(trials := 999_999_973, passes := 999_999_972);
    CountsAreExact();
    LossIsReported(b, c, Options(0.0, DefaultMode));
  }

  /** A rate never fell or rose against itself. */
  lemma NeverFellFromItself(x: real, tolerance: real)
    requires tolerance >= 0.0
    ensures !Fell(Fl(x), Fl(x), tolerance)
  {
    hide Fl, Epsilon;
    FlFixed(x);
    FlOrder(Fl(x) - tolerance, Fl(x));
    FlFixed(Fl(x) - tolerance);
    FlOrder(Fl(Fl(x) - tolerance) - Epsilon(), Fl(Fl(x) - tolerance));
  }

  lemma FellIsMonotone(before: real, after: real, low: real, high: real)
    requires low <= high && Fell(before, after, high)
    ensures Fell(before, after, low)
  {
    hide Fl, Epsilon;
    FlOrder(before - high, before - low);
    FlOrder(Fl(before - high) - Epsilon(), Fl(before - low) - Epsilon());
  }

  /** A case gated against itself is no regression. */
  lemma SelfIsClean(c: Case, v2: bool, o: Options)
    requires o.tolerance >= 0.0
    ensures CaseVerdict(c, c, v2, o).regress == []
  {
    hide Fl, Fell, Rose;
    var n := Trials(c);
    NeverFellFromItself(Fl(c.passes as real) / Fl(n as real), o.tolerance) by { FlSides(n as real); }
    NeverFellFromItself(Fl((n - c.passes) as real) / Fl(n as real), o.tolerance) by { FlSides(n as real); }
  }

  /** Raising the tolerance never adds a regression. */
  lemma ToleranceIsMonotone(b: Case, c: Case, v2: bool, low: Options, high: Options)
    requires low.tolerance <= high.tolerance && low.trajectory == high.trajectory
    ensures forall k | k in CaseVerdict(b, c, v2, high).regress :: k in CaseVerdict(b, c, v2, low).regress
  {
    hide Share, Fell, Rose;
    if Fell(PassRate(b), PassRate(c), high.tolerance) {
      FellIsMonotone(PassRate(b), PassRate(c), low.tolerance, high.tolerance);
    }
    if Fell(DetectionRate(b), DetectionRate(c), high.tolerance) {
      FellIsMonotone(DetectionRate(b), DetectionRate(c), low.tolerance, high.tolerance);
    }
  }

  // Whole reports --------------------------------------------------------------------------------

  predicate GoodCase(c: Case) {
    c.id != [] && c.trials >= 0 && 0 <= c.passes <= (if c.trials > 1 then c.trials else 1)
  }

  /** Cases by ID; a case that cannot be judged or repeats an ID refuses the report. */
  function IndexOf(cases: seq<Case>): Option<map<string, Case>> {
    if cases == [] then Some(map[]) else
      var last := cases[|cases| - 1];
      match IndexOf(cases[..|cases| - 1])
      case None => None
      case Some(m) => if !GoodCase(last) || last.id in m then None else Some(m[last.id := last])
  }

  lemma {:induction false} IndexFinds(cases: seq<Case>, c: Case)
    requires IndexOf(cases).Some?
    ensures c in cases <==> c.id in IndexOf(cases).value && IndexOf(cases).value[c.id] == c
  {
    if cases != [] {
      var n := |cases| - 1;
      IndexFinds(cases[..n], c);
      assert cases == cases[..n] + [cases[n]];
      if c.id == cases[n].id && c in cases[..n] {
        assert false;
      }
    }
  }

  lemma {:induction false} IndexRefuses(cases: seq<Case>, k: nat)
    requires k <= |cases| && IndexOf(cases[..k]).None?
    ensures IndexOf(cases).None?
  {
    if k < |cases| {
      assert cases[..|cases| - 1][..k] == cases[..k];
      IndexRefuses(cases[..|cases| - 1], k);
    } else {
      assert cases[..k] == cases;
    }
  }

  method Index(cases: seq<Case>) returns (m: Option<map<string, Case>>)
    ensures m == IndexOf(cases)
  {
    var out: map<string, Case> := map[];
    for i := 0 to |cases|
      invariant IndexOf(cases[..i]) == Some(out)
    {
      assert cases[..i + 1][..i] == cases[..i];
      if !GoodCase(cases[i]) || cases[i].id in out {
        IndexRefuses(cases, i + 1);
        return None;
      }
      out := out[cases[i].id := cases[i]];
    }
    assert cases[..|cases|] == cases;
    m := Some(out);
  }

  function Tagged(id: string, kinds: seq<Kind>): (f: seq<Finding>)
    ensures forall x :: x in f <==> x.id == id && x.kind in kinds
  {
    if kinds == [] then [] else
      assert kinds == kinds[..|kinds| - 1] + [kinds[|kinds| - 1]];
      Tagged(id, kinds[..|kinds| - 1]) + [Finding(id, kinds[|kinds| - 1])]
  }

  /** What the gate says about one ID of either report. */
  function IdVerdict(base: map<string, Case>, cand: map<string, Case>, id: string, v2: bool, o: Options): Verdict {
    if id !in cand then Verdict([CaseMissing], [], [])
    else if id !in base then Verdict([], [CaseAdded], [])
    else CaseVerdict(base[id], cand[id], v2, o)
  }

  function Judge(base: map<string, Case>, cand: map<string, Case>, ids: seq<string>, v2: bool, o: Options): Findings {
    if ids == [] then Findings([], [], []) else
      var n := |ids| - 1;
      var before := Judge(base, cand, ids[..n], v2, o);
      var v := IdVerdict(base, cand, ids[n], v2, o);
      Findings(before.regressions + Tagged(ids[n], v.regress), before.warnings + Tagged(ids[n], v.warn),
               before.improvements + Tagged(ids[n], v.improve))
  }

  /** A regression stands in the verdict exactly when its own case has it. */
  lemma {:induction false} JudgeFinds(base: map<string, Case>, cand: map<string, Case>, ids: seq<string>, v2: bool,
                                      o: Options, f: Finding)
    ensures f in Judge(base, cand, ids, v2, o).regressions
            <==> f.id in ids && f.kind in IdVerdict(base, cand, f.id, v2, o).regress
  {
    hide CaseVerdict;
    if ids != [] {
      var n := |ids| - 1;
      JudgeFinds(base, cand, ids[..n], v2, o, f);
      assert ids == ids[..n] + [ids[n]];
    }
  }

  predicate ValidOptions(o: Options) {
    0.0 <= o.tolerance <= 1.0 && !o.trajectory.UnknownMode?
  }

  /** A baseline in which every case errored without a pass measures nothing. */
  predicate Measures(cases: seq<Case>) {
    exists c | c in cases :: !(c.status == T.Errored && PassedNothing(c))
  }

  function Ids(base: map<string, Case>, cand: map<string, Case>): seq<string> {
    SortedNames(base.Keys + cand.Keys)
  }

  predicate SuiteDiffers(baseline: Report, candidate: Report) {
    Version2(baseline, candidate) && baseline.digest != [] && candidate.digest != []
        && baseline.digest != candidate.digest
  }

  predicate Version2(baseline: Report, candidate: Report) {
    baseline.version >= 2 && candidate.version >= 2
  }

  /** The gate's findings, or `None` when the inputs cannot support a verdict. */
  function CompareOf(baseline: Report, candidate: Report, o: Options): Option<Findings> {
    if !ValidOptions(o) || baseline.suite != candidate.suite || !Measures(baseline.cases) then None
    else if IndexOf(baseline.cases).None? || IndexOf(candidate.cases).None? then None
    else
      var base, cand := IndexOf(baseline.cases).value, IndexOf(candidate.cases).value;
      var found := Judge(base, cand, Ids(base, cand), Version2(baseline, candidate), o);
      Some(found.(warnings := (if SuiteDiffers(baseline, candidate) then [Finding([], SuiteChanged)] else [])
          + found.warnings))
  }

  /** At tolerance zero, every folded case that passed in the baseline and not in the candidate is a regression. */
  lemma LostCaseIsRegression(baseline: Report, candidate: Report, o: Options, b: Case, c: Case) returns (f: Finding)
    requires CompareOf(baseline, candidate, o).Some? && Version2(baseline, candidate) && o.tolerance == 0.0
    requires b in baseline.cases && c in candidate.cases && b.id == c.id && !IsControl(b, c)
    requires Folded(b) && Folded(c) && b.status == T.Passed && c.status != T.Passed && c.trials <= 999_999_972
    ensures f in CompareOf(baseline, candidate, o).value.regressions && f.id == b.id
            && (f.kind == NewlyFailing || f.kind == PassRateDrop)
  {
    hide CaseVerdict, IndexOf;
    var base, cand := IndexOf(baseline.cases).value, IndexOf(candidate.cases).value;
    IndexFinds(baseline.cases, b);
    IndexFinds(candidate.cases, c);
    NoLossUnreported(b, c, o);
    f := Finding(b.id, if NewlyFailing in CaseVerdict(b, c, true, o).regress then NewlyFailing else PassRateDrop);
    JudgeFinds(base, cand, Ids(base, cand), true, o, f);
  }

  /** A case the candidate does not have is a regression. */
  lemma MissingCaseIsRegression(baseline: Report, candidate: Report, o: Options, b: Case)
    requires CompareOf(baseline, candidate, o).Some? && b in baseline.cases
             && forall c | c in candidate.cases :: c.id != b.id
    ensures Finding(b.id, CaseMissing) in CompareOf(baseline, candidate, o).value.regressions
  {
    hide CaseVerdict, IndexOf;
    var base, cand := IndexOf(baseline.cases).value, IndexOf(candidate.cases).value;
    IndexFinds(baseline.cases, b);
    if b.id in cand {
      IndexKeys(candidate.cases, b.id);
    }
    JudgeFinds(base, cand, Ids(base, cand), Version2(baseline, candidate), o, Finding(b.id, CaseMissing));
  }

  lemma {:induction false} IndexKeys(cases: seq<Case>, id: string)
    requires IndexOf(cases).Some? && id in IndexOf(cases).value
    ensures exists c | c in cases :: c.id == id
  {
    var n := |cases| - 1;
    assert cases == cases[..n] + [cases[n]];
    if id != cases[n].id {
      IndexKeys(cases[..n], id);
    } else {
      assert cases[n] in cases;
    }
  }

  lemma FirstFinding(findings: seq<Finding>)
    requires findings != []
    ensures exists f :: f in findings
  {
    assert findings[0] in findings;
  }

  /** A report gated against itself has no regression. */
  lemma SelfGateIsClean(r: Report, o: Options)
    requires CompareOf(r, r, o).Some?
    ensures CompareOf(r, r, o).value.regressions == []
  {
    hide CaseVerdict, IndexOf;
    var m := IndexOf(r.cases).value;
    var found := Judge(m, m, Ids(m, m), Version2(r, r), o);
    forall f: Finding
      ensures f !in found.regressions
    {
      JudgeFinds(m, m, Ids(m, m), Version2(r, r), o, f);
      if f.id in m {
        SelfIsClean(m[f.id], Version2(r, r), o);
      }
    }
    if found.regressions != [] {
      FirstFinding(found.regressions);
    }
  }

  /** Raising the tolerance never adds a regression to a report. */
  lemma GateIsMonotone(baseline: Report, candidate: Report, low: Options, high: Options, f: Finding)
    requires CompareOf(baseline, candidate, low).Some? && CompareOf(baseline, candidate, high).Some?
    requires low.tolerance <= high.tolerance && low.trajectory == high.trajectory
    requires f in CompareOf(baseline, candidate, high).value.regressions
    ensures f in CompareOf(baseline, candidate, low).value.regressions
  {
    hide CaseVerdict, IndexOf;
    var base, cand := IndexOf(baseline.cases).value, IndexOf(candidate.cases).value;
    var v2 := Version2(baseline, candidate);
    JudgeFinds(base, cand, Ids(base, cand), v2, high, f);
    JudgeFinds(base, cand, Ids(base, cand), v2, low, f);
    if f.id in base && f.id in cand {
      ToleranceIsMonotone(base[f.id], cand[f.id], v2, low, high);
    }
  }

  // The gate as it runs ------------------------------------------------------------------------------

  class Result {
    var regressions: seq<Finding>
    var warnings: seq<Finding>
    var improvements: seq<Finding>
    var compared: nat

    constructor ()
      ensures regressions == [] && warnings == [] && improvements == [] && compared == 0
    {
      regressions, warnings, improvements, compared := [], [], [], 0;
    }

    ghost function Rows(): Findings
      reads this
    {
      Findings(regressions, warnings, improvements)
    }

    /** Appends the findings of one case. */
    method Add(id: string, v: Verdict)
      modifies this
      ensures Rows() == Findings(old(regressions) + Tagged(id, v.regress), old(warnings) + Tagged(id, v.warn),
              old(improvements) + Tagged(id, v.improve))
      ensures compared == old(compared)
    {
      regressions := regressions + Tagged(id, v.regress);
      warnings := warnings + Tagged(id, v.warn);
      improvements := improvements + Tagged(id, v.improve);
    }

    method CompareCase(b: Case, c: Case, v2: bool, o: Options)
      modifies this
      ensures var v := CaseVerdict(b, c, v2, o);
              Rows() == Findings(old(regressions) + Tagged(c.id, v.regress), old(warnings) + Tagged(c.id, v.warn),
                                 old(improvements) + Tagged(c.id, v.improve))
      ensures compared == old(compared)
    {
      hide OutcomeOf, EffectsOf, PathOf, Tagged;
      var control := IsControl(b, c);
      if Unmeasured(control, b) {
        Add(c.id, Verdict([], [BaselineUnmeasured], []));
        return;
      }
      var v := OutcomeOf(b, c, v2, o.tolerance);
      if c.status == T.Errored && !Unmeasured(control, c) && !control {
        v := Both(v, Verdict([], [CandidateErrored], []));
      } else {
        v := Both(v, Quiet());
      }
      v := Both(v, Both(EffectsOf(b, c, v2, o.tolerance), PathOf(b, c, v2, o.trajectory)));
      Add(c.id, v);
    }
  }

  lemma JudgeNext(base: map<string, Case>, cand: map<string, Case>, ids: seq<string>, i: nat, v2: bool, o: Options)
    requires i < |ids|
    ensures var before := Judge(base, cand, ids[..i], v2, o);
            var v := IdVerdict(base, cand, ids[i], v2, o);
            Judge(base, cand, ids[..i + 1], v2, o)
            == Findings(before.regressions + Tagged(ids[i], v.regress), before.warnings + Tagged(ids[i], v.warn),
                        before.improvements + Tagged(ids[i], v.improve))
  {
    hide IdVerdict, Tagged;
    assert ids[..i + 1][..i] == ids[..i];
  }

  method AnyMeasured(cases: seq<Case>) returns (measured: bool)
    ensures measured <==> Measures(cases)
  {
    for i := 0 to |cases|
      invariant forall j | 0 <= j < i :: cases[j].status == T.Errored && PassedNothing(cases[j])
    {
      if !(cases[i].status == T.Errored && PassedNothing(cases[i])) {
        assert cases[i] in cases;
        return true;
      }
    }
    measured := false;
  }

  lemma {:induction false} IndexKeepsIds(cases: seq<Case>, id: string)
    requires IndexOf(cases).Some? && id in IndexOf(cases).value
    ensures IndexOf(cases).value[id].id == id
  {
    var n := |cases| - 1;
    if id != cases[n].id {
      IndexKeepsIds(cases[..n], id);
    }
  }

  /** The whole gate: refuse what cannot be judged, then judge the cases of either report in ID order. */
  method Compare(baseline: Report, candidate: Report, o: Options) returns (result: Option<Result>, passed: bool)
    ensures result.Some? <==> CompareOf(baseline, candidate, o).Some?
    ensures result.Some? ==> fresh(result.value) && Some(result.value.Rows()) == CompareOf(baseline, candidate, o)
    ensures passed <==> result.Some? && result.value.regressions == []
  {
    hide CaseVerdict, IndexOf, Judge, Tagged, Measures;
    passed := false;
    if !ValidOptions(o) || baseline.suite != candidate.suite {
      return None, false;
    }
    var measured := AnyMeasured(baseline.cases);
    if !measured {
      return None, false;
    }
    var base := Index(baseline.cases);
    if base.None? {
      return None, false;
    }
    var cand := Index(candidate.cases);
    if cand.None? {
      return None, false;
    }
    var v2 := Version2(baseline, candidate);
    var r := new Result();
    ghost var opening: seq<Finding> := if SuiteDiffers(baseline, candidate) then [Finding([], SuiteChanged)] else [];
    if SuiteDiffers(baseline, candidate) {
      r.warnings := [Finding([], SuiteChanged)];
    }
    var ids := Ids(base.value, cand.value);
    assert ids[..0] == [] && Judge(base.value, cand.value, [], v2, o) == Findings([], [], [])
        by { JudgeNothing(base.value, cand.value, v2, o); }
    for i := 0 to |ids|
      invariant fresh(r)
      invariant var found := Judge(base.value, cand.value, ids[..i], v2, o);
                r.Rows() == found.(warnings := opening + found.warnings)
    {
      JudgeNext(base.value, cand.value, ids, i, v2, o);
      JudgeOne(r, base.value, cand.value, ids[i], v2, o) by { KnownIds(baseline.cases, candidate.cases, ids[i]); }
    }
    assert ids[..|ids|] == ids;
    passed := r.regressions == [];
    result := Some(r);
  }

  lemma JudgeNothing(base: map<string, Case>, cand: map<string, Case>, v2: bool, o: Options)
    ensures Judge(base, cand, [], v2, o) == Findings([], [], [])
  {
  }

  lemma KnownIds(left: seq<Case>, right: seq<Case>, id: string)
    requires IndexOf(left).Some? && IndexOf(right).Some?
    ensures id in IndexOf(right).value ==> IndexOf(right).value[id].id == id
  {
    hide IndexOf;
    if id in IndexOf(right).value {
      IndexKeepsIds(right, id);
    }
  }

  method JudgeOne(r: Result, base: map<string, Case>, cand: map<string, Case>, id: string, v2: bool, o: Options)
    requires id in cand ==> cand[id].id == id
    modifies r
    ensures var v := IdVerdict(base, cand, id, v2, o);
            r.Rows() == Findings(old(r.regressions) + Tagged(id, v.regress), old(r.warnings) + Tagged(id, v.warn),
                                 old(r.improvements) + Tagged(id, v.improve))
  {
    hide CaseVerdict, Tagged;
    if id !in cand {
      r.Add(id, Verdict([CaseMissing], [], []));
    } else if id !in base {
      r.Add(id, Verdict([], [CaseAdded], []));
    } else {
      r.compared := r.compared + 1;
      r.CompareCase(base[id], cand[id], v2, o);
    }
  }
}
