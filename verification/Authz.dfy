/** Authorization: one decision procedure, used by the dispatcher and by the read-only screen. */
module Authz {
  import opened Basics
  import opened Numbers
  import opened Protocol

  /** A judged call is allowed when its reason code is empty. */
  datatype Verdict =
    | Unenforced
    | Invalid(principal: string)
    | Judged(principal: string, permission: string, reason: Reason, call: nat)
  {
    predicate Allowed() { Judged? && reason == Permitted }
    predicate Denied() { Judged? && reason != Permitted }
  }

  predicate Granted(p: AuthPolicy, permission: string, call: int) {
    || permission in p.allow
    || (exists role | role in p.roles :: role in p.roleAllow && permission in p.roleAllow[role])
    || (exists g | g in p.grants :: g.permission == permission && g.startsAtCall <= call <= g.endsAtCall)
  }

  function GrantReason(p: AuthPolicy, permission: string, call: int): Reason {
    if !Granted(p, permission, call) then PermissionNotGranted
    else if exists r | r in p.revocations :: r.permission == permission && call > r.afterCall then PermissionRevoked
    else Permitted
  }

  /** Behaviors whose results span resources a scoped policy cannot narrow. */
  predicate Broad(p: AuthPolicy, behavior: Behavior) {
    match behavior
    case SearchAccounts => p.customers.Some?
    case SearchIssues => p.customers.Some?
    case ListChannels => p.channels.Some?
    case _ => false
  }

  function Text(args: Args, name: string): string {
    if name in args && args[name].Str? then args[name].s else ""
  }

  function ChannelArg(behavior: Behavior): Option<string> {
    match behavior
    case ReadChannel => Some("id")
    case PostMessage => Some("channel_id")
    case _ => None
  }

  function WholeArg(args: Args, name: string, mode: NumberMode): Option<int> {
    if name in args && args[name].Num? then ReadWhole(args[name].n, mode) else None
  }

  function ResourceReason(env: Env, p: AuthPolicy, world: World, behavior: Behavior, args: Args,
                          mode: NumberMode): Reason {
    var customer := env.customerOf(world, behavior, args);
    if Broad(p, behavior) then BroadSearchScoped
    else if p.customers.Some? && customer.Some? && customer.value !in p.customers.value then CustomerOutOfScope
    else if ChannelArg(behavior).Some? && p.channels.Some?
            && Text(args, ChannelArg(behavior).value) !in p.channels.value then ChannelOutOfScope
    else if behavior.CreateIssue? && p.projects.Some?
            && Text(args, "project_id") !in p.projects.value then ProjectOutOfScope
    else if behavior.CreateRefund? && p.refundMaxCents.Some?
            && (WholeArg(args, "amount_cents", mode).None?
              || WholeArg(args, "amount_cents", mode).value > p.refundMaxCents.value)
    then RefundLimitExceeded
    else Permitted
  }

  /** What a policy decides about one call at a given call number; nothing is consumed. */
  function Screen(env: Env, p: AuthPolicy, world: World, op: Operation, args: Args, mode: NumberMode,
                  call: nat): Verdict {
    if !env.handlerValid(op.behavior, args, mode) then Invalid(p.principal)
    else match env.permission(op.behavior)
      case None => Judged(p.principal, "", BehaviorUnmapped, call)
      case Some(permission) =>
        var reason := GrantReason(p, permission, call);
        Judged(p.principal, permission,
               if reason != Permitted then reason else ResourceReason(env, p, world, op.behavior, args, mode), call)
  }

  /** The dispatcher's decision: the verdict, and the call index after it. */
  function Decide(env: Env, world: World, op: Operation, args: Args, mode: NumberMode, used: nat): (Verdict, nat) {
    match env.config.authPolicy
    case None => (Unenforced, used)
    case Some(p) =>
      if !env.handlerValid(op.behavior, args, mode) then (Invalid(p.principal), used)
      else (Screen(env, p, world, op, args, mode, used + 1), used + 1)
  }

  predicate Visible(env: Env, p: AuthPolicy, op: Operation, used: nat) {
    && env.permission(op.behavior).Some?
    && GrantReason(p, env.permission(op.behavior).value, used + 1) == Permitted
    && !Broad(p, op.behavior)
  }

  function ExposedFrom(env: Env, ops: seq<Operation>, p: AuthPolicy, used: nat): (out: seq<Operation>)
    ensures forall op :: op in out <==> op in ops && Visible(env, p, op, used)
  {
    if ops == [] then []
    else (if Visible(env, p, ops[0], used) then [ops[0]] else []) + ExposedFrom(env, ops[1..], p, used)
  }

  /** The operations a provider sees before the next call. */
  function Exposed(env: Env, used: nat): seq<Operation> {
    if env.config.authPolicy.None? then env.operations
    else ExposedFrom(env, env.operations, env.config.authPolicy.value, used)
  }

  /** An operation the provider is not shown is never allowed at the next call, whatever its arguments. */
  lemma HiddenIsRefused(env: Env, op: Operation, world: World, args: Args, mode: NumberMode, used: nat)
    requires op in env.operations && op !in Exposed(env, used)
    ensures var (verdict, _) := Decide(env, world, op, args, mode, used);
            verdict.Invalid? || (verdict.Denied() && verdict.call == used + 1)
  {
    var p := env.config.authPolicy.value;
    assert !Visible(env, p, op, used);
  }

  // The shadow screen ------------------------------------------------------

  datatype Action = Action(op: Operation, args: Args)
  datatype Refusal = Refusal(op: string, args: Args, permission: string, reason: Reason, call: nat)
  datatype PolicyScreen = PolicyScreen(principal: string, screened: nat, refusals: seq<Refusal>, invalid: nat)

  /** The verdicts the dispatcher would reach on a sequence of calls, carrying its call index along. */
  function DecideAll(env: Env, world: World, actions: seq<Action>, mode: NumberMode): (seq<Verdict>, nat) {
    if actions == [] then ([], 0) else
      var n := |actions| - 1;
      var (verdicts, used) := DecideAll(env, world, actions[..n], mode);
      var (verdict, next) := Decide(env, world, actions[n].op, actions[n].args, mode, used);
      (verdicts + [verdict], next)
  }

  function RefusalsOf(actions: seq<Action>, verdicts: seq<Verdict>): seq<Refusal>
    requires |actions| == |verdicts|
  {
    if actions == [] then [] else
      var n := |actions| - 1;
      var v := verdicts[n];
      RefusalsOf(actions[..n], verdicts[..n]) +
      (if v.Denied() then [Refusal(actions[n].op.id, actions[n].args, v.permission, v.reason, v.call)] else [])
  }

  function CountInvalid(verdicts: seq<Verdict>): nat {
    if verdicts == [] then 0
    else CountInvalid(verdicts[..|verdicts| - 1]) + (if verdicts[|verdicts| - 1].Invalid? then 1 else 0)
  }

  lemma {:induction false} DecideAllLength(env: Env, world: World, actions: seq<Action>, mode: NumberMode)
    ensures |DecideAll(env, world, actions, mode).0| == |actions|
  {
    if actions != [] {
      DecideAllLength(env, world, actions[..|actions| - 1], mode);
    }
  }

  /** Both callers agree call by call: deciding is screening at the next call number. */
  lemma DecideIsScreen(env: Env, world: World, op: Operation, args: Args, mode: NumberMode, used: nat)
    requires env.config.authPolicy.Some?
    ensures var v := Screen(env, env.config.authPolicy.value, world, op, args, mode, used + 1);
            !v.Unenforced? && Decide(env, world, op, args, mode, used) == (v, if v.Invalid? then used else used + 1)
  {
  }

  lemma ScreenSnoc(env: Env, world: World, actions: seq<Action>, mode: NumberMode, i: nat, v: Verdict)
    requires i < |actions| && env.config.authPolicy.Some?
    requires v == Screen(env, env.config.authPolicy.value, world, actions[i].op, actions[i].args, mode,
                           DecideAll(env, world, actions[..i], mode).1 + 1)
    ensures var (verdicts, used) := DecideAll(env, world, actions[..i], mode);
            && |verdicts| == i
            && !v.Unenforced?
            && DecideAll(env, world, actions[..i + 1], mode) == (verdicts + [v], if v.Invalid? then used else used + 1)
            && CountInvalid(verdicts + [v]) == CountInvalid(verdicts) + (if v.Invalid? then 1 else 0)
            && RefusalsOf(actions[..i + 1], verdicts + [v]) == RefusalsOf(actions[..i], verdicts) +
                 (if v.Denied() then [Refusal(actions[i].op.id, actions[i].args, v.permission, v.reason, v.call)]
                     else [])
  {
    DecideAllLength(env, world, actions[..i], mode);
    assert actions[..i + 1][..i] == actions[..i];
    var (verdicts, used) := DecideAll(env, world, actions[..i], mode);
    DecideIsScreen(env, world, actions[i].op, actions[i].args, mode, used);
    assert (verdicts + [v])[..i] == verdicts;
  }

  lemma NothingDecided(env: Env, world: World, mode: NumberMode)
    ensures DecideAll(env, world, [], mode) == ([], 0) && RefusalsOf([], []) == [] && CountInvalid([]) == 0
  {
  }

  /**
    Every refusal the read-only screen lists is exactly a denial the dispatcher
    would record for that call, with the same reason and the same call number,
    and it lists all of them.
   */
  method ScreenProposed(env: Env, world: World, actions: seq<Action>, mode: NumberMode) returns (screen: PolicyScreen)
    requires env.config.authPolicy.Some?
    ensures |DecideAll(env, world, actions, mode).0| == |actions|
    ensures screen.refusals == RefusalsOf(actions, DecideAll(env, world, actions, mode).0)
    ensures screen.invalid == CountInvalid(DecideAll(env, world, actions, mode).0)
    ensures screen.screened == |actions| && screen.principal == env.config.authPolicy.value.principal
  {
    hide Screen, DecideAll, RefusalsOf, CountInvalid;
    var p := env.config.authPolicy.value;
    NothingDecided(env, world, mode);
    assert actions[..0] == [];
    var refusals: seq<Refusal> := [];
    var call, invalid, screened := 0, 0, 0;
    ghost var verdicts: seq<Verdict> := [];
    for i := 0 to |actions|
      invariant DecideAll(env, world, actions[..i], mode) == (verdicts, call)
      invariant |verdicts| == screened == i
      invariant refusals == RefusalsOf(actions[..i], verdicts)
      invariant invalid == CountInvalid(verdicts)
    {
      var verdict := Screen(env, p, world, actions[i].op, actions[i].args, mode, call + 1);
      ScreenSnoc(env, world, actions, mode, i, verdict);
      verdicts := verdicts + [verdict];
      screened := screened + 1;
      if verdict.Invalid? {
        invalid := invalid + 1;
      } else {
        call := call + 1;
        if !verdict.Allowed() {
          refusals := refusals + [Refusal(actions[i].op.id, actions[i].args, verdict.permission, verdict.reason,
                                          verdict.call)];
        }
      }
    }
    assert actions[..|actions|] == actions;
    screen := PolicyScreen(p.principal, screened, refusals, invalid);
  }

  /** A judged call takes the next number; any other takes none. */
  lemma DecideNumbers(env: Env, world: World, op: Operation, args: Args, mode: NumberMode, used: nat)
    ensures var (v, after) := Decide(env, world, op, args, mode, used);
            && (if v.Judged? then v.call == after == used + 1 else after == used)
            && (env.config.authPolicy.Some? ==> v.Judged? || v.Invalid?)
  {
    hide GrantReason, ResourceReason;
  }

  /** A verdict that was numbered carries its place among the calls that were not invalid. */
  predicate NumberedAt(verdicts: seq<Verdict>, i: nat)
    requires i < |verdicts|
  {
    verdicts[i].Judged? ==> verdicts[i].call == i + 1 - CountInvalid(verdicts[..i])
  }

  /** Numbering: the k-th consumed call number is k, and invalid calls consume none. */
  lemma {:induction false} CallNumbersAreConsecutive(env: Env, world: World, actions: seq<Action>, mode: NumberMode)
    requires env.config.authPolicy.Some?
    ensures var (verdicts, used) := DecideAll(env, world, actions, mode);
            && |verdicts| == |actions|
            && used == |actions| - CountInvalid(verdicts)
            && forall i | 0 <= i < |verdicts| :: NumberedAt(verdicts, i)
  {
    hide Decide, NumberedAt;
    if actions != [] {
      var n := |actions| - 1;
      CallNumbersAreConsecutive(env, world, actions[..n], mode);
      var (verdicts, used) := DecideAll(env, world, actions[..n], mode);
      DecideNumbers(env, world, actions[n].op, actions[n].args, mode, used);
      var (v, _) := Decide(env, world, actions[n].op, actions[n].args, mode, used);
      NumberedSnoc(verdicts, v, used);
    }
  }

  lemma NumberedSnoc(verdicts: seq<Verdict>, v: Verdict, used: nat)
    requires (v.Judged? && v.call == used + 1) || v.Invalid?
    requires used == |verdicts| - CountInvalid(verdicts) && forall i | 0 <= i < |verdicts| :: NumberedAt(verdicts, i)
    ensures var all := verdicts + [v];
            && CountInvalid(all) == CountInvalid(verdicts) + (if v.Invalid? then 1 else 0)
            && forall i | 0 <= i < |all| :: NumberedAt(all, i)
  {
    var all := verdicts + [v];
    assert all[..|verdicts|] == verdicts;
    forall i | 0 <= i < |all|
      ensures NumberedAt(all, i)
    {
      if i < |verdicts| {
        assert NumberedAt(verdicts, i);
        assert all[..i] == verdicts[..i];
      }
    }
  }
}
