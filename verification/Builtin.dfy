/** The built-in handlers meet what the other modules assume of handlers. */
module Builtin {
  import opened Basics
  import opened Numbers
  import opened Protocol
  import Accounting
  import Authz
  import Billing
  import Echo
  import Reconstruct

  type OtherHandler = (World, string, string, Behavior, Args) -> Option<Outcome>

  /** The registry: the refund handler, and handlers that read their arguments as strings. */
  function Handler(f: Billing.Fields, refundId: (string, string) -> string, others: OtherHandler)
    : (World, string, string, Behavior, Args, NumberMode) -> Option<Outcome>
  {
    (w: World, run: string, id: string, behavior: Behavior, args: Args, mode: NumberMode) =>
      if behavior.CreateRefund? then Billing.Refunded(f, refundId(run, id), w, args, mode)
      else others(w, run, id, behavior, args)
  }

  /** The check in front of authorization: a refund's amount must be a positive 64-bit integer. */
  function Valid(amount: string, others: (Behavior, Args) -> bool): (Behavior, Args, NumberMode) -> bool {
    (behavior: Behavior, args: Args, mode: NumberMode) =>
      others(behavior, args)
      && (behavior.CreateRefund? ==>
            Authz.WholeArg(args, amount, mode).Some? && Authz.WholeArg(args, amount, mode).value > 0)
  }

  /** The other handlers never touch the billing tables, and write nothing without a mutation to show for it. */
  ghost predicate StayOut(others: OtherHandler) {
    forall w, run, id, behavior, args ::
      var o := others(w, run, id, behavior, args);
      o.Some? ==> && o.value.world.charges == w.charges && o.value.world.refunds == w.refunds
                  && (o.value.mutation.None? ==> o.value.world == w)
  }

  ghost predicate IsBuiltin(env: Env, f: Billing.Fields, refundId: (string, string) -> string, others: OtherHandler,
                            checks: (Behavior, Args) -> bool)
  {
    env.handler == Handler(f, refundId, others) && env.handlerValid == Valid(f.amount, checks) && StayOut(others)
  }

  lemma RefundsAlike(f: Billing.Fields, id: string, w: World, args: Args)
    requires AllSafe(args)
    ensures Billing.Refunded(f, id, w, args, Float) == Billing.Refunded(f, id, w, args, Literal)
  {
    Billing.IntegersAgree(Billing.Lookup(args, f.amount));
  }

  /** A refund's outcome can be told from its mutation, and without one from its status. */
  lemma RefundTells(f: Billing.Fields, id: string, w: World, args: Args)
    ensures var o, l := Billing.Refunded(f, id, w, args, Float), Billing.Refunded(f, id, w, args, Literal);
            && Echo.SameAnswer(o, l)
            && (o.Some? && o.value.mutation.None? ==> o.value.world == w)
            && (l.Some? && l.value.mutation.None? ==> l.value.world == w)
  {
    hide ErrorDoc, Billing.Integer;
    var charge, reason := Billing.TextOf(Billing.Lookup(args, f.chargeId)),
        Billing.TextOf(Billing.Lookup(args, f.reason));
    var a := Billing.Integer(Billing.Lookup(args, f.amount), Float);
    var b := Billing.Integer(Billing.Lookup(args, f.amount), Literal);
    CreateTells(w, id, charge, a, b, reason);
  }

  lemma CreateTells(w: World, id: string, charge: string, a: int, b: int, reason: string)
    ensures var o, l := Billing.Create(w, id, charge, a, reason), Billing.Create(w, id, charge, b, reason);
            && Echo.SameAnswer(o, l)
            && (o.Some? && o.value.mutation.None? ==> o.value.world == w)
            && (l.Some? && l.value.mutation.None? ==> l.value.world == w)
  {
    hide ErrorDoc;
    var o, l := Billing.Create(w, id, charge, a, reason), Billing.Create(w, id, charge, b, reason);
    if o.Some? && l.Some? && o.value.mutation.Some? && o.value.mutation == l.value.mutation {
      assert o.value.mutation.value.items[2] == Num(a as real) && l.value.mutation.value.items[2] == Num(b as real);
      assert a == b;
    }
  }

  /** Refunds conserve, numbers up to 2^53 are read alike, and no handler writes what it does not tell. */
  lemma MeetsAssumptions(env: Env, f: Billing.Fields, refundId: (string, string) -> string, others: OtherHandler,
                         checks: (Behavior, Args) -> bool)
    requires IsBuiltin(env, f, refundId, others, checks)
    ensures Accounting.OnlyRefunds(env, f)
    ensures Reconstruct.HandlersReadAlike(env) && Echo.HandlersTell(env)
  {
    hide Billing.Refunded, AllSafe, Echo.SameAnswer;
    forall world, run, id, behavior, args, mode
      ensures var o := env.handler(world, run, id, behavior, args, mode);
              && (o.Some? ==> Billing.RefundOnly(world, o.value.world, f))
              && (o.Some? && o.value.mutation.None? ==> o.value.world == world)
    {
      var o := Handler(f, refundId, others)(world, run, id, behavior, args, mode);
      if behavior.CreateRefund? {
        RefundTells(f, refundId(run, id), world, args);
        assert mode == Float || mode == Literal;
      } else {
        assert o == others(world, run, id, behavior, args);
      }
    }
    forall world, run, id, behavior, args
      ensures Echo.SameAnswer(env.handler(world, run, id, behavior, args, Float),
                              env.handler(world, run, id, behavior, args, Literal))
    {
      if behavior.CreateRefund? {
        RefundTells(f, refundId(run, id), world, args);
      } else {
        SameIsSame(others(world, run, id, behavior, args));
      }
    }
    forall world, run, id, op: Operation, args | op in env.operations && AllSafe(args)
      ensures env.handler(world, run, id, op.behavior, args, Float)
              == env.handler(world, run, id, op.behavior, args, Literal)
      ensures env.handlerValid(op.behavior, args, Float) == env.handlerValid(op.behavior, args, Literal)
    {
      RefundsAlike(f, refundId(run, id), world, args);
      Reconstruct.WholeArgsAgree(args, f.amount);
    }
  }

  lemma SameIsSame(o: Option<Outcome>)
    ensures Echo.SameAnswer(o, o)
  {
  }
}
