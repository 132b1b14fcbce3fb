/**
  The fixed contract of an API manifest: a table of operations with their behavior and
  argument types. It declares a single integer, the amount of a refund, and that handler
  never answers as the argument check does; so for such a manifest a boundary is rebuilt
  exactly when nothing before it was refused and its last turn was not respelled.
 */
module Contract {
  import opened Basics
  import opened Protocol
  import opened Engine
  import opened Reconstruct
  import opened ChaosRuns
  import Billing
  import Builtin
  import Checkpoint
  import Dispatch
  import Echo
  import Exact
  import Repeat

  /** An entry of the table: verb, behavior, and the names of string and integer arguments. */
  datatype Route = Route(verb: Verb, behavior: Behavior, strings: set<string>, integers: set<string>)

  function Reads(behavior: string): (r: Option<Route>)
    ensures r.Some? && r.value.integers == {}
  {
    Some(Route(Get, OtherBehavior(behavior), {"id"}, {}))
  }

  function Writes(behavior: Behavior, strings: set<string>): (r: Option<Route>)
    ensures r.Some? && r.value.integers == {}
  {
    Some(Route(Post, behavior, strings, {}))
  }

  function RouteOf(id: string): Option<Route> {
    match id
    case "getCustomer" => Reads("billing.getCustomer")
    case "listInvoices" => Reads("billing.listInvoices")
    case "listCharges" => Reads("billing.listCharges")
    case "getCharge" => Reads("billing.getCharge")
    case "createRefund" => Some(Route(Post, CreateRefund, {"charge_id", "reason"}, {"amount_cents"}))
    case "getSubscription" => Reads("billing.getSubscription")
    case "crmGetAccount" => Reads("crm.getAccount")
    case "crmSearchAccounts" => Writes(SearchAccounts, {"query"})
    case "crmAddAccountNote" => Writes(OtherBehavior("crm.addAccountNote"), {"account_id", "body"})
    case "crmUpdateAccountStatus" => Writes(OtherBehavior("crm.updateAccountStatus"), {"account_id", "status"})
    case "ticketCreateIssue" => Writes(CreateIssue, {"project_id", "account_id", "title", "priority"})
    case "ticketGetIssue" => Reads("ticket.getIssue")
    case "ticketSearchIssues" => Writes(SearchIssues, {"query"})
    case "ticketAddComment" => Writes(OtherBehavior("ticket.addComment"), {"issue_id", "body"})
    case "ticketTransitionIssue" => Writes(OtherBehavior("ticket.transitionIssue"), {"issue_id", "status"})
    case "messageListChannels" => Some(Route(Get, ListChannels, {"id"}, {}))
    case "messageReadChannel" => Some(Route(Get, ReadChannel, {"id"}, {}))
    case "messagePostMessage" => Writes(PostMessage, {"channel_id", "body"})
    case _ => None
  }

  /** What `validateContract` accepts; the paths are not part of an `Operation`. */
  predicate Supported(op: Operation) {
    && RouteOf(op.id).Some?
    && var r := RouteOf(op.id).value;
       && op.verb == r.verb && op.behavior == r.behavior
       && |op.properties| == |r.strings + r.integers| == |op.required|
       && (forall name | name in r.strings :: name in op.properties && op.properties[name].StringArg?)
       && (forall name | name in r.integers :: name in op.properties && op.properties[name].IntegerArg?)
       && (forall name | name in r.strings + r.integers :: name in op.required)
  }

  lemma RefundRoute()
    ensures RouteOf("createRefund") == Some(Route(Post, CreateRefund, {"charge_id", "reason"}, {"amount_cents"}))
  {
    hide Reads, Writes;
  }

  lemma OneIntegerRoute(id: string)
    requires RouteOf(id).Some? && RouteOf(id).value.integers != {}
    ensures RouteOf(id).value.behavior == CreateRefund && RouteOf(id).value.integers == {"amount_cents"}
  {
    hide Reads, Writes;
  }

  lemma SameSizeSubset(a: set<string>, b: set<string>)
    requires a <= b && |a| == |b|
    ensures a == b
  {
    if exists x :: x in b && x !in a {
      var x :| x in b && x !in a;
      assert a <= b - {x};
      SubsetIsSmaller(a, b - {x});
    }
  }

  lemma {:induction false} SubsetIsSmaller(a: set<string>, b: set<string>)
    requires a <= b
    ensures |a| <= |b|
  {
    if a != {} {
      var x :| x in a;
      SubsetIsSmaller(a - {x}, b - {x});
    }
  }

  /** A supported operation declares exactly the arguments of its route, so no integer but a refund's amount. */
  lemma OnlyAmountIsInteger(op: Operation, name: string)
    requires Supported(op) && name in op.properties && op.properties[name].IntegerArg?
    ensures op.behavior == CreateRefund && name == "amount_cents"
  {
    hide RouteOf;
    var r := RouteOf(op.id).value;
    assert |op.properties.Keys| == |op.properties|;
    SameSizeSubset(r.strings + r.integers, op.properties.Keys);
    assert name in r.integers;
    OneIntegerRoute(op.id);
  }

  /** What a refund is refused with never reads "invalid amount_cents". */
  lemma RefundNeverBorrows(fault: Fault)
    requires fault in {InvalidRefundArguments, AmountMustBePositive, ChargeNotFound, RefundExceedsRemainingCharge}
    ensures ErrorDoc(fault) != ErrorDoc(InvalidArgument("amount_cents"))
  {
    hide ErrorDoc;
    if ErrorDoc(fault) == ErrorDoc(InvalidArgument("amount_cents")) {
      SameWording(fault, InvalidArgument("amount_cents"));
    }
  }

  lemma RefundAnswers(f: Billing.Fields, id: string, w: World, args: Args, mode: NumberMode)
    ensures !Repeat.AnswersInvalid(Billing.Refunded(f, id, w, args, mode), "amount_cents")
  {
    hide ErrorDoc, Billing.Integer;
    RefundNeverBorrows(InvalidRefundArguments);
    RefundNeverBorrows(AmountMustBePositive);
  }

  lemma ContractNeverAgain(env: Env, f: Billing.Fields, refundId: (string, string) -> string,
                           others: Builtin.OtherHandler, checks: (Behavior, Args) -> bool)
    requires Builtin.IsBuiltin(env, f, refundId, others, checks) && forall op | op in env.operations :: Supported(op)
    ensures Exact.NeverAgain(env)
  {
    hide Supported, Billing.Refunded, Repeat.AnswersInvalid, Dispatch.Validate;
    forall op, args | op in env.operations && NumericFault(op, args)
      ensures Repeat.RefusedName(op, args) != "arguments"
      ensures forall world, run, id ::
                !Repeat.AnswersInvalid(env.handler(world, run, id, op.behavior, args, Literal),
                                     Repeat.RefusedName(op, args))
    {
      OnlyAmountIsInteger(op, Repeat.RefusedName(op, args));
      forall world, run, id
        ensures !Repeat.AnswersInvalid(env.handler(world, run, id, op.behavior, args, Literal), "amount_cents")
      {
        RefundAnswers(f, refundId(run, id), world, args, Literal);
      }
    }
  }

  /**
    For a manifest of the fixed contract, and calls both decoders read alike, a boundary is
    rebuilt exactly when its prefix holds no call refused for a number and it does not end
    in a respelled turn; and then with the run's own rows, chaos counters included.
   */
  lemma ContractRebuildsIff(env: Env, f: Billing.Fields, refundId: (string, string) -> string,
                            others: Builtin.OtherHandler, checks: (Behavior, Args) -> bool, world: World,
                            moves: seq<Move>, db: Db, p: Checkpoint.Point)
    returns (j: nat, then_: Db)
    requires Builtin.IsBuiltin(env, f, refundId, others, checks) && forall op | op in env.operations :: Supported(op)
    requires ValidPolicy(env) && Reaches(env, world, moves, db)
    requires Checkpoint.ListOf(db).Some? && p in Checkpoint.ListOf(db).value && NoneApart(env, p.prefix)
    ensures j <= |moves| && Reaches(env, world, moves[..j], then_) && then_.ledger == p.prefix
    ensures ReconstructOf(env, world, db, p)
         == if AllRepeatable(env, p.prefix) && EndsPlainly(p.prefix) then Some(then_) else None
  {
    hide Builtin.IsBuiltin, Supported, ValidPolicy, Exec, NoneApart, AllRepeatable, EndsPlainly, ReconstructOf,
      Exact.NeverAgain, Echo.HandlersTell;
    Builtin.MeetsAssumptions(env, f, refundId, others, checks);
    ContractNeverAgain(env, f, refundId, others, checks);
    j, then_ := Exact.RepeatableRebuildsIff(env, world, moves, db, p);
  }
}
