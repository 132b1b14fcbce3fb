/**
  The records of a run: what a model turn and a tool call look like, what the
  ledger records about them, and the durable rows a run consists of.
 */
module Protocol {
  import opened Basics

  datatype ToolCall = ToolCall(id: string, op: string, args: Args)

  datatype Interruption = Interruption(attempt: nat, kind: string, reason: string)

  /**
    How the numbers of a turn are spelled. `Shortest` is the form an encoder gives
    float64 values; a provider may have written the same values any other way.
   */
  datatype Spelling = Shortest | Verbatim(text: string)

  datatype Message =
    | Assistant(content: string, calls: seq<ToolCall>, interruptions: seq<Interruption>, spelling: Spelling)
    | Tool(callId: string, op: string, status: int, body: Json)
    | Other(role: string, interruptions: seq<Interruption>)

  datatype Verb = Get | Post | OtherVerb

  /** The behaviors the authorization rules and the refund arithmetic name; the rest are opaque names. */
  datatype Behavior =
    | SearchAccounts
    | SearchIssues
    | ListChannels
    | ReadChannel
    | PostMessage
    | CreateIssue
    | CreateRefund
    | OtherBehavior(name: string)

  datatype ArgType = StringArg | IntegerArg | OtherArg

  datatype Operation = Operation(
    id: string, verb: Verb, behavior: Behavior,
    required: seq<string>, properties: map<string, ArgType>)

  /** What a model request records: task, provider, model, history and exposed operations. */
  datatype Request = Request(
    task: string, provider: string, model: string,
    history: seq<Message>, operations: seq<Operation>)

  // Chaos policy -----------------------------------------------------------

  datatype Actor = Actor(op: string, args: Args)

  datatype RuleKind =
    | HttpError(status: int)
    | Timeout
    | RateLimit
    | PermissionRevocation
    | PartialOutage
    | Latency(durationMs: int)
    | StaleRead
    | TimeoutAfterCommit
    | MalformedResponse(body: string)
    | ConcurrentMutation(actor: Actor)

  /** `times` of zero means unlimited, as an omitted field does. */
  datatype Rule = Rule(id: string, operations: seq<string>, times: nat, afterCalls: nat, kind: RuleKind)

  datatype RuleRow = RuleRow(calls: nat, injections: int)

  /** A snapshot is keyed by rule and by the digest of operation and arguments. */
  datatype SnapshotKey = SnapshotKey(rule: string, op: string, args: Args)

  datatype Observed = Observed(status: int, body: Json)

  datatype HiddenOutcome = HiddenOutcome(rule: string, actual: Observed)

  datatype ChaosRows = ChaosRows(
    rules: map<string, RuleRow>,
    snapshots: map<SnapshotKey, Observed>,
    hidden: map<string, HiddenOutcome>)

  // Ledger -----------------------------------------------------------------

  datatype TurnFault = InvalidCall | AppearsTwice(id: string) | Reused(id: string)

  datatype ProviderFault = ProviderError(reason: string) | WrongRole | InvalidTurn(fault: TurnFault)

  /** A dispatch failure without a cause is a database or context error. */
  datatype ErrorKind =
    | Injected503(callId: string)
    | ProviderFailure(fault: ProviderFault)
    | DispatchFailure(callId: string, op: string, cause: Option<Failure>)

  datatype Event =
    | Started
    | ModelRequest(request: Request)
    | Interrupted(attempt: Interruption)
    | ModelResponse(message: Message)
    | ToolRequest(call: ToolCall)
    | AuthAllowed(callId: string, op: string, principal: string, permission: string, index: nat)
    | AuthDenied(callId: string, op: string, principal: string, permission: string, index: nat, reason: Reason)
    | ChaosInjected(rule: string, kind: RuleKind, callId: string, op: string, matching: nat)
    | ActorMutation(rule: string, op: string, status: int, mutation: Json)
    | Error(error: ErrorKind)
    | Retry(callId: string, op: string)
    | Mutation(mutation: Json)
    | ToolResponse(callId: string, op: string, status: int, body: Json)
    | Paused(step: nat)
    | Completed(step: nat)

  // Durable rows -----------------------------------------------------------

  datatype Charge = Charge(amount: int, refunded: int)
  datatype Refund = Refund(id: string, charge: string, amount: int, reason: string)

  /** The world a run mutates: the billing tables, and every other table as one document store. */
  datatype World = World(charges: map<string, Charge>, refunds: seq<Refund>, rest: map<string, Json>)

  datatype Saved = Saved(op: string, args: Args, status: int, body: Json)

  datatype Status = Running | StatusPaused | StatusFailed | StatusCompleted

  /** Everything a run owns except its status and its ledger. */
  datatype Core = Core(
    step: nat, transcript: seq<Message>, results: map<string, Saved>, world: World,
    chaos: ChaosRows, authCalls: nat, faultConsumed: bool)

  datatype Db = Db(status: Status, ledger: seq<Event>, core: Core)

  // Authorization policy ---------------------------------------------------

  datatype Grant = Grant(permission: string, startsAtCall: int, endsAtCall: int)
  datatype Revocation = Revocation(permission: string, afterCall: int)

  datatype AuthPolicy = AuthPolicy(
    principal: string, roles: seq<string>, roleAllow: map<string, seq<string>>, allow: seq<string>,
    customers: Option<seq<string>>, channels: Option<seq<string>>, projects: Option<seq<string>>,
    refundMaxCents: Option<int>, grants: seq<Grant>, revocations: seq<Revocation>)

  // Environment ------------------------------------------------------------

  /** The immutable columns of a run row and its stored policies. */
  datatype Config = Config(
    runId: string, scenario: string, provider: string, model: string, task: string,
    faultOp: string, principal: string,
    chaosPolicy: Option<seq<Rule>>, authPolicy: Option<AuthPolicy>)

  /** What a behavior handler returns from inside the transaction. */
  datatype Outcome = Outcome(status: int, body: Json, mutation: Option<Json>, world: World)

  /**
    A run together with the deterministic code it calls. A handler is a function
    of world, run ID, call ID, behavior and decoded arguments; `None` is a Go
    error, which aborts the transaction.
   */
  datatype Env = Env(
    config: Config,
    operations: seq<Operation>,
    handler: (World, string, string, Behavior, Args, NumberMode) -> Option<Outcome>,
    permission: Behavior -> Option<string>,
    handlerValid: (Behavior, Args, NumberMode) -> bool,
    customerOf: (World, Behavior, Args) -> Option<string>)

  function FindOp(operations: seq<Operation>, id: string): (op: Option<Operation>)
    ensures op.Some? ==> op.value in operations && op.value.id == id
    ensures op.None? ==> forall o | o in operations :: o.id != id
  {
    if operations == [] then None
    else if operations[0].id == id then Some(operations[0])
    else FindOp(operations[1..], id)
  }

  /** Events that occur only between a tool request and its response. */
  predicate IsInner(e: Event) {
    e.AuthAllowed? || e.AuthDenied? || e.ChaosInjected? || e.ActorMutation? || e.Retry? || e.Mutation?
    || (e.Error? && e.error.Injected503?)
  }

  /** The failures that make a run unfit for replay and checkpoints. */
  predicate IsFailure(e: Event) {
    e.Error? && !e.error.Injected503?
  }

  predicate NoFailure(ledger: seq<Event>) {
    forall e | e in ledger :: !IsFailure(e)
  }

  function InterruptionsOf(m: Message): seq<Interruption> {
    match m
    case Assistant(_, _, interruptions, _) => interruptions
    case Tool(_, _, _, _) => []
    case Other(_, interruptions) => interruptions
  }

  /** A message as it comes back from decoding into float64 values and encoding again. */
  function Plain(m: Message): Message {
    if m.Assistant? then m.(spelling := Shortest) else m
  }

  function PlainAll(history: seq<Message>): (plain: seq<Message>)
    ensures |plain| == |history|
    ensures forall i | 0 <= i < |plain| :: plain[i] == Plain(history[i])
  {
    seq(|history|, i requires 0 <= i < |history| => Plain(history[i]))
  }

  function InterruptedEvents(attempts: seq<Interruption>): (es: seq<Event>)
    ensures |es| == |attempts|
    ensures forall i | 0 <= i < |es| :: es[i] == Interrupted(attempts[i])
  {
    seq(|attempts|, i requires 0 <= i < |attempts| => Interrupted(attempts[i]))
  }
}
