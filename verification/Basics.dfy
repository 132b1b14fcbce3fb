/** Values shared by every module: options, JSON documents and ordered strings. */
module Basics {

  datatype Option<+T> = None | Some(value: T)

  datatype Failure =
    | CallReused
    | OperationNotCompiled
    | ActorUnavailable
    | ActorFailed
    | ActorDidNotMutate
    | SnapshotMissing
    | HandlerFailed
    | HandlerDidNotRun

  /** A transaction body either produces a value or aborts, which rolls everything back. */
  datatype Tx<+T> = Ok(value: T) | Abort(reason: Failure) {
    predicate IsFailure() { Abort? }
    function PropagateFailure<U>(): Tx<U>
      requires Abort?
    {
      Abort(reason)
    }
    function Extract(): T
      requires Ok?
    {
      value
    }
  }

  /** JSON documents compared by value. A number is the float64 value it decodes to. */
  datatype Json =
    | Null
    | Bool(b: bool)
    | Num(n: real)
    | Str(s: string)
    | Arr(items: seq<Json>)
    | Obj(fields: map<string, Json>)

  /** The errors that dispatcher and handlers report. Different ones may have the same wording. */
  datatype Fault =
    | MissingArgument(name: string)
    | UnexpectedArgument(name: string)
    | InvalidArgument(name: string)
    | InvalidArguments
    | AuthorizationDenied(reason: Reason)
    | SimulatedHttpFailure
    | SimulatedTransportTimeout
    | SimulatedRateLimit
    | SimulatedPermissionRevocation
    | SimulatedServiceOutage
    | InjectedUnavailability
    | InvalidRefundArguments
    | AmountMustBePositive
    | ChargeNotFound
    | RefundExceedsRemainingCharge
    | AccountNotFound

  /** Why a call was denied; `Permitted` is the empty reason code. */
  datatype Reason =
    | Permitted
    | BehaviorUnmapped
    | PermissionNotGranted
    | PermissionRevoked
    | CustomerOutOfScope
    | ChannelOutOfScope
    | ProjectOutOfScope
    | BroadSearchScoped
    | RefundLimitExceeded

  function ReasonCode(reason: Reason): string {
    match reason
    case Permitted => ""
    case BehaviorUnmapped => "behavior_unmapped"
    case PermissionNotGranted => "permission_not_granted"
    case PermissionRevoked => "permission_revoked"
    case CustomerOutOfScope => "customer_out_of_scope"
    case ChannelOutOfScope => "channel_out_of_scope"
    case ProjectOutOfScope => "project_out_of_scope"
    case BroadSearchScoped => "broad_search_scoped"
    case RefundLimitExceeded => "refund_limit_exceeded"
  }

  /** What an error document says. */
  function Wording(fault: Fault): string {
    match fault
    case MissingArgument(name) => "missing " + name
    case UnexpectedArgument(name) => "unexpected " + name
    case InvalidArgument(name) => "invalid " + name
    case InvalidArguments => "invalid arguments"
    case AuthorizationDenied(_) => "authorization denied"
    case SimulatedHttpFailure => "simulated HTTP failure"
    case SimulatedTransportTimeout => "simulated transport timeout"
    case SimulatedRateLimit => "simulated rate limit"
    case SimulatedPermissionRevocation => "simulated permission revocation"
    case SimulatedServiceOutage => "simulated service outage"
    case InjectedUnavailability => "injected temporary unavailability"
    case InvalidRefundArguments => "invalid refund arguments"
    case AmountMustBePositive => "amount must be positive"
    case ChargeNotFound => "charge not found"
    case RefundExceedsRemainingCharge => "refund exceeds remaining charge"
    case AccountNotFound => "account not found"
  }

  /** The `{"error": ...}` document a fault is answered with. */
  function ErrorDoc(fault: Fault): Json {
    var doc := map["error" := Str(Wording(fault))];
    Obj(if fault.AuthorizationDenied? then doc["reason" := Str(ReasonCode(fault.reason))] else doc)
  }

  /** The argument checker's documents tell its faults apart. */
  lemma CheckerTells(name: string, fault: Fault)
    requires ErrorDoc(fault) == ErrorDoc(InvalidArgument(name))
    ensures !fault.MissingArgument? && !fault.UnexpectedArgument?
    ensures fault.InvalidArgument? ==> fault.name == name
    ensures fault.InvalidArguments? ==> name == "arguments"
  {
    SameWording(fault, InvalidArgument(name));
    var text := Wording(fault);
    assert text == "invalid " + name;
    assert text[0] == 'i' && text[8..] == name;
    if fault.InvalidArgument? {
      assert text[8..] == fault.name;
    } else if fault.InvalidArguments? {
      assert text[8..] == "arguments";
    }
  }

  lemma SameWording(a: Fault, b: Fault)
    requires ErrorDoc(a) == ErrorDoc(b)
    ensures Wording(a) == Wording(b)
  {
    hide Wording, ReasonCode;
    assert "error" != "reason";
    assert ErrorDoc(a).fields["error"] == Str(Wording(a)) && ErrorDoc(b).fields["error"] == Str(Wording(b));
  }

  type Args = map<string, Json>

  /**
    How a decoder represents JSON numbers: the runner decodes transcripts into
    float64 values, a checkpoint rebuild keeps the literals recorded for them.
   */
  datatype NumberMode = Float | Literal

  const INT64_MIN: int := -0x8000_0000_0000_0000
  const INT64_MAX: int := 0x7fff_ffff_ffff_ffff

  predicate Int64(n: int) {
    INT64_MIN <= n <= INT64_MAX
  }

  /** The 64-bit integer a number denotes exactly, if there is one. */
  function Whole(r: real): Option<int> {
    if r.Floor as real == r && Int64(r.Floor) then Some(r.Floor) else None
  }

  function Pow2(k: nat): nat {
    if k == 0 then 1 else 2 * Pow2(k - 1)
  }

  function DigitChar(n: nat): char
    requires n < 10
  {
    ('0' as int + n) as char
  }

  /** A natural number in decimal, without leading zeros. */
  function Decimal(n: nat): string {
    if n < 10 then [DigitChar(n)] else Decimal(n / 10) + [DigitChar(n % 10)]
  }

  /** The characters `strings.TrimSpace` removes. */
  predicate IsSpace(c: char) {
    var n := c as int;
    || 0x9 <= n <= 0xd || n == 0x20 || n == 0x85 || n == 0xa0 || n == 0x1680 || 0x2000 <= n <= 0x200a
    || n == 0x2028 || n == 0x2029 || n == 0x202f || n == 0x205f || n == 0x3000
  }

  function LastOf<T>(s: seq<T>): Option<T> {
    if s == [] then None else Some(s[|s| - 1])
  }

  /** Lexicographic order on strings, the order `sort.Strings` uses. */
  predicate Before(a: string, b: string) {
    |b| > 0 && (|a| == 0 || a[0] < b[0] || (a[0] == b[0] && Before(a[1..], b[1..])))
  }

  lemma {:induction false} BeforeIsTotal(a: string, b: string)
    ensures a == b || Before(a, b) || Before(b, a)
  {
    if |a| > 0 && |b| > 0 && a[0] == b[0] {
      BeforeIsTotal(a[1..], b[1..]);
      assert a == [a[0]] + a[1..] && b == [b[0]] + b[1..];
    }
  }

  lemma {:induction false} BeforeIsTransitive(a: string, b: string, c: string)
    requires Before(a, b) && Before(b, c)
    ensures Before(a, c)
  {
    if |a| > 0 && a[0] == b[0] == c[0] {
      BeforeIsTransitive(a[1..], b[1..], c[1..]);
    }
  }

  lemma {:induction false} BeforeIsIrreflexive(a: string)
    ensures !Before(a, a)
  {
    if |a| > 0 {
      BeforeIsIrreflexive(a[1..]);
    }
  }

  /** Nothing in the set comes before `k`. */
  predicate IsLeast(s: set<string>, k: string) {
    k in s && forall j | j in s :: j == k || Before(k, j)
  }

  lemma {:induction false} LeastExists(s: set<string>) returns (k: string)
    requires s != {}
    ensures IsLeast(s, k)
  {
    hide Before;
    var x :| x in s;
    var rest := s - {x};
    assert s == {x} + rest;
    k := x;
    if rest != {} {
      var m := LeastExists(rest);
      BeforeIsTotal(x, m);
      if Before(x, m) {
        forall j | j in rest
          ensures Before(x, j)
        {
          if j != m {
            BeforeIsTransitive(x, m, j);
          }
        }
      } else {
        k := m;
      }
    }
  }

  lemma LeastIsUnique(s: set<string>, k: string, m: string)
    requires IsLeast(s, k) && IsLeast(s, m)
    ensures k == m
  {
    hide Before;
    if k != m {
      BeforeIsTransitive(k, m, k);
      BeforeIsIrreflexive(k);
    }
  }

  lemma OneLeast(s: set<string>)
    requires s != {}
    ensures exists k :: IsLeast(s, k)
    ensures forall k, m | IsLeast(s, k) && IsLeast(s, m) :: k == m
  {
    hide IsLeast;
    var k := LeastExists(s);
    forall k, m | IsLeast(s, k) && IsLeast(s, m)
      ensures k == m
    {
      LeastIsUnique(s, k, m);
    }
  }

  function Least(s: set<string>): (k: string)
    requires s != {}
    ensures IsLeast(s, k)
  {
    OneLeast(s);
    var k :| IsLeast(s, k);
    k
  }

  predicate Ascending(names: seq<string>) {
    forall i, j | 0 <= i < j < |names| :: Before(names[i], names[j])
  }

  /** The members of a set of names, in ascending order, each once. */
  function SortedNames(s: set<string>): (names: seq<string>)
    ensures Ascending(names)
    ensures forall name :: name in names <==> name in s
  {
    if s == {} then [] else
      var k := Least(s);
      var rest := SortedNames(s - {k});
      [k] + rest
  }
}
