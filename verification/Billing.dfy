/** Refund arithmetic: the one built-in behavior that moves money. */
module Billing {
  import opened Basics
  import opened Numbers
  import opened Protocol

  /** The argument names of a refund request: charge, amount and reason. */
  datatype Fields = Fields(chargeId: string, amount: string, reason: string)

  /**
    The amount a decoded argument denotes. A float64 must be a whole 64-bit value.
    A number literal that does not parse as a 64-bit integer yields the parser's
    partial result: zero for a syntax error, the nearest bound when out of range.
   */
  function Integer(v: Option<Json>, mode: NumberMode): (n: int)
    ensures Int64(n)
  {
    if v.None? || !v.value.Num? then 0
    else
      var whole := ReadWhole(v.value.n, mode);
      if whole.Some? then whole.value
      else if mode.Float? then 0
      else OutOfRange(v.value.n)
  }

  /** What the literal parser leaves behind for a number that is no 64-bit integer. */
  function OutOfRange(r: real): (n: int)
    ensures Int64(n)
  {
    if r.Floor as real != r || r.Floor >= EXPONENT || -r.Floor >= EXPONENT then 0
    else if r < 0.0 then INT64_MIN else INT64_MAX
  }

  /** Both decoders read the same amount from every number up to 2^53. */
  lemma IntegersAgree(v: Option<Json>)
    requires v.Some? && v.value.Num? ==> !Large(v.value.n)
    ensures Integer(v, Float) == Integer(v, Literal)
  {
    if v.Some? && v.value.Num? {
      ReadersAgree(v.value.n);
    }
  }

  function Lookup(args: Args, name: string): Option<Json> {
    if name in args then Some(args[name]) else None
  }

  function TextOf(v: Option<Json>): string {
    if v.Some? && v.value.Str? then v.value.s else ""
  }

  function Refuse(status: int, fault: Fault, w: World): Option<Outcome> {
    Some(Outcome(status, ErrorDoc(fault), None, w))
  }

  predicate HasRefund(refunds: seq<Refund>, id: string) {
    exists r | r in refunds :: r.id == id
  }

  /** Insert the refund row and raise the charge's refunded total. */
  function AddRow(w: World, row: Refund): World
    requires row.charge in w.charges
  {
    var charge := w.charges[row.charge];
    w.(refunds := w.refunds + [row],
       charges := w.charges[row.charge := charge.(refunded := charge.refunded + row.amount)])
  }

  /** `None` is a failed insert: the refund ID is the table's primary key. */
  function Create(w: World, refundId: string, chargeId: string, amount: int, reason: string): Option<Outcome> {
    if chargeId == "" || reason == "" then Refuse(400, InvalidRefundArguments, w)
    else if amount <= 0 then Refuse(400, AmountMustBePositive, w)
    else if chargeId !in w.charges then Refuse(404, ChargeNotFound, w)
    else
      var charge := w.charges[chargeId];
      if amount > charge.amount - charge.refunded then Refuse(409, RefundExceedsRemainingCharge, w)
      else if HasRefund(w.refunds, refundId) then None
      else
        var row := Refund(refundId, chargeId, amount, reason);
        var receipt := Arr([Str(refundId), Str(chargeId), Num(amount as real), Str(reason)]);
        Some(Outcome(201, receipt, Some(receipt), AddRow(w, row)))
  }

  /** The `billing.createRefund` handler for a refund ID already derived from run and call. */
  function Refunded(f: Fields, refundId: string, w: World, args: Args, mode: NumberMode): Option<Outcome> {
    Create(w, refundId, TextOf(Lookup(args, f.chargeId)), Integer(Lookup(args, f.amount), mode),
           TextOf(Lookup(args, f.reason)))
  }

  /** The billing tables inside an open transaction. */
  class Tables {
    var charges: map<string, Charge>
    var refunds: seq<Refund>
    var rest: map<string, Json>

    ghost function Rows(): World
      reads this
    {
      World(charges, refunds, rest)
    }

    constructor (w: World)
      ensures Rows() == w
    {
      charges, refunds, rest := w.charges, w.refunds, w.rest;
    }

    /** Insert the refund, then raise the charge; `None` is an error that rolls the transaction back. */
    method IssueRefund(f: Fields, refundId: string, args: Args, mode: NumberMode) returns (o: Option<Outcome>)
      modifies this
      ensures o == Refunded(f, refundId, old(Rows()), args, mode)
      ensures Rows() == if o.Some? then o.value.world else old(Rows())
    {
      var chargeId, reason := TextOf(Lookup(args, f.chargeId)), TextOf(Lookup(args, f.reason));
      var amount := Integer(Lookup(args, f.amount), mode);
      var before := World(charges, refunds, rest);
      if chargeId == "" || reason == "" {
        return Refuse(400, InvalidRefundArguments, before);
      }
      if amount <= 0 {
        return Refuse(400, AmountMustBePositive, before);
      }
      if chargeId !in charges {
        return Refuse(404, ChargeNotFound, before);
      }
      var charge := charges[chargeId];
      if amount > charge.amount - charge.refunded {
        return Refuse(409, RefundExceedsRemainingCharge, before);
      }
      for i := 0 to |refunds|
        invariant forall j | 0 <= j < i :: refunds[j].id != refundId
        invariant Rows() == before
      {
        if refunds[i].id == refundId {
          return None;
        }
      }
      refunds := refunds + [Refund(refundId, chargeId, amount, reason)];
      charges := charges[chargeId := charge.(refunded := charge.refunded + amount)];
      var receipt := Arr([Str(refundId), Str(chargeId), Num(amount as real), Str(reason)]);
      o := Some(Outcome(201, receipt, Some(receipt), World(charges, refunds, rest)));
    }
  }

  function RefundedBy(refunds: seq<Refund>, charge: string): int {
    if refunds == [] then 0 else
      var last := refunds[|refunds| - 1];
      RefundedBy(refunds[..|refunds| - 1], charge) + (if last.charge == charge then last.amount else 0)
  }

  predicate WellFunded(charge: Charge) {
    0 <= charge.refunded <= charge.amount <= INT64_MAX
  }

  predicate SeedFunded(seed: World) {
    forall c | c in seed.charges :: WellFunded(seed.charges[c])
  }

  /** Charges keep their amounts, and what was refunded is the seed value plus the committed refund rows. */
  predicate Conserved(seed: World, w: World) {
    && w.charges.Keys == seed.charges.Keys
    && seed.refunds <= w.refunds
    && (forall r | r in w.refunds[|seed.refunds|..] :: r.amount > 0 && r.charge in w.charges)
    && forall c | c in w.charges ::
         && w.charges[c].amount == seed.charges[c].amount
         && WellFunded(w.charges[c])
         && w.charges[c].refunded == seed.charges[c].refunded + RefundedBy(w.refunds[|seed.refunds|..], c)
  }

  /** A handler may only touch the billing tables the way a refund does. */
  ghost predicate RefundOnly(w: World, w': World, f: Fields) {
    || (w'.charges == w.charges && w'.refunds == w.refunds)
    || exists id, args, mode, o :: Refunded(f, id, w, args, mode) == Some(o) && w' == o.world
  }

  lemma SeedIsConserved(seed: World)
    requires SeedFunded(seed)
    ensures Conserved(seed, seed)
  {
    assert seed.refunds[|seed.refunds|..] == [];
  }

  lemma RefundedByAppend(refunds: seq<Refund>, row: Refund, charge: string)
    ensures RefundedBy(refunds + [row], charge)
            == RefundedBy(refunds, charge) + (if row.charge == charge then row.amount else 0)
  {
    assert (refunds + [row])[..|refunds|] == refunds;
  }

  lemma AddRowConserves(seed: World, w: World, row: Refund)
    requires Conserved(seed, w)
    requires row.charge in w.charges
    requires 0 < row.amount <= w.charges[row.charge].amount - w.charges[row.charge].refunded
    ensures Conserved(seed, AddRow(w, row))
  {
    var n := |seed.refunds|;
    var after := AddRow(w, row);
    assert after.refunds[n..] == w.refunds[n..] + [row];
    forall c | c in w.charges
      ensures after.charges[c].refunded == seed.charges[c].refunded + RefundedBy(after.refunds[n..], c)
    {
      RefundedByAppend(w.refunds[n..], row, c);
    }
  }

  lemma CreateConserves(seed: World, w: World, refundId: string, chargeId: string, amount: int, reason: string)
    requires Conserved(seed, w)
    ensures var o := Create(w, refundId, chargeId, amount, reason);
            o.Some? ==> Conserved(seed, o.value.world)
  {
    if chargeId in w.charges && 0 < amount <= w.charges[chargeId].amount - w.charges[chargeId].refunded {
      AddRowConserves(seed, w, Refund(refundId, chargeId, amount, reason));
    }
  }

  lemma StepConserves(seed: World, f: Fields, w: World, w': World)
    requires Conserved(seed, w) && RefundOnly(w, w', f)
    ensures Conserved(seed, w')
  {
    if !(w'.charges == w.charges && w'.refunds == w.refunds) {
      var id, args, mode, o :| Refunded(f, id, w, args, mode) == Some(o) && w' == o.world;
      CreateConserves(seed, w, id, TextOf(Lookup(args, f.chargeId)), Integer(Lookup(args, f.amount), mode),
                      TextOf(Lookup(args, f.reason)));
    }
  }
}
