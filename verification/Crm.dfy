/** `crm.updateAccountStatus`, a handler that checks its arguments itself. */
module Crm {
  import opened Basics
  import opened Protocol
  import Billing

  /** Argument names, and the statuses an account can have. */
  datatype Fields = Fields(account: string, status: string, statuses: set<string>)

  predicate Blank(s: string) {
    forall c | c in s :: IsSpace(c)
  }

  /** Accounts are records in the document store. The arguments are read as strings, however numbers were decoded. */
  function Updated(f: Fields, w: World, args: Args): Option<Outcome> {
    var id, status := Billing.TextOf(Billing.Lookup(args, f.account)), Billing.TextOf(Billing.Lookup(args, f.status));
    if Blank(id) then Billing.Refuse(400, InvalidArgument(f.account), w)
    else if status !in f.statuses then Billing.Refuse(400, InvalidArgument(f.status), w)
    else if id !in w.rest || !w.rest[id].Obj? then Billing.Refuse(404, AccountNotFound, w)
    else
      var account := Obj(w.rest[id].fields[f.status := Str(status)]);
      Some(Outcome(200, account, Some(Arr([Str(id), Str(status)])), w.(rest := w.rest[id := account])))
  }

  /** Only an update writes, and it says so; a number where a status belongs is refused by name. */
  lemma UpdateTells(f: Fields, w: World, args: Args)
    ensures var o := Updated(f, w, args);
            && o.Some? && o.value.world.charges == w.charges && o.value.world.refunds == w.refunds
            && (o.value.mutation.None? ==> o.value.world == w)
    ensures f.account in args && args[f.account].Str? && !Blank(args[f.account].s) && f.status in args
            && !args[f.status].Str? && "" !in f.statuses
            ==> Updated(f, w, args) == Some(Outcome(400, ErrorDoc(InvalidArgument(f.status)), None, w))
  {
    hide ErrorDoc;
  }
}
