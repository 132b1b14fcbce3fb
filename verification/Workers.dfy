/**
  Any number of workers on one run. Workers read without locks, keep what they
  read in memory, die at any point, and write through the lease guard with
  clocks that need not agree. Every interleaving is a run of the one engine.
 */
module Workers {
  import opened Basics
  import opened Protocol
  import opened Engine
  import opened Lease
  import Agreement
  import Authz
  import Dispatch
  import Execution

  /** The columns `Execute` reads at the top of its loop, the transcript decoded. */
  datatype View = View(status: Status, step: nat, history: seq<Message>)

  function ViewOf(db: Db): View {
    View(db.status, db.core.step, PlainAll(db.core.transcript))
  }

  /** Where a worker is in the loop, with everything it remembers. */
  datatype Pc =
    | Idle
    | Top(used: nat)
    | Viewed(view: View, used: nat)
    | Prepared(view: View, used: nat, request: Request)
    | Checked(view: View, used: nat, request: Request)
    | Asked(view: View, used: nat, request: Request)
    | Replied(view: View, used: nat, message: Message, fault: Option<ProviderFault>)
    | Failing(view: View, call: ToolCall, cause: Option<Failure>)

  datatype Worker = Worker(fence: Fence, limit: nat, pc: Pc)

  datatype System = System(db: Db, lease: LeaseRow, workers: map<nat, Worker>)

  datatype Act =
    | Claim(owner: string, limit: nat, ttl: nat, now: int)
    | Renewal(ttl: nat, now: int)
    | Surrender(now: int)
    | Crash
    | ReadRow
    | ReadOperations
    | ReadLastEvent
    | Reply(message: Message, fault: Option<ProviderFault>)
    | DispatchError
    | Write(now: int)

  function Move(s: System, w: nat, pc: Pc): System
    requires w in s.workers
  {
    s.(workers := s.workers[w := s.workers[w].(pc := pc)])
  }

  /** Acts that touch no row of the run. */
  function Local(env: Env, s: System, w: nat, act: Act): Option<System>
    requires w in s.workers
  {
    var pc := s.workers[w].pc;
    match act
    case Crash => Some(Move(s, w, Idle))
    case ReadRow => if pc.Top? then Some(Move(s, w, Viewed(ViewOf(s.db), pc.used))) else None
    case ReadOperations =>
      if pc.Viewed? && !pc.view.status.StatusCompleted? && NeedsTurn(pc.view.history)
          && pc.used < s.workers[w].limit then
        Some(Move(s, w, Prepared(pc.view, pc.used,
          Request(env.config.task, env.config.provider, env.config.model, pc.view.history,
                  Authz.Exposed(env, s.db.core.authCalls)))))
      else None
    case ReadLastEvent =>
      if !pc.Prepared? then None
      else if !Open(s.db.ledger) then Some(Move(s, w, Checked(pc.view, pc.used, pc.request)))
      else if s.db.ledger[|s.db.ledger| - 1].request == pc.request then
          Some(Move(s, w, Asked(pc.view, pc.used, pc.request)))
      else Some(Move(s, w, Idle))
    case Reply(m, fault) =>
      if pc.Asked? && (fault.None? ==> Accepted(env, pc.view.history, m))
      then Some(Move(s, w, Replied(pc.view, pc.used, m, fault))) else None
    case DispatchError =>
      if pc.Viewed? && !pc.view.status.StatusCompleted? && Pending(pc.view.history).Some?
      then Some(Move(s, w, Failing(pc.view, Pending(pc.view.history).value, None))) else None
    case _ => None
  }

  /** What a worker's next transaction would do to the rows, and where it continues. */
  datatype Effect = Effect(db: Db, pc: Pc)

  /** The transaction body, computed from the worker's memory where the code does so. */
  function BodyOf(env: Env, db: Db, limit: nat, pc: Pc): Option<Effect> {
    match pc
    case Checked(view, used, request) =>
      Some(Effect(db.(ledger := db.ledger + [ModelRequest(request)]), Asked(view, used, request)))
    case Replied(view, used, m, fault) =>
      if fault.Some? then Some(Effect(FailTurn(db, m, fault.value), Idle))
      else Some(Effect(WriteTurn(db, view.step + 1, view.history + [m], m), Top(used + 1)))
    case Failing(view, call, cause) =>
      Some(Effect(db.(status := StatusFailed,
                      ledger := db.ledger + [Error(DispatchFailure(call.id, call.op, cause))]), Idle))
    case Viewed(view, used) => if view.status.StatusCompleted? then None else ViewedBody(env, db, limit, view, used)
    case _ => None
  }

  function ViewedBody(env: Env, db: Db, limit: nat, view: View, used: nat): Option<Effect> {
    if Pending(view.history).Some? then
      var call := Pending(view.history).value;
      match Dispatch.Invoke(env, db.core, Retried(db.ledger), call, Float)
      case Committed(core, events) => Some(Effect(Db(db.status, db.ledger + events, core), Top(used)))
      case Cached(_) => Some(Effect(db, Top(used)))
      case Rejected(cause) => Some(Effect(db, Failing(view, call, Some(cause))))
    else if IsFinal(view.history) then
      Some(Effect(db.(status := StatusCompleted, ledger := db.ledger + [Completed(view.step)]), Idle))
    else if used >= limit then
      Some(Effect(db.(status := StatusPaused, ledger := db.ledger + [Paused(view.step)]), Idle))
    else None
  }

  /** Where a worker goes when the guard refuses its write. */
  function Refused(pc: Pc): Pc {
    if pc.Viewed? && Pending(pc.view.history).Some? then Failing(pc.view, Pending(pc.view.history).value, None)
        else Idle
  }

  function Commit(env: Env, s: System, w: nat, now: int): Option<System>
    requires w in s.workers
  {
    var worker := s.workers[w];
    match BodyOf(env, s.db, worker.limit, worker.pc)
    case None => None
    case Some(effect) =>
      match Guard(s.lease, worker.fence, now)
      case None => Some(Move(s, w, Refused(worker.pc)))
      case Some(row) => Some(System(effect.db, row, s.workers[w := worker.(pc := effect.pc)]))
  }

  function Next(env: Env, s: System, w: nat, act: Act): Option<System> {
    match act
    case Claim(owner, limit, ttl, now) =>
      (match Acquire(s.lease, owner, ttl, now)
       case Some(row) =>
         if limit < 1 then None
         else Some(System(s.db, row, s.workers[w := Worker(Fence(owner, row.fence), limit, Top(0))]))
       case None => None)
    case Renewal(ttl, now) =>
      if w !in s.workers || Renew(s.lease, s.workers[w].fence, ttl, now).None? then None
      else Some(s.(lease := Renew(s.lease, s.workers[w].fence, ttl, now).value))
    case Surrender(now) =>
      if w !in s.workers || Release(s.lease, s.workers[w].fence, now).None? then None
      else Some(s.(lease := Release(s.lease, s.workers[w].fence, now).value))
    case Write(now) => if w in s.workers then Commit(env, s, w, now) else None
    case _ => if w in s.workers then Local(env, s, w, act) else None
  }

  // The invariant -----------------------------------------------------------

  /** What the current owner remembers is still what the rows say. */
  predicate Fresh(env: Env, db: Db, pc: Pc) {
    match pc
    case Idle => true
    case Top(used) => used > 0 ==> !Open(db.ledger)
    case Viewed(view, used) => view == ViewOf(db) && (used > 0 ==> !Open(db.ledger))
    case Prepared(view, used, request) =>
      view == ViewOf(db) && !db.status.StatusCompleted? && NeedsTurn(view.history) && request == RequestOf(env, db.core)
    case Checked(view, used, request) =>
      view == ViewOf(db) && !db.status.StatusCompleted? && NeedsTurn(view.history) && request == RequestOf(env, db.core)
      && !Open(db.ledger)
    case Asked(view, used, request) =>
      view == ViewOf(db) && !db.status.StatusCompleted? && Answerable(env, db) && request == RequestOf(env, db.core)
    case Replied(view, used, m, fault) =>
      view == ViewOf(db) && !db.status.StatusCompleted? && Answerable(env, db)
      && (fault.None? ==> Accepted(env, view.history, m))
    case Failing(view, call, cause) =>
      view == ViewOf(db) && !db.status.StatusCompleted? && Pending(view.history) == Some(call)
  }

  /** Tokens never exceed the lease's, no two workers hold the same one, and the newest holder is fresh. */
  predicate Coherent(env: Env, s: System) {
    && Agreement.Agree(s.db)
    && (forall w | w in s.workers :: s.workers[w].fence.token <= s.lease.fence && s.workers[w].limit >= 1)
    && (forall v, w | v in s.workers && w in s.workers
      && v != w :: s.workers[v].fence.token != s.workers[w].fence.token)
    && forall w | w in s.workers && s.workers[w].fence.token == s.lease.fence :: Fresh(env, s.db, s.workers[w].pc)
  }

  /** The only turn a transaction saves is the one its worker was given. */
  predicate TurnsFrom(pc: Pc, moves: seq<Engine.Move>) {
    forall i | 0 <= i < |moves| && moves[i].Turn? :: pc.Replied? && pc.fault.None? && moves[i].message == pc.message
  }

  lemma LocalKeepsFresh(env: Env, s: System, w: nat, act: Act)
    requires w in s.workers && Local(env, s, w, act).Some? && Fresh(env, s.db, s.workers[w].pc)
    ensures Fresh(env, s.db, Local(env, s, w, act).value.workers[w].pc)
  {
    hide Authz.Exposed, AllCalls, DoneIds, Pending, IsFinal, Rejection;
    PlainDecides(s.db.core.transcript);
  }

  /** A fresh worker's transaction is a step of the engine, and the worker stays fresh. */
  lemma FreshBodyIsMove(env: Env, db: Db, limit: nat, pc: Pc) returns (moves: seq<Engine.Move>)
    requires Agreement.Agree(db) && Fresh(env, db, pc) && limit >= 1 && BodyOf(env, db, limit, pc).Some?
    ensures var effect := BodyOf(env, db, limit, pc).value;
            && |moves| <= 1
            && Exec(env, db, moves) == Some(effect.db)
            && Fresh(env, effect.db, effect.pc)
    ensures TurnsFrom(pc, moves)
  {
    hide Agreement.Agree, Dispatch.Invoke, Authz.Exposed, AllCalls, DoneIds, Rejection, SaveTurn, FailTurn;
    if pc.Viewed? {
      moves := ViewedBodyIsMove(env, db, limit, pc.view, pc.used);
    } else {
      moves := OtherBodyIsMove(env, db, limit, pc);
    }
  }

  lemma OtherBodyIsMove(env: Env, db: Db, limit: nat, pc: Pc) returns (moves: seq<Engine.Move>)
    requires Agreement.Agree(db) && Fresh(env, db, pc) && BodyOf(env, db, limit, pc).Some? && !pc.Viewed?
    ensures var effect := BodyOf(env, db, limit, pc).value;
            && |moves| <= 1
            && Exec(env, db, moves) == Some(effect.db)
            && Fresh(env, effect.db, effect.pc)
    ensures TurnsFrom(pc, moves)
  {
    hide Agreement.Agree, Dispatch.Invoke, Authz.Exposed, AllCalls, DoneIds, Rejection, Pending, IsFinal, Accepted;
    PlainDecides(db.core.transcript);
    match pc
    case Checked(view, used, request) =>
      moves := [Request_];
      ExecOne(env, db, Request_);
    case Replied(view, used, m, fault) =>
      if fault.Some? {
        moves := [TurnFailed(m, fault.value)];
        ExecOne(env, db, moves[0]);
      } else {
        moves := [Turn(m)];
        PlainAccepts(env, db.core.transcript, m);
        ExecOne(env, db, moves[0]);
        Execution.TurnSettlesLedger(db, m);
      }
    case Failing(view, call, cause) =>
      moves := [DispatchFailed(cause)];
      ExecOne(env, db, moves[0]);
  }

  lemma ViewedBodyIsMove(env: Env, db: Db, limit: nat, view: View, used: nat) returns (moves: seq<Engine.Move>)
    requires Agreement.Agree(db) && view == ViewOf(db) && !view.status.StatusCompleted? && limit >= 1
    requires used > 0 ==> !Open(db.ledger)
    requires ViewedBody(env, db, limit, view, used).Some?
    ensures var effect := ViewedBody(env, db, limit, view, used).value;
            && |moves| <= 1
            && Exec(env, db, moves) == Some(effect.db)
            && Fresh(env, effect.db, effect.pc)
    ensures forall i | 0 <= i < |moves| :: !moves[i].Turn?
  {
    hide Agreement.Agree, Dispatch.Invoke, Pending, IsFinal;
    PlainDecides(db.core.transcript);
    if Pending(view.history).Some? {
      Execution.PendingIsFresh(env, db);
      if Dispatch.Invoke(env, db.core, Retried(db.ledger), Pending(view.history).value, Float).Rejected? {
        moves := [];
      } else {
        Execution.DispatchSettles(env, db);
        moves := [Dispatched];
        ExecOne(env, db, Dispatched);
      }
    } else if IsFinal(view.history) {
      moves := [Complete];
      ExecOne(env, db, Complete);
    } else {
      moves := [Pause];
      ExecOne(env, db, Pause);
    }
  }

  lemma {:induction false} MovesKeepAgreement(env: Env, db: Db, moves: seq<Engine.Move>)
    requires Agreement.Agree(db) && Exec(env, db, moves).Some?
    ensures Agreement.Agree(Exec(env, db, moves).value)
  {
    hide Agreement.Agree, Apply;
    if moves != [] {
      var n := |moves| - 1;
      MovesKeepAgreement(env, db, moves[..n]);
      Agreement.StepKeepsAgreement(env, Exec(env, db, moves[..n]).value, moves[n]);
    }
  }

  /** Replacing one worker keeps coherence when its token is its own old one or a brand-new one. */
  lemma Reassemble(env: Env, s: System, db: Db, row: LeaseRow, w: nat, worker: Worker)
    requires Coherent(env, s) && Agreement.Agree(db) && worker.limit >= 1
    requires || (w in s.workers && worker.fence == s.workers[w].fence && row.fence == s.lease.fence)
             || (worker.fence.token == row.fence == s.lease.fence + 1)
    requires worker.fence.token == row.fence ==> Fresh(env, db, worker.pc)
    requires db == s.db || worker.fence.token == row.fence
    ensures Coherent(env, System(db, row, s.workers[w := worker]))
  {
    hide Fresh, Agreement.Agree;
  }

  /**
    No lost update. Whatever worker acts, the rows either stay as they are or
    take exactly one step of the engine from their current value, and only the
    holder of the newest token can change them.
   */
  lemma ActIsMove(env: Env, s: System, w: nat, act: Act) returns (moves: seq<Engine.Move>)
    requires Coherent(env, s) && Next(env, s, w, act).Some?
    ensures Coherent(env, Next(env, s, w, act).value)
    ensures |moves| <= 1 && Exec(env, s.db, moves) == Some(Next(env, s, w, act).value.db)
    ensures w !in s.workers || s.workers[w].fence.token != s.lease.fence
            ==> Next(env, s, w, act).value.db == s.db && moves == []
    ensures moves != [] ==> TurnsFrom(s.workers[w].pc, moves)
  {
    hide Agreement.Agree, BodyOf, Fresh, Local, Apply, Coherent;
    CoherentFacts(env, s, w);
    moves := [];
    match act
    case Claim(owner, limit, ttl, now) =>
      ClaimIsFresh(env, s.db);
      var row := Acquire(s.lease, owner, ttl, now).value;
      Reassemble(env, s, s.db, row, w, Worker(Fence(owner, row.fence), limit, Top(0)));
    case Renewal(_, _) => LeaseTimesDoNotMatter(env, s, Next(env, s, w, act).value.lease);
    case Surrender(_) => LeaseTimesDoNotMatter(env, s, Next(env, s, w, act).value.lease);
    case Write(now) => moves := WriteIsMove(env, s, w, now);
    case _ =>
      LocalIsQuiet(env, s, w, act);
      var t := Local(env, s, w, act).value;
      Reassemble(env, s, s.db, s.lease, w, t.workers[w]);
  }

  lemma WriteIsMove(env: Env, s: System, w: nat, now: int) returns (moves: seq<Engine.Move>)
    requires Coherent(env, s) && w in s.workers && Commit(env, s, w, now).Some?
    ensures var t := Commit(env, s, w, now).value;
            && Coherent(env, t)
            && |moves| <= 1 && Exec(env, s.db, moves) == Some(t.db)
            && (s.workers[w].fence.token != s.lease.fence ==> t.db == s.db && moves == [])
    ensures TurnsFrom(s.workers[w].pc, moves)
  {
    hide Agreement.Agree, BodyOf, Fresh, Apply, Coherent;
    CoherentFacts(env, s, w);
    moves := [];
    var worker := s.workers[w];
    var effect := BodyOf(env, s.db, worker.limit, worker.pc).value;
    var row := Guard(s.lease, worker.fence, now);
    if row.Some? {
      moves := FreshBodyIsMove(env, s.db, worker.limit, worker.pc);
      MovesKeepAgreement(env, s.db, moves);
      Reassemble(env, s, effect.db, row.value, w, worker.(pc := effect.pc));
    } else {
      RefusedIsFresh(env, s, w, now);
      Reassemble(env, s, s.db, s.lease, w, worker.(pc := Refused(worker.pc)));
    }
  }

  /** An accepted turn extends the durable transcript, not the remembered one, by exactly its message. */
  lemma TurnAppendsOne(env: Env, s: System, w: nat, now: int, m: Message)
    requires Coherent(env, s) && w in s.workers
    requires s.workers[w].pc.Replied? && s.workers[w].pc.message == m && s.workers[w].pc.fault.None?
    ensures Commit(env, s, w, now).Some?
    ensures var t := Commit(env, s, w, now).value;
            if Guard(s.lease, s.workers[w].fence, now).Some?
            then && t.db == SaveTurn(s.db, m) && t.db.core.transcript == s.db.core.transcript + [m]
                 && t.db.core.step == s.db.core.step + 1
            else t.db == s.db
  {
    hide Agreement.Agree, Pending, IsFinal, Rejection, RequestOf;
    if Guard(s.lease, s.workers[w].fence, now).Some? {
      Agreement.HistoryIsPlain(s.db);
    }
  }

  lemma CoherentFacts(env: Env, s: System, w: nat)
    requires Coherent(env, s)
    ensures Agreement.Agree(s.db)
    ensures w in s.workers ==>
              && s.workers[w].limit >= 1
              && (s.workers[w].fence.token == s.lease.fence ==> Fresh(env, s.db, s.workers[w].pc))
  {
    hide Fresh, Agreement.Agree;
  }

  lemma LeaseTimesDoNotMatter(env: Env, s: System, row: LeaseRow)
    requires Coherent(env, s) && row.fence == s.lease.fence
    ensures Coherent(env, s.(lease := row))
  {
    hide Fresh, Agreement.Agree;
  }

  lemma ClaimIsFresh(env: Env, db: Db)
    ensures Fresh(env, db, Top(0))
  {
  }

  /** A write refused by the clock alone leaves the current owner fresh: it can still only record a failure. */
  lemma RefusedIsFresh(env: Env, s: System, w: nat, now: int)
    requires w in s.workers && BodyOf(env, s.db, s.workers[w].limit, s.workers[w].pc).Some?
    ensures Fresh(env, s.db, s.workers[w].pc) ==> Fresh(env, s.db, Refused(s.workers[w].pc))
  {
    hide Pending, Dispatch.Invoke, Authz.Exposed;
  }

  lemma LocalIsQuiet(env: Env, s: System, w: nat, act: Act)
    requires w in s.workers && Local(env, s, w, act).Some?
    ensures var t := Local(env, s, w, act).value;
            && t == Move(s, w, t.workers[w].pc)
            && (Fresh(env, s.db, s.workers[w].pc) ==> Fresh(env, s.db, t.workers[w].pc))
  {
    hide Fresh, Pending, IsFinal, Authz.Exposed, Rejection;
    if Fresh(env, s.db, s.workers[w].pc) {
      LocalKeepsFresh(env, s, w, act);
    }
  }

  // Whole interleavings -----------------------------------------------------

  function Play(env: Env, s: System, acts: seq<(nat, Act)>): Option<System> {
    if acts == [] then Some(s) else
      var n := |acts| - 1;
      match Play(env, s, acts[..n])
      case None => None
      case Some(t) => Next(env, t, acts[n].0, acts[n].1)
  }

  function Start(world: World): System {
    System(Init(world), Unleased(), map[])
  }

  /**
    Every interleaving of any number of workers, with crashes and takeovers at
    any point, leaves the rows in a state the single engine reaches.
   */
  lemma {:induction false} InterleavingIsRun(env: Env, world: World, acts: seq<(nat, Act)>)
    returns (moves: seq<Engine.Move>)
    requires Play(env, Start(world), acts).Some?
    ensures Coherent(env, Play(env, Start(world), acts).value)
    ensures Reaches(env, world, moves, Play(env, Start(world), acts).value.db)
  {
    hide Coherent, Next, Apply;
    if acts == [] {
      moves := [];
      Agreement.InitAgrees(world);
      assert Coherent(env, Start(world)) by {
        StartIsCoherent(env, world);
      }
    } else {
      var n := |acts| - 1;
      moves := InterleavingIsRun(env, world, acts[..n]);
      var t := Play(env, Start(world), acts[..n]).value;
      var more := ActIsMove(env, t, acts[n].0, acts[n].1);
      ExecAppend(env, Init(world), moves, more);
      moves := moves + more;
    }
  }

  lemma StartIsCoherent(env: Env, world: World)
    requires Agreement.Agree(Init(world))
    ensures Coherent(env, Start(world))
  {
    hide Agreement.Agree;
  }
}
