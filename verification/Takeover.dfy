/**
  The whole system at once: any number of workers, taking over from each other and
  dying anywhere, against one uninterrupted local execution and against replay.
 */
module Takeover {
  import opened Basics
  import opened Protocol
  import opened Engine
  import opened Workers
  import Agreement
  import Replay
  import Simulation

  /** The provider answers a request with a message, interruptions and all. */
  predicate Gives(p: Provider, request: Request, m: Message) {
    var r := CallProvider(p, 0, request);
    r.Answered? && r.message == m
  }

  /** A worker that asked passes on what the provider answered. */
  predicate Obeys(p: Provider, s: System, w: nat, act: Act) {
    act.Reply? && act.fault.None? && w in s.workers && s.workers[w].pc.Asked? ==>
      Gives(p, s.workers[w].pc.request, act.message)
  }

  predicate AllObey(env: Env, p: Provider, s: System, acts: seq<(nat, Act)>) {
    if acts == [] then true else
      var n := |acts| - 1;
      AllObey(env, p, s, acts[..n]) &&
      match Play(env, s, acts[..n])
      case None => false
      case Some(t) => Obeys(p, t, acts[n].0, acts[n].1)
  }

  /** A turn the newest owner is about to save is the provider's answer to the request now open. */
  predicate Honest(env: Env, p: Provider, s: System) {
    forall w | w in s.workers && s.workers[w].fence.token == s.lease.fence && s.workers[w].pc.Replied?
        && s.workers[w].pc.fault.None? ::
      Gives(p, RequestOf(env, s.db.core), s.workers[w].pc.message)
  }

  lemma LocalStaysHonest(env: Env, p: Provider, s: System, w: nat, act: Act)
    requires Coherent(env, s) && Honest(env, p, s) && Obeys(p, s, w, act) && w in s.workers
             && Local(env, s, w, act).Some?
    ensures Honest(env, p, Local(env, s, w, act).value)
  {
    hide Agreement.Agree, RequestOf, Gives, Pending, IsFinal, Rejection;
  }

  lemma CommitStaysHonest(env: Env, p: Provider, s: System, w: nat, now: int)
    requires Coherent(env, s) && Honest(env, p, s) && w in s.workers && Commit(env, s, w, now).Some?
    ensures Honest(env, p, Commit(env, s, w, now).value)
  {
    hide Agreement.Agree, Fresh, RequestOf, Gives, BodyOf;
    BodyNeverReplies(env, s.db, s.workers[w].limit, s.workers[w].pc);
  }

  lemma BodyNeverReplies(env: Env, db: Db, limit: nat, pc: Pc)
    ensures var e := BodyOf(env, db, limit, pc); e.Some? ==> !e.value.pc.Replied?
  {
    hide RequestOf, Pending, IsFinal;
  }

  lemma ActStaysHonest(env: Env, p: Provider, s: System, w: nat, act: Act)
    requires Coherent(env, s) && Honest(env, p, s) && Obeys(p, s, w, act) && Next(env, s, w, act).Some?
    ensures Honest(env, p, Next(env, s, w, act).value)
  {
    hide Agreement.Agree, Fresh, RequestOf, Gives, BodyOf, Local, Commit;
    match act
    case Claim(_, _, _, _) =>
    case Renewal(_, _) =>
    case Surrender(_) =>
    case Write(now) => CommitStaysHonest(env, p, s, w, now);
    case _ => LocalStaysHonest(env, p, s, w, act);
  }

  lemma MovesAreSupplied(env: Env, p: Provider, s: System, w: nat, moves: seq<Engine.Move>)
    requires Honest(env, p, s) && |moves| <= 1 && Exec(env, s.db, moves).Some?
    requires moves != [] ==>
               w in s.workers && s.workers[w].fence.token == s.lease.fence && TurnsFrom(s.workers[w].pc, moves)
    ensures Simulation.Supplied(env, s.db, moves, p)
  {
    hide RequestOf, CallProvider, Apply;
    if moves != [] {
      assert moves == [moves[0]];
      ExecOne(env, s.db, moves[0]);
      assert moves[1..] == [];
    }
  }

  lemma {:induction false} SuppliedAppend(env: Env, d: Db, a: seq<Engine.Move>, b: seq<Engine.Move>, p: Provider)
    requires Exec(env, d, a).Some? && Simulation.Supplied(env, d, a, p)
             && Simulation.Supplied(env, Exec(env, d, a).value, b, p)
    ensures Simulation.Supplied(env, d, a + b, p)
    decreases |a|
  {
    hide Exec, Apply, RequestOf, CallProvider;
    if a == [] {
      assert a + b == b;
      Simulation.SomeMoves(env, d);
    } else {
      Simulation.ExecHead(env, d, a);
      SuppliedAppend(env, Apply(env, d, a[0]).value, a[1..], b, p);
      assert (a + b)[1..] == a[1..] + b && (a + b)[0] == a[0];
    }
  }

  /** An interleaving is a run whose every turn the provider gave. */
  lemma {:induction false} InterleavingIsSupplied(env: Env, p: Provider, world: World, acts: seq<(nat, Act)>)
    returns (moves: seq<Engine.Move>)
    requires Play(env, Start(world), acts).Some? && AllObey(env, p, Start(world), acts)
    ensures var s := Play(env, Start(world), acts).value;
            && Coherent(env, s) && Honest(env, p, s)
            && Reaches(env, world, moves, s.db) && Simulation.Supplied(env, Init(world), moves, p)
  {
    hide Coherent, Next, Apply, Honest, Obeys;
    if acts == [] {
      moves := [];
      Agreement.InitAgrees(world);
      StartIsCoherent(env, world);
      StartIsHonest(env, p, world);
    } else {
      var n := |acts| - 1;
      moves := InterleavingIsSupplied(env, p, world, acts[..n]);
      var t := Play(env, Start(world), acts[..n]).value;
      var w, act := acts[n].0, acts[n].1;
      var more := ActIsMove(env, t, w, act);
      ActStaysHonest(env, p, t, w, act);
      MovesAreSupplied(env, p, t, w, more);
      ExecAppend(env, Init(world), moves, more);
      SuppliedAppend(env, Init(world), moves, more, p);
      moves := moves + more;
    }
  }

  lemma StartIsHonest(env: Env, p: Provider, world: World)
    ensures Honest(env, p, Start(world))
  {
  }

  /**
    Any number of workers, any takeovers and crashes: a run they complete with a
    provider that is a function of the request, and without a recorded failure, ends
    with the semantic ledger and the rows of one uninterrupted local execution.
   */
  lemma TakeoverTransparency(env: Env, p: Provider, world: World, acts: seq<(nat, Act)>, maxSteps: nat)
    requires Play(env, Start(world), acts).Some? && AllObey(env, p, Start(world), acts) && Simulation.Stateless(p)
    requires var db := Play(env, Start(world), acts).value.db;
             db.status.StatusCompleted? && NoFailure(db.ledger) && maxSteps >= db.core.step
    ensures var db := Play(env, Start(world), acts).value.db;
            var report := Execute(env, Init(world), p, 0, 0, maxSteps);
            && report.verdict.RunCompleted?
            && report.db.core == db.core && Simulation.Sem(report.db.ledger) == Simulation.Sem(db.ledger)
  {
    hide Play, AllObey, Coherent, Honest, Exec, Execute, Simulation.Stateless, Simulation.Supplied, Simulation.Sem;
    var moves := InterleavingIsSupplied(env, p, world, acts);
    Simulation.CrashTransparency(env, world, moves, Play(env, Start(world), acts).value.db, p, maxSteps);
  }

  /** And whatever the provider was, such a run replays verified. */
  lemma TakeoverReplays(env: Env, world: World, acts: seq<(nat, Act)>)
    requires Play(env, Start(world), acts).Some?
    requires var db := Play(env, Start(world), acts).value.db; db.status.StatusCompleted? && NoFailure(db.ledger)
    ensures var db := Play(env, Start(world), acts).value.db;
            Replay.VerifyOf(env, world, db)
            == Some(Replay.Verification(true, db.core.step, |db.core.results|, |Simulation.Sem(db.ledger)|))
  {
    hide Play, Coherent, Exec, Replay.VerifyOf, Simulation.Sem;
    var moves := InterleavingIsRun(env, world, acts);
    Replay.CompletedRunsVerify(env, world, moves, Play(env, Start(world), acts).value.db);
  }
}
