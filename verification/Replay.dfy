/**
  Replay verification: a completed run is executed again from the seed, with its
  own recorded turns as the provider, and compared with the recording.
 */
module Replay {
  import opened Basics
  import opened Protocol
  import opened Engine
  import opened Simulation
  import Agreement
  import Dispatch
  import Runner

  // Reading the recorded turns --------------------------------------------------

  datatype Collected = Collected(messages: seq<Message>, requests: nat)

  /** One event of the recording; `None` is a ledger replay refuses. */
  function CollectNext(c: Collected, e: Event, first: bool, last: bool): Option<Collected> {
    match e
    case Started => if first then Some(c) else None
    case Completed(_) => if last then Some(c) else None
    case ModelRequest(_) => Some(c.(requests := c.requests + 1))
    case ModelResponse(m) => if m.Assistant? then Some(c.(messages := c.messages + [m])) else None
    case Error(kind) => if kind.Injected503? then Some(c) else None
    case _ => Some(c)
  }

  function Collect(ledger: seq<Event>, n: nat): Option<Collected>
    requires n <= |ledger|
  {
    if n == 0 then Some(Collected([], 0)) else
      match Collect(ledger, n - 1)
      case None => None
      case Some(c) => CollectNext(c, ledger[n - 1], n == 1, n == |ledger|)
  }

  function RecordedMessages(ledger: seq<Event>): Option<seq<Message>> {
    if ledger == [] || !ledger[0].Started? || !ledger[|ledger| - 1].Completed? then None else
      match Collect(ledger, |ledger|)
      case None => None
      case Some(c) => if c.requests != |c.messages| || c.messages == [] then None else Some(c.messages)
  }

  lemma {:induction false} CollectRefuses(ledger: seq<Event>, n: nat)
    requires n <= |ledger| && Collect(ledger, n).None?
    ensures Collect(ledger, |ledger|).None?
    decreases |ledger| - n
  {
    if n < |ledger| {
      CollectRefuses(ledger, n + 1);
    }
  }

  method ReadRecorded(ledger: seq<Event>) returns (messages: Option<seq<Message>>)
    ensures messages == RecordedMessages(ledger)
  {
    if |ledger| == 0 || !ledger[0].Started? || !ledger[|ledger| - 1].Completed? {
      return None;
    }
    var turns: seq<Message> := [];
    var requests := 0;
    for i := 0 to |ledger|
      invariant Collect(ledger, i) == Some(Collected(turns, requests))
    {
      var ok := true;
      match ledger[i] {
        case Started => ok := i == 0;
        case Completed(_) => ok := i == |ledger| - 1;
        case ModelRequest(_) => requests := requests + 1;
        case ModelResponse(m) =>
          ok := m.Assistant?;
          turns := turns + [m];
        case Error(kind) => ok := kind.Injected503?;
        case _ =>
      }
      if !ok {
        CollectRefuses(ledger, i + 1);
        return None;
      }
    }
    if requests != |turns| || |turns| == 0 {
      return None;
    }
    messages := Some(turns);
  }

  /** The recorded provider: its n-th call hands out the n-th turn, whatever it is asked. */
  function Recorded(messages: seq<Message>): Provider {
    (n: nat, request: Request) => if n < |messages| then Reply(messages[n]) else Refused([])
  }

  // Comparison --------------------------------------------------------------------

  /** Both ledgers filtered, then compared event by event. */
  method CompareEvents(left: seq<Event>, right: seq<Event>) returns (same: bool, compared: nat)
    ensures same <==> Sem(left) == Sem(right)
    ensures compared == |Sem(left)|
  {
    var a := Filter(left);
    var b := Filter(right);
    compared := |a|;
    if |a| != |b| {
      return false, compared;
    }
    for i := 0 to |a|
      invariant a[..i] == b[..i]
    {
      if a[i] != b[i] {
        return false, compared;
      }
    }
    same := true;
    assert a[..|a|] == a && b[..|b|] == b;
  }

  method Filter(ledger: seq<Event>) returns (events: seq<Event>)
    ensures events == Sem(ledger)
  {
    events := [];
    for i := 0 to |ledger|
      invariant events == Sem(ledger[..i])
    {
      assert ledger[..i + 1][..i] == ledger[..i];
      if Semantic(ledger[i]) {
        events := events + [ledger[i]];
      }
    }
    assert ledger[..|ledger|] == ledger;
  }

  /** The state a replay compares besides the events. */
  predicate SameState(a: Core, b: Core) {
    && a.results == b.results && a.chaos == b.chaos && a.authCalls == b.authCalls
    && a.transcript == b.transcript && a.world == b.world
  }

  datatype Verification = Verification(verified: bool, turns: nat, calls: nat, compared: nat)

  /** What `Verify` reports about a root run; `None` is an error instead of a report. */
  function VerifyOf(env: Env, world: World, source: Db): Option<Verification> {
    if !source.status.StatusCompleted? then None else
      match RecordedMessages(source.ledger)
      case None => None
      case Some(messages) =>
        var replayed := Execute(env, Init(world), Recorded(messages), 0, 0, |messages| + 1);
        if !replayed.verdict.RunCompleted? || replayed.asked != |messages|
            || Sem(source.ledger) != Sem(replayed.db.ledger)
        then Some(Verification(false, |messages|, 0, 0))
        else
          var same := SameState(source.core, replayed.db.core);
          Some(Verification(same, |messages|, |source.core.results|, |Sem(source.ledger)|))
  }

  method Verify(env: Env, world: World, source: Db) returns (report: Option<Verification>)
    ensures report == VerifyOf(env, world, source)
  {
    hide Agreement.Agree, Engine.Execute;
    if !source.status.StatusCompleted? {
      return None;
    }
    var messages := ReadRecorded(source.ledger);
    if messages.None? {
      return None;
    }
    var turns := |messages.value|;
    var target := new Runner.Store(env, world);
    Agreement.InitAgrees(world);
    var verdict, asked := target.Execute(Recorded(messages.value), 0, turns + 1);
    if !verdict.value.RunCompleted? || asked != turns {
      return Some(Verification(false, turns, 0, 0));
    }
    var same, compared := CompareEvents(source.ledger, target.ledger);
    if !same {
      return Some(Verification(false, turns, 0, 0));
    }
    var calls := |source.core.results|;
    var ok := && source.core.results == target.results && source.core.chaos == target.chaos
              && source.core.authCalls == target.authCalls
              && source.core.transcript == target.transcript && source.core.world == target.world;
    report := Some(Verification(ok, turns, calls, compared));
  }

  // What an engine-made ledger records ---------------------------------------------

  function Responses(ledger: seq<Event>): seq<Message> {
    if ledger == [] then [] else
      var last := ledger[|ledger| - 1];
      Responses(ledger[..|ledger| - 1]) + (if last.ModelResponse? then [last.message] else [])
  }

  function Requests(ledger: seq<Event>): nat {
    if ledger == [] then 0
    else Requests(ledger[..|ledger| - 1]) + (if ledger[|ledger| - 1].ModelRequest? then 1 else 0)
  }

  lemma {:induction false} CountsAppend(a: seq<Event>, b: seq<Event>)
    ensures Responses(a + b) == Responses(a) + Responses(b) && Requests(a + b) == Requests(a) + Requests(b)
  {
    if b == [] {
      assert a + b == a;
    } else {
      var n := |b| - 1;
      CountsAppend(a, b[..n]);
      assert (a + b)[..|a + b| - 1] == a + b[..n];
    }
  }

  lemma {:induction false} CountsNone(events: seq<Event>)
    requires forall e | e in events :: !e.ModelResponse? && !e.ModelRequest?
    ensures Responses(events) == [] && Requests(events) == 0
  {
    if events != [] {
      CountsNone(events[..|events| - 1]);
      assert events[|events| - 1] in events;
    }
  }

  function TurnsOf(moves: seq<Move>): seq<Message> {
    if moves == [] then [] else
      (if moves[0].Turn? then [moves[0].message] else []) + TurnsOf(moves[1..])
  }

  lemma {:induction false} TurnsSnoc(moves: seq<Move>, move: Move)
    ensures TurnsOf(moves + [move]) == TurnsOf(moves) + (if move.Turn? then [move.message] else [])
  {
    if moves == [] {
      assert moves + [move] == [move] && [move][1..] == [];
    } else {
      TurnsSnoc(moves[1..], move);
      assert (moves + [move])[1..] == moves[1..] + [move];
    }
  }

  /** An event that may stand anywhere between start and completion of a run without failures. */
  predicate Plain(e: Event) {
    !e.Started? && !e.Completed? && !IsFailure(e) && (e.ModelResponse? ==> e.message.Assistant?)
  }

  /** Start first, completion last and only there, nothing in between that replay refuses. */
  predicate Shaped(db: Db) {
    var n := |db.ledger| - (if db.status.StatusCompleted? then 1 else 0);
    && n >= 1 && db.ledger[0].Started?
    && (forall i | 1 <= i < n :: Plain(db.ledger[i]))
    && (db.status.StatusCompleted? ==> db.ledger[n].Completed?)
  }

  /** The ledger records exactly the saved turns, each after its own request. */
  predicate Chronicles(db: Db, turns: seq<Message>) {
    && Responses(db.ledger) == turns
    && Requests(db.ledger) == |turns| + (if Open(db.ledger) then 1 else 0)
    && (db.core.transcript != [] ==> turns != [])
    && (db.status.StatusCompleted? ==> db.core.transcript != [])
  }

  lemma AddPlain(db: Db, next: Db, events: seq<Event>)
    requires Shaped(db) && !db.status.StatusCompleted? && !next.status.StatusCompleted?
    requires next.ledger == db.ledger + events && forall e | e in events :: Plain(e)
    ensures Shaped(next)
  {
  }

  lemma AddUncounted(db: Db, next: Db, turns: seq<Message>, events: seq<Event>)
    requires Chronicles(db, turns) && next.ledger == db.ledger + events
    requires forall e | e in events :: !e.ModelResponse? && !e.ModelRequest?
    requires !Open(db.ledger)
    requires next.core.transcript != [] ==> db.core.transcript != []
    requires next.status.StatusCompleted? ==> next.core.transcript != []
    ensures Chronicles(next, turns)
  {
    CountsAppend(db.ledger, events);
    CountsNone(events);
  }

  lemma DispatchChronicles(env: Env, db: Db, turns: seq<Message>)
    requires Sound(env, db) && Shaped(db) && Chronicles(db, turns) && Apply(env, db, Dispatched).Some?
    ensures var next := Apply(env, db, Dispatched).value; Shaped(next) && Chronicles(next, turns)
  {
    hide Agreement.Agree, Dispatch.Invoke, Pending, IsFinal, Shaped, Chronicles;
    var call, status, body := Agreement.DispatchKeepsAgreement(env, db);
    PendingFound(db);
    var events := Dispatch.Invoke(env, db.core, Retried(db.ledger), call, Float).events;
    BracketIsPlain(call, events, status, body);
    var next := Apply(env, db, Dispatched).value;
    AddPlain(db, next, events);
    AddUncounted(db, next, turns, events);
  }

  lemma PendingFound(db: Db)
    requires Agreement.Agree(db) && |ToolMessages(db.core.transcript)| < |AllCalls(db.core.transcript)|
    ensures Pending(db.core.transcript).Some? && db.core.transcript != []
  {
    Agreement.PendingIsNext(db.core.transcript, db.core.results);
  }

  lemma BracketIsPlain(call: ToolCall, events: seq<Event>, status: int, body: Json)
    requires Dispatch.IsBracket(call, events, status, body)
    ensures forall e | e in events :: Plain(e) && !e.ModelResponse? && !e.ModelRequest?
  {
    var n := |events| - 1;
    assert events == [events[0]] + events[1..n] + [events[n]];
    assert forall e | e in events[1..n] :: IsInner(e);
  }

  lemma TurnCounts(ledger: seq<Event>, m: Message)
    ensures var next := ledger + TurnEvents(m);
            Responses(next) == Responses(ledger) + [m] && Requests(next) == Requests(ledger) && !Open(next)
  {
    var events := InterruptedEvents(InterruptionsOf(m));
    CountsNone(events);
    CountsAppend(events, [ModelResponse(m)]);
    assert [ModelResponse(m)][..0] == [];
    assert Responses([ModelResponse(m)]) == [m];
    CountsAppend(ledger, TurnEvents(m));
  }

  lemma TurnChronicles(env: Env, db: Db, turns: seq<Message>, m: Message)
    requires Shaped(db) && Chronicles(db, turns) && Apply(env, db, Turn(m)).Some?
    ensures var next := Apply(env, db, Turn(m)).value; Shaped(next) && Chronicles(next, turns + [m])
  {
    hide Pending, IsFinal, TurnFaultOf, RequestOf, Shaped, Responses, Requests;
    AddPlain(db, Apply(env, db, Turn(m)).value, TurnEvents(m));
    TurnCounts(db.ledger, m);
  }

  lemma QuietChronicles(env: Env, db: Db, turns: seq<Message>, move: Move)
    requires Shaped(db) && Chronicles(db, turns) && Apply(env, db, move).Some?
    requires move.Request_? || move.Pause?
    ensures var next := Apply(env, db, move).value; Shaped(next) && Chronicles(next, turns)
  {
    hide Pending, IsFinal, RequestOf, Shaped, Responses, Requests;
    var next := Apply(env, db, move).value;
    var events := next.ledger[|db.ledger|..];
    assert next.ledger == db.ledger + events;
    AddPlain(db, next, events);
    if events != [] {
      QuietCounts(db.ledger, events[0]);
      assert events == [events[0]];
    }
  }

  lemma QuietCounts(ledger: seq<Event>, e: Event)
    requires !e.ModelResponse?
    ensures Responses(ledger + [e]) == Responses(ledger)
    ensures Requests(ledger + [e]) == Requests(ledger) + if e.ModelRequest? then 1 else 0
  {
    assert [e][..0] == [];
    CountsAppend(ledger, [e]);
  }

  lemma CompletionChronicles(env: Env, db: Db, turns: seq<Message>)
    requires Sound(env, db) && Shaped(db) && Chronicles(db, turns) && Apply(env, db, Complete).Some?
    ensures var next := Apply(env, db, Complete).value; Shaped(next) && Chronicles(next, turns)
  {
    hide Agreement.Agree, Pending;
    AddUncounted(db, Apply(env, db, Complete).value, turns, [Completed(db.core.step)]);
  }

  lemma StepChronicles(env: Env, db: Db, turns: seq<Message>, move: Move)
    requires Sound(env, db) && Shaped(db) && Chronicles(db, turns) && Apply(env, db, move).Some? && !Fails(move)
    ensures var next := Apply(env, db, move).value;
            Shaped(next) && Chronicles(next, turns + (if move.Turn? then [move.message] else []))
  {
    hide Sound, Shaped, Chronicles, Apply;
    assert turns + [] == turns;
    match move
    case Dispatched => DispatchChronicles(env, db, turns);
    case Turn(m) => TurnChronicles(env, db, turns, m);
    case Complete => CompletionChronicles(env, db, turns);
    case _ => QuietChronicles(env, db, turns, move);
  }

  lemma {:induction false} RunChronicles(env: Env, d: Db, moves: seq<Move>, turns: seq<Message>, db: Db)
    requires Sound(env, d) && Shaped(d) && Chronicles(d, turns)
    requires Exec(env, d, moves) == Some(db) && NoFailure(db.ledger)
    ensures Shaped(db) && Chronicles(db, turns + TurnsOf(moves))
    decreases |moves|
  {
    hide Sound, Shaped, Chronicles, Apply, Exec;
    if moves == [] {
      SomeMoves(env, d);
      assert turns + [] == turns;
    } else {
      ExecHead(env, d, moves);
      NoStepFailed(env, d, moves);
      StepChronicles(env, d, turns, moves[0]);
      var next := Apply(env, d, moves[0]).value;
      var now := turns + (if moves[0].Turn? then [moves[0].message] else []);
      assert turns + TurnsOf(moves) == now + TurnsOf(moves[1..]);
      if moves[0].Complete? {
        CompletesAt(env, d);
        NothingFollowsCompletion(env, next, moves[1..]);
        SomeMoves(env, next);
        assert now + [] == now;
      } else {
        StaysSound(env, d, moves[0]);
        RunChronicles(env, next, moves[1..], now, db);
      }
    }
  }

  lemma {:induction false} CollectsAll(db: Db, n: nat)
    requires Shaped(db) && db.status.StatusCompleted? && n <= |db.ledger|
    ensures Collect(db.ledger, n) == Some(Collected(Responses(db.ledger[..n]), Requests(db.ledger[..n])))
  {
    if n > 0 {
      CollectsAll(db, n - 1);
      assert db.ledger[..n][..n - 1] == db.ledger[..n - 1];
      var e := db.ledger[n - 1];
      assert 1 < n < |db.ledger| ==> Plain(e);
      var c := Collected(Responses(db.ledger[..n - 1]), Requests(db.ledger[..n - 1]));
      assert c.messages + [] == c.messages;
    }
  }

  lemma {:induction false} RecordedFollows(env: Env, d: Db, moves: seq<Move>, messages: seq<Message>, k: nat)
    requires Exec(env, d, moves).Some? && k <= |messages| && messages[k..] == TurnsOf(moves)
    ensures Follows(env, d, moves, Recorded(messages), k)
    ensures AskedAfter(env, d, moves, Recorded(messages), k) == |messages|
    decreases |moves|
  {
    hide Apply, Exec, RequestOf, CallProvider;
    if moves != [] {
      ExecHead(env, d, moves);
      var next := Apply(env, d, moves[0]).value;
      if moves[0].Turn? {
        assert messages[k] == messages[k..][0] == moves[0].message;
        assert messages[k + 1..] == messages[k..][1..] == TurnsOf(moves[1..]);
        RecordedAnswers(messages, k, RequestOf(env, d.core));
        RecordedFollows(env, next, moves[1..], messages, k + 1);
      } else {
        RecordedFollows(env, next, moves[1..], messages, k);
      }
    }
  }

  lemma RecordedAnswers(messages: seq<Message>, k: nat, request: Request)
    requires k < |messages|
    ensures CallProvider(Recorded(messages), k, request) == Answered(messages[k], k + 1)
  {
    assert [] + InterruptionsOf(messages[k]) == InterruptionsOf(messages[k]);
  }

  lemma {:induction false} TurnCountIsLength(moves: seq<Move>)
    ensures TurnCount(moves) == |TurnsOf(moves)|
  {
    if moves != [] {
      TurnCountIsLength(moves[1..]);
    }
  }

  lemma InitChronicles(world: World)
    ensures Shaped(Init(world)) && Chronicles(Init(world), [])
  {
    CountsNone([Started]);
  }

  /** The recorded turns of a completed run are exactly the turns it saved. */
  lemma RecordedTurns(env: Env, world: World, moves: seq<Move>, db: Db)
    requires Reaches(env, world, moves, db) && db.status.StatusCompleted? && NoFailure(db.ledger)
    ensures RecordedMessages(db.ledger) == Some(TurnsOf(moves))
  {
    hide Sound, Apply, Exec;
    InitIsSound(env, world);
    InitChronicles(world);
    RunChronicles(env, Init(world), moves, [], db);
    assert [] + TurnsOf(moves) == TurnsOf(moves);
    CollectsAll(db, |db.ledger|);
    assert db.ledger[..|db.ledger|] == db.ledger;
  }

  /**
    Every completed root run that recorded no failure replays verified, whatever
    its provider answered and however often it was paused, interrupted or crashed.
   */
  lemma CompletedRunsVerify(env: Env, world: World, moves: seq<Move>, db: Db)
    requires Reaches(env, world, moves, db) && db.status.StatusCompleted? && NoFailure(db.ledger)
    ensures VerifyOf(env, world, db)
         == Some(Verification(true, db.core.step, |db.core.results|, |Sem(db.ledger)|))
  {
    hide Sound, Apply, Exec, Follows, AskedAfter, Execute, RecordedMessages, Sem;
    var messages := TurnsOf(moves);
    RecordedTurns(env, world, moves, db);
    InitIsSound(env, world);
    StepsAreTurns(env, Init(world), moves);
    TurnCountIsLength(moves);
    assert messages[0..] == messages;
    RecordedFollows(env, Init(world), moves, messages, 0);
    HistoryIsExecution(env, world, moves, db, Recorded(messages), |messages| + 1);
  }
}
