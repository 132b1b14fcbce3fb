/**
  Saved results, transcript and ledger tell one story in every reachable state,
  failed attempts and crashes included.
 */
module Agreement {
  import opened Basics
  import opened Protocol
  import opened Engine
  import Dispatch

  // The ledger as brackets --------------------------------------------------

  /** One tool call as the ledger shows it: request, what happened inside, response. */
  datatype Bracket = Bracket(call: ToolCall, inner: seq<Event>, status: int, body: Json)

  datatype Scan = Closed(done: seq<Bracket>) | Within(done: seq<Bracket>, call: ToolCall, inner: seq<Event>) | Broken

  predicate HasMutation(events: seq<Event>) {
    exists e | e in events :: e.Mutation?
  }

  /** Reading one event: brackets never nest, never overlap other activity and hold at most one mutation. */
  function Next(s: Scan, e: Event): Scan {
    match s
    case Broken => Broken
    case Closed(done) =>
      if e.ToolRequest? then Within(done, e.call, [])
      else if IsInner(e) || e.ToolResponse? then Broken
      else s
    case Within(done, call, inner) =>
      if IsInner(e) then
        if e.Mutation? && HasMutation(inner) then Broken else Within(done, call, inner + [e])
      else if e.ToolResponse? && e.callId == call.id && e.op == call.op then
        Closed(done + [Bracket(call, inner, e.status, e.body)])
      else Broken
  }

  function ReadFrom(s: Scan, events: seq<Event>): Scan {
    if events == [] then s else Next(ReadFrom(s, events[..|events| - 1]), events[|events| - 1])
  }

  /** The brackets of a whole ledger. */
  function Read(ledger: seq<Event>): Scan {
    ReadFrom(Closed([]), ledger)
  }

  lemma {:induction false} ReadAppend(s: Scan, a: seq<Event>, b: seq<Event>)
    ensures ReadFrom(s, a + b) == ReadFrom(ReadFrom(s, a), b)
  {
    if b == [] {
      assert a + b == a;
    } else {
      var n := |b| - 1;
      ReadAppend(s, a, b[..n]);
      assert (a + b)[..|a + b| - 1] == a + b[..n];
    }
  }

  lemma {:induction false} ReadInner(done: seq<Bracket>, call: ToolCall, inner: seq<Event>)
    requires forall e | e in inner :: IsInner(e)
    requires forall i, j | 0 <= i < j < |inner| :: !(inner[i].Mutation? && inner[j].Mutation?)
    ensures ReadFrom(Within(done, call, []), inner) == Within(done, call, inner)
  {
    if inner != [] {
      var n := |inner| - 1;
      ReadInner(done, call, inner[..n]);
      assert inner == inner[..n] + [inner[n]];
    }
  }

  lemma ReadBracket(done: seq<Bracket>, call: ToolCall, events: seq<Event>, status: int, body: Json)
    requires Dispatch.IsBracket(call, events, status, body)
    ensures ReadFrom(Closed(done), events) == Closed(done + [Bracket(call, events[1..|events| - 1], status, body)])
  {
    var n := |events| - 1;
    var inner := events[1..n];
    ReadInner(done, call, inner);
    assert events[..n] == [events[0]] + inner;
    ReadRequest(done, call);
    ReadAppend(Closed(done), [events[0]], inner);
  }

  lemma ReadRequest(done: seq<Bracket>, call: ToolCall)
    ensures ReadFrom(Closed(done), [ToolRequest(call)]) == Within(done, call, [])
  {
    assert [ToolRequest(call)][..0] == [];
  }

  predicate Neutral(e: Event) {
    !IsInner(e) && !e.ToolRequest? && !e.ToolResponse?
  }

  lemma {:induction false} ReadNeutral(done: seq<Bracket>, events: seq<Event>)
    requires forall e | e in events :: Neutral(e)
    ensures ReadFrom(Closed(done), events) == Closed(done)
  {
    if events != [] {
      var n := |events| - 1;
      ReadNeutral(done, events[..n]);
      assert Neutral(events[n]);
    }
  }

  lemma ReadExtended(ledger: seq<Event>, events: seq<Event>)
    requires Read(ledger).Closed? && forall e | e in events :: Neutral(e)
    ensures Read(ledger + events) == Read(ledger)
  {
    ReadAppend(Closed([]), ledger, events);
    ReadNeutral(Read(ledger).done, events);
  }

  // The invariant -----------------------------------------------------------

  /** Tool messages answer the calls of accepted turns one by one, in call order. */
  predicate Answers(tools: seq<Message>, calls: seq<ToolCall>) {
    && |tools| <= |calls|
    && (forall m | m in tools :: m.Tool?)
    && forall i | 0 <= i < |tools| :: tools[i].callId == calls[i].id && tools[i].op == calls[i].op
  }

  predicate Recorded(results: map<string, Saved>, tools: seq<Message>, calls: seq<ToolCall>)
    requires Answers(tools, calls)
  {
    && (forall i | 0 <= i < |tools| ::
          calls[i].id in results
          && results[calls[i].id] == Saved(calls[i].op, calls[i].args, tools[i].status, tools[i].body))
    && forall id | id in results :: exists i :: 0 <= i < |tools| && calls[i].id == id
  }

  predicate Logged(brackets: seq<Bracket>, tools: seq<Message>, calls: seq<ToolCall>)
    requires Answers(tools, calls)
  {
    && |brackets| == |tools|
    && forall i | 0 <= i < |tools| ::
         brackets[i].call == calls[i] && brackets[i].status == tools[i].status && brackets[i].body == tools[i].body
  }

  /** Every call of earlier turns is answered before the next turn. */
  predicate InOrder(history: seq<Message>) {
    forall k | 0 <= k < |history| && history[k].Assistant? :: |AllCalls(history[..k])| == |ToolMessages(history[..k])|
  }

  /** Transcript and saved results agree, and the answered calls are a prefix of all calls. */
  predicate Settled(history: seq<Message>, results: map<string, Saved>) {
    var calls, tools := AllCalls(history), ToolMessages(history);
    && DistinctIds(calls)
    && (forall c | c in calls :: |c.id| > 0)
    && Answers(tools, calls)
    && DoneIds(history) == IdsOf(calls[..|tools|])
    && InOrder(history)
    && Recorded(results, tools, calls)
  }

  /** Ledger brackets and tool messages agree. */
  predicate Witnessed(ledger: seq<Event>, history: seq<Message>)
    requires Answers(ToolMessages(history), AllCalls(history))
  {
    Read(ledger).Closed? && Logged(Read(ledger).done, ToolMessages(history), AllCalls(history))
  }

  /** Only a turn that was just saved can hold numbers spelled the provider's way. */
  predicate Respelled(history: seq<Message>) {
    forall i | 0 <= i < |history| && history[i] != Plain(history[i]) :: i == |history| - 1 && history[i].Assistant?
  }

  predicate Agree(db: Db) {
    && Settled(db.core.transcript, db.core.results) && Witnessed(db.ledger, db.core.transcript)
    && Respelled(db.core.transcript)
  }

  /** With distinct IDs, the first open call is the one after the answered prefix. */
  lemma {:induction false} FirstOpenAfter(calls: seq<ToolCall>, done: set<string>, k: nat)
    requires DistinctIds(calls) && k <= |calls|
    requires forall i | 0 <= i < |calls| :: calls[i].id in done <==> i < k
    ensures FirstOpen(calls, done) == if k < |calls| then Some(calls[k]) else None
  {
    if k > 0 {
      FirstOpenAfter(calls[1..], done, k - 1);
    }
  }

  lemma PendingIsNext(history: seq<Message>, results: map<string, Saved>)
    requires Settled(history, results)
    ensures var calls, n := AllCalls(history), |ToolMessages(history)|;
            && Pending(history) == (if n < |calls| then Some(calls[n]) else None)
            && forall i | n <= i < |calls| :: calls[i].id !in results
  {
    hide AllCalls, ToolMessages, DoneIds, InOrder, DistinctIds, FirstOpen, IdsOf;
    var calls, n := AllCalls(history), |ToolMessages(history)|;
    AnsweredPrefix(calls, n);
    FirstOpenAfter(calls, DoneIds(history), n);
  }

  lemma AnsweredPrefix(calls: seq<ToolCall>, n: nat)
    requires DistinctIds(calls) && n <= |calls|
    ensures forall i | 0 <= i < |calls| :: calls[i].id in IdsOf(calls[..n]) <==> i < n
  {
    forall i | 0 <= i < |calls|
      ensures calls[i].id in IdsOf(calls[..n]) <==> i < n
    {
      if i < n {
        assert calls[..n][i] == calls[i];
      }
    }
  }

  lemma PlainInOrder(history: seq<Message>)
    requires InOrder(history)
    ensures InOrder(PlainAll(history))
  {
    var plain := PlainAll(history);
    forall k | 0 <= k < |plain| && plain[k].Assistant?
      ensures |AllCalls(plain[..k])| == |ToolMessages(plain[..k])|
    {
      PlainPrefix(history, k);
      PlainSame(history[..k]);
    }
  }

  lemma PlainSettles(history: seq<Message>, results: map<string, Saved>)
    requires Settled(history, results)
    ensures Settled(PlainAll(history), results)
    ensures AllCalls(PlainAll(history)) == AllCalls(history) && ToolMessages(PlainAll(history)) == ToolMessages(history)
  {
    hide InOrder, AllCalls, ToolMessages, DoneIds;
    PlainSame(history);
    PlainInOrder(history);
  }

  lemma PlainNeedsTurn(env: Env, history: seq<Message>, m: Message)
    requires NeedsTurn(history) && Accepted(env, history, m)
    ensures NeedsTurn(PlainAll(history)) && Accepted(env, PlainAll(history), m)
  {
    PlainSame(history);
  }

  /** A turn with calls leaves its first call pending. */
  lemma CallsArePending(history: seq<Message>, results: map<string, Saved>)
    requires Settled(history, results) && history != []
    requires history[|history| - 1].Assistant? && history[|history| - 1].calls != []
    ensures Pending(history).Some?
  {
    hide Recorded, AllCalls, ToolMessages, DoneIds, FirstOpen, InOrder, DistinctIds, Answers;
    PendingIsNext(history, results);
    LastTurnIsOpen(history);
  }

  /** The calls of a last turn are the ones no tool message answers. */
  lemma LastTurnIsOpen(history: seq<Message>)
    requires InOrder(history) && history != [] && history[|history| - 1].Assistant?
    ensures |AllCalls(history)| == |ToolMessages(history)| + |history[|history| - 1].calls|
  {
    hide AllCalls, ToolMessages, DoneIds;
    var n := |history| - 1;
    assert |AllCalls(history[..n])| == |ToolMessages(history[..n])|;
    Snoc(history[..n], history[n]);
    assert history[..n] + [history[n]] == history;
  }

  /** By the time the model is asked, every number in the history has its shortest spelling. */
  lemma AskedHistoryIsPlain(history: seq<Message>, results: map<string, Saved>)
    requires Settled(history, results) && Respelled(history) && NeedsTurn(history)
    ensures PlainAll(history) == history
  {
    hide Settled, AllCalls, DoneIds, FirstOpen;
    var n := |history| - 1;
    if history != [] && history[n].Assistant? {
      CallsArePending(history, results);
    }
    assert forall i | 0 <= i < |history| :: history[i] == Plain(history[i]);
  }

  lemma HistoryIsPlain(db: Db)
    requires Agree(db) && NeedsTurn(db.core.transcript)
    ensures PlainAll(db.core.transcript) == db.core.transcript
  {
    hide Settled, Respelled;
    AskedHistoryIsPlain(db.core.transcript, db.core.results);
  }

  lemma InitAgrees(world: World)
    ensures Agree(Init(world))
  {
    ReadNeutral([], [Started]);
  }

  lemma InOrderSnoc(history: seq<Message>, m: Message)
    requires InOrder(history)
    requires m.Assistant? ==> |AllCalls(history)| == |ToolMessages(history)|
    ensures InOrder(history + [m])
  {
    var next := history + [m];
    forall k | 0 <= k < |next| && next[k].Assistant?
      ensures |AllCalls(next[..k])| == |ToolMessages(next[..k])|
    {
      if k < |history| {
        assert next[..k] == history[..k];
      } else {
        assert next[..k] == history;
      }
    }
  }

  lemma RecordedExtend(results: map<string, Saved>, tools: seq<Message>, calls: seq<ToolCall>, status: int, body: Json)
    requires DistinctIds(calls) && Answers(tools, calls) && |tools| < |calls|
    requires Recorded(results, tools, calls)
    ensures var c := calls[|tools|];
            var after := tools + [Tool(c.id, c.op, status, body)];
            Answers(after, calls) && Recorded(results[c.id := Saved(c.op, c.args, status, body)], after, calls)
  {
    var n := |tools|;
    var c := calls[n];
    var after := tools + [Tool(c.id, c.op, status, body)];
    var next := results[c.id := Saved(c.op, c.args, status, body)];
    forall i | 0 <= i <= n
      ensures after[i].callId == calls[i].id && after[i].op == calls[i].op && calls[i].id in next
      ensures next[calls[i].id] == Saved(calls[i].op, calls[i].args, after[i].status, after[i].body)
    {
      if i < n {
        assert after[i] == tools[i];
      }
    }
    forall id | id in next
      ensures exists i :: 0 <= i < |after| && calls[i].id == id
    {
      if id == c.id {
        assert calls[n].id == id;
      }
    }
  }

  lemma ToolSettles(history: seq<Message>, results: map<string, Saved>, status: int, body: Json)
    requires Settled(history, results) && |ToolMessages(history)| < |AllCalls(history)|
    ensures var c := AllCalls(history)[|ToolMessages(history)|];
            var m := Tool(c.id, c.op, status, body);
            && AllCalls(history + [m]) == AllCalls(history)
            && ToolMessages(history + [m]) == ToolMessages(history) + [m]
            && Settled(history + [m], results[c.id := Saved(c.op, c.args, status, body)])
  {
    hide AllCalls, ToolMessages, DoneIds, InOrder, Recorded;
    var calls, tools := AllCalls(history), ToolMessages(history);
    var n := |tools|;
    var m := Tool(calls[n].id, calls[n].op, status, body);
    Snoc(history, m);
    assert calls + [] == calls;
    InOrderSnoc(history, m);
    RecordedExtend(results, tools, calls, status, body);
    assert calls[..n + 1] == calls[..n] + [calls[n]];
  }

  lemma BracketWitnesses(ledger: seq<Event>, history: seq<Message>, c: ToolCall, events: seq<Event>, status: int,
                         body: Json)
    requires Answers(ToolMessages(history), AllCalls(history)) && Witnessed(ledger, history)
    requires var m := Tool(c.id, c.op, status, body);
             && AllCalls(history + [m]) == AllCalls(history)
             && ToolMessages(history + [m]) == ToolMessages(history) + [m]
    requires |ToolMessages(history)| < |AllCalls(history)| && c == AllCalls(history)[|ToolMessages(history)|]
    requires Dispatch.IsBracket(c, events, status, body)
    ensures Witnessed(ledger + events, history + [Tool(c.id, c.op, status, body)])
  {
    ReadAppend(Closed([]), ledger, events);
    ReadBracket(Read(ledger).done, c, events, status, body);
  }

  /** The next call, its bracket, its result and its tool message keep the story one. */
  lemma CommitAgrees(db: Db, next: Db, call: ToolCall, events: seq<Event>, status: int, body: Json)
    requires Agree(db)
    requires |ToolMessages(db.core.transcript)| < |AllCalls(db.core.transcript)|
             && call == AllCalls(db.core.transcript)[|ToolMessages(db.core.transcript)|]
    requires Dispatch.IsBracket(call, events, status, body)
    requires next.core.transcript == PlainAll(db.core.transcript) + [Tool(call.id, call.op, status, body)]
    requires next.core.results == db.core.results[call.id := Saved(call.op, call.args, status, body)]
    requires next.ledger == db.ledger + events
    ensures Agree(next)
  {
    hide InOrder, Recorded, AllCalls, ToolMessages, DoneIds, ReadFrom;
    var history := db.core.transcript;
    PlainSettles(history, db.core.results);
    ToolSettles(PlainAll(history), db.core.results, status, body);
    BracketWitnesses(db.ledger, PlainAll(history), call, events, status, body);
  }

  lemma AgreeSettles(db: Db)
    requires Agree(db)
    ensures Settled(db.core.transcript, db.core.results) && Respelled(db.core.transcript)
  {
  }

  /** A final turn leaves nothing pending. */
  lemma FinalIsDone(db: Db)
    requires Agree(db) && IsFinal(db.core.transcript)
    ensures Pending(db.core.transcript).None?
  {
    hide Recorded, Witnessed, Respelled, AllCalls, ToolMessages, DoneIds, FirstOpen, InOrder, DistinctIds, Answers;
    PendingIsNext(db.core.transcript, db.core.results);
    LastTurnIsOpen(db.core.transcript);
  }

  /** An agreeing state's pending call is the first one no tool message answers. */
  lemma AgreedPending(db: Db)
    requires Agree(db)
    ensures var calls, n := AllCalls(db.core.transcript), |ToolMessages(db.core.transcript)|;
            && Pending(db.core.transcript) == (if n < |calls| then Some(calls[n]) else None)
            && forall i | n <= i < |calls| :: calls[i].id !in db.core.results
  {
    PendingIsNext(db.core.transcript, db.core.results);
  }

  lemma DispatchKeepsAgreement(env: Env, db: Db) returns (call: ToolCall, status: int, body: Json)
    requires Agree(db) && ApplyDispatch(env, db).Some?
    ensures var n := |ToolMessages(db.core.transcript)|;
            n < |AllCalls(db.core.transcript)| && call == AllCalls(db.core.transcript)[n]
    ensures Dispatch.Invoke(env, db.core, Retried(db.ledger), call, Float).Committed?
    ensures var next := ApplyDispatch(env, db).value;
            && Agree(next)
            && next.core.transcript == PlainAll(db.core.transcript) + [Tool(call.id, call.op, status, body)]
            && next.core.step == db.core.step && next.status == db.status
            && next.ledger == db.ledger + Dispatch.Invoke(env, db.core, Retried(db.ledger), call, Float).events
            && Dispatch.IsBracket(call, Dispatch.Invoke(env, db.core, Retried(db.ledger), call, Float).events, status,
                                  body)
  {
    hide Agree, Dispatch.Invoke, Pending, AllCalls, ToolMessages, Dispatch.IsBracket;
    AgreedPending(db);
    call := Pending(db.core.transcript).value;
    FreshIsNotCached(env, db.core, Retried(db.ledger), call);
    status, body := Dispatch.InvokeAgrees(env, db.core, Retried(db.ledger), call, Float);
    CommitAgrees(db, ApplyDispatch(env, db).value, call,
                 Dispatch.Invoke(env, db.core, Retried(db.ledger), call, Float).events, status, body);
  }

  lemma FreshIsNotCached(env: Env, core: Core, retried: bool, call: ToolCall)
    requires call.id !in core.results
    ensures !Dispatch.Invoke(env, core, retried, call, Float).Cached?
  {
  }

  lemma DistinctConcat(calls: seq<ToolCall>, more: seq<ToolCall>)
    requires DistinctIds(calls) && DistinctIds(more)
    requires forall c | c in more :: c.id !in IdsOf(calls)
    ensures DistinctIds(calls + more)
  {
    var all := calls + more;
    forall i, j | 0 <= i < j < |all|
      ensures all[i].id != all[j].id
    {
      if i < |calls| <= j {
        assert all[i] in calls && all[j] in more;
      }
    }
  }

  lemma AcceptedCalls(env: Env, history: seq<Message>, m: Message)
    requires Accepted(env, history, m) && DistinctIds(AllCalls(history))
    ensures DistinctIds(AllCalls(history) + m.calls) && forall c | c in m.calls :: |c.id| > 0
  {
    CallsFaultNone(env.operations, m.calls, IdsOf(AllCalls(history)), {});
    DistinctConcat(AllCalls(history), m.calls);
  }

  lemma TurnSettles(env: Env, history: seq<Message>, results: map<string, Saved>, m: Message)
    requires Settled(history, results) && NeedsTurn(history) && Accepted(env, history, m)
    ensures Settled(history + [m], results)
    ensures AllCalls(history + [m]) == AllCalls(history) + m.calls
            && ToolMessages(history + [m]) == ToolMessages(history)
  {
    hide FirstOpen, CallsFault, AllCalls, ToolMessages, DoneIds, IsFinal, InOrder;
    PendingIsNext(history, results);
    AcceptedCalls(env, history, m);
    Snoc(history, m);
    InOrderSnoc(history, m);
    var calls, tools := AllCalls(history), ToolMessages(history);
    assert tools + [] == tools;
    assert (calls + m.calls)[..|tools|] == calls[..|tools|];
    RecordedStays(results, tools, calls, m.calls);
  }

  lemma RecordedStays(results: map<string, Saved>, tools: seq<Message>, calls: seq<ToolCall>, more: seq<ToolCall>)
    requires Answers(tools, calls) && Recorded(results, tools, calls)
    ensures Answers(tools, calls + more) && Recorded(results, tools, calls + more)
  {
  }

  lemma NeutralWitnesses(ledger: seq<Event>, events: seq<Event>, history: seq<Message>, next: seq<Message>,
                         more: seq<ToolCall>)
    requires Answers(ToolMessages(history), AllCalls(history)) && Witnessed(ledger, history)
    requires forall e | e in events :: Neutral(e)
    requires ToolMessages(next) == ToolMessages(history) && AllCalls(next) == AllCalls(history) + more
    ensures Answers(ToolMessages(next), AllCalls(next)) && Witnessed(ledger + events, next)
  {
    ReadExtended(ledger, events);
  }

  lemma TurnEventsNeutral(m: Message)
    ensures forall e | e in TurnEvents(m) :: Neutral(e)
  {
  }

  lemma TurnKeepsAgreement(env: Env, db: Db, m: Message)
    requires Agree(db) && NeedsTurn(db.core.transcript) && Accepted(env, db.core.transcript, m)
    ensures Agree(SaveTurn(db, m))
  {
    hide NeedsTurn, InOrder, TurnFaultOf;
    var history := db.core.transcript;
    PlainSettles(history, db.core.results);
    PlainNeedsTurn(env, history, m);
    TurnSettles(env, PlainAll(history), db.core.results, m);
    TurnEventsNeutral(m);
    NeutralWitnesses(db.ledger, TurnEvents(m), history, PlainAll(history) + [m], m.calls);
  }

  /** Events outside brackets that change neither transcript nor results. */
  lemma QuietKeepsAgreement(db: Db, status: Status, events: seq<Event>)
    requires Agree(db) && forall e | e in events :: Neutral(e)
    ensures Agree(Db(status, db.ledger + events, db.core))
  {
    ReadExtended(db.ledger, events);
  }

  lemma QuietMove(env: Env, db: Db, move: Move) returns (events: seq<Event>)
    requires Apply(env, db, move).Some? && !move.Dispatched? && !move.Turn?
    ensures forall e | e in events :: Neutral(e)
    ensures var next := Apply(env, db, move).value;
            next.ledger == db.ledger + events && next.core == db.core
  {
    hide Dispatch.Invoke, ApplyDispatch, AllCalls, DoneIds, RequestOf, Rejection, TurnEvents;
    match move
    case TurnFailed(m, fault) =>
      TurnEventsNeutral(m);
      events := FailureEvents(m, fault);
    case DispatchFailed(cause) =>
      var call := Pending(db.core.transcript).value;
      events := [Error(DispatchFailure(call.id, call.op, cause))];
    case Complete => events := [Completed(db.core.step)];
    case Pause => events := [Paused(db.core.step)];
    case Request_ =>
      events := if Open(db.ledger) then [] else [ModelRequest(RequestOf(env, db.core))];
  }

  lemma StepKeepsAgreement(env: Env, db: Db, move: Move)
    requires Agree(db) && Apply(env, db, move).Some?
    ensures Agree(Apply(env, db, move).value)
  {
    if move.Dispatched? {
      var _, _, _ := DispatchKeepsAgreement(env, db);
    } else if move.Turn? {
      TurnKeepsAgreement(env, db, move.message);
    } else {
      var events := QuietMove(env, db, move);
      QuietKeepsAgreement(db, Apply(env, db, move).value.status, events);
    }
  }

  /**
    At-most-once effect and three-way agreement. In every reachable state the
    saved results, the tool messages and the ledger brackets name the same calls
    in the same order with the same outcome; each bracket holds at most one
    mutation; and no turn was accepted while an earlier call was unanswered.
   */
  lemma {:induction false} ReachableAgrees(env: Env, world: World, moves: seq<Move>, db: Db)
    requires Reaches(env, world, moves, db)
    ensures Agree(db)
  {
    if moves == [] {
      InitAgrees(world);
    } else {
      var n := |moves| - 1;
      var before := Exec(env, Init(world), moves[..n]).value;
      ReachableAgrees(env, world, moves[..n], before);
      StepKeepsAgreement(env, before, moves[n]);
    }
  }
}
