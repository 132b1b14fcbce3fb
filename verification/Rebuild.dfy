/** `Reconstruct` as it runs: an index advanced by hand over the recorded events, driving a fresh store. */
module Rebuild {
  import opened Basics
  import opened Protocol
  import opened Engine
  import opened Reconstruct
  import Checkpoint
  import Dispatch
  import Runner

  lemma WalkTo(env: Env, world: World, ledger: seq<Event>, i: nat)
    requires 0 < i < |ledger|
    ensures WalkAll(env, world, ledger[..i + 1]) == WalkNext(env, WalkAll(env, world, ledger[..i]), ledger[i])
  {
    hide WalkNext, WalkAll;
    assert ledger[..i + 1] == ledger[..i] + [ledger[i]];
    WalkGrows(env, world, ledger[..i], [ledger[i]]);
    WalkOne(env, WalkAll(env, world, ledger[..i]), ledger[i]);
  }

  lemma StuckEarly(env: Env, world: World, ledger: seq<Event>, i: nat)
    requires 0 < i <= |ledger| && WalkAll(env, world, ledger[..i]).Stuck?
    ensures WalkAll(env, world, ledger).Stuck?
  {
    hide WalkNext, WalkAll;
    assert ledger == ledger[..i] + ledger[i..];
    WalkGrows(env, world, ledger[..i], ledger[i..]);
    StuckStays(env, ledger[i..]);
  }

  /** The point with a given event number, if it is still the one selected. */
  method StillListed(points: seq<Checkpoint.Point>, selected: Checkpoint.Point) returns (ok: bool)
    requires forall i, j | 0 <= i < j < |points| :: |points[i].prefix| < |points[j].prefix|
    ensures ok <==> selected in points
  {
    for i := 0 to |points|
      invariant forall j | 0 <= j < i :: |points[j].prefix| != |selected.prefix|
    {
      if |points[i].prefix| == |selected.prefix| {
        return points[i] == selected;
      }
    }
    ok := false;
  }

  /** Skip the events the dispatch has just reproduced; false when the response never comes. */
  method SkipToResponse(env: Env, world: World, events: seq<Event>, start: nat, ghost db: Db)
    returns (i: nat, found: bool)
    requires 0 < start < |events| && !events[start].ToolResponse?
    requires WalkAll(env, world, events[..start + 1]) == Skipping(db)
    ensures start <= i < |events|
    ensures found ==> WalkAll(env, world, events[..i + 1]) == Walking(db)
    ensures !found ==> WalkAll(env, world, events) == Skipping(db)
  {
    hide WalkAll;
    i := start;
    while i + 1 < |events| && !events[i].ToolResponse?
      invariant start <= i < |events|
      invariant WalkAll(env, world, events[..i + 1]) == if events[i].ToolResponse? then Walking(db) else Skipping(db)
    {
      WalkTo(env, world, events, i + 1);
      i := i + 1;
    }
    found := events[i].ToolResponse?;
    assert i + 1 == |events| ==> events[..i + 1] == events;
  }

  method Prefix(transcript: seq<Message>, rebuilt: seq<Message>) returns (ok: bool)
    ensures ok <==> rebuilt <= transcript
  {
    if |transcript| < |rebuilt| {
      return false;
    }
    for i := 0 to |rebuilt|
      invariant rebuilt[..i] == transcript[..i]
    {
      if transcript[i] != rebuilt[i] {
        return false;
      }
    }
    ok := true;
    assert rebuilt[..|rebuilt|] == rebuilt;
  }

  /** The comparison loop: events from the second on, and the saved result behind every tool request. */
  method Compare(source: Core, prefix: seq<Event>, target: Db) returns (ok: bool)
    requires prefix != []
    ensures ok <==> Matches(source, prefix, target)
  {
    if |target.ledger| != |prefix| {
      return false;
    }
    var left, right := source.results, target.core.results;
    for i := 1 to |prefix|
      invariant target.ledger[1..i] == prefix[1..i]
      invariant SameResults(prefix[1..i], left, right)
    {
      var e := prefix[i];
      if e != target.ledger[i] {
        assert prefix[1..][i - 1] != target.ledger[1..][i - 1];
        return false;
      }
      assert prefix[1..i + 1] == prefix[1..i] + [e] && target.ledger[1..i + 1] == target.ledger[1..i] + [e];
      if e.ToolRequest? {
        if e.call.id !in left || e.call.id !in right || left[e.call.id] != right[e.call.id] {
          assert prefix[1..][i - 1] == e;
          return false;
        }
      }
    }
    assert prefix[1..|prefix|] == prefix[1..] && target.ledger[1..|prefix|] == target.ledger[1..];
    ok := Prefix(source.transcript, target.core.transcript);
  }

  /** Replays the recorded prefix into a new store; `None` is any of the errors on the way. */
  method Replay(env: Env, world: World, events: seq<Event>) returns (target: Option<Runner.Store>)
    requires events != []
    ensures target.Some? <==> WalkAll(env, world, events).Walking?
    ensures target.Some? ==> fresh(target.value) && WalkAll(env, world, events) == Walking(target.value.Rows())
  {
    hide WalkAll, Dispatch.Invoke, RequestOf;
    var store := new Runner.Store(env, world);
    var history: seq<Message> := [];
    var step, i := 0, 1;
    assert WalkAll(env, world, events[..1]) == Walking(Init(world)) by { WalkStart(env, world, events); }
    while i < |events|
      invariant 1 <= i <= |events| && fresh(store) && store.env == env
      invariant WalkAll(env, world, events[..i]) == Walking(store.Rows())
      invariant history == store.transcript && step == store.step
      decreases |events| - i
    {
      WalkTo(env, world, events, i);
      var ok := true;
      match events[i] {
        case ModelRequest(request) =>
          ok := store.RepeatRequest(request);
        case ModelResponse(m) =>
          history := history + [m];
          step := step + 1;
          var _ := store.SaveTurnGuarded(None, 0, step, history, m);
        case Interrupted(_) =>
        case ToolRequest(call) =>
          StepSurvives(env, store.Rows(), call);
          var _, a := store.Invoke(None, 0, call, Literal);
          ok := !a.Rejected?;
          if ok {
            i, ok := SkipToResponse(env, world, events, i, store.Rows());
            if !ok {
              return None;
            }
            history := store.transcript;
          }
        case Paused(at) =>
          var _ := store.SaveStatusGuarded(None, 0, StatusPaused, Paused(at));
        case Completed(at) =>
          var _ := store.SaveStatusGuarded(None, 0, StatusCompleted, Completed(at));
        case _ => ok := false;
      }
      if !ok {
        StuckEarly(env, world, events, i + 1);
        return None;
      }
      i := i + 1;
    }
    assert events[..|events|] == events;
    target := Some(store);
  }

  lemma StepSurvives(env: Env, db: Db, call: ToolCall)
    ensures var a := Dispatch.Invoke(env, db.core, Retried(db.ledger), call, Literal);
            a.Committed? ==> a.core.step == db.core.step
  {
    hide Dispatch.Invoke;
    if Dispatch.Invoke(env, db.core, Retried(db.ledger), call, Literal).Committed? {
      var _, _ := Dispatch.InvokeAgrees(env, db.core, Retried(db.ledger), call, Literal);
    }
  }

  lemma WalkStart(env: Env, world: World, events: seq<Event>)
    requires events != []
    ensures WalkAll(env, world, events[..1]) == Walking(Init(world))
  {
    assert events[..1][1..] == [];
  }

  /** The whole of `Reconstruct`: select, replay, compare. */
  method RebuildAt(env: Env, world: World, source: Db, selected: Checkpoint.Point)
    returns (target: Option<Runner.Store>)
    ensures target.Some? ==>
              fresh(target.value) && ReconstructOf(env, world, source, selected) == Some(target.value.Rows())
    ensures target.None? ==> ReconstructOf(env, world, source, selected) == None
  {
    hide WalkAll, Matches;
    var points := Checkpoint.List(source);
    if points.None? {
      return None;
    }
    Checkpoint.PointsAscend(source.ledger);
    var listed := StillListed(points.value, selected);
    if !listed {
      return None;
    }
    target := Replay(env, world, selected.prefix);
    if target.Some? {
      var s := target.value;
      var rows := Db(s.status, s.ledger,
                     Core(s.step, s.transcript, s.results, s.world, s.chaos, s.authCalls, s.faultConsumed));
      var ok := Compare(source.core, selected.prefix, rows);
      if !ok {
        target := None;
      }
    }
  }
}
