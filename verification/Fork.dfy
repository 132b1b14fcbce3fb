/**
  Forks: a child run written from a rebuilt prefix of its parent, and the second
  construction of the same child that replay makes from lineage alone.
 */
module Fork {
  import opened Basics
  import opened Protocol
  import opened Engine
  import opened Reconstruct
  import Agreement
  import Checkpoint
  import Derived
  import Dispatch
  import Rebuild

  /** A replacement for what the child saw at the fork point; a body that is no single JSON value is `None`. */
  datatype Observation = Observation(callId: string, status: int, body: Option<Json>)

  datatype Options = Options(
    provider: string, model: string, fault: Option<string>,
    chaos: Option<seq<Rule>>, auth: Option<AuthPolicy>, observation: Option<Observation>)

  /** The events a child run opens with. */
  datatype Opening =
    | Forked(parent: string, seq_: nat)
    | Overridden(callId: string, op: string, originalStatus: int, status: int, body: Json)

  datatype Child = Child(config: Config, status: Status, core: Core, opening: seq<Opening>)

  /** The prefix stands for its digest. */
  datatype Lineage = Lineage(
    parent: string, prefix: seq<Event>, parentProvider: string, parentModel: string,
    chaosReplaced: bool, authReplaced: bool)

  datatype Root = Root(env: Env, seed: World, db: Db)

  /** The rows forking reads and writes. */
  datatype Base = Base(
    roots: map<string, Root>, children: map<string, Child>,
    lineage: map<string, Lineage>, observations: map<string, Observation>)

  // Options ---------------------------------------------------------------------------

  function Or(chosen: string, inherited: string): string {
    if chosen != [] then chosen else inherited
  }

  predicate ValidOptions(known: set<string>, env: Env, o: Options) {
    && (o.fault.Some? && o.fault.value != [] ==> FindOp(env.operations, o.fault.value).Some? && o.chaos.None?)
    && (o.provider != [] ==> o.provider in known)
    && (o.provider != [] && o.provider != env.config.provider ==> o.model != [])
    && Or(o.provider, env.config.provider) != [] && Or(o.model, env.config.model) != []
  }

  function ChildConfig(parent: Config, o: Options, id: string): Config {
    parent.(
      runId := id, provider := Or(o.provider, parent.provider), model := Or(o.model, parent.model),
      faultOp := if o.chaos.Some? then [] else if o.fault.Some? then o.fault.value else parent.faultOp,
      principal := if o.auth.Some? then o.auth.value.principal else parent.principal,
      chaosPolicy := if o.chaos.Some? then o.chaos else parent.chaosPolicy,
      authPolicy := if o.auth.Some? then o.auth else parent.authPolicy)
  }

  // Observation overrides -----------------------------------------------------------------

  /** The audit event of an acceptable override; `None` is an error. */
  function Prepare(ledger: seq<Event>, selected: Checkpoint.Point, o: Observation): Option<Opening> {
    var k := |selected.prefix|;
    if o.callId == [] || (o.status != 0 && (o.status < 100 || o.status > 599)) || o.body.None? then None
    else if k == 0 || k > |ledger| || !selected.prefix[k - 1].ToolResponse? then None
    else
      var e := ledger[k - 1];
      if !e.ToolResponse? || e.callId != o.callId then None
      else Some(Overridden(o.callId, e.op, e.status, o.status, o.body.value))
  }

  /** Rewrites the final tool message, which must be the overridden call's. */
  function ApplyTo(transcript: seq<Message>, o: Opening): Option<seq<Message>>
    requires o.Overridden?
  {
    var n := |transcript| - 1;
    if n < 0 || !transcript[n].Tool? || transcript[n].callId != o.callId then None
    else Some(transcript[n := Tool(o.callId, transcript[n].op, o.status, o.body)])
  }

  /** Updates the one saved result of the overridden call. */
  function Override(results: map<string, Saved>, o: Opening): Option<map<string, Saved>>
    requires o.Overridden?
  {
    if o.callId !in results then None
    else Some(results[o.callId := results[o.callId].(status := o.status, body := o.body)])
  }

  /** An override that was asked for, prepared: `None` is an error, `Some(None)` no override. */
  function Prepared(ledger: seq<Event>, selected: Checkpoint.Point, o: Option<Observation>): Option<Option<Opening>> {
    if o.None? then Some(None) else
      match Prepare(ledger, selected, o.value)
      case None => None
      case Some(event) => Some(Some(event))
  }

  // Creation -------------------------------------------------------------------------------

  function Empty(): ChaosRows {
    ChaosRows(map[], map[], map[])
  }

  /** The child rows `Create` writes: options decide, the rebuilt prefix supplies the rest. */
  function NewChild(parent: Root, parentId: string, selected: Checkpoint.Point, o: Options, id: string): Option<Child> {
    match Prepared(parent.db.ledger, selected, o.observation)
    case None => None
    case Some(event) =>
      match ReconstructOf(parent.env, parent.seed, parent.db, selected)
      case None => None
      case Some(rebuilt) =>
        var core := rebuilt.core;
        var transcript := if event.Some? then ApplyTo(core.transcript, event.value) else Some(core.transcript);
        var results := if event.Some? then Override(core.results, event.value) else Some(core.results);
        var config := ChildConfig(parent.env.config, o, id);
        if transcript.None? || results.None? then None
        else Some(Child(
          config, StatusPaused,
          Core(core.step, transcript.value, results.value, core.world,
               if o.chaos.Some? then Empty() else core.chaos,
               if o.auth.Some? then 0 else core.authCalls,
               if config.faultOp != parent.env.config.faultOp then false else core.faultConsumed),
          [Forked(parentId, |selected.prefix|)] + (if event.Some? then [event.value] else [])))
  }

  /** The check inside the writing transaction that the source has not moved since it was read. */
  predicate Unmoved(read: Root, now: Root, selected: Checkpoint.Point) {
    && (now.db.status.StatusPaused? || now.db.status.StatusCompleted?)
    && |now.db.ledger| == |read.db.ledger| && selected.prefix <= now.db.ledger
  }

  predicate WellFormed(b: Base) {
    b.lineage.Keys == b.children.Keys && b.observations.Keys <= b.children.Keys && b.roots.Keys !! b.children.Keys
  }

  /** What `Create` commits on top of `now`, having read `read`; `None` is an error that leaves `now` alone. */
  function CreateOf(known: set<string>, read: Base, now: Base, parentId: string, selected: Checkpoint.Point,
                    o: Options, id: string): Option<Base> {
    if parentId !in read.roots || parentId !in now.roots || !ValidOptions(known, read.roots[parentId].env, o) then None
    else if id in now.children || id in now.roots then None
    else
      var parent := read.roots[parentId];
      var theirs := parent.env.config;
      match NewChild(parent, parentId, selected, o, id)
      case None => None
      case Some(child) =>
        if !Unmoved(parent, now.roots[parentId], selected) then None
        else Some(now.(
          children := now.children[id := child],
          lineage := now.lineage[id :=
              Lineage(parentId, selected.prefix, theirs.provider, theirs.model, o.chaos.Some?, o.auth.Some?)],
          observations := if o.observation.Some? then now.observations[id := o.observation.value]
              else now.observations))
  }

  // Replay -----------------------------------------------------------------------------------

  function FindPoint(points: seq<Checkpoint.Point>, prefix: seq<Event>): (p: Option<Checkpoint.Point>)
    ensures p.Some? ==> p.value in points && p.value.prefix == prefix
    ensures p.None? ==> forall q | q in points :: q.prefix != prefix
  {
    if points == [] then None
    else if points[0].prefix == prefix then Some(points[0])
    else FindPoint(points[1..], prefix)
  }

  /** The boundary a lineage row names, if the parent still lists it. */
  function Named(parent: Root, l: Lineage): Option<Checkpoint.Point> {
    match Checkpoint.ListOf(parent.db)
    case None => None
    case Some(points) => FindPoint(points, l.prefix)
  }

  predicate MetadataAgrees(parent: Config, child: Config, l: Lineage) {
    parent.provider == l.parentProvider && parent.model == l.parentModel
    && parent.scenario == child.scenario && parent.task == child.task
  }

  /** The child as replay rebuilds it: the stored run row and lineage decide, the parent supplies the rest. */
  function Reborn(parent: Root, l: Lineage, child: Config, observation: Option<Observation>): Option<Child> {
    if !MetadataAgrees(parent.env.config, child, l) then None else
      match Named(parent, l)
      case None => None
      case Some(selected) =>
        match ReconstructOf(parent.env, parent.seed, parent.db, selected)
        case None => None
        case Some(rebuilt) =>
          var consumed := if child.faultOp != parent.env.config.faultOp then false else rebuilt.core.faultConsumed;
          match Prepared(parent.db.ledger, selected, observation)
          case None => None
          case Some(event) =>
            var transcript := if event.Some? then ApplyTo(rebuilt.core.transcript, event.value)
                else Some(rebuilt.core.transcript);
            var results := if event.Some? then Override(rebuilt.core.results, event.value)
                else Some(rebuilt.core.results);
            if transcript.None? || results.None? then None else
              var config := child.(
                chaosPolicy := if l.chaosReplaced then child.chaosPolicy else parent.env.config.chaosPolicy,
                authPolicy := if l.authReplaced then child.authPolicy else parent.env.config.authPolicy);
              var chaos := if l.chaosReplaced then Empty() else rebuilt.core.chaos;
              var calls := if l.authReplaced then 0 else rebuilt.core.authCalls;
              var opening := [Forked(l.parent, |selected.prefix|)];
              Some(Child(config, StatusPaused,
                         rebuilt.core.(transcript := transcript.value, results := results.value,
                                       faultConsumed := consumed,
                                       chaos := chaos, authCalls := calls),
                         if event.Some? then opening + [event.value] else opening))
  }

  /** `ReconstructForReplay`, which looks only at lineage and at columns a run never changes. */
  function ReplayStart(base: Base, id: string): Option<Child> {
    if id !in base.children || id !in base.lineage || base.lineage[id].parent !in base.roots then None
    else Reborn(base.roots[base.lineage[id].parent], base.lineage[id], base.children[id].config,
                if id in base.observations then Some(base.observations[id]) else None)
  }

  // A parent that runs on ----------------------------------------------------------------------

  lemma {:induction false} PointsGrow(earlier: seq<Event>, later: seq<Event>)
    requires earlier <= later && Checkpoint.Scan(later).Some?
    ensures Checkpoint.Scan(earlier).Some?
    ensures Checkpoint.Scan(earlier).value.points <= Checkpoint.Scan(later).value.points
  {
    hide Checkpoint.IsBoundary, Checkpoint.Admit;
    if earlier == later {
    } else {
      var n := |later| - 1;
      assert earlier <= later[..n];
      PointsGrow(earlier, later[..n]);
      Checkpoint.AdmitKeepsPoints(Checkpoint.Scan(later[..n]).value, later[n], n == 0);
    }
  }

  lemma StillMatches(earlier: Db, later: Core, prefix: seq<Event>, target: Db)
    requires Ending(earlier) && Checkpoint.ListOf(earlier).Some? && Extends(later, earlier.core)
    requires prefix != [] && Matches(earlier.core, prefix, target)
    ensures Matches(later, prefix, target)
  {
    hide Ending, Continues, Checkpoint.ListOf;
    ListedStays(earlier, later.transcript);
  }

  /** Rebuilding a boundary gives the same rows however far the parent has run on since. */
  lemma RebuildIsStable(env: Env, seed: World, earlier: Db, later: Db, p: Checkpoint.Point)
    requires Ending(earlier) && earlier.ledger <= later.ledger && Extends(later.core, earlier.core)
    requires Checkpoint.ListOf(later).Some? && ReconstructOf(env, seed, earlier, p).Some?
    ensures p in Checkpoint.ListOf(later).value
    ensures ReconstructOf(env, seed, later, p) == ReconstructOf(env, seed, earlier, p)
  {
    hide WalkAll, Matches, Ending;
    PointsGrow(earlier.ledger, later.ledger);
    StillMatches(earlier, later.core, p.prefix, ReconstructOf(env, seed, earlier, p).value);
  }

  lemma NamedIsSelected(parent: Root, l: Lineage, p: Checkpoint.Point)
    requires Checkpoint.ListOf(parent.db).Some? && p in Checkpoint.ListOf(parent.db).value && l.prefix == p.prefix
    ensures Named(parent, l) == Some(p)
  {
    Checkpoint.PointsAscend(parent.db.ledger);
  }

  lemma PreparedIsStable(earlier: seq<Event>, later: seq<Event>, p: Checkpoint.Point, o: Option<Observation>)
    requires p.prefix <= earlier <= later
    ensures Prepared(later, p, o) == Prepared(earlier, p, o)
  {
  }

  lemma StepExtendsCore(env: Env, db: Db, move: Move)
    requires Agreement.Agree(db) && Apply(env, db, move).Some?
    ensures Extends(Apply(env, db, move).value.core, db.core)
  {
    hide Agreement.Agree, Dispatch.Invoke, ApplyDispatch, Pending, IsFinal, Rejection, RequestOf;
    if move.Dispatched? {
      DispatchExtends(env, db);
    } else if !move.Turn? {
      var _ := Agreement.QuietMove(env, db, move);
    }
  }

  lemma {:induction false} RunExtends(env: Env, db: Db, moves: seq<Move>, later: Db)
    requires Agreement.Agree(db) && Exec(env, db, moves) == Some(later)
    ensures Agreement.Agree(later) && db.ledger <= later.ledger && Extends(later.core, db.core)
  {
    hide Agreement.Agree, Apply;
    if moves != [] {
      var n := |moves| - 1;
      var before := Exec(env, db, moves[..n]).value;
      RunExtends(env, db, moves[..n], before);
      Agreement.StepKeepsAgreement(env, before, moves[n]);
      StepExtendsCore(env, before, moves[n]);
      ContinuesOn(db.core.transcript, before.core.transcript, later.core.transcript);
      Checkpoint.StepExtendsLedger(env, before, moves[n]);
    }
  }

  lemma RebornIsNewChild(parent: Root, later: Root, parentId: string, selected: Checkpoint.Point, o: Options,
                         id: string)
    requires NewChild(parent, parentId, selected, o, id).Some?
    requires later.env == parent.env && later.seed == parent.seed
    requires Ending(parent.db) && parent.db.ledger <= later.db.ledger && Extends(later.db.core, parent.db.core)
    requires Checkpoint.ListOf(later.db).Some?
    ensures var theirs := parent.env.config;
            var l := Lineage(parentId, selected.prefix, theirs.provider, theirs.model, o.chaos.Some?, o.auth.Some?);
            Reborn(later, l, ChildConfig(theirs, o, id), o.observation) == NewChild(parent, parentId, selected, o, id)
  {
    hide ReconstructOf, Checkpoint.ListOf, Prepared, ApplyTo, Override, Named, Ending, Extends;
    var theirs := parent.env.config;
    var l := Lineage(parentId, selected.prefix, theirs.provider, theirs.model, o.chaos.Some?, o.auth.Some?);
    RebuildIsStable(parent.env, parent.seed, parent.db, later.db, selected);
    NamedIsSelected(later, l, selected);
    SelectedIsPrefix(parent.env, parent.seed, parent.db, selected);
    PreparedIsStable(parent.db.ledger, later.db.ledger, selected, o.observation);
    var opening := [Forked(parentId, |selected.prefix|)];
    assert opening + [] == opening;
  }

  lemma SelectedIsPrefix(env: Env, seed: World, db: Db, selected: Checkpoint.Point)
    requires ReconstructOf(env, seed, db, selected).Some?
    ensures selected.prefix <= db.ledger
  {
    hide WalkAll, Matches;
    Checkpoint.PointsAreBoundaries(db.ledger, selected.prefix);
    assert selected in Checkpoint.Scan(db.ledger).value.points;
  }

  /**
    The rows replay reads are still there: the parent has only run on, the child's
    immutable columns and lineage are unchanged.
   */
  predicate Remains(after: Base, later: Base, parentId: string, id: string) {
    && parentId in later.roots && id in later.children && id in later.lineage && id in after.children
      && id in after.lineage
    && later.children[id].config == after.children[id].config && later.lineage[id] == after.lineage[id]
    && (id in later.observations <==> id in after.observations)
    && (id in after.observations ==> later.observations[id] == after.observations[id])
  }

  /**
    Fork determinism. Whatever the parent, boundary and options, creating a fork
    changes no parent row, and the child's starting rows (world, run row, saved
    results, chaos and authorization state, opening events) are exactly what replay
    rebuilds later from lineage, however far parent and child have run on, as long
    as the parent's ledger can be listed at all.
   */
  lemma ForkDeterminism(
    known: set<string>, read: Base, now: Base, parentId: string, selected: Checkpoint.Point, o: Options, id: string,
    history: seq<Move>, onward: seq<Move>, later: Base)
    requires WellFormed(now) && CreateOf(known, read, now, parentId, selected, o, id).Some?
    requires Reaches(read.roots[parentId].env, read.roots[parentId].seed, history, read.roots[parentId].db)
    requires Remains(CreateOf(known, read, now, parentId, selected, o, id).value, later, parentId, id)
    requires later.roots[parentId].env == read.roots[parentId].env
             && later.roots[parentId].seed == read.roots[parentId].seed
    requires Exec(read.roots[parentId].env, read.roots[parentId].db, onward) == Some(later.roots[parentId].db)
    ensures var after := CreateOf(known, read, now, parentId, selected, o, id).value;
            && after.roots == now.roots && WellFormed(after)
            && (forall other | other in now.children ::
                other in after.children && after.children[other] == now.children[other])
            && (if Checkpoint.ListOf(later.roots[parentId].db).Some?
                then ReplayStart(later, id) == Some(after.children[id]) else ReplayStart(later, id) == None)
  {
    hide Exec, Agreement.Agree, NewChild, Reborn, Checkpoint.ListOf, ValidOptions, Ending;
    var parent := read.roots[parentId];
    Agreement.ReachableAgrees(parent.env, parent.seed, history, parent.db);
    ForkedParentEnding(parent, history, parentId, selected, o, id);
    RunExtends(parent.env, parent.db, onward, later.roots[parentId].db);
    ChildKeepsConfig(parent, parentId, selected, o, id);
    if Checkpoint.ListOf(later.roots[parentId].db).Some? {
      RebornIsNewChild(parent, later.roots[parentId], parentId, selected, o, id);
    } else {
      UnlistedIsRefused(later.roots[parentId], later.lineage[id], later.children[id].config, o.observation);
    }
  }

  /** Which forks replay: those whose parent, by then, has no recorded failure and has completed or just paused. */
  lemma ForkReplaysIff(
    known: set<string>, read: Base, now: Base, parentId: string, selected: Checkpoint.Point, o: Options, id: string,
    history: seq<Move>, onward: seq<Move>, later: Base)
    requires WellFormed(now) && CreateOf(known, read, now, parentId, selected, o, id).Some?
    requires Reaches(read.roots[parentId].env, read.roots[parentId].seed, history, read.roots[parentId].db)
    requires Remains(CreateOf(known, read, now, parentId, selected, o, id).value, later, parentId, id)
    requires later.roots[parentId].env == read.roots[parentId].env
             && later.roots[parentId].seed == read.roots[parentId].seed
    requires Exec(read.roots[parentId].env, read.roots[parentId].db, onward) == Some(later.roots[parentId].db)
    requires Checkpoint.NamedOperations(read.roots[parentId].env)
    ensures var db := later.roots[parentId].db;
            ReplayStart(later, id).Some? <==>
            && NoFailure(db.ledger)
            && (db.status.StatusCompleted?
                || (db.status.StatusPaused? && LastOf(db.ledger) == Some(Paused(db.core.step))))
  {
    hide Exec, ReplayStart, Checkpoint.ListOf, WellFormed, NewChild, ValidOptions;
    var parent, db := read.roots[parentId], later.roots[parentId].db;
    ForkDeterminism(known, read, now, parentId, selected, o, id, history, onward, later);
    ExecAppend(parent.env, Init(parent.seed), history, onward);
    Checkpoint.ListedIff(parent.env, parent.seed, history + onward, db);
  }

  /** A parent that can be forked is listed, so it has no recorded failure. */
  lemma ForkedParentEnding(parent: Root, history: seq<Move>, parentId: string, selected: Checkpoint.Point, o: Options,
                           id: string)
    requires NewChild(parent, parentId, selected, o, id).Some? && Reaches(parent.env, parent.seed, history, parent.db)
    ensures Ending(parent.db)
  {
    hide Exec, ReconstructOf, ApplyTo, Override, Prepared, ChildConfig, Ending;
    ListedIfRebuilt(parent, selected);
    Checkpoint.ScannedHasNoFailure(parent.db.ledger);
    ReachableEnding(parent.env, parent.seed, history, parent.db);
  }

  lemma ChildKeepsConfig(parent: Root, parentId: string, selected: Checkpoint.Point, o: Options, id: string)
    requires NewChild(parent, parentId, selected, o, id).Some?
    ensures NewChild(parent, parentId, selected, o, id).value.config == ChildConfig(parent.env.config, o, id)
  {
    hide ReconstructOf, ApplyTo, Override, Prepared, ChildConfig;
  }

  lemma UnlistedIsRefused(parent: Root, l: Lineage, child: Config, observation: Option<Observation>)
    requires Checkpoint.ListOf(parent.db).None?
    ensures Reborn(parent, l, child, observation) == None
  {
    hide Checkpoint.ListOf, ReconstructOf, Prepared, ApplyTo, Override;
  }

  // The child's own agreement --------------------------------------------------------------------

  /** Overriding the last observation changes transcript and saved result together. */
  lemma OverrideSettles(before: seq<Message>, results: map<string, Saved>, event: Opening, status: int, body: Json,
                        op: string)
    requires event.Overridden? && Agreement.Settled(before + [Tool(event.callId, op, status, body)], results)
    ensures event.callId in results
    ensures Agreement.Settled(before + [Tool(event.callId, op, event.status, event.body)],
                              results[event.callId := results[event.callId].(status := event.status,
                                  body := event.body)])
  {
    hide AllCalls, ToolMessages, DoneIds, Agreement.InOrder;
    var m, m' := Tool(event.callId, op, status, body), Tool(event.callId, op, event.status, event.body);
    Snoc(before, m);
    Snoc(before, m');
    var calls, tools, n := AllCalls(before), ToolMessages(before), |ToolMessages(before)|;
    assert calls + [] == calls;
    assert (tools + [m])[n] == m && (tools + [m'])[n] == m';
    assert calls[n].id == event.callId;
    OverrideInOrder(before, m, m');
    var after := results[event.callId := results[event.callId].(status := event.status, body := event.body)];
    forall i | 0 <= i <= n
      ensures calls[i].id in after
      ensures after[calls[i].id] == Saved(calls[i].op, calls[i].args, (tools + [m'])[i].status, (tools + [m'])[i].body)
    {
      assert results[calls[i].id] == Saved(calls[i].op, calls[i].args, (tools + [m])[i].status, (tools + [m])[i].body);
    }
  }

  lemma OverrideInOrder(before: seq<Message>, m: Message, m': Message)
    requires Agreement.InOrder(before + [m]) && m.Tool? && m'.Tool?
    ensures Agreement.InOrder(before + [m'])
  {
    var left, right := before + [m], before + [m'];
    forall k | 0 <= k < |right| && right[k].Assistant?
      ensures |AllCalls(right[..k])| == |ToolMessages(right[..k])|
    {
      assert left[k] == right[k] && left[..k] == right[..k];
    }
  }

  /** A child starts from agreeing rows: its saved results and its transcript tell one story, override included. */
  lemma ChildIsSettled(parent: Root, moves: seq<Move>, parentId: string, selected: Checkpoint.Point, o: Options,
                       id: string)
    requires Reaches(parent.env, parent.seed, moves, parent.db)
    requires NewChild(parent, parentId, selected, o, id).Some?
    ensures var child := NewChild(parent, parentId, selected, o, id).value;
            Agreement.Settled(child.core.transcript, child.core.results)
  {
    hide Exec, ReconstructOf, Agreement.Agree, Agreement.Settled, Prepared, ChildConfig;
    var rebuilt := ReconstructOf(parent.env, parent.seed, parent.db, selected).value;
    var j, then_ := Derived.RebuiltAsRecorded(parent.env, parent.seed, moves, parent.db, selected, rebuilt);
    Agreement.ReachableAgrees(parent.env, parent.seed, moves[..j], then_);
    Agreement.AgreeSettles(then_);
    var event := Prepared(parent.db.ledger, selected, o.observation).value;
    if event.Some? {
      PreparedIsOverride(parent.db.ledger, selected, o.observation);
      var transcript, n := then_.core.transcript, |then_.core.transcript| - 1;
      assert transcript == transcript[..n] + [transcript[n]];
      OverrideSettles(transcript[..n], then_.core.results, event.value, transcript[n].status, transcript[n].body,
                      transcript[n].op);
      assert ApplyTo(transcript, event.value).value
          == transcript[..n] + [Tool(event.value.callId, transcript[n].op, event.value.status, event.value.body)];
    }
  }

  lemma PreparedIsOverride(ledger: seq<Event>, selected: Checkpoint.Point, o: Option<Observation>)
    requires Prepared(ledger, selected, o).Some?
    ensures Prepared(ledger, selected, o).value.Some? ==> Prepared(ledger, selected, o).value.value.Overridden?
  {
  }

  lemma ListedIfRebuilt(parent: Root, selected: Checkpoint.Point)
    requires ReconstructOf(parent.env, parent.seed, parent.db, selected).Some?
    ensures Checkpoint.ListOf(parent.db).Some? && selected in Checkpoint.ListOf(parent.db).value
  {
    hide WalkAll, Matches, Checkpoint.ListOf;
  }

  // The two constructions as they run ---------------------------------------------------------------

  /** The transcript's final message is edited in place. */
  method EditTranscript(transcript: seq<Message>, event: Option<Opening>) returns (edited: Option<seq<Message>>)
    requires event.Some? ==> event.value.Overridden?
    ensures edited == if event.Some? then ApplyTo(transcript, event.value) else Some(transcript)
  {
    var messages := transcript;
    if event.Some? {
      var n := |messages| - 1;
      if n < 0 || !messages[n].Tool? || messages[n].callId != event.value.callId {
        return None;
      }
      messages := messages[n := messages[n].(status := event.value.status, body := event.value.body)];
    }
    edited := Some(messages);
  }

  /** Copies the saved results, then updates the overridden one. */
  method CopyResults(results: map<string, Saved>, event: Option<Opening>) returns (copied: Option<map<string, Saved>>)
    requires event.Some? ==> event.value.Overridden?
    ensures copied == if event.Some? then Override(results, event.value) else Some(results)
  {
    var rows: map<string, Saved>, left := map[], results.Keys;
    while left != {}
      invariant left <= results.Keys && rows == map id | id in results.Keys - left :: results[id]
      decreases |left|
    {
      var id :| id in left;
      rows := rows[id := results[id]];
      left := left - {id};
    }
    assert rows == results;
    if event.Some? {
      if event.value.callId !in rows {
        return None;
      }
      var saved := rows[event.value.callId];
      rows := rows[event.value.callId := saved.(status := event.value.status, body := event.value.body)];
    }
    copied := Some(rows);
  }

  class Database {
    var roots: map<string, Root>
    var children: map<string, Child>
    var lineage: map<string, Lineage>
    var observations: map<string, Observation>

    ghost function Rows(): Base
      reads this
    {
      Base(roots, children, lineage, observations)
    }

    constructor (base: Base)
      ensures Rows() == base
    {
      roots, children, lineage, observations := base.roots, base.children, base.lineage, base.observations;
    }

    /** Rebuild from what was read, then check and write in one transaction. */
    method Create(known: set<string>, read: Base, parentId: string, selected: Checkpoint.Point, o: Options,
                  id: string) returns (ok: bool)
      modifies this
      ensures ok == CreateOf(known, read, old(Rows()), parentId, selected, o, id).Some?
      ensures Rows() == if ok then CreateOf(known, read, old(Rows()), parentId, selected, o, id).value else old(Rows())
    {
      hide ReconstructOf, Prepare, ApplyTo, Override, ValidOptions;
      ok := false;
      if parentId !in read.roots || parentId !in roots || id in children || id in roots {
        return;
      }
      var parent := read.roots[parentId];
      if !ValidOptions(known, parent.env, o) {
        return;
      }
      var child := Build(parent, parentId, selected, o, id);
      if child.None? || !Unmoved(parent, roots[parentId], selected) {
        return;
      }
      var theirs := parent.env.config;
      children := children[id := child.value];
      if o.observation.Some? {
        observations := observations[id := o.observation.value];
      }
      lineage := lineage[id := Lineage(parentId, selected.prefix, theirs.provider, theirs.model, o.chaos.Some?,
                                       o.auth.Some?)];
      ok := true;
    }
  }

  method Build(parent: Root, parentId: string, selected: Checkpoint.Point, o: Options, id: string)
    returns (child: Option<Child>)
    ensures child == NewChild(parent, parentId, selected, o, id)
  {
    hide ReconstructOf, Prepare, ApplyTo, Override;
    var event: Option<Opening> := None;
    if o.observation.Some? {
      event := Prepare(parent.db.ledger, selected, o.observation.value);
      if event.None? {
        return None;
      }
      PreparedIsOverride(parent.db.ledger, selected, o.observation);
    }
    var target := Rebuild.RebuildAt(parent.env, parent.seed, parent.db, selected);
    if target.None? {
      return None;
    }
    var s := target.value;
    var transcript := EditTranscript(s.transcript, event);
    var results := CopyResults(s.results, event);
    if transcript.None? || results.None? {
      return None;
    }
    var config := ChildConfig(parent.env.config, o, id);
    var consumed := s.faultConsumed;
    if config.faultOp != parent.env.config.faultOp {
      consumed := false;
    }
    var chaos := if o.chaos.Some? then Empty() else s.chaos;
    var calls := if o.auth.Some? then 0 else s.authCalls;
    var opening := [Forked(parentId, |selected.prefix|)];
    assert opening + [] == opening;
    if event.Some? {
      opening := opening + [event.value];
    }
    child := Some(Child(config, StatusPaused,
                        Core(s.step, transcript.value, results.value, s.world, chaos, calls, consumed), opening));
  }

  /** Finds the boundary by event number, then checks that it is still the one lineage names. */
  method SelectNamed(parent: Root, l: Lineage) returns (selected: Option<Checkpoint.Point>)
    ensures selected == Named(parent, l)
  {
    var points := Checkpoint.List(parent.db);
    if points.None? {
      return None;
    }
    Checkpoint.PointsAscend(parent.db.ledger);
    for i := 0 to |points.value|
      invariant forall j | 0 <= j < i :: |points.value[j].prefix| != |l.prefix|
    {
      var p := points.value[i];
      if |p.prefix| == |l.prefix| {
        if p.prefix != l.prefix {
          return None;
        }
        NamedIsSelected(parent, l, p);
        return Some(p);
      }
    }
    selected := None;
  }

  /** Rebuilds the child beside the rebuilt parent, from lineage and the stored run row. */
  method Restore(parent: Root, l: Lineage, child: Config, observation: Option<Observation>)
    returns (restored: Option<Child>)
    ensures restored == Reborn(parent, l, child, observation)
  {
    hide ReconstructOf, Prepare, ApplyTo, Override, Named;
    var theirs := parent.env.config;
    if theirs.provider != l.parentProvider || theirs.model != l.parentModel
       || theirs.scenario != child.scenario || theirs.task != child.task {
      return None;
    }
    var selected := SelectNamed(parent, l);
    if selected.None? {
      return None;
    }
    var target := Rebuild.RebuildAt(parent.env, parent.seed, parent.db, selected.value);
    if target.None? {
      return None;
    }
    var s := target.value;
    var consumed := s.faultConsumed && child.faultOp == theirs.faultOp;
    var event: Option<Opening> := None;
    if observation.Some? {
      event := Prepare(parent.db.ledger, selected.value, observation.value);
      if event.None? {
        return None;
      }
      PreparedIsOverride(parent.db.ledger, selected.value, observation);
    }
    var transcript := EditTranscript(s.transcript, event);
    var results := CopyResults(s.results, event);
    if transcript.None? || results.None? {
      return None;
    }
    var config, chaos, calls := child, s.chaos, s.authCalls;
    if l.chaosReplaced {
      chaos := Empty();
    } else {
      config := config.(chaosPolicy := theirs.chaosPolicy);
    }
    if l.authReplaced {
      calls := 0;
    } else {
      config := config.(authPolicy := theirs.authPolicy);
    }
    var opening := [Forked(l.parent, |selected.value.prefix|)];
    if event.Some? {
      opening := opening + [event.value];
    }
    restored := Some(Child(config, StatusPaused,
                           Core(s.step, transcript.value, results.value, s.world, chaos, calls, consumed), opening));
  }
}
