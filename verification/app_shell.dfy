/**
 * The client session (components/app-shell.tsx): the state updaters that
 * fold engine events and user actions into the aggregate `DemoState`, and the
 * session object holding that state, the active exploration and the abort
 * controller of the current run.
 *
 * Each `patchExploration` updater of the source is one value of `Update`;
 * wall-clock timestamps and random ids are parameters.
 */
module AppShell {
  import opened Types
  import opened DemoEngine
  import opened EngineProps

  // ---------------------------------------------------------------------
  // Merging a patch into an artifact (components/app-shell.tsx:52)
  // ---------------------------------------------------------------------

  /** The shallow merge `{ ...a, ...patch }`: every field the patch carries
      replaces the artifact's. */
  function Merge(a: Artifact, p: Patch): (r: Artifact)
    ensures r.id == (if p.id.Some? then p.id.value else a.id)
    ensures r.kind == (if p.kind.Some? then p.kind.value else a.kind)
    ensures r.version == (if p.version.Some? then p.version.value else a.version)
    ensures r.status == (if p.status.Some? then p.status.value else a.status)
    ensures r.data == (if p.data.Some? then p.data.value else a.data)
    ensures r.createdAt == (if p.createdAt.Some? then p.createdAt.value else a.createdAt)
  {
    Artifact(
      if p.id.Some? then p.id.value else a.id,
      if p.kind.Some? then p.kind.value else a.kind,
      if p.version.Some? then p.version.value else a.version,
      if p.status.Some? then p.status.value else a.status,
      if p.data.Some? then p.data.value else a.data,
      if p.createdAt.Some? then p.createdAt.value else a.createdAt)
  }

  /** Merging the same patch twice is merging it once. */
  lemma MergeIdempotent(a: Artifact, p: Patch)
    ensures Merge(Merge(a, p), p) == Merge(a, p)
  {
  }

  /** The lock patch changes the status only; a data patch the data only. */
  lemma MergeLockAndData(a: Artifact, d: ArtifactData)
    ensures Merge(a, LockPatch) == a.(status := Locked)
    ensures Merge(a, DataPatch(d)) == a.(data := d)
  {
  }

  /** `artifacts.map(a => a.id === id ? { ...a, ...patch } : a)`. */
  function MergeById(arts: seq<Artifact>, id: Id, p: Patch): (r: seq<Artifact>)
    ensures |r| == |arts|
    ensures forall i :: 0 <= i < |arts| && arts[i].id != id ==> r[i] == arts[i]
    ensures forall i :: 0 <= i < |arts| && arts[i].id == id ==> r[i] == Merge(arts[i], p)
  {
    if arts == [] then []
    else [if arts[0].id == id then Merge(arts[0], p) else arts[0]] + MergeById(arts[1..], id, p)
  }

  /** With no artifact of that id, the list is unchanged. */
  lemma MergeByUnknownId(arts: seq<Artifact>, id: Id, p: Patch)
    requires forall i :: 0 <= i < |arts| ==> arts[i].id != id
    ensures MergeById(arts, id, p) == arts
  {
  }

  // ---------------------------------------------------------------------
  // Updaters of one exploration (components/app-shell.tsx:47-60, 98-103)
  // ---------------------------------------------------------------------

  /** One engine event applied to its exploration at wall-clock time `now`. */
  function ApplyEvent(e: Exploration, ev: Event, now: Timestamp): (r: Exploration)
    ensures r.id == e.id && r.title == e.title && r.query == e.query && r.goal == e.goal
    ensures r.createdAt == e.createdAt && r.mode == e.mode && r.frame == e.frame
    ensures ev.ArtifactEvent? ==>
      r.artifacts == e.artifacts + [ev.artifact] && r.updatedAt == now && r.status == e.status
    ensures ev.UpdateEvent? ==>
      r.artifacts == MergeById(e.artifacts, ev.artifactId, ev.patch) && r.updatedAt == now
      && r.status == e.status
    ensures ev.DoneEvent? ==>
      r.artifacts == e.artifacts && r.updatedAt == e.updatedAt && r.status == Done
  {
    match ev
    case ArtifactEvent(a) => e.(artifacts := e.artifacts + [a], updatedAt := now)
    case UpdateEvent(id, p) => e.(artifacts := MergeById(e.artifacts, id, p), updatedAt := now)
    case DoneEvent => e.(status := Done)
  }

  /** The report artifact added to exploration `e`. */
  function ReportFor(e: Exploration, reportId: Id, now: Timestamp): Artifact
  {
    Artifact(reportId, Report, 1, Locked, ReportData("Report for " + e.title), now)
  }

  /** The updaters the session passes to `patchExploration`. */
  datatype Update =
    | Apply(ev: Event, now: Timestamp)
    | MarkPaused
    | AppendReport(reportId: Id, now: Timestamp)

  function Updated(e: Exploration, u: Update): (r: Exploration)
    ensures r.id == e.id
    ensures u.MarkPaused? ==> r == e.(status := Paused)
    ensures u.AppendReport? ==>
      r == e.(artifacts := e.artifacts + [ReportFor(e, u.reportId, u.now)])
  {
    match u
    case Apply(ev, now) => ApplyEvent(e, ev, now)
    case MarkPaused => e.(status := Paused)
    case AppendReport(reportId, now) => e.(artifacts := e.artifacts + [ReportFor(e, reportId, now)])
  }

  /** `patchExploration(id, updater)`: every exploration with that id is
      updated, every other one kept, in the same order. */
  function PatchExplorations(exps: seq<Exploration>, id: Id, u: Update): (r: seq<Exploration>)
    ensures |r| == |exps|
    ensures forall i :: 0 <= i < |exps| && exps[i].id != id ==> r[i] == exps[i]
    ensures forall i :: 0 <= i < |exps| && exps[i].id == id ==> r[i] == Updated(exps[i], u)
    ensures forall i :: 0 <= i < |exps| ==> r[i].id == exps[i].id
  {
    if exps == [] then []
    else [if exps[0].id == id then Updated(exps[0], u) else exps[0]] + PatchExplorations(exps[1..], id, u)
  }

  /** An unknown id leaves the list unchanged. */
  lemma PatchUnknownId(exps: seq<Exploration>, id: Id, u: Update)
    requires forall i :: 0 <= i < |exps| ==> exps[i].id != id
    ensures PatchExplorations(exps, id, u) == exps
  {
  }

  /** Updates of two different explorations commute, so the events of two
      runs may interleave in any order. */
  lemma PatchCommute(exps: seq<Exploration>, id1: Id, u1: Update, id2: Id, u2: Update)
    requires id1 != id2
    ensures PatchExplorations(PatchExplorations(exps, id1, u1), id2, u2)
         == PatchExplorations(PatchExplorations(exps, id2, u2), id1, u1)
  {
  }

  /** Prepending an exploration of another id commutes with a patch. */
  lemma PatchPrepend(x: Exploration, exps: seq<Exploration>, id: Id, u: Update)
    requires x.id != id
    ensures PatchExplorations([x] + exps, id, u) == [x] + PatchExplorations(exps, id, u)
  {
  }

  // ---------------------------------------------------------------------
  // Folding a run into its exploration
  // ---------------------------------------------------------------------

  /** The exploration after the events `evs`, the i-th applied at `clock[i]`. */
  function FoldRun(e: Exploration, evs: seq<Event>, clock: seq<Timestamp>): (r: Exploration)
    requires |clock| >= |evs|
    ensures r.id == e.id && r.title == e.title && r.query == e.query && r.mode == e.mode
  {
    if evs == [] then e
    else ApplyEvent(FoldRun(e, evs[..|evs| - 1], clock), evs[|evs| - 1], clock[|evs| - 1])
  }

  /** What `onSubmit` leaves once the loop ends: paused when the pipeline
      threw. */
  function Settled(e: Exploration, outcome: RunOutcome): (r: Exploration)
    ensures outcome == Aborted ==> r.status == Paused
    ensures outcome == Finished ==> r == e
    ensures r.(status := e.status) == e
  {
    if outcome == Aborted then e.(status := Paused) else e
  }

  /** Replaying `evs` on the list, one `patchExploration` per event. */
  function Replay(exps: seq<Exploration>, id: Id, evs: seq<Event>, clock: seq<Timestamp>): (r: seq<Exploration>)
    requires |clock| >= |evs|
    ensures |r| == |exps|
  {
    if evs == [] then exps
    else PatchExplorations(Replay(exps, id, evs[..|evs| - 1], clock), id, Apply(evs[|evs| - 1], clock[|evs| - 1]))
  }

  /** Replaying a run on the list folds it into each exploration of that id
      and leaves the others alone. */
  lemma {:induction false} ReplayAt(exps: seq<Exploration>, id: Id, evs: seq<Event>, clock: seq<Timestamp>)
    requires |clock| >= |evs|
    ensures forall i :: 0 <= i < |exps| ==>
      Replay(exps, id, evs, clock)[i] == (if exps[i].id == id then FoldRun(exps[i], evs, clock) else exps[i])
  {
    if evs != [] {
      ReplayAt(exps, id, evs[..|evs| - 1], clock);
    }
  }

  /** The list after the `try`/`catch` of `onSubmit`: the run replayed,
      then its exploration marked paused when the pipeline threw. */
  function SettleRun(exps: seq<Exploration>, id: Id, evs: seq<Event>, clock: seq<Timestamp>,
                     outcome: RunOutcome): seq<Exploration>
    requires |clock| >= |evs|
  {
    var after := Replay(exps, id, evs, clock);
    if outcome == Aborted then PatchExplorations(after, id, MarkPaused) else after
  }

  /** Replaying a run and marking it paused when it threw settles the run's
      exploration and leaves the others alone. */
  lemma SettleReplay(exps: seq<Exploration>, id: Id, evs: seq<Event>, clock: seq<Timestamp>, outcome: RunOutcome)
    requires |clock| >= |evs|
    ensures var fin := SettleRun(exps, id, evs, clock, outcome);
      && |fin| == |exps|
      && (forall i :: 0 <= i < |exps| ==>
            fin[i] == (if exps[i].id == id then Settled(FoldRun(exps[i], evs, clock), outcome) else exps[i]))
  {
    ReplayAt(exps, id, evs, clock);
  }

  // ---------------------------------------------------------------------
  // Updaters of the aggregate (components/app-shell.tsx:39, 66-68, 96)
  // ---------------------------------------------------------------------

  /** What the chat surface passes to `saveFuture`. */
  datatype FutureDraft = FutureDraft(
    explorationId: Id, scenarioId: Id, title: string, brief: string, tags: seq<string>)

  /** Saving a future prepends it, with its new id and time, and keeps the
      saved ones in order. */
  function PrependFuture(s: DemoState, f: FutureDraft, id: Id, now: Timestamp): (r: DemoState)
    ensures |r.preferableFutures| == |s.preferableFutures| + 1
    ensures r.preferableFutures[1..] == s.preferableFutures
    ensures var g := r.preferableFutures[0];
      g.id == id && g.createdAt == now && g.explorationId == f.explorationId
      && g.scenarioId == f.scenarioId && g.title == f.title && g.brief == f.brief && g.tags == f.tags
    ensures r.explorations == s.explorations && r.signalSelections == s.signalSelections
  {
    var g := PreferableFuture(id, f.explorationId, f.scenarioId, f.title, f.brief, f.tags, now);
    s.(preferableFutures := [g] + s.preferableFutures)
  }

  /** Recording a signal action sets that key and no other. */
  function RecordSignal(s: DemoState, id: Id, action: SignalAction): (r: DemoState)
    ensures id in r.signalSelections && r.signalSelections[id] == action
    ensures forall k :: k != id ==>
      (k in r.signalSelections <==> k in s.signalSelections)
      && (k in s.signalSelections ==> r.signalSelections[k] == s.signalSelections[k])
    ensures r.explorations == s.explorations && r.preferableFutures == s.preferableFutures
  {
    s.(signalSelections := s.signalSelections[id := action])
  }

  /** Repeating an action changes nothing; a later action on the same signal
      replaces an earlier one. */
  lemma RecordSignalIdempotent(s: DemoState, id: Id, a: SignalAction, b: SignalAction)
    ensures RecordSignal(RecordSignal(s, id, a), id, a) == RecordSignal(s, id, a)
    ensures RecordSignal(RecordSignal(s, id, a), id, b) == RecordSignal(s, id, b)
  {
  }

  /** The active exploration: the first one whose id is `activeId`. */
  function Active(s: DemoState, activeId: Option<Id>): (r: Option<Exploration>)
    ensures r.Some? <==> activeId.Some? && exists i :: 0 <= i < |s.explorations| && s.explorations[i].id == activeId.value
    ensures r.Some? ==> r.value.id == activeId.value
    ensures r.Some? ==> exists i :: 0 <= i < |s.explorations| && s.explorations[i] == r.value &&
                          forall j :: 0 <= j < i ==> s.explorations[j].id != activeId.value
  {
    if activeId.None? then None else Find(s.explorations, activeId.value)
  }

  /** `explorations.find(e => e.id === id)`. */
  function Find(exps: seq<Exploration>, id: Id): (r: Option<Exploration>)
    ensures r.Some? <==> exists i :: 0 <= i < |exps| && exps[i].id == id
    ensures r.Some? ==> exists i :: 0 <= i < |exps| && exps[i] == r.value && exps[i].id == id &&
                          (forall j :: 0 <= j < i ==> exps[j].id != id)
  {
    if exps == [] then None
    else if exps[0].id == id then Some(exps[0])
    else
      var r := Find(exps[1..], id);
      assert forall i :: 0 < i < |exps| ==> exps[i] == exps[1..][i - 1];
      r
  }

  /** A new submission's state update: the exploration goes first. */
  function Prepend(s: DemoState, e: Exploration): (r: DemoState)
    ensures |r.explorations| == |s.explorations| + 1
    ensures r.explorations[0] == e && r.explorations[1..] == s.explorations
    ensures r.preferableFutures == s.preferableFutures && r.signalSelections == s.signalSelections
  {
    s.(explorations := [e] + s.explorations)
  }

  // ---------------------------------------------------------------------
  // The session (components/app-shell.tsx:13-109)
  // ---------------------------------------------------------------------

  /** The browser's `AbortController`, reduced to whether it was aborted. */
  class AbortController {
    var aborted: bool

    constructor ()
      ensures !aborted
    {
      aborted := false;
    }

    method Abort()
      modifies this
      ensures aborted
    {
      aborted := true;
    }
  }

  class Session {
    var state: DemoState
    var activeId: Option<Id>
    var controller: AbortController?
    /** The controllers the session installed and later replaced. */
    ghost var retired: set<AbortController>

    /** At most one controller is current: the latest one installed; all
        earlier ones have been aborted. */
    ghost predicate Valid()
      reads this, retired
    {
      && (controller != null ==> controller !in retired)
      && forall c :: c in retired ==> c.aborted
    }

    /** The first render and the load effect (components/app-shell.tsx:14-24):
        the stored state, or the defaults, with its first exploration active. */
    constructor (loaded: DemoState)
      ensures Valid() && fresh(this)
      ensures state == loaded && controller == null
      ensures activeId == (if loaded.explorations == [] then None else Some(loaded.explorations[0].id))
    {
      state := loaded;
      activeId := if loaded.explorations == [] then None else Some(loaded.explorations[0].id);
      controller := null;
      retired := {};
    }

    /** The start of `onSubmit` (components/app-shell.tsx:38-43): prepend and
        activate the new exploration, abort the stored controller, then
        install a fresh one. */
    method Start(query: string, mode: Mode, id: Id, now: Timestamp)
      returns (exploration: Exploration, current: AbortController)
      requires Valid()
      modifies this, controller
      ensures Valid()
      ensures exploration == CreateExploration(query, mode, id, now)
      ensures state == Prepend(old(state), exploration) && activeId == Some(id)
      ensures old(controller) != null ==> old(controller).aborted
      ensures fresh(current) && !current.aborted && controller == current
      ensures retired == old(retired) + (if old(controller) == null then {} else {old(controller)})
    {
      exploration := CreateExploration(query, mode, id, now);
      state := Prepend(state, exploration);
      activeId := Some(id);
      if controller != null {
        controller.Abort();
      }
      retired := retired + (if controller == null then {} else {controller});
      current := new AbortController();
      controller := current;
    }

    /** `onSubmit`: start, run the pipeline, fold each event into the new
        exploration at `clock[i]`, and mark it paused if the pipeline threw.
        `abortAt` is the sleep during which `stopRun` aborts this run's
        controller, if any. */
    method OnSubmit(query: string, mode: Mode, id: Id, now: Timestamp,
                    ids: seq<Id>, stamps: seq<Timestamp>, clock: seq<Timestamp>,
                    abortAt: Option<nat>)
      returns (events: seq<Event>, outcome: RunOutcome)
      requires Valid() && Supplies(ids, stamps) && |clock| >= 20
      modifies this, controller
      ensures Valid()
      ensures |events| <= 20
      ensures var e0 := CreateExploration(query, mode, id, now);
        && events == Events(Cut(Script(e0, ids, stamps), abortAt))
        && (outcome == Aborted <==> Aborts(abortAt))
      ensures state == old(state).(explorations :=
        SettleRun([CreateExploration(query, mode, id, now)] + old(state.explorations), id, events, clock, outcome))
      ensures activeId == Some(id)
      ensures old(controller) != null ==> old(controller).aborted
      ensures controller != null && fresh(controller) && (controller.aborted <==> outcome == Aborted)
      ensures retired == old(retired) + (if old(controller) == null then {} else {old(controller)})
    {
      var exploration, current := Start(query, mode, id, now);
      assert state.explorations == [exploration] + old(state.explorations);
      events, outcome := Run(exploration, ids, stamps, clock, abortAt);
    }

    /** The `try` of `onSubmit` after the start: run the pipeline for the
        new exploration under the fresh controller and consume its events.
        An abort is `stopRun` pressed during the sleep `abortAt`: it aborts
        this controller, and the pipeline throws. */
    method Run(exploration: Exploration, ids: seq<Id>, stamps: seq<Timestamp>, clock: seq<Timestamp>,
               abortAt: Option<nat>)
      returns (events: seq<Event>, outcome: RunOutcome)
      requires Valid() && Supplies(ids, stamps) && |clock| >= 20
      requires controller != null && !controller.aborted
      modifies this, controller
      ensures Valid()
      ensures |events| <= 20
      ensures events == Events(Cut(Script(exploration, ids, stamps), abortAt))
      ensures outcome == Aborted <==> Aborts(abortAt)
      ensures state == old(state).(explorations :=
        SettleRun(old(state.explorations), exploration.id, events, clock, outcome))
      ensures activeId == old(activeId) && controller == old(controller) && retired == old(retired)
      ensures controller.aborted <==> outcome == Aborted
    {
      events, outcome := RunDemoPipeline(exploration, ids, stamps, abortAt);
      PipelineLength(exploration, ids, stamps, abortAt);
      Settle(exploration.id, events, outcome, clock);
    }

    /** What follows the pipeline's end: a stopped run's controller was
        aborted by `stopRun`, and the events and the outcome are consumed. */
    method Settle(id: Id, events: seq<Event>, outcome: RunOutcome, clock: seq<Timestamp>)
      requires Valid() && |clock| >= |events|
      requires controller != null && !controller.aborted
      modifies this, controller
      ensures Valid()
      ensures state == old(state).(explorations := SettleRun(old(state.explorations), id, events, clock, outcome))
      ensures activeId == old(activeId) && controller == old(controller) && retired == old(retired)
      ensures controller.aborted <==> outcome == Aborted
    {
      if outcome == Aborted {
        Stop();
      }
      Consume(id, events, outcome, clock);
    }

    /** The `try`/`catch` of `onSubmit` once the pipeline's events and its
        outcome are known: fold every event into exploration `id`, then mark
        it paused if the pipeline threw. */
    method Consume(id: Id, events: seq<Event>, outcome: RunOutcome, clock: seq<Timestamp>)
      requires Valid() && |clock| >= |events|
      modifies this
      ensures Valid()
      ensures state == old(state).(explorations := SettleRun(old(state.explorations), id, events, clock, outcome))
      ensures activeId == old(activeId) && controller == old(controller) && retired == old(retired)
    {
      FoldEvents(id, events, clock);
      if outcome == Aborted {
        MarkRunPaused(id);
      }
    }

    /** The `catch` of `onSubmit`: the run's exploration becomes paused. */
    method MarkRunPaused(id: Id)
      requires Valid()
      modifies this
      ensures Valid()
      ensures state == old(state).(explorations := PatchExplorations(old(state.explorations), id, MarkPaused))
      ensures activeId == old(activeId) && controller == old(controller) && retired == old(retired)
    {
      state := state.(explorations := PatchExplorations(state.explorations, id, MarkPaused));
    }

    /** The `for await` loop of `onSubmit` (components/app-shell.tsx:46-58):
        each event patches exploration `id` at its clock reading. */
    method FoldEvents(id: Id, events: seq<Event>, clock: seq<Timestamp>)
      requires Valid() && |clock| >= |events|
      modifies this
      ensures Valid()
      ensures state == old(state).(explorations := Replay(old(state.explorations), id, events, clock))
      ensures activeId == old(activeId) && controller == old(controller) && retired == old(retired)
    {
      ghost var before := state.explorations;
      for i := 0 to |events|
        invariant Valid()
        invariant state == old(state).(explorations := Replay(before, id, events[..i], clock))
        invariant activeId == old(activeId) && controller == old(controller) && retired == old(retired)
      {
        assert events[..i + 1][..i] == events[..i];
        state := state.(explorations := PatchExplorations(state.explorations, id, Apply(events[i], clock[i])));
      }
      assert events[..|events|] == events;
    }

    /** `stopRun`: abort the current controller, if any. */
    method Stop()
      requires Valid()
      modifies controller
      ensures Valid()
      ensures controller != null ==> controller.aborted
    {
      if controller != null {
        controller.Abort();
      }
    }

    method SaveFuture(f: FutureDraft, id: Id, now: Timestamp)
      requires Valid()
      modifies this
      ensures Valid()
      ensures state == PrependFuture(old(state), f, id, now)
      ensures activeId == old(activeId) && controller == old(controller) && retired == old(retired)
    {
      state := PrependFuture(state, f, id, now);
    }

    method SignalAction(id: Id, action: SignalAction)
      requires Valid()
      modifies this
      ensures Valid()
      ensures state == RecordSignal(old(state), id, action)
      ensures activeId == old(activeId) && controller == old(controller) && retired == old(retired)
    {
      state := RecordSignal(state, id, action);
    }

    /** `onAddReport`: when the active exploration is in the list, append a
        locked report to every exploration of its id; otherwise nothing. */
    method AddReport(reportId: Id, now: Timestamp)
      requires Valid()
      modifies this
      ensures Valid()
      ensures var active := Active(old(state), old(activeId));
        active.Some? ==> state == old(state).(explorations :=
                           PatchExplorations(old(state.explorations), active.value.id, AppendReport(reportId, now)))
      ensures Active(old(state), old(activeId)).None? ==> state == old(state)
      ensures activeId == old(activeId) && controller == old(controller) && retired == old(retired)
    {
      var active := Active(state, activeId);
      if active.Some? {
        state := state.(explorations := PatchExplorations(state.explorations, active.value.id, AppendReport(reportId, now)));
      }
    }

    /** `onReset`: back to the defaults with nothing active. */
    method Reset()
      requires Valid()
      modifies this
      ensures Valid()
      ensures state == DefaultState && activeId == None
      ensures controller == old(controller) && retired == old(retired)
    {
      state := DefaultState;
      activeId := None;
    }
  }

  /** A run's events never outnumber the clock readings one full run needs. */
  lemma PipelineLength(e: Exploration, ids: seq<Id>, stamps: seq<Timestamp>, abortAt: Option<nat>)
    requires Supplies(ids, stamps)
    ensures |Events(Cut(Script(e, ids, stamps), abortAt))| <= 20
  {
    assert |FullRun(e, ids, stamps)| == 20;
    PauseCounts(e, ids, stamps);
    if abortAt.Some? && abortAt.value < SleepsPerRun {
      CancelledIsStrictPrefix(e, ids, stamps, abortAt.value);
    } else {
      CutWhole(Script(e, ids, stamps), abortAt);
      ScriptEvents(e, ids, stamps);
    }
  }
}
