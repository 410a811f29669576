/**
 * What a run of the pipeline (lib/demo-engine.ts:49-133) emits: the full
 * event sequence in closed form, the order and number of artifacts and
 * updates, the growth of the signals list, the status every artifact is
 * created with, that every update targets a live artifact, and what a run
 * cancelled at one of its sleeps emits.
 */
module EngineProps {
  import opened Types
  import opened DemoEngine

  /** The events of an uninterrupted run: the opening, eight patches and
      the closing, 20 events. */
  function FullRun(e: Exploration, ids: seq<Id>, stamps: seq<Timestamp>): (r: seq<Event>)
    requires Supplies(ids, stamps)
    ensures |r| == 20
  {
    OpeningEvents(e, ids, stamps) + PatchEvents(ids, SignalCount) + ClosingEvents(ids, stamps)
  }

  /** The events of a run whose signal is aborted during its k-th sleep. */
  function CancelledRun(e: Exploration, ids: seq<Id>, stamps: seq<Timestamp>, k: nat): seq<Event>
    requires Supplies(ids, stamps)
  {
    Events(CutAt(Script(e, ids, stamps), k))
  }

  // ---------------------------------------------------------------------
  // Closed form of a full run
  // ---------------------------------------------------------------------

  function OpeningEvents(e: Exploration, ids: seq<Id>, stamps: seq<Timestamp>): (r: seq<Event>)
    requires Supplies(ids, stamps)
    ensures |r| == 7
  {
    [ ArtifactEvent(ClarifyArtifact(e, ids, stamps)),
      ArtifactEvent(FrameArtifact(e, ids, stamps)),
      UpdateEvent(ids[1], LockPatch),
      ArtifactEvent(StakeholdersArtifact(ids, stamps)),
      ArtifactEvent(PersonasArtifact(ids, stamps)),
      ArtifactEvent(CollectionPlanArtifact(ids, stamps)),
      ArtifactEvent(SignalsArtifact(ids, stamps)) ]
  }

  /** The first `n` signals patches. */
  function PatchEvents(ids: seq<Id>, n: nat): (r: seq<Event>)
    requires n <= SignalCount && |ids| >= IdsPerRun
    ensures |r| == n
  {
    if n == 0 then [] else PatchEvents(ids, n - 1) + [SignalPatch(ids, n)]
  }

  function ClosingEvents(ids: seq<Id>, stamps: seq<Timestamp>): (r: seq<Event>)
    requires Supplies(ids, stamps)
    ensures |r| == 5
  {
    [ UpdateEvent(ids[5], LockPatch),
      ArtifactEvent(HorizonScanArtifact(ids, stamps)),
      ArtifactEvent(ScenariosArtifact(ids, stamps)),
      ArtifactEvent(SimulationArtifact(ids, stamps)),
      DoneEvent ]
  }

  lemma PrologueEvents(e: Exploration, ids: seq<Id>, stamps: seq<Timestamp>)
    requires Supplies(ids, stamps)
    ensures Events(Prologue(e, ids, stamps)) == OpeningEvents(e, ids, stamps)
  {
    var p := Prologue(e, ids, stamps);
    var o := OpeningEvents(e, ids, stamps);
    assert p[..0] == [];
    EmitStep(p, 0, o[0]); PauseStep(p, 1); EmitStep(p, 2, o[1]); PauseStep(p, 3);
    EmitStep(p, 4, o[2]); PauseStep(p, 5); EmitStep(p, 6, o[3]); PauseStep(p, 7);
    EmitStep(p, 8, o[4]); PauseStep(p, 9); EmitStep(p, 10, o[5]); EmitStep(p, 11, o[6]);
    assert Events(p[..12]) == o[..7];
  }

  lemma EpilogueEvents(ids: seq<Id>, stamps: seq<Timestamp>)
    requires Supplies(ids, stamps)
    ensures Events(Epilogue(ids, stamps)) == ClosingEvents(ids, stamps)
  {
    var q := Epilogue(ids, stamps);
    var c := ClosingEvents(ids, stamps);
    assert q[..0] == [];
    EmitStep(q, 0, c[0]); PauseStep(q, 1); EmitStep(q, 2, c[1]); PauseStep(q, 3);
    EmitStep(q, 4, c[2]); PauseStep(q, 5); EmitStep(q, 6, c[3]); EmitStep(q, 7, c[4]);
    assert Events(q[..8]) == c[..5];
  }

  /** The loop's events do not depend on the seed: the delays only time them. */
  lemma {:induction false} LoopEvents(h0: nat, ids: seq<Id>, n: nat)
    requires n <= SignalCount && |ids| >= IdsPerRun
    ensures Events(SignalLoop(h0, ids, n)) == PatchEvents(ids, n)
  {
    if n > 0 {
      LoopEvents(h0, ids, n - 1);
      CountsAppend(SignalLoop(h0, ids, n - 1),
                   [Pause(Delay(LcgIter(h0, n))), Emit(SignalPatch(ids, n))]);
      IterationCounts(Delay(LcgIter(h0, n)), SignalPatch(ids, n));
    }
  }

  lemma ScriptEvents(e: Exploration, ids: seq<Id>, stamps: seq<Timestamp>)
    requires Supplies(ids, stamps)
    ensures Events(Script(e, ids, stamps)) == FullRun(e, ids, stamps)
  {
    var p, l, q := Prologue(e, ids, stamps), SignalLoop(SeedHash(e.query), ids, SignalCount), Epilogue(ids, stamps);
    PrologueEvents(e, ids, stamps);
    LoopEvents(SeedHash(e.query), ids, SignalCount);
    EpilogueEvents(ids, stamps);
    CountsAppend(l, q);
    CountsAppend(p, l + q);
  }

  lemma {:induction false} PatchAt(ids: seq<Id>, n: nat, i: nat)
    requires i < n <= SignalCount && |ids| >= IdsPerRun
    ensures PatchEvents(ids, n)[i] == SignalPatch(ids, i + 1)
  {
    if i < n - 1 {
      PatchAt(ids, n - 1, i);
    }
  }

  lemma {:induction false} PatchPrefix(ids: seq<Id>, m: nat, n: nat)
    requires m <= n <= SignalCount && |ids| >= IdsPerRun
    ensures PatchEvents(ids, n)[..m] == PatchEvents(ids, m)
    decreases n
  {
    if m < n {
      PatchPrefix(ids, m, n - 1);
      assert PatchEvents(ids, n)[..n - 1] == PatchEvents(ids, n - 1);
    }
  }

  /** Position by position, with the index of each section. */
  lemma FullRunAt(e: Exploration, ids: seq<Id>, stamps: seq<Timestamp>, i: nat)
    requires Supplies(ids, stamps) && i < 20
    ensures i < 7 ==> FullRun(e, ids, stamps)[i] == OpeningEvents(e, ids, stamps)[i]
    ensures 7 <= i < 15 ==> FullRun(e, ids, stamps)[i] == SignalPatch(ids, i - 6)
    ensures 15 <= i ==> FullRun(e, ids, stamps)[i] == ClosingEvents(ids, stamps)[i - 15]
  {
    var o, p, c := OpeningEvents(e, ids, stamps), PatchEvents(ids, SignalCount), ClosingEvents(ids, stamps);
    assert |o| == 7 && |c| == 5;
    if i < 7 {
      assert (o + p + c)[i] == o[i];
    } else if i < 15 {
      assert (o + p + c)[i] == p[i - 7];
      PatchAt(ids, SignalCount, i - 7);
    } else {
      assert (o + p + c)[i] == c[i - 15];
    }
  }

  // ---------------------------------------------------------------------
  // Selecting events
  // ---------------------------------------------------------------------

  /** The concatenation of `f` over `evs`, in order. */
  function Pick<T>(evs: seq<Event>, f: Event -> seq<T>): seq<T>
  {
    if evs == [] then [] else Pick(evs[..|evs| - 1], f) + f(evs[|evs| - 1])
  }

  lemma {:induction false} PickAppend<T>(a: seq<Event>, b: seq<Event>, f: Event -> seq<T>)
    ensures Pick(a + b, f) == Pick(a, f) + Pick(b, f)
    decreases |b|
  {
    if b == [] {
      assert a + b == a;
    } else {
      assert (a + b)[..|a + b| - 1] == a + b[..|b| - 1];
      PickAppend(a, b[..|b| - 1], f);
    }
  }

  lemma PickStep<T>(evs: seq<Event>, n: nat, f: Event -> seq<T>)
    requires n < |evs|
    ensures Pick(evs[..n + 1], f) == Pick(evs[..n], f) + f(evs[n])
  {
    assert evs[..n + 1][..n] == evs[..n];
  }

  lemma PickOpening<T>(e: Exploration, ids: seq<Id>, stamps: seq<Timestamp>, f: Event -> seq<T>)
    requires Supplies(ids, stamps)
    ensures var o := OpeningEvents(e, ids, stamps);
      Pick(o, f) == f(o[0]) + f(o[1]) + f(o[2]) + f(o[3]) + f(o[4]) + f(o[5]) + f(o[6])
  {
    var o := OpeningEvents(e, ids, stamps);
    assert o[..0] == [];
    PickStep(o, 0, f); PickStep(o, 1, f); PickStep(o, 2, f); PickStep(o, 3, f);
    PickStep(o, 4, f); PickStep(o, 5, f); PickStep(o, 6, f);
    assert o[..7] == o;
  }

  lemma PickClosing<T>(ids: seq<Id>, stamps: seq<Timestamp>, f: Event -> seq<T>)
    requires Supplies(ids, stamps)
    ensures var c := ClosingEvents(ids, stamps);
      Pick(c, f) == f(c[0]) + f(c[1]) + f(c[2]) + f(c[3]) + f(c[4])
  {
    var c := ClosingEvents(ids, stamps);
    assert c[..0] == [];
    PickStep(c, 0, f); PickStep(c, 1, f); PickStep(c, 2, f); PickStep(c, 3, f);
    PickStep(c, 4, f);
    assert c[..5] == c;
  }

  function KindOf(ev: Event): seq<ArtifactType>
  {
    if ev.ArtifactEvent? then [ev.artifact.kind] else []
  }

  function IdOf(ev: Event): seq<Id>
  {
    if ev.ArtifactEvent? then [ev.artifact.id] else []
  }

  function UpdateOf(ev: Event): seq<Event>
  {
    if ev.UpdateEvent? then [ev] else []
  }

  /** The types of the artifacts emitted, in order. */
  function Kinds(evs: seq<Event>): seq<ArtifactType>
  {
    Pick(evs, KindOf)
  }

  /** The ids of the artifacts emitted, in order. */
  function ArtifactIds(evs: seq<Event>): seq<Id>
  {
    Pick(evs, IdOf)
  }

  /** The update events, in order. */
  function Updates(evs: seq<Event>): seq<Event>
  {
    Pick(evs, UpdateOf)
  }

  const PipelineOrder: seq<ArtifactType> :=
    [Clarify, Frame, Stakeholders, Personas, CollectionPlan, Signals, HorizonScan, Scenarios, Simulation]

  lemma {:induction false} PatchesSelect(ids: seq<Id>, n: nat)
    requires n <= SignalCount && |ids| >= IdsPerRun
    ensures Kinds(PatchEvents(ids, n)) == []
    ensures ArtifactIds(PatchEvents(ids, n)) == []
    ensures Updates(PatchEvents(ids, n)) == PatchEvents(ids, n)
  {
    if n > 0 {
      PatchesSelect(ids, n - 1);
      PickAppend(PatchEvents(ids, n - 1), [SignalPatch(ids, n)], KindOf);
      PickAppend(PatchEvents(ids, n - 1), [SignalPatch(ids, n)], IdOf);
      PickAppend(PatchEvents(ids, n - 1), [SignalPatch(ids, n)], UpdateOf);
      assert [SignalPatch(ids, n)][..0] == [];
    }
  }

  lemma OpeningSelect(e: Exploration, ids: seq<Id>, stamps: seq<Timestamp>)
    requires Supplies(ids, stamps)
    ensures Kinds(OpeningEvents(e, ids, stamps)) == PipelineOrder[..6]
    ensures ArtifactIds(OpeningEvents(e, ids, stamps)) == [ids[0], ids[1], ids[2], ids[3], ids[4], ids[5]]
    ensures Updates(OpeningEvents(e, ids, stamps)) == [UpdateEvent(ids[1], LockPatch)]
  {
    PickOpening(e, ids, stamps, KindOf);
    PickOpening(e, ids, stamps, IdOf);
    PickOpening(e, ids, stamps, UpdateOf);
  }

  lemma ClosingSelect(ids: seq<Id>, stamps: seq<Timestamp>)
    requires Supplies(ids, stamps)
    ensures Kinds(ClosingEvents(ids, stamps)) == PipelineOrder[6..]
    ensures ArtifactIds(ClosingEvents(ids, stamps)) == [ids[14], ids[18], ids[19]]
    ensures Updates(ClosingEvents(ids, stamps)) == [UpdateEvent(ids[5], LockPatch)]
  {
    PickClosing(ids, stamps, KindOf);
    PickClosing(ids, stamps, IdOf);
    PickClosing(ids, stamps, UpdateOf);
  }

  lemma PickThree<T>(a: seq<Event>, b: seq<Event>, c: seq<Event>, f: Event -> seq<T>)
    ensures Pick(a + b + c, f) == Pick(a, f) + Pick(b, f) + Pick(c, f)
  {
    PickAppend(a, b, f);
    PickAppend(a + b, c, f);
  }

  /** A full run emits nine artifacts, in pipeline order. */
  lemma FullRunArtifacts(e: Exploration, ids: seq<Id>, stamps: seq<Timestamp>)
    requires Supplies(ids, stamps)
    ensures Kinds(FullRun(e, ids, stamps)) == PipelineOrder
    ensures ArtifactIds(FullRun(e, ids, stamps)) ==
      [ids[0], ids[1], ids[2], ids[3], ids[4], ids[5], ids[14], ids[18], ids[19]]
  {
    var o, p, c := OpeningEvents(e, ids, stamps), PatchEvents(ids, SignalCount), ClosingEvents(ids, stamps);
    PatchesSelect(ids, SignalCount);
    OpeningSelect(e, ids, stamps);
    ClosingSelect(ids, stamps);
    PickThree(o, p, c, KindOf);
    PickThree(o, p, c, IdOf);
  }

  /** With fresh ids, the nine artifacts of a run have distinct ids. */
  lemma FullRunIdsDistinct(e: Exploration, ids: seq<Id>, stamps: seq<Timestamp>)
    requires Supplies(ids, stamps) && Distinct(ids[..IdsPerRun])
    ensures Distinct(ArtifactIds(FullRun(e, ids, stamps)))
  {
    FullRunArtifacts(e, ids, stamps);
    var a := ArtifactIds(FullRun(e, ids, stamps));
    var pos := [0, 1, 2, 3, 4, 5, 14, 18, 19];
    forall i, j | 0 <= i < j < 9 ensures a[i] != a[j] {
      assert a[i] == ids[..IdsPerRun][pos[i]] && a[j] == ids[..IdsPerRun][pos[j]];
    }
  }

  /** A full run emits ten updates: the frame lock, the eight signals patches,
      then the signals lock. */
  lemma FullRunUpdates(e: Exploration, ids: seq<Id>, stamps: seq<Timestamp>)
    requires Supplies(ids, stamps)
    ensures Updates(FullRun(e, ids, stamps)) ==
      [UpdateEvent(ids[1], LockPatch)] + PatchEvents(ids, SignalCount) + [UpdateEvent(ids[5], LockPatch)]
    ensures |Updates(FullRun(e, ids, stamps))| == 10
  {
    var o, p, c := OpeningEvents(e, ids, stamps), PatchEvents(ids, SignalCount), ClosingEvents(ids, stamps);
    PatchesSelect(ids, SignalCount);
    OpeningSelect(e, ids, stamps);
    ClosingSelect(ids, stamps);
    PickThree(o, p, c, UpdateOf);
  }

  /** `done` is the last event of a full run and occurs nowhere else. */
  lemma FullRunDone(e: Exploration, ids: seq<Id>, stamps: seq<Timestamp>)
    requires Supplies(ids, stamps)
    ensures var r := FullRun(e, ids, stamps);
      r[|r| - 1] == DoneEvent && forall i :: 0 <= i < |r| - 1 ==> !r[i].DoneEvent?
  {
    var r := FullRun(e, ids, stamps);
    forall i | 0 <= i < |r| ensures r[i].DoneEvent? <==> i == 19 {
      FullRunAt(e, ids, stamps, i);
    }
  }

  // ---------------------------------------------------------------------
  // The signals list and the created artifacts
  // ---------------------------------------------------------------------

  /** The item list carried by the k-th signals patch. */
  function PatchItems(ids: seq<Id>, k: nat): seq<SignalItem>
    requires 1 <= k <= SignalCount && |ids| >= IdsPerRun
  {
    SignalPatch(ids, k).patch.data.value.items
  }

  lemma {:induction false} ItemsPrefix(ids: seq<Id>, m: nat, n: nat)
    requires m <= n <= SignalCount && |ids| >= IdsPerRun
    ensures Items(ids, n)[..m] == Items(ids, m)
    decreases n
  {
    if m < n {
      ItemsPrefix(ids, m, n - 1);
      assert Items(ids, n)[..n - 1] == Items(ids, n - 1);
    }
  }

  /** The k-th patch targets the signals artifact and carries k items, the
      i-th of them numbered i+1; each list extends the previous one. */
  lemma SignalsGrow(ids: seq<Id>, stamps: seq<Timestamp>, k: nat)
    requires Supplies(ids, stamps) && 1 <= k <= SignalCount
    ensures SignalPatch(ids, k).artifactId == SignalsArtifact(ids, stamps).id
    ensures |PatchItems(ids, k)| == k
    ensures forall i :: 0 <= i < k ==> PatchItems(ids, k)[i].ordinal == i + 1
    ensures k > 1 ==> PatchItems(ids, k - 1) < PatchItems(ids, k)
  {
    forall i | 0 <= i < k ensures PatchItems(ids, k)[i].ordinal == i + 1 {
      ItemsPrefix(ids, i + 1, k);
      assert PatchItems(ids, k)[i] == Items(ids, i + 1)[i];
    }
    if k > 1 {
      ItemsPrefix(ids, k - 1, k);
    }
  }

  /** The eighth patch is followed directly by the signals lock. */
  lemma SignalsLockFollows(e: Exploration, ids: seq<Id>, stamps: seq<Timestamp>)
    requires Supplies(ids, stamps)
    ensures var r := FullRun(e, ids, stamps);
      r[14] == SignalPatch(ids, SignalCount) && r[15] == UpdateEvent(SignalsArtifact(ids, stamps).id, LockPatch)
  {
    var r := FullRun(e, ids, stamps);
    assert r[14] == PatchEvents(ids, SignalCount)[7];
    PatchAt(ids, SignalCount, 7);
    assert r[15] == ClosingEvents(ids, stamps)[0];
  }

  /** How the source creates each artifact: version 1; the frame as a draft
      exactly in manual mode and otherwise streaming, carrying the
      exploration's frame; the signals artifact streaming with no items;
      every other artifact locked. */
  predicate CreatedAsSpecified(e: Exploration, a: Artifact)
  {
    && a.version == 1
    && (a.kind == Frame ==>
          (a.status == Draft <==> e.mode == Manual) && (a.status == Streaming <==> e.mode != Manual)
          && a.data == FrameData(e.frame))
    && (a.kind == Signals ==> a.status == Streaming && a.data == SignalsData([]))
    && (a.kind != Frame && a.kind != Signals ==> a.status == Locked)
  }

  lemma CreatedArtifacts(e: Exploration, ids: seq<Id>, stamps: seq<Timestamp>)
    requires Supplies(ids, stamps)
    ensures var r := FullRun(e, ids, stamps);
      forall i :: 0 <= i < |r| && r[i].ArtifactEvent? ==> CreatedAsSpecified(e, r[i].artifact)
  {
    var r := FullRun(e, ids, stamps);
    var o, c := OpeningEvents(e, ids, stamps), ClosingEvents(ids, stamps);
    forall i | 0 <= i < |r| && r[i].ArtifactEvent? ensures CreatedAsSpecified(e, r[i].artifact) {
      FullRunAt(e, ids, stamps, i);
      if i < 7 {
        assert i in {0, 1, 3, 4, 5, 6};
      } else {
        assert i in {16, 17, 18};
      }
    }
  }

  // ---------------------------------------------------------------------
  // Updates target live artifacts
  // ---------------------------------------------------------------------

  /** The status artifact `id` has after `evs`, as a consumer sees it: None
      before it is emitted, then its creation status, overwritten by each
      later patch that sets a status. */
  function StatusAfter(evs: seq<Event>, id: Id): Option<ArtifactStatus>
  {
    if evs == [] then None
    else
      var before := StatusAfter(evs[..|evs| - 1], id);
      var ev := evs[|evs| - 1];
      if ev.ArtifactEvent? && ev.artifact.id == id then Some(ev.artifact.status)
      else if ev.UpdateEvent? && ev.artifactId == id && ev.patch.status.Some? && before.Some?
      then Some(ev.patch.status.value)
      else before
  }

  /** The status is known exactly when the artifact has been emitted. */
  lemma {:induction false} StatusAfterEmitted(evs: seq<Event>, id: Id)
    ensures StatusAfter(evs, id).Some? <==>
      exists j :: 0 <= j < |evs| && evs[j].ArtifactEvent? && evs[j].artifact.id == id
  {
    if evs != [] {
      var pre := evs[..|evs| - 1];
      StatusAfterEmitted(pre, id);
      if exists j :: 0 <= j < |pre| && pre[j].ArtifactEvent? && pre[j].artifact.id == id {
        var j :| 0 <= j < |pre| && pre[j].ArtifactEvent? && pre[j].artifact.id == id;
        assert evs[j] == pre[j];
      }
      if exists j :: 0 <= j < |evs| && evs[j].ArtifactEvent? && evs[j].artifact.id == id {
        var j :| 0 <= j < |evs| && evs[j].ArtifactEvent? && evs[j].artifact.id == id;
        if j < |pre| {
          assert pre[j] == evs[j];
        }
      }
    }
  }

  /** Every update targets an artifact emitted earlier and not yet locked. */
  predicate WellTargeted(evs: seq<Event>)
  {
    forall i :: 0 <= i < |evs| && evs[i].UpdateEvent? ==>
      StatusAfter(evs[..i], evs[i].artifactId) in {Some(Draft), Some(Streaming)}
  }

  lemma WellTargetedPrefix(evs: seq<Event>, n: nat)
    requires n <= |evs| && WellTargeted(evs)
    ensures WellTargeted(evs[..n])
  {
    forall i | 0 <= i < n && evs[..n][i].UpdateEvent?
      ensures StatusAfter(evs[..n][..i], evs[..n][i].artifactId) in {Some(Draft), Some(Streaming)}
    {
      assert evs[..n][..i] == evs[..i];
    }
  }

  lemma {:induction false} SignalsStreaming(e: Exploration, ids: seq<Id>, stamps: seq<Timestamp>, m: nat)
    requires Supplies(ids, stamps) && m <= SignalCount
    ensures StatusAfter(OpeningEvents(e, ids, stamps) + PatchEvents(ids, m), ids[5]) == Some(Streaming)
  {
    var o := OpeningEvents(e, ids, stamps);
    if m == 0 {
      assert o + PatchEvents(ids, m) == o;
    } else {
      SignalsStreaming(e, ids, stamps, m - 1);
      var s := o + PatchEvents(ids, m);
      assert s[..|s| - 1] == o + PatchEvents(ids, m - 1);
    }
  }

  /** Each of the ten updates of a full run targets a live, unlocked artifact. */
  lemma FullRunWellTargeted(e: Exploration, ids: seq<Id>, stamps: seq<Timestamp>)
    requires Supplies(ids, stamps)
    ensures WellTargeted(FullRun(e, ids, stamps))
  {
    var r := FullRun(e, ids, stamps);
    var o := OpeningEvents(e, ids, stamps);
    forall i | 0 <= i < |r| && r[i].UpdateEvent?
      ensures StatusAfter(r[..i], r[i].artifactId) in {Some(Draft), Some(Streaming)}
    {
      FullRunAt(e, ids, stamps, i);
      if i == 2 {
        assert r[..2] == o[..2];
        assert o[..2][..1] == o[..1];
      } else {
        assert 7 <= i <= 15;
        PatchPrefix(ids, i - 7, SignalCount);
        assert r[..i] == o + PatchEvents(ids, i - 7);
        SignalsStreaming(e, ids, stamps, i - 7);
      }
    }
  }

  // ---------------------------------------------------------------------
  // Cancelled runs
  // ---------------------------------------------------------------------

  /** The position of the k-th sleep of `s`. */
  lemma {:induction false} PauseAt(s: seq<Step>, k: nat) returns (n: nat)
    requires k < PauseCount(s)
    ensures n < |s| && s[n].Pause? && PauseCount(s[..n]) == k
  {
    var pre := s[..|s| - 1];
    if k < PauseCount(pre) {
      n := PauseAt(pre, k);
      assert pre[..n] == s[..n];
    } else {
      n := |s| - 1;
    }
  }

  /** A run cancelled at any of its sixteen sleeps emits a strict prefix of
      the full run, contains no `done`, and every update in it still targets
      a live, unlocked artifact. */
  lemma CancelledIsStrictPrefix(e: Exploration, ids: seq<Id>, stamps: seq<Timestamp>, k: nat)
    requires Supplies(ids, stamps) && k < SleepsPerRun
    ensures var c, r := CancelledRun(e, ids, stamps, k), FullRun(e, ids, stamps);
      |c| < |r| && c == r[..|c|]
    ensures var c := CancelledRun(e, ids, stamps, k);
      forall i :: 0 <= i < |c| ==> !c[i].DoneEvent?
    ensures WellTargeted(CancelledRun(e, ids, stamps, k))
  {
    var s := Script(e, ids, stamps);
    PauseCounts(e, ids, stamps);
    var n := PauseAt(s, k);
    StopAt(s, n, k);
    assert s == s[..n] + s[n..];
    CountsAppend(s[..n], s[n..]);
    var tail := s[n..];
    assert tail[|tail| - 1] == Emit(DoneEvent);
    assert Events(tail) != [];
    var c, r := CancelledRun(e, ids, stamps, k), FullRun(e, ids, stamps);
    ScriptEvents(e, ids, stamps);
    assert r == c + Events(tail);
    assert c == r[..|c|];
    FullRunDone(e, ids, stamps);
    FullRunWellTargeted(e, ids, stamps);
    WellTargetedPrefix(r, |c|);
  }

  /** Cancelled during the j-th signals sleep, a run has emitted the opening
      events and exactly j patches. */
  lemma CancelledInLoop(e: Exploration, ids: seq<Id>, stamps: seq<Timestamp>, j: nat)
    requires Supplies(ids, stamps) && j < SignalCount
    ensures CancelledRun(e, ids, stamps, 5 + j) == OpeningEvents(e, ids, stamps) + PatchEvents(ids, j)
  {
    var h0 := SeedHash(e.query);
    var p, l, q := Prologue(e, ids, stamps), SignalLoop(h0, ids, SignalCount), Epilogue(ids, stamps);
    PauseCounts(e, ids, stamps);
    EventsSplit(p, l + q, Some(5 + j));
    CutWhole(p, Some(5 + j));
    EventsSplit(l, q, Some(j));
    SignalAbort(h0, ids, j);
    PrologueEvents(e, ids, stamps);
    LoopEvents(h0, ids, j);
  }

  // ---------------------------------------------------------------------
  // Delays
  // ---------------------------------------------------------------------

  /** The integer delay is the floor of `500 + (x / M) * 400` computed in
      exact real arithmetic. */
  lemma DelayIsFloor(x: nat)
    requires x < M
    ensures Delay(x) == (500.0 + (x as real / M as real) * 400.0).Floor
  {
    var q, r := (x * 400) / M, (x * 400) % M;
    assert x * 400 == q * M + r;
    var v := 500.0 + (x as real / M as real) * 400.0;
    assert v == (500 + q) as real + r as real / M as real;
  }

  /** Every sleep of a run lasts between 400 and 899 ms; the loop's sleeps
      between 500 and 899 ms. */
  lemma SleepBounds(e: Exploration, ids: seq<Id>, stamps: seq<Timestamp>)
    requires Supplies(ids, stamps)
    ensures var s := Script(e, ids, stamps);
      forall n :: 0 <= n < |s| && s[n].Pause? ==> 400 <= s[n].ms <= 899
    ensures var l := SignalLoop(SeedHash(e.query), ids, SignalCount);
      forall n :: 0 <= n < |l| && l[n].Pause? ==> 500 <= l[n].ms <= 899
  {
    var h0 := SeedHash(e.query);
    var l := SignalLoop(h0, ids, SignalCount);
    forall n | 0 <= n < |l| && l[n].Pause? ensures 500 <= l[n].ms <= 899 {
      SignalLoopAt(h0, ids, SignalCount, n / 2);
    }
  }
}
