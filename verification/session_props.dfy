/**
 * What the client shows after a run: the exploration a complete run leaves
 * behind (nine locked artifacts in pipeline order, eight signals, status
 * done), and the status a cancelled run leaves (paused).  Ids are drawn
 * fresh (distinct) for these results: the fold merges patches by id.
 */
module SessionProps {
  import opened Types
  import opened DemoEngine
  import opened EngineProps
  import opened AppShell

  lemma FoldStep(e: Exploration, evs: seq<Event>, n: nat, clock: seq<Timestamp>)
    requires n < |evs| && |clock| >= |evs|
    ensures FoldRun(e, evs[..n + 1], clock) == ApplyEvent(FoldRun(e, evs[..n], clock), evs[n], clock[n])
  {
    assert evs[..n + 1][..n] == evs[..n];
  }

  /** Folding two runs one after the other. */
  lemma {:induction false} FoldAppend(e: Exploration, a: seq<Event>, b: seq<Event>, clock: seq<Timestamp>)
    requires |clock| >= |a| + |b|
    ensures FoldRun(e, a + b, clock) == FoldRun(FoldRun(e, a, clock), b, clock[|a|..])
    decreases |b|
  {
    if b == [] {
      assert a + b == a;
    } else {
      var b' := b[..|b| - 1];
      assert (a + b)[..|a + b| - 1] == a + b';
      FoldAppend(e, a, b', clock);
    }
  }

  /** The artifacts present once the opening events are folded in. */
  function OpenedArtifacts(e: Exploration, ids: seq<Id>, stamps: seq<Timestamp>): (r: seq<Artifact>)
    requires Supplies(ids, stamps)
    ensures |r| == 6
  {
    [ ClarifyArtifact(e, ids, stamps),
      FrameArtifact(e, ids, stamps).(status := Locked),
      StakeholdersArtifact(ids, stamps),
      PersonasArtifact(ids, stamps),
      CollectionPlanArtifact(ids, stamps),
      SignalsArtifact(ids, stamps) ]
  }

  /** After the opening events: six artifacts, the frame locked. */
  lemma OpeningFold(e: Exploration, ids: seq<Id>, stamps: seq<Timestamp>, clock: seq<Timestamp>)
    requires Supplies(ids, stamps) && |clock| >= 7 && e.artifacts == [] && ids[0] != ids[1]
    ensures var f := FoldRun(e, OpeningEvents(e, ids, stamps), clock);
      && f.artifacts == OpenedArtifacts(e, ids, stamps)
      && f.status == e.status && f.updatedAt == clock[6]
  {
    var c, fr := ClarifyArtifact(e, ids, stamps), FrameArtifact(e, ids, stamps);
    var framing := [ArtifactEvent(c), ArtifactEvent(fr), UpdateEvent(ids[1], LockPatch)];
    var research := ResearchEvents(ids, stamps);
    assert OpeningEvents(e, ids, stamps) == framing + research;
    FoldAppend(e, framing, research, clock);
    FramingFold(e, c, fr, ids[0], ids[1], clock);
    ResearchFold(FoldRun(e, framing, clock), ids, stamps, clock[3..]);
  }

  /** The clarification, the frame and the frame's lock. */
  lemma FramingFold(e: Exploration, c: Artifact, fr: Artifact, cid: Id, fid: Id, clock: seq<Timestamp>)
    requires |clock| >= 3 && e.artifacts == [] && c.id == cid && fr.id == fid && cid != fid
    ensures var f := FoldRun(e, [ArtifactEvent(c), ArtifactEvent(fr), UpdateEvent(fid, LockPatch)], clock);
      && f.artifacts == [c, fr.(status := Locked)]
      && f.status == e.status
  {
    var o := [ArtifactEvent(c), ArtifactEvent(fr), UpdateEvent(fid, LockPatch)];
    assert o[..0] == [];
    FoldStep(e, o, 0, clock);
    FoldStep(e, o, 1, clock);
    assert FoldRun(e, o[..2], clock).artifacts == [c, fr];
    FoldStep(e, o, 2, clock);
    MergeLockAndData(fr, SignalsData([]));
    var merged := MergeById([c, fr], fid, LockPatch);
    assert merged == [c, fr.(status := Locked)] by {
      assert merged[0] == c && merged[1] == Merge(fr, LockPatch);
    }
    assert o[..3] == o;
  }

  function ResearchEvents(ids: seq<Id>, stamps: seq<Timestamp>): seq<Event>
    requires Supplies(ids, stamps)
  {
    [ ArtifactEvent(StakeholdersArtifact(ids, stamps)), ArtifactEvent(PersonasArtifact(ids, stamps)),
      ArtifactEvent(CollectionPlanArtifact(ids, stamps)), ArtifactEvent(SignalsArtifact(ids, stamps)) ]
  }

  /** The stakeholders, personas, collection plan and signals artifacts are
      appended in that order. */
  lemma ResearchFold(x: Exploration, ids: seq<Id>, stamps: seq<Timestamp>, clock: seq<Timestamp>)
    requires Supplies(ids, stamps) && |clock| >= 4
    ensures var f := FoldRun(x, ResearchEvents(ids, stamps), clock);
      && f.artifacts == x.artifacts + [ StakeholdersArtifact(ids, stamps), PersonasArtifact(ids, stamps),
                                        CollectionPlanArtifact(ids, stamps), SignalsArtifact(ids, stamps) ]
      && f.status == x.status && f.updatedAt == clock[3]
  {
    var r := ResearchEvents(ids, stamps);
    assert r[..0] == [];
    FoldStep(x, r, 0, clock);
    FoldStep(x, r, 1, clock);
    FoldStep(x, r, 2, clock);
    FoldStep(x, r, 3, clock);
    assert r[..4] == r;
  }

  /** A patch of the sixth artifact's data, among artifacts of other ids. */
  lemma PatchSixth(arts: seq<Artifact>, id: Id, d: ArtifactData)
    requires |arts| == 6 && arts[5].id == id && forall i :: 0 <= i < 5 ==> arts[i].id != id
    ensures MergeById(arts, id, DataPatch(d)) == arts[5 := arts[5].(data := d)]
  {
    MergeLockAndData(arts[5], d);
  }

  lemma PatchFoldStep(x: Exploration, ids: seq<Id>, n: nat, clock: seq<Timestamp>)
    requires 1 <= n <= SignalCount && |ids| >= IdsPerRun && |clock| >= n
    ensures FoldRun(x, PatchEvents(ids, n), clock)
         == ApplyEvent(FoldRun(x, PatchEvents(ids, n - 1), clock), SignalPatch(ids, n), clock[n - 1])
  {
    var p := PatchEvents(ids, n);
    assert p[..n - 1] == PatchEvents(ids, n - 1);
    FoldStep(x, p, n - 1, clock);
    assert p[..n] == p;
  }

  /** The signals patches fill in the data of the sixth artifact only. */
  lemma {:induction false} PatchesFold(x: Exploration, ids: seq<Id>, n: nat, clock: seq<Timestamp>)
    requires n <= SignalCount && |ids| >= IdsPerRun && |clock| >= n
    requires |x.artifacts| == 6 && x.artifacts[5].id == ids[5] && x.artifacts[5].data == SignalsData([])
    requires forall i :: 0 <= i < 5 ==> x.artifacts[i].id != ids[5]
    ensures var f := FoldRun(x, PatchEvents(ids, n), clock);
      && f.artifacts == x.artifacts[5 := x.artifacts[5].(data := SignalsData(Items(ids, n)))]
      && f.status == x.status
      && (n > 0 ==> f.updatedAt == clock[n - 1])
  {
    if n == 0 {
      assert x.artifacts[5 := x.artifacts[5].(data := SignalsData(Items(ids, n)))] == x.artifacts;
    } else {
      PatchesFold(x, ids, n - 1, clock);
      PatchFoldStep(x, ids, n, clock);
      PatchesFoldStep(x, FoldRun(x, PatchEvents(ids, n - 1), clock), ids, n, clock[n - 1]);
    }
  }

  /** One signals patch grows the sixth artifact's item list by one. */
  lemma PatchesFoldStep(x: Exploration, before: Exploration, ids: seq<Id>, n: nat, t: Timestamp)
    requires 1 <= n <= SignalCount && |ids| >= IdsPerRun
    requires |x.artifacts| == 6 && x.artifacts[5].id == ids[5]
    requires forall i :: 0 <= i < 5 ==> x.artifacts[i].id != ids[5]
    requires before.artifacts == x.artifacts[5 := x.artifacts[5].(data := SignalsData(Items(ids, n - 1)))]
    requires before.status == x.status
    ensures var f := ApplyEvent(before, SignalPatch(ids, n), t);
      && f.artifacts == x.artifacts[5 := x.artifacts[5].(data := SignalsData(Items(ids, n)))]
      && f.status == x.status && f.updatedAt == t
  {
    PatchSixth(before.artifacts, ids[5], SignalsData(Items(ids, n)));
    assert before.artifacts[5 := before.artifacts[5].(data := SignalsData(Items(ids, n)))]
        == x.artifacts[5 := x.artifacts[5].(data := SignalsData(Items(ids, n)))];
  }

  /** The closing events lock the signals and append the last three. */
  lemma ClosingFold(x: Exploration, ids: seq<Id>, stamps: seq<Timestamp>, clock: seq<Timestamp>)
    requires Supplies(ids, stamps) && |clock| >= 5
    requires |x.artifacts| == 6 && x.artifacts[5].id == ids[5]
    requires forall i :: 0 <= i < 5 ==> x.artifacts[i].id != ids[5]
    ensures var f := FoldRun(x, ClosingEvents(ids, stamps), clock);
      && f.artifacts == x.artifacts[5 := x.artifacts[5].(status := Locked)]
                        + [ HorizonScanArtifact(ids, stamps), ScenariosArtifact(ids, stamps),
                            SimulationArtifact(ids, stamps) ]
      && f.status == Done && f.updatedAt == clock[3]
  {
    var c := ClosingEvents(ids, stamps);
    assert c[..0] == [];
    FoldStep(x, c, 0, clock);
    MergeLockAndData(x.artifacts[5], SignalsData([]));
    var merged := MergeById(x.artifacts, ids[5], LockPatch);
    assert merged == x.artifacts[5 := x.artifacts[5].(status := Locked)];
    FoldStep(x, c, 1, clock);
    FoldStep(x, c, 2, clock);
    FoldStep(x, c, 3, clock);
    FoldStep(x, c, 4, clock);
    assert c[..5] == c;
  }

  /** The artifacts a complete run leaves, in the order they appear. */
  function CompletedArtifacts(e: Exploration, ids: seq<Id>, stamps: seq<Timestamp>): seq<Artifact>
    requires Supplies(ids, stamps)
  {
    var first := OpenedArtifacts(e, ids, stamps);
    first[5 := first[5].(data := SignalsData(Items(ids, SignalCount)), status := Locked)]
    + [HorizonScanArtifact(ids, stamps), ScenariosArtifact(ids, stamps), SimulationArtifact(ids, stamps)]
  }

  lemma PatchThenLock(arts: seq<Artifact>, d: ArtifactData)
    requires |arts| == 6
    ensures var y := arts[5 := arts[5].(data := d)];
      y[5 := y[5].(status := Locked)] == arts[5 := arts[5].(data := d, status := Locked)]
  {
  }

  lemma CompletedArtifactsLocked(e: Exploration, ids: seq<Id>, stamps: seq<Timestamp>)
    requires Supplies(ids, stamps)
    ensures var arts := CompletedArtifacts(e, ids, stamps);
      && |arts| == 9
      && (forall i :: 0 <= i < 9 ==> arts[i].kind == PipelineOrder[i])
      && (forall i :: 0 <= i < 9 ==> arts[i].status == Locked && arts[i].version == 1)
  {
    var arts := CompletedArtifacts(e, ids, stamps);
    forall i | 0 <= i < 9
      ensures arts[i].kind == PipelineOrder[i] && arts[i].status == Locked && arts[i].version == 1
    {
      if i < 3 {
        assert i == 0 || i == 1 || i == 2;
      } else if i < 6 {
        assert i == 3 || i == 4 || i == 5;
      } else {
        assert i == 6 || i == 7 || i == 8;
      }
    }
  }

  /** A complete run leaves its exploration done, with nine artifacts in
      pipeline order, every one locked and at version 1, the signals
      artifact holding all eight items, and the time of the last artifact
      as its update time. */
  lemma CompletedRun(e: Exploration, ids: seq<Id>, stamps: seq<Timestamp>, clock: seq<Timestamp>)
    requires Supplies(ids, stamps) && |clock| >= 20 && e.artifacts == [] && Distinct(ids[..IdsPerRun])
    ensures var f := FoldRun(e, FullRun(e, ids, stamps), clock);
      && f.status == Done
      && |f.artifacts| == 9
      && (forall i :: 0 <= i < 9 ==> f.artifacts[i].kind == PipelineOrder[i])
      && (forall i :: 0 <= i < 9 ==> f.artifacts[i].status == Locked && f.artifacts[i].version == 1)
      && f.artifacts[5].data == SignalsData(Items(ids, SignalCount))
      && f.updatedAt == clock[18]
  {
    var f := FoldRun(e, FullRun(e, ids, stamps), clock);
    CompletedFold(e, ids, stamps, clock);
    CompletedArtifactsLocked(e, ids, stamps);
    assert f.artifacts[5] == CompletedArtifacts(e, ids, stamps)[5];
  }

  /** Folding a complete run is folding its three sections in turn. */
  lemma FullFoldSplit(e: Exploration, ids: seq<Id>, stamps: seq<Timestamp>, clock: seq<Timestamp>)
    requires Supplies(ids, stamps) && |clock| >= 20
    ensures FoldRun(e, FullRun(e, ids, stamps), clock)
         == FoldRun(FoldRun(FoldRun(e, OpeningEvents(e, ids, stamps), clock),
                            PatchEvents(ids, SignalCount), clock[7..]),
                    ClosingEvents(ids, stamps), clock[15..])
  {
    var o, p, c := OpeningEvents(e, ids, stamps), PatchEvents(ids, SignalCount), ClosingEvents(ids, stamps);
    FoldAppend(e, o, p, clock);
    FoldAppend(e, o + p, c, clock);
    assert clock[|o + p|..] == clock[15..];
  }

  /** Fresh ids: the signals artifact's id differs from the five before it. */
  lemma SignalsIdFresh(ids: seq<Id>)
    requires |ids| >= IdsPerRun && Distinct(ids[..IdsPerRun])
    ensures ids[0] != ids[1]
    ensures forall i :: 0 <= i < 5 ==> ids[i] != ids[5]
  {
    forall i | 0 <= i < 5 ensures ids[i] != ids[5] {
      assert ids[i] == ids[..IdsPerRun][i] && ids[5] == ids[..IdsPerRun][5];
    }
    assert ids[1] == ids[..IdsPerRun][1];
  }

  /** The opened artifacts carry the first six ids; when those are fresh,
      the signals artifact's id is not shared with the five before it. */
  lemma OpenedIds(e: Exploration, ids: seq<Id>, stamps: seq<Timestamp>)
    requires Supplies(ids, stamps) && forall i :: 0 <= i < 5 ==> ids[i] != ids[5]
    ensures var first := OpenedArtifacts(e, ids, stamps);
      && first[5].id == ids[5] && first[5].data == SignalsData([])
      && forall i :: 0 <= i < 5 ==> first[i].id != ids[5]
  {
    var first := OpenedArtifacts(e, ids, stamps);
    assert first[0].id == ids[0] && first[1].id == ids[1] && first[2].id == ids[2];
    assert first[3].id == ids[3] && first[4].id == ids[4];
  }

  /** Replacing the sixth artifact by one of the same id keeps the ids apart. */
  lemma SixthIdKept(arts: seq<Artifact>, a: Artifact, id: Id)
    requires |arts| == 6 && arts[5].id == id && a.id == id
    requires forall i :: 0 <= i < 5 ==> arts[i].id != id
    ensures var y := arts[5 := a]; |y| == 6 && y[5].id == id && forall i :: 0 <= i < 5 ==> y[i].id != id
  {
  }

  lemma CompletedFold(e: Exploration, ids: seq<Id>, stamps: seq<Timestamp>, clock: seq<Timestamp>)
    requires Supplies(ids, stamps) && |clock| >= 20 && e.artifacts == [] && Distinct(ids[..IdsPerRun])
    ensures var f := FoldRun(e, FullRun(e, ids, stamps), clock);
      f.artifacts == CompletedArtifacts(e, ids, stamps) && f.status == Done && f.updatedAt == clock[18]
  {
    var first := OpenedArtifacts(e, ids, stamps);
    var items := SignalsData(Items(ids, SignalCount));
    SignalsIdFresh(ids);
    OpenedIds(e, ids, stamps);
    FullFoldSplit(e, ids, stamps, clock);
    OpeningFold(e, ids, stamps, clock);
    var x := FoldRun(e, OpeningEvents(e, ids, stamps), clock);
    PatchesFold(x, ids, SignalCount, clock[7..]);
    var y := FoldRun(x, PatchEvents(ids, SignalCount), clock[7..]);
    SixthIdKept(first, first[5].(data := items), ids[5]);
    ClosingFold(y, ids, stamps, clock[15..]);
    PatchThenLock(first, items);
  }

  /** The last event being `done`, the folded exploration is done. */
  lemma FoldEndsDone(e: Exploration, evs: seq<Event>, clock: seq<Timestamp>)
    requires |clock| >= |evs| && evs != [] && evs[|evs| - 1] == DoneEvent
    ensures FoldRun(e, evs, clock).status == Done
  {
  }

  /** Without `done`, folding keeps the exploration's status. */
  lemma {:induction false} FoldKeepsStatus(e: Exploration, evs: seq<Event>, clock: seq<Timestamp>)
    requires |clock| >= |evs| && forall i :: 0 <= i < |evs| ==> !evs[i].DoneEvent?
    ensures FoldRun(e, evs, clock).status == e.status
  {
    if evs != [] {
      FoldKeepsStatus(e, evs[..|evs| - 1], clock);
    }
  }

  /** After `onSubmit`, the run's exploration is paused exactly when the run
      was aborted at one of its sleeps, and done otherwise; a cancelled run
      never reached `done` before it was paused. */
  lemma SubmittedStatus(e: Exploration, ids: seq<Id>, stamps: seq<Timestamp>, clock: seq<Timestamp>,
                        abortAt: Option<nat>)
    requires Supplies(ids, stamps) && |clock| >= 20
    ensures var evs := Events(Cut(Script(e, ids, stamps), abortAt));
      var outcome := if Aborts(abortAt) then Aborted else Finished;
      && |evs| <= |clock|
      && Settled(FoldRun(e, evs, clock), outcome).status == (if Aborts(abortAt) then Paused else Done)
      && (Aborts(abortAt) ==> FoldRun(e, evs, clock).status == e.status)
  {
    PipelineLength(e, ids, stamps, abortAt);
    if Aborts(abortAt) {
      CancelledKeepsStatus(e, ids, stamps, clock, abortAt.value);
    } else {
      FinishedIsDone(e, ids, stamps, clock, abortAt);
    }
  }

  lemma CancelledKeepsStatus(e: Exploration, ids: seq<Id>, stamps: seq<Timestamp>, clock: seq<Timestamp>, k: nat)
    requires Supplies(ids, stamps) && |clock| >= 20 && k < SleepsPerRun
    ensures var evs := CancelledRun(e, ids, stamps, k);
      |evs| < 20 && FoldRun(e, evs, clock).status == e.status
  {
    CancelledIsStrictPrefix(e, ids, stamps, k);
    FoldKeepsStatus(e, CancelledRun(e, ids, stamps, k), clock);
  }

  lemma FinishedIsDone(e: Exploration, ids: seq<Id>, stamps: seq<Timestamp>, clock: seq<Timestamp>,
                       abortAt: Option<nat>)
    requires Supplies(ids, stamps) && |clock| >= 20 && !Aborts(abortAt)
    ensures Events(Cut(Script(e, ids, stamps), abortAt)) == FullRun(e, ids, stamps)
    ensures FoldRun(e, FullRun(e, ids, stamps), clock).status == Done
  {
    PauseCounts(e, ids, stamps);
    CutWhole(Script(e, ids, stamps), abortAt);
    ScriptEvents(e, ids, stamps);
    FullRunDone(e, ids, stamps);
    FoldEndsDone(e, FullRun(e, ids, stamps), clock);
  }
}
