/**
 * The scripted research pipeline (lib/demo-engine.ts).
 *
 * The source is an async generator that yields engine events and awaits
 * `sleep` between steps; an abort signal makes the pending `sleep` reject, so
 * a run can only stop at one of its sleeps.  The model describes a run by its
 * script: the sequence of emitted events and sleeps.  A run aborted while its
 * k-th sleep (counting from 0) is pending emits exactly the events before that
 * sleep (`CutAt`).  The generator itself is the method `RunDemoPipeline`,
 * proved to emit exactly those events.
 *
 * Random ids (`uid`) and wall-clock timestamps are drawn from two oracles, the
 * sequences `ids` and `stamps`, consumed in the order the source calls them.
 */
module DemoEngine {
  import opened Types

  /** The modulus of the seeded generator, 2^31 - 1. */
  const M: nat := 2147483647
  /** Ids one full run draws: 9 artifacts, 8 signal items, 3 scenarios. */
  const IdsPerRun: nat := 20
  /** Timestamps one full run draws: one per artifact. */
  const ArtifactsPerRun: nat := 9
  /** Sleeps of one full run: 5 before the signals, 8 inside, 3 after. */
  const SleepsPerRun: nat := 16
  /** Iterations of the signals loop. */
  const SignalCount: nat := 8

  // ---------------------------------------------------------------------
  // Seeded generator (lib/demo-engine.ts:9-13)
  // ---------------------------------------------------------------------

  /** `c.charCodeAt(0)` for a code point `c` produced by `for ... of`: the
      code point itself inside the basic plane, its high surrogate beyond. */
  function CharCode(c: char): (n: nat)
    ensures n < 0x10000
    ensures (c as int) < 0x10000 ==> n == c as int
    ensures (c as int) >= 0x10000 ==> 0xD800 <= n <= 0xDBFF
  {
    if (c as int) < 0x10000 then c as int else 0xD800 + ((c as int) - 0x10000) / 0x400
  }

  /** The fold of the seed string into the generator's initial state. */
  function SeedHash(s: string): (h: nat)
    ensures h < M
  {
    if s == [] then 0 else (SeedHash(s[..|s| - 1]) * 31 + CharCode(s[|s| - 1])) % M
  }

  /** One Lehmer step. */
  function Lcg(h: nat): (r: nat)
    ensures r < M
  {
    (h * 48271) % M
  }

  /** The state after `n` draws. */
  function LcgIter(h: nat, n: nat): (r: nat)
    ensures h < M || n > 0 ==> r < M
  {
    if n == 0 then h else Lcg(LcgIter(h, n - 1))
  }

  /** The closure returned by `seeded`: its captured state `h`; a draw
      returns the numerator of `h / M`. */
  class Rand {
    var h: nat

    constructor (input: string)
      ensures h == SeedHash(input)
      ensures h < M
    {
      var acc := 0;
      var i := 0;
      while i < |input|
        invariant 0 <= i <= |input|
        invariant acc == SeedHash(input[..i])
      {
        assert input[..i + 1][..i] == input[..i];
        acc := (acc * 31 + CharCode(input[i])) % M;
        i := i + 1;
      }
      assert input[..|input|] == input;
      h := acc;
    }

    /** Advance the state and return it; the drawn number is `x / M`, which
        lies in [0, 1) because `x < M`. */
    method Next() returns (x: nat)
      modifies this
      ensures h == Lcg(old(h)) && x == h
      ensures x < M
    {
      h := (h * 48271) % M;
      x := h;
    }
  }

  /** The inter-signal delay `500 + floor(rand() * 400)` for a draw `x / M`,
      in exact integer arithmetic. */
  function Delay(x: nat): (ms: nat)
    ensures x < M ==> 500 <= ms <= 899
  {
    500 + (x * 400) / M
  }

  // ---------------------------------------------------------------------
  // Events and construction of records (lib/demo-engine.ts:4-7, 15-47)
  // ---------------------------------------------------------------------

  /** `Partial<Artifact>`: each field present or absent. */
  datatype Patch = Patch(
    id: Option<Id>,
    kind: Option<ArtifactType>,
    version: Option<int>,
    status: Option<ArtifactStatus>,
    data: Option<ArtifactData>,
    createdAt: Option<Timestamp>)

  const LockPatch: Patch := Patch(None, None, None, Some(Locked), None, None)

  function DataPatch(d: ArtifactData): Patch
  {
    Patch(None, None, None, None, Some(d), None)
  }

  datatype Event =
    | ArtifactEvent(artifact: Artifact)
    | UpdateEvent(artifactId: Id, patch: Patch)
    | DoneEvent

  /** One step of a run: an emitted event or a sleep of `ms` milliseconds. */
  datatype Step = Emit(event: Event) | Pause(ms: nat)

  datatype RunOutcome = Finished | Aborted

  const GoalPrefix: string := "Explore plausible futures related to: "
  const TitleLength: nat := 56

  /** The scaffolding frame every new exploration carries. */
  const ScaffoldFrame: FrameInfo := FrameInfo(
    "5y",
    ["Geographic", "Political", "Industry", "Technology", "Social", "Entity"],
    ["Adoption", "Policy latency", "Public trust"])

  function Min(a: nat, b: nat): nat
  {
    if a <= b then a else b
  }

  function CreateExploration(query: string, mode: Mode, id: Id, now: Timestamp): (e: Exploration)
    ensures e.title <= query && |e.title| == Min(TitleLength, |query|)
    ensures e.query == query && e.goal == GoalPrefix + query && e.goal[|GoalPrefix|..] == query
    ensures e.status == Running && e.artifacts == []
    ensures e.createdAt == now && e.updatedAt == e.createdAt
    ensures e.id == id && e.mode == mode && e.frame == ScaffoldFrame
  {
    Exploration(id, query[..Min(TitleLength, |query|)], query, GoalPrefix + query,
                now, now, mode, Running, ScaffoldFrame, [])
  }

  function MakeArtifact(kind: ArtifactType, data: ArtifactData, id: Id, now: Timestamp,
                        status: ArtifactStatus := Streaming, version: int := 1): (a: Artifact)
    ensures a.kind == kind && a.data == data && a.status == status && a.version == version
    ensures a.id == id && a.createdAt == now
  {
    Artifact(id, kind, version, status, data, now)
  }

  // ---------------------------------------------------------------------
  // The script of a run (lib/demo-engine.ts:49-133)
  // ---------------------------------------------------------------------

  /** The oracles hold enough values for one full run. */
  predicate Supplies(ids: seq<Id>, stamps: seq<Timestamp>)
  {
    |ids| >= IdsPerRun && |stamps| >= ArtifactsPerRun
  }

  /** The i-th signal item (0-based): its id is the (6+i)-th draw. */
  function SignalItemAt(ids: seq<Id>, i: nat): SignalItem
    requires i < SignalCount && |ids| >= IdsPerRun
  {
    SignalItem(ids[6 + i], i + 1, i % 3, i % 3 + 1)
  }

  /** The first `n` signal items. */
  function Items(ids: seq<Id>, n: nat): (r: seq<SignalItem>)
    requires n <= SignalCount && |ids| >= IdsPerRun
    ensures |r| == n
  {
    if n == 0 then [] else Items(ids, n - 1) + [SignalItemAt(ids, n - 1)]
  }

  function ClarifyArtifact(e: Exploration, ids: seq<Id>, stamps: seq<Timestamp>): Artifact
    requires Supplies(ids, stamps)
  {
    MakeArtifact(Clarify, ClarifyData(e.query, 3), ids[0], stamps[0], Locked)
  }

  function FrameArtifact(e: Exploration, ids: seq<Id>, stamps: seq<Timestamp>): Artifact
    requires Supplies(ids, stamps)
  {
    MakeArtifact(Frame, FrameData(e.frame), ids[1], stamps[1],
                 if e.mode == Manual then Draft else Streaming)
  }

  function StakeholdersArtifact(ids: seq<Id>, stamps: seq<Timestamp>): Artifact
    requires Supplies(ids, stamps)
  {
    MakeArtifact(Stakeholders, StakeholdersData(2, 2), ids[2], stamps[2], Locked)
  }

  function PersonasArtifact(ids: seq<Id>, stamps: seq<Timestamp>): Artifact
    requires Supplies(ids, stamps)
  {
    MakeArtifact(Personas, PersonasData(4), ids[3], stamps[3], Locked)
  }

  function CollectionPlanArtifact(ids: seq<Id>, stamps: seq<Timestamp>): Artifact
    requires Supplies(ids, stamps)
  {
    MakeArtifact(CollectionPlan, CollectionPlanData(6), ids[4], stamps[4], Locked)
  }

  function SignalsArtifact(ids: seq<Id>, stamps: seq<Timestamp>): Artifact
    requires Supplies(ids, stamps)
  {
    MakeArtifact(Signals, SignalsData([]), ids[5], stamps[5], Streaming)
  }

  function HorizonScanArtifact(ids: seq<Id>, stamps: seq<Timestamp>): Artifact
    requires Supplies(ids, stamps)
  {
    MakeArtifact(HorizonScan, HorizonScanData(3, 2), ids[14], stamps[6], Locked)
  }

  /** The three scenarios draw their ids before the artifact draws its own. */
  function ScenariosArtifact(ids: seq<Id>, stamps: seq<Timestamp>): Artifact
    requires Supplies(ids, stamps)
  {
    MakeArtifact(Scenarios,
                 ScenariosData([ScenarioEntry(ids[15], "Coordinated Acceleration"),
                                ScenarioEntry(ids[16], "Fragmented Leapfrogging"),
                                ScenarioEntry(ids[17], "Guardrailed Slow Burn")]),
                 ids[18], stamps[7], Locked)
  }

  function SimulationArtifact(ids: seq<Id>, stamps: seq<Timestamp>): Artifact
    requires Supplies(ids, stamps)
  {
    MakeArtifact(Simulation, SimulationData(3, 2), ids[19], stamps[8], Locked)
  }

  /** The patch of the n-th signals iteration (1-based): the whole list so far. */
  function SignalPatch(ids: seq<Id>, n: nat): Event
    requires 1 <= n <= SignalCount && |ids| >= IdsPerRun
  {
    UpdateEvent(ids[5], DataPatch(SignalsData(Items(ids, n))))
  }

  /** The clarification and the frame, up to the frame's lock. */
  function Framing(e: Exploration, ids: seq<Id>, stamps: seq<Timestamp>): (s: seq<Step>)
    requires Supplies(ids, stamps)
    ensures |s| == 5
  {
    [ Emit(ArtifactEvent(ClarifyArtifact(e, ids, stamps))),
      Pause(500),
      Emit(ArtifactEvent(FrameArtifact(e, ids, stamps))),
      Pause(700),
      Emit(UpdateEvent(ids[1], LockPatch)) ]
  }

  /** The stakeholders, personas and collection plan, then the empty
      signals artifact. */
  function Research(ids: seq<Id>, stamps: seq<Timestamp>): (s: seq<Step>)
    requires Supplies(ids, stamps)
    ensures |s| == 7
  {
    [ Pause(500),
      Emit(ArtifactEvent(StakeholdersArtifact(ids, stamps))),
      Pause(450),
      Emit(ArtifactEvent(PersonasArtifact(ids, stamps))),
      Pause(450),
      Emit(ArtifactEvent(CollectionPlanArtifact(ids, stamps))),
      Emit(ArtifactEvent(SignalsArtifact(ids, stamps))) ]
  }

  /** Steps up to and including the emission of the empty signals artifact. */
  function Prologue(e: Exploration, ids: seq<Id>, stamps: seq<Timestamp>): (s: seq<Step>)
    requires Supplies(ids, stamps)
    ensures |s| == 12
  {
    Framing(e, ids, stamps) + Research(ids, stamps)
  }

  /** The first `n` iterations of the signals loop, for generator seed `h0`:
      a seeded delay, then the accumulated item list. */
  function SignalLoop(h0: nat, ids: seq<Id>, n: nat): (s: seq<Step>)
    requires n <= SignalCount && |ids| >= IdsPerRun
    ensures |s| == 2 * n
  {
    if n == 0 then []
    else SignalLoop(h0, ids, n - 1) + [Pause(Delay(LcgIter(h0, n))), Emit(SignalPatch(ids, n))]
  }

  /** Steps from the signals lock to the end. */
  function Epilogue(ids: seq<Id>, stamps: seq<Timestamp>): (s: seq<Step>)
    requires Supplies(ids, stamps)
    ensures |s| == 8
  {
    [ Emit(UpdateEvent(ids[5], LockPatch)),
      Pause(450),
      Emit(ArtifactEvent(HorizonScanArtifact(ids, stamps))),
      Pause(500),
      Emit(ArtifactEvent(ScenariosArtifact(ids, stamps))),
      Pause(400),
      Emit(ArtifactEvent(SimulationArtifact(ids, stamps))),
      Emit(DoneEvent) ]
  }

  /** The complete script of an uninterrupted run. */
  function Script(e: Exploration, ids: seq<Id>, stamps: seq<Timestamp>): (s: seq<Step>)
    requires Supplies(ids, stamps)
    ensures |s| == 36
  {
    Prologue(e, ids, stamps) + (SignalLoop(SeedHash(e.query), ids, SignalCount) + Epilogue(ids, stamps))
  }

  // ---------------------------------------------------------------------
  // Emitted events and cancellation
  // ---------------------------------------------------------------------

  /** The events of a sequence of steps, in order. */
  function Events(s: seq<Step>): seq<Event>
  {
    if s == [] then []
    else Events(s[..|s| - 1]) + (if s[|s| - 1].Emit? then [s[|s| - 1].event] else [])
  }

  function PauseCount(s: seq<Step>): nat
  {
    if s == [] then 0
    else PauseCount(s[..|s| - 1]) + (if s[|s| - 1].Pause? then 1 else 0)
  }

  /** The longest prefix of `s` with at most `k` sleeps: everything before
      the k-th sleep (0-based), or all of `s` when it has no k-th sleep. */
  function CutAt(s: seq<Step>, k: nat): seq<Step>
  {
    if s == [] || PauseCount(s) <= k then s else CutAt(s[..|s| - 1], k)
  }

  /** The steps a run performs when its signal is aborted during the sleep
      `abortAt` (or never, for `None`). */
  function Cut(s: seq<Step>, abortAt: Option<nat>): seq<Step>
  {
    match abortAt
    case None => s
    case Some(k) => CutAt(s, k)
  }

  /** The abort stops the run: it lands on one of the run's sleeps. */
  predicate Aborts(abortAt: Option<nat>)
  {
    abortAt.Some? && abortAt.value < SleepsPerRun
  }

  lemma StepFacts(s: seq<Step>, n: nat)
    requires n < |s|
    ensures Events(s[..n + 1]) == Events(s[..n]) + (if s[n].Emit? then [s[n].event] else [])
    ensures PauseCount(s[..n + 1]) == PauseCount(s[..n]) + (if s[n].Pause? then 1 else 0)
  {
    assert s[..n + 1][..n] == s[..n];
  }

  lemma EmitStep(s: seq<Step>, n: nat, e: Event)
    requires n < |s| && s[n] == Emit(e)
    ensures Events(s[..n + 1]) == Events(s[..n]) + [e]
    ensures PauseCount(s[..n + 1]) == PauseCount(s[..n])
  {
    StepFacts(s, n);
  }

  lemma PauseStep(s: seq<Step>, n: nat)
    requires n < |s| && s[n].Pause?
    ensures Events(s[..n + 1]) == Events(s[..n])
    ensures PauseCount(s[..n + 1]) == PauseCount(s[..n]) + 1
  {
    StepFacts(s, n);
  }

  lemma {:induction false} PauseCountMonotone(s: seq<Step>, m: nat, n: nat)
    requires m <= n <= |s|
    ensures PauseCount(s[..m]) <= PauseCount(s[..n])
    decreases n - m
  {
    if m < n {
      PauseCountMonotone(s, m, n - 1);
      StepFacts(s, n - 1);
    }
  }

  /** Aborting at the sleep that sits at position `n` of the script keeps
      exactly the steps before it. */
  lemma {:induction false} StopAt(s: seq<Step>, n: nat, k: nat)
    requires n < |s| && s[n].Pause? && PauseCount(s[..n]) == k
    ensures CutAt(s, k) == s[..n]
  {
    CutDown(s, n, k, |s|);
    assert s[..|s|] == s;
  }

  lemma {:induction false} CutDown(s: seq<Step>, n: nat, k: nat, m: nat)
    requires n < m <= |s| && s[n].Pause? && PauseCount(s[..n]) == k
    ensures CutAt(s[..m], k) == s[..n]
    decreases m
  {
    StepFacts(s, n);
    PauseCountMonotone(s, n + 1, m);
    assert s[..m][..m - 1] == s[..m - 1];
    if m - 1 == n {
      assert CutAt(s[..m - 1], k) == s[..n];
    } else {
      CutDown(s, n, k, m - 1);
    }
  }

  /** Everything before the sleeps of `a` are exhausted comes from `a`; an
      abort after them keeps all of `a` and the matching cut of `b`. */
  function Later(abortAt: Option<nat>, p: nat): Option<nat>
  {
    match abortAt
    case None => None
    case Some(k) => if k >= p then Some(k - p) else None
  }

  lemma {:induction false} SignalLoopAt(h0: nat, ids: seq<Id>, n: nat, i: nat)
    requires i < n <= SignalCount && |ids| >= IdsPerRun
    ensures SignalLoop(h0, ids, n)[2 * i] == Pause(Delay(LcgIter(h0, i + 1)))
    ensures SignalLoop(h0, ids, n)[2 * i + 1] == Emit(SignalPatch(ids, i + 1))
  {
    if i < n - 1 {
      SignalLoopAt(h0, ids, n - 1, i);
    }
  }

  lemma {:induction false} CountsAppend(a: seq<Step>, b: seq<Step>)
    ensures Events(a + b) == Events(a) + Events(b)
    ensures PauseCount(a + b) == PauseCount(a) + PauseCount(b)
    decreases |b|
  {
    if b == [] {
      assert a + b == a;
    } else {
      var b' := b[..|b| - 1];
      assert (a + b)[..|a + b| - 1] == a + b';
      CountsAppend(a, b');
    }
  }

  lemma {:induction false} CutAtAppend(a: seq<Step>, b: seq<Step>, k: nat)
    ensures k < PauseCount(a) ==> CutAt(a + b, k) == CutAt(a, k)
    ensures k >= PauseCount(a) ==> CutAt(a + b, k) == a + CutAt(b, k - PauseCount(a))
    decreases |b|
  {
    CountsAppend(a, b);
    if b == [] {
      assert a + b == a;
    } else {
      var b' := b[..|b| - 1];
      assert (a + b)[..|a + b| - 1] == a + b';
      CutAtAppend(a, b', k);
    }
  }

  /** Cutting a script made of two parts. */
  lemma CutSplit(a: seq<Step>, b: seq<Step>, abortAt: Option<nat>)
    ensures abortAt.Some? && abortAt.value < PauseCount(a) ==> Cut(a + b, abortAt) == Cut(a, abortAt)
    ensures !(abortAt.Some? && abortAt.value < PauseCount(a)) ==>
      Cut(a + b, abortAt) == a + Cut(b, Later(abortAt, PauseCount(a)))
  {
    if abortAt.Some? {
      CutAtAppend(a, b, abortAt.value);
    }
  }

  /** A script whose sleeps all pass without an abort runs to its end. */
  lemma RunsToEnd(s: seq<Step>, abortAt: Option<nat>)
    requires !(abortAt.Some? && abortAt.value < PauseCount(s[..|s|]))
    ensures Cut(s, abortAt) == s[..|s|]
  {
    assert s[..|s|] == s;
  }

  /** The events of a script made of two parts: those of the first part's
      cut, then, when the abort did not fall in the first part, those of
      the second part's cut. */
  lemma EventsSplit(a: seq<Step>, b: seq<Step>, abortAt: Option<nat>)
    ensures abortAt.Some? && abortAt.value < PauseCount(a) ==>
      Events(Cut(a + b, abortAt)) == Events(Cut(a, abortAt))
    ensures !(abortAt.Some? && abortAt.value < PauseCount(a)) ==>
      Events(Cut(a + b, abortAt)) == Events(Cut(a, abortAt)) + Events(Cut(b, Later(abortAt, PauseCount(a))))
  {
    CutSplit(a, b, abortAt);
    if !(abortAt.Some? && abortAt.value < PauseCount(a)) {
      CutWhole(a, abortAt);
      CountsAppend(a, Cut(b, Later(abortAt, PauseCount(a))));
    }
  }

  /** Without an abort during its sleeps, a script runs to its end. */
  lemma CutWhole(s: seq<Step>, abortAt: Option<nat>)
    requires !(abortAt.Some? && abortAt.value < PauseCount(s))
    ensures Cut(s, abortAt) == s
  {
  }

  /** One loop iteration: a sleep then one event. */
  lemma IterationCounts(ms: nat, ev: Event)
    ensures Events([Pause(ms), Emit(ev)]) == [ev]
    ensures PauseCount([Pause(ms), Emit(ev)]) == 1
  {
    var s := [Pause(ms), Emit(ev)];
    StepFacts(s, 0);
    StepFacts(s, 1);
    assert s[..0] == [] && s[..2] == s;
  }

  /** The first `m` iterations of the loop are a prefix of the first `n`,
      and they hold `m` sleeps. */
  lemma SignalLoopPrefix(h0: nat, ids: seq<Id>, m: nat, n: nat)
    requires m <= n <= SignalCount && |ids| >= IdsPerRun
    ensures SignalLoop(h0, ids, n)[..2 * m] == SignalLoop(h0, ids, m)
    ensures PauseCount(SignalLoop(h0, ids, m)) == m
  {
    SignalLoopTake(h0, ids, m, n);
    SignalLoopPauses(h0, ids, m);
  }

  lemma {:induction false} SignalLoopTake(h0: nat, ids: seq<Id>, m: nat, n: nat)
    requires m <= n <= SignalCount && |ids| >= IdsPerRun
    ensures SignalLoop(h0, ids, n)[..2 * m] == SignalLoop(h0, ids, m)
    decreases n
  {
    if m < n {
      SignalLoopTake(h0, ids, m, n - 1);
      var l := SignalLoop(h0, ids, n - 1);
      assert SignalLoop(h0, ids, n)[..2 * m] == l[..2 * m];
    }
  }

  lemma {:induction false} SignalLoopPauses(h0: nat, ids: seq<Id>, m: nat)
    requires m <= SignalCount && |ids| >= IdsPerRun
    ensures PauseCount(SignalLoop(h0, ids, m)) == m
  {
    if m > 0 {
      SignalLoopPauses(h0, ids, m - 1);
      CountsAppend(SignalLoop(h0, ids, m - 1),
                   [Pause(Delay(LcgIter(h0, m))), Emit(SignalPatch(ids, m))]);
      IterationCounts(Delay(LcgIter(h0, m)), SignalPatch(ids, m));
    }
  }

  lemma PauseCounts(e: Exploration, ids: seq<Id>, stamps: seq<Timestamp>)
    requires Supplies(ids, stamps)
    ensures PauseCount(Framing(e, ids, stamps)) == 2
    ensures PauseCount(Research(ids, stamps)) == 3
    ensures PauseCount(Prologue(e, ids, stamps)) == 5
    ensures PauseCount(SignalLoop(SeedHash(e.query), ids, SignalCount)) == SignalCount
    ensures PauseCount(Epilogue(ids, stamps)) == 3
    ensures PauseCount(Script(e, ids, stamps)) == SleepsPerRun
  {
    var f, r := Framing(e, ids, stamps), Research(ids, stamps);
    var p, l, q := Prologue(e, ids, stamps), SignalLoop(SeedHash(e.query), ids, SignalCount), Epilogue(ids, stamps);
    SignalLoopPrefix(SeedHash(e.query), ids, SignalCount, SignalCount);
    PauseCountFraming(f);
    PauseCountResearch(r);
    PauseCountEpilogue(q);
    CountsAppend(f, r);
    CountsAppend(l, q);
    CountsAppend(p, l + q);
  }

  lemma PauseCountFraming(f: seq<Step>)
    requires |f| == 5
    requires f[1].Pause? && f[3].Pause? && !f[0].Pause? && !f[2].Pause? && !f[4].Pause?
    ensures PauseCount(f) == 2
  {
    assert forall n :: 0 <= n < 5 ==> PauseCount(f[..n + 1]) == PauseCount(f[..n]) + (if f[n].Pause? then 1 else 0) by {
      forall n | 0 <= n < 5 { StepFacts(f, n); }
    }
    assert f[..5] == f;
  }

  lemma PauseCountResearch(r: seq<Step>)
    requires |r| == 7
    requires r[0].Pause? && r[2].Pause? && r[4].Pause?
    requires !r[1].Pause? && !r[3].Pause? && !r[5].Pause? && !r[6].Pause?
    ensures PauseCount(r) == 3
  {
    assert forall n :: 0 <= n < 7 ==> PauseCount(r[..n + 1]) == PauseCount(r[..n]) + (if r[n].Pause? then 1 else 0) by {
      forall n | 0 <= n < 7 { StepFacts(r, n); }
    }
    assert r[..7] == r;
  }

  lemma PauseCountEpilogue(q: seq<Step>)
    requires |q| == 8
    requires q[1].Pause? && q[3].Pause? && q[5].Pause?
    requires !q[0].Pause? && !q[2].Pause? && !q[4].Pause? && !q[6].Pause? && !q[7].Pause?
    ensures PauseCount(q) == 3
  {
    assert forall n :: 0 <= n < 8 ==> PauseCount(q[..n + 1]) == PauseCount(q[..n]) + (if q[n].Pause? then 1 else 0) by {
      forall n | 0 <= n < 8 { StepFacts(q, n); }
    }
    assert q[..8] == q;
  }

  // ---------------------------------------------------------------------
  // The generator (lib/demo-engine.ts:49-133)
  // ---------------------------------------------------------------------

  /** Runs the pipeline for `exploration`.  `abortAt` is the sleep during which
      the caller aborts the signal, if any.  Returns the events yielded, and
      whether the generator finished or threw the abort error. */
  method RunDemoPipeline(exploration: Exploration, ids: seq<Id>, stamps: seq<Timestamp>,
                         abortAt: Option<nat>)
    returns (events: seq<Event>, outcome: RunOutcome)
    requires Supplies(ids, stamps)
    ensures events == Events(Cut(Script(exploration, ids, stamps), abortAt))
    ensures outcome == Aborted <==> Aborts(abortAt)
  {
    ScriptCut(exploration, ids, stamps, abortAt);
    var rand := new Rand(exploration.query);
    var aborted, signals;
    events, signals, aborted := EmitOpening(exploration, ids, stamps, abortAt);
    if aborted {
      return events, Aborted;
    }

    var more;
    more, aborted := StreamSignals(rand, signals, ids, Later(abortAt, 5));
    events := events + more;
    if aborted {
      return events, Aborted;
    }

    more, aborted := EmitClosing(signals, ids, stamps, Later(Later(abortAt, 5), SignalCount));
    events := events + more;
    outcome := if aborted then Aborted else Finished;
  }

  /** The events of a run, section by section: the opening's cut, then,
      unless the abort fell in the opening, the loop's cut, then, unless it
      fell in the loop, the closing's cut. */
  lemma ScriptCut(e: Exploration, ids: seq<Id>, stamps: seq<Timestamp>, abortAt: Option<nat>)
    requires Supplies(ids, stamps)
    ensures var p, inLoop := Prologue(e, ids, stamps), Later(abortAt, 5);
      abortAt.Some? && abortAt.value < 5 ==>
        Events(Cut(Script(e, ids, stamps), abortAt)) == Events(Cut(p, abortAt))
    ensures var p, l := Prologue(e, ids, stamps), SignalLoop(SeedHash(e.query), ids, SignalCount);
      var inLoop := Later(abortAt, 5);
      !(abortAt.Some? && abortAt.value < 5) && inLoop.Some? && inLoop.value < SignalCount ==>
        Events(Cut(Script(e, ids, stamps), abortAt)) == Events(Cut(p, abortAt)) + Events(Cut(l, inLoop))
    ensures var p, l := Prologue(e, ids, stamps), SignalLoop(SeedHash(e.query), ids, SignalCount);
      var inLoop, inClosing := Later(abortAt, 5), Later(Later(abortAt, 5), SignalCount);
      !(abortAt.Some? && abortAt.value < 5) && !(inLoop.Some? && inLoop.value < SignalCount) ==>
        Events(Cut(Script(e, ids, stamps), abortAt))
        == Events(Cut(p, abortAt)) + Events(Cut(l, inLoop)) + Events(Cut(Epilogue(ids, stamps), inClosing))
  {
    PauseCounts(e, ids, stamps);
    ThreeCut(Prologue(e, ids, stamps), SignalLoop(SeedHash(e.query), ids, SignalCount),
             Epilogue(ids, stamps), abortAt);
  }

  /** `ScriptCut` for any three sections with five and eight sleeps. */
  lemma ThreeCut(p: seq<Step>, l: seq<Step>, q: seq<Step>, abortAt: Option<nat>)
    requires PauseCount(p) == 5 && PauseCount(l) == SignalCount
    ensures abortAt.Some? && abortAt.value < 5 ==>
      Events(Cut(p + (l + q), abortAt)) == Events(Cut(p, abortAt))
    ensures var inLoop := Later(abortAt, 5);
      !(abortAt.Some? && abortAt.value < 5) && inLoop.Some? && inLoop.value < SignalCount ==>
        Events(Cut(p + (l + q), abortAt)) == Events(Cut(p, abortAt)) + Events(Cut(l, inLoop))
    ensures var inLoop, inClosing := Later(abortAt, 5), Later(Later(abortAt, 5), SignalCount);
      !(abortAt.Some? && abortAt.value < 5) && !(inLoop.Some? && inLoop.value < SignalCount) ==>
        Events(Cut(p + (l + q), abortAt))
        == Events(Cut(p, abortAt)) + Events(Cut(l, inLoop)) + Events(Cut(q, inClosing))
  {
    var inLoop := Later(abortAt, 5);
    EventsSplit(p, l + q, abortAt);
    if !(abortAt.Some? && abortAt.value < 5) {
      var head, rest := Events(Cut(p, abortAt)), Events(Cut(l + q, inLoop));
      assert Events(Cut(p + (l + q), abortAt)) == head + rest;
      EventsSplit(l, q, inLoop);
    }
  }

  /** The generator up to the empty signals artifact (lib/demo-engine.ts:50-89).
      Returns the signals artifact the rest of the run streams into. */
  method EmitOpening(exploration: Exploration, ids: seq<Id>, stamps: seq<Timestamp>,
                     abortAt: Option<nat>)
    returns (events: seq<Event>, signals: Artifact, aborted: bool)
    requires Supplies(ids, stamps)
    ensures events == Events(Cut(Prologue(exploration, ids, stamps), abortAt))
    ensures aborted <==> abortAt.Some? && abortAt.value < 5
    ensures signals == SignalsArtifact(ids, stamps)
  {
    ghost var f, r := Framing(exploration, ids, stamps), Research(ids, stamps);
    PauseCounts(exploration, ids, stamps);
    EventsSplit(f, r, abortAt);
    signals := SignalsArtifact(ids, stamps);
    events, aborted := EmitFraming(exploration, ids, stamps, abortAt);
    if aborted {
      return;
    }
    var more;
    more, signals, aborted := EmitResearch(ids, stamps, Later(abortAt, 2));
    events := events + more;
  }

  /** The clarification, the frame and its lock (lib/demo-engine.ts:51-60). */
  method EmitFraming(exploration: Exploration, ids: seq<Id>, stamps: seq<Timestamp>,
                     abortAt: Option<nat>)
    returns (events: seq<Event>, aborted: bool)
    requires Supplies(ids, stamps)
    ensures events == Events(Cut(Framing(exploration, ids, stamps), abortAt))
    ensures aborted <==> abortAt.Some? && abortAt.value < 2
  {
    ghost var script := Framing(exploration, ids, stamps);
    ghost var n := 0;
    var sleeps := 0;
    events := [];
    aborted := true;

    var clarify := ClarifyArtifact(exploration, ids, stamps);
    EmitStep(script, n, ArtifactEvent(clarify)); n := n + 1;
    events := events + [ArtifactEvent(clarify)];

    if abortAt == Some(sleeps) { StopAt(script, n, sleeps); return; }
    PauseStep(script, n); n, sleeps := n + 1, sleeps + 1;

    var frame := FrameArtifact(exploration, ids, stamps);
    EmitStep(script, n, ArtifactEvent(frame)); n := n + 1;
    events := events + [ArtifactEvent(frame)];

    if abortAt == Some(sleeps) { StopAt(script, n, sleeps); return; }
    PauseStep(script, n); n, sleeps := n + 1, sleeps + 1;

    EmitStep(script, n, UpdateEvent(frame.id, LockPatch)); n := n + 1;
    events := events + [UpdateEvent(frame.id, LockPatch)];

    RunsToEnd(script, abortAt);
    aborted := false;
  }

  /** The stakeholders, personas, collection plan and the empty signals
      artifact (lib/demo-engine.ts:62-89). */
  method EmitResearch(ids: seq<Id>, stamps: seq<Timestamp>, abortAt: Option<nat>)
    returns (events: seq<Event>, signals: Artifact, aborted: bool)
    requires Supplies(ids, stamps)
    ensures events == Events(Cut(Research(ids, stamps), abortAt))
    ensures aborted <==> abortAt.Some? && abortAt.value < 3
    ensures signals == SignalsArtifact(ids, stamps)
  {
    ghost var script := Research(ids, stamps);
    ghost var n := 0;
    var sleeps := 0;
    events := [];
    signals := SignalsArtifact(ids, stamps);
    aborted := true;

    var stakeholders := StakeholdersArtifact(ids, stamps);
    if abortAt == Some(sleeps) { StopAt(script, n, sleeps); return; }
    PauseStep(script, n); n, sleeps := n + 1, sleeps + 1;

    EmitStep(script, n, ArtifactEvent(stakeholders)); n := n + 1;
    events := events + [ArtifactEvent(stakeholders)];

    var personas := PersonasArtifact(ids, stamps);
    if abortAt == Some(sleeps) { StopAt(script, n, sleeps); return; }
    PauseStep(script, n); n, sleeps := n + 1, sleeps + 1;

    EmitStep(script, n, ArtifactEvent(personas)); n := n + 1;
    events := events + [ArtifactEvent(personas)];

    if abortAt == Some(sleeps) { StopAt(script, n, sleeps); return; }
    PauseStep(script, n); n, sleeps := n + 1, sleeps + 1;

    EmitStep(script, n, ArtifactEvent(CollectionPlanArtifact(ids, stamps))); n := n + 1;
    events := events + [ArtifactEvent(CollectionPlanArtifact(ids, stamps))];

    EmitStep(script, n, ArtifactEvent(signals)); n := n + 1;
    events := events + [ArtifactEvent(signals)];

    RunsToEnd(script, abortAt);
    aborted := false;
  }

  /** The signals loop (lib/demo-engine.ts:91-103): eight seeded sleeps, each
      followed by a patch carrying the whole item list so far.  `abortAt`
      counts the loop's own sleeps. */
  method StreamSignals(rand: Rand, signals: Artifact, ids: seq<Id>, abortAt: Option<nat>)
    returns (events: seq<Event>, aborted: bool)
    requires |ids| >= IdsPerRun && signals.id == ids[5] && signals.data == SignalsData([])
    modifies rand
    ensures events == Events(Cut(SignalLoop(old(rand.h), ids, SignalCount), abortAt))
    ensures aborted <==> abortAt.Some? && abortAt.value < SignalCount
    ensures aborted ==> rand.h == LcgIter(old(rand.h), abortAt.value + 1)
    ensures !aborted ==> rand.h == LcgIter(old(rand.h), SignalCount)
  {
    ghost var h0 := rand.h;
    ghost var script := SignalLoop(h0, ids, SignalCount);
    events := [];
    aborted := true;
    // The source pushes each item onto the signals artifact's own list.
    var items := signals.data.items;
    for i := 0 to SignalCount
      invariant events == Events(SignalLoop(h0, ids, i))
      invariant !(abortAt.Some? && abortAt.value < i)
      invariant rand.h == LcgIter(h0, i)
      invariant items == Items(ids, i)
    {
      // The draw comes before the sleep, whose length is the script's
      // `Pause(Delay(LcgIter(h0, i + 1)))`.
      var x := rand.Next();
      assert Delay(x) == Delay(LcgIter(h0, i + 1));
      if abortAt == Some(i) {
        SignalAbort(h0, ids, i);
        return;
      }
      var item := SignalItem(ids[6 + i], i + 1, i % 3, i % 3 + 1);
      SignalStep(h0, ids, i, items);
      events := events + [UpdateEvent(signals.id, DataPatch(SignalsData(items + [item])))];
      items := items + [item];
    }
    SignalLoopEnd(h0, ids, abortAt);
    aborted := false;
  }

  /** An abort during the loop's sleep `i` keeps the first `i` iterations. */
  lemma SignalAbort(h0: nat, ids: seq<Id>, i: nat)
    requires i < SignalCount && |ids| >= IdsPerRun
    ensures Events(Cut(SignalLoop(h0, ids, SignalCount), Some(i))) == Events(SignalLoop(h0, ids, i))
  {
    SignalLoopPrefix(h0, ids, i, SignalCount);
    SignalLoopAt(h0, ids, SignalCount, i);
    StopAt(SignalLoop(h0, ids, SignalCount), 2 * i, i);
  }

  /** Iteration `i` adds one patch carrying the list grown by item `i`. */
  lemma SignalStep(h0: nat, ids: seq<Id>, i: nat, items: seq<SignalItem>)
    requires i < SignalCount && |ids| >= IdsPerRun && items == Items(ids, i)
    ensures items + [SignalItemAt(ids, i)] == Items(ids, i + 1)
    ensures Events(SignalLoop(h0, ids, i + 1))
         == Events(SignalLoop(h0, ids, i)) + [UpdateEvent(ids[5], DataPatch(SignalsData(Items(ids, i + 1))))]
  {
    var iteration := [Pause(Delay(LcgIter(h0, i + 1))), Emit(SignalPatch(ids, i + 1))];
    CountsAppend(SignalLoop(h0, ids, i), iteration);
    IterationCounts(Delay(LcgIter(h0, i + 1)), SignalPatch(ids, i + 1));
  }

  /** Without an abort during the loop, all eight iterations run. */
  lemma SignalLoopEnd(h0: nat, ids: seq<Id>, abortAt: Option<nat>)
    requires |ids| >= IdsPerRun && !(abortAt.Some? && abortAt.value < SignalCount)
    ensures Events(Cut(SignalLoop(h0, ids, SignalCount), abortAt)) == Events(SignalLoop(h0, ids, SignalCount))
  {
    SignalLoopPrefix(h0, ids, SignalCount, SignalCount);
  }

  /** The signals lock and the last three steps (lib/demo-engine.ts:104-132). */
  method EmitClosing(signals: Artifact, ids: seq<Id>, stamps: seq<Timestamp>, abortAt: Option<nat>)
    returns (events: seq<Event>, aborted: bool)
    requires Supplies(ids, stamps) && signals.id == ids[5]
    ensures events == Events(Cut(Epilogue(ids, stamps), abortAt))
    ensures aborted <==> abortAt.Some? && abortAt.value < 3
  {
    ghost var script := Epilogue(ids, stamps);
    ghost var n := 0;
    var sleeps := 0;
    events := [];
    aborted := true;

    EmitStep(script, n, UpdateEvent(signals.id, LockPatch)); n := n + 1;
    events := events + [UpdateEvent(signals.id, LockPatch)];

    if abortAt == Some(sleeps) { StopAt(script, n, sleeps); return; }
    PauseStep(script, n); n, sleeps := n + 1, sleeps + 1;

    EmitStep(script, n, ArtifactEvent(HorizonScanArtifact(ids, stamps))); n := n + 1;
    events := events + [ArtifactEvent(HorizonScanArtifact(ids, stamps))];

    if abortAt == Some(sleeps) { StopAt(script, n, sleeps); return; }
    PauseStep(script, n); n, sleeps := n + 1, sleeps + 1;

    EmitStep(script, n, ArtifactEvent(ScenariosArtifact(ids, stamps))); n := n + 1;
    events := events + [ArtifactEvent(ScenariosArtifact(ids, stamps))];

    if abortAt == Some(sleeps) { StopAt(script, n, sleeps); return; }
    PauseStep(script, n); n, sleeps := n + 1, sleeps + 1;

    EmitStep(script, n, ArtifactEvent(SimulationArtifact(ids, stamps))); n := n + 1;
    events := events + [ArtifactEvent(SimulationArtifact(ids, stamps))];

    EmitStep(script, n, DoneEvent); n := n + 1;
    events := events + [DoneEvent];

    RunsToEnd(script, abortAt);
    aborted := false;
  }
}
