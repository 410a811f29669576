/**
 * The Foresight HTTP API (packages/api/src/index.ts): the canned result
 * builder, the in-memory run registry, and the decisions of its two
 * handlers.  A run is registered as processing when it is submitted and
 * becomes ready with the canned artifacts when its completion timer fires.
 * The two schema validators are parameters of the registry; the wall clock
 * and the random run-id suffix are arguments of the operations.
 */
module Api {
  import opened Types
  import opened Strings

  datatype Horizon = SixMonths | TwoYears | FiveYears
  datatype Perspective = Me | We | Community
  datatype SeedBias = Conservative | Exploratory

  /** A request to `POST /v1/generate`; absent optional fields are `None`
      (`null` and a missing key are alike to the `??` defaults). */
  datatype GenerateInput = GenerateInput(
    question: string,
    horizon: Option<Horizon>,
    location: Option<string>,
    perspective: Option<Perspective>,
    seedBias: Option<SeedBias>)

  datatype Confidence = Low | Med | High
  datatype ConeName = Upside | Downside
  datatype Level = L | M | H

  datatype QuickTake = QuickTake(oneLine: string, bullets: seq<string>, confidence: Confidence,
                                 assumptions: seq<string>)
  datatype Cone = Cone(name: ConeName, vignette: string, drivers: seq<string>,
                       uncertainties: seq<string>, earlySignals: seq<string>)
  datatype Signal = Signal(title: string, summary: string, sourceUrl: Option<string>)
  datatype Driver = Driver(name: string, why: string)
  datatype SignalsDrivers = SignalsDrivers(signals: seq<Signal>, drivers: seq<Driver>)
  datatype Milestone = Milestone(when: string, what: string, soWhat: string)
  datatype Inflection = Inflection(when: string, what: string)
  datatype Timeline = Timeline(milestones: seq<Milestone>, inflections: Option<seq<Inflection>>)
  datatype Tag = Tag(effort: Option<Level>, impact: Option<Level>)
  datatype Moves = Moves(noRegrets: seq<string>, options: seq<string>, watchOuts: seq<string>,
                         tags: Option<seq<Tag>>)
  datatype Artifacts = Artifacts(quickTake: QuickTake, cones: seq<Cone>, signalsDrivers: SignalsDrivers,
                                 timeline: Timeline, moves: Moves)

  /** Milliseconds since the epoch, as `Date.now()` returns them. */
  type Millis = int

  datatype RunRecord =
    | Processing(createdAt: Millis)
    | Ready(createdAt: Millis, result: Artifacts)

  /** What a handler sends: an HTTP status and a body. */
  datatype Body =
    | InvalidInput
    | RunAccepted(runId: string)
    | NotFound
    | StillProcessing
    | InvalidArtifacts
    | Result(artifacts: Artifacts)
  datatype Reply = Reply(status: nat, body: Body)

  /** The delay before a scheduled run completes. */
  const LoaderDelayMs: nat := 400

  function Months(h: Horizon): nat
  {
    match h
    case SixMonths => 6
    case TwoYears => 24
    case FiveYears => 60
  }

  /** `input.horizon ?? 24`. */
  function HorizonMonths(input: GenerateInput): (m: nat)
    ensures m in {6, 24, 60}
    ensures input.horizon.None? ==> m == 24
  {
    if input.horizon.Some? then Months(input.horizon.value) else 24
  }

  function AdopterPhrase(input: GenerateInput): string
  {
    if input.seedBias == Some(Exploratory) then "fast adopters" else "incumbents"
  }

  /** `buildQuickBullets` (packages/api/src/index.ts:74-81). */
  function BuildQuickBullets(input: GenerateInput): (r: seq<string>)
    ensures |r| == 6
    ensures r[0] == "Watch how " + AdopterPhrase(input) + " frame this topic."
    ensures r[2] == "Map upside/downside cones across " + Decimal(HorizonMonths(input)) + " months."
  {
    [ "Watch how " + AdopterPhrase(input) + " frame this topic.",
      "Track 6+ signals; retire stale ones monthly.",
      "Map upside/downside cones across " + Decimal(HorizonMonths(input)) + " months.",
      "Surface 2-3 no-regret moves now.",
      "Note critical uncertainties and pre-mortems.",
      "Calibrate confidence with explicit assumptions." ]
  }

  /** Two sentences that differ only in one slot are equal exactly when the
      slots are. */
  lemma SlotCancel(prefix: string, x: string, y: string, suffix: string)
    ensures prefix + x + suffix == prefix + y + suffix <==> x == y
  {
    if prefix + x + suffix == prefix + y + suffix && |x| == |y| {
      forall i | 0 <= i < |x| ensures x[i] == y[i] {
        assert x[i] == (prefix + x + suffix)[|prefix| + i];
        assert y[i] == (prefix + y + suffix)[|prefix| + i];
      }
    }
  }

  /** The first bullet names the fast adopters exactly for an exploratory seed
      bias, and the incumbents otherwise. */
  lemma FirstBulletAdopters(input: GenerateInput)
    ensures BuildQuickBullets(input)[0] == "Watch how " + "fast adopters" + " frame this topic."
            <==> input.seedBias == Some(Exploratory)
    ensures BuildQuickBullets(input)[0] == "Watch how " + "incumbents" + " frame this topic."
            <==> input.seedBias != Some(Exploratory)
  {
    SlotCancel("Watch how ", AdopterPhrase(input), "fast adopters", " frame this topic.");
    SlotCancel("Watch how ", AdopterPhrase(input), "incumbents", " frame this topic.");
    assert |"fast adopters"| != |"incumbents"|;
  }

  function OneLine(question: string, months: nat): string
  {
    question + " \U{2014} implications over the next " + Decimal(months) + " months"
  }

  function LocationText(input: GenerateInput): string
  {
    if input.location.Some? then input.location.value else "N/A"
  }

  function PerspectiveText(input: GenerateInput): string
  {
    match input.perspective
    case None => "me"
    case Some(Me) => "me"
    case Some(We) => "we"
    case Some(Community) => "community"
  }

  /** The quick take: the headline, the six bullets, medium confidence
      and two assumptions, the second naming the location. */
  function QuickTakeFor(input: GenerateInput): (r: QuickTake)
    ensures r.bullets == BuildQuickBullets(input) && r.confidence == Med && |r.assumptions| == 2
  {
    QuickTake(
      OneLine(input.question, HorizonMonths(input)),
      BuildQuickBullets(input),
      Med,
      [ "Data availability remains stable",
        LocationText(input) + " macro conditions hold for 12 months" ])
  }

  /** The two outcome cones, upside first. */
  function ConesFor(q: string, perspective: string): (r: seq<Cone>)
    ensures |r| == 2 && r[0].name == Upside && r[1].name == Downside
  {
    [ Cone(Upside,
           "If enablers align, " + q + " accelerates and " + perspective + " benefits compound.",
           ["Capital flows into enablers", "Policy tailwinds emerge", "User adoption compounds quickly"],
           ["Regulatory shifts", "Talent pipeline quality"],
           ["Pilot programs scaling beyond phase 1"]),
      Cone(Downside,
           "Adoption stalls; stakeholders resist change; " + q + " drifts without ownership.",
           ["Budget freezes", "Visible failures create caution", "Complex integrations"],
           ["Supply chain volatility", "Trust erosion"],
           ["Project cancellations in peers"]) ]
  }

  /** The canned signals and drivers. */
  const CannedSignalsDrivers: SignalsDrivers :=
    SignalsDrivers(
      [ Signal("New entrant gains traction", "Scrappy competitor tests the space", None),
        Signal("Policy draft surfaces", "Regulators hint at guardrails", None),
        Signal("Vendor consolidations", "M&A spikes as market heats", None),
        Signal("Community-led standards", "Grassroots patterns emerge", None),
        Signal("Hiring patterns shift", "Job postings reveal priorities", None),
        Signal("Infra pricing trends", "Unit costs drop meaningfully", None) ],
      [ Driver("Capital intensity", "Determines viable pace"),
        Driver("Ecosystem readiness", "Dependency risk governs speed"),
        Driver("Talent depth", "Execution hinges on skills"),
        Driver("Customer urgency", "Pull signals accelerate adoption") ])

  /** Six signals, none with a source link, and four drivers. */
  lemma CannedSignalsShape()
    ensures |CannedSignalsDrivers.signals| == 6 && |CannedSignalsDrivers.drivers| == 4
    ensures forall i :: 0 <= i < |CannedSignalsDrivers.signals| ==>
      CannedSignalsDrivers.signals[i].sourceUrl.None?
  {
  }

  /** The canned timeline. */
  const CannedTimeline: Timeline :=
    Timeline(
      [ Milestone("6 mo", "Pilot validated", "Scope next tranche"),
        Milestone("12 mo", "Scaled to early adopters", "Harden reliability"),
        Milestone("24 mo", "Category norms emerge", "Defend position") ],
      Some([Inflection("18 mo", "Key uncertainty resolves")]))

  /** Three milestones and one inflection. */
  lemma CannedTimelineShape()
    ensures |CannedTimeline.milestones| == 3
    ensures CannedTimeline.inflections.Some? && |CannedTimeline.inflections.value| == 1
  {
  }

  /** The canned moves. */
  const CannedMoves: Moves :=
    Moves(
      [ "Stand up light-weight governance",
        "Track leading indicators monthly",
        "Fund quick experiments with clear exit criteria" ],
      ["Place small bets with partners", "Create observability dashboard for signals"],
      ["Narrative over-promising"],
      Some([Tag(Some(M), Some(H)), Tag(Some(L), Some(M))]))

  /** Three no-regret moves, two options, one watch-out and two tags. */
  lemma CannedMovesShape()
    ensures |CannedMoves.noRegrets| == 3 && |CannedMoves.options| == 2 && |CannedMoves.watchOuts| == 1
    ensures CannedMoves.tags.Some? && |CannedMoves.tags.value| == 2
  {
  }

  /** `baseArtifacts` (packages/api/src/index.ts:83-157). */
  function BaseArtifacts(input: GenerateInput): Artifacts
  {
    Artifacts(QuickTakeFor(input), ConesFor(input.question, PerspectiveText(input)),
              CannedSignalsDrivers, CannedTimeline, CannedMoves)
  }

  /** The shape of the stub result: the quick take's six bullets, medium
      confidence and two assumptions, the upside and downside cones, six
      unlinked signals, four drivers, three milestones and one inflection. */
  lemma BaseArtifactsShape(input: GenerateInput)
    ensures var r := BaseArtifacts(input);
      && r.quickTake.bullets == BuildQuickBullets(input)
      && r.quickTake.confidence == Med && |r.quickTake.assumptions| == 2
      && |r.cones| == 2 && r.cones[0].name == Upside && r.cones[1].name == Downside
      && |r.signalsDrivers.signals| == 6 && |r.signalsDrivers.drivers| == 4
      && (forall i :: 0 <= i < 6 ==> r.signalsDrivers.signals[i].sourceUrl.None?)
      && |r.timeline.milestones| == 3
      && r.timeline.inflections.Some? && |r.timeline.inflections.value| == 1
      && |r.moves.noRegrets| == 3 && |r.moves.options| == 2 && |r.moves.watchOuts| == 1
  {
    CannedSignalsShape();
    CannedTimelineShape();
    CannedMovesShape();
  }

  /** The headline starts with the question and ends with the horizon in
      months, 24 when none was given; reading the number back gives the
      horizon. */
  lemma OneLineShape(input: GenerateInput)
    ensures var line := BaseArtifacts(input).quickTake.oneLine;
      var tail := " months";
      && input.question <= line
      && |line| >= |input.question| + |tail|
      && line[|line| - |tail|..] == tail
      && line == input.question + " \U{2014} implications over the next "
                 + Decimal(HorizonMonths(input)) + tail
      && ParseDecimal(Decimal(HorizonMonths(input))) == HorizonMonths(input)
      && (input.horizon.None? ==> HorizonMonths(input) == 24)
  {
    DecimalRoundTrip(HorizonMonths(input));
  }

  /** A missing location reads "N/A" in the second assumption; a given one
      is quoted as is. */
  lemma DefaultLocation(input: GenerateInput)
    ensures BaseArtifacts(input).quickTake.assumptions[1]
         == (if input.location.None? then "N/A" else input.location.value)
            + " macro conditions hold for 12 months"
  {
  }

  /** A missing perspective reads "me" in the upside vignette. */
  lemma DefaultPerspective(input: GenerateInput)
    requires input.perspective.None?
    ensures BaseArtifacts(input).cones[0].vignette
         == "If enablers align, " + input.question + " accelerates and " + "me" + " benefits compound."
  {
  }

  /** The run registry: the `runs` map and the completion timers not yet
      fired, each with the id and the input it was scheduled for. */
  class Registry {
    var runs: map<string, RunRecord>
    var pending: seq<(string, GenerateInput)>
    const validInput: GenerateInput -> bool
    const validOutput: Artifacts -> bool

    /** Every id with a pending timer is registered. */
    predicate Valid()
      reads this
    {
      forall k :: 0 <= k < |pending| ==> pending[k].0 in runs
    }

    constructor(validInput: GenerateInput -> bool, validOutput: Artifacts -> bool)
      ensures Valid()
      ensures runs == map[] && pending == []
      ensures this.validInput == validInput && this.validOutput == validOutput
    {
      this.validInput := validInput;
      this.validOutput := validOutput;
      runs := map[];
      pending := [];
    }

    /** `scheduleRun` (packages/api/src/index.ts:159-177): registers
        `RUN-` + suffix as processing and arms its completion timer. */
    method ScheduleRun(input: GenerateInput, suffix: string, now: Millis) returns (runId: string)
      requires Valid()
      requires |suffix| == 6
      modifies this
      ensures Valid()
      ensures runId == "RUN-" + suffix && |runId| == 10
      ensures runs == old(runs)[runId := Processing(now)]
      ensures pending == old(pending) + [(runId, input)]
      ensures runId !in old(runs) ==>
        forall x :: x in old(runs) && old(runs)[x].Ready? ==> x in runs && runs[x].Ready?
    {
      if "RUN-" + suffix !in runs {
        ReadyStaysReady(runs, "RUN-" + suffix, Processing(now));
      }
      runId := "RUN-" + suffix;
      runs := runs[runId := Processing(now)];
      pending := pending + [(runId, input)];
    }

    /** The completion callback of the k-th pending timer
        (packages/api/src/index.ts:163-174): the run becomes ready with the
        canned artifacts, whether the output validator accepts them or not. */
    method Complete(k: nat, now: Millis)
      requires Valid()
      requires k < |pending|
      modifies this
      ensures Valid()
      ensures var (id, input) := old(pending[k]);
        runs == old(runs)[id := Ready(now, BaseArtifacts(input))]
      ensures pending == old(pending[..k] + pending[k + 1..])
      ensures forall x :: x in old(runs) && old(runs)[x].Ready? ==> x in runs && runs[x].Ready?
      ensures var (id, input) := old(pending[k]);
        validOutput(BaseArtifacts(input)) ==> PollOf(runs, validOutput, id) == Reply(200, Result(BaseArtifacts(input)))
      ensures var (id, input) := old(pending[k]);
        !validOutput(BaseArtifacts(input)) ==> PollOf(runs, validOutput, id) == Reply(500, InvalidArtifacts)
    {
      var (runId, input) := pending[k];
      var artifacts := BaseArtifacts(input);
      ReadyStaysReady(runs, runId, Ready(now, artifacts));
      PollAfterComplete(runs, validOutput, runId, artifacts, now);
      if validOutput(artifacts) {
        Store(k, Ready(now, artifacts));
      } else {
        Store(k, Ready(now, artifacts));
      }
    }

    /** Records the k-th pending run and retires its timer. */
    method Store(k: nat, record: RunRecord)
      requires Valid()
      requires k < |pending|
      modifies this
      ensures Valid()
      ensures runs == old(runs)[old(pending[k]).0 := record]
      ensures pending == old(pending[..k] + pending[k + 1..])
    {
      runs := runs[pending[k].0 := record];
      pending := pending[..k] + pending[k + 1..];
    }

    /** `GET /v1/runs/:id` (packages/api/src/index.ts:191-208): answers from
        the registry and changes nothing. */
    method HandleGetRun(id: string) returns (r: Reply)
      ensures r == PollOf(runs, validOutput, id)
    {
      var record := if id in runs then Some(runs[id]) else None;
      if record.None? {
        return Reply(404, NotFound);
      }
      if !record.value.Ready? {
        return Reply(202, StillProcessing);
      }
      if !validOutput(record.value.result) {
        return Reply(500, InvalidArtifacts);
      }
      return Reply(200, Result(record.value.result));
    }

    /** `POST /v1/generate` (packages/api/src/index.ts:181-189). */
    method HandleGenerate(payload: GenerateInput, suffix: string, now: Millis) returns (r: Reply)
      requires Valid()
      requires |suffix| == 6
      modifies this
      ensures Valid()
      ensures !validInput(payload) ==>
        r == Reply(400, InvalidInput) && runs == old(runs) && pending == old(pending)
      ensures validInput(payload) ==>
        && r.status == 202 && r.body.RunAccepted?
        && r.body.runId == "RUN-" + suffix
        && runs == old(runs)[r.body.runId := Processing(now)]
        && pending == old(pending) + [(r.body.runId, payload)]
        && PollOf(runs, validOutput, r.body.runId) == Reply(202, StillProcessing)
    {
      if !validInput(payload) {
        return Reply(400, InvalidInput);
      }
      var runId := ScheduleRun(payload, suffix, now);
      r := Reply(202, RunAccepted(runId));
    }
  }

  /** The answer to a poll: 404 for an unknown id, 202 while processing,
      and for a ready run 200 with the stored result unchanged when it passes
      the output validator and 500 when it does not. */
  function PollOf(runs: map<string, RunRecord>, validOutput: Artifacts -> bool, id: string): (r: Reply)
    ensures r.status == 404 <==> id !in runs
    ensures r.status == 202 <==> id in runs && runs[id].Processing?
    ensures r.status == 500 <==> id in runs && runs[id].Ready? && !validOutput(runs[id].result)
    ensures r.status == 200 <==> id in runs && runs[id].Ready? && validOutput(runs[id].result)
    ensures r.status == 200 ==> r.body == Result(runs[id].result)
    ensures r.status == 404 ==> r.body == NotFound
    ensures r.status == 202 ==> r.body == StillProcessing
    ensures r.status == 500 ==> r.body == InvalidArtifacts
  {
    if id !in runs then Reply(404, NotFound)
    else if !runs[id].Ready? then Reply(202, StillProcessing)
    else if !validOutput(runs[id].result) then Reply(500, InvalidArtifacts)
    else Reply(200, Result(runs[id].result))
  }

  /** Once a run is stored as ready with result `a`, polling it answers 200
      with `a` when `a` passes the output validator and 500 when it does not. */
  lemma PollAfterComplete(runs: map<string, RunRecord>, validOutput: Artifacts -> bool,
                          id: string, a: Artifacts, now: Millis)
    ensures var after := runs[id := Ready(now, a)];
      && (validOutput(a) <==> PollOf(after, validOutput, id) == Reply(200, Result(a)))
      && (!validOutput(a) <==> PollOf(after, validOutput, id) == Reply(500, InvalidArtifacts))
  {
  }

  /** A ready record stays ready: completion writes only `Ready`, and
      `Processing` is written only under a fresh id. */
  lemma ReadyStaysReady(runs: map<string, RunRecord>, id: string, record: RunRecord)
    requires record.Ready? || id !in runs
    ensures forall x :: x in runs && runs[x].Ready? ==> runs[id := record][x].Ready?
  {
  }
}
