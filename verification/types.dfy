/**
 * The shared records of the demo: artifacts, explorations, saved futures and
 * the client aggregate (lib/types.ts).  Identifiers and timestamps come from
 * outside the model (random ids, the wall clock) and are opaque strings here.
 */
module Types {

  datatype Option<+T> = None | Some(value: T)

  type Id = string
  type Timestamp = string

  datatype Mode = Guided | Manual | Rapid

  datatype ArtifactType =
    | Clarify | Frame | Stakeholders | Personas | CollectionPlan
    | Signals | HorizonScan | Scenarios | Simulation | Report

  datatype ArtifactStatus = Draft | Streaming | Locked

  datatype ExplorationStatus = Idle | Running | Paused | Done

  /** The scaffolding frame an exploration carries: its time horizon, the
      names of its scope dimensions and the names of its metrics. */
  datatype FrameInfo = FrameInfo(timeHorizon: string, scopeKeys: seq<string>, metricNames: seq<string>)

  /** One streamed signal: its id, its 1-based number in the run, which of the
      three desks it cites and how many of the three tags it carries. */
  datatype SignalItem = SignalItem(id: Id, ordinal: nat, sourceIndex: nat, tagCount: nat)

  datatype ScenarioEntry = ScenarioEntry(id: Id, title: string)

  /** The payload of an artifact, one variant per artifact type.  Mock prose is
      reduced to the counts and the values the rest of the system uses. */
  datatype ArtifactData =
    | ClarifyData(query: string, bullets: nat)
    | FrameData(frame: FrameInfo)
    | StakeholdersData(primary: nat, secondary: nat)
    | PersonasData(personas: nat)
    | CollectionPlanData(domains: nat)
    | SignalsData(items: seq<SignalItem>)
    | HorizonScanData(actors: nat, metrics: nat)
    | ScenariosData(scenarios: seq<ScenarioEntry>)
    | SimulationData(sensitivity: nat, assumptions: nat)
    | ReportData(title: string)

  datatype Artifact = Artifact(
    id: Id,
    kind: ArtifactType,
    version: int,
    status: ArtifactStatus,
    data: ArtifactData,
    createdAt: Timestamp)

  datatype Exploration = Exploration(
    id: Id,
    title: string,
    query: string,
    goal: string,
    createdAt: Timestamp,
    updatedAt: Timestamp,
    mode: Mode,
    status: ExplorationStatus,
    frame: FrameInfo,
    artifacts: seq<Artifact>)

  datatype PreferableFuture = PreferableFuture(
    id: Id,
    explorationId: Id,
    scenarioId: Id,
    title: string,
    brief: string,
    tags: seq<string>,
    createdAt: Timestamp)

  datatype SignalAction = Saved | Dismissed

  datatype DemoState = DemoState(
    explorations: seq<Exploration>,
    preferableFutures: seq<PreferableFuture>,
    signalSelections: map<Id, SignalAction>)

  /** The empty aggregate every session starts from and reset returns to. */
  const DefaultState: DemoState := DemoState([], [], map[])

  /** True when no two entries of `ids` are equal. */
  predicate Distinct<T(==)>(ids: seq<T>)
  {
    forall i, j :: 0 <= i < j < |ids| ==> ids[i] != ids[j]
  }
}
