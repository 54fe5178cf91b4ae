/** The two halves together: the protocol whose runs deliver what Export.dfy specifies. */
module Service {
  import opened Base
  import opened Types
  import opened Search
  import opened Export
  import opened ExportProperties
  import opened Protocol
  import opened Safety
  import Sorting

  /** Settings, and the index as each point in time shows it. */
  datatype World = World(settings: Settings, index: nat -> seq<Doc>)

  function JobFor(id: TaskId, pit: Pit): Job {
    Job(id, pit.scope.caller, pit.day, pit.scope.channels, pit.scope.range)
  }

  function ServiceConfig(world: World, gateCap: nat, queueCap: nat): Config
    requires world.settings.pageSize > 0
  {
    Config(gateCap, queueCap,
           (id, pit: Pit) => RunPlan(world.settings, world.index(pit.at), JobFor(id, pit)),
           (id, pit: Pit) => Searches(world.settings, RunVisits(world.settings, world.index(pit.at), JobFor(id, pit))))
  }

  lemma ServiceConfigOk(world: World, gateCap: nat, queueCap: nat)
    requires world.settings.pageSize > 0 && gateCap > 0 && queueCap > 0
    ensures ConfigOk(ServiceConfig(world, gateCap, queueCap))
  {
    forall id: TaskId, pit: Pit
      ensures var plan := RunPlan(world.settings, world.index(pit.at), JobFor(id, pit));
              && Dense(plan.parts)
              && (forall k :: 0 <= k < |plan.parts| ==> plan.parts[k].taskId == id)
              && plan.count == TotalMessages(plan.parts)
    {
      PlanWellFormed(world.settings, world.index(pit.at), JobFor(id, pit));
    }
  }

  /** A row and its parts are the export of what the row asks for, read from one point in time:
      as many messages as the row says, `completed` exactly when no hit was left out, and a
      client that fetches the parts gets the lines of the capped channel prefixes in order. */
  ghost predicate IsExport(settings: Settings, index: seq<Doc>, job: Job, row: Task, parts: seq<Part>) {
    var visits := RunVisits(settings, index, job);
    var lines := Lines(settings.codec, VisitHits(visits));
    && job == Job(job.taskId, row.caller, job.day, row.channels, row.range)
    && row.actualCount == |lines|
    && row.warnings == Warnings(settings, visits)
    && (row.status == Completed <==> VisitHits(visits) == AllHits(index, job, Sorting.SortStrings(row.channels)))
    && (row.status == Completed || row.status == Partial)
    && forall objects: map<string, Bytes> ::
         Lossless(settings.codec) && MarshalsJson(settings.codec)
         && Stored(settings.codec, objects, parts, RunContents(settings, index, job)) ==>
           Download(settings.codec, objects, parts) == Some(lines)
  }

  lemma PlanIsExport(settings: Settings, index: seq<Doc>, job: Job, row: Task, parts: seq<Part>)
    requires job == Job(job.taskId, row.caller, job.day, row.channels, row.range)
    requires parts == RunPlan(settings, index, job).parts && row.warnings == RunPlan(settings, index, job).warnings
    requires row.actualCount == TotalMessages(parts)
    requires row.status == Completed <==> row.warnings == []
    requires row.status.IsPublished()
    ensures IsExport(settings, index, job, row, parts)
  {
    PlanWellFormed(settings, index, job);
    CompletedIffNothingDropped(settings, index, job);
    forall objects: map<string, Bytes> |
        Lossless(settings.codec) && MarshalsJson(settings.codec)
        && Stored(settings.codec, objects, parts, RunContents(settings, index, job))
      ensures Download(settings.codec, objects, parts)
           == Some(Lines(settings.codec, VisitHits(RunVisits(settings, index, job))))
    {
      DownloadIsExport(settings, index, job, objects);
    }
  }

  /** End to end: under every interleaving of submitters, workers, cancels, polls, failures and
      a shutdown, parts shown to a poll are the export its task asked for. */
  lemma PollsShowExports(world: World, gateCap: nat, queueCap: nat, s: State, i: nat)
    requires world.settings.pageSize > 0
    requires Reachable(ServiceConfig(world, gateCap, queueCap), s)
    requires i < |s.pollers| && s.pollers[i].Shown? && s.pollers[i].answer.Delivered?
    ensures exists at: nat, job: Job :: job.taskId == s.pollers[i].id
              && IsExport(world.settings, world.index(at), job, s.pollers[i].answer.row, s.pollers[i].answer.parts)
  {
    var cfg := ServiceConfig(world, gateCap, queueCap);
    var id, row, parts := s.pollers[i].id, s.pollers[i].answer.row, s.pollers[i].answer.parts;
    PublicationSafety(cfg, s);
    assert Published(cfg, id, row, parts);
    PollStatus(cfg, s, i);
    hide Reachable, IsExport;
    var pit: Pit :| pit.scope == ScopeOf(row)
                    && parts == cfg.plan(id, pit).parts && row.warnings == cfg.plan(id, pit).warnings;
    PlanIsExport(world.settings, world.index(pit.at), JobFor(id, pit), row, parts);
  }

  lemma PollStatus(cfg: Config, s: State, i: nat)
    requires Reachable(cfg, s) && i < |s.pollers| && s.pollers[i].Shown? && s.pollers[i].answer.Delivered?
    ensures s.pollers[i].answer.row.status.IsPublished()
  {
    ReachableInv(cfg, s);
    PollerShows(cfg, s, i);
  }
}
