/** The cleanup a cancel makes: internal/result/s3.go deletes every object under the prefix of
    the task, named with the day of the cancel. */
module Cleanup {
  import opened Base
  import opened Search
  import opened Export
  import opened ExportProperties
  import Keys

  /** A strings.HasPrefix listing, all of it deleted. */
  function DeletePrefix(objects: map<string, Bytes>, prefix: string): map<string, Bytes> {
    map key | key in objects && !(prefix <= key) :: objects[key]
  }

  /** The exact condition under which an export outlives a cleanup that ran to its end: it has
      no parts, or the cleanup named another day, caller or task. So a published task whose row
      a cancel had switched before, on the day of its parts, keeps its row and loses its objects. */
  lemma ExportOutlivesCleanupIff(cfg: Settings, index: seq<Doc>, job: Job, objects: map<string, Bytes>,
                                 day: string, caller: string, id: string)
    requires Keys.SlashFree(job.day) && Keys.SlashFree(job.caller) && Keys.SlashFree(job.taskId)
    requires Keys.SlashFree(day) && Keys.SlashFree(caller) && Keys.SlashFree(id)
    requires Stored(cfg.codec, objects, RunPlan(cfg, index, job).parts, RunContents(cfg, index, job))
    ensures var plan := RunPlan(cfg, index, job);
            var left := DeletePrefix(objects, Keys.TaskPrefix(cfg.keyPrefix, day, caller, id));
            Stored(cfg.codec, left, plan.parts, RunContents(cfg, index, job))
            <==> plan.parts == [] || (job.day, job.caller, job.taskId) != (day, caller, id)
  {
    var parts := RunPlan(cfg, index, job).parts;
    var prefix := Keys.TaskPrefix(cfg.keyPrefix, day, caller, id);
    forall k | 0 <= k < |parts|
      ensures prefix <= parts[k].s3Key <==> (job.day, job.caller, job.taskId) == (day, caller, id)
    {
      Keys.KeyIsolation(cfg.keyPrefix, job.day, job.caller, job.taskId, k, day, caller, id);
    }
    if parts != [] && (job.day, job.caller, job.taskId) == (day, caller, id) {
      assert parts[0].s3Key !in DeletePrefix(objects, prefix);
    }
  }
}
