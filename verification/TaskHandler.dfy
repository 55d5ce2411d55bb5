/** The worker's entry point for Cloud Tasks deliveries. */
module TaskHandler {
  import opened Rows
  import opened Protocol
  import opened Atomic
  import opened Handlers
  import JobToken

  datatype RunStatus = BadRequest | Unauthorized | LookupFailed | Done

  /** A decoded body; None when it is not valid JSON. */
  datatype RunRequest = RunRequest(jobId: string, token: string)

  class TaskEntry {
    const executor: Executor
    const signer: JobToken.Signer
    const mac: JobToken.Mac

    constructor (executor: Executor, signer: JobToken.Signer, mac: JobToken.Mac)
      ensures this.executor == executor && this.signer == signer && this.mac == mac
    {
      this.executor, this.signer, this.mac := executor, signer, mac;
    }

    /** A task is executed exactly when its token is valid for its job and the job can be looked up;
        otherwise nothing is called, uploaded or written. `uuid` reads job ids, `configured` says whether the
        executor has its clients. Snapshots go under the repository id twice. */
    method Run(body: Option<RunRequest>, now: Time, uuid: string -> Option<JobId>, lookupOk: bool, configured: bool, fate: Fate)
      returns (status: RunStatus)
      modifies executor`objects, executor`calls, executor.api.db`jobs, executor.api.db`snapshots
      ensures status == Done <==>
        && body.Some? && body.value.jobId != "" && body.value.token != ""
        && signer.Validate(mac, body.value.jobId, body.value.token, now) == JobToken.Valid
        && uuid(body.value.jobId).Some? && lookupOk && uuid(body.value.jobId).value in old(executor.api.db.jobs)
      ensures status == Unauthorized <==>
        && body.Some? && body.value.jobId != "" && body.value.token != ""
        && signer.Validate(mac, body.value.jobId, body.value.token, now) != JobToken.Valid
      ensures status == LookupFailed <==>
        && body.Some? && body.value.jobId != "" && body.value.token != ""
        && signer.Validate(mac, body.value.jobId, body.value.token, now) == JobToken.Valid
        && uuid(body.value.jobId).Some? && !(lookupOk && uuid(body.value.jobId).value in old(executor.api.db.jobs))
      ensures status != Done || !configured ==>
        && executor.calls == old(executor.calls) && executor.objects == old(executor.objects)
        && executor.api.db.Tables() == old(executor.api.db.Tables())
      ensures status == Done && configured ==>
        var j := uuid(body.value.jobId).value;
        && old(executor.calls) <= executor.calls
        && var row, added := old(executor.api.db.jobs)[j], executor.calls[|old(executor.calls)|..];
        && Reported(added, j, old(executor.api.db.jobs), row.repo, row.repo, fate)
        && var c := added[|added| - 1].completion;
        && (c.Success? <==>
              && (row.status == Queued || row.status == Running) && fate.start == Arrives && fate.respondOk
              && fate.runOk && fate.readOk && fate.uploadOk)
        && (c.Success? ==> c.path == SnapshotPath(row.repo, row.repo, row.sha))
        && executor.objects == old(executor.objects) + if c.Success? then {c.path} else {}
    {
      if body.None? {
        return BadRequest;
      }
      var req := body.value;
      if req.jobId == "" || req.token == "" {
        return BadRequest;
      }
      if signer.Validate(mac, req.jobId, req.token, now) != JobToken.Valid {
        return Unauthorized;
      }
      var parsed := uuid(req.jobId);
      if parsed.None? {
        return BadRequest;
      }
      var j := parsed.value;
      if !lookupOk || j !in executor.api.db.jobs {
        return LookupFailed;
      }
      var repo := executor.api.db.jobs[j].repo;
      ghost var id := executor.Execute(j, repo, repo, configured, fate);
      return Done;
    }
  }
}
