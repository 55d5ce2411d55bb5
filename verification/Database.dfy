/** The two tables and the SQL statements of the store package, each one atomic. */
module Database {
  import opened Rows
  import opened Protocol
  import opened Atomic

  lemma {:induction false} FreshKey(keys: set<nat>) returns (n: nat)
    ensures forall k :: k in keys ==> k < n
    decreases |keys|
  {
    if keys == {} {
      n := 0;
    } else {
      var k :| k in keys;
      var m := FreshKey(keys - {k});
      n := if m > k then m else k + 1;
      forall i | i in keys
        ensures i < n
      {
        assert i == k || i in keys - {k};
      }
    }
  }

  /** Each member of `ids` once, oldest first. */
  ghost predicate OldestFirst(jobs: map<JobId, Job>, ids: set<JobId>, rows: seq<JobId>) {
    && ids <= jobs.Keys
    && (forall j :: j in rows <==> j in ids)
    && (forall i, k :: 0 <= i < k < |rows| ==>
          rows[i] != rows[k] && rows[i] in jobs && rows[k] in jobs && jobs[rows[i]].createdAt <= jobs[rows[k]].createdAt)
  }

  lemma {:induction false} OldestExists(jobs: map<JobId, Job>, ids: set<JobId>)
    requires ids != {} && ids <= jobs.Keys
    ensures exists j :: j in ids && Oldest(jobs, ids, j)
    decreases |ids|
  {
    var k :| k in ids;
    if ids == {k} {
      assert Oldest(jobs, ids, k);
    } else {
      OldestExists(jobs, ids - {k});
      var j :| j in ids - {k} && Oldest(jobs, ids - {k}, j);
      if jobs[j].createdAt <= jobs[k].createdAt {
        assert Oldest(jobs, ids, j);
      } else {
        assert Oldest(jobs, ids, k);
      }
    }
  }

  function ActiveOn(jobs: map<JobId, Job>, repo: RepoId, branch: Branch): set<JobId> {
    set j | j in jobs && OnBranch(jobs[j], repo, branch) && (jobs[j].status == Queued || jobs[j].status == Running)
  }

  class Store {
    var jobs: map<JobId, Job>
    var snapshots: map<SnapId, Snapshot>
    var clock: Time // now()

    constructor (now: Time)
      ensures jobs == map[] && snapshots == map[] && clock == now
    {
      jobs, snapshots, clock := map[], map[], now;
    }

    function Tables(): Db
      reads this
    {
      Db(jobs, snapshots)
    }

    /** `ORDER BY created_at ASC` */
    method OrderByCreatedAt(ids: set<JobId>) returns (rows: seq<JobId>)
      requires ids <= jobs.Keys
      ensures OldestFirst(jobs, ids, rows)
    {
      rows := [];
      var rest := ids;
      while rest != {}
        invariant rest <= ids
        invariant OldestFirst(jobs, ids - rest, rows)
        invariant forall i, j :: 0 <= i < |rows| && j in rest ==> rows[i] in jobs && jobs[rows[i]].createdAt <= jobs[j].createdAt
        decreases |rest|
      {
        OldestExists(jobs, rest);
        var j :| j in rest && Oldest(jobs, rest, j);
        rows := rows + [j];
        rest := rest - {j};
      }
      assert ids - rest == ids;
    }

    method GetActiveJobsForBranch(repo: RepoId, branch: Branch) returns (active: seq<JobId>)
      ensures OldestFirst(jobs, ActiveOn(jobs, repo, branch), active)
      ensures forall j :: j in active <==>
        j in jobs && jobs[j].repo == repo && jobs[j].branch == branch && (jobs[j].status == Queued || jobs[j].status == Running)
      ensures forall i, k :: 0 <= i < k < |active| ==>
        active[i] != active[k] && active[i] in jobs && active[k] in jobs && jobs[active[i]].createdAt <= jobs[active[k]].createdAt
    {
      active := OrderByCreatedAt(ActiveOn(jobs, repo, branch));
    }

    /** None is the unique violation of the delivery index. */
    method CreateJob(p: Push) returns (r: Option<JobId>)
      modifies this`jobs
      ensures r.None? <==> DeliveryUsed(old(jobs), NullIfEmpty(p.delivery))
      ensures r.None? ==> jobs == old(jobs)
      ensures r.Some? ==> r.value !in old(jobs) && jobs == old(jobs)[r.value := NewRow(p, clock)]
      ensures r.Some? ==> jobs[r.value] == Job(p.repo, p.branch, p.sha, if p.delivery == "" then None else Some(p.delivery),
                                               Queued, None, clock, None, None)
    {
      var delivery := NullIfEmpty(p.delivery);
      if delivery.Some? && exists j :: j in jobs && jobs[j].delivery == delivery {
        return None;
      }
      ghost var unused := FreshKey(jobs.Keys);
      assert unused !in jobs;
      var id: nat :| id !in jobs;
      jobs := jobs[id := NewRow(p, clock)];
      return Some(id);
    }

    method UpdateJobCommitSHA(j: JobId, sha: Sha)
      modifies this`jobs
      ensures jobs == if j in old(jobs) && old(jobs)[j].status == Queued
                      then old(jobs)[j := old(jobs)[j].(sha := sha)] else old(jobs)
    {
      if j in jobs && jobs[j].status == Queued {
        jobs := jobs[j := jobs[j].(sha := sha)];
      }
    }

    method UpdateJobStatus(j: JobId, status: Status, error: Option<string>)
      modifies this`jobs
      ensures jobs == if j in old(jobs) then old(jobs)[j := SetStatus(old(jobs)[j], status, error, clock)] else old(jobs)
      ensures j in old(jobs) ==>
        var row, row' := old(jobs)[j], jobs[j];
        && row' == row.(status := status, error := error, startedAt := row'.startedAt, finishedAt := row'.finishedAt)
        && row'.startedAt == (if status == Running then Some(clock) else row.startedAt)
        && row'.finishedAt == (if status == Queued || status == Running then row.finishedAt else Some(clock))
    {
      if j in jobs {
        jobs := jobs[j := SetStatus(jobs[j], status, error, clock)];
      }
    }

    method ClaimJob() returns (r: Option<JobId>)
      modifies this`jobs
      ensures Claims(old(jobs), clock, jobs, r)
      ensures r.None? <==> forall k :: k in old(jobs) ==> old(jobs)[k].status != Queued
      ensures r.Some? ==>
        && r.value in old(jobs) && old(jobs)[r.value].status == Queued
        && (forall k :: k in old(jobs) && old(jobs)[k].status == Queued ==> old(jobs)[r.value].createdAt <= old(jobs)[k].createdAt)
        && jobs == old(jobs)[r.value := old(jobs)[r.value].(status := Running, startedAt := Some(clock))]
    {
      var queued := AllQueued(jobs);
      assert forall k :: k in jobs && jobs[k].status == Queued ==> k in queued;
      if queued == {} {
        return None;
      }
      OldestExists(jobs, queued);
      var j :| j in queued && Oldest(jobs, queued, j);
      jobs := jobs[j := ClaimRow(jobs[j], clock)];
      return Some(j);
    }

    method TimeoutRunningJobs() returns (affected: nat)
      modifies this`jobs
      ensures jobs == Swept(old(jobs), clock)
      ensures jobs.Keys == old(jobs).Keys
      ensures forall j :: j in old(jobs) ==>
        var row := old(jobs)[j];
        jobs[j] == if row.status == Running && row.startedAt.Some? && clock - row.startedAt.value > 20 * MINUTE
                   then row.(status := Failed, error := Some("Job timed out"), finishedAt := Some(clock)) else row
      ensures affected == |set j | j in old(jobs) && Overdue(old(jobs)[j], clock)|
      ensures affected == |set j | j in old(jobs) && jobs[j] != old(jobs)[j]|
    {
      var overdue := set j | j in jobs && Overdue(jobs[j], clock);
      affected := |overdue|;
      jobs := map j | j in jobs :: if Overdue(jobs[j], clock) then TimeoutRow(jobs[j], clock) else jobs[j];
      assert overdue == set j | j in old(jobs) && jobs[j] != old(jobs)[j];
    }

    /** None is the unique violation of the (repo, branch, commit) index. */
    method InsertSnapshot(row: Snapshot) returns (r: Option<SnapId>)
      modifies this`snapshots
      ensures r.None? <==> KeyUsed(old(snapshots), row)
      ensures r.None? ==> snapshots == old(snapshots)
      ensures r.Some? ==> r.value !in old(snapshots) && snapshots == old(snapshots)[r.value := row]
    {
      if exists i :: i in snapshots && SameKey(snapshots[i], row) {
        return None;
      }
      ghost var unused := FreshKey(snapshots.Keys);
      assert unused !in snapshots;
      var id: nat :| id !in snapshots;
      snapshots := snapshots[id := row];
      return Some(id);
    }

    /** ROLLBACK to the tables as they were when the transaction began. */
    method Rollback(before: Db)
      modifies this`jobs, this`snapshots
      ensures Tables() == before
    {
      jobs, snapshots := before.jobs, before.snaps;
    }
  }
}
