/**
 * The job status tracker of controller/jobs.go. Job reports and errors
 * arrive on two channels; each report updates the running-jobs and
 * failed-jobs maps, each error is appended to the status error. The
 * goroutine, mutex and sleep around the step are not modelled: the channels
 * are queues and the step is taken one message at a time.
 */
module JobsController {
  import opened Text
  import opened GoMap
  import opened Proto

  /** How a failure is reported: "<description> failed due to <message>". */
  function FailureLine(job: JobResult): string {
    job.description + " failed due to " + job.failureMessage
  }

  /**
   * The effect of one job report on the two maps: a job that is not done is
   * running under its description, a done job no longer runs, and a
   * non-empty failure message is recorded whether or not the job is done.
   */
  function JobStep(running: map<string, string>, failed: map<string, string>, job: JobResult): (r: (map<string, string>, map<string, string>))
    ensures !job.done ==> r.0 == running[job.id := job.description]
    ensures job.done ==> r.0 == running - {job.id}
    ensures job.done && job.id !in running ==> r.0 == running
    ensures job.failureMessage != "" ==> r.1 == failed[job.id := FailureLine(job)]
    ensures job.failureMessage == "" ==> r.1 == failed
  {
    var running' := if !job.done then running[job.id := job.description]
                     else if job.id in running then running - {job.id} else running;
    var failed' := if |job.failureMessage| > 0 then failed[job.id := FailureLine(job)] else failed;
    (running', failed')
  }

  /** The maps after a sequence of reports, starting from `start`. */
  function ApplyAll(start: (map<string, string>, map<string, string>), jobs: seq<JobResult>): (map<string, string>, map<string, string>) {
    if jobs == [] then start
    else
      var before := ApplyAll(start, jobs[..|jobs| - 1]);
      JobStep(before.0, before.1, jobs[|jobs| - 1])
  }

  /** The index of the last report about `id`, or -1. */
  function LastReport(jobs: seq<JobResult>, id: string): (i: int)
    ensures -1 <= i < |jobs|
    ensures i >= 0 ==> jobs[i].id == id && forall j :: i < j < |jobs| ==> jobs[j].id != id
    ensures i == -1 ==> forall j :: 0 <= j < |jobs| ==> jobs[j].id != id
  {
    if jobs == [] then -1
    else if jobs[|jobs| - 1].id == id then |jobs| - 1
    else LastReport(jobs[..|jobs| - 1], id)
  }

  /**
   * After a stream of reports from an empty tracker, a job is listed as
   * running exactly when its last report says it is not done, under that
   * report's description.
   */
  lemma {:induction false} RunningFollowsLastReport(jobs: seq<JobResult>, id: string)
    ensures var running := ApplyAll((map[], map[]), jobs).0;
            var i := LastReport(jobs, id);
            (id in running <==> i >= 0 && !jobs[i].done)
            && (id in running ==> running[id] == jobs[i].description)
  {
    if jobs != [] {
      RunningFollowsLastReport(jobs[..|jobs| - 1], id);
    }
  }

  /**
   * After a stream of reports from an empty tracker, a job is listed as
   * failed exactly when some report about it carried a failure message; the
   * entry is the last such report's line. Failures are never forgotten.
   */
  lemma {:induction false} FailedKeepsEveryFailure(jobs: seq<JobResult>, id: string)
    ensures var failed := ApplyAll((map[], map[]), jobs).1;
            (id in failed <==> exists j | 0 <= j < |jobs| :: jobs[j].id == id && jobs[j].failureMessage != "")
            && (id in failed ==> exists j | 0 <= j < |jobs| :: jobs[j].id == id && jobs[j].failureMessage != "" && failed[id] == FailureLine(jobs[j]))
  {
    if jobs != [] {
      var prefix := jobs[..|jobs| - 1];
      FailedKeepsEveryFailure(prefix, id);
      var last := jobs[|jobs| - 1];
      if last.id == id && last.failureMessage != "" {
        assert jobs[|jobs| - 1].id == id && jobs[|jobs| - 1].failureMessage != "";
      } else {
        if exists j | 0 <= j < |jobs| :: jobs[j].id == id && jobs[j].failureMessage != "" {
          var j :| 0 <= j < |jobs| && jobs[j].id == id && jobs[j].failureMessage != "";
          assert j < |jobs| - 1 && prefix[j] == jobs[j];
        }
        var failed := ApplyAll((map[], map[]), prefix).1;
        if id in failed {
          var j :| 0 <= j < |prefix| && prefix[j].id == id && prefix[j].failureMessage != "" && failed[id] == FailureLine(prefix[j]);
          assert jobs[j] == prefix[j];
        }
      }
    }
  }

  function Min(a: int, b: int): int { if a <= b then a else b }

  /** `res` is the first three of the map's values in sorted order, and `more` says whether there are others. */
  ghost predicate Summarizes(res: seq<string>, more: bool, m: map<string, string>) {
    (more <==> |m| > 3) && |res| == Min(3, |m|) &&
    exists all :: Sorted(all) && ListsValues(all, m) && res <= all
  }

  /** The summary does not depend on the order in which Go visits the map. */
  lemma SummaryDeterministic(a: seq<string>, moreA: bool, b: seq<string>, moreB: bool, m: map<string, string>)
    requires Summarizes(a, moreA, m) && Summarizes(b, moreB, m)
    ensures a == b && moreA == moreB
  {
    var x :| Sorted(x) && ListsValues(x, m) && a <= x;
    var y :| Sorted(y) && ListsValues(y, m) && b <= y;
    ListingsAgree(x, y, m);
    SortedUnique(x, y);
  }

  /** The summary loop shared by the running and the failed jobs: list the values, sort them, keep three. */
  method TopThree(m: map<string, string>) returns (res: seq<string>, more: bool)
    ensures Summarizes(res, more, m)
  {
    if |m| == 0 {
      assert Sorted([]) && ListsValues([], m);
      return [], false;
    }
    var all := Values(m);
    all := SortStrings(all);
    var count := 3;
    if |all| < 3 {
      count := |all|;
    }
    res, more := all[..count], |m| > 3;
  }

  class Jobs {
    var runningJobsMap: map<string, string>
    var failedJobsMap: map<string, string>
    var statusErr: string
    /** The reports published and not yet taken (`jobChan`). */
    var jobQueue: seq<JobResult>
    /** The errors published and not yet taken (`errorChan`). */
    var errorQueue: seq<string>

    /** `NewJobs` (lines 22-34): empty maps, no error, empty channels. */
    constructor()
      ensures runningJobsMap == map[] && failedJobsMap == map[] && statusErr == ""
      ensures jobQueue == [] && errorQueue == []
    {
      runningJobsMap, failedJobsMap, statusErr := map[], map[], "";
      jobQueue, errorQueue := [], [];
    }

    /** `RunningJobs` (lines 36-49): every running job's description, sorted (nil when none run). */
    method RunningJobs() returns (res: seq<string>)
      ensures Sorted(res) && ListsValues(res, runningJobsMap)
      ensures |res| == |runningJobsMap|
    {
      if |runningJobsMap| == 0 {
        return [];
      }
      res := Values(runningJobsMap);
      res := SortStrings(res);
    }

    /** `RunningJobsSummary` (lines 51-68): the first three sorted descriptions, and whether there are more. */
    method RunningJobsSummary() returns (res: seq<string>, more: bool)
      ensures Summarizes(res, more, runningJobsMap)
    {
      res, more := TopThree(runningJobsMap);
    }

    /** `FailedJobs` (lines 70-83): every failure line, sorted (nil when none failed). */
    method FailedJobs() returns (res: seq<string>)
      ensures Sorted(res) && ListsValues(res, failedJobsMap)
      ensures |res| == |failedJobsMap|
    {
      if |failedJobsMap| == 0 {
        return [];
      }
      res := Values(failedJobsMap);
      res := SortStrings(res);
    }

    /** `FailedJobsSummary` (lines 85-102): the first three sorted failure lines, and whether there are more. */
    method FailedJobsSummary() returns (res: seq<string>, more: bool)
      ensures Summarizes(res, more, failedJobsMap)
    {
      res, more := TopThree(failedJobsMap);
    }

    /** The job case of `UpdateStatus`'s select (lines 107-119): take the next report and apply it. */
    method ReceiveJob()
      requires |jobQueue| > 0
      modifies this
      ensures (runningJobsMap, failedJobsMap) == JobStep(old(runningJobsMap), old(failedJobsMap), old(jobQueue[0]))
      ensures jobQueue == old(jobQueue[1..]) && errorQueue == old(errorQueue) && statusErr == old(statusErr)
    {
      var job := jobQueue[0];
      jobQueue := jobQueue[1..];
      if !job.done {
        runningJobsMap := runningJobsMap[job.id := job.description];
      } else {
        if job.id in runningJobsMap {
          runningJobsMap := runningJobsMap - {job.id};
        }
      }
      if |job.failureMessage| > 0 {
        failedJobsMap := failedJobsMap[job.id := job.description + " failed due to " + job.failureMessage];
      }
    }

    /** The error case of `UpdateStatus`'s select (lines 121-122): the error is appended, earlier ones are kept. */
    method ReceiveError()
      requires |errorQueue| > 0
      modifies this
      ensures statusErr == old(statusErr) + "\nFailed due to " + old(errorQueue[0])
      ensures errorQueue == old(errorQueue[1..]) && jobQueue == old(jobQueue)
      ensures runningJobsMap == old(runningJobsMap) && failedJobsMap == old(failedJobsMap)
    {
      statusErr := statusErr + "\nFailed due to " + errorQueue[0];
      errorQueue := errorQueue[1..];
    }

    /** `PublishError` (lines 128-130). */
    method PublishError(err: string)
      modifies this
      ensures errorQueue == old(errorQueue) + [err]
      ensures jobQueue == old(jobQueue) && statusErr == old(statusErr)
      ensures runningJobsMap == old(runningJobsMap) && failedJobsMap == old(failedJobsMap)
    {
      errorQueue := errorQueue + [err];
    }

    /** `Publish` (lines 132-135): queue the report and hand back the very same report. */
    method Publish(job: JobResult) returns (r: JobResult)
      modifies this
      ensures r == job
      ensures jobQueue == old(jobQueue) + [job]
      ensures errorQueue == old(errorQueue) && statusErr == old(statusErr)
      ensures runningJobsMap == old(runningJobsMap) && failedJobsMap == old(failedJobsMap)
    {
      jobQueue := jobQueue + [job];
      return job;
    }
  }
}
