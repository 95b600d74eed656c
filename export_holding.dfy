/**
 * The holdings export button: it asks the analytics service to build a CSV
 * file, then checks the job's status every 3 seconds until the file is ready,
 * and finally sends the browser to the file's URL.
 */
module ExportHolding {
  import opened Common

  /** The creation request's query: `type`, then each date only when it is set and non-empty. */
  function ExportParams(exportType: string, startDate: Option<string>, endDate: Option<string>): seq<(string, string)> {
    [("type", exportType)]
      + (if startDate.Some? && startDate.value != "" then [("start_date", startDate.value)] else [])
      + (if endDate.Some? && endDate.value != "" then [("end_date", endDate.value)] else [])
  }

  /** The query always starts with the type; a date appears, once, exactly when it is set and non-empty. */
  lemma ExportParamsSpec(exportType: string, startDate: Option<string>, endDate: Option<string>)
    ensures var r := ExportParams(exportType, startDate, endDate);
      && 1 <= |r| <= 3
      && r[0] == ("type", exportType)
      && (forall v :: ("start_date", v) in r <==> startDate == Some(v) && v != "")
      && (forall v :: ("end_date", v) in r <==> endDate == Some(v) && v != "")
      && |r| == 1 + (if startDate.Some? && startDate.value != "" then 1 else 0) + (if endDate.Some? && endDate.value != "" then 1 else 0)
  {
  }

  /** What a status check returns: the job's status and, once built, the file's URL. */
  datatype JobStatus = JobStatus(status: string, fileUrl: Option<string>)

  /** The file is ready: status "complete" with a non-empty URL. */
  predicate Ready(j: JobStatus) {
    j.status == "complete" && j.fileUrl.Some? && j.fileUrl.value != ""
  }

  /**
   * The poller's state: whether the button spins, the job whose status check
   * is due (if any), how many status requests were sent and which URLs the
   * browser was sent to.
   */
  datatype PollState = PollState(loading: bool, pendingJob: Option<string>, statusRequests: nat, downloads: seq<string>)

  /**
   * One status check of the due job. A ready file is opened and ends the
   * export; "pending" keeps the job due for one more check; any other
   * answer ends polling with the button still spinning; a failed request
   * ends polling and stops the spinner. With no job due nothing happens.
   */
  function Check(s: PollState, response: Outcome<JobStatus>): (r: PollState)
    ensures s.pendingJob.None? ==> r == s
    ensures s.pendingJob.Some? ==> r.statusRequests == s.statusRequests + 1
    ensures r.pendingJob.Some? ==> r.pendingJob == s.pendingJob
    ensures |s.downloads| <= |r.downloads| <= |s.downloads| + 1
    ensures |r.downloads| > |s.downloads| ==> r.pendingJob.None? && !r.loading
  {
    if s.pendingJob.None? then s
    else
      var sent := s.(statusRequests := s.statusRequests + 1);
      match response
      case Failed(_) => sent.(loading := false, pendingJob := None)
      case Ok(job) =>
        if Ready(job) then sent.(loading := false, pendingJob := None, downloads := s.downloads + [job.fileUrl.value])
        else if job.status == "pending" then sent
        else sent.(pendingJob := None)
  }

  /** The checks the timer runs, one answer each, until no check is due or the answers run out. */
  function Poll(s: PollState, responses: seq<Outcome<JobStatus>>): PollState
    decreases |responses|
  {
    if responses == [] || s.pendingJob.None? then s
    else Poll(Check(s, responses[0]), responses[1..])
  }

  function Pendings(k: nat): (r: seq<Outcome<JobStatus>>)
    ensures |r| == k
    ensures forall i :: 0 <= i < k ==> r[i] == Ok(JobStatus("pending", None))
  {
    if k == 0 then [] else [Ok(JobStatus("pending", None))] + Pendings(k - 1)
  }

  /**
   * k "pending" answers and then a ready file: exactly k + 1 status
   * requests, one download of that file, the spinner stopped and nothing
   * left to check, whatever answers would have followed.
   */
  lemma {:induction false} PendingThenReady(s: PollState, k: nat, url: string, later: seq<Outcome<JobStatus>>)
    requires s.pendingJob.Some? && url != ""
    ensures var r := Poll(s, Pendings(k) + [Ok(JobStatus("complete", Some(url)))] + later);
      && r.statusRequests == s.statusRequests + k + 1
      && r.downloads == s.downloads + [url]
      && !r.loading && r.pendingJob.None?
    decreases k
  {
    var rs := Pendings(k) + [Ok(JobStatus("complete", Some(url)))] + later;
    if k == 0 {
      assert rs[0] == Ok(JobStatus("complete", Some(url)));
      assert Poll(s, rs) == Poll(Check(s, rs[0]), rs[1..]);
    } else {
      assert rs[0] == Ok(JobStatus("pending", None));
      assert rs[1..] == Pendings(k - 1) + [Ok(JobStatus("complete", Some(url)))] + later;
      PendingThenReady(Check(s, rs[0]), k - 1, url, later);
    }
  }

  /** A failed status request ends the export after that one request, with no download. */
  lemma CheckFailureStops(s: PollState, e: Thrown, later: seq<Outcome<JobStatus>>)
    requires s.pendingJob.Some?
    ensures var r := Poll(s, [Failed(e)] + later);
      && r.statusRequests == s.statusRequests + 1
      && r.downloads == s.downloads
      && !r.loading && r.pendingJob.None?
  {
    assert ([Failed(e)] + later)[1..] == later;
  }

  /**
   * An answer that is neither ready nor "pending" (say "complete" with no
   * URL) ends polling after that request, but the spinner keeps spinning.
   */
  lemma UnknownStatusStops(s: PollState, job: JobStatus, later: seq<Outcome<JobStatus>>)
    requires s.pendingJob.Some? && !Ready(job) && job.status != "pending"
    ensures var r := Poll(s, [Ok(job)] + later);
      && r.statusRequests == s.statusRequests + 1
      && r.downloads == s.downloads
      && r.loading == s.loading && r.pendingJob.None?
  {
    assert ([Ok(job)] + later)[1..] == later;
  }

  /** However the service answers, the file is opened at most once and each answer costs at most one request. */
  lemma {:induction false} PollBounds(s: PollState, responses: seq<Outcome<JobStatus>>)
    ensures var r := Poll(s, responses);
      && s.statusRequests <= r.statusRequests <= s.statusRequests + |responses|
      && |s.downloads| <= |r.downloads| <= |s.downloads| + 1
      && r.downloads[..|s.downloads|] == s.downloads
      && (|r.downloads| > |s.downloads| ==> !r.loading && r.pendingJob.None?)
    decreases |responses|
  {
    if responses != [] && s.pendingJob.Some? {
      var t := Check(s, responses[0]);
      PollBounds(t, responses[1..]);
      var r := Poll(t, responses[1..]);
      if |t.downloads| > |s.downloads| {
        assert r == t;
      }
      assert t.downloads[..|s.downloads|] == s.downloads;
    }
  }

  /** The export button and its poller. */
  class ExportPoller {
    var loading: bool
    var pendingJob: Option<string>
    var statusRequests: nat
    var downloads: seq<string>

    function State(): PollState
      reads this
    {
      PollState(loading, pendingJob, statusRequests, downloads)
    }

    constructor ()
      ensures !loading && pendingJob.None? && statusRequests == 0 && downloads == []
    {
      loading := false;
      pendingJob := None;
      statusRequests := 0;
      downloads := [];
    }

    /**
     * A menu item was chosen. No type: nothing happens and no request is
     * made. Otherwise the spinner starts and the creation request is sent
     * with these parameters.
     */
    method HandleExport(exportType: string, startDate: Option<string>, endDate: Option<string>)
      returns (request: Option<seq<(string, string)>>)
      modifies this`loading
      ensures exportType == "" ==> request.None? && loading == old(loading)
      ensures exportType != "" ==> loading && request == Some(ExportParams(exportType, startDate, endDate))
    {
      if exportType == "" {
        return None;
      }
      loading := true;
      request := Some(ExportParams(exportType, startDate, endDate));
    }

    /**
     * The creation request ended. A non-empty job id makes its first status
     * check due; a response without one leaves everything as it is; a failed
     * request stops the spinner and nothing is polled.
     */
    method ExportAnswered(response: Outcome<Option<string>>)
      modifies this`loading, this`pendingJob
      ensures response.Ok? && response.value.Some? && response.value.value != "" ==>
        pendingJob == response.value && loading == old(loading)
      ensures response.Ok? && (response.value.None? || response.value.value == "") ==>
        pendingJob == old(pendingJob) && loading == old(loading)
      ensures response.Failed? ==> !loading && pendingJob == old(pendingJob)
    {
      match response
      case Failed(_) =>
        loading := false;
      case Ok(jobId) =>
        if jobId.Some? && jobId.value != "" {
          pendingJob := jobId;
        }
    }

    /** The due status check runs and gets `response`. */
    method CheckJobStatus(response: Outcome<JobStatus>)
      requires pendingJob.Some?
      modifies this
      ensures statusRequests == old(statusRequests) + 1
      ensures response.Ok? && Ready(response.value) ==>
        !loading && pendingJob.None? && downloads == old(downloads) + [response.value.fileUrl.value]
      ensures response.Ok? && !Ready(response.value) && response.value.status == "pending" ==>
        loading == old(loading) && pendingJob == old(pendingJob) && downloads == old(downloads)
      ensures response.Ok? && !Ready(response.value) && response.value.status != "pending" ==>
        loading == old(loading) && pendingJob.None? && downloads == old(downloads)
      ensures response.Failed? ==> !loading && pendingJob.None? && downloads == old(downloads)
      ensures State() == Check(old(State()), response)
    {
      statusRequests := statusRequests + 1;
      match response
      case Failed(_) =>
        loading := false;
        pendingJob := None;
      case Ok(job) =>
        if Ready(job) {
          downloads := downloads + [job.fileUrl.value];
          loading := false;
          pendingJob := None;
        } else if job.status != "pending" {
          pendingJob := None;
        }
    }

    /** The timer fires while a check is due, taking the service's answers in order. */
    method RunScheduledChecks(responses: seq<Outcome<JobStatus>>) returns (used: nat)
      modifies this
      ensures State() == Poll(old(State()), responses)
      ensures used <= |responses|
      ensures used == statusRequests - old(statusRequests)
    {
      used := 0;
      while used < |responses| && pendingJob.Some?
        invariant used <= |responses|
        invariant Poll(State(), responses[used..]) == Poll(old(State()), responses)
        invariant used == statusRequests - old(statusRequests)
        decreases |responses| - used
      {
        CheckJobStatus(responses[used]);
        assert responses[used..][1..] == responses[used + 1..];
        used := used + 1;
      }
    }
  }
}
