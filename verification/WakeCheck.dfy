/**
 * The executor's wake check (core/execution/executor.py) against what a wake-up run would deliver
 * (core/middleware/background_jobs/middleware.py, core/middleware/computer_reports.py).
 */
module WakeCheck {
  import opened Wrappers
  import opened Sequences
  import ChatStore
  import Jobs = BackgroundJobs
  import Reports = ComputerReports

  /** What the check reads: the checkpoint of the main agent, the chat table and the job runs. */
  datatype Head = Head(paused: bool, jobs: Jobs.Agent, reports: Reports.Agent)

  /** `head` is None when there is no checkpointer, no pool or no checkpoint, or reading any of them fails. */
  predicate HasSomethingToReport(head: Option<Head>, rows: ChatStore.Rows, runs: map<string, Jobs.Run>,
      parse: Reports.Parser) {
    match head
    case None => false
    case Some(h) =>
      !h.paused
      && (Jobs.FinishedJobs(runs, h.jobs.pending) != [] || Reports.HasUnreadReports(rows, h.reports.seen, parse))
  }

  /** Said of what it reads: no open question, and a pending job that finished or a report above the mark. */
  lemma CheckIff(head: Option<Head>, rows: ChatStore.Rows, runs: map<string, Jobs.Run>, parse: Reports.Parser)
    ensures HasSomethingToReport(head, rows, runs, parse) <==>
            head.Some? && !head.value.paused
            && ((exists id :: id in head.value.jobs.pending
                              && (id !in runs || runs[id].hasOutcome
                                  || runs[id].status == "failed" || runs[id].status == "cancelled"))
                || exists row :: row in rows && row.source == "notification" && row.sequence > head.value.reports.seen
                                 && parse(row.message.content).Some?)
  {
    if head.Some? {
      var pending := head.value.jobs.pending;
      Reports.UnreadIff(rows, head.value.reports.seen, parse);
      var finished := Jobs.FinishedJobs(runs, pending);
      forall id ensures id in finished <==> id in pending && Jobs.IsFinished(Jobs.Lookup(runs, id)) {
        Jobs.FinishedJobsIff(runs, pending, id);
      }
      if finished != [] {
        Jobs.FinishedJobsIff(runs, pending, finished[0]);
        assert finished[0] in pending;
      }
    }
  }

  /** The before-model steps of the two middlewares. */
  function BeforeModel(h: Head, rows: ChatStore.Rows, runs: map<string, Jobs.Run>, parse: Reports.Parser): Head {
    Head(h.paused, Jobs.Report(h.jobs, runs), Reports.BeforeModel(h.reports, rows, parse))
  }

  /** How many messages the agent has been given about its jobs and its computer. */
  function Told(h: Head): nat {
    |h.jobs.reported| + |h.reports.delivered|
  }

  /** The check answers yes exactly when no question is open and the first model call would tell the agent something. */
  lemma CheckPredictsDelivery(h: Head, rows: ChatStore.Rows, runs: map<string, Jobs.Run>, parse: Reports.Parser)
    ensures HasSomethingToReport(Some(h), rows, runs, parse) <==>
            !h.paused && Told(h) < Told(BeforeModel(h, rows, runs, parse))
  {
    var notices := Reports.NoticesAfter(rows, h.reports.seen);
    assert |Reports.BeforeModel(h.reports, rows, parse).delivered| ==
           |h.reports.delivered| + |Reports.UnreadReports(rows, h.reports.seen, parse).0|;
    assert |Jobs.Report(h.jobs, runs).reported| == |h.jobs.reported| + |Jobs.FinishedJobs(runs, h.jobs.pending)|;
  }

  /**
   * After that model call, and until a row is written or a job finishes, the check answers no: one wake-up is
   * enough.
   */
  lemma NothingIsLeft(h: Head, rows: ChatStore.Rows, runs: map<string, Jobs.Run>, parse: Reports.Parser)
    requires ChatStore.Sound(rows) && Reports.Exact(h.reports, rows, parse)
    ensures !HasSomethingToReport(Some(BeforeModel(h, rows, runs, parse)), rows, runs, parse)
  {
    Reports.ModelCallIsExact(h.reports, rows, parse);
    var finished := Jobs.FinishedJobs(runs, h.jobs.pending);
    var left := Jobs.Without(h.jobs.pending, set id | id in finished);
    Jobs.FinishedMeaning(runs, h.jobs.pending);
    Jobs.WithoutMeaning(h.jobs.pending, set id | id in finished);
    Jobs.FinishedMeaning(runs, left);
    var again := Jobs.FinishedJobs(runs, left);
    if again != [] {
      assert again[0] in again;
    }
  }
}
