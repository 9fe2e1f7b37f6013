/**
 * Whole runs of the engine as a driver (the progress-bar UI) would perform
 * them: construct, start, let every request finish, read the callbacks.
 */
module Scenarios {
  import opened StressTesting

  /**
   * 500 requests, each ending however `responses` says: the callback fires at
   * 5, 10, ..., 500, exactly 100 times, the last time with (500, 500).
   */
  method FiveHundredRequests(responses: seq<GetOutcome>)
    returns (log: seq<Report>, completed: nat, raised: bool)
    requires |responses| == 500
    ensures completed == 500 && !raised
    ensures |log| == 100 && log[99] == Report(500, 500)
    ensures forall i :: 0 <= i < |log| ==> log[i] == Report(5 * (i + 1), 500)
  {
    var engine := new StressTest("http://localhost:8080", 500);
    engine.Start();
    assert engine.refreshRate == 5;
    raised := engine.MakeRequests(responses);
    assert engine.completed == 500;
    ReportsAreMultiples(500, 500, 5);
    log, completed := engine.callbackLog, engine.completed;
  }

  /**
   * Fewer than 100 requests: the refresh rate is 0, so every completion
   * raises ZeroDivisionError after counting itself and no callback ever
   * fires, not even the final one.
   */
  method FewerThanHundredRequests(total: int, responses: seq<GetOutcome>)
    returns (log: seq<Report>, completed: nat, raised: bool)
    requires 0 < total < 100 && |responses| == total
    ensures completed == total
    ensures raised
    ensures log == []
  {
    var engine := new StressTest("http://localhost:8080", total);
    engine.Start();
    raised := engine.MakeRequests(responses);
    log, completed := engine.callbackLog, engine.completed;
  }

  /**
   * Any run of at least 100 requests: the counter ends at the total, the
   * last callback is (total, total), reported counts strictly increase, and
   * there are between 100 and 199 callbacks.
   */
  method FullRun(total: int, responses: seq<GetOutcome>)
    returns (log: seq<Report>, completed: nat, raised: bool)
    requires total >= 100 && |responses| == total
    ensures completed == total && !raised
    ensures log != [] && log[|log| - 1] == Report(total, total)
    ensures 100 <= |log| <= 199
    ensures forall i, j :: 0 <= i < j < |log| ==> log[i].completed < log[j].completed
    ensures forall i :: 0 <= i < |log| ==> 1 <= log[i].completed <= total
  {
    var engine := new StressTest("http://localhost:8080", total);
    engine.Start();
    raised := engine.MakeRequests(responses);
    FullRunReports(total);
    ReportsShape(total, total, RefreshRate(total));
    log, completed := engine.callbackLog, engine.completed;
  }

  /** `cancel` before `start` fails on the missing handle; after `start` it is scheduled. */
  method CancelBeforeAndAfterStart(total: int)
    returns (early: CancelOutcome, late: CancelOutcome, requested: bool)
    ensures early == AttributeError
    ensures late == CancelScheduled && requested
  {
    var engine := new StressTest("http://localhost:8080", total);
    early := engine.Cancel();
    engine.Start();
    late := engine.Cancel();
    requested := engine.handle.cancelRequested;
  }
}
