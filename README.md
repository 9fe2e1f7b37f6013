# StressTest progress bookkeeping in Dafny

This project models the bookkeeping core of the `StressTest` load generator in
`main.py`. The engine sends `total_requests` GET requests to one URL on an
asyncio event loop. It counts every finished request in a shared counter and
calls the caller's progress callback `callback(completed, total)` at a cadence
derived from the workload. The refresh rate is `total_requests // 100`, meant to
give "roughly every 1 %".

The network flooding around that bookkeeping is not modelled. The bookkeeping
after each request (`main.py:41-45`) contains no `await`, so on the single
event-loop thread each completion is one atomic step. A run is therefore a
sequence of "request finished" steps applied to the engine object.

- `stress_test.dfy`, module `StressTesting`:
  - The specification of the progress schedule. `RefreshRate` is the refresh
    rate. `ReportsAfter(n, total, rate)` is the list of callbacks that the first
    `n` completions produce. The lemmas prove what that list contains.
  - The engine as the class `StressTest`. Its fields are the counter
    `completed`, the constants `url`, `total` and `refreshRate`, the run
    `handle`, and `callbackLog`, which records every callback invocation.
  - The invariant `Valid()` ties `callbackLog` to `ReportsAfter(completed, …)`.
  - `Future` is the scheduled run as far as `cancel` sees it.
- `scenarios.dfy`, module `Scenarios`: whole runs as a driver performs them
  (500 requests, fewer than 100 requests, any run of at least 100 requests,
  and cancel before and after start).

Edge cases the model states as the code behaves:

- Python's `//` by 100 is floor division. Dafny's `/` agrees with it for a
  positive divisor. For `%` only the zero test is used, and that test agrees in
  both languages for any non-zero divisor.
- For `0 <= total_requests < 100` the refresh rate is 0. (A negative total
  gives a negative rate, since `-1 // 100 == -1`, but launches no request.) The left operand of the
  `or` at `main.py:43` is `completed % 0`, so every completion counts itself and
  then raises `ZeroDivisionError` before any callback. No callback ever fires,
  not even the final `(total, total)`. `GetUrl` returns the outcome
  `ZeroDivisionError`. `MakeRequests` reports that the run raised: `gather`
  propagates the first exception.
- `cancel` before `start` evaluates `None.cancel` and raises `AttributeError`.
  This is the outcome `AttributeError` of `Cancel`.
- The constructor accepts any `total_requests`, including zero and negative
  values. It does not reject them. A total of 0 or less launches no request,
  because `range` is then empty.
- The doc comment (`main.py:9-14`) promises an update roughly every 1 %. For
  `0 <= total < 100` the code fires no callback at all. For `total >= 100` it
  fires between 100 and 199 callbacks: `total = 199` gives rate 1 and 199
  callbacks. `CallbackCountBounds` proves both bounds, and `ReportCount` gives
  the exact number.

## Model

| member | source | states |
|---|---|---|
| StressTesting.RefreshRate | main.py:26 | The rate is the floor of `total / 100` (`100 * rate <= total < 100 * rate + 100`). It is positive exactly when `total >= 100`, and 0 exactly when `0 <= total < 100`. |
| StressTesting.Launched | main.py:49 | The number of requests `range(total_requests)` launches is `max(total, 0)`: at least the total, and either the total or 0. |
| StressTesting.ReportsAfter | main.py:41-45 | After `n` completions at most `n` callbacks have fired. When the n-th completion meets the rule (rate non-zero, and `n` a multiple of the rate or equal to the total), the last callback is `(n, total)`. |
| StressTesting.ReportsExtend | main.py:41-45 | Later completions only append callbacks. The callbacks after `m` completions are a prefix of those after `n >= m` completions. |
| StressTesting.ReportsShape | main.py:41-45 | Every reported count lies between 1 and the number of completions. Every report carries the configured total. Reported counts strictly increase. |
| StressTesting.ReportsMembership | main.py:41-45 | `(k, t)` is reported within the first `n` completions iff the rate is non-zero, `1 <= k <= n`, `t == total`, and `k % rate == 0 or k == total`. |
| StressTesting.ReportCount | main.py:43-45 | After `n <= total` completions with rate `r > 0` there are `n / r` callbacks, plus one when `n == total` and `r` does not divide the total. |
| StressTesting.ReportsAreMultiples | main.py:43-45 | When the rate divides the total, the i-th callback is `(rate * (i + 1), total)`, and there are `n / rate` of them after `n` completions. |
| StressTesting.CallbackCountBounds | main.py:9-14 | For `total >= 100` the rate is positive. The total holds at least 100 multiples of the rate, and a full run fires at most 199 callbacks. These bound how closely the code meets the doc comment's "every 1 %"; `ReportCount` gives the exact count. |
| StressTesting.FullRunReports | main.py:41-50 | A full run of `total >= 100` requests ends with the callback `(total, total)` and fires between 100 and 199 callbacks. |
| StressTesting.Future.constructor | main.py:29-30 | The future that `run_coroutine_threadsafe` returns, and `start` stores, has no cancellation requested when it is created. |
| StressTesting.StressTest.constructor | main.py:15-26 | The counter is 0, the handle is absent, no callback has fired, the total is kept, and the refresh rate is `RefreshRate(total)`. |
| StressTesting.StressTest.Start | main.py:28-30 | `start` stores a fresh run handle whose cancellation has not been requested. Nothing else changes. |
| StressTesting.StressTest.Cancel | main.py:32-33 | Without a handle `cancel` raises `AttributeError` and changes nothing. With a handle it requests cancellation of that run. |
| StressTesting.StressTest.GetUrl | main.py:35-45 | Whatever the GET did, the counter rises by exactly 1. A rate of 0 raises `ZeroDivisionError` and fires nothing. Otherwise `(completed, total)` is appended to the callback log iff `completed % rate == 0` or `completed == total`, and the log is unchanged otherwise. `Valid()` is kept. |
| StressTesting.StressTest.MakeRequests | main.py:47-50 | One completion per request of `range(total)`. The counter rises by `max(total, 0)`. The callback log only grows and stays `ReportsAfter(completed, …)`. The run raises iff the rate is 0 and at least one request was launched. |
| Scenarios.FiveHundredRequests | main.py:20-50 | 500 requests fire the callbacks `(5, 500), (10, 500), …, (500, 500)`: exactly 100 calls, ending at `(500, 500)`, with the counter at 500 and no exception. |
| Scenarios.FewerThanHundredRequests | main.py:26-45 | With `0 < total < 100` the counter reaches the total, the run raises, and no callback fires. |
| Scenarios.FullRun | main.py:20-50 | With `total >= 100` the counter reaches the total and the run does not raise. The last callback is `(total, total)`. Counts strictly increase and lie in `1..total`. There are 100 to 199 callbacks. |
| Scenarios.CancelBeforeAndAfterStart | main.py:21-33 | `cancel` on a fresh engine raises `AttributeError`. After `start` it schedules cancellation of the stored run. |

## Left out

- The HTTP traffic (`ClientSession`, `session.get`) is network I/O through a library. Each request's result is a parameter (`GetOutcome`), and either result leads to exactly one increment.
- Cross-thread scheduling (`run_coroutine_threadsafe`, `call_soon_threadsafe`) is modelled only as handle transitions. `Start` stores a fresh handle, `MakeRequests` is the body of the scheduled run, and `Cancel` marks the handle as cancellation-requested.
- The interleaving of completions across concurrent requests is not modelled. Completions are indistinguishable to the bookkeeping, so `MakeRequests` applies them one after another.
- Cancellation's effect on requests still in flight is best-effort and nondeterministic, so it is not modelled. Neither is a run that stops before every request has finished.
- `print(e)` at `main.py:39` is logging only.
- An exception raised by the caller's callback is not modelled, because the callback is code outside this model.
- Closing the session before `gather` runs the requests (`main.py:48-50`) only changes whether each GET fails. `GetOutcome` already covers that.
- The URL and event loop are kept or dropped as opaque values: the model stores `url` and never reads it.
