# rkt-tuning: benchmark statistics and results collector

This project models the bookkeeping of the rkt-tuning benchmark harness, which
times `rkt fetch` for an official and a patched binary. It has two parts.

- **The benchmark session** (`tests/test_fetch.py`). Each test case times a
  number of passes. It builds a `Result` holding the maximum, minimum, total,
  average and median of the elapsed times, and appends it to the
  module-level `RESULTS` list. At the end of the session, `tearDownClass`
  sorts `RESULTS` by total. It prints each entry's figure as
  `fastest.total * 100 / entry.total` and collects the records it would
  POST to the collector.
- **The results collector** (`app/api.py`). This is a Flask service with one
  never-expiring cache slot under the key `"results"`, which holds the list
  of submitted batches. `POST /api/results` appends a batch.
  `GET /api/results` returns the list, or `[]` when nothing is stored.
  `GET /api/results/total` returns a dictionary: `"results"` holds the batch
  count, and each record name (`__name__`) holds the sum of the `total`s of
  the records with that name. The exception is a record that is itself named
  `"results"`: its total is then added to the count.

Modules:

- `Sorting` (`sorting.dfy`) models Python's stable sort by a key. It is used
  by `statistics.median` (through `sorted`) and by `RESULTS.sort(key=...)`.
- `Statistics` (`statistics.dfy`) models `Result.__init__`, including the
  exceptions it raises.
- `Benchmark` (`benchmark.dfy`) has the `Session` class, whose field is
  `RESULTS`. It models the sample loop of `fetch` and the sort and report
  loop of `tearDownClass`.
- `Collector` (`collector.dfy`) has the `Store` class, whose field is the
  cache slot. It models the three endpoints, and `Summary` is the
  specification of the summary fold.
- `Publishing` (`publishing.dfy`) connects the two parts. It maps
  `results_to_send` to the batch the collector receives, and works the
  end-to-end "baseline" scenario.

Modelling choices:

- Samples and totals are exact `real`s. Python floats are not modelled.
- The wall clock is a parameter: the elapsed time of pass `i` is `elapsed(i)`.
- The cache slot is an `Option<seq<Batch>>`. `None` means nothing is stored.
  An absent list and an empty list both read as `[]` (`if not data`).
- The `Result` constructor returns an `Outcome`:
  - no samples gives `EmptySamples` (`max()` raises `ValueError`);
  - one sample gives `SingleSample` (`statistics.stdev` raises
    `StatisticsError`);
  - two or more samples give the result.

  When it raises, the test fails and `RESULTS` is unchanged.
- In `tearDownClass`, a result whose total is zero makes the division raise
  `ZeroDivisionError`. The modelled loop stops at that entry and reports
  `completed == false`.
- Records are keyed by `__name__`.
- The endpoints live under `/api/results`.
- The collector does no input validation and takes no lock.
- A single-sample run raises from `statistics.stdev`.

## Model

| member | source | states |
|---|---|---|
| Sorting.InsertBy | tests/test_fetch.py:74 | inserting adds exactly that element (multiset) and grows the length by one |
| Sorting.InsertBySorted | tests/test_fetch.py:74 | inserting into a list sorted by key keeps it sorted |
| Sorting.SortBy | tests/test_fetch.py:74 | the result of the key sort is ordered non-decreasingly by key and is a permutation of the input (same length, same multiset) |
| Sorting.SortByStable | tests/test_fetch.py:74 | the sort is stable: for every key value, the elements carrying it appear in the same order as in the input |
| Sorting.SortBySorted | tests/test_fetch.py:74 | a list already sorted by key is left unchanged by the sort |
| Statistics.Sum | tests/test_fetch.py:22 | defines `sum(result)` as a left fold from 0; the total of non-negative samples is non-negative |
| Statistics.Max | tests/test_fetch.py:20 | `max(result)` is one of the samples and no sample exceeds it |
| Statistics.Min | tests/test_fetch.py:21 | `min(result)` is one of the samples and no sample is below it |
| Statistics.Ascending | tests/test_fetch.py:24 | `sorted(result)` as `statistics.median` uses it: ascending and a permutation of the samples |
| Statistics.Median | tests/test_fetch.py:24 | the median (middle of the sorted samples, or mean of the two middle ones) lies between min and max, and is a sample when the count is odd |
| Statistics.SumBounds | tests/test_fetch.py:22 | a sum of n samples within [lo, hi] lies within [n*lo, n*hi] |
| Statistics.MeanBounds | tests/test_fetch.py:22-23 | `average = total / len(result)` lies between the minimum and the maximum |
| Statistics.NewResult | tests/test_fetch.py:15-25 | the constructor succeeds exactly for two or more samples, raises for 0 (empty `max`) and 1 (`stdev`) samples, and on success keeps name and samples and gives total = sum, average = total/n, max/min bounds, min <= median <= max |
| Benchmark.CollectSamples | tests/test_fetch.py:118-131 | the pass loop records exactly `iterations` samples, sample i being the elapsed time of pass i |
| Benchmark.BuildReport | tests/test_fetch.py:75-83 | one line and one sent record per result, in ranked order, each line carrying `RESULTS[0].total*100/RESULTS[i].total` and the name; completes iff no total is zero, otherwise stops at the first zero total |
| Benchmark.Percentage | tests/test_fetch.py:79 | defines the figure `RESULTS[0].total * 100 / RESULTS[i].total`, defined only for a non-zero divisor; the first entry's figure is 100 |
| Benchmark.PercentagesBounded | tests/test_fetch.py:76-79 | for results sorted by total with positive totals, the first figure is exactly 100, every figure is in (0, 100], and figures never increase down the ranking |
| Benchmark.Session.constructor | tests/test_fetch.py:12 | the session starts with an empty `RESULTS` |
| Benchmark.Session.Fetch | tests/test_fetch.py:117-134 | records exactly `iterations` samples in order, builds the `Result` from them, and appends exactly that one result to `RESULTS` when construction succeeds, leaving `RESULTS` unchanged when it raises |
| Benchmark.Session.SortResults | tests/test_fetch.py:74 | `RESULTS` becomes the stable key sort of its old contents: sorted by total, a permutation, equal totals keeping their order |
| Benchmark.Session.TearDownClass | tests/test_fetch.py:70-83 | `RESULTS` is sorted by total, and the lines and `results_to_send` follow it one per result in sorted order, stopping exactly at the first zero total when there is one |
| Collector.Read | app/api.py:11-13 | defines `CACHE.get("results")` with the `if not data: data = []` default: the read is empty exactly when nothing or an empty list is stored, and is the stored list otherwise |
| Collector.Post | app/api.py:11-15 | defines the slot after one POST; reading it gives the old list (or []) with the body appended |
| Collector.PostAll | app/api.py:11-15 | defines the slot after a series of POSTs; the read length grows by the number of POSTs and the last batch read is the last one posted |
| Collector.Summary | app/api.py:32-39 | defines the summary: "results" and every record name are keys and there are no others, each holding its start value (the batch count for "results", else 0) plus the totals of the records so named |
| Collector.SummaryCountsBatches | app/api.py:33 | with no record named "results", the summary's "results" equals the number of stored batches |
| Collector.SummaryOfName | app/api.py:34-39 | a name other than "results" is a key exactly when some record carries it, and maps to the sum of the totals of the records so named |
| Collector.SummaryAfterPost | app/api.py:32-39 | appending a batch adds its names to the keys, raises "results" by one, and raises each name by the totals of its records in the new batch |
| Collector.ReadAfterPosts | app/api.py:10-15 | reading after a series of POSTs gives the previously stored list (or []) followed by the posted batches in order |
| Collector.PostsOnFreshStore | app/api.py:21-24 | n POSTs on a fresh store then GET returns exactly the n batches, and the summary counts n when no record is named "results" |
| Collector.TwoBatchesExample | app/api.py:32-39 | two batches each holding {"a", 5} summarise to {"results": 2, "a": 10} |
| Collector.SingleRecordSummary | app/api.py:32-39 | one batch of one record summarises to {"results": 1, name: total}, except that a record named "results" has its total added to the count |
| Collector.TallyStep | app/api.py:36-39 | one step of the walk: adding to a present name or initialising an absent one (the KeyError branch) keeps the running summary equal to the specification over the records seen |
| Collector.Store.constructor | app/api.py:5 | a fresh cache holds nothing under "results" |
| Collector.Store.NewResults | app/api.py:8-16 | the stored list becomes the old list (or [] if none or empty) with the body appended: earlier batches unchanged and in order, length up by one, last element the body |
| Collector.Store.GetResults | app/api.py:19-24 | returns the stored list, or [] when nothing is stored, and changes nothing |
| Collector.Store.GetSummaryResults | app/api.py:27-40 | the nested walk returns exactly the per-name sum-of-totals map plus the "results" count, and changes nothing |
| Publishing.ToRecord | tests/test_fetch.py:82 | defines `r.__dict__` as the collector reads it: the record of a result, carrying its `__name__` and `total` |
| Publishing.ToBatch | tests/test_fetch.py:75-83 | `results_to_send` becomes a batch of the same length with one record per result, in order, carrying its name and total |
| Publishing.PublishToFreshStore | app/api.py:10-39 | one session with distinct test names posted to a fresh collector: GET returns that single batch, the summary counts 1 (no test being named "results"), and each test name maps to its result's total |
| Publishing.PublishedTotal | app/api.py:34-39 | in the summary of one published session with distinct names, each test name maps to its own result's total |
| Publishing.BaselineResult | tests/test_fetch.py:15-24 | samples [1, 2, 3] give total 6, average 2, median 2, minimum 1 and maximum 3 |
| Publishing.BaselinePublished | app/api.py:32-39 | the baseline result posted to a fresh collector summarises to {"results": 1, "baseline": 6} |

## Left out

- Subprocess calls are not modelled: `rkt fetch`, `export`, `gc`, `i gc`, `mount` and `umount`, and the exit-code assertions on them. These are external processes.
- `setUpClass`, `setUp`, `tearDown`, `gc` and `gci` are not modelled. They only run those processes, copy files and check the filesystem.
- The wall clock (`time.time()`) is not modelled. Each elapsed time is an input.
- `statistics.stdev` is not modelled. It needs a float square root, so only its demand for at least two samples is kept.
- Float rounding in the sum and the average is not modelled, because samples are exact reals.
- Benchmark.BuildReport: each figure is the exact quotient. The `%d` truncation of the printed figure is not modelled.
- Printing, `json.dumps`, the `requests` POST and the `RESULT_URL` test are not modelled. Flask routing, `json.loads` and `jsonify` are not modelled either. These are I/O and serialisation.
- `FileSystemCache` persistence is not modelled. The cache slot is one in-memory field.
- Races between concurrent POSTs are not modelled. The code takes no lock, and the model is sequential.
- Publishing.ToRecord: a record keeps only `__name__` and `total`, the two fields the collector reads. The other fields of `r.__dict__` are not modelled.
- Malformed records are not modelled. A record without `__name__` or `total` makes the summary raise `KeyError`.
- Environment variables (`RKT_PATCHED`, `ACIS`, `RESULT_URL`, `GOMAXPROCS`) and `multiprocessing.cpu_count` are not modelled.
