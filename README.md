# yellow-news-rate: per-article pipeline, batch collection and URL-count check

This project models the core of yellow-news-rate, a service that scores news articles for "jaundice": the share of emotionally charged words in the text. The model has three parts.

- **The per-article worker `process_article`**, in both versions. The current one is in `processor.py`. The earlier one is in `main.py`.
  - A run starts from the record `{"rate": None, "url": url, "status": OK}`.
  - It fetches the page under a timeout.
  - It sanitises the page, splits it into words and scores them. In `processor.py` this happens under a second timeout; in `main.py` it is unbounded.
  - The except clauses turn a caught failure into a status.
  - The run appends the record to a shared `results` list.
- **The batch drivers.** These are `process` in `processor.py` and `main` in `main.py`. Each starts one run per URL in a task group. The task group finishes when all runs have finished.
- **The HTTP handler `handle` in `server.py`.** It splits the `urls` query parameter on commas and refuses more than ten pieces.

Modules:

- `Articles` (`articles.dfy`) holds the parts both workers share:
  - the `ProcessingStatus` enumeration and the result record;
  - the text tools the model does not interpret;
  - the events the outside world supplies: the fetch result and how long each phase takes;
  - the fetch phase, the chain of except clauses and `get_charged_words`;
  - the shared result list, a class whose `Append` extends its `records` in place.
- `Processor` (`processor.py`) and `Legacy` (`main.py`) model the two workers. Each has:
  - a function giving the outcome of a run;
  - an imperative `ProcessArticle` that builds the record step by step and appends it, proved against that function;
  - lemmas for the outcome paths.
- `Batch` holds both batch drivers. Runs are started in a loop. The task group's exit is a loop that repeatedly takes any pending run, so the completion order is left open. The only ordering result proved is that the records are a permutation of what the runs produce.
- `Server` (`server.py`) is pure. It models `str.split` and `str.join` for a one-character separator only (the handler splits on `","`), and the handler.
- `Seqs` holds a generic sequence map and the lemma that mapping preserves permutations.

How the model represents the outside world:

- **Time.** Each run gets an `Events` value: what the GET would produce, the number of seconds the fetch takes, and the number of seconds the processing phase takes up to the point where `split_by_words` returns. A phase times out exactly when its time is greater than its bound. A phase that ends exactly at its bound counts as finished.
- **Task-group scheduling.** Run `i` of a batch meets `env(i)`.
- **Collaborators.** `sanitize`, `split_by_words` and `calculate_jaundice_rate` are function-valued fields of `TextTools`. They are not interpreted.

`ArticleNotFound` comes from `sanitize`, which is synchronous and runs before the first suspension point inside the processing timeout. Entering `log_execution_time` awaits, but it never suspends. So it wins over that timeout: a page without an article is `PARSING_ERROR` however long processing would have taken.

Three facts about the code shape the model:

- **Not every failure is caught.** No except clause catches a fetch failure outside the three groups, such as a refused connection. Such a run escapes and appends nothing, and the task group raises the exception in turn, possibly wrapped in an exception group. The model calls this condition `Uncaught`; the batch result for it is `Failed`.
- **The fetch bounds are exact.** They are 5 seconds in `processor.py` (processor.py:15) and 3 in `main.py` (main.py:13).
- **No path assigns `INVALID_URL`.** A malformed URL raises `InvalidURL` and becomes `FETCH_ERROR`.

## Model

| member | source | states |
|---|---|---|
| Articles.ValueInjective | processor.py:19-24 | two members of `ProcessingStatus` have the same `.value` string iff they are the same member |
| Articles.ChargedWords | processor.py:43-54 | the charged vocabulary is the positive lines followed by the negative lines: length is the sum, prefix and suffix are the two lists, multiset is the union, nothing dropped or deduplicated |
| Articles.FetchPhase | processor.py:63-64 | the fetch times out iff it takes longer than its bound; otherwise it returns the page, or raises ClientResponseError on a bad status, InvalidURL on a malformed URL, or another exception exactly when `Uncaught` holds |
| Articles.UncaughtIffNoClause | processor.py:71-76 | `Uncaught(ev, bound)` (a fetch failure other than a bad status or malformed URL, within the deadline) holds exactly when the fetch phase raises and none of the three except clauses catches the exception |
| Articles.Caught | processor.py:71-76 | the except chain: ClientResponseError or InvalidURL gives FETCH_ERROR, ArticleNotFound gives PARSING_ERROR, a timeout gives TIMEOUT, and any other exception is not caught (each case in both directions) |
| Articles.ResultList.constructor | processor.py:83 | the shared list starts empty |
| Articles.ResultList.Append | processor.py:77 | `results.append` puts the record after the existing entries and leaves them unchanged |
| Processor.ProcessingPhase | processor.py:65-70 | `sanitize` not finding an article raises ArticleNotFound; otherwise the phase raises a timeout iff it takes longer than 10 seconds, and otherwise returns the scorer applied to the split words of the text |
| Processor.Article | processor.py:57-77 | outcome of a run, starting from `Processor.Initial` (rate None, the URL, the string "OK", processor.py:60): the record names the URL and carries the status as its string; rate is set iff the status is OK; INVALID_URL never appears; an exception escapes iff `Uncaught(ev, 5)`, and then the record is still `Initial(url)` |
| Processor.ProcessArticle | processor.py:57-77 | the imperative worker returns the escaping exception of `Article` and appends exactly the record `Article` gives (or nothing) after the existing entries |
| Processor.SuccessPath | processor.py:60-70 | when both phases succeed, status stays "OK" and rate is the scorer applied to the split words of the sanitised page |
| Processor.FetchFailureSkipsProcessing | processor.py:63-72 | a bad status or malformed URL within the fetch deadline gives "FETCH_ERROR" with no rate, and the outcome does not depend on the text tools, the charged words or the processing time |
| Processor.NotFoundIsParsingError | processor.py:67-74 | a page without an article gives "PARSING_ERROR" with no rate, whatever the processing time |
| Processor.TimeoutIff | processor.py:63-76 | "TIMEOUT" happens iff the fetch takes longer than 5 seconds, or the article is found and processing takes longer than 10 seconds; a timed-out record has no rate and does not escape |
| Processor.SeparateDeadlines | processor.py:63-65 | the two deadlines are separate scopes: any fetch time within 5 seconds gives the same outcome, so fetch time does not use up the processing budget |
| Legacy.Scoring | main.py:52-55 | with no timeout, sanitising raises ArticleNotFound iff no article is found, and otherwise the result is the scorer applied to the split words |
| Legacy.Article | main.py:44-62 | outcome of an earlier-version run, starting from `Legacy.Initial` (rate None, the URL, the member `ProcessingStatus.OK`, main.py:47): the record names the URL; rate is set iff the status is OK; the status is the enum member iff it is OK and a string otherwise; TIMEOUT iff the fetch took longer than 3 seconds; INVALID_URL never appears; an exception escapes iff `Uncaught(ev, 3)`, and then the record is still `Initial(url)` |
| Legacy.ProcessArticle | main.py:44-62 | the imperative earlier-version worker returns the escaping exception of `Legacy.Article` and appends exactly its record (or nothing) after the existing entries |
| Legacy.FailureStatuses | main.py:56-59 | a bad status or malformed URL gives the string "FETCH_ERROR", a page without an article gives the string "PARSING_ERROR", both with no rate |
| Legacy.ProcessingUnbounded | main.py:50-55 | only the fetch is time-bounded: the outcome does not depend on how long processing takes |
| Legacy.AgreesWithProcessor | main.py:47-61 | within both versions' deadlines the two workers give the same record, up to how the status is stored, and the same escape; a successful fetch taking more than 3 and at most 5 seconds, followed by processing within 10 seconds, is "TIMEOUT" in the earlier version only |
| Batch.RunOf | processor.py:87 | the run started for a URL ends with a record naming that URL, and an exception escapes iff `Uncaught` holds for its worker's bound |
| Batch.RunTask | processor.py:87 | one started run of the chosen worker returns that worker's escape and appends that worker's record |
| Batch.StartRuns | processor.py:86-87 | the start loop starts exactly the runs `Tasks(articles, env)` |
| Batch.AwaitRuns | processor.py:85-87 | waiting for the task group, in any completion order, lets no run escape iff no started run is `Uncaught`; in that case the completion order is a permutation of the started runs, and their records are appended in that order after the existing entries |
| Batch.FinishedRuns | processor.py:83-89 | once every started run has finished, in whatever order: there is one record per URL, the records are a permutation of `Expected`, and the multiset of their URLs is the multiset of input URLs |
| Batch.UrlsPermutation | processor.py:89 | record lists that are permutations of each other have the same multiset of URLs |
| Batch.RunBatch | processor.py:80-89 | a batch returns its list iff no run meets an uncaught failure; the list then has exactly `len(articles)` records, is a permutation of `Expected`, and its URL multiset equals the input URLs' |
| Batch.Process | processor.py:80-89 | `process`: the same guarantees for processor.py's worker, with fetch bound 5 |
| Batch.MainBatch | main.py:65-85 | `main`: the seven fixed URLs, with exactly 7 records whose URL multiset is the fixed list, unless a run meets an uncaught failure |
| Server.Get | server.py:7 | `query.get(key, "")`: the default when the key is absent; otherwise the value of the first pair with that key |
| Server.Split | server.py:7 | `split(",")`: exactly one more piece than there are commas, and no piece contains a comma |
| Server.JoinSplit | server.py:7 | joining the pieces of a split with the separator gives back the original string |
| Server.SplitJoin | server.py:7 | splitting the join of comma-free pieces gives back the pieces, so the split keeps every piece, including empty ones |
| Server.ErrorMessage | server.py:9-11 | the error text is exactly "too many urls in request, should be 10 or less" |
| Server.Handle | server.py:6-14 | status 400 iff there are more than 10 pieces, with the error object as body; otherwise status 200 with the split list itself |
| Server.RejectedIffTenCommas | server.py:8 | a request is refused iff its `urls` value holds at least ten commas: ten URLs are accepted, eleven refused |
| Server.MissingUrls | server.py:7 | with no `urls` parameter the response is the one-element list `[""]` |
| Server.AcceptedRoundTrip | server.py:14 | an accepted response is the list of pieces, and joining it with commas gives back the `urls` value unchanged |

## Left out

- Networking in `fetch` and `ClientSession` (aiohttp): the outcome of a GET is an input to the model (`FetchResult`). The status threshold of `raise_for_status` is hidden inside `ErrorStatus`.
- Timeout clocks (`async_timeout`): each phase's duration is an input. A phase that ends exactly at its bound is taken as finished.
- Where the processing deadline is noticed: a deadline that passes during synchronous code is noticed only at a suspension point, and the suspension points of `split_by_words` are not visible. The model measures the processing phase up to where `split_by_words` returns, and the scorer is taken not to be interrupted after that.
- Task-group scheduling (anyio): runs are sequentialised in an arbitrary completion order. When a run escapes, the batch is `Failed`, carrying the run's own exception; whether anyio wraps it in an exception group depends on the anyio version, which the code does not pin. How far the sibling runs got after cancellation, and what they appended, is not modelled.
- `sanitize`, `split_by_words`, `calculate_jaundice_rate` and `ArticleNotFound`: these live in modules that are not part of this model. They stay uninterpreted, and no bound on the rate (such as 0–100) is claimed.
- Exceptions of the text tools other than `ArticleNotFound`: none are modelled. The only exception that escapes a run is a fetch failure outside the three except clauses.
- The unawaited `split_by_words` call in `main.py`: it is treated as the same abstract function as in `processor.py`, not as a coroutine object.
- `MorphAnalyzer` construction: foreign library code, and nothing in the model depends on it.
- File reading and `splitlines` in `get_charged_words`: I/O. The model takes the two line lists as inputs and models only their concatenation.
- `log_execution_time`: monotonic time, float rounding and `print`, none of which affects the records.
- Printing the results in `main`, `web.Application`, routing, `json_response` serialisation, `web.run_app` and `asyncio.run`: I/O and framework glue.
- Decoding the query string: the query is taken as an already-decoded list of key/value pairs.
