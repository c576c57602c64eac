/** The two batch drivers, processor.py's `process` and main.py's `main`: each
    starts one run of its `process_article` per URL in an anyio task group,
    all appending to one shared list, and waits for all of them. */
module Batch {
  import opened Articles
  import Seqs
  import Processor
  import Legacy

  /** Which `process_article` the runs of a task group execute. */
  datatype Worker = ProcessorWorker | MainWorker

  /** The fetch deadline of a worker. */
  function Bound(worker: Worker): nat
  {
    match worker
    case ProcessorWorker => Processor.FetchTimeout
    case MainWorker => Legacy.FetchTimeout
  }

  /** The outcome of a started run. */
  function RunOf(worker: Worker, tools: TextTools, charged: seq<string>, t: Task): (run: Run)
    ensures run.record.url == t.url
    ensures run.escaped.Some? <==> Uncaught(t.events, Bound(worker))
  {
    match worker
    case ProcessorWorker => Processor.Article(t.url, tools, charged, t.events)
    case MainWorker => Legacy.Article(t.url, tools, charged, t.events)
  }

  /** The record a started run ends with. */
  function RecordOf(worker: Worker, tools: TextTools, charged: seq<string>): Task -> Record
  {
    (t: Task) => RunOf(worker, tools, charged, t).record
  }

  /** The records of runs that finish in the order `done`. */
  function Records(worker: Worker, done: seq<Task>, tools: TextTools, charged: seq<string>): seq<Record>
  {
    Seqs.Map(RecordOf(worker, tools, charged), done)
  }

  /** The record each run of a batch ends with, in the order the runs were started. */
  function Expected(worker: Worker, articles: seq<string>, tools: TextTools, charged: seq<string>,
                    env: nat -> Events): seq<Record>
  {
    seq(|articles|, i requires 0 <= i < |articles| => RunOf(worker, tools, charged, Task(articles[i], env(i))).record)
  }

  /** One run of the worker, appending to the shared list. */
  method RunTask(worker: Worker, results: ResultList, t: Task, tools: TextTools, charged: seq<string>)
    returns (escaped: Option<Raised>)
    modifies results
    ensures escaped == RunOf(worker, tools, charged, t).escaped
    ensures results.records == old(results.records) + Appended(RunOf(worker, tools, charged, t))
  {
    match worker
    case ProcessorWorker =>
      escaped := Processor.ProcessArticle(results, t.url, tools, charged, t.events);
    case MainWorker =>
      escaped := Legacy.ProcessArticle(results, t.url, tools, charged, t.events);
  }

  /** The loop `for url in articles: tg.start_soon(process_article, ...)`: run
      `i` is started for `articles[i]` and meets the events `env(i)`. */
  method StartRuns(articles: seq<string>, env: nat -> Events) returns (started: seq<Task>)
    ensures started == Tasks(articles, env)
  {
    started := [];
    for i := 0 to |articles|
      invariant |started| == i
      invariant forall j :: 0 <= j < i ==> started[j] == Task(articles[j], env(j))
    {
      started := started + [Task(articles[i], env(i))];
    }
  }

  /** The exit of `async with create_task_group()`: waits for every started
      run, which finish in an order the model leaves open (each step takes any
      run still pending). Either none escapes, and `done` is the completion
      order, a permutation of `started`, whose records were appended; or one
      escapes, and the group raises it. */
  method AwaitRuns(worker: Worker, results: ResultList, started: seq<Task>, tools: TextTools, charged: seq<string>)
    returns (escaped: Option<Raised>, ghost done: seq<Task>)
    modifies results
    ensures escaped.None? ==> multiset(done) == multiset(started)
    ensures escaped.None? ==> results.records == old(results.records) + Records(worker, done, tools, charged)
    ensures escaped.None? <==> forall t :: t in started ==> !Uncaught(t.events, Bound(worker))
  {
    done := [];
    var pending := started;
    while pending != []
      invariant multiset(done) + multiset(pending) == multiset(started)
      invariant results.records == old(results.records) + Records(worker, done, tools, charged)
      invariant forall t :: t in done ==> !Uncaught(t.events, Bound(worker))
      decreases |pending|
    {
      var k :| 0 <= k < |pending|;
      var t := pending[k];
      TakePending(started, done, pending, k);
      escaped := RunTask(worker, results, t, tools, charged);
      if escaped.Some? {
        return;
      }
      RecordsSnoc(worker, done, t, tools, charged);
      done := done + [t];
      pending := pending[..k] + pending[k + 1..];
    }
    escaped := None;
    AllDone(started, done);
  }

  /** A whole batch: the charged words are read, the runs started and awaited;
      the shared list is returned if no exception escapes a run. */
  method RunBatch(worker: Worker, articles: seq<string>, tools: TextTools, positiveLines: seq<string>,
               negativeLines: seq<string>, env: nat -> Events)
    returns (r: BatchResult)
    ensures r.Collected? <==> forall i :: 0 <= i < |articles| ==> !Uncaught(env(i), Bound(worker))
    ensures r.Collected? ==>
              multiset(r.records) == multiset(Expected(worker, articles, tools, ChargedWords(positiveLines, negativeLines), env))
    ensures r.Collected? ==> |r.records| == |articles| && multiset(Urls(r.records)) == multiset(articles)
  {
    var charged := ChargedWords(positiveLines, negativeLines);
    var results := new ResultList();
    var started := StartRuns(articles, env);
    assert forall i :: 0 <= i < |articles| ==> started[i] == Task(articles[i], env(i));
    var escaped;
    ghost var done;
    escaped, done := AwaitRuns(worker, results, started, tools, charged);
    if escaped.Some? {
      ghost var t :| t in started && Uncaught(t.events, Bound(worker));
      ghost var j :| 0 <= j < |articles| && started[j] == t;
      return Failed(escaped.value);
    }
    assert results.records == Records(worker, done, tools, charged);
    FinishedRuns(worker, articles, tools, charged, env, started, done);
    r := Collected(results.records);
  }

  /** processor.py's `process`: one record per URL, in some order, unless an
      uncaught fetch failure escapes a run. */
  method Process(articles: seq<string>, tools: TextTools, positiveLines: seq<string>, negativeLines: seq<string>,
                 env: nat -> Events)
    returns (r: BatchResult)
    ensures r.Collected? <==> forall i :: 0 <= i < |articles| ==> !Uncaught(env(i), Processor.FetchTimeout)
    ensures r.Collected? ==>
              multiset(r.records) ==
              multiset(Expected(ProcessorWorker, articles, tools, ChargedWords(positiveLines, negativeLines), env))
    ensures r.Collected? ==> |r.records| == |articles| && multiset(Urls(r.records)) == multiset(articles)
  {
    r := RunBatch(ProcessorWorker, articles, tools, positiveLines, negativeLines, env);
  }

  /** The fixed URLs main.py's `main` processes. */
  const TestArticles: seq<string> := [
    "https://inosmi.ru/economic/20190629/245384784.html",
    "https://inosmi.ru/20231012/zelenskiy-266090827.html",
    "https://inosmi.ru/20231012/es-266088279.html",
    "https://inosmi.ru/20231012/yaponiya-266090719.html",
    "https://inosmi.ru/20231012/finlyandiya-266094161.html",
    "https://inosmi.ru/20231012/finl",
    "https://lenta.ru/brief/2021/08/26/afg_terror/"
  ]

  /** main.py's `main`: the seven fixed URLs, one record each, in some order,
      unless an uncaught fetch failure escapes a run. */
  method MainBatch(tools: TextTools, positiveLines: seq<string>, negativeLines: seq<string>, env: nat -> Events)
    returns (r: BatchResult)
    ensures r.Collected? <==> forall i :: 0 <= i < 7 ==> !Uncaught(env(i), Legacy.FetchTimeout)
    ensures r.Collected? ==>
              multiset(r.records) ==
              multiset(Expected(MainWorker, TestArticles, tools, ChargedWords(positiveLines, negativeLines), env))
    ensures r.Collected? ==> |r.records| == 7 && multiset(Urls(r.records)) == multiset(TestArticles)
  {
    r := RunBatch(MainWorker, TestArticles, tools, positiveLines, negativeLines, env);
  }

  /** Moving the pending run at position `k` to the finished ones keeps every
      started run in exactly one of the two. */
  lemma TakePending(started: seq<Task>, done: seq<Task>, pending: seq<Task>, k: nat)
    requires multiset(done) + multiset(pending) == multiset(started)
    requires k < |pending|
    ensures pending[k] in started
    ensures multiset(done + [pending[k]]) + multiset(pending[..k] + pending[k + 1..]) == multiset(started)
  {
    assert pending[k] in multiset(started);
    Seqs.RemoveAt(pending, k);
  }

  /** When no run is pending, every started run has finished. */
  lemma AllDone(started: seq<Task>, done: seq<Task>)
    requires multiset(done) == multiset(started)
    ensures forall t :: t in started ==> t in done
  {
    forall t | t in started ensures t in done {
      assert t in multiset(done);
    }
  }

  /** A run that finishes after those in `done` appends its record after theirs. */
  lemma RecordsSnoc(worker: Worker, done: seq<Task>, t: Task, tools: TextTools, charged: seq<string>)
    ensures Records(worker, done + [t], tools, charged) ==
            Records(worker, done, tools, charged) + [RunOf(worker, tools, charged, t).record]
  {
    Seqs.MapConcat(RecordOf(worker, tools, charged), done, [t]);
    Seqs.MapAt(RecordOf(worker, tools, charged), [t], 0);
  }

  /** Once every started run has finished, in whatever order, the records are
      those the runs end with, and their URLs are the batch's URLs with the
      same multiplicities. */
  lemma FinishedRuns(worker: Worker, articles: seq<string>, tools: TextTools, charged: seq<string>,
                     env: nat -> Events, started: seq<Task>, done: seq<Task>)
    requires started == Tasks(articles, env)
    requires multiset(done) == multiset(started)
    ensures |Records(worker, done, tools, charged)| == |articles|
    ensures multiset(Records(worker, done, tools, charged)) == multiset(Expected(worker, articles, tools, charged, env))
    ensures multiset(Urls(Records(worker, done, tools, charged))) == multiset(articles)
  {
    assert |done| == |multiset(done)| == |started|;
    Seqs.MapPermutation(RecordOf(worker, tools, charged), done, started);
    assert Records(worker, started, tools, charged) == Expected(worker, articles, tools, charged, env) by {
      forall i | 0 <= i < |articles|
        ensures Records(worker, started, tools, charged)[i] == Expected(worker, articles, tools, charged, env)[i]
      {
        Seqs.MapAt(RecordOf(worker, tools, charged), started, i);
      }
    }
    UrlsPermutation(Records(worker, done, tools, charged), Expected(worker, articles, tools, charged, env));
    assert Urls(Expected(worker, articles, tools, charged, env)) == articles;
  }

  /** Lists of records that are permutations of each other have the same URLs
      with the same multiplicities. */
  lemma UrlsPermutation(a: seq<Record>, b: seq<Record>)
    requires multiset(a) == multiset(b)
    ensures multiset(Urls(a)) == multiset(Urls(b))
  {
    var urlOf := (r: Record) => r.url;
    Seqs.MapPermutation(urlOf, a, b);
    forall s: seq<Record> ensures Seqs.Map(urlOf, s) == Urls(s) {
      forall k | 0 <= k < |s| ensures Seqs.Map(urlOf, s)[k] == Urls(s)[k] {
        Seqs.MapAt(urlOf, s, k);
      }
    }
  }
}
