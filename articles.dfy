/** The vocabulary shared by both versions of the per-article worker
    (processor.py and the older main.py): the status enumeration, the result
    record, the collaborators that are not part of the model, the fetch phase,
    the except clauses and the shared result list. */
module Articles {

  datatype Option<T> = None | Some(value: T)

  /** The enumeration `ProcessingStatus`; `Value()` is the member's `.value` string. */
  datatype ProcessingStatus = Ok | FetchError | ParsingError | Timeout | InvalidUrl
  {
    function Value(): string
    {
      match this
      case Ok => "OK"
      case FetchError => "FETCH_ERROR"
      case ParsingError => "PARSING_ERROR"
      case Timeout => "TIMEOUT"
      case InvalidUrl => "INVALID_URL"
    }
  }

  /** Distinct members have distinct `.value` strings, so a status stored as its
      string is represented faithfully by the member it came from. */
  lemma ValueInjective(a: ProcessingStatus, b: ProcessingStatus)
    ensures a.Value() == b.Value() <==> a == b
  {
  }

  /** What a record's "status" entry holds: the enum member itself, or the
      string `status.value`. */
  datatype StatusField = Member(status: ProcessingStatus) | ValueOf(status: ProcessingStatus)

  /** The result dict `{"rate": ..., "url": ..., "status": ...}` of one run. */
  datatype Record = Record(rate: Option<real>, url: string, status: StatusField)

  /** The exceptions the worker distinguishes; `OtherError` is any exception
      outside the three caught groups (a connection failure, for one). */
  datatype Raised = ClientResponseError | InvalidUrlError | ArticleNotFound | TimeoutError | OtherError

  /** A value returned, or an exception raised, by a block of code. */
  datatype Try<T> = Returned(value: T) | Threw(error: Raised)

  /** What `sanitize` makes of a page: the article text, or `ArticleNotFound`. */
  datatype Sanitized = Text(text: string) | NotFound

  /** The collaborators that live outside the modelled files, left uninterpreted:
      `sanitize`, `split_by_words` bound to the shared morphological analyser,
      and `calculate_jaundice_rate`. */
  datatype TextTools = TextTools(
    sanitize: string -> Sanitized,
    splitByWords: string -> seq<string>,
    calculateJaundiceRate: (seq<string>, seq<string>) -> real)

  /** What the network would do with one GET of the URL, ignoring time. */
  datatype FetchResult =
    | Page(html: string)   // a success status and the response text
    | ErrorStatus          // `raise_for_status` raises ClientResponseError
    | MalformedUrl         // `session.get` raises InvalidURL
    | OtherFailure         // any other exception, e.g. a refused connection

  /** What the world does to one run: the fetch result, how long the fetch
      takes, and how long the processing phase takes up to the moment
      `split_by_words` hands back its words (seconds, as the source's timeouts). */
  datatype Events = Events(fetch: FetchResult, fetchSeconds: real, processingSeconds: real)

  /** One started run of the worker: its URL and what the world does to it. */
  datatype Task = Task(url: string, events: Events)

  /** A finished run: the result dict as the run left it, and the exception
      that escaped the worker, if any. Only a run with `escaped == None`
      appends its record. */
  datatype Run = Run(record: Record, escaped: Option<Raised>)

  /** What a batch produces: the shared list, or the exception that escaped a run
      and with it the task group. */
  datatype BatchResult = Collected(records: seq<Record>) | Failed(error: Raised)

  /** The records a run appends to the shared list: one, or none if an exception escaped. */
  function Appended(run: Run): seq<Record>
  {
    if run.escaped.None? then [run.record] else []
  }

  /** The `url` fields of a list of records. */
  function Urls(records: seq<Record>): seq<string>
  {
    seq(|records|, k requires 0 <= k < |records| => records[k].url)
  }

  /** The runs a loop `for url in articles: tg.start_soon(...)` starts; run `i`
      meets the events `env(i)`. */
  function Tasks(articles: seq<string>, env: nat -> Events): seq<Task>
  {
    seq(|articles|, i requires 0 <= i < |articles| => Task(articles[i], env(i)))
  }

  /** `get_charged_words`: the positive lines followed by the negative lines. */
  function ChargedWords(positiveLines: seq<string>, negativeLines: seq<string>): (words: seq<string>)
    ensures |words| == |positiveLines| + |negativeLines|
    ensures words[..|positiveLines|] == positiveLines
    ensures words[|positiveLines|..] == negativeLines
    ensures multiset(words) == multiset(positiveLines) + multiset(negativeLines)
  {
    positiveLines + negativeLines
  }

  /** `async with timeout(bound): html = await fetch(session, url)`: a fetch
      that has not finished within `bound` seconds raises a timeout, whatever
      it would have returned; otherwise `fetch` returns the page or raises. */
  function FetchPhase(ev: Events, bound: nat): (r: Try<string>)
    ensures r == Threw(TimeoutError) <==> ev.fetchSeconds > bound as real
    ensures r.Returned? <==> ev.fetchSeconds <= bound as real && ev.fetch.Page?
    ensures r.Returned? ==> r.value == ev.fetch.html
    ensures r == Threw(ClientResponseError) <==> ev.fetchSeconds <= bound as real && ev.fetch == ErrorStatus
    ensures r == Threw(InvalidUrlError) <==> ev.fetchSeconds <= bound as real && ev.fetch == MalformedUrl
    ensures r == Threw(OtherError) <==> Uncaught(ev, bound)
  {
    if ev.fetchSeconds > bound as real then Threw(TimeoutError)
    else match ev.fetch
      case Page(html) => Returned(html)
      case ErrorStatus => Threw(ClientResponseError)
      case MalformedUrl => Threw(InvalidUrlError)
      case OtherFailure => Threw(OtherError)
  }

  /** The fetch raises an exception that no except clause catches: a failure
      other than a bad status or a malformed URL, within the deadline. */
  predicate Uncaught(ev: Events, bound: nat)
  {
    ev.fetchSeconds <= bound as real && ev.fetch == OtherFailure
  }

  /** `Uncaught` is exactly the case in which the fetch phase raises and none
      of the three except clauses catches what it raises. */
  lemma UncaughtIffNoClause(ev: Events, bound: nat)
    ensures Uncaught(ev, bound) <==> FetchPhase(ev, bound).Threw? && Caught(FetchPhase(ev, bound).error).None?
  {
  }

  /** The three except clauses, in order: the status an exception is turned
      into, or `None` when no clause catches it and it escapes. */
  function Caught(e: Raised): (s: Option<ProcessingStatus>)
    ensures s.None? <==> e == OtherError
    ensures s == Some(FetchError) <==> e == ClientResponseError || e == InvalidUrlError
    ensures s == Some(ParsingError) <==> e == ArticleNotFound
    ensures s == Some(Timeout) <==> e == TimeoutError
  {
    match e
    case ClientResponseError => Some(FetchError)
    case InvalidUrlError => Some(FetchError)
    case ArticleNotFound => Some(ParsingError)
    case TimeoutError => Some(Timeout)
    case OtherError => None
  }

  /** The shared `results` list that every run appends to in place. */
  class ResultList {
    var records: seq<Record>

    constructor ()
      ensures records == []
    {
      records := [];
    }

    /** `results.append(result)` */
    method Append(r: Record)
      modifies this
      ensures records == old(records) + [r]
    {
      records := records + [r];
    }
  }
}
