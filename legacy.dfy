/** main.py: the earlier `process_article`, in which only the fetch is under a
    timeout (3 seconds) and sanitising, splitting and scoring run unbounded,
    and in which a successful run keeps the enum member `ProcessingStatus.OK`
    while a failed run stores the `.value` string of its status. */
module Legacy {
  import opened Articles
  import Processor

  const FetchTimeout: nat := 3

  /** The record every run starts from: no rate, the URL, the member `ProcessingStatus.OK`. */
  function Initial(url: string): Record
  {
    Record(None, url, Member(Ok))
  }

  /** The rest of the try block, outside any timeout: `sanitize` raises
      `ArticleNotFound` or yields the text, which is split and scored. */
  function Scoring(html: string, tools: TextTools, charged: seq<string>): (r: Try<real>)
    ensures r == Threw(ArticleNotFound) <==> tools.sanitize(html) == NotFound
    ensures r.Returned? <==> tools.sanitize(html).Text?
    ensures r.Returned? ==>
              r.value == tools.calculateJaundiceRate(tools.splitByWords(tools.sanitize(html).text), charged)
  {
    match tools.sanitize(html)
    case NotFound => Threw(ArticleNotFound)
    case Text(text) => Returned(tools.calculateJaundiceRate(tools.splitByWords(text), charged))
  }

  /** The outcome of one run of main.py's `process_article`: the rate is set
      exactly on the success path, the status is the enum member exactly when
      it is OK (and a string otherwise), "TIMEOUT" comes exactly from a
      fetch past its 3-second bound, INVALID_URL never appears, and only an uncaught fetch failure
      escapes. */
  function Article(url: string, tools: TextTools, charged: seq<string>, ev: Events): (run: Run)
    ensures run.record.url == url
    ensures run.record.status.status != InvalidUrl
    ensures run.escaped.None? ==> (run.record.rate.Some? <==> run.record.status.status == Ok)
    ensures run.record.status.Member? <==> run.record.status.status == Ok
    ensures run.record.status == ValueOf(Timeout) <==> ev.fetchSeconds > FetchTimeout as real
    ensures run.escaped.Some? <==> Uncaught(ev, FetchTimeout)
    ensures run.escaped.Some? ==> run.escaped == Some(OtherError) && run.record == Initial(url)
  {
    var body: Try<real> :=
      match FetchPhase(ev, FetchTimeout)
      case Threw(e) => Threw(e)
      case Returned(html) => Scoring(html, tools, charged);
    match body
    case Returned(rate) => Run(Initial(url).(rate := Some(rate)), None)
    case Threw(e) =>
      match Caught(e)
      case None => Run(Initial(url), Some(e))
      case Some(status) => Run(Initial(url).(status := ValueOf(status)), None)
  }

  /** main.py's `process_article`: builds the result dict, runs the try block,
      lets the except clauses store the status string, and appends the dict to
      `results` unless the exception escapes. */
  method ProcessArticle(results: ResultList, url: string, tools: TextTools, charged: seq<string>, ev: Events)
    returns (escaped: Option<Raised>)
    modifies results
    ensures escaped == Article(url, tools, charged, ev).escaped
    ensures results.records == old(results.records) + Appended(Article(url, tools, charged, ev))
  {
    var result := Initial(url);
    var raised: Option<Raised> := None;
    var fetched := FetchPhase(ev, FetchTimeout);
    if fetched.Threw? {
      raised := Some(fetched.error);
    } else {
      var scored := Scoring(fetched.value, tools, charged);
      if scored.Threw? {
        raised := Some(scored.error);
      } else {
        result := result.(rate := Some(scored.value));
      }
    }
    if raised.Some? {
      var status := Caught(raised.value);
      if status.None? {
        return raised;
      }
      result := result.(status := ValueOf(status.value));
    }
    results.Append(result);
    escaped := None;
  }

  /** A bad status or a malformed URL gives "FETCH_ERROR", a page without an
      article gives "PARSING_ERROR", both stored as strings and without a rate. */
  lemma FailureStatuses(url: string, tools: TextTools, charged: seq<string>, ev: Events)
    requires ev.fetchSeconds <= FetchTimeout as real
    ensures ev.fetch == ErrorStatus || ev.fetch == MalformedUrl ==>
              Article(url, tools, charged, ev) == Run(Record(None, url, ValueOf(FetchError)), None)
    ensures ev.fetch.Page? && tools.sanitize(ev.fetch.html) == NotFound ==>
              Article(url, tools, charged, ev) == Run(Record(None, url, ValueOf(ParsingError)), None)
  {
  }

  /** Processing is not time-bounded: however long it takes, the outcome is the same. */
  lemma ProcessingUnbounded(url: string, tools: TextTools, charged: seq<string>, ev: Events, seconds: real)
    ensures Article(url, tools, charged, ev.(processingSeconds := seconds)) == Article(url, tools, charged, ev)
  {
  }

  /** The string a status field is shown as in processor.py's records. */
  function AsValue(r: Record): Record
  {
    r.(status := ValueOf(r.status.status))
  }

  /** Where neither version's deadline is reached, the two versions agree up
      to how the status is stored; a fetch of more than 3 and at most 5
      seconds that succeeds, followed by processing within processor.py's
      bound, is a "TIMEOUT" here but not there. */
  lemma AgreesWithProcessor(url: string, tools: TextTools, charged: seq<string>, ev: Events)
    ensures ev.fetchSeconds <= FetchTimeout as real && ev.processingSeconds <= Processor.ProcessingTimeout as real ==>
              && Processor.Article(url, tools, charged, ev).record == AsValue(Article(url, tools, charged, ev).record)
              && Processor.Article(url, tools, charged, ev).escaped == Article(url, tools, charged, ev).escaped
    ensures && FetchTimeout as real < ev.fetchSeconds <= Processor.FetchTimeout as real && ev.fetch.Page?
            && ev.processingSeconds <= Processor.ProcessingTimeout as real ==>
              && Article(url, tools, charged, ev).record.status == ValueOf(Timeout)
              && Processor.Article(url, tools, charged, ev).record.status != ValueOf(Timeout)
  {
  }
}
