/** processor.py: the per-article worker `process_article`, with a fetch phase
    and a processing phase under two separate timeouts, and the batch
    `process`, which starts one worker per URL in a task group. */
module Processor {
  import opened Articles
  import Seqs

  const FetchTimeout: nat := 5
  const ProcessingTimeout: nat := 10

  /** The record every run starts from: no rate, the URL, status "OK". */
  function Initial(url: string): Record
  {
    Record(None, url, ValueOf(Ok))
  }

  /** The block under `timeout(PROCESSING_TIMEOUT)`: `sanitize` raises
      `ArticleNotFound` before the first suspension point (entering
      `log_execution_time` awaits but never suspends), so that outcome cannot
      be overtaken by the deadline; once the text is found, the phase times out
      when it runs past its bound while awaiting `split_by_words`, and
      otherwise scores the words. */
  function ProcessingPhase(html: string, tools: TextTools, charged: seq<string>, ev: Events): (r: Try<real>)
    ensures r == Threw(ArticleNotFound) <==> tools.sanitize(html) == NotFound
    ensures r == Threw(TimeoutError) <==>
              tools.sanitize(html).Text? && ev.processingSeconds > ProcessingTimeout as real
    ensures r.Returned? <==>
              tools.sanitize(html).Text? && ev.processingSeconds <= ProcessingTimeout as real
    ensures r.Returned? ==>
              r.value == tools.calculateJaundiceRate(tools.splitByWords(tools.sanitize(html).text), charged)
  {
    match tools.sanitize(html)
    case NotFound => Threw(ArticleNotFound)
    case Text(text) =>
      if ev.processingSeconds > ProcessingTimeout as real then Threw(TimeoutError)
      else Returned(tools.calculateJaundiceRate(tools.splitByWords(text), charged))
  }

  /** The outcome of one run of `process_article` for `url` under the events `ev`:
      the record is set only on the success path, carries the status as its
      string value, names the URL, and is never marked INVALID_URL; only an
      exception outside the three caught groups escapes, and then the record
      is still the initial one. */
  function Article(url: string, tools: TextTools, charged: seq<string>, ev: Events): (run: Run)
    ensures run.record.url == url
    ensures run.record.status.ValueOf?
    ensures run.record.status.status != InvalidUrl
    ensures run.escaped.None? ==> (run.record.rate.Some? <==> run.record.status.status == Ok)
    ensures run.escaped.Some? <==> Uncaught(ev, FetchTimeout)
    ensures run.escaped.Some? ==> run.escaped == Some(OtherError) && run.record == Initial(url)
  {
    var body: Try<real> :=
      match FetchPhase(ev, FetchTimeout)
      case Threw(e) => Threw(e)
      case Returned(html) => ProcessingPhase(html, tools, charged, ev);
    match body
    case Returned(rate) => Run(Initial(url).(rate := Some(rate)), None)
    case Threw(e) =>
      match Caught(e)
      case None => Run(Initial(url), Some(e))
      case Some(status) => Run(Initial(url).(status := ValueOf(status)), None)
  }

  /** `process_article`: builds the result dict, runs the try block, lets the
      except clauses set the status, and appends the dict to `results` unless
      the exception escapes. */
  method ProcessArticle(results: ResultList, url: string, tools: TextTools, charged: seq<string>, ev: Events)
    returns (escaped: Option<Raised>)
    modifies results
    ensures escaped == Article(url, tools, charged, ev).escaped
    ensures results.records == old(results.records) + Appended(Article(url, tools, charged, ev))
  {
    var result := Initial(url);
    var raised: Option<Raised> := None;
    var fetched := FetchPhase(ev, FetchTimeout);
    if fetched.Threw? {
      raised := Some(fetched.error);
    } else {
      var processed := ProcessingPhase(fetched.value, tools, charged, ev);
      if processed.Threw? {
        raised := Some(processed.error);
      } else {
        result := result.(rate := Some(processed.value));
      }
    }
    if raised.Some? {
      var status := Caught(raised.value);
      if status.None? {
        return raised;
      }
      result := result.(status := ValueOf(status.value));
    }
    results.Append(result);
    escaped := None;
  }

  /** Both phases succeed: the status stays "OK" and the rate is the scorer
      applied to the split words of the sanitised page. */
  lemma SuccessPath(url: string, tools: TextTools, charged: seq<string>, ev: Events, text: string)
    requires ev.fetchSeconds <= FetchTimeout as real && ev.fetch.Page?
    requires tools.sanitize(ev.fetch.html) == Text(text)
    requires ev.processingSeconds <= ProcessingTimeout as real
    ensures Article(url, tools, charged, ev) ==
              Run(Record(Some(tools.calculateJaundiceRate(tools.splitByWords(text), charged)), url, ValueOf(Ok)), None)
  {
  }

  /** A bad status or a malformed URL within the fetch deadline gives
      "FETCH_ERROR" with no rate, and the processing phase does not run:
      neither the text tools, nor the charged words, nor the time processing
      would take change anything. */
  lemma FetchFailureSkipsProcessing(url: string, tools: TextTools, charged: seq<string>, ev: Events,
                                    otherTools: TextTools, otherCharged: seq<string>, seconds: real)
    requires ev.fetchSeconds <= FetchTimeout as real
    requires ev.fetch == ErrorStatus || ev.fetch == MalformedUrl
    ensures Article(url, tools, charged, ev) == Run(Record(None, url, ValueOf(FetchError)), None)
    ensures Article(url, otherTools, otherCharged, ev.(processingSeconds := seconds)) == Article(url, tools, charged, ev)
  {
  }

  /** A page on which `sanitize` finds no article gives "PARSING_ERROR" with no
      rate, however long the processing phase would have taken. */
  lemma NotFoundIsParsingError(url: string, tools: TextTools, charged: seq<string>, ev: Events, seconds: real)
    requires ev.fetchSeconds <= FetchTimeout as real && ev.fetch.Page?
    requires tools.sanitize(ev.fetch.html) == NotFound
    ensures Article(url, tools, charged, ev) == Run(Record(None, url, ValueOf(ParsingError)), None)
    ensures Article(url, tools, charged, ev.(processingSeconds := seconds)) == Article(url, tools, charged, ev)
  {
  }

  /** "TIMEOUT" comes exactly from a fetch past its 5-second bound, or from a
      processing phase past its own 10-second bound after the article was
      found; it never carries a rate. */
  lemma TimeoutIff(url: string, tools: TextTools, charged: seq<string>, ev: Events)
    ensures Article(url, tools, charged, ev).record.status == ValueOf(Timeout) <==>
              || ev.fetchSeconds > FetchTimeout as real
              || (&& ev.fetchSeconds <= FetchTimeout as real && ev.fetch.Page?
                  && tools.sanitize(ev.fetch.html).Text?
                  && ev.processingSeconds > ProcessingTimeout as real)
    ensures Article(url, tools, charged, ev).record.status == ValueOf(Timeout) ==>
              Article(url, tools, charged, ev).record.rate.None? && Article(url, tools, charged, ev).escaped.None?
  {
  }

  /** The two deadlines are separate scopes, not one cumulative budget: how
      much of its own bound the fetch used changes nothing, so a fetch of 5
      seconds followed by 10 seconds of processing still succeeds. */
  lemma SeparateDeadlines(url: string, tools: TextTools, charged: seq<string>, ev: Events, fetchSeconds: real)
    requires ev.fetchSeconds <= FetchTimeout as real && fetchSeconds <= FetchTimeout as real
    ensures Article(url, tools, charged, ev.(fetchSeconds := fetchSeconds)) == Article(url, tools, charged, ev)
  {
  }
}
