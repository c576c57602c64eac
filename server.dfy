/** server.py: the request handler that splits the `urls` query parameter on
    commas and turns away a request with more than ten pieces. */
module Server {

  const MaxCountOfUrls: nat := 10

  /** A request's query string after decoding: its key/value pairs in order
      (a key may occur more than once). */
  type Query = seq<(string, string)>

  /** The Python value handed to `web.json_response`. */
  datatype Body = ErrorObject(error: string) | UrlList(urls: seq<string>)

  datatype Response = Response(status: nat, body: Body)

  /** `query.get(key, default)`: the value of the first pair with that key,
      or `default` when there is none. */
  function Get(query: Query, key: string, default: string): (v: string)
    ensures (forall i :: 0 <= i < |query| ==> query[i].0 != key) ==> v == default
    ensures (exists i :: 0 <= i < |query| && query[i].0 == key) ==>
              exists i :: && 0 <= i < |query| && query[i] == (key, v)
                          && forall j :: 0 <= j < i ==> query[j].0 != key
  {
    if |query| == 0 then default
    else if query[0].0 == key then query[0].1
    else Get(query[1..], key, default)
  }

  /** The number of times `c` occurs in `s`. */
  function Count(s: string, c: char): nat
  {
    if |s| == 0 then 0 else (if s[0] == c then 1 else 0) + Count(s[1..], c)
  }

  /** `s.split(sep)` with an explicit one-character separator: the pieces
      between occurrences of `sep`, empty pieces kept; one piece more than
      there are separators, none of them holding the separator. */
  function Split(s: string, sep: char): (pieces: seq<string>)
    ensures |pieces| == Count(s, sep) + 1
    ensures forall k :: 0 <= k < |pieces| ==> sep !in pieces[k]
  {
    if |s| == 0 then [""]
    else if s[0] == sep then [""] + Split(s[1..], sep)
    else
      var rest := Split(s[1..], sep);
      [[s[0]] + rest[0]] + rest[1..]
  }

  /** `sep.join(pieces)` */
  function Join(pieces: seq<string>, sep: char): string
  {
    if |pieces| == 0 then ""
    else if |pieces| == 1 then pieces[0]
    else pieces[0] + [sep] + Join(pieces[1..], sep)
  }

  /** Joining the pieces with the separator gives back the string split. */
  lemma {:induction false} JoinSplit(s: string, sep: char)
    ensures Join(Split(s, sep), sep) == s
    decreases |s|
  {
    if |s| == 0 {
    } else if s[0] == sep {
      JoinSplit(s[1..], sep);
      assert s == [sep] + s[1..];
    } else {
      JoinSplit(s[1..], sep);
      var rest := Split(s[1..], sep);
      if |rest| == 1 {
        assert s == [s[0]] + rest[0];
      } else {
        assert Join(rest, sep) == rest[0] + [sep] + Join(rest[1..], sep);
        assert s == [s[0]] + s[1..];
      }
    }
  }

  /** Splitting a join of pieces that hold no separator gives back the pieces. */
  lemma {:induction false} SplitJoin(pieces: seq<string>, sep: char)
    requires |pieces| >= 1
    requires forall k :: 0 <= k < |pieces| ==> sep !in pieces[k]
    ensures Split(Join(pieces, sep), sep) == pieces
    decreases |pieces|, |pieces[0]|
  {
    var first := pieces[0];
    if |first| == 0 {
      if |pieces| == 1 {
      } else {
        SplitJoin(pieces[1..], sep);
        assert Join(pieces, sep) == [sep] + Join(pieces[1..], sep);
        assert [""] + pieces[1..] == pieces;
      }
    } else {
      var shorter := pieces[0 := first[1..]];
      assert sep !in shorter[0] by {
        assert forall c :: c in first[1..] ==> c in first;
      }
      SplitJoin(shorter, sep);
      JoinHead(pieces, sep);
      JoinHead(shorter, sep);
      var joined := Join(pieces, sep);
      assert joined == [first[0]] + Join(shorter, sep);
      assert joined[0] == first[0] != sep && joined[1..] == Join(shorter, sep);
      assert [first[0]] + first[1..] == first;
      assert pieces == [first] + shorter[1..];
    }
  }

  /** The join begins with the first piece and continues with the rest. */
  lemma JoinHead(pieces: seq<string>, sep: char)
    requires |pieces| >= 1
    ensures |pieces| == 1 ==> Join(pieces, sep) == pieces[0]
    ensures |pieces| > 1 ==> Join(pieces, sep) == pieces[0] + [sep] + Join(pieces[1..], sep)
  {
  }

  /** The decimal digits of `n`, as `str(n)` writes them. */
  function DecimalString(n: nat): string
  {
    if n < 10 then ["0123456789"[n]] else DecimalString(n / 10) + ["0123456789"[n % 10]]
  }

  /** The error text `f"too many urls in request, should be {MAX_COUNT_OF_URLS} or less"`. */
  function ErrorMessage(): (msg: string)
    ensures msg == "too many urls in request, should be 10 or less"
  {
    "too many urls in request, should be " + DecimalString(MaxCountOfUrls) + " or less"
  }

  /** `handle`: the `urls` parameter (empty when missing) split on commas; more
      than ten pieces is answered with status 400 and the error object, and
      otherwise the pieces themselves are the response, unchanged and with no
      URL processed. */
  function Handle(query: Query): (resp: Response)
    ensures resp.status == 400 <==> |Split(Get(query, "urls", ""), ',')| > MaxCountOfUrls
    ensures resp.status == 400 ==> resp.body == ErrorObject("too many urls in request, should be 10 or less")
    ensures resp.status != 400 ==> resp == Response(200, UrlList(Split(Get(query, "urls", ""), ',')))
  {
    var urls := Split(Get(query, "urls", ""), ',');
    if |urls| > MaxCountOfUrls then Response(400, ErrorObject(ErrorMessage()))
    else Response(200, UrlList(urls))
  }

  /** A request is turned away exactly when its `urls` value holds ten or more
      commas: ten URLs pass, eleven do not. */
  lemma RejectedIffTenCommas(query: Query)
    ensures Handle(query).status == 400 <==> Count(Get(query, "urls", ""), ',') >= 10
  {
  }

  /** Without a `urls` parameter the response is the one-element list `[""]`. */
  lemma MissingUrls(query: Query)
    requires forall i :: 0 <= i < |query| ==> query[i].0 != "urls"
    ensures Handle(query) == Response(200, UrlList([""]))
  {
  }

  /** An accepted response joined back with commas is the `urls` value as sent. */
  lemma AcceptedRoundTrip(query: Query)
    requires Handle(query).status != 400
    ensures Handle(query).body.UrlList?
    ensures Join(Handle(query).body.urls, ',') == Get(query, "urls", "")
  {
    JoinSplit(Get(query, "urls", ""), ',');
  }
}
