/** The request pipeline of coingecko/coingecko.py: `CoinGeckoAPIError`,
    the `CoinGecko` client with `_get_headers`, `_get` and `_fail`, and a
    sample of its endpoint methods.

    The HTTP transport (`requests.get`) is a function from the request the
    client builds to the reply it gets; what `response.json()` does is part
    of the reply (a document, a `JSONDecodeError`, or another exception).
    The module logger is a `Logger` object that records events. A Python
    exception that `_get` lets escape is an `Outcome` of its own: `Raised`
    for `CoinGeckoAPIError`, `Crashed` for the exceptions `_get` does not
    catch. The pure function `Pipeline`
    specifies `CoinGecko.Get`; the lemmas below are about it. */
module Client {
  import opened Wrappers
  import Text
  import Utils
  import opened Json
  import Endpoints

  /** `CoinGecko.BASE_URL` */
  const BaseUrl: string := "https://api.coingecko.com/api/v3/"

  /** What `response.json()` does: return a document, raise
      `json.JSONDecodeError` because the body is not JSON, or raise some
      other exception. The two handlers of coingecko/coingecko.py catch
      different sets of these. */
  datatype Parse = Parsed(doc: Json) | NotJson | OtherFailure

  /** What the transport returns: its status code, the decoded body text,
      and what `response.json()` does. */
  datatype Response = Response(status: int, body: string, json: Parse)

  /** One GET as the transport receives it: full URL, query params, headers. */
  datatype Request = Request(url: string, params: Option<seq<Utils.Entry>>, headers: map<string, string>)

  /** `requests.get` either answers or fails at the network level. */
  datatype Reply = Received(response: Response) | ConnectionError

  /** Exceptions that escape `_get` without being caught: the two ways
      `response.json()` can fail on a 200 response, and a network failure. */
  datatype Fault = JsonDecodeError | JsonException | TransportError

  /** Exceptions that escape `str(error)`: the subscript's, or an exception
      of `response.json()` other than `JSONDecodeError`. */
  datatype StrError = Lookup(cause: LookupError) | JsonRaised

  /** `CoinGeckoAPIError(response, message="")` */
  datatype ApiError = ApiError(response: Response, message: string)

  /** How a call of `_get` ends: it returns a Python value (`None` is the
      JSON null), raises `CoinGeckoAPIError`, or lets another exception escape. */
  datatype Outcome = Returned(value: Json) | Raised(error: ApiError) | Crashed(fault: Fault)

  datatype Level = Warning | Info

  /** The `details` of a failed response: the decoded JSON if the body
      parses, otherwise the raw body text. */
  datatype Details = Decoded(doc: Json) | Raw(text: string)

  /** One call of `logger.warning` or `logger.info`, by the fields its
      message is made of. */
  datatype LogEvent = LogEvent(level: Level, status: int, path: string, details: Details)

  /** What one call does: how it ends and what it logs. */
  datatype Effect = Effect(outcome: Outcome, events: seq<LogEvent>)

  // ---------------------------------------------------------------------
  // CoinGeckoAPIError.__str__ (coingecko/coingecko.py:23-29)

  /** The `content` of `__str__`: the `error` member of the JSON body, or
      the raw body when it is not JSON. Indexing a document that is not an
      object, or lacks `error`, raises, and so does any failure of
      `response.json()` other than `JSONDecodeError`. */
  function ErrorContent(r: Response): (c: Result<string, StrError>)
    ensures r.json.NotJson? ==> c == Ok(r.body)
    ensures r.json.OtherFailure? ==> c == Err(JsonRaised)
    ensures r.json.Parsed? ==>
              (c.Err? <==> !r.json.doc.JObj? || Field(r.json.doc.fields, "error").None?)
    ensures r.json.Parsed? && r.json.doc.JObj? && Field(r.json.doc.fields, "error").Some? ==>
              c == Ok(Show(Field(r.json.doc.fields, "error").value, false))
  {
    match r.json
    case NotJson => Ok(r.body)
    case OtherFailure => Err(JsonRaised)
    case Parsed(doc) =>
      match Subscript(doc, "error")
      case Ok(v) => Ok(Show(v, false))
      case Err(e) => Err(Lookup(e))
  }

  /** `str(error)`: `"<status> <content>"`; it raises exactly what
      computing the content raises. */
  function ErrorText(e: ApiError): (t: Result<string, StrError>)
    ensures t.Ok? <==> ErrorContent(e.response).Ok?
    ensures t.Err? ==> t.error == ErrorContent(e.response).error
  {
    match ErrorContent(e.response)
    case Ok(content) => Ok(Text.IntToDecimal(e.response.status) + " " + content)
    case Err(x) => Err(x)
  }

  /** The rendered error reads back: its first word is the status code and
      the rest, after one space, is the content. */
  lemma ErrorTextReadsBack(e: ApiError)
    ensures ErrorText(e).Ok? ==>
              var m := ErrorText(e).value;
              var w := Text.FirstWord(m);
              && Text.ParseInt(w) == Some(e.response.status)
              && |w| < |m|
              && m[|w| + 1..] == ErrorContent(e.response).value
  {
    if ErrorContent(e.response).Ok? {
      var d := Text.IntToDecimal(e.response.status);
      var c := ErrorContent(e.response).value;
      Text.FirstWordOf(d, c);
      Text.IntRoundTrip(e.response.status);
      assert (d + " " + c)[|d| + 1..] == c;
    }
  }

  /** The decimal texts of the numbers in the examples below. */
  lemma ExampleNumbers()
    ensures Text.IntToDecimal(404) == "404" && Text.IntToDecimal(42) == "42"
  {
    Text.IntToDecimalNatural(404);
    Text.IntToDecimalNatural(42);
    assert Text.NatToDecimal(4) == "4";
    assert Text.NatToDecimal(40) == "40";
    assert Text.NatToDecimal(404) == "404";
    assert Text.NatToDecimal(42) == "42";
  }

  /** The two examples of test/coingecko_test.py:26-71, and an `error`
      member that is a number, which `str()` formats as its digits. */
  lemma ErrorTextExamples()
    ensures ErrorText(ApiError(Response(404, "404 Not Found Message", Parsed(JObj([("error", JStr("Not Found"))]))), ""))
         == Ok("404 Not Found")
    ensures ErrorText(ApiError(Response(404, "Not Found Message Content", NotJson), ""))
         == Ok("404 Not Found Message Content")
    ensures ErrorText(ApiError(Response(404, "{\"error\": 42}", Parsed(JObj([("error", JNum(42))]))), ""))
         == Ok("404 42")
  {
    ExampleNumbers();
    var found := JObj([("error", JStr("Not Found"))]);
    assert Field(found.fields, "error") == Some(JStr("Not Found"));
    assert "404" + " " + "Not Found" == "404 Not Found";
    assert "404" + " " + "Not Found Message Content" == "404 Not Found Message Content";
    assert "404" + " " + "42" == "404 42";
  }

  // ---------------------------------------------------------------------
  // The request: _get_headers and the call of requests.get (coingecko/coingecko.py:54-67)

  /** `_get_headers`: it reads no field of the client, so the API key
      never reaches a request. */
  function Headers(): (h: map<string, string>)
    ensures h.Keys == {"accept"} && h["accept"] == "application/json"
  {
    map["accept" := "application/json"]
  }

  /** The request `_get(path, params)` hands to the transport. It goes to
      `BASE_URL + path`, so the path can be read back from the URL, and it
      carries the cleaned params and the fixed headers. */
  function BuildRequest(path: string, params: Option<seq<Utils.Entry>>): (q: Request)
    ensures BaseUrl <= q.url && q.url[|BaseUrl|..] == path
    ensures q.params == Utils.Clean(params) && q.headers == Headers()
  {
    Request(BaseUrl + path, Utils.Clean(params), Headers())
  }

  /** Different paths give different URLs. */
  lemma RequestPathsDiffer(p1: string, p2: string, params: Option<seq<Utils.Entry>>)
    requires p1 != p2
    ensures BuildRequest(p1, params).url != BuildRequest(p2, params).url
  {
  }

  /** `_get("test")` asks for `https://api.coingecko.com/api/v3/test` with
      `params=None` (test/coingecko_test.py:15-24). */
  lemma GetTestRequest()
    ensures BuildRequest("test", None)
         == Request("https://api.coingecko.com/api/v3/test", None, map["accept" := "application/json"])
  {
  }

  // ---------------------------------------------------------------------
  // Classifying the response (coingecko/coingecko.py:69-91)

  /** The `details` computed for a failed response: the raw body unless
      `response.json()` returns a document, whatever it raises otherwise. */
  function DetailsOf(r: Response): (d: Details)
    ensures d.Raw? <==> !r.json.Parsed?
    ensures d.Raw? ==> d.text == r.body
    ensures d.Decoded? ==> r.json == Parsed(d.doc)
  {
    match r.json
    case Parsed(doc) => Decoded(doc)
    case _ => Raw(r.body)
  }

  /** `_fail(r)`: raise `CoinGeckoAPIError(response=r)`, whose message is
      the default "". */
  function Fail(r: Response): (o: Outcome)
    ensures o.Raised? && o.error.response == r && o.error.message == ""
  {
    Raised(ApiError(r, ""))
  }

  /** What `_get` does with a response once it has one: it logs exactly
      when the status is not 200, and raises `CoinGeckoAPIError`, carrying
      the response, exactly when the status is not 200 and `fail_silently`
      is off. */
  function Classify(r: Response, path: string, failSilently: bool): (e: Effect)
    ensures e.events == [] <==> r.status == 200
    ensures e.outcome.Raised? <==> r.status != 200 && !failSilently
    ensures e.outcome.Raised? ==> e.outcome.error == ApiError(r, "")
  {
    if r.status == 200 then
      match r.json
      case Parsed(doc) => Effect(Returned(doc), [])
      case NotJson => Effect(Crashed(JsonDecodeError), [])
      case OtherFailure => Effect(Crashed(JsonException), [])
    else if !failSilently then
      Effect(Fail(r), [LogEvent(Warning, r.status, path, DetailsOf(r))])
    else
      Effect(Returned(JNull), [LogEvent(Info, r.status, path, DetailsOf(r))])
  }

  /** `_get(path, params)` with the transport `transport`: one request,
      then the classification of its reply. A call logs at most one event,
      and a client with `fail_silently` never raises `CoinGeckoAPIError`. */
  function Pipeline(path: string, params: Option<seq<Utils.Entry>>, failSilently: bool,
                    transport: Request -> Reply): (e: Effect)
    ensures |e.events| <= 1
    ensures failSilently ==> !e.outcome.Raised?
  {
    match transport(BuildRequest(path, params))
    case ConnectionError => Effect(Crashed(TransportError), [])
    case Received(r) => Classify(r, path, failSilently)
  }

  /** Status 200 returns the decoded body whatever `fail_silently` says;
      when `response.json()` raises instead, its exception escapes. */
  lemma SuccessIsQuiet(r: Response, path: string, failSilently: bool)
    requires r.status == 200
    ensures Classify(r, path, failSilently) == Classify(r, path, !failSilently)
    ensures r.json.Parsed? ==> Classify(r, path, failSilently).outcome == Returned(r.json.doc)
    ensures r.json.Parsed? <==> Classify(r, path, failSilently).outcome.Returned?
    ensures r.json.NotJson? <==> Classify(r, path, failSilently).outcome == Crashed(JsonDecodeError)
    ensures r.json.OtherFailure? <==> Classify(r, path, failSilently).outcome == Crashed(JsonException)
  {
  }

  /** A call logs exactly one event when the status is not 200 and none
      when it is; the event is a warning exactly when `fail_silently` is off. */
  lemma OneEventPerFailure(r: Response, path: string, failSilently: bool)
    ensures var e := Classify(r, path, failSilently);
            && (|e.events| == 1 <==> r.status != 200)
            && (|e.events| == 0 <==> r.status == 200)
            && (r.status != 200 ==> (e.events[0].level == Warning <==> !failSilently))
  {
  }

  /** A non-200 status with `fail_silently` off raises the error that
      carries this very response, with an empty message. */
  lemma LoudFailureRaises(r: Response, path: string)
    requires r.status != 200
    ensures var e := Classify(r, path, false);
            && e.outcome.Raised?
            && e.outcome.error.response == r
            && e.outcome.error.message == ""
            && e.events == [LogEvent(Warning, r.status, path, DetailsOf(r))]
  {
  }

  /** A non-200 status with `fail_silently` on returns `None`, raises
      nothing, and logs one info event. */
  lemma SilentFailureReturnsNone(r: Response, path: string)
    requires r.status != 200
    ensures var e := Classify(r, path, true);
            && e.outcome == Returned(JNull)
            && !e.outcome.Raised? && !e.outcome.Crashed?
            && e.events == [LogEvent(Info, r.status, path, DetailsOf(r))]
  {
  }

  /** The two modes log the same status, path and details; only the level
      differs. */
  lemma ModesLogTheSame(r: Response, path: string)
    requires r.status != 200
    ensures var loud := Classify(r, path, false).events[0];
            var quiet := Classify(r, path, true).events[0];
            && loud.level == Warning && quiet.level == Info
            && loud.(level := Info) == quiet
  {
  }

  /** A silent failure cannot be told apart from a successful call whose
      body is JSON `null`. */
  lemma SilentFailureLooksLikeNull(r: Response, path: string, failSilently: bool)
    requires r.status != 200
    ensures Classify(r, path, true).outcome == Classify(Response(200, "null", Parsed(JNull)), path, failSilently).outcome
  {
  }

  /** Scenario: `ping` answered by 200 with body `{}` returns `{}`. */
  lemma PingExample(failSilently: bool)
    ensures Pipeline("ping", None, failSilently, (q: Request) => Received(Response(200, "{}", Parsed(JObj([])))))
         == Effect(Returned(JObj([])), [])
  {
  }

  /** Scenarios of test/coingecko_test.py:26-56. A 404 whose body decodes
      to `{"error": "Not Found"}` raises an error whose text is
      "404 Not Found", after one warning. With `fail_silently`, a 404 whose
      `response.json()` raises a bare exception returns `None` after one
      info event that logs the raw body; `str()` of an error built from that
      response would itself raise. */
  lemma NotFoundExample()
    ensures var r := Response(404, "404 Not Found Message", Parsed(JObj([("error", JStr("Not Found"))])));
            var loud := Pipeline("test", None, false, (q: Request) => Received(r));
            && loud.outcome.Raised? && ErrorText(loud.outcome.error) == Ok("404 Not Found")
            && |loud.events| == 1 && loud.events[0].level == Warning
    ensures var r := Response(404, "404 Not Found Message", OtherFailure);
            var quiet := Pipeline("test", None, true, (q: Request) => Received(r));
            && quiet.outcome == Returned(JNull)
            && quiet.events == [LogEvent(Info, 404, "test", Raw("404 Not Found Message"))]
            && ErrorText(ApiError(r, "")) == Err(JsonRaised)
  {
    ErrorTextExamples();
  }

  // ---------------------------------------------------------------------
  // The objects: the logger and the client.

  /** The module logger, as the list of events it has received. */
  class Logger {
    var events: seq<LogEvent>

    constructor ()
      ensures events == []
    {
      events := [];
    }

    /** `logger.warning(...)` */
    method Warning(status: int, path: string, details: Details)
      modifies this
      ensures events == old(events) + [LogEvent(Level.Warning, status, path, details)]
    {
      events := events + [LogEvent(Level.Warning, status, path, details)];
    }

    /** `logger.info(...)` */
    method Info(status: int, path: string, details: Details)
      modifies this
      ensures events == old(events) + [LogEvent(Level.Info, status, path, details)]
    {
      events := events + [LogEvent(Level.Info, status, path, details)];
    }
  }

  /** `CoinGecko` */
  class CoinGecko {
    var key: Option<string>
    var failSilently: bool

    /** `CoinGecko(key=None, fail_silently=False)` */
    constructor (key: Option<string> := None, failSilently: bool := false)
      ensures this.key == key && this.failSilently == failSilently
    {
      this.key := key;
      this.failSilently := failSilently;
    }

    /** `_get(path, params)`: one request to `BASE_URL + path` with the
        cleaned params, then return, raise or return `None`, logging on
        failure. The caller's params dict is not modified. */
    method Get(path: string, params: Utils.Dict?, transport: Request -> Reply, log: Logger)
      returns (outcome: Outcome)
      requires params != null ==> params.Valid()
      modifies log
      ensures var e := Pipeline(path, Utils.View(params), failSilently, transport);
              outcome == e.outcome && log.events == old(log.events) + e.events
    {
      var cleaned := Utils.CleanParams(params);
      var reply := transport(Request(BaseUrl + path, Utils.View(cleaned), Headers()));
      if reply.ConnectionError? {
        return Crashed(TransportError);
      }
      var r := reply.response;
      if r.status == 200 {
        if r.json.NotJson? {
          return Crashed(JsonDecodeError);
        } else if r.json.OtherFailure? {
          return Crashed(JsonException);
        }
        return Returned(r.json.doc);
      }
      var details := Raw(r.body);
      if r.json.Parsed? {
        details := Decoded(r.json.doc);
      }
      if !failSilently {
        log.Warning(r.status, path, details);
        outcome := Fail(r);
      } else {
        log.Info(r.status, path, details);
        outcome := Returned(JNull);
      }
    }

    /** Hands an endpoint's call to `_get`, building its params dict. */
    method Send(c: Endpoints.Call, transport: Request -> Reply, log: Logger) returns (outcome: Outcome)
      requires Endpoints.WellFormed(c)
      modifies log
      ensures var e := Pipeline(c.path, c.params, failSilently, transport);
              outcome == e.outcome && log.events == old(log.events) + e.events
    {
      var params: Utils.Dict? := null;
      if c.params.Some? {
        params := new Utils.Dict(c.params.value);
      }
      outcome := Get(c.path, params, transport, log);
    }

    /** `ping()` */
    method GetPing(transport: Request -> Reply, log: Logger) returns (outcome: Outcome)
      modifies log
      ensures var e := Pipeline("ping", None, failSilently, transport);
              outcome == e.outcome && log.events == old(log.events) + e.events
    {
      outcome := Send(Endpoints.Ping(), transport, log);
    }

    /** `get_simple_price(ids, vs_currencies, ...)` */
    method GetSimplePrice(transport: Request -> Reply, log: Logger,
                          ids: seq<string>, vsCurrencies: seq<string>,
                          includeMarketCap: Option<bool> := None,
                          include24hrVol: Option<bool> := None,
                          include24hrChange: Option<bool> := None,
                          includeLastUpdatedAt: Option<bool> := None)
      returns (outcome: Outcome)
      modifies log
      ensures var c := Endpoints.SimplePrice(ids, vsCurrencies, includeMarketCap, include24hrVol,
                                             include24hrChange, includeLastUpdatedAt);
              var e := Pipeline(c.path, c.params, failSilently, transport);
              outcome == e.outcome && log.events == old(log.events) + e.events
    {
      outcome := Send(Endpoints.SimplePrice(ids, vsCurrencies, includeMarketCap, include24hrVol,
                                            include24hrChange, includeLastUpdatedAt), transport, log);
    }

    /** `get_coins_list(include_platform=None)` */
    method GetCoinsList(transport: Request -> Reply, log: Logger, includePlatform: Option<bool> := None)
      returns (outcome: Outcome)
      modifies log
      ensures var c := Endpoints.CoinsList(includePlatform);
              var e := Pipeline(c.path, c.params, failSilently, transport);
              outcome == e.outcome && log.events == old(log.events) + e.events
    {
      outcome := Send(Endpoints.CoinsList(includePlatform), transport, log);
    }

    /** `get_coin_by_id(id, localization=False, tickers=False, ...)` */
    method GetCoinById(transport: Request -> Reply, log: Logger, id: string,
                       localization: Option<bool> := Some(false),
                       tickers: Option<bool> := Some(false),
                       marketData: Option<bool> := None,
                       communityData: Option<bool> := None,
                       developerData: Option<bool> := None,
                       sparkline: Option<bool> := None)
      returns (outcome: Outcome)
      modifies log
      ensures var c := Endpoints.CoinById(id, localization, tickers, marketData, communityData,
                                          developerData, sparkline);
              var e := Pipeline(c.path, c.params, failSilently, transport);
              outcome == e.outcome && log.events == old(log.events) + e.events
    {
      outcome := Send(Endpoints.CoinById(id, localization, tickers, marketData, communityData,
                                         developerData, sparkline), transport, log);
    }

    /** `get_coin_market_chart_range(id, vs_currency, from_param, to)` */
    method GetCoinMarketChartRange(transport: Request -> Reply, log: Logger,
                                   id: string, vsCurrency: string, fromParam: string, to: string)
      returns (outcome: Outcome)
      modifies log
      ensures var c := Endpoints.CoinMarketChartRange(id, vsCurrency, fromParam, to);
              var e := Pipeline(c.path, c.params, failSilently, transport);
              outcome == e.outcome && log.events == old(log.events) + e.events
    {
      outcome := Send(Endpoints.CoinMarketChartRange(id, vsCurrency, fromParam, to), transport, log);
    }

    /** `get_coin_status_updates(id, per_page=None, page=None)` */
    method GetCoinStatusUpdates(transport: Request -> Reply, log: Logger, id: string,
                                perPage: Option<int> := None, page: Option<int> := None)
      returns (outcome: Outcome)
      modifies log
      ensures var c := Endpoints.CoinStatusUpdates(id, perPage, page);
              var e := Pipeline(c.path, c.params, failSilently, transport);
              outcome == e.outcome && log.events == old(log.events) + e.events
    {
      outcome := Send(Endpoints.CoinStatusUpdates(id, perPage, page), transport, log);
    }

    /** `get_exchange(id)` */
    method GetExchange(transport: Request -> Reply, log: Logger, id: string)
      returns (outcome: Outcome)
      modifies log
      ensures var e := Pipeline("exchanges/{id}", None, failSilently, transport);
              outcome == e.outcome && log.events == old(log.events) + e.events
    {
      outcome := Send(Endpoints.Exchange(id), transport, log);
    }
  }

  /** A client's calls see its current `fail_silently`, which callers may
      reassign (test/coingecko_test.py:54-56), and never its key. */
  method SilentAfterReassignment(transport: Request -> Reply)
    returns (outcome: Outcome)
    requires transport(BuildRequest("test", None)).Received?
    requires transport(BuildRequest("test", None)).response.status == 404
    ensures outcome == Returned(JNull)
  {
    var api := new CoinGecko(Some("secret"));
    var log := new Logger();
    api.failSilently := true;
    outcome := api.Get("test", null, transport, log);
    assert |log.events| == 1 && log.events[0].level == Info;
  }
}
