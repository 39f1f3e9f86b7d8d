/**
 * The development proxy's response logging: every upstream response that
 * completes for a forwarded request is classified by status code and written
 * to the proxy logger as one line `METHOD URL → STATUS MESSAGE`.
 */
module ProxyLog {
  import opened Wrappers
  import opened JsValues

  /** The logger's levels used by the handler. */
  datatype Level = Info | Warn | Error

  /** Severity order: info below warn below error. */
  function Rank(l: Level): nat {
    match l
    case Info => 0
    case Warn => 1
    case Error => 2
  }

  /**
   * The level of a completed upstream response. A missing status code is read
   * as 0 before it is compared, so it is logged at info.
   */
  function Classify(statusCode: Option<int>): (l: Level)
    ensures l == Error <==> statusCode.Some? && statusCode.value >= 500
    ensures l == Warn <==> statusCode.Some? && 400 <= statusCode.value < 500
    ensures l == Info <==> statusCode.None? || statusCode.value < 400
  {
    var code := statusCode.GetOr(0);
    if code >= 500 then Error else if code >= 400 then Warn else Info
  }

  /** An absent status code is classified exactly like status 0. */
  lemma MissingStatusIsZero()
    ensures Classify(None) == Classify(Some(0)) == Info
  {
  }

  /** A higher status code is never logged at a lower level. */
  lemma ClassifyMonotone(a: int, b: int)
    requires a <= b
    ensures Rank(Classify(Some(a))) <= Rank(Classify(Some(b)))
  {
  }

  /** The request a response belongs to; Node leaves both fields possibly undefined. */
  datatype Request = Request(httpMethod: Option<string>, url: Option<string>)

  /** The upstream response as the `proxyRes` event delivers it. */
  datatype UpstreamResponse = UpstreamResponse(statusCode: Option<int>, statusMessage: Option<string>)

  /** One call of the logger: its level, its text and whether a timestamp was asked for. */
  datatype LogRecord = LogRecord(level: Level, message: string, timestamp: bool)

  /**
   * The text of the log line, built by a template literal: each missing field
   * prints as "undefined"; the status code is printed as received, not
   * defaulted to 0.
   */
  function LogLine(req: Request, res: UpstreamResponse): (line: string)
    ensures StartsWith(line, StringText(req.httpMethod) + " " + StringText(req.url) + " \U{2192} ")
    ensures var k := |StringText(req.httpMethod)| + |StringText(req.url)| + 4;
            k + |OptNumberText(res.statusCode)| < |line| &&
            line[k..k + |OptNumberText(res.statusCode)|] == OptNumberText(res.statusCode) &&
            line[k + |OptNumberText(res.statusCode)|] == ' '
    ensures EndsWith(line, " " + StringText(res.statusMessage))
    ensures |line| == |StringText(req.httpMethod)| + |StringText(req.url)| + 4
                      + |OptNumberText(res.statusCode)| + 1 + |StringText(res.statusMessage)|
  {
    var head := StringText(req.httpMethod) + " " + StringText(req.url) + " \U{2192} ";
    var status := OptNumberText(res.statusCode);
    var line := head + status + " " + StringText(res.statusMessage);
    assert line[|head|..|head| + |status|] == status;
    line
  }

  /** A successful crate listing is logged as `GET /api/v1/crates → 200 OK`. */
  lemma CratesListingLine()
    ensures LogLine(Request(Some("GET"), Some("/api/v1/crates")), UpstreamResponse(Some(200), Some("OK")))
         == "GET /api/v1/crates \U{2192} 200 OK"
  {
  }

  /** A space-free field followed by a space, read at the same place of one text, is the same field. */
  lemma FieldBeforeSpace(line: string, k: nat, a1: string, a2: string)
    requires forall i :: 0 <= i < |a1| ==> a1[i] != ' '
    requires forall i :: 0 <= i < |a2| ==> a2[i] != ' '
    requires k + |a1| < |line| && line[k..k + |a1|] == a1 && line[k + |a1|] == ' '
    requires k + |a2| < |line| && line[k..k + |a2|] == a2 && line[k + |a2|] == ' '
    ensures a1 == a2
  {
  }

  /**
   * For a given request, the log line determines the status code (an absent
   * status is told apart from every number) and the printed status message.
   */
  lemma LogLineRecordsStatus(req: Request, r1: UpstreamResponse, r2: UpstreamResponse)
    requires LogLine(req, r1) == LogLine(req, r2)
    ensures r1.statusCode == r2.statusCode
    ensures StringText(r1.statusMessage) == StringText(r2.statusMessage)
  {
    var line := LogLine(req, r1);
    var k := |StringText(req.httpMethod)| + |StringText(req.url)| + 4;
    var a1, a2 := OptNumberText(r1.statusCode), OptNumberText(r2.statusCode);
    OptNumberTextHasNoSpace(r1.statusCode);
    OptNumberTextHasNoSpace(r2.statusCode);
    FieldBeforeSpace(line, k, a1, a2);
    OptNumberTextInjective(r1.statusCode, r2.statusCode);
    var m1, m2 := StringText(r1.statusMessage), StringText(r2.statusMessage);
    assert |m1| == |m2|;
    assert " " + m1 == line[|line| - |m1| - 1..] == " " + m2;
    assert m1 == (" " + m1)[1..];
    assert m2 == (" " + m2)[1..];
  }

  /** What `configure` attaches to the proxy: the `proxyRes` logging handler. */
  datatype ProxyHook = LogEachResponse

  /** One entry of the proxy table. */
  datatype ProxyOptions = ProxyOptions(target: string, changeOrigin: bool, configure: ProxyHook)

  /** The proxy table: request-path context to forwarding options. */
  type ProxyTable = map<string, ProxyOptions>

  /**
   * Whether the dev server forwards a request: there is a proxy table and the
   * request URL starts with one of its contexts.
   */
  predicate Intercepts(proxy: Option<ProxyTable>, url: Option<string>)
    ensures proxy.None? || url.None? ==> !Intercepts(proxy, url)
    ensures proxy.Some? && url.Some? && url.value in proxy.value ==> Intercepts(proxy, url)
    ensures Intercepts(proxy, url) ==> exists context :: context in proxy.value && |context| <= |url.value|
  {
    && proxy.Some?
    && url.Some?
    && exists context :: context in proxy.value && StartsWith(url.value, context)
  }

  /** The proxy logger: a sink to which the handler appends one record per call. */
  class ProxyLogger {
    var records: seq<LogRecord>

    constructor ()
      ensures records == []
    {
      records := [];
    }

    /** The `proxyRes` handler: classify the response, then log exactly one line. */
    method OnProxyRes(res: UpstreamResponse, req: Request)
      modifies this
      ensures records == old(records) + [LogRecord(Classify(res.statusCode), LogLine(req, res), true)]
    {
      var level := Info;
      if res.statusCode.GetOr(0) >= 500 {
        level := Error;
      } else if res.statusCode.GetOr(0) >= 400 {
        level := Warn;
      }
      var msg := LogLine(req, res);
      records := records + [LogRecord(level, msg, true)];
    }

    /**
     * One request through the dev server: a forwarded request whose upstream
     * response completes fires the handler once; any other request is served
     * locally and logs nothing.
     */
    method Serve(proxy: Option<ProxyTable>, req: Request, res: UpstreamResponse)
      modifies this
      ensures Intercepts(proxy, req.url) ==>
                records == old(records) + [LogRecord(Classify(res.statusCode), LogLine(req, res), true)]
      ensures !Intercepts(proxy, req.url) ==> records == old(records)
    {
      if Intercepts(proxy, req.url) {
        OnProxyRes(res, req);
      }
    }
  }
}
