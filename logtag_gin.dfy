/**
  The gin request logger with an ignore list (logtag_gin/logtag_gin.go).
 */
module LogTagGin {

  import opened Basics
  import opened LogTag
  import opened Http

  /** An ignore rule: an HTTP method and a regular expression for the path. */
  datatype MethodAndPath = MethodAndPath(httpMethod: string, path: string)

  /** Some rule has the request's method and a pattern that `matches` the path. */
  predicate Ignores(list: seq<MethodAndPath>, requestMethod: string, path: string,
                    matches: (string, string) -> bool) {
    exists i :: 0 <= i < |list| && list[i].httpMethod == requestMethod && matches(list[i].path, path)
  }

  /**
    Scans the rules in order and stops at the first whose method is the
    request's and whose pattern matches the path. `matches(pattern, path)`
    stands for the regular-expression search.
   */
  method Contains(list: seq<MethodAndPath>, requestMethod: string, path: string,
                  matches: (string, string) -> bool)
    returns (found: bool)
    ensures found <==> Ignores(list, requestMethod, path, matches)
  {
    for i := 0 to |list|
      invariant forall j :: 0 <= j < i ==> !(list[j].httpMethod == requestMethod && matches(list[j].path, path))
    {
      if list[i].httpMethod == requestMethod {
        var matched := matches(list[i].path, path);
        if matched {
          return true;
        }
      }
    }
    return false;
  }

  /** The logged path: the URL path, then `?` and the encoded query when there is one. */
  function RequestPath(urlPath: string, encodedQuery: string): (r: string)
    ensures urlPath <= r
    ensures r == urlPath <==> encodedQuery == ""
    ensures encodedQuery != "" ==> r[|urlPath|..] == "?" + encodedQuery
  {
    if encodedQuery != "" then urlPath + "?" + encodedQuery else urlPath
  }

  /** The level of the summary line: Error from 500 up. */
  function SummaryLevel(status: int): (r: Severity)
    ensures r == LevelError <==> status >= 500
    ensures r == LevelInfo <==> status < 500
  {
    if status >= 500 then LevelError else LevelInfo
  }

  /** The format of the summary line: `"%s %s" code=%s %d "%s" (%dms) %s - %s `. */
  function SummaryFormat(requestMethod: string, path: string, status: string, size: int,
                         userAgent: string, latency: int, clientIP: string, hostname: string): string {
    "\"" + requestMethod + " " + path + "\" code=" + status + " " + IntToString(size)
    + " \"" + userAgent + "\" (" + IntToString(latency) + "ms) " + clientIP + " - " + hostname + " "
  }

  /** The summary line of a request: blue method and path, coloured status, clamped size, rounded latency. */
  function SummaryText(hostname: string, c: Context): string {
    SummaryFormat(ToColoredText(BrightBlue, c.requestMethod),
                  ToColoredText(BrightBlue, RequestPath(c.urlPath, c.encodedQuery)),
                  StatusText(c.status), ClampSize(c.size), c.userAgent, LatencyMs(c.elapsedNs),
                  c.clientIP, hostname)
  }

  /**
    The line of a request, if any: the private errors at Error level when the
    handlers attached any (no suppression then); nothing for an ignored
    method and path with a status below 300; otherwise the summary at its
    level.
   */
  function RequestEntry(hostname: string, ignorePaths: seq<MethodAndPath>,
                        matches: (string, string) -> bool, c: Context): (r: Option<Entry>)
    ensures c.errorCount > 0 ==> r == Some(Entry(Leveled(LevelError), c.privateErrors))
    ensures r == None <==>
      c.errorCount == 0 && c.status < 300
      && Ignores(ignorePaths, c.requestMethod, RequestPath(c.urlPath, c.encodedQuery), matches)
    ensures c.errorCount == 0 && r.Some? ==>
      r.value == Entry(Leveled(SummaryLevel(c.status)), SummaryText(hostname, c))
  {
    if c.errorCount > 0 then Some(Entry(Leveled(LevelError), c.privateErrors))
    else if Ignores(ignorePaths, c.requestMethod, RequestPath(c.urlPath, c.encodedQuery), matches)
            && c.status < 300 then None
    else Some(Entry(Leveled(SummaryLevel(c.status)), SummaryText(hostname, c)))
  }

  /** The middleware for one request, after the rest of the chain has run. */
  method GinLogTag(logger: Logger, tag: string, hostname: string, ignorePaths: seq<MethodAndPath>,
                   matches: (string, string) -> bool, c: Context)
    modifies logger`lines
    ensures logger.lines == old(logger.lines) + logger.EmittedOpt(tag, RequestEntry(hostname, ignorePaths, matches, c))
  {
    var path := c.urlPath;

    if c.encodedQuery != "" {
      path := c.urlPath + "?" + c.encodedQuery;
    }
    var coloredPath := ToColoredText(BrightBlue, path);
    var latency := LatencyMs(c.elapsedNs);
    var statusCode := c.status;
    var clientIP := c.clientIP;
    var clientUserAgent := c.userAgent;
    var dataLength := c.size;

    if dataLength < 0 {
      dataLength := 0;
    }

    var requestMethod := ToColoredText(BrightBlue, c.requestMethod);

    assert path == RequestPath(c.urlPath, c.encodedQuery);
    var statusCodeString := IntToString(statusCode);
    if statusCode > 500 {
      statusCodeString := ToColoredText(Red, statusCodeString);
    } else if statusCode > 400 {
      statusCodeString := ToColoredText(Yellow, statusCodeString);
    } else {
      statusCodeString := ToColoredText(Green, statusCodeString);
    }

    ghost var entry := RequestEntry(hostname, ignorePaths, matches, c);
    if c.errorCount > 0 {
      logger.Error(tag, c.privateErrors);
      assert entry == Some(Entry(Leveled(LevelError), c.privateErrors));
    } else {
      var ignored := Contains(ignorePaths, c.requestMethod, path, matches);
      if ignored && statusCode < 300 {
        assert entry == None;
        return;
      }

      assert statusCodeString == StatusText(statusCode);
      var msg := SummaryFormat(requestMethod, coloredPath, statusCodeString, dataLength,
                               clientUserAgent, latency, clientIP, hostname);
      assert msg == SummaryText(hostname, c);
      assert entry == Some(Entry(Leveled(SummaryLevel(statusCode)), msg));
      if statusCode >= 500 {
        logger.Error(tag, msg);
      } else {
        logger.Info(tag, msg);
      }
    }
  }

  /**
    An ignored method and path is silent with status 200 but still logged, at
    Error level, with status 500: only a status below 300 is suppressed.
   */
  lemma SuppressionNeedsSuccess(hostname: string, ignorePaths: seq<MethodAndPath>,
                                matches: (string, string) -> bool, c: Context)
    requires c.errorCount == 0
    requires Ignores(ignorePaths, c.requestMethod, RequestPath(c.urlPath, c.encodedQuery), matches)
    ensures RequestEntry(hostname, ignorePaths, matches, c.(status := 200)) == None
    ensures RequestEntry(hostname, ignorePaths, matches, c.(status := 500)).Some?
    ensures RequestEntry(hostname, ignorePaths, matches, c.(status := 500)).value.call == Leveled(LevelError)
  {
  }
}
