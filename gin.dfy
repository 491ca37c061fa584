/**
  The first-generation gin request logger (gin/gin.go): one line per request,
  with no ignore list.
 */
module Gin {

  import opened LogTag
  import opened Http

  /** The level of the summary line: Error only above 500, so 500 itself is Info. */
  function SummaryLevel(status: int): (r: Severity)
    ensures r == LevelError <==> status > 500
    ensures r == LevelInfo <==> status <= 500
  {
    if status > 500 then LevelError else LevelInfo
  }

  /** The format of the summary line: `%s - %s "%s %s" %s %d "%s" (%dms)`. */
  function SummaryFormat(clientIP: string, hostname: string, requestMethod: string, path: string,
                         status: string, size: int, userAgent: string, latency: int): string {
    clientIP + " - " + hostname + " \"" + requestMethod + " " + path + "\" "
    + status + " " + IntToString(size) + " \"" + userAgent + "\" (" + IntToString(latency) + "ms)"
  }

  /** The summary line of a request: blue method and path, coloured status, clamped size, rounded latency. */
  function SummaryText(hostname: string, c: Context): string {
    SummaryFormat(c.clientIP, hostname, ToColoredText(BrightBlue, c.requestMethod),
                  ToColoredText(BrightBlue, c.urlPath), StatusText(c.status), ClampSize(c.size),
                  c.userAgent, LatencyMs(c.elapsedNs))
  }

  /**
    The one line of a request: the private errors at Error level when the
    handlers attached any, otherwise the summary at its level.
   */
  function RequestEntry(hostname: string, c: Context): (r: Entry)
    ensures r.call == Leveled(LevelError) <==> c.errorCount > 0 || c.status > 500
    ensures r.call == Leveled(LevelInfo) <==> c.errorCount == 0 && c.status <= 500
    ensures c.errorCount > 0 ==> r.text == c.privateErrors
    ensures c.errorCount == 0 ==> r.text == SummaryText(hostname, c)
  {
    if c.errorCount > 0 then Entry(Leveled(LevelError), c.privateErrors)
    else Entry(Leveled(SummaryLevel(c.status)), SummaryText(hostname, c))
  }

  /** The middleware for one request, after the rest of the chain has run. */
  method GinLogTag(logger: Logger, tag: string, hostname: string, c: Context)
    modifies logger`lines
    ensures logger.lines == old(logger.lines) + logger.Emitted(tag, RequestEntry(hostname, c))
  {
    var path := ToColoredText(BrightBlue, c.urlPath);
    var latency := LatencyMs(c.elapsedNs);
    var statusCode := c.status;
    var clientIP := c.clientIP;
    var clientUserAgent := c.userAgent;
    var dataLength := c.size;

    if dataLength < 0 {
      dataLength := 0;
    }

    var requestMethod := ToColoredText(BrightBlue, c.requestMethod);

    var statusCodeString := IntToString(statusCode);
    if statusCode > 500 {
      statusCodeString := ToColoredText(Red, statusCodeString);
    } else if statusCode > 400 {
      statusCodeString := ToColoredText(Yellow, statusCodeString);
    } else {
      statusCodeString := ToColoredText(Green, statusCodeString);
    }

    if c.errorCount > 0 {
      logger.Error(tag, c.privateErrors);
    } else {
      var msg := SummaryFormat(clientIP, hostname, requestMethod, path, statusCodeString,
                               dataLength, clientUserAgent, latency);
      assert msg == SummaryText(hostname, c);
      if statusCode > 500 {
        logger.Error(tag, msg);
      } else {
        logger.Info(tag, msg);
      }
    }
  }

  /** With no errors every request yields exactly one line once the tag passes the filter. */
  lemma OneLinePerRequest(tagMap: map<string, LogColor>, ignored: set<string>, minLevel: int,
                          tag: string, hostname: string, c: Context)
    requires tag !in ignored && minLevel <= Rank(LevelInfo)
    ensures |Emission(tagMap, ignored, minLevel, tag, RequestEntry(hostname, c).call, RequestEntry(hostname, c).text)| == 1
  {
  }
}
