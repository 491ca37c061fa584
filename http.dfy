/**
  What the two gin request loggers share: the request as the middleware reads
  it (the path and query before the rest of the chain runs, everything else
  after), decimal rendering of integers, the size clamp, latency rounding and
  the status colour.
 */
module Http {

  import opened LogTag

  /**
    The request context as the middleware reads it: the URL path and encoded
    query as they were before `c.Next()` (a later handler may change the
    path, so both loggers read it first); then, after the chain has run, the
    request method, client address, user agent, the response status and size
    as the writer reports them, the nanoseconds the chain took, the number of
    errors the handlers attached and the text of the private ones.
   */
  datatype Context = Context(
    requestMethod: string,
    urlPath: string,
    encodedQuery: string,
    clientIP: string,
    userAgent: string,
    status: int,
    size: int,
    elapsedNs: nat,
    errorCount: nat,
    privateErrors: string)

  predicate IsDigit(ch: char) {
    '0' <= ch <= '9'
  }

  function DigitChar(d: nat): (ch: char)
    requires d < 10
    ensures IsDigit(ch) && DigitValue(ch) == d
  {
    ('0' as int + d) as char
  }

  /** The decimal digits of `n`, with no leading zero (`%d` of a natural number). */
  function NatToString(n: nat): (r: string)
    ensures |r| >= 1
    ensures forall i :: 0 <= i < |r| ==> IsDigit(r[i])
    ensures r[0] == '0' ==> n == 0 && r == "0"
  {
    if n < 10 then [DigitChar(n)]
    else NatToString(n / 10) + [DigitChar(n % 10)]
  }

  function DigitValue(ch: char): nat
    requires IsDigit(ch)
  {
    (ch as int) - ('0' as int)
  }

  /** The number a string of decimal digits denotes. */
  function DecimalValue(s: string): nat
    requires forall i :: 0 <= i < |s| ==> IsDigit(s[i])
  {
    if s == [] then 0
    else DecimalValue(s[..|s| - 1]) * 10 + DigitValue(s[|s| - 1])
  }

  /** Rendering a number in decimal loses nothing: reading the digits back gives the number. */
  lemma {:induction false} NatToStringRoundTrip(n: nat)
    ensures DecimalValue(NatToString(n)) == n
  {
    var s := NatToString(n);
    if n >= 10 {
      NatToStringRoundTrip(n / 10);
      assert s[..|s| - 1] == NatToString(n / 10);
    }
  }

  /** `%d` (and `fmt.Sprint`) of an integer. */
  function IntToString(i: int): (r: string)
    ensures |r| >= 1
    ensures r[0] == '-' <==> i < 0
    ensures i >= 0 ==> r == NatToString(i)
    ensures i < 0 ==> r[1..] == NatToString(-i)
  {
    if i < 0 then "-" + NatToString(-i) else NatToString(i)
  }

  /** The logged size: the writer's size, or 0 when it reports a negative (unknown) size. */
  function ClampSize(size: int): (r: nat)
    ensures size >= 0 ==> r == size
    ensures size < 0 ==> r == 0
  {
    if size < 0 then 0 else size
  }

  /** The latency in whole milliseconds, rounded up: the least r with r * 1000000 >= ns. */
  function LatencyMs(ns: nat): (r: nat)
    ensures r * 1000000 >= ns > (r - 1) * 1000000
  {
    (ns + 999999) / 1000000
  }

  /** 1.2 ms is reported as 2 ms, and 2.0 ms exactly as 2 ms. */
  lemma LatencyExamples()
    ensures LatencyMs(1200000) == 2
    ensures LatencyMs(2000000) == 2
    ensures LatencyMs(0) == 0
  {
  }

  /** The status colour: red above 500, yellow from 401 to 500, green otherwise. */
  function StatusColor(status: int): (r: LogColor)
    ensures r == Red <==> status > 500
    ensures r == Yellow <==> 400 < status <= 500
    ensures r == Green <==> status <= 400
  {
    if status > 500 then Red
    else if status > 400 then Yellow
    else Green
  }

  /** The status as the summary line shows it: its decimal digits in the status colour. */
  function StatusText(status: int): string {
    ToColoredText(StatusColor(status), IntToString(status))
  }
}
