# go-logtag in Dafny

A model of the decision logic of go-logtag, a Go library that decorates gin
HTTP handlers and gRPC calls with colourised log lines written through a
tag logger.

- `logtag.dfy` (module `LogTag`): the tag logger. It covers the colour table
  of ECMA-48 select-graphic-rendition sequences (section 8.3.117 of ECMA-48),
  `ToColoredText`, the tag label and the level/ignore filter. It also
  composes each line per level. The package globals (tag colour map, ignored
  tags, minimum level) are the fields of a `Logger` object. The log output is
  its ghost sequence `lines` of records `(level, tag, text, stamped)`.
- `rpc.dfy` (module `Rpc`): the outcome of a framework call (`Ok`, `Eof` for
  `io.EOF`, `Failed(text)`), the arrow line shape, and `Transport`, a stand-in
  for the real gRPC stream. Its answers are given as functions of the call
  count, and it records every message handed to it.
- `logtag_grpc.dfy` (module `LogTagGrpc`): the unary and stream interceptors
  with the payload toggle. Every wrapper method first forwards the call, then
  writes at most one line. The outcome × direction-flag decision is a pure
  function, and each method is proved to write exactly what that function
  decides and to return the forwarded result unchanged.
- `grpc.dfy` (module `Grpc`): the older unary interceptors without a payload
  toggle.
- `http.dfy` (module `Http`): what both gin loggers share: the request
  context (the URL path and query as read before the rest of the chain runs,
  everything else as it stands afterwards), `%d` rendering, the size
  clamp, rounding latency up, and the status colour.
- `gin.dfy` (module `Gin`) and `logtag_gin.dfy` (module `LogTagGin`): the two
  gin middlewares. Each has a pure function giving the line of a request and
  a method, shaped like the handler body, proved to write that line.

Behaviour of the code that the model keeps as written:
- An Info call writes a reset-coloured `Info: ` prefix
  (logtag/logtag.go:152, 159).
- The status colour is red above 500, yellow from 401 to 500 and green
  otherwise (gin/gin.go:39-45, logtag_gin/logtag_gin.go:51-57).
- In `gin/gin.go` a 500 status logs at Info, because the level test is
  `> 500` (gin/gin.go:52); `logtag_gin` uses `>= 500`
  (logtag_gin/logtag_gin.go:67).
- The server unary interceptor of `logtag_grpc` writes a successful response
  under the inbound arrow, like the request line
  (logtag_grpc/logtag_grpc.go:25, 27).

## Model

| member | source | states |
|---|---|---|
| `LogTag.ColorStringShape` | logtag/logtag.go:46-87 | the sequence of a colour is non-empty exactly for the 18 named colours, "" for any other value; every sequence is ESC `[` … `m`; Reset gives the reset sequence and only Reset does |
| `LogTag.ColorStringInjective` | logtag/logtag.go:46-87 | two different named colours have different escape sequences |
| `LogTag.ToColoredText` | logtag/logtag.go:125-127 | the text starts with the colour's sequence, ends with the reset sequence, and is exactly as long as the two sequences and the message; it depends on no configuration |
| `LogTag.ToColoredTextMessage` | logtag/logtag.go:125-127 | the message, unchanged, is what lies between the two sequences |
| `LogTag.ToColoredTextInjective` | logtag/logtag.go:125-127 | the message can be recovered from the coloured text |
| `LogTag.RankStrictlyIncreasing` | logtag/logtag.go:18-23 | levels are strictly ordered Info < Warning < Error < Fatal |
| `LogTag.AddColoredTag` | logtag/logtag.go:107-115 | message unchanged when the tag has no colour; otherwise the coloured `[tag] ` label followed by the message, so the message is always a suffix |
| `LogTag.LevelColor` | logtag/logtag.go:148-201 | the prefix colour is Reset for Info, Yellow for Warning, and Red for Error and Fatal |
| `LogTag.Compose` | logtag/logtag.go:134-201 | a line ends with the message; Printf/Println add only the tag label; a leveled call puts its coloured level prefix right before the message, and for a tag with no colour the line is exactly that prefix and the message |
| `LogTag.Emission` | logtag/logtag.go:129-201 | a call writes nothing iff its tag is ignored or the minimum level is above its level; otherwise exactly one record with that level and tag, timestamped iff Printf/Println, ending with the message |
| `LogTag.EmittedAtMinimum` | logtag/logtag.go:129-132 | a call at exactly the minimum level is written |
| `LogTag.EmissionMonotone` | logtag/logtag.go:129-132 | a call that is written stays written at any higher level |
| `LogTag.ColoredLeveledLine` | logtag/logtag.go:148-188 | a leveled call on a coloured, unignored tag at or above the minimum writes one untimestamped record: the coloured `[tag] ` label, the coloured level prefix, then the message |
| `LogTag.WarningBelowError` | logtag/logtag.go:162-174 | with the minimum level at Error a Warn call writes nothing, whatever its tag and message |
| `LogTag.Logger.constructor` | logtag/logtag.go:89-91 | before configuration: no tag colours, no ignored tags, minimum level Info, nothing written |
| `LogTag.Logger.ConfigureLogger` | logtag/logtag.go:93-100 | the tag map becomes `tags` and the ignore set becomes exactly the elements of `ignoreTags` (earlier entries dropped); the minimum level is kept |
| `LogTag.Logger.SetMinimumLogLevel` | logtag/logtag.go:102-104 | changes the minimum level and nothing else |
| `LogTag.Logger.Log` | logtag/logtag.go:134-201 | the output grows by exactly what `Emission` decides for the call |
| `LogTag.Logger.Printf` | logtag/logtag.go:134-146 | stands for both Printf and Println (the same call once the message is rendered): they write a timestamped line filtered at Info, with no level prefix |
| `LogTag.Logger.Info` | logtag/logtag.go:148-160 | Info and Infof write at Info with the reset-coloured `Info: ` prefix |
| `LogTag.Logger.Warn` | logtag/logtag.go:162-174 | Warn and Warnf write at Warning with the yellow `Warning: ` prefix |
| `LogTag.Logger.Error` | logtag/logtag.go:176-188 | Error and Errorf write at Error with the red `Error: ` prefix |
| `LogTag.Logger.Fatal` | logtag/logtag.go:190-202 | Fatal and Fatalf write at Fatal and then exit; a filtered Fatal call neither writes nor exits |
| `LogTagGrpc.Truncate` | logtag_grpc/logtag_grpc.go:15 | `%.500s` shows a prefix of the message of length min(length, 500) |
| `LogTagGrpc.UnaryRequestEntry` | logtag_grpc/logtag_grpc.go:14-18 | the request line is a Printf line that starts with the arrow and the method and ends with the payload view (truncated message or the placeholder) |
| `LogTagGrpc.ServerUnaryResultEntry` | logtag_grpc/logtag_grpc.go:22-28 | the result line is at Error level iff the handler returned an error, starting with the outbound arrow and the method and ending with the red error text; otherwise it is a Printf line starting with the inbound arrow and the method and ending with the response view |
| `LogTagGrpc.ClientUnaryResultEntry` | logtag_grpc/logtag_grpc.go:46-52 | the result line starts with the inbound arrow and the method in both cases; it is at Error level iff the invoker returned an error and ends with the red error text, otherwise it ends with the reply view |
| `LogTagGrpc.ServerUnaryInterceptor` | logtag_grpc/logtag_grpc.go:11-32 | returns the handler's response and error unchanged; writes the request line, then the result line |
| `LogTagGrpc.ClientUnaryInterceptor` | logtag_grpc/logtag_grpc.go:34-56 | returns the invoker's error unchanged; writes the request line, then the result line |
| `LogTagGrpc.ServerStreamClosedEntry` | logtag_grpc/logtag_grpc.go:64-71 | no line iff the handler returned end of stream; an Error line, starting with the outbound arrow and the method and ending with the red error text, iff another error; exactly the outbound "streaming closed" line iff nil |
| `LogTagGrpc.ServerStreamInterceptor` | logtag_grpc/logtag_grpc.go:58-75 | returns the handler's error unchanged; the output grows by exactly the "streaming started" line, the lines written while the handler ran, and the `ServerStreamClosedEntry` decision |
| `LogTagGrpc.ServerSendEntry` | logtag_grpc/logtag_grpc.go:84-101 | end of stream writes nothing; another error writes one outbound Error line; a sent message writes one outbound payload line iff the server streams |
| `LogTagGrpc.ServerStreamMsgInterceptor.SendMsg` | logtag_grpc/logtag_grpc.go:84-101 | forwards first: the real stream gets the untruncated message and its error is returned unchanged; then writes the `ServerSendEntry` decision |
| `LogTagGrpc.ServerRecvEntry` | logtag_grpc/logtag_grpc.go:103-119 | end of stream writes nothing; another error writes one inbound Error line; a received message writes one inbound payload line iff the client streams |
| `LogTagGrpc.ServerStreamMsgInterceptor.RecvMsg` | logtag_grpc/logtag_grpc.go:103-119 | returns the real stream's error and message unchanged; then writes the `ServerRecvEntry` decision |
| `LogTagGrpc.ClientStreamOpenedEntry` | logtag_grpc/logtag_grpc.go:130-135 | an Error line, starting with the outbound arrow and the method and ending with the red error text, iff the streamer failed (end of stream included); otherwise exactly the outbound "streaming closed" line |
| `LogTagGrpc.ClientStreamInterceptor` | logtag_grpc/logtag_grpc.go:122-138 | returns no stream and the streamer's error when it fails; otherwise a fresh wrapper around the opened stream; writes "streaming started" and then the opened line |
| `LogTagGrpc.ClientSendEntry` | logtag_grpc/logtag_grpc.go:148-162 | any error, end of stream included, writes one Error line without arrow; a sent message writes an untruncated outbound line iff the client streams |
| `LogTagGrpc.ClientStreamMsgInterceptor.SendMsg` | logtag_grpc/logtag_grpc.go:148-162 | forwards the message unchanged and returns the real error; then writes the `ClientSendEntry` decision |
| `LogTagGrpc.ClientRecvEntry` | logtag_grpc/logtag_grpc.go:164-178 | only an error other than end of stream writes an Error line; a message or end of stream writes an inbound line iff the server streams |
| `LogTagGrpc.ClientStreamMsgInterceptor.RecvMsg` | logtag_grpc/logtag_grpc.go:164-178 | returns the real error and message unchanged; then writes the `ClientRecvEntry` decision |
| `LogTagGrpc.EndOfStreamHandling` | logtag_grpc/logtag_grpc.go:84-178 | end of stream is silent on server sends and receives, is an Error line on a client send, and never an Error-level line of any kind on a client receive |
| `LogTagGrpc.TruncationIsOnlyAView` | logtag_grpc/logtag_grpc.go:91-96 | a 600-character server-stream send logs its first 500 characters only |
| `Grpc.ResultEntry` | grpc/grpc.go:18-22 | the result line starts with the arrow and method, is at Error level iff the call failed, and ends with the red error text or the untruncated result |
| `Grpc.GrpcLogTagServerInterceptor` | grpc/grpc.go:10-26 | returns the handler's response and error unchanged; writes an inbound request line, then an outbound result line |
| `Grpc.GrpcLogTagClientInterceptor` | grpc/grpc.go:28-42 | returns the invoker's error unchanged; writes an outbound request line, then an inbound result line |
| `Http.NatToString` | logtag_gin/logtag_gin.go:66 | `%d` of a natural number: at least one digit, all digits, no leading zero |
| `Http.NatToStringRoundTrip` | logtag_gin/logtag_gin.go:66 | reading the rendered digits back gives the number |
| `Http.IntToString` | logtag_gin/logtag_gin.go:50 | `fmt.Sprint` of an int: a leading minus iff negative, then the digits of its magnitude |
| `Http.ClampSize` | logtag_gin/logtag_gin.go:42-46 | the logged size is never negative: a negative writer size becomes 0, others are kept (same in gin/gin.go:31-35) |
| `Http.LatencyMs` | logtag_gin/logtag_gin.go:38 | the latency is the ceiling of the nanoseconds over 1,000,000 (same in gin/gin.go:27) |
| `Http.LatencyExamples` | logtag_gin/logtag_gin.go:38 | 1.2 ms is reported as 2, 2.0 ms as 2 |
| `Http.StatusColor` | logtag_gin/logtag_gin.go:50-57 | red iff above 500, yellow iff 401 to 500, green otherwise, so 500 is yellow and 400 green (same in gin/gin.go:39-46) |
| `Gin.SummaryLevel` | gin/gin.go:52-56 | Error iff the status is above 500, so 500 logs at Info |
| `Gin.RequestEntry` | gin/gin.go:48-57 | errors attached: one Error line with the private errors; otherwise the summary line at Error iff the status is above 500 |
| `Gin.GinLogTag` | gin/gin.go:21-58 | writes exactly the `RequestEntry` line of the request |
| `Gin.OneLinePerRequest` | gin/gin.go:48-57 | every request writes exactly one line when its tag passes the filter at Info; there is no ignore list |
| `LogTagGin.Contains` | logtag_gin/logtag_gin.go:76-89 | true iff some rule has the request's method and a pattern that matches the path |
| `LogTagGin.RequestPath` | logtag_gin/logtag_gin.go:29-33 | the URL path, followed by `?` and the encoded query exactly when the query is non-empty |
| `LogTagGin.SummaryLevel` | logtag_gin/logtag_gin.go:66-71 | Error iff the status is 500 or above |
| `LogTagGin.RequestEntry` | logtag_gin/logtag_gin.go:59-72 | errors attached: one Error line with the private errors and no suppression; no line iff no errors, an ignore rule matches and status < 300; otherwise the summary at its level |
| `LogTagGin.GinLogTag` | logtag_gin/logtag_gin.go:27-73 | writes exactly the `RequestEntry` line of the request, if any |
| `LogTagGin.SuppressionNeedsSuccess` | logtag_gin/logtag_gin.go:62-71 | an ignored method and path is silent at status 200 but logged at Error at status 500 |

## Left out

- Output: `log.Print`/`log.Printf` and `log.SetFlags` (logtag/logtag.go:99) are not modelled. Writing a line appends a record to the ghost sequence `Logger.lines`. A record's `stamped` flag is the package's own coloured date and time (`addDateTime`, logtag/logtag.go:117-123), which only Printf and Println add. The standard logger's own date and time, which it writes on every line until `ConfigureLogger` clears them (logtag/logtag.go:99), are not modelled. A line written before configuration is therefore modelled without that prefix. A Printf line written then carries both timestamps in Go but only the `stamped` flag in the model.
- Path rewriting: both gin loggers read the URL path (and `logtag_gin` the encoded query) before `c.Next()` (gin/gin.go:22-23, logtag_gin/logtag_gin.go:28-33), so a handler that rewrites the path does not change the logged path. The model takes the path as an input read at that point and does not model a handler changing it.
- Map aliasing: `ConfigureLogger` stores the caller's map itself (logtag/logtag.go:94), so later changes the caller makes to that map change the tag colours. The model copies the map as a value and does not capture that sharing.
- Timestamps: the wall-clock timestamp of Printf/Println (`addDateTime`, logtag/logtag.go:117-123) is the `stamped` flag of a record, not a text.
- Process exit: `log.Fatal` is the `exited` flag; calls after it are not prevented.
- Formatting: the formatted variants are the plain calls with the message already rendered. The model therefore misses a `%` verb inside a tag label, which Go would format because the label is added before formatting.
- Message rendering: a message is represented by its `%s` rendering (`Rpc.Msg` is a string). Go's rendering of arbitrary values is not modelled; `%.500s` takes the first 500 characters.
- Regular expressions: `regexp.Match` is the `matches` parameter. The branch of `contains` that logs an invalid pattern (logtag_gin/logtag_gin.go:83-85) is not modelled.
- gin internals are inputs in `Http.Context`: `c.Next()`, `ClientIP`, `UserAgent`, `Query().Encode()`, `Writer.Status/Size`, and the text of `c.Errors.ByType(gin.ErrorTypePrivate).String()`. So are the elapsed nanoseconds, from `time.Now`/`time.Since`.
- Rounding: `math.Ceil` over `float64` is integer ceiling division. Float rounding at very large durations is not modelled.
- Host name: `os.Hostname` and its "unknown" fallback are the `hostname` parameter.
- gRPC internals: handlers and invokers are functions from request to reply. The stream under a wrapper is `Rpc.Transport`, the streamer is `LogTagGrpc.Streamer`, and the application's stream handler is `LogTagGrpc.StreamHandler`, a fixed script of sends and receives. Any lines an application handler writes itself are not modelled.
- Factories: each factory and the closure it returns are one method taking both sets of parameters.
- `LogTagGrpc.ServerStreamInterceptor`: names the lines written while the handler ran (`handled`) without listing them. Each of them is stated by `SendMsg` or `RecvMsg`.
- Concurrency: races on the package globals are not modelled; the model is sequential.
