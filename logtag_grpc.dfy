/**
  Interceptors that log unary calls and every message of a streaming call,
  forwarding every call and result unchanged (logtag_grpc/logtag_grpc.go).

  Each wrapper method decides at most one log line from the outcome of the
  forwarded call and the stream's direction flags; the decisions are the
  functions below, and the methods are proved to write exactly what they
  decide.
 */
module LogTagGrpc {

  import opened Basics
  import opened LogTag
  import opened Rpc

  /** The precision of the `%.500s` verb. */
  const PayloadLimit: nat := 500

  /** What is logged instead of a message when payload logging is off. */
  const TruncatedPayload: string := "<payload truncated>"

  /** `%.500s` of a message: its first 500 characters, or all of it when shorter. */
  function Truncate(m: Msg): (r: string)
    ensures |r| == (if |m| < PayloadLimit then |m| else PayloadLimit)
    ensures r <= m
  {
    if |m| <= PayloadLimit then m else m[..PayloadLimit]
  }

  /** What a truncating line shows of a message. */
  function PayloadView(logPayload: bool, m: Msg): string {
    if logPayload then Truncate(m) else TruncatedPayload
  }

  /** What a client stream line shows of a message: `%s`, not truncated. */
  function FullView(logPayload: bool, m: Msg): string {
    if logPayload then m else TruncatedPayload
  }

  /** The error line of a failed call: `Errorf("<arrow> <method>: <red error>")`. */
  function ErrorEntry(arrow: string, methodName: string, err: Status): Entry
    requires err != Ok
  {
    Entry(Leveled(LevelError), ArrowLine(arrow, methodName, ErrorDetail(err)))
  }

  /** The method and direction flags of a server-side stream. */
  datatype StreamServerInfo = StreamServerInfo(fullMethod: string, isClientStream: bool, isServerStream: bool)

  /** The direction flags of a client-side stream. */
  datatype StreamDesc = StreamDesc(clientStreams: bool, serverStreams: bool)

  function BoolText(b: bool): string {
    if b then "true" else "false"
  }

  // ---------------------------------------------------------------------
  // Unary calls

  /** The line written before a unary call, inbound on the server and outbound on the client. */
  function UnaryRequestEntry(arrow: string, methodName: string, logPayload: bool, req: Msg): (r: Entry)
    ensures r.call == Plain
    ensures arrow + " " + methodName + ": " <= r.text
    ensures IsSuffix(PayloadView(logPayload, req), r.text)
  {
    Entry(Plain, ArrowLine(arrow, methodName, PayloadView(logPayload, req)))
  }

  /**
    The line written after the server's handler: an outbound Error line with
    the error when there is one (end of stream included), otherwise the
    response under the inbound arrow.
   */
  function ServerUnaryResultEntry(fullMethod: string, logPayload: bool, h: Msg, err: Status): (r: Entry)
    ensures r.call == Leveled(LevelError) <==> err != Ok
    ensures r.call == Plain <==> err == Ok
    ensures err != Ok ==> Outbound + " " + fullMethod + ": " <= r.text
    ensures err == Ok ==> Inbound + " " + fullMethod + ": " <= r.text
    ensures err != Ok ==> IsSuffix(ErrorDetail(err), r.text)
    ensures err == Ok ==> IsSuffix(PayloadView(logPayload, h), r.text)
  {
    if err != Ok then ErrorEntry(Outbound, fullMethod, err)
    else Entry(Plain, ArrowLine(Inbound, fullMethod, PayloadView(logPayload, h)))
  }

  /** The line written after the client's invoker: Error iff the invoker failed. */
  function ClientUnaryResultEntry(methodName: string, logPayload: bool, reply: Msg, err: Status): (r: Entry)
    ensures r.call == Leveled(LevelError) <==> err != Ok
    ensures r.call == Plain <==> err == Ok
    ensures Inbound + " " + methodName + ": " <= r.text
    ensures err != Ok ==> IsSuffix(ErrorDetail(err), r.text)
    ensures err == Ok ==> IsSuffix(PayloadView(logPayload, reply), r.text)
  {
    if err != Ok then ErrorEntry(Inbound, methodName, err)
    else Entry(Plain, ArrowLine(Inbound, methodName, PayloadView(logPayload, reply)))
  }

  /**
    The server unary interceptor: logs the request, calls the handler, logs
    the result, and returns the handler's response and error unchanged.
   */
  method ServerUnaryInterceptor(logger: Logger, logTag: string, logPayload: bool,
                                fullMethod: string, req: Msg, handler: Msg -> Reply)
    returns (h: Msg, err: Status)
    modifies logger`lines
    ensures Reply(err, h) == handler(req)
    ensures logger.lines == old(logger.lines)
                            + logger.Emitted(logTag, UnaryRequestEntry(Inbound, fullMethod, logPayload, req))
                            + logger.Emitted(logTag, ServerUnaryResultEntry(fullMethod, logPayload, h, err))
  {
    if logPayload {
      logger.Printf(logTag, ArrowLine(Inbound, fullMethod, Truncate(req)));
    } else {
      logger.Printf(logTag, ArrowLine(Inbound, fullMethod, TruncatedPayload));
    }
    var reply := handler(req);
    h, err := reply.msg, reply.status;

    if err != Ok {
      logger.Error(logTag, ArrowLine(Outbound, fullMethod, ErrorDetail(err)));
    } else if logPayload {
      logger.Printf(logTag, ArrowLine(Inbound, fullMethod, Truncate(h)));
    } else {
      logger.Printf(logTag, ArrowLine(Inbound, fullMethod, TruncatedPayload));
    }
  }

  /**
    The client unary interceptor: logs the request, calls the invoker, logs
    the result, and returns the invoker's error (and the reply it filled)
    unchanged.
   */
  method ClientUnaryInterceptor(logger: Logger, logTag: string, logPayload: bool,
                                methodName: string, req: Msg, invoker: Msg -> Reply)
    returns (err: Status, reply: Msg)
    modifies logger`lines
    ensures Reply(err, reply) == invoker(req)
    ensures logger.lines == old(logger.lines)
                            + logger.Emitted(logTag, UnaryRequestEntry(Outbound, methodName, logPayload, req))
                            + logger.Emitted(logTag, ClientUnaryResultEntry(methodName, logPayload, reply, err))
  {
    if logPayload {
      logger.Printf(logTag, ArrowLine(Outbound, methodName, Truncate(req)));
    } else {
      logger.Printf(logTag, ArrowLine(Outbound, methodName, TruncatedPayload));
    }

    var r := invoker(req);
    err, reply := r.status, r.msg;

    if err != Ok {
      logger.Error(logTag, ArrowLine(Inbound, methodName, ErrorDetail(err)));
    } else if logPayload {
      logger.Printf(logTag, ArrowLine(Inbound, methodName, Truncate(reply)));
    } else {
      logger.Printf(logTag, ArrowLine(Inbound, methodName, TruncatedPayload));
    }
  }

  // ---------------------------------------------------------------------
  // Server streams

  function ServerStreamStartedEntry(info: StreamServerInfo): Entry {
    Entry(Plain, ArrowLine(Inbound, info.fullMethod,
      "streaming started (client streaming: " + BoolText(info.isClientStream)
      + ", server streaming: " + BoolText(info.isServerStream) + ")"))
  }

  /**
    The line written when the server's stream handler returns: none for the
    end of stream, an Error line for any other error, "streaming closed"
    otherwise.
   */
  function ServerStreamClosedEntry(fullMethod: string, err: Status): (r: Option<Entry>)
    ensures r == None <==> err == Eof
    ensures r.Some? ==> (r.value.call == Leveled(LevelError) <==> err.Failed?)
    ensures r.Some? ==> (r.value.call == Plain <==> err == Ok)
    ensures err.Failed? ==> r.Some? && IsSuffix(ErrorDetail(err), r.value.text)
    ensures err.Failed? ==> Outbound + " " + fullMethod + ": " <= r.value.text
    ensures err == Ok ==> r == Some(Entry(Plain, ArrowLine(Outbound, fullMethod, "streaming closed")))
  {
    if err == Eof then None
    else if err != Ok then Some(ErrorEntry(Outbound, fullMethod, err))
    else Some(Entry(Plain, ArrowLine(Outbound, fullMethod, "streaming closed")))
  }

  /**
    The line after a server send: none for the end of stream, one Error line
    for any other error, and for a delivered message one outbound line only
    when the server streams.
   */
  function ServerSendEntry(info: StreamServerInfo, logPayload: bool, m: Msg, err: Status): (r: Option<Entry>)
    ensures r == None <==> err == Eof || (err == Ok && !info.isServerStream)
    ensures r.Some? ==> (r.value.call == Leveled(LevelError) <==> err.Failed?)
    ensures r.Some? ==> (r.value.call == Plain <==> err == Ok)
    ensures err.Failed? ==> r == Some(ErrorEntry(Outbound, info.fullMethod, err))
    ensures err == Ok && info.isServerStream ==>
      r == Some(Entry(Plain, ArrowLine(Outbound, info.fullMethod, PayloadView(logPayload, m))))
  {
    if err == Eof then None
    else if err != Ok then Some(ErrorEntry(Outbound, info.fullMethod, err))
    else if info.isServerStream then Some(Entry(Plain, ArrowLine(Outbound, info.fullMethod, PayloadView(logPayload, m))))
    else None
  }

  /**
    The line after a server receive: none for the end of stream, one Error
    line for any other error, and for a received message one inbound line
    only when the client streams.
   */
  function ServerRecvEntry(info: StreamServerInfo, logPayload: bool, m: Msg, err: Status): (r: Option<Entry>)
    ensures r == None <==> err == Eof || (err == Ok && !info.isClientStream)
    ensures r.Some? ==> (r.value.call == Leveled(LevelError) <==> err.Failed?)
    ensures r.Some? ==> (r.value.call == Plain <==> err == Ok)
    ensures err.Failed? ==> r == Some(ErrorEntry(Inbound, info.fullMethod, err))
    ensures err == Ok && info.isClientStream ==>
      r == Some(Entry(Plain, ArrowLine(Inbound, info.fullMethod, PayloadView(logPayload, m))))
  {
    if err == Eof then None
    else if err != Ok then Some(ErrorEntry(Inbound, info.fullMethod, err))
    else if info.isClientStream then Some(Entry(Plain, ArrowLine(Inbound, info.fullMethod, PayloadView(logPayload, m))))
    else None
  }

  /** The stream the server's handler sees: forwards to the real stream, then logs. */
  class ServerStreamMsgInterceptor {
    const stream: Transport
    const tag: string
    const info: StreamServerInfo
    const logPayload: bool
    const logger: Logger

    constructor (stream: Transport, tag: string, info: StreamServerInfo, logPayload: bool, logger: Logger)
      ensures this.stream == stream && this.tag == tag && this.info == info
      ensures this.logPayload == logPayload && this.logger == logger
    {
      this.stream := stream;
      this.tag := tag;
      this.info := info;
      this.logPayload := logPayload;
      this.logger := logger;
    }

    /** Sends `m` itself, untruncated, and returns the real stream's error unchanged. */
    method SendMsg(m: Msg) returns (err: Status)
      modifies stream`sent, logger`lines
      ensures stream.sent == old(stream.sent) + [m]
      ensures err == stream.sendAnswer(|old(stream.sent)|)
      ensures logger.lines == old(logger.lines) + logger.EmittedOpt(tag, ServerSendEntry(info, logPayload, m, err))
    {
      err := stream.SendMsg(m);
      if err == Eof {
        return;
      }
      if err != Ok {
        logger.Error(tag, ArrowLine(Outbound, info.fullMethod, ErrorDetail(err)));
      } else if info.isServerStream {
        if logPayload {
          logger.Printf(tag, ArrowLine(Outbound, info.fullMethod, Truncate(m)));
        } else {
          logger.Printf(tag, ArrowLine(Outbound, info.fullMethod, TruncatedPayload));
        }
      }
    }

    /** Receives from the real stream and returns its error and message unchanged. */
    method RecvMsg() returns (err: Status, m: Msg)
      modifies stream`received, logger`lines
      ensures stream.received == old(stream.received) + 1
      ensures Reply(err, m) == stream.recvAnswer(old(stream.received))
      ensures logger.lines == old(logger.lines) + logger.EmittedOpt(tag, ServerRecvEntry(info, logPayload, m, err))
    {
      err, m := stream.RecvMsg();
      if err == Eof {
        return;
      }
      if err != Ok {
        logger.Error(tag, ArrowLine(Inbound, info.fullMethod, ErrorDetail(err)));
      } else if info.isClientStream {
        if logPayload {
          logger.Printf(tag, ArrowLine(Inbound, info.fullMethod, Truncate(m)));
        } else {
          logger.Printf(tag, ArrowLine(Inbound, info.fullMethod, TruncatedPayload));
        }
      }
    }
  }

  /** One step of an application's stream handler. */
  datatype StreamOp = Send(m: Msg) | Recv

  /**
    The application's stream handler, which the interceptor calls: it performs
    a fixed sequence of sends and receives on the stream it is given and then
    returns a fixed error.
   */
  class StreamHandler {
    const script: seq<StreamOp>
    const result: Status

    constructor (script: seq<StreamOp>, result: Status)
      ensures this.script == script && this.result == result
    {
      this.script := script;
      this.result := result;
    }

    method Handle(s: ServerStreamMsgInterceptor) returns (err: Status)
      modifies s.stream`sent, s.stream`received, s.logger`lines
      ensures err == result
      ensures old(s.logger.lines) <= s.logger.lines
    {
      for i := 0 to |script|
        invariant old(s.logger.lines) <= s.logger.lines
      {
        match script[i]
        case Send(m) =>
          var e := s.SendMsg(m);
        case Recv =>
          var e, m := s.RecvMsg();
      }
      err := result;
    }
  }

  /**
    The server stream interceptor: logs the start, runs the handler on a
    wrapped stream, logs how the handler ended, and returns its error
    unchanged.
   */
  method ServerStreamInterceptor(logger: Logger, logTag: string, logPayload: bool,
                                 ss: Transport, info: StreamServerInfo, handler: StreamHandler)
    returns (err: Status, ghost handled: seq<Record>)
    modifies logger`lines, ss`sent, ss`received
    ensures err == handler.result
    ensures logger.lines == old(logger.lines)
                            + logger.Emitted(logTag, ServerStreamStartedEntry(info))
                            + handled
                            + logger.EmittedOpt(logTag, ServerStreamClosedEntry(info.fullMethod, err))
  {
    logger.Printf(logTag, ServerStreamStartedEntry(info).text);
    ghost var started := logger.lines;

    var wrapped := new ServerStreamMsgInterceptor(ss, logTag, info, logPayload, logger);
    err := handler.Handle(wrapped);
    handled := logger.lines[|started|..];
    assert logger.lines == started + handled;
    if err == Eof {
      return;
    }
    if err != Ok {
      logger.Error(logTag, ErrorEntry(Outbound, info.fullMethod, err).text);
    } else {
      logger.Printf(logTag, ArrowLine(Outbound, info.fullMethod, "streaming closed"));
    }
  }

  // ---------------------------------------------------------------------
  // Client streams

  function ClientStreamStartedEntry(methodName: string, desc: StreamDesc): Entry {
    Entry(Plain, ArrowLine(Inbound, methodName,
      "streaming started  (client streaming: " + BoolText(desc.clientStreams)
      + ", server streaming: " + BoolText(desc.serverStreams) + ")"))
  }

  /**
    The line written once the streamer has answered: an Error line when it
    failed (end of stream included), otherwise "streaming closed".
   */
  function ClientStreamOpenedEntry(methodName: string, err: Status): (r: Entry)
    ensures r.call == Leveled(LevelError) <==> err != Ok
    ensures r.call == Plain <==> err == Ok
    ensures err != Ok ==> IsSuffix(ErrorDetail(err), r.text)
    ensures err != Ok ==> Outbound + " " + methodName + ": " <= r.text
    ensures err == Ok ==> r == Entry(Plain, ArrowLine(Outbound, methodName, "streaming closed"))
  {
    if err != Ok then ErrorEntry(Outbound, methodName, err)
    else Entry(Plain, ArrowLine(Outbound, methodName, "streaming closed"))
  }

  /** The error line of a client stream call: method and error, no arrow. */
  function ClientErrorEntry(methodName: string, err: Status): Entry
    requires err != Ok
  {
    Entry(Leveled(LevelError), methodName + ": " + ErrorDetail(err))
  }

  /**
    The line after a client send: any error, the end of stream included, is
    an Error line; a delivered message is logged only when the client streams.
   */
  function ClientSendEntry(desc: StreamDesc, methodName: string, logPayload: bool, m: Msg, err: Status): (r: Option<Entry>)
    ensures r == None <==> err == Ok && !desc.clientStreams
    ensures err != Ok ==> r == Some(ClientErrorEntry(methodName, err))
    ensures err == Ok && desc.clientStreams ==>
      r == Some(Entry(Plain, ArrowLine(Outbound, methodName, FullView(logPayload, m))))
  {
    if err != Ok then Some(ClientErrorEntry(methodName, err))
    else if desc.clientStreams then Some(Entry(Plain, ArrowLine(Outbound, methodName, FullView(logPayload, m))))
    else None
  }

  /**
    The line after a client receive: an error other than the end of stream is
    an Error line; a message, or the end of stream, is logged as an inbound
    line only when the server streams.
   */
  function ClientRecvEntry(desc: StreamDesc, methodName: string, logPayload: bool, m: Msg, err: Status): (r: Option<Entry>)
    ensures r == None <==> !err.Failed? && !desc.serverStreams
    ensures err.Failed? ==> r == Some(ClientErrorEntry(methodName, err))
    ensures !err.Failed? && desc.serverStreams ==>
      r == Some(Entry(Plain, ArrowLine(Inbound, methodName, FullView(logPayload, m))))
  {
    if err != Ok && err != Eof then Some(ClientErrorEntry(methodName, err))
    else if desc.serverStreams then Some(Entry(Plain, ArrowLine(Inbound, methodName, FullView(logPayload, m))))
    else None
  }

  /** The stream the client application sees: forwards to the real stream, then logs. */
  class ClientStreamMsgInterceptor {
    const stream: Transport
    const desc: StreamDesc
    const tag: string
    const methodName: string
    const logPayload: bool
    const logger: Logger

    constructor (stream: Transport, tag: string, desc: StreamDesc, methodName: string, logPayload: bool, logger: Logger)
      ensures this.stream == stream && this.tag == tag && this.desc == desc
      ensures this.methodName == methodName && this.logPayload == logPayload && this.logger == logger
    {
      this.stream := stream;
      this.tag := tag;
      this.desc := desc;
      this.methodName := methodName;
      this.logPayload := logPayload;
      this.logger := logger;
    }

    method SendMsg(m: Msg) returns (err: Status)
      modifies stream`sent, logger`lines
      ensures stream.sent == old(stream.sent) + [m]
      ensures err == stream.sendAnswer(|old(stream.sent)|)
      ensures logger.lines == old(logger.lines) + logger.EmittedOpt(tag, ClientSendEntry(desc, methodName, logPayload, m, err))
    {
      err := stream.SendMsg(m);

      if err != Ok {
        logger.Error(tag, methodName + ": " + ErrorDetail(err));
      } else if desc.clientStreams {
        if logPayload {
          logger.Printf(tag, ArrowLine(Outbound, methodName, m));
        } else {
          logger.Printf(tag, ArrowLine(Outbound, methodName, TruncatedPayload));
        }
      }
    }

    method RecvMsg() returns (err: Status, m: Msg)
      modifies stream`received, logger`lines
      ensures stream.received == old(stream.received) + 1
      ensures Reply(err, m) == stream.recvAnswer(old(stream.received))
      ensures logger.lines == old(logger.lines) + logger.EmittedOpt(tag, ClientRecvEntry(desc, methodName, logPayload, m, err))
    {
      err, m := stream.RecvMsg();

      if err != Ok && err != Eof {
        logger.Error(tag, methodName + ": " + ErrorDetail(err));
      } else if desc.serverStreams {
        if logPayload {
          logger.Printf(tag, ArrowLine(Inbound, methodName, m));
        } else {
          logger.Printf(tag, ArrowLine(Inbound, methodName, TruncatedPayload));
        }
      }
    }
  }

  /** The framework's streamer, which opens the real client stream or fails. */
  class Streamer {
    const stream: Transport
    const result: Status

    constructor (stream: Transport, result: Status)
      ensures this.stream == stream && this.result == result
    {
      this.stream := stream;
      this.result := result;
    }

    method NewStream() returns (cs: Transport, err: Status)
      ensures cs == stream && err == result
    {
      cs, err := stream, result;
    }
  }

  /**
    The client stream interceptor: logs the start, opens the stream, and
    returns no stream with the streamer's error when it fails, otherwise a
    fresh wrapper around the opened stream, having logged "streaming closed".
   */
  method ClientStreamInterceptor(logger: Logger, logTag: string, logPayload: bool,
                                 desc: StreamDesc, methodName: string, streamer: Streamer)
    returns (cs: ClientStreamMsgInterceptor?, err: Status)
    modifies logger`lines
    ensures err == streamer.result
    ensures cs == null <==> err != Ok
    ensures cs != null ==> fresh(cs) && cs.stream == streamer.stream && cs.desc == desc
                           && cs.tag == logTag && cs.methodName == methodName
                           && cs.logPayload == logPayload && cs.logger == logger
    ensures logger.lines == old(logger.lines)
                            + logger.Emitted(logTag, ClientStreamStartedEntry(methodName, desc))
                            + logger.Emitted(logTag, ClientStreamOpenedEntry(methodName, err))
  {
    logger.Printf(logTag, ClientStreamStartedEntry(methodName, desc).text);

    var clientStream;
    clientStream, err := streamer.NewStream();

    if err != Ok {
      logger.Error(logTag, ArrowLine(Outbound, methodName, ErrorDetail(err)));
      return null, err;
    } else {
      logger.Printf(logTag, ArrowLine(Outbound, methodName, "streaming closed"));
    }
    cs := new ClientStreamMsgInterceptor(clientStream, logTag, desc, methodName, logPayload, logger);
  }

  // ---------------------------------------------------------------------
  // Properties across the wrappers

  /**
    The end of stream is silent on the server side but is an Error line on a
    client send; a client receive never turns it into an Error line.
   */
  lemma EndOfStreamHandling(info: StreamServerInfo, desc: StreamDesc, methodName: string, logPayload: bool, m: Msg)
    ensures ServerSendEntry(info, logPayload, m, Eof) == None
    ensures ServerRecvEntry(info, logPayload, m, Eof) == None
    ensures ClientSendEntry(desc, methodName, logPayload, m, Eof) == Some(ClientErrorEntry(methodName, Eof))
    ensures var r := ClientRecvEntry(desc, methodName, logPayload, m, Eof);
            r.None? || r.value.call != Leveled(LevelError)
  {
  }

  /**
    A server-stream send of a 600-character message with payload logging on
    logs only its first 500 characters, while the whole message is what the
    stream was given.
   */
  lemma TruncationIsOnlyAView(info: StreamServerInfo, m: Msg)
    requires |m| == 600 && info.isServerStream
    ensures ServerSendEntry(info, true, m, Ok)
         == Some(Entry(Plain, ArrowLine(Outbound, info.fullMethod, m[..500])))
    ensures m[..500] != m
  {
  }
}
