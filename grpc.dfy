/**
  The first-generation unary interceptors (grpc/grpc.go): no payload toggle,
  the whole rendering of every message is logged.
 */
module Grpc {

  import opened Basics
  import opened LogTag
  import opened Rpc

  /** The line written after a call: Error iff the call failed, otherwise the result under `arrow`. */
  function ResultEntry(arrow: string, methodName: string, result: Msg, err: Status): (r: Entry)
    ensures r.call == Leveled(LevelError) <==> err != Ok
    ensures r.call == Plain <==> err == Ok
    ensures arrow + " " + methodName + ": " <= r.text
    ensures err != Ok ==> IsSuffix(ErrorDetail(err), r.text)
    ensures err == Ok ==> IsSuffix(result, r.text)
  {
    if err != Ok then Entry(Leveled(LevelError), ArrowLine(arrow, methodName, ErrorDetail(err)))
    else Entry(Plain, ArrowLine(arrow, methodName, result))
  }

  /**
    The server interceptor: an inbound request line, the handler, an outbound
    result line; the handler's response and error are returned unchanged.
   */
  method GrpcLogTagServerInterceptor(logger: Logger, logTag: string, fullMethod: string,
                                     req: Msg, handler: Msg -> Reply)
    returns (h: Msg, err: Status)
    modifies logger`lines
    ensures Reply(err, h) == handler(req)
    ensures logger.lines == old(logger.lines)
                            + logger.Emitted(logTag, Entry(Plain, ArrowLine(Inbound, fullMethod, req)))
                            + logger.Emitted(logTag, ResultEntry(Outbound, fullMethod, h, err))
  {
    logger.Printf(logTag, ArrowLine(Inbound, fullMethod, req));
    var reply := handler(req);
    h, err := reply.msg, reply.status;

    if err != Ok {
      logger.Error(logTag, ArrowLine(Outbound, fullMethod, ErrorDetail(err)));
    } else {
      logger.Printf(logTag, ArrowLine(Outbound, fullMethod, h));
    }
  }

  /**
    The client interceptor: an outbound request line, the invoker, an inbound
    result line; the invoker's error is returned unchanged.
   */
  method GrpcLogTagClientInterceptor(logger: Logger, logTag: string, methodName: string,
                                     req: Msg, invoker: Msg -> Reply)
    returns (err: Status, reply: Msg)
    modifies logger`lines
    ensures Reply(err, reply) == invoker(req)
    ensures logger.lines == old(logger.lines)
                            + logger.Emitted(logTag, Entry(Plain, ArrowLine(Outbound, methodName, req)))
                            + logger.Emitted(logTag, ResultEntry(Inbound, methodName, reply, err))
  {
    logger.Printf(logTag, ArrowLine(Outbound, methodName, req));
    var r := invoker(req);
    err, reply := r.status, r.msg;

    if err != Ok {
      logger.Error(logTag, ArrowLine(Inbound, methodName, ErrorDetail(err)));
    } else {
      logger.Printf(logTag, ArrowLine(Inbound, methodName, reply));
    }
  }
}
