/**
  What the RPC framework gives the interceptors: the outcome of a call, the
  line shapes both interceptor packages write, and a stand-in for the
  framework's message stream.
 */
module Rpc {

  import opened LogTag

  /** A message, represented by its `%s` rendering. */
  type Msg = string

  /** The error result of a framework call: nil, the end-of-stream sentinel, or any other error. */
  datatype Status = Ok | Eof | Failed(text: string)

  /** What `err.Error()` gives for a non-nil error. */
  function ErrorText(err: Status): string
    requires err != Ok
  {
    if err == Eof then "EOF" else err.text
  }

  /** The error text in red, as every error line shows it. */
  function ErrorDetail(err: Status): string
    requires err != Ok
  {
    ToColoredText(Red, ErrorText(err))
  }

  /** A received message (or reply) together with the error of the call. */
  datatype Reply = Reply(status: Status, msg: Msg)

  /** The inbound arrow (U+2198 and the emoji selector). */
  const Inbound: string := "\U{2198}\U{FE0F}"
  /** The outbound arrow (U+2197 and the emoji selector). */
  const Outbound: string := "\U{2197}\U{FE0F}"

  /** `"<arrow> <method>: <detail>"`. */
  function ArrowLine(arrow: string, methodName: string, detail: string): string {
    arrow + " " + methodName + ": " + detail
  }

  /**
    The real stream under an interceptor. Its answers come from the transport
    and are given as functions of how many sends or receives came before; it
    keeps every message handed to it.
   */
  class Transport {
    const sendAnswer: nat -> Status
    const recvAnswer: nat -> Reply
    var sent: seq<Msg>
    var received: nat

    constructor (sendAnswer: nat -> Status, recvAnswer: nat -> Reply)
      ensures this.sendAnswer == sendAnswer && this.recvAnswer == recvAnswer
      ensures sent == [] && received == 0
    {
      this.sendAnswer := sendAnswer;
      this.recvAnswer := recvAnswer;
      sent := [];
      received := 0;
    }

    method SendMsg(m: Msg) returns (err: Status)
      modifies this`sent
      ensures sent == old(sent) + [m]
      ensures err == sendAnswer(|old(sent)|)
    {
      err := sendAnswer(|sent|);
      sent := sent + [m];
    }

    method RecvMsg() returns (err: Status, m: Msg)
      modifies this`received
      ensures received == old(received) + 1
      ensures Reply(err, m) == recvAnswer(old(received))
    {
      var reply := recvAnswer(received);
      err, m := reply.status, reply.msg;
      received := received + 1;
    }
  }
}
