/** The messages of the WAMP-v1-style protocol, already decoded from JSON:
    one constructor per opcode the client sends or handles, with the payload
    type P left opaque. */
module Messages {

  datatype Option<T> = None | Some(value: T)

  /** Opaque identity of a caller-supplied closure: a call's continuation
      (the settle function of the promise `call` returns) or a topic callback. */
  type HandlerId = nat

  /** An opcode no case of the client's dispatch handles: a frame carrying
      0, 3, 4, 8 or 20 is one of the decoded constructors instead. A frame
      with 2, 5 or 6 also reaches the default branch: with its fields it is
      the Call, Subscribe or Unsubscribe message, bare it is Other. */
  type UnhandledOpcode = code: int | code !in {0, 3, 4, 8, 20} witness 1

  datatype Msg<P> =
    | Welcome(sessionId: string)                          // [0, sessionId]
    | Call(callId: string, procUri: string, args: seq<P>)  // [2, callId, uri, ...args]
    | CallResult(callId: string, result: P)               // [3, callId, result]
    | CallError(callId: string, errorUri: string, description: string, details: P)
                                                          // [4, callId, uri, description, details]
    | Subscribe(topicUri: string)                         // [5, uri]
    | Unsubscribe(topicUri: string)                       // [6, uri]
    | Event(topicUri: string, payload: P)                 // [8, uri, event]
    | Heartbeat(counter: int)                             // [20, counter]
    | Other(opcode: UnhandledOpcode)                      // a bare frame with no fields

  /** One element of a frame as it appears in the JSON array. */
  datatype Value<P> = Num(n: int) | Text(s: string) | Any(p: P)

  /** The response object a pending call's continuation receives:
      `{ result }` or `{ error: true, uri, description, details }`. */
  datatype Response<P> =
    | Success(result: P)
    | Failure(uri: string, description: string, details: P)

  /** One invocation of a registered closure. `Continued` also names the
      call id whose registry entry was consumed. */
  datatype Delivery<P> =
    | Continued(callId: string, k: HandlerId, response: Response<P>)
    | Notified(topicUri: string, callback: HandlerId, event: P)

  function Opcode<P>(m: Msg<P>): int {
    match m
    case Welcome(_) => 0
    case Call(_, _, _) => 2
    case CallResult(_, _) => 3
    case CallError(_, _, _, _) => 4
    case Subscribe(_) => 5
    case Unsubscribe(_) => 6
    case Event(_, _) => 8
    case Heartbeat(_) => 20
    case Other(code) => code
  }

  function Wrap<P>(args: seq<P>): (vs: seq<Value<P>>)
    ensures |vs| == |args| && forall i :: 0 <= i < |args| ==> vs[i] == Any(args[i])
  {
    if args == [] then [] else [Any(args[0])] + Wrap(args[1..])
  }

  /** The array a message is written as: its opcode, then its fields in order. */
  function Encode<P>(m: Msg<P>): (f: seq<Value<P>>)
    ensures |f| >= 1 && f[0] == Num(Opcode(m))
    ensures m.Other? <==> |f| == 1
  {
    match m
    case Welcome(sid) => [Num(0), Text(sid)]
    case Call(id, uri, args) => [Num(2), Text(id), Text(uri)] + Wrap(args)
    case CallResult(id, r) => [Num(3), Text(id), Any(r)]
    case CallError(id, uri, desc, details) => [Num(4), Text(id), Text(uri), Text(desc), Any(details)]
    case Subscribe(uri) => [Num(5), Text(uri)]
    case Unsubscribe(uri) => [Num(6), Text(uri)]
    case Event(uri, e) => [Num(8), Text(uri), Any(e)]
    case Heartbeat(n) => [Num(20), Num(n)]
    case Other(code) => [Num(code)]
  }

  /** A frame holding only its opcode is never one the dispatch reads fields
      from: every handled opcode arrives with its fields. */
  lemma BareFrameUnhandled<P>(m: Msg<P>)
    requires |Encode(m)| == 1
    ensures m.Other? && Encode(m)[0].Num? && Encode(m)[0].n !in {0, 3, 4, 8, 20}
  {
  }

  /** Two messages are written as the same array only if they are the same
      message: a frame determines its message. */
  lemma EncodeInjective<P>(m1: Msg<P>, m2: Msg<P>)
    requires Encode(m1) == Encode(m2)
    ensures m1 == m2
  {
    if m1.Call? {
      var f := Encode(m1);
      assert m2.Call?;
      assert Wrap(m1.args) == f[3..] == Wrap(m2.args);
      assert forall i :: 0 <= i < |m1.args| ==> Wrap(m1.args)[i] == Wrap(m2.args)[i];
    }
  }
}
