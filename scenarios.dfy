/** Client runs: what a caller can conclude from the contracts of the class
    alone. The exchanges over an open socket start from any client that keeps
    its invariant, so their results are stated relative to its prior state. */
module Scenarios {
  import opened CallIds
  import opened Messages
  import opened WampClient

  /** Receive [0, sid], call the login procedure and receive
      [3, callId, token]: the call's continuation gets `{ result: token }`
      and its entry is gone again. */
  method LoginRoundTrip<P>(c: Client<P>, sid: string, login: string, credentials: P,
                           k: HandlerId, token: P) returns (id: string)
    requires c.Valid() && c.socket == Open
    modifies c
    ensures c.Valid()
    ensures id == CallIdOf(old(c.callIdCounter)) && id !in old(c.pendingCalls)
    ensures c.sessionId == Some(sid)
    ensures c.outbox == old(c.outbox) + [Msg.Call(id, login, [credentials])]
    ensures c.deliveries == old(c.deliveries) + [Continued(id, k, Success(token))]
    ensures c.pendingCalls == old(c.pendingCalls)
  {
    c.OnMessage(Welcome(sid));
    var r := c.Call(login, [credentials], k);
    id := r.callId;
    c.OnMessage(CallResult(id, token));
  }

  /** A continuation runs exactly once: when the server repeats a response,
      the second copy finds no entry and is dropped. */
  method ResultOnce<P>(c: Client<P>, procedure: string, arg: P, k: HandlerId, result: P)
    returns (id: string)
    requires c.Valid() && c.socket == Open
    modifies c
    ensures c.Valid()
    ensures id == CallIdOf(old(c.callIdCounter))
    ensures c.deliveries == old(c.deliveries) + [Continued(id, k, Success(result))]
    ensures c.pendingCalls == old(c.pendingCalls)
  {
    var r := c.Call(procedure, [arg], k);
    id := r.callId;
    c.OnMessage(CallResult(id, result));
    c.OnMessage(CallResult(id, result));
  }

  /** A call answered by [4, callId, uri, description, details]: the
      continuation gets an error record with exactly those fields and the call
      is no longer pending. */
  method ErrorRoundTrip<P>(c: Client<P>, procedure: string, arg: P, k: HandlerId,
                           errorUri: string, description: string, details: P)
    returns (id: string)
    requires c.Valid() && c.socket == Open
    modifies c
    ensures c.Valid()
    ensures id == CallIdOf(old(c.callIdCounter))
    ensures c.deliveries == old(c.deliveries) + [Continued(id, k, Failure(errorUri, description, details))]
    ensures c.pendingCalls == old(c.pendingCalls)
  {
    var r := c.Call(procedure, [arg], k);
    id := r.callId;
    c.OnMessage(Msg.CallError(id, errorUri, description, details));
  }

  /** A response for an id that is not pending is dropped: no continuation
      runs and the call just made stays registered. */
  method StrayAnswer<P>(c: Client<P>, procedure: string, arg: P, k: HandlerId,
                        stray: string, result: P) returns (id: string)
    requires c.Valid() && c.socket == Open
    requires stray !in c.pendingCalls && stray != CallIdOf(c.callIdCounter)
    modifies c
    ensures c.Valid()
    ensures id == CallIdOf(old(c.callIdCounter))
    ensures c.pendingCalls == old(c.pendingCalls)[id := k]
    ensures c.deliveries == old(c.deliveries)
  {
    var r := c.Call(procedure, [arg], k);
    id := r.callId;
    c.OnMessage(CallResult(stray, result));
  }

  /** Subscribing twice to one topic leaves only the latest callback, which
      alone receives the event; both subscribe frames are sent. */
  method ReplacedCallback<P>(c: Client<P>, topic: string, first: HandlerId, second: HandlerId, e: P)
    requires c.Valid() && c.socket == Open
    modifies c
    ensures c.Valid()
    ensures c.subscriptions == old(c.subscriptions)[topic := second]
    ensures c.outbox == old(c.outbox) + [Msg.Subscribe(topic), Msg.Subscribe(topic)]
    ensures c.deliveries == old(c.deliveries) + [Notified(topic, second, e)]
  {
    var st := c.Subscribe(topic, first);
    st := c.Subscribe(topic, second);
    c.OnMessage(Event(topic, e));
  }

  /** After unsubscribe, events for the topic reach nobody; a second
      unsubscribe still sends its frame. */
  method UnsubscribeSilences<P>(c: Client<P>, topic: string, cb: HandlerId, e: P)
    requires c.Valid() && c.socket == Open
    modifies c
    ensures c.Valid()
    ensures topic !in c.subscriptions
    ensures c.outbox == old(c.outbox) + [Msg.Subscribe(topic), Msg.Unsubscribe(topic), Msg.Unsubscribe(topic)]
    ensures c.deliveries == old(c.deliveries)
  {
    var st := c.Subscribe(topic, cb);
    st := c.Unsubscribe(topic);
    c.OnMessage(Event(topic, e));
    st := c.Unsubscribe(topic);
  }

  /** A call does not move the heartbeat counter and a heartbeat does not
      move the call-id counter. */
  method HeartbeatTicks<P>(c: Client<P>, procedure: string, arg: P, k: HandlerId) returns (id: string)
    requires c.Valid() && c.socket == Open
    modifies c
    ensures c.Valid()
    ensures id == CallIdOf(old(c.callIdCounter))
    ensures c.callIdCounter == old(c.callIdCounter) + 1
    ensures c.heartbeatCounter == old(c.heartbeatCounter) + 1
    ensures c.outbox == old(c.outbox) + [Msg.Call(id, procedure, [arg]), Heartbeat(old(c.heartbeatCounter))]
  {
    var r := c.Call(procedure, [arg], k);
    id := r.callId;
    var st := c.SendHeartbeat();
  }

  /** Successive heartbeats carry n and then n + 1. */
  method HeartbeatsCountUp<P>(c: Client<P>)
    requires c.Valid() && c.socket == Open
    modifies c
    ensures c.Valid()
    ensures c.outbox == old(c.outbox) + [Heartbeat(old(c.heartbeatCounter)), Heartbeat(old(c.heartbeatCounter) + 1)]
  {
    var st := c.SendHeartbeat();
    st := c.SendHeartbeat();
  }

  /** Before connect every sending operation fails as the code says (call
      rejects, the others throw) and no frame is sent. */
  method NotConnectedFirst<P>(url: string, procedure: string, topic: string, arg: P)
    returns (r: CallReturn, s1: Status, s2: Status, s3: Status, sent: seq<Msg<P>>)
    ensures r == Rejected(NotConnected)
    ensures s1 == Threw(NotConnected) && s2 == Threw(NotConnected) && s3 == Threw(NotConnected)
    ensures sent == []
  {
    var c := new Client<P>(url);
    r := c.Call(procedure, [arg], 0);
    assert c.socket == NoSocket && c.outbox == [];
    s1 := c.Subscribe(topic, 1);
    assert c.socket == NoSocket && c.outbox == [];
    s2 := c.Unsubscribe(topic);
    assert c.socket == NoSocket && c.outbox == [];
    s3 := c.SendHeartbeat();
    sent := c.outbox;
  }

  /** While the socket is still connecting a call is rejected and nothing is
      registered; disconnecting twice is harmless. */
  method StillConnecting<P>(url: string, procedure: string, arg: P)
    returns (r: CallReturn, pending: set<string>, sent: seq<Msg<P>>, socket: SocketState)
    ensures r == Rejected(NotConnected)
    ensures pending == {} && sent == []
    ensures socket == NoSocket
  {
    var c := new Client<P>(url);
    c.Connect();
    r := c.Call(procedure, [arg], 0);
    c.Disconnect();
    c.Disconnect();
    pending, sent, socket := c.pendingCalls.Keys, c.outbox, c.socket;
  }

  /** disconnect drops the socket but leaves the session id; the dropped
      socket's close event that follows resets it. */
  method DisconnectThenClose<P>(url: string, sid: string)
    returns (afterDisconnect: Option<string>, afterClose: Option<string>)
    ensures afterDisconnect == Some(sid)
    ensures afterClose == None
  {
    var c := new Client<P>(url);
    c.Connect();
    c.TransportOpened();
    c.OnMessage(Welcome(sid));
    c.Disconnect();
    afterDisconnect := c.sessionId;
    c.ReplacedSocketClosed();
    afterClose := c.sessionId;
  }

  /** disconnect, then connect again: the old socket's close event resets the
      session id but leaves the new socket alone, which opens and sends. */
  method ReconnectThenOldClose<P>(url: string, sid: string, procedure: string, arg: P)
    returns (session: Option<string>, r: CallReturn, pending: map<string, HandlerId>, sent: seq<Msg<P>>)
    ensures session == None
    ensures r == Pending(CallIdOf(0))
    ensures pending == map[CallIdOf(0) := 0]
    ensures sent == [Msg.Call(CallIdOf(0), procedure, [arg])]
  {
    var c := new Client<P>(url);
    c.Connect();
    c.TransportOpened();
    c.OnMessage(Welcome(sid));
    c.Disconnect();
    c.Connect();
    c.ReplacedSocketClosed();
    c.TransportOpened();
    session := c.sessionId;
    r := c.Call(procedure, [arg], 0);
    pending, sent := c.pendingCalls, c.outbox;
  }
}
