/** The WAMPClient class: socket state, session id, the two post-incremented
    counters, the call and subscription registries, the frames sent (outbox)
    and the closures invoked (deliveries). */
module WampClient {
  import opened CallIds
  import opened Messages

  /** The client's socket field: null, or a WebSocket in one of its ready states. */
  datatype SocketState = NoSocket | Connecting | Open | Closed

  /** What `call` hands back: a promise already rejected with a reason, or a
      promise pending under the call id it was sent with. */
  datatype CallReturn = Rejected(reason: string) | Pending(callId: string)

  /** How `subscribe`, `unsubscribe` and `sendHeartbeat` end: normally, or by
      throwing an Error with this message. */
  datatype Status = Done | Threw(message: string)

  const NotConnected: string := "WebSocket is not connected"

  /** The ids handed out while the counter went from 0 to n, in order. */
  function IssuedIds(n: nat): (ids: seq<string>)
    ensures |ids| == n
  {
    if n == 0 then [] else IssuedIds(n - 1) + [CallIdOf(n - 1)]
  }

  /** The counters 0, 1, ..., n - 1. */
  function CountUp(n: nat): (s: seq<int>)
    ensures |s| == n
  {
    if n == 0 then [] else CountUp(n - 1) + [n - 1]
  }

  /** The call ids of the call frames in a sequence of sent frames. */
  function CallIdsSent<P>(out: seq<Msg<P>>): seq<string> {
    if out == [] then []
    else CallIdsSent(out[..|out| - 1]) + (if out[|out| - 1].Call? then [out[|out| - 1].callId] else [])
  }

  /** The counters of the heartbeat frames in a sequence of sent frames. */
  function HeartbeatsSent<P>(out: seq<Msg<P>>): seq<int> {
    if out == [] then []
    else HeartbeatsSent(out[..|out| - 1]) + (if out[|out| - 1].Heartbeat? then [out[|out| - 1].counter] else [])
  }

  /** The call ids whose continuations have been invoked, in order. */
  function ContinuedIds<P>(log: seq<Delivery<P>>): seq<string> {
    if log == [] then []
    else ContinuedIds(log[..|log| - 1]) + (if log[|log| - 1].Continued? then [log[|log| - 1].callId] else [])
  }

  predicate Distinct<T(==)>(s: seq<T>) {
    forall i, j :: 0 <= i < j < |s| ==> s[i] != s[j]
  }

  lemma {:induction false} IssuedIdsAt(n: nat, i: nat)
    requires i < n
    ensures IssuedIds(n)[i] == CallIdOf(i)
  {
    if i < n - 1 {
      IssuedIdsAt(n - 1, i);
    }
  }

  /** Successive call ids are pairwise distinct. */
  lemma IssuedIdsDistinct(n: nat)
    ensures Distinct(IssuedIds(n))
  {
    forall i, j | 0 <= i < j < n
      ensures IssuedIds(n)[i] != IssuedIds(n)[j]
    {
      IssuedIdsAt(n, i);
      IssuedIdsAt(n, j);
      CallIdInjective(i, j);
    }
  }

  /** The id generated next has not been handed out before. */
  lemma FreshCallId(n: nat)
    ensures CallIdOf(n) !in IssuedIds(n)
  {
    forall i | 0 <= i < n
      ensures IssuedIds(n)[i] != CallIdOf(n)
    {
      IssuedIdsAt(n, i);
      CallIdInjective(i, n);
    }
  }

  /** The heartbeat counters sent start at 0 and rise by exactly one each time. */
  lemma {:induction false} CountUpAt(n: nat, i: nat)
    requires i < n
    ensures CountUp(n)[i] == i
  {
    if i < n - 1 {
      CountUpAt(n - 1, i);
    }
  }

  lemma CountUpIncreasing(n: nat)
    ensures forall i, j :: 0 <= i < j < n ==> CountUp(n)[i] < CountUp(n)[j]
  {
    forall i, j | 0 <= i < j < n
      ensures CountUp(n)[i] < CountUp(n)[j]
    {
      CountUpAt(n, i);
      CountUpAt(n, j);
    }
  }

  lemma SentAppend<P>(out: seq<Msg<P>>, m: Msg<P>)
    ensures CallIdsSent(out + [m]) == CallIdsSent(out) + (if m.Call? then [m.callId] else [])
    ensures HeartbeatsSent(out + [m]) == HeartbeatsSent(out) + (if m.Heartbeat? then [m.counter] else [])
  {
    assert (out + [m])[..|out|] == out;
  }

  lemma ContinuedAppend<P>(log: seq<Delivery<P>>, d: Delivery<P>)
    ensures ContinuedIds(log + [d]) == ContinuedIds(log) + (if d.Continued? then [d.callId] else [])
  {
    assert (log + [d])[..|log|] == log;
  }

  /** One more element at the end of two sequences: equal exactly when the
      prefixes and the last elements are. */
  lemma AppendOneEq<T>(a: seq<T>, x: T, b: seq<T>, y: T)
    ensures a + [x] == b + [y] <==> a == b && x == y
  {
    if a + [x] == b + [y] {
      assert a == (a + [x])[..|a|] && b == (b + [y])[..|b|];
      assert x == (a + [x])[|a|] && y == (b + [y])[|b|];
    }
  }

  /** The frames in `out`, oldest first, carry the ids CallIdOf(0), ...,
      CallIdOf(calls - 1) on their call frames and the counters 0, ...,
      beats - 1 on their heartbeat frames (checked from the newest frame). */
  ghost predicate SentInOrder<P>(out: seq<Msg<P>>, calls: nat, beats: nat)
    decreases |out|
  {
    if |out| == 0 then calls == 0 && beats == 0
    else
      var m, rest := out[|out| - 1], out[..|out| - 1];
      if m.Call? then calls > 0 && m.callId == CallIdOf(calls - 1) && SentInOrder(rest, calls - 1, beats)
      else if m.Heartbeat? then beats > 0 && m.counter == beats - 1 && SentInOrder(rest, calls, beats - 1)
      else SentInOrder(rest, calls, beats)
  }

  /** SentInOrder says exactly that the call frames carry the generated ids,
      in order, and that the heartbeat frames count up from 0. */
  lemma {:induction false} SentInOrderTraces<P>(out: seq<Msg<P>>, calls: nat, beats: nat)
    ensures SentInOrder(out, calls, beats) <==>
            CallIdsSent(out) == IssuedIds(calls) && HeartbeatsSent(out) == CountUp(beats)
    decreases |out|
  {
    if |out| > 0 {
      var m, rest := out[|out| - 1], out[..|out| - 1];
      assert out == rest + [m];
      SentAppend(rest, m);
      if m.Call? {
        if calls > 0 {
          AppendOneEq(CallIdsSent(rest), m.callId, IssuedIds(calls - 1), CallIdOf(calls - 1));
          SentInOrderTraces(rest, calls - 1, beats);
        }
      } else if m.Heartbeat? {
        if beats > 0 {
          AppendOneEq(HeartbeatsSent(rest), m.counter, CountUp(beats - 1), beats - 1);
          SentInOrderTraces(rest, calls, beats - 1);
        }
      } else {
        SentInOrderTraces(rest, calls, beats);
      }
    }
  }

  /** The id of some counter value below n. This is the set of IssuedIds(n),
      kept as a recursive predicate so that the base case of Accounted does
      not expose a sequence of ids (and its membership quantifier) at every
      state where the invariant is unfolded; IssuedMeans connects the two. */
  predicate Issued(id: string, n: nat)
    decreases n
  {
    n > 0 && (id == CallIdOf(n - 1) || Issued(id, n - 1))
  }

  /** Issued agrees with membership in the sequence of generated ids. */
  lemma {:induction false} IssuedMeans(id: string, n: nat)
    ensures Issued(id, n) <==> id in IssuedIds(n)
  {
    if n > 0 {
      IssuedMeans(id, n - 1);
      assert IssuedIds(n) == IssuedIds(n - 1) + [CallIdOf(n - 1)];
    }
  }

  /** No counter value below n gives the id of m >= n. */
  lemma {:induction false} NotIssuedYet(m: nat, n: nat)
    requires n <= m
    ensures !Issued(CallIdOf(m), n)
  {
    if n > 0 {
      CallIdInjective(m, n - 1);
      NotIssuedYet(m, n - 1);
    }
  }

  /** The elements of a sequence. */
  function Elems<T>(s: seq<T>): set<T> {
    set x | x in s
  }

  /** The registry, replayed backwards through the delivery log: each
      continued call was pending, and not yet continued, up to its entry; and
      before the first entry exactly the ids generated so far were pending. */
  ghost predicate Accounted<P>(calls: nat, pending: set<string>, log: seq<Delivery<P>>)
    decreases |log|
  {
    if |log| == 0 then forall id :: id in pending <==> Issued(id, calls)
    else
      var d, rest := log[|log| - 1], log[..|log| - 1];
      if d.Continued? then d.callId !in pending && Accounted(calls, pending + {d.callId}, rest)
      else Accounted(calls, pending, rest)
  }

  /** Only generated ids are pending. */
  lemma {:induction false} AccountedPending<P>(calls: nat, pending: set<string>,
                                               log: seq<Delivery<P>>, id: string)
    requires Accounted(calls, pending, log) && id in pending
    ensures Issued(id, calls)
    decreases |log|
  {
    if |log| > 0 {
      var d, rest := log[|log| - 1], log[..|log| - 1];
      if d.Continued? {
        AccountedPending(calls, pending + {d.callId}, rest, id);
      } else {
        AccountedPending(calls, pending, rest, id);
      }
    }
  }

  /** Generating the next id and registering it as pending keeps the registry
      accounted for. */
  lemma {:induction false} AccountedIssue<P>(calls: nat, pending: set<string>, log: seq<Delivery<P>>)
    requires Accounted(calls, pending, log)
    ensures CallIdOf(calls) !in pending
    ensures Accounted(calls + 1, pending + {CallIdOf(calls)}, log)
    decreases |log|
  {
    var id := CallIdOf(calls);
    NotIssuedYet(calls, calls);
    if id in pending {
      AccountedPending(calls, pending, log, id);
    }
    if |log| == 0 {
      forall x
        ensures x in pending + {id} <==> Issued(x, calls + 1)
      {
      }
    } else {
      var d, rest := log[|log| - 1], log[..|log| - 1];
      if d.Continued? {
        AccountedIssue(calls, pending + {d.callId}, rest);
        assert pending + {d.callId} + {id} == pending + {id} + {d.callId};
      } else {
        AccountedIssue(calls, pending, rest);
      }
    }
  }

  lemma DistinctAppend<T>(s: seq<T>, x: T)
    ensures Distinct(s + [x]) <==> Distinct(s) && x !in s
  {
    var t := s + [x];
    if Distinct(s) && x !in s {
      forall i, j | 0 <= i < j < |t|
        ensures t[i] != t[j]
      {
        if j < |s| {
          assert t[i] == s[i] && t[j] == s[j];
        } else {
          assert t[i] == s[i];
        }
      }
    }
    if Distinct(t) {
      forall i, j | 0 <= i < j < |s|
        ensures s[i] != s[j]
      {
        assert t[i] == s[i] && t[j] == s[j];
      }
      forall i | 0 <= i < |s|
        ensures s[i] != x
      {
        assert t[i] == s[i] && t[|s|] == x;
      }
    }
  }

  lemma ElemsAppend<T>(s: seq<T>, x: T)
    ensures Elems(s + [x]) == Elems(s) + {x}
  {
  }

  /** The pending ids before the first delivery: everything generated when
      the registry is accounted for. */
  lemma AccountedBase(calls: nat, pending: set<string>)
    ensures (forall id :: id in pending <==> Issued(id, calls)) <==> pending == Elems(IssuedIds(calls))
  {
    forall id {
      IssuedMeans(id, calls);
    }
  }

  /** Accounted, stated as sets: the pending ids and the continued ids
      partition the ids generated so far, and no call id is continued twice. */
  lemma {:induction false} AccountedMeans<P>(calls: nat, pending: set<string>, log: seq<Delivery<P>>)
    ensures Accounted(calls, pending, log) <==>
            && pending !! Elems(ContinuedIds(log))
            && pending + Elems(ContinuedIds(log)) == Elems(IssuedIds(calls))
            && Distinct(ContinuedIds(log))
    decreases |log|
  {
    if |log| == 0 {
      AccountedBase(calls, pending);
      assert Elems(ContinuedIds(log)) == {};
    } else {
      var d, rest := log[|log| - 1], log[..|log| - 1];
      assert log == rest + [d];
      ContinuedAppend(rest, d);
      var c := ContinuedIds(rest);
      if d.Continued? {
        var id := d.callId;
        AccountedMeans(calls, pending + {id}, rest);
        DistinctAppend(c, id);
        ElemsAppend(c, id);
        assert pending + {id} + Elems(c) == pending + Elems(c + [id]);
      } else {
        assert ContinuedIds(log) == c;
        AccountedMeans(calls, pending, rest);
      }
    }
  }

  /** What the client's state keeps true between operations: the frames sent
      carry the generated ids and the heartbeat counters in order, and the call
      registry accounts for every generated id (see SentInOrderTraces and
      AccountedMeans for what these say as sequences and sets). */
  ghost predicate Bookkeeping<P>(out: seq<Msg<P>>, calls: nat, beats: nat,
                                 pending: set<string>, log: seq<Delivery<P>>)
  {
    SentInOrder(out, calls, beats) && Accounted(calls, pending, log)
  }

  /** Sending a subscribe or unsubscribe frame keeps the bookkeeping. */
  lemma KeepSendOther<P>(out: seq<Msg<P>>, calls: nat, beats: nat, pending: set<string>,
                         log: seq<Delivery<P>>, m: Msg<P>)
    requires Bookkeeping(out, calls, beats, pending, log)
    requires !m.Call? && !m.Heartbeat?
    ensures Bookkeeping(out + [m], calls, beats, pending, log)
  {
    assert (out + [m])[..|out|] == out;
  }

  /** Sending a heartbeat with the current counter and moving it on keeps it. */
  lemma KeepHeartbeat<P>(out: seq<Msg<P>>, calls: nat, beats: nat, pending: set<string>,
                         log: seq<Delivery<P>>)
    requires Bookkeeping(out, calls, beats, pending, log)
    ensures Bookkeeping(out + [Heartbeat(beats)], calls, beats + 1, pending, log)
  {
    assert (out + [Heartbeat(beats)])[..|out|] == out;
  }

  /** Registering the next id as pending and sending its call frame keeps it. */
  lemma KeepCall<P>(out: seq<Msg<P>>, calls: nat, beats: nat, pending: set<string>,
                    log: seq<Delivery<P>>, uri: string, args: seq<P>)
    requires Bookkeeping(out, calls, beats, pending, log)
    ensures CallIdOf(calls) !in pending
    ensures Bookkeeping(out + [Msg.Call(CallIdOf(calls), uri, args)], calls + 1, beats,
                        pending + {CallIdOf(calls)}, log)
  {
    assert (out + [Msg.Call(CallIdOf(calls), uri, args)])[..|out|] == out;
    AccountedIssue(calls, pending, log);
  }

  /** Continuing a pending call and removing its entry keeps it. */
  lemma KeepResume<P>(out: seq<Msg<P>>, calls: nat, beats: nat, pending: set<string>,
                      log: seq<Delivery<P>>, id: string, k: HandlerId, response: Response<P>)
    requires Bookkeeping(out, calls, beats, pending, log)
    requires id in pending
    ensures Bookkeeping(out, calls, beats, pending - {id}, log + [Continued(id, k, response)])
  {
    assert (log + [Continued(id, k, response)])[..|log|] == log;
    assert pending - {id} + {id} == pending;
  }

  /** Invoking a topic callback keeps it. */
  lemma KeepNotify<P>(out: seq<Msg<P>>, calls: nat, beats: nat, pending: set<string>,
                      log: seq<Delivery<P>>, uri: string, cb: HandlerId, event: P)
    requires Bookkeeping(out, calls, beats, pending, log)
    ensures Bookkeeping(out, calls, beats, pending, log + [Notified(uri, cb, event)])
  {
    assert (log + [Notified(uri, cb, event)])[..|log|] == log;
  }

  class Client<P> {
    const url: string
    var socket: SocketState
    var sessionId: Option<string>
    var callIdCounter: nat
    var heartbeatCounter: nat
    var pendingCalls: map<string, HandlerId>
    var subscriptions: map<string, HandlerId>
    /** Every frame handed to socket.send, oldest first. */
    var outbox: seq<Msg<P>>
    /** Every invocation of a stored continuation or callback, oldest first. */
    var deliveries: seq<Delivery<P>>

    /** The bookkeeping the client keeps (see Bookkeeping). */
    ghost predicate Valid()
      reads this
    {
      Bookkeeping(outbox, callIdCounter, heartbeatCounter, pendingCalls.Keys, deliveries)
    }

    /** What the invariant says about the live state, as sequences and sets:
        the call frames sent carry exactly the ids generated so far, in order;
        the heartbeats sent carry 0, 1, ..., in order; every generated id is
        either pending or has had its continuation invoked, never both, and
        none is continued twice. */
    lemma ValidMeans()
      requires Valid()
      ensures CallIdsSent(outbox) == IssuedIds(callIdCounter)
      ensures HeartbeatsSent(outbox) == CountUp(heartbeatCounter)
      ensures pendingCalls.Keys !! Elems(ContinuedIds(deliveries))
      ensures pendingCalls.Keys + Elems(ContinuedIds(deliveries)) == Elems(IssuedIds(callIdCounter))
      ensures Distinct(ContinuedIds(deliveries))
    {
      SentInOrderTraces(outbox, callIdCounter, heartbeatCounter);
      AccountedMeans(callIdCounter, pendingCalls.Keys, deliveries);
    }

    constructor (url: string)
      ensures Valid()
      ensures this.url == url && socket == NoSocket && sessionId == None
      ensures callIdCounter == 0 && heartbeatCounter == 0
      ensures pendingCalls == map[] && subscriptions == map[]
      ensures outbox == [] && deliveries == []
    {
      this.url := url;
      socket := NoSocket;
      sessionId := None;
      callIdCounter := 0;
      heartbeatCounter := 0;
      pendingCalls := map[];
      subscriptions := map[];
      outbox := [];
      deliveries := [];
    }

    /** generateCallId: the id of the counter's current value; the counter
        then moves on by one. The source method is private and only `call`
        invokes it, registering and sending the id at once; on its own it
        does not keep Valid(), so it neither requires nor ensures it. */
    method GenerateCallId() returns (id: string)
      modifies this`callIdCounter
      ensures id == CallIdOf(old(callIdCounter))
      ensures callIdCounter == old(callIdCounter) + 1
    {
      id := CallIdOf(callIdCounter);
      callIdCounter := callIdCounter + 1;
    }

    /** onMessage: the dispatch of one decoded inbound frame on its opcode. */
    method OnMessage(m: Msg<P>)
      requires Valid()
      modifies this`sessionId, this`pendingCalls, this`deliveries
      ensures Valid()
      // opcode 0 records the session id and nothing else
      ensures sessionId == if m.Welcome? then Some(m.sessionId) else old(sessionId)
      // opcodes 3 and 4: a pending call is continued once and its entry removed
      ensures m.CallResult? && m.callId in old(pendingCalls) ==>
                pendingCalls == old(pendingCalls) - {m.callId} &&
                deliveries == old(deliveries) + [Continued(m.callId, old(pendingCalls)[m.callId], Success(m.result))]
      ensures m.CallError? && m.callId in old(pendingCalls) ==>
                pendingCalls == old(pendingCalls) - {m.callId} &&
                deliveries == old(deliveries) +
                  [Continued(m.callId, old(pendingCalls)[m.callId], Failure(m.errorUri, m.description, m.details))]
      // opcode 8: the topic's current callback, if any, is invoked
      ensures m.Event? && m.topicUri in subscriptions ==>
                deliveries == old(deliveries) + [Notified(m.topicUri, subscriptions[m.topicUri], m.payload)]
      // everything else: an unknown call id or topic, opcode 0, 20 or any other
      ensures !((m.CallResult? || m.CallError?) && m.callId in old(pendingCalls)) ==>
                pendingCalls == old(pendingCalls)
      ensures !((m.CallResult? || m.CallError?) && m.callId in old(pendingCalls)) &&
              !(m.Event? && m.topicUri in subscriptions) ==>
                deliveries == old(deliveries)
    {
      match m {
        case Welcome(sid) =>
          sessionId := Some(sid);
        case CallResult(callId, result) =>
          if callId in pendingCalls {
            Resume(callId, Success(result));
          }
        case CallError(callId, errorUri, errorDesc, errorDetails) =>
          if callId in pendingCalls {
            Resume(callId, Failure(errorUri, errorDesc, errorDetails));
          }
        case Event(eventUri, event) =>
          if eventUri in subscriptions {
            Notify(eventUri, event);
          }
        case Heartbeat(_) =>
        case _ =>
      }
    }

    /** Opcode 8 for a registered topic: invoke its callback with the event. */
    method Notify(eventUri: string, event: P)
      requires Valid() && eventUri in subscriptions
      modifies this`deliveries
      ensures Valid()
      ensures deliveries == old(deliveries) + [Notified(eventUri, subscriptions[eventUri], event)]
    {
      KeepNotify(outbox, callIdCounter, heartbeatCounter, pendingCalls.Keys, deliveries,
                 eventUri, subscriptions[eventUri], event);
      deliveries := deliveries + [Notified(eventUri, subscriptions[eventUri], event)];
    }

    /** The common part of opcodes 3 and 4: invoke the entry's continuation
        with the response, then delete the entry. */
    method Resume(callId: string, response: Response<P>)
      requires Valid() && callId in pendingCalls
      modifies this`pendingCalls, this`deliveries
      ensures Valid()
      ensures pendingCalls == old(pendingCalls) - {callId}
      ensures deliveries == old(deliveries) + [Continued(callId, old(pendingCalls)[callId], response)]
    {
      KeepResume(outbox, callIdCounter, heartbeatCounter, pendingCalls.Keys, deliveries,
                 callId, pendingCalls[callId], response);
      deliveries := deliveries + [Continued(callId, pendingCalls[callId], response)];
      pendingCalls := pendingCalls - {callId};
    }

    /** connect: a new socket, not yet open. Returns nothing. */
    method Connect()
      requires Valid()
      modifies this`socket
      ensures Valid()
      ensures socket == Connecting
    {
      socket := Connecting;
    }

    /** The socket finishing its opening handshake (readyState becomes OPEN);
        the onopen handler itself only logs. */
    method TransportOpened()
      requires Valid()
      modifies this`socket
      ensures Valid()
      ensures socket == if old(socket) == Connecting then Open else old(socket)
    {
      if socket == Connecting {
        socket := Open;
      }
    }

    /** The socket closing (readyState becomes CLOSED) and its onclose
        handler, which resets the session id. */
    method OnClose()
      requires Valid()
      modifies this`socket, this`sessionId
      ensures Valid()
      ensures socket == if old(socket) == NoSocket then NoSocket else Closed
      ensures sessionId == None
    {
      if socket != NoSocket {
        socket := Closed;
      }
      sessionId := None;
    }

    /** The onclose handler of a socket the client no longer holds: after
        disconnect (and possibly a new connect) the old socket still closes
        and its handler, bound to this client, resets the session id. The
        current socket, whatever it is, is not touched. */
    method ReplacedSocketClosed()
      requires Valid()
      modifies this`sessionId
      ensures Valid()
      ensures sessionId == None
    {
      sessionId := None;
    }

    /** disconnect: close and drop the socket if there is one. The session id
        is left as it is; only the later onclose resets it. */
    method Disconnect()
      requires Valid()
      modifies this`socket
      ensures Valid()
      ensures socket == NoSocket
    {
      if socket != NoSocket {
        socket := NoSocket;
      }
    }

    /** call: on an open socket, register continuation k under a fresh id and
        send [2, callId, uri, ...args]; otherwise reject without sending. */
    method Call(uri: string, args: seq<P>, k: HandlerId) returns (r: CallReturn)
      requires Valid()
      modifies this`callIdCounter, this`pendingCalls, this`outbox
      ensures Valid()
      ensures old(socket) != Open ==>
                r == Rejected(NotConnected) &&
                callIdCounter == old(callIdCounter) &&
                pendingCalls == old(pendingCalls) && outbox == old(outbox)
      ensures old(socket) == Open ==>
                r == Pending(CallIdOf(old(callIdCounter))) &&
                r.callId !in old(pendingCalls) &&
                callIdCounter == old(callIdCounter) + 1 &&
                pendingCalls == old(pendingCalls)[r.callId := k] &&
                outbox == old(outbox) + [Msg.Call(r.callId, uri, args)]
    {
      if socket != Open {
        return Rejected(NotConnected);
      }
      ghost var (out, calls, keys) := (outbox, callIdCounter, pendingCalls.Keys);
      KeepCall(out, calls, heartbeatCounter, keys, deliveries, uri, args);
      var callId := GenerateCallId();
      pendingCalls := pendingCalls[callId := k];
      outbox := outbox + [Msg.Call(callId, uri, args)];
      assert pendingCalls.Keys == keys + {CallIdOf(calls)};
      assert outbox == out + [Msg.Call(CallIdOf(calls), uri, args)];
      assert Bookkeeping(outbox, callIdCounter, heartbeatCounter, pendingCalls.Keys, deliveries);
      r := Pending(callId);
    }

    /** subscribe: on an open socket, store (or replace) the topic's callback
        and send [5, uri]; otherwise throw and change nothing. */
    method Subscribe(uri: string, callback: HandlerId) returns (st: Status)
      requires Valid()
      modifies this`subscriptions, this`outbox
      ensures Valid()
      ensures old(socket) != Open ==>
                st == Threw(NotConnected) &&
                subscriptions == old(subscriptions) && outbox == old(outbox)
      ensures old(socket) == Open ==>
                st == Done &&
                subscriptions == old(subscriptions)[uri := callback] &&
                outbox == old(outbox) + [Msg.Subscribe(uri)]
    {
      if socket != Open {
        return Threw(NotConnected);
      }
      subscriptions := subscriptions[uri := callback];
      KeepSendOther(outbox, callIdCounter, heartbeatCounter, pendingCalls.Keys, deliveries,
                    Msg.Subscribe(uri));
      outbox := outbox + [Msg.Subscribe(uri)];
      st := Done;
    }

    /** unsubscribe: on an open socket, delete the topic's entry if there is
        one and send [6, uri] either way; otherwise throw and change nothing. */
    method Unsubscribe(uri: string) returns (st: Status)
      requires Valid()
      modifies this`subscriptions, this`outbox
      ensures Valid()
      ensures old(socket) != Open ==>
                st == Threw(NotConnected) &&
                subscriptions == old(subscriptions) && outbox == old(outbox)
      ensures old(socket) == Open ==>
                st == Done &&
                subscriptions == old(subscriptions) - {uri} &&
                outbox == old(outbox) + [Msg.Unsubscribe(uri)]
    {
      if socket != Open {
        return Threw(NotConnected);
      }
      if uri in subscriptions {
        subscriptions := subscriptions - {uri};
      }
      KeepSendOther(outbox, callIdCounter, heartbeatCounter, pendingCalls.Keys, deliveries,
                    Msg.Unsubscribe(uri));
      outbox := outbox + [Msg.Unsubscribe(uri)];
      st := Done;
    }

    /** sendHeartbeat: on an open socket, send [20, n] with the heartbeat
        counter's current value n and move the counter on by one; otherwise
        throw and change nothing. */
    method SendHeartbeat() returns (st: Status)
      requires Valid()
      modifies this`heartbeatCounter, this`outbox
      ensures Valid()
      ensures old(socket) != Open ==>
                st == Threw(NotConnected) &&
                heartbeatCounter == old(heartbeatCounter) && outbox == old(outbox)
      ensures old(socket) == Open ==>
                st == Done &&
                heartbeatCounter == old(heartbeatCounter) + 1 &&
                outbox == old(outbox) + [Heartbeat(old(heartbeatCounter))]
    {
      if socket != Open {
        return Threw(NotConnected);
      }
      KeepHeartbeat(outbox, callIdCounter, heartbeatCounter, pendingCalls.Keys, deliveries);
      outbox := outbox + [Heartbeat(heartbeatCounter)];
      heartbeatCounter := heartbeatCounter + 1;
      st := Done;
    }
  }
}
