/**
 * The realtime channel client: one socket.io connection to the backend, the
 * state its event handlers keep (connected flag, failed-attempt counter), the
 * outbound `join_job` subscriptions, and the registry of listeners that inbound
 * server events are fanned out to.
 *
 * socket.io itself is abstract: the events it delivers (`connect`,
 * `disconnect`, `connect_error`) are the methods OnConnect, OnDisconnect and
 * OnConnectError, and the messages the client sends are appended to `sent`.
 */
module RealtimeChannel {

  /** `maxReconnectAttempts`: the number of failed attempts at which connect() gives up. */
  const MaxReconnectAttempts: nat := 5

  /** The default server the singleton client connects to. */
  const DefaultServerUrl: string := "https://remix-backend-rg80.onrender.com"

  /** The inbound event kinds a listener can subscribe to: 'connected', 'job_update', 'joined_job', 'error'. */
  datatype EventKind = Connected | JobUpdate | JoinedJob | Error

  /** A registered callback, compared by identity as `indexOf` does. */
  type CallbackId = int

  /** A message the client emits on the socket. */
  datatype Outbound = JoinJobMessage(jobId: string)

  /** The state of the promise returned by the most recent connect() that opened a socket. */
  datatype Settlement = NotRequested | Pending | Resolved | Rejected

  /** The socket-level events whose handlers update the client's fields. */
  datatype SocketEvent = SocketConnect | SocketDisconnect | SocketConnectError

  /** The part of the client that the socket-level handlers read and write. */
  datatype ChannelState = ChannelState(hasSocket: bool, connected: bool, attempts: nat, promise: Settlement)

  // ---------------------------------------------------------------------------
  // Specification of the connection state machine
  // ---------------------------------------------------------------------------

  /** A promise settles at most once: resolve or reject on a settled promise does nothing. */
  function Settle(p: Settlement, outcome: Settlement): Settlement
  {
    if p == Pending then outcome else p
  }

  /** The effect of connect() when it does not take the fast path: a new socket and a new pending promise. */
  function Open(s: ChannelState): (t: ChannelState)
    ensures t.hasSocket && t.promise == Pending
    ensures t.connected == s.connected && t.attempts == s.attempts
  {
    s.(hasSocket := true, promise := Pending)
  }

  /** The effect of one socket-level event on the client's fields and on the pending promise. */
  function Handle(s: ChannelState, e: SocketEvent): (t: ChannelState)
    ensures t.hasSocket == s.hasSocket
    ensures e == SocketConnect ==> t.connected && t.attempts == 0
    ensures e == SocketConnect ==> (t.promise == Resolved <==> s.promise in {Pending, Resolved})
    ensures e == SocketDisconnect ==> !t.connected && t.attempts == s.attempts && t.promise == s.promise
    ensures e == SocketConnectError ==> t.connected == s.connected && t.attempts == s.attempts + 1
    ensures e == SocketConnectError ==>
      (t.promise == Rejected <==>
         s.promise == Rejected || (s.promise == Pending && s.attempts + 1 >= MaxReconnectAttempts))
    ensures s.promise != Pending ==> t.promise == s.promise
  {
    match e
    case SocketConnect => s.(connected := true, attempts := 0, promise := Settle(s.promise, Resolved))
    case SocketDisconnect => s.(connected := false)
    case SocketConnectError =>
      var n := s.attempts + 1;
      s.(attempts := n, promise := if n >= MaxReconnectAttempts then Settle(s.promise, Rejected) else s.promise)
  }

  /** The state after a sequence of socket-level events, delivered in order. */
  function Run(s: ChannelState, evs: seq<SocketEvent>): ChannelState
    decreases |evs|
  {
    if evs == [] then s else Run(Handle(s, evs[0]), evs[1..])
  }

  /** The index of the first `connect` event in `evs`, or |evs| when there is none. */
  function FirstConnect(evs: seq<SocketEvent>): (i: nat)
    ensures i <= |evs|
    ensures SocketConnect !in evs[..i]
    ensures i < |evs| ==> evs[i] == SocketConnect
  {
    if evs == [] then 0
    else if evs[0] == SocketConnect then 0
    else
      var j := FirstConnect(evs[1..]);
      assert evs[..j + 1] == [evs[0]] + evs[1..][..j];
      j + 1
  }

  /** The number of `connect_error` events in `evs`. */
  function ErrorCount(evs: seq<SocketEvent>): nat
  {
    if evs == [] then 0
    else (if evs[0] == SocketConnectError then 1 else 0) + ErrorCount(evs[1..])
  }

  /** A string of n `connect_error` events. */
  function Errors(n: nat): (evs: seq<SocketEvent>)
    ensures |evs| == n && forall i :: 0 <= i < n ==> evs[i] == SocketConnectError
  {
    seq(n, _ => SocketConnectError)
  }

  /** Once the connect promise has settled, no later socket event changes it. */
  lemma {:induction false} SettledIsFinal(s: ChannelState, evs: seq<SocketEvent>)
    requires s.promise == Resolved || s.promise == Rejected
    ensures Run(s, evs).promise == s.promise
    decreases |evs|
  {
    if evs != [] {
      SettledIsFinal(Handle(s, evs[0]), evs[1..]);
    }
  }

  /**
   * How a pending connect promise ends, stated without the handlers: it is
   * rejected iff before the first `connect` event there is at least one
   * `connect_error` and the counter (starting from its current value) reaches
   * the ceiling; otherwise it is resolved iff a `connect` event arrives at all.
   */
  lemma {:induction false} PromiseOutcome(s: ChannelState, evs: seq<SocketEvent>)
    requires s.promise == Pending
    ensures var errs := ErrorCount(evs[..FirstConnect(evs)]);
      Run(s, evs).promise ==
        if errs >= 1 && s.attempts + errs >= MaxReconnectAttempts then Rejected
        else if FirstConnect(evs) < |evs| then Resolved
        else Pending
    decreases |evs|
  {
    if evs != [] {
      var t := Handle(s, evs[0]);
      var i := FirstConnect(evs);
      match evs[0]
      case SocketConnect =>
        assert i == 0 && evs[..i] == [];
        SettledIsFinal(t, evs[1..]);
      case SocketDisconnect =>
        assert evs[..i] == [evs[0]] + evs[1..][..i - 1];
        PromiseOutcome(t, evs[1..]);
      case SocketConnectError =>
        assert evs[..i] == [evs[0]] + evs[1..][..i - 1];
        if s.attempts + 1 >= MaxReconnectAttempts {
          SettledIsFinal(t, evs[1..]);
        } else {
          PromiseOutcome(t, evs[1..]);
        }
    }
  }

  /** The counter after n consecutive errors; the promise is rejected exactly from the fifth one on. */
  lemma {:induction false} RejectedOnFifthError(s: ChannelState, n: nat)
    requires s.attempts == 0 && s.promise == Pending
    ensures Run(s, Errors(n)).promise == if n >= MaxReconnectAttempts then Rejected else Pending
  {
    var evs := Errors(n);
    assert SocketConnect !in evs;
    assert FirstConnect(evs) == n;
    assert evs[..n] == evs;
    ErrorCountOfErrors(n);
    PromiseOutcome(s, evs);
  }

  lemma {:induction false} ErrorCountOfErrors(n: nat)
    ensures ErrorCount(Errors(n)) == n
  {
    if n > 0 {
      assert Errors(n)[1..] == Errors(n - 1);
      ErrorCountOfErrors(n - 1);
    }
  }

  /**
   * connect() does not reset the failure counter: after a first connect() has
   * been rejected by five errors, a second connect() is rejected by its very
   * first `connect_error`.
   */
  lemma RetryAfterGivingUpFailsAtOnce(s: ChannelState)
    requires s.attempts == 0 && s.promise == Pending
    ensures var failed := Run(s, Errors(MaxReconnectAttempts));
      failed.promise == Rejected &&
      Handle(Open(failed), SocketConnectError).promise == Rejected
  {
    RejectedOnFifthError(s, MaxReconnectAttempts);
    RunErrorsCounts(s, MaxReconnectAttempts);
  }

  lemma {:induction false} RunErrorsCounts(s: ChannelState, n: nat)
    ensures Run(s, Errors(n)).attempts == s.attempts + n
    decreases n
  {
    if n > 0 {
      assert Errors(n)[1..] == Errors(n - 1);
      RunErrorsCounts(Handle(s, SocketConnectError), n - 1);
    }
  }

  // ---------------------------------------------------------------------------
  // Listener lists
  // ---------------------------------------------------------------------------

  /** `Array.prototype.indexOf`: the first position of x in s, or -1. */
  function IndexOf(s: seq<CallbackId>, x: CallbackId): (i: int)
    ensures -1 <= i < |s|
    ensures i == -1 <==> x !in s
    ensures 0 <= i ==> s[i] == x && x !in s[..i]
  {
    if s == [] then -1
    else if s[0] == x then 0
    else
      var j := IndexOf(s[1..], x);
      if j == -1 then -1
      else
        assert s[..j + 1] == [s[0]] + s[1..][..j];
        j + 1
  }

  /** `splice(indexOf(x), 1)` when x occurs: the list without its first x, the rest in order. */
  function RemoveFirst(s: seq<CallbackId>, x: CallbackId): (r: seq<CallbackId>)
    ensures x !in s ==> r == s
    ensures x in s ==> |r| == |s| - 1
    ensures multiset(r) == multiset(s) - multiset{x}
    ensures x in s ==> exists i :: 0 <= i < |s| && s[i] == x && x !in s[..i] && r == s[..i] + s[i + 1..]
  {
    var i := IndexOf(s, x);
    if i > -1 then
      assert s == s[..i] + [s[i]] + s[i + 1..];
      s[..i] + s[i + 1..]
    else s
  }

  /** The callbacks registered for e, in registration order (none when e has no list). */
  function Registered(m: map<EventKind, seq<CallbackId>>, e: EventKind): seq<CallbackId>
  {
    if e in m then m[e] else []
  }

  /** The callbacks of `list` that throw, in the order they are invoked. */
  function Throwing(list: seq<CallbackId>, throws: set<CallbackId>): (r: seq<CallbackId>)
    ensures forall cb :: cb in r <==> cb in list && cb in throws
  {
    if list == [] then []
    else
      var last := list[|list| - 1];
      Throwing(list[..|list| - 1], throws) + (if last in throws then [last] else [])
  }

  /** off() undoes on() for a callback not yet registered for that event. */
  lemma OffUndoesOn(s: seq<CallbackId>, cb: CallbackId)
    requires cb !in s
    ensures RemoveFirst(s + [cb], cb) == s
  {
    var t := s + [cb];
    assert t[..|s|] == s;
  }

  /** The first copy goes and the rest keep their order: off(a) on [a, b, a] leaves [b, a]. */
  lemma RemoveFirstKeepsLaterCopy(a: CallbackId, b: CallbackId)
    requires a != b
    ensures RemoveFirst([a, b, a], a) == [b, a]
  {
    var s := [a, b, a];
    var i :| 0 <= i < |s| && s[i] == a && a !in s[..i] && RemoveFirst(s, a) == s[..i] + s[i + 1..];
    assert s[..1] == [a];
  }

  /** off() removes one registration only: a callback registered twice stays registered once. */
  lemma OffRemovesOneRegistration(s: seq<CallbackId>, cb: CallbackId)
    requires multiset(s)[cb] >= 2
    ensures cb in RemoveFirst(s, cb)
  {
    assert cb in multiset(s);
    var r := RemoveFirst(s, cb);
    assert multiset(r)[cb] + 1 == multiset(s)[cb];
  }

  // ---------------------------------------------------------------------------
  // The client
  // ---------------------------------------------------------------------------

  class WebSocketClient {
    const serverUrl: string
    /** Whether `socket` is non-null. */
    var hasSocket: bool
    /** `isConnected`. */
    var connected: bool
    /** `reconnectAttempts`. */
    var attempts: nat
    /** `eventListeners`. */
    var listeners: map<EventKind, seq<CallbackId>>
    /** The messages emitted on the socket, oldest first. */
    var sent: seq<Outbound>
    /** The promise of the most recent connect() that opened a socket. */
    ghost var promise: Settlement

    ghost function State(): ChannelState
      reads this
    {
      ChannelState(hasSocket, connected, attempts, promise)
    }

    constructor (serverUrl: string)
      ensures this.serverUrl == serverUrl
      ensures State() == ChannelState(false, false, 0, NotRequested)
      ensures listeners == map[] && sent == []
    {
      this.serverUrl := serverUrl;
      hasSocket, connected, attempts := false, false, 0;
      listeners, sent := map[], [];
      promise := NotRequested;
    }

    /** The `connected` getter. */
    function IsConnected(): (c: bool)
      reads this
      ensures c <==> State().connected
    {
      connected
    }

    /**
     * connect(): resolves at once and touches nothing when a socket exists and
     * is connected; otherwise opens a new socket whose handlers settle a new
     * pending promise. Returns whether it took the fast path.
     */
    method Connect() returns (immediate: bool)
      modifies this
      ensures immediate <==> old(hasSocket) && old(connected)
      ensures immediate ==> State() == old(State())
      ensures !immediate ==> State() == Open(old(State()))
      ensures listeners == old(listeners) && sent == old(sent)
    {
      if hasSocket && connected {
        return true;
      }
      hasSocket := true;
      promise := Pending;
      immediate := false;
    }

    /** The socket's `connect` handler. */
    method OnConnect()
      modifies this
      ensures State() == Handle(old(State()), SocketConnect)
      ensures connected && attempts == 0
      ensures listeners == old(listeners) && sent == old(sent)
    {
      connected := true;
      attempts := 0;
      promise := Settle(promise, Resolved);
    }

    /** The socket's `disconnect` handler: only the connected flag drops. */
    method OnDisconnect()
      modifies this
      ensures State() == Handle(old(State()), SocketDisconnect)
      ensures !connected && hasSocket == old(hasSocket)
      ensures listeners == old(listeners) && sent == old(sent)
    {
      connected := false;
    }

    /** The socket's `connect_error` handler; returns whether it calls reject. */
    method OnConnectError() returns (rejects: bool)
      modifies this
      ensures State() == Handle(old(State()), SocketConnectError)
      ensures attempts == old(attempts) + 1
      ensures rejects <==> attempts >= MaxReconnectAttempts
      ensures listeners == old(listeners) && sent == old(sent)
    {
      attempts := attempts + 1;
      rejects := attempts >= MaxReconnectAttempts;
      if rejects {
        promise := Settle(promise, Rejected);
      }
    }

    /** disconnect(): with a socket, drops it, clears the flag and the registry; without one, a no-op. */
    method Disconnect()
      modifies this
      ensures old(hasSocket) ==> !hasSocket && !connected && listeners == map[]
      ensures !old(hasSocket) ==> hasSocket == old(hasSocket) && connected == old(connected) && listeners == old(listeners)
      ensures attempts == old(attempts) && promise == old(promise) && sent == old(sent)
    {
      if hasSocket {
        hasSocket := false;
        connected := false;
        listeners := map[];
      }
    }

    /** joinJob(jobId): emits one `join_job` when connected; otherwise nothing is sent or queued. */
    method JoinJob(jobId: string)
      modifies this
      ensures sent == if old(hasSocket && connected) then old(sent) + [JoinJobMessage(jobId)] else old(sent)
      ensures State() == old(State()) && listeners == old(listeners)
    {
      if hasSocket && connected {
        sent := sent + [JoinJobMessage(jobId)];
      }
    }

    /** on(e, cb): appends cb to e's list, creating the list when absent. */
    method On(e: EventKind, cb: CallbackId)
      modifies this
      ensures listeners == old(listeners)[e := Registered(old(listeners), e) + [cb]]
      ensures State() == old(State()) && sent == old(sent)
    {
      if e !in listeners {
        listeners := listeners[e := []];
      }
      listeners := listeners[e := listeners[e] + [cb]];
    }

    /** off(e, cb): removes the first registration of cb for e, if any. */
    method Off(e: EventKind, cb: CallbackId)
      modifies this
      ensures e in old(listeners) ==> listeners == old(listeners)[e := RemoveFirst(old(listeners)[e], cb)]
      ensures e !in old(listeners) || cb !in old(listeners)[e] ==> listeners == old(listeners)
      ensures State() == old(State()) && sent == old(sent)
    {
      if e in listeners {
        var list := listeners[e];
        var index := IndexOf(list, cb);
        if index > -1 {
          listeners := listeners[e := list[..index] + list[index + 1..]];
        }
      }
    }

    /**
     * emitToListeners(e, data): calls every callback registered for e once, in
     * registration order; a callback in `throws` throws, which is caught, and
     * the loop goes on. Returns the callbacks invoked and those that threw.
     */
    method Emit(e: EventKind, throws: set<CallbackId>) returns (invoked: seq<CallbackId>, failed: seq<CallbackId>)
      ensures invoked == Registered(listeners, e)
      ensures failed == Throwing(invoked, throws)
    {
      invoked, failed := [], [];
      if e in listeners {
        var list := listeners[e];
        var i := 0;
        while i < |list|
          invariant 0 <= i <= |list|
          invariant invoked == list[..i]
          invariant failed == Throwing(list[..i], throws)
        {
          var cb := list[i];
          assert list[..i + 1][..i] == list[..i];
          invoked := invoked + [cb];
          if cb in throws {
            failed := failed + [cb];
          }
          i := i + 1;
        }
        assert list[..|list|] == list;
      }
    }
  }

  /** A join_job issued before the connection is up is dropped, not replayed once it is. */
  method JoinBeforeConnectIsDropped(jobId: string) returns (sent: seq<Outbound>)
    ensures sent == [JoinJobMessage(jobId)]
  {
    var client := new WebSocketClient(DefaultServerUrl);
    client.JoinJob(jobId);
    var _ := client.Connect();
    client.OnConnect();
    client.JoinJob(jobId);
    sent := client.sent;
  }
}
