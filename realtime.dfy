/**
 * The live-update client of the page scripts (class `RealTimeHandler`): one
 * socket, a table of subscribed handlers, and a reconnect counter that
 * schedules at most five retries, each waiting a second longer than the last.
 */
module Realtime {
  import opened Optional
  import opened JsValues

  const MaxReconnectAttempts := 5
  /** The delay step of the retry timer, in milliseconds. */
  const BaseDelay := 1000

  /** A subscribed callback, known only by identity. */
  type Handler = nat

  /** What the handler asks of the socket library and the timer. */
  datatype Effect =
    | Open(url: string)                       // `io(url)`
    | Listen(event: string, handler: Handler) // `socket.on(event, handler)`
    | Send(event: string, data: Value)        // `socket.emit(event, data)`
    | Close                                   // `socket.disconnect()`
    | Retry(delay: nat)                       // `setTimeout(() => socket.connect(), delay)`

  /** The counter after one dropped connection. */
  function NextAttempts(attempts: nat): (next: nat)
    ensures attempts < MaxReconnectAttempts ==> next == attempts + 1
    ensures attempts >= MaxReconnectAttempts ==> next == attempts
    ensures attempts <= next <= attempts + 1
    ensures attempts <= MaxReconnectAttempts ==> next <= MaxReconnectAttempts
  {
    if attempts < MaxReconnectAttempts then attempts + 1 else attempts
  }

  /** The retry scheduled by one dropped connection, if the limit is not yet reached. */
  function RetryAfterDrop(attempts: nat): (e: seq<Effect>)
    ensures |e| <= 1
    ensures e != [] <==> attempts < MaxReconnectAttempts
    ensures e != [] ==> e[0] == Retry(BaseDelay * NextAttempts(attempts))
    ensures e != [] ==> BaseDelay <= e[0].delay <= BaseDelay * MaxReconnectAttempts
  {
    if attempts < MaxReconnectAttempts then [Retry(BaseDelay * (attempts + 1))] else []
  }

  /**
   * What `k` drops in a row ask for, from a counter of `attempts` and with no
   * successful connect between them: the retry of each drop, in order.
   */
  function DropEffects(attempts: nat, k: nat): seq<Effect>
    decreases k
  {
    if k == 0 then [] else RetryAfterDrop(attempts) + DropEffects(NextAttempts(attempts), k - 1)
  }

  /** The counter after `k` drops in a row. */
  function AttemptsAfter(attempts: nat, k: nat): nat
    decreases k
  {
    if k == 0 then attempts else AttemptsAfter(NextAttempts(attempts), k - 1)
  }

  function Min(a: int, b: int): int {
    if a <= b then a else b
  }

  /**
   * From a counter of `a`, `k` drops schedule `min(k, 5 - a)` retries, the
   * `i`-th after `1000 * (a + i + 1)` ms, and leave the counter at `a` plus
   * that number: it never passes five.
   */
  lemma {:induction false} DropEffectsGrow(a: nat, k: nat)
    requires a <= MaxReconnectAttempts
    ensures |DropEffects(a, k)| == Min(k, MaxReconnectAttempts - a)
    ensures forall i :: 0 <= i < |DropEffects(a, k)| ==> DropEffects(a, k)[i] == Retry(BaseDelay * (a + i + 1))
    ensures AttemptsAfter(a, k) == a + |DropEffects(a, k)| <= MaxReconnectAttempts
    decreases k
  {
    if k > 0 {
      DropEffectsGrow(NextAttempts(a), k - 1);
      if a < MaxReconnectAttempts {
        var rest := DropEffects(a + 1, k - 1);
        assert DropEffects(a, k) == [Retry(BaseDelay * (a + 1))] + rest;
        forall i | 1 <= i < |DropEffects(a, k)| ensures DropEffects(a, k)[i] == Retry(BaseDelay * (a + i + 1)) {
          assert DropEffects(a, k)[i] == rest[i - 1];
        }
      } else {
        assert DropEffects(a, k) == DropEffects(a, k - 1);
      }
    }
  }

  /** From a counter of zero, drops in a row retry five times in all, never a sixth. */
  lemma RetriesAreBounded(k: nat)
    ensures |DropEffects(0, k)| == Min(k, MaxReconnectAttempts)
    ensures k >= MaxReconnectAttempts ==>
              DropEffects(0, k) == [Retry(1000), Retry(2000), Retry(3000), Retry(4000), Retry(5000)]
  {
    DropEffectsGrow(0, k);
  }

  class RealTimeHandler {
    /** The socket, known by the URL it was opened on; `None` until `connect` succeeds. */
    var socket: Option<string>
    /** `eventHandlers`: the latest handler subscribed for each event. */
    var eventHandlers: map<string, Handler>
    var reconnectAttempts: nat
    /** What the handler has asked of the socket library and the timer, in order. */
    var effects: seq<Effect>

    /** The counter never passes the limit. */
    ghost predicate Valid()
      reads this
    {
      reconnectAttempts <= MaxReconnectAttempts
    }

    constructor ()
      ensures Valid()
      ensures socket.None? && eventHandlers == map[] && reconnectAttempts == 0 && effects == []
    {
      socket := None;
      eventHandlers := map[];
      reconnectAttempts := 0;
      effects := [];
    }

    /**
     * `connect(url)`: without the socket library nothing happens; otherwise a
     * new socket replaces the old one. Its own connect/disconnect/error
     * listeners are set up, but handlers subscribed earlier are not attached
     * to it, and the counter is left as it was.
     */
    method Connect(url: string, libraryLoaded: bool)
      modifies this
      ensures !libraryLoaded ==> unchanged(this)
      ensures libraryLoaded ==> socket == Some(url) && effects == old(effects) + [Open(url)]
      ensures eventHandlers == old(eventHandlers) && reconnectAttempts == old(reconnectAttempts)
    {
      if !libraryLoaded {
        return;
      }
      socket := Some(url);
      effects := effects + [Open(url)];
    }

    /** The socket's `connect` event, which only a socket that `connect` opened fires: the counter starts again from zero. */
    method OnConnect()
      requires Valid() && socket.Some?
      modifies this
      ensures Valid() && reconnectAttempts == 0
      ensures socket == old(socket) && eventHandlers == old(eventHandlers) && effects == old(effects)
    {
      reconnectAttempts := 0;
    }

    /**
     * The socket's `disconnect` event (`handleReconnect`), fired only by a
     * socket that `connect` opened: below the limit the
     * counter goes up and a retry is scheduled after `1000 * counter` ms; at
     * the limit nothing happens.
     */
    method OnDisconnect()
      requires Valid() && socket.Some?
      modifies this
      ensures Valid()
      ensures reconnectAttempts == NextAttempts(old(reconnectAttempts))
      ensures effects == old(effects) + RetryAfterDrop(old(reconnectAttempts))
      ensures socket == old(socket) && eventHandlers == old(eventHandlers)
    {
      if reconnectAttempts < MaxReconnectAttempts {
        reconnectAttempts := reconnectAttempts + 1;
        effects := effects + [Retry(BaseDelay * reconnectAttempts)];
      }
    }

    /** `on(event, handler)`: recorded for the event, and attached to the socket if there is one. */
    method On(event: string, handler: Handler)
      modifies this
      ensures eventHandlers == old(eventHandlers)[event := handler]
      ensures effects == old(effects) + (if socket.Some? then [Listen(event, handler)] else [])
      ensures socket == old(socket) && reconnectAttempts == old(reconnectAttempts)
    {
      eventHandlers := eventHandlers[event := handler];
      if socket.Some? {
        effects := effects + [Listen(event, handler)];
      }
    }

    /** `emit(event, data)`: sent only when there is a socket, silently dropped otherwise. */
    method Emit(event: string, data: Value)
      modifies this
      ensures effects == old(effects) + (if socket.Some? then [Send(event, data)] else [])
      ensures socket == old(socket) && eventHandlers == old(eventHandlers)
      ensures reconnectAttempts == old(reconnectAttempts)
    {
      if socket.Some? {
        effects := effects + [Send(event, data)];
      }
    }

    /** `disconnect()`: closes the socket if there is one; the reference to it is kept. */
    method Disconnect()
      modifies this
      ensures effects == old(effects) + (if socket.Some? then [Close] else [])
      ensures socket == old(socket) && eventHandlers == old(eventHandlers)
      ensures reconnectAttempts == old(reconnectAttempts)
    {
      if socket.Some? {
        effects := effects + [Close];
      }
    }
  }

  /**
   * A handler connected once whose connection then drops six times in a row
   * schedules five retries, one second longer each time, and no sixth.
   */
  method SixDrops(url: string) returns (effects: seq<Effect>)
    ensures effects == [Open(url), Retry(1000), Retry(2000), Retry(3000), Retry(4000), Retry(5000)]
  {
    var h := new RealTimeHandler();
    h.Connect(url, true);
    h.OnDisconnect();
    h.OnDisconnect();
    h.OnDisconnect();
    h.OnDisconnect();
    h.OnDisconnect();
    h.OnDisconnect();
    effects := h.effects;
  }

  /**
   * Two subscriptions to one event on a connected handler: the table keeps
   * the second handler only, but both are attached to the socket, so both
   * are called when the event arrives.
   */
  method SubscribeTwice(url: string, first: Handler, second: Handler) returns (effects: seq<Effect>, handlers: map<string, Handler>)
    ensures handlers == map["message" := second]
    ensures effects == [Open(url), Listen("message", first), Listen("message", second)]
  {
    var h := new RealTimeHandler();
    h.Connect(url, true);
    h.On("message", first);
    h.On("message", second);
    effects, handlers := h.effects, h.eventHandlers;
  }

  /** A successful connect between drops gives the handler its five retries again, from one second. */
  method DropReconnectDrop(url: string) returns (effects: seq<Effect>)
    ensures effects == [Open(url), Retry(1000), Retry(2000), Retry(1000)]
  {
    var h := new RealTimeHandler();
    h.Connect(url, true);
    h.OnDisconnect();
    h.OnDisconnect();
    h.OnConnect();
    h.OnDisconnect();
    effects := h.effects;
  }
}
