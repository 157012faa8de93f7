/**
 * `WebSocketClient` of src/lib/websocket.ts: a socket opened with the access
 * token in its query string and a single stored reconnect timer.
 */
module WebSocketClient {
  import opened Wrappers

  const ReconnectInterval: nat := 5000

  /** The socket address: the endpoint with the token as a query parameter. */
  function SocketUrl(url: string, token: string): string {
    url + "?token=" + token
  }

  /**
   * A socket the client dialled: its address, whether its `readyState` is
   * OPEN, and its dial number, which tells the sockets' events apart (each
   * `new WebSocket` gets handlers of its own).
   */
  datatype Socket = Socket(address: string, open: bool, dial: nat)

  /** The stored reconnect timer; `fired` records that its callback already ran (the handle is kept afterwards). */
  datatype Timer = Timer(fired: bool)

  class Client {
    const url: string
    var ws: Option<Socket>
    var reconnectTimer: Option<Timer>
    /** Payloads actually written to an open socket, in order. */
    var sent: seq<string>
    /** How many sockets have been dialled; the next one gets this number. */
    var dials: nat

    /** Every socket the client dials carries a non-empty token. */
    ghost predicate Valid()
      reads this
    {
      ws.Some? ==> ws.value.dial < dials && exists t: string :: t != "" && ws.value.address == SocketUrl(url, t)
    }

    constructor (url: string)
      ensures this.url == url && ws == None && reconnectTimer == None && sent == [] && dials == 0
      ensures Valid()
    {
      this.url := url;
      ws := None;
      reconnectTimer := None;
      sent := [];
      dials := 0;
    }

    /**
     * `connect()` with the token the store currently holds. Without a (truthy)
     * token it throws and dials nothing; otherwise it replaces the socket with
     * a new, not yet open one. The previous socket is not closed.
     */
    method Connect(token: Option<string>) returns (thrown: bool)
      requires Valid()
      modifies this
      ensures Valid()
      ensures thrown <==> !(token.Some? && token.value != "")
      ensures thrown ==> ws == old(ws) && dials == old(dials)
      ensures !thrown ==> ws == Some(Socket(SocketUrl(url, token.value), false, old(dials))) && dials == old(dials) + 1
      ensures reconnectTimer == old(reconnectTimer) && sent == old(sent)
    {
      if token.None? || token.value == "" {
        thrown := true;
        return;
      }
      thrown := false;
      ws := Some(Socket(SocketUrl(url, token.value), false, dials));
      dials := dials + 1;
    }

    /**
     * `onopen` of socket number `dial`: that socket is OPEN, which shows in
     * `ws` only when it is still the one the client holds; any stored
     * reconnect timer is cleared whichever socket opened.
     */
    method OnOpen(dial: nat)
      requires Valid() && dial < dials
      modifies this
      ensures Valid()
      ensures reconnectTimer == None
      ensures ws == (if old(ws).Some? && old(ws).value.dial == dial then Some(old(ws).value.(open := true)) else old(ws))
      ensures sent == old(sent) && dials == old(dials)
    {
      if ws.Some? && ws.value.dial == dial {
        ws := Some(ws.value.(open := true));
      }
      reconnectTimer := None;
    }

    /** `attemptReconnect()`: schedules a timer only when none is stored, so at most one is ever pending. */
    method AttemptReconnect()
      modifies this
      ensures reconnectTimer == if old(reconnectTimer).Some? then old(reconnectTimer) else Some(Timer(false))
      ensures ws == old(ws) && sent == old(sent) && dials == old(dials)
    {
      if reconnectTimer.Some? {
        return;
      }
      reconnectTimer := Some(Timer(false));
    }

    /**
     * `onclose` of socket number `dial`: that socket is no longer OPEN (seen
     * in `ws` only when the client still holds it), then a reconnect is
     * attempted whichever socket closed.
     */
    method OnClose(dial: nat)
      requires Valid() && dial < dials
      modifies this
      ensures Valid()
      ensures ws == (if old(ws).Some? && old(ws).value.dial == dial then Some(old(ws).value.(open := false)) else old(ws))
      ensures reconnectTimer == if old(reconnectTimer).Some? then old(reconnectTimer) else Some(Timer(false))
      ensures sent == old(sent) && dials == old(dials)
    {
      if ws.Some? && ws.value.dial == dial {
        ws := Some(ws.value.(open := false));
      }
      AttemptReconnect();
    }

    /**
     * The close handler as it was evidently meant: a close of a socket the
     * client no longer holds (dropped by `disconnect()` or replaced by a later
     * `connect()`) is ignored; otherwise it behaves as `onclose`.
     */
    method OnCloseGuarded(dial: nat)
      requires Valid() && dial < dials
      modifies this
      ensures Valid()
      ensures !(old(ws).Some? && old(ws).value.dial == dial) ==>
                ws == old(ws) && reconnectTimer == old(reconnectTimer)
      ensures old(ws).Some? && old(ws).value.dial == dial ==>
                ws == Some(old(ws).value.(open := false))
                && reconnectTimer == (if old(reconnectTimer).Some? then old(reconnectTimer) else Some(Timer(false)))
      ensures sent == old(sent) && dials == old(dials)
    {
      if ws.None? || ws.value.dial != dial {
        return;
      }
      OnClose(dial);
    }

    /**
     * The reconnect timer firing: its callback runs `connect()` and swallows
     * the exception. The timer handle stays stored, so until an open or a
     * disconnect clears it, further closes schedule nothing.
     */
    method OnReconnectTimerFired(token: Option<string>)
      requires Valid()
      modifies this
      ensures Valid()
      ensures old(reconnectTimer) != Some(Timer(false)) ==>
                ws == old(ws) && reconnectTimer == old(reconnectTimer) && dials == old(dials)
      ensures old(reconnectTimer) == Some(Timer(false)) ==>
                reconnectTimer == Some(Timer(true))
                && (if token.Some? && token.value != ""
                    then ws == Some(Socket(SocketUrl(url, token.value), false, old(dials))) && dials == old(dials) + 1
                    else ws == old(ws) && dials == old(dials))
      ensures sent == old(sent)
    {
      if reconnectTimer != Some(Timer(false)) {
        return;
      }
      reconnectTimer := Some(Timer(true));
      var _ := Connect(token);
    }

    /** `send(data)`: written only when the socket is OPEN, otherwise dropped. */
    method Send(data: string)
      modifies this
      ensures sent == if old(ws).Some? && old(ws).value.open then old(sent) + [data] else old(sent)
      ensures ws == old(ws) && reconnectTimer == old(reconnectTimer) && dials == old(dials)
    {
      if ws.Some? && ws.value.open {
        sent := sent + [data];
      }
    }

    /** `disconnect()`: clears the timer and closes and drops the socket. */
    method Disconnect()
      requires Valid()
      modifies this
      ensures Valid()
      ensures reconnectTimer == None && ws == None && sent == old(sent) && dials == old(dials)
    {
      reconnectTimer := None;
      ws := None;
    }

    /** `onmessage`: a payload that fails to parse, or any parsed one, is only logged. */
    method OnMessage(parsed: Option<string>)
      ensures ws == old(ws) && reconnectTimer == old(reconnectTimer) && sent == old(sent) && dials == old(dials)
    {
    }
  }

  /**
   * Once the one reconnect attempt has run and its socket closes before
   * opening, another close schedules nothing: the client stays down.
   */
  method ReconnectHappensOnce(c: Client, token: Option<string>, first: nat, second: nat)
    requires c.Valid() && c.reconnectTimer == Some(Timer(false))
    requires first < c.dials && second < c.dials
    modifies c
    ensures c.reconnectTimer == Some(Timer(true))
  {
    c.OnReconnectTimerFired(token);
    c.OnClose(first);
    c.OnReconnectTimerFired(token);
    c.OnClose(second);
  }

  /**
   * Each socket's events are its own: after a second `connect()`, the second
   * socket opening and then the first one closing leaves the second OPEN, so
   * `send` still writes. The stray close does schedule a reconnect.
   */
  method StaleCloseKeepsCurrentOpen(c: Client, token: string, data: string)
    requires c.Valid() && token != ""
    modifies c
    ensures c.ws == Some(Socket(SocketUrl(c.url, token), true, old(c.dials) + 1))
    ensures c.sent == old(c.sent) + [data]
    ensures c.reconnectTimer == Some(Timer(false))
  {
    var _ := c.Connect(Some(token));
    var first := c.dials - 1;
    var _ := c.Connect(Some(token));
    c.OnOpen(c.dials - 1);
    c.OnClose(first);
    c.Send(data);
  }

  /**
   * As written, `disconnect()` does not keep the client down: `ws.close()`
   * later fires the dropped socket's `onclose`, which finds no timer stored,
   * schedules one, and its firing dials a new socket with the current token.
   */
  method DisconnectDoesNotStayDown(c: Client, token: Option<string>)
    requires c.Valid() && c.ws.Some?
    modifies c
    ensures c.reconnectTimer == Some(Timer(true))
    ensures token.Some? && token.value != "" ==> c.ws == Some(Socket(SocketUrl(c.url, token.value), false, old(c.dials)))
  {
    var dropped := c.ws.value.dial;
    c.Disconnect();
    c.OnClose(dropped);
    c.OnReconnectTimerFired(token);
  }

  /** With the guarded close handler, the same events leave the client disconnected and nothing scheduled. */
  method CorrectedDisconnectStaysDown(c: Client, token: Option<string>)
    requires c.Valid() && c.ws.Some?
    modifies c
    ensures c.ws == None && c.reconnectTimer == None && c.sent == old(c.sent)
  {
    var dropped := c.ws.value.dial;
    c.Disconnect();
    c.OnCloseGuarded(dropped);
    c.OnReconnectTimerFired(token);
  }
}
