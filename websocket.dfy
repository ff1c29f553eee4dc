/** The persistent-socket transport of websocket_client.go, reduced to its
    reconnect/heartbeat skeleton: whether a connection is held, which
    heartbeat tickers exist and run, the handler list, and the `Listen` loop
    as a step machine driven by the outcomes of its dials and reads. */
module WebSocket {
  import opened Common

  /** The identity of a `MessageHandler` registered with `OnMessage`. */
  type HandlerId = nat

  /** The identity of a (non-nil) heartbeat function. */
  type HeartbeatFnId = nat

  /** A `time.Ticker` made by `Listen`: its period and whether it still runs. */
  datatype Ticker = Ticker(interval: int64, running: bool)

  /** Where `Listen` is: not started, at the head of its outer loop, inside
      its read loop, or returned with a read error. */
  datatype Phase = Idle | Dialing | Reading | Returned(error: nat)

  /** The environment's answer to one blocking operation of `Listen`. At a
      dial, `Success` is a connection made and `Failure` a dial error; at a
      read, `Success` is the message read and `Failure` a read error. */
  datatype Io = Success(messageType: int, data: Bytes) | Failure(code: nat)

  /** One call `handler(messageType, data)` made by the read loop. */
  datatype Delivery = Delivery(handler: HandlerId, messageType: int, data: Bytes)

  /** The fields of a `WsClient` that `Listen`, `SetHeartbeat` and `Close`
      touch. Connections are numbered by the dial that made them; `tickers`
      lists every ticker ever made and `ticker` indexes the current one. */
  datatype WsState = WsState(
    conn: Option<nat>,
    dials: nat,
    closedConns: seq<nat>,
    handlers: seq<HandlerId>,
    tickers: seq<Ticker>,
    ticker: Option<nat>,
    heartbeatInterval: int64,
    heartbeatFn: Option<HeartbeatFnId>,
    reconnect: bool,
    phase: Phase,
    deliveries: seq<Delivery>)

  /** The current ticker exists, it is the only one that may still run (so
      at most one heartbeat ticker ever runs), and the read loop only runs
      while a connection is held. */
  ghost predicate Inv(s: WsState) {
    && (s.ticker.Some? ==> s.ticker.value < |s.tickers|)
    && (forall i :: 0 <= i < |s.tickers| && s.tickers[i].running ==> s.ticker == Some(i))
    && (s.phase.Reading? ==> s.conn.Some?)
  }

  /** The check of websocket_client.go:75-78: a ticker is made, with the
      configured period, only when the interval is positive, a heartbeat
      function is set and no ticker exists; nothing else changes. */
  function Arm(s: WsState): (r: WsState)
    requires Inv(s)
    ensures Inv(r)
    ensures r == s.(tickers := r.tickers, ticker := r.ticker)
    ensures r.ticker != s.ticker <==>
      s.heartbeatInterval > 0 && s.heartbeatFn.Some? && s.ticker.None?
    ensures r.ticker != s.ticker ==>
      r.tickers == s.tickers + [Ticker(s.heartbeatInterval, true)] && r.ticker == Some(|s.tickers|)
    ensures r.ticker == s.ticker ==> r.tickers == s.tickers
  {
    if s.heartbeatInterval > 0 && s.heartbeatFn.Some? && s.ticker.None? then
      s.(tickers := s.tickers + [Ticker(s.heartbeatInterval, true)], ticker := Some(|s.tickers|))
    else s
  }

  /** The calls made by `for _, handler := range c.handlers`: every handler
      once, in registration order, with the message read. */
  function DeliverAll(handlers: seq<HandlerId>, messageType: int, data: Bytes): (r: seq<Delivery>)
    ensures |r| == |handlers|
    ensures forall i :: 0 <= i < |r| ==> r[i] == Delivery(handlers[i], messageType, data)
  {
    if handlers == [] then []
    else [Delivery(handlers[0], messageType, data)] + DeliverAll(handlers[1..], messageType, data)
  }

  /** `r` holds one ticker more than `s`, made by the check of
      websocket_client.go:75-78 from the settings of `s`. */
  ghost predicate ArmedFrom(s: WsState, r: WsState) {
    && s.ticker.None? && r.ticker.Some?
    && s.heartbeatInterval > 0 && s.heartbeatFn.Some?
    && r.tickers == s.tickers + [Ticker(s.heartbeatInterval, true)]
  }

  /** One pass of the read loop (websocket_client.go:91-107). */
  function AfterRead(s: WsState, io: Io): (r: WsState)
    requires Inv(s) && s.conn.Some?
    ensures Inv(r)
  {
    match io
    case Success(messageType, data) =>
      s.(phase := Reading, deliveries := s.deliveries + DeliverAll(s.handlers, messageType, data))
    case Failure(code) =>
      s.(conn := None, closedConns := s.closedConns + [s.conn.value],
         phase := if s.reconnect then Dialing else Returned(code))
  }

  /** One blocking operation of `Listen` and what it leads to. */
  function Next(s: WsState, io: Io): (r: WsState)
    requires Inv(s)
    ensures Inv(r)
    ensures r.handlers == s.handlers && r.reconnect == s.reconnect
    ensures r.heartbeatInterval == s.heartbeatInterval && r.heartbeatFn == s.heartbeatFn
    ensures s.ticker.Some? ==> r.ticker == s.ticker && r.tickers == s.tickers
    ensures r.tickers == s.tickers || ArmedFrom(s, r)
  {
    match s.phase
    case Idle => s
    case Returned(_) => s
    case Dialing =>
      if s.conn.Some? then AfterRead(Arm(s), io)
      else if io.Failure? then s
      else Arm(s.(conn := Some(s.dials), dials := s.dials + 1)).(phase := Reading)
    case Reading => AfterRead(s, io)
  }

  /** The state after `Listen` has met the outcomes in `script`, in order. */
  function Run(s: WsState, script: seq<Io>): (r: WsState)
    requires Inv(s)
    ensures Inv(r)
    ensures r.handlers == s.handlers && r.reconnect == s.reconnect
    decreases |script|
  {
    if script == [] then s else Next(Run(s, script[..|script| - 1]), script[|script| - 1])
  }

  /** `SetHeartbeat` (websocket_client.go:125-132): new settings, and any
      current ticker stopped and forgotten, so that no ticker runs and the
      next pass of `Listen` makes a new one. */
  function WithHeartbeat(s: WsState, interval: int64, fn: Option<HeartbeatFnId>): (r: WsState)
    requires Inv(s)
    ensures Inv(r)
    ensures r.heartbeatInterval == interval && r.heartbeatFn == fn && r.ticker == None
    ensures forall i :: 0 <= i < |r.tickers| ==> !r.tickers[i].running
    ensures |r.tickers| == |s.tickers|
    ensures r == s.(heartbeatInterval := interval, heartbeatFn := fn, tickers := r.tickers, ticker := None)
  {
    var settings := s.(heartbeatInterval := interval, heartbeatFn := fn);
    if s.ticker.Some? then
      settings.(tickers := s.tickers[s.ticker.value := s.tickers[s.ticker.value].(running := false)],
                ticker := None)
    else settings
  }

  /** Once `Listen` has returned, later outcomes change nothing. */
  lemma {:induction false} RunAfterReturn(s: WsState, script: seq<Io>)
    requires Inv(s) && s.phase.Returned?
    ensures Run(s, script) == s
    decreases |script|
  {
    if script != [] {
      RunAfterReturn(s, script[..|script| - 1]);
    }
  }

  /** Running two scripts one after the other is running their concatenation. */
  lemma {:induction false} RunConcat(s: WsState, first: seq<Io>, second: seq<Io>)
    requires Inv(s)
    ensures Run(s, first + second) == Run(Run(s, first), second)
    decreases |second|
  {
    if second == [] {
      assert first + second == first;
    } else {
      var init := second[..|second| - 1];
      assert (first + second)[..|first + second| - 1] == first + init;
      RunConcat(s, first, init);
    }
  }

  /** With reconnect on, `Listen` never returns: every read error leads
      back to dialing. */
  lemma {:induction false} ReconnectNeverReturns(s: WsState, script: seq<Io>)
    requires Inv(s) && s.reconnect && !s.phase.Returned?
    ensures !Run(s, script).phase.Returned?
    decreases |script|
  {
    if script != [] {
      var init := script[..|script| - 1];
      ReconnectNeverReturns(s, init);
      NextKeepsListening(Run(s, init), script[|script| - 1]);
    }
  }

  /** One step of `Listen` with reconnect on does not return. */
  lemma NextKeepsListening(s: WsState, io: Io)
    requires Inv(s) && s.reconnect && !s.phase.Returned?
    ensures !Next(s, io).phase.Returned?
  {
  }

  /** Without a connection, failed dials leave everything as it was:
      `Listen` keeps retrying and neither connects nor returns. */
  lemma {:induction false} DialFailuresRetry(s: WsState, script: seq<Io>)
    requires Inv(s) && s.phase == Dialing && s.conn.None?
    requires forall k :: 0 <= k < |script| ==> script[k].Failure?
    ensures Run(s, script) == s
    decreases |script|
  {
    if script != [] {
      DialFailuresRetry(s, script[..|script| - 1]);
    }
  }

  /** Within one `Listen`, at most one ticker is made, and only when the
      interval is positive, a heartbeat function is set and no ticker
      existed; an existing ticker is kept. */
  lemma {:induction false} ListenArmsAtMostOnce(s: WsState, script: seq<Io>)
    requires Inv(s)
    ensures var r := Run(s, script);
      r.tickers == s.tickers || ArmedFrom(s, r)
    ensures var r := Run(s, script);
      && r.heartbeatInterval == s.heartbeatInterval && r.heartbeatFn == s.heartbeatFn
      && (s.ticker.Some? ==> r.ticker == s.ticker)
      && (r.tickers != s.tickers ==> r.ticker.Some?)
    decreases |script|
  {
    if script != [] {
      ListenArmsAtMostOnce(s, script[..|script| - 1]);
    }
  }

  /** A message read is passed to every registered handler once, in
      registration order, and the connection is kept. */
  lemma ReadDeliversInOrder(s: WsState, messageType: int, data: Bytes)
    requires Inv(s) && s.phase == Reading
    ensures var r := Next(s, Success(messageType, data));
      && r.conn == s.conn && r.phase == Reading
      && |r.deliveries| == |s.deliveries| + |s.handlers|
      && r.deliveries[..|s.deliveries|] == s.deliveries
      && forall i :: 0 <= i < |s.handlers| ==>
           r.deliveries[|s.deliveries| + i] == Delivery(s.handlers[i], messageType, data)
  {
    var d := DeliverAll(s.handlers, messageType, data);
    assert Next(s, Success(messageType, data)).deliveries == s.deliveries + d;
  }

  /** A read error closes and clears the connection and leaves the tickers
      as they were; `Listen` then dials again, or returns the error when
      reconnect is off. */
  lemma ReadFailureDisconnects(s: WsState, code: nat)
    requires Inv(s) && s.phase == Reading
    ensures var r := Next(s, Failure(code));
      && r.conn.None? && r.closedConns == s.closedConns + [s.conn.value]
      && r.ticker == s.ticker && r.tickers == s.tickers
      && r.phase == (if s.reconnect then Dialing else Returned(code))
  {
  }

  /** After `SetHeartbeat` with a positive interval and a function, the next
      successful dial makes one new running ticker with the new period, and
      it is the only running one. */
  lemma SetHeartbeatRearms(s: WsState, interval: int64, fn: HeartbeatFnId, messageType: int, data: Bytes)
    requires Inv(s) && s.phase == Dialing && s.conn.None? && interval > 0
    ensures var h := WithHeartbeat(s, interval, Some(fn));
      var r := Next(h, Success(messageType, data));
      && r.conn.Some? && r.phase == Reading
      && r.ticker == Some(|s.tickers|)
      && r.tickers[|s.tickers|] == Ticker(interval, true)
      && forall i :: 0 <= i < |s.tickers| ==> !r.tickers[i].running
  {
  }

  lemma RunExtend(s: WsState, script: seq<Io>, i: nat)
    requires Inv(s) && i < |script|
    ensures Run(s, script[..i + 1]) == Next(Run(s, script[..i]), script[i])
  {
    assert script[..i + 1][..i] == script[..i];
  }

  /** When `Listen` returns after part of a script, the rest changes nothing. */
  lemma RunPrefixReturned(s: WsState, head: seq<Io>, tail: seq<Io>)
    requires Inv(s) && Run(s, head).phase.Returned?
    ensures Run(s, head + tail) == Run(s, head)
  {
    RunConcat(s, head, tail);
    RunAfterReturn(Run(s, head), tail);
  }

  class WsClient {
    const url: string
    var conn: Option<nat>
    var dials: nat
    var closedConns: seq<nat>
    var handlers: seq<HandlerId>
    var tickers: seq<Ticker>
    var ticker: Option<nat>
    var heartbeatInterval: int64
    var heartbeatFn: Option<HeartbeatFnId>
    var reconnect: bool
    /** Whether `closeCh` has been closed. */
    var closeChClosed: bool
    var phase: Phase
    var deliveries: seq<Delivery>

    function State(): WsState
      reads this
    {
      WsState(conn, dials, closedConns, handlers, tickers, ticker,
              heartbeatInterval, heartbeatFn, reconnect, phase, deliveries)
    }

    ghost predicate Valid()
      reads this
    {
      Inv(State())
    }

    /** `NewWsClientWithHeartbeat`: no connection, no ticker, no handlers,
        reconnect on. */
    constructor NewWithHeartbeat(url: string, heartbeatInterval: int64, heartbeatFn: Option<HeartbeatFnId>)
      ensures Valid() && this.url == url && !closeChClosed
      ensures State() == WsState(None, 0, [], [], [], None, heartbeatInterval, heartbeatFn, true, Idle, [])
    {
      this.url := url;
      conn := None;
      dials := 0;
      closedConns := [];
      handlers := [];
      tickers := [];
      ticker := None;
      this.heartbeatInterval := heartbeatInterval;
      this.heartbeatFn := heartbeatFn;
      reconnect := true;
      closeChClosed := false;
      phase := Idle;
      deliveries := [];
    }

    /** `OnMessage`: one handler appended at the end. */
    method OnMessage(handler: HandlerId)
      requires Valid()
      modifies this`handlers
      ensures Valid()
      ensures handlers == old(handlers) + [handler]
    {
      handlers := handlers + [handler];
    }

    /** One pass of `Listen`'s loops, consuming the outcome of one dial or
        one read; the two-second sleeps are not modelled. */
    method Step(io: Io)
      requires Valid()
      modifies this
      ensures Valid()
      ensures State() == Next(old(State()), io)
      ensures closeChClosed == old(closeChClosed)
    {
      if phase.Idle? || phase.Returned? {
        return;
      }
      if phase == Dialing {
        if conn.None? {
          if io.Failure? {
            return;
          }
          Connect();
          return;
        }
        ArmTicker();
      }
      ReadPass(io);
    }

    /** A successful dial (websocket_client.go:69-78): the new connection,
        the heartbeat check, and on to the read loop. */
    method Connect()
      requires Valid() && conn.None?
      modifies this`conn, this`dials, this`tickers, this`ticker, this`phase
      ensures Valid()
      ensures State() == Arm(old(State()).(conn := Some(old(dials)), dials := old(dials) + 1)).(phase := Reading)
    {
      conn := Some(dials);
      dials := dials + 1;
      ArmTicker();
      phase := Reading;
    }

    /** websocket_client.go:75-78. */
    method ArmTicker()
      requires Valid()
      modifies this`tickers, this`ticker
      ensures Valid()
      ensures State() == Arm(old(State()))
    {
      if heartbeatInterval > 0 && heartbeatFn.Some? {
        if ticker.None? {
          ticker := Some(|tickers|);
          tickers := tickers + [Ticker(heartbeatInterval, true)];
        }
      }
    }

    /** One pass of the read loop, websocket_client.go:91-107. */
    method ReadPass(io: Io)
      requires Valid() && conn.Some?
      modifies this`deliveries, this`conn, this`closedConns, this`phase
      ensures Valid()
      ensures State() == AfterRead(old(State()), io)
    {
      match io
      case Success(messageType, data) =>
        Deliver(messageType, data);
        phase := Reading;
      case Failure(code) =>
        closedConns := closedConns + [conn.value];
        conn := None;
        phase := if reconnect then Dialing else Returned(code);
    }

    /** The loop `for _, handler := range c.handlers` of the read loop. */
    method Deliver(messageType: int, data: Bytes)
      modifies this`deliveries
      ensures deliveries == old(deliveries) + DeliverAll(handlers, messageType, data)
    {
      var i := 0;
      while i < |handlers|
        invariant 0 <= i <= |handlers|
        invariant deliveries == old(deliveries) + DeliverAll(handlers[..i], messageType, data)
      {
        assert handlers[..i + 1] == handlers[..i] + [handlers[i]];
        deliveries := deliveries + [Delivery(handlers[i], messageType, data)];
        i := i + 1;
      }
      assert handlers[..i] == handlers;
    }

    /** `Listen`, fed the outcomes in `script`: it runs until it returns or
        the script is used up. `err` is the read error it returned with;
        by `RunPrefixReturned` the unused outcomes would change nothing. */
    method Listen(script: seq<Io>) returns (err: Option<nat>, used: nat)
      requires Valid() && (phase.Idle? || phase.Returned?)
      modifies this
      ensures Valid()
      ensures used <= |script|
      ensures State() == Run(old(State()).(phase := Dialing), script[..used])
      ensures used == |script| || phase.Returned?
      ensures err.Some? <==> phase.Returned?
      ensures err.Some? ==> phase == Returned(err.value)
      ensures closeChClosed == old(closeChClosed)
    {
      phase := Dialing;
      used := Pump(script);
      if phase.Returned? {
        err := Some(phase.error);
      } else {
        err := None;
      }
    }

    /** The loops of `Listen` from its current state, until it returns or
        the script is used up. */
    method Pump(script: seq<Io>) returns (used: nat)
      requires Valid()
      modifies this
      ensures Valid()
      ensures used <= |script|
      ensures State() == Run(old(State()), script[..used])
      ensures used == |script| || phase.Returned?
      ensures closeChClosed == old(closeChClosed)
    {
      ghost var start := State();
      var i := 0;
      while i < |script| && !phase.Returned?
        invariant Valid() && 0 <= i <= |script|
        invariant closeChClosed == old(closeChClosed)
        invariant State() == Run(start, script[..i])
      {
        StepScript(start, script, i);
        i := i + 1;
      }
      used := i;
    }

    /** One turn of `Listen`'s loop: outcome `i` of `script` extends the run
        from `start` by one step. */
    method StepScript(ghost start: WsState, script: seq<Io>, i: nat)
      requires Valid() && Inv(start) && i < |script| && State() == Run(start, script[..i])
      modifies this
      ensures Valid() && State() == Run(start, script[..i + 1])
      ensures closeChClosed == old(closeChClosed)
    {
      Step(script[i]);
      RunExtend(start, script, i);
    }

    /** `Close`: closes `closeCh` (a second call would panic), stops the
        current ticker without forgetting it, and closes the connection if
        there is one, returning that close's error; `conn` is not reset. */
    method Close(connCloseError: Option<nat>) returns (err: Option<nat>)
      requires Valid() && !closeChClosed
      modifies this`closeChClosed, this`tickers, this`closedConns
      ensures Valid() && closeChClosed
      ensures old(ticker).Some? ==>
        tickers == old(tickers)[old(ticker).value := old(tickers)[old(ticker).value].(running := false)]
      ensures old(ticker).None? ==> tickers == old(tickers)
      ensures conn.Some? ==> closedConns == old(closedConns) + [conn.value] && err == connCloseError
      ensures conn.None? ==> closedConns == old(closedConns) && err == None
    {
      closeChClosed := true;
      if ticker.Some? {
        tickers := tickers[ticker.value := tickers[ticker.value].(running := false)];
      }
      if conn.Some? {
        closedConns := closedConns + [conn.value];
        return connCloseError;
      }
      return None;
    }

    /** `SetHeartbeat`. */
    method SetHeartbeat(interval: int64, fn: Option<HeartbeatFnId>)
      requires Valid()
      modifies this`heartbeatInterval, this`heartbeatFn, this`tickers, this`ticker
      ensures Valid()
      ensures State() == WithHeartbeat(old(State()), interval, fn)
    {
      heartbeatInterval := interval;
      heartbeatFn := fn;
      if ticker.Some? {
        tickers := tickers[ticker.value := tickers[ticker.value].(running := false)];
        ticker := None;
      }
    }
  }
}
