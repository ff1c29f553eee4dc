/** The request/reply correlation engine of client.go: a counter that mints
    correlation tokens, a registry of requests waiting for their reply, a
    table of event handlers per payload type, and the dispatcher that routes
    each inbound frame to exactly one of these. The mutex and the goroutines
    are read as one atomic step per method; each reply channel (capacity one)
    is a slot that is either empty or holds the reply. */
module Correlation {
  import opened Common
  import Tokens

  /** gorilla's `websocket.BinaryMessage`: the binary-frame opcode %x2 of
      section 5.2 of RFC 6455. */
  const BinaryMessage: int := 2

  /** `openapi.ProtoMessage`, the envelope of every request, reply and event.
      Absent optional protobuf fields are `None`. */
  datatype Envelope = Envelope(payloadType: Option<uint32>, payload: Bytes, clientMsgId: Option<string>)

  /** An envelope answers a request when it carries a non-empty token. */
  predicate IsReply(m: Envelope) {
    m.clientMsgId.Some? && m.clientMsgId.value != ""
  }

  /** The identity of a `ResponseHandler` registered with `OnEvent`. */
  type HandlerId = nat

  /** One call `h(msg)` of an event handler. */
  datatype Invocation = Invocation(handler: HandlerId, message: Envelope)

  /** One call `transport.Send(messageType, proto.Marshal(envelope))`. */
  datatype Outbound = Outbound(messageType: int, envelope: Envelope)

  /** The one thing `handleMessage` does with a frame. */
  datatype Route = Drop | Deliver(token: string) | Fanout(payloadType: uint32)

  /** How the `select` at the end of `SendRequest` ends: with the reply, with
      the context's error, or still waiting for one of them. */
  datatype Wait = Replied(reply: Envelope) | Failed(error: Error) | Blocked

  /** The decision `handleMessage` takes for a frame of type `messageType`
      that decodes to `decoded`, given the tokens still pending. */
  function RouteOf(messageType: int, decoded: Option<Envelope>, pending: set<string>): (r: Route)
    ensures r.Deliver? <==>
      && messageType == BinaryMessage && decoded.Some? && IsReply(decoded.value)
      && decoded.value.clientMsgId.value in pending
    ensures r.Deliver? ==> r.token == decoded.value.clientMsgId.value
    ensures r.Fanout? <==>
      && messageType == BinaryMessage && decoded.Some? && !IsReply(decoded.value)
      && decoded.value.payloadType.Some?
    ensures r.Fanout? ==> r.payloadType == decoded.value.payloadType.value
  {
    if messageType != BinaryMessage then Drop
    else match decoded
      case None => Drop
      case Some(m) =>
        if m.clientMsgId.Some? && m.clientMsgId.value != "" then
          if m.clientMsgId.value in pending then Deliver(m.clientMsgId.value) else Drop
        else if m.payloadType.Some? then Fanout(m.payloadType.value)
        else Drop
  }

  /** The calls made by `for _, h := range handlers { h(msg) }`: every
      handler once, in registration order. */
  function FanOut(handlers: seq<HandlerId>, m: Envelope): (r: seq<Invocation>)
    ensures |r| == |handlers|
    ensures forall i :: 0 <= i < |r| ==> r[i] == Invocation(handlers[i], m)
  {
    if handlers == [] then [] else [Invocation(handlers[0], m)] + FanOut(handlers[1..], m)
  }

  /** What the engine sees of its `Transport`: the handlers registered with
      `OnMessage` and the frames handed to `Send`. Whether a `Send` fails is
      decided by the environment and given to `Client.SendRequest`. */
  class Transport {
    var listeners: seq<Client>
    var written: seq<Outbound>

    constructor ()
      ensures listeners == [] && written == []
    {
      listeners := [];
      written := [];
    }
  }

  class Client {
    const transport: Transport
    /** `proto.Unmarshal` into a `ProtoMessage`; `None` is a decode error. */
    const decode: Bytes -> Option<Envelope>
    const clientId: string
    const clientSecret: string
    const accessToken: string

    var msgId: nat
    /** The keys of the `pending` map: requests still waiting for a reply. */
    var pending: set<string>
    /** The reply channel made for each token, held by its caller. */
    var slots: map<string, Option<Envelope>>
    var eventHandlers: map<uint32, seq<HandlerId>>
    /** Every event-handler call made so far, oldest first. */
    var invoked: seq<Invocation>

    /** Every pending request has a channel, still empty, and every token
        handed out so far was built from a counter no larger than `msgId`. */
    ghost predicate Valid()
      reads this
    {
      && pending <= slots.Keys
      && (forall t :: t in pending ==> slots[t] == None)
      && (forall t :: t in slots ==> Tokens.CounterOf(t) <= msgId)
    }

    /** `c.eventHandlers[payloadType]`, which is nil for an unknown type. */
    function HandlersFor(payloadType: uint32): seq<HandlerId>
      reads this
    {
      if payloadType in eventHandlers then eventHandlers[payloadType] else []
    }

    /** `NewClientWithTransport`: empty registries, and the client's
        dispatcher registered with the transport. */
    constructor (transport: Transport, decode: Bytes -> Option<Envelope>,
                 clientId: string, clientSecret: string, accessToken: string)
      modifies transport
      ensures Valid()
      ensures this.transport == transport && this.decode == decode
      ensures this.clientId == clientId && this.clientSecret == clientSecret
      ensures this.accessToken == accessToken
      ensures msgId == 0 && pending == {} && slots == map[]
      ensures eventHandlers == map[] && invoked == []
      ensures transport.listeners == old(transport.listeners) + [this]
      ensures transport.written == old(transport.written)
    {
      this.transport := transport;
      this.decode := decode;
      this.clientId := clientId;
      this.clientSecret := clientSecret;
      this.accessToken := accessToken;
      msgId := 0;
      pending := {};
      slots := map[];
      eventHandlers := map[];
      invoked := [];
      new;
      transport.listeners := transport.listeners + [this];
    }

    /** `nextMsgId` at time `now` (nanoseconds): bumps the counter by one and
        returns a token no earlier call has returned. */
    method NextMsgId(now: nat) returns (token: string)
      requires Valid()
      modifies this`msgId
      ensures Valid()
      ensures msgId == old(msgId) + 1
      ensures token == Tokens.Token(now, msgId)
      ensures token !in slots
    {
      msgId := msgId + 1;
      token := Tokens.Token(now, msgId);
      Tokens.TokenCounter(now, msgId);
      assert forall t :: t in slots ==> Tokens.CounterOf(t) <= old(msgId);
    }

    /** The part of `SendRequest` before its `select`: mint a token, marshal
        the payload (`None` when `proto.Marshal` fails), register the reply
        channel and hand the envelope to `Send`, whose outcome is `sendError`.
        A failed `Send` is returned as is and leaves the request pending. */
    method SendRequest(now: nat, payloadType: uint32, payload: Option<Bytes>, sendError: Option<Error>)
      returns (token: string, err: Option<Error>)
      requires Valid()
      modifies this`msgId, this`pending, this`slots, transport`written
      ensures Valid()
      ensures msgId == old(msgId) + 1 && token == Tokens.Token(now, msgId)
      ensures token !in old(slots)
      ensures payload.None? ==>
        && err == Some(MarshalFailed)
        && pending == old(pending) && slots == old(slots)
        && transport.written == old(transport.written)
      ensures payload.Some? ==>
        && err == sendError
        && pending == old(pending) + {token}
        && slots == old(slots)[token := None]
        && transport.written == old(transport.written)
             + [Outbound(BinaryMessage, Envelope(Some(payloadType), payload.value, Some(token)))]
    {
      token := NextMsgId(now);
      if payload.None? {
        return token, Some(MarshalFailed);
      }
      Tokens.TokenCounter(now, msgId);
      var msg := Envelope(Some(payloadType), payload.value, Some(token));
      slots := slots[token := None];
      pending := pending + {token};
      transport.written := transport.written + [Outbound(BinaryMessage, msg)];
      err := sendError;
    }

    /** The `select` of `SendRequest` on the channel of `token`: `ctxDone`
        says whether the context has expired, and when both cases are ready
        `chooseDone` is the runtime's pick. Receiving empties the channel;
        the pending entry is never removed here. */
    method Await(token: string, ctxDone: bool, chooseDone: bool) returns (w: Wait)
      requires Valid() && token in slots
      modifies this`slots
      ensures Valid()
      ensures old(slots[token]).Some? && !(ctxDone && chooseDone) ==>
        w == Replied(old(slots[token]).value) && slots == old(slots)[token := None]
      ensures (old(slots[token]).None? || chooseDone) && ctxDone ==>
        w == Failed(ContextDone) && slots == old(slots)
      ensures old(slots[token]).None? && !ctxDone ==>
        w == Blocked && slots == old(slots)
    {
      var ready := slots[token].Some?;
      if ready && !(ctxDone && chooseDone) {
        w := Replied(slots[token].value);
        slots := slots[token := None];
      } else if ctxDone {
        w := Failed(ContextDone);
      } else {
        w := Blocked;
      }
    }

    /** `handleMessage`: drops the frame, fills the slot of exactly the
        matching pending request and deregisters it, or calls the handlers
        of the event's type in order; nothing else changes. */
    method HandleMessage(messageType: int, data: Bytes)
      requires Valid()
      modifies this`pending, this`slots, this`invoked
      ensures Valid()
      ensures match RouteOf(messageType, decode(data), old(pending))
        case Drop =>
          pending == old(pending) && slots == old(slots) && invoked == old(invoked)
        case Deliver(t) =>
          && old(slots[t]) == None
          && pending == old(pending) - {t}
          && slots == old(slots)[t := decode(data)]
          && invoked == old(invoked)
        case Fanout(pt) =>
          && pending == old(pending) && slots == old(slots)
          && invoked == old(invoked) + FanOut(HandlersFor(pt), decode(data).value)
    {
      if messageType != BinaryMessage {
        return;
      }
      var decoded := decode(data);
      if decoded.None? {
        return;
      }
      var msg := decoded.value;
      if msg.clientMsgId.Some? && msg.clientMsgId.value != "" {
        var t := msg.clientMsgId.value;
        if t in pending {
          pending := pending - {t};
          slots := slots[t := Some(msg)];
        }
        return;
      }
      if msg.payloadType.Some? {
        CallHandlers(HandlersFor(msg.payloadType.value), msg);
      }
    }

    /** The loop `for _, h := range handlers { h(msg) }` of `handleMessage`. */
    method CallHandlers(handlers: seq<HandlerId>, msg: Envelope)
      modifies this`invoked
      ensures invoked == old(invoked) + FanOut(handlers, msg)
    {
      var i := 0;
      while i < |handlers|
        invariant 0 <= i <= |handlers|
        invariant invoked == old(invoked) + FanOut(handlers[..i], msg)
      {
        assert handlers[..i + 1] == handlers[..i] + [handlers[i]];
        invoked := invoked + [Invocation(handlers[i], msg)];
        i := i + 1;
      }
      assert handlers[..i] == handlers;
    }

    /** `OnEvent`: appends one handler to its type's list; the lists of the
        other types are unchanged. */
    method OnEvent(payloadType: uint32, handler: HandlerId)
      requires Valid()
      modifies this`eventHandlers
      ensures Valid()
      ensures eventHandlers == old(eventHandlers)[payloadType := old(HandlersFor(payloadType)) + [handler]]
    {
      eventHandlers := eventHandlers[payloadType := HandlersFor(payloadType) + [handler]];
    }
  }

  /** Two requests whose replies arrive in the opposite order each receive
      their own reply: routing is by token equality alone. Frame `[0]`
      decodes to the reply for the first request, frame `[1]` to the reply
      for the second. */
  method OutOfOrderReplies(t1: nat, t2: nat, kind: uint32, a: Bytes, b: Bytes, replyA: Bytes, replyB: Bytes)
    returns (wa: Wait, wb: Wait)
    ensures wa == Replied(Envelope(Some(kind), replyA, Some(Tokens.Token(t1, 1))))
    ensures wb == Replied(Envelope(Some(kind), replyB, Some(Tokens.Token(t2, 2))))
  {
    var msgA := Envelope(Some(kind), replyA, Some(Tokens.Token(t1, 1)));
    var msgB := Envelope(Some(kind), replyB, Some(Tokens.Token(t2, 2)));
    var decode := (data: Bytes) => if data == [0] then Some(msgA) else Some(msgB);
    var transport := new Transport();
    var client := new Client(transport, decode, "id", "secret", "token");
    var ta, tb := SendTwo(client, t1, t2, kind, a, b);
    wa, wb := ReplyInReverse(client, ta, tb, msgA, msgB);
  }

  /** The first half of `OutOfOrderReplies`: two requests, both left
      pending under distinct tokens. */
  method SendTwo(client: Client, t1: nat, t2: nat, kind: uint32, a: Bytes, b: Bytes)
    returns (ta: string, tb: string)
    requires client.Valid()
    modifies client, client.transport
    ensures client.Valid() && ta in client.pending && tb in client.pending && ta != tb
    ensures ta == Tokens.Token(t1, old(client.msgId) + 1) && tb == Tokens.Token(t2, old(client.msgId) + 2)
  {
    var ea, eb;
    ta, ea := client.SendRequest(t1, kind, Some(a), None);
    tb, eb := client.SendRequest(t2, kind, Some(b), None);
  }

  /** The second half of `OutOfOrderReplies`: with both requests pending,
      the reply to the later one is dispatched first. */
  method ReplyInReverse(client: Client, ta: string, tb: string, msgA: Envelope, msgB: Envelope)
    returns (wa: Wait, wb: Wait)
    requires client.Valid() && ta in client.pending && tb in client.pending && ta != tb
    requires msgA.clientMsgId == Some(ta) && msgB.clientMsgId == Some(tb) && ta != "" && tb != ""
    requires client.decode([0]) == Some(msgA) && client.decode([1]) == Some(msgB)
    modifies client
    ensures wa == Replied(msgA) && wb == Replied(msgB)
  {
    client.HandleMessage(BinaryMessage, [1]);
    assert ta in client.pending && client.slots[tb] == Some(msgB);
    client.HandleMessage(BinaryMessage, [0]);
    assert client.slots[ta] == Some(msgA) && client.slots[tb] == Some(msgB);
    wb := client.Await(tb, false, false);
    wa := client.Await(ta, false, false);
  }
}
