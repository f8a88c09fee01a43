/**
 * The legacy socket client (src/websocketClient.js).
 *
 * Two module variables, `stompClient` and `connected`. Each `connect` call
 * that gets past the guard opens a new socket and client and makes it the
 * current `stompClient`; the client's handshake callback later sets
 * `connected` and subscribes, through the module variable (so on whichever
 * client is current by then), to the draw and chat topics with handlers that
 * parse each body and forward it to that call's `onMessageReceived`.
 *
 * Clients are numbered in creation order; `callbacks[i]` is the
 * `onMessageReceived` given to the call that created client `i`.
 */
module LegacySocket {
  import opened Wrappers
  import opened Json

  const DrawTopic := "/topic/draw"
  const ChatTopic := "/topic/chat"

  /** A subscription made on client `client`, forwarding to callback `callback`. */
  datatype Sub = Sub(client: nat, topic: string, callback: nat)

  /** A frame sent on client `client`. */
  datatype Frame = Frame(client: nat, destination: string, body: string)

  datatype LegacyState = LegacyState(
    stompClient: Option<nat>,
    connected: bool,
    callbacks: seq<nat>,
    handshaken: set<nat>,
    subs: seq<Sub>,
    sent: seq<Frame>,
    received: seq<(nat, Json)>)

  /** The current client is the last one created; it exists whenever `connected` is set. */
  ghost predicate Inv(s: LegacyState) {
    && (s.stompClient.None? <==> s.callbacks == [])
    && (s.stompClient.Some? ==> s.stompClient.value == |s.callbacks| - 1)
    && (s.connected ==> s.stompClient.Some?)
    && (forall i :: i in s.handshaken ==> i < |s.callbacks|)
  }

  function Start(): (r: LegacyState)
    ensures Inv(r)
  {
    LegacyState(None, false, [], {}, [], [], [])
  }

  /** `connect(onMessageReceived)`: ignored once connected; otherwise a new client becomes current. */
  function ConnectStep(s: LegacyState, callback: nat): (r: LegacyState)
    ensures Inv(s) ==> Inv(r)
    ensures s.connected ==> r == s
    ensures !s.connected ==> r.stompClient == Some(|s.callbacks|) && r.callbacks == s.callbacks + [callback]
    ensures r.subs == s.subs && r.sent == s.sent && r.connected == s.connected
  {
    if s.connected then s
    else s.(stompClient := Some(|s.callbacks|), callbacks := s.callbacks + [callback])
  }

  /** Client `i`'s handshake succeeds: `connected` is set and both topics are subscribed on the current client. */
  function HandshakeStep(s: LegacyState, i: nat): (r: LegacyState)
    requires Inv(s) && i < |s.callbacks| && i !in s.handshaken
    ensures Inv(r) && r.connected
    ensures r.subs == s.subs + [Sub(|s.callbacks| - 1, DrawTopic, s.callbacks[i]), Sub(|s.callbacks| - 1, ChatTopic, s.callbacks[i])]
  {
    var current := s.stompClient.value;
    s.(connected := true, handshaken := s.handshaken + {i},
       subs := s.subs + [Sub(current, DrawTopic, s.callbacks[i]), Sub(current, ChatTopic, s.callbacks[i])])
  }

  /** The destination a message of this `type` is sent to, if any. */
  function Route(data: Json): (d: Option<string>)
    ensures d == Some("/app/draw") <==> Get(data, "type") == Some(JStr("DRAW"))
    ensures d == Some("/app/chat") <==> Get(data, "type") == Some(JStr("CHAT"))
    ensures d.None? <==> Get(data, "type") !in {Some(JStr("DRAW")), Some(JStr("CHAT"))}
  {
    var ty := Get(data, "type");
    if ty == Some(JStr("DRAW")) then Some("/app/draw")
    else if ty == Some(JStr("CHAT")) then Some("/app/chat")
    else None
  }

  /**
   * `sendMessage(data)`: the new state, and whether the call throws. Dropped
   * unless connected; otherwise reading `data.type` throws a TypeError when
   * `data` is `null`, and any other value is routed by type, or sent nowhere.
   */
  function SendStep(s: LegacyState, c: Codec, data: Json): (r: (LegacyState, bool))
    ensures Inv(s) ==> Inv(r.0)
    ensures r.1 <==> s.stompClient.Some? && s.connected && data == JNull
    ensures (s.stompClient.None? || !s.connected || Route(data).None?) ==> r.0 == s
    ensures s.stompClient.Some? && s.connected && Route(data).Some? ==>
      r.0 == s.(sent := s.sent + [Frame(s.stompClient.value, Route(data).value, c.stringify(data))])
  {
    if s.stompClient.None? || !s.connected then (s, false)
    else if data == JNull then (s, true)
    else match Route(data)
      case None => (s, false)
      case Some(dest) => (s.(sent := s.sent + [Frame(s.stompClient.value, dest, c.stringify(data))]), false)
  }

  /**
   * A frame for subscription `k` arrives: its body is parsed and forwarded to
   * the subscription's callback; an unparsable body makes `JSON.parse` throw
   * inside the handler, so nothing is forwarded.
   */
  function FrameStep(s: LegacyState, c: Codec, k: nat, body: string): (r: LegacyState)
    requires k < |s.subs|
    ensures Inv(s) ==> Inv(r)
    ensures c.parse(body).None? ==> r == s
    ensures c.parse(body).Some? ==> r == s.(received := s.received + [(s.subs[k].callback, c.parse(body).value)])
  {
    match c.parse(body)
    case None => s
    case Some(j) => s.(received := s.received + [(s.subs[k].callback, j)])
  }

  /** Several `connect` calls in a row. */
  function ConnectAll(s: LegacyState, cbs: seq<nat>): LegacyState
    decreases |cbs|
  {
    if cbs == [] then s else ConnectAll(ConnectStep(s, cbs[0]), cbs[1..])
  }

  /**
   * The guard reads a flag that only a handshake sets, so every `connect` call
   * made before the first handshake opens its own client, and the last one is
   * current.
   */
  lemma {:induction false} ConnectsBeforeHandshakeEachOpen(s: LegacyState, cbs: seq<nat>)
    requires Inv(s) && !s.connected
    ensures var r := ConnectAll(s, cbs);
      && Inv(r) && !r.connected
      && r.callbacks == s.callbacks + cbs
      && r.handshaken == s.handshaken && r.subs == s.subs && r.sent == s.sent
      && (cbs != [] ==> r.stompClient == Some(|s.callbacks| + |cbs| - 1))
    decreases |cbs|
  {
    if cbs != [] {
      var s1 := ConnectStep(s, cbs[0]);
      ConnectsBeforeHandshakeEachOpen(s1, cbs[1..]);
      assert s.callbacks + [cbs[0]] + cbs[1..] == s.callbacks + cbs;
    }
  }

  /**
   * When two clients were opened before the first handshake, the first client's
   * handshake subscribes on the second one: the draw and chat subscriptions sit
   * on a client whose own handshake has not happened.
   */
  lemma EarlyHandshakeSubscribesOnLaterClient(a: nat, b: nat)
    ensures var s := ConnectAll(Start(), [a, b]);
      && Inv(s)
      && 0 < |s.callbacks| && 0 !in s.handshaken
      && HandshakeStep(s, 0).subs == [Sub(1, DrawTopic, a), Sub(1, ChatTopic, a)]
      && 1 !in HandshakeStep(s, 0).handshaken
  {
    ConnectsBeforeHandshakeEachOpen(Start(), [a, b]);
    var s := ConnectAll(Start(), [a, b]);
    assert s.callbacks == [a, b];
  }

  /** Once connected, `connect` changes nothing, however often it is called. */
  lemma {:induction false} ConnectWhenConnectedIgnored(s: LegacyState, cbs: seq<nat>)
    requires s.connected
    ensures ConnectAll(s, cbs) == s
    decreases |cbs|
  {
    if cbs != [] {
      ConnectWhenConnectedIgnored(ConnectStep(s, cbs[0]), cbs[1..]);
    }
  }

  /**
   * With a lawful codec, a draw or chat message sent by one connected client
   * and delivered on a matching subscription reaches the callback unchanged.
   */
  lemma SentMessageArrives(s: LegacyState, c: Codec, data: Json, k: nat)
    requires Lawful(c) && Inv(s) && s.connected && Route(data).Some? && k < |s.subs|
    ensures var r := SendStep(s, c, data).0;
      && |r.sent| == |s.sent| + 1
      && FrameStep(r, c, k, r.sent[|s.sent|].body).received == s.received + [(s.subs[k].callback, data)]
  {
  }

  class LegacyClient {
    var stompClient: Option<nat>
    var connected: bool
    var callbacks: seq<nat>
    var handshaken: set<nat>
    var subs: seq<Sub>
    var sent: seq<Frame>
    var received: seq<(nat, Json)>
    const codec: Codec

    function State(): LegacyState
      reads this
    {
      LegacyState(stompClient, connected, callbacks, handshaken, subs, sent, received)
    }

    constructor (codec: Codec)
      ensures State() == Start() && this.codec == codec
    {
      this.codec := codec;
      stompClient, connected := None, false;
      callbacks, handshaken := [], {};
      subs, sent, received := [], [], [];
    }

    method Connect(onMessageReceived: nat)
      modifies this
      ensures State() == ConnectStep(old(State()), onMessageReceived)
    {
      if connected {
        return;
      }
      stompClient := Some(|callbacks|);
      callbacks := callbacks + [onMessageReceived];
    }

    method OnHandshake(i: nat)
      requires Inv(State()) && i < |callbacks| && i !in handshaken
      modifies this
      ensures State() == HandshakeStep(old(State()), i)
    {
      connected := true;
      handshaken := handshaken + {i};
      var current := stompClient.value;
      subs := subs + [Sub(current, DrawTopic, callbacks[i])];
      subs := subs + [Sub(current, ChatTopic, callbacks[i])];
    }

    /** `threw` is set when the call throws. */
    method SendMessage(data: Json) returns (threw: bool)
      modifies this
      ensures (State(), threw) == SendStep(old(State()), codec, data)
    {
      threw := false;
      if stompClient.None? || !connected {
        return;
      }
      if data == JNull {
        // `data.type` on `null` throws a TypeError
        threw := true;
        return;
      }
      var ty := Get(data, "type");
      if ty == Some(JStr("DRAW")) {
        sent := sent + [Frame(stompClient.value, "/app/draw", codec.stringify(data))];
      } else if ty == Some(JStr("CHAT")) {
        sent := sent + [Frame(stompClient.value, "/app/chat", codec.stringify(data))];
      }
    }

    method OnFrame(k: nat, body: string)
      requires k < |subs|
      modifies this
      ensures State() == FrameStep(old(State()), codec, k, body)
    {
      var parsed := codec.parse(body);
      if parsed.Some? {
        received := received + [(subs[k].callback, parsed.value)];
      }
    }
  }
}
