/**
 * The shared publish/subscribe connection (src/services/WebSocketService.ts).
 *
 * The service keeps two flags (`connected`, `connecting`), a durable
 * topic -> handler registry (`subscriptions`, a JavaScript Map, so insertion
 * ordered with one entry per topic) and a one-shot FIFO list of callbacks to run
 * once the connection is up (`connectionCallbacks`). The source reads and writes
 * that list but never declares or initialises it; here it starts empty.
 *
 * The STOMP client underneath is abstract: it is `active` once activated, it is
 * `connected` between a handshake and a drop, it holds the live broker
 * subscriptions (each with a fresh id), and every call the service makes on it is
 * recorded in `actions`, together with the callbacks and handlers it runs.
 *
 * Each operation is a pure step on `ServiceState`; the class
 * `WebSocketService` performs the same steps in place and is proved to agree.
 */
module StompSession {
  import opened Wrappers
  import opened Json

  type Topic = string

  /** A subscriber's message handler, known only by its identity. */
  datatype Handler = Handler(id: nat)

  /** A zero-argument callback waiting for the connection. */
  datatype Callback =
    | Opaque(id: nat)                                    // a caller's own callback
    | SubscribeWhenReady(topic: Topic, handler: Handler)  // the one `subscribe` queues

  /** One registry entry: `subscriptions.get(topic) == handler`. */
  datatype Entry = Entry(topic: Topic, handler: Handler)

  /** What a handler receives: the parsed body, or the raw body when parsing fails. */
  datatype Delivery = Parsed(value: Json) | Raw(body: string)

  /** A broker subscription the client currently holds. */
  datatype LiveSub = LiveSub(id: nat, topic: Topic, handler: Handler)

  /** What the service did through the client, and which callbacks and handlers ran. */
  datatype Action =
    | Activate
    | Deactivate
    | BrokerSubscribe(subId: nat, topic: Topic)
    | BrokerUnsubscribe(subId: nat)
    | Publish(destination: string, body: string)
    | Ran(callback: nat)
    | Delivered(handler: Handler, payload: Delivery)

  /** The object `subscribe` returns: its `unsubscribe` either cancels a live subscription or only forgets the entry. */
  datatype Disposer = Cancels(topic: Topic, subId: nat) | ForgetsOnly(topic: Topic)

  datatype ServiceState = ServiceState(
    connected: bool,
    connecting: bool,
    subscriptions: seq<Entry>,
    callbacks: seq<Callback>,
    clientActive: bool,
    clientConnected: bool,
    live: seq<LiveSub>,
    nextSubId: nat,
    actions: seq<Action>)

  /** What running some callbacks adds: actions, live subscriptions, and the next free subscription id. */
  datatype Effects = Effects(actions: seq<Action>, subs: seq<LiveSub>, next: nat)

  // ---------------------------------------------------------------------------
  // The registry: a JavaScript Map from topic to handler
  // ---------------------------------------------------------------------------

  predicate UniqueTopics(reg: seq<Entry>) {
    forall i, j :: 0 <= i < j < |reg| ==> reg[i].topic != reg[j].topic
  }

  /** Position of `t` in the registry, or -1. */
  function IndexOf(reg: seq<Entry>, t: Topic): (k: int)
    ensures -1 <= k < |reg|
    ensures k >= 0 ==> reg[k].topic == t && forall j :: 0 <= j < k ==> reg[j].topic != t
    ensures k == -1 <==> forall j :: 0 <= j < |reg| ==> reg[j].topic != t
  {
    if reg == [] then -1
    else if reg[0].topic == t then 0
    else
      var k := IndexOf(reg[1..], t);
      if k < 0 then -1 else k + 1
  }

  /** `subscriptions.get(t)`. */
  function Lookup(reg: seq<Entry>, t: Topic): (r: Option<Handler>)
    ensures r.None? <==> forall j :: 0 <= j < |reg| ==> reg[j].topic != t
    ensures UniqueTopics(reg) ==> forall j :: 0 <= j < |reg| && reg[j].topic == t ==> r == Some(reg[j].handler)
  {
    var k := IndexOf(reg, t);
    if k < 0 then None else Some(reg[k].handler)
  }

  /** `subscriptions.set(t, h)`: a known topic keeps its place, a new one goes last. */
  function Set(reg: seq<Entry>, t: Topic, h: Handler): (r: seq<Entry>)
    ensures UniqueTopics(reg) ==> UniqueTopics(r)
    ensures |r| == if Lookup(reg, t).Some? then |reg| else |reg| + 1
  {
    var k := IndexOf(reg, t);
    if k < 0 then reg + [Entry(t, h)] else reg[k := Entry(t, h)]
  }

  /** `subscriptions.delete(t)`: drops the entry for `t`, keeps the others in order. */
  function Delete(reg: seq<Entry>, t: Topic): (r: seq<Entry>)
    ensures UniqueTopics(reg) ==> UniqueTopics(r)
    ensures Lookup(reg, t).None? ==> r == reg
  {
    var k := IndexOf(reg, t);
    if k < 0 then reg else reg[..k] + reg[k + 1..]
  }

  /** After `set(t, h)` the last writer wins for `t`, and every other topic maps as before. */
  lemma SetThenLookup(reg: seq<Entry>, t: Topic, h: Handler)
    requires UniqueTopics(reg)
    ensures Lookup(Set(reg, t, h), t) == Some(h)
    ensures forall u :: u != t ==> Lookup(Set(reg, t, h), u) == Lookup(reg, u)
  {
    var r := Set(reg, t, h);
    var k := IndexOf(reg, t);
    var at := if k < 0 then |reg| else k;
    assert r[at] == Entry(t, h);
    forall u | u != t
      ensures Lookup(r, u) == Lookup(reg, u)
    {
      if j :| 0 <= j < |reg| && reg[j].topic == u {
        assert r[j] == reg[j];
      } else {
        forall i | 0 <= i < |r| ensures r[i].topic != u {
          if i != at { assert r[i] == reg[i]; }
        }
      }
    }
  }

  /** After `delete(t)` the topic is gone, and every other topic maps as before. */
  lemma DeleteThenLookup(reg: seq<Entry>, t: Topic)
    requires UniqueTopics(reg)
    ensures Lookup(Delete(reg, t), t).None?
    ensures forall u :: u != t ==> Lookup(Delete(reg, t), u) == Lookup(reg, u)
  {
    var r := Delete(reg, t);
    var k := IndexOf(reg, t);
    if k >= 0 {
      forall i | 0 <= i < |r|
        ensures r[i] == (if i < k then reg[i] else reg[i + 1])
      {
      }
      forall u | u != t
        ensures Lookup(r, u) == Lookup(reg, u)
      {
        if j :| 0 <= j < |reg| && reg[j].topic == u {
          assert j != k;
          var i := if j < k then j else j - 1;
          assert r[i] == reg[j];
        } else {
          forall i | 0 <= i < |r| ensures r[i].topic != u {
          }
        }
      }
    }
  }

  // ---------------------------------------------------------------------------
  // Running callbacks and (re)subscribing
  // ---------------------------------------------------------------------------

  /** `doSubscribe(t, h)`: one broker subscription with the next id. */
  function DoSubscribe(t: Topic, h: Handler, next: nat): Effects {
    Effects([BrokerSubscribe(next, t)], [LiveSub(next, t, h)], next + 1)
  }

  function RunCallback(cb: Callback, next: nat): Effects {
    match cb
    case Opaque(id) => Effects([Ran(id)], [], next)
    case SubscribeWhenReady(t, h) => DoSubscribe(t, h, next)
  }

  /** `connectionCallbacks.forEach(cb => cb())`, in order. */
  function RunQueue(cbs: seq<Callback>, next: nat): (e: Effects)
    ensures |e.actions| == |cbs|
    ensures e.next == next + |e.subs|
    ensures |e.subs| <= |cbs|
  {
    if cbs == [] then Effects([], [], next)
    else
      var e0 := RunQueue(cbs[..|cbs| - 1], next);
      var e1 := RunCallback(cbs[|cbs| - 1], e0.next);
      Effects(e0.actions + e1.actions, e0.subs + e1.subs, e1.next)
  }

  /** `subscriptions.forEach((h, t) => doSubscribe(t, h))`, in registry order. */
  function Resubscribe(reg: seq<Entry>, next: nat): (e: Effects)
    ensures e.next == next + |reg|
  {
    if reg == [] then Effects([], [], next)
    else
      var e0 := Resubscribe(reg[..|reg| - 1], next);
      var e1 := DoSubscribe(reg[|reg| - 1].topic, reg[|reg| - 1].handler, e0.next);
      Effects(e0.actions + e1.actions, e0.subs + e1.subs, e1.next)
  }

  function Apply(s: ServiceState, e: Effects): ServiceState {
    s.(actions := s.actions + e.actions, live := s.live + e.subs, nextSubId := e.next)
  }

  /** What a handler is first called with: `JSON.parse(body)`, or `body` itself when that throws. */
  function Decode(c: Codec, body: string): (d: Delivery)
    ensures d.Raw? ==> d.body == body && c.parse(body).None?
    ensures d.Parsed? ==> c.parse(body) == Some(d.value)
  {
    match c.parse(body)
    case Some(j) => Parsed(j)
    case None => Raw(body)
  }

  /**
   * The calls one handler gets for one frame. The `try` around the first call
   * also catches what the handler itself throws: a handler in `throwing` (one
   * that throws on this parsed body) is called a second time with the raw body.
   */
  function HandlerRuns(c: Codec, body: string, h: Handler, throwing: set<Handler>): (r: seq<Action>)
    ensures 1 <= |r| <= 2
    ensures r[0] == Delivered(h, Decode(c, body))
    ensures |r| == 2 <==> c.parse(body).Some? && h in throwing
    ensures |r| == 2 ==> r[1] == Delivered(h, Raw(body))
  {
    match c.parse(body)
    case Some(j) => [Delivered(h, Parsed(j))] + (if h in throwing then [Delivered(h, Raw(body))] else [])
    case None => [Delivered(h, Raw(body))]
  }

  /** The broker's fan-out of one message on `t`: the handler calls of each live subscription to `t`, in subscription order. */
  function Deliveries(live: seq<LiveSub>, t: Topic, c: Codec, body: string, throwing: set<Handler>): seq<Action> {
    if live == [] then []
    else
      var last := live[|live| - 1];
      Deliveries(live[..|live| - 1], t, c, body, throwing)
      + (if last.topic == t then HandlerRuns(c, body, last.handler, throwing) else [])
  }

  /** Live subscriptions without the one whose id is `id`. */
  function RemoveSub(live: seq<LiveSub>, id: nat): (r: seq<LiveSub>)
    ensures forall x :: x in r <==> x in live && x.id != id
  {
    if live == [] then []
    else RemoveSub(live[..|live| - 1], id) + (if live[|live| - 1].id == id then [] else [live[|live| - 1]])
  }

  // ---------------------------------------------------------------------------
  // The invariant and the steps
  // ---------------------------------------------------------------------------

  /**
   * What every reachable state satisfies: the client has a session only while
   * the service's flag is set (the converse fails after an abnormal close, which
   * does not run `onDisconnect`); it is never connecting while connected; while
   * connected nothing waits in the queue; anything that waits has a handshake
   * pending; the client holds no subscription without a session; one registry
   * entry per topic.
   */
  ghost predicate Inv(s: ServiceState) {
    && (s.clientConnected ==> s.connected)
    && (s.connecting ==> !s.connected)
    && (s.connected ==> s.callbacks == [])
    && (s.callbacks != [] ==> s.connecting)
    && (!s.clientConnected ==> s.live == [])
    && UniqueTopics(s.subscriptions)
  }

  function Empty(): ServiceState {
    ServiceState(false, false, [], [], false, false, [], 0, [])
  }

  /** The client's `activate()`. */
  function ActivateStep(s: ServiceState): ServiceState {
    s.(clientActive := true, actions := s.actions + [Activate])
  }

  /**
   * `connect(cb?)`. Callers pass their own callbacks; the service passes the
   * callback `subscribe` queues only while it is not connected.
   */
  function ConnectStep(s: ServiceState, cb: Option<Callback>): (r: ServiceState)
    ensures Inv(s) && (s.connected && cb.Some? ==> cb.value.Opaque?) ==> Inv(r)
    ensures r.subscriptions == s.subscriptions
    ensures s.connected && cb.Some? ==> r.callbacks == s.callbacks && r.connecting == s.connecting
    ensures s.connected && cb.Some? ==> r.actions == s.actions + RunCallback(cb.value, s.nextSubId).actions
    ensures s.connected && cb.None? ==> r == s
    ensures !s.connected ==> r.callbacks == s.callbacks + (if cb.Some? then [cb.value] else []) && r.connecting
    ensures !s.connected ==> r.actions == s.actions + (if s.connecting then [] else [Activate])
  {
    if s.connected && cb.Some? then Apply(s, RunCallback(cb.value, s.nextSubId))
    else
      var s1 := if cb.Some? then s.(callbacks := s.callbacks + [cb.value]) else s;
      if !s1.connected && !s1.connecting then ActivateStep(s1.(connecting := true)) else s1
  }

  /** The service as constructed: it connects at once. */
  function Initial(): (r: ServiceState)
    ensures Inv(r)
    ensures r.connecting && !r.connected && r.actions == [Activate] && r.callbacks == [] && r.subscriptions == []
    ensures r.live == [] && r.nextSubId == 0
  {
    ConnectStep(Empty(), None)
  }

  /**
   * `subscribe(t, h)`: the new state and the disposer returned, or `None` when
   * the call throws. The registry is written first; then the service's own
   * `connected` flag picks the path. On the connected path the client's
   * `subscribe` throws when the client has no session (after an abnormal close),
   * leaving the registry entry behind.
   */
  function SubscribeStep(s: ServiceState, t: Topic, h: Handler): (r: (ServiceState, Option<Disposer>))
    ensures Inv(s) ==> Inv(r.0)
    ensures r.0.subscriptions == Set(s.subscriptions, t, h)
    ensures s.connected && s.clientConnected ==>
              && r.1 == Some(Cancels(t, s.nextSubId))
              && r.0.live == s.live + [LiveSub(s.nextSubId, t, h)]
              && r.0.actions == s.actions + [BrokerSubscribe(s.nextSubId, t)]
              && r.0.callbacks == s.callbacks
    ensures s.connected && !s.clientConnected ==>
              && r.1.None?
              && r.0 == s.(subscriptions := Set(s.subscriptions, t, h))
    ensures !s.connected ==>
              && r.1 == Some(ForgetsOnly(t))
              && r.0.live == s.live
              && r.0.nextSubId == s.nextSubId
              && r.0.callbacks == s.callbacks + [SubscribeWhenReady(t, h)]
  {
    var s1 := s.(subscriptions := Set(s.subscriptions, t, h));
    if !s1.connected then (ConnectStep(s1, Some(SubscribeWhenReady(t, h))), Some(ForgetsOnly(t)))
    else if !s1.clientConnected then (s1, None)
    else (Apply(s1, DoSubscribe(t, h, s1.nextSubId)), Some(Cancels(t, s1.nextSubId)))
  }

  /**
   * `disposer.unsubscribe()`. The connected-path disposer first cancels at the
   * client, which throws when the client has no session; the registry entry is
   * then not deleted either.
   */
  function UnsubscribeStep(s: ServiceState, d: Disposer): (r: ServiceState)
    ensures Inv(s) ==> Inv(r)
    ensures r.callbacks == s.callbacks
    ensures d.ForgetsOnly? ==> r == s.(subscriptions := Delete(s.subscriptions, d.topic))
    ensures d.Cancels? && s.clientConnected ==>
              && r.subscriptions == Delete(s.subscriptions, d.topic)
              && (forall x :: x in r.live <==> x in s.live && x.id != d.subId)
              && r.actions == s.actions + [BrokerUnsubscribe(d.subId)]
    ensures d.Cancels? && !s.clientConnected ==> r == s
  {
    match d
    case Cancels(t, id) =>
      if !s.clientConnected then s
      else
        s.(live := RemoveSub(s.live, id), actions := s.actions + [BrokerUnsubscribe(id)],
           subscriptions := Delete(s.subscriptions, t))
    case ForgetsOnly(t) => s.(subscriptions := Delete(s.subscriptions, t))
  }

  /**
   * `send(destination, body)`: publish only when the client reports a session.
   * Otherwise the body is dropped and, unless a handshake is pending, `connect()`
   * runs, which activates the client only when the service's own flag is clear.
   */
  function SendStep(s: ServiceState, c: Codec, destination: string, body: Json): (r: ServiceState)
    ensures Inv(s) ==> Inv(r)
    ensures s.clientConnected ==> r == s.(actions := s.actions + [Publish(destination, c.stringify(body))])
    ensures !s.clientConnected && (s.connecting || s.connected) ==> r == s
    ensures !s.clientConnected && !s.connecting && !s.connected ==>
              r == ConnectStep(s, None) && r.actions == s.actions + [Activate] && r.connecting
  {
    if s.clientConnected then s.(actions := s.actions + [Publish(destination, c.stringify(body))])
    else if !s.connecting then ConnectStep(s, None)
    else s
  }

  /** The client's `deactivate()`; the session ends later, through `DropStep`. */
  function DisconnectStep(s: ServiceState): (r: ServiceState)
    ensures Inv(s) ==> Inv(r)
    ensures r == s.(clientActive := false, actions := s.actions + [Deactivate])
  {
    s.(clientActive := false, actions := s.actions + [Deactivate])
  }

  /** Handshake success: the client connects and `onConnect` runs. */
  function HandshakeStep(s: ServiceState): (r: ServiceState)
    ensures Inv(s) ==> Inv(r)
    ensures r.connected && !r.connecting && r.callbacks == [] && r.subscriptions == s.subscriptions
  {
    var s1 := s.(clientConnected := true, connected := true, connecting := false);
    var e1 := RunQueue(s.callbacks, s.nextSubId);
    var s2 := Apply(s1, e1).(callbacks := []);
    Apply(s2, Resubscribe(s.subscriptions, e1.next))
  }

  /** The session ends with the DISCONNECT receipt: the client loses its session and `onDisconnect` runs. */
  function DropStep(s: ServiceState): (r: ServiceState)
    ensures Inv(s) ==> Inv(r)
    ensures !r.connected && !r.clientConnected && r.live == []
    ensures r.connecting == s.connecting && r.subscriptions == s.subscriptions && r.callbacks == s.callbacks
    ensures r.actions == s.actions
  {
    s.(clientConnected := false, connected := false, live := [])
  }

  /**
   * The socket closes abnormally: the client loses its session and its
   * subscriptions, but `onDisconnect` does not run, so the service's own
   * `connected` flag stays as it was.
   */
  function AbortStep(s: ServiceState): (r: ServiceState)
    ensures Inv(s) ==> Inv(r)
    ensures !r.clientConnected && r.live == []
    ensures r.connected == s.connected && r.connecting == s.connecting
    ensures r.subscriptions == s.subscriptions && r.callbacks == s.callbacks && r.actions == s.actions
  {
    s.(clientConnected := false, live := [])
  }

  /**
   * One message published on `t` reaches every live subscription to `t`;
   * `throwing` are the handlers that throw on its parsed body.
   */
  function MessageStep(s: ServiceState, c: Codec, t: Topic, body: string, throwing: set<Handler>): (r: ServiceState)
    ensures r == s.(actions := r.actions)
    ensures |s.actions| + CountTopic(s.live, t) <= |r.actions| <= |s.actions| + 2 * CountTopic(s.live, t)
    ensures throwing == {} || c.parse(body).None? ==> |r.actions| == |s.actions| + CountTopic(s.live, t)
    ensures r.actions[..|s.actions|] == s.actions
    ensures forall i :: |s.actions| <= i < |r.actions| ==>
              && r.actions[i].Delivered?
              && (r.actions[i].payload == Decode(c, body) || r.actions[i].payload == Raw(body))
    ensures throwing == {} ==> forall i :: |s.actions| <= i < |r.actions| ==> r.actions[i].payload == Decode(c, body)
  {
    DeliveriesPerSubscription(s.live, t, c, body, throwing);
    DeliveriesCarryPayload(s.live, t, c, body, throwing);
    s.(actions := s.actions + Deliveries(s.live, t, c, body, throwing))
  }

  // ---------------------------------------------------------------------------
  // Properties
  // ---------------------------------------------------------------------------

  function CountActivations(acts: seq<Action>): nat {
    if acts == [] then 0
    else CountActivations(acts[..|acts| - 1]) + (if acts[|acts| - 1] == Activate then 1 else 0)
  }

  /** Several callers calling `connect(cb)` one after the other. */
  function ConnectAll(s: ServiceState, cbs: seq<Callback>): ServiceState
    decreases |cbs|
  {
    if cbs == [] then s else ConnectAll(ConnectStep(s, Some(cbs[0])), cbs[1..])
  }

  /** While a handshake is pending, further `connect(cb)` calls only queue their callbacks. */
  lemma {:induction false} PendingConnectsOnlyQueue(s: ServiceState, cbs: seq<Callback>)
    requires Inv(s) && !s.connected && s.connecting
    ensures var r := ConnectAll(s, cbs);
      && Inv(r) && r.connecting && !r.connected
      && r.callbacks == s.callbacks + cbs
      && r.actions == s.actions
    decreases |cbs|
  {
    if cbs != [] {
      var s1 := ConnectStep(s, Some(cbs[0]));
      PendingConnectsOnlyQueue(s1, cbs[1..]);
      assert [cbs[0]] + cbs[1..] == cbs;
    }
  }

  /**
   * Any number of `connect(cb)` calls before the handshake activate the client
   * at most once in all (exactly once when none was pending) and queue every
   * callback in call order.
   */
  lemma ConnectsCoalesce(s: ServiceState, cbs: seq<Callback>)
    requires Inv(s) && !s.connected && cbs != []
    ensures var r := ConnectAll(s, cbs);
      && r.connecting && !r.connected
      && r.callbacks == s.callbacks + cbs
      && r.actions == s.actions + (if s.connecting then [] else [Activate])
      && CountActivations(r.actions[|s.actions|..]) == if s.connecting then 0 else 1
  {
    var s1 := ConnectStep(s, Some(cbs[0]));
    PendingConnectsOnlyQueue(s1, cbs[1..]);
    assert [cbs[0]] + cbs[1..] == cbs;
    var r := ConnectAll(s, cbs);
    assert r.actions[|s.actions|..] == if s.connecting then [] else [Activate];
    assert [Activate][..0] == [];
  }

  /** The ids of the caller callbacks that ran, in order. */
  function RanIds(acts: seq<Action>): seq<nat> {
    if acts == [] then []
    else RanIds(acts[..|acts| - 1]) + (if acts[|acts| - 1].Ran? then [acts[|acts| - 1].callback] else [])
  }

  /** The ids of the caller callbacks in a queue, in order. */
  function OpaqueIds(cbs: seq<Callback>): seq<nat> {
    if cbs == [] then []
    else OpaqueIds(cbs[..|cbs| - 1]) + (if cbs[|cbs| - 1].Opaque? then [cbs[|cbs| - 1].id] else [])
  }

  lemma {:induction false} RanIdsAppend(a: seq<Action>, b: seq<Action>)
    ensures RanIds(a + b) == RanIds(a) + RanIds(b)
    decreases |b|
  {
    if b == [] {
      assert a + b == a;
    } else {
      assert (a + b)[..|a + b| - 1] == a + b[..|b| - 1];
      RanIdsAppend(a, b[..|b| - 1]);
    }
  }

  /** Draining the queue runs each caller callback exactly once, in the order they were queued. */
  lemma {:induction false} QueueRunsInOrder(cbs: seq<Callback>, next: nat)
    ensures RanIds(RunQueue(cbs, next).actions) == OpaqueIds(cbs)
    decreases |cbs|
  {
    if cbs != [] {
      var init := cbs[..|cbs| - 1];
      var e0 := RunQueue(init, next);
      QueueRunsInOrder(init, next);
      var e1 := RunCallback(cbs[|cbs| - 1], e0.next);
      RanIdsAppend(e0.actions, e1.actions);
      assert RanIds(e1.actions) == (if cbs[|cbs| - 1].Opaque? then [cbs[|cbs| - 1].id] else []) by {
        assert |e1.actions| == 1;
        assert e1.actions[..0] == [];
      }
    }
  }

  /** Resubscribing issues no caller callback. */
  lemma {:induction false} ResubscribeRunsNoCallback(reg: seq<Entry>, next: nat)
    ensures RanIds(Resubscribe(reg, next).actions) == []
    decreases |reg|
  {
    if reg != [] {
      var e0 := Resubscribe(reg[..|reg| - 1], next);
      ResubscribeRunsNoCallback(reg[..|reg| - 1], next);
      var e1 := DoSubscribe(reg[|reg| - 1].topic, reg[|reg| - 1].handler, e0.next);
      RanIdsAppend(e0.actions, e1.actions);
      assert e1.actions[..0] == [];
    }
  }

  /**
   * On handshake success every queued caller callback runs exactly once, in
   * FIFO order, and the queue is left empty.
   */
  lemma HandshakeDrainsQueueOnce(s: ServiceState)
    ensures var r := HandshakeStep(s);
      && r.callbacks == []
      && |r.actions| >= |s.actions|
      && RanIds(r.actions[|s.actions|..]) == OpaqueIds(s.callbacks)
  {
    var e1 := RunQueue(s.callbacks, s.nextSubId);
    var e2 := Resubscribe(s.subscriptions, e1.next);
    var r := HandshakeStep(s);
    assert r.actions == s.actions + e1.actions + e2.actions;
    assert r.actions[|s.actions|..] == e1.actions + e2.actions;
    RanIdsAppend(e1.actions, e2.actions);
    QueueRunsInOrder(s.callbacks, s.nextSubId);
    ResubscribeRunsNoCallback(s.subscriptions, e1.next);
  }

  /** Live subscriptions to `t`. */
  function CountTopic(live: seq<LiveSub>, t: Topic): nat {
    if live == [] then 0
    else CountTopic(live[..|live| - 1], t) + (if live[|live| - 1].topic == t then 1 else 0)
  }

  /** Queued `subscribe` callbacks for `t`. */
  function QueuedFor(cbs: seq<Callback>, t: Topic): nat {
    if cbs == [] then 0
    else QueuedFor(cbs[..|cbs| - 1], t) + (if cbs[|cbs| - 1].SubscribeWhenReady? && cbs[|cbs| - 1].topic == t then 1 else 0)
  }

  lemma {:induction false} CountTopicAppend(a: seq<LiveSub>, b: seq<LiveSub>, t: Topic)
    ensures CountTopic(a + b, t) == CountTopic(a, t) + CountTopic(b, t)
    decreases |b|
  {
    if b == [] {
      assert a + b == a;
    } else {
      assert (a + b)[..|a + b| - 1] == a + b[..|b| - 1];
      CountTopicAppend(a, b[..|b| - 1], t);
    }
  }

  lemma {:induction false} QueueSubscribesPerTopic(cbs: seq<Callback>, next: nat, t: Topic)
    ensures CountTopic(RunQueue(cbs, next).subs, t) == QueuedFor(cbs, t)
    decreases |cbs|
  {
    if cbs != [] {
      var e0 := RunQueue(cbs[..|cbs| - 1], next);
      QueueSubscribesPerTopic(cbs[..|cbs| - 1], next, t);
      var e1 := RunCallback(cbs[|cbs| - 1], e0.next);
      CountTopicAppend(e0.subs, e1.subs, t);
      assert e1.subs == [] || (|e1.subs| == 1 && e1.subs[..0] == []);
    }
  }

  lemma {:induction false} ResubscribePerTopic(reg: seq<Entry>, next: nat, t: Topic)
    requires UniqueTopics(reg)
    ensures CountTopic(Resubscribe(reg, next).subs, t) == if Lookup(reg, t).Some? then 1 else 0
    decreases |reg|
  {
    if reg != [] {
      var init := reg[..|reg| - 1];
      var last := reg[|reg| - 1];
      var e0 := Resubscribe(init, next);
      assert UniqueTopics(init);
      ResubscribePerTopic(init, next, t);
      var e1 := DoSubscribe(last.topic, last.handler, e0.next);
      assert Resubscribe(reg, next).subs == e0.subs + e1.subs;
      CountTopicAppend(e0.subs, e1.subs, t);
      assert CountTopic(e1.subs, t) == if last.topic == t then 1 else 0 by {
        assert e1.subs[..0] == [];
      }
      LookupLast(reg, t);
    }
  }

  /** With unique topics, the registry holds `t` in its last entry or, exclusively, before it. */
  lemma LookupLast(reg: seq<Entry>, t: Topic)
    requires UniqueTopics(reg) && reg != []
    ensures reg[|reg| - 1].topic == t ==> Lookup(reg, t).Some? && Lookup(reg[..|reg| - 1], t).None?
    ensures reg[|reg| - 1].topic != t ==> (Lookup(reg, t).Some? <==> Lookup(reg[..|reg| - 1], t).Some?)
  {
    var init := reg[..|reg| - 1];
    assert forall j :: 0 <= j < |init| ==> reg[j] == init[j];
    if reg[|reg| - 1].topic == t {
      assert forall j :: 0 <= j < |init| ==> init[j].topic != t by {
        forall j | 0 <= j < |init| ensures init[j].topic != t {
          assert reg[j] == init[j];
        }
      }
    }
  }

  /**
   * After a handshake, the broker subscriptions to `t` number the queued
   * `subscribe` callbacks for `t` plus one more if `t` is in the registry: a
   * topic subscribed while disconnected is subscribed twice, once by its queued
   * callback and once by the resubscription pass.
   */
  lemma HandshakeSubscriptionsPerTopic(s: ServiceState, t: Topic)
    requires Inv(s) && !s.connected
    ensures CountTopic(HandshakeStep(s).live, t) == QueuedFor(s.callbacks, t) + (if Lookup(s.subscriptions, t).Some? then 1 else 0)
  {
    var e1 := RunQueue(s.callbacks, s.nextSubId);
    var e2 := Resubscribe(s.subscriptions, e1.next);
    assert HandshakeStep(s).live == e1.subs + e2.subs;
    CountTopicAppend(e1.subs, e2.subs, t);
    QueueSubscribesPerTopic(s.callbacks, s.nextSubId, t);
    ResubscribePerTopic(s.subscriptions, e1.next, t);
  }

  /**
   * Subscribing once while the first handshake is pending ends, after the
   * handshake, with two broker subscriptions for the same topic and handler, so
   * one message on that topic reaches the handler twice.
   */
  lemma SubscribedWhileDisconnectedDeliversTwice(c: Codec, t: Topic, h: Handler, body: string)
    ensures var s0 := Initial();
      var s1 := SubscribeStep(s0, t, h).0;
      var s2 := HandshakeStep(s1);
      var s3 := MessageStep(s2, c, t, body, {});
      && s2.live == [LiveSub(0, t, h), LiveSub(1, t, h)]
      && s3.actions == s2.actions + [Delivered(h, Decode(c, body)), Delivered(h, Decode(c, body))]
  {
    var s0 := Initial();
    var s1 := SubscribeStep(s0, t, h).0;
    assert s1.subscriptions == [Entry(t, h)];
    assert s1.callbacks == [SubscribeWhenReady(t, h)];
    assert s1.live == [] && s1.nextSubId == 0;
    SingleCallback(SubscribeWhenReady(t, h), 0);
    var e1 := RunQueue(s1.callbacks, s1.nextSubId);
    assert e1 == Effects([BrokerSubscribe(0, t)], [LiveSub(0, t, h)], 1);
    SingleEntry(Entry(t, h), 1);
    var e2 := Resubscribe(s1.subscriptions, e1.next);
    assert e2.subs == [LiveSub(1, t, h)];
    var s2 := HandshakeStep(s1);
    assert s2.live == s1.live + e1.subs + e2.subs;
    TwoDeliveries(LiveSub(0, t, h), LiveSub(1, t, h), t, c, body);
  }

  /**
   * A caller callback that itself calls `subscribe`, queued by `connect` while
   * disconnected (the only queued callback). The drain runs it after the
   * handshake has set both flags, so its `subscribe` takes the connected path:
   * a registry write and a broker subscription. The resubscription pass that
   * follows reads the registry with that entry in it and subscribes the topic a
   * second time, with the same handler.
   */
  lemma ConnectThenSubscribeSubscribesTwice(s: ServiceState, t: Topic, h: Handler)
    requires Inv(s) && !s.connected && s.callbacks == []
    ensures var s1 := s.(clientConnected := true, connected := true, connecting := false);
      var s2 := SubscribeStep(s1, t, h).0;
      var s3 := Apply(s2, Resubscribe(s2.subscriptions, s2.nextSubId));
      && s2.subscriptions == Set(s.subscriptions, t, h)
      && CountTopic(s3.live, t) == 2
      && forall x :: x in s3.live && x.topic == t ==> x.handler == h
  {
    var s1 := s.(clientConnected := true, connected := true, connecting := false);
    var s2 := SubscribeStep(s1, t, h).0;
    var reg := s2.subscriptions;
    var e := Resubscribe(reg, s2.nextSubId);
    assert s2.live == [LiveSub(s.nextSubId, t, h)];
    assert CountTopic(s2.live, t) == 1 by {
      assert s2.live[..0] == [];
    }
    SetThenLookup(s.subscriptions, t, h);
    ResubscribePerTopic(reg, s2.nextSubId, t);
    CountTopicAppend(s2.live, e.subs, t);
    ResubscribeSubs(reg, s2.nextSubId);
    forall x | x in e.subs && x.topic == t ensures x.handler == h {
      var j :| 0 <= j < |e.subs| && e.subs[j] == x;
      assert reg[j].topic == t;
    }
  }

  lemma TwoDeliveries(a: LiveSub, b: LiveSub, t: Topic, c: Codec, body: string)
    requires a.topic == t && b.topic == t
    ensures Deliveries([a, b], t, c, body, {}) == [Delivered(a.handler, Decode(c, body)), Delivered(b.handler, Decode(c, body))]
  {
    assert [a, b][..1] == [a];
    assert [a][..0] == [];
    assert Deliveries([a], t, c, body, {}) == [Delivered(a.handler, Decode(c, body))];
  }

  lemma SingleCallback(cb: Callback, next: nat)
    ensures RunQueue([cb], next) == RunCallback(cb, next)
  {
    assert [cb][..0] == [];
  }

  lemma SingleEntry(e: Entry, next: nat)
    ensures Resubscribe([e], next) == DoSubscribe(e.topic, e.handler, next)
  {
    assert [e][..0] == [];
  }

  /**
   * The disposer returned while disconnected forgets the registry entry but
   * cannot withdraw the queued callback: after the handshake the topic is not in
   * the registry, yet the broker subscription is still made.
   */
  lemma DisconnectedDisposerLeaks(t: Topic, h: Handler)
    ensures var s0 := Initial();
      var (s1, d) := SubscribeStep(s0, t, h);
      var s2 := UnsubscribeStep(s1, d.value);
      var s3 := HandshakeStep(s2);
      && d == Some(ForgetsOnly(t))
      && Lookup(s3.subscriptions, t).None?
      && s3.live == [LiveSub(0, t, h)]
  {
    var s0 := Initial();
    var (s1, d) := SubscribeStep(s0, t, h);
    assert s1.subscriptions == [Entry(t, h)];
    var s2 := UnsubscribeStep(s1, d.value);
    assert s2.subscriptions == [];
    assert s2.callbacks == [SubscribeWhenReady(t, h)];
    SingleCallback(SubscribeWhenReady(t, h), 0);
  }

  /**
   * Subscribing to a topic a second time while connected re-points the registry
   * to the newer handler but leaves the first broker subscription in place: the
   * client then holds two more subscriptions to the topic, one per handler.
   */
  lemma SubscribeTwiceWhileConnected(s: ServiceState, t: Topic, h1: Handler, h2: Handler)
    requires Inv(s) && s.clientConnected
    ensures var s1 := SubscribeStep(s, t, h1).0;
      var s2 := SubscribeStep(s1, t, h2).0;
      && Lookup(s2.subscriptions, t) == Some(h2)
      && s2.live == s.live + [LiveSub(s.nextSubId, t, h1), LiveSub(s.nextSubId + 1, t, h2)]
      && CountTopic(s2.live, t) == CountTopic(s.live, t) + 2
  {
    var s1 := SubscribeStep(s, t, h1).0;
    var s2 := SubscribeStep(s1, t, h2).0;
    SetThenLookup(s1.subscriptions, t, h2);
    var added := [LiveSub(s.nextSubId, t, h1), LiveSub(s.nextSubId + 1, t, h2)];
    assert s2.live == s.live + added;
    CountTopicAppend(s.live, added, t);
    assert added[..1] == [added[0]];
    assert added[..1][..0] == [];
  }

  /**
   * End to end, with a lawful codec: a value `send` publishes while the client
   * has a session, once the broker relays that body on `t`, reaches every live
   * subscription to `t` parsed back to the value sent, when no handler throws.
   */
  lemma SentValueReachesSubscribers(s: ServiceState, c: Codec, destination: string, t: Topic, body: Json)
    requires Lawful(c) && s.clientConnected
    ensures var s1 := SendStep(s, c, destination, body);
      var s2 := MessageStep(s1, c, t, c.stringify(body), {});
      && s1.actions == s.actions + [Publish(destination, c.stringify(body))]
      && |s2.actions| == |s1.actions| + CountTopic(s.live, t)
      && forall i :: |s1.actions| <= i < |s2.actions| ==> s2.actions[i] .payload == Parsed(body)
  {
    assert c.parse(c.stringify(body)) == Some(body);
  }

  /**
   * A handler that throws on the parsed body is called again with the raw text;
   * one that does not is called once. Either way the parsed call comes first.
   */
  lemma ThrowingHandlerGetsRawRetry(s: ServiceState, c: Codec, t: Topic, h: Handler, body: string, j: Json, id: nat)
    requires c.parse(body) == Some(j) && s.live == [LiveSub(id, t, h)]
    ensures MessageStep(s, c, t, body, {h}).actions == s.actions + [Delivered(h, Parsed(j)), Delivered(h, Raw(body))]
    ensures MessageStep(s, c, t, body, {}).actions == s.actions + [Delivered(h, Parsed(j))]
  {
    SingleSubscriberRuns(s, c, t, h, body, {h}, id);
    SingleSubscriberRuns(s, c, t, h, body, {}, id);
    assert HandlerRuns(c, body, h, {h}) == [Delivered(h, Parsed(j)), Delivered(h, Raw(body))];
    assert HandlerRuns(c, body, h, {}) == [Delivered(h, Parsed(j))];
  }

  lemma SingleSubscriberRuns(s: ServiceState, c: Codec, t: Topic, h: Handler, body: string, throwing: set<Handler>, id: nat)
    requires s.live == [LiveSub(id, t, h)]
    ensures MessageStep(s, c, t, body, throwing).actions == s.actions + HandlerRuns(c, body, h, throwing)
  {
    assert s.live[..|s.live| - 1] == [];
    assert Deliveries(s.live, t, c, body, throwing) == HandlerRuns(c, body, h, throwing);
  }

  /** Deliveries of one message number at least one and at most two per live subscription to its topic; exactly one when no handler throws or the body does not parse. */
  lemma {:induction false} DeliveriesPerSubscription(live: seq<LiveSub>, t: Topic, c: Codec, body: string, throwing: set<Handler>)
    ensures CountTopic(live, t) <= |Deliveries(live, t, c, body, throwing)| <= 2 * CountTopic(live, t)
    ensures throwing == {} || c.parse(body).None? ==> |Deliveries(live, t, c, body, throwing)| == CountTopic(live, t)
    decreases |live|
  {
    if live != [] {
      DeliveriesPerSubscription(live[..|live| - 1], t, c, body, throwing);
    }
  }

  /** Every delivery of one message carries the decoded body or, on a retry, the raw body. */
  lemma {:induction false} DeliveriesCarryPayload(live: seq<LiveSub>, t: Topic, c: Codec, body: string, throwing: set<Handler>)
    ensures forall i :: 0 <= i < |Deliveries(live, t, c, body, throwing)| ==>
              && Deliveries(live, t, c, body, throwing)[i].Delivered?
              && (|| Deliveries(live, t, c, body, throwing)[i].payload == Decode(c, body)
                  || Deliveries(live, t, c, body, throwing)[i].payload == Raw(body))
    ensures throwing == {} ==> forall i :: 0 <= i < |Deliveries(live, t, c, body, throwing)| ==>
              Deliveries(live, t, c, body, throwing)[i].payload == Decode(c, body)
    decreases |live|
  {
    if live != [] {
      var init := live[..|live| - 1];
      var last := live[|live| - 1];
      DeliveriesCarryPayload(init, t, c, body, throwing);
      var d0 := Deliveries(init, t, c, body, throwing);
      var tail := if last.topic == t then HandlerRuns(c, body, last.handler, throwing) else [];
      assert Deliveries(live, t, c, body, throwing) == d0 + tail;
      forall i | 0 <= i < |tail|
        ensures tail[i].Delivered? && (tail[i].payload == Decode(c, body) || tail[i].payload == Raw(body))
        ensures throwing == {} ==> tail[i].payload == Decode(c, body)
      {
      }
      var d := d0 + tail;
      forall i | 0 <= i < |d|
        ensures d[i].Delivered? && (d[i].payload == Decode(c, body) || d[i].payload == Raw(body))
        ensures throwing == {} ==> d[i].payload == Decode(c, body)
      {
        if i < |d0| {
          assert d[i] == d0[i];
        } else {
          assert d[i] == tail[i - |d0|];
        }
      }
    }
  }

  /**
   * After an abnormal close `subscribe` and `send` part ways: the service's flag
   * still says connected, so `subscribe` takes the connected path, where the
   * client's `subscribe` throws (nothing is queued, nothing subscribed); `send`
   * reads the client's flag, publishes nothing, and its `connect()` activates
   * nothing because the service's flag is set. After a graceful drop the same
   * `subscribe` queues its callback instead.
   */
  lemma AbortedSubscribeAndSendDiverge(s: ServiceState, c: Codec, t: Topic, h: Handler, destination: string, body: Json)
    requires Inv(s) && s.clientConnected
    ensures var a := AbortStep(s);
      && a.connected && !a.clientConnected
      && SubscribeStep(a, t, h).1.None?
      && SubscribeStep(a, t, h).0.live == [] && SubscribeStep(a, t, h).0.callbacks == a.callbacks
      && SubscribeStep(a, t, h).0.actions == a.actions
      && SendStep(a, c, destination, body) == a
    ensures var g := DropStep(s);
      && SubscribeStep(g, t, h).1 == Some(ForgetsOnly(t))
      && SubscribeStep(g, t, h).0.callbacks == g.callbacks + [SubscribeWhenReady(t, h)]
  {
  }

  /** The resubscription pass subscribes the registry entries in order, with consecutive ids. */
  lemma {:induction false} ResubscribeSubs(reg: seq<Entry>, next: nat)
    ensures |Resubscribe(reg, next).subs| == |reg|
    ensures forall j :: 0 <= j < |reg| ==> Resubscribe(reg, next).subs[j] == LiveSub(next + j, reg[j].topic, reg[j].handler)
    decreases |reg|
  {
    if reg != [] {
      ResubscribeSubs(reg[..|reg| - 1], next);
    }
  }

  /**
   * A disposer returned on the connected path, called after the session ended,
   * throws at the client before it deletes the registry entry: nothing changes,
   * and the next handshake subscribes the handler again.
   */
  lemma StaleDisposerKeepsSubscription(s: ServiceState, t: Topic, h: Handler)
    requires Inv(s) && s.clientConnected
    ensures var (s1, d) := SubscribeStep(s, t, h);
      var s2 := DropStep(s1);
      && d == Some(Cancels(t, s.nextSubId))
      && UnsubscribeStep(s2, d.value) == s2
      && Lookup(HandshakeStep(s2).subscriptions, t) == Some(h)
      && exists x :: x in HandshakeStep(s2).live && x.topic == t && x.handler == h
  {
    var (s1, d) := SubscribeStep(s, t, h);
    var s2 := DropStep(s1);
    SetThenLookup(s.subscriptions, t, h);
    assert s2.subscriptions == Set(s.subscriptions, t, h) && s2.callbacks == [];
    HandshakeResubscribesEntry(s2, t, h);
  }

  /** With an empty queue, the handshake makes a live subscription for every registry entry. */
  lemma HandshakeResubscribesEntry(s: ServiceState, t: Topic, h: Handler)
    requires s.callbacks == [] && Lookup(s.subscriptions, t) == Some(h) && UniqueTopics(s.subscriptions)
    ensures exists x :: x in HandshakeStep(s).live && x.topic == t && x.handler == h
  {
    var reg := s.subscriptions;
    var k := IndexOf(reg, t);
    assert k >= 0 && reg[k] == Entry(t, h);
    var e1 := RunQueue(s.callbacks, s.nextSubId);
    var e2 := Resubscribe(reg, e1.next);
    ResubscribeSubs(reg, e1.next);
    assert HandshakeStep(s).live == s.live + e1.subs + e2.subs;
    assert e2.subs[k] in HandshakeStep(s).live;
  }

  lemma RunQueueSnoc(s: ServiceState, cbs: seq<Callback>, cb: Callback, next: nat)
    ensures Apply(Apply(s, RunQueue(cbs, next)), RunCallback(cb, RunQueue(cbs, next).next))
         == Apply(s, RunQueue(cbs + [cb], next))
  {
    var e0 := RunQueue(cbs, next);
    var e1 := RunCallback(cb, e0.next);
    assert (cbs + [cb])[..|cbs|] == cbs;
    assert RunQueue(cbs + [cb], next) == Effects(e0.actions + e1.actions, e0.subs + e1.subs, e1.next);
    assert s.actions + e0.actions + e1.actions == s.actions + (e0.actions + e1.actions);
    assert s.live + e0.subs + e1.subs == s.live + (e0.subs + e1.subs);
  }

  lemma ResubscribeSnoc(s: ServiceState, reg: seq<Entry>, e: Entry, next: nat)
    ensures Apply(Apply(s, Resubscribe(reg, next)), DoSubscribe(e.topic, e.handler, next + |reg|))
         == Apply(s, Resubscribe(reg + [e], next))
  {
    var e0 := Resubscribe(reg, next);
    var e1 := DoSubscribe(e.topic, e.handler, e0.next);
    assert (reg + [e])[..|reg|] == reg;
    assert Resubscribe(reg + [e], next) == Effects(e0.actions + e1.actions, e0.subs + e1.subs, e1.next);
    assert s.actions + e0.actions + e1.actions == s.actions + (e0.actions + e1.actions);
    assert s.live + e0.subs + e1.subs == s.live + (e0.subs + e1.subs);
  }

  // ---------------------------------------------------------------------------
  // The service object
  // ---------------------------------------------------------------------------

  class WebSocketService {
    var connected: bool
    var connecting: bool
    var subscriptions: seq<Entry>
    var connectionCallbacks: seq<Callback>
    // the STOMP client, seen from outside
    var clientActive: bool
    var clientConnected: bool
    var live: seq<LiveSub>
    var nextSubId: nat
    var actions: seq<Action>
    const codec: Codec

    function State(): ServiceState
      reads this
    {
      ServiceState(connected, connecting, subscriptions, connectionCallbacks,
                   clientActive, clientConnected, live, nextSubId, actions)
    }

    ghost predicate Valid()
      reads this
    {
      Inv(State())
    }

    /** Creating the service connects it at once. */
    constructor (codec: Codec)
      ensures Valid() && State() == Initial() && this.codec == codec
    {
      this.codec := codec;
      connected, connecting := false, false;
      subscriptions, connectionCallbacks := [], [];
      clientActive, clientConnected := false, false;
      live, nextSubId, actions := [], 0, [];
      new;
      Connect(None);
    }

    method ClientActivate()
      modifies this
      ensures State() == ActivateStep(old(State()))
    {
      clientActive := true;
      actions := actions + [Activate];
    }

    method DoSubscribeNow(t: Topic, h: Handler) returns (id: nat)
      modifies this
      ensures id == old(nextSubId)
      ensures State() == Apply(old(State()), DoSubscribe(t, h, old(nextSubId)))
    {
      id := nextSubId;
      actions := actions + [BrokerSubscribe(id, t)];
      live := live + [LiveSub(id, t, h)];
      nextSubId := nextSubId + 1;
    }

    method Run(cb: Callback)
      modifies this
      ensures State() == Apply(old(State()), RunCallback(cb, old(nextSubId)))
    {
      match cb
      case Opaque(id) =>
        actions := actions + [Ran(id)];
      case SubscribeWhenReady(t, h) =>
        var _ := DoSubscribeNow(t, h);
    }

    method Connect(cb: Option<Callback>)
      requires Valid() && (connected && cb.Some? ==> cb.value.Opaque?)
      modifies this
      ensures State() == ConnectStep(old(State()), cb)
      ensures Valid()
    {
      if connected && cb.Some? {
        Run(cb.value);
        return;
      }
      if cb.Some? {
        connectionCallbacks := connectionCallbacks + [cb.value];
      }
      if !connected && !connecting {
        connecting := true;
        ClientActivate();
      }
    }

    method Disconnect()
      requires Valid()
      modifies this
      ensures State() == DisconnectStep(old(State()))
      ensures Valid()
    {
      clientActive := false;
      actions := actions + [Deactivate];
    }

    /** `d` is `None` when the call throws. */
    method Subscribe(topic: Topic, handler: Handler) returns (d: Option<Disposer>)
      requires Valid()
      modifies this
      ensures (State(), d) == SubscribeStep(old(State()), topic, handler)
      ensures Valid()
    {
      subscriptions := Set(subscriptions, topic, handler);
      if !connected {
        Connect(Some(SubscribeWhenReady(topic, handler)));
        d := Some(ForgetsOnly(topic));
        return;
      }
      if !clientConnected {
        // the client's `subscribe` throws: no session
        d := None;
        return;
      }
      var id := DoSubscribeNow(topic, handler);
      d := Some(Cancels(topic, id));
    }

    method Unsubscribe(d: Disposer)
      requires Valid()
      modifies this
      ensures State() == UnsubscribeStep(old(State()), d)
      ensures Valid()
    {
      match d
      case Cancels(t, id) =>
        if !clientConnected {
          // the client's `unsubscribe` throws: no session
          return;
        }
        live := RemoveSub(live, id);
        actions := actions + [BrokerUnsubscribe(id)];
        subscriptions := Delete(subscriptions, t);
      case ForgetsOnly(t) =>
        subscriptions := Delete(subscriptions, t);
    }

    method Send(destination: string, body: Json)
      requires Valid()
      modifies this
      ensures State() == SendStep(old(State()), codec, destination, body)
      ensures Valid()
    {
      if clientConnected {
        actions := actions + [Publish(destination, codec.stringify(body))];
      } else if !connecting {
        Connect(None);
      }
    }

    /** The client's `onConnect`: mark connected, drain the queue, then resubscribe every registry entry. */
    method OnConnect()
      requires Valid() && clientActive && !clientConnected
      modifies this
      ensures State() == HandshakeStep(old(State()))
      ensures Valid()
    {
      clientConnected := true;
      connected := true;
      connecting := false;
      DrainCallbacks();
      ResubscribeAll();
    }

    /** `connectionCallbacks.forEach(cb => cb())`, then `connectionCallbacks = []`. */
    method DrainCallbacks()
      modifies this
      ensures State() == Apply(old(State()), RunQueue(old(connectionCallbacks), old(nextSubId))).(callbacks := [])
    {
      ghost var s := State();
      var cbs := connectionCallbacks;
      var i := 0;
      while i < |cbs|
        invariant 0 <= i <= |cbs|
        invariant State() == Apply(s, RunQueue(cbs[..i], s.nextSubId))
      {
        RunNext(s, cbs[..i], cbs[i]);
        assert cbs[..i] + [cbs[i]] == cbs[..i + 1];
        i := i + 1;
      }
      assert cbs[..i] == cbs;
      connectionCallbacks := [];
    }

    /** One step of the drain loop: the callback after those already run. */
    method RunNext(ghost s: ServiceState, ghost done: seq<Callback>, cb: Callback)
      requires State() == Apply(s, RunQueue(done, s.nextSubId))
      modifies this
      ensures State() == Apply(s, RunQueue(done + [cb], s.nextSubId))
    {
      Run(cb);
      RunQueueSnoc(s, done, cb, s.nextSubId);
    }

    /** `subscriptions.forEach((h, t) => doSubscribe(t, h))`. */
    method ResubscribeAll()
      modifies this
      ensures State() == Apply(old(State()), Resubscribe(old(subscriptions), old(nextSubId)))
    {
      ghost var s := State();
      var reg := subscriptions;
      var j := 0;
      while j < |reg|
        invariant 0 <= j <= |reg|
        invariant State() == Apply(s, Resubscribe(reg[..j], s.nextSubId))
      {
        ResubscribeNext(s, reg[..j], reg[j]);
        assert reg[..j] + [reg[j]] == reg[..j + 1];
        j := j + 1;
      }
      assert reg[..j] == reg;
    }

    /** One step of the resubscribe loop: the entry after those already done. */
    method ResubscribeNext(ghost s: ServiceState, ghost done: seq<Entry>, e: Entry)
      requires State() == Apply(s, Resubscribe(done, s.nextSubId))
      modifies this
      ensures State() == Apply(s, Resubscribe(done + [e], s.nextSubId))
    {
      var _ := DoSubscribeNow(e.topic, e.handler);
      ResubscribeSnoc(s, done, e, s.nextSubId);
    }

    /** The client's `onDisconnect` after the DISCONNECT receipt. */
    method OnDisconnect()
      requires Valid() && clientConnected
      modifies this
      ensures State() == DropStep(old(State()))
      ensures Valid()
    {
      clientConnected := false;
      live := [];
      connected := false;
    }

    /** The socket closes without a DISCONNECT receipt; `onDisconnect` does not run. */
    method OnAbnormalClose()
      requires Valid()
      modifies this
      ensures State() == AbortStep(old(State()))
      ensures Valid()
    {
      clientConnected := false;
      live := [];
    }

    /** A message published on `t` arrives on each live subscription to `t`; `throwing` are the handlers that throw on its parsed body. */
    method OnMessage(t: Topic, body: string, throwing: set<Handler>)
      requires Valid()
      modifies this
      ensures State() == MessageStep(old(State()), codec, t, body, throwing)
      ensures Valid()
    {
      actions := actions + Deliveries(live, t, codec, body, throwing);
    }
  }
}
