/**
 Session management and the control loop: `connectMQTT`, `setup` and `loop`.
 The radio, the broker and the MQTT client are oracles: whether the session
 was lost, whether the radio holds credentials, what a scan returns and
 whether the broker accepts the connection are inputs of each step. The
 effects on the outside world are returned as a sequence of actions.
 */
module Control {
  import opened Wrappers
  import opened Device
  import opened Command
  import opened Network

  const ClientId := "hobby-house"

  datatype Action =
    | Disconnect                  // mqtt.disconnect()
    | Radio(join: Join)           // WiFi.reconnect() or WiFi.begin(ssid, passphrase)
    | AwaitLink                   // the busy-wait until WiFi.status() reports connected
    | BrokerConnect(client: string)
    | Subscribe(topic: string)

  /** The MQTT session: down, or up with the topics subscribed on connecting. */
  datatype Session = Down | Up(topics: seq<string>)

  /** What the outside world answers during a step. */
  datatype Env = Env(stored: bool, scan: seq<Entry>, brokerAccepts: bool)

  datatype Node = Node(device: State, session: Session)

  /** The effect of one step: the new node and the actions performed, in order. */
  datatype Step = Step(node: Node, actions: seq<Action>)

  /** The topics a run of actions subscribes to, in order. */
  function Subscriptions(acts: seq<Action>): seq<string>
    decreases |acts|
  {
    if |acts| == 0 then []
    else (if acts[0].Subscribe? then [acts[0].topic] else []) + Subscriptions(acts[1..])
  }

  /** How many times `a` occurs in a run of actions. */
  function Count(acts: seq<Action>, a: Action): nat
    decreases |acts|
  {
    if |acts| == 0 then 0
    else (if acts[0] == a then 1 else 0) + Count(acts[1..], a)
  }

  /**
   connectWiFi: ask the radio to join, then wait until the link is up. The
   join reuses stored credentials exactly when there are some; otherwise it
   names Wario exactly when the scan heard Wario strictly louder.
   */
  function ConnectWiFiActions(env: Env): (acts: seq<Action>)
    ensures |acts| == 2 && acts[0].Radio?
    ensures acts[0] == Radio(ReconnectStored) <==> env.stored
    ensures acts[0] == Radio(Begin(Wario)) <==>
      !env.stored && LastStrength(env.scan, "Wario") > LastStrength(env.scan, "HobbyHouse")
    ensures acts[0] == Radio(Begin(HobbyHouse)) <==>
      !env.stored && LastStrength(env.scan, "Wario") <= LastStrength(env.scan, "HobbyHouse")
    ensures Count(acts, AwaitLink) == 1 && acts[|acts| - 1] == AwaitLink
  {
    var acts := [Radio(ConnectWiFi(env.stored, env.scan)), AwaitLink];
    assert acts[1..][1..] == [];
    assert Count(acts[1..], AwaitLink) == 1 + Count(acts[1..][1..], AwaitLink);
    acts
  }

  /** The outcome of connectMQTT: the session it leaves and the actions it performed. */
  datatype Opened = Opened(session: Session, actions: seq<Action>)

  /** connectMQTT: on an accepted connection, subscribe to the two topics. */
  function ConnectMqtt(accepts: bool): (o: Opened)
    ensures |o.actions| == (if accepts then 3 else 1) && o.actions[0] == BrokerConnect(ClientId)
    ensures Count(o.actions, BrokerConnect(ClientId)) == 1
    ensures Count(o.actions, Disconnect) == 0
    ensures Subscriptions(o.actions) == (if accepts then [SecurityTopic, LightsTopic] else [])
    ensures o.session.Up? <==> accepts
    ensures o.session.Up? ==> o.session.topics == Subscriptions(o.actions)
  {
    var connect := [BrokerConnect(ClientId)];
    var subscribe := [Subscribe(SecurityTopic), Subscribe(LightsTopic)];
    SubscribeBoth();
    NotCounted(connect, Disconnect);
    NoSubscriptions(connect);
    AppendSubscriptions(connect, subscribe);
    AppendCount(connect, subscribe, Disconnect);
    AppendCount(connect, subscribe, BrokerConnect(ClientId));
    if accepts then Opened(Up([SecurityTopic, LightsTopic]), connect + subscribe)
    else Opened(Down, connect)
  }

  lemma SubscribeBoth()
    ensures var subscribe := [Subscribe(SecurityTopic), Subscribe(LightsTopic)];
      && Subscriptions(subscribe) == [SecurityTopic, LightsTopic]
      && Count(subscribe, BrokerConnect(ClientId)) == 0
      && Count(subscribe, Disconnect) == 0
  {
    var subscribe := [Subscribe(SecurityTopic), Subscribe(LightsTopic)];
    assert subscribe[1..][1..] == [];
    assert Subscriptions(subscribe[1..]) == [LightsTopic] + Subscriptions(subscribe[1..][1..]);
    NotCounted(subscribe, BrokerConnect(ClientId));
    NotCounted(subscribe, Disconnect);
  }

  /** Joining the radio (`join`) before connectMQTT: the shape of every connect sequence. */
  lemma {:induction false} JoinThenOpen(pre: seq<Action>, join: Join, accepts: bool)
    requires forall i | 0 <= i < |pre| :: pre[i] == Disconnect
    ensures var acts := pre + [Radio(join), AwaitLink] + ConnectMqtt(accepts).actions;
      && |acts| == |pre| + 3 + (if accepts then 2 else 0)
      && acts[|pre|] == Radio(join) && acts[|pre| + 1] == AwaitLink
      && acts[|pre| + 2] == BrokerConnect(ClientId)
      && Count(acts, Disconnect) == |pre|
      && Count(acts, BrokerConnect(ClientId)) == 1
      && Subscriptions(acts) == (if accepts then [SecurityTopic, LightsTopic] else [])
  {
    var rejoin := [Radio(join), AwaitLink];
    var mqtt := ConnectMqtt(accepts).actions;
    NotCounted(rejoin, Disconnect);
    NotCounted(rejoin, BrokerConnect(ClientId));
    NoSubscriptions(rejoin);
    NotCounted(pre, BrokerConnect(ClientId));
    NoSubscriptions(pre);
    AllCounted(pre, Disconnect);
    AppendSubscriptions(pre, rejoin);
    AppendCount(pre, rejoin, Disconnect);
    AppendCount(pre, rejoin, BrokerConnect(ClientId));
    AppendSubscriptions(pre + rejoin, mqtt);
    AppendCount(pre + rejoin, mqtt, Disconnect);
    AppendCount(pre + rejoin, mqtt, BrokerConnect(ClientId));
  }

  /**
   The recovery sequence that follows a lost session: the client is
   disconnected first, the radio rejoins and the link comes up, and only then
   is the broker contacted and the two topics subscribed.
   */
  function Reconnect(device: State, env: Env): (st: Step)
    ensures st.node.device == device
    ensures st.node.session.Up? <==> env.brokerAccepts
    ensures st.node.session.Up? ==> st.node.session.topics == [SecurityTopic, LightsTopic]
    ensures var acts := st.actions;
      && |acts| == 4 + (if env.brokerAccepts then 2 else 0)
      && acts[0] == Disconnect
      && acts[1] == Radio(ConnectWiFi(env.stored, env.scan))
      && acts[2] == AwaitLink
      && acts[3] == BrokerConnect(ClientId)
      && Count(acts, Disconnect) == 1
      && Count(acts, BrokerConnect(ClientId)) == 1
      && Subscriptions(acts) == (if env.brokerAccepts then [SecurityTopic, LightsTopic] else [])
  {
    var mqtt := ConnectMqtt(env.brokerAccepts);
    var join := ConnectWiFi(env.stored, env.scan);
    var wifi := ConnectWiFiActions(env);
    assert wifi == [Radio(join), AwaitLink];
    JoinThenOpen([Disconnect], join, env.brokerAccepts);
    Step(Node(device, mqtt.session), [Disconnect] + wifi + mqtt.actions)
  }

  /**
   setup: arm the relay, show the lights from the globals, join a network by
   scanning (WiFi.disconnect() has just cleared any stored credentials), then
   open the MQTT session.
   */
  function Setup(env: Env): (st: Step)
    ensures st.node.device == Boot()
    ensures |st.actions| == 3 + (if env.brokerAccepts then 2 else 0)
    ensures st.actions[0] == Radio(ConnectWiFi(false, env.scan))
    ensures st.actions[1] == AwaitLink && st.actions[2] == BrokerConnect(ClientId)
    ensures Count(st.actions, BrokerConnect(ClientId)) == 1
    ensures Count(st.actions, Disconnect) == 0
    ensures Subscriptions(st.actions) == (if env.brokerAccepts then [SecurityTopic, LightsTopic] else [])
    ensures st.node.session.Up? <==> env.brokerAccepts
  {
    var mqtt := ConnectMqtt(env.brokerAccepts);
    var join := ConnectWiFi(false, env.scan);
    var wifi := ConnectWiFiActions(env.(stored := false));
    assert wifi == [] + [Radio(join), AwaitLink];
    JoinThenOpen([], join, env.brokerAccepts);
    Step(Node(Boot(), mqtt.session), wifi + mqtt.actions)
  }

  /**
   loop: let the client deliver what has arrived (nothing when the session is
   down), then, when the client no longer reports a connection, recover.
   `lost` says the transport dropped an up session during this step.
   */
  function Tick(n: Node, inbox: seq<Msg>, lost: bool, env: Env): (st: Step)
    ensures n.session.Down? ==> st.node.device == n.device
    ensures n.session.Up? ==> st.node.device == Replay(n.device, inbox)
    ensures n.session.Up? && !lost ==> st.actions == [] && st.node.session == n.session
    ensures n.session.Down? || lost ==> st == Reconnect(st.node.device, env)
  {
    var device := if n.session.Up? then Replay(n.device, inbox) else n.device;
    if n.session.Up? && !lost then Step(n.(device := device), [])
    else Reconnect(device, env)
  }

  /** The node invariant: consistent outputs, light enabled, and a session subscribed to both topics. */
  predicate Good(n: Node) {
    && Consistent(n.device)
    && n.device.enabled
    && (n.session.Up? ==> n.session.topics == [SecurityTopic, LightsTopic])
  }

  /** One loop input: what arrives, whether the session drops, what the world answers. */
  datatype Input = Input(inbox: seq<Msg>, lost: bool, env: Env)

  /** The node after a run of loop iterations. */
  function Run(n: Node, ins: seq<Input>): (r: Node)
    ensures Good(n) ==> Good(r)
    ensures r.device.enabled == n.device.enabled
    decreases |ins|
  {
    if |ins| == 0 then n
    else
      Run(Tick(n, ins[0].inbox, ins[0].lost, ins[0].env).node, ins[1..])
  }

  /** setup leaves the node in the invariant. */
  lemma SetupIsGood(env: Env)
    ensures Good(Setup(env).node)
  {
  }

  /** Collecting subscriptions distributes over concatenation. */
  lemma {:induction false} AppendSubscriptions(a: seq<Action>, b: seq<Action>)
    ensures Subscriptions(a + b) == Subscriptions(a) + Subscriptions(b)
    decreases |a|
  {
    if |a| == 0 {
      assert a + b == b;
    } else {
      assert (a + b)[1..] == a[1..] + b;
      AppendSubscriptions(a[1..], b);
    }
  }

  /** Counting an action distributes over concatenation. */
  lemma {:induction false} AppendCount(a: seq<Action>, b: seq<Action>, x: Action)
    ensures Count(a + b, x) == Count(a, x) + Count(b, x)
    decreases |a|
  {
    if |a| == 0 {
      assert a + b == b;
    } else {
      assert (a + b)[1..] == a[1..] + b;
      AppendCount(a[1..], b, x);
    }
  }

  /** A run of actions without `a` counts no `a`. */
  lemma {:induction false} NotCounted(acts: seq<Action>, a: Action)
    requires forall i | 0 <= i < |acts| :: acts[i] != a
    ensures Count(acts, a) == 0
    decreases |acts|
  {
    if |acts| > 0 {
      NotCounted(acts[1..], a);
    }
  }

  /** A run made only of `a` counts its length. */
  lemma {:induction false} AllCounted(acts: seq<Action>, a: Action)
    requires forall i | 0 <= i < |acts| :: acts[i] == a
    ensures Count(acts, a) == |acts|
    decreases |acts|
  {
    if |acts| > 0 {
      AllCounted(acts[1..], a);
    }
  }

  /** A run of actions without subscriptions subscribes nothing. */
  lemma {:induction false} NoSubscriptions(acts: seq<Action>)
    requires forall i | 0 <= i < |acts| :: !acts[i].Subscribe?
    ensures Subscriptions(acts) == []
    decreases |acts|
  {
    if |acts| > 0 {
      NoSubscriptions(acts[1..]);
    }
  }

  /** While the session is down, nothing that arrives reaches the device. */
  lemma OutageDropsMessages(n: Node, inbox: seq<Msg>, lost: bool, env: Env)
    requires n.session.Down?
    ensures Tick(n, inbox, lost, env).node.device == n.device
  {
  }
}
