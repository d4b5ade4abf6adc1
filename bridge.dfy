/**
 * The server process's mutable state: the MQTT client it subscribes and
 * publishes on, and the global `trained_agent`. `on_connect` and `on_message`
 * are methods that update it; the opaque collaborators are fixed at creation.
 */
module MqttBridge {
  import opened Wrappers
  import opened JsonValues
  import opened AgentInference

  class Bridge {
    /** `msg.payload.decode()` followed by `json.loads`; `None` when either raises. */
    const decode: Bytes -> Option<Json>
    /** Python's `float()`; `None` when it raises. */
    const toFloat: Json -> Option<Num>
    /** `trained_agent._execute` of the agent that `init_runtime` installs. */
    const execute: seq<Num> -> Result<AgentOutput, string>

    /** Whether the global `trained_agent` has been set (it starts as `None`). */
    var agentReady: bool
    /** The SUBSCRIBE requests issued on the client, oldest first. */
    var subscriptions: seq<Subscription>
    /** The PUBLISH requests issued on the client, oldest first. */
    var published: seq<Publication>

    /** Every CONNACK return code delivered to `on_connect`. */
    ghost var acks: seq<int>
    /** Every payload delivered to `on_message`, with the agent's readiness at that moment. */
    ghost var received: seq<(bool, Bytes)>

    /** The client's requests are exactly those the delivered events call for. */
    ghost predicate Valid()
      reads this
    {
      subscriptions == Subscriptions(acks) &&
      published == Replay(received, decode, toFloat, execute)
    }

    constructor (decode: Bytes -> Option<Json>, toFloat: Json -> Option<Num>,
                 execute: seq<Num> -> Result<AgentOutput, string>)
      ensures Valid()
      ensures this.decode == decode && this.toFloat == toFloat && this.execute == execute
      ensures !agentReady && subscriptions == [] && published == []
      ensures acks == [] && received == []
    {
      this.decode, this.toFloat, this.execute := decode, toFloat, execute;
      agentReady := false;
      subscriptions, published := [], [];
      acks, received := [], [];
    }

    /** The outcome of a successful `init_runtime`: `trained_agent` is set. */
    method LoadAgent()
      requires Valid()
      modifies this
      ensures Valid()
      ensures agentReady
      ensures subscriptions == old(subscriptions) && published == old(published)
      ensures acks == old(acks) && received == old(received)
    {
      agentReady := true;
    }

    /**
     * `on_connect`: a return code of 0 subscribes to the observation topic at
     * QoS 2; any other code only logs why the connection failed.
     */
    method OnConnect(rc: int) returns (log: seq<LogEntry>)
      requires Valid()
      modifies this
      ensures Valid()
      ensures log == ConnectLog(rc)
      ensures subscriptions ==
        if rc == 0 then old(subscriptions) + [Subscription(MQTT_TOPIC_OBSERVATION, MQTT_QOS)]
        else old(subscriptions)
      ensures published == old(published) && agentReady == old(agentReady)
      ensures acks == old(acks) + [rc] && received == old(received)
    {
      acks := acks + [rc];
      if rc == 0 {
        log := [Info(CONNECTION_RESPONSES[rc])];
        subscriptions := subscriptions + [Subscription(MQTT_TOPIC_OBSERVATION, MQTT_QOS)];
        log := log + [Info("Subscribed to " + MQTT_TOPIC_OBSERVATION)];
      } else {
        log := [Error("Connection failed: " + ConnectFailureReason(rc))];
      }
      assert acks[..|acks| - 1] == old(acks);
    }

    /**
     * `on_message`: decode the payload, take its `observation`, run it through
     * `process_observation`, and publish `{"action": a}` when that yields an
     * action. Every failure ends the call normally with nothing published.
     */
    method OnMessage(payload: Bytes) returns (outcome: MessageOutcome)
      requires Valid()
      modifies this
      ensures Valid()
      ensures outcome == HandleMessage(old(agentReady), payload, decode, toFloat, execute)
      ensures published == old(published) + Emitted(outcome)
      ensures subscriptions == old(subscriptions) && agentReady == old(agentReady)
      ensures acks == old(acks) && received == old(received) + [(old(agentReady), payload)]
    {
      received := received + [(agentReady, payload)];
      assert received[..|received| - 1] == old(received);
      var data := decode(payload);
      if data.None? {
        outcome := Undecodable;
        return;
      }
      if !data.value.JObject? {
        outcome := NotAnObject;
        return;
      }
      var observation := Get(data.value.fields, "observation");
      if !Truthy(observation) {
        outcome := NoObservation;
        return;
      }
      var action := ProcessObservation(agentReady, observation, toFloat, execute);
      if action.None? {
        outcome := NoAction;
      } else if action.value.Foreign? {
        outcome := SerializationFailed;
      } else {
        var message := ActionMessage(action.value.value);
        published := published + [message];
        outcome := Published(message);
      }
    }
  }
}
