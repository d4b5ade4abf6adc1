/**
 * The observation -> action dispatch of the agent server, as pure functions:
 * the connect-ack table, the fixed-order vectorizer and readiness gate of
 * `process_observation`, and the decode / validate / process / publish
 * pipeline of `on_message`. The broker, `json.loads`, Python's `float()` and
 * the agent's `_execute` are parameters of these functions.
 */
module AgentInference {
  import opened Wrappers
  import opened JsonValues
  import opened Decimal

  const MQTT_TOPIC_OBSERVATION: string := "agent/observation"
  const MQTT_TOPIC_ACTION: string := "agent/action"
  const MQTT_QOS: int := 2

  /** The observation fields, in the order the agent's input vector lists them. */
  const OBSERVATION_KEYS: seq<string> :=
    ["T", "Tc", "Ca", "Cref", "Tref", "Conc_Error", "Eps_Yield", "Cb_Prod"]

  /** The text logged for each CONNACK return code the server knows. */
  const CONNECTION_RESPONSES: map<int, string> := map[
    0 := "Connected successfully",
    1 := "Incorrect protocol version",
    2 := "Invalid client identifier",
    3 := "Server unavailable",
    4 := "Bad username or password",
    5 := "Not authorized"]

  /** A SUBSCRIBE request issued on the client. */
  datatype Subscription = Subscription(topic: string, qos: int)

  /** A PUBLISH issued on the client; `payload` is the value handed to `json.dumps`. */
  datatype Publication = Publication(topic: string, payload: Json, qos: int)

  datatype LogEntry = Info(text: string) | Error(text: string)

  /**
   * What `trained_agent._execute` returns: a numpy array, a plain Python value
   * that `json.dumps` can serialize (`Plain(JNull)` is `None`), or some other
   * object that `json.dumps` rejects.
   */
  datatype AgentOutput = NdArray(elements: seq<Num>) | Plain(value: Json) | Foreign

  /** How one call of `on_message` ended. Only `Published` sends anything. */
  datatype MessageOutcome =
    | Published(publication: Publication)
    | Undecodable          // payload.decode() or json.loads raised
    | NotAnObject          // the document has no `.get`
    | NoObservation        // the `observation` field is absent or falsy
    | NoAction             // process_observation returned None
    | SerializationFailed  // json.dumps raised on the action

  // ---------------------------------------------------------------- on_connect

  /** Why a connection failed: the table text for a known code, otherwise "Unknown error" with the code. */
  function ConnectFailureReason(rc: int): (s: string)
    ensures rc in CONNECTION_RESPONSES ==> s == CONNECTION_RESPONSES[rc]
    ensures rc !in CONNECTION_RESPONSES ==> s == "Unknown error (" + IntToDecimal(rc) + ")"
  {
    if rc in CONNECTION_RESPONSES then CONNECTION_RESPONSES[rc]
    else "Unknown error (" + IntToDecimal(rc) + ")"
  }

  /** The lines `on_connect` logs for return code `rc`. */
  function ConnectLog(rc: int): (log: seq<LogEntry>)
    ensures rc == 0 ==> |log| == 2 && log[0].Info? && log[1].Info?
    ensures rc != 0 ==> log == [Error("Connection failed: " + ConnectFailureReason(rc))]
  {
    if rc == 0 then [Info(CONNECTION_RESPONSES[rc]), Info("Subscribed to " + MQTT_TOPIC_OBSERVATION)]
    else [Error("Connection failed: " + ConnectFailureReason(rc))]
  }

  /** The subscriptions a sequence of CONNACKs causes: one per successful ack. */
  function Subscriptions(acks: seq<int>): (subs: seq<Subscription>)
    ensures |subs| <= |acks|
    ensures forall k :: 0 <= k < |subs| ==> subs[k] == Subscription(MQTT_TOPIC_OBSERVATION, MQTT_QOS)
    decreases |acks|
  {
    if acks == [] then []
    else
      var rc := acks[|acks| - 1];
      Subscriptions(acks[..|acks| - 1])
        + (if rc == 0 then [Subscription(MQTT_TOPIC_OBSERVATION, MQTT_QOS)] else [])
  }

  // ------------------------------------------------------ process_observation

  /**
   * The values under `keys`, each converted by `float`, in key order,
   * or `None` when a key is missing (KeyError) or `float` rejects its value.
   */
  function VectorizeKeys(keys: seq<string>, fields: map<string, Json>, toFloat: Json -> Option<Num>)
    : (r: Option<seq<Num>>)
    ensures r.Some? <==> forall i :: 0 <= i < |keys| ==> keys[i] in fields && toFloat(fields[keys[i]]).Some?
    ensures r.Some? ==> |r.value| == |keys|
    ensures r.Some? ==> forall i :: 0 <= i < |keys| ==> toFloat(fields[keys[i]]) == Some(r.value[i])
    decreases |keys|
  {
    if keys == [] then Some([])
    else if keys[0] !in fields then None
    else
      match toFloat(fields[keys[0]])
      case None => None
      case Some(x) =>
        match VectorizeKeys(keys[1..], fields, toFloat)
        case None => None
        case Some(rest) => Some([x] + rest)
  }

  /**
   * The vector `process_observation` builds from an observation: subscripting
   * anything but a dict raises, as does a missing key or an unconvertible value.
   */
  function Vectorize(observation: Json, toFloat: Json -> Option<Num>): (r: Option<seq<Num>>)
    ensures r.Some? <==>
      observation.JObject? &&
      forall i :: 0 <= i < |OBSERVATION_KEYS| ==>
        OBSERVATION_KEYS[i] in observation.fields && toFloat(observation.fields[OBSERVATION_KEYS[i]]).Some?
    ensures r.Some? ==> |r.value| == 8
    ensures r.Some? ==>
      forall i :: 0 <= i < 8 ==> toFloat(observation.fields[OBSERVATION_KEYS[i]]) == Some(r.value[i])
  {
    match observation
    case JObject(fields) => VectorizeKeys(OBSERVATION_KEYS, fields, toFloat)
    case _ => None
  }

  /** Turns a numpy array result into a list of its elements; any other result passes through. */
  function ToList(action: AgentOutput): (r: AgentOutput)
    ensures !r.NdArray?
    ensures !action.NdArray? ==> r == action
    ensures action.NdArray? ==>
      r.Plain? && r.value.JArray? && |r.value.items| == |action.elements| &&
      forall i :: 0 <= i < |action.elements| ==> r.value.items[i] == JNum(action.elements[i])
  {
    match action
    case NdArray(elements) => Plain(JArray(seq(|elements|, i requires 0 <= i < |elements| => JNum(elements[i]))))
    case _ => action
  }

  /**
   * `process_observation`: `None` unless the agent is loaded, the observation
   * vectorizes and the agent returns something other than `None`; then the
   * agent's output with arrays turned into lists.
   */
  function ProcessObservation(
    ready: bool, observation: Json,
    toFloat: Json -> Option<Num>, execute: seq<Num> -> Result<AgentOutput, string>)
    : (r: Option<AgentOutput>)
    ensures !ready ==> r.None?
    ensures Vectorize(observation, toFloat).None? ==> r.None?
    ensures r.Some? ==> !r.value.NdArray? && r.value != Plain(JNull)
    ensures r.Some? <==>
      ready && Vectorize(observation, toFloat).Some? &&
      execute(Vectorize(observation, toFloat).value).Success? &&
      execute(Vectorize(observation, toFloat).value).value != Plain(JNull)
    ensures r.Some? ==> r.value == ToList(execute(Vectorize(observation, toFloat).value).value)
  {
    if !ready then None
    else
      match Vectorize(observation, toFloat)
      case None => None
      case Some(vector) =>
        match execute(vector)
        case Failure(_) => None
        case Success(action) => if action == Plain(JNull) then None else Some(ToList(action))
  }

  // --------------------------------------------------------------- on_message

  /** The message `on_message` publishes for action `a`: `{"action": a}` on the action topic. */
  function ActionMessage(a: Json): (p: Publication)
    ensures IsActionMessage(p) && p.payload.fields["action"] == a
  {
    Publication(MQTT_TOPIC_ACTION, JObject(map["action" := a]), MQTT_QOS)
  }

  /** A publication of the one shape `on_message` ever sends. */
  predicate IsActionMessage(p: Publication) {
    p.topic == MQTT_TOPIC_ACTION && p.qos == MQTT_QOS &&
    p.payload.JObject? && p.payload.fields.Keys == {"action"}
  }

  /**
   * One run of `on_message` on `payload`, with the agent loaded or not:
   * decode, look up `observation`, process it, and publish at most once.
   */
  function HandleMessage(
    ready: bool, payload: Bytes, decode: Bytes -> Option<Json>,
    toFloat: Json -> Option<Num>, execute: seq<Num> -> Result<AgentOutput, string>)
    : (r: MessageOutcome)
    ensures decode(payload).None? ==> r == Undecodable
    ensures decode(payload).Some? && !decode(payload).value.JObject? ==> r == NotAnObject
    ensures (decode(payload).Some? && decode(payload).value.JObject? &&
             !Truthy(Get(decode(payload).value.fields, "observation"))) ==> r == NoObservation
    ensures !ready ==> !r.Published?
    ensures r.Published? ==> IsActionMessage(r.publication)
    ensures r.Published? ==>
      decode(payload).Some? && decode(payload).value.JObject? &&
      ProcessObservation(ready, Get(decode(payload).value.fields, "observation"), toFloat, execute)
        == Some(Plain(r.publication.payload.fields["action"]))
    ensures decode(payload).Some? && decode(payload).value.JObject? ==>
      var processed := ProcessObservation(ready, Get(decode(payload).value.fields, "observation"), toFloat, execute);
      (processed.Some? && processed.value.Plain? ==> r == Published(ActionMessage(processed.value.value))) &&
      (processed == Some(Foreign) ==> r == SerializationFailed)
  {
    match decode(payload)
    case None => Undecodable
    case Some(data) =>
      if !data.JObject? then NotAnObject
      else
        var observation := Get(data.fields, "observation");
        if !Truthy(observation) then NoObservation
        else
          match ProcessObservation(ready, observation, toFloat, execute)
          case None => NoAction
          case Some(action) =>
            if action.Foreign? then SerializationFailed else Published(ActionMessage(action.value))
  }

  /** What one outcome adds to the client's outgoing messages. */
  function Emitted(outcome: MessageOutcome): (sent: seq<Publication>)
    ensures |sent| <= 1
    ensures |sent| == 1 <==> outcome.Published?
  {
    if outcome.Published? then [outcome.publication] else []
  }

  /**
   * The messages published while the network loop delivers `received` to
   * `on_message` one after another; each entry records whether the agent was
   * loaded when that message arrived.
   */
  function Replay(
    received: seq<(bool, Bytes)>, decode: Bytes -> Option<Json>,
    toFloat: Json -> Option<Num>, execute: seq<Num> -> Result<AgentOutput, string>)
    : (sent: seq<Publication>)
    ensures |sent| <= |received|
    ensures forall k :: 0 <= k < |sent| ==> IsActionMessage(sent[k])
    decreases |received|
  {
    if received == [] then []
    else
      var last := received[|received| - 1];
      Replay(received[..|received| - 1], decode, toFloat, execute)
        + Emitted(HandleMessage(last.0, last.1, decode, toFloat, execute))
  }
}
