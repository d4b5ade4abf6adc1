# Agent MQTT bridge: observation → action dispatch

This project models the dispatch logic of the agent server in
`agent_inference.py`. The server subscribes to `agent/observation` on an MQTT
broker. For each observation message it builds the 8-entry input vector of a
pre-trained Composabl agent, runs the agent, and publishes `{"action": a}` on
`agent/action`. Both topics use QoS 2.

The model has three parts.

- The CONNACK handler `on_connect` logs a fixed text per return code. Code 0
  subscribes to the observation topic. Any other code logs the table entry or
  `Unknown error (rc)`.
- `process_observation` returns nothing while the agent is not loaded. Otherwise
  it reads `T, Tc, Ca, Cref, Tref, Conc_Error, Eps_Yield, Cb_Prod` in that order
  through Python's `float`, calls the agent, and turns an ndarray into a list.
  Every exception becomes `None`.
- `on_message` decodes the payload and looks up `observation`. It processes the
  observation and publishes at most once. No exception leaves the handler.

Files:

- `wrappers.dfy`: `Option` and `Result`.
- `json.dfy`: the Python values `json.loads` yields, Python truthiness and `dict.get`.
- `decimal.dfy`: `str(int)` for the unknown-code log text, and its inverse.
- `agent_inference.dfy`: the source's constants and the pure model of the
  three callbacks (`ConnectLog`, `Vectorize`, `ProcessObservation`,
  `HandleMessage`). It also holds `Replay` and `Subscriptions`, which give what
  a sequence of callbacks sends.
- `properties.dfy`: lemmas that state when a message publishes and what it
  publishes.
- `bridge.dfy`: class `Bridge`. It holds the client's subscriptions and
  publications and the `trained_agent` readiness flag. `OnConnect` and
  `OnMessage` update them. `Valid()` ties them to the events delivered so far.

The collaborators are opaque and become function-valued constants of `Bridge`,
or parameters of the pure functions:

- `decode` stands for `msg.payload.decode()` followed by `json.loads`.
- `toFloat` stands for Python's `float()`.
- `execute` stands for `trained_agent._execute`.

A failure in any of them is `None` or `Failure`. Floats are modelled as `real`,
because the bridge does no arithmetic on them. The one numeric test it makes is
Python truthiness, where `0` is falsy.

Facts about the code that the model keeps:

- Inference runs inline in the network callback, one message at a time.
- A missing field, or one whose value `float` rejects (`null`, a list, a dict,
  a non-numeric string), makes `process_observation` raise internally and
  return `None`. `float` accepts numeric strings and booleans.
- Before the agent loads, processing returns `None` and the message is
  dropped; only a log line records it. As the program is wired, `init_runtime`
  sets `trained_agent` before it creates the MQTT client, so this path is
  reachable only if `_package` returns a falsy value. The model also allows
  messages before `LoadAgent`.
- The callback does not check the inbound topic. Every delivered message is
  processed.
- An observation that is truthy but is not a dict fails at subscripting, so
  nothing is published.
- An agent result that `json.dumps` rejects is lost at serialization, inside
  the outer `try`.
- An agent result of `None` publishes nothing.

## Model

| member | source | states |
|---|---|---|
| `Decimal.IntToDecimal` | agent_inference.py:57 | `str(rc)` is non-empty, starts with `-` exactly for negative codes, and is the digits of the absolute value otherwise |
| `Decimal.NatToDecimal` | agent_inference.py:57 | the digits are all `0`–`9`, non-empty, with no leading zero except for 0 itself |
| `Decimal.DecimalValueOfNatToDecimal` | agent_inference.py:57 | reading the printed digits back gives the number |
| `Decimal.IntToDecimalInjective` | agent_inference.py:57 | distinct integers print differently |
| `JsonValues.Truthy` | agent_inference.py:100 | the falsy values are exactly `None`, `False`, `0`, `""`, `[]` and `{}` |
| `JsonValues.Get` | agent_inference.py:98 | `dict.get` gives the stored value for a present key and `None` for an absent one, so a truthy result means the key is present |
| `AgentInference.ConnectFailureReason` | agent_inference.py:43-57 | codes 0–5 get their table text, and every other code gets `Unknown error (` + `str(rc)` + `)` |
| `AgentInference.ConnectLog` | agent_inference.py:52-57 | code 0 logs two info lines, and any other code logs one error line `Connection failed: <reason>` |
| `AgentInferenceProperties.KnownReasonsDistinct` | agent_inference.py:43-50 | the six table texts are pairwise different |
| `AgentInferenceProperties.UnknownReasonNotKnown` | agent_inference.py:57 | the unknown-code text never equals a table text |
| `AgentInferenceProperties.ConnectFailureReasonInjective` | agent_inference.py:57 | different return codes give different failure reasons |
| `AgentInferenceProperties.ConnectLogInjective` | agent_inference.py:52-57 | different return codes give different log output |
| `AgentInference.Subscriptions` | agent_inference.py:52-54 | a run of CONNACKs issues no more subscriptions than acks, and every one is to `agent/observation` at QoS 2 |
| `AgentInferenceProperties.SubscriptionsPerSuccessfulAck` | agent_inference.py:52-54 | with a clean session, a run of CONNACKs issues exactly as many subscriptions as it has code-0 acks; by `Subscriptions`' contract, each is `("agent/observation", 2)` |
| `AgentInference.VectorizeKeys` | agent_inference.py:75-77 | the comprehension succeeds iff every key is present and convertible; then the result has one entry per key, and entry i is `float(fields[keys[i]])` |
| `AgentInference.Vectorize` | agent_inference.py:75-77 | the vector exists iff the observation is a dict whose 8 fixed keys are all present and convertible; then it has length 8, and entry i is `float(observation[K[i]])` |
| `AgentInference.ToList` | agent_inference.py:82 | an ndarray becomes a list of the same length with the same elements, and anything else is unchanged |
| `AgentInference.ProcessObservation` | agent_inference.py:66-86 | no action without a loaded agent or without a vector. An action exists iff the agent succeeds on the vector with a non-`None` result, and it is that result with arrays made lists |
| `AgentInference.ActionMessage` | agent_inference.py:113-115 | the published message is on `agent/action` at QoS 2, and its payload is a dict whose one key `action` holds the action |
| `AgentInference.HandleMessage` | agent_inference.py:88-121 | the outcome is undecodable when decoding fails, not-an-object for a non-dict document, and no-observation when the field is absent or falsy. Nothing is published before the agent loads. A publication is `{"action": a}` on `agent/action` at QoS 2, where `a` is what processing returned. For a dict document, a serializable processing result is published and an unserializable one fails serialization |
| `AgentInference.Emitted` | agent_inference.py:112-115 | one message call sends at most one publication, and sends one exactly when the outcome is `Published` |
| `AgentInferenceProperties.VectorizeKeysOnlyReadsKeys` | agent_inference.py:75-77 | the comprehension depends only on the listed keys |
| `AgentInferenceProperties.ExtraKeysIgnored` | agent_inference.py:75-77 | two observations that agree on the 8 keys give the same vector |
| `AgentInferenceProperties.AddingOtherKeyIgnored` | agent_inference.py:75-77 | adding a key outside the 8 does not change the vector |
| `AgentInferenceProperties.VectorIsFieldsInOrder` | agent_inference.py:75-77 | the vector is exactly the converted fields in the fixed key order |
| `AgentInferenceProperties.ValidObservationOutcome` | agent_inference.py:79-115 | for a message with all 8 fields convertible and the agent loaded: an agent exception or `None` publishes nothing, an unserializable result fails at `json.dumps`, and any other result is published once as `{"action": ToList(result)}` |
| `AgentInferenceProperties.BadFieldPublishesNothing` | agent_inference.py:75-86 | a missing field, or one `float` rejects, yields no publication (no-observation for `{}`, otherwise no action) |
| `AgentInferenceProperties.NonScalarFieldPublishesNothing` | agent_inference.py:75-77 | a field holding `null`, a list or a dict is never published, given that `float` rejects those |
| `AgentInferenceProperties.NonDictObservationPublishesNothing` | agent_inference.py:75-77 | a truthy observation that is not a dict yields no action |
| `AgentInferenceProperties.ExampleObservationPublished` | agent_inference.py:88-115 | the example observation `T=300.0 … Cb_Prod=3.3` yields exactly one publication, carrying the agent's output for vector `[300.0, 250.0, 7.5, 9.0, 280.0, 1.2, 10.0, 3.3]` |
| `AgentInferenceProperties.ReplayBeforeAgentLoaded` | agent_inference.py:71-72 | messages delivered before the agent loads publish nothing |
| `AgentInferenceProperties.ReplayOnePerValidMessage` | agent_inference.py:88-121 | when every delivered message publishes, there is exactly one publication per message, and the k-th carries the k-th message's own action |
| `AgentInference.Replay` | agent_inference.py:112-115 | a run of delivered messages publishes at most one message per delivery, and each is `{"action": …}` on `agent/action` at QoS 2 |
| `MqttBridge.Bridge.constructor` | agent_inference.py:25-27 | a fresh server has no agent, no subscriptions and no publications |
| `MqttBridge.Bridge.LoadAgent` | agent_inference.py:144-147 | loading the agent sets the readiness flag and changes nothing else |
| `MqttBridge.Bridge.OnConnect` | agent_inference.py:41-57 | appends `("agent/observation", 2)` to the subscriptions iff `rc == 0`, returns `ConnectLog(rc)`, and leaves publications and readiness unchanged |
| `MqttBridge.Bridge.OnMessage` | agent_inference.py:88-121 | returns `HandleMessage` for the payload, appends at most that outcome's one publication, never changes subscriptions or readiness, and keeps `Valid()` |

## Left out

- MQTT transport: `mqtt.Client`, `connect`, `loop_forever` on a daemon thread,
  and paho's automatic reconnect. These are network I/O and concurrency. A
  reconnect appears in the model only as a further `OnConnect` call.
- `on_disconnect`, which only logs.
- The per-message asyncio event loop and `loop.close()`. The agent call is a
  synchronous opaque function.
- `init_runtime`: `Trainer`, `Agent.load` and `_package` are SDK calls. Only
  its outcome is modelled, as `Bridge.LoadAgent`. Its failure aborts the
  process and is not modelled.
- Environment and configuration reading, and logging setup.
- The text `on_message` and `process_observation` log for exceptions, which
  comes from `str(e)` and tracebacks. `MessageOutcome` stands in for it.
- `ToList`: ndarrays are modelled as one-dimensional. Nested conversion of
  multi-dimensional arrays, and the scalar result of a 0-d array, are not
  modelled.
- Float values: NaN and infinities, which `json.loads` accepts, are not
  represented by `real`. UTF-8 decoding, JSON parsing, `float` of strings and
  large integers, and the agent's decision algorithm are all opaque.
- `json.dumps` and `client.publish` are not byte-level operations in the model.
  A publication records the value handed to `json.dumps`. A failure inside
  `client.publish` is not modelled.
- A bounded worker pool for inference, cancellation and graceful shutdown.
  The code does not implement them.
- `mqtt_producer.py`: a random demo publisher.
- `static/js/script.js`: browser code.
