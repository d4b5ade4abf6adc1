/**
 * Properties of the dispatch logic in AgentInference: what `on_connect` logs
 * and subscribes, what the vectorizer reads, and exactly when `on_message`
 * publishes and what.
 */
module AgentInferenceProperties {
  import opened Wrappers
  import opened JsonValues
  import opened Decimal
  import opened AgentInference

  // ---------------------------------------------------------------- on_connect

  /** The six known return codes have six different texts. */
  lemma KnownReasonsDistinct(a: int, b: int)
    requires a in CONNECTION_RESPONSES && b in CONNECTION_RESPONSES && a != b
    ensures CONNECTION_RESPONSES[a] != CONNECTION_RESPONSES[b]
  {
  }

  /** No known text starts like the text for an unknown code. */
  lemma UnknownReasonNotKnown(unknown: int, known: int)
    requires unknown !in CONNECTION_RESPONSES && known in CONNECTION_RESPONSES
    ensures ConnectFailureReason(unknown) != CONNECTION_RESPONSES[known]
  {
    assert ConnectFailureReason(unknown)[0] == 'U';
    assert 0 <= known <= 5;
    assert CONNECTION_RESPONSES[0][0] == 'C' && CONNECTION_RESPONSES[1][0] == 'I';
    assert CONNECTION_RESPONSES[2][0] == 'I' && CONNECTION_RESPONSES[3][0] == 'S';
    assert CONNECTION_RESPONSES[4][0] == 'B' && CONNECTION_RESPONSES[5][0] == 'N';
  }

  /** Different return codes are logged with different reasons. */
  lemma ConnectFailureReasonInjective(a: int, b: int)
    ensures a != b ==> ConnectFailureReason(a) != ConnectFailureReason(b)
  {
    if a != b {
      if a in CONNECTION_RESPONSES && b in CONNECTION_RESPONSES {
        KnownReasonsDistinct(a, b);
      } else if a in CONNECTION_RESPONSES {
        UnknownReasonNotKnown(b, a);
      } else if b in CONNECTION_RESPONSES {
        UnknownReasonNotKnown(a, b);
      } else if ConnectFailureReason(a) == ConnectFailureReason(b) {
        var prefix, s := "Unknown error (", ConnectFailureReason(a);
        assert s == prefix + IntToDecimal(a) + ")" && s == prefix + IntToDecimal(b) + ")";
        assert IntToDecimal(a) == s[|prefix|..|s| - 1] == IntToDecimal(b);
        IntToDecimalInjective(a, b);
      }
    }
  }

  /** The log of a CONNACK identifies its return code. */
  lemma ConnectLogInjective(a: int, b: int)
    ensures a != b ==> ConnectLog(a) != ConnectLog(b)
  {
    if a != b && a != 0 && b != 0 && ConnectLog(a) == ConnectLog(b) {
      var prefix := "Connection failed: ";
      var s := prefix + ConnectFailureReason(a);
      assert s == prefix + ConnectFailureReason(b);
      assert ConnectFailureReason(a) == s[|prefix|..] == ConnectFailureReason(b);
      ConnectFailureReasonInjective(a, b);
    }
  }

  /**
   * With a clean session every successful CONNACK resubscribes: after any
   * sequence of acks there is exactly one subscription to the observation
   * topic at QoS 2 per ack with return code 0, and no other subscription.
   */
  lemma {:induction false} SubscriptionsPerSuccessfulAck(acks: seq<int>)
    ensures |Subscriptions(acks)| == multiset(acks)[0]
  {
    if acks != [] {
      var init := acks[..|acks| - 1];
      assert acks == init + [acks[|acks| - 1]];
      SubscriptionsPerSuccessfulAck(init);
    }
  }

  // ------------------------------------------------------ process_observation

  /** Two observations that agree on the eight keys give the same vector. */
  predicate AgreeOnKeys(f: map<string, Json>, g: map<string, Json>) {
    forall i :: 0 <= i < |OBSERVATION_KEYS| ==>
      (OBSERVATION_KEYS[i] in f <==> OBSERVATION_KEYS[i] in g) &&
      (OBSERVATION_KEYS[i] in f ==> f[OBSERVATION_KEYS[i]] == g[OBSERVATION_KEYS[i]])
  }

  lemma {:induction false} VectorizeKeysOnlyReadsKeys(
    keys: seq<string>, f: map<string, Json>, g: map<string, Json>, toFloat: Json -> Option<Num>)
    requires forall i :: 0 <= i < |keys| ==>
      (keys[i] in f <==> keys[i] in g) && (keys[i] in f ==> f[keys[i]] == g[keys[i]])
    ensures VectorizeKeys(keys, f, toFloat) == VectorizeKeys(keys, g, toFloat)
    decreases |keys|
  {
    if keys != [] {
      VectorizeKeysOnlyReadsKeys(keys[1..], f, g, toFloat);
    }
  }

  /** Keys of the observation other than the eight have no effect on the vector. */
  lemma ExtraKeysIgnored(f: map<string, Json>, g: map<string, Json>, toFloat: Json -> Option<Num>)
    requires AgreeOnKeys(f, g)
    ensures Vectorize(JObject(f), toFloat) == Vectorize(JObject(g), toFloat)
  {
    VectorizeKeysOnlyReadsKeys(OBSERVATION_KEYS, f, g, toFloat);
  }

  /** Adding a key outside the eight to an observation leaves its vector alone. */
  lemma AddingOtherKeyIgnored(f: map<string, Json>, key: string, v: Json, toFloat: Json -> Option<Num>)
    requires key !in OBSERVATION_KEYS
    ensures Vectorize(JObject(f[key := v]), toFloat) == Vectorize(JObject(f), toFloat)
  {
    assert forall i :: 0 <= i < |OBSERVATION_KEYS| ==> OBSERVATION_KEYS[i] != key;
    ExtraKeysIgnored(f[key := v], f, toFloat);
  }

  /** The vector is the one listing the converted fields in the fixed key order. */
  lemma VectorIsFieldsInOrder(fields: map<string, Json>, toFloat: Json -> Option<Num>, v: seq<Num>)
    requires |v| == 8
    requires forall i :: 0 <= i < 8 ==>
      OBSERVATION_KEYS[i] in fields && toFloat(fields[OBSERVATION_KEYS[i]]) == Some(v[i])
    ensures Vectorize(JObject(fields), toFloat) == Some(v)
  {
    var r := Vectorize(JObject(fields), toFloat);
    assert r.Some? && |r.value| == 8;
    assert forall i :: 0 <= i < 8 ==> r.value[i] == v[i];
    assert r.value == v;
  }

  // --------------------------------------------------------------- on_message

  /** The document `decode` makes of `payload` is a dict whose `observation` is `observation`. */
  predicate CarriesObservation(payload: Bytes, decode: Bytes -> Option<Json>, observation: Json) {
    decode(payload).Some? && decode(payload).value.JObject? &&
    Get(decode(payload).value.fields, "observation") == observation
  }

  /**
   * A message whose observation has all eight fields convertible: the agent's
   * result alone decides the outcome. An exception or `None` from the agent
   * publishes nothing, an unserializable result is lost at `json.dumps`, and
   * anything else is published once as `{"action": a}` with arrays as lists.
   */
  lemma ValidObservationOutcome(
    payload: Bytes, decode: Bytes -> Option<Json>, toFloat: Json -> Option<Num>,
    execute: seq<Num> -> Result<AgentOutput, string>, fields: map<string, Json>, v: seq<Num>)
    requires CarriesObservation(payload, decode, JObject(fields))
    requires |v| == 8
    requires forall i :: 0 <= i < 8 ==>
      OBSERVATION_KEYS[i] in fields && toFloat(fields[OBSERVATION_KEYS[i]]) == Some(v[i])
    ensures execute(v).Failure? ==> HandleMessage(true, payload, decode, toFloat, execute) == NoAction
    ensures execute(v) == Success(Plain(JNull)) ==>
      HandleMessage(true, payload, decode, toFloat, execute) == NoAction
    ensures execute(v) == Success(Foreign) ==>
      HandleMessage(true, payload, decode, toFloat, execute) == SerializationFailed
    ensures execute(v).Success? && execute(v).value != Plain(JNull) && !execute(v).value.Foreign? ==>
      HandleMessage(true, payload, decode, toFloat, execute)
        == Published(ActionMessage(ToList(execute(v).value).value))
  {
    VectorIsFieldsInOrder(fields, toFloat, v);
    assert OBSERVATION_KEYS[0] in fields;
    assert Truthy(JObject(fields));
  }

  /** A missing field or one `float` rejects means nothing is published. */
  lemma BadFieldPublishesNothing(
    ready: bool, payload: Bytes, decode: Bytes -> Option<Json>, toFloat: Json -> Option<Num>,
    execute: seq<Num> -> Result<AgentOutput, string>, fields: map<string, Json>, i: nat)
    requires CarriesObservation(payload, decode, JObject(fields))
    requires i < 8
    requires OBSERVATION_KEYS[i] !in fields || toFloat(fields[OBSERVATION_KEYS[i]]).None?
    ensures HandleMessage(ready, payload, decode, toFloat, execute)
      == if fields == map[] then NoObservation else NoAction
  {
  }

  /** The values Python's `float()` raises TypeError on: `None`, lists and dicts. */
  ghost predicate RejectsNonScalars(toFloat: Json -> Option<Num>) {
    toFloat(JNull).None? &&
    (forall items :: toFloat(JArray(items)).None?) &&
    (forall f :: toFloat(JObject(f)).None?)
  }

  /** A field holding `null`, a list or a dict is never converted, so nothing is published. */
  lemma NonScalarFieldPublishesNothing(
    ready: bool, payload: Bytes, decode: Bytes -> Option<Json>, toFloat: Json -> Option<Num>,
    execute: seq<Num> -> Result<AgentOutput, string>, fields: map<string, Json>, i: nat)
    requires RejectsNonScalars(toFloat)
    requires CarriesObservation(payload, decode, JObject(fields))
    requires i < 8 && OBSERVATION_KEYS[i] in fields
    requires fields[OBSERVATION_KEYS[i]].JNull? || fields[OBSERVATION_KEYS[i]].JArray? ||
             fields[OBSERVATION_KEYS[i]].JObject?
    ensures HandleMessage(ready, payload, decode, toFloat, execute) == NoAction
  {
    var value := fields[OBSERVATION_KEYS[i]];
    assert toFloat(value).None? by {
      match value
      case JArray(items) =>
      case JObject(f) =>
      case _ =>
    }
    BadFieldPublishesNothing(ready, payload, decode, toFloat, execute, fields, i);
  }

  /** A truthy observation that is not a dict (a list, a string, a number) cannot be subscripted. */
  lemma NonDictObservationPublishesNothing(
    ready: bool, payload: Bytes, decode: Bytes -> Option<Json>, toFloat: Json -> Option<Num>,
    execute: seq<Num> -> Result<AgentOutput, string>, observation: Json)
    requires CarriesObservation(payload, decode, observation)
    requires Truthy(observation) && !observation.JObject?
    ensures HandleMessage(ready, payload, decode, toFloat, execute) == NoAction
  {
  }

  /**
   * A typical observation message: the eight readings as JSON numbers,
   * read by a `float` that returns a float unchanged, yield exactly one
   * publication carrying the agent's output for that vector.
   */
  lemma ExampleObservationPublished(
    payload: Bytes, decode: Bytes -> Option<Json>, toFloat: Json -> Option<Num>,
    execute: seq<Num> -> Result<AgentOutput, string>, a: Json)
    requires forall x :: toFloat(JNum(x)) == Some(x)
    requires decode(payload) == Some(JObject(map["observation" := JObject(map[
      "T" := JNum(300.0), "Tc" := JNum(250.0), "Ca" := JNum(7.5), "Cref" := JNum(9.0),
      "Tref" := JNum(280.0), "Conc_Error" := JNum(1.2), "Eps_Yield" := JNum(10.0),
      "Cb_Prod" := JNum(3.3)])]))
    requires execute([300.0, 250.0, 7.5, 9.0, 280.0, 1.2, 10.0, 3.3]) == Success(Plain(a))
    requires a != JNull
    ensures HandleMessage(true, payload, decode, toFloat, execute) == Published(ActionMessage(a))
  {
    var fields := decode(payload).value.fields["observation"].fields;
    var v: seq<Num> := [300.0, 250.0, 7.5, 9.0, 280.0, 1.2, 10.0, 3.3];
    assert forall i :: 0 <= i < 8 ==>
      OBSERVATION_KEYS[i] in fields && fields[OBSERVATION_KEYS[i]] == JNum(v[i]);
    ValidObservationOutcome(payload, decode, toFloat, execute, fields, v);
  }

  // ---------------------------------------- a sequence of delivered messages

  /** Before the agent is loaded, no message publishes anything. */
  lemma {:induction false} ReplayBeforeAgentLoaded(
    received: seq<(bool, Bytes)>, decode: Bytes -> Option<Json>,
    toFloat: Json -> Option<Num>, execute: seq<Num> -> Result<AgentOutput, string>)
    requires forall k :: 0 <= k < |received| ==> !received[k].0
    ensures Replay(received, decode, toFloat, execute) == []
    decreases |received|
  {
    if received != [] {
      ReplayBeforeAgentLoaded(received[..|received| - 1], decode, toFloat, execute);
    }
  }

  /** A run's publications are those of all but the last message, then the last message's own. */
  lemma ReplayLast(
    received: seq<(bool, Bytes)>, decode: Bytes -> Option<Json>,
    toFloat: Json -> Option<Num>, execute: seq<Num> -> Result<AgentOutput, string>)
    requires received != []
    ensures Replay(received, decode, toFloat, execute)
      == Replay(received[..|received| - 1], decode, toFloat, execute)
        + Emitted(HandleMessage(received[|received| - 1].0, received[|received| - 1].1, decode, toFloat, execute))
  {
  }

  /**
   * When every delivered message is one that publishes, there are exactly as
   * many publications as messages, and the k-th carries the k-th message's
   * own action.
   */
  lemma {:induction false} ReplayOnePerValidMessage(
    received: seq<(bool, Bytes)>, decode: Bytes -> Option<Json>,
    toFloat: Json -> Option<Num>, execute: seq<Num> -> Result<AgentOutput, string>)
    requires forall k :: 0 <= k < |received| ==>
      HandleMessage(received[k].0, received[k].1, decode, toFloat, execute).Published?
    ensures |Replay(received, decode, toFloat, execute)| == |received|
    ensures forall k :: 0 <= k < |received| ==>
      Replay(received, decode, toFloat, execute)[k]
        == HandleMessage(received[k].0, received[k].1, decode, toFloat, execute).publication
    decreases |received|
  {
    if received != [] {
      var n := |received| - 1;
      var init := received[..n];
      forall k | 0 <= k < n
        ensures HandleMessage(init[k].0, init[k].1, decode, toFloat, execute).Published?
      {
        assert init[k] == received[k];
      }
      ReplayOnePerValidMessage(init, decode, toFloat, execute);
      var out := HandleMessage(received[n].0, received[n].1, decode, toFloat, execute);
      assert out.Published?;
      var all, before := Replay(received, decode, toFloat, execute), Replay(init, decode, toFloat, execute);
      ReplayLast(received, decode, toFloat, execute);
      assert Emitted(out) == [out.publication];
      assert all == before + [out.publication];
      assert |all| == |received|;
      forall k | 0 <= k < |received|
        ensures all[k] == HandleMessage(received[k].0, received[k].1, decode, toFloat, execute).publication
      {
        if k < n {
          assert all[k] == before[k];
          assert received[k] == init[k];
        } else {
          assert all[k] == out.publication;
        }
      }
    }
  }
}
