/** Messages and their JSON form (Message.from_json and Message.message_to_json in
    resotocore/core/message_bus.py). */
module Messages {
  import opened Options
  import opened JsonParser

  type Data = map<string, Json>

  datatype Message =
    | Event(messageType: string, data: Data)
    | Action(messageType: string, task: Json, step: Json, data: Data)
    | ActionDone(messageType: string, task: Json, step: Json, subscriber: Json, data: Data)
    | ActionError(messageType: string, task: Json, step: Json, subscriber: Json, error: Json, data: Data)

  /** pop_keys */
  function Without(data: Data, keys: set<string>): Data {
    data - keys
  }

  const RESERVED: set<string> := {"task", "step", "subscriber_id"}

  /** The keys of the data that decoding takes away. */
  function Reserved(m: Message): set<string> {
    if m.ActionError? then RESERVED + {"error"} else RESERVED
  }

  function KindOf(m: Message): string {
    match m
    case Event(_, _) => "event"
    case Action(_, _, _, _) => "action"
    case ActionDone(_, _, _, _, _) => "action_done"
    case ActionError(_, _, _, _, _, _) => "action_error"
  }

  /** extra_data */
  function Extra(m: Message): Data {
    match m
    case Event(_, _) => map[]
    case Action(_, task, step, _) => map["task" := task, "step" := step]
    case ActionDone(_, task, step, subscriber, _) =>
      map["task" := task, "step" := step, "subscriber_id" := subscriber]
    case ActionError(_, task, step, subscriber, error, _) =>
      map["task" := task, "step" := step, "subscriber_id" := subscriber, "error" := error]
  }

  /** message_to_json */
  function ToJson(m: Message): Data {
    map["kind" := Str(KindOf(m)), "message_type" := Str(m.messageType), "data" := Obj(m.data + Extra(m))]
  }

  /** from_json; nothing where the source raises. */
  function FromJson(json: Data): Option<Message> {
    if "kind" !in json || "message_type" !in json || !json["message_type"].Str? then None
    else
      var kind, t := json["kind"], json["message_type"].s;
      var field := if "data" in json then json["data"] else Obj(map[]);
      if !field.Obj? then None
      else
        var data := field.kvs;
        if kind == Str("event") then Some(Event(t, Without(data, RESERVED)))
        else if "task" !in data || "step" !in data then None
        else if kind == Str("action") then Some(Action(t, data["task"], data["step"], Without(data, RESERVED)))
        else if "subscriber_id" !in data then None
        else if kind == Str("action_done") then
          Some(ActionDone(t, data["task"], data["step"], data["subscriber_id"], Without(data, RESERVED)))
        else if kind == Str("action_error") then
          Some(ActionError(t, data["task"], data["step"], data["subscriber_id"],
                           if "error" in data then data["error"] else Str("n/a"),
                           Without(data, RESERVED + {"error"})))
        else None
  }

  /** The fields that a message of this kind is read from; nothing for an unknown kind. */
  function Needed(kind: Json): Option<set<string>> {
    if kind == Str("event") then Some({})
    else if kind == Str("action") then Some({"task", "step"})
    else if kind == Str("action_done") || kind == Str("action_error") then Some({"task", "step", "subscriber_id"})
    else None
  }

  /** The object of a message without one is empty. */
  function Payload(json: Data): Json {
    if "data" in json then json["data"] else Obj(map[])
  }

  /** Decoding succeeds exactly for a known kind with a type and all fields of that kind in the data; the message
      is of that kind and type, its fields are those of the data, and a missing error reads n/a. */
  lemma DecodesExactly(json: Data)
    ensures FromJson(json).Some?
       <==> && "kind" in json && "message_type" in json && json["message_type"].Str? && Payload(json).Obj?
            && Needed(json["kind"]).Some? && Needed(json["kind"]).value <= Payload(json).kvs.Keys
    ensures FromJson(json).Some? ==>
              var m, data := FromJson(json).value, Payload(json).kvs;
              && m.messageType == json["message_type"].s
              && (m.Event? <==> json["kind"] == Str("event"))
              && (m.Action? <==> json["kind"] == Str("action"))
              && (m.ActionDone? <==> json["kind"] == Str("action_done"))
              && (m.ActionError? <==> json["kind"] == Str("action_error"))
              && (!m.Event? ==> m.task == data["task"] && m.step == data["step"])
              && (m.ActionDone? || m.ActionError? ==> m.subscriber == data["subscriber_id"])
              && (m.ActionError? ==> m.error == if "error" in data then data["error"] else Str("n/a"))
              && (forall k :: k in m.data ==> k in data && m.data[k] == data[k])
              && (forall k :: k in data && k !in m.data ==>
                    k in ["task", "step", "subscriber_id"] || (m.ActionError? && k == "error"))
  {
  }

  function Stripped(m: Message): Message {
    m.(data := Without(m.data, Reserved(m)))
  }

  lemma Decodes(m: Message)
    ensures FromJson(ToJson(m)) == Some(Stripped(m))
  {
    var data := m.data + Extra(m);
    ExtraGone(m);
    hide Without;
    assert ToJson(m)["data"] == Obj(data);
    match m
    case Event(_, _) =>
    case Action(_, task, step, _) => assert data["task"] == task && data["step"] == step;
    case ActionDone(_, task, step, subscriber, _) =>
      assert data["task"] == task && data["step"] == step && data["subscriber_id"] == subscriber;
    case ActionError(_, task, step, subscriber, error, _) =>
      assert data["task"] == task && data["step"] == step && data["subscriber_id"] == subscriber;
  }

  lemma ExtraGone(m: Message)
    ensures Without(m.data + Extra(m), Reserved(m)) == Without(m.data, Reserved(m))
  {
  }

  lemma WithoutNothing(data: Data, keys: set<string>)
    ensures Without(data, keys) == data <==> forall k :: k in keys ==> k !in data
  {
    if k :| k in keys && k in data {
      assert k !in Without(data, keys);
    }
  }

  /** Decoding what was encoded gives the message with the reserved keys of its data removed, so the very
      message comes back if and only if its data has none of them. */
  lemma DecodeEncode(m: Message)
    ensures FromJson(ToJson(m)) == Some(Stripped(m))
    ensures FromJson(ToJson(m)) == Some(m) <==> forall k :: k in Reserved(m) ==> k !in m.data
  {
    Decodes(m);
    WithoutNothing(m.data, Reserved(m));
    hide FromJson, ToJson, Without, Reserved;
    assert Stripped(m).data == Without(m.data, Reserved(m));
  }

  /** A message that was decoded once survives every further encoding. */
  lemma EncodeDecode(json: Data)
    requires FromJson(json).Some?
    ensures FromJson(ToJson(FromJson(json).value)) == FromJson(json)
  {
    var m := FromJson(json).value;
    DecodeEncode(m);
    DecodedIsStripped(json);
  }

  lemma DecodedIsStripped(json: Data)
    requires FromJson(json).Some?
    ensures var m := FromJson(json).value; forall k :: k in Reserved(m) ==> k !in m.data
  {
  }
}
