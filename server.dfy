/** `call_tool` of the packaged server: the ten `pulsar_*` tools, each reading
    its arguments with defaults, calling the connector, and wrapping what it
    gets in a `{"status": ...}` dictionary. A missing required argument raises
    ValueError, which the dispatcher logs and raises again. */
module Server {

  import opened Wrappers
  import opened Json
  import opened Pulsar
  import opened Tools
  import Text
  import Admin
  import Session
  import Connector
  import Config

  /** `_server_settings`: the defaults for a missing topic or subscription name. */
  datatype ServerSettings = ServerSettings(topicName: string, subscriptionName: string)

  /** What `call_tool` ends with: the result dictionary it serialises, the
      plain text for an unknown tool, or the exception it raises. */
  datatype CallResult = Reply(result: map<string, Json>) | Plain(text: string) | Reraised(error: string)

  const ToolNames := {
    "pulsar_publish", "pulsar_consume", "pulsar_create_topic", "pulsar_delete_topic",
    "pulsar_list_topics", "pulsar_topic_stats", "pulsar_list_connectors",
    "pulsar_connector_status", "pulsar_connector_config", "pulsar_all_connectors"}

  /** The tools that only read from the admin endpoints. */
  const AdminTools := {
    "pulsar_delete_topic", "pulsar_list_topics", "pulsar_topic_stats", "pulsar_list_connectors",
    "pulsar_connector_status", "pulsar_connector_config", "pulsar_all_connectors"}

  function Success(fields: map<string, Json>): map<string, Json>
  {
    fields["status" := JStr("success")]
  }

  function Failure(message: string): map<string, Json>
  {
    map["status" := JStr("error"), "message" := JStr(message)]
  }

  /** A received message as the dict `consume_messages` builds for it. */
  function MessageJson(m: Message): Json
  {
    JObj(map[
      "message_id" := JStr(m.messageId),
      "data" := JStr(m.data),
      "properties" := JObj(PropsObject(m.properties)),
      "topic" := JStr(m.topicName),
      "publish_timestamp" := JNum(m.publishTimestamp),
      "event_timestamp" := JNum(m.eventTimestamp)])
  }

  /** A property dict as a JSON object; a later item for a key replaces an earlier one. */
  function PropsObject(p: Props): (o: map<string, Json>)
    ensures forall k :: k in o <==> exists i :: 0 <= i < |p| && p[i].0 == k
  {
    if p == [] then map[]
    else
      var o := PropsObject(p[..|p| - 1]);
      assert forall i :: 0 <= i < |p| - 1 ==> p[..|p| - 1][i] == p[i];
      o[p[|p| - 1].0 := JStr(p[|p| - 1].1)]
  }

  function MessagesJson(ms: seq<Message>): (js: seq<Json>)
    ensures |js| == |ms| && forall i :: 0 <= i < |ms| ==> js[i] == MessageJson(ms[i])
  {
    seq(|ms|, i requires 0 <= i < |ms| => MessageJson(ms[i]))
  }

  function PublishReply(topic: string, properties: Props, success: bool): map<string, Json>
  {
    if success then
      Success(map["message" := JStr("Successfully published message to topic " + Quoted(topic)
        + (if properties != [] then " with properties: " + Text.DictRepr(properties) else ""))])
    else Failure("Failed to publish message to topic " + Quoted(topic))
  }

  function ConsumeReply(topic: string, subscription: string, messages: seq<Message>): map<string, Json>
  {
    var common := map["topic" := JStr(topic), "subscription" := JStr(subscription)];
    if messages != [] then
      Success(common["message_count" := JNum(|messages|)]["messages" := JArr(MessagesJson(messages))])
    else
      Success(common["message_count" := JNum(0)]["message" := JStr("No messages available")])
  }

  function CreateTopicReply(topic: string, partitions: int, success: bool): map<string, Json>
  {
    if success then
      Success(map["message" := JStr("Topic " + Quoted(topic) + " created successfully with "
        + Text.IntToString(partitions) + " partitions")])
    else Failure("Failed to create topic " + Quoted(topic))
  }

  function DeleteTopicReply(topic: string, success: bool): map<string, Json>
  {
    if success then Success(map["message" := JStr("Topic " + Quoted(topic) + " deleted successfully")])
    else Failure("Failed to delete topic " + Quoted(topic))
  }

  function SummaryJson(source: seq<string>, sink: seq<string>): Json
  {
    JObj(map[
      "source" := Strings(source),
      "sink" := Strings(sink),
      "total_source" := JNum(|source|),
      "total_sink" := JNum(|sink|),
      "total" := JNum(|source| + |sink|)])
  }

  /** The tools that touch no connection state; `s` is left as it is. */
  function AdminReply(http: Admin.Http, name: string, a: Args): CallResult
    requires name in AdminTools
  {
    if name == "pulsar_delete_topic" then
      if !Given(a.topic) then Reraised("Topic name is required")
      else Reply(DeleteTopicReply(a.topic.value, Admin.DeleteTopic(http, a.topic.value)))
    else if name == "pulsar_list_topics" then
      var topics := Admin.ListTopics(http);
      Reply(Success(map["topics" := Strings(topics), "count" := JNum(|topics|)]))
    else if name == "pulsar_topic_stats" then
      if !Given(a.topic) then Reraised("Topic name is required")
      else
        var stats := Admin.GetTopicStats(http, a.topic.value);
        if Truthy(stats) then Reply(Success(map["topic" := JStr(a.topic.value), "stats" := stats]))
        else Reply(Failure("Failed to get stats for topic " + Quoted(a.topic.value)))
    else if name == "pulsar_list_connectors" then
      var t := GetOr(a.connectorType, "source");
      var connectors := Admin.ListConnectorsSpec(http, t);
      Reply(Success(map["connector_type" := JStr(t), "connectors" := Strings(connectors), "count" := JNum(|connectors|)]))
    else if name == "pulsar_connector_status" then
      if !Given(a.connectorName) then Reraised("Connector name is required")
      else
        var status := Admin.GetConnectorStatus(http, a.connectorName.value);
        if status != map[] then Reply(Success(map["connector_status" := JObj(status)]))
        else Reply(Failure("Failed to get status for connector " + Quoted(a.connectorName.value)))
    else if name == "pulsar_connector_config" then
      if !Given(a.connectorName) then Reraised("Connector name is required")
      else
        var config := Admin.GetConnectorConfig(http, a.connectorName.value);
        if config != map[] then Reply(Success(map["connector_config" := JObj(config)]))
        else Reply(Failure("Failed to get config for connector " + Quoted(a.connectorName.value)))
    else
      Reply(Success(map["connectors" := SummaryJson(Admin.ListConnectorsSpec(http, "source"),
                                                   Admin.ListConnectorsSpec(http, "sink"))]))
  }

  /** The `pulsar_publish` branch. */
  function PublishTool(cfg: Config.Settings, srv: ServerSettings, s: Session.State, a: Args, env: Env)
    : Session.Step<CallResult>
  {
    var topic := GetOr(a.topic, srv.topicName);
    var properties := GetOr(a.properties, []);
    if !Given(a.message) then Session.Step(s, Reraised("Message content is required"))
    else
      var r := Session.Publish(cfg, s, topic, a.message.value, Some(properties), env.faults);
      Session.Step(r.after, Reply(PublishReply(topic, properties, r.out)))
  }

  /** The `pulsar_consume` branch. */
  function ConsumeTool(cfg: Config.Settings, srv: ServerSettings, s: Session.State, a: Args, env: Env)
    : Session.Step<CallResult>
  {
    var topic := GetOr(a.topic, srv.topicName);
    var subscription := GetOr(a.subscriptionName, srv.subscriptionName);
    var r := Session.Consume(cfg, s, topic, subscription, GetOr(a.maxMessages, 10), env.faults, env.receipts);
    Session.Step(r.after, Reply(ConsumeReply(topic, subscription, r.out)))
  }

  /** The `pulsar_create_topic` branch. */
  function CreateTopicTool(cfg: Config.Settings, s: Session.State, a: Args, env: Env): Session.Step<CallResult>
  {
    if !Given(a.topic) then Session.Step(s, Reraised("Topic name is required"))
    else
      var partitions := GetOr(a.partitions, 1);
      var r := Session.CreateTopic(cfg, s, a.topic.value, partitions, env.faults.connectFails, env.http);
      Session.Step(r.after, Reply(CreateTopicReply(a.topic.value, partitions, r.out)))
  }

  /** `call_tool` on a connector in state `s`. */
  function Dispatch(cfg: Config.Settings, srv: ServerSettings, s: Session.State, name: string,
                    arguments: Option<Args>, env: Env): Session.Step<CallResult>
  {
    var a := GetOr(arguments, NoArgs);
    if name == "pulsar_publish" then PublishTool(cfg, srv, s, a, env)
    else if name == "pulsar_consume" then ConsumeTool(cfg, srv, s, a, env)
    else if name == "pulsar_create_topic" then CreateTopicTool(cfg, s, a, env)
    else if name in AdminTools then Session.Step(s, AdminReply(env.http, name, a))
    else Session.Step(s, Plain("Unknown tool: " + name))
  }

  /** `call_tool`. */
  method CallTool(conn: Connector.PulsarConnector, srv: ServerSettings, name: string,
                  arguments: Option<Args>, env: Env) returns (result: CallResult)
    requires conn.Valid()
    modifies conn, conn.cluster
    ensures conn.Valid()
    ensures Session.Step(conn.Snapshot(), result) == Dispatch(conn.settings, srv, old(conn.Snapshot()), name, arguments, env)
  {
    var a := if arguments.None? then NoArgs else arguments.value;
    if name == "pulsar_publish" {
      var topic := GetOr(a.topic, srv.topicName);
      var properties := GetOr(a.properties, []);
      if !Given(a.message) {
        return Reraised("Message content is required");
      }
      var success := conn.PublishMessage(topic, a.message.value, Some(properties), env.faults);
      result := Reply(PublishReply(topic, properties, success));
    } else if name == "pulsar_consume" {
      var topic := GetOr(a.topic, srv.topicName);
      var subscription := GetOr(a.subscriptionName, srv.subscriptionName);
      var maxMessages := GetOr(a.maxMessages, 10);
      var messages := conn.ConsumeMessages(topic, subscription, maxMessages, env.faults, env.receipts);
      result := Reply(ConsumeReply(topic, subscription, messages));
    } else if name == "pulsar_create_topic" {
      if !Given(a.topic) {
        return Reraised("Topic name is required");
      }
      var partitions := GetOr(a.partitions, 1);
      var success := conn.CreateTopic(a.topic.value, partitions, env.faults.connectFails, env.http);
      result := Reply(CreateTopicReply(a.topic.value, partitions, success));
    } else if name == "pulsar_list_connectors" {
      var t := GetOr(a.connectorType, "source");
      var connectors := Admin.ListConnectors(env.http, t);
      result := Reply(Success(map["connector_type" := JStr(t), "connectors" := Strings(connectors),
                                  "count" := JNum(|connectors|)]));
    } else if name == "pulsar_all_connectors" {
      var summary := Admin.GetAllConnectors(env.http);
      result := Reply(Success(map["connectors" := SummaryJson(summary.source, summary.sink)]));
    } else if name in AdminTools {
      result := AdminReply(env.http, name, a);
    } else {
      result := Plain("Unknown tool: " + name);
    }
  }

  // ------------------------------------------------------------ properties

  /** `arguments is None` is treated as `{}`. */
  lemma NoneArgumentsAreEmpty(cfg: Config.Settings, srv: ServerSettings, s: Session.State, name: string, env: Env)
    ensures Dispatch(cfg, srv, s, name, None, env) == Dispatch(cfg, srv, s, name, Some(NoArgs), env)
  {
  }

  /** A required argument that is missing or empty raises ValueError before the
      connector is touched. */
  lemma MissingArgumentRaises(cfg: Config.Settings, srv: ServerSettings, s: Session.State, name: string,
                              a: Args, env: Env)
    ensures name == "pulsar_publish" && !Given(a.message) ==>
              Dispatch(cfg, srv, s, name, Some(a), env) == Session.Step(s, Reraised("Message content is required"))
    ensures name in {"pulsar_create_topic", "pulsar_delete_topic", "pulsar_topic_stats"} && !Given(a.topic) ==>
              Dispatch(cfg, srv, s, name, Some(a), env) == Session.Step(s, Reraised("Topic name is required"))
    ensures name in {"pulsar_connector_status", "pulsar_connector_config"} && !Given(a.connectorName) ==>
              Dispatch(cfg, srv, s, name, Some(a), env) == Session.Step(s, Reraised("Connector name is required"))
  {
  }

  /** Only publish, consume and create-topic change the connection state;
      every call keeps the connector's invariant. */
  lemma DispatchInv(cfg: Config.Settings, srv: ServerSettings, s: Session.State, name: string,
                    arguments: Option<Args>, env: Env)
    requires Session.Inv(cfg, s)
    ensures Session.Inv(cfg, Dispatch(cfg, srv, s, name, arguments, env).after)
    ensures name !in {"pulsar_publish", "pulsar_consume", "pulsar_create_topic"} ==>
              Dispatch(cfg, srv, s, name, arguments, env).after == s
  {
    var a := GetOr(arguments, NoArgs);
    if name == "pulsar_publish" && Given(a.message) {
      Session.PublishInv(cfg, s, GetOr(a.topic, srv.topicName), a.message.value, Some(GetOr(a.properties, [])), env.faults);
    } else if name == "pulsar_consume" {
      Session.ConsumeInv(cfg, s, GetOr(a.topic, srv.topicName), GetOr(a.subscriptionName, srv.subscriptionName),
                         GetOr(a.maxMessages, 10), env.faults, env.receipts);
    } else if name == "pulsar_create_topic" && Given(a.topic) {
      Session.CreateTopicInv(cfg, s, a.topic.value, GetOr(a.partitions, 1), env.faults.connectFails, env.http);
    }
  }

  /** The publish reply says success exactly when `publish_message` returned
      True, mentions the properties only when some were given, and falls back
      to the configured topic. */
  lemma PublishReplyMeaning(cfg: Config.Settings, srv: ServerSettings, s: Session.State, a: Args, env: Env)
    requires Given(a.message)
    ensures var topic := GetOr(a.topic, srv.topicName);
            var properties := GetOr(a.properties, []);
            var p := Session.Publish(cfg, s, topic, a.message.value, Some(properties), env.faults);
            var r := Dispatch(cfg, srv, s, "pulsar_publish", Some(a), env);
            && r.after == p.after
            && r.out.Reply? && "status" in r.out.result && "message" in r.out.result
            && (r.out.result["status"] == JStr("success") <==> p.out)
            && (r.out.result["status"] == JStr("error") <==> !p.out)
            && (p.out ==> r.out.result["message"] == JStr(
                  "Successfully published message to topic " + Quoted(topic)
                  + (if properties == [] then "" else " with properties: " + Text.DictRepr(properties))))
  {
  }

  /** The consume reply's `message_count` is the number of messages, and
      `messages` is present exactly when there are some, in receive order;
      otherwise `message` says none are available. */
  lemma ConsumeReplyFields(topic: string, subscription: string, ms: seq<Message>)
    ensures var r := ConsumeReply(topic, subscription, ms);
            && r["status"] == JStr("success")
            && r["topic"] == JStr(topic) && r["subscription"] == JStr(subscription)
            && r["message_count"] == JNum(|ms|)
            && ("messages" in r <==> ms != [])
            && ("message" in r <==> ms == [])
            && (ms != [] ==> r["messages"].JArr? && |r["messages"].items| == |ms|
                             && forall i :: 0 <= i < |ms| ==> r["messages"].items[i] == MessageJson(ms[i]))
  {
  }

  /** `pulsar_consume` hands the connector `max_messages` (10 by default)
      without clamping, so the reply never lists more messages than that, and
      replies with what `consume_messages` returned. */
  lemma ConsumeReplyMeaning(cfg: Config.Settings, srv: ServerSettings, s: Session.State, a: Args, env: Env)
    ensures var topic := GetOr(a.topic, srv.topicName);
            var subscription := GetOr(a.subscriptionName, srv.subscriptionName);
            var maxMessages := GetOr(a.maxMessages, 10);
            var c := Session.Consume(cfg, s, topic, subscription, maxMessages, env.faults, env.receipts);
            var r := Dispatch(cfg, srv, s, "pulsar_consume", Some(a), env);
            && r == Session.Step(c.after, Reply(ConsumeReply(topic, subscription, c.out)))
            && |c.out| <= (if maxMessages < 0 then 0 else maxMessages)
  {
    var topic := GetOr(a.topic, srv.topicName);
    var subscription := GetOr(a.subscriptionName, srv.subscriptionName);
    Session.ConsumeBounded(cfg, s, topic, subscription, GetOr(a.maxMessages, 10), env.faults, env.receipts);
  }

  /** With a consumer already on the topic and a cluster that delivers every
      receive, a request for n messages gets n, however large n is. */
  lemma ConsumeNotClamped(cfg: Config.Settings, srv: ServerSettings, s: Session.State, a: Args, env: Env, n: nat)
    requires a.maxMessages == Some(n)
    requires s.connected && s.consumer.Some? && s.consumer.value.topic == GetOr(a.topic, srv.topicName)
    requires forall j :: 0 <= j < n ==> Session.Slot(env.receipts, j).Msg?
    ensures Dispatch(cfg, srv, s, "pulsar_consume", Some(a), env).out.result["message_count"] == JNum(n)
  {
    var topic := GetOr(a.topic, srv.topicName);
    var subscription := GetOr(a.subscriptionName, srv.subscriptionName);
    Session.ConsumerKeyedOnTopic(cfg, s, topic, subscription, n, env.faults, env.receipts);
    Session.DrainFullBatch(env.receipts, n);
    var c := Session.Consume(cfg, s, topic, subscription, n, env.faults, env.receipts);
    ConsumeReplyFields(topic, subscription, c.out);
  }

  /** The topic listing carries a count equal to the length of the list, and
      the list reads back as what `list_topics` returned. */
  lemma ListTopicsReply(cfg: Config.Settings, srv: ServerSettings, s: Session.State, a: Args, env: Env)
    ensures var r := Dispatch(cfg, srv, s, "pulsar_list_topics", Some(a), env).out.result;
            var topics := Admin.ListTopics(env.http);
            && r["status"] == JStr("success")
            && r["count"] == JNum(|topics|) && StringsOf(r["topics"]) == Some(topics)
  {
    StringsRoundTrip(Admin.ListTopics(env.http));
  }

  /** The connector listing echoes the type asked for ("source" by default),
      counts the list, and lists nothing for a type other than source or sink. */
  lemma ListConnectorsReply(cfg: Config.Settings, srv: ServerSettings, s: Session.State, a: Args, env: Env)
    ensures var r := Dispatch(cfg, srv, s, "pulsar_list_connectors", Some(a), env).out.result;
            var t := GetOr(a.connectorType, "source");
            var connectors := Admin.ListConnectorsSpec(env.http, t);
            && r["status"] == JStr("success") && r["connector_type"] == JStr(t)
            && r["count"] == JNum(|connectors|) && StringsOf(r["connectors"]) == Some(connectors)
            && (t != "source" && t != "sink" ==> connectors == [])
  {
    StringsRoundTrip(Admin.ListConnectorsSpec(env.http, GetOr(a.connectorType, "source")));
    Admin.ListConnectorsProperties(env.http, GetOr(a.connectorType, "source"));
  }

  /** The summary holds both listings and their total. */
  lemma AllConnectorsReply(cfg: Config.Settings, srv: ServerSettings, s: Session.State, a: Args, env: Env)
    ensures var r := Dispatch(cfg, srv, s, "pulsar_all_connectors", Some(a), env).out.result;
            var source := Admin.ListConnectorsSpec(env.http, "source");
            var sink := Admin.ListConnectorsSpec(env.http, "sink");
            && r["status"] == JStr("success") && r["connectors"].JObj?
            && StringsOf(r["connectors"].fields["source"]) == Some(source)
            && StringsOf(r["connectors"].fields["sink"]) == Some(sink)
            && r["connectors"].fields["total"] == JNum(|source| + |sink|)
  {
    StringsRoundTrip(Admin.ListConnectorsSpec(env.http, "source"));
    StringsRoundTrip(Admin.ListConnectorsSpec(env.http, "sink"));
  }

  /** An empty stats, status or config answer becomes an error reply. */
  lemma EmptyAnswerIsError(cfg: Config.Settings, srv: ServerSettings, s: Session.State, a: Args, env: Env)
    ensures Given(a.topic) ==>
              (Dispatch(cfg, srv, s, "pulsar_topic_stats", Some(a), env).out.result["status"] == JStr("error")
               <==> !Truthy(Admin.GetTopicStats(env.http, a.topic.value)))
    ensures Given(a.connectorName) ==>
              (Dispatch(cfg, srv, s, "pulsar_connector_status", Some(a), env).out.result["status"] == JStr("error")
               <==> !Admin.Probe(env.http, Admin.StatusQuery, a.connectorName.value).Found?)
    ensures Given(a.connectorName) ==>
              (Dispatch(cfg, srv, s, "pulsar_connector_config", Some(a), env).out.result["status"] == JStr("error")
               <==> !Admin.Probe(env.http, Admin.ConfigQuery, a.connectorName.value).Found?)
  {
  }

  /** Any other name is answered with the text "Unknown tool: <name>" and changes nothing. */
  lemma UnknownTool(cfg: Config.Settings, srv: ServerSettings, s: Session.State, name: string,
                    arguments: Option<Args>, env: Env)
    requires name !in ToolNames
    ensures Dispatch(cfg, srv, s, name, arguments, env) == Session.Step(s, Plain("Unknown tool: " + name))
  {
  }
}
