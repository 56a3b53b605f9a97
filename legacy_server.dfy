/** `handle_call_tool` and the `handle_*_tool` functions of the original
    top-level server: six `pulsar-*` tools answering in plain text, a missing
    required argument answered with an error text rather than raised, and any
    exception (an unknown tool among them) turned into "Error: <message>". */
module LegacyServer {

  import opened Wrappers
  import opened Json
  import opened Pulsar
  import opened Tools
  import Text
  import Admin
  import Session
  import Connector
  import Config

  /** The text of the answer. For statistics the text is a fixed header
      followed by formatted numbers, so the answer is the stats themselves. */
  datatype ToolText = Content(text: string) | StatsReport(topic: string, stats: Json)

  const ToolNames := {
    "pulsar-publish", "pulsar-consume", "pulsar-create-topic", "pulsar-delete-topic",
    "pulsar-list-topics", "pulsar-topic-stats"}

  // ------------------------------------------------------------ consumed messages

  /** What the loop of `handle_consume_tool` appends for the message numbered `i`. */
  function Block(i: nat, m: Message): string
  {
    BlockHead(i, m) + PropertiesLine(m.properties) + BlockTail(m)
  }

  /** The number, ID and Data lines. */
  function BlockHead(i: nat, m: Message): string
  {
    "Message " + Text.NatToString(i) + ":\n" + "  ID: " + m.messageId + "\n" + "  Data: " + m.data + "\n"
  }

  /** `if msg['properties']:` the Properties line. */
  function PropertiesLine(properties: Props): string
  {
    if properties != [] then "  Properties: " + Text.DictRepr(properties) + "\n" else ""
  }

  /** The Publish Time line and the blank line. */
  function BlockTail(m: Message): string
  {
    "  Publish Time: " + Text.IntToString(m.publishTimestamp) + "\n" + "\n"
  }

  /** The `  Properties:` line is written only for a message that has
      properties, right after its Data line; everything else in the block is
      the same as for the message without them. */
  lemma PropertiesLineOnlyWhenGiven(i: nat, m: Message)
    ensures var bare := Block(i, m.(properties := []));
            var k := |BlockHead(i, m)|;
            && k <= |bare|
            && Block(i, m) == if m.properties == [] then bare
                              else bare[..k] + "  Properties: " + Text.DictRepr(m.properties) + "\n" + bare[k..]
  {
    var head := BlockHead(i, m);
    var tail := BlockTail(m);
    assert BlockHead(i, m.(properties := [])) == head && BlockTail(m.(properties := [])) == tail;
    var bare := Block(i, m.(properties := []));
    assert bare == head + tail;
    assert bare[..|head|] == head && bare[|head|..] == tail;
  }

  /** The blocks of `ms`, numbered from 1, built as the loop builds them: the
      last message's block after all the others. */
  function Blocks(ms: seq<Message>): string
  {
    if ms == [] then "" else Blocks(ms[..|ms| - 1]) + Block(|ms|, ms[|ms| - 1])
  }

  /** `enumerate(xs, k)` read front to back, each item rendered with its
      number: the first item gets number k. */
  function Enumerated<T>(xs: seq<T>, k: nat, render: (nat, T) -> string): string
  {
    if xs == [] then "" else render(k, xs[0]) + Enumerated(xs[1..], k + 1, render)
  }

  function ConsumedHeader(topic: string, count: nat): string
  {
    "Consumed " + Text.NatToString(count) + " messages from topic " + Quoted(topic) + ":\n\n"
  }

  /** The text `handle_consume_tool` answers with. */
  function ConsumedText(topic: string, messages: seq<Message>): string
  {
    if messages == [] then "No messages found in topic " + Quoted(topic)
    else ConsumedHeader(topic, |messages|) + Blocks(messages)
  }

  /** Appending one item to an enumeration adds its rendering, numbered after the others. */
  lemma {:induction false} EnumeratedSnoc<T>(xs: seq<T>, x: T, k: nat, render: (nat, T) -> string)
    ensures Enumerated(xs + [x], k, render) == Enumerated(xs, k, render) + render(k + |xs|, x)
    decreases |xs|
  {
    if xs == [] {
      assert [x][1..] == [];
    } else {
      assert (xs + [x])[0] == xs[0] && (xs + [x])[1..] == xs[1..] + [x];
      EnumeratedSnoc(xs[1..], x, k + 1, render);
      ConcatAssoc(render(k, xs[0]), Enumerated(xs[1..], k + 1, render), render(k + |xs|, x));
    }
  }

  /** The loop's text is `enumerate(messages, 1)`: message i, counting from 1,
      gets block i, in receive order. */
  lemma {:induction false} BlocksAreEnumerated(ms: seq<Message>)
    ensures Blocks(ms) == Enumerated(ms, 1, Block)
    decreases |ms|
  {
    if ms != [] {
      var init, last := ms[..|ms| - 1], ms[|ms| - 1];
      assert init + [last] == ms;
      BlocksAreEnumerated(init);
      EnumeratedSnoc(init, last, 1, Block);
      assert Blocks(ms) == Blocks(init) + Block(|ms|, last);
    }
  }


  /** The text of a non-empty batch starts with the first message's block and its number 1. */
  lemma FirstBlockFirst(topic: string, messages: seq<Message>)
    requires messages != []
    ensures var t := ConsumedText(topic, messages);
            var h := ConsumedHeader(topic, |messages|);
            |h| + |Block(1, messages[0])| <= |t| && t[..|h| + |Block(1, messages[0])|] == h + Block(1, messages[0])
  {
    BlocksAreEnumerated(messages);
    var h := ConsumedHeader(topic, |messages|);
    var b := Block(1, messages[0]);
    var rest := Enumerated(messages[1..], 2, Block);
    ConcatAssoc(h, b, rest);
    PrefixOfConcat(h + b, rest);
  }


  /** `handle_consume_tool`'s text, built by its loop. */
  method RenderConsumed(topic: string, messages: seq<Message>) returns (text: string)
    ensures text == ConsumedText(topic, messages)
  {
    if messages == [] {
      return "No messages found in topic " + Quoted(topic);
    }
    var header := ConsumedHeader(topic, |messages|);
    text := header;
    var i := 0;
    while i < |messages|
      invariant 0 <= i <= |messages|
      invariant text == header + Blocks(messages[..i])
    {
      var block := RenderBlock(i + 1, messages[i]);
      BlocksStep(messages, i);
      ConcatAssoc(header, Blocks(messages[..i]), block);
      text := text + block;
      i := i + 1;
    }
    assert messages[..i] == messages;
  }

  /** The loop's i-th turn appends the block numbered i + 1. */
  lemma BlocksStep(messages: seq<Message>, i: nat)
    requires i < |messages|
    ensures Blocks(messages[..i + 1]) == Blocks(messages[..i]) + Block(i + 1, messages[i])
  {
    assert messages[..i + 1][..i] == messages[..i];
  }

  /** One turn of the loop of `handle_consume_tool`, appended piece by piece. */
  method RenderBlock(i: nat, msg: Message) returns (block: string)
    ensures block == Block(i, msg)
  {
    block := "Message " + Text.NatToString(i) + ":\n";
    block := block + "  ID: " + msg.messageId + "\n";
    block := block + "  Data: " + msg.data + "\n";
    var props := "";
    if msg.properties != [] {
      props := "  Properties: " + Text.DictRepr(msg.properties) + "\n";
    }
    block := block + props;
    block := block + "  Publish Time: " + Text.IntToString(msg.publishTimestamp) + "\n";
    block := block + "\n";
  }

  // ------------------------------------------------------------ topic list

  /** One `  - <topic>` line per topic, in order. */
  function TopicLines(topics: seq<string>): string
  {
    if topics == [] then "" else TopicLines(topics[..|topics| - 1]) + TopicLine(topics[|topics| - 1])
  }

  function TopicLine(t: string): string
  {
    "  - " + t + "\n"
  }

  /** The lines of two lists one after the other are the lines of the joined list. */
  lemma {:induction false} TopicLinesAppend(xs: seq<string>, ys: seq<string>)
    ensures TopicLines(xs + ys) == TopicLines(xs) + TopicLines(ys)
    decreases |ys|
  {
    if ys == [] {
      assert xs + ys == xs;
    } else {
      var init := ys[..|ys| - 1];
      var last := TopicLine(ys[|ys| - 1]);
      TopicLinesAppend(xs, init);
      assert (xs + ys)[..|xs + ys| - 1] == xs + init;
      assert (xs + ys)[|xs + ys| - 1] == ys[|ys| - 1];
      assert TopicLines(xs + ys) == TopicLines(xs + init) + last;
      assert TopicLines(ys) == TopicLines(init) + last;
      assert TopicLines(xs) + (TopicLines(init) + last) == (TopicLines(xs) + TopicLines(init)) + last;
    }
  }


  function TopicsText(topics: seq<string>): string
  {
    if topics == [] then "No topics found or error retrieving topics"
    else "Found " + Text.NatToString(|topics|) + " topics:\n\n" + TopicLines(topics)
  }

  /** `handle_list_topics_tool`'s text, built by its loop. */
  method RenderTopics(topics: seq<string>) returns (text: string)
    ensures text == TopicsText(topics)
  {
    if topics == [] {
      return "No topics found or error retrieving topics";
    }
    text := "Found " + Text.NatToString(|topics|) + " topics:\n\n";
    var i := 0;
    while i < |topics|
      invariant 0 <= i <= |topics|
      invariant text == "Found " + Text.NatToString(|topics|) + " topics:\n\n" + TopicLines(topics[..i])
    {
      text := text + TopicLine(topics[i]);
      assert topics[..i + 1][..i] == topics[..i];
      i := i + 1;
    }
    assert topics[..i] == topics;
  }

  // ------------------------------------------------------------ handlers

  function PublishText(topic: string, properties: Props, success: bool): string
  {
    if success then
      "Successfully published message to topic " + Quoted(topic)
      + (if properties != [] then " with properties: " + Text.DictRepr(properties) else "")
    else "Failed to publish message to topic " + Quoted(topic)
  }

  function CreateTopicText(topic: string, partitions: int, success: bool): string
  {
    if success then "Successfully created topic " + Quoted(topic) + " with " + Text.IntToString(partitions) + " partitions"
    else "Failed to create topic " + Quoted(topic)
  }

  function DeleteTopicText(topic: string, success: bool): string
  {
    if success then "Successfully deleted topic " + Quoted(topic) else "Failed to delete topic " + Quoted(topic)
  }

  function StatsText(topic: string, stats: Json): ToolText
  {
    if Truthy(stats) then StatsReport(topic, stats)
    else Content("Failed to retrieve statistics for topic " + Quoted(topic))
  }

  /** `handle_call_tool` on a connector in state `s`; `arguments or {}` first. */
  function Dispatch(cfg: Config.Settings, s: Session.State, name: string, arguments: Option<Args>, env: Env)
    : Session.Step<ToolText>
  {
    var a := GetOr(arguments, NoArgs);
    if name == "pulsar-publish" then
      var topic := GetOr(a.topic, cfg.topicName);
      var properties := GetOr(a.properties, []);
      if !Given(a.message) then Session.Step(s, Content("Error: Message content is required"))
      else
        var r := Session.Publish(cfg, s, topic, a.message.value, Some(properties), env.faults);
        Session.Step(r.after, Content(PublishText(topic, properties, r.out)))
    else if name == "pulsar-consume" then
      var topic := GetOr(a.topic, cfg.topicName);
      var r := Session.Consume(cfg, s, topic, GetOr(a.subscriptionName, cfg.subscriptionName),
                               GetOr(a.maxMessages, 10), env.faults, env.receipts);
      Session.Step(r.after, Content(ConsumedText(topic, r.out)))
    else if name == "pulsar-create-topic" then
      if !Given(a.topic) then Session.Step(s, Content("Error: Topic name is required"))
      else
        var partitions := GetOr(a.partitions, 1);
        var r := Session.CreateTopic(cfg, s, a.topic.value, partitions, env.faults.connectFails, env.http);
        Session.Step(r.after, Content(CreateTopicText(a.topic.value, partitions, r.out)))
    else if name == "pulsar-delete-topic" then
      if !Given(a.topic) then Session.Step(s, Content("Error: Topic name is required"))
      else Session.Step(s, Content(DeleteTopicText(a.topic.value, Admin.DeleteTopic(env.http, a.topic.value))))
    else if name == "pulsar-list-topics" then
      Session.Step(s, Content(TopicsText(Admin.ListTopics(env.http))))
    else if name == "pulsar-topic-stats" then
      if !Given(a.topic) then Session.Step(s, Content("Error: Topic name is required"))
      else Session.Step(s, StatsText(a.topic.value, Admin.GetTopicStats(env.http, a.topic.value)))
    else
      Session.Step(s, Content("Error: Unknown tool: " + name))
  }

  /** `handle_call_tool` with the handlers inlined. */
  method HandleCallTool(conn: Connector.PulsarConnector, name: string, arguments: Option<Args>, env: Env)
    returns (answer: ToolText)
    requires conn.Valid()
    modifies conn, conn.cluster
    ensures conn.Valid()
    ensures Session.Step(conn.Snapshot(), answer) == Dispatch(conn.settings, old(conn.Snapshot()), name, arguments, env)
  {
    var a := if arguments.None? then NoArgs else arguments.value;
    if name == "pulsar-publish" {
      var topic := GetOr(a.topic, conn.settings.topicName);
      var properties := GetOr(a.properties, []);
      if !Given(a.message) {
        return Content("Error: Message content is required");
      }
      var success := conn.PublishMessage(topic, a.message.value, Some(properties), env.faults);
      answer := Content(PublishText(topic, properties, success));
    } else if name == "pulsar-consume" {
      var topic := GetOr(a.topic, conn.settings.topicName);
      var subscription := GetOr(a.subscriptionName, conn.settings.subscriptionName);
      var messages := conn.ConsumeMessages(topic, subscription, GetOr(a.maxMessages, 10), env.faults, env.receipts);
      var text := RenderConsumed(topic, messages);
      answer := Content(text);
    } else if name == "pulsar-create-topic" {
      if !Given(a.topic) {
        return Content("Error: Topic name is required");
      }
      var partitions := GetOr(a.partitions, 1);
      var success := conn.CreateTopic(a.topic.value, partitions, env.faults.connectFails, env.http);
      answer := Content(CreateTopicText(a.topic.value, partitions, success));
    } else if name == "pulsar-delete-topic" {
      if !Given(a.topic) {
        return Content("Error: Topic name is required");
      }
      answer := Content(DeleteTopicText(a.topic.value, Admin.DeleteTopic(env.http, a.topic.value)));
    } else if name == "pulsar-list-topics" {
      var text := RenderTopics(Admin.ListTopics(env.http));
      answer := Content(text);
    } else if name == "pulsar-topic-stats" {
      if !Given(a.topic) {
        return Content("Error: Topic name is required");
      }
      answer := StatsText(a.topic.value, Admin.GetTopicStats(env.http, a.topic.value));
    } else {
      answer := Content("Error: Unknown tool: " + name);
    }
  }

  /** `cleanup`: disconnect on shutdown. */
  method Cleanup(conn: Connector.PulsarConnector, f: Session.CloseFaults)
    requires conn.Valid()
    modifies conn, conn.cluster
    ensures conn.Valid()
    ensures conn.Snapshot() == Session.Disconnect(old(conn.Snapshot()), f)
  {
    conn.Disconnect(f);
  }

  // ------------------------------------------------------------ properties

  /** Missing required arguments are answered with an error text and the
      connector is not touched; unknown tools get "Error: Unknown tool: <name>". */
  lemma ErrorTexts(cfg: Config.Settings, s: Session.State, name: string, a: Args, env: Env)
    ensures name == "pulsar-publish" && !Given(a.message) ==>
              Dispatch(cfg, s, name, Some(a), env) == Session.Step(s, Content("Error: Message content is required"))
    ensures name in {"pulsar-create-topic", "pulsar-delete-topic", "pulsar-topic-stats"} && !Given(a.topic) ==>
              Dispatch(cfg, s, name, Some(a), env) == Session.Step(s, Content("Error: Topic name is required"))
    ensures name !in ToolNames ==>
              Dispatch(cfg, s, name, Some(a), env) == Session.Step(s, Content("Error: Unknown tool: " + name))
  {
  }

  /** Every call keeps the connector's invariant, and the read-only tools and
      the error answers leave the state as it was. */
  lemma DispatchInv(cfg: Config.Settings, s: Session.State, name: string, arguments: Option<Args>, env: Env)
    requires Session.Inv(cfg, s)
    ensures Session.Inv(cfg, Dispatch(cfg, s, name, arguments, env).after)
    ensures name !in {"pulsar-publish", "pulsar-consume", "pulsar-create-topic"} ==>
              Dispatch(cfg, s, name, arguments, env).after == s
  {
    var a := GetOr(arguments, NoArgs);
    if name == "pulsar-publish" && Given(a.message) {
      Session.PublishInv(cfg, s, GetOr(a.topic, cfg.topicName), a.message.value, Some(GetOr(a.properties, [])), env.faults);
    } else if name == "pulsar-consume" {
      Session.ConsumeInv(cfg, s, GetOr(a.topic, cfg.topicName), GetOr(a.subscriptionName, cfg.subscriptionName),
                         GetOr(a.maxMessages, 10), env.faults, env.receipts);
    } else if name == "pulsar-create-topic" && Given(a.topic) {
      Session.CreateTopicInv(cfg, s, a.topic.value, GetOr(a.partitions, 1), env.faults.connectFails, env.http);
    }
  }

  /** An empty batch and a failed listing get their fixed texts; a non-empty
      one starts with its count. */
  lemma ConsumeAndListTexts(topic: string, messages: seq<Message>, topics: seq<string>)
    ensures ConsumedText(topic, messages) == "No messages found in topic " + Quoted(topic) <==> messages == []
    ensures TopicsText(topics) == "No topics found or error retrieving topics" <==> topics == []
  {
    if messages != [] {
      var t := ConsumedText(topic, messages);
      assert t[0] == 'C';
      assert ("No messages found in topic " + Quoted(topic))[0] == 'N';
    }
    if topics != [] {
      assert TopicsText(topics)[0] == 'F';
      assert "No topics found or error retrieving topics"[0] == 'N';
    }
  }

  predicate StartsWith(s: string, p: string)
  {
    |p| <= |s| && s[..|p|] == p
  }

  /** String concatenation regrouped. */
  lemma ConcatAssoc(a: string, b: string, c: string)
    ensures a + (b + c) == (a + b) + c
  {
  }

  /** A string is the prefix of its concatenation with another. */
  lemma PrefixOfConcat(a: string, b: string)
    ensures |a| <= |a + b| && (a + b)[..|a|] == a
  {
  }

  /** The publish, create and delete texts open with their success phrase
      exactly when the connector call succeeded; a successful publish with
      properties ends with their repr. */
  lemma OutcomeTexts(topic: string, properties: Props, partitions: int, success: bool)
    ensures StartsWith(PublishText(topic, properties, success), "Successfully published message to topic " + Quoted(topic)) <==> success
    ensures success && properties != [] ==>
              var t := PublishText(topic, properties, success);
              var d := Text.DictRepr(properties);
              |d| <= |t| && t[|t| - |d|..] == d
    ensures StartsWith(CreateTopicText(topic, partitions, success), "Successfully created topic " + Quoted(topic)) <==> success
    ensures StartsWith(DeleteTopicText(topic, success), "Successfully deleted topic " + Quoted(topic)) <==> success
  {
    var q := Quoted(topic);
    if success {
      var props := if properties != [] then " with properties: " + Text.DictRepr(properties) else "";
      PrefixOfConcat("Successfully published message to topic " + q, props);
      var n := Text.IntToString(partitions);
      ConcatAssoc("Successfully created topic " + q, " with ", n);
      ConcatAssoc("Successfully created topic " + q, " with " + n, " partitions");
      PrefixOfConcat("Successfully created topic " + q, " with " + n + " partitions");
    } else {
      assert PublishText(topic, properties, success)[0] == 'F';
      assert CreateTopicText(topic, partitions, success)[0] == 'F';
      assert DeleteTopicText(topic, success)[0] == 'F';
    }
  }

  /** `pulsar-publish` and `pulsar-create-topic` with their required argument
      present move the connector as the connector call does and answer with a
      success text exactly when that call returned True. */
  lemma PublishAndCreateMeaning(cfg: Config.Settings, s: Session.State, a: Args, env: Env)
    ensures Given(a.message) ==>
              var topic := GetOr(a.topic, cfg.topicName);
              var p := Session.Publish(cfg, s, topic, a.message.value, Some(GetOr(a.properties, [])), env.faults);
              var r := Dispatch(cfg, s, "pulsar-publish", Some(a), env);
              && r.after == p.after && r.out.Content?
              && (StartsWith(r.out.text, "Successfully published message to topic " + Quoted(topic)) <==> p.out)
    ensures Given(a.topic) ==>
              var partitions := GetOr(a.partitions, 1);
              var c := Session.CreateTopic(cfg, s, a.topic.value, partitions, env.faults.connectFails, env.http);
              var r := Dispatch(cfg, s, "pulsar-create-topic", Some(a), env);
              && r.after == c.after && r.out.Content?
              && (StartsWith(r.out.text, "Successfully created topic " + Quoted(a.topic.value)) <==> c.out)
  {
    if Given(a.message) {
      var topic := GetOr(a.topic, cfg.topicName);
      var p := Session.Publish(cfg, s, topic, a.message.value, Some(GetOr(a.properties, [])), env.faults);
      OutcomeTexts(topic, GetOr(a.properties, []), 1, p.out);
    }
    if Given(a.topic) {
      var partitions := GetOr(a.partitions, 1);
      var c := Session.CreateTopic(cfg, s, a.topic.value, partitions, env.faults.connectFails, env.http);
      OutcomeTexts(a.topic.value, [], partitions, c.out);
    }
  }
}
