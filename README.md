# pulsar-mcp-server, modelled in Dafny

This project models the core of pulsar-mcp-server. The server exposes an Apache Pulsar cluster as tools to a
Model Context Protocol client. The model covers three things:

- **`PulsarConnector`**, the only stateful object. It holds a client, a producer and a consumer, plus a
  connected flag, and updates them as it connects, disconnects, publishes and consumes. It also answers the
  admin REST operations: creating, deleting and listing topics, reading topic statistics, and resolving
  connectors.
- **`call_tool`**, which dispatches the ten JSON-answering tools of the packaged server. An empty required
  argument there raises `ValueError`, and the server re-raises it.
- **`handle_call_tool`** with its six `handle_*_tool` handlers, from the original top-level server. These
  answer in plain text, and turn every failure into an `Error: …` text.

Modules:

| file | module | what it holds |
|---|---|---|
| `wrappers.dfy` | Wrappers | `Option`, `Result`, and Python truthiness of an optional string |
| `text.dfy` | Text | `lower`, substring `in`, `str` of integers, and `repr` of strings and string dicts, each with its read-back lemma |
| `json.dfy` | Json | decoded JSON values, and a list of strings as a JSON array and back |
| `config.dfy` | Config | the settings record and its defaults |
| `pulsar.dfy` | Pulsar | the client-library boundary: message and handle types, and class `Cluster` |
| `admin.dfy` | Admin | the admin REST operations as functions over an HTTP oracle, plus the connector-listing loop |
| `session.dfy` | Session | the connector's state as a value, each stateful operation as a step, the invariant these keep, and the lemmas about them |
| `connector.dfy` | Connector | class `PulsarConnector`, whose methods update its fields in place and are proved to follow Session |
| `tools.dfy` | Tools | the arguments of a call and the environment it runs in |
| `server.dfy` | Server | `call_tool` |
| `legacy_server.dfy` | LegacyServer | `handle_call_tool` and its handlers |

The client library cannot be seen, so it is modelled by `Pulsar.Cluster`. That class keeps a ledger of what it
has been asked to do:

- clients, producers and consumers created, and which of them are closed;
- messages sent;
- messages acknowledged.

Whether a library call raises is an input (`Session.Faults`, `Session.CloseFaults`). The receives of one
consume are a script: each one delivers a message, times out, raises, or has its acknowledgement raise.

The admin endpoints are an oracle from the resource requested to the response: a status and a decoded body, or
a raised request.

Session states the invariant the connector keeps, `Session.Inv`:

- every handle names a ledger entry bound to the handle's topic;
- every producer or consumer issued and not closed is the one held, so at most one of each is open;
- producers carry the fixed send settings, and consumers the subscription settings;
- every client is built from the settings.

Where the repository's prose and its code disagree, the model follows the code:

- `pulsar_consume` passes `max_messages` to the connector unclamped, and `consume_messages` loops
  `range(max_messages)`, so 0 or a negative value receives nothing. `Server.ConsumeNotClamped` shows that a
  request for n messages, with n deliverable, gets all n.
- `disconnect` has one `try` around all three closes. The first close that raises ends it, and leaves the
  later handles and `_is_connected` as they were (`Session.DisconnectOutcome`).
- The packaged `call_tool` re-raises the `ValueError` of a missing argument instead of answering with an error
  text (`Server.CallResult.Reraised`).
- A failed `create_producer` after the old producer was closed leaves `self.producer` on the closed producer.
  A failed `subscribe` does the same for `self.consumer` (`Session.PublishReplacesProducer`,
  `Session.ConsumerReplaced`).
- The consumer is reused whenever its topic matches, whatever subscription name is asked for
  (`Session.ConsumerKeyedOnTopic`).

The root `pulsar_connector.py` is the first 266 lines of `src/pulsar_mcp_server/pulsar_connector.py` with a
different settings import. One model covers both, and rows below cite whichever copy the member was read from.

## Model

| member | source | states |
|---|---|---|
| Session.ConsumerTypeOf | src/pulsar_mcp_server/pulsar_connector.py:108-119 | Exclusive, Failover and KeyShared exactly for those three setting names, Shared for every other name |
| Session.InitialPositionOf | src/pulsar_mcp_server/pulsar_connector.py:121-126 | Earliest exactly when reading from the beginning is configured, otherwise Latest |
| Session.ClientConfOf | src/pulsar_mcp_server/pulsar_connector.py:23-35 | the client gets the service URL; a token exactly when one is set and non-empty; the trust-certs path and the insecure-connection flag together, exactly when the path is set and non-empty |
| Session.InitialInv | pulsar_connector.py:14-18 | the fresh connector (no client, producer or consumer, not connected) satisfies the invariant |
| Session.AtMostOneOpen | src/pulsar_mcp_server/pulsar_connector.py:74-82 | under the invariant at most one producer and one consumer are open, and the open one is the held one |
| Session.ConnectOutcome | src/pulsar_mcp_server/pulsar_connector.py:20-45 | connect answers True exactly when the client was built; then it is the newest client, built from the settings, and the flag is set; otherwise the flag is cleared and the client and ledger are as before; producer and consumer are untouched |
| Session.ClientsFromSettings | src/pulsar_mcp_server/pulsar_connector.py:24-37 | every client ever built carries the configured URL, and a token or TLS path exactly when those settings are given |
| Session.EnsureConnectedInv | pulsar_connector.py:71-72 | connecting when not connected touches no producer, consumer, send or ack, and keeps the invariant; when already connected nothing changes |
| Session.DisconnectInv | src/pulsar_mcp_server/pulsar_connector.py:47-66 | disconnect keeps the invariant whichever close raises |
| Session.DisconnectOutcome | src/pulsar_mcp_server/pulsar_connector.py:47-66 | consumer, then producer, then client are closed in the ledger and cleared; the first close that raises leaves its handle, every later one and the flag unchanged, and the ledger records no close past it; the flag is cleared only when no close raised; nothing is sent, acknowledged or issued |
| Session.DisconnectClosesAll | src/pulsar_mcp_server/pulsar_connector.py:47-62 | a disconnect in which no close raises leaves no producer or consumer open in the ledger |
| Session.ProducerFor | src/pulsar_mcp_server/pulsar_connector.py:74-82 | when the producer step succeeds, the held producer is bound to the requested topic |
| Session.PublishInv | src/pulsar_mcp_server/pulsar_connector.py:68-95 | publish keeps the invariant under every combination of failures |
| Session.PublishReusesProducer | pulsar_connector.py:74-88 | a held producer already on the topic is reused, with nothing closed or created, and publish answers whether the send succeeded |
| Session.PublishReplacesProducer | src/pulsar_mcp_server/pulsar_connector.py:74-82 | otherwise the old producer is closed first; a new one, bound to the topic with 30000 ms send timeout and batching, is created exactly when the close, the client and the creation all succeed; a raising close leaves the old one held and closes nothing, and a failed creation leaves the closed one held |
| Session.PublishSends | src/pulsar_mcp_server/pulsar_connector.py:84-95 | True exactly when the message went out once, with `properties or {}`, on a producer bound to the topic; False sends nothing |
| Session.Leading | src/pulsar_mcp_server/pulsar_connector.py:136-157 | the number of receives that deliver before the first one that does not, within the budget |
| Session.Collected | src/pulsar_mcp_server/pulsar_connector.py:139-150 | the first k delivered messages, in receive order |
| Session.DrainBounded | src/pulsar_mcp_server/pulsar_connector.py:135-160 | the drain loop returns at most max_messages messages (none when it is 0 or less), in receive order, and acknowledges each one it returns |
| Session.DrainTimeoutKeepsPartial | src/pulsar_mcp_server/pulsar_connector.py:155-157 | a timeout after k delivered messages, inside the budget, ends the loop returning exactly those k |
| Session.DrainFailureDiscards | src/pulsar_mcp_server/pulsar_connector.py:162-164 | any other exception inside the loop returns [] although the k messages before it were acknowledged |
| Session.DrainFullBatch | src/pulsar_mcp_server/pulsar_connector.py:136-153 | when every receive of the budget delivers, exactly max_messages messages are returned |
| Session.ConsumerFor | src/pulsar_mcp_server/pulsar_connector.py:103-133 | when the consumer step succeeds, the held consumer is bound to the requested topic |
| Session.ConsumeBounded | pulsar_connector.py:97-164 | consume returns [] or the drain result, so never more than max_messages messages |
| Session.ConsumeInv | src/pulsar_mcp_server/pulsar_connector.py:97-164 | consume keeps the invariant under every combination of failures and receive outcomes |
| Session.ConsumerKeyedOnTopic | src/pulsar_mcp_server/pulsar_connector.py:104 | a held consumer on the topic is reused whatever subscription name is given; the call returns the drain result and the ledger gains exactly its acks |
| Session.ConsumerReplaced | src/pulsar_mcp_server/pulsar_connector.py:104-133 | otherwise the old consumer is closed first; a new subscription (requested name, configured type and position) is made exactly when close, client and subscribe succeed; without one the call returns [] and acknowledges nothing; a raising close leaves the old one held and closes nothing, and a failed subscribe leaves the closed one held |
| Session.CreateTopicInv | src/pulsar_mcp_server/pulsar_connector.py:166-192 | create_topic keeps the invariant: only its connect step touches the connection |
| Connector.PulsarConnector.constructor | pulsar_connector.py:14-18 | a fresh connector with a fresh cluster is the initial state and satisfies the invariant |
| Connector.PulsarConnector.Connect | pulsar_connector.py:20-45 | updates the fields and the cluster exactly as Session.Connect, keeping the invariant |
| Connector.PulsarConnector.EnsureConnected | pulsar_connector.py:71-72 | updates the fields exactly as Session.EnsureConnected |
| Connector.PulsarConnector.Disconnect | pulsar_connector.py:47-66 | updates the fields and the cluster exactly as Session.Disconnect, keeping the invariant |
| Connector.PulsarConnector.CloseConsumer | pulsar_connector.py:50-52 | the consumer close step, as Session.ConsumerCloseStage |
| Connector.PulsarConnector.CloseProducer | pulsar_connector.py:54-56 | the producer close step, as Session.ProducerCloseStage |
| Connector.PulsarConnector.CloseClient | pulsar_connector.py:58-60 | the client close step, as Session.ClientCloseStage |
| Connector.PulsarConnector.PublishMessage | pulsar_connector.py:68-95 | updates the fields and the cluster exactly as Session.Publish, keeping the invariant |
| Connector.PulsarConnector.ProducerFor | pulsar_connector.py:74-82 | the producer reuse-or-replace step performed in place, as Session.ProducerFor |
| Connector.PulsarConnector.ConsumeMessages | pulsar_connector.py:97-164 | updates the fields and the cluster exactly as Session.Consume, keeping the invariant |
| Connector.PulsarConnector.ConsumerFor | pulsar_connector.py:103-133 | the consumer reuse-or-replace step performed in place, as Session.ConsumerFor |
| Connector.PulsarConnector.Drain | pulsar_connector.py:135-160 | the receive loop in place: returns and acknowledges exactly what Session.Drain says |
| Connector.PulsarConnector.CreateTopic | pulsar_connector.py:166-192 | connect when not connected, then the admin answer, as Session.CreateTopic |
| Pulsar.Acks | src/pulsar_mcp_server/pulsar_connector.py:150-153 | one acknowledgement per message on the given consumer, in order |
| Pulsar.Cluster.NewClient | src/pulsar_mcp_server/pulsar_connector.py:37 | a client is recorded with its configuration unless construction raises |
| Pulsar.Cluster.Send | src/pulsar_mcp_server/pulsar_connector.py:85-88 | a send is recorded with payload and properties unless it raises |
| Pulsar.Cluster.Subscribe | src/pulsar_mcp_server/pulsar_connector.py:128-133 | a subscription is recorded with topic, name, type and position unless it raises |
| Pulsar.Cluster.Acknowledge | src/pulsar_mcp_server/pulsar_connector.py:153 | an ack is recorded unless it raises |
| Admin.CreateTopic | src/pulsar_mcp_server/pulsar_connector.py:181-192 | True exactly when the PUT answers 204 or 409 |
| Admin.DeleteTopic | src/pulsar_mcp_server/pulsar_connector.py:205-216 | True exactly when the DELETE answers 204 or 404 |
| Admin.ListTopics | src/pulsar_mcp_server/pulsar_connector.py:229-241 | the names in the body of a 200 answer that decodes to an array of strings, and [] for any other answer; a non-empty listing is exactly such a body |
| Admin.ListTopicsReadsListing | src/pulsar_mcp_server/pulsar_connector.py:231-234 | a 200 answer carrying a list of topic names lists exactly those names |
| Admin.GetTopicStats | src/pulsar_mcp_server/pulsar_connector.py:254-266 | the decoded body of a 200 answer, `{}` for any other status and for a 200 whose body does not decode |
| Admin.ProbeIsFirstOk | src/pulsar_mcp_server/pulsar_connector.py:317-355 | the hand-unrolled lookup equals an ordered search over function, source, sink that stops at the first 200 or exception |
| Admin.ProbePrecedence | src/pulsar_mcp_server/pulsar_connector.py:317-355 | a source (sink) answer is taken only after the function (and source) endpoints answered non-200; the body is that of the 200 that won; nothing is found exactly when all three answered non-200 |
| Admin.ProbeStopsAtFirst200 | src/pulsar_mcp_server/pulsar_connector.py:319-326 | once the function endpoint answers 200, the source and sink endpoints make no difference |
| Admin.GetConnectorStatus | src/pulsar_mcp_server/pulsar_connector.py:305-359 | `{}` exactly when no endpoint answered 200; otherwise it names the connector, carries the body as `status`, and reports which kind answered |
| Admin.GetConnectorConfig | src/pulsar_mcp_server/pulsar_connector.py:361-415 | the same for the configuration, under `config` |
| Admin.IsConnectorCases | src/pulsar_mcp_server/pulsar_connector.py:417-442 | no config or another type is never a connector; a well-typed config is a source (sink) exactly when it has `sourceDetails`, a `source` key, or `source` in its lowered className or archive; an ill-typed one raises |
| Admin.LoweredFieldIsLower | src/pulsar_mcp_server/pulsar_connector.py:429-430 | the field read for the indicator test is the lowered string stored under the key |
| Admin.SelectIsFilter | src/pulsar_mcp_server/pulsar_connector.py:290-293 | the loop raises exactly when some name's config fails to classify, and otherwise keeps exactly the names classified as the type |
| Admin.FilteredIsSublist | src/pulsar_mcp_server/pulsar_connector.py:288-296 | the kept names are an order-preserving sublist of the listed names, and a name is kept exactly when it classifies |
| Admin.SelectLoop | src/pulsar_mcp_server/pulsar_connector.py:288-296 | the for loop computes exactly the fold Select |
| Admin.ListConnectors | src/pulsar_mcp_server/pulsar_connector.py:268-303 | the method's answer is ListConnectorsSpec |
| Admin.ListConnectorsProperties | src/pulsar_mcp_server/pulsar_connector.py:268-303 | an unknown type lists nothing whatever the cluster says; a non-empty answer came from a 200 listing, keeps its order and holds only classified names |
| Admin.GetAllConnectors | src/pulsar_mcp_server/pulsar_connector.py:444-456 | both listings, their lengths, and the total as their sum |
| Text.Lower | src/pulsar_mcp_server/pulsar_connector.py:429-430 | lowering keeps the length and maps each character through ASCII lower-casing |
| Text.NatToStringRoundTrip | server.py:200 | the decimal digits written for a count read back as the count |
| Text.IntToStringRoundTrip | server.py:230 | the text written for the partition count reads back as the number, negative ones included |
| Text.ReprRoundTrip | server.py:182 | `repr` of a string is a quoted literal whose inside reads back as the string |
| Text.DictRepr | server.py:182 | the repr of a properties dict is braced, and is `{}` exactly when the dict is empty |
| Json.StringsRoundTrip | src/pulsar_mcp_server/server.py:264 | a list of strings written as JSON reads back as the same list |
| Json.StringsOfOnlyArrays | src/pulsar_mcp_server/pulsar_connector.py:231-234 | the only JSON values read as a list of strings are those arrays |
| Server.CallTool | src/pulsar_mcp_server/server.py:184-339 | the method moves the connector and answers exactly as Server.Dispatch |
| Server.NoneArgumentsAreEmpty | src/pulsar_mcp_server/server.py:187-188 | no arguments behave as `{}` |
| Server.MissingArgumentRaises | src/pulsar_mcp_server/server.py:198-199 | a missing or empty message, topic or connector name re-raises its ValueError before the connector is touched |
| Server.DispatchInv | src/pulsar_mcp_server/server.py:192-318 | every tool keeps the invariant, and only publish, consume and create-topic change the connection state |
| Server.PublishReplyMeaning | src/pulsar_mcp_server/server.py:193-209 | the reply is success exactly when publish returned True, names the topic (the configured one by default), and mentions the properties only when some were given |
| Server.ConsumeReplyFields | src/pulsar_mcp_server/server.py:218-233 | the count is the number of messages, `messages` is present exactly when there are some, in receive order, and `message` otherwise |
| Server.ConsumeReplyMeaning | src/pulsar_mcp_server/server.py:211-233 | the reply carries what consume returned, asked for max_messages (10 by default), and never lists more |
| Server.ConsumeNotClamped | src/pulsar_mcp_server/server.py:214-216 | a request for n messages with n deliverable gets all n, for any n |
| Server.ListTopicsReply | src/pulsar_mcp_server/server.py:262-264 | the listing reads back as list_topics' answer and its count is its length |
| Server.ListConnectorsReply | src/pulsar_mcp_server/server.py:279-288 | echoes the type (source by default), counts and lists the connectors, and lists none for another type |
| Server.AllConnectorsReply | src/pulsar_mcp_server/server.py:316-318 | both listings read back, and the total is the sum of their lengths |
| Server.EmptyAnswerIsError | src/pulsar_mcp_server/server.py:266-314 | stats, status and config replies are errors exactly when the answer was empty |
| Server.UnknownTool | src/pulsar_mcp_server/server.py:320-321 | any other name is answered "Unknown tool: <name>" and changes nothing |
| LegacyServer.HandleCallTool | server.py:139-163 | the method moves the connector and answers exactly as LegacyServer.Dispatch |
| LegacyServer.Cleanup | server.py:321-323 | shutdown disconnects exactly as Session.Disconnect |
| LegacyServer.ErrorTexts | server.py:172-175 | a missing message or topic is answered with its error text without touching the connector; an unknown tool gives "Error: Unknown tool: <name>" |
| LegacyServer.DispatchInv | server.py:144-163 | every tool keeps the invariant, and the read-only tools and error answers change nothing |
| LegacyServer.OutcomeTexts | server.py:179-253 | publish, create and delete texts start with their success phrase exactly when the call succeeded; a successful publish with properties ends with their repr |
| LegacyServer.PublishAndCreateMeaning | server.py:166-236 | publish and create move the connector as the connector call does and answer with the success text exactly when it returned True |
| LegacyServer.BlocksAreEnumerated | server.py:199-208 | the consume loop's text is the blocks of `enumerate(messages, 1)`, message i getting number i, in receive order |
| LegacyServer.FirstBlockFirst | server.py:200-203 | a non-empty batch's text opens with its count header and then message 1's block |
| LegacyServer.RenderConsumed | server.py:199-210 | the loop builds exactly ConsumedText |
| LegacyServer.PropertiesLineOnlyWhenGiven | server.py:202-208 | a block holds a Properties line only for a message with properties, placed right after the Data line; without properties the rest of the block is the same text |
| LegacyServer.TopicLinesAppend | server.py:266-267 | the lines of two lists one after the other are the lines of the joined list |
| LegacyServer.RenderTopics | server.py:264-269 | the loop builds exactly one line per topic, in order, after the count header |
| LegacyServer.ConsumeAndListTexts | server.py:209-210 | the "no messages" and "no topics" texts are given exactly for empty results |

## Left out

- Networking, asynchrony and the Pulsar client library's own behaviour: calls into it are the `Cluster` ledger.
- Pulsar.Producer, Pulsar.Consumer: `topic()` is taken to answer exactly the name the handle was created
  with, which is what the reuse tests in `publish_message` and `consume_messages` compare against. The client
  library itself answers the fully-qualified name (`persistent://public/default/my-topic` for `my-topic`), so
  for a short topic name such as the default `my-topic` the program closes and recreates its producer or
  consumer on every call. Session.PublishReusesProducer and Session.ConsumerKeyedOnTopic describe the reuse
  path, which that program reaches only for fully-qualified names.
  Whether a call raises, and what a receive delivers, are inputs.
- Building admin URLs, the bearer-token header, `requests`, and JSON decoding: the HTTP layer is an oracle from
  the requested resource to a status and a decoded body, or a raised request.
- Floating-point numbers: JSON numbers are integers.
- LegacyServer.StatsText: the statistics text is not rendered. Its `.2f` formatting of rates and sizes and its
  subscription lines are float formatting, so the answer is `StatsReport(topic, stats)`.
- Server.CallTool: `json.dumps(result, indent=2)` is not modelled; the reply is the result dict as a JSON value.
- Text.StrRepr: escapes backslash, the quote, `\n`, `\r`, `\t`, and other characters below 0x20 or equal to
  0x7f as `\xNN`. Non-ASCII non-printable characters, which Python also escapes, are left as they are.
- Text.Lower: lower-cases ASCII letters only. Python's `str.lower` also maps non-ASCII capitals, which could
  matter to the substring tests of `_is_connector` only for class or archive names outside ASCII.
- UTF-8 encoding of payloads and decoding of message data: strings are sequences of characters.
- Tools.Args: an argument given as an explicit JSON null, or with a value of the wrong type, is not modelled;
  a key is either absent or holds a value of its type.
- Admin.ListTopics: a 200 body that decodes to an object, a string, or an array holding a non-string is
  returned unchanged by the source, but lists nothing here; for a null, number or bool body `len` raises and
  the source returns [], as the model does.
- Admin.ListConnectorsSpec: a function listing that is not an array of strings also lists nothing.
- The `ValidationError` handler of `call_tool` (src/pulsar_mcp_server/server.py:323-331) is not modelled. No
  statement in the `try` raises that exception.
- The zeroed fallback of `get_all_connectors` (src/pulsar_mcp_server/pulsar_connector.py:457-465) cannot be
  reached, because `list_connectors` catches everything itself.
- `list_tools` / `handle_list_tools` (the tool schemas), the stdio and transport setup, and `main.py`: these
  are declarations and wiring, with no behaviour to prove.
- Logging.
- The packaged server's `.settings` module is not part of this model. `Server.ServerSettings` carries the two
  fields `call_tool` reads: the default topic and the default subscription name. The connector reads
  `Config.Settings`, whose fields and defaults follow the top-level `settings.py`. The loading of those
  settings from the environment is not modelled.
