/** The connection state of `PulsarConnector` as a value, and each of its
    stateful operations as a step from one state to the next. The fields are
    those of the class: `client`, `producer`, `consumer` and `_is_connected`;
    `ledger` is what the client library has been asked to do. The class in
    module Connector is proved to follow these steps exactly. */
module Session {

  import opened Wrappers
  import opened Pulsar
  import opened Config
  import Admin

  datatype State = State(
    client: Option<Client>,
    producer: Option<Producer>,
    consumer: Option<Consumer>,
    connected: bool,
    ledger: Ledger)

  /** The state `__init__` sets up. */
  const Initial := State(None, None, None, false, EmptyLedger)

  /** The state after an operation, and what the operation returned. */
  datatype Step<+T> = Step(after: State, out: T)

  /** Which library calls of one publish or consume raise: building the client
      in `connect`, closing the old producer/consumer, creating the new one
      (`create_producer` / `subscribe`), and `send`. */
  datatype Faults = Faults(connectFails: bool, closeFails: bool, createFails: bool, sendFails: bool)

  /** Which of the three `close()` calls of `disconnect` raise. */
  datatype CloseFaults = CloseFaults(consumerCloseFails: bool, producerCloseFails: bool, clientCloseFails: bool)

  // ------------------------------------------------------------ settings

  /** `consumer_type_map.get(settings.subscription_type, ConsumerType.Shared)`. */
  function ConsumerTypeOf(setting: string): (t: ConsumerType)
    ensures t == Exclusive <==> setting == "Exclusive"
    ensures t == Failover <==> setting == "Failover"
    ensures t == KeyShared <==> setting == "KeyShared"
    ensures t == Shared <==> setting != "Exclusive" && setting != "Failover" && setting != "KeyShared"
  {
    var typeMap := map["Exclusive" := Exclusive, "Shared" := Shared, "Failover" := Failover, "KeyShared" := KeyShared];
    if setting in typeMap then typeMap[setting] else Shared
  }

  /** Earliest exactly when `is_topic_read_from_beginning`. */
  function InitialPositionOf(readFromBeginning: bool): (p: InitialPosition)
    ensures p == Earliest <==> readFromBeginning
  {
    if readFromBeginning then Earliest else Latest
  }

  // ------------------------------------------------------------ invariant

  /** What every reachable state satisfies: handles name ledger entries bound
      to the handle's topic; every producer (consumer) the library issued and
      that is not closed is the one the connector holds, so at most one of each
      is open; producers carry the fixed send settings and consumers the
      subscription settings; sends and acks go through issued handles. */
  ghost predicate Inv(cfg: Settings, s: State)
  {
    var l := s.ledger;
    && (s.client.Some? ==> s.client.value.id < |l.clients|)
    && (forall i :: 0 <= i < |l.clients| ==> l.clients[i] == ClientConfOf(cfg))
    && ProducersInv(s.producer, l.producers, l.closedProducers, l.sent)
    && ConsumersInv(cfg, s.consumer, l.consumers, l.closedConsumers, l.acked)
  }

  /** The producer half of Inv. */
  ghost predicate ProducersInv(held: Option<Producer>, producers: seq<ProducerConf>, closed: set<nat>, sent: seq<Sent>)
  {
    && (held.Some? ==> held.value.id < |producers| && producers[held.value.id].topic == held.value.topic)
    && (forall i :: 0 <= i < |producers| && i !in closed ==> held == Some(Producer(i, producers[i].topic)))
    && (forall i :: 0 <= i < |producers| ==>
          producers[i].sendTimeoutMillis == SendTimeoutMillis && producers[i].batchingEnabled)
    && (forall k :: 0 <= k < |sent| ==> sent[k].producer < |producers|)
  }

  /** The consumer half of Inv. */
  ghost predicate ConsumersInv(cfg: Settings, held: Option<Consumer>, consumers: seq<Subscription>, closed: set<nat>, acked: seq<Ack>)
  {
    && (held.Some? ==> held.value.id < |consumers| && consumers[held.value.id].topic == held.value.topic)
    && (forall i :: 0 <= i < |consumers| && i !in closed ==> held == Some(Consumer(i, consumers[i].topic)))
    && (forall i :: 0 <= i < |consumers| ==>
          consumers[i].consumerType == ConsumerTypeOf(cfg.subscriptionType)
          && consumers[i].initialPosition == InitialPositionOf(cfg.isTopicReadFromBeginning))
    && (forall k :: 0 <= k < |acked| ==> acked[k].consumer < |consumers|)
  }

  lemma InitialInv(cfg: Settings)
    ensures Inv(cfg, Initial)
  {
  }

  /** At most one producer and one consumer are open at any time, and the open
      one is the one the connector holds. */
  lemma {:induction false} AtMostOneOpen(cfg: Settings, s: State)
    requires Inv(cfg, s)
    ensures |OpenProducers(s.ledger)| <= 1 && |OpenConsumers(s.ledger)| <= 1
    ensures forall i :: i in OpenProducers(s.ledger) ==> s.producer.Some? && s.producer.value.id == i
    ensures forall i :: i in OpenConsumers(s.ledger) ==> s.consumer.Some? && s.consumer.value.id == i
  {
    var held := if s.producer.Some? then {s.producer.value.id} else {};
    assert OpenProducers(s.ledger) <= held;
    SubsetCardLe(OpenProducers(s.ledger), held);
    var heldC := if s.consumer.Some? then {s.consumer.value.id} else {};
    assert OpenConsumers(s.ledger) <= heldC;
    SubsetCardLe(OpenConsumers(s.ledger), heldC);
  }

  lemma SubsetCardLe(a: set<nat>, b: set<nat>)
    requires a <= b
    ensures |a| <= |b|
  {
    assert b == a + (b - a);
  }

  // ------------------------------------------------------------ connect

  /** The `client_config` that `connect` builds from the settings. */
  function ClientConfOf(cfg: Settings): (c: ClientConf)
    ensures c.serviceUrl == cfg.pulsarServiceUrl
    ensures c.authToken.Some? <==> Given(cfg.pulsarToken)
    ensures c.authToken.Some? ==> c.authToken == cfg.pulsarToken
    ensures c.tlsTrustCertsFilePath.Some? <==> Given(cfg.pulsarTlsTrustCertsFilePath)
    ensures c.tlsTrustCertsFilePath.Some? ==> c.tlsTrustCertsFilePath == cfg.pulsarTlsTrustCertsFilePath
    ensures c.tlsAllowInsecureConnection.Some? <==> c.tlsTrustCertsFilePath.Some?
    ensures c.tlsAllowInsecureConnection.Some? ==>
              c.tlsAllowInsecureConnection.value == cfg.pulsarTlsAllowInsecureConnection
  {
    var tls := Given(cfg.pulsarTlsTrustCertsFilePath);
    ClientConf(
      cfg.pulsarServiceUrl,
      if Given(cfg.pulsarToken) then cfg.pulsarToken else None,
      if tls then cfg.pulsarTlsTrustCertsFilePath else None,
      if tls then Some(cfg.pulsarTlsAllowInsecureConnection) else None)
  }

  /** `connect`: `_is_connected` becomes True only after a client was built;
      when building it raises, `_is_connected` becomes False and nothing else
      changes. */
  function Connect(cfg: Settings, s: State, fails: bool): Step<bool>
  {
    if fails then Step(s.(connected := false), false)
    else
      Step(s.(client := Some(Client(|s.ledger.clients|)), connected := true,
              ledger := s.ledger.(clients := s.ledger.clients + [ClientConfOf(cfg)])), true)
  }

  /** `if not self._is_connected: await self.connect()`; the outcome of connect is ignored. */
  function EnsureConnected(cfg: Settings, s: State, fails: bool): State
  {
    if s.connected then s else Connect(cfg, s, fails).after
  }

  /** The answer is whether the client was built; a new client is built from
      the settings and becomes the held one, and nothing else changes. */
  lemma ConnectOutcome(cfg: Settings, s: State, fails: bool)
    requires Inv(cfg, s)
    ensures var r := Connect(cfg, s, fails);
            && Inv(cfg, r.after)
            && r.out == r.after.connected == !fails
            && (r.after.connected ==> r.after.client == Some(Client(|s.ledger.clients|))
                                      && r.after.ledger == s.ledger.(clients := s.ledger.clients + [ClientConfOf(cfg)]))
            && (!r.after.connected ==> r.after.client == s.client && r.after.ledger == s.ledger)
            && r.after.producer == s.producer && r.after.consumer == s.consumer
  {
  }

  /** Every client ever built carries the settings' service URL, and the token
      and TLS options exactly when those settings are given. */
  lemma ClientsFromSettings(cfg: Settings, s: State)
    requires Inv(cfg, s)
    ensures forall i :: 0 <= i < |s.ledger.clients| ==>
              && s.ledger.clients[i].serviceUrl == cfg.pulsarServiceUrl
              && (s.ledger.clients[i].authToken.Some? <==> Given(cfg.pulsarToken))
              && (s.ledger.clients[i].tlsTrustCertsFilePath.Some? <==> Given(cfg.pulsarTlsTrustCertsFilePath))
  {
  }

  /** Connecting while connected is not attempted: the state stays as it is. */
  lemma EnsureConnectedInv(cfg: Settings, s: State, fails: bool)
    requires Inv(cfg, s)
    ensures var t := EnsureConnected(cfg, s, fails);
            && Inv(cfg, t)
            && t.producer == s.producer && t.consumer == s.consumer
            && t.ledger.producers == s.ledger.producers && t.ledger.closedProducers == s.ledger.closedProducers
            && t.ledger.consumers == s.ledger.consumers && t.ledger.closedConsumers == s.ledger.closedConsumers
            && t.ledger.sent == s.ledger.sent && t.ledger.acked == s.ledger.acked
            && (s.connected ==> t == s)
  {
  }

  // ------------------------------------------------------------ disconnect

  function CloseHeldConsumer(s: State): State
    requires s.consumer.Some?
  {
    s.(consumer := None, ledger := s.ledger.(closedConsumers := s.ledger.closedConsumers + {s.consumer.value.id}))
  }

  function CloseHeldProducer(s: State): State
    requires s.producer.Some?
  {
    s.(producer := None, ledger := s.ledger.(closedProducers := s.ledger.closedProducers + {s.producer.value.id}))
  }

  function CloseHeldClient(s: State): State
    requires s.client.Some?
  {
    s.(client := None, ledger := s.ledger.(closedClients := s.ledger.closedClients + {s.client.value.id}))
  }

  /** `if self.consumer: self.consumer.close(); self.consumer = None`; `out`
      is False when the close raised. */
  function ConsumerCloseStage(s: State, fails: bool): Step<bool>
  {
    if s.consumer.None? then Step(s, true)
    else if fails then Step(s, false)
    else Step(CloseHeldConsumer(s), true)
  }

  function ProducerCloseStage(s: State, fails: bool): Step<bool>
  {
    if s.producer.None? then Step(s, true)
    else if fails then Step(s, false)
    else Step(CloseHeldProducer(s), true)
  }

  function ClientCloseStage(s: State, fails: bool): Step<bool>
  {
    if s.client.None? then Step(s, true)
    else if fails then Step(s, false)
    else Step(CloseHeldClient(s), true)
  }

  /** `disconnect`: one `try` around closing the consumer, the producer and the
      client in that order and then clearing `_is_connected`; the first close
      that raises ends it there. */
  function Disconnect(s: State, f: CloseFaults): State
  {
    var c := ConsumerCloseStage(s, f.consumerCloseFails);
    if !c.out then c.after
    else
      var p := ProducerCloseStage(c.after, f.producerCloseFails);
      if !p.out then p.after
      else
        var k := ClientCloseStage(p.after, f.clientCloseFails);
        if !k.out then k.after else k.after.(connected := false)
  }

  /** Which close of `disconnect` raised first, if any. */
  function DisconnectStop(s: State, f: CloseFaults): nat
  {
    if s.consumer.Some? && f.consumerCloseFails then 1
    else if s.producer.Some? && f.producerCloseFails then 2
    else if s.client.Some? && f.clientCloseFails then 3
    else 0
  }

  lemma DisconnectInv(cfg: Settings, s: State, f: CloseFaults)
    requires Inv(cfg, s)
    ensures Inv(cfg, Disconnect(s, f))
  {
    var c := ConsumerCloseStage(s, f.consumerCloseFails);
    ConsumerCloseInv(cfg, s, f.consumerCloseFails);
    var p := ProducerCloseStage(c.after, f.producerCloseFails);
    ProducerCloseInv(cfg, c.after, f.producerCloseFails);
    ClientCloseInv(cfg, p.after, f.clientCloseFails);
  }

  lemma ConsumerCloseInv(cfg: Settings, s: State, fails: bool)
    requires Inv(cfg, s)
    ensures Inv(cfg, ConsumerCloseStage(s, fails).after)
  {
  }

  lemma ProducerCloseInv(cfg: Settings, s: State, fails: bool)
    requires Inv(cfg, s)
    ensures Inv(cfg, ProducerCloseStage(s, fails).after)
  {
  }

  lemma ClientCloseInv(cfg: Settings, s: State, fails: bool)
    requires Inv(cfg, s)
    ensures Inv(cfg, ClientCloseStage(s, fails).after)
    ensures Inv(cfg, ClientCloseStage(s, fails).after.(connected := false))
  {
  }

  /** Each stage closes and clears its handle exactly when it holds one and the
      close does not raise, and touches nothing else. */
  lemma CloseStages(s: State, f: CloseFaults)
    ensures var c := ConsumerCloseStage(s, f.consumerCloseFails);
            && (c.out <==> s.consumer.None? || !f.consumerCloseFails)
            && c.after == (if s.consumer.Some? && c.out then CloseHeldConsumer(s) else s)
    ensures var p := ProducerCloseStage(s, f.producerCloseFails);
            && (p.out <==> s.producer.None? || !f.producerCloseFails)
            && p.after == (if s.producer.Some? && p.out then CloseHeldProducer(s) else s)
    ensures var k := ClientCloseStage(s, f.clientCloseFails);
            && (k.out <==> s.client.None? || !f.clientCloseFails)
            && k.after == (if s.client.Some? && k.out then CloseHeldClient(s) else s)
  {
  }

  /** Consumer, then producer, then client: each handle reached is closed in the
      ledger and cleared; the first raising close leaves its handle and
      everything after it, `_is_connected` included, as it was, and the ledger
      records no close past it. Nothing is sent, acknowledged or issued. */
  lemma DisconnectOutcome(s: State, f: CloseFaults)
    ensures var t := Disconnect(s, f);
            var stop := DisconnectStop(s, f);
            && (t.consumer == if stop == 1 then s.consumer else None)
            && (t.producer == if stop == 1 || stop == 2 then s.producer else None)
            && (t.client == if stop != 0 then s.client else None)
            && (t.connected == if stop != 0 then s.connected else false)
            && t.ledger == s.ledger.(
                 closedConsumers := s.ledger.closedConsumers +
                   (if s.consumer.Some? && stop != 1 then {s.consumer.value.id} else {}),
                 closedProducers := s.ledger.closedProducers +
                   (if s.producer.Some? && stop != 1 && stop != 2 then {s.producer.value.id} else {}),
                 closedClients := s.ledger.closedClients +
                   (if s.client.Some? && stop == 0 then {s.client.value.id} else {}))
  {
    var c := ConsumerCloseStage(s, f.consumerCloseFails);
    var p := ProducerCloseStage(c.after, f.producerCloseFails);
    CloseStages(s, f);
    CloseStages(c.after, f);
    CloseStages(p.after, f);
  }

  /** A disconnect that raises nowhere leaves no producer and no consumer open. */
  lemma {:induction false} DisconnectClosesAll(cfg: Settings, s: State, f: CloseFaults)
    requires Inv(cfg, s) && DisconnectStop(s, f) == 0
    ensures OpenProducers(Disconnect(s, f).ledger) == {} && OpenConsumers(Disconnect(s, f).ledger) == {}
  {
    DisconnectOutcome(s, f);
    var t := Disconnect(s, f);
    forall i | 0 <= i < |t.ledger.producers| ensures i in t.ledger.closedProducers {
      if i !in s.ledger.closedProducers { assert s.producer == Some(Producer(i, s.ledger.producers[i].topic)); }
    }
    forall i | 0 <= i < |t.ledger.consumers| ensures i in t.ledger.closedConsumers {
      if i !in s.ledger.closedConsumers { assert s.consumer == Some(Consumer(i, s.ledger.consumers[i].topic)); }
    }
  }

  // ------------------------------------------------------------ publish

  /** `properties or {}`. */
  function PropsOr(properties: Option<Props>): Props
  {
    GetOr(properties, [])
  }

  /** `client.create_producer(topic, send_timeout_millis=30000, batching_enabled=True)` stored in `self.producer`. */
  function NewProducer(s: State, topic: string): State
  {
    s.(producer := Some(Producer(|s.ledger.producers|, topic)),
       ledger := s.ledger.(producers := s.ledger.producers + [ProducerConf(topic, SendTimeoutMillis, true)]))
  }

  /** The old producer's `close()`; `self.producer` keeps referring to it. */
  function MarkProducerClosed(s: State): State
    requires s.producer.Some?
  {
    s.(ledger := s.ledger.(closedProducers := s.ledger.closedProducers + {s.producer.value.id}))
  }

  function Send(s: State, message: string, properties: Option<Props>, fails: bool): Step<bool>
    requires s.producer.Some?
  {
    if fails then Step(s, false)
    else Step(s.(ledger := s.ledger.(sent := s.ledger.sent + [Sent(s.producer.value.id, message, PropsOr(properties))])), true)
  }

  /** The producer half of `publish_message` before `send`: reuse the held
      producer when it is bound to the topic, else close it (a raising close
      ends the call) and create one on the client; `out` says whether a
      producer for the topic is held afterwards. */
  function ProducerFor(s: State, topic: string, f: Faults): (r: Step<bool>)
    ensures r.out ==> r.after.producer.Some? && r.after.producer.value.topic == topic
  {
    if s.producer.Some? && s.producer.value.topic == topic then Step(s, true)
    else if s.producer.Some? && f.closeFails then Step(s, false)
    else
      var s2 := if s.producer.Some? then MarkProducerClosed(s) else s;
      if s2.client.None? || f.createFails then Step(s2, false)
      else Step(NewProducer(s2, topic), true)
  }

  /** `publish_message`. */
  function Publish(cfg: Settings, s: State, topic: string, message: string, properties: Option<Props>, f: Faults): Step<bool>
  {
    var r := ProducerFor(EnsureConnected(cfg, s, f.connectFails), topic, f);
    if r.out then Send(r.after, message, properties, f.sendFails) else r
  }

  lemma PublishInv(cfg: Settings, s: State, topic: string, message: string, properties: Option<Props>, f: Faults)
    requires Inv(cfg, s)
    ensures Inv(cfg, Publish(cfg, s, topic, message, properties, f).after)
  {
    EnsureConnectedInv(cfg, s, f.connectFails);
    var s1 := EnsureConnected(cfg, s, f.connectFails);
    ProducerForInv(cfg, s1, topic, f);
    var r := ProducerFor(s1, topic, f);
    if r.out {
      SendInv(cfg, r.after, message, properties, f.sendFails);
    }
  }

  lemma ProducerForInv(cfg: Settings, s: State, topic: string, f: Faults)
    requires Inv(cfg, s)
    ensures Inv(cfg, ProducerFor(s, topic, f).after)
  {
    if !(s.producer.Some? && s.producer.value.topic == topic) && !(s.producer.Some? && f.closeFails) {
      var s2 := if s.producer.Some? then MarkProducerClosed(s) else s;
      ReleaseProducerInv(cfg, s);
      if !(s2.client.None? || f.createFails) {
        NewProducerInv(cfg, s2, topic);
      }
    }
  }

  /** Closing the held producer (or holding none) leaves no producer open. */
  lemma ReleaseProducerInv(cfg: Settings, s: State)
    requires Inv(cfg, s)
    ensures var t := if s.producer.Some? then MarkProducerClosed(s) else s;
            Inv(cfg, t) && forall i :: 0 <= i < |t.ledger.producers| ==> i in t.ledger.closedProducers
  {
    var t := if s.producer.Some? then MarkProducerClosed(s) else s;
    forall i | 0 <= i < |t.ledger.producers| ensures i in t.ledger.closedProducers {
      if i !in s.ledger.closedProducers { assert s.producer == Some(Producer(i, s.ledger.producers[i].topic)); }
    }
  }

  lemma NewProducerInv(cfg: Settings, s: State, topic: string)
    requires Inv(cfg, s) && forall i :: 0 <= i < |s.ledger.producers| ==> i in s.ledger.closedProducers
    ensures Inv(cfg, NewProducer(s, topic))
  {
    var t := NewProducer(s, topic);
    forall i | 0 <= i < |t.ledger.producers| && i !in t.ledger.closedProducers
      ensures t.producer == Some(Producer(i, t.ledger.producers[i].topic))
    {
    }
  }

  lemma SendInv(cfg: Settings, s: State, message: string, properties: Option<Props>, fails: bool)
    requires Inv(cfg, s) && s.producer.Some?
    ensures Inv(cfg, Send(s, message, properties, fails).after)
  {
  }

  /** A producer already bound to the topic is reused: no producer is closed or
      created, and the message goes out on it. */
  lemma PublishReusesProducer(cfg: Settings, s: State, topic: string, message: string, properties: Option<Props>, f: Faults)
    requires s.producer.Some? && s.producer.value.topic == topic
    ensures var r := Publish(cfg, s, topic, message, properties, f);
            && r.after.producer == s.producer
            && r.after.ledger.producers == s.ledger.producers
            && r.after.ledger.closedProducers == s.ledger.closedProducers
            && r.out == !f.sendFails
  {
  }

  /** Otherwise the held producer, if any, is closed before a new one is created;
      a new one is created exactly when that close, the client lookup and the
      creation all succeed, and it is bound to the topic with the fixed send
      settings. When creation fails after the close, `self.producer` still holds
      the closed producer. */
  lemma PublishReplacesProducer(cfg: Settings, s: State, topic: string, message: string, properties: Option<Props>, f: Faults)
    requires Inv(cfg, s)
    requires s.producer.None? || s.producer.value.topic != topic
    ensures var r := Publish(cfg, s, topic, message, properties, f);
            var created := (s.producer.None? || !f.closeFails)
                           && EnsureConnected(cfg, s, f.connectFails).client.Some? && !f.createFails;
            && (|r.after.ledger.producers| == |s.ledger.producers| + 1 <==> created)
            && (!created ==> r.after.ledger.producers == s.ledger.producers && !r.out)
            && (created ==>
                  r.after.producer == Some(Producer(|s.ledger.producers|, topic))
                  && r.after.ledger.producers == s.ledger.producers + [ProducerConf(topic, SendTimeoutMillis, true)])
            && r.after.ledger.closedProducers == s.ledger.closedProducers +
                 (if s.producer.Some? && !f.closeFails then {s.producer.value.id} else {})
            && (s.producer.Some? && f.closeFails ==> r.after.producer == s.producer && !r.out)
            && (s.producer.Some? && !f.closeFails && !created ==> r.after.producer == s.producer)
  {
    EnsureConnectedInv(cfg, s, f.connectFails);
  }

  /** `publish_message` answers True exactly when `send` was reached and
      succeeded; the message then went out, with `properties or {}`, on a
      producer bound to the requested topic. False sends nothing. */
  lemma PublishSends(cfg: Settings, s: State, topic: string, message: string, properties: Option<Props>, f: Faults)
    requires Inv(cfg, s)
    ensures var r := Publish(cfg, s, topic, message, properties, f);
            && (r.out ==>
                  r.after.producer.Some? && r.after.producer.value.topic == topic
                  && r.after.ledger.producers[r.after.producer.value.id].topic == topic
                  && r.after.ledger.sent == s.ledger.sent + [Sent(r.after.producer.value.id, message, PropsOr(properties))])
            && (!r.out ==> r.after.ledger.sent == s.ledger.sent)
  {
    EnsureConnectedInv(cfg, s, f.connectFails);
    PublishInv(cfg, s, topic, message, properties, f);
  }

  // ------------------------------------------------------------ consume

  /** Receive slot i of the script; a script that has run out times out. */
  function Slot(script: seq<Receipt>, i: nat): Receipt
  {
    if i < |script| then script[i] else Timeout
  }

  /** How many of the first n slots deliver a message before the first slot that does not. */
  function Leading(script: seq<Receipt>, n: nat): (k: nat)
    ensures k <= n
    ensures forall j :: 0 <= j < k ==> Slot(script, j).Msg?
    ensures k < n ==> !Slot(script, k).Msg?
    decreases n
  {
    if n == 0 || !Slot(script, 0).Msg? then 0
    else
      var k := 1 + Leading(script[1..], n - 1);
      assert forall j :: 1 <= j < k ==> Slot(script, j) == Slot(script[1..], j - 1);
      assert k < n ==> Slot(script, k) == Slot(script[1..], k - 1);
      k
  }

  /** The messages of the first k slots, in receive order. */
  function Collected(script: seq<Receipt>, k: nat): (ms: seq<Message>)
    requires forall j :: 0 <= j < k ==> Slot(script, j).Msg?
    ensures |ms| == k
    ensures forall j :: 0 <= j < k ==> Slot(script, j) == Msg(ms[j])
  {
    if k == 0 then [] else Collected(script, k - 1) + [Slot(script, k - 1).m]
  }

  /** What the drain loop acknowledged and what `consume_messages` returns. */
  datatype Drained = Drained(acked: seq<Message>, returned: seq<Message>)

  /** The drain loop over `range(max_messages)` (no iteration for max_messages <= 0):
      runs of delivered messages are appended and acknowledged; a Timeout ends the
      loop and keeps them; a Fatal receive or a raising acknowledgement makes the
      whole call return `[]`. */
  function DrainSpec(script: seq<Receipt>, maxMessages: int): Drained
  {
    var n := if maxMessages < 0 then 0 else maxMessages;
    var k := Leading(script, n);
    var got := Collected(script, k);
    if k == n || Slot(script, k).Timeout? then Drained(got, got) else Drained(got, [])
  }

  /** Leading is determined by where the first non-message slot is. */
  lemma LeadingIs(script: seq<Receipt>, n: nat, k: nat)
    requires k <= n
    requires forall j :: 0 <= j < k ==> Slot(script, j).Msg?
    requires k < n ==> !Slot(script, k).Msg?
    ensures Leading(script, n) == k
  {
  }

  /** At most max_messages receives, results in receive order, and what is
      returned was acknowledged. */
  lemma DrainBounded(script: seq<Receipt>, maxMessages: int)
    ensures var d := DrainSpec(script, maxMessages);
            && |d.acked| <= (if maxMessages < 0 then 0 else maxMessages)
            && (d.returned == d.acked || d.returned == [])
            && forall j :: 0 <= j < |d.acked| ==> Slot(script, j) == Msg(d.acked[j])
  {
  }

  /** A timeout at slot k, after k delivered messages and inside the budget,
      ends the loop with exactly those k messages. */
  lemma DrainTimeoutKeepsPartial(script: seq<Receipt>, maxMessages: int, k: nat)
    requires k < maxMessages
    requires forall j :: 0 <= j < k ==> Slot(script, j).Msg?
    requires Slot(script, k) == Timeout
    ensures DrainSpec(script, maxMessages).returned == Collected(script, k)
    ensures DrainSpec(script, maxMessages).acked == Collected(script, k)
  {
    LeadingIs(script, maxMessages, k);
  }

  /** Any other failure at slot k inside the budget discards the collected
      messages, though the k before it stay acknowledged. */
  lemma DrainFailureDiscards(script: seq<Receipt>, maxMessages: int, k: nat)
    requires k < maxMessages
    requires forall j :: 0 <= j < k ==> Slot(script, j).Msg?
    requires Slot(script, k).Fatal? || Slot(script, k).AckFails?
    ensures DrainSpec(script, maxMessages).returned == []
    ensures DrainSpec(script, maxMessages).acked == Collected(script, k)
  {
    LeadingIs(script, maxMessages, k);
  }

  /** When every slot of the budget delivers, exactly max_messages messages come back. */
  lemma DrainFullBatch(script: seq<Receipt>, maxMessages: nat)
    requires forall j :: 0 <= j < maxMessages ==> Slot(script, j).Msg?
    ensures |DrainSpec(script, maxMessages).returned| == maxMessages
  {
    LeadingIs(script, maxMessages, maxMessages);
  }

  /** `client.subscribe(...)` stored in `self.consumer`, with the type and initial
      position taken from the settings. */
  function NewConsumer(cfg: Settings, s: State, topic: string, subscriptionName: string): State
  {
    s.(consumer := Some(Consumer(|s.ledger.consumers|, topic)),
       ledger := s.ledger.(consumers := s.ledger.consumers +
         [Subscription(topic, subscriptionName, ConsumerTypeOf(cfg.subscriptionType),
                       InitialPositionOf(cfg.isTopicReadFromBeginning))]))
  }

  function MarkConsumerClosed(s: State): State
    requires s.consumer.Some?
  {
    s.(ledger := s.ledger.(closedConsumers := s.ledger.closedConsumers + {s.consumer.value.id}))
  }

  /** The drain loop on the held consumer. */
  function Drain(s: State, maxMessages: int, script: seq<Receipt>): Step<seq<Message>>
    requires s.consumer.Some?
  {
    var d := DrainSpec(script, maxMessages);
    Step(s.(ledger := s.ledger.(acked := s.ledger.acked + Acks(s.consumer.value.id, d.acked))), d.returned)
  }

  /** The consumer half of `consume_messages` before the loop, keyed on the
      topic alone; `out` says whether a consumer for the topic is held afterwards. */
  function ConsumerFor(cfg: Settings, s: State, topic: string, subscriptionName: string, f: Faults): (r: Step<bool>)
    ensures r.out ==> r.after.consumer.Some? && r.after.consumer.value.topic == topic
  {
    if s.consumer.Some? && s.consumer.value.topic == topic then Step(s, true)
    else if s.consumer.Some? && f.closeFails then Step(s, false)
    else
      var s2 := if s.consumer.Some? then MarkConsumerClosed(s) else s;
      if s2.client.None? || f.createFails then Step(s2, false)
      else Step(NewConsumer(cfg, s2, topic, subscriptionName), true)
  }

  /** `consume_messages`. */
  function Consume(cfg: Settings, s: State, topic: string, subscriptionName: string, maxMessages: int,
                   f: Faults, script: seq<Receipt>): Step<seq<Message>>
  {
    var r := ConsumerFor(cfg, EnsureConnected(cfg, s, f.connectFails), topic, subscriptionName, f);
    if r.out then Drain(r.after, maxMessages, script) else Step(r.after, [])
  }

  /** `consume_messages` returns `[]` or what the drain loop returns, so never
      more than max_messages messages. */
  lemma ConsumeBounded(cfg: Settings, s: State, topic: string, subscriptionName: string, maxMessages: int,
                        f: Faults, script: seq<Receipt>)
    ensures var out := Consume(cfg, s, topic, subscriptionName, maxMessages, f, script).out;
            && (out == [] || out == DrainSpec(script, maxMessages).returned)
            && |out| <= (if maxMessages < 0 then 0 else maxMessages)
  {
    DrainBounded(script, maxMessages);
  }

  lemma ConsumeInv(cfg: Settings, s: State, topic: string, subscriptionName: string, maxMessages: int,
                   f: Faults, script: seq<Receipt>)
    requires Inv(cfg, s)
    ensures Inv(cfg, Consume(cfg, s, topic, subscriptionName, maxMessages, f, script).after)
  {
    EnsureConnectedInv(cfg, s, f.connectFails);
    var s1 := EnsureConnected(cfg, s, f.connectFails);
    ConsumerForInv(cfg, s1, topic, subscriptionName, f);
    var r := ConsumerFor(cfg, s1, topic, subscriptionName, f);
    if r.out {
      DrainInv(cfg, r.after, maxMessages, script);
    }
  }

  lemma ConsumerForInv(cfg: Settings, s: State, topic: string, subscriptionName: string, f: Faults)
    requires Inv(cfg, s)
    ensures Inv(cfg, ConsumerFor(cfg, s, topic, subscriptionName, f).after)
  {
    if !(s.consumer.Some? && s.consumer.value.topic == topic) && !(s.consumer.Some? && f.closeFails) {
      var s2 := if s.consumer.Some? then MarkConsumerClosed(s) else s;
      ReleaseConsumerInv(cfg, s);
      if !(s2.client.None? || f.createFails) {
        NewConsumerInv(cfg, s2, topic, subscriptionName);
      }
    }
  }

  /** Closing the held consumer (or holding none) leaves no consumer open. */
  lemma ReleaseConsumerInv(cfg: Settings, s: State)
    requires Inv(cfg, s)
    ensures var t := if s.consumer.Some? then MarkConsumerClosed(s) else s;
            Inv(cfg, t) && forall i :: 0 <= i < |t.ledger.consumers| ==> i in t.ledger.closedConsumers
  {
    var t := if s.consumer.Some? then MarkConsumerClosed(s) else s;
    forall i | 0 <= i < |t.ledger.consumers| ensures i in t.ledger.closedConsumers {
      if i !in s.ledger.closedConsumers { assert s.consumer == Some(Consumer(i, s.ledger.consumers[i].topic)); }
    }
  }

  lemma NewConsumerInv(cfg: Settings, s: State, topic: string, subscriptionName: string)
    requires Inv(cfg, s) && forall i :: 0 <= i < |s.ledger.consumers| ==> i in s.ledger.closedConsumers
    ensures Inv(cfg, NewConsumer(cfg, s, topic, subscriptionName))
  {
    var t := NewConsumer(cfg, s, topic, subscriptionName);
    forall i | 0 <= i < |t.ledger.consumers| && i !in t.ledger.closedConsumers
      ensures t.consumer == Some(Consumer(i, t.ledger.consumers[i].topic))
    {
    }
  }

  lemma DrainInv(cfg: Settings, s: State, maxMessages: int, script: seq<Receipt>)
    requires Inv(cfg, s) && s.consumer.Some?
    ensures Inv(cfg, Drain(s, maxMessages, script).after)
  {
    var t := Drain(s, maxMessages, script).after;
    var a := Acks(s.consumer.value.id, DrainSpec(script, maxMessages).acked);
    forall k | 0 <= k < |t.ledger.acked| ensures t.ledger.acked[k].consumer < |t.ledger.consumers| {
      if k >= |s.ledger.acked| { assert t.ledger.acked[k] == a[k - |s.ledger.acked|]; }
    }
  }

  /** The consumer cache is keyed on the topic alone: a held consumer bound to
      the topic is reused whatever subscription name is asked for, and the call
      returns what the drain loop returns. */
  lemma ConsumerKeyedOnTopic(cfg: Settings, s: State, topic: string, subscriptionName: string, maxMessages: int,
                             f: Faults, script: seq<Receipt>)
    requires s.consumer.Some? && s.consumer.value.topic == topic
    ensures var r := Consume(cfg, s, topic, subscriptionName, maxMessages, f, script);
            && r.after.consumer == s.consumer
            && r.after.ledger.consumers == s.ledger.consumers
            && r.after.ledger.closedConsumers == s.ledger.closedConsumers
            && r.out == DrainSpec(script, maxMessages).returned
            && r.after.ledger.acked == s.ledger.acked + Acks(s.consumer.value.id, DrainSpec(script, maxMessages).acked)
  {
  }

  /** Otherwise the held consumer, if any, is closed first; a new one is
      subscribed exactly when that close, the client lookup and the subscribe
      succeed, with the requested subscription name and the type and position
      from the settings, and its drain result is returned. If no consumer is
      obtained the call returns `[]`. */
  lemma ConsumerReplaced(cfg: Settings, s: State, topic: string, subscriptionName: string, maxMessages: int,
                         f: Faults, script: seq<Receipt>)
    requires Inv(cfg, s)
    requires s.consumer.None? || s.consumer.value.topic != topic
    ensures var r := Consume(cfg, s, topic, subscriptionName, maxMessages, f, script);
            var created := (s.consumer.None? || !f.closeFails)
                           && EnsureConnected(cfg, s, f.connectFails).client.Some? && !f.createFails;
            && (created ==>
                  r.after.consumer == Some(Consumer(|s.ledger.consumers|, topic))
                  && r.after.ledger.consumers == s.ledger.consumers +
                       [Subscription(topic, subscriptionName, ConsumerTypeOf(cfg.subscriptionType),
                                     InitialPositionOf(cfg.isTopicReadFromBeginning))]
                  && r.out == DrainSpec(script, maxMessages).returned)
            && (!created ==> r.after.ledger.consumers == s.ledger.consumers && r.out == []
                             && r.after.ledger.acked == s.ledger.acked)
            && r.after.ledger.closedConsumers == s.ledger.closedConsumers +
                 (if s.consumer.Some? && !f.closeFails then {s.consumer.value.id} else {})
            && (s.consumer.Some? && f.closeFails ==> r.after.consumer == s.consumer && r.out == [])
            && (s.consumer.Some? && !f.closeFails && !created ==> r.after.consumer == s.consumer)
  {
    EnsureConnectedInv(cfg, s, f.connectFails);
  }

  // ------------------------------------------------------------ create topic

  /** `create_topic`: connects first when not connected, then the admin call
      decides the answer whatever the connection did. */
  function CreateTopic(cfg: Settings, s: State, topic: string, partitions: int, connectFails: bool, http: Admin.Http): Step<bool>
  {
    Step(EnsureConnected(cfg, s, connectFails), Admin.CreateTopic(http, topic, partitions))
  }

  lemma CreateTopicInv(cfg: Settings, s: State, topic: string, partitions: int, connectFails: bool, http: Admin.Http)
    requires Inv(cfg, s)
    ensures Inv(cfg, CreateTopic(cfg, s, topic, partitions, connectFails, http).after)
  {
    EnsureConnectedInv(cfg, s, connectFails);
  }
}
