/** `PulsarConnector` as the class it is: its four fields are updated in place
    by each operation, and the client library behind it is a `Cluster`. Each
    method is proved to move the connector and the cluster exactly as the
    matching step of module Session says, and to keep Session's invariant.
    The admin operations, which read no field, are the functions of module
    Admin. */
module Connector {

  import opened Wrappers
  import opened Pulsar
  import opened Config
  import Admin
  import Session

  class PulsarConnector {
    const settings: Settings
    const cluster: Cluster
    var client: Option<Client>
    var producer: Option<Producer>
    var consumer: Option<Consumer>
    var isConnected: bool

    /** The connector and its cluster as a Session state. */
    function Snapshot(): Session.State
      reads this, cluster
    {
      Session.State(client, producer, consumer, isConnected, cluster.Record())
    }

    ghost predicate Valid()
      reads this, cluster
    {
      Session.Inv(settings, Snapshot())
    }

    /** `__init__`: no client, producer or consumer, not connected. */
    constructor (settings: Settings)
      ensures this.settings == settings && fresh(cluster)
      ensures Snapshot() == Session.Initial
      ensures Valid()
    {
      this.settings := settings;
      cluster := new Cluster();
      client, producer, consumer := None, None, None;
      isConnected := false;
      new;
      Session.InitialInv(settings);
    }

    /** `connect`. */
    method Connect(fails: bool) returns (ok: bool)
      requires Valid()
      modifies this, cluster
      ensures Valid()
      ensures Session.Step(Snapshot(), ok) == Session.Connect(settings, old(Snapshot()), fails)
    {
      Session.ConnectOutcome(settings, Snapshot(), fails);
      var c := cluster.NewClient(Session.ClientConfOf(settings), fails);
      if c.None? {
        isConnected := false;
        return false;
      }
      client := c;
      isConnected := true;
      ok := true;
    }

    /** `if not self._is_connected: await self.connect()`. */
    method EnsureConnected(fails: bool)
      requires Valid()
      modifies this, cluster
      ensures Valid()
      ensures Snapshot() == Session.EnsureConnected(settings, old(Snapshot()), fails)
    {
      if !isConnected {
        var connected := Connect(fails);
      }
    }

    /** `disconnect`: consumer, producer, client, then the flag, all in one `try`. */
    method Disconnect(f: Session.CloseFaults)
      requires Valid()
      modifies this, cluster
      ensures Valid()
      ensures Snapshot() == Session.Disconnect(old(Snapshot()), f)
    {
      Session.DisconnectInv(settings, Snapshot(), f);
      var ok := CloseConsumer(f.consumerCloseFails);
      if !ok { return; }
      ok := CloseProducer(f.producerCloseFails);
      if !ok { return; }
      ok := CloseClient(f.clientCloseFails);
      if !ok { return; }
      isConnected := false;
    }

    method CloseConsumer(fails: bool) returns (ok: bool)
      modifies this, cluster
      ensures Session.Step(Snapshot(), ok) == Session.ConsumerCloseStage(old(Snapshot()), fails)
    {
      ok := true;
      if consumer.Some? {
        ok := cluster.CloseConsumer(consumer.value, fails);
        if ok { consumer := None; }
      }
    }

    method CloseProducer(fails: bool) returns (ok: bool)
      modifies this, cluster
      ensures Session.Step(Snapshot(), ok) == Session.ProducerCloseStage(old(Snapshot()), fails)
    {
      ok := true;
      if producer.Some? {
        ok := cluster.CloseProducer(producer.value, fails);
        if ok { producer := None; }
      }
    }

    method CloseClient(fails: bool) returns (ok: bool)
      modifies this, cluster
      ensures Session.Step(Snapshot(), ok) == Session.ClientCloseStage(old(Snapshot()), fails)
    {
      ok := true;
      if client.Some? {
        ok := cluster.CloseClient(client.value, fails);
        if ok { client := None; }
      }
    }

    /** `publish_message`; an exception anywhere in it gives False. */
    method PublishMessage(topic: string, message: string, properties: Option<Props>, f: Session.Faults)
      returns (ok: bool)
      requires Valid()
      modifies this, cluster
      ensures Valid()
      ensures Session.Step(Snapshot(), ok) == Session.Publish(settings, old(Snapshot()), topic, message, properties, f)
    {
      Session.PublishInv(settings, Snapshot(), topic, message, properties, f);
      EnsureConnected(f.connectFails);
      ok := ProducerFor(topic, f);
      if ok {
        ok := cluster.Send(producer.value, message, Session.PropsOr(properties), f.sendFails);
      }
    }

    /** Lines 74-82 of `publish_message`. */
    method ProducerFor(topic: string, f: Session.Faults) returns (held: bool)
      modifies this, cluster
      ensures Session.Step(Snapshot(), held) == Session.ProducerFor(old(Snapshot()), topic, f)
    {
      if producer.Some? && producer.value.topic == topic {
        return true;
      }
      if producer.Some? {
        var closed := cluster.CloseProducer(producer.value, f.closeFails);
        if !closed { return false; }
      }
      if client.None? { return false; }
      var p := cluster.CreateProducer(topic, SendTimeoutMillis, true, f.createFails);
      if p.None? { return false; }
      producer := p;
      held := true;
    }

    /** `consume_messages`; an exception anywhere in it gives `[]`. */
    method ConsumeMessages(topic: string, subscriptionName: string, maxMessages: int,
                           f: Session.Faults, script: seq<Receipt>)
      returns (messages: seq<Message>)
      requires Valid()
      modifies this, cluster
      ensures Valid()
      ensures Session.Step(Snapshot(), messages)
              == Session.Consume(settings, old(Snapshot()), topic, subscriptionName, maxMessages, f, script)
    {
      Session.ConsumeInv(settings, Snapshot(), topic, subscriptionName, maxMessages, f, script);
      EnsureConnected(f.connectFails);
      var held := ConsumerFor(topic, subscriptionName, f);
      if !held { return []; }
      messages := Drain(maxMessages, script);
    }

    /** Lines 104-133 of `consume_messages`. */
    method ConsumerFor(topic: string, subscriptionName: string, f: Session.Faults) returns (held: bool)
      modifies this, cluster
      ensures Session.Step(Snapshot(), held) == Session.ConsumerFor(settings, old(Snapshot()), topic, subscriptionName, f)
    {
      if consumer.Some? && consumer.value.topic == topic {
        return true;
      }
      if consumer.Some? {
        var closed := cluster.CloseConsumer(consumer.value, f.closeFails);
        if !closed { return false; }
      }
      if client.None? { return false; }
      var c := cluster.Subscribe(topic, subscriptionName, Session.ConsumerTypeOf(settings.subscriptionType),
                                 Session.InitialPositionOf(settings.isTopicReadFromBeginning), f.createFails);
      if c.None? { return false; }
      consumer := c;
      held := true;
    }

    /** `create_topic`: connect when not connected, then the admin call. */
    method CreateTopic(topic: string, partitions: int, connectFails: bool, http: Admin.Http) returns (ok: bool)
      requires Valid()
      modifies this, cluster
      ensures Valid()
      ensures Session.Step(Snapshot(), ok) == Session.CreateTopic(settings, old(Snapshot()), topic, partitions, connectFails, http)
    {
      EnsureConnected(connectFails);
      ok := Admin.CreateTopic(http, topic, partitions);
    }

    /** The `for _ in range(max_messages)` loop of `consume_messages` on the
        held consumer: receive with a timeout, append, acknowledge; a timeout
        ends the loop, any other exception ends the call with `[]`. */
    method Drain(maxMessages: int, script: seq<Receipt>) returns (messages: seq<Message>)
      requires consumer.Some?
      modifies cluster
      ensures Session.Step(Snapshot(), messages) == Session.Drain(old(Snapshot()), maxMessages, script)
    {
      ghost var start := Snapshot();
      var c := consumer.value;
      var n := if maxMessages < 0 then 0 else maxMessages;
      messages := [];
      var i := 0;
      while i < n
        invariant 0 <= i <= n
        invariant forall j :: 0 <= j < i ==> Session.Slot(script, j).Msg?
        invariant messages == Session.Collected(script, i)
        invariant Snapshot() == start.(ledger := start.ledger.(acked := start.ledger.acked + Acks(c.id, messages)))
      {
        var r := Session.Slot(script, i);
        if r.Timeout? {
          Session.LeadingIs(script, n, i);
          return;
        }
        if r.Fatal? {
          Session.LeadingIs(script, n, i);
          return [];
        }
        ghost var before := messages;
        messages := messages + [r.m];
        var acked := cluster.Acknowledge(c, r.m, r.AckFails?);
        if !acked {
          Session.LeadingIs(script, n, i);
          return [];
        }
        Pulsar.AcksSnoc(c.id, before, r.m);
        i := i + 1;
      }
      Session.LeadingIs(script, n, i);
    }
  }
}
