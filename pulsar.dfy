/** The boundary to the Pulsar client library. The library itself is not modelled:
    a Cluster object keeps a ledger of every client, producer and consumer handed
    out and closed, every message sent and every acknowledgement, and whether a
    call raises is given by the caller of the model. Handles are record values
    carrying the ledger index they were issued under. */
module Pulsar {

  import opened Wrappers

  /** Message properties, a string-to-string dict kept in insertion order. */
  type Props = seq<(string, string)>

  /** Producers are created with `send_timeout_millis=30000, batching_enabled=True`. */
  const SendTimeoutMillis := 30000

  datatype ConsumerType = Exclusive | Shared | Failover | KeyShared

  datatype InitialPosition = Earliest | Latest

  /** One delivered message, as the dict the consumer builds for it. */
  datatype Message = Message(
    messageId: string,
    data: string,
    properties: Props,
    topicName: string,
    publishTimestamp: int,
    eventTimestamp: int)

  /** What one receive-and-acknowledge step of the drain loop meets; each
      `receive` waits `timeout_millis=1000`, and a `Timeout` stands for that
      wait running out. */
  datatype Receipt =
    | Msg(m: Message)          // a message arrives and its acknowledgement succeeds
    | Timeout                  // `pulsar.Timeout`: nothing arrived within the timeout
    | Fatal                    // receive raised any other exception
    | AckFails(m: Message)     // a message arrives and its acknowledgement raises

  datatype Client = Client(id: nat)

  /** A producer handle; `topic` is what `producer.topic()` answers, taken to
      be the name the producer was created with. */
  datatype Producer = Producer(id: nat, topic: string)

  /** A consumer handle; `topic` is what `consumer.topic()` answers, taken to
      be the name the consumer subscribed with. */
  datatype Consumer = Consumer(id: nat, topic: string)

  datatype ProducerConf = ProducerConf(topic: string, sendTimeoutMillis: int, batchingEnabled: bool)

  datatype Subscription = Subscription(
    topic: string,
    name: string,
    consumerType: ConsumerType,
    initialPosition: InitialPosition)

  /** The keyword arguments of `pulsar.Client(...)`: the service URL, the
      authentication token if one was passed, and the TLS pair if passed. */
  datatype ClientConf = ClientConf(
    serviceUrl: string,
    authToken: Option<string>,
    tlsTrustCertsFilePath: Option<string>,
    tlsAllowInsecureConnection: Option<bool>)

  datatype Sent = Sent(producer: nat, payload: string, properties: Props)

  datatype Ack = Ack(consumer: nat, message: Message)

  /** Everything the library has been asked to do that succeeded. Entry i of
      `producers` (`consumers`) is the producer (consumer) with id i. */
  datatype Ledger = Ledger(
    clients: seq<ClientConf>,
    closedClients: set<nat>,
    producers: seq<ProducerConf>,
    closedProducers: set<nat>,
    consumers: seq<Subscription>,
    closedConsumers: set<nat>,
    sent: seq<Sent>,
    acked: seq<Ack>)

  const EmptyLedger := Ledger([], {}, [], {}, [], {}, [], [])

  /** Producers issued and not closed. */
  function OpenProducers(l: Ledger): set<nat>
  {
    set i | 0 <= i < |l.producers| && i !in l.closedProducers
  }

  /** Consumers issued and not closed. */
  function OpenConsumers(l: Ledger): set<nat>
  {
    set i | 0 <= i < |l.consumers| && i !in l.closedConsumers
  }

  /** The acknowledgements of `ms`, in order, on consumer `c`. */
  function Acks(c: nat, ms: seq<Message>): (r: seq<Ack>)
    ensures |r| == |ms|
    ensures forall i :: 0 <= i < |ms| ==> r[i] == Ack(c, ms[i])
  {
    if ms == [] then [] else [Ack(c, ms[0])] + Acks(c, ms[1..])
  }

  /** Acknowledging one more message appends its acknowledgement. */
  lemma AcksSnoc(c: nat, ms: seq<Message>, m: Message)
    ensures Acks(c, ms + [m]) == Acks(c, ms) + [Ack(c, m)]
  {
  }

  /** The client library seen from the connector. Each method takes `fails`, the
      given answer to whether that library call raises; a call that raises
      changes nothing. */
  class Cluster {
    var clients: seq<ClientConf>
    var closedClients: set<nat>
    var producers: seq<ProducerConf>
    var closedProducers: set<nat>
    var consumers: seq<Subscription>
    var closedConsumers: set<nat>
    var sent: seq<Sent>
    var acked: seq<Ack>

    function Record(): Ledger
      reads this
    {
      Ledger(clients, closedClients, producers, closedProducers, consumers, closedConsumers, sent, acked)
    }

    constructor ()
      ensures Record() == EmptyLedger
    {
      clients, closedClients := [], {};
      producers, closedProducers := [], {};
      consumers, closedConsumers := [], {};
      sent, acked := [], [];
    }

    /** `pulsar.Client(**client_config)`. */
    method NewClient(conf: ClientConf, fails: bool) returns (c: Option<Client>)
      modifies this
      ensures c == if fails then None else Some(Client(|old(clients)|))
      ensures Record() == if fails then old(Record()) else old(Record()).(clients := old(clients) + [conf])
    {
      if fails { return None; }
      c := Some(Client(|clients|));
      clients := clients + [conf];
    }

    /** `client.close()`. */
    method CloseClient(c: Client, fails: bool) returns (ok: bool)
      modifies this
      ensures ok == !fails
      ensures Record() == if fails then old(Record()) else old(Record()).(closedClients := old(closedClients) + {c.id})
    {
      ok := !fails;
      if ok { closedClients := closedClients + {c.id}; }
    }

    /** `client.create_producer(topic, send_timeout_millis=…, batching_enabled=…)`. */
    method CreateProducer(topic: string, sendTimeoutMillis: int, batchingEnabled: bool, fails: bool)
      returns (p: Option<Producer>)
      modifies this
      ensures p == if fails then None else Some(Producer(|old(producers)|, topic))
      ensures Record() == if fails then old(Record())
        else old(Record()).(producers := old(producers) + [ProducerConf(topic, sendTimeoutMillis, batchingEnabled)])
    {
      if fails { return None; }
      p := Some(Producer(|producers|, topic));
      producers := producers + [ProducerConf(topic, sendTimeoutMillis, batchingEnabled)];
    }

    /** `producer.close()`. */
    method CloseProducer(p: Producer, fails: bool) returns (ok: bool)
      modifies this
      ensures ok == !fails
      ensures Record() == if fails then old(Record()) else old(Record()).(closedProducers := old(closedProducers) + {p.id})
    {
      ok := !fails;
      if ok { closedProducers := closedProducers + {p.id}; }
    }

    /** `producer.send(payload, properties=…)`. */
    method Send(p: Producer, payload: string, properties: Props, fails: bool) returns (ok: bool)
      modifies this
      ensures ok == !fails
      ensures Record() == if fails then old(Record()) else old(Record()).(sent := old(sent) + [Sent(p.id, payload, properties)])
    {
      ok := !fails;
      if ok { sent := sent + [Sent(p.id, payload, properties)]; }
    }

    /** `client.subscribe(topic, subscription_name, consumer_type=…, initial_position=…)`. */
    method Subscribe(topic: string, name: string, consumerType: ConsumerType, position: InitialPosition, fails: bool)
      returns (c: Option<Consumer>)
      modifies this
      ensures c == if fails then None else Some(Consumer(|old(consumers)|, topic))
      ensures Record() == if fails then old(Record())
        else old(Record()).(consumers := old(consumers) + [Subscription(topic, name, consumerType, position)])
    {
      if fails { return None; }
      c := Some(Consumer(|consumers|, topic));
      consumers := consumers + [Subscription(topic, name, consumerType, position)];
    }

    /** `consumer.close()`. */
    method CloseConsumer(c: Consumer, fails: bool) returns (ok: bool)
      modifies this
      ensures ok == !fails
      ensures Record() == if fails then old(Record()) else old(Record()).(closedConsumers := old(closedConsumers) + {c.id})
    {
      ok := !fails;
      if ok { closedConsumers := closedConsumers + {c.id}; }
    }

    /** `consumer.acknowledge(msg)`. */
    method Acknowledge(c: Consumer, m: Message, fails: bool) returns (ok: bool)
      modifies this
      ensures ok == !fails
      ensures Record() == if fails then old(Record()) else old(Record()).(acked := old(acked) + [Ack(c.id, m)])
    {
      ok := !fails;
      if ok { acked := acked + [Ack(c.id, m)]; }
    }
  }
}
