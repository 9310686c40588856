/**
 The server's objects (server/registery.go, server/broker.go, server/server.go): each method is
 proved against the function of ServerState that says what it does to the four structures, and
 against the exact set of clients that it sends to.
 */
module ServerObjects {
  import opened Wrappers
  import opened Proto
  import opened ServerState
  import opened ServerInFull

  /** A connected client: its metadata, and its link as the log of messages that went out on it. */
  datatype TransportTag = TransportTag(id: string, name: string)

  class Client {
    const transport: Option<TransportTag>
    var id: Id
    var name: string
    var firmware: string
    var features: map<string, Feature>
    var subs: set<Topic>
    var up: bool
    var sent: seq<Message>

    constructor (id: Id, features: map<string, Feature>, transport: Option<TransportTag>)
      ensures Data() == Meta(id, "", "", features, {}) && this.transport == transport && up && sent == []
    {
      this.transport := transport;
      this.id, this.name, this.firmware, this.features := id, "", "", features;
      this.subs, this.up, this.sent := {}, true, [];
    }

    function Data(): (m: Meta)
      reads this
      ensures m.id == id && m.name == name && m.firmware == firmware && m.features == features && m.subs == subs
    {
      Meta(id, name, firmware, features, subs)
    }

    /** Writing to a dead link is an error and sends nothing. */
    method Send(msg: Message) returns (ok: bool)
      modifies this`sent
      ensures ok == up
      ensures sent == if ok then old(sent) + [msg] else old(sent)
    {
      ok := up;
      if ok {
        sent := sent + [msg];
      }
    }
  }

  class DeviceRegistry {
    var store: map<Id, Client>

    constructor ()
      ensures store == map[]
    {
      store := map[];
    }

    method Store(client: Client)
      modifies this
      ensures store == old(store)[client.id := client]
    {
      store := store[client.id := client];
    }

    method Get(id: Id) returns (r: Option<Client>)
      ensures r == if id in store then Some(store[id]) else None
    {
      if id in store {
        return Some(store[id]);
      }
      return None;
    }

    method Delete(id: Id)
      modifies this
      ensures store == old(store) - {id}
    {
      store := store - {id};
    }

    /** Every stored client once for each id it is stored under, in some order. */
    method List() returns (clients: seq<Client>)
      ensures |clients| == |store|
      ensures CountsAll(clients, store, {})
    {
      clients := [];
      var remaining := store.Keys;
      while remaining != {}
        invariant remaining <= store.Keys && |clients| == |store| - |remaining|
        invariant CountsAll(clients, store, remaining)
        decreases remaining
      {
        var id :| id in remaining;
        CountOneMore(clients, store, remaining, id);
        clients := clients + [store[id]];
        remaining := remaining - {id};
      }
    }
  }

  /** The list has each client once for each id it is stored under, the remaining ids left out. */
  ghost predicate CountsAll(clients: seq<Client>, store: map<Id, Client>, remaining: set<Id>) {
    && (forall c :: c in clients ==> c in store.Values)
    && (forall c :: c in store.Values ==> multiset(clients)[c] == |set id | id in store && id !in remaining && store[id] == c|)
  }

  lemma CountOneMore(clients: seq<Client>, store: map<Id, Client>, remaining: set<Id>, id: Id)
    requires CountsAll(clients, store, remaining) && id in remaining && id in store
    ensures CountsAll(clients + [store[id]], store, remaining - {id})
  {
    forall c | c in store.Values ensures multiset(clients + [store[id]])[c] == |set x | x in store && x !in remaining - {id} && store[x] == c| {
      var before := set x | x in store && x !in remaining && store[x] == c;
      assert multiset(clients)[c] == |before|;
      assert (set x | x in store && x !in remaining - {id} && store[x] == c)
          == if store[id] == c then before + {id} else before;
    }
  }

  class Broker {
    var subs: map<Topic, set<Client>>

    constructor ()
      ensures subs == map[]
    {
      subs := map[];
    }

    /** A copy of the topic's subscriber set, empty when the topic has none. */
    method Subs(topic: Topic) returns (clients: set<Client>)
      ensures clients == Members(subs, topic)
    {
      if topic !in subs {
        return {};
      }
      clients := {};
      var remaining := subs[topic];
      while remaining != {}
        invariant remaining <= subs[topic] && clients == subs[topic] - remaining
        decreases remaining
      {
        var c :| c in remaining;
        clients := clients + {c};
        remaining := remaining - {c};
      }
    }

    method Subscribe(topic: Topic, client: Client)
      modifies this
      ensures subs == BrokerAdd(old(subs), topic, client)
    {
      if topic !in subs {
        subs := subs[topic := {}];
      }
      subs := subs[topic := subs[topic] + {client}];
    }

    method Unsubscribe(topic: Topic, client: Client)
      modifies this
      ensures subs == BrokerDel(old(subs), topic, client)
    {
      assert topic !in subs ==> subs - {topic} == subs;
      if topic in subs {
        if client in subs[topic] {
          subs := subs[topic := subs[topic] - {client}];
        } else {
          assert subs[topic] - {client} == subs[topic];
        }
        assert subs == old(subs)[topic := old(subs)[topic] - {client}];
        if subs[topic] == {} {
          subs := subs - {topic};
        }
      }
    }

    /** Fan-out: every subscriber with a working link gets the message once, in whatever order they are visited. */
    method Publish(msg: Message) returns (sentCount: nat)
      modifies Members(subs, msg.topic)`sent
      ensures forall c :: c in Members(subs, msg.topic) ==> c.sent == old(c.sent) + if c.up then [msg] else []
      ensures sentCount == |set c | c in Members(subs, msg.topic) && c.up|
    {
      sentCount := 0;
      var all := Members(subs, msg.topic);
      var remaining := all;
      ghost var reached: set<Client> := {};
      while remaining != {}
        invariant remaining <= all
        invariant forall c :: c in all ==> c.sent == old(c.sent) + if c.up && c !in remaining then [msg] else []
        invariant reached == (set c | c in all && c.up && c !in remaining) && sentCount == |reached|
        decreases remaining
      {
        var c :| c in remaining;
        var ok := c.Send(msg);
        remaining := remaining - {c};
        if ok {
          reached := reached + {c};
          sentCount := sentCount + 1;
        }
      }
      assert reached == set c | c in Members(subs, msg.topic) && c.up;
    }
  }

  class Server {
    const registry: DeviceRegistry
    const broker: Broker
    var topicSources: map<Topic, Id>
    ghost var clients: set<Client> // every client object ever handed to the server

    constructor (registry: DeviceRegistry, broker: Broker)
      requires registry.store == map[] && broker.subs == map[]
      ensures this.registry == registry && this.broker == broker && clients == {}
      ensures Valid() && Abs() == State(map[], map[], map[], map[])
    {
      this.registry, this.broker := registry, broker;
      topicSources := map[];
      clients := {};
    }

    /** The four structures, with the metadata of the given client objects. */
    ghost function Snapshot(world: set<Client>): State<Client>
      reads this, registry, broker, world
    {
      State(registry.store, broker.subs, topicSources, map c | c in world :: c.Data())
    }

    ghost function Abs(): State<Client>
      reads this, registry, broker, clients
    {
      Snapshot(clients)
    }

    ghost predicate Valid()
      reads this, registry, broker, clients
    {
      WellFormed(Abs())
    }

    /** Among these clients, exactly the recipients with a working link have one more message, and it is this one. */
    static twostate predicate Delivered(world: set<Client>, recipients: set<Client>, msg: Message)
      reads world
    {
      forall c :: c in world ==> c.sent == old(c.sent) + if c in recipients && c.up then [msg] else []
    }

    method GetTopicSources() returns (sources: map<Topic, Id>)
      ensures sources == topicSources
    {
      sources := map[];
      var remaining := topicSources.Keys;
      while remaining != {}
        invariant remaining <= topicSources.Keys
        invariant sources == map t | t in topicSources && t !in remaining :: topicSources[t]
        decreases remaining
      {
        var t :| t in remaining;
        sources := sources[t := topicSources[t]];
        remaining := remaining - {t};
      }
    }

    /** Routes the acceptable features of a client that is registering, in any order. */
    method ClaimAccepted(features: map<string, Feature>, id: Id)
      modifies this`topicSources
      ensures topicSources == Claim(old(topicSources), AcceptedNames(features), id)
    {
      hide ValidFeature, GoodName, GoodMethod, MethodError, HasMethod;
      var remaining := features.Keys;
      ghost var seen: set<string> := {};
      while remaining != {}
        invariant remaining <= features.Keys
        invariant seen == (set key | key in features && key !in remaining && features[key].name == key && ValidFeature(features[key]))
        invariant topicSources == Claim(old(topicSources), seen, id)
        decreases remaining
      {
        var key :| key in remaining;
        remaining := remaining - {key};
        var feature := features[key];
        if key != feature.name {
          continue;
        }
        var err := Validate(feature);
        if err.Some? {
          continue;
        }
        seen := seen + {key};
        if feature.name in topicSources {
          continue;
        }
        topicSources := topicSources[feature.name := id];
      }
      assert seen == AcceptedNames(features);
    }

    method RegisterDevice(client: Client)
      requires Valid()
      modifies this`topicSources, this`clients, registry
      ensures Valid() && clients == old(clients) + {client}
      ensures Abs() == Register(old(Snapshot(clients + {client})), client)
    {
      hide AcceptedNames, Claim, WellFormed;
      ghost var s := Snapshot(clients + {client});
      assert WellFormed(s) by { KnownAreWellFormed(client); }
      registry.Store(client);
      ClaimExisting(client);
      clients := clients + {client};
      assert Abs().meta == s.meta;
      ComingAndGoingWellFormed(s, client);
    }

    method ClaimExisting(client: Client)
      modifies this`topicSources
      ensures topicSources == Claim(old(topicSources), AcceptedNames(client.features), client.id)
    {
      var features := client.features;
      if |features| > 0 {
        ClaimAccepted(features, client.id);
      } else {
        ClaimNothing(topicSources, features, client.id);
      }
    }

    method UnsubscribeFrom(client: Client)
      modifies broker
      ensures broker.subs == UnsubscribeAll(old(broker.subs), client.subs, client)
    {
      var topics := client.subs;
      while topics != {}
        invariant topics <= client.subs
        invariant broker.subs == UnsubscribeAll(old(broker.subs), client.subs - topics, client)
        decreases topics
      {
        var topic :| topic in topics;
        UnsubscribeOneMore(old(broker.subs), client.subs - topics, topic, client);
        assert client.subs - topics + {topic} == client.subs - (topics - {topic});
        broker.Unsubscribe(topic, client);
        topics := topics - {topic};
      }
      assert client.subs - {} == client.subs;
    }

    /** Releases routes by name, without asking who owns them. */
    method ReleaseNames(features: map<string, Feature>)
      modifies this`topicSources
      ensures topicSources == old(topicSources) - FeatureNames(features)
    {
      var remaining := features.Keys;
      ghost var seen: set<string> := {};
      while remaining != {}
        invariant remaining <= features.Keys
        invariant seen == set key | key in features && key !in remaining :: features[key].name
        invariant topicSources == old(topicSources) - seen
        decreases remaining
      {
        var key :| key in remaining;
        remaining := remaining - {key};
        var feature := features[key];
        seen := seen + {feature.name};
        if feature.name !in topicSources {
          continue;
        }
        topicSources := topicSources - {feature.name};
      }
      assert seen == FeatureNames(features);
    }

    method RemoveDevice(client: Client)
      requires Valid()
      modifies this`topicSources, this`clients, registry, broker
      ensures Valid() && clients == old(clients) + {client}
      ensures Abs() == Remove(old(Snapshot(clients + {client})), client)
    {
      hide FeatureNames, UnsubscribeAll, WellFormed;
      ghost var s := Snapshot(clients + {client});
      assert WellFormed(s) by { KnownAreWellFormed(client); }
      registry.Delete(client.id);
      UnsubscribeFrom(client);
      ReleaseNames(client.features);
      clients := clients + {client};
      assert Abs().meta == s.meta;
      ComingAndGoingWellFormed(s, client);
    }

    /** One more client object in view changes no structure. */
    lemma KnownAreWellFormed(client: Client)
      requires Valid()
      ensures WellFormed(Snapshot(clients + {client}))
    {
    }

    // ---------- identify ----------

    /** Keeps the valid features of an identify payload, the last one under each name. */
    static method CollectFeatures(features: seq<Feature>) returns (collected: map<string, Feature>)
      ensures collected == FeatureMap(features)
      ensures forall name :: KeepsLast(collected, features, name)
    {
      hide ValidFeature, GoodName, GoodMethod, MethodError, HasMethod, KeepsLast;
      collected := map[];
      for i := 0 to |features|
        invariant collected == FeatureMap(features[..i])
      {
        assert features[..i + 1][..i] == features[..i];
        var err := Validate(features[i]);
        if err.Some? {
          continue;
        }
        collected := collected[features[i].name := features[i]];
      }
      assert features[..|features|] == features;
      forall name ensures KeepsLast(collected, features, name) {
        FeatureMapKeepsLast(features, name);
      }
    }

    method ClaimDeclared(features: map<string, Feature>, id: Id)
      modifies this`topicSources
      ensures topicSources == Claim(old(topicSources), FeatureNames(features), id)
    {
      var remaining := features.Keys;
      ghost var seen: set<string> := {};
      while remaining != {}
        invariant remaining <= features.Keys
        invariant seen == set key | key in features && key !in remaining :: features[key].name
        invariant topicSources == Claim(old(topicSources), seen, id)
        decreases remaining
      {
        var key :| key in remaining;
        remaining := remaining - {key};
        var feature := features[key];
        seen := seen + {feature.name};
        if feature.name in topicSources {
          continue;
        }
        topicSources := topicSources[feature.name := id];
      }
      assert seen == FeatureNames(features);
    }

    /** Overwrites a client's data with what it proposed; its subscriptions stay. */
    method Adopt(client: Client, id: Id, p: IdentifyPayload, features: map<string, Feature>)
      requires client in clients
      modifies client`id, client`name, client`firmware, client`features
      ensures client.Data() == Meta(id, p.proposedName, p.firmware, features, old(client.subs))
      ensures client.id == id && client.name == p.proposedName && client.firmware == p.firmware && client.features == features
      ensures Abs() == old(Abs()).(meta := old(Abs()).meta[client := client.Data()])
    {
      client.id := id;
      client.name := p.proposedName;
      client.firmware := p.firmware;
      client.features := features;
      assert Abs().meta == old(Abs()).meta[client := client.Data()];
    }

    method Acknowledge(client: Client)
      requires client in clients
      modifies client`sent
      ensures Abs() == old(Abs())
      ensures client.sent == old(client.sent) +
        if client.up then [Message("identify_ack", "", "server", "", "", EncodeAck(AckPayload(client.id, "ok")))] else []
    {
      var ack := Message("identify_ack", "", "server", "", "", EncodeAck(AckPayload(client.id, "ok")));
      var _ := client.Send(ack);
    }

    /** The part of handleIdentify after the lookups: store what was declared, claim it, acknowledge. */
    method AdoptAndClaim(client: Client, id: Id, p: IdentifyPayload)
      requires client in clients
      modifies this`topicSources, client`id, client`name, client`firmware, client`features, client`sent
      ensures Abs() == old(Abs()).(
        meta := old(Abs()).meta[client := Meta(id, p.proposedName, p.firmware, FeatureMap(p.features), old(client.subs))],
        routes := Claim(old(topicSources), FeatureMap(p.features).Keys, id))
      ensures client.id == id && client.name == p.proposedName && client.firmware == p.firmware
      ensures forall name :: KeepsLast(client.features, p.features, name)
      ensures client.sent == old(client.sent) +
        if client.up then [Message("identify_ack", "", "server", "", "", EncodeAck(AckPayload(id, "ok")))] else []
    {
      hide FeatureMap, FeatureNames, Claim, EncodeAck, KeepsLast;
      var features := CollectFeatures(p.features);
      Adopt(client, id, p, features);
      FeatureMapNames(p.features);
      ghost var adopted := Abs();
      ClaimDeclared(client.features, client.id);
      assert Abs() == adopted.(routes := topicSources);
      Acknowledge(client);
    }

    method HandleIdentify(msg: Message)
      requires Valid() && msg.kind == "identify"
      modifies this`topicSources, clients`id, clients`name, clients`firmware, clients`features, clients`sent
      ensures Valid() && Abs() == Identify(old(Abs()), msg.sender, msg.payload.asIdentify)
      ensures msg.sender in registry.store && msg.payload.asIdentify.Some? ==>
        var client, p := registry.store[msg.sender], msg.payload.asIdentify.value;
        && client.id == msg.sender && client.name == p.proposedName && client.firmware == p.firmware
        && client.subs == old(client.subs) && forall name :: KeepsLast(client.features, p.features, name)
      ensures Delivered(clients, Recipients(old(Abs()), msg), Forwarded(msg))
    {
      hide FeatureMap, Claim, EncodeAck, KeepsLast;
      StepWellFormed(Abs(), msg);
      var found := registry.Get(msg.sender);
      if found.None? || msg.payload.asIdentify.None? {
        return;
      }
      assert found.value in Abs().meta;
      AdoptAndClaim(found.value, msg.sender, msg.payload.asIdentify.value);
    }

    // ---------- subscribe / unsubscribe ----------

    method SubscribeTopics(client: Client, topics: seq<Topic>)
      requires client in clients
      modifies broker, client`subs
      ensures Abs() == old(Abs()).(
        broker := SubscribeAll(old(broker.subs), TopicSet(topics), client),
        meta := old(Abs()).meta[client := old(client.Data()).(subs := old(client.subs) + TopicSet(topics))])
    {
      for i := 0 to |topics|
        invariant broker.subs == SubscribeAll(old(broker.subs), TopicSet(topics[..i]), client)
        invariant client.subs == old(client.subs) + TopicSet(topics[..i])
      {
        SubscribeOneMore(old(broker.subs), TopicSet(topics[..i]), topics[i], client);
        assert TopicSet(topics[..i + 1]) == TopicSet(topics[..i]) + {topics[i]};
        broker.Subscribe(topics[i], client);
        client.subs := client.subs + {topics[i]};
      }
      assert topics[..|topics|] == topics;
      assert Abs().meta == old(Abs()).meta[client := client.Data()];
    }

    method UnsubscribeTopics(client: Client, topics: seq<Topic>)
      requires client in clients
      modifies broker, client`subs
      ensures Abs() == old(Abs()).(
        broker := UnsubscribeAll(old(broker.subs), TopicSet(topics), client),
        meta := old(Abs()).meta[client := old(client.Data()).(subs := old(client.subs) - TopicSet(topics))])
    {
      for i := 0 to |topics|
        invariant broker.subs == UnsubscribeAll(old(broker.subs), TopicSet(topics[..i]), client)
        invariant client.subs == old(client.subs) - TopicSet(topics[..i])
      {
        UnsubscribeOneMore(old(broker.subs), TopicSet(topics[..i]), topics[i], client);
        assert TopicSet(topics[..i + 1]) == TopicSet(topics[..i]) + {topics[i]};
        broker.Unsubscribe(topics[i], client);
        client.subs := client.subs - {topics[i]};
      }
      assert topics[..|topics|] == topics;
      assert Abs().meta == old(Abs()).meta[client := client.Data()];
    }

    method HandleSubscription(msg: Message)
      requires Valid() && (msg.kind == "subscribe" || msg.kind == "unsubscribe")
      modifies broker, clients`subs
      ensures Valid() && Abs() == Step(old(Abs()), msg)
    {
      hide SubscribeAll, UnsubscribeAll, TopicSet;
      StepWellFormed(Abs(), msg);
      var found := registry.Get(msg.sender);
      if found.None? || msg.payload.asSubscription.None? {
        return;
      }
      assert found.value in Abs().meta;
      if msg.kind == "subscribe" {
        SubscribeTopics(found.value, msg.payload.asSubscription.value);
      } else {
        UnsubscribeTopics(found.value, msg.payload.asSubscription.value);
      }
    }

    // ---------- routing ----------

    /** Data and status messages go to all subscribers of their topic. */
    method HandleData(msg: Message)
      requires Valid() && (msg.kind == "data" || msg.kind == "status")
      modifies clients`sent
      ensures Valid() && Abs() == old(Abs())
      ensures Delivered(clients, Recipients(old(Abs()), msg), msg)
    {
      assert Members(broker.subs, msg.topic) <= clients;
      var _ := broker.Publish(msg);
    }

    /** Commands and queries go to whoever the routing table names, if it is registered. */
    method HandleRouted(msg: Message)
      requires Valid() && (msg.kind == "command" || msg.kind == "query")
      modifies clients`sent
      ensures Valid() && Abs() == old(Abs())
      ensures Delivered(clients, Recipients(old(Abs()), msg), msg)
    {
      if msg.topic !in topicSources {
        return;
      }
      SendTo(topicSources[msg.topic], msg);
    }

    /** Sending moves none of the four structures. */
    twostate lemma Unmoved()
      requires registry.store == old(registry.store) && broker.subs == old(broker.subs)
      requires topicSources == old(topicSources) && clients == old(clients)
      requires forall c :: c in clients ==> c.Data() == old(c.Data())
      ensures Abs() == old(Abs())
    {
    }

    /** A message for whoever is registered under the id, if anybody is. */
    method SendTo(id: Id, msg: Message)
      requires Valid()
      modifies clients`sent
      ensures Valid() && Abs() == old(Abs())
      ensures Delivered(clients, Ones(Lookup(old(Abs()), id)), msg)
    {
      var found := registry.Get(id);
      if found.None? {
        return;
      }
      assert found.value in Abs().meta;
      var _ := found.value.Send(msg);
      hide Abs, Valid, Snapshot;
      Unmoved();
    }

    method HandleResponse(msg: Message)
      requires Valid() && msg.kind == "response"
      modifies clients`sent
      ensures Valid() && Abs() == old(Abs())
      ensures Delivered(clients, Recipients(old(Abs()), msg), msg)
    {
      if msg.recipient == "" {
        return;
      }
      SendTo(msg.recipient, msg);
    }

    /** One message, one step of the four structures, and exactly its recipients served. */
    method Handle(msg: Message)
      requires Valid()
      modifies this`topicSources, broker
      modifies clients`id, clients`name, clients`firmware, clients`features, clients`subs, clients`sent
      ensures Valid() && Abs() == Step(old(Abs()), msg)
      ensures Delivered(clients, Recipients(old(Abs()), msg), Forwarded(msg))
      ensures forall c :: c in clients ==> Gets(old(c.sent), c.sent, c.up && IsFor(old(Abs()), msg, c), msg)
    {
      hide AcceptedNames, FeatureMap, Claim, SubscribeAll, UnsubscribeAll, TopicSet, IsFor, Passes, WellFormed, Snapshot, Ones, ValidFeature;
      ghost var s := Abs();
      forall c | c in clients ensures c in Recipients(s, msg) <==> IsFor(s, msg, c) {
        RecipientsInFull(s, msg, c);
      }
      ForwardedInFull(msg);
      match msg.kind
      case "identify" =>
        HandleIdentify(msg);
      case "data" =>
        HandleData(msg);
      case "status" =>
        HandleData(msg);
      case "subscribe" =>
        HandleSubscription(msg);
      case "unsubscribe" =>
        HandleSubscription(msg);
      case "command" =>
        HandleRouted(msg);
      case "query" =>
        HandleRouted(msg);
      case "response" =>
        HandleResponse(msg);
      case _ =>
    }
  }
}
