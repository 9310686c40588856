/**
 The read side (services/feature_service.go): joins over the routing table, the registry, the
 clients' features and the broker. They are total exactly as far as those structures agree.
 */
module FeatureService {
  import opened Wrappers
  import opened Proto
  import opened ServerState
  import opened ServerObjects

  datatype DeviceInfo = DeviceInfo(meta: Meta, connected: bool, transportName: string, transportId: string)

  datatype FeatureInfo = FeatureInfo(
    topic: Topic,
    feature: Feature,
    sourceId: Id,
    sourceName: string,
    subscribers: seq<DeviceInfo>)

  datatype ServiceError = FeatureNotFound(topic: Topic) | SourceNotFound(id: Id) | TopicNotDeclared(topic: Topic) | DeviceNotFound(id: Id)

  /** The topic is routed, its owner is registered, and the owner's feature map has it. */
  predicate Readable<C(==)>(s: State<C>, topic: Topic)
    requires topic in s.routes && s.routes[topic] in s.registry ==> s.registry[s.routes[topic]] in s.meta
  {
    topic in s.routes && s.routes[topic] in s.registry && topic in s.meta[s.registry[s.routes[topic]]].features
  }

  /** convertDeviceMetadata: a client's data and the transport it came in on. */
  function Info(c: Client, m: Meta): DeviceInfo {
    match c.transport
    case None => DeviceInfo(m, true, "Unknown", "")
    case Some(t) => DeviceInfo(m, true, t.name, t.id)
  }

  /** The list shows each of these clients once, in some order. */
  ghost predicate ListsExactly(infos: seq<DeviceInfo>, s: State<Client>, who: set<Client>)
    requires who <= s.meta.Keys
  {
    forall info: DeviceInfo :: multiset(infos)[info] == |set c | c in who && Info(c, s.meta[c]) == info|
  }

  /** An entry shows a client: its data, that it is connected, and the name and id of its transport, if it has one. */
  ghost predicate Shows(info: DeviceInfo, c: Client)
    reads c
  {
    && info.meta.id == c.id && info.meta.name == c.name && info.meta.firmware == c.firmware
    && info.meta.features == c.features && info.meta.subs == c.subs && info.connected
    && (c.transport.Some? ==> info.transportName == c.transport.value.name && info.transportId == c.transport.value.id)
    && (c.transport.None? ==> info.transportName == "Unknown" && info.transportId == "")
  }

  ghost predicate ShowsSome(info: DeviceInfo, who: set<Client>)
    reads who
  {
    exists c :: c in who && Shows(info, c)
  }

  ghost predicate IsShown(infos: seq<DeviceInfo>, c: Client)
    reads c
  {
    exists i :: 0 <= i < |infos| && Shows(infos[i], c)
  }

  /** As many entries as clients, each shows one of them, and each of them is shown. */
  ghost predicate ShowsAll(infos: seq<DeviceInfo>, who: set<Client>)
    reads who
  {
    && |infos| == |who|
    && (forall i :: 0 <= i < |infos| ==> ShowsSome(infos[i], who))
    && (forall c :: c in who ==> IsShown(infos, c))
  }

  /** What a topic's entry says, given the state: owner, owner's feature and name, and the broker's subscribers. */
  ghost predicate Describes(info: FeatureInfo, s: State<Client>, topic: Topic)
    requires WellFormed(s)
  {
    && Readable(s, topic)
    && var owner := s.registry[s.routes[topic]];
    && info.topic == topic
    && info.sourceId == s.routes[topic]
    && info.feature == s.meta[owner].features[topic]
    && info.sourceName == s.meta[owner].name
    && ListsExactly(info.subscribers, s, Members(s.broker, topic))
  }

  class FeatureServiceImpl {
    const server: Server

    constructor (server: Server)
      ensures this.server == server
    {
      this.server := server;
    }

    /** The entry of a routed topic: its owner's id, name and feature, and the broker's subscribers. */
    ghost predicate IsEntry(info: FeatureInfo, topic: Topic)
      reads server, server.registry, server.broker, server.clients
      requires server.Valid()
    {
      && Describes(info, server.Abs(), topic)
      && topic in server.topicSources && server.topicSources[topic] in server.registry.store
      && var owner := server.registry.store[server.topicSources[topic]];
      && info.topic == topic && info.sourceId == server.topicSources[topic] && info.sourceName == owner.name
      && topic in owner.features && info.feature == owner.features[topic]
      && Listed(topic) <= server.clients && ShowsAll(info.subscribers, Listed(topic))
    }

    function Listed(topic: Topic): set<Client>
      reads server, server.broker
    {
      if topic in server.broker.subs then server.broker.subs[topic] else {}
    }

    method GetFeatureSubscribers(topic: Topic) returns (infos: seq<DeviceInfo>)
      requires server.Valid()
      ensures ListsExactly(infos, server.Abs(), Members(server.Abs().broker, topic))
      ensures Listed(topic) <= server.clients && ShowsAll(infos, Listed(topic))
    {
      hide ShowsAll, Shows;
      var subscribers := server.broker.Subs(topic);
      NothingShown(subscribers - subscribers);
      assert subscribers <= server.Abs().meta.Keys;
      infos := [];
      var remaining := subscribers;
      while remaining != {}
        invariant remaining <= subscribers
        invariant ListsExactly(infos, server.Abs(), subscribers - remaining)
        invariant ShowsAll(infos, subscribers - remaining)
        decreases remaining
      {
        var client :| client in remaining;
        ListOneMore(infos, server.Abs(), subscribers - remaining, client);
        assert subscribers - remaining + {client} == subscribers - (remaining - {client});
        InfoShows(client);
        ShowOneMore(infos, subscribers - remaining, client, Info(client, client.Data()));
        infos := infos + [Info(client, client.Data())];
        remaining := remaining - {client};
      }
      assert subscribers - {} == subscribers;
    }

    method GetFeature(topic: Topic) returns (r: Result<FeatureInfo, ServiceError>)
      requires server.Valid()
      ensures r.Success? <==> Readable(server.Abs(), topic)
      ensures r.Success? ==> IsEntry(r.value, topic)
      ensures r == Failure(FeatureNotFound(topic)) <==> topic !in server.topicSources
      ensures (exists id :: r == Failure(SourceNotFound(id))) <==>
        topic in server.topicSources && server.topicSources[topic] !in server.registry.store
      ensures r.Failure? && r.error.SourceNotFound? ==> r.error.id == server.topicSources[topic]
      ensures r == Failure(TopicNotDeclared(topic)) <==>
        && topic in server.topicSources && server.topicSources[topic] in server.registry.store
        && topic !in server.registry.store[server.topicSources[topic]].features
    {
      var sources := server.GetTopicSources();
      if topic !in sources {
        return Failure(FeatureNotFound(topic));
      }
      var sourceId := sources[topic];
      var device := server.registry.Get(sourceId);
      if device.None? {
        return Failure(SourceNotFound(sourceId));
      }
      assert device.value in server.Abs().meta;
      if topic !in device.value.features {
        return Failure(TopicNotDeclared(topic));
      }
      var feature, sourceName := device.value.features[topic], device.value.name;
      var subscribers := GetFeatureSubscribers(topic);
      return Success(FeatureInfo(topic, feature, sourceId, sourceName, subscribers));
    }

    /** Exactly the readable topics, each described correctly. */
    method ListFeatures() returns (features: map<Topic, FeatureInfo>)
      requires server.Valid()
      ensures features.Keys == set t | t in server.topicSources && Readable(server.Abs(), t)
      ensures forall t :: t in features ==> IsEntry(features[t], t)
    {
      hide ShowsAll, Shows, ListsExactly, IsEntry, Describes;
      features := map[];
      var sources := server.GetTopicSources();
      var remaining := sources.Keys;
      while remaining != {}
        invariant remaining <= sources.Keys
        invariant forall t :: t in features <==> t in sources && t !in remaining && Readable(server.Abs(), t)
        invariant forall t :: t in features ==> IsEntry(features[t], t)
        decreases remaining
      {
        var topic :| topic in remaining;
        remaining := remaining - {topic};
        var feature := GetFeature(topic);
        if feature.Failure? {
          continue;
        }
        features := features[topic := feature.value];
      }
    }
  }

  lemma NothingShown(who: set<Client>)
    requires who == {}
    ensures ShowsAll([], who)
  {
  }

  lemma InfoShows(c: Client)
    ensures Shows(Info(c, c.Data()), c)
  {
  }

  lemma ShowOneMore(infos: seq<DeviceInfo>, who: set<Client>, c: Client, info: DeviceInfo)
    requires ShowsAll(infos, who) && c !in who && Shows(info, c)
    ensures ShowsAll(infos + [info], who + {c})
  {
    hide Shows, IsShown, ShowsSome;
    var longer := infos + [info];
    forall i | 0 <= i < |longer| ensures ShowsSome(longer[i], who + {c}) {
      SomeMore(longer[i], who, c, i < |infos|);
    }
    forall x | x in who + {c} ensures IsShown(longer, x) {
      ShownMore(infos, info, x, x in who);
    }
  }

  lemma SomeMore(info: DeviceInfo, who: set<Client>, c: Client, before: bool)
    requires if before then ShowsSome(info, who) else Shows(info, c)
    ensures ShowsSome(info, who + {c})
  {
    hide Shows;
  }

  lemma ShownMore(infos: seq<DeviceInfo>, info: DeviceInfo, x: Client, before: bool)
    requires if before then IsShown(infos, x) else Shows(info, x)
    ensures IsShown(infos + [info], x)
  {
    hide Shows;
    if before {
      var i :| 0 <= i < |infos| && Shows(infos[i], x);
      assert (infos + [info])[i] == infos[i];
    } else {
      assert (infos + [info])[|infos|] == info;
    }
  }

  lemma ListOneMore(infos: seq<DeviceInfo>, s: State<Client>, who: set<Client>, c: Client)
    requires who <= s.meta.Keys && c in s.meta && c !in who
    requires ListsExactly(infos, s, who)
    ensures ListsExactly(infos + [Info(c, s.meta[c])], s, who + {c})
  {
    hide Info;
    forall info: DeviceInfo
      ensures multiset(infos + [Info(c, s.meta[c])])[info] == |set x | x in who + {c} && Info(x, s.meta[x]) == info|
    {
      var before := set x | x in who && Info(x, s.meta[x]) == info;
      assert multiset(infos)[info] == |before|;
      assert (set x | x in who + {c} && Info(x, s.meta[x]) == info)
          == if Info(c, s.meta[c]) == info then before + {c} else before;
    }
  }

  /** When the structures agree, reading succeeds exactly on the routed topics, and the owner is right. */
  lemma ReadsAreTotal<C>(s: State<C>, topic: Topic)
    requires Consistent(s)
    ensures Readable(s, topic) <==> topic in s.routes
    ensures Readable(s, topic) ==>
      var owner := s.registry[s.routes[topic]];
      Live(s, owner) && s.meta[owner].id == s.routes[topic] && s.meta[owner].features[topic].name == topic
  {
    if topic in s.routes {
      assert Declares(s.meta[s.registry[s.routes[topic]]], topic);
    }
  }

  /** A route is readable exactly when it does not dangle, for each route separately. */
  lemma DanglingIsUnreadable<C>(s: State<C>, topic: Topic)
    requires WellFormed(s) && topic in s.routes
    requires s.routes[topic] in s.registry ==> WellKeyed(s.meta[s.registry[s.routes[topic]]].features)
    ensures Readable(s, topic) <==>
      s.routes[topic] in s.registry && Declares(s.meta[s.registry[s.routes[topic]]], topic)
  {
    if s.routes[topic] in s.registry {
      WellKeyedNames(s.meta[s.registry[s.routes[topic]]].features);
    }
  }
}
