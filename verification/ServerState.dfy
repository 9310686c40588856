/**
 What the server's methods compute, as functions on a snapshot of its four structures:
 the registry, the broker's nested map, the routing table and the clients' metadata.

 C stands for the identity of a client object (the source keys the broker's sets by it), which
 is not the same thing as the id string stored in the client's metadata.
 */
module ServerState {
  import opened Wrappers
  import opened Proto

  datatype Meta = Meta(id: Id, name: string, firmware: string, features: map<string, Feature>, subs: set<Topic>)

  datatype State<C(==)> = State(
    registry: map<Id, C>,
    broker: map<Topic, set<C>>,
    routes: map<Topic, Id>,
    meta: map<C, Meta>)

  // ---------- features and routes ----------

  /** The names a feature map mentions; RemoveDevice releases all of them. */
  function FeatureNames(features: map<string, Feature>): set<string> {
    set key | key in features :: features[key].name
  }

  /** The names RegisterDevice is willing to route: the map key matches and the feature validates. */
  function AcceptedNames(features: map<string, Feature>): set<string> {
    set key | key in features && features[key].name == key && ValidFeature(features[key])
  }

  /** handleIdentify keeps, under each name, the last valid feature of that name. */
  function FeatureMap(features: seq<Feature>): map<string, Feature> {
    if features == [] then map[]
    else
      var before := FeatureMap(features[..|features| - 1]);
      var last := features[|features| - 1];
      if ValidFeature(last) then before[last.name := last] else before
  }

  ghost predicate WellKeyed(features: map<string, Feature>) {
    forall key :: key in features ==> features[key].name == key && ValidFeature(features[key])
  }

  lemma WellKeyedNames(features: map<string, Feature>)
    requires WellKeyed(features)
    ensures AcceptedNames(features) == features.Keys == FeatureNames(features)
  {
    assert forall key :: key in features ==> features[key].name in FeatureNames(features);
  }

  lemma {:induction false} FeatureMapWellKeyed(features: seq<Feature>)
    ensures WellKeyed(FeatureMap(features))
  {
    if features != [] {
      FeatureMapWellKeyed(features[..|features| - 1]);
    }
  }

  /** The names kept are exactly those of the valid features in the list. */
  lemma {:induction false} FeatureMapKeys(features: seq<Feature>, name: string)
    ensures name in FeatureMap(features) <==> exists f :: f in features && ValidFeature(f) && f.name == name
  {
    hide ValidFeature;
    if features != [] {
      var front, last := features[..|features| - 1], features[|features| - 1];
      FeatureMapKeys(front, name);
      assert features == front + [last];
      if last.name == name && ValidFeature(last) {
        assert last in features;
      }
    }
  }

  lemma FeatureMapNames(features: seq<Feature>)
    ensures FeatureNames(FeatureMap(features)) == FeatureMap(features).Keys
  {
    FeatureMapWellKeyed(features);
    WellKeyedNames(FeatureMap(features));
  }

  /** First claim wins: names already routed keep their owner. */
  function Claim(routes: map<Topic, Id>, names: set<Topic>, id: Id): map<Topic, Id> {
    map t | t in routes.Keys + names :: if t in routes then routes[t] else id
  }

  lemma ClaimNothing(routes: map<Topic, Id>, features: map<string, Feature>, id: Id)
    requires |features| == 0
    ensures Claim(routes, AcceptedNames(features), id) == routes
  {
    assert features == map[];
  }

  // ---------- broker ----------

  function Members<C(==)>(broker: map<Topic, set<C>>, topic: Topic): set<C> {
    if topic in broker then broker[topic] else {}
  }

  function BrokerAdd<C(==)>(broker: map<Topic, set<C>>, topic: Topic, c: C): map<Topic, set<C>> {
    broker[topic := Members(broker, topic) + {c}]
  }

  /** Removing the last subscriber removes the topic. */
  function BrokerDel<C(==)>(broker: map<Topic, set<C>>, topic: Topic, c: C): map<Topic, set<C>> {
    if Members(broker, topic) - {c} == {} then broker - {topic}
    else broker[topic := broker[topic] - {c}]
  }

  lemma BrokerAddMembers<C>(broker: map<Topic, set<C>>, topic: Topic, c: C)
    ensures forall t, x :: x in Members(BrokerAdd(broker, topic, c), t) <==> x in Members(broker, t) || (t == topic && x == c)
    ensures (forall t :: t in broker ==> broker[t] != {}) ==> forall t :: t in BrokerAdd(broker, topic, c) ==> BrokerAdd(broker, topic, c)[t] != {}
  {
  }

  lemma BrokerDelMembers<C>(broker: map<Topic, set<C>>, topic: Topic, c: C)
    ensures forall t, x :: x in Members(BrokerDel(broker, topic, c), t) <==> x in Members(broker, t) && !(t == topic && x == c)
    ensures (forall t :: t in broker ==> broker[t] != {}) ==> forall t :: t in BrokerDel(broker, topic, c) ==> BrokerDel(broker, topic, c)[t] != {}
  {
  }

  function SubscribeAll<C(==)>(broker: map<Topic, set<C>>, topics: set<Topic>, c: C): map<Topic, set<C>> {
    map t | t in broker.Keys + topics :: if t in topics then Members(broker, t) + {c} else broker[t]
  }

  function UnsubscribeAll<C(==)>(broker: map<Topic, set<C>>, topics: set<Topic>, c: C): map<Topic, set<C>> {
    map t | t in broker && (t in topics ==> broker[t] - {c} != {}) :: if t in topics then broker[t] - {c} else broker[t]
  }

  lemma SubscribeOneMore<C>(broker: map<Topic, set<C>>, topics: set<Topic>, t: Topic, c: C)
    ensures BrokerAdd(SubscribeAll(broker, topics, c), t, c) == SubscribeAll(broker, topics + {t}, c)
  {
  }

  lemma UnsubscribeOneMore<C>(broker: map<Topic, set<C>>, topics: set<Topic>, t: Topic, c: C)
    ensures BrokerDel(UnsubscribeAll(broker, topics, c), t, c) == UnsubscribeAll(broker, topics + {t}, c)
  {
    assert t in broker ==> broker[t] - {c} - {c} == broker[t] - {c};
  }

  // ---------- the handlers ----------

  /** Every client object that the server can reach has metadata. */
  ghost predicate WellFormed<C>(s: State<C>) {
    && (forall id :: id in s.registry ==> s.registry[id] in s.meta)
    && (forall t :: t in s.broker ==> s.broker[t] <= s.meta.Keys)
  }

  function Register<C(==)>(s: State<C>, c: C): State<C>
    requires c in s.meta
  {
    var m := s.meta[c];
    s.(registry := s.registry[m.id := c], routes := Claim(s.routes, AcceptedNames(m.features), m.id))
  }

  /** Routes are released by name, whoever owns them. */
  function Remove<C(==)>(s: State<C>, c: C): State<C>
    requires c in s.meta
  {
    var m := s.meta[c];
    s.(registry := s.registry - {m.id},
       broker := UnsubscribeAll(s.broker, m.subs, c),
       routes := s.routes - FeatureNames(m.features))
  }

  function Identify<C(==)>(s: State<C>, sender: Id, payload: Option<IdentifyPayload>): State<C>
    requires sender in s.registry ==> s.registry[sender] in s.meta
  {
    if sender !in s.registry || payload.None? then s
    else
      var c := s.registry[sender];
      var p := payload.value;
      var features := FeatureMap(p.features);
      s.(meta := s.meta[c := Meta(sender, p.proposedName, p.firmware, features, s.meta[c].subs)],
         routes := Claim(s.routes, features.Keys, sender))
  }

  function TopicSet(topics: seq<Topic>): set<Topic> {
    set t | t in topics
  }

  function Subscribe<C(==)>(s: State<C>, sender: Id, payload: Option<seq<Topic>>): State<C>
    requires sender in s.registry ==> s.registry[sender] in s.meta
  {
    if sender !in s.registry || payload.None? then s
    else
      var c, topics := s.registry[sender], TopicSet(payload.value);
      s.(broker := SubscribeAll(s.broker, topics, c),
         meta := s.meta[c := s.meta[c].(subs := s.meta[c].subs + topics)])
  }

  function Unsubscribe<C(==)>(s: State<C>, sender: Id, payload: Option<seq<Topic>>): State<C>
    requires sender in s.registry ==> s.registry[sender] in s.meta
  {
    if sender !in s.registry || payload.None? then s
    else
      var c, topics := s.registry[sender], TopicSet(payload.value);
      s.(broker := UnsubscribeAll(s.broker, topics, c),
         meta := s.meta[c := s.meta[c].(subs := s.meta[c].subs - topics)])
  }

  /** The new state after Handle(msg); routing and publishing change none of the four structures. */
  function Step<C(==)>(s: State<C>, msg: Message): State<C>
    requires msg.sender in s.registry ==> s.registry[msg.sender] in s.meta
  {
    match msg.kind
    case "identify" => Identify(s, msg.sender, msg.payload.asIdentify)
    case "subscribe" => Subscribe(s, msg.sender, msg.payload.asSubscription)
    case "unsubscribe" => Unsubscribe(s, msg.sender, msg.payload.asSubscription)
    case _ => s
  }

  lemma ComingAndGoingWellFormed<C>(s: State<C>, c: C)
    requires WellFormed(s) && c in s.meta
    ensures WellFormed(Register(s, c)) && WellFormed(Remove(s, c))
  {
    hide AcceptedNames, FeatureNames, Claim;
  }

  lemma StepWellFormed<C>(s: State<C>, msg: Message)
    requires WellFormed(s)
    ensures WellFormed(Step(s, msg)) && Step(s, msg).meta.Keys == s.meta.Keys
  {
  }

  /** The client a command or query for this topic goes to, if there is one. */
  function Target<C(==)>(s: State<C>, topic: Topic): Option<C> {
    if topic in s.routes && s.routes[topic] in s.registry then Some(s.registry[s.routes[topic]]) else None
  }

  function Lookup<C(==)>(s: State<C>, id: Id): Option<C> {
    if id in s.registry then Some(s.registry[id]) else None
  }

  /** The exact set of clients that Handle(msg) sends something to. */
  function Recipients<C(==)>(s: State<C>, msg: Message): set<C> {
    match msg.kind
    case "identify" => if msg.payload.asIdentify.Some? then Ones(Lookup(s, msg.sender)) else {}
    case "data" => Members(s.broker, msg.topic)
    case "status" => Members(s.broker, msg.topic)
    case "command" => Ones(Target(s, msg.topic))
    case "query" => Ones(Target(s, msg.topic))
    case "response" => if msg.recipient != "" then Ones(Lookup(s, msg.recipient)) else {}
    case _ => {}
  }

  function Ones<C(==)>(o: Option<C>): set<C> {
    if o.Some? then {o.value} else {}
  }

  /** The message they get: an acknowledgement for identify, otherwise the message itself. */
  function Forwarded(msg: Message): Message {
    if msg.kind == "identify" then Message("identify_ack", "", "server", "", "", EncodeAck(AckPayload(msg.sender, "ok"))) else msg
  }

  // ---------- agreement of the four structures ----------

  ghost predicate Live<C>(s: State<C>, c: C) {
    c in s.meta && s.meta[c].id in s.registry && s.registry[s.meta[c].id] == c
  }

  /** The client stored under an id carries that id. */
  ghost predicate Coherent<C>(s: State<C>) {
    forall id :: id in s.registry ==> s.registry[id] in s.meta && s.meta[s.registry[id]].id == id
  }

  /** Broker sets hold live clients that list the topic in Subs, and no set is empty. */
  ghost predicate BrokerListsSubs<C>(s: State<C>) {
    forall t :: t in s.broker ==>
      s.broker[t] != {} && forall c :: c in s.broker[t] ==> Live(s, c) && t in s.meta[c].subs
  }

  /** Every topic in a live client's Subs has that client in the broker's set. */
  ghost predicate SubsInBroker<C>(s: State<C>) {
    forall c :: c in s.meta && Live(s, c) ==>
      forall t :: t in s.meta[c].subs ==> c in Members(s.broker, t)
  }

  ghost predicate Declares(m: Meta, t: Topic) {
    t in AcceptedNames(m.features)
  }

  /** Every route leads to a registered client that declares the topic, validly. */
  ghost predicate NoDanglingRoute<C>(s: State<C>) {
    forall t :: t in s.routes ==>
      s.routes[t] in s.registry && s.registry[s.routes[t]] in s.meta && Declares(s.meta[s.registry[s.routes[t]]], t)
  }

  /** Agreement of registry, broker and Subs; no hypothesis on what clients send is needed for it. */
  ghost predicate Agreed<C>(s: State<C>) {
    WellFormed(s) && Coherent(s) && BrokerListsSubs(s) && SubsInBroker(s)
  }

  ghost predicate Consistent<C>(s: State<C>) {
    Agreed(s) && NoDanglingRoute(s)
  }

  /** A client that may register: unknown id, unknown object, no subscription yet. */
  ghost predicate Newcomer<C>(s: State<C>, c: C) {
    && c in s.meta
    && s.meta[c].id !in s.registry
    && s.meta[c].subs == {}
    && (forall id :: id in s.registry ==> s.registry[id] != c)
  }

  /** The identify message declares, validly, every name that is currently routed to its sender. */
  ghost predicate KeepsOwned<C>(s: State<C>, msg: Message) {
    msg.kind == "identify" && msg.payload.asIdentify.Some? ==>
      forall t :: t in s.routes && s.routes[t] == msg.sender ==> t in FeatureMap(msg.payload.asIdentify.value.features)
  }

  lemma RegisterConsistent<C>(s: State<C>, c: C)
    requires Agreed(s) && Newcomer(s, c)
    ensures Agreed(Register(s, c)) && Live(Register(s, c), c)
    ensures NoDanglingRoute(s) ==> NoDanglingRoute(Register(s, c))
  {
    hide NoDanglingRoute, AcceptedNames, Claim;
    var s' := Register(s, c);
    assert WellFormed(s');
    assert Coherent(s');
    assert BrokerListsSubs(s');
    assert SubsInBroker(s');
    if NoDanglingRoute(s) {
      RegisterRoutesSafely(s, c);
    }
  }

  /** Registering leaves every other live client live exactly if the id is not that of another client. */
  lemma RegisterSparesOthersExactly<C>(s: State<C>, c: C)
    requires Coherent(s) && c in s.meta
    ensures (forall x :: x in s.meta && x != c && Live(s, x) ==> Live(Register(s, c), x))
      <==> (s.meta[c].id in s.registry ==> s.registry[s.meta[c].id] == c)
  {
    hide AcceptedNames, Claim;
    if s.meta[c].id in s.registry {
      assert Live(s, s.registry[s.meta[c].id]);
    }
  }

  lemma RegisterRoutesSafely<C>(s: State<C>, c: C)
    requires Newcomer(s, c) && NoDanglingRoute(s)
    ensures NoDanglingRoute(Register(s, c))
  {
    hide AcceptedNames;
  }

  /** Removing a client leaves no mention of it, and the others agree as before. */
  lemma RemoveConsistent<C>(s: State<C>, c: C)
    requires Agreed(s) && Live(s, c)
    ensures Agreed(Remove(s, c)) && !Live(Remove(s, c), c)
    ensures forall t :: c !in Members(Remove(s, c).broker, t)
    ensures NoDanglingRoute(s) ==> NoDanglingRoute(Remove(s, c))
    ensures NoDanglingRoute(s) ==> forall t :: t in Remove(s, c).routes ==> s.routes[t] != s.meta[c].id
  {
    var s' := Remove(s, c);
    var id := s.meta[c].id;
    forall x | x in s.meta && x != c && Live(s, x) ensures Live(s', x) {
      assert s.meta[x].id != id;
    }
    if NoDanglingRoute(s) {
      RemoveRoutesSafely(s, c);
    }
  }

  lemma RemoveRoutesSafely<C>(s: State<C>, c: C)
    requires Coherent(s) && Live(s, c) && NoDanglingRoute(s)
    ensures NoDanglingRoute(Remove(s, c))
    ensures forall t :: t in Remove(s, c).routes ==> s.routes[t] != s.meta[c].id
  {
    hide ValidFeature;
    forall t | t in s.routes && s.routes[t] == s.meta[c].id ensures t in FeatureNames(s.meta[c].features) {
      assert Declares(s.meta[c], t);
    }
  }

  /** Changing only the broker and Subs leaves ids, liveness and routes as they were. */
  lemma OnlySubscriptionsChange<C>(s: State<C>, s': State<C>)
    requires s'.registry == s.registry && s'.routes == s.routes && s'.meta.Keys == s.meta.Keys
    requires forall c :: c in s.meta ==> s'.meta[c].id == s.meta[c].id && s'.meta[c].features == s.meta[c].features
    ensures forall c :: c in s.meta ==> (Live(s, c) <==> Live(s', c))
    ensures Coherent(s) ==> Coherent(s')
    ensures NoDanglingRoute(s) ==> NoDanglingRoute(s')
  {
  }

  lemma SubscribeConsistent<C>(s: State<C>, sender: Id, payload: Option<seq<Topic>>)
    requires Agreed(s)
    ensures Agreed(Subscribe(s, sender, payload))
    ensures NoDanglingRoute(s) ==> NoDanglingRoute(Subscribe(s, sender, payload))
  {
    if sender in s.registry && payload.Some? {
      var s' := Subscribe(s, sender, payload);
      OnlySubscriptionsChange(s, s');
      SubscribedAgree(s, s', s.registry[sender], TopicSet(payload.value));
    }
  }

  lemma SubscribedAgree<C>(s: State<C>, s': State<C>, c: C, topics: set<Topic>)
    requires Agreed(s) && Live(s, c) && c in s.meta && (forall x :: x in s.meta ==> (Live(s, x) <==> Live(s', x)))
    requires s' == s.(broker := SubscribeAll(s.broker, topics, c), meta := s.meta[c := s.meta[c].(subs := s.meta[c].subs + topics)])
    ensures WellFormed(s') && BrokerListsSubs(s') && SubsInBroker(s')
  {
    hide Live, Coherent;
    SubscribeAllMembers(s.broker, topics, c);
    forall t | t in s'.broker ensures s'.broker[t] <= s'.meta.Keys {
      assert s'.broker[t] == Members(s.broker, t) + if t in topics then {c} else {};
    }
    SubscribedListed(s, s', c, topics);
    SubscribedInBroker(s, s', c, topics);
  }

  lemma SubscribedListed<C>(s: State<C>, s': State<C>, c: C, topics: set<Topic>)
    requires BrokerListsSubs(s) && Live(s, c) && (forall x :: x in s.meta ==> (Live(s, x) <==> Live(s', x)))
    requires c in s.meta && (forall t :: t in s.broker ==> s.broker[t] <= s.meta.Keys)
    requires s' == s.(broker := SubscribeAll(s.broker, topics, c), meta := s.meta[c := s.meta[c].(subs := s.meta[c].subs + topics)])
    ensures BrokerListsSubs(s')
  {
    hide Live;
    forall t | t in s'.broker
      ensures s'.broker[t] != {} && forall x :: x in s'.broker[t] ==> Live(s', x) && t in s'.meta[x].subs
    {
    }
  }

  lemma SubscribedInBroker<C>(s: State<C>, s': State<C>, c: C, topics: set<Topic>)
    requires SubsInBroker(s) && c in s.meta && (forall x :: x in s.meta ==> (Live(s, x) <==> Live(s', x)))
    requires s' == s.(broker := SubscribeAll(s.broker, topics, c), meta := s.meta[c := s.meta[c].(subs := s.meta[c].subs + topics)])
    ensures SubsInBroker(s')
  {
    hide Live, SubscribeAll;
    SubscribeAllMembers(s.broker, topics, c);
  }

  lemma SubscribeAllMembers<C>(broker: map<Topic, set<C>>, topics: set<Topic>, c: C)
    ensures forall t :: Members(SubscribeAll(broker, topics, c), t) == Members(broker, t) + if t in topics then {c} else {}
  {
  }

  lemma UnsubscribeAllMembers<C>(broker: map<Topic, set<C>>, topics: set<Topic>, c: C)
    ensures forall t :: Members(UnsubscribeAll(broker, topics, c), t) == Members(broker, t) - if t in topics then {c} else {}
  {
  }

  lemma UnsubscribeConsistent<C>(s: State<C>, sender: Id, payload: Option<seq<Topic>>)
    requires Agreed(s)
    ensures Agreed(Unsubscribe(s, sender, payload))
    ensures NoDanglingRoute(s) ==> NoDanglingRoute(Unsubscribe(s, sender, payload))
  {
    if sender in s.registry && payload.Some? {
      var s' := Unsubscribe(s, sender, payload);
      OnlySubscriptionsChange(s, s');
      var c, topics := s.registry[sender], TopicSet(payload.value);
      UnsubscribeAllMembers(s.broker, topics, c);
      assert WellFormed(s');
      assert BrokerListsSubs(s');
    }
  }

  /** Replacing a registered client's own data, under the id it is registered by, leaves all but the routes as they were. */
  lemma OnlyOwnDataChanges<C>(s: State<C>, s': State<C>, c: C, id: Id)
    requires Coherent(s) && id in s.registry && s.registry[id] == c
    requires s'.registry == s.registry && s'.broker == s.broker && c in s.meta
    requires exists m: Meta :: m.id == id && m.subs == s.meta[c].subs && s'.meta == s.meta[c := m]
    ensures forall x :: x in s.meta ==> (Live(s, x) <==> Live(s', x))
    ensures Coherent(s')
    ensures WellFormed(s) ==> WellFormed(s')
    ensures BrokerListsSubs(s) ==> BrokerListsSubs(s')
    ensures SubsInBroker(s) ==> SubsInBroker(s')
  {
    assert forall x :: x in s.meta ==> s'.meta[x].id == s.meta[x].id && s'.meta[x].subs == s.meta[x].subs;
  }

  /** An identify keeps the structures in agreement exactly when it keeps declaring what its sender owns. */
  lemma IdentifyConsistentExactly<C>(s: State<C>, msg: Message)
    requires Consistent(s) && msg.kind == "identify"
    ensures Consistent(Step(s, msg)) <==> (msg.sender in s.registry ==> KeepsOwned(s, msg))
  {
    if msg.sender in s.registry && msg.payload.asIdentify.Some? {
      var p := msg.payload.asIdentify.value;
      FeatureMapWellKeyed(p.features);
      var c := s.registry[msg.sender];
      var m := Meta(msg.sender, p.proposedName, p.firmware, FeatureMap(p.features), s.meta[c].subs);
      assert Step(s, msg).meta == s.meta[c := m];
      OnlyOwnDataChanges(s, Step(s, msg), c, msg.sender);
      IdentifyRoutesExactly(s, Step(s, msg), c, msg.sender, m);
    }
  }

  lemma IdentifyRoutesExactly<C>(s: State<C>, s': State<C>, c: C, id: Id, m: Meta)
    requires Coherent(s) && NoDanglingRoute(s) && id in s.registry && s.registry[id] == c
    requires WellKeyed(m.features)
    requires s'.registry == s.registry && s'.meta == s.meta[c := m] && s'.routes == Claim(s.routes, m.features.Keys, id)
    ensures NoDanglingRoute(s') <==> forall t :: t in s.routes && s.routes[t] == id ==> t in m.features
  {
    hide ValidFeature;
    WellKeyedNames(m.features);
    assert forall t :: Declares(m, t) <==> t in m.features;
    if forall t :: t in s.routes && s.routes[t] == id ==> t in m.features {
      forall t | t in s'.routes ensures s'.routes[t] in s.registry && Declares(s'.meta[s.registry[s'.routes[t]]], t) {
      }
    } else {
      var t :| t in s.routes && s.routes[t] == id && t !in m.features;
      assert s'.routes[t] == id;
    }
  }

  /** No message of any client breaks the agreement of registry, broker and Subs. */
  lemma StepAgreed<C>(s: State<C>, msg: Message)
    requires Agreed(s)
    ensures Agreed(Step(s, msg))
  {
    hide FeatureMap, Claim;
    if msg.kind == "identify" && msg.sender in s.registry && msg.payload.asIdentify.Some? {
      var p := msg.payload.asIdentify.value;
      var c := s.registry[msg.sender];
      var m := Meta(msg.sender, p.proposedName, p.firmware, FeatureMap(p.features), s.meta[c].subs);
      assert Step(s, msg).meta == s.meta[c := m];
      OnlyOwnDataChanges(s, Step(s, msg), c, msg.sender);
    }
    SubscribeConsistent(s, msg.sender, msg.payload.asSubscription);
    UnsubscribeConsistent(s, msg.sender, msg.payload.asSubscription);
  }

  /** No message breaks any agreement, as long as identifies keep what their senders own. */
  lemma StepConsistent<C>(s: State<C>, msg: Message)
    requires Consistent(s) && KeepsOwned(s, msg)
    ensures Consistent(Step(s, msg))
  {
    if msg.kind == "identify" {
      IdentifyConsistentExactly(s, msg);
    }
    SubscribeConsistent(s, msg.sender, msg.payload.asSubscription);
    UnsubscribeConsistent(s, msg.sender, msg.payload.asSubscription);
  }

  /** Declaring at least the earlier names is enough to keep what one owns. */
  lemma SupersetKeepsOwned<C>(s: State<C>, msg: Message)
    requires Consistent(s) && msg.sender in s.registry && msg.payload.asIdentify.Some?
    requires AcceptedNames(s.meta[s.registry[msg.sender]].features) <= FeatureMap(msg.payload.asIdentify.value.features).Keys
    ensures KeepsOwned(s, msg)
  {
  }

  /**
   Commands, queries and responses reach at most one client: the live one that has the recipient's or the
   owner's id. Commands and queries reach nobody exactly when their topic has no route or a dangling one.
   */
  lemma UniqueRecipient<C>(s: State<C>, msg: Message)
    requires Coherent(s) && msg.kind in {"command", "query", "response"}
    ensures |Recipients(s, msg)| <= 1
    ensures msg.kind == "response" ==> forall c :: c in Recipients(s, msg) ==> Live(s, c) && s.meta[c].id == msg.recipient
    ensures msg.kind != "response" ==>
      && (Recipients(s, msg) == {} <==> msg.topic !in s.routes || s.routes[msg.topic] !in s.registry)
      && forall c :: c in Recipients(s, msg) ==> Live(s, c) && s.meta[c].id == s.routes[msg.topic]
  {
  }

  /** Without dangling routes the owner is always there, and declares the topic. */
  lemma OwnerIsServed<C>(s: State<C>, msg: Message)
    requires NoDanglingRoute(s) && msg.kind in {"command", "query"}
    ensures Recipients(s, msg) == {} <==> msg.topic !in s.routes
    ensures forall c :: c in Recipients(s, msg) ==> c in s.meta && Declares(s.meta[c], msg.topic)
  {
    hide Declares;
  }
}
