/**
 The abstract machine the server implements: who is live, who is subscribed to what, and who owns
 which topic. Ids, nested maps and metadata are gone; every handler is one step or none. A route may
 dangle: its topic then has an owner that is not there.
 */
module Relational {
  import opened Wrappers
  import opened Proto
  import opened ServerState

  /** None is an owner that is no longer registered. */
  datatype Abstract<C(==)> = Abstract(live: set<C>, sub: set<(Topic, C)>, owner: map<Topic, Option<C>>)

  function Take<C(==)>(owner: map<Topic, Option<C>>, names: set<Topic>, c: C): map<Topic, Option<C>> {
    map t | t in owner.Keys + names :: if t in owner then owner[t] else Some(c)
  }

  function Join<C(==)>(a: Abstract<C>, c: C, names: set<Topic>): Abstract<C> {
    Abstract(a.live + {c}, a.sub, Take(a.owner, names, c))
  }

  /** The names that the leaving client declares are free again, whoever owned them; others it owned dangle. */
  function Leave<C(==)>(a: Abstract<C>, c: C, names: set<Topic>): Abstract<C> {
    Abstract(a.live - {c}, set p | p in a.sub && p.1 != c,
             map t | t in a.owner && t !in names :: if a.owner[t] == Some(c) then None else a.owner[t])
  }

  function Declare<C(==)>(a: Abstract<C>, c: C, names: set<Topic>): Abstract<C> {
    a.(owner := Take(a.owner, names, c))
  }

  function AddSubs<C(==)>(a: Abstract<C>, c: C, topics: set<Topic>): Abstract<C> {
    a.(sub := a.sub + set t | t in topics :: (t, c))
  }

  function DropSubs<C(==)>(a: Abstract<C>, c: C, topics: set<Topic>): Abstract<C> {
    a.(sub := set p | p in a.sub && !(p.1 == c && p.0 in topics))
  }

  /** One message from a live client (None: the sender is unknown, nothing happens). */
  function Receive<C(==)>(a: Abstract<C>, from: Option<C>, msg: Message): Abstract<C> {
    if from.None? then a
    else
      match msg.kind
      case "identify" =>
        if msg.payload.asIdentify.None? then a
        else Declare(a, from.value, FeatureMap(msg.payload.asIdentify.value.features).Keys)
      case "subscribe" =>
        if msg.payload.asSubscription.None? then a
        else AddSubs(a, from.value, TopicSet(msg.payload.asSubscription.value))
      case "unsubscribe" =>
        if msg.payload.asSubscription.None? then a
        else DropSubs(a, from.value, TopicSet(msg.payload.asSubscription.value))
      case _ => a
  }

  // ---------- the abstraction ----------

  ghost function LiveSet<C>(s: State<C>): set<C> {
    set c | c in s.meta && Live(s, c)
  }

  ghost function SubRelation<C>(broker: map<Topic, set<C>>): set<(Topic, C)> {
    set t, c | t in broker && c in broker[t] :: (t, c)
  }

  ghost function OwnerOf<C>(s: State<C>): map<Topic, Option<C>> {
    map t | t in s.routes :: Lookup(s, s.routes[t])
  }

  ghost function Alpha<C>(s: State<C>): Abstract<C> {
    Abstract(LiveSet(s), SubRelation(s.broker), OwnerOf(s))
  }

  lemma SubscribeRelation<C>(broker: map<Topic, set<C>>, topics: set<Topic>, c: C)
    ensures SubRelation(SubscribeAll(broker, topics, c)) == SubRelation(broker) + set t | t in topics :: (t, c)
  {
    var after := SubRelation(SubscribeAll(broker, topics, c));
    forall t, x ensures (t, x) in after <==> (t, x) in SubRelation(broker) || (t in topics && x == c) {
      assert (t, x) in after <==> x in Members(SubscribeAll(broker, topics, c), t);
      assert (t, x) in SubRelation(broker) <==> x in Members(broker, t);
      SubscribeAllMembers(broker, topics, c);
    }
  }

  lemma UnsubscribeRelation<C>(broker: map<Topic, set<C>>, topics: set<Topic>, c: C)
    ensures SubRelation(UnsubscribeAll(broker, topics, c)) == set p | p in SubRelation(broker) && !(p.1 == c && p.0 in topics)
  {
    var after := SubRelation(UnsubscribeAll(broker, topics, c));
    forall t, x ensures (t, x) in after <==> (t, x) in SubRelation(broker) && !(x == c && t in topics) {
      assert (t, x) in after <==> x in Members(UnsubscribeAll(broker, topics, c), t);
      assert (t, x) in SubRelation(broker) <==> x in Members(broker, t);
      UnsubscribeAllMembers(broker, topics, c);
    }
  }

  /** The nested map encodes nothing but the relation: without empty sets, equal relations are equal maps. */
  lemma RelationDeterminesBroker<C>(a: map<Topic, set<C>>, b: map<Topic, set<C>>)
    requires forall t :: t in a ==> a[t] != {}
    requires forall t :: t in b ==> b[t] != {}
    ensures SubRelation(a) == SubRelation(b) <==> a == b
  {
    if SubRelation(a) == SubRelation(b) {
      forall t, c ensures c in Members(a, t) <==> c in Members(b, t) {
        assert c in Members(a, t) <==> (t, c) in SubRelation(a);
        assert c in Members(b, t) <==> (t, c) in SubRelation(b);
      }
      forall t ensures Members(a, t) == Members(b, t) {
      }
      forall t ensures t in a <==> t in b {
        assert Members(a, t) == Members(b, t);
      }
      forall t | t in a ensures a[t] == b[t] {
        assert Members(a, t) == Members(b, t);
      }
    }
  }

  // ---------- refinement ----------

  /** Registering a client whose id is new, to the routes too, is a Join; no route need be sound for that. */
  lemma RegisterRefines<C>(s: State<C>, c: C)
    requires Agreed(s) && Newcomer(s, c)
    requires forall t :: t in s.routes ==> s.routes[t] != s.meta[c].id
    ensures Alpha(Register(s, c)) == Join(Alpha(s), c, AcceptedNames(s.meta[c].features))
  {
    hide AcceptedNames, Claim, BrokerListsSubs, SubsInBroker;
    var s' := Register(s, c);
    forall x ensures x in LiveSet(s') <==> x in LiveSet(s) + {c} {
    }
    OwnerAfterClaim(s, s', c, s.meta[c].id, AcceptedNames(s.meta[c].features));
  }

  /** Claiming gives the names that had no owner to c, under whose id the claim is made. */
  lemma OwnerAfterClaim<C>(s: State<C>, s': State<C>, c: C, id: Id, names: set<Topic>)
    requires s'.routes == Claim(s.routes, names, id) && Lookup(s', id) == Some(c)
    requires forall t :: t in s.routes ==> Lookup(s', s.routes[t]) == Lookup(s, s.routes[t])
    ensures OwnerOf(s') == Take(OwnerOf(s), names, c)
  {
    hide Lookup;
  }

  lemma RemoveRefines<C>(s: State<C>, c: C)
    requires Agreed(s) && Live(s, c)
    ensures Alpha(Remove(s, c)) == Leave(Alpha(s), c, FeatureNames(s.meta[c].features))
    ensures Some(c) !in Alpha(Remove(s, c)).owner.Values
  {
    hide FeatureNames, AcceptedNames, UnsubscribeAll, Lookup;
    LiveAfterRemove(s, c);
    SubsAfterRemove(s, c);
    OwnerAfterRemove(s, c);
  }

  lemma LiveAfterRemove<C>(s: State<C>, c: C)
    requires Coherent(s) && Live(s, c)
    ensures LiveSet(Remove(s, c)) == LiveSet(s) - {c}
  {
    hide FeatureNames, UnsubscribeAll;
    forall x ensures x in LiveSet(Remove(s, c)) <==> x in LiveSet(s) - {c} {
      if x in s.meta && x != c && Live(s, x) {
        assert s.meta[x].id != s.meta[c].id;
      }
    }
  }

  lemma SubsAfterRemove<C>(s: State<C>, c: C)
    requires BrokerListsSubs(s) && Live(s, c)
    ensures SubRelation(Remove(s, c).broker) == set p | p in SubRelation(s.broker) && p.1 != c
  {
    hide FeatureNames, UnsubscribeAll;
    UnsubscribeRelation(s.broker, s.meta[c].subs, c);
    forall p ensures p in SubRelation(Remove(s, c).broker) <==> p in SubRelation(s.broker) && p.1 != c {
      assert p in SubRelation(s.broker) ==> p.1 in s.broker[p.0];
    }
  }

  lemma OwnerAfterRemove<C>(s: State<C>, c: C)
    requires Coherent(s) && Live(s, c)
    ensures OwnerOf(Remove(s, c)) == Leave(Alpha(s), c, FeatureNames(s.meta[c].features)).owner
    ensures Some(c) !in OwnerOf(Remove(s, c)).Values
  {
    hide FeatureNames, AcceptedNames, UnsubscribeAll;
    var after, before := OwnerOf(Remove(s, c)), OwnerOf(s);
    forall t | t in after ensures after[t] == (if before[t] == Some(c) then None else before[t]) && after[t] != Some(c) {
      if s.routes[t] in s.registry && s.registry[s.routes[t]] == c {
        assert s.routes[t] == s.meta[c].id;
      }
    }
  }

  lemma StepSparesLive<C>(s: State<C>, msg: Message)
    requires Coherent(s) && msg.sender in s.registry
    ensures LiveSet(Step(s, msg)) == LiveSet(s) && s.registry[msg.sender] in LiveSet(s)
  {
    hide FeatureMap, AcceptedNames, SubscribeAll, UnsubscribeAll, Claim;
    var s' := Step(s, msg);
    assert Live(s, s.registry[msg.sender]);
    forall x ensures x in LiveSet(s') <==> x in LiveSet(s) {
    }
  }

  /** Every message: one abstract step of the registered sender, and nothing for an unknown sender or a bad payload. */
  lemma HandleRefines<C>(s: State<C>, msg: Message)
    requires Coherent(s)
    ensures Alpha(Step(s, msg)) == Receive(Alpha(s), Lookup(s, msg.sender), msg)
    ensures Lookup(s, msg.sender).Some? ==> Lookup(s, msg.sender).value in Alpha(s).live
  {
    hide FeatureMap, AcceptedNames, SubscribeAll, UnsubscribeAll;
    if msg.sender in s.registry {
      var c, s' := s.registry[msg.sender], Step(s, msg);
      StepSparesLive(s, msg);
      if msg.kind == "identify" && msg.payload.asIdentify.Some? {
        OwnerAfterClaim(s, s', c, msg.sender, FeatureMap(msg.payload.asIdentify.value.features).Keys);
      } else if msg.payload.asSubscription.Some? {
        SubscribeRelation(s.broker, TopicSet(msg.payload.asSubscription.value), c);
        UnsubscribeRelation(s.broker, TopicSet(msg.payload.asSubscription.value), c);
      }
    }
  }

  /** Who is served, in abstract terms only. */
  lemma RecipientsAbstractly<C>(s: State<C>, msg: Message)
    requires Coherent(s) && BrokerListsSubs(s)
    ensures msg.kind in {"data", "status"} ==> forall c :: c in Recipients(s, msg) <==> (msg.topic, c) in Alpha(s).sub
    ensures msg.kind in {"command", "query"} ==>
      Recipients(s, msg) == if msg.topic in Alpha(s).owner then Ones(Alpha(s).owner[msg.topic]) else {}
    ensures Recipients(s, msg) <= Alpha(s).live
  {
    hide AcceptedNames;
    forall c ensures (msg.topic, c) in SubRelation(s.broker) <==> c in Members(s.broker, msg.topic) {
    }
  }
}
