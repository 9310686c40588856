/**
 What each handler does to the four structures and whom it serves, said of registry, broker, routes and
 metadata entry by entry (server/server.go).
 */
module ServerInFull {
  import opened Wrappers
  import opened Json
  import opened Proto
  import opened ServerState

  /** Position i holds the last valid feature of this name. */
  ghost predicate IsLastValid(features: seq<Feature>, name: string, i: int) {
    && 0 <= i < |features| && features[i].name == name && ValidFeature(features[i])
    && forall k :: i < k < |features| ==> !(ValidFeature(features[k]) && features[k].name == name)
  }

  /** A name is kept exactly if a valid feature has it, and what is kept is the last one in the list, unchanged. */
  ghost predicate KeepsLast(kept: map<string, Feature>, features: seq<Feature>, name: string) {
    && (name in kept <==> exists i :: 0 <= i < |features| && features[i].name == name && ValidFeature(features[i]))
    && (name in kept ==> exists i :: IsLastValid(features, name, i) && kept[name] == features[i])
  }

  lemma {:induction false} FeatureMapKeepsLast(features: seq<Feature>, name: string)
    ensures KeepsLast(FeatureMap(features), features, name)
  {
    hide ValidFeature;
    if features != [] {
      var front, n := features[..|features| - 1], |features| - 1;
      FeatureMapKeepsLast(front, name);
      assert forall i :: 0 <= i < n ==> front[i] == features[i];
      if features[n].name == name && ValidFeature(features[n]) {
        assert IsLastValid(features, name, n);
      } else if name in FeatureMap(front) {
        var i :| IsLastValid(front, name, i) && FeatureMap(front)[name] == front[i];
        assert IsLastValid(features, name, i);
      }
    }
  }

  /** Registering: the client is stored under its id, and each valid feature under its own name is routed to it unless the name is taken. */
  lemma RegisterInFull<C>(s: State<C>, c: C)
    requires c in s.meta
    ensures var s', m := Register(s, c), s.meta[c];
      && s'.meta == s.meta && s'.broker == s.broker
      && (forall id :: id in s'.registry <==> id in s.registry || id == m.id)
      && (forall id :: id in s'.registry ==> s'.registry[id] == if id == m.id then c else s.registry[id])
      && (forall t :: t in s'.routes <==>
            t in s.routes || (t in m.features && m.features[t].name == t && ValidFeature(m.features[t])))
      && (forall t :: t in s'.routes ==> s'.routes[t] == if t in s.routes then s.routes[t] else m.id)
  {
    hide ValidFeature;
  }

  /** Removing: out of the registry and of the broker's sets for its Subs; the names of its features are not routed any more. */
  lemma RemoveInFull<C>(s: State<C>, c: C)
    requires c in s.meta
    ensures var s', m := Remove(s, c), s.meta[c];
      && s'.meta == s.meta
      && (forall id :: id in s'.registry <==> id in s.registry && id != m.id)
      && (forall id :: id in s'.registry ==> s'.registry[id] == s.registry[id])
      && (forall t, x :: (t in s'.broker && x in s'.broker[t]) <==> t in s.broker && x in s.broker[t] && !(x == c && t in m.subs))
      && (forall t :: t in s'.routes <==> t in s.routes && forall key :: key in m.features ==> m.features[key].name != t)
      && (forall t :: t in s'.routes ==> s'.routes[t] == s.routes[t])
  {
    hide FeatureNames;
    var s', m := Remove(s, c), s.meta[c];
    UnsubscribeAllMembers(s.broker, m.subs, c);
    forall t, x ensures (t in s'.broker && x in s'.broker[t]) <==> t in s.broker && x in s.broker[t] && !(x == c && t in m.subs) {
      assert (t in s'.broker && x in s'.broker[t]) <==> x in Members(s'.broker, t);
    }
    forall t ensures t in FeatureNames(m.features) <==> exists key :: key in m.features && m.features[key].name == t {
      NamesInFull(m.features, t);
    }
  }

  lemma NamesInFull(features: map<string, Feature>, t: string)
    ensures t in FeatureNames(features) <==> exists key :: key in features && features[key].name == t
  {
  }

  /** Subscribing: the sender joins the sets of exactly the listed topics and lists them in its Subs. */
  lemma SubscribeInFull<C>(s: State<C>, msg: Message)
    requires WellFormed(s) && msg.kind == "subscribe"
    ensures msg.sender !in s.registry || msg.payload.asSubscription.None? ==> Step(s, msg) == s
    ensures msg.sender in s.registry && msg.payload.asSubscription.Some? ==>
      var s', c, topics := Step(s, msg), s.registry[msg.sender], msg.payload.asSubscription.value;
      && s'.registry == s.registry && s'.routes == s.routes && s'.meta.Keys == s.meta.Keys
      && (forall t, x :: (t in s'.broker && x in s'.broker[t]) <==> (t in s.broker && x in s.broker[t]) || (t in topics && x == c))
      && (forall x :: x in s.meta ==> s'.meta[x].subs == s.meta[x].subs + if x == c then set t | t in topics else {})
      && (forall x :: x in s.meta ==> s'.meta[x].(subs := {}) == s.meta[x].(subs := {}))
  {
    if msg.sender in s.registry && msg.payload.asSubscription.Some? {
      var s', c, topics := Step(s, msg), s.registry[msg.sender], msg.payload.asSubscription.value;
      SubscribeAllMembers(s.broker, TopicSet(topics), c);
      forall t, x ensures (t in s'.broker && x in s'.broker[t]) <==> (t in s.broker && x in s.broker[t]) || (t in topics && x == c) {
        assert (t in s'.broker && x in s'.broker[t]) <==> x in Members(s'.broker, t);
      }
      assert TopicSet(topics) == set t | t in topics;
    }
  }

  /** Unsubscribing: the sender leaves the sets of exactly the listed topics, and its Subs lists them no more. */
  lemma UnsubscribeInFull<C>(s: State<C>, msg: Message)
    requires WellFormed(s) && msg.kind == "unsubscribe"
    ensures msg.sender !in s.registry || msg.payload.asSubscription.None? ==> Step(s, msg) == s
    ensures msg.sender in s.registry && msg.payload.asSubscription.Some? ==>
      var s', c, topics := Step(s, msg), s.registry[msg.sender], msg.payload.asSubscription.value;
      && s'.registry == s.registry && s'.routes == s.routes && s'.meta.Keys == s.meta.Keys
      && (forall t, x :: (t in s'.broker && x in s'.broker[t]) <==> t in s.broker && x in s.broker[t] && !(t in topics && x == c))
      && (forall x :: x in s.meta ==> s'.meta[x].subs == s.meta[x].subs - if x == c then set t | t in topics else {})
      && (forall x :: x in s.meta ==> s'.meta[x].(subs := {}) == s.meta[x].(subs := {}))
  {
    if msg.sender in s.registry && msg.payload.asSubscription.Some? {
      var s', c, topics := Step(s, msg), s.registry[msg.sender], msg.payload.asSubscription.value;
      UnsubscribeAllMembers(s.broker, TopicSet(topics), c);
      forall t, x ensures (t in s'.broker && x in s'.broker[t]) <==> t in s.broker && x in s.broker[t] && !(t in topics && x == c) {
        assert (t in s'.broker && x in s'.broker[t]) <==> x in Members(s'.broker, t);
      }
      assert TopicSet(topics) == set t | t in topics;
    }
  }

  /** Identifying: the sender's data become what it proposes, its features the last valid one under each name, and the free names are routed to it. */
  lemma IdentifyInFull<C>(s: State<C>, msg: Message)
    requires WellFormed(s) && msg.kind == "identify"
    ensures msg.sender !in s.registry || msg.payload.asIdentify.None? ==> Step(s, msg) == s
    ensures msg.sender in s.registry && msg.payload.asIdentify.Some? ==>
      var s', c, p := Step(s, msg), s.registry[msg.sender], msg.payload.asIdentify.value;
      && s'.registry == s.registry && s'.broker == s.broker && s'.meta.Keys == s.meta.Keys
      && (forall x :: x in s.meta && x != c ==> s'.meta[x] == s.meta[x])
      && s'.meta[c].id == msg.sender && s'.meta[c].name == p.proposedName && s'.meta[c].firmware == p.firmware
      && s'.meta[c].subs == s.meta[c].subs
      && (forall name :: KeepsLast(s'.meta[c].features, p.features, name))
      && (forall t :: t in s'.routes <==> t in s.routes || t in s'.meta[c].features)
      && (forall t :: t in s'.routes ==> s'.routes[t] == if t in s.routes then s.routes[t] else msg.sender)
  {
    if msg.sender in s.registry && msg.payload.asIdentify.Some? {
      var features := msg.payload.asIdentify.value.features;
      hide FeatureMap, KeepsLast;
      forall name ensures KeepsLast(FeatureMap(features), features, name) {
        FeatureMapKeepsLast(features, name);
      }
    }
  }

  /** Whom a message is for, read off broker, routes and registry. */
  ghost predicate IsFor<C>(s: State<C>, msg: Message, c: C) {
    || ((msg.kind == "data" || msg.kind == "status") && msg.topic in s.broker && c in s.broker[msg.topic])
    || ((msg.kind == "command" || msg.kind == "query")
        && msg.topic in s.routes && s.routes[msg.topic] in s.registry && s.registry[s.routes[msg.topic]] == c)
    || (msg.kind == "response" && msg.recipient != "" && msg.recipient in s.registry && s.registry[msg.recipient] == c)
    || (msg.kind == "identify" && msg.payload.asIdentify.Some? && msg.sender in s.registry && s.registry[msg.sender] == c)
  }

  /** What they get: the message itself, and for an identify an acknowledgement with the sender's id and status ok. */
  ghost predicate Passes(got: Message, msg: Message) {
    if msg.kind != "identify" then got == msg
    else
      && got.kind == "identify_ack" && got.sender == "server" && got.topic == "" && got.recipient == "" && got.correlationId == ""
      && got.payload.asAck == Some(AckPayload(msg.sender, "ok"))
      && ParseText(got.payload.raw) == Some(Obj([("assigned_id", Str(msg.sender)), ("status", Str("ok"))]))
  }

  /** A client's link takes one message more, what the given one passes on, if it is served; otherwise nothing. */
  ghost predicate Gets(before: seq<Message>, after: seq<Message>, served: bool, msg: Message) {
    if served then |after| == |before| + 1 && before < after && Passes(after[|before|], msg) else after == before
  }

  lemma RecipientsInFull<C>(s: State<C>, msg: Message, c: C)
    ensures c in Recipients(s, msg) <==> IsFor(s, msg, c)
  {
  }

  lemma ForwardedInFull(msg: Message)
    ensures Passes(Forwarded(msg), msg)
  {
    hide EncodeAck, ParseText;
    AckDecodes(AckPayload(msg.sender, "ok"));
  }

  /** Other kinds of messages change nothing. */
  lemma OthersInFull<C>(s: State<C>, msg: Message)
    requires WellFormed(s) && msg.kind !in {"identify", "subscribe", "unsubscribe"}
    ensures Step(s, msg) == s
  {
  }
}
