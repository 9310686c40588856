/**
 The web client's server-sent-event connections (web/client.go, web/handlers.go): the first connection
 on a topic subscribes, the last one to close unsubscribes, through the server's own handler.
 */
module Sse {
  import opened Wrappers
  import opened Json
  import opened Proto
  import opened ServerState
  import opened ServerRuns

  type ConnId = nat

  datatype Web<!C> = Web(sse: map<GoString, seq<ConnId>>, srv: State<C>, me: C)

  function Connections(sse: map<GoString, seq<ConnId>>, topic: GoString): seq<ConnId> {
    if topic in sse then sse[topic] else []
  }

  /** The payload is put together without escaping; the server gets whatever that text decodes to. */
  function SubscriptionMessage(kind: string, sender: Id, topic: GoString): Message {
    Message(kind, "", sender, "", "", Payload(Concatenated(ReadText(topic)), None, Said(topic), None))
  }

  /** The position of the first occurrence, or the length. */
  function IndexOf(s: seq<ConnId>, c: ConnId): (i: nat)
    ensures i <= |s| && c !in s[..i] && (i < |s| ==> s[i] == c) && (c in s ==> i < |s|)
  {
    if s == [] then 0 else if s[0] == c then 0 else 1 + IndexOf(s[1..], c)
  }

  /** Splices the first occurrence out. */
  function Without(s: seq<ConnId>, c: ConnId): seq<ConnId> {
    var i := IndexOf(s, c);
    if i < |s| then s[..i] + s[i + 1..] else s
  }

  /** Exactly one connection goes, the others stay in order. */
  lemma WithoutDropsOne(s: seq<ConnId>, c: ConnId)
    requires c in s
    ensures |Without(s, c)| == |s| - 1 && multiset(Without(s, c)) == multiset(s) - multiset{c}
    ensures exists i :: 0 <= i < |s| && s[i] == c && Without(s, c) == s[..i] + s[i + 1..]
  {
    var i := IndexOf(s, c);
    assert s == s[..i] + [s[i]] + s[i + 1..];
  }

  lemma WithoutStranger(s: seq<ConnId>, c: ConnId)
    requires c !in s
    ensures Without(s, c) == s
  {
  }

  function Opened<C(==)>(w: Web<C>, topic: GoString, c: ConnId): Web<C>
    requires w.me in w.srv.meta
    requires w.srv.meta[w.me].id in w.srv.registry ==> w.srv.registry[w.srv.meta[w.me].id] in w.srv.meta
  {
    var before := Connections(w.sse, topic);
    var sse := w.sse[topic := before + [c]];
    if before == []
    then w.(sse := sse, srv := Step(w.srv, SubscriptionMessage("subscribe", w.srv.meta[w.me].id, topic)))
    else w.(sse := sse)
  }

  function Closed<C(==)>(w: Web<C>, topic: GoString, c: ConnId): Web<C>
    requires w.me in w.srv.meta
    requires w.srv.meta[w.me].id in w.srv.registry ==> w.srv.registry[w.srv.meta[w.me].id] in w.srv.meta
  {
    var after := Without(Connections(w.sse, topic), c);
    if after == []
    then w.(sse := w.sse - {topic}, srv := Step(w.srv, SubscriptionMessage("unsubscribe", w.srv.meta[w.me].id, topic)))
    else w.(sse := w.sse[topic := after])
  }

  // ---------- the refcount over whole runs ----------

  datatype Act<C> = Open(topic: GoString, c: ConnId) | Close(topic: GoString, c: ConnId) | Others(e: Event<C>)

  /** A stream that closes was opened before and closes once. */
  ghost predicate Enabled<C>(w: Web<C>, a: Act<C>) {
    match a
    case Open(topic, c) => true
    case Close(topic, c) => c in Connections(w.sse, topic)
    case Others(e) => Possible(w.srv, e) && w.me in w.srv.meta && ByOther(w.srv, e, w.me)
  }

  /** Topics in the broker come from decoded text, so only a valid Go string can be one. */
  predicate IsSubscribed<C(==)>(w: Web<C>, topic: GoString) {
    Valid(topic) && w.me in Members(w.srv.broker, ReadText(topic))
  }

  /** The web client is registered; it is in the broker's set exactly for the topics it has a connection on. */
  ghost predicate Counted<C>(w: Web<C>) {
    && Agreed(w.srv) && Live(w.srv, w.me)
    && (forall t :: t in w.sse ==> w.sse[t] != [])
    && (forall topic :: IsSubscribed(w, topic) <==> Connections(w.sse, topic) != [])
  }

  ghost function Next<C>(w: Web<C>, a: Act<C>): Web<C>
    requires WellFormed(w.srv) && w.me in w.srv.meta && Enabled(w, a)
  {
    match a
    case Open(topic, c) => Opened(w, topic, c)
    case Close(topic, c) => Closed(w, topic, c)
    case Others(e) => w.(srv := Apply(w.srv, e))
  }

  /** Whatever a subscription message says, the sender stays registered and is subscribed as it says. */
  lemma OwnSubscriptions<C>(s: State<C>, me: C, kind: string, topic: GoString)
    requires Agreed(s) && Live(s, me) && (kind == "subscribe" || kind == "unsubscribe")
    ensures
      var s' := Step(s, SubscriptionMessage(kind, s.meta[me].id, topic));
      var said := Said(topic);
      && Agreed(s') && Live(s', me)
      && forall t :: me in Members(s'.broker, t) <==>
           if said.Some? && t in said.value then kind == "subscribe" else me in Members(s.broker, t)
  {
    hide BrokerListsSubs, SubsInBroker, SubscribeAll, UnsubscribeAll, Agreed, Said;
    StepAgreed(s, SubscriptionMessage(kind, s.meta[me].id, topic));
    var said := Said(topic);
    if said.Some? {
      SubscribeAllMembers(s.broker, TopicSet(said.value), me);
      UnsubscribeAllMembers(s.broker, TopicSet(said.value), me);
    }
  }

  /** What an open or close tells the server is about its own topic, and about it alone, exactly if that needs no escaping. */
  lemma SaysTopicExactly(topic: GoString)
    ensures Unescaped(topic) ==> Said(topic) == Some([ReadText(topic)])
    ensures !Unescaped(topic) && Said(topic).Some? && Valid(topic) ==> ReadText(topic) !in Said(topic).value
  {
    hide Plain, Concatenated, DecodeTopics;
    if Unescaped(topic) {
      PlainDecodes(ReadText(topic));
    } else if Said(topic).Some? && Valid(topic) && ReadText(topic) in Said(topic).value {
      ValidExactly(topic, ReadText(topic));
      OnlyUnescapedIsSaid(topic, ReadText(topic));
    }
  }

  lemma SameText(a: GoString, b: GoString)
    requires Valid(a) && Valid(b) && ReadText(a) == ReadText(b)
    ensures a == b
  {
    ValidExactly(a, ReadText(a));
    ValidExactly(b, ReadText(b));
  }

  /** The act sends a message: it opens the first stream on its topic or closes the last one. */
  predicate Sends<C(==)>(w: Web<C>, a: Act<C>) {
    match a
    case Open(topic, c) => Connections(w.sse, topic) == []
    case Close(topic, c) => Without(Connections(w.sse, topic), c) == []
    case Others(e) => false
  }

  lemma Known<C>(w: Web<C>)
    requires Counted(w)
    ensures WellFormed(w.srv) && w.me in w.srv.meta && w.srv.meta[w.me].id in w.srv.registry
  {
  }

  lemma OpenCountedExactly<C>(w: Web<C>, topic: GoString, c: ConnId)
    requires Counted(w)
    ensures Counted(Opened(w, topic, c)) <==> Connections(w.sse, topic) != [] || Unescaped(topic)
  {
    hide Agreed, Step, Live, SubscriptionMessage, Said, Unescaped;
    Known(w);
    OwnSubscriptions(w.srv, w.me, "subscribe", topic);
    SaysTopicExactly(topic);
    var w' := Opened(w, topic, c);
    assert Connections(w'.sse, topic) != [];
    assert forall t :: t != topic ==> Connections(w'.sse, t) == Connections(w.sse, t);
    if Connections(w.sse, topic) == [] {
      if Unescaped(topic) {
        assert Valid(topic) by { UnescapedIsValid(topic); }
        forall g ensures IsSubscribed(w', g) <==> Connections(w'.sse, g) != [] {
          OnlyItsOwn(topic, g);
        }
      } else {
        assert !IsSubscribed(w', topic);
      }
    }
  }

  lemma UnescapedIsValid(topic: GoString)
    requires Unescaped(topic)
    ensures Valid(topic)
  {
  }

  lemma OnlyItsOwn(topic: GoString, other: GoString)
    requires Valid(topic)
    ensures Valid(other) && ReadText(other) in [ReadText(topic)] <==> other == topic
  {
    if Valid(other) && ReadText(other) == ReadText(topic) {
      SameText(other, topic);
    }
  }

  lemma CloseCountedExactly<C>(w: Web<C>, topic: GoString, c: ConnId)
    requires Counted(w) && c in Connections(w.sse, topic)
    ensures Counted(Closed(w, topic, c)) <==> Without(Connections(w.sse, topic), c) != [] || Unescaped(topic)
  {
    hide Agreed, Step, Live, SubscriptionMessage, Said, Unescaped, Without;
    Known(w);
    OwnSubscriptions(w.srv, w.me, "unsubscribe", topic);
    SaysTopicExactly(topic);
    var w' := Closed(w, topic, c);
    assert Connections(w'.sse, topic) == Without(Connections(w.sse, topic), c);
    assert forall t :: t != topic ==> Connections(w'.sse, t) == Connections(w.sse, t);
    assert IsSubscribed(w, topic);
    if Without(Connections(w.sse, topic), c) == [] {
      if Unescaped(topic) {
        forall g ensures IsSubscribed(w', g) <==> Connections(w'.sse, g) != [] {
          OnlyItsOwn(topic, g);
        }
      } else {
        assert IsSubscribed(w', topic);
      }
    }
  }

  /** An act keeps subscriptions and connections in step exactly if the topic it tells the server about is plain. */
  lemma NextCountedExactly<C>(w: Web<C>, a: Act<C>)
    requires Counted(w) && Enabled(w, a)
    ensures Counted(Next(w, a)) <==> (Sends(w, a) ==> Unescaped(a.topic))
  {
    hide Agreed, Step, Live, Unescaped;
    match a
    case Open(topic, c) => OpenCountedExactly(w, topic, c);
    case Close(topic, c) => CloseCountedExactly(w, topic, c);
    case Others(e) =>
      ApplyAgreed(w.srv, e);
      OthersSpareMe(w.srv, e, w.me);
  }

  /** Next where it is defined; that it is defined in every reachable state is part of what is proved. */
  ghost predicate IsStep<C>(w: Web<C>, a: Act<C>, w': Web<C>) {
    Enabled(w, a) && (WellFormed(w.srv) && w.me in w.srv.meta ==> w' == Next(w, a))
  }

  /** A run starts with the web client registered and without subscriptions or connections. */
  ghost predicate IsRun<C>(states: seq<Web<C>>, acts: seq<Act<C>>) {
    && |states| == |acts| + 1
    && var w := states[0];
    && w.sse == map[] && Agreed(w.srv) && Live(w.srv, w.me) && w.srv.meta[w.me].subs == {}
    && forall i :: 0 <= i < |acts| ==> IsStep(states[i], acts[i], states[i + 1])
  }

  /** Every stream that opens does so on a topic that needs no escaping. */
  ghost predicate OpensUnescaped<C>(acts: seq<Act<C>>) {
    forall k :: 0 <= k < |acts| && acts[k].Open? ==> Unescaped(acts[k].topic)
  }

  ghost predicate UnescapedTopics<C>(w: Web<C>) {
    forall t :: t in w.sse ==> Unescaped(t)
  }

  lemma StartsCounted<C>(states: seq<Web<C>>, acts: seq<Act<C>>)
    requires IsRun(states, acts)
    ensures Counted(states[0]) && UnescapedTopics(states[0])
  {
    forall t ensures states[0].me !in Members(states[0].srv.broker, t) {
      SubscribedExactly(states[0].srv, states[0].me, t);
    }
  }

  /** Only opening a stream adds a topic. */
  lemma NextUnescapedTopics<C>(w: Web<C>, a: Act<C>)
    requires Counted(w) && Enabled(w, a) && UnescapedTopics(w)
    ensures UnescapedTopics(Next(w, a)) <==> (a.Open? ==> Unescaped(a.topic))
    ensures a.Close? ==> Unescaped(a.topic)
  {
    hide Unescaped, Step, Agreed, Without, SubscriptionMessage;
  }

  lemma {:induction false} UnescapedRunCounted<C>(states: seq<Web<C>>, acts: seq<Act<C>>, i: nat)
    requires IsRun(states, acts) && OpensUnescaped(acts) && i < |states|
    ensures Counted(states[i]) && UnescapedTopics(states[i])
  {
    hide Counted, UnescapedTopics, Next, Enabled, Unescaped, Sends;
    if i == 0 {
      StartsCounted(states, acts);
    } else {
      UnescapedRunCounted(states, acts, i - 1);
      Known(states[i - 1]);
      assert IsStep(states[i - 1], acts[i - 1], states[i]);
      NextCountedExactly(states[i - 1], acts[i - 1]);
      NextUnescapedTopics(states[i - 1], acts[i - 1]);
      SendsIsAct(states[i - 1], acts[i - 1]);
    }
  }

  lemma SendsIsAct<C>(w: Web<C>, a: Act<C>)
    ensures Sends(w, a) ==> a.Open? || a.Close?
  {
  }

  /** As long as everything is counted, only plain topics have connections. */
  lemma {:induction false} CountedRunUnescaped<C>(states: seq<Web<C>>, acts: seq<Act<C>>, i: nat)
    requires IsRun(states, acts) && i < |states| && forall j :: 0 <= j <= i ==> Counted(states[j])
    ensures UnescapedTopics(states[i])
    ensures forall k :: 0 <= k < i && acts[k].Open? ==> Unescaped(acts[k].topic)
  {
    hide Counted, UnescapedTopics, Next, Enabled, Unescaped;
    if i == 0 {
      StartsCounted(states, acts);
    } else {
      CountedRunUnescaped(states, acts, i - 1);
      var w, a := states[i - 1], acts[i - 1];
      Known(w);
      assert IsStep(w, a, states[i]);
      NextCountedExactly(w, a);
      NextUnescapedTopics(w, a);
      if a.Open? && Connections(w.sse, a.topic) != [] {
        OpenTopicUnescaped(w, a.topic);
      }
    }
  }

  lemma OpenTopicUnescaped<C>(w: Web<C>, topic: GoString)
    requires UnescapedTopics(w) && Connections(w.sse, topic) != []
    ensures Unescaped(topic)
  {
  }

  /**
   Over every run, with other clients moving in between: the web client is subscribed exactly where it
   has a connection, throughout, if and only if no stream is opened on a topic that needs escaping.
   */
  lemma CountedThroughoutExactly<C>(states: seq<Web<C>>, acts: seq<Act<C>>)
    requires IsRun(states, acts)
    ensures (forall i :: 0 <= i < |states| ==> Counted(states[i])) <==> OpensUnescaped(acts)
  {
    hide Counted, Unescaped, Next, Enabled, UnescapedTopics;
    if OpensUnescaped(acts) {
      forall i | 0 <= i < |states| ensures Counted(states[i]) {
        UnescapedRunCounted(states, acts, i);
      }
    }
    if forall i :: 0 <= i < |states| ==> Counted(states[i]) {
      CountedRunUnescaped(states, acts, |acts|);
    }
  }

  /** The refcount drives the subscription. */
  lemma SubscribedIffConnected<C>(states: seq<Web<C>>, acts: seq<Act<C>>, i: nat, topic: GoString)
    requires IsRun(states, acts) && OpensUnescaped(acts) && i < |states|
    ensures IsSubscribed(states[i], topic) <==> topic in states[i].sse && |states[i].sse[topic]| > 0
  {
    UnescapedRunCounted(states, acts, i);
  }
}
