/** Handler-by-handler runs of the server: everything that clients other than a given one may do to it. */
module ServerRuns {
  import opened Proto
  import opened ServerState

  datatype Event<C> = Joined(c: C, m: Meta) | Left(c: C) | Handled(msg: Message)

  /** A joining client is a new object with a new id and no subscriptions; a leaving client is registered. */
  ghost predicate Possible<C>(s: State<C>, e: Event<C>) {
    match e
    case Joined(c, m) => c !in s.meta && m.id !in s.registry && m.subs == {}
    case Left(c) => Live(s, c)
    case Handled(msg) => true
  }

  ghost function Apply<C>(s: State<C>, e: Event<C>): State<C>
    requires WellFormed(s) && Possible(s, e)
  {
    match e
    case Joined(c, m) => Register(s.(meta := s.meta[c := m]), c)
    case Left(c) => Remove(s, c)
    case Handled(msg) => Step(s, msg)
  }

  lemma AddMetaAgreed<C>(s: State<C>, c: C, m: Meta)
    requires Agreed(s) && c !in s.meta && m.id !in s.registry && m.subs == {}
    ensures Agreed(s.(meta := s.meta[c := m])) && Newcomer(s.(meta := s.meta[c := m]), c)
  {
    hide Declares;
    var s' := s.(meta := s.meta[c := m]);
    assert forall x :: x in s.meta ==> (Live(s', x) <==> Live(s, x));
  }

  lemma ApplyAgreed<C>(s: State<C>, e: Event<C>)
    requires Agreed(s) && Possible(s, e)
    ensures Agreed(Apply(s, e))
    ensures e.Joined? ==> Live(Apply(s, e), e.c) && Apply(s, e).meta[e.c] == e.m
    ensures e.Left? ==> !Live(Apply(s, e), e.c) && forall t :: e.c !in Members(Apply(s, e).broker, t)
  {
    hide AcceptedNames, Agreed, FeatureNames, WellFormed;
    match e
    case Joined(c, m) =>
      AddMetaAgreed(s, c, m);
      RegisterConsistent(s.(meta := s.meta[c := m]), c);
    case Left(c) => RemoveConsistent(s, c);
    case Handled(msg) => StepAgreed(s, msg);
  }

  /** The event is another client's. */
  ghost predicate ByOther<C>(s: State<C>, e: Event<C>, me: C)
    requires me in s.meta
  {
    match e
    case Joined(c, m) => c != me
    case Left(c) => c != me
    case Handled(msg) => msg.sender != s.meta[me].id
  }

  /** What other clients do leaves my registration, my data and my subscriptions alone. */
  lemma OthersSpareMe<C>(s: State<C>, e: Event<C>, me: C)
    requires Agreed(s) && Live(s, me) && Possible(s, e) && ByOther(s, e, me)
    ensures
      var s' := Apply(s, e);
      Live(s', me) && s'.meta[me] == s.meta[me]
      && forall t :: me in Members(s'.broker, t) <==> me in Members(s.broker, t)
  {
    hide AcceptedNames, FeatureNames, FeatureMap, Claim;
    match e
    case Joined(c, m) =>
    case Left(c) => RemovalSparesMe(s, c, me);
    case Handled(msg) => MessageSparesMe(s, msg, me);
  }

  lemma RemovalSparesMe<C>(s: State<C>, c: C, me: C)
    requires Agreed(s) && Live(s, me) && Live(s, c) && c != me
    ensures Live(Remove(s, c), me) && Remove(s, c).meta == s.meta
    ensures forall t :: me in Members(Remove(s, c).broker, t) <==> me in Members(s.broker, t)
  {
    hide FeatureNames, BrokerListsSubs, SubsInBroker, UnsubscribeAll;
    UnsubscribeAllMembers(s.broker, s.meta[c].subs, c);
  }

  lemma MessageSparesMe<C>(s: State<C>, msg: Message, me: C)
    requires Agreed(s) && Live(s, me) && msg.sender != s.meta[me].id
    ensures Live(Step(s, msg), me) && Step(s, msg).meta[me] == s.meta[me]
    ensures forall t :: me in Members(Step(s, msg).broker, t) <==> me in Members(s.broker, t)
  {
    hide FeatureMap, Claim, BrokerListsSubs, SubsInBroker, SubscribeAll, UnsubscribeAll;
    if msg.sender in s.registry && msg.payload.asSubscription.Some? {
      var c := s.registry[msg.sender];
      SubscribeAllMembers(s.broker, TopicSet(msg.payload.asSubscription.value), c);
      UnsubscribeAllMembers(s.broker, TopicSet(msg.payload.asSubscription.value), c);
    }
  }

  /** A live client is in the broker's set for exactly the topics in its Subs. */
  lemma SubscribedExactly<C>(s: State<C>, me: C, t: Topic)
    requires Agreed(s) && Live(s, me)
    ensures me in Members(s.broker, t) <==> t in s.meta[me].subs
  {
  }
}
