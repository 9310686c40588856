/**
 The two views of the server are one: the critical sections of Interleaving.dfy, run without
 interruption, are the handlers that ServerState.dfy describes and ServerObjects.dfy implements.
 */
module Uninterrupted {
  import opened Proto
  import opened ServerState
  import opened Interleaving
  import opened InterleavingProofs

  ghost predicate Ready(sys: Sys, t: Conn) {
    t in sys.pc && t in sys.s.meta && PointsInto(sys.pc[t], sys.s.meta.Keys)
  }

  /** The state the server reaches when connection t finishes what it is doing and nobody else moves. */
  ghost function Finished(sys: Sys, t: Conn): State<Conn>
    requires Ready(sys, t)
  {
    var s := sys.s;
    match sys.pc[t]
    case Created => Register(s, t)
    case Stored => s.(routes := Claim(s.routes, AcceptedNames(s.meta[t].features), s.meta[t].id))
    case RegisterClaim(names) => s.(routes := Claim(s.routes, names, s.meta[t].id))
    case IdentifyFound(c, p) =>
      var m := Meta(s.meta[t].id, p.proposedName, p.firmware, FeatureMap(p.features), s.meta[c].subs);
      s.(meta := s.meta[c := m], routes := Claim(s.routes, FeatureNames(m.features), m.id))
    case IdentifyStored(c) => s.(routes := Claim(s.routes, FeatureNames(s.meta[c].features), s.meta[c].id))
    case Subscribing(c, topics) => Subscribed(s, c, TopicSet(topics))
    case SubscribeHalf(c, topics) => Subscribed(s, c, TopicSet(topics))
    case Unsubscribing(c, topics) => Unsubscribed(s, c, TopicSet(topics))
    case UnsubscribeHalf(c, topics) => Unsubscribed(s, c, TopicSet(topics))
    case RemoveSubs(left) =>
      s.(broker := UnsubscribeAll(s.broker, left, t), routes := s.routes - FeatureNames(s.meta[t].features))
    case RemoveRoutes => s.(routes := s.routes - FeatureNames(s.meta[t].features))
    case _ => s
  }

  function Subscribed(s: State<Conn>, c: Conn, topics: set<Topic>): State<Conn>
    requires c in s.meta
  {
    s.(broker := SubscribeAll(s.broker, topics, c), meta := s.meta[c := s.meta[c].(subs := s.meta[c].subs + topics)])
  }

  function Unsubscribed(s: State<Conn>, c: Conn, topics: set<Topic>): State<Conn>
    requires c in s.meta
  {
    s.(broker := UnsubscribeAll(s.broker, topics, c), meta := s.meta[c := s.meta[c].(subs := s.meta[c].subs - topics)])
  }

  lemma SubscribeFirst(s: State<Conn>, c: Conn, topics: seq<Topic>)
    requires c in s.meta && topics != []
    ensures Subscribed(s.(broker := BrokerAdd(s.broker, topics[0], c)), c, TopicSet(topics)) == Subscribed(s, c, TopicSet(topics))
  {
    var all := TopicSet(topics);
    assert topics[0] in all;
    assert SubscribeAll(BrokerAdd(s.broker, topics[0], c), all, c) == SubscribeAll(s.broker, all, c);
  }

  lemma SubscribeRest(s: State<Conn>, c: Conn, topics: seq<Topic>)
    requires c in s.meta && topics != [] && c in Members(s.broker, topics[0])
    ensures Subscribed(s.(meta := s.meta[c := s.meta[c].(subs := s.meta[c].subs + {topics[0]})]), c, TopicSet(topics[1..]))
         == Subscribed(s, c, TopicSet(topics))
  {
    var rest := TopicSet(topics[1..]);
    assert TopicSet(topics) == {topics[0]} + rest;
    assert s.meta[c].subs + {topics[0]} + rest == s.meta[c].subs + TopicSet(topics);
    assert s.broker[topics[0]] + {c} == s.broker[topics[0]];
    assert SubscribeAll(s.broker, rest, c) == SubscribeAll(s.broker, {topics[0]} + rest, c);
  }

  lemma UnsubscribeFirst(s: State<Conn>, c: Conn, topics: seq<Topic>)
    requires c in s.meta && topics != []
    ensures Unsubscribed(s.(broker := BrokerDel(s.broker, topics[0], c)), c, TopicSet(topics)) == Unsubscribed(s, c, TopicSet(topics))
  {
    var all := TopicSet(topics);
    assert topics[0] in all;
    DeleteAbsorbed(s.broker, topics[0], all, c);
  }

  lemma DeleteAbsorbed(broker: map<Topic, set<Conn>>, topic: Topic, topics: set<Topic>, c: Conn)
    requires topic in topics
    ensures UnsubscribeAll(BrokerDel(broker, topic, c), topics, c) == UnsubscribeAll(broker, topics, c)
  {
    assert topic in broker ==> broker[topic] - {c} - {c} == broker[topic] - {c};
  }

  lemma UnsubscribeRest(s: State<Conn>, c: Conn, topics: seq<Topic>)
    requires c in s.meta && topics != [] && c !in Members(s.broker, topics[0])
    requires forall t :: t in s.broker ==> s.broker[t] != {}
    ensures Unsubscribed(s.(meta := s.meta[c := s.meta[c].(subs := s.meta[c].subs - {topics[0]})]), c, TopicSet(topics[1..]))
         == Unsubscribed(s, c, TopicSet(topics))
  {
    var rest := TopicSet(topics[1..]);
    assert TopicSet(topics) == {topics[0]} + rest;
    assert s.meta[c].subs - {topics[0]} - rest == s.meta[c].subs - TopicSet(topics);
    assert topics[0] in s.broker ==> s.broker[topics[0]] - {c} == s.broker[topics[0]];
    assert UnsubscribeAll(s.broker, rest, c) == UnsubscribeAll(s.broker, {topics[0]} + rest, c);
  }

  lemma UnsubscribeNext(broker: map<Topic, set<Conn>>, topic: Topic, topics: set<Topic>, c: Conn)
    requires topic in topics
    ensures UnsubscribeAll(BrokerDel(broker, topic, c), topics - {topic}, c) == UnsubscribeAll(broker, topics, c)
  {
    var after := BrokerDel(broker, topic, c);
    assert forall t :: t in topics - {topic} ==> Members(after, t) == Members(broker, t);
    DeleteAbsorbed(broker, topic, topics, c);
    assert topic in after ==> after[topic] - {c} == after[topic] && after[topic] != {};
    assert UnsubscribeAll(after, topics - {topic}, c) == UnsubscribeAll(after, topics, c);
  }

  lemma UnsubscribeNone(broker: map<Topic, set<Conn>>, c: Conn)
    ensures UnsubscribeAll(broker, {}, c) == broker
    ensures SubscribeAll(broker, {}, c) == broker
  {
  }

  // ---------- each critical section leaves the outcome unchanged ----------

  lemma RegisterSteps(sys: Sys, sys': Sys, step: Step)
    requires Domains(sys) && Enabled(sys, step) && sys' == Next(sys, step) && Core(sys)
    requires Ready(sys, step.t) && Ready(sys', step.t) && (step.Store? || step.ReadFeatures? || step.ClaimExisting?)
    ensures Finished(sys', step.t) == Finished(sys, step.t)
  {
    hide AcceptedNames, Claim, BrokerBacked, SubsBacked, IdsFresh, RegistryCoherent, RoutesHeld, RoutesFree;
    if step.ReadFeatures? && |sys.s.meta[step.t].features| == 0 {
      ClaimNothing(sys.s.routes, sys.s.meta[step.t].features, sys.s.meta[step.t].id);
    }
  }

  lemma IdentifySteps(sys: Sys, sys': Sys, step: Step)
    requires Domains(sys) && Enabled(sys, step) && sys' == Next(sys, step) && Core(sys)
    requires Ready(sys, step.t) && Ready(sys', step.t) && (step.ReplaceMeta? || step.ClaimDeclared? || step.Acknowledge?)
    ensures Finished(sys', step.t) == Finished(sys, step.t)
  {
    hide FeatureMap, FeatureNames, AcceptedNames, Claim, BrokerBacked, SubsBacked, IdsFresh, RegistryCoherent, RoutesHeld, RoutesFree, WellKeyed;
    assert OwnClient(step.t, sys.pc[step.t], sys.s.meta[step.t]);
  }

  lemma SubscribeSteps(sys: Sys, sys': Sys, step: Step)
    requires Domains(sys) && Enabled(sys, step) && sys' == Next(sys, step) && Core(sys)
    requires Ready(sys, step.t) && Ready(sys', step.t) && (step.BrokerSubscribe? || step.MarkSubscribed?)
    ensures Finished(sys', step.t) == Finished(sys, step.t)
  {
    hide SubscribeAll, Subscribed, BrokerAdd, BrokerBacked, IdsFresh, RegistryCoherent, RoutesHeld, BrokerFree, TopicSet, PointsInto, Domains;
    var c, topics := sys.pc[step.t].c, sys.pc[step.t].topics;
    assert OwnClient(step.t, sys.pc[step.t], sys.s.meta[step.t]);
    if step.BrokerSubscribe? {
      SubscribeFirst(sys.s, c, topics);
    } else {
      HalfSubscribed(sys, step.t);
      SubscribeRest(sys.s, c, topics);
    }
  }

  lemma HalfSubscribed(sys: Sys, t: Conn)
    requires Core(sys) && t in sys.pc && sys.pc[t].SubscribeHalf?
    ensures sys.pc[t].topics != [] && t in Members(sys.s.broker, sys.pc[t].topics[0])
  {
    hide BrokerBacked, IdsFresh, RegistryCoherent, RoutesHeld, OwnClients;
    assert PointsInto(sys.pc[t], sys.pc.Keys);
    assert MustSubscribe(sys.pc[t], sys.s.meta[t].subs, sys.pc[t].topics[0]);
  }

  lemma UnsubscribeSteps(sys: Sys, sys': Sys, step: Step)
    requires Domains(sys) && Enabled(sys, step) && sys' == Next(sys, step) && Core(sys)
    requires Ready(sys, step.t) && Ready(sys', step.t) && (step.BrokerUnsubscribe? || step.MarkUnsubscribed?)
    ensures Finished(sys', step.t) == Finished(sys, step.t)
  {
    hide UnsubscribeAll, Unsubscribed, BrokerDel, BrokerBacked, IdsFresh, RegistryCoherent, RoutesHeld, BrokerFree, TopicSet, PointsInto, Domains;
    var c, topics := sys.pc[step.t].c, sys.pc[step.t].topics;
    assert OwnClient(step.t, sys.pc[step.t], sys.s.meta[step.t]);
    if step.BrokerUnsubscribe? {
      UnsubscribeFirst(sys.s, c, topics);
    } else {
      HalfUnsubscribed(sys, step.t);
      UnsubscribeRest(sys.s, c, topics);
    }
  }

  lemma HalfUnsubscribed(sys: Sys, t: Conn)
    requires Core(sys) && t in sys.pc && sys.pc[t].UnsubscribeHalf?
    ensures sys.pc[t].topics != [] && t !in Members(sys.s.broker, sys.pc[t].topics[0])
    ensures forall topic :: topic in sys.s.broker ==> sys.s.broker[topic] != {}
  {
    hide SubsBacked, IdsFresh, RegistryCoherent, RoutesHeld, OwnClients;
    assert PointsInto(sys.pc[t], sys.pc.Keys);
    assert !MaySubscribe(sys.pc[t], sys.s.meta[t].subs, sys.pc[t].topics[0]);
  }

  lemma DropStep(sys: Sys, sys': Sys, t: Conn, topic: Topic)
    requires Domains(sys) && Enabled(sys, DropSubscription(t, topic)) && sys' == Next(sys, DropSubscription(t, topic))
    requires Ready(sys, t) && Ready(sys', t)
    ensures Finished(sys', t) == Finished(sys, t)
  {
    hide UnsubscribeAll, BrokerDel, PointsInto, BrokerFree, FeatureNames;
    UnsubscribeNext(sys.s.broker, topic, sys.pc[t].left, t);
  }

  lemma DropEnds(sys: Sys, sys': Sys, t: Conn)
    requires Domains(sys) && Enabled(sys, EndDrop(t)) && sys' == Next(sys, EndDrop(t)) && Ready(sys, t) && Ready(sys', t)
    ensures Finished(sys', t) == Finished(sys, t)
  {
    hide UnsubscribeAll, PointsInto, FeatureNames, Domains, Ready;
    UnsubscribeNone(sys.s.broker, t);
  }

  lemma ReleaseStep(sys: Sys, sys': Sys, t: Conn)
    requires Domains(sys) && Enabled(sys, ReleaseRoutes(t)) && sys' == Next(sys, ReleaseRoutes(t))
    requires Ready(sys, t) && Ready(sys', t)
    ensures Finished(sys', t) == Finished(sys, t)
  {
    hide Domains, Next, Enabled, PointsInto, FeatureNames;
    LastOfRemove(sys, sys', t);
  }

  lemma LastOfRemove(sys: Sys, sys': Sys, t: Conn)
    requires Domains(sys) && Enabled(sys, ReleaseRoutes(t)) && sys' == Next(sys, ReleaseRoutes(t)) && Ready(sys, t)
    ensures t in sys'.pc && sys.pc[t].RemoveRoutes? && sys'.pc[t].Gone?
    ensures sys'.s == sys.s.(routes := sys.s.routes - FeatureNames(sys.s.meta[t].features))
  {
    hide PointsInto, RoutesFree, FeatureNames;
  }

  lemma NothingSubscribed(s: State<Conn>, c: Conn)
    requires c in s.meta
    ensures Subscribed(s, c, {}) == s && Unsubscribed(s, c, {}) == s
  {
    UnsubscribeNone(s.broker, c);
    var m := s.meta[c];
    assert m.subs + {} == m.subs && m.subs - {} == m.subs;
    assert s.meta[c := m] == s.meta;
  }

  lemma LoopEnds(sys: Sys, sys': Sys, t: Conn)
    requires Domains(sys) && Enabled(sys, EndLoop(t)) && sys' == Next(sys, EndLoop(t))
    requires Ready(sys, t) && Ready(sys', t)
    ensures Finished(sys', t) == Finished(sys, t)
  {
    hide Domains, Next, Enabled, Subscribed, Unsubscribed;
    LastOfLoop(sys, sys', t);
    assert TopicSet([]) == {};
    NothingSubscribed(sys.s, sys.pc[t].c);
  }

  lemma LastOfLoop(sys: Sys, sys': Sys, t: Conn)
    requires Domains(sys) && Enabled(sys, EndLoop(t)) && sys' == Next(sys, EndLoop(t))
    ensures t in sys.pc && t in sys'.pc && sys'.s == sys.s && sys'.pc[t].Idle?
    ensures (sys.pc[t].Subscribing? || sys.pc[t].Unsubscribing?) && sys.pc[t].topics == []
  {
    hide PointsInto;
  }

  predicate Reads(step: Step) {
    step.PublishTo? || step.EndPublish? || step.LookupRoute? || step.LookupOwner? || step.Forward?
  }

  /** Sending and looking up change none of the four structures. */
  lemma ReadSteps(sys: Sys, sys': Sys, step: Step)
    requires Domains(sys) && Enabled(sys, step) && sys' == Next(sys, step)
    requires Ready(sys, step.t) && Ready(sys', step.t) && Reads(step)
    ensures Finished(sys', step.t) == Finished(sys, step.t)
  {
    hide PointsInto, BrokerFree, RoutesFree, Claim, FeatureMap, FeatureNames, AcceptedNames, Subscribed, Unsubscribed, Register, UnsubscribeAll, Domains;
    hide Next, Enabled;
    StillReading(sys, sys', step);
  }

  lemma StillReading(sys: Sys, sys': Sys, step: Step)
    requires Domains(sys) && Enabled(sys, step) && Reads(step) && sys' == Next(sys, step)
    ensures step.t in sys.pc && step.t in sys'.pc && sys'.s == sys.s
    ensures Reading(sys.pc[step.t]) && (Reading(sys'.pc[step.t]) || sys'.pc[step.t].Idle?)
  {
    hide PointsInto, BrokerFree, RoutesFree;
  }

  predicate Reading(pc: Pc) {
    pc.Publishing? || ReadsRoutes(pc) || pc.RespondTo?
  }

  predicate Begins(step: Step) {
    step.Accept? || step.Receive? || step.Disconnect?
  }

  lemma CoreReady(sys: Sys, t: Conn)
    requires Core(sys)
    ensures Domains(sys) && (t in sys.pc ==> Ready(sys, t))
  {
    hide IdsFresh, RegistryCoherent, OwnClients, BrokerBacked, SubsBacked, RoutesHeld;
  }

  /** Whatever its connection is in the middle of, the outcome is settled when it begins. */
  lemma StepFinishesTheSame(sys: Sys, sys': Sys, step: Step)
    requires Domains(sys) && Enabled(sys, step) && !Begins(step) && sys' == Next(sys, step) && Core(sys)
    requires Ready(sys, step.t) && Ready(sys', step.t)
    ensures Finished(sys', step.t) == Finished(sys, step.t)
  {
    hide Core, Finished, Next, Enabled, Domains, Ready;
    match step
    case Store(t) => RegisterSteps(sys, sys', step);
    case ReadFeatures(t) => RegisterSteps(sys, sys', step);
    case ClaimExisting(t) => RegisterSteps(sys, sys', step);
    case ReplaceMeta(t) => IdentifySteps(sys, sys', step);
    case ClaimDeclared(t) => IdentifySteps(sys, sys', step);
    case Acknowledge(t) => IdentifySteps(sys, sys', step);
    case BrokerSubscribe(t) => SubscribeSteps(sys, sys', step);
    case MarkSubscribed(t) => SubscribeSteps(sys, sys', step);
    case BrokerUnsubscribe(t) => UnsubscribeSteps(sys, sys', step);
    case MarkUnsubscribed(t) => UnsubscribeSteps(sys, sys', step);
    case DropSubscription(t, topic) => DropStep(sys, sys', t, topic);
    case EndDrop(t) => DropEnds(sys, sys', t);
    case ReleaseRoutes(t) => ReleaseStep(sys, sys', t);
    case EndLoop(t) => LoopEnds(sys, sys', t);
    case _ => ReadSteps(sys, sys', step);
  }

  // ---------- what is settled when it begins ----------

  /** A connection begins to register. */
  lemma AcceptSettlesRegister(sys: Sys, sys': Sys, t: Conn, id: Id, features: map<string, Feature>)
    requires Domains(sys) && Enabled(sys, Accept(t, id, features)) && sys' == DoAccept(sys, t, id, features)
    requires Ready(sys', t)
    ensures Finished(sys', t) == Register(sys.s.(meta := sys.s.meta[t := Meta(id, "", "", features, {})]), t)
  {
    hide AcceptedNames, PointsInto;
  }

  /** A connection's own id leads to it. */
  lemma OwnLookup(sys: Sys, t: Conn)
    requires Core(sys) && t in sys.pc && sys.pc[t].Idle?
    ensures t in sys.s.meta && sys.s.meta[t].id in sys.s.registry && sys.s.registry[sys.s.meta[t].id] == t
  {
    hide BrokerBacked, SubsBacked, RoutesHeld, PointsInto, OwnClients;
  }

  /** What the first critical section found settles the rest. */
  lemma DispatchSettles(sys: Sys, sys': Sys, t: Conn, m: Message)
    requires t in sys.s.meta && m.sender == sys.s.meta[t].id && m.sender in sys.s.registry && sys.s.registry[m.sender] == t
    requires Ready(sys', t) && sys'.s == sys.s && sys'.pc[t] == Dispatch(sys.s, m)
    ensures Finished(sys', t) == ServerState.Step(sys.s, m)
  {
    hide FeatureMap, FeatureNames, Claim, SubscribeAll, UnsubscribeAll, TopicSet, PointsInto;
    if m.payload.asIdentify.Some? {
      FeatureMapNames(m.payload.asIdentify.value.features);
    }
  }

  /** A connection reads a message, which is handled under its own id. */
  lemma ReceiveSettlesStep(sys: Sys, sys': Sys, t: Conn, msg: Message)
    requires Domains(sys) && Enabled(sys, Receive(t, msg)) && sys' == DoReceive(sys, t, msg) && Core(sys)
    requires Ready(sys', t)
    ensures var id := sys.s.meta[t].id; id in sys.s.registry && sys.s.registry[id] == t
    ensures Finished(sys', t) == ServerState.Step(sys.s, msg.(sender := sys.s.meta[t].id))
  {
    hide Finished, ServerState.Step, Dispatch, BrokerBacked, SubsBacked, RoutesHeld, PointsInto, OwnClients, IdsFresh, RegistryCoherent;
    OwnLookup(sys, t);
    DispatchSettles(sys, sys', t, msg.(sender := sys.s.meta[t].id));
  }

  /** A connection begins to leave. */
  lemma DisconnectSettlesRemove(sys: Sys, sys': Sys, t: Conn)
    requires Domains(sys) && Enabled(sys, Disconnect(t)) && sys' == DoDisconnect(sys, t) && Ready(sys', t)
    ensures Finished(sys', t) == Remove(sys.s, t)
  {
    hide FeatureNames, UnsubscribeAll, PointsInto;
  }

  // ---------- uninterrupted runs ----------

  /** From state first on only connection t moves, and it begins nothing new. */
  ghost predicate Alone(first: Sys, states: seq<Sys>, steps: seq<Step>, t: Conn) {
    && |states| == |steps| + 1 && states[0] == first
    && forall i :: 0 <= i < |steps| ==>
      && steps[i].t == t && !Begins(steps[i]) && Enabled(states[i], steps[i])
      && (Domains(states[i]) ==> states[i + 1] == Next(states[i], steps[i]))
  }

  lemma {:induction false} AloneFinishesTheSame(first: Sys, states: seq<Sys>, steps: seq<Step>, t: Conn, i: nat)
    requires Alone(first, states, steps, t) && i < |states| && Core(first) && t in first.pc
    ensures Core(states[i]) && Ready(states[i], t) && Ready(first, t) && Finished(states[i], t) == Finished(first, t)
  {
    hide Finished, Next, Enabled, Core, Domains;
    CoreReady(first, t);
    if i > 0 {
      AloneFinishesTheSame(first, states, steps, t, i - 1);
      CoreReady(states[i - 1], t);
      NextKeepsCore(states[i - 1], steps[i - 1]);
      OthersStandStill(states[i - 1], states[i], steps[i - 1]);
      CoreReady(states[i], t);
      StepFinishesTheSame(states[i - 1], states[i], steps[i - 1]);
    }
  }

  /** A connection with nothing left to do has reached the outcome. */
  lemma IdleIsFinished(sys: Sys, t: Conn)
    requires Ready(sys, t) && (sys.pc[t].Idle? || sys.pc[t].Gone?)
    ensures Finished(sys, t) == sys.s
  {
  }

  /**
   A message read by a connection and handled without interruption, in whatever order its loops go,
   takes the four structures exactly where ServerState.Step says.
   */
  lemma HandledAloneIsStep(sys: Sys, t: Conn, msg: Message, states: seq<Sys>, steps: seq<Step>, end: Sys)
    requires Domains(sys) && Enabled(sys, Receive(t, msg)) && Core(sys)
    requires Alone(DoReceive(sys, t, msg), states, steps, t) && end == states[|steps|]
    requires t in end.pc && end.pc[t].Idle?
    ensures var id := sys.s.meta[t].id; id in sys.s.registry && sys.s.registry[id] == t
    ensures end.s == ServerState.Step(sys.s, msg.(sender := sys.s.meta[t].id))
  {
    hide Core, Domains, Finished, Alone, Ready;
    NextKeepsCore(sys, Receive(t, msg));
    var first := DoReceive(sys, t, msg);
    CoreReady(first, t);
    ReceiveSettlesStep(sys, first, t, msg);
    Concluded(first, states, steps, t, end);
  }

  lemma Concluded(first: Sys, states: seq<Sys>, steps: seq<Step>, t: Conn, end: Sys)
    requires Core(first) && Ready(first, t) && Alone(first, states, steps, t) && end == states[|steps|]
    requires t in end.pc && (end.pc[t].Idle? || end.pc[t].Gone?)
    ensures end.s == Finished(first, t)
  {
    hide Core, Finished, Next, Enabled, Domains, PointsInto;
    AloneFinishesTheSame(first, states, steps, t, |steps|);
    IdleIsFinished(end, t);
  }

  /** A disconnect run to its end without interruption is Remove. */
  lemma LeftAloneIsRemove(sys: Sys, t: Conn, states: seq<Sys>, steps: seq<Step>, end: Sys)
    requires Domains(sys) && Enabled(sys, Disconnect(t)) && Core(sys)
    requires Alone(DoDisconnect(sys, t), states, steps, t) && end == states[|steps|]
    requires t in end.pc && end.pc[t].Gone?
    ensures end.s == Remove(sys.s, t)
  {
    hide Core, Domains, Finished, Alone, Ready, Remove;
    NextKeepsCore(sys, Disconnect(t));
    var first := DoDisconnect(sys, t);
    CoreReady(first, t);
    DisconnectSettlesRemove(sys, first, t);
    Concluded(first, states, steps, t, end);
  }

  /** An accepted connection whose registration is not interrupted is registered by Register. */
  lemma JoinedAloneIsRegister(sys: Sys, t: Conn, id: Id, features: map<string, Feature>, states: seq<Sys>, steps: seq<Step>, end: Sys)
    requires Domains(sys) && Enabled(sys, Accept(t, id, features)) && Core(sys)
    requires Alone(DoAccept(sys, t, id, features), states, steps, t) && end == states[|steps|]
    requires t in end.pc && end.pc[t].Idle?
    ensures end.s == Register(sys.s.(meta := sys.s.meta[t := Meta(id, "", "", features, {})]), t)
  {
    hide Core, Domains, Finished, Alone, Ready, Register;
    NextKeepsCore(sys, Accept(t, id, features));
    var first := DoAccept(sys, t, id, features);
    CoreReady(first, t);
    AcceptSettlesRegister(sys, first, t, id, features);
    Concluded(first, states, steps, t, end);
  }
}
