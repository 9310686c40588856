/** Every step of Interleaving keeps its invariant. */
module InterleavingProofs {
  import opened Proto
  import opened ServerState
  import opened Interleaving

  /** From sys to sys', only what belongs to connection t and the routing table may differ. */
  ghost predicate OnlyTouches(sys: Sys, sys': Sys, t: Conn)
    requires Domains(sys) && t in sys.pc
  {
    && sys'.issued == sys.issued
    && sys'.pc.Keys == sys'.s.meta.Keys == sys'.attempts.Keys == sys'.published.Keys == sys.pc.Keys
    && (forall x :: x in sys.pc && x != t ==> sys'.pc[x] == sys.pc[x] && sys'.s.meta[x] == sys.s.meta[x])
    && sys'.s.meta[t].id == sys.s.meta[t].id
    && (forall topic :: topic in sys'.s.broker ==> sys'.s.broker[topic] != {})
    && (forall topic, x :: x != t ==> (x in Members(sys'.s.broker, topic) <==> x in Members(sys.s.broker, topic)))
    && (forall id :: id != sys.s.meta[t].id ==> (id in sys'.s.registry <==> id in sys.s.registry))
    && (forall id :: id != sys.s.meta[t].id && id in sys.s.registry ==> sys'.s.registry[id] == sys.s.registry[id])
  }

  /** The parts of the invariant that speak of t alone. */
  ghost predicate OwnPartHolds(sys: Sys, t: Conn) {
    && t in sys.pc && t in sys.s.meta
    && var pc, m := sys.pc[t], sys.s.meta[t];
    && PointsInto(pc, sys.pc.Keys)
    && (Registered(pc) <==> m.id in sys.s.registry)
    && (m.id in sys.s.registry ==> sys.s.registry[m.id] == t)
    && OwnClient(t, pc, m)
    && (forall topic :: t in Members(sys.s.broker, topic) ==> MaySubscribe(pc, m.subs, topic))
    && (forall topic :: MustSubscribe(pc, m.subs, topic) ==> t in Members(sys.s.broker, topic))
  }

  lemma NoEmptySets(sys: Sys)
    requires BrokerBacked(sys)
    ensures forall topic :: topic in sys.s.broker ==> sys.s.broker[topic] != {}
  {
    hide MaySubscribe;
  }

  lemma LocalDomains(sys: Sys, sys': Sys, t: Conn)
    requires Domains(sys) && t in sys.pc && OnlyTouches(sys, sys', t) && OwnPartHolds(sys', t)
    ensures Domains(sys')
  {
    hide MaySubscribe, MustSubscribe, Members, PointsInto, OwnClient, Registered;
    forall x | x in sys'.pc ensures PointsInto(sys'.pc[x], sys'.pc.Keys) {
      assert x != t ==> PointsInto(sys.pc[x], sys.pc.Keys);
    }
  }

  lemma LocalIds(sys: Sys, sys': Sys, t: Conn)
    requires Domains(sys) && t in sys.pc && OnlyTouches(sys, sys', t)
    requires IdsFresh(sys)
    ensures IdsFresh(sys')
  {
    hide PointsInto, Members;
    assert forall x :: x in sys.s.meta ==> x in sys'.s.meta && sys'.s.meta[x].id == sys.s.meta[x].id;
  }

  lemma LocalOwnClients(sys: Sys, sys': Sys, t: Conn)
    requires Domains(sys) && t in sys.pc && OnlyTouches(sys, sys', t) && OwnPartHolds(sys', t)
    requires OwnClients(sys)
    ensures OwnClients(sys')
  {
    hide MaySubscribe, MustSubscribe, Members, PointsInto, OwnClient, Registered;
  }

  lemma LocalRegistry(sys: Sys, sys': Sys, t: Conn)
    requires Domains(sys) && t in sys.pc && OnlyTouches(sys, sys', t) && OwnPartHolds(sys', t)
    requires IdsFresh(sys) && RegistryCoherent(sys)
    ensures RegistryCoherent(sys')
  {
    hide OnlyTouches, OwnPartHolds, Domains, IdsFresh, Registered, RegistryCoherent;
    LocalStored(sys, sys', t);
    LocalPhases(sys, sys', t);
    CoherentParts(sys');
  }

  lemma CoherentParts(sys: Sys)
    requires forall id :: id in sys.s.registry ==> id in sys.issued && sys.s.registry[id] == sys.issued[id]
    requires forall x :: x in sys.pc && x in sys.s.meta ==> (Registered(sys.pc[x]) <==> sys.s.meta[x].id in sys.s.registry)
    ensures RegistryCoherent(sys)
  {
    hide Registered;
  }

  lemma LocalStored(sys: Sys, sys': Sys, t: Conn)
    requires Domains(sys) && t in sys.pc && OnlyTouches(sys, sys', t) && OwnPartHolds(sys', t)
    requires IdsFresh(sys) && RegistryCoherent(sys)
    ensures forall id :: id in sys'.s.registry ==> id in sys'.issued && sys'.s.registry[id] == sys'.issued[id]
  {
    hide MaySubscribe, MustSubscribe, OwnClient, PointsInto, Members, Registered;
    var own := sys.s.meta[t].id;
    assert sys.issued[own] == t;
    forall id | id in sys'.s.registry ensures id in sys'.issued && sys'.s.registry[id] == sys'.issued[id] {
      if id != own {
        assert id in sys.s.registry;
      }
    }
  }

  lemma LocalPhases(sys: Sys, sys': Sys, t: Conn)
    requires Domains(sys) && t in sys.pc && OnlyTouches(sys, sys', t) && OwnPartHolds(sys', t)
    requires IdsFresh(sys) && RegistryCoherent(sys)
    ensures forall x :: x in sys'.pc && x in sys'.s.meta ==> (Registered(sys'.pc[x]) <==> sys'.s.meta[x].id in sys'.s.registry)
  {
    hide MaySubscribe, MustSubscribe, OwnClient, PointsInto, Members, Registered;
    forall x | x in sys'.pc && x in sys'.s.meta
      ensures Registered(sys'.pc[x]) <==> sys'.s.meta[x].id in sys'.s.registry
    {
      if x != t {
        assert sys.s.meta[x].id != sys.s.meta[t].id;
      }
    }
  }

  lemma LocalBroker(sys: Sys, sys': Sys, t: Conn)
    requires Domains(sys) && t in sys.pc && OnlyTouches(sys, sys', t) && OwnPartHolds(sys', t)
    requires BrokerBacked(sys)
    ensures BrokerBacked(sys')
  {
    hide MaySubscribe, MustSubscribe, OwnClient, PointsInto, Registered, Domains;
    forall topic, c | topic in sys'.s.broker && c in sys'.s.broker[topic]
      ensures c in sys'.pc && c in sys'.s.meta && MaySubscribe(sys'.pc[c], sys'.s.meta[c].subs, topic)
    {
      assert c in Members(sys'.s.broker, topic);
      if c != t {
        assert c in Members(sys.s.broker, topic);
      }
    }
  }

  lemma LocalSubs(sys: Sys, sys': Sys, t: Conn)
    requires Domains(sys) && t in sys.pc && OnlyTouches(sys, sys', t) && OwnPartHolds(sys', t)
    requires SubsBacked(sys)
    ensures SubsBacked(sys')
  {
    hide MaySubscribe, MustSubscribe, OwnClient, PointsInto, Members, Registered;
  }

  /** A step that touches only t keeps the invariant if t's own part and the held routes come out right. */
  lemma LocalKeeps(sys: Sys, sys': Sys, t: Conn)
    requires Core(sys) && t in sys.pc && OnlyTouches(sys, sys', t) && OwnPartHolds(sys', t)
    requires RoutesHeld(sys')
    ensures Core(sys')
  {
    hide OnlyTouches, OwnPartHolds, RoutesHeld, BrokerBacked, SubsBacked, IdsFresh, RegistryCoherent, OwnClients;
    LocalDomains(sys, sys', t);
    LocalIds(sys, sys', t);
    LocalOwnClients(sys, sys', t);
    LocalRegistry(sys, sys', t);
    LocalBroker(sys, sys', t);
    LocalSubs(sys, sys', t);
  }

  /** What readers of the routing table hold on to stays true while the table is untouched. */
  lemma SameHeld(sys: Sys, sys': Sys, t: Conn)
    requires Domains(sys) && t in sys.pc && OnlyTouches(sys, sys', t)
    requires RoutesHeld(sys) && sys'.s.routes == sys.s.routes && RouteHeld(sys', sys'.pc[t])
    ensures RoutesHeld(sys')
  {
    forall x | x in sys'.pc ensures RouteHeld(sys', sys'.pc[x]) {
      if x != t {
        assert RouteHeld(sys, sys.pc[x]);
      }
    }
  }

  /** Writers of the routing table wait until nobody reads it. */
  lemma FreeHeld(sys: Sys, sys': Sys, t: Conn)
    requires Domains(sys) && t in sys.pc && OnlyTouches(sys, sys', t)
    requires RoutesFree(sys) && !ReadsRoutes(sys'.pc[t])
    ensures RoutesHeld(sys')
  {
    forall x | x in sys'.pc ensures !ReadsRoutes(sys'.pc[x]) {
    }
  }

  /**
   A step that touches only t keeps the invariant if t's own part comes out right and the routing table
   stays as it is or nobody, t included, is reading it.
   */
  lemma TouchKeeps(sys: Sys, sys': Sys, t: Conn)
    requires Domains(sys) && t in sys.pc && t in sys'.pc && OnlyTouches(sys, sys', t) && OwnPartHolds(sys', t) && Core(sys)
    requires (sys'.s.routes == sys.s.routes && RouteHeld(sys', sys'.pc[t])) || (RoutesFree(sys) && !ReadsRoutes(sys'.pc[t]))
    ensures Core(sys')
  {
    hide Domains, OnlyTouches, OwnPartHolds, RoutesHeld, RouteHeld, RoutesFree, ReadsRoutes;
    hide IdsFresh, RegistryCoherent, OwnClients, BrokerBacked, SubsBacked;
    if sys'.s.routes == sys.s.routes && RouteHeld(sys', sys'.pc[t]) {
      SameHeld(sys, sys', t);
    } else {
      FreeHeld(sys, sys', t);
    }
    LocalKeeps(sys, sys', t);
  }

  lemma OwnPart(sys: Sys, t: Conn)
    requires Core(sys) && t in sys.pc
    ensures OwnPartHolds(sys, t)
  {
    hide OwnClient, MaySubscribe, MustSubscribe, PointsInto, RoutesHeld;
    forall topic | t in Members(sys.s.broker, topic) ensures MaySubscribe(sys.pc[t], sys.s.meta[t].subs, topic) {
    }
  }

  /** Only t's program counter, and the logs, change. */
  lemma MoveKeeps(sys: Sys, t: Conn, next: Pc, attempts: map<Conn, seq<Attempt>>, published: map<Conn, seq<Publication>>)
    requires Core(sys) && t in sys.pc
    requires attempts.Keys == published.Keys == sys.pc.Keys
    requires PointsInto(next, sys.pc.Keys)
    requires Registered(next) <==> Registered(sys.pc[t])
    requires OwnClient(t, next, sys.s.meta[t])
    requires forall topic :: MaySubscribe(sys.pc[t], sys.s.meta[t].subs, topic) ==> MaySubscribe(next, sys.s.meta[t].subs, topic)
    requires forall topic :: MustSubscribe(next, sys.s.meta[t].subs, topic) ==> MustSubscribe(sys.pc[t], sys.s.meta[t].subs, topic)
    requires RouteHeld(sys, next)
    ensures Core(Goto(sys, t, next).(attempts := attempts, published := published))
  {
    hide OwnClient, MaySubscribe, MustSubscribe, PointsInto, Declares, Registered, Leaving;
    hide IdsFresh, RegistryCoherent, OwnClients, BrokerBacked, SubsBacked, RoutesHeld;
    var sys' := Goto(sys, t, next).(attempts := attempts, published := published);
    OwnPart(sys, t);
    NoEmptySets(sys);
    MoveTouches(sys, sys', t);
    hide OnlyTouches;
    SameHeld(sys, sys', t);
    LocalKeeps(sys, sys', t);
  }

  lemma MoveTouches(sys: Sys, sys': Sys, t: Conn)
    requires Domains(sys) && t in sys.pc && (forall topic :: topic in sys.s.broker ==> sys.s.broker[topic] != {})
    requires sys'.s == sys.s && sys'.issued == sys.issued && sys'.pc.Keys == sys'.attempts.Keys == sys'.published.Keys == sys.pc.Keys
    requires forall x :: x in sys.pc && x != t ==> sys'.pc[x] == sys.pc[x]
    ensures OnlyTouches(sys, sys', t)
  {
    hide PointsInto;
  }

  // ---------- steps that only move the program counter ----------

  lemma ReadFeaturesKeeps(sys: Sys, t: Conn)
    requires Domains(sys) && Enabled(sys, ReadFeatures(t)) && Core(sys)
    ensures Core(DoReadFeatures(sys, t))
  {
    hide AcceptedNames, Declares, IdsFresh, RegistryCoherent, OwnClients, BrokerBacked, SubsBacked, RoutesHeld, RoutesFree, BrokerFree;
    var features := sys.s.meta[t].features;
    MoveKeeps(sys, t, if |features| > 0 then RegisterClaim(AcceptedNames(features)) else Idle, sys.attempts, sys.published);
  }

  /** By the registry's coherence, the sender that is looked up is the connection's own client. */
  lemma LooksUpItself(sys: Sys, t: Conn)
    requires Core(sys) && t in sys.pc && Registered(sys.pc[t])
    ensures sys.s.meta[t].id in sys.s.registry && sys.s.registry[sys.s.meta[t].id] == t
  {
  }

  lemma ReceiveKeeps(sys: Sys, t: Conn, msg: Message)
    requires Domains(sys) && Enabled(sys, Receive(t, msg)) && Core(sys)
    ensures Core(DoReceive(sys, t, msg))
  {
    hide AcceptedNames, Declares, IdsFresh, RegistryCoherent, OwnClients, BrokerBacked, SubsBacked, RoutesHeld, Dispatch;
    LooksUpItself(sys, t);
    var m := msg.(sender := sys.s.meta[t].id);
    var next := Dispatch(sys.s, m);
    DispatchPoints(sys, t, m);
    var published :=
      if next.Publishing? then sys.published[t := sys.published[t] + [Publication(m, next.remaining)]] else sys.published;
    MoveKeeps(sys, t, next, sys.attempts, published);
  }

  lemma DispatchPoints(sys: Sys, t: Conn, m: Message)
    requires Core(sys) && t in sys.pc && sys.pc[t].Idle? && m.sender == sys.s.meta[t].id
    requires m.sender in sys.s.registry && sys.s.registry[m.sender] == t
    ensures
      var next := Dispatch(sys.s, m);
      && PointsInto(next, sys.pc.Keys) && Registered(next)
      && OwnClient(t, next, sys.s.meta[t]) && RouteHeld(sys, next)
      && !next.SubscribeHalf? && !next.UnsubscribeHalf?
  {
    hide Core;
    KnownClients(sys, m.topic);
    DispatchShape(sys, t, m);
  }

  lemma KnownClients(sys: Sys, topic: Topic)
    requires Core(sys)
    ensures Members(sys.s.broker, topic) <= sys.pc.Keys
    ensures forall id :: id in sys.s.registry ==> sys.s.registry[id] in sys.pc
    ensures sys.s.meta.Keys == sys.pc.Keys
  {
    hide MaySubscribe, SubsBacked, RoutesHeld, OwnClients;
  }

  lemma DispatchShape(sys: Sys, t: Conn, m: Message)
    requires t in sys.pc && t in sys.s.meta && m.sender in sys.s.registry && sys.s.registry[m.sender] == t
    requires Members(sys.s.broker, m.topic) <= sys.pc.Keys
    requires forall id :: id in sys.s.registry ==> sys.s.registry[id] in sys.pc
    ensures
      var next := Dispatch(sys.s, m);
      && PointsInto(next, sys.pc.Keys) && Registered(next)
      && OwnClient(t, next, sys.s.meta[t]) && RouteHeld(sys, next)
      && !next.SubscribeHalf? && !next.UnsubscribeHalf?
  {
    hide Members;
  }

  lemma AcknowledgeKeeps(sys: Sys, t: Conn)
    requires Domains(sys) && Enabled(sys, Acknowledge(t)) && Core(sys)
    ensures Core(DoAcknowledge(sys, t))
  {
    hide AcceptedNames, Declares, IdsFresh, RegistryCoherent, OwnClients, BrokerBacked, SubsBacked, RoutesHeld, RoutesFree, BrokerFree;
    MoveKeeps(sys, t, Idle, sys.attempts, sys.published);
  }

  lemma EndLoopKeeps(sys: Sys, t: Conn)
    requires Domains(sys) && Enabled(sys, EndLoop(t)) && Core(sys)
    ensures Core(DoEndLoop(sys, t))
  {
    hide AcceptedNames, Declares, IdsFresh, RegistryCoherent, OwnClients, BrokerBacked, SubsBacked, RoutesHeld, RoutesFree, BrokerFree;
    MoveKeeps(sys, t, Idle, sys.attempts, sys.published);
  }

  lemma PublishToKeeps(sys: Sys, t: Conn, c: Conn, ok: bool)
    requires Domains(sys) && Enabled(sys, PublishTo(t, c, ok)) && Core(sys)
    ensures Core(DoPublishTo(sys, t, c, ok))
  {
    hide AcceptedNames, Declares, IdsFresh, RegistryCoherent, OwnClients, BrokerBacked, SubsBacked, RoutesHeld;
    var msg, remaining := sys.pc[t].msg, sys.pc[t].remaining;
    assert PointsInto(sys.pc[t], sys.pc.Keys);
    MoveKeeps(sys, t, Publishing(msg, remaining - {c}),
              sys.attempts[c := sys.attempts[c] + [Attempt(msg, t, ok)]], sys.published);
  }

  lemma EndPublishKeeps(sys: Sys, t: Conn)
    requires Domains(sys) && Enabled(sys, EndPublish(t)) && Core(sys)
    ensures Core(DoEndPublish(sys, t))
  {
    hide AcceptedNames, Declares, IdsFresh, RegistryCoherent, OwnClients, BrokerBacked, SubsBacked, RoutesHeld, RoutesFree, BrokerFree;
    MoveKeeps(sys, t, Idle, sys.attempts, sys.published);
  }

  lemma LookupRouteKeeps(sys: Sys, t: Conn)
    requires Domains(sys) && Enabled(sys, LookupRoute(t)) && Core(sys)
    ensures Core(DoLookupRoute(sys, t))
  {
    hide AcceptedNames, Declares, IdsFresh, RegistryCoherent, OwnClients, BrokerBacked, SubsBacked, RoutesHeld;
    var msg := sys.pc[t].msg;
    MoveKeeps(sys, t, if msg.topic in sys.s.routes then RouteFound(msg, sys.s.routes[msg.topic]) else Idle, sys.attempts, sys.published);
  }

  lemma RegistryPoints(sys: Sys, id: Id)
    requires Core(sys) && id in sys.s.registry
    ensures sys.s.registry[id] in sys.pc && sys.s.meta[sys.s.registry[id]].id == id && Registered(sys.pc[sys.s.registry[id]])
  {
    hide OwnClients, BrokerBacked, SubsBacked, RoutesHeld;
  }

  lemma LookupOwnerKeeps(sys: Sys, t: Conn)
    requires Domains(sys) && Enabled(sys, LookupOwner(t)) && Core(sys)
    ensures Core(DoLookupOwner(sys, t))
  {
    hide AcceptedNames, Declares, IdsFresh, RegistryCoherent, BrokerBacked, SubsBacked, RoutesBacked, OwnClients;
    var msg, id := sys.pc[t].msg, sys.pc[t].id;
    assert RouteHeld(sys, sys.pc[t]);
    hide RoutesHeld;
    if id in sys.s.registry {
      RegistryPoints(sys, id);
      MoveKeeps(sys, t, RouteTo(msg, sys.s.registry[id]), sys.attempts, sys.published);
    } else {
      MoveKeeps(sys, t, Idle, sys.attempts, sys.published);
    }
  }

  lemma ForwardKeeps(sys: Sys, t: Conn)
    requires Domains(sys) && Enabled(sys, Forward(t)) && Core(sys)
    ensures Core(DoForward(sys, t))
  {
    hide AcceptedNames, Declares, IdsFresh, RegistryCoherent, OwnClients, BrokerBacked, SubsBacked, RoutesHeld, RoutesFree, BrokerFree;
    MoveKeeps(sys, t, Idle, sys.attempts, sys.published);
  }

  lemma EndDropKeeps(sys: Sys, t: Conn)
    requires Domains(sys) && Enabled(sys, EndDrop(t)) && Core(sys)
    ensures Core(DoEndDrop(sys, t))
  {
    hide AcceptedNames, Declares, IdsFresh, RegistryCoherent, OwnClients, BrokerBacked, SubsBacked, RoutesHeld, RoutesFree, BrokerFree;
    MoveKeeps(sys, t, RemoveRoutes, sys.attempts, sys.published);
  }

  // ---------- steps on the registry ----------

  lemma AcceptKeeps(sys: Sys, t: Conn, id: Id, features: map<string, Feature>)
    requires Domains(sys) && Enabled(sys, Accept(t, id, features)) && Core(sys)
    ensures Core(DoAccept(sys, t, id, features))
  {
    hide IdsFresh, RegistryCoherent, OwnClients, BrokerBacked, SubsBacked, RoutesHeld, Domains;
    var sys' := DoAccept(sys, t, id, features);
    AcceptKeepsDomains(sys, sys', t, id, features);
    AcceptKeepsClients(sys, sys', t, id, features);
    AcceptKeepsIds(sys, sys', t, id, features);
    AcceptKeepsSubs(sys, sys', t, id, features);
    AcceptKeepsHeld(sys, sys', t, id, features);
  }

  lemma AcceptKeepsDomains(sys: Sys, sys': Sys, t: Conn, id: Id, features: map<string, Feature>)
    requires Domains(sys) && Enabled(sys, Accept(t, id, features)) && sys' == DoAccept(sys, t, id, features)
    ensures Domains(sys')
  {
    hide PointsInto;
    forall x | x in sys'.pc ensures PointsInto(sys'.pc[x], sys'.pc.Keys) {
      PointsStay(sys, sys', x, t);
    }
  }

  lemma PointsStay(sys: Sys, sys': Sys, x: Conn, t: Conn)
    requires x in sys'.pc && sys'.pc == sys.pc[t := Created] && (x in sys.pc ==> PointsInto(sys.pc[x], sys.pc.Keys))
    ensures PointsInto(sys'.pc[x], sys'.pc.Keys)
  {
  }

  lemma AcceptKeepsClients(sys: Sys, sys': Sys, t: Conn, id: Id, features: map<string, Feature>)
    requires Domains(sys) && Enabled(sys, Accept(t, id, features)) && sys' == DoAccept(sys, t, id, features)
    requires OwnClients(sys)
    ensures OwnClients(sys')
  {
    hide PointsInto, AcceptedNames, WellKeyed, Domains;
    forall x | x in sys'.pc && x in sys'.s.meta ensures OwnClient(x, sys'.pc[x], sys'.s.meta[x]) {
      assert x != t ==> OwnClient(x, sys.pc[x], sys.s.meta[x]);
    }
  }

  lemma AcceptKeepsIdsFresh(sys: Sys, sys': Sys, t: Conn, id: Id, features: map<string, Feature>)
    requires Domains(sys) && Enabled(sys, Accept(t, id, features)) && sys' == DoAccept(sys, t, id, features)
    requires IdsFresh(sys)
    ensures IdsFresh(sys')
  {
    hide PointsInto;
  }

  lemma AcceptKeepsIds(sys: Sys, sys': Sys, t: Conn, id: Id, features: map<string, Feature>)
    requires Domains(sys) && Enabled(sys, Accept(t, id, features)) && sys' == DoAccept(sys, t, id, features)
    requires IdsFresh(sys) && RegistryCoherent(sys)
    ensures IdsFresh(sys') && RegistryCoherent(sys')
  {
    hide PointsInto, Registered;
    AcceptKeepsIdsFresh(sys, sys', t, id, features);
    assert id !in sys.s.registry && !Registered(Created) by {
      NewIsUnregistered();
    }
    forall x | x in sys'.pc && x in sys'.s.meta
      ensures Registered(sys'.pc[x]) <==> sys'.s.meta[x].id in sys'.s.registry
    {
      assert x != t ==> sys'.s.meta[x] == sys.s.meta[x] && sys'.pc[x] == sys.pc[x];
    }
  }

  lemma NewIsUnregistered()
    ensures !Registered(Created)
  {
  }

  lemma AcceptKeepsSubs(sys: Sys, sys': Sys, t: Conn, id: Id, features: map<string, Feature>)
    requires Domains(sys) && Enabled(sys, Accept(t, id, features)) && sys' == DoAccept(sys, t, id, features)
    requires BrokerBacked(sys) && SubsBacked(sys)
    ensures BrokerBacked(sys') && SubsBacked(sys')
  {
    hide PointsInto, MaySubscribe;
  }

  lemma AcceptKeepsHeld(sys: Sys, sys': Sys, t: Conn, id: Id, features: map<string, Feature>)
    requires Domains(sys) && Enabled(sys, Accept(t, id, features)) && sys' == DoAccept(sys, t, id, features)
    requires RoutesHeld(sys)
    ensures RoutesHeld(sys')
  {
    hide PointsInto;
    forall x | x in sys'.pc ensures RouteHeld(sys', sys'.pc[x]) {
      if x != t {
        assert RouteHeld(sys, sys.pc[x]);
      }
    }
  }

  lemma StoreKeeps(sys: Sys, t: Conn)
    requires Domains(sys) && Enabled(sys, Store(t)) && Core(sys)
    ensures Core(DoStore(sys, t))
  {
    hide Domains, IdsFresh, RegistryCoherent, OwnClients, BrokerBacked, SubsBacked, RoutesHeld, OnlyTouches, OwnPartHolds;
    StoreTouches(sys, DoStore(sys, t), t);
    StoreOwnPart(sys, DoStore(sys, t), t);
    TouchKeeps(sys, DoStore(sys, t), t);
  }

  lemma StoreTouches(sys: Sys, sys': Sys, t: Conn)
    requires Domains(sys) && Enabled(sys, Store(t)) && sys' == DoStore(sys, t) && Core(sys)
    ensures OnlyTouches(sys, sys', t)
  {
    hide AcceptedNames, IdsFresh, RoutesHeld, SubsBacked, MaySubscribe, PointsInto, WellKeyed, BrokerBacked, RegistryCoherent, Members, RoutesFree, BrokerFree;
    NoEmptySets(sys);
  }

  lemma StoreOwnPart(sys: Sys, sys': Sys, t: Conn)
    requires Domains(sys) && Enabled(sys, Store(t)) && sys' == DoStore(sys, t) && Core(sys)
    ensures OwnPartHolds(sys', t)
  {
    hide OnlyTouches, IdsFresh, RoutesHeld, SubsBacked, BrokerBacked, RegistryCoherent, Declares, AcceptedNames, OwnClients, WellKeyed, Domains;
    OwnPart(sys, t);
  }

  lemma DisconnectKeeps(sys: Sys, t: Conn)
    requires Domains(sys) && Enabled(sys, Disconnect(t)) && Core(sys)
    ensures Core(DoDisconnect(sys, t))
  {
    hide Domains, IdsFresh, RegistryCoherent, OwnClients, BrokerBacked, SubsBacked, RoutesHeld, OnlyTouches, OwnPartHolds;
    DisconnectTouches(sys, DoDisconnect(sys, t), t);
    DisconnectOwnPart(sys, DoDisconnect(sys, t), t);
    TouchKeeps(sys, DoDisconnect(sys, t), t);
  }

  lemma DisconnectTouches(sys: Sys, sys': Sys, t: Conn)
    requires Domains(sys) && Enabled(sys, Disconnect(t)) && sys' == DoDisconnect(sys, t) && Core(sys)
    ensures OnlyTouches(sys, sys', t)
  {
    hide AcceptedNames, IdsFresh, RoutesHeld, SubsBacked, MaySubscribe, PointsInto, WellKeyed, BrokerBacked, RegistryCoherent, Members, RoutesFree, BrokerFree;
    NoEmptySets(sys);
  }

  lemma DisconnectOwnPart(sys: Sys, sys': Sys, t: Conn)
    requires Domains(sys) && Enabled(sys, Disconnect(t)) && sys' == DoDisconnect(sys, t) && Core(sys)
    ensures OwnPartHolds(sys', t)
  {
    hide OnlyTouches, IdsFresh, RoutesHeld, SubsBacked, BrokerBacked, RegistryCoherent, Declares, AcceptedNames, OwnClients, WellKeyed, Domains;
    OwnPart(sys, t);
  }

  // ---------- steps on the broker ----------

  lemma SubscribesItself(sys: Sys, t: Conn)
    requires Core(sys) && t in sys.pc && (sys.pc[t].Subscribing? || sys.pc[t].Unsubscribing?)
    ensures sys.pc[t].c == t
  {
    hide IdsFresh, RegistryCoherent, BrokerBacked, SubsBacked, RoutesHeld;
    assert OwnClient(t, sys.pc[t], sys.s.meta[t]);
  }

  /** A step of t that changes nothing but t's memberships and program counter. */
  lemma BrokerTouches(sys: Sys, sys': Sys, t: Conn, broker: map<Topic, set<Conn>>, next: Pc)
    requires Domains(sys) && t in sys.pc && sys' == Goto(sys.(s := sys.s.(broker := broker)), t, next)
    requires forall topic :: topic in broker ==> broker[topic] != {}
    requires forall topic, x :: x != t ==> (x in Members(broker, topic) <==> x in Members(sys.s.broker, topic))
    ensures OnlyTouches(sys, sys', t)
  {
    hide PointsInto, Members;
  }

  lemma BrokerSubscribeKeeps(sys: Sys, t: Conn)
    requires Domains(sys) && Enabled(sys, BrokerSubscribe(t)) && Core(sys)
    ensures Core(DoBrokerSubscribe(sys, t))
  {
    hide Domains, IdsFresh, RegistryCoherent, OwnClients, BrokerBacked, SubsBacked, RoutesHeld, OnlyTouches, OwnPartHolds;
    BrokerSubscribeTouches(sys, DoBrokerSubscribe(sys, t), t);
    BrokerSubscribeOwnPart(sys, DoBrokerSubscribe(sys, t), t);
    TouchKeeps(sys, DoBrokerSubscribe(sys, t), t);
  }

  lemma BrokerSubscribeTouches(sys: Sys, sys': Sys, t: Conn)
    requires Domains(sys) && Enabled(sys, BrokerSubscribe(t)) && sys' == DoBrokerSubscribe(sys, t) && Core(sys)
    ensures OnlyTouches(sys, sys', t)
  {
    hide IdsFresh, RoutesHeld, SubsBacked, BrokerAdd, BrokerDel, BrokerBacked, RegistryCoherent, Members, RoutesFree, BrokerFree, Domains;
    NoEmptySets(sys);
    SubscribesItself(sys, t);
    BrokerAddMembers(sys.s.broker, sys.pc[t].topics[0], t);
    BrokerTouches(sys, sys', t, BrokerAdd(sys.s.broker, sys.pc[t].topics[0], t), SubscribeHalf(t, sys.pc[t].topics));
  }

  lemma BrokerSubscribeOwnPart(sys: Sys, sys': Sys, t: Conn)
    requires Domains(sys) && Enabled(sys, BrokerSubscribe(t)) && sys' == DoBrokerSubscribe(sys, t) && Core(sys)
    ensures OwnPartHolds(sys', t)
  {
    hide OnlyTouches, IdsFresh, RoutesHeld, SubsBacked, BrokerBacked, RegistryCoherent, Declares, AcceptedNames, OwnClients, WellKeyed, Domains;
    OwnPart(sys, t);
    BrokerAddMembers(sys.s.broker, sys.pc[t].topics[0], t);
  }

  lemma BrokerUnsubscribeKeeps(sys: Sys, t: Conn)
    requires Domains(sys) && Enabled(sys, BrokerUnsubscribe(t)) && Core(sys)
    ensures Core(DoBrokerUnsubscribe(sys, t))
  {
    hide Domains, IdsFresh, RegistryCoherent, OwnClients, BrokerBacked, SubsBacked, RoutesHeld, OnlyTouches, OwnPartHolds;
    BrokerUnsubscribeTouches(sys, DoBrokerUnsubscribe(sys, t), t);
    BrokerUnsubscribeOwnPart(sys, DoBrokerUnsubscribe(sys, t), t);
    TouchKeeps(sys, DoBrokerUnsubscribe(sys, t), t);
  }

  lemma BrokerUnsubscribeTouches(sys: Sys, sys': Sys, t: Conn)
    requires Domains(sys) && Enabled(sys, BrokerUnsubscribe(t)) && sys' == DoBrokerUnsubscribe(sys, t) && Core(sys)
    ensures OnlyTouches(sys, sys', t)
  {
    hide IdsFresh, RoutesHeld, SubsBacked, BrokerAdd, BrokerDel, BrokerBacked, RegistryCoherent, Members, RoutesFree, BrokerFree, Domains;
    NoEmptySets(sys);
    SubscribesItself(sys, t);
    BrokerDelMembers(sys.s.broker, sys.pc[t].topics[0], t);
    BrokerTouches(sys, sys', t, BrokerDel(sys.s.broker, sys.pc[t].topics[0], t), UnsubscribeHalf(t, sys.pc[t].topics));
  }

  lemma BrokerUnsubscribeOwnPart(sys: Sys, sys': Sys, t: Conn)
    requires Domains(sys) && Enabled(sys, BrokerUnsubscribe(t)) && sys' == DoBrokerUnsubscribe(sys, t) && Core(sys)
    ensures OwnPartHolds(sys', t)
  {
    hide OnlyTouches, IdsFresh, RoutesHeld, SubsBacked, BrokerBacked, RegistryCoherent, Declares, AcceptedNames, OwnClients, WellKeyed, Domains;
    OwnPart(sys, t);
    BrokerDelMembers(sys.s.broker, sys.pc[t].topics[0], t);
  }

  lemma DropSubscriptionKeeps(sys: Sys, t: Conn, topic: Topic)
    requires Domains(sys) && Enabled(sys, DropSubscription(t, topic)) && Core(sys)
    ensures Core(DoDropSubscription(sys, t, topic))
  {
    hide Domains, IdsFresh, RegistryCoherent, OwnClients, BrokerBacked, SubsBacked, RoutesHeld, OnlyTouches, OwnPartHolds;
    DropSubscriptionTouches(sys, DoDropSubscription(sys, t, topic), t, topic);
    DropSubscriptionOwnPart(sys, DoDropSubscription(sys, t, topic), t, topic);
    TouchKeeps(sys, DoDropSubscription(sys, t, topic), t);
  }

  lemma DropSubscriptionTouches(sys: Sys, sys': Sys, t: Conn, topic: Topic)
    requires Domains(sys) && Enabled(sys, DropSubscription(t, topic)) && sys' == DoDropSubscription(sys, t, topic) && Core(sys)
    ensures OnlyTouches(sys, sys', t)
  {
    hide IdsFresh, RoutesHeld, SubsBacked, BrokerAdd, BrokerDel, BrokerBacked, RegistryCoherent, Members, RoutesFree, BrokerFree, Domains;
    NoEmptySets(sys);
    BrokerDelMembers(sys.s.broker, topic, t);
    BrokerTouches(sys, sys', t, BrokerDel(sys.s.broker, topic, t), RemoveSubs(sys.pc[t].left - {topic}));
  }

  lemma DropSubscriptionOwnPart(sys: Sys, sys': Sys, t: Conn, topic: Topic)
    requires Domains(sys) && Enabled(sys, DropSubscription(t, topic)) && sys' == DoDropSubscription(sys, t, topic) && Core(sys)
    ensures OwnPartHolds(sys', t)
  {
    hide OnlyTouches, OwnClients, IdsFresh, RoutesHeld, SubsBacked, BrokerBacked, RegistryCoherent, Declares, AcceptedNames, BrokerDel, WellKeyed, Domains;
    OwnPart(sys, t);
    BrokerDelMembers(sys.s.broker, topic, t);
  }

  // ---------- steps on a client's metadata ----------

  lemma MarkSubscribedKeeps(sys: Sys, t: Conn)
    requires Domains(sys) && Enabled(sys, MarkSubscribed(t)) && Core(sys)
    ensures Core(DoMarkSubscribed(sys, t))
  {
    hide Domains, IdsFresh, RegistryCoherent, OwnClients, BrokerBacked, SubsBacked, RoutesHeld, OnlyTouches, OwnPartHolds;
    MarkSubscribedTouches(sys, DoMarkSubscribed(sys, t), t);
    MarkSubscribedOwnPart(sys, DoMarkSubscribed(sys, t), t);
    TouchKeeps(sys, DoMarkSubscribed(sys, t), t);
  }

  lemma MarkSubscribedTouches(sys: Sys, sys': Sys, t: Conn)
    requires Domains(sys) && Enabled(sys, MarkSubscribed(t)) && sys' == DoMarkSubscribed(sys, t) && Core(sys)
    ensures OnlyTouches(sys, sys', t)
  {
    hide AcceptedNames, IdsFresh, RoutesHeld, SubsBacked, MaySubscribe, PointsInto, WellKeyed, BrokerBacked, RegistryCoherent, Members, RoutesFree, BrokerFree;
    NoEmptySets(sys);
  }

  lemma MarkSubscribedOwnPart(sys: Sys, sys': Sys, t: Conn)
    requires Domains(sys) && Enabled(sys, MarkSubscribed(t)) && sys' == DoMarkSubscribed(sys, t) && Core(sys)
    ensures OwnPartHolds(sys', t)
  {
    hide OnlyTouches, IdsFresh, RoutesHeld, SubsBacked, BrokerBacked, RegistryCoherent, Declares, AcceptedNames, OwnClients, WellKeyed, Domains;
    OwnPart(sys, t);
  }

  lemma MarkUnsubscribedKeeps(sys: Sys, t: Conn)
    requires Domains(sys) && Enabled(sys, MarkUnsubscribed(t)) && Core(sys)
    ensures Core(DoMarkUnsubscribed(sys, t))
  {
    hide Domains, IdsFresh, RegistryCoherent, OwnClients, BrokerBacked, SubsBacked, RoutesHeld, OnlyTouches, OwnPartHolds;
    MarkUnsubscribedTouches(sys, DoMarkUnsubscribed(sys, t), t);
    MarkUnsubscribedOwnPart(sys, DoMarkUnsubscribed(sys, t), t);
    TouchKeeps(sys, DoMarkUnsubscribed(sys, t), t);
  }

  lemma MarkUnsubscribedTouches(sys: Sys, sys': Sys, t: Conn)
    requires Domains(sys) && Enabled(sys, MarkUnsubscribed(t)) && sys' == DoMarkUnsubscribed(sys, t) && Core(sys)
    ensures OnlyTouches(sys, sys', t)
  {
    hide AcceptedNames, IdsFresh, RoutesHeld, SubsBacked, MaySubscribe, PointsInto, WellKeyed, BrokerBacked, RegistryCoherent, Members, RoutesFree, BrokerFree;
    NoEmptySets(sys);
  }

  lemma MarkUnsubscribedOwnPart(sys: Sys, sys': Sys, t: Conn)
    requires Domains(sys) && Enabled(sys, MarkUnsubscribed(t)) && sys' == DoMarkUnsubscribed(sys, t) && Core(sys)
    ensures OwnPartHolds(sys', t)
  {
    hide OnlyTouches, IdsFresh, RoutesHeld, SubsBacked, BrokerBacked, RegistryCoherent, Declares, AcceptedNames, OwnClients, WellKeyed, Domains;
    OwnPart(sys, t);
  }

  lemma ReplaceMetaKeeps(sys: Sys, t: Conn)
    requires Domains(sys) && Enabled(sys, ReplaceMeta(t)) && Core(sys)
    ensures Core(DoReplaceMeta(sys, t))
  {
    hide Domains, IdsFresh, RegistryCoherent, OwnClients, BrokerBacked, SubsBacked, RoutesHeld, OnlyTouches, OwnPartHolds;
    ReplaceMetaTouches(sys, DoReplaceMeta(sys, t), t);
    ReplaceMetaOwnPart(sys, DoReplaceMeta(sys, t), t);
    TouchKeeps(sys, DoReplaceMeta(sys, t), t);
  }

  lemma ReplaceMetaTouches(sys: Sys, sys': Sys, t: Conn)
    requires Domains(sys) && Enabled(sys, ReplaceMeta(t)) && sys' == DoReplaceMeta(sys, t) && Core(sys)
    ensures OnlyTouches(sys, sys', t)
  {
    hide AcceptedNames, IdsFresh, RoutesHeld, SubsBacked, MaySubscribe, PointsInto, WellKeyed, BrokerBacked, RegistryCoherent, Members, RoutesFree, BrokerFree;
    NoEmptySets(sys);
  }

  lemma ReplaceMetaOwnPart(sys: Sys, sys': Sys, t: Conn)
    requires Domains(sys) && Enabled(sys, ReplaceMeta(t)) && sys' == DoReplaceMeta(sys, t) && Core(sys)
    ensures OwnPartHolds(sys', t)
  {
    hide OnlyTouches, IdsFresh, RoutesHeld, SubsBacked, BrokerBacked, RegistryCoherent, Declares, AcceptedNames, OwnClients, WellKeyed, Domains;
    OwnPart(sys, t);
    FeatureMapWellKeyed(sys.pc[t].p.features);
  }

  // ---------- steps on the routing table ----------

  lemma ClaimExistingKeeps(sys: Sys, t: Conn)
    requires Domains(sys) && Enabled(sys, ClaimExisting(t)) && Core(sys)
    ensures Core(DoClaimExisting(sys, t))
  {
    hide Domains, IdsFresh, RegistryCoherent, OwnClients, BrokerBacked, SubsBacked, RoutesHeld, OnlyTouches, OwnPartHolds;
    ClaimExistingTouches(sys, DoClaimExisting(sys, t), t);
    ClaimExistingOwnPart(sys, DoClaimExisting(sys, t), t);
    TouchKeeps(sys, DoClaimExisting(sys, t), t);
  }

  lemma ClaimExistingTouches(sys: Sys, sys': Sys, t: Conn)
    requires Domains(sys) && Enabled(sys, ClaimExisting(t)) && sys' == DoClaimExisting(sys, t) && Core(sys)
    ensures OnlyTouches(sys, sys', t)
  {
    hide AcceptedNames, IdsFresh, RoutesHeld, SubsBacked, MaySubscribe, PointsInto, WellKeyed, BrokerBacked, RegistryCoherent, Members, RoutesFree, BrokerFree;
    NoEmptySets(sys);
  }

  lemma ClaimExistingOwnPart(sys: Sys, sys': Sys, t: Conn)
    requires Domains(sys) && Enabled(sys, ClaimExisting(t)) && sys' == DoClaimExisting(sys, t) && Core(sys)
    ensures OwnPartHolds(sys', t)
  {
    hide OnlyTouches, IdsFresh, RoutesHeld, SubsBacked, BrokerBacked, RegistryCoherent, Declares, AcceptedNames, OwnClients, WellKeyed, Domains;
    OwnPart(sys, t);
  }

  lemma ClaimDeclaredKeeps(sys: Sys, t: Conn)
    requires Domains(sys) && Enabled(sys, ClaimDeclared(t)) && Core(sys)
    ensures Core(DoClaimDeclared(sys, t))
  {
    hide Domains, IdsFresh, RegistryCoherent, OwnClients, BrokerBacked, SubsBacked, RoutesHeld, OnlyTouches, OwnPartHolds;
    ClaimDeclaredTouches(sys, DoClaimDeclared(sys, t), t);
    ClaimDeclaredOwnPart(sys, DoClaimDeclared(sys, t), t);
    TouchKeeps(sys, DoClaimDeclared(sys, t), t);
  }

  lemma ClaimDeclaredTouches(sys: Sys, sys': Sys, t: Conn)
    requires Domains(sys) && Enabled(sys, ClaimDeclared(t)) && sys' == DoClaimDeclared(sys, t) && Core(sys)
    ensures OnlyTouches(sys, sys', t)
  {
    hide AcceptedNames, IdsFresh, RoutesHeld, SubsBacked, MaySubscribe, PointsInto, WellKeyed, BrokerBacked, RegistryCoherent, Members, RoutesFree, BrokerFree;
    NoEmptySets(sys);
  }

  lemma ClaimDeclaredOwnPart(sys: Sys, sys': Sys, t: Conn)
    requires Domains(sys) && Enabled(sys, ClaimDeclared(t)) && sys' == DoClaimDeclared(sys, t) && Core(sys)
    ensures OwnPartHolds(sys', t)
  {
    hide OnlyTouches, IdsFresh, RoutesHeld, SubsBacked, BrokerBacked, RegistryCoherent, Declares, AcceptedNames, OwnClients, WellKeyed, Domains;
    OwnPart(sys, t);
  }

  lemma ReleaseRoutesKeeps(sys: Sys, t: Conn)
    requires Domains(sys) && Enabled(sys, ReleaseRoutes(t)) && Core(sys)
    ensures Core(DoReleaseRoutes(sys, t))
  {
    hide Domains, IdsFresh, RegistryCoherent, OwnClients, BrokerBacked, SubsBacked, RoutesHeld, OnlyTouches, OwnPartHolds;
    ReleaseRoutesTouches(sys, DoReleaseRoutes(sys, t), t);
    ReleaseRoutesOwnPart(sys, DoReleaseRoutes(sys, t), t);
    TouchKeeps(sys, DoReleaseRoutes(sys, t), t);
  }

  lemma ReleaseRoutesTouches(sys: Sys, sys': Sys, t: Conn)
    requires Domains(sys) && Enabled(sys, ReleaseRoutes(t)) && sys' == DoReleaseRoutes(sys, t) && Core(sys)
    ensures OnlyTouches(sys, sys', t)
  {
    hide AcceptedNames, IdsFresh, RoutesHeld, SubsBacked, MaySubscribe, PointsInto, WellKeyed, BrokerBacked, RegistryCoherent, Members, RoutesFree, BrokerFree;
    NoEmptySets(sys);
  }

  lemma ReleaseRoutesOwnPart(sys: Sys, sys': Sys, t: Conn)
    requires Domains(sys) && Enabled(sys, ReleaseRoutes(t)) && sys' == DoReleaseRoutes(sys, t) && Core(sys)
    ensures OwnPartHolds(sys', t)
  {
    hide OnlyTouches, IdsFresh, RoutesHeld, SubsBacked, BrokerBacked, RegistryCoherent, Declares, AcceptedNames, OwnClients, WellKeyed, Domains;
    hide OwnClients, RoutesFree, FeatureNames, Members;
    OwnPart(sys, t);
  }

  /** Every critical section of every handler keeps the invariant. */
  lemma NextKeepsCore(sys: Sys, step: Step)
    requires Domains(sys) && Enabled(sys, step) && Core(sys)
    ensures Core(Next(sys, step))
  {
    hide Domains, IdsFresh, RegistryCoherent, OwnClients, BrokerBacked, SubsBacked, RoutesHeld;
    match step
    case Accept(t, id, features) => AcceptKeeps(sys, t, id, features);
    case Store(t) => StoreKeeps(sys, t);
    case ReadFeatures(t) => ReadFeaturesKeeps(sys, t);
    case ClaimExisting(t) => ClaimExistingKeeps(sys, t);
    case Receive(t, msg) => ReceiveKeeps(sys, t, msg);
    case ReplaceMeta(t) => ReplaceMetaKeeps(sys, t);
    case ClaimDeclared(t) => ClaimDeclaredKeeps(sys, t);
    case Acknowledge(t) => AcknowledgeKeeps(sys, t);
    case BrokerSubscribe(t) => BrokerSubscribeKeeps(sys, t);
    case MarkSubscribed(t) => MarkSubscribedKeeps(sys, t);
    case BrokerUnsubscribe(t) => BrokerUnsubscribeKeeps(sys, t);
    case MarkUnsubscribed(t) => MarkUnsubscribedKeeps(sys, t);
    case EndLoop(t) => EndLoopKeeps(sys, t);
    case PublishTo(t, c, ok) => PublishToKeeps(sys, t, c, ok);
    case EndPublish(t) => EndPublishKeeps(sys, t);
    case LookupRoute(t) => LookupRouteKeeps(sys, t);
    case LookupOwner(t) => LookupOwnerKeeps(sys, t);
    case Forward(t) => ForwardKeeps(sys, t);
    case Disconnect(t) => DisconnectKeeps(sys, t);
    case DropSubscription(t, topic) => DropSubscriptionKeeps(sys, t, topic);
    case EndDrop(t) => EndDropKeeps(sys, t);
    case ReleaseRoutes(t) => ReleaseRoutesKeeps(sys, t);
  }

  // ---------- routes lead to live connections that declare them ----------

  predicate TouchesRoutes(step: Step) {
    step.ClaimExisting? || step.ClaimDeclared? || step.ReleaseRoutes? || step.ReplaceMeta?
  }

  /** Other steps leave the routes and everybody's declarations alone. */
  lemma OtherStepsSpareNames(sys: Sys, sys': Sys, step: Step)
    requires Domains(sys) && Enabled(sys, step) && !TouchesRoutes(step) && sys' == Next(sys, step)
    ensures sys'.s.routes == sys.s.routes && sys'.s.meta.Keys == sys.s.meta.Keys + {step.t}
    ensures forall x :: x in sys.s.meta ==> sys'.s.meta[x].features == sys.s.meta[x].features && sys'.s.meta[x].id == sys.s.meta[x].id
  {
    hide Domains, Enabled, Next;
    if step.MarkSubscribed? || step.MarkUnsubscribed? {
      MarkStepsSpareNames(sys, sys', step);
    } else {
      StillStepsSpareNames(sys, sys', step);
    }
  }

  lemma MarkStepsSpareNames(sys: Sys, sys': Sys, step: Step)
    requires Domains(sys) && Enabled(sys, step) && sys' == Next(sys, step)
    requires step.MarkSubscribed? || step.MarkUnsubscribed?
    ensures sys'.s.routes == sys.s.routes && sys'.s.meta.Keys == sys.s.meta.Keys + {step.t}
    ensures forall x :: x in sys.s.meta ==> sys'.s.meta[x].features == sys.s.meta[x].features && sys'.s.meta[x].id == sys.s.meta[x].id
  {
    hide Next, Enabled, Domains;
    MarksSubsOnly(sys, sys', step);
  }

  lemma MarksSubsOnly(sys: Sys, sys': Sys, step: Step)
    requires Domains(sys) && Enabled(sys, step) && sys' == Next(sys, step)
    requires step.MarkSubscribed? || step.MarkUnsubscribed?
    ensures step.t in sys.s.meta && sys'.s.routes == sys.s.routes
    ensures exists c, subs :: c in sys.s.meta && sys'.s.meta == sys.s.meta[c := sys.s.meta[c].(subs := subs)]
  {
  }

  lemma StillStepsSpareNames(sys: Sys, sys': Sys, step: Step)
    requires Domains(sys) && Enabled(sys, step) && !TouchesRoutes(step) && sys' == Next(sys, step)
    requires !step.MarkSubscribed? && !step.MarkUnsubscribed?
    ensures sys'.s.routes == sys.s.routes && sys'.s.meta.Keys == sys.s.meta.Keys + {step.t}
    ensures forall x :: x in sys.s.meta ==> sys'.s.meta[x] == sys.s.meta[x]
  {
    hide AcceptedNames, BrokerAdd, BrokerDel, Dispatch, PointsInto, RoutesFree, BrokerFree;
  }

  /** A step moves one connection's program counter. */
  lemma OthersStandStill(sys: Sys, sys': Sys, step: Step)
    requires Domains(sys) && Enabled(sys, step) && sys' == Next(sys, step)
    ensures sys'.pc.Keys == sys.pc.Keys + {step.t}
    ensures forall x :: x in sys.pc && x != step.t ==> sys'.pc[x] == sys.pc[x]
    ensures forall id :: id in sys.issued ==> id in sys'.issued && sys'.issued[id] == sys.issued[id]
  {
    hide Domains, Next, Enabled;
    IdsStay(sys, sys', step);
    PhasesStay(sys, sys', step);
  }

  lemma PhasesStay(sys: Sys, sys': Sys, step: Step)
    requires Domains(sys) && Enabled(sys, step) && sys' == Next(sys, step)
    ensures sys'.pc.Keys == sys.pc.Keys + {step.t}
    ensures forall x :: x in sys.pc && x != step.t ==> sys'.pc[x] == sys.pc[x]
  {
    hide AcceptedNames, BrokerAdd, BrokerDel, Claim, Dispatch, PointsInto, Domains;
  }

  lemma IdsStay(sys: Sys, sys': Sys, step: Step)
    requires Domains(sys) && Enabled(sys, step) && sys' == Next(sys, step)
    ensures forall id :: id in sys.issued ==> id in sys'.issued && sys'.issued[id] == sys.issued[id]
  {
    hide Domains, AcceptedNames, BrokerAdd, BrokerDel, Claim, Dispatch, PointsInto;
    assert !step.Accept? ==> sys'.issued == sys.issued;
  }

  lemma OtherStepsSparePhases(sys: Sys, sys': Sys, step: Step)
    requires Domains(sys) && Enabled(sys, step) && !TouchesRoutes(step) && sys' == Next(sys, step)
    ensures step.t in sys.pc && (Registered(sys.pc[step.t]) || Leaving(sys.pc[step.t])) ==>
      step.t in sys'.pc && (Registered(sys'.pc[step.t]) || Leaving(sys'.pc[step.t]))
  {
    hide AcceptedNames, BrokerAdd, BrokerDel, Claim, PointsInto, Domains;
  }

  lemma OtherStepsStayBacked(sys: Sys, sys': Sys, step: Step)
    requires Domains(sys) && RoutesBacked(sys) && Enabled(sys, step) && !TouchesRoutes(step) && sys' == Next(sys, step)
    ensures RoutesBacked(sys')
  {
    hide Declares, Next, Registered, Leaving, Domains;
    OtherStepsSpareNames(sys, sys', step);
    OthersStandStill(sys, sys', step);
    OtherStepsSparePhases(sys, sys', step);
    assert forall x :: x in sys.s.meta ==> forall topic :: Declares(sys'.s.meta[x], topic) <==> Declares(sys.s.meta[x], topic) by {
      assert forall x, topic :: x in sys.s.meta ==> (Declares(sys'.s.meta[x], topic) <==> Declares(sys.s.meta[x], topic)) by {
        SameFeaturesSameDeclares();
      }
    }
  }

  lemma SameFeaturesSameDeclares()
    ensures forall m: Meta, m': Meta, topic :: m.features == m'.features ==> (Declares(m, topic) <==> Declares(m', topic))
  {
  }

  lemma ReplaceMetaRoutes(sys: Sys, sys': Sys, t: Conn)
    requires Domains(sys) && Enabled(sys, ReplaceMeta(t)) && KeepsOwnRoutes(sys, ReplaceMeta(t))
    requires sys' == DoReplaceMeta(sys, t) && Inv(sys)
    ensures RoutesBacked(sys')
  {
    hide AcceptedNames, FeatureMap, SubsBacked, BrokerBacked, RegistryCoherent, PointsInto, RoutesHeld, RoutesBacked, IdsFresh, WellKeyed;
    assert OwnClient(t, sys.pc[t], sys.s.meta[t]);
    ReplacedRoutes(sys, sys', t, FeatureMap(sys.pc[t].p.features));
  }

  lemma ReplacedRoutes(sys: Sys, sys': Sys, t: Conn, features: map<string, Feature>)
    requires Domains(sys) && Enabled(sys, ReplaceMeta(t)) && features == FeatureMap(sys.pc[t].p.features)
    requires forall topic :: topic in sys.s.routes && sys.s.routes[topic] == sys.s.meta[t].id ==> topic in features
    requires sys' == DoReplaceMeta(sys, t) && sys.pc[t].c == t
    requires IdsFresh(sys) && RoutesBacked(sys)
    ensures RoutesBacked(sys')
  {
    hide AcceptedNames, FeatureMap, PointsInto, WellKeyed, Domains;
    FeatureMapWellKeyed(sys.pc[t].p.features);
    WellKeyedNames(features);
  }

  lemma ReleaseRoutesRoutes(sys: Sys, sys': Sys, t: Conn)
    requires Domains(sys) && Enabled(sys, ReleaseRoutes(t)) && sys' == DoReleaseRoutes(sys, t) && Inv(sys)
    ensures RoutesBacked(sys')
  {
    hide ValidFeature, SubsBacked, BrokerBacked, RegistryCoherent, PointsInto, OwnClients;
    forall topic | topic in sys'.s.routes
      ensures sys.issued[sys.s.routes[topic]] != t
    {
      assert Declares(sys.s.meta[sys.issued[sys.s.routes[topic]]], topic);
    }
  }

  /** A claim adds only routes to the claimer, for names it declares. */
  lemma ClaimRoutes(sys: Sys, sys': Sys, t: Conn)
    requires Domains(sys) && (Enabled(sys, ClaimExisting(t)) || Enabled(sys, ClaimDeclared(t)))
    requires sys' == if sys.pc[t].RegisterClaim? then DoClaimExisting(sys, t) else DoClaimDeclared(sys, t)
    requires Inv(sys)
    ensures RoutesBacked(sys')
  {
    hide AcceptedNames, FeatureNames, BrokerBacked, SubsBacked, RegistryCoherent, RoutesHeld, WellKeyed;
    assert OwnClient(t, sys.pc[t], sys.s.meta[t]);
    if sys.pc[t].IdentifyStored? {
      WellKeyedNames(sys.s.meta[t].features);
    }
    forall topic | topic in sys'.s.routes
      ensures sys'.s.routes[topic] in sys.issued
      ensures var o := sys.issued[sys'.s.routes[topic]];
        && o in sys'.pc && o in sys'.s.meta && (Registered(sys'.pc[o]) || Leaving(sys'.pc[o])) && Declares(sys'.s.meta[o], topic)
    {
    }
  }

  /** With identifies that keep what they own, every step keeps all of the invariant. */
  lemma NextKeeps(sys: Sys, step: Step)
    requires Domains(sys) && Enabled(sys, step) && KeepsOwnRoutes(sys, step) && Inv(sys)
    ensures Inv(Next(sys, step))
  {
    hide RoutesBacked, Domains, IdsFresh, RegistryCoherent, OwnClients, BrokerBacked, SubsBacked, RoutesHeld, Core, KeepsOwnRoutes;
    NextKeepsCore(sys, step);
    match step
    case ClaimExisting(t) => ClaimRoutes(sys, Next(sys, step), t);
    case ClaimDeclared(t) => ClaimRoutes(sys, Next(sys, step), t);
    case ReleaseRoutes(t) => ReleaseRoutesRoutes(sys, Next(sys, step), t);
    case ReplaceMeta(t) => ReplaceMetaRoutes(sys, Next(sys, step), t);
    case _ => OtherStepsStayBacked(sys, Next(sys, step), step);
  }
}
