/** What holds over every interleaved run of the server's connections. */
module InterleavingTheorems {
  import opened Proto
  import opened ServerState
  import opened Interleaving
  import opened InterleavingProofs
  import F = FeatureService

  datatype Run = Run(states: seq<Sys>, steps: seq<Step>)

  /** Next where it is defined; that it is defined in every reachable state is part of what is proved. */
  ghost predicate IsStep(sys: Sys, step: Step, sys': Sys) {
    Enabled(sys, step) && (Domains(sys) ==> sys' == Next(sys, step))
  }

  ghost predicate IsRun(r: Run) {
    && |r.states| == |r.steps| + 1
    && r.states[0] == INITIAL
    && forall i :: 0 <= i < |r.steps| ==> IsStep(r.states[i], r.steps[i], r.states[i + 1])
  }

  /** The hypothesis on clients: each identify that takes effect in the first n steps declares every topic its connection owns. */
  ghost predicate DisciplinedUntil(r: Run, n: nat)
    requires IsRun(r) && n <= |r.steps|
  {
    forall i :: 0 <= i < n ==>
      IsStep(r.states[i], r.steps[i], r.states[i + 1]) && (Domains(r.states[i]) ==> KeepsOwnRoutes(r.states[i], r.steps[i]))
  }

  lemma {:induction false} RunCore(r: Run, i: nat)
    requires IsRun(r) && i < |r.states|
    ensures Core(r.states[i])
  {
    if i == 0 {
      assert Core(INITIAL);
    } else {
      RunCore(r, i - 1);
      assert IsStep(r.states[i - 1], r.steps[i - 1], r.states[i]);
      NextKeepsCore(r.states[i - 1], r.steps[i - 1]);
    }
  }

  lemma {:induction false} RunInv(r: Run, i: nat)
    requires IsRun(r) && i < |r.states| && DisciplinedUntil(r, i)
    ensures Inv(r.states[i])
  {
    if i == 0 {
      assert Inv(INITIAL);
    } else {
      assert DisciplinedUntil(r, i - 1);
      RunInv(r, i - 1);
      assert IsStep(r.states[i - 1], r.steps[i - 1], r.states[i]);
      NextKeeps(r.states[i - 1], r.steps[i - 1]);
    }
  }

  /** Declaring at least the names declared before is enough for the hypothesis. */
  lemma SupersetIsDisciplined(sys: Sys, t: Conn)
    requires Domains(sys) && Enabled(sys, ReplaceMeta(t))
    requires AcceptedNames(sys.s.meta[t].features) <= FeatureMap(sys.pc[t].p.features).Keys
    requires Inv(sys)
    ensures KeepsOwnRoutes(sys, ReplaceMeta(t))
  {
    hide ValidFeature, FeatureMap, BrokerBacked, SubsBacked, RegistryCoherent, RoutesHeld, OwnClients;
    forall topic | topic in sys.s.routes && sys.s.routes[topic] == sys.s.meta[t].id
      ensures topic in FeatureMap(sys.pc[t].p.features)
    {
      assert Declares(sys.s.meta[sys.issued[sys.s.routes[topic]]], topic);
    }
  }

  /** Every identify that takes effect declares at least what its connection declared before. */
  ghost predicate Growing(r: Run) {
    forall i :: 0 <= i < |r.steps| && i < |r.states| && r.steps[i].ReplaceMeta? ==> Grows(r.states[i], r.steps[i].t)
  }

  ghost predicate Grows(sys: Sys, t: Conn) {
    t in sys.pc && t in sys.s.meta && sys.pc[t].IdentifyFound? ==>
      AcceptedNames(sys.s.meta[t].features) <= FeatureMap(sys.pc[t].p.features).Keys
  }

  /** Clients that only ever extend their declarations meet the hypothesis throughout. */
  lemma {:induction false} GrowingIsDisciplined(r: Run, n: nat)
    requires IsRun(r) && Growing(r) && n < |r.states|
    ensures Inv(r.states[n])
    ensures forall i :: 0 <= i < n ==> Domains(r.states[i]) && Enabled(r.states[i], r.steps[i]) && KeepsOwnRoutes(r.states[i], r.steps[i])
  {
    if n == 0 {
      assert Inv(INITIAL);
    } else {
      hide Inv, Core, Next, KeepsOwnRoutes, AcceptedNames, FeatureMap;
      GrowingIsDisciplined(r, n - 1);
      var sys, step := r.states[n - 1], r.steps[n - 1];
      assert IsStep(sys, step, r.states[n]);
      InvIsDefined(sys);
      if step.ReplaceMeta? {
        assert Grows(sys, step.t);
        SupersetIsDisciplined(sys, step.t);
      } else {
        OnlyReplacingMatters(sys, step);
      }
      NextKeeps(sys, step);
    }
  }

  lemma OnlyReplacingMatters(sys: Sys, step: Step)
    requires Domains(sys) && Enabled(sys, step) && !step.ReplaceMeta?
    ensures KeepsOwnRoutes(sys, step)
  {
    hide Domains, Enabled;
  }

  lemma InvIsDefined(sys: Sys)
    requires Inv(sys)
    ensures Domains(sys)
  {
    hide IdsFresh, RegistryCoherent, OwnClients, BrokerBacked, SubsBacked, RoutesHeld, RoutesBacked;
  }

  /** So a run of such clients is disciplined. */
  lemma SupersetsAreDisciplined(r: Run)
    requires IsRun(r) && Growing(r)
    ensures DisciplinedUntil(r, |r.steps|)
  {
    hide Inv, Domains, KeepsOwnRoutes, Next;
    GrowingIsDisciplined(r, |r.steps|);
  }

  /** The hypothesis is exact: an identify that drops a topic it owns leaves a route that nobody declares. */
  lemma DisciplineIsExact(sys: Sys, t: Conn)
    requires Domains(sys) && Enabled(sys, ReplaceMeta(t)) && Inv(sys)
    ensures Inv(Next(sys, ReplaceMeta(t))) <==> KeepsOwnRoutes(sys, ReplaceMeta(t))
  {
    hide RoutesBacked, AcceptedNames, FeatureMap, BrokerBacked, SubsBacked, RegistryCoherent, RoutesHeld;
    if KeepsOwnRoutes(sys, ReplaceMeta(t)) {
      NextKeeps(sys, ReplaceMeta(t));
    } else {
      var topic :| topic in sys.s.routes && sys.s.routes[topic] == sys.s.meta[t].id && topic !in FeatureMap(sys.pc[t].p.features);
      DroppedTopicDangles(sys, DoReplaceMeta(sys, t), t, topic);
    }
  }

  lemma DroppedTopicDangles(sys: Sys, sys': Sys, t: Conn, topic: Topic)
    requires Domains(sys) && Enabled(sys, ReplaceMeta(t))
    requires topic in sys.s.routes && sys.s.routes[topic] == sys.s.meta[t].id && topic !in FeatureMap(sys.pc[t].p.features)
    requires sys' == DoReplaceMeta(sys, t) && Core(sys)
    ensures !RoutesBacked(sys')
  {
    hide AcceptedNames, FeatureMap, BrokerBacked, SubsBacked, RegistryCoherent, RoutesHeld;
    FeatureMapWellKeyed(sys.pc[t].p.features);
    WellKeyedNames(FeatureMap(sys.pc[t].p.features));
    assert OwnClient(t, sys.pc[t], sys.s.meta[t]);
    assert sys'.issued[sys'.s.routes[topic]] == t && !Declares(sys'.s.meta[t], topic);
  }

  lemma CoreIsDefined(sys: Sys)
    requires Core(sys)
    ensures Domains(sys)
  {
  }

  /**
   Up to any point of any run: every route leads, throughout, to a live or leaving connection that declares
   its topic, if and only if every identify so far has kept declaring what its connection owned.
   */
  lemma InvThroughoutExactly(r: Run, n: nat)
    requires IsRun(r) && n <= |r.steps|
    ensures (forall i :: 0 <= i <= n ==> Inv(r.states[i])) <==> DisciplinedUntil(r, n)
  {
    hide Inv, Domains, Next, Enabled, KeepsOwnRoutes;
    if DisciplinedUntil(r, n) {
      forall i | 0 <= i <= n ensures Inv(r.states[i]) {
        assert DisciplinedUntil(r, i);
        RunInv(r, i);
      }
    }
    if forall i :: 0 <= i <= n ==> Inv(r.states[i]) {
      forall i | 0 <= i < n
        ensures IsStep(r.states[i], r.steps[i], r.states[i + 1])
        ensures Domains(r.states[i]) ==> KeepsOwnRoutes(r.states[i], r.steps[i])
      {
        assert IsStep(r.states[i], r.steps[i], r.states[i + 1]);
        assert Inv(r.states[i]) && Inv(r.states[i + 1]);
        InvIsDefined(r.states[i]);
        if r.steps[i].ReplaceMeta? {
          DisciplineIsExact(r.states[i], r.steps[i].t);
        } else {
          OnlyReplacingMatters(r.states[i], r.steps[i]);
        }
      }
    }
  }

  // ---------- who is mentioned ----------

  /** The connection is registered, or between the first and the last step of its own RemoveDevice. */
  ghost predicate Mentionable(sys: Sys, c: Conn) {
    c in sys.pc && (Registered(sys.pc[c]) || Leaving(sys.pc[c]))
  }

  lemma StoredRegistered(sys: Sys)
    requires Core(sys)
    ensures forall id :: id in sys.s.registry ==> sys.s.registry[id] in sys.pc && Registered(sys.pc[sys.s.registry[id]])
  {
    hide BrokerBacked, SubsBacked, RoutesHeld, OwnClients;
  }

  lemma OwnersMentionable(sys: Sys)
    requires Inv(sys)
    ensures forall topic :: topic in sys.s.routes ==>
      sys.s.routes[topic] in sys.issued && Mentionable(sys, sys.issued[sys.s.routes[topic]])
  {
    hide Declares, BrokerBacked, SubsBacked, RoutesHeld, OwnClients;
  }

  lemma SubscribersMentionable(sys: Sys, topic: Topic, c: Conn)
    requires Core(sys) && c in Members(sys.s.broker, topic)
    ensures Mentionable(sys, c) && (Leaving(sys.pc[c]) ==> sys.pc[c].RemoveSubs? && topic in sys.pc[c].left)
  {
    hide IdsFresh, RegistryCoherent, RoutesBacked, RoutesHeld, SubsBacked;
    assert MaySubscribe(sys.pc[c], sys.s.meta[c].subs, topic);
    assert OwnClient(c, sys.pc[c], sys.s.meta[c]);
  }

  /** In every state of every run, whoever the registry stores has begun to register and not begun to leave. */
  lemma StoredAreAlive(r: Run, i: nat)
    requires IsRun(r) && i < |r.states|
    ensures var sys := r.states[i];
      forall id :: id in sys.s.registry ==> sys.s.registry[id] in sys.pc && Registered(sys.pc[sys.s.registry[id]])
  {
    hide Core;
    RunCore(r, i);
    StoredRegistered(r.states[i]);
  }

  /** And whoever a route leads to, as long as identifies have kept what their connections owned. */
  lemma OwnersAreAlive(r: Run, i: nat)
    requires IsRun(r) && i < |r.states| && DisciplinedUntil(r, i)
    ensures var sys := r.states[i];
      forall topic :: topic in sys.s.routes ==>
        sys.s.routes[topic] in sys.issued && Mentionable(sys, sys.issued[sys.s.routes[topic]])
  {
    hide Inv, Mentionable;
    RunInv(r, i);
    OwnersMentionable(r.states[i]);
  }

  /** In every state of every run, a subscriber in the broker is registered or still leaving the broker. */
  lemma SubscribersAreAlive(r: Run, i: nat, topic: Topic, c: Conn)
    requires IsRun(r) && i < |r.states| && c in Members(r.states[i].s.broker, topic)
    ensures var sys := r.states[i];
      Mentionable(sys, c) && (Leaving(sys.pc[c]) ==> sys.pc[c].RemoveSubs? && topic in sys.pc[c].left)
  {
    hide Core;
    RunCore(r, i);
    SubscribersMentionable(r.states[i], topic, c);
  }

  lemma IdsAreFresh(sys: Sys, c: Conn)
    requires Core(sys) && c in sys.pc
    ensures c in sys.s.meta && sys.s.meta[c].id in sys.issued && sys.issued[sys.s.meta[c].id] == c
    ensures sys.s.meta[c].id in sys.s.registry ==> sys.s.registry[sys.s.meta[c].id] == c
  {
    hide OwnClients, BrokerBacked, SubsBacked, RoutesHeld;
  }

  /** After the last step of RemoveDevice neither the registry nor the broker mentions the client, whatever clients did. */
  lemma GoneIsUnlisted(r: Run, i: nat, c: Conn)
    requires IsRun(r) && i < |r.states| && c in r.states[i].pc && r.states[i].pc[c].Gone?
    ensures var s := r.states[i].s;
      && c in s.meta && s.meta[c].id !in s.registry
      && (forall topic :: c !in Members(s.broker, topic))
  {
    hide Core;
    var sys := r.states[i];
    RunCore(r, i);
    StoredAreAlive(r, i);
    IdsAreFresh(sys, c);
    forall topic ensures c !in Members(sys.s.broker, topic) {
      if c in Members(sys.s.broker, topic) {
        SubscribersAreAlive(r, i, topic, c);
      }
    }
  }

  /** Nor does a route, as long as identifies have kept what their connections owned. */
  lemma GoneIsForgotten(r: Run, i: nat, c: Conn)
    requires IsRun(r) && i < |r.states| && DisciplinedUntil(r, i) && c in r.states[i].pc && r.states[i].pc[c].Gone?
    ensures var s := r.states[i].s;
      && c in s.meta && s.meta[c].id !in s.registry
      && (forall topic :: c !in Members(s.broker, topic))
      && (forall topic :: topic in s.routes ==> s.routes[topic] != s.meta[c].id)
  {
    hide Core, Inv;
    RunCore(r, i);
    GoneIsUnlisted(r, i, c);
    OwnersAreAlive(r, i);
    IdsAreFresh(r.states[i], c);
  }

  // ---------- quiescence ----------

  ghost predicate Quiescent(sys: Sys) {
    forall t :: t in sys.pc ==> sys.pc[t].Idle? || sys.pc[t].Gone?
  }

  /** When no handler is in flight, registry, broker and Subs agree, whatever clients did, and the idle connections are the live ones. */
  lemma QuiescentIsAgreed(r: Run, i: nat)
    requires IsRun(r) && i < |r.states| && Quiescent(r.states[i])
    ensures Agreed(r.states[i].s)
    ensures forall t :: t in r.states[i].pc ==> (r.states[i].pc[t].Idle? <==> Live(r.states[i].s, t))
  {
    hide Core, Agreed;
    RunCore(r, i);
    QuiescentAgreed(r.states[i]);
  }

  /** And no route dangles, as long as identifies have kept what their connections owned. */
  lemma QuiescentIsConsistent(r: Run, i: nat)
    requires IsRun(r) && i < |r.states| && DisciplinedUntil(r, i) && Quiescent(r.states[i])
    ensures Consistent(r.states[i].s)
    ensures forall t :: t in r.states[i].pc ==> (r.states[i].pc[t].Idle? <==> Live(r.states[i].s, t))
  {
    hide Inv, Agreed, NoDanglingRoute;
    RunInv(r, i);
    QuiescentIsAgreed(r, i);
    QuiescentRoutes(r.states[i]);
  }

  lemma QuiescentAgreed(sys: Sys)
    requires Core(sys) && Quiescent(sys)
    ensures Agreed(sys.s)
    ensures forall t :: t in sys.pc ==> (sys.pc[t].Idle? <==> Live(sys.s, t))
  {
    hide AcceptedNames, BrokerBacked, SubsBacked, RoutesHeld, OwnClients, BrokerListsSubs, SubsInBroker;
    assert Coherent(sys.s);
    forall t | t in sys.pc ensures sys.pc[t].Idle? <==> Live(sys.s, t) {
    }
    QuiescentBroker(sys);
  }

  lemma QuiescentBroker(sys: Sys)
    requires Core(sys) && Quiescent(sys)
    requires forall t :: t in sys.pc ==> (sys.pc[t].Idle? <==> Live(sys.s, t))
    ensures BrokerListsSubs(sys.s) && SubsInBroker(sys.s)
    ensures forall t :: t in sys.s.broker ==> sys.s.broker[t] <= sys.s.meta.Keys
  {
    hide IdsFresh, RegistryCoherent, RoutesHeld, OwnClients, Live;
  }

  lemma QuiescentRoutes(sys: Sys)
    requires Inv(sys) && Quiescent(sys)
    ensures NoDanglingRoute(sys.s)
  {
    hide Declares, BrokerBacked, SubsBacked, RoutesHeld, OwnClients;
    forall topic | topic in sys.s.routes
      ensures sys.s.routes[topic] in sys.s.registry && sys.s.registry[sys.s.routes[topic]] in sys.s.meta
      ensures Declares(sys.s.meta[sys.s.registry[sys.s.routes[topic]]], topic)
    {
    }
  }

  /** When no handler is in flight, GetFeature succeeds exactly on the routed topics and finds the live owner. */
  lemma QuiescentReadsAreTotal(r: Run, i: nat, topic: Topic)
    requires IsRun(r) && i < |r.states| && DisciplinedUntil(r, i) && Quiescent(r.states[i])
    ensures var s := r.states[i].s;
      && (topic in s.routes && s.routes[topic] in s.registry ==> s.registry[s.routes[topic]] in s.meta)
      && (F.Readable(s, topic) <==> topic in s.routes)
      && (topic in s.routes ==> Live(s, s.registry[s.routes[topic]]) && s.meta[s.registry[s.routes[topic]]].id == s.routes[topic])
  {
    hide Consistent, F.Readable, Live;
    QuiescentIsConsistent(r, i);
    RegistryKnown(r.states[i].s);
    F.ReadsAreTotal(r.states[i].s, topic);
    if topic in r.states[i].s.routes {
      ReadableFindsOwner(r.states[i].s, topic);
    }
  }

  lemma RegistryKnown(s: State<Conn>)
    requires Consistent(s)
    ensures forall id :: id in s.registry ==> s.registry[id] in s.meta
  {
  }

  lemma ReadableFindsOwner(s: State<Conn>, topic: Topic)
    requires (topic in s.routes && s.routes[topic] in s.registry ==> s.registry[s.routes[topic]] in s.meta) && F.Readable(s, topic)
    ensures topic in s.routes && s.routes[topic] in s.registry
  {
  }

  // ---------- routes ----------

  ghost predicate GoodRoutes(sys: Sys) {
    forall topic :: topic in sys.s.routes ==> GoodName(topic)
  }

  lemma AcceptedAreGood(features: map<string, Feature>)
    ensures forall name :: name in AcceptedNames(features) ==> GoodName(name)
  {
    hide GoodName;
  }

  /** Routes come from claims only, and both claims are of validated names. */
  lemma TouchingKeepsGood(sys: Sys, step: Step)
    requires Domains(sys) && Enabled(sys, step) && TouchesRoutes(step) && GoodRoutes(sys)
    requires OwnClient(step.t, sys.pc[step.t], sys.s.meta[step.t])
    ensures GoodRoutes(Next(sys, step))
  {
    hide GoodName, AcceptedNames, FeatureNames, FeatureMap, PointsInto, RoutesFree;
    AcceptedAreGood(sys.s.meta[step.t].features);
    if step.ClaimDeclared? {
      WellKeyedNames(sys.s.meta[step.t].features);
    }
  }

  lemma NextKeepsGood(sys: Sys, step: Step)
    requires Domains(sys) && Enabled(sys, step) && GoodRoutes(sys) && Core(sys)
    ensures GoodRoutes(Next(sys, step))
  {
    hide GoodName, Next, BrokerBacked, SubsBacked, IdsFresh, RegistryCoherent, RoutesHeld, PointsInto, OwnClient;
    if TouchesRoutes(step) {
      TouchingIsOfOne(sys, step);
      TouchingKeepsGood(sys, step);
    } else {
      OtherStepsSpareNames(sys, Next(sys, step), step);
    }
  }

  lemma TouchingIsOfOne(sys: Sys, step: Step)
    requires Enabled(sys, step) && TouchesRoutes(step)
    ensures step.t in sys.pc
  {
  }

  /** In every state of every run, whatever clients declare or drop, every routed topic is a name that passed validation. */
  lemma {:induction false} RouteKeysAreValid(r: Run, i: nat)
    requires IsRun(r) && i < |r.states|
    ensures forall topic :: topic in r.states[i].s.routes ==> GoodName(topic)
  {
    if i > 0 {
      hide GoodName, Core, Next, Enabled;
      RouteKeysAreValid(r, i - 1);
      RunCore(r, i - 1);
      assert IsStep(r.states[i - 1], r.steps[i - 1], r.states[i]);
      CoreIsDefined(r.states[i - 1]);
      NextKeepsGood(r.states[i - 1], r.steps[i - 1]);
    }
  }

  /** A command or query is sent to the client that owns its topic at the moment of the send, and to no other. */
  lemma ForwardReachesOwner(r: Run, i: nat, t: Conn)
    requires IsRun(r) && i < |r.states| && Enabled(r.states[i], Forward(t)) && r.states[i].pc[t].RouteTo?
    ensures
      var s, msg, c := r.states[i].s, r.states[i].pc[t].msg, r.states[i].pc[t].c;
      msg.topic in s.routes && c in s.meta && s.routes[msg.topic] == s.meta[c].id
      && forall x :: x in s.meta && s.meta[x].id == s.routes[msg.topic] ==> x == c
  {
    hide Core;
    RunCore(r, i);
    HeldRouteLeadsToOwner(r.states[i], t);
  }

  lemma HeldRouteLeadsToOwner(sys: Sys, t: Conn)
    requires Core(sys) && t in sys.pc && sys.pc[t].RouteTo?
    ensures
      var msg, c := sys.pc[t].msg, sys.pc[t].c;
      msg.topic in sys.s.routes && c in sys.s.meta && sys.s.routes[msg.topic] == sys.s.meta[c].id
      && forall x :: x in sys.s.meta && sys.s.meta[x].id == sys.s.routes[msg.topic] ==> x == c
  {
    hide AcceptedNames;
    assert RouteHeld(sys, sys.pc[t]);
  }

  /** One step never hands a routed topic to somebody else; only a leaving client that declares it can free it. */
  lemma StepNeverRebinds(sys: Sys, step: Step, topic: Topic)
    requires Domains(sys) && Enabled(sys, step) && topic in sys.s.routes
    ensures
      var routes := Next(sys, step).s.routes;
      || (topic in routes && routes[topic] == sys.s.routes[topic])
      || (topic !in routes && step.ReleaseRoutes? && topic in FeatureNames(sys.s.meta[step.t].features))
  {
    hide AcceptedNames, FeatureMap, FeatureNames, PointsInto, RoutesFree, BrokerFree;
    if TouchesRoutes(step) {
      TouchingNeverRebinds(sys, step, topic);
    } else {
      hide Next, Enabled;
      OtherStepsSpareNames(sys, Next(sys, step), step);
    }
  }

  lemma TouchingNeverRebinds(sys: Sys, step: Step, topic: Topic)
    requires Domains(sys) && Enabled(sys, step) && topic in sys.s.routes && TouchesRoutes(step)
    ensures
      var routes := Next(sys, step).s.routes;
      || (topic in routes && routes[topic] == sys.s.routes[topic])
      || (topic !in routes && step.ReleaseRoutes? && topic in FeatureNames(sys.s.meta[step.t].features))
  {
    hide AcceptedNames, FeatureMap, FeatureNames, PointsInto, RoutesFree, BrokerFree, Domains;
  }

  /**
   First claim wins over whole runs: if a topic's owner is a at one point and b later, a client that
   declares the topic finished leaving in between. No hypothesis on the clients.
   */
  lemma {:induction false} FirstClaimWins(r: Run, i: nat, j: nat, topic: Topic)
    requires IsRun(r) && i <= j < |r.states|
    requires topic in r.states[i].s.routes && topic in r.states[j].s.routes
    requires r.states[i].s.routes[topic] != r.states[j].s.routes[topic]
    ensures exists k :: i <= k < j && r.steps[k].ReleaseRoutes? && r.steps[k].t in r.states[k].s.meta
                        && topic in FeatureNames(r.states[k].s.meta[r.steps[k].t].features)
    decreases j - i
  {
    RunCore(r, i);
    assert IsStep(r.states[i], r.steps[i], r.states[i + 1]);
    StepNeverRebinds(r.states[i], r.steps[i], topic);
    if topic in r.states[i + 1].s.routes {
      FirstClaimWins(r, i + 1, j, topic);
    }
  }

  /** Releasing spares every other owner's route exactly when no other owner holds a name the leaver declares. */
  lemma ReleaseSparesOthersExactly(sys: Sys, t: Conn)
    requires Domains(sys) && Enabled(sys, ReleaseRoutes(t))
    ensures
      var id, names := sys.s.meta[t].id, FeatureNames(sys.s.meta[t].features);
      (forall topic :: topic in sys.s.routes && sys.s.routes[topic] != id ==> topic in Next(sys, ReleaseRoutes(t)).s.routes)
      <==> (forall topic :: topic in names && topic in sys.s.routes ==> sys.s.routes[topic] == id)
  {
    hide FeatureNames;
  }
}
