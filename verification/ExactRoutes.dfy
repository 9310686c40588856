/**
 When the routing table is the inverse of what live connections declare, under any interleaving: exactly
 as long as no claim and no release is disputed. Disjoint declarations are one way to ensure that.
 */
module ExactRoutes {
  import opened Proto
  import opened ServerState
  import opened Interleaving
  import opened InterleavingProofs
  import opened InterleavingTheorems

  function Names(sys: Sys, t: Conn): set<Topic>
    requires t in sys.s.meta
  {
    FeatureNames(sys.s.meta[t].features)
  }

  /** Phases in which a connection has claimed all that it declares and released nothing. */
  predicate HasClaimed(pc: Pc) {
    !pc.Created? && !pc.Stored? && !pc.RegisterClaim? && !pc.IdentifyStored? && !pc.Gone?
  }

  ghost predicate Owns(sys: Sys, t: Conn)
    requires t in sys.s.meta
  {
    forall n :: n in Names(sys, t) ==> n in sys.s.routes && sys.s.routes[n] == sys.s.meta[t].id
  }

  ghost predicate OwnsItsNames(sys: Sys) {
    forall t :: t in sys.pc && t in sys.s.meta && HasClaimed(sys.pc[t]) ==> Owns(sys, t)
  }

  // ---------- disputes ----------

  /** Nobody else holds a name that t is about to claim, and t may claim all that it declares. */
  ghost predicate ClaimsFreely(sys: Sys, t: Conn, claimed: set<Topic>)
    requires t in sys.s.meta
  {
    forall n :: n in Names(sys, t) ==> if n in sys.s.routes then sys.s.routes[n] == sys.s.meta[t].id else n in claimed
  }

  /** No other connection that has claimed declares a name that t is about to release. */
  ghost predicate ReleasesFreely(sys: Sys, t: Conn)
    requires Domains(sys) && t in sys.pc
  {
    forall u :: u in sys.pc && u != t && HasClaimed(sys.pc[u]) ==> Names(sys, u) !! Names(sys, t)
  }

  ghost predicate Undisputed(sys: Sys, step: Step)
    requires Domains(sys) && Enabled(sys, step)
  {
    match step
    case ClaimExisting(t) => ClaimsFreely(sys, t, AcceptedNames(sys.s.meta[t].features))
    case ClaimDeclared(t) => ClaimsFreely(sys, t, Names(sys, t))
    case ReleaseRoutes(t) => ReleasesFreely(sys, t)
    case _ => true
  }

  // ---------- one step ----------

  lemma ClaimGives(sys: Sys, sys': Sys, t: Conn, claimed: set<Topic>)
    requires t in sys.s.meta && sys'.s.meta == sys.s.meta
    requires sys'.s.routes == Claim(sys.s.routes, claimed, sys.s.meta[t].id)
    ensures Owns(sys', t) <==> ClaimsFreely(sys, t, claimed)
  {
    hide FeatureNames;
    assert Names(sys', t) == Names(sys, t);
    var id := sys.s.meta[t].id;
    if Owns(sys', t) {
      forall n | n in Names(sys, t) ensures if n in sys.s.routes then sys.s.routes[n] == id else n in claimed {
        assert n in sys'.s.routes;
      }
    }
    if ClaimsFreely(sys, t, claimed) {
      forall n | n in Names(sys', t) ensures n in sys'.s.routes && sys'.s.routes[n] == id {
        assert n in Names(sys, t);
      }
    }
  }

  lemma ClaimOwnsExactly(sys: Sys, sys': Sys, t: Conn, claimed: set<Topic>)
    requires Domains(sys) && OwnsItsNames(sys) && t in sys.pc
    requires sys'.s.meta == sys.s.meta && sys'.pc.Keys == sys.pc.Keys && (forall x :: x in sys.pc && x != t ==> sys'.pc[x] == sys.pc[x])
    requires sys'.s.routes == Claim(sys.s.routes, claimed, sys.s.meta[t].id) && HasClaimed(sys'.pc[t])
    ensures OwnsItsNames(sys') <==> ClaimsFreely(sys, t, claimed)
  {
    hide FeatureNames, PointsInto, HasClaimed;
    forall x | x in sys.pc && x != t && HasClaimed(sys.pc[x]) ensures Owns(sys', x) {
      assert Owns(sys, x);
    }
    ClaimGives(sys, sys', t, claimed);
  }

  lemma ReleaseOwnsExactly(sys: Sys, sys': Sys, t: Conn)
    requires Domains(sys) && OwnsItsNames(sys) && t in sys.pc
    requires sys'.s.meta == sys.s.meta && sys'.pc == sys.pc[t := Gone] && sys'.s.routes == sys.s.routes - Names(sys, t)
    ensures OwnsItsNames(sys') <==> ReleasesFreely(sys, t)
  {
    hide FeatureNames, PointsInto;
    forall x | x in sys.pc && x != t && HasClaimed(sys.pc[x]) ensures Owns(sys', x) <==> Names(sys, x) !! Names(sys, t) {
      assert Owns(sys, x);
    }
  }

  predicate OtherStep(step: Step) {
    !TouchesRoutes(step) && !step.ReadFeatures? && !step.Accept?
  }

  lemma OtherStepsKeepClaims(sys: Sys, sys': Sys, step: Step)
    requires Domains(sys) && Enabled(sys, step) && OtherStep(step) && sys' == Next(sys, step)
    ensures step.t in sys.pc && step.t in sys'.pc && (HasClaimed(sys'.pc[step.t]) ==> HasClaimed(sys.pc[step.t]))
  {
    hide AcceptedNames, BrokerAdd, BrokerDel, Claim, PointsInto;
  }

  lemma OtherStepsOwn(sys: Sys, sys': Sys, step: Step)
    requires Domains(sys) && Enabled(sys, step) && OtherStep(step) && sys' == Next(sys, step) && OwnsItsNames(sys)
    ensures OwnsItsNames(sys')
  {
    hide FeatureNames, Next, Enabled, HasClaimed, PointsInto;
    OtherStepsSpareNames(sys, sys', step);
    OthersStandStill(sys, sys', step);
    OtherStepsKeepClaims(sys, sys', step);
    forall x | x in sys'.pc && x in sys'.s.meta && HasClaimed(sys'.pc[x]) ensures Owns(sys', x) {
      assert HasClaimed(sys.pc[x]) && Owns(sys, x);
    }
  }

  /** A new connection, and one whose metadata was just replaced, has not claimed yet; one without features has nothing to claim. */
  lemma UnclaimedStepsOwn(sys: Sys, sys': Sys, step: Step)
    requires Domains(sys) && Enabled(sys, step) && sys' == Next(sys, step) && OwnsItsNames(sys)
    requires step.Accept? || step.ReadFeatures? || (step.ReplaceMeta? && sys.pc[step.t].c == step.t)
    ensures OwnsItsNames(sys')
  {
    hide FeatureNames, FeatureMap, AcceptedNames, PointsInto;
    forall x | x in sys'.pc && x in sys'.s.meta && HasClaimed(sys'.pc[x]) ensures Owns(sys', x) {
      if x != step.t {
        assert Owns(sys, x);
      } else {
        NoFeatures(sys.s.meta[x].features);
      }
    }
  }

  lemma NoFeatures(features: map<string, Feature>)
    ensures |features| == 0 ==> FeatureNames(features) == {}
  {
    if |features| == 0 {
      assert features == map[];
    }
  }

  /** One critical section keeps every declared name with its connection exactly if it is not disputed. */
  lemma NextOwnsExactly(sys: Sys, step: Step)
    requires Domains(sys) && Enabled(sys, step) && OwnsItsNames(sys) && Core(sys)
    ensures OwnsItsNames(Next(sys, step)) <==> Undisputed(sys, step)
  {
    hide OwnsItsNames, ClaimsFreely, ReleasesFreely, Core, Names, AcceptedNames, Next, Domains, Enabled;
    ClaimsAreOwn(sys, step);
    if step.ClaimExisting? || step.ClaimDeclared? || step.ReleaseRoutes? {
      DisputableOwnsExactly(sys, step);
    } else if OtherStep(step) {
      OtherStepsOwn(sys, Next(sys, step), step);
    } else {
      UnclaimedStepsOwn(sys, Next(sys, step), step);
    }
  }

  lemma DisputableOwnsExactly(sys: Sys, step: Step)
    requires Domains(sys) && Enabled(sys, step) && OwnsItsNames(sys)
    requires step.ClaimExisting? || step.ClaimDeclared? || step.ReleaseRoutes?
    requires step.ClaimExisting? ==> sys.pc[step.t].names == AcceptedNames(sys.s.meta[step.t].features)
    requires step.ClaimDeclared? ==> sys.pc[step.t].c == step.t
    ensures OwnsItsNames(Next(sys, step)) <==> Undisputed(sys, step)
  {
    hide OwnsItsNames, ClaimsFreely, ReleasesFreely, Names, AcceptedNames, Claim, PointsInto, Next, HasClaimed, RoutesFree;
    var t, sys' := step.t, Next(sys, step);
    match step
    case ClaimExisting(_) =>
      ClaimShape(sys, sys', t, step);
      ClaimOwnsExactly(sys, sys', t, AcceptedNames(sys.s.meta[t].features));
    case ClaimDeclared(_) =>
      ClaimShape(sys, sys', t, step);
      ClaimOwnsExactly(sys, sys', t, Names(sys, t));
    case ReleaseRoutes(_) =>
      ReleaseShape(sys, sys', t);
      ReleaseOwnsExactly(sys, sys', t);
  }

  lemma ClaimsAreOwn(sys: Sys, step: Step)
    requires Enabled(sys, step) && Core(sys)
    ensures step.ReplaceMeta? ==> sys.pc[step.t].c == step.t
    ensures step.ClaimExisting? ==> sys.pc[step.t].names == AcceptedNames(sys.s.meta[step.t].features)
    ensures step.ClaimDeclared? ==> sys.pc[step.t].c == step.t
  {
    hide AcceptedNames, IdsFresh, RegistryCoherent, BrokerBacked, SubsBacked, RoutesHeld, RoutesFree, BrokerFree, WellKeyed;
    if step.ReplaceMeta? || step.ClaimExisting? || step.ClaimDeclared? {
      assert OwnClient(step.t, sys.pc[step.t], sys.s.meta[step.t]);
    }
  }

  lemma ClaimShape(sys: Sys, sys': Sys, t: Conn, step: Step)
    requires Domains(sys) && Enabled(sys, step) && sys' == Next(sys, step) && t == step.t
    requires step == ClaimExisting(t) || (step == ClaimDeclared(t) && sys.pc[t].c == t)
    ensures sys'.s.meta == sys.s.meta && sys'.pc.Keys == sys.pc.Keys && (forall x :: x in sys.pc && x != t ==> sys'.pc[x] == sys.pc[x])
    ensures HasClaimed(sys'.pc[t])
    ensures sys'.s.routes ==
      Claim(sys.s.routes, if step.ClaimExisting? then sys.pc[t].names else Names(sys, t), sys.s.meta[t].id)
  {
    hide FeatureNames, Claim, PointsInto, RoutesFree;
  }

  lemma ReleaseShape(sys: Sys, sys': Sys, t: Conn)
    requires Domains(sys) && Enabled(sys, ReleaseRoutes(t)) && sys' == Next(sys, ReleaseRoutes(t))
    ensures sys'.s.meta == sys.s.meta && sys'.pc == sys.pc[t := Gone] && sys'.s.routes == sys.s.routes - Names(sys, t)
  {
    hide FeatureNames, PointsInto, RoutesFree;
  }

  // ---------- runs ----------

  /** No claim and no release of the first n steps is disputed. */
  ghost predicate UndisputedUntil(r: Run, n: nat)
    requires IsRun(r) && n <= |r.steps|
  {
    forall i :: 0 <= i < n ==>
      IsStep(r.states[i], r.steps[i], r.states[i + 1]) && (Domains(r.states[i]) ==> Undisputed(r.states[i], r.steps[i]))
  }

  lemma StartsOwned(r: Run)
    requires IsRun(r)
    ensures OwnsItsNames(r.states[0])
  {
  }

  lemma StepDefined(r: Run, i: nat)
    requires IsRun(r) && i < |r.steps|
    ensures Core(r.states[i]) && Domains(r.states[i]) && Enabled(r.states[i], r.steps[i])
    ensures r.states[i + 1] == Next(r.states[i], r.steps[i])
  {
    hide Core, Next, Enabled, Domains;
    RunCore(r, i);
    CoreIsDefined(r.states[i]);
    assert IsStep(r.states[i], r.steps[i], r.states[i + 1]);
  }

  lemma {:induction false} UndisputedOwns(r: Run, n: nat)
    requires IsRun(r) && n <= |r.steps| && UndisputedUntil(r, n)
    ensures OwnsItsNames(r.states[n])
  {
    hide OwnsItsNames, Undisputed, Core, Next, Enabled, Domains;
    if n == 0 {
      StartsOwned(r);
    } else {
      assert UndisputedUntil(r, n - 1);
      UndisputedOwns(r, n - 1);
      StepDefined(r, n - 1);
      NextOwnsExactly(r.states[n - 1], r.steps[n - 1]);
    }
  }

  /**
   Up to any point of any run: every connection that has claimed has had each of its names routed to it
   throughout, if and only if no claim and no release was disputed. No hypothesis on the clients.
   */
  lemma OwnedThroughoutExactly(r: Run, n: nat)
    requires IsRun(r) && n <= |r.steps|
    ensures (forall i :: 0 <= i <= n ==> OwnsItsNames(r.states[i])) <==> UndisputedUntil(r, n)
  {
    hide OwnsItsNames, Undisputed, Core, Next, Enabled, Domains;
    if UndisputedUntil(r, n) {
      forall i | 0 <= i <= n ensures OwnsItsNames(r.states[i]) {
        assert UndisputedUntil(r, i);
        UndisputedOwns(r, i);
      }
    }
    if forall i :: 0 <= i <= n ==> OwnsItsNames(r.states[i]) {
      forall i | 0 <= i < n
        ensures IsStep(r.states[i], r.steps[i], r.states[i + 1]) && (Domains(r.states[i]) ==> Undisputed(r.states[i], r.steps[i]))
      {
        StepDefined(r, i);
        assert OwnsItsNames(r.states[i]) && OwnsItsNames(r.states[i + 1]);
        NextOwnsExactly(r.states[i], r.steps[i]);
      }
    }
  }

  // ---------- the inverse ----------

  /** Every name that a live connection declares is routed to it, and nothing else is routed. */
  ghost predicate IsInverse(s: State<Conn>) {
    forall topic, id :: Routed(s, topic, id) <==> Declared(s, topic, id)
  }

  predicate Routed(s: State<Conn>, topic: Topic, id: Id) {
    topic in s.routes && s.routes[topic] == id
  }

  ghost predicate Declared(s: State<Conn>, topic: Topic, id: Id) {
    exists t :: t in s.meta && s.meta[t].id == id && Live(s, t) && topic in FeatureNames(s.meta[t].features)
  }

  /** With no handler in flight, the table is the inverse exactly when no route dangles and every live connection owns its names. */
  lemma QuiescentInverseExactly(r: Run, i: nat)
    requires IsRun(r) && i < |r.states| && DisciplinedUntil(r, i) && Quiescent(r.states[i])
    ensures IsInverse(r.states[i].s) <==> OwnsItsNames(r.states[i])
  {
    hide Inv, OwnsItsNames, Live, Consistent, Routed, Declared, Core;
    var sys := r.states[i];
    RunInv(r, i);
    RunCore(r, i);
    CoreIsDefined(sys);
    QuiescentIsConsistent(r, i);
    if OwnsItsNames(sys) {
      forall topic, id ensures Routed(sys.s, topic, id) <==> Declared(sys.s, topic, id) {
        RoutedIsDeclared(sys, topic, id);
        DeclaredIsRouted(sys, topic, id);
      }
    }
    if IsInverse(sys.s) {
      InverseOwns(sys);
    }
  }

  lemma RoutedIsDeclared(sys: Sys, topic: Topic, id: Id)
    requires Consistent(sys.s)
    ensures Routed(sys.s, topic, id) ==> Declared(sys.s, topic, id)
  {
    hide ValidFeature, BrokerListsSubs, SubsInBroker;
    if Routed(sys.s, topic, id) {
      var t := sys.s.registry[id];
      assert Declares(sys.s.meta[t], topic);
      assert Live(sys.s, t);
    }
  }

  lemma DeclaredIsRouted(sys: Sys, topic: Topic, id: Id)
    requires Domains(sys) && OwnsItsNames(sys)
    requires forall t :: t in sys.pc ==> (sys.pc[t].Idle? <==> Live(sys.s, t))
    ensures Declared(sys.s, topic, id) ==> Routed(sys.s, topic, id)
  {
    hide FeatureNames, Live, PointsInto;
    if Declared(sys.s, topic, id) {
      var t :| t in sys.s.meta && sys.s.meta[t].id == id && Live(sys.s, t) && topic in FeatureNames(sys.s.meta[t].features);
      assert HasClaimed(sys.pc[t]) && Owns(sys, t);
      assert topic in Names(sys, t);
    }
  }

  lemma InverseOwns(sys: Sys)
    requires Domains(sys) && Quiescent(sys) && IsInverse(sys.s)
    requires forall t :: t in sys.pc ==> (sys.pc[t].Idle? <==> Live(sys.s, t))
    ensures OwnsItsNames(sys)
  {
    hide FeatureNames, Live, PointsInto;
    forall t | t in sys.pc && t in sys.s.meta && HasClaimed(sys.pc[t]) ensures Owns(sys, t) {
      forall n | n in Names(sys, t) ensures n in sys.s.routes && sys.s.routes[n] == sys.s.meta[t].id {
        assert Declared(sys.s, n, sys.s.meta[t].id);
        assert Routed(sys.s, n, sys.s.meta[t].id);
      }
    }
  }

  /** In every handler-quiescent state of an undisputed run the routing table is the inverse of what live connections declare. */
  lemma RoutesAreTheInverse(r: Run, i: nat)
    requires IsRun(r) && i < |r.states| && DisciplinedUntil(r, i) && UndisputedUntil(r, i) && Quiescent(r.states[i])
    ensures IsInverse(r.states[i].s)
  {
    hide OwnsItsNames, IsInverse;
    UndisputedOwns(r, i);
    QuiescentInverseExactly(r, i);
  }

  // ---------- disjoint declarations ----------

  /** Connections that are not gone, those still leaving included, declare different names. */
  ghost predicate DisjointNames(sys: Sys)
    requires Domains(sys)
  {
    forall t, u :: t in sys.pc && u in sys.pc && t != u && !sys.pc[t].Gone? && !sys.pc[u].Gone? ==> Names(sys, t) !! Names(sys, u)
  }

  /** Feature maps are keyed by name and hold valid features. */
  ghost predicate FeaturesWellKeyed(sys: Sys) {
    forall t :: t in sys.s.meta ==> WellKeyed(sys.s.meta[t].features)
  }

  /** Any name of t that is already routed when t claims is routed to t. */
  lemma RoutedNamesAreOwn(sys: Sys, t: Conn)
    requires Inv(sys) && DisjointNames(sys) && t in sys.pc && !sys.pc[t].Gone?
    ensures forall n :: n in Names(sys, t) && n in sys.s.routes ==> sys.s.routes[n] == sys.s.meta[t].id
  {
    hide ValidFeature, BrokerBacked, SubsBacked, RoutesHeld, RegistryCoherent, OwnClients;
    forall n | n in Names(sys, t) && n in sys.s.routes ensures sys.s.routes[n] == sys.s.meta[t].id {
      var o := sys.issued[sys.s.routes[n]];
      assert Declares(sys.s.meta[o], n);
      assert n in Names(sys, o);
      assert !sys.pc[o].Gone?;
      assert o == t;
    }
  }

  /** With disjoint declarations nothing is disputed. */
  lemma DisjointIsUndisputed(sys: Sys, step: Step)
    requires Domains(sys) && Enabled(sys, step) && DisjointNames(sys) && FeaturesWellKeyed(sys) && Inv(sys)
    ensures Undisputed(sys, step)
  {
    hide Inv, FeatureNames, AcceptedNames, WellKeyed, PointsInto, RoutesFree, BrokerFree;
    if step.ClaimExisting? || step.ClaimDeclared? {
      RoutedNamesAreOwn(sys, step.t);
      WellKeyedNames(sys.s.meta[step.t].features);
    }
  }

  lemma NextWellKeyed(sys: Sys, step: Step)
    requires Domains(sys) && Enabled(sys, step) && FeaturesWellKeyed(sys)
    requires step.Accept? ==> WellKeyed(step.features)
    ensures FeaturesWellKeyed(Next(sys, step))
  {
    hide WellKeyed, FeatureMap, Next;
    if step.ReplaceMeta? {
      FeatureMapWellKeyed(sys.pc[step.t].p.features);
    }
    FeaturesComeFrom(sys, Next(sys, step), step);
  }

  /** Feature maps come with a connection or from an identify. */
  lemma FeaturesComeFrom(sys: Sys, sys': Sys, step: Step)
    requires Domains(sys) && Enabled(sys, step) && sys' == Next(sys, step)
    ensures forall x :: x in sys'.s.meta ==>
      || (x in sys.s.meta && sys'.s.meta[x].features == sys.s.meta[x].features)
      || (step.Accept? && sys'.s.meta[x].features == step.features)
      || (step.ReplaceMeta? && sys'.s.meta[x].features == FeatureMap(sys.pc[step.t].p.features))
  {
    if !TouchesRoutes(step) && !step.Accept? {
      hide Next, Enabled;
      OtherStepsSpareNames(sys, sys', step);
    } else {
      FeaturesChangeOnlyIn(sys, sys', step);
    }
  }

  lemma FeaturesChangeOnlyIn(sys: Sys, sys': Sys, step: Step)
    requires Domains(sys) && Enabled(sys, step) && sys' == Next(sys, step) && (TouchesRoutes(step) || step.Accept?)
    ensures forall x :: x in sys'.s.meta ==>
      || (x in sys.s.meta && sys'.s.meta[x].features == sys.s.meta[x].features)
      || (step.Accept? && sys'.s.meta[x].features == step.features)
      || (step.ReplaceMeta? && sys'.s.meta[x].features == FeatureMap(sys.pc[step.t].p.features))
  {
    if step.Accept? || step.ReplaceMeta? || step.ClaimExisting? || step.ClaimDeclared? || step.ReleaseRoutes? {
      hide FeatureMap, AcceptedNames, FeatureNames, Claim, PointsInto, RoutesFree, BrokerFree, WellKeyed;
      assert step.Accept? || step.ReplaceMeta? || sys'.s.meta == sys.s.meta;
    }
  }

  /** The hypotheses of disjointness, in the first n states and steps of a run. */
  ghost predicate DisjointUntil(r: Run, n: nat)
    requires IsRun(r) && n <= |r.steps|
  {
    forall i :: 0 <= i < n ==>
      && (Domains(r.states[i]) ==> DisjointNames(r.states[i]))
      && (r.steps[i].Accept? ==> WellKeyed(r.steps[i].features))
  }

  lemma {:induction false} DisjointWellKeyed(r: Run, n: nat)
    requires IsRun(r) && n <= |r.steps| && DisjointUntil(r, n)
    ensures FeaturesWellKeyed(r.states[n])
  {
    if n > 0 {
      hide Core, Next, Enabled, Domains, DisjointNames, WellKeyed, FeaturesWellKeyed;
      DisjointWellKeyed(r, n - 1);
      StepDefined(r, n - 1);
      NextWellKeyed(r.states[n - 1], r.steps[n - 1]);
    }
  }

  /** So runs in which live and leaving connections declare disjoint valid features are undisputed. */
  lemma DisjointRunsAreUndisputed(r: Run, n: nat)
    requires IsRun(r) && n <= |r.steps| && DisciplinedUntil(r, n) && DisjointUntil(r, n)
    ensures UndisputedUntil(r, n)
  {
    hide Core, Inv, Next, Enabled, Domains, DisjointNames, FeaturesWellKeyed, Undisputed;
    forall i | 0 <= i < n
      ensures IsStep(r.states[i], r.steps[i], r.states[i + 1]) && (Domains(r.states[i]) ==> Undisputed(r.states[i], r.steps[i]))
    {
      StepDefined(r, i);
      assert DisciplinedUntil(r, i);
      RunInv(r, i);
      assert DisjointUntil(r, i);
      DisjointWellKeyed(r, i);
      DisjointIsUndisputed(r.states[i], r.steps[i]);
    }
  }
}
