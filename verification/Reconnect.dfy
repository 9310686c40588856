/**
 A device that reconnects before its old connection has finished leaving: its claim is skipped because
 the old connection's route is still there, then the old connection releases that route. The device
 stays registered, declares the topic, and is not routed.
 */
module Reconnect {
  import opened Wrappers
  import opened Proto
  import opened ServerState
  import opened Interleaving
  import opened InterleavingTheorems
  import opened ExactRoutes
  import opened Counterexamples
  import F = FeatureService

  const IDENTIFY: Message :=
    Message("identify", "t", "", "", "", Payload("", Some(IdentifyPayload("", "", [TEMP])), None, None))

  /** A new connection registers and identifies. */
  function Join(t: Conn, id: Id): seq<Step> {
    [Accept(t, id, map[]), Store(t), ReadFeatures(t)] + [Receive(t, IDENTIFY), ReplaceMeta(t), ClaimDeclared(t), Acknowledge(t)]
  }

  const STEPS: seq<Step> := Join(0, "a") + [Disconnect(0)] + Join(1, "b") + [EndDrop(0), ReleaseRoutes(0)]

  // ---------- running a list of steps ----------

  /** Where these steps lead, if each is possible and each identify only adds to what was declared. */
  ghost function After(sys: Sys, steps: seq<Step>): Option<Sys>
    decreases |steps|
  {
    if steps == [] then Some(sys)
    else if Domains(sys) && Enabled(sys, steps[0]) && (steps[0].ReplaceMeta? ==> Grows(sys, steps[0].t))
    then After(Next(sys, steps[0]), steps[1..])
    else None
  }

  lemma {:induction false} AfterIsRun(sys: Sys, steps: seq<Step>) returns (states: seq<Sys>)
    requires After(sys, steps).Some?
    ensures |states| == |steps| + 1 && states[0] == sys && Some(states[|steps|]) == After(sys, steps)
    ensures forall i :: 0 <= i < |steps| ==>
      && IsStep(states[i], steps[i], states[i + 1])
      && (steps[i].ReplaceMeta? ==> Grows(states[i], steps[i].t))
    decreases |steps|
  {
    hide Domains, Enabled, Next, Grows;
    if steps == [] {
      states := [sys];
    } else {
      var rest := AfterIsRun(Next(sys, steps[0]), steps[1..]);
      states := [sys] + rest;
      forall i | 0 <= i < |steps|
        ensures IsStep(states[i], steps[i], states[i + 1]) && (steps[i].ReplaceMeta? ==> Grows(states[i], steps[i].t))
      {
        if i > 0 {
          assert steps[1..][i - 1] == steps[i];
        }
      }
    }
  }

  lemma {:induction false} AfterConcat(sys: Sys, a: seq<Step>, b: seq<Step>)
    requires After(sys, a).Some?
    ensures After(sys, a + b) == After(After(sys, a).value, b)
    decreases |a|
  {
    hide Domains, Enabled, Next, Grows;
    if a == [] {
      assert a + b == b;
    } else {
      AfterConcat(Next(sys, a[0]), a[1..], b);
      assert (a + b)[1..] == a[1..] + b;
    }
  }

  lemma AfterOne(sys: Sys, step: Step, rest: seq<Step>)
    requires Domains(sys) && Enabled(sys, step) && (step.ReplaceMeta? ==> Grows(sys, step.t))
    ensures After(sys, [step] + rest) == After(Next(sys, step), rest)
  {
    assert ([step] + rest)[1..] == rest;
  }

  // ---------- a device joins ----------

  /** A connection between its critical sections: registered, with these features. */
  function Joining(sys: Sys, t: Conn, id: Id, features: map<string, Feature>, pc: Pc): Sys {
    Sys(sys.s.(registry := sys.s.registry[id := t], meta := sys.s.meta[t := Meta(id, "", "", features, {})]),
        sys.pc[t := pc], sys.issued[id := t], sys.attempts[t := []], sys.published[t := []])
  }

  function Joined(sys: Sys, t: Conn, id: Id): Sys {
    var joining := Joining(sys, t, id, map["t" := TEMP], Idle);
    joining.(s := joining.s.(routes := Claim(sys.s.routes, {"t"}, id)))
  }

  /** A state in which a new connection may come and claim. */
  ghost predicate Calm(sys: Sys, t: Conn, id: Id) {
    Domains(sys) && RoutesFree(sys) && t !in sys.pc && id !in sys.issued
  }

  lemma PointsMore(pc: Pc, conns: set<Conn>, t: Conn)
    requires PointsInto(pc, conns)
    ensures PointsInto(pc, conns + {t})
  {
  }

  lemma JoiningDefined(sys: Sys, t: Conn, id: Id, features: map<string, Feature>, pc: Pc)
    requires Calm(sys, t, id) && PointsInto(pc, sys.pc.Keys + {t}) && !ReadsRoutes(pc)
    ensures Domains(Joining(sys, t, id, features, pc)) && RoutesFree(Joining(sys, t, id, features, pc))
  {
    hide PointsInto, ReadsRoutes;
    var joining := Joining(sys, t, id, features, pc);
    forall x | x in joining.pc ensures PointsInto(joining.pc[x], joining.pc.Keys) {
      assert joining.pc.Keys == sys.pc.Keys + {t};
      if x != t {
        PointsMore(sys.pc[x], sys.pc.Keys, t);
      }
    }
  }

  /** The state between Accept and Store. */
  function Accepted(sys: Sys, t: Conn, id: Id): Sys {
    Joining(sys, t, id, map[], Created).(s := sys.s.(meta := sys.s.meta[t := Meta(id, "", "", map[], {})]))
  }

  lemma AcceptStep(sys: Sys, t: Conn, id: Id)
    requires Calm(sys, t, id)
    ensures Enabled(sys, Accept(t, id, map[])) && Next(sys, Accept(t, id, map[])) == Accepted(sys, t, id)
    ensures Domains(Accepted(sys, t, id))
  {
    JoiningDefined(sys, t, id, map[], Created);
    hide PointsInto;
  }

  lemma StoreStep(sys: Sys, t: Conn, id: Id)
    requires Domains(Accepted(sys, t, id))
    ensures Enabled(Accepted(sys, t, id), Store(t))
    ensures Next(Accepted(sys, t, id), Store(t)) == Joining(sys, t, id, map[], Stored)
  {
    hide PointsInto;
  }

  lemma ReadFeaturesStep(sys: Sys, t: Conn, id: Id)
    requires Domains(Joining(sys, t, id, map[], Stored))
    ensures Enabled(Joining(sys, t, id, map[], Stored), ReadFeatures(t))
    ensures Next(Joining(sys, t, id, map[], Stored), ReadFeatures(t)) == Joining(sys, t, id, map[], Idle)
  {
    hide PointsInto;
  }

  lemma RegisterRuns(sys: Sys, t: Conn, id: Id)
    requires Calm(sys, t, id)
    ensures After(sys, [Accept(t, id, map[]), Store(t), ReadFeatures(t)]) == Some(Joining(sys, t, id, map[], Idle))
  {
    JoiningDefined(sys, t, id, map[], Stored);
    AcceptStep(sys, t, id);
    StoreStep(sys, t, id);
    ReadFeaturesStep(sys, t, id);
    hide Domains, Enabled, Next, Joining, Accepted, After;
    AfterOne(sys, Accept(t, id, map[]), [Store(t), ReadFeatures(t)]);
    AfterOne(Accepted(sys, t, id), Store(t), [ReadFeatures(t)]);
    AfterOne(Joining(sys, t, id, map[], Stored), ReadFeatures(t), []);
    AfterNothing(Joining(sys, t, id, map[], Idle));
    assert [Accept(t, id, map[])] + [Store(t), ReadFeatures(t)] == [Accept(t, id, map[]), Store(t), ReadFeatures(t)];
  }

  lemma AfterNothing(sys: Sys)
    ensures After(sys, []) == Some(sys)
  {
  }

  function Proposed(): IdentifyPayload {
    IdentifyPayload("", "", [TEMP])
  }

  lemma ReceiveStep(sys: Sys, t: Conn, id: Id)
    requires Domains(Joining(sys, t, id, map[], Idle))
    ensures Enabled(Joining(sys, t, id, map[], Idle), Receive(t, IDENTIFY))
    ensures Next(Joining(sys, t, id, map[], Idle), Receive(t, IDENTIFY)) == Joining(sys, t, id, map[], IdentifyFound(t, Proposed()))
  {
    hide PointsInto;
  }

  lemma KeptFeatures()
    ensures FeatureMap(Proposed().features) == map["t" := TEMP]
  {
    TempIsValid();
    hide ValidFeature;
    assert [TEMP][..0] == [];
    assert FeatureMap([]) == map[];
  }

  lemma ReplaceMetaStep(sys: Sys, t: Conn, id: Id)
    requires Domains(Joining(sys, t, id, map[], IdentifyFound(t, Proposed())))
    ensures Enabled(Joining(sys, t, id, map[], IdentifyFound(t, Proposed())), ReplaceMeta(t))
    ensures Grows(Joining(sys, t, id, map[], IdentifyFound(t, Proposed())), t)
    ensures Next(Joining(sys, t, id, map[], IdentifyFound(t, Proposed())), ReplaceMeta(t))
      == Joining(sys, t, id, map["t" := TEMP], IdentifyStored(t))
  {
    hide PointsInto, FeatureMap, Domains;
    KeptFeatures();
  }

  function Claimed(sys: Sys, t: Conn, id: Id): Sys {
    Joined(sys, t, id).(pc := sys.pc[t := IdentifyClaimed(t)])
  }

  lemma ClaimStep(sys: Sys, t: Conn, id: Id)
    requires Domains(Joining(sys, t, id, map["t" := TEMP], IdentifyStored(t)))
    requires RoutesFree(Joining(sys, t, id, map["t" := TEMP], IdentifyStored(t)))
    ensures Enabled(Joining(sys, t, id, map["t" := TEMP], IdentifyStored(t)), ClaimDeclared(t))
    ensures Next(Joining(sys, t, id, map["t" := TEMP], IdentifyStored(t)), ClaimDeclared(t)) == Claimed(sys, t, id)
  {
    hide PointsInto, RoutesFree, FeatureNames, Claim, ValidFeature;
    TempNames();
  }

  lemma TempNames()
    ensures FeatureNames(map["t" := TEMP]) == {"t"}
  {
    TempIsValid();
  }

  lemma AcknowledgeStep(sys: Sys, t: Conn, id: Id)
    requires Domains(Claimed(sys, t, id))
    ensures Enabled(Claimed(sys, t, id), Acknowledge(t)) && Next(Claimed(sys, t, id), Acknowledge(t)) == Joined(sys, t, id)
  {
    hide PointsInto;
  }

  lemma IdentifyDefined(sys: Sys, t: Conn, id: Id)
    requires Calm(sys, t, id)
    ensures Domains(Joining(sys, t, id, map[], Idle)) && Domains(Joining(sys, t, id, map[], IdentifyFound(t, Proposed())))
    ensures Domains(Joining(sys, t, id, map["t" := TEMP], IdentifyStored(t)))
    ensures RoutesFree(Joining(sys, t, id, map["t" := TEMP], IdentifyStored(t)))
    ensures Domains(Claimed(sys, t, id))
  {
    JoiningDefined(sys, t, id, map[], Idle);
    JoiningDefined(sys, t, id, map[], IdentifyFound(t, Proposed()));
    JoiningDefined(sys, t, id, map["t" := TEMP], IdentifyStored(t));
    JoiningDefined(sys, t, id, map["t" := TEMP], IdentifyClaimed(t));
    ClaimedDefined(sys, t, id);
  }

  lemma ClaimedDefined(sys: Sys, t: Conn, id: Id)
    requires Domains(Joining(sys, t, id, map["t" := TEMP], IdentifyClaimed(t)))
    ensures Domains(Claimed(sys, t, id))
  {
    hide PointsInto;
    assert Claimed(sys, t, id).pc == Joining(sys, t, id, map["t" := TEMP], IdentifyClaimed(t)).pc;
  }

  lemma IdentifyRuns(sys: Sys, t: Conn, id: Id)
    requires Calm(sys, t, id)
    ensures After(Joining(sys, t, id, map[], Idle), [Receive(t, IDENTIFY), ReplaceMeta(t), ClaimDeclared(t), Acknowledge(t)])
         == Some(Joined(sys, t, id))
  {
    hide Domains, RoutesFree, Enabled, Next, Joining, Claimed, Joined, After, Grows, Calm, Proposed;
    IdentifyDefined(sys, t, id);
    ReceiveStep(sys, t, id);
    ReplaceMetaStep(sys, t, id);
    ClaimStep(sys, t, id);
    AcknowledgeStep(sys, t, id);
    var s0 := Joining(sys, t, id, map[], Idle);
    var s1 := Joining(sys, t, id, map[], IdentifyFound(t, Proposed()));
    var s2 := Joining(sys, t, id, map["t" := TEMP], IdentifyStored(t));
    var s3 := Claimed(sys, t, id);
    AfterOne(s0, Receive(t, IDENTIFY), [ReplaceMeta(t), ClaimDeclared(t), Acknowledge(t)]);
    AfterOne(s1, ReplaceMeta(t), [ClaimDeclared(t), Acknowledge(t)]);
    AfterOne(s2, ClaimDeclared(t), [Acknowledge(t)]);
    AfterOne(s3, Acknowledge(t), []);
    AfterNothing(Joined(sys, t, id));
    assert [Receive(t, IDENTIFY)] + [ReplaceMeta(t), ClaimDeclared(t), Acknowledge(t)]
        == [Receive(t, IDENTIFY), ReplaceMeta(t), ClaimDeclared(t), Acknowledge(t)];
    assert [ReplaceMeta(t)] + [ClaimDeclared(t), Acknowledge(t)] == [ReplaceMeta(t), ClaimDeclared(t), Acknowledge(t)];
    assert [ClaimDeclared(t)] + [Acknowledge(t)] == [ClaimDeclared(t), Acknowledge(t)];
    assert [Acknowledge(t)] + [] == [Acknowledge(t)];
  }

  lemma JoinRuns(sys: Sys, t: Conn, id: Id)
    requires Calm(sys, t, id)
    ensures After(sys, Join(t, id)) == Some(Joined(sys, t, id))
  {
    hide After, Joining, Joined, Calm;
    RegisterRuns(sys, t, id);
    IdentifyRuns(sys, t, id);
    AfterConcat(sys, [Accept(t, id, map[]), Store(t), ReadFeatures(t)],
                [Receive(t, IDENTIFY), ReplaceMeta(t), ClaimDeclared(t), Acknowledge(t)]);
  }

  // ---------- the run ----------

  const FIRST: Sys := Joined(INITIAL, 0, "a")

  /** The first connection has begun to leave: out of the registry, its route still there. */
  const LEAVING: Sys := FIRST.(s := FIRST.s.(registry := map[]), pc := map[0 := RemoveSubs({})])

  /** The device is back, and its claim was skipped. */
  const BACK: Sys := Joined(LEAVING, 1, "b")

  const DROPPED: Sys := BACK.(pc := BACK.pc[0 := RemoveRoutes])

  const END: Sys := DROPPED.(s := DROPPED.s.(routes := map[]), pc := DROPPED.pc[0 := Gone])

  lemma FirstRuns()
    ensures After(INITIAL, Join(0, "a")) == Some(FIRST)
    ensures Domains(FIRST) && FIRST.s.routes == map["t" := "a"]
  {
    JoinRuns(INITIAL, 0, "a");
    assert FIRST.s.routes == map["t" := "a"];
  }

  lemma LeavingRuns()
    ensures After(FIRST, [Disconnect(0)]) == Some(LEAVING)
    ensures Calm(LEAVING, 1, "b") && LEAVING.s.routes == map["t" := "a"]
  {
    FirstRuns();
    hide After;
    assert Next(FIRST, Disconnect(0)) == LEAVING;
    AfterOne(FIRST, Disconnect(0), []);
    AfterNothing(LEAVING);
    assert [Disconnect(0)] + [] == [Disconnect(0)];
  }

  lemma BackRuns()
    ensures After(LEAVING, Join(1, "b")) == Some(BACK)
    ensures BACK.s.routes == map["t" := "a"] && BACK.pc == map[0 := RemoveSubs({}), 1 := Idle]
    ensures Domains(BACK)
  {
    LeavingRuns();
    hide After;
    JoinRuns(LEAVING, 1, "b");
    JoiningDefined(LEAVING, 1, "b", map["t" := TEMP], Idle);
    assert BACK.s.routes == map["t" := "a"];
  }

  lemma ReleaseRuns()
    ensures After(BACK, [EndDrop(0), ReleaseRoutes(0)]) == Some(END)
  {
    hide After, Domains, Enabled, Next, Grows;
    DropSteps();
    AfterOne(BACK, EndDrop(0), [ReleaseRoutes(0)]);
    AfterOne(DROPPED, ReleaseRoutes(0), []);
    AfterNothing(END);
    assert [EndDrop(0)] + [ReleaseRoutes(0)] == [EndDrop(0), ReleaseRoutes(0)];
    assert [ReleaseRoutes(0)] + [] == [ReleaseRoutes(0)];
  }

  lemma DropSteps()
    ensures Domains(BACK) && Enabled(BACK, EndDrop(0)) && Next(BACK, EndDrop(0)) == DROPPED
    ensures Domains(DROPPED) && Enabled(DROPPED, ReleaseRoutes(0)) && Next(DROPPED, ReleaseRoutes(0)) == END
  {
    BackRuns();
    BackShape();
    TempNames();
    hide BACK, After, Domains, Enabled, Next, FeatureNames;
    OldConnectionEnds(BACK);
  }

  /** An old connection that holds only the route of "t" lets go of it. */
  lemma OldConnectionEnds(sys: Sys)
    requires Domains(sys) && sys.pc == map[0 := RemoveSubs({}), 1 := Idle] && sys.s.routes == map["t" := "a"]
    requires FeatureNames(sys.s.meta[0].features) == {"t"}
    ensures
      var dropped := sys.(pc := sys.pc[0 := RemoveRoutes]);
      && Enabled(sys, EndDrop(0)) && Next(sys, EndDrop(0)) == dropped
      && Domains(dropped) && Enabled(dropped, ReleaseRoutes(0))
      && Next(dropped, ReleaseRoutes(0)) == dropped.(s := dropped.s.(routes := map[]), pc := dropped.pc[0 := Gone])
  {
    hide FeatureNames, Domains, Enabled, Next;
    DroppedDefined(sys, sys.(pc := sys.pc[0 := RemoveRoutes]));
    EndDropStep(sys);
    ReleaseStep(sys.(pc := sys.pc[0 := RemoveRoutes]));
  }

  lemma EndDropStep(sys: Sys)
    requires Domains(sys) && 0 in sys.pc && sys.pc[0] == RemoveSubs({})
    ensures Enabled(sys, EndDrop(0)) && Next(sys, EndDrop(0)) == sys.(pc := sys.pc[0 := RemoveRoutes])
  {
    hide PointsInto;
  }

  lemma ReleaseStep(sys: Sys)
    requires Domains(sys) && sys.pc == map[0 := RemoveRoutes, 1 := Idle] && sys.s.routes == map["t" := "a"]
    requires FeatureNames(sys.s.meta[0].features) == {"t"}
    ensures Enabled(sys, ReleaseRoutes(0))
    ensures Next(sys, ReleaseRoutes(0)) == sys.(s := sys.s.(routes := map[]), pc := sys.pc[0 := Gone])
  {
    hide FeatureNames, PointsInto, Domains;
    assert sys.s.routes - {"t"} == map[];
  }

  lemma JoinedShape(sys: Sys, t: Conn, id: Id)
    ensures Joined(sys, t, id).s.registry == sys.s.registry[id := t]
    ensures Joined(sys, t, id).s.meta == sys.s.meta[t := Meta(id, "", "", map["t" := TEMP], {})]
  {
  }

  lemma BackShape()
    ensures 0 in BACK.s.meta && BACK.s.meta[0].features == map["t" := TEMP]
    ensures BACK.s.registry == map["b" := 1]
    ensures 1 in BACK.s.meta && BACK.s.meta[1] == Meta("b", "", "", map["t" := TEMP], {})
  {
    JoinedShape(INITIAL, 0, "a");
    JoinedShape(LEAVING, 1, "b");
  }

  lemma DroppedDefined(sys: Sys, sys': Sys)
    requires Domains(sys) && 0 in sys.pc && sys' == sys.(pc := sys.pc[0 := RemoveRoutes])
    ensures Domains(sys')
  {
    assert sys'.pc.Keys == sys.pc.Keys;
  }

  lemma AllRuns()
    ensures After(INITIAL, STEPS) == Some(END)
  {
    hide After, Join;
    FirstRuns();
    LeavingRuns();
    BackRuns();
    ReleaseRuns();
    AfterConcat(INITIAL, Join(0, "a"), [Disconnect(0)]);
    AfterConcat(INITIAL, Join(0, "a") + [Disconnect(0)], Join(1, "b"));
    AfterConcat(INITIAL, Join(0, "a") + [Disconnect(0)] + Join(1, "b"), [EndDrop(0), ReleaseRoutes(0)]);
  }

  /**
   A run of well-behaved clients in which a device reconnects: in the end no handler is in flight, the
   device is live and declares its topic, and the topic is neither routed nor readable.
   */
  lemma ReconnectLosesRoute()
    ensures exists r: Run ::
      && IsRun(r) && r.steps == STEPS && DisciplinedUntil(r, |STEPS|) && r.states[|STEPS|] == END
      && !UndisputedUntil(r, |STEPS|)
    ensures Quiescent(END) && Live(END.s, 1) && Declares(END.s.meta[1], "t") && Target(END.s, "t") == None
    ensures !IsInverse(END.s) && !F.Readable(END.s, "t")
  {
    AllRuns();
    EndUnrouted();
    var r := TheRun();
    if UndisputedUntil(r, |STEPS|) {
      RoutesAreTheInverse(r, |STEPS|);
    }
  }

  lemma TheRun() returns (r: Run)
    ensures IsRun(r) && r.steps == STEPS && DisciplinedUntil(r, |STEPS|) && r.states[|STEPS|] == END
  {
    hide After, Domains, Enabled, Next, Grows;
    AllRuns();
    var states := AfterIsRun(INITIAL, STEPS);
    r := Run(states, STEPS);
    SupersetsAreDisciplined(r);
  }

  lemma EndShape()
    ensures END.s.registry == map["b" := 1] && END.s.routes == map[] && END.pc == map[0 := Gone, 1 := Idle]
    ensures 1 in END.s.meta && END.s.meta[1] == Meta("b", "", "", map["t" := TEMP], {})
  {
    BackRuns();
    BackShape();
    hide BACK, After, Calm, Domains;
    assert END.s == BACK.s.(routes := map[]);
    assert END.pc == BACK.pc[0 := RemoveRoutes][0 := Gone];
  }

  lemma EndUnrouted()
    ensures Quiescent(END) && Live(END.s, 1) && Declares(END.s.meta[1], "t") && Target(END.s, "t") == None
    ensures !IsInverse(END.s) && !F.Readable(END.s, "t")
  {
    EndShape();
    TempIsValid();
    hide ValidFeature, AcceptedNames, FeatureNames;
    assert Declared(END.s, "t", "b");
    assert !Routed(END.s, "t", "b");
  }
}
