/**
 Who is sent what by a message that its connection handles without interruption (server/server.go): the sends
 that the critical sections of Interleaving.dfy make, for every kind of message.
 */
module Sends {
  import opened Wrappers
  import opened Proto
  import opened ServerState
  import opened ServerInFull
  import opened Interleaving
  import opened InterleavingProofs
  import opened Uninterrupted

  /** The message that a step writes to a client's link, which may fail. */
  ghost function Written(sys: Sys, step: Step): Option<(Conn, Message)>
    requires Domains(sys) && Enabled(sys, step)
  {
    match step
    case PublishTo(t, c, ok) => Some((c, sys.pc[t].msg))
    case Forward(t) => Some((sys.pc[t].c, sys.pc[t].msg))
    case Acknowledge(t) =>
      var c := sys.pc[t].c;
      Some((c, Message("identify_ack", "", "server", "", "", EncodeAck(AckPayload(sys.s.meta[c].id, "ok")))))
    case _ => None
  }

  /** Whom connection t has still to write to when nobody else moves. */
  ghost function Unserved(sys: Sys, t: Conn): set<Conn>
    requires t in sys.pc
  {
    match sys.pc[t]
    case IdentifyFound(c, p) => {c}
    case IdentifyStored(c) => {c}
    case IdentifyClaimed(c) => {c}
    case Publishing(msg, remaining) => remaining
    case Routing(msg) => Ones(Target(sys.s, msg.topic))
    case RouteFound(msg, id) => Ones(Lookup(sys.s, id))
    case RouteTo(msg, c) => {c}
    case RespondTo(msg, c) => {c}
    case _ => {}
  }

  /** What connection t handles is this message, which came from the connection itself. */
  ghost predicate Handles(sys: Sys, t: Conn, m: Message) {
    && t in sys.pc && t in sys.s.meta && sys.s.meta[t].id == m.sender
    && match sys.pc[t]
       case IdentifyFound(c, p) => c == t && m.kind == "identify"
       case IdentifyStored(c) => c == t && m.kind == "identify"
       case IdentifyClaimed(c) => c == t && m.kind == "identify"
       case Publishing(msg, remaining) => msg == m && m.kind != "identify"
       case Routing(msg) => msg == m && m.kind != "identify"
       case RouteFound(msg, id) => msg == m && m.kind != "identify"
       case RouteTo(msg, c) => msg == m && m.kind != "identify"
       case RespondTo(msg, c) => msg == m && m.kind != "identify"
       case _ => true
  }

  /** Either the step writes what the message passes on to one of the unserved, and to it alone, or it leaves them as they are. */
  ghost predicate Serves(sys: Sys, sys': Sys, step: Step, m: Message)
    requires Domains(sys) && Enabled(sys, step)
  {
    && Handles(sys', step.t, m) && step.t in sys.pc && step.t in sys'.pc
    && match Written(sys, step)
       case None => Unserved(sys', step.t) == Unserved(sys, step.t)
       case Some((c, got)) =>
         c in Unserved(sys, step.t) && Unserved(sys', step.t) == Unserved(sys, step.t) - {c} && Passes(got, m)
  }

  lemma ReadServes(sys: Sys, sys': Sys, step: Step, m: Message)
    requires Domains(sys) && Enabled(sys, step) && sys' == Next(sys, step) && Handles(sys, step.t, m) && Reads(step)
    ensures Serves(sys, sys', step, m)
  {
    hide Serves;
    if step.PublishTo? || step.EndPublish? {
      FanOutServes(sys, sys', step, m);
    } else {
      LookupServes(sys, sys', step, m);
    }
  }

  lemma FanOutServes(sys: Sys, sys': Sys, step: Step, m: Message)
    requires Domains(sys) && Enabled(sys, step) && sys' == Next(sys, step) && Handles(sys, step.t, m)
    requires step.PublishTo? || step.EndPublish?
    ensures Serves(sys, sys', step, m)
  {
    hide RoutesFree, BrokerFree;
  }

  lemma LookupServes(sys: Sys, sys': Sys, step: Step, m: Message)
    requires Domains(sys) && Enabled(sys, step) && sys' == Next(sys, step) && Handles(sys, step.t, m)
    requires step.LookupRoute? || step.LookupOwner? || step.Forward?
    ensures Serves(sys, sys', step, m)
  {
    hide PointsInto, RoutesFree, BrokerFree;
  }

  lemma IdentifyServes(sys: Sys, sys': Sys, step: Step, m: Message)
    requires Domains(sys) && Enabled(sys, step) && sys' == Next(sys, step) && Handles(sys, step.t, m)
    requires step.ReplaceMeta? || step.ClaimDeclared? || step.Acknowledge?
    ensures Serves(sys, sys', step, m)
  {
    hide PointsInto, RoutesFree, BrokerFree, Claim, FeatureMap, FeatureNames;
    ForwardedInFull(m);
    hide Passes, EncodeAck;
  }

  /** Registering and removing send nothing, and neither does a loop over topics. */
  lemma QuietServes(sys: Sys, sys': Sys, step: Step, m: Message)
    requires Domains(sys) && Enabled(sys, step) && sys' == Next(sys, step) && Handles(sys, step.t, m)
    requires !Begins(step) && !Reads(step) && !step.ReplaceMeta? && !step.ClaimDeclared? && !step.Acknowledge?
    ensures Serves(sys, sys', step, m)
  {
    hide Serves;
    if step.Store? || step.ReadFeatures? || step.ClaimExisting? || step.DropSubscription? || step.EndDrop? || step.ReleaseRoutes? {
      ComingAndGoingServes(sys, sys', step, m);
    } else {
      LoopServes(sys, sys', step, m);
    }
  }

  lemma ComingAndGoingServes(sys: Sys, sys': Sys, step: Step, m: Message)
    requires Domains(sys) && Enabled(sys, step) && sys' == Next(sys, step) && Handles(sys, step.t, m)
    requires step.Store? || step.ReadFeatures? || step.ClaimExisting? || step.DropSubscription? || step.EndDrop? || step.ReleaseRoutes?
    ensures Serves(sys, sys', step, m)
  {
    hide PointsInto, RoutesFree, BrokerFree, Claim, FeatureNames, AcceptedNames, BrokerDel, Domains;
  }

  lemma LoopServes(sys: Sys, sys': Sys, step: Step, m: Message)
    requires Domains(sys) && Enabled(sys, step) && sys' == Next(sys, step) && Handles(sys, step.t, m)
    requires step.BrokerSubscribe? || step.MarkSubscribed? || step.BrokerUnsubscribe? || step.MarkUnsubscribed? || step.EndLoop?
    ensures Serves(sys, sys', step, m)
  {
    hide PointsInto, BrokerFree, BrokerAdd, BrokerDel, Domains;
  }

  lemma StepServes(sys: Sys, sys': Sys, step: Step, m: Message)
    requires Domains(sys) && Enabled(sys, step) && sys' == Next(sys, step) && Handles(sys, step.t, m) && !Begins(step)
    ensures Serves(sys, sys', step, m)
  {
    hide Domains, Enabled, Next, Handles, Serves;
    if Reads(step) {
      ReadServes(sys, sys', step, m);
    } else if step.ReplaceMeta? || step.ClaimDeclared? || step.Acknowledge? {
      IdentifyServes(sys, sys', step, m);
    } else {
      QuietServes(sys, sys', step, m);
    }
  }

  /** Reading a message leaves to be served exactly whom it is for. */
  lemma ReceiveOwes(sys: Sys, t: Conn, msg: Message, c: Conn)
    requires Domains(sys) && Core(sys) && Enabled(sys, Receive(t, msg))
    ensures t in sys.s.meta && t in DoReceive(sys, t, msg).pc
    ensures var m := msg.(sender := sys.s.meta[t].id);
      && Handles(DoReceive(sys, t, msg), t, m)
      && (c in Unserved(DoReceive(sys, t, msg), t) <==> IsFor(sys.s, m, c))
  {
    hide PointsInto, IdsFresh, RegistryCoherent, OwnClients, BrokerBacked, SubsBacked, RoutesHeld;
    OwnLookup(sys, t);
  }

  /** The step writes this message to this client. */
  ghost predicate Writes(sys: Sys, step: Step, c: Conn, got: Message) {
    Domains(sys) && Enabled(sys, step) && Written(sys, step) == Some((c, got))
  }

  /** Up to step i, a client that is unserved has not been written to, and one that is not has been once if it was at first. */
  ghost predicate ServedSoFar(first: Sys, states: seq<Sys>, steps: seq<Step>, t: Conn, m: Message, i: nat, c: Conn)
    requires i < |states| && i <= |steps| && t in first.pc && t in states[i].pc
  {
    && (forall k, got :: 0 <= k < i && Writes(states[k], steps[k], c, got) ==> Passes(got, m))
    && (forall k, l, got, got' ::
          0 <= k < i && 0 <= l < i && Writes(states[k], steps[k], c, got) && Writes(states[l], steps[l], c, got') ==> k == l)
    && (c in Unserved(states[i], t) ==> c in Unserved(first, t) && forall k, got :: 0 <= k < i ==> !Writes(states[k], steps[k], c, got))
    && (c !in Unserved(states[i], t) ==>
          (c in Unserved(first, t) <==> exists k, got :: 0 <= k < i && Writes(states[k], steps[k], c, got)))
  }

  lemma {:induction false} AloneServes(first: Sys, states: seq<Sys>, steps: seq<Step>, t: Conn, m: Message, i: nat, c: Conn)
    requires Alone(first, states, steps, t) && i < |states| && Core(first) && t in first.pc && Handles(first, t, m)
    ensures t in states[i].pc && Handles(states[i], t, m)
    ensures ServedSoFar(first, states, steps, t, m, i, c)
  {
    hide Core, Next, Enabled, Domains, Handles, Unserved, Written, Passes, Ready;
    if i > 0 {
      AloneServes(first, states, steps, t, m, i - 1, c);
      AloneFinishesTheSame(first, states, steps, t, i - 1);
      CoreReady(states[i - 1], t);
      StepServes(states[i - 1], states[i], steps[i - 1], m);
      OneServedMore(first, states, steps, t, m, i, c);
    }
  }

  lemma OneServedMore(first: Sys, states: seq<Sys>, steps: seq<Step>, t: Conn, m: Message, i: nat, c: Conn)
    requires 0 < i < |states| && i <= |steps| && t in first.pc && t in states[i - 1].pc && t in states[i].pc && steps[i - 1].t == t
    requires ServedSoFar(first, states, steps, t, m, i - 1, c)
    requires Domains(states[i - 1]) && Enabled(states[i - 1], steps[i - 1]) && Serves(states[i - 1], states[i], steps[i - 1], m)
    ensures ServedSoFar(first, states, steps, t, m, i, c)
  {
    hide Next, Enabled, Domains, Handles, Unserved, Written, Passes;
    var before, step := states[i - 1], steps[i - 1];
    if w :| Written(before, step) == Some(w) && w.0 == c {
      assert Writes(before, step, c, w.1);
    } else {
      assert forall got :: !Writes(before, step, c, got);
      assert c in Unserved(states[i], t) <==> c in Unserved(before, t);
    }
  }

  /**
   A message that a connection reads and handles without interruption, in whatever order its loops go, is written
   to each client that it is for, once, and to nobody else; an identify is acknowledged instead.
   */
  lemma SentAloneInFull(sys: Sys, t: Conn, msg: Message, states: seq<Sys>, steps: seq<Step>, end: Sys, c: Conn)
    requires Domains(sys) && Enabled(sys, Receive(t, msg)) && Core(sys)
    requires Alone(DoReceive(sys, t, msg), states, steps, t) && end == states[|steps|]
    requires t in end.pc && end.pc[t].Idle?
    ensures t in sys.s.meta
    ensures var m := msg.(sender := sys.s.meta[t].id);
      && (IsFor(sys.s, m, c) <==> exists k, got :: 0 <= k < |steps| && Writes(states[k], steps[k], c, got))
      && (forall k, got :: 0 <= k < |steps| && Writes(states[k], steps[k], c, got) ==> Passes(got, m))
      && (forall k, l, got, got' ::
            0 <= k < |steps| && 0 <= l < |steps| && Writes(states[k], steps[k], c, got) && Writes(states[l], steps[l], c, got') ==>
            k == l)
  {
    hide Core, Domains, Alone, Writes, Handles, Passes, IsFor;
    var first := DoReceive(sys, t, msg);
    NextKeepsCore(sys, Receive(t, msg));
    CoreReady(sys, t);
    ReceiveOwes(sys, t, msg, c);
    AloneEnds(first, states, steps, t);
    AloneServes(first, states, steps, t, msg.(sender := sys.s.meta[t].id), |steps|, c);
  }

  lemma AloneEnds(first: Sys, states: seq<Sys>, steps: seq<Step>, t: Conn)
    requires Alone(first, states, steps, t)
    ensures |states| == |steps| + 1
  {
  }
}
