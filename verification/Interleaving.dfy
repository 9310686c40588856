/**
 Any number of TCP or WebSocket connections, interleaved at the server's critical sections
 (server/server.go, server/broker.go, server/tcpTransport.go). A connection's own messages and its
 disconnect run in sequence; between any two critical sections every other connection may move.

 A reader of the routing table or of the broker keeps its lock from one step to a later one, so the
 steps that write these two wait until nobody reads.
 */
module Interleaving {
  import opened Proto
  import opened ServerState

  /** A connection and, at the same time, the one client object made for it. */
  type Conn = nat

  /** Where a connection's goroutine is, between two critical sections. */
  datatype Pc =
    | Created                                      // accepted; RegisterDevice not begun
    | Stored                                       // in the registry
    | RegisterClaim(names: set<Topic>)             // Features read, routes not yet claimed
    | Idle                                         // reading the next line
    | IdentifyFound(c: Conn, p: IdentifyPayload)   // sender looked up, payload validated
    | IdentifyStored(c: Conn)                      // metadata replaced, routes not yet claimed
    | IdentifyClaimed(c: Conn)                     // acknowledgement not yet sent
    | Subscribing(c: Conn, topics: seq<Topic>)
    | SubscribeHalf(c: Conn, topics: seq<Topic>)   // topics[0] is in the broker, not yet in Subs
    | Unsubscribing(c: Conn, topics: seq<Topic>)
    | UnsubscribeHalf(c: Conn, topics: seq<Topic>) // topics[0] is out of the broker, still in Subs
    | Publishing(msg: Message, remaining: set<Conn>)
    | Routing(msg: Message)                        // routing table locked for reading
    | RouteFound(msg: Message, id: Id)
    | RouteTo(msg: Message, c: Conn)
    | RespondTo(msg: Message, c: Conn)
    | RemoveSubs(left: set<Topic>)                 // out of the registry, leaving the broker
    | RemoveRoutes                                 // out of the broker, routes not yet released
    | Gone

  /** A send of a published message to one client, and whether it succeeded. */
  datatype Attempt = Attempt(msg: Message, from: Conn, ok: bool)

  /** A handled data or status message and the subscriber set at the moment the broker was locked. */
  datatype Publication = Publication(msg: Message, to: set<Conn>)

  datatype Sys = Sys(
    s: State<Conn>,
    pc: map<Conn, Pc>,
    issued: map<Id, Conn>,                         // which connection got which id; ids are fresh
    attempts: map<Conn, seq<Attempt>>,
    published: map<Conn, seq<Publication>>)

  /** One critical section, or the move to the next one, of connection t. */
  datatype Step =
    | Accept(t: Conn, id: Id, features: map<string, Feature>)
    // RegisterDevice
    | Store(t: Conn)
    | ReadFeatures(t: Conn)
    | ClaimExisting(t: Conn)
    // the first critical section of Handle
    | Receive(t: Conn, msg: Message)
    // handleIdentify
    | ReplaceMeta(t: Conn)
    | ClaimDeclared(t: Conn)
    | Acknowledge(t: Conn)
    // handleSubscription, one topic of its loop at a time
    | BrokerSubscribe(t: Conn)
    | MarkSubscribed(t: Conn)
    | BrokerUnsubscribe(t: Conn)
    | MarkUnsubscribed(t: Conn)
    | EndLoop(t: Conn)
    // Publish, one send at a time
    | PublishTo(t: Conn, c: Conn, ok: bool)
    | EndPublish(t: Conn)
    // handleCommand and handleQuery
    | LookupRoute(t: Conn)
    | LookupOwner(t: Conn)
    | Forward(t: Conn)
    // RemoveDevice
    | Disconnect(t: Conn)
    | DropSubscription(t: Conn, topic: Topic)
    | EndDrop(t: Conn)
    | ReleaseRoutes(t: Conn)

  const INITIAL: Sys := Sys(State(map[], map[], map[], map[]), map[], map[], map[], map[])

  // ---------- the steps ----------

  predicate ReadsRoutes(pc: Pc) {
    pc.Routing? || pc.RouteFound? || pc.RouteTo?
  }

  ghost predicate RoutesFree(sys: Sys) {
    forall x :: x in sys.pc ==> !ReadsRoutes(sys.pc[x])
  }

  ghost predicate BrokerFree(sys: Sys) {
    forall x :: x in sys.pc ==> !sys.pc[x].Publishing?
  }

  ghost predicate Enabled(sys: Sys, step: Step) {
    match step
    case Accept(t, id, features) => t !in sys.pc && id !in sys.issued
    case Store(t) => t in sys.pc && sys.pc[t].Created?
    case ReadFeatures(t) => t in sys.pc && sys.pc[t].Stored?
    case ClaimExisting(t) => t in sys.pc && sys.pc[t].RegisterClaim? && RoutesFree(sys)
    case Receive(t, msg) => t in sys.pc && sys.pc[t].Idle?
    case ReplaceMeta(t) => t in sys.pc && sys.pc[t].IdentifyFound?
    case ClaimDeclared(t) => t in sys.pc && sys.pc[t].IdentifyStored? && RoutesFree(sys)
    case Acknowledge(t) => t in sys.pc && sys.pc[t].IdentifyClaimed?
    case BrokerSubscribe(t) => t in sys.pc && sys.pc[t].Subscribing? && sys.pc[t].topics != [] && BrokerFree(sys)
    case MarkSubscribed(t) => t in sys.pc && sys.pc[t].SubscribeHalf?
    case BrokerUnsubscribe(t) => t in sys.pc && sys.pc[t].Unsubscribing? && sys.pc[t].topics != [] && BrokerFree(sys)
    case MarkUnsubscribed(t) => t in sys.pc && sys.pc[t].UnsubscribeHalf?
    case EndLoop(t) => t in sys.pc && (sys.pc[t].Subscribing? || sys.pc[t].Unsubscribing?) && sys.pc[t].topics == []
    case PublishTo(t, c, ok) => t in sys.pc && sys.pc[t].Publishing? && c in sys.pc[t].remaining
    case EndPublish(t) => t in sys.pc && sys.pc[t].Publishing? && sys.pc[t].remaining == {}
    case LookupRoute(t) => t in sys.pc && sys.pc[t].Routing?
    case LookupOwner(t) => t in sys.pc && sys.pc[t].RouteFound?
    case Forward(t) => t in sys.pc && (sys.pc[t].RouteTo? || sys.pc[t].RespondTo?)
    case Disconnect(t) => t in sys.pc && sys.pc[t].Idle?
    case DropSubscription(t, topic) => t in sys.pc && sys.pc[t].RemoveSubs? && topic in sys.pc[t].left && BrokerFree(sys)
    case EndDrop(t) => t in sys.pc && sys.pc[t].RemoveSubs? && sys.pc[t].left == {}
    case ReleaseRoutes(t) => t in sys.pc && sys.pc[t].RemoveRoutes? && RoutesFree(sys)
  }

  function Goto(sys: Sys, t: Conn, pc: Pc): Sys {
    sys.(pc := sys.pc[t := pc])
  }

  /** The first critical section of a message: look the sender or recipient up, or lock what will be read. */
  function Dispatch(s: State<Conn>, msg: Message): Pc {
    match msg.kind
    case "identify" =>
      if msg.sender in s.registry && msg.payload.asIdentify.Some?
      then IdentifyFound(s.registry[msg.sender], msg.payload.asIdentify.value) else Idle
    case "subscribe" =>
      if msg.sender in s.registry && msg.payload.asSubscription.Some?
      then Subscribing(s.registry[msg.sender], msg.payload.asSubscription.value) else Idle
    case "unsubscribe" =>
      if msg.sender in s.registry && msg.payload.asSubscription.Some?
      then Unsubscribing(s.registry[msg.sender], msg.payload.asSubscription.value) else Idle
    case "data" => Publishing(msg, Members(s.broker, msg.topic))
    case "status" => Publishing(msg, Members(s.broker, msg.topic))
    case "command" => Routing(msg)
    case "query" => Routing(msg)
    case "response" =>
      if msg.recipient != "" && msg.recipient in s.registry then RespondTo(msg, s.registry[msg.recipient]) else Idle
    case _ => Idle
  }

  /** Whoever a program counter points at exists. */
  ghost predicate PointsInto(pc: Pc, conns: set<Conn>) {
    match pc
    case IdentifyFound(c, p) => c in conns
    case IdentifyStored(c) => c in conns
    case IdentifyClaimed(c) => c in conns
    case Subscribing(c, topics) => c in conns
    case SubscribeHalf(c, topics) => c in conns && topics != []
    case Unsubscribing(c, topics) => c in conns
    case UnsubscribeHalf(c, topics) => c in conns && topics != []
    case Publishing(msg, remaining) => remaining <= conns
    case RouteTo(msg, c) => c in conns
    case RespondTo(msg, c) => c in conns
    case _ => true
  }

  ghost predicate Domains(sys: Sys) {
    && sys.pc.Keys == sys.s.meta.Keys == sys.attempts.Keys == sys.published.Keys
    && forall t :: t in sys.pc ==> PointsInto(sys.pc[t], sys.pc.Keys)
  }

  function SetMeta(sys: Sys, c: Conn, m: Meta): Sys {
    sys.(s := sys.s.(meta := sys.s.meta[c := m]))
  }

  ghost function DoAccept(sys: Sys, t: Conn, id: Id, features: map<string, Feature>): Sys
    requires Domains(sys) && Enabled(sys, Accept(t, id, features))
  {
    Sys(sys.s.(meta := sys.s.meta[t := Meta(id, "", "", features, {})]),
        sys.pc[t := Created], sys.issued[id := t], sys.attempts[t := []], sys.published[t := []])
  }

  ghost function DoStore(sys: Sys, t: Conn): Sys
    requires Domains(sys) && Enabled(sys, Store(t))
  {
    Goto(sys.(s := sys.s.(registry := sys.s.registry[sys.s.meta[t].id := t])), t, Stored)
  }

  ghost function DoReadFeatures(sys: Sys, t: Conn): Sys
    requires Domains(sys) && Enabled(sys, ReadFeatures(t))
  {
    var features := sys.s.meta[t].features;
    Goto(sys, t, if |features| > 0 then RegisterClaim(AcceptedNames(features)) else Idle)
  }

  ghost function DoClaimExisting(sys: Sys, t: Conn): Sys
    requires Domains(sys) && Enabled(sys, ClaimExisting(t))
  {
    Goto(sys.(s := sys.s.(routes := Claim(sys.s.routes, sys.pc[t].names, sys.s.meta[t].id))), t, Idle)
  }

  ghost function DoReceive(sys: Sys, t: Conn, msg: Message): Sys
    requires Domains(sys) && Enabled(sys, Receive(t, msg))
  {
    var m := msg.(sender := sys.s.meta[t].id);
    var next := Dispatch(sys.s, m);
    if next.Publishing?
    then Goto(sys, t, next).(published := sys.published[t := sys.published[t] + [Publication(m, next.remaining)]])
    else Goto(sys, t, next)
  }

  ghost function DoReplaceMeta(sys: Sys, t: Conn): Sys
    requires Domains(sys) && Enabled(sys, ReplaceMeta(t))
  {
    var c, p := sys.pc[t].c, sys.pc[t].p;
    var m := Meta(sys.s.meta[t].id, p.proposedName, p.firmware, FeatureMap(p.features), sys.s.meta[c].subs);
    Goto(SetMeta(sys, c, m), t, IdentifyStored(c))
  }

  ghost function DoClaimDeclared(sys: Sys, t: Conn): Sys
    requires Domains(sys) && Enabled(sys, ClaimDeclared(t))
  {
    var c := sys.pc[t].c;
    var m := sys.s.meta[c];
    Goto(sys.(s := sys.s.(routes := Claim(sys.s.routes, FeatureNames(m.features), m.id))), t, IdentifyClaimed(c))
  }

  ghost function DoAcknowledge(sys: Sys, t: Conn): Sys
    requires Domains(sys) && Enabled(sys, Acknowledge(t))
  {
    Goto(sys, t, Idle)
  }

  ghost function DoBrokerSubscribe(sys: Sys, t: Conn): Sys
    requires Domains(sys) && Enabled(sys, BrokerSubscribe(t))
  {
    var c, topics := sys.pc[t].c, sys.pc[t].topics;
    Goto(sys.(s := sys.s.(broker := BrokerAdd(sys.s.broker, topics[0], c))), t, SubscribeHalf(c, topics))
  }

  ghost function DoMarkSubscribed(sys: Sys, t: Conn): Sys
    requires Domains(sys) && Enabled(sys, MarkSubscribed(t))
  {
    var c, topics := sys.pc[t].c, sys.pc[t].topics;
    var m := sys.s.meta[c];
    Goto(SetMeta(sys, c, m.(subs := m.subs + {topics[0]})), t, Subscribing(c, topics[1..]))
  }

  ghost function DoBrokerUnsubscribe(sys: Sys, t: Conn): Sys
    requires Domains(sys) && Enabled(sys, BrokerUnsubscribe(t))
  {
    var c, topics := sys.pc[t].c, sys.pc[t].topics;
    Goto(sys.(s := sys.s.(broker := BrokerDel(sys.s.broker, topics[0], c))), t, UnsubscribeHalf(c, topics))
  }

  ghost function DoMarkUnsubscribed(sys: Sys, t: Conn): Sys
    requires Domains(sys) && Enabled(sys, MarkUnsubscribed(t))
  {
    var c, topics := sys.pc[t].c, sys.pc[t].topics;
    var m := sys.s.meta[c];
    Goto(SetMeta(sys, c, m.(subs := m.subs - {topics[0]})), t, Unsubscribing(c, topics[1..]))
  }

  ghost function DoEndLoop(sys: Sys, t: Conn): Sys
    requires Domains(sys) && Enabled(sys, EndLoop(t))
  {
    Goto(sys, t, Idle)
  }

  ghost function DoPublishTo(sys: Sys, t: Conn, c: Conn, ok: bool): Sys
    requires Domains(sys) && Enabled(sys, PublishTo(t, c, ok))
  {
    var msg, remaining := sys.pc[t].msg, sys.pc[t].remaining;
    Goto(sys, t, Publishing(msg, remaining - {c})).(attempts := sys.attempts[c := sys.attempts[c] + [Attempt(msg, t, ok)]])
  }

  ghost function DoEndPublish(sys: Sys, t: Conn): Sys
    requires Domains(sys) && Enabled(sys, EndPublish(t))
  {
    Goto(sys, t, Idle)
  }

  ghost function DoLookupRoute(sys: Sys, t: Conn): Sys
    requires Domains(sys) && Enabled(sys, LookupRoute(t))
  {
    var msg := sys.pc[t].msg;
    Goto(sys, t, if msg.topic in sys.s.routes then RouteFound(msg, sys.s.routes[msg.topic]) else Idle)
  }

  ghost function DoLookupOwner(sys: Sys, t: Conn): Sys
    requires Domains(sys) && Enabled(sys, LookupOwner(t))
  {
    var msg, id := sys.pc[t].msg, sys.pc[t].id;
    Goto(sys, t, if id in sys.s.registry then RouteTo(msg, sys.s.registry[id]) else Idle)
  }

  ghost function DoForward(sys: Sys, t: Conn): Sys
    requires Domains(sys) && Enabled(sys, Forward(t))
  {
    Goto(sys, t, Idle)
  }

  ghost function DoDisconnect(sys: Sys, t: Conn): Sys
    requires Domains(sys) && Enabled(sys, Disconnect(t))
  {
    var m := sys.s.meta[t];
    Goto(sys.(s := sys.s.(registry := sys.s.registry - {m.id})), t, RemoveSubs(m.subs))
  }

  ghost function DoDropSubscription(sys: Sys, t: Conn, topic: Topic): Sys
    requires Domains(sys) && Enabled(sys, DropSubscription(t, topic))
  {
    Goto(sys.(s := sys.s.(broker := BrokerDel(sys.s.broker, topic, t))), t, RemoveSubs(sys.pc[t].left - {topic}))
  }

  ghost function DoEndDrop(sys: Sys, t: Conn): Sys
    requires Domains(sys) && Enabled(sys, EndDrop(t))
  {
    Goto(sys, t, RemoveRoutes)
  }

  ghost function DoReleaseRoutes(sys: Sys, t: Conn): Sys
    requires Domains(sys) && Enabled(sys, ReleaseRoutes(t))
  {
    Goto(sys.(s := sys.s.(routes := sys.s.routes - FeatureNames(sys.s.meta[t].features))), t, Gone)
  }

  ghost function Next(sys: Sys, step: Step): Sys
    requires Domains(sys) && Enabled(sys, step)
  {
    match step
    case Accept(t, id, features) => DoAccept(sys, t, id, features)
    case Store(t) => DoStore(sys, t)
    case ReadFeatures(t) => DoReadFeatures(sys, t)
    case ClaimExisting(t) => DoClaimExisting(sys, t)
    case Receive(t, msg) => DoReceive(sys, t, msg)
    case ReplaceMeta(t) => DoReplaceMeta(sys, t)
    case ClaimDeclared(t) => DoClaimDeclared(sys, t)
    case Acknowledge(t) => DoAcknowledge(sys, t)
    case BrokerSubscribe(t) => DoBrokerSubscribe(sys, t)
    case MarkSubscribed(t) => DoMarkSubscribed(sys, t)
    case BrokerUnsubscribe(t) => DoBrokerUnsubscribe(sys, t)
    case MarkUnsubscribed(t) => DoMarkUnsubscribed(sys, t)
    case EndLoop(t) => DoEndLoop(sys, t)
    case PublishTo(t, c, ok) => DoPublishTo(sys, t, c, ok)
    case EndPublish(t) => DoEndPublish(sys, t)
    case LookupRoute(t) => DoLookupRoute(sys, t)
    case LookupOwner(t) => DoLookupOwner(sys, t)
    case Forward(t) => DoForward(sys, t)
    case Disconnect(t) => DoDisconnect(sys, t)
    case DropSubscription(t, topic) => DoDropSubscription(sys, t, topic)
    case EndDrop(t) => DoEndDrop(sys, t)
    case ReleaseRoutes(t) => DoReleaseRoutes(sys, t)
  }

  /** The identify about to take effect keeps declaring every topic that is routed to its connection. */
  ghost predicate KeepsOwnRoutes(sys: Sys, step: Step)
    requires Domains(sys) && Enabled(sys, step)
  {
    step.ReplaceMeta? ==>
      forall topic :: topic in sys.s.routes && sys.s.routes[topic] == sys.s.meta[step.t].id ==>
        topic in FeatureMap(sys.pc[step.t].p.features)
  }

  // ---------- what every step keeps ----------

  /** Phases in which the client is stored in the registry. */
  predicate Registered(pc: Pc) {
    !pc.Created? && !pc.RemoveSubs? && !pc.RemoveRoutes? && !pc.Gone?
  }

  /** Phases after the first and before the last step of RemoveDevice. */
  predicate Leaving(pc: Pc) {
    pc.RemoveSubs? || pc.RemoveRoutes?
  }

  /** Ids are handed out once, so id and connection determine each other. */
  ghost predicate IdsFresh(sys: Sys) {
    && (forall t :: t in sys.s.meta ==> sys.s.meta[t].id in sys.issued && sys.issued[sys.s.meta[t].id] == t)
    && (forall id :: id in sys.issued ==> sys.issued[id] in sys.s.meta && sys.s.meta[sys.issued[id]].id == id)
  }

  ghost predicate RegistryCoherent(sys: Sys) {
    && (forall id :: id in sys.s.registry ==> id in sys.issued && sys.s.registry[id] == sys.issued[id])
    && (forall t :: t in sys.pc && t in sys.s.meta ==> (Registered(sys.pc[t]) <==> sys.s.meta[t].id in sys.s.registry))
  }

  /** A handler works on the client of its own connection. */
  ghost predicate OwnClient(t: Conn, pc: Pc, m: Meta) {
    match pc
    case Created => m.subs == {}
    case RegisterClaim(names) => names == AcceptedNames(m.features)
    case IdentifyFound(c, p) => c == t
    case IdentifyStored(c) => c == t && WellKeyed(m.features)
    case IdentifyClaimed(c) => c == t
    case Subscribing(c, topics) => c == t
    case SubscribeHalf(c, topics) => c == t
    case Unsubscribing(c, topics) => c == t
    case UnsubscribeHalf(c, topics) => c == t
    case _ => true
  }

  ghost predicate OwnClients(sys: Sys) {
    forall t :: t in sys.pc && t in sys.s.meta ==> OwnClient(t, sys.pc[t], sys.s.meta[t])
  }

  predicate InProgress(topics: seq<Topic>, topic: Topic) {
    topics != [] && topic == topics[0]
  }

  /** The topics a client may be in the broker for. */
  ghost predicate MaySubscribe(pc: Pc, subs: set<Topic>, topic: Topic) {
    match pc
    case SubscribeHalf(c, topics) => topic in subs || InProgress(topics, topic)
    case UnsubscribeHalf(c, topics) => topic in subs && !InProgress(topics, topic)
    case RemoveSubs(left) => topic in left
    case RemoveRoutes => false
    case Gone => false
    case _ => topic in subs
  }

  ghost predicate BrokerBacked(sys: Sys) {
    forall topic :: topic in sys.s.broker ==>
      sys.s.broker[topic] != {} &&
      forall c :: c in sys.s.broker[topic] ==>
        c in sys.pc && c in sys.s.meta && MaySubscribe(sys.pc[c], sys.s.meta[c].subs, topic)
  }

  /** The topics a client must be in the broker for. */
  predicate MustSubscribe(pc: Pc, subs: set<Topic>, topic: Topic) {
    match pc
    case SubscribeHalf(c, topics) => topic in subs || InProgress(topics, topic)
    case UnsubscribeHalf(c, topics) => topic in subs && !InProgress(topics, topic)
    case _ => Registered(pc) && topic in subs
  }

  ghost predicate SubsBacked(sys: Sys) {
    forall c, topic :: c in sys.pc && c in sys.s.meta && MustSubscribe(sys.pc[c], sys.s.meta[c].subs, topic) ==>
      c in Members(sys.s.broker, topic)
  }

  /** Every route leads to a connection that declares the topic and has begun to register and not finished leaving. */
  ghost predicate RoutesBacked(sys: Sys) {
    forall topic :: topic in sys.s.routes ==>
      && sys.s.routes[topic] in sys.issued
      && var o := sys.issued[sys.s.routes[topic]];
      && o in sys.pc && o in sys.s.meta
      && (Registered(sys.pc[o]) || Leaving(sys.pc[o]))
      && Declares(sys.s.meta[o], topic)
  }

  /** While the routing table is locked for reading, what was read from it is still there. */
  ghost predicate RouteHeld(sys: Sys, pc: Pc) {
    match pc
    case RouteFound(msg, id) => msg.topic in sys.s.routes && sys.s.routes[msg.topic] == id
    case RouteTo(msg, c) => msg.topic in sys.s.routes && c in sys.s.meta && sys.s.routes[msg.topic] == sys.s.meta[c].id
    case _ => true
  }

  ghost predicate RoutesHeld(sys: Sys) {
    forall t :: t in sys.pc ==> RouteHeld(sys, sys.pc[t])
  }

  /** What needs no hypothesis on the clients at all. */
  ghost predicate Core(sys: Sys) {
    && Domains(sys) && IdsFresh(sys) && RegistryCoherent(sys) && OwnClients(sys)
    && BrokerBacked(sys) && SubsBacked(sys) && RoutesHeld(sys)
  }

  ghost predicate Inv(sys: Sys) {
    Core(sys) && RoutesBacked(sys)
  }
}
