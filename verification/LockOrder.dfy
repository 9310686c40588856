/**
 Deadlock freedom of the server's handlers and read services with TCP and WebSocket clients. Threads
 run any sequence of calls; every lock is a Go sync.RWMutex, in which a waiting writer blocks new readers.
 */
module LockOrder {
  /** The locks: one routing-table lock, one registry lock, one metadata lock a client, the broker's, one client-map lock a transport. */
  datatype Lock = TopicSources | Registry | Meta(client: nat) | Broker | TransportClients(transport: nat)

  datatype Mode = Read | Write

  /** An access reads or writes the structure that the lock is there for. */
  datatype Op = Acquire(lock: Lock, mode: Mode) | Release(lock: Lock) | Access(lock: Lock, mode: Mode)

  function Rank(l: Lock): nat {
    match l
    case TopicSources => 0
    case Registry => 1
    case Meta(_) => 2
    case Broker => 3
    case TransportClients(_) => 4
  }

  // ---------- what every call does to locks and structures, in program order ----------

  /** The branches one GetFeature takes; a subscriber is a client and the transport it came in on. */
  datatype TopicRead = TopicRead(routed: bool, registered: bool, owner: nat, declared: bool, subscribers: seq<(nat, nat)>)

  /** Which of its branches a call takes, and how often its loops go round. */
  datatype Call =
    | RegisterDevice(client: nat, hasFeatures: bool)
    | RemoveDevice(client: nat, subs: nat)
    | HandleIdentify(known: bool, valid: bool, client: nat)
    | HandleSubscription(known: bool, valid: bool, client: nat, topics: nat)
    | HandleData
    | HandleRouted(routed: bool)
    | HandleResponse(hasRecipient: bool)
    | GetTopicSources
    | GetFeature(topic: TopicRead)
    | ListFeatures(all: seq<TopicRead>)
    | GetFeaturesForDevice(registered: bool, device: nat, perTopic: seq<seq<(nat, nat)>>)
    | ListDevices(devices: seq<(nat, nat)>)
    | GetDevice(registered: bool, who: (nat, nat))
    | RenameDevice(registered: bool, device: nat)
    | ReadDevice(registered: bool, device: nat)
    | DescribeTransport(transport: nat, clients: seq<(nat, nat)>)
    | UpdateTransport(transport: nat)
    | CountTransportClients(transport: nat)
    | TransportStats(transport: nat)

  function Under(l: Lock, mode: Mode, inner: seq<Op>): seq<Op> {
    [Acquire(l, mode)] + inner + [Release(l)]
  }

  function Locked(l: Lock, mode: Mode): seq<Op> {
    Under(l, mode, [Access(l, mode)])
  }

  function Times(ops: seq<Op>, n: nat): seq<Op> {
    if n == 0 then [] else Times(ops, n - 1) + ops
  }

  /** convertDeviceMetadata: the transport's Meta() is read under the client's metadata lock. */
  function Convert(client: nat, transport: nat): seq<Op> {
    Under(Meta(client), Read, Locked(TransportClients(transport), Read) + [Access(Meta(client), Read)])
  }

  function ConvertAll(clients: seq<(nat, nat)>): seq<Op> {
    if clients == [] then []
    else ConvertAll(clients[..|clients| - 1]) + Convert(clients[|clients| - 1].0, clients[|clients| - 1].1)
  }

  function Subscribers(clients: seq<(nat, nat)>): seq<Op> {
    Locked(Broker, Read) + ConvertAll(clients)
  }

  /** The device's name is read for each of its features, after its metadata lock was released. */
  function SubscribersOfAll(device: nat, perTopic: seq<seq<(nat, nat)>>): seq<Op> {
    if perTopic == [] then []
    else SubscribersOfAll(device, perTopic[..|perTopic| - 1]) + (Subscribers(perTopic[|perTopic| - 1]) + [Access(Meta(device), Read)])
  }

  function GetFeatureOps(topic: TopicRead): seq<Op> {
    Locked(TopicSources, Read) + if topic.routed then LookupOps(topic) else []
  }

  function LookupOps(topic: TopicRead): seq<Op> {
    Locked(Registry, Read) + if topic.registered then FoundOps(topic) else []
  }

  function FoundOps(topic: TopicRead): seq<Op> {
    Locked(Meta(topic.owner), Read) + if topic.declared then Subscribers(topic.subscribers) else []
  }

  function GetFeaturesOps(topics: seq<TopicRead>): seq<Op> {
    if topics == [] then [] else GetFeaturesOps(topics[..|topics| - 1]) + GetFeatureOps(topics[|topics| - 1])
  }

  /** The client's Subs are read, and it leaves each of its n sets in the broker. */
  function LeaveBroker(client: nat, n: nat): seq<Op> {
    Under(Meta(client), Read, [Access(Meta(client), Read)] + Times(Locked(Broker, Write), n))
  }

  /** For each of n topics, the broker's set and then the client's Subs are written. */
  function WriteSubs(client: nat, n: nat): seq<Op> {
    Under(Meta(client), Write, Times(Locked(Broker, Write) + [Access(Meta(client), Write)], n))
  }

  /** Routes are claimed or released for the features, or under the id, that the client's metadata hold by now. */
  function WriteRoutes(client: nat): seq<Op> {
    Under(TopicSources, Write, [Access(Meta(client), Read), Access(TopicSources, Write)])
  }

  /** Reads of an id for a log line are left out. */
  function Ops(call: Call): seq<Op> {
    match call
    case RegisterDevice(client, hasFeatures) =>
      Under(Registry, Write, [Access(Meta(client), Read), Access(Registry, Write)])
      + (Locked(Meta(client), Read) + if hasFeatures then WriteRoutes(client) else [])
    case RemoveDevice(client, subs) =>
      [Access(Meta(client), Read)] + (Locked(Registry, Write) + (LeaveBroker(client, subs) + WriteRoutes(client)))
    case HandleIdentify(known, valid, client) =>
      Locked(Registry, Read)
      + if known && valid then Locked(Meta(client), Write) + (WriteRoutes(client) + [Access(Meta(client), Read)]) else []
    case HandleSubscription(known, valid, client, topics) =>
      Locked(Registry, Read) + if known && valid then WriteSubs(client, topics) else []
    case HandleData => Locked(Broker, Read)
    case HandleRouted(routed) =>
      Under(TopicSources, Read, [Access(TopicSources, Read)] + if routed then Locked(Registry, Read) else [])
    case HandleResponse(hasRecipient) => if hasRecipient then Locked(Registry, Read) else []
    case GetTopicSources => Locked(TopicSources, Read)
    case GetFeature(topic) => GetFeatureOps(topic)
    case ListFeatures(all) => Locked(TopicSources, Read) + GetFeaturesOps(all)
    case GetFeaturesForDevice(registered, device, perTopic) =>
      Locked(Registry, Read) + if registered then Locked(Meta(device), Read) + SubscribersOfAll(device, perTopic) else []
    case ListDevices(devices) => Locked(Registry, Read) + ConvertAll(devices)
    case GetDevice(registered, who) => Locked(Registry, Read) + if registered then Convert(who.0, who.1) else []
    case RenameDevice(registered, device) => Locked(Registry, Read) + if registered then Locked(Meta(device), Write) else []
    case ReadDevice(registered, device) => Locked(Registry, Read) + if registered then Locked(Meta(device), Read) else []
    case DescribeTransport(transport, clients) =>
      Locked(TransportClients(transport), Read) + ([Access(TransportClients(transport), Read)] + ConvertAll(clients))
    case UpdateTransport(transport) => Locked(TransportClients(transport), Write)
    case CountTransportClients(transport) => Locked(TransportClients(transport), Read)
    case TransportStats(transport) => Locked(TransportClients(transport), Read) + [Access(TransportClients(transport), Read)]
  }

  // ---------- the rank discipline and guards ----------

  /** Run from these held locks, every acquisition is above all that is held, and everything is released at the end. */
  ghost predicate Ordered(held: set<Lock>, ops: seq<Op>)
    decreases |ops|
  {
    if ops == [] then held == {}
    else
      match ops[0]
      case Acquire(l, mode) => (forall h :: h in held ==> Rank(h) < Rank(l)) && Ordered(held + {l}, ops[1..])
      case Release(l) => l in held && Ordered(held - {l}, ops[1..])
      case Access(l, mode) => Ordered(held, ops[1..])
  }

  /** Reading needs the lock in either mode, writing needs it for writing. */
  predicate Covers(held: map<Lock, Mode>, l: Lock, mode: Mode) {
    l in held && (mode.Write? ==> held[l].Write?)
  }

  /** The accesses made without the lock that the structure has. */
  function Bare(held: map<Lock, Mode>, ops: seq<Op>): set<Op>
    decreases |ops|
  {
    if ops == [] then {}
    else
      match ops[0]
      case Acquire(l, mode) => Bare(held[l := mode], ops[1..])
      case Release(l) => Bare(held - {l}, ops[1..])
      case Access(l, mode) => (if Covers(held, l, mode) then {} else {ops[0]}) + Bare(held, ops[1..])
  }

  /** A stretch that starts and ends without locks, takes them in order, and makes exactly these accesses without the lock. */
  ghost predicate Sound(ops: seq<Op>, bare: set<Op>) {
    Ordered({}, ops) && Bare(map[], ops) == bare
  }

  lemma {:induction false} Concat(held: map<Lock, Mode>, a: seq<Op>, b: seq<Op>)
    requires Ordered(held.Keys, a) && Ordered({}, b)
    ensures Ordered(held.Keys, a + b) && Bare(held, a + b) == Bare(held, a) + Bare(map[], b)
    decreases |a|
  {
    if a == [] {
      assert a + b == b && held == map[];
    } else {
      assert (a + b)[1..] == a[1..] + b;
      match a[0]
      case Acquire(l, mode) =>
        assert held[l := mode].Keys == held.Keys + {l};
        Concat(held[l := mode], a[1..], b);
      case Release(l) =>
        assert (held - {l}).Keys == held.Keys - {l};
        Concat(held - {l}, a[1..], b);
      case Access(l, mode) => Concat(held, a[1..], b);
    }
  }

  /** What remains bare while l is held too. */
  function Uncovered(bare: set<Op>, l: Lock, mode: Mode): set<Op> {
    set op | op in bare && !(op.Access? && op.lock == l && (op.mode.Write? ==> mode.Write?))
  }

  /** A balanced stretch whose locks are all above l may run while l is held. */
  lemma {:induction false} OrderedWithin(l: Lock, held: set<Lock>, a: seq<Op>)
    requires l !in held && Ordered(held, a) && forall op :: op in a && !op.Access? ==> Rank(op.lock) > Rank(l)
    ensures Ordered(held + {l}, a + [Release(l)])
    decreases |a|
  {
    var b := [Release(l)];
    if a == [] {
      assert a + b == b && b[1..] == [];
      assert held + {l} - {l} == {};
    } else {
      assert a[0] in a && forall op :: op in a[1..] ==> op in a;
      assert (a + b)[1..] == a[1..] + b;
      match a[0]
      case Acquire(x, m) =>
        OrderedWithin(l, held + {x}, a[1..]);
        assert held + {x} + {l} == held + {l} + {x};
      case Release(x) =>
        OrderedWithin(l, held - {x}, a[1..]);
        assert held - {x} + {l} == held + {l} - {x};
      case Access(x, m) =>
        OrderedWithin(l, held, a[1..]);
    }
  }

  /** Holding l in this mode covers exactly the accesses to l's structure that the mode allows. */
  lemma {:induction false} BareWithin(l: Lock, mode: Mode, held: map<Lock, Mode>, a: seq<Op>)
    requires l !in held && forall op :: op in a && !op.Access? ==> Rank(op.lock) > Rank(l)
    ensures Bare(held[l := mode], a + [Release(l)]) == Uncovered(Bare(held, a), l, mode)
    decreases |a|
  {
    var b := [Release(l)];
    if a == [] {
      assert a + b == b && b[1..] == [];
    } else {
      assert a[0] in a && forall op :: op in a[1..] ==> op in a;
      assert (a + b)[1..] == a[1..] + b;
      match a[0]
      case Acquire(x, m) =>
        BareWithin(l, mode, held[x := m], a[1..]);
        assert held[l := mode][x := m] == held[x := m][l := mode];
      case Release(x) =>
        BareWithin(l, mode, held - {x}, a[1..]);
        assert held[l := mode] - {x} == (held - {x})[l := mode];
      case Access(x, m) =>
        BareWithin(l, mode, held, a[1..]);
    }
  }

  lemma UnderSound(l: Lock, mode: Mode, inner: seq<Op>, bare: set<Op>)
    requires Sound(inner, bare) && forall op :: op in inner && !op.Access? ==> Rank(op.lock) > Rank(l)
    ensures Sound(Under(l, mode, inner), Uncovered(bare, l, mode))
  {
    OrderedWithin(l, {}, inner);
    BareWithin(l, mode, map[], inner);
    assert Under(l, mode, inner)[1..] == inner + [Release(l)];
  }

  lemma ThenSound(a: seq<Op>, bare: set<Op>, b: seq<Op>, bare': set<Op>)
    requires Sound(a, bare) && Sound(b, bare')
    ensures Sound(a + b, bare + bare')
  {
    var empty: map<Lock, Mode> := map[];
    assert empty.Keys == {};
    Concat(empty, a, b);
  }

  lemma NothingSound()
    ensures Sound([], {})
  {
  }

  lemma AccessSound(l: Lock, mode: Mode)
    ensures Sound([Access(l, mode)], {Access(l, mode)})
  {
    assert [Access(l, mode)][1..] == [];
  }

  lemma LockedSound(l: Lock, mode: Mode)
    ensures Sound(Locked(l, mode), {})
  {
    hide Sound;
    AccessSound(l, mode);
    UnderSound(l, mode, [Access(l, mode)], {Access(l, mode)});
    assert Uncovered({Access(l, mode)}, l, mode) == {};
  }

  lemma {:induction false} TimesSound(ops: seq<Op>, bare: set<Op>, n: nat)
    requires Sound(ops, bare)
    ensures Sound(Times(ops, n), if n == 0 then {} else bare)
    ensures forall op :: op in Times(ops, n) <==> n > 0 && op in ops
  {
    hide Sound;
    if n == 0 {
      NothingSound();
    } else {
      TimesSound(ops, bare, n - 1);
      ThenSound(Times(ops, n - 1), if n == 1 then {} else bare, ops, bare);
      assert (if n == 1 then {} else bare) + bare == bare;
    }
  }

  lemma ConvertSound(client: nat, transport: nat)
    ensures Sound(Convert(client, transport), {})
  {
    hide Sound;
    var l := Meta(client);
    LockedSound(TransportClients(transport), Read);
    AccessSound(l, Read);
    ThenSound(Locked(TransportClients(transport), Read), {}, [Access(l, Read)], {Access(l, Read)});
    UnderSound(l, Read, Locked(TransportClients(transport), Read) + [Access(l, Read)], {} + {Access(l, Read)});
    assert Uncovered({} + {Access(l, Read)}, l, Read) == {};
  }

  lemma {:induction false} ConvertAllSound(clients: seq<(nat, nat)>)
    ensures Sound(ConvertAll(clients), {})
  {
    hide Sound, Convert;
    if clients == [] {
      NothingSound();
    } else {
      var front, last := clients[..|clients| - 1], clients[|clients| - 1];
      ConvertAllSound(front);
      ConvertSound(last.0, last.1);
      ThenSound(ConvertAll(front), {}, Convert(last.0, last.1), {});
      var none: set<Op> := {};
      assert none + none == none;
    }
  }

  /** Something after a structure was used under its own lock. */
  lemma AfterLocked(l: Lock, mode: Mode, b: seq<Op>, bare: set<Op>)
    requires Sound(b, bare)
    ensures Sound(Locked(l, mode) + b, bare)
  {
    hide Sound, Locked;
    LockedSound(l, mode);
    ThenSound(Locked(l, mode), {}, b, bare);
    assert {} + bare == bare;
  }

  lemma SubscribersSound(clients: seq<(nat, nat)>)
    ensures Sound(Subscribers(clients), {})
  {
    hide Sound;
    ConvertAllSound(clients);
    AfterLocked(Broker, Read, ConvertAll(clients), {});
  }

  lemma {:induction false} SubscribersOfAllSound(device: nat, perTopic: seq<seq<(nat, nat)>>)
    ensures Sound(SubscribersOfAll(device, perTopic), if perTopic == [] then {} else {Access(Meta(device), Read)})
  {
    hide Sound, Subscribers;
    if perTopic == [] {
      NothingSound();
    } else {
      var front, last := perTopic[..|perTopic| - 1], perTopic[|perTopic| - 1];
      var name := Access(Meta(device), Read);
      SubscribersOfAllSound(device, front);
      SubscribersSound(last);
      AccessSound(Meta(device), Read);
      ThenSound(Subscribers(last), {}, [name], {name});
      ThenSound(SubscribersOfAll(device, front), if front == [] then {} else {name}, Subscribers(last) + [name], {} + {name});
      assert (if front == [] then {} else {name}) + ({} + {name}) == {name};
    }
  }

  lemma GetFeatureSound(topic: TopicRead)
    ensures Sound(GetFeatureOps(topic), {})
  {
    hide Sound, Locked, Subscribers;
    NothingSound();
    SubscribersSound(topic.subscribers);
    AfterLocked(Meta(topic.owner), Read, if topic.declared then Subscribers(topic.subscribers) else [], {});
    AfterLocked(Registry, Read, if topic.registered then FoundOps(topic) else [], {});
    AfterLocked(TopicSources, Read, if topic.routed then LookupOps(topic) else [], {});
  }

  lemma {:induction false} GetFeaturesSound(topics: seq<TopicRead>)
    ensures Sound(GetFeaturesOps(topics), {})
  {
    hide Sound, GetFeatureOps;
    if topics == [] {
      NothingSound();
    } else {
      var front, last := topics[..|topics| - 1], topics[|topics| - 1];
      GetFeaturesSound(front);
      GetFeatureSound(last);
      ThenSound(GetFeaturesOps(front), {}, GetFeatureOps(last), {});
      var none: set<Op> := {};
      assert none + none == none;
    }
  }

  lemma LeaveBrokerSound(client: nat, n: nat)
    ensures Sound(LeaveBroker(client, n), {})
  {
    hide Sound, Times;
    var subs, l := Access(Meta(client), Read), Meta(client);
    LockedSound(Broker, Write);
    TimesSound(Locked(Broker, Write), {}, n);
    AccessSound(l, Read);
    ThenSound([subs], {subs}, Times(Locked(Broker, Write), n), {});
    UnderSound(l, Read, [subs] + Times(Locked(Broker, Write), n), {subs} + {});
    assert Uncovered({subs} + {}, l, Read) == {};
  }

  lemma WriteSubsSound(client: nat, n: nat)
    ensures Sound(WriteSubs(client, n), {})
  {
    hide Sound, Times;
    var subs, l := Access(Meta(client), Write), Meta(client);
    AccessSound(l, Write);
    AfterLocked(Broker, Write, [subs], {subs});
    TimesSound(Locked(Broker, Write) + [subs], {subs}, n);
    UnderSound(l, Write, Times(Locked(Broker, Write) + [subs], n), if n == 0 then {} else {subs});
    assert Uncovered(if n == 0 then {} else {subs}, l, Write) == {};
  }

  /** Two accesses under a lock that is for the second one's structure: the first stays bare. */
  lemma TwoUnder(l: Lock, mode: Mode, other: Lock)
    requires other != l
    ensures Sound(Under(l, mode, [Access(other, Read), Access(l, mode)]), {Access(other, Read)})
  {
    hide Sound;
    AccessSound(other, Read);
    AccessSound(l, mode);
    ThenSound([Access(other, Read)], {Access(other, Read)}, [Access(l, mode)], {Access(l, mode)});
    assert [Access(other, Read)] + [Access(l, mode)] == [Access(other, Read), Access(l, mode)];
    var bare := {Access(other, Read)} + {Access(l, mode)};
    UnderSound(l, mode, [Access(other, Read), Access(l, mode)], bare);
    assert Uncovered(bare, l, mode) == {Access(other, Read)};
  }

  /** Commands and queries look the owner up in the registry while the routing table is locked. */
  lemma RoutedSound(routed: bool)
    ensures Sound(Ops(HandleRouted(routed)), {})
  {
    hide Sound;
    var routes := Access(TopicSources, Read);
    var lookup := if routed then Locked(Registry, Read) else [];
    NothingSound();
    LockedSound(Registry, Read);
    AccessSound(TopicSources, Read);
    ThenSound([routes], {routes}, lookup, {});
    UnderSound(TopicSources, Read, [routes] + lookup, {routes} + {});
    assert Uncovered({routes} + {}, TopicSources, Read) == {};
  }

  /** The accesses that a call makes without the structure's own lock: reads of one client's metadata or one transport's client map. */
  function BareReads(call: Call): set<Op> {
    match call
    case RegisterDevice(client, hasFeatures) => {Access(Meta(client), Read)}
    case RemoveDevice(client, subs) => {Access(Meta(client), Read)}
    case HandleIdentify(known, valid, client) => if known && valid then {Access(Meta(client), Read)} else {}
    case GetFeaturesForDevice(registered, device, perTopic) => if registered && perTopic != [] then {Access(Meta(device), Read)} else {}
    case DescribeTransport(transport, clients) => {Access(TransportClients(transport), Read)}
    case TransportStats(transport) => {Access(TransportClients(transport), Read)}
    case _ => {}
  }

  lemma RegisterSound(client: nat, hasFeatures: bool)
    ensures Sound(Ops(RegisterDevice(client, hasFeatures)), BareReads(RegisterDevice(client, hasFeatures)))
  {
    hide Sound, Locked, Under;
    var id := Access(Meta(client), Read);
    var routes, bare := if hasFeatures then WriteRoutes(client) else [], if hasFeatures then {id} else {};
    NothingSound();
    TwoUnder(TopicSources, Write, Meta(client));
    AfterLocked(Meta(client), Read, routes, bare);
    TwoUnder(Registry, Write, Meta(client));
    ThenSound(Under(Registry, Write, [id, Access(Registry, Write)]), {id}, Locked(Meta(client), Read) + routes, bare);
    assert {id} + bare == {id};
  }

  lemma RemoveSound(client: nat, subs: nat)
    ensures Sound(Ops(RemoveDevice(client, subs)), BareReads(RemoveDevice(client, subs)))
  {
    hide Sound, Locked, LeaveBroker, Under;
    var id := Access(Meta(client), Read);
    TwoUnder(TopicSources, Write, Meta(client));
    LeaveBrokerSound(client, subs);
    ThenSound(LeaveBroker(client, subs), {}, WriteRoutes(client), {id});
    assert {} + {id} == {id};
    AfterLocked(Registry, Write, LeaveBroker(client, subs) + WriteRoutes(client), {id});
    AccessSound(Meta(client), Read);
    ThenSound([id], {id}, Locked(Registry, Write) + (LeaveBroker(client, subs) + WriteRoutes(client)), {id});
    assert {id} + {id} == {id};
  }

  lemma IdentifySound(known: bool, valid: bool, client: nat)
    ensures Sound(Ops(HandleIdentify(known, valid, client)), BareReads(HandleIdentify(known, valid, client)))
  {
    hide Sound, Locked, Under;
    var id := Access(Meta(client), Read);
    NothingSound();
    TwoUnder(TopicSources, Write, Meta(client));
    AccessSound(Meta(client), Read);
    ThenSound(WriteRoutes(client), {id}, [id], {id});
    assert {id} + {id} == {id};
    AfterLocked(Meta(client), Write, WriteRoutes(client) + [id], {id});
    var body := Locked(Meta(client), Write) + (WriteRoutes(client) + [id]);
    AfterLocked(Registry, Read, if known && valid then body else [], if known && valid then {id} else {});
  }

  lemma TransportSound(transport: nat, clients: seq<(nat, nat)>)
    ensures Sound(Ops(DescribeTransport(transport, clients)), BareReads(DescribeTransport(transport, clients)))
    ensures Sound(Ops(TransportStats(transport)), BareReads(TransportStats(transport)))
  {
    hide Sound, Locked, ConvertAll;
    var l := TransportClients(transport);
    AccessSound(l, Read);
    ConvertAllSound(clients);
    ThenSound([Access(l, Read)], {Access(l, Read)}, ConvertAll(clients), {});
    assert {Access(l, Read)} + {} == {Access(l, Read)};
    AfterLocked(l, Read, [Access(l, Read)] + ConvertAll(clients), {Access(l, Read)});
    AfterLocked(l, Read, [Access(l, Read)], {Access(l, Read)});
  }

  /**
   Every handler and read service takes its locks in the order of their ranks, whatever branches it takes, and
   uses every structure under that structure's lock, except for exactly its bare reads.
   */
  lemma CallsAreSound(call: Call)
    ensures Sound(Ops(call), BareReads(call))
  {
    hide Sound, Locked, LeaveBroker, WriteSubs, ConvertAll, Convert, SubscribersOfAll, GetFeatureOps, GetFeaturesOps;
    NothingSound();
    match call
    case RegisterDevice(client, hasFeatures) => RegisterSound(client, hasFeatures);
    case RemoveDevice(client, subs) => RemoveSound(client, subs);
    case HandleIdentify(known, valid, client) => IdentifySound(known, valid, client);
    case HandleSubscription(known, valid, client, topics) =>
      WriteSubsSound(client, topics);
      AfterLocked(Registry, Read, if known && valid then WriteSubs(client, topics) else [], {});
    case HandleData => LockedSound(Broker, Read);
    case HandleRouted(routed) => RoutedSound(routed);
    case HandleResponse(hasRecipient) => LockedSound(Registry, Read);
    case GetTopicSources => LockedSound(TopicSources, Read);
    case GetFeature(topic) => GetFeatureSound(topic);
    case ListFeatures(all) =>
      GetFeaturesSound(all);
      AfterLocked(TopicSources, Read, GetFeaturesOps(all), {});
    case GetFeaturesForDevice(registered, device, perTopic) => ForDeviceSound(registered, device, perTopic);
    case ListDevices(devices) =>
      ConvertAllSound(devices);
      AfterLocked(Registry, Read, ConvertAll(devices), {});
    case GetDevice(registered, who) =>
      ConvertSound(who.0, who.1);
      AfterLocked(Registry, Read, if registered then Convert(who.0, who.1) else [], {});
    case RenameDevice(registered, device) =>
      LockedSound(Meta(device), Write);
      AfterLocked(Registry, Read, if registered then Locked(Meta(device), Write) else [], {});
    case ReadDevice(registered, device) =>
      LockedSound(Meta(device), Read);
      AfterLocked(Registry, Read, if registered then Locked(Meta(device), Read) else [], {});
    case DescribeTransport(transport, clients) => TransportSound(transport, clients);
    case UpdateTransport(transport) => LockedSound(TransportClients(transport), Write);
    case CountTransportClients(transport) => LockedSound(TransportClients(transport), Read);
    case TransportStats(transport) => TransportSound(transport, []);
  }

  lemma ForDeviceSound(registered: bool, device: nat, perTopic: seq<seq<(nat, nat)>>)
    ensures Sound(Ops(GetFeaturesForDevice(registered, device, perTopic)), BareReads(GetFeaturesForDevice(registered, device, perTopic)))
  {
    hide Sound, Locked, SubscribersOfAll;
    NothingSound();
    SubscribersOfAllSound(device, perTopic);
    var bare := if perTopic == [] then {} else {Access(Meta(device), Read)};
    AfterLocked(Meta(device), Read, SubscribersOfAll(device, perTopic), bare);
    var body := Locked(Meta(device), Read) + SubscribersOfAll(device, perTopic);
    AfterLocked(Registry, Read, if registered then body else [], if registered then bare else {});
  }

  // ---------- which structures each call uses ----------

  ghost predicate UsesClients(clients: seq<(nat, nat)>, op: Op) {
    exists i :: 0 <= i < |clients| && (op == Access(Meta(clients[i].0), Read) || op == Access(TransportClients(clients[i].1), Read))
  }

  ghost predicate UsesSubscribers(clients: seq<(nat, nat)>, op: Op) {
    op == Access(Broker, Read) || UsesClients(clients, op)
  }

  ghost predicate UsesFeature(topic: TopicRead, op: Op) {
    || op == Access(TopicSources, Read)
    || (topic.routed && op == Access(Registry, Read))
    || (topic.routed && topic.registered && op == Access(Meta(topic.owner), Read))
    || (topic.routed && topic.registered && topic.declared && UsesSubscribers(topic.subscribers, op))
  }

  /** What each call reads and what it writes. */
  ghost predicate Uses(call: Call, op: Op) {
    match call
    case RegisterDevice(client, hasFeatures) =>
      op == Access(Registry, Write) || op == Access(Meta(client), Read) || (hasFeatures && op == Access(TopicSources, Write))
    case RemoveDevice(client, subs) =>
      || op == Access(Registry, Write) || op == Access(Meta(client), Read) || op == Access(TopicSources, Write)
      || (subs > 0 && op == Access(Broker, Write))
    case HandleIdentify(known, valid, client) =>
      || op == Access(Registry, Read)
      || (known && valid && (op == Access(Meta(client), Write) || op == Access(Meta(client), Read) || op == Access(TopicSources, Write)))
    case HandleSubscription(known, valid, client, topics) =>
      || op == Access(Registry, Read)
      || (known && valid && topics > 0 && (op == Access(Broker, Write) || op == Access(Meta(client), Write)))
    case HandleData => op == Access(Broker, Read)
    case HandleRouted(routed) => op == Access(TopicSources, Read) || (routed && op == Access(Registry, Read))
    case HandleResponse(hasRecipient) => hasRecipient && op == Access(Registry, Read)
    case GetTopicSources => op == Access(TopicSources, Read)
    case GetFeature(topic) => UsesFeature(topic, op)
    case ListFeatures(all) => op == Access(TopicSources, Read) || exists i :: 0 <= i < |all| && UsesFeature(all[i], op)
    case GetFeaturesForDevice(registered, device, perTopic) =>
      || op == Access(Registry, Read)
      || (registered && op == Access(Meta(device), Read))
      || (registered && exists i :: 0 <= i < |perTopic| && UsesSubscribers(perTopic[i], op))
    case ListDevices(devices) => op == Access(Registry, Read) || UsesClients(devices, op)
    case GetDevice(registered, who) =>
      || op == Access(Registry, Read)
      || (registered && (op == Access(Meta(who.0), Read) || op == Access(TransportClients(who.1), Read)))
    case RenameDevice(registered, device) => op == Access(Registry, Read) || (registered && op == Access(Meta(device), Write))
    case ReadDevice(registered, device) => op == Access(Registry, Read) || (registered && op == Access(Meta(device), Read))
    case DescribeTransport(transport, clients) => op == Access(TransportClients(transport), Read) || UsesClients(clients, op)
    case UpdateTransport(transport) => op == Access(TransportClients(transport), Write)
    case CountTransportClients(transport) => op == Access(TransportClients(transport), Read)
    case TransportStats(transport) => op == Access(TransportClients(transport), Read)
  }

  lemma {:induction false} ConvertAllUses(clients: seq<(nat, nat)>, op: Op)
    requires op.Access?
    ensures op in ConvertAll(clients) <==> UsesClients(clients, op)
  {
    if clients != [] {
      var front, last := clients[..|clients| - 1], clients[|clients| - 1];
      ConvertAllUses(front, op);
      ConvertUses(last.0, last.1, op);
      assert ConvertAll(clients) == ConvertAll(front) + Convert(last.0, last.1);
      hide ConvertAll, Convert;
      if UsesClients(front, op) {
        var i :| 0 <= i < |front| && (op == Access(Meta(front[i].0), Read) || op == Access(TransportClients(front[i].1), Read));
        assert clients[i] == front[i];
      }
    }
  }

  lemma SubscribersUses(clients: seq<(nat, nat)>, op: Op)
    requires op.Access?
    ensures op in Subscribers(clients) <==> UsesSubscribers(clients, op)
  {
    hide UsesClients, ConvertAll;
    ConvertAllUses(clients, op);
  }

  lemma ConvertUses(client: nat, transport: nat, op: Op)
    requires op.Access?
    ensures op in Convert(client, transport) <==> op == Access(Meta(client), Read) || op == Access(TransportClients(transport), Read)
  {
  }

  lemma GetFeatureUses(topic: TopicRead, op: Op)
    requires op.Access?
    ensures op in GetFeatureOps(topic) <==> UsesFeature(topic, op)
  {
    hide UsesSubscribers, Subscribers;
    SubscribersUses(topic.subscribers, op);
  }

  lemma {:induction false} GetFeaturesUses(topics: seq<TopicRead>, op: Op)
    requires op.Access?
    ensures op in GetFeaturesOps(topics) <==> exists i :: 0 <= i < |topics| && UsesFeature(topics[i], op)
  {
    hide UsesFeature, GetFeatureOps;
    if topics != [] {
      var front, last := topics[..|topics| - 1], topics[|topics| - 1];
      GetFeaturesUses(front, op);
      GetFeatureUses(last, op);
      assert GetFeaturesOps(topics) == GetFeaturesOps(front) + GetFeatureOps(last);
      hide GetFeaturesOps;
      if i :| 0 <= i < |front| && UsesFeature(front[i], op) {
        assert topics[i] == front[i];
      }
    }
  }

  lemma {:induction false} SubscribersOfAllUses(device: nat, perTopic: seq<seq<(nat, nat)>>, op: Op)
    requires op.Access?
    ensures op in SubscribersOfAll(device, perTopic) <==>
      (perTopic != [] && op == Access(Meta(device), Read)) || exists i :: 0 <= i < |perTopic| && UsesSubscribers(perTopic[i], op)
  {
    hide UsesClients;
    if perTopic != [] {
      var front, last := perTopic[..|perTopic| - 1], perTopic[|perTopic| - 1];
      SubscribersOfAllUses(device, front, op);
      SubscribersUses(last, op);
      assert SubscribersOfAll(device, perTopic) == SubscribersOfAll(device, front) + (Subscribers(last) + [Access(Meta(device), Read)]);
      hide SubscribersOfAll, Subscribers, UsesSubscribers;
      if i :| 0 <= i < |front| && UsesSubscribers(front[i], op) {
        assert perTopic[i] == front[i];
      }
    }
  }

  /** Locking and unlocking add no accesses. */
  lemma UnderUses(op: Op)
    requires op.Access?
    ensures forall l, mode, inner :: op in Under(l, mode, inner) <==> op in inner
    ensures forall l, mode :: op in Locked(l, mode) <==> op == Access(l, mode)
  {
  }

  lemma ForDeviceUses(registered: bool, device: nat, perTopic: seq<seq<(nat, nat)>>, op: Op)
    requires op.Access?
    ensures op in Ops(GetFeaturesForDevice(registered, device, perTopic)) <==> Uses(GetFeaturesForDevice(registered, device, perTopic), op)
  {
    hide UsesSubscribers, SubscribersOfAll, Locked, Under;
    UnderUses(op);
    SubscribersOfAllUses(device, perTopic, op);
  }

  /** A call makes exactly the accesses that it is said to make. */
  lemma UsesExactly(call: Call, op: Op)
    requires op.Access?
    ensures op in Ops(call) <==> Uses(call, op)
  {
    hide UsesFeature, UsesClients, ConvertAll, GetFeaturesOps, GetFeatureOps, SubscribersOfAll, Times, Locked, Under;
    UnderUses(op);
    match call
    case RemoveDevice(client, subs) =>
      LockedSound(Broker, Write);
      TimesSound(Locked(Broker, Write), {}, subs);
    case HandleSubscription(known, valid, client, topics) =>
      var subs := Access(Meta(client), Write);
      AccessSound(Meta(client), Write);
      AfterLocked(Broker, Write, [subs], {subs});
      TimesSound(Locked(Broker, Write) + [subs], {subs}, topics);
    case GetFeature(topic) => GetFeatureUses(topic, op);
    case ListFeatures(all) => GetFeaturesUses(all, op);
    case GetFeaturesForDevice(registered, device, perTopic) => ForDeviceUses(registered, device, perTopic, op);
    case ListDevices(devices) => ConvertAllUses(devices, op);
    case DescribeTransport(transport, clients) => ConvertAllUses(clients, op);
    case _ =>
  }

  // ---------- threads ----------

  /** What a thread holds, what it still has to do in its current call, and whether it is a writer that readers must wait for. */
  datatype Thread = Thread(held: map<Lock, Mode>, rest: seq<Op>, announced: bool) {
    predicate Wants(l: Lock, mode: Mode) {
      rest != [] && rest[0] == Acquire(l, mode)
    }

    predicate AnnouncedOn(l: Lock) {
      announced && Wants(l, Write)
    }

    predicate HoldsFor(l: Lock, mode: Mode) {
      l in held && held[l] == mode
    }
  }

  type Threads = map<nat, Thread>

  datatype Event =
    | Start(i: nat, call: Call)
    | Announce(i: nat)
    | Take(i: nat)
    | Drop(i: nat)
    | Use(i: nat)

  /**
   Why a thread that wants l cannot go on because of another (or, if self, because of itself): a reader
   waits for writers, also announced ones; a writer first waits for other writers, then announces itself,
   then waits for whoever holds the lock.
   */
  predicate Blocks(waiter: Thread, other: Thread, self: bool, l: Lock, mode: Mode) {
    if mode.Write? && waiter.announced then l in other.held
    else (!self && other.AnnouncedOn(l)) || other.HoldsFor(l, Write)
  }

  ghost predicate WaitsFor(ts: Threads, i: nat, j: nat) {
    i in ts && j in ts && exists l, mode :: ts[i].Wants(l, mode) && Blocks(ts[i], ts[j], i == j, l, mode)
  }

  ghost predicate Free(ts: Threads, i: nat) {
    forall j :: j in ts ==> !WaitsFor(ts, i, j)
  }

  ghost predicate Enabled(ts: Threads, e: Event) {
    match e
    case Start(i, call) => i in ts ==> ts[i].rest == []
    case Announce(i) => i in ts && !ts[i].announced && (exists l :: ts[i].Wants(l, Write)) && Free(ts, i)
    case Take(i) =>
      && i in ts && Free(ts, i)
      && ((exists l :: ts[i].Wants(l, Read)) || (ts[i].announced && exists l :: ts[i].Wants(l, Write)))
    case Drop(i) => i in ts && ts[i].rest != [] && ts[i].rest[0].Release?
    case Use(i) => i in ts && ts[i].rest != [] && ts[i].rest[0].Access?
  }

  ghost function Next(ts: Threads, e: Event): Threads
    requires Enabled(ts, e)
  {
    match e
    case Start(i, call) => ts[i := Thread(if i in ts then ts[i].held else map[], Ops(call), false)]
    case Announce(i) => ts[i := ts[i].(announced := true)]
    case Take(i) =>
      var op := ts[i].rest[0];
      ts[i := Thread(ts[i].held[op.lock := op.mode], ts[i].rest[1..], false)]
    case Drop(i) =>
      ts[i := Thread(ts[i].held - {ts[i].rest[0].lock}, ts[i].rest[1..], ts[i].announced)]
    case Use(i) => ts[i := ts[i].(rest := ts[i].rest[1..])]
  }

  /** Bare accesses only read, and only clients' metadata and transports' client maps. */
  ghost predicate OnlyReads(bare: set<Op>) {
    forall op :: op in bare ==> op.Access? && op.mode.Read? && (op.lock.Meta? || op.lock.TransportClients?)
  }

  /** A lock that two threads hold is held for reading. */
  ghost predicate Exclusive(ts: Threads) {
    forall i, j, l :: i in ts && j in ts && i != j && l in ts[i].held && l in ts[j].held ==> ts[i].held[l].Read?
  }

  ghost predicate Inv(ts: Threads) {
    && (forall i :: i in ts ==> Ordered(ts[i].held.Keys, ts[i].rest) && OnlyReads(Bare(ts[i].held, ts[i].rest)))
    && Exclusive(ts)
  }

  lemma StartKeeps(ts: Threads, i: nat, call: Call)
    requires Inv(ts) && Enabled(ts, Start(i, call))
    ensures Inv(Next(ts, Start(i, call)))
  {
    hide Ops, Bare;
    CallsAreSound(call);
    var held: map<Lock, Mode> := if i in ts then ts[i].held else map[];
    assert held == map[] by {
      if i in ts {
        assert Ordered(ts[i].held.Keys, ts[i].rest);
      }
    }
    var empty: map<Lock, Mode> := map[];
    assert empty.Keys == {};
    assert OnlyReads(BareReads(call));
  }

  lemma TakeKeeps(ts: Threads, i: nat)
    requires Inv(ts) && Enabled(ts, Take(i))
    ensures Inv(Next(ts, Take(i)))
  {
    hide OnlyReads;
    var op, ts' := ts[i].rest[0], Next(ts, Take(i));
    assert ts[i].held[op.lock := op.mode].Keys == ts[i].held.Keys + {op.lock};
    forall j | j in ts && j != i && op.lock in ts[j].held ensures op.mode.Read? && ts[j].held[op.lock].Read? {
      assert ts[i].Wants(op.lock, op.mode);
      assert !WaitsFor(ts, i, j);
    }
  }

  lemma NextKeeps(ts: Threads, e: Event)
    requires Inv(ts) && Enabled(ts, e)
    ensures Inv(Next(ts, e))
  {
    hide Ops, Free, WaitsFor;
    match e
    case Start(i, call) => StartKeeps(ts, i, call);
    case Announce(i) =>
    case Take(i) => TakeKeeps(ts, i);
    case Drop(i) =>
      var l := ts[i].rest[0].lock;
      assert (ts[i].held - {l}).Keys == ts[i].held.Keys - {l};
    case Use(i) =>
      assert Bare(ts[i].held, ts[i].rest[1..]) <= Bare(ts[i].held, ts[i].rest);
  }

  ghost predicate IsRun(states: seq<Threads>, events: seq<Event>) {
    && |states| == |events| + 1 && states[0] == map[]
    && forall k :: 0 <= k < |events| ==> Enabled(states[k], events[k]) && states[k + 1] == Next(states[k], events[k])
  }

  lemma {:induction false} RunInv(states: seq<Threads>, events: seq<Event>, k: nat)
    requires IsRun(states, events) && k < |states|
    ensures forall i :: i in states[k] ==>
      Ordered(states[k][i].held.Keys, states[k][i].rest) && OnlyReads(Bare(states[k][i].held, states[k][i].rest))
    ensures Exclusive(states[k])
  {
    hide Next, Enabled, Ordered, OnlyReads, Bare;
    if k > 0 {
      RunInv(states, events, k - 1);
      NextKeeps(states[k - 1], events[k - 1]);
    }
  }

  // ---------- what the locks guarantee ----------

  /** In every reachable state, a lock held for writing is held by nobody else. */
  lemma WritersAreAlone(states: seq<Threads>, events: seq<Event>, k: nat, i: nat, j: nat, l: Lock)
    requires IsRun(states, events) && k < |states| && i in states[k] && j in states[k] && i != j
    requires l in states[k][i].held && states[k][i].held[l] == Write
    ensures l !in states[k][j].held
  {
    RunInv(states, events, k);
  }

  /** Whom a thread waits for: a reader and an unannounced writer for other announced writers and for whoever writes, an announced writer for all holders. */
  lemma FreeExactly(ts: Threads, i: nat, l: Lock, mode: Mode)
    requires i in ts && ts[i].rest != [] && ts[i].rest[0] == Acquire(l, mode)
    ensures Free(ts, i) <==>
      if mode == Write && ts[i].announced then forall j :: j in ts ==> l !in ts[j].held
      else forall j :: j in ts ==>
        && (l in ts[j].held ==> ts[j].held[l] == Read)
        && !(j != i && ts[j].announced && ts[j].rest != [] && ts[j].rest[0] == Acquire(l, Write))
  {
    assert ts[i].Wants(l, mode);
    forall j | j in ts ensures WaitsFor(ts, i, j) <==> Blocks(ts[i], ts[j], i == j, l, mode) {
    }
  }

  /** No new reader and no second writer gets in while a writer is announced. */
  lemma AnnouncedWriterGoesFirst(ts: Threads, i: nat, j: nat, l: Lock)
    requires i in ts && j in ts && i != j
    requires ts[j].announced && ts[j].rest != [] && ts[j].rest[0] == Acquire(l, Write)
    requires ts[i].rest != [] && (ts[i].rest[0] == Acquire(l, Read) || (ts[i].rest[0] == Acquire(l, Write) && !ts[i].announced))
    ensures !Enabled(ts, Take(i)) && !Enabled(ts, Announce(i))
  {
    assert ts[i].Wants(l, ts[i].rest[0].mode);
    assert WaitsFor(ts, i, j);
  }

  /** A thread is about to read or write the structure. */
  ghost predicate AboutTo(t: Thread, l: Lock, mode: Mode) {
    t.rest != [] && t.rest[0] == Access(l, mode)
  }

  /** About to access a structure, a thread holds its lock in a mode that allows it, except for reads of metadata and client maps. */
  lemma AccessIsGuarded(states: seq<Threads>, events: seq<Event>, k: nat, i: nat, l: Lock, mode: Mode)
    requires IsRun(states, events) && k < |states| && i in states[k] && AboutTo(states[k][i], l, mode)
    ensures
      || (l in states[k][i].held && (mode == Write ==> states[k][i].held[l] == Write))
      || (mode == Read && (l.Meta? || l.TransportClients?))
  {
    hide Ordered, Exclusive;
    RunInv(states, events, k);
    var t: Thread := states[k][i];
    if !Covers(t.held, l, mode) {
      assert Access(l, mode) in Bare(t.held, t.rest);
    }
  }

  /**
   In every reachable state, two threads never are about to access the same structure, one of them writing,
   unless it is a client's metadata or a transport's client map and the other reads it without its lock.
   */
  lemma RacesAreBareReads(states: seq<Threads>, events: seq<Event>, k: nat, i: nat, j: nat, l: Lock, mode: Mode)
    requires IsRun(states, events) && k < |states| && i in states[k] && j in states[k] && i != j
    requires AboutTo(states[k][i], l, Write) && AboutTo(states[k][j], l, mode)
    ensures mode == Read && (l.Meta? || l.TransportClients?) && l !in states[k][j].held
  {
    hide AboutTo, IsRun;
    AccessIsGuarded(states, events, k, i, l, Write);
    AccessIsGuarded(states, events, k, j, l, mode);
    WritersAreAlone(states, events, k, i, j, l);
  }

  // ---------- no deadlock ----------

  /** Everybody in the set waits for somebody in the set. */
  ghost predicate MutuallyWaiting(ts: Threads, waiting: set<nat>) {
    waiting != {} && forall i {:trigger HasBlocker(ts, waiting, i)} :: i in waiting ==> HasBlocker(ts, waiting, i)
  }

  ghost predicate HasBlocker(ts: Threads, waiting: set<nat>, i: nat) {
    exists j :: j in waiting && WaitsFor(ts, i, j)
  }

  function WantedRank(t: Thread): int {
    if t.rest != [] then Rank(t.rest[0].lock) else -1
  }

  lemma {:induction false} Highest(ts: Threads, some: set<nat>) returns (top: nat)
    requires some != {} && some <= ts.Keys
    ensures top in some && forall i :: i in some ==> WantedRank(ts[i]) <= WantedRank(ts[top])
    decreases |some|
  {
    top :| top in some;
    if some != {top} {
      var other := Highest(ts, some - {top});
      if WantedRank(ts[other]) > WantedRank(ts[top]) {
        top := other;
      }
    }
  }

  /** Whoever holds what i waits for, and waits itself, waits for something ranked higher. */
  lemma HoldersWantMore(ts: Threads, l: Lock, j: nat)
    requires Inv(ts) && j in ts && l in ts[j].held
    requires ts[j].rest != [] && ts[j].rest[0].Acquire?
    ensures Rank(ts[j].rest[0].lock) > Rank(l)
  {
  }

  /** Whom i waits for either holds the lock or is a writer announced on it; an announced writer waits for holders only. */
  lemma WaitingMeans(ts: Threads, i: nat, j: nat)
    requires WaitsFor(ts, i, j)
    ensures i in ts && j in ts && ts[i].rest != [] && ts[i].rest[0].Acquire?
    ensures ts[i].rest[0].lock in ts[j].held || ts[j].AnnouncedOn(ts[i].rest[0].lock)
    ensures ts[i].AnnouncedOn(ts[i].rest[0].lock) ==> ts[i].rest[0].lock in ts[j].held
  {
  }

  lemma Blocker(ts: Threads, waiting: set<nat>, i: nat) returns (j: nat)
    requires MutuallyWaiting(ts, waiting) && i in waiting
    ensures j in waiting && WaitsFor(ts, i, j)
  {
    hide WaitsFor;
    assert HasBlocker(ts, waiting, i);
    j :| j in waiting && WaitsFor(ts, i, j);
  }

  /** No member wants the highest lock: each waits for a holder, directly or through one announced writer. */
  lemma NobodyAtTheTop(ts: Threads, waiting: set<nat>, i: nat) returns (n: nat)
    requires Inv(ts) && MutuallyWaiting(ts, waiting) && i in waiting
    ensures i in ts && n in waiting && n in ts && WantedRank(ts[n]) > WantedRank(ts[i])
  {
    hide Ordered, Inv, WaitsFor, MutuallyWaiting;
    var j := Blocker(ts, waiting, i);
    WaitingMeans(ts, i, j);
    var l := ts[i].rest[0].lock;
    n := Blocker(ts, waiting, j);
    WaitingMeans(ts, j, n);
    if l in ts[j].held {
      HoldersWantMore(ts, l, j);
      n := j;
    } else {
      var m := Blocker(ts, waiting, n);
      WaitingMeans(ts, n, m);
      HoldersWantMore(ts, l, n);
    }
  }

  /** In every reachable state, no set of threads waits in a circle. */
  lemma NoDeadlock(states: seq<Threads>, events: seq<Event>, k: nat, waiting: set<nat>)
    requires IsRun(states, events) && k < |states|
    ensures !MutuallyWaiting(states[k], waiting)
  {
    hide Ordered, WaitsFor;
    RunInv(states, events, k);
    var ts := states[k];
    hide Inv;
    if MutuallyWaiting(ts, waiting) {
      forall i | i in waiting ensures i in ts {
        var j := Blocker(ts, waiting, i);
        WaitingMeans(ts, i, j);
      }
      var i := Highest(ts, waiting);
      var _ := NobodyAtTheTop(ts, waiting, i);
    }
  }

  /** A thread with nothing left to do holds nothing and blocks nobody. */
  lemma IdleBlocksNobody(ts: Threads, i: nat, j: nat)
    requires Inv(ts) && j in ts && ts[j].rest == []
    ensures !WaitsFor(ts, i, j)
  {
    assert Ordered(ts[j].held.Keys, ts[j].rest);
  }

  lemma FreeCanGoOn(ts: Threads, i: nat)
    requires i in ts && ts[i].rest != [] && (ts[i].rest[0].Acquire? ==> Free(ts, i))
    ensures exists e: Event :: !e.Start? && Enabled(ts, e)
  {
    if ts[i].rest[0].Release? {
      assert Enabled(ts, Drop(i));
    } else if ts[i].rest[0].Access? {
      assert Enabled(ts, Use(i));
    } else {
      var l, mode := ts[i].rest[0].lock, ts[i].rest[0].mode;
      assert ts[i].Wants(l, mode);
      if mode.Read? || ts[i].announced {
        assert Enabled(ts, Take(i));
      } else {
        assert Enabled(ts, Announce(i));
      }
    }
  }

  /** As long as some call is unfinished, some thread can go on. */
  lemma Progress(states: seq<Threads>, events: seq<Event>, k: nat)
    requires IsRun(states, events) && k < |states|
    requires exists i :: i in states[k] && states[k][i].rest != []
    ensures exists e: Event :: !e.Start? && Enabled(states[k], e)
  {
    hide Ordered, WaitsFor, Enabled;
    RunInv(states, events, k);
    var ts: Threads := states[k];
    var busy := set i | i in ts && ts[i].rest != [];
    var b :| b in ts && ts[b].rest != [];
    assert b in busy;
    NoDeadlock(states, events, k, busy);
    assert exists i :: i in busy && !HasBlocker(ts, busy, i);
    var i :| i in busy && !HasBlocker(ts, busy, i);
    forall j | j in ts ensures !WaitsFor(ts, i, j) {
      if j !in busy {
        IdleBlocksNobody(ts, i, j);
      }
    }
    FreeCanGoOn(ts, i);
  }
}
