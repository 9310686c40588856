/** The web client object (web/client.go) and the open and close of one event stream (web/handlers.go). */
module WebClient {
  import opened Json
  import opened Proto
  import opened ServerState
  import opened ServerObjects
  import opened Sse

  /** The server handles one message of this kind from this client, whose text is the topic between fixed parts. */
  ghost predicate Told<C>(before: State<C>, after: State<C>, kind: string, id: Id, topic: GoString) {
    exists m: Message ::
      && m.kind == kind && m.sender == id && m.payload.raw == "{\"topics\":[\"" + ReadText(topic) + "\"]}"
      && m.payload.asSubscription == DecodeTopics(m.payload.raw)
      && WellFormed(before) && after == Step(before, m)
  }

  /** The first occurrence of the connection is taken out, if there is one. */
  ghost predicate TakenOut(before: seq<ConnId>, after: seq<ConnId>, conn: ConnId) {
    if conn in before then
      exists i :: 0 <= i < |before| && before[i] == conn && conn !in before[..i] && after == before[..i] + before[i + 1..]
    else after == before
  }

  lemma MessageTells<C>(s: State<C>, kind: string, id: Id, topic: GoString)
    requires WellFormed(s)
    ensures Told(s, Step(s, SubscriptionMessage(kind, id, topic)), kind, id, topic)
  {
    hide Step, DecodeTopics;
    var m := SubscriptionMessage(kind, id, topic);
    assert m.payload.raw == "{\"topics\":[\"" + ReadText(topic) + "\"]}";
  }

  lemma Unlisted(sse: map<GoString, seq<ConnId>>, topic: GoString)
    ensures Connections(sse - {topic}, topic) == []
    ensures forall t :: t != topic ==> Connections(sse - {topic}, t) == Connections(sse, t)
  {
  }

  lemma WithoutTakesOut(s: seq<ConnId>, c: ConnId)
    ensures TakenOut(s, Without(s, c), c)
  {
    var i := IndexOf(s, c);
  }

  class WebClientImpl {
    const server: Server
    const self: Client
    var sseConnections: map<GoString, seq<ConnId>>

    constructor (server: Server, self: Client)
      ensures this.server == server && this.self == self && sseConnections == map[]
    {
      this.server, this.self := server, self;
      sseConnections := map[];
    }

    ghost function View(): Web<Client>
      reads this, server, server.registry, server.broker, server.clients
    {
      Web(sseConnections, server.Abs(), self)
    }

    ghost predicate Valid()
      reads this, server, server.registry, server.broker, server.clients
    {
      server.Valid() && self in server.clients
    }

    /** Sends a subscribe or unsubscribe for one topic to the server, which handles it at once. */
    method Tell(kind: string, topic: GoString)
      requires Valid() && (kind == "subscribe" || kind == "unsubscribe")
      modifies server.broker, server.clients`subs
      ensures Valid() && server.Abs() == Step(old(server.Abs()), SubscriptionMessage(kind, self.id, topic))
    {
      server.HandleSubscription(SubscriptionMessage(kind, self.id, topic));
    }

    method AddSSEConnection(topic: GoString, conn: ConnId)
      modifies this`sseConnections
      ensures sseConnections == old(sseConnections)[topic := Connections(old(sseConnections), topic) + [conn]]
    {
      if topic !in sseConnections {
        sseConnections := sseConnections[topic := []];
      }
      sseConnections := sseConnections[topic := sseConnections[topic] + [conn]];
    }

    /** The first connection on a topic subscribes. */
    method OpenStream(topic: GoString, conn: ConnId)
      requires Valid()
      modifies this`sseConnections, server.broker, server.clients`subs
      ensures Valid() && View() == Opened(old(View()), topic, conn)
      ensures forall t :: t != topic ==> Connections(sseConnections, t) == old(Connections(sseConnections, t))
      ensures Connections(sseConnections, topic) == old(Connections(sseConnections, topic)) + [conn]
      ensures old(Connections(sseConnections, topic)) != [] ==> server.Abs() == old(server.Abs())
      ensures old(Connections(sseConnections, topic)) == [] ==> Told(old(server.Abs()), server.Abs(), "subscribe", self.id, topic)
    {
      MessageTells(server.Abs(), "subscribe", self.id, topic);
      hide Told;
      var isFirstConnection := topic !in sseConnections || |sseConnections[topic]| == 0;
      AddSSEConnection(topic, conn);
      assert self.id == old(server.Abs()).meta[self].id;
      if isFirstConnection {
        Tell("subscribe", topic);
      }
    }

    /** Splices the connection out of its topic's list; the last one to go unsubscribes. */
    method RemoveSSEConnection(topic: GoString, conn: ConnId)
      requires Valid()
      modifies this`sseConnections, server.broker, server.clients`subs
      ensures Valid() && View() == Closed(old(View()), topic, conn)
      ensures forall t :: t != topic ==> Connections(sseConnections, t) == old(Connections(sseConnections, t))
      ensures TakenOut(old(Connections(sseConnections, topic)), Connections(sseConnections, topic), conn)
      ensures Connections(sseConnections, topic) != [] ==> server.Abs() == old(server.Abs())
      ensures Connections(sseConnections, topic) == [] ==> Told(old(server.Abs()), server.Abs(), "unsubscribe", self.id, topic)
    {
      hide Members;
      MessageTells(server.Abs(), "unsubscribe", self.id, topic);
      WithoutTakesOut(Connections(sseConnections, topic), conn);
      hide Step, WellFormed, Without, SubscriptionMessage, Told, TakenOut;
      assert self.id == old(server.Abs()).meta[self].id;
      var connections := if topic in sseConnections then sseConnections[topic] else [];
      Splice(topic, connections, conn);
      ghost var spliced := sseConnections;
      assert TakenOut(old(Connections(sseConnections, topic)), Connections(spliced, topic), conn);
      Unlisted(spliced, topic);
      UnsubscribeIfLast(topic);
    }

    method UnsubscribeIfLast(topic: GoString)
      requires Valid()
      modifies this`sseConnections, server.broker, server.clients`subs
      ensures Valid()
      ensures Connections(old(sseConnections), topic) != [] ==> sseConnections == old(sseConnections) && server.Abs() == old(server.Abs())
      ensures Connections(old(sseConnections), topic) == [] ==>
        sseConnections == old(sseConnections) - {topic}
        && server.Abs() == Step(old(server.Abs()), SubscriptionMessage("unsubscribe", old(self.id), topic))
    {
      hide Step, WellFormed, SubscriptionMessage;
      if topic !in sseConnections || |sseConnections[topic]| == 0 {
        sseConnections := sseConnections - {topic};
        Tell("unsubscribe", topic);
      }
    }

    method Splice(topic: GoString, connections: seq<ConnId>, conn: ConnId)
      requires connections == Connections(sseConnections, topic)
      modifies this`sseConnections
      ensures Connections(sseConnections, topic) == Without(connections, conn)
      ensures sseConnections - {topic} == old(sseConnections) - {topic}
      ensures forall t :: t != topic ==> Connections(sseConnections, t) == old(Connections(sseConnections, t))
      ensures topic in old(sseConnections) ==> sseConnections == old(sseConnections)[topic := Without(connections, conn)]
      ensures topic !in old(sseConnections) ==> sseConnections == old(sseConnections)
    {
      for i := 0 to |connections|
        invariant sseConnections == old(sseConnections)
        invariant conn !in connections[..i]
      {
        if connections[i] == conn {
          FirstAt(connections, conn, i);
          sseConnections := sseConnections[topic := connections[..i] + connections[i + 1..]];
          return;
        }
      }
      assert connections[..|connections|] == connections;
      WithoutStranger(connections, conn);
    }
  }

  lemma {:induction false} FirstAt(s: seq<ConnId>, c: ConnId, i: nat)
    requires i < |s| && s[i] == c && c !in s[..i]
    ensures IndexOf(s, c) == i
  {
    if i > 0 {
      assert s[0] in s[..i];
      assert forall x :: x in s[1..][..i - 1] ==> x in s[..i];
      FirstAt(s[1..], c, i - 1);
    }
  }
}
