/**
 One TCP connection from accept to close (server/tcpTransport.go): register, handle every line with
 the sender overwritten by the connection's own id, then remove.
 */
module TcpTransport {
  import opened Wrappers
  import opened Proto
  import opened ServerState
  import opened ServerInFull
  import opened ServerObjects

  /** The state after handling these lines in order; None is a line that is not JSON, which is skipped. */
  function Session<C(==)>(s: State<C>, id: Id, lines: seq<Option<Message>>): (r: State<C>)
    requires id in s.registry ==> s.registry[id] in s.meta
    ensures r.registry == s.registry && r.meta.Keys == s.meta.Keys
  {
    if lines == [] then s
    else
      var before := Session(s, id, lines[..|lines| - 1]);
      var line := lines[|lines| - 1];
      if line.Some? then Step(before, line.value.(sender := id)) else before
  }

  /** Line i is a message, and the server state before it makes it one for the client. */
  ghost predicate LineIsFor<C>(states: seq<State<C>>, id: Id, lines: seq<Option<Message>>, c: C, i: int) {
    && 0 <= i < |lines| && i < |states| && lines[i].Some?
    && IsFor(states[i], lines[i].value.(sender := id), c)
  }

  /** The line numbers are increasing and exactly those of the lines that are for the client. */
  ghost predicate NumbersLinesFor<C>(numbers: seq<int>, states: seq<State<C>>, id: Id, lines: seq<Option<Message>>, c: C) {
    && (forall a, b :: 0 <= a < b < |numbers| ==> numbers[a] < numbers[b])
    && forall i :: i in numbers <==> LineIsFor(states, id, lines, c, i)
  }

  /**
   A client's link goes from one log to the other: with a working link it takes what each line for the client
   passes on, once, in the order of the lines; with a broken one it takes nothing.
   */
  ghost predicate GetsLines<C>(before: seq<Message>, after: seq<Message>, up: bool, states: seq<State<C>>, id: Id,
                               lines: seq<Option<Message>>, c: C) {
    && before <= after
    && (!up ==> after == before)
    && (up ==> exists numbers :: NumbersLinesFor(numbers, states, id, lines, c) && PassesEach(after[|before|..], numbers, id, lines))
  }

  ghost predicate PassesEach(got: seq<Message>, numbers: seq<int>, id: Id, lines: seq<Option<Message>>) {
    && |got| == |numbers|
    && forall k :: 0 <= k < |numbers| ==>
         0 <= numbers[k] < |lines| && lines[numbers[k]].Some? && Passes(got[k], lines[numbers[k]].value.(sender := id))
  }

  /** Each state comes from the one before by handling the line between them, if it is a message. */
  ghost predicate Traces<C>(states: seq<State<C>>, id: Id, lines: seq<Option<Message>>) {
    && |states| == |lines| + 1
    && (forall i :: 0 <= i < |states| ==> WellFormed(states[i]))
    && forall i :: 0 <= i < |lines| ==>
         states[i + 1] == if lines[i].Some? then Step(states[i], lines[i].value.(sender := id)) else states[i]
  }

  /** A single line, handled in this state. */
  ghost predicate GetsLine<C>(before: seq<Message>, after: seq<Message>, up: bool, s: State<C>, id: Id, line: Option<Message>, c: C) {
    if line.Some? then Gets(before, after, up && IsFor(s, line.value.(sender := id), c), line.value.(sender := id))
    else after == before
  }

  lemma TraceStarts<C>(s: State<C>, id: Id)
    requires WellFormed(s)
    ensures Traces([s], id, [])
  {
    hide WellFormed;
  }

  lemma OneStateMore<C>(states: seq<State<C>>, s: State<C>, id: Id, lines: seq<Option<Message>>, line: Option<Message>)
    requires Traces(states, id, lines) && WellFormed(s)
    requires s == if line.Some? then Step(states[|lines|], line.value.(sender := id)) else states[|lines|]
    ensures Traces(states + [s], id, lines + [line]) && |states| == |lines| + 1
  {
    hide Step, WellFormed;
  }

  lemma StepIsDefined<C>(s: State<C>, id: Id)
    requires WellFormed(s)
    ensures id in s.registry ==> s.registry[id] in s.meta
  {
  }

  /** The last state of a trace is the one that the session leads to. */
  lemma {:induction false} TraceIsSession<C>(states: seq<State<C>>, id: Id, lines: seq<Option<Message>>)
    requires Traces(states, id, lines)
    ensures WellFormed(states[0]) && states[|lines|] == Session(states[0], id, lines)
  {
    hide Step, WellFormed;
    if lines != [] {
      var n := |lines| - 1;
      var front, before := lines[..n], states[..n + 1];
      assert forall i :: 0 <= i <= n ==> before[i] == states[i];
      TraceIsSession(before, id, front);
      assert WellFormed(states[n]) && lines[n] == lines[|lines| - 1];
      StepIsDefined(states[n], id);
      assert states[n + 1] == if lines[n].Some? then Step(states[n], lines[n].value.(sender := id)) else states[n];
    }
  }

  lemma NoLineYet<C>(log: seq<Message>, up: bool, s: State<C>, id: Id, c: C)
    ensures GetsLines(log, log, up, [s], id, [], c)
  {
    assert NumbersLinesFor([], [s], id, [], c);
    assert PassesEach(log[|log|..], [], id, []);
  }

  lemma OneLineMore<C>(log: seq<Message>, before: seq<Message>, after: seq<Message>, up: bool, states: seq<State<C>>, s: State<C>,
                       id: Id, lines: seq<Option<Message>>, line: Option<Message>, c: C)
    requires |states| == |lines| + 1 && GetsLines(log, before, up, states, id, lines, c)
    requires GetsLine(before, after, up, states[|lines|], id, line, c)
    ensures GetsLines(log, after, up, states + [s], id, lines + [line], c)
  {
    hide IsFor, Passes, NumbersLinesFor, LineIsFor, PassesEach;
    if up {
      var got, got' := before[|log|..], after[|log|..];
      var numbers :| NumbersLinesFor(numbers, states, id, lines, c) && PassesEach(got, numbers, id, lines);
      var served := line.Some? && IsFor(states[|lines|], line.value.(sender := id), c);
      var longer := if served then numbers + [|lines|] else numbers;
      OneNumberMore(numbers, states, s, id, lines, line, c);
      OnePassedMore(got, got', numbers, id, lines, line, served);
      assert NumbersLinesFor(longer, states + [s], id, lines + [line], c) && PassesEach(got', longer, id, lines + [line]);
    }
  }

  lemma OneNumberMore<C>(numbers: seq<int>, states: seq<State<C>>, s: State<C>, id: Id, lines: seq<Option<Message>>,
                         line: Option<Message>, c: C)
    requires |states| == |lines| + 1 && NumbersLinesFor(numbers, states, id, lines, c)
    ensures
      var served := line.Some? && IsFor(states[|lines|], line.value.(sender := id), c);
      NumbersLinesFor(if served then numbers + [|lines|] else numbers, states + [s], id, lines + [line], c)
  {
    hide IsFor, LineIsFor;
    var n := |lines|;
    var served := line.Some? && IsFor(states[n], line.value.(sender := id), c);
    var longer := if served then numbers + [n] else numbers;
    forall i ensures LineIsFor(states + [s], id, lines + [line], c, i) <==> LineIsFor(states, id, lines, c, i) || (i == n && served) {
      SameLine(states, s, id, lines, line, c, i);
    }
    forall k | 0 <= k < |numbers| ensures numbers[k] < n {
      assert numbers[k] in numbers;
      SameLine(states, s, id, lines, line, c, numbers[k]);
    }
  }

  lemma SameLine<C>(states: seq<State<C>>, s: State<C>, id: Id, lines: seq<Option<Message>>, line: Option<Message>, c: C, i: int)
    requires |states| == |lines| + 1
    ensures LineIsFor(states + [s], id, lines + [line], c, i) <==>
      LineIsFor(states, id, lines, c, i) || (i == |lines| && line.Some? && IsFor(states[|lines|], line.value.(sender := id), c))
    ensures LineIsFor(states, id, lines, c, i) ==> i < |lines|
  {
    hide IsFor;
    if 0 <= i < |lines| {
      assert (states + [s])[i] == states[i] && (lines + [line])[i] == lines[i];
    }
  }

  lemma OnePassedMore(got: seq<Message>, got': seq<Message>, numbers: seq<int>, id: Id, lines: seq<Option<Message>>,
                      line: Option<Message>, served: bool)
    requires PassesEach(got, numbers, id, lines) && (served ==> line.Some?)
    requires if served then Gets(got, got', true, line.value.(sender := id)) else got' == got
    ensures PassesEach(got', if served then numbers + [|lines|] else numbers, id, lines + [line])
  {
    hide Passes;
    if served {
      assert Passes(got'[|got|], line.value.(sender := id));
    }
    var longer, more := if served then numbers + [|lines|] else numbers, lines + [line];
    forall k | 0 <= k < |longer| ensures 0 <= longer[k] < |more| && more[longer[k]].Some? && Passes(got'[k], more[longer[k]].value.(sender := id)) {
      if k < |numbers| {
        assert longer[k] == numbers[k] && more[numbers[k]] == lines[numbers[k]] && got'[k] == got[k];
      }
    }
  }

  class TCPTransport {
    const server: Server
    const tag: TransportTag
    var clients: map<Id, Client>

    constructor (server: Server, tag: TransportTag)
      ensures this.server == server && this.tag == tag && clients == map[]
    {
      this.server, this.tag := server, tag;
      clients := map[];
    }

    /** The server ends in the state that register, the session and remove lead to. */
    method HandleConnection(id: Id, lines: seq<Option<Message>>) returns (client: Client, ghost states: seq<State<Client>>)
      requires server.Valid()
      modifies this`clients, server`topicSources, server`clients, server.registry, server.broker
      modifies server.clients`id, server.clients`name, server.clients`firmware
      modifies server.clients`features, server.clients`subs, server.clients`sent
      ensures fresh(client) && server.Valid() && server.clients == old(server.clients) + {client}
      ensures clients == old(clients) - {id}
      ensures
        var s := old(server.Abs());
        var joined := Register(s.(meta := s.meta[client := Meta(id, "", "", map[], {})]), client);
        && server.Abs() == Remove(Session(joined, id, lines), client)
        && Traces(states, id, lines) && states[0] == joined && states[|lines|] == Session(joined, id, lines)
      ensures client.up && GetsLines([], client.sent, true, states, id, lines, client)
      ensures forall c :: c in old(server.clients) ==> GetsLines(old(c.sent), c.sent, c.up, states, id, lines, c)
    {
      hide Session, Register, Remove, WellFormed, Step;
      client := Accept(id);
      states := HandleLines(client, id, lines);
      Drop(client);
    }

    /** The deletion from the transport's client map and onDisconnect. */
    method Drop(client: Client)
      requires server.Valid() && client in server.clients
      modifies this`clients, server`topicSources, server`clients, server.registry, server.broker
      ensures clients == old(clients) - {client.id}
      ensures server.Valid() && server.clients == old(server.clients)
      ensures server.Abs() == Remove(old(server.Abs()), client)
    {
      hide Remove, WellFormed;
      clients := clients - {client.id};
      assert server.clients + {client} == server.clients;
      server.RemoveDevice(client);
    }

    /** NewTCPClient, onConnect and the insertion into the transport's client map. */
    method Accept(id: Id) returns (client: Client)
      requires server.Valid()
      modifies this`clients, server`topicSources, server`clients, server.registry
      ensures fresh(client) && client.id == id && client.transport == Some(tag) && server.Valid()
      ensures client.up && client.sent == []
      ensures server.clients == old(server.clients) + {client} && clients == old(clients)[id := client]
      ensures id in server.registry.store && server.registry.store[id] == client
      ensures
        var s := old(server.Abs());
        server.Abs() == Register(s.(meta := s.meta[client := Meta(id, "", "", map[], {})]), client)
    {
      hide AcceptedNames, Claim, WellFormed;
      client := new Client(id, map[], Some(tag));
      ghost var s := server.Abs();
      assert server.Snapshot(server.clients + {client}).meta == s.meta[client := Meta(id, "", "", map[], {})];
      server.RegisterDevice(client);
      clients := clients[id := client];
    }

    /** The lines so far led through these states to where the server is, and every client's log grew as they say. */
    ghost predicate Handled(logs: map<Client, seq<Message>>, states: seq<State<Client>>, id: Id, lines: seq<Option<Message>>)
      reads server, server.registry, server.broker, server.clients
    {
      && Traces(states, id, lines) && states[|lines|] == server.Abs() && logs.Keys == server.clients
      && forall c :: c in server.clients ==> GetsLines(logs[c], c.sent, c.up, states, id, lines, c)
    }

    /**
     Every client gets what the lines pass on to it, line by line, in the states that the lines lead through;
     a client with a broken link gets nothing.
     */
    method HandleLines(client: Client, id: Id, lines: seq<Option<Message>>) returns (ghost states: seq<State<Client>>)
      requires server.Valid() && client in server.clients && client.id == id
      requires id in server.registry.store && server.registry.store[id] == client
      modifies server`topicSources, server.broker
      modifies server.clients`id, server.clients`name, server.clients`firmware
      modifies server.clients`features, server.clients`subs, server.clients`sent
      ensures server.Valid() && client.id == id
      ensures server.Abs() == Session(old(server.Abs()), id, lines)
      ensures Traces(states, id, lines) && states[0] == old(server.Abs()) && states[|lines|] == server.Abs()
      ensures forall c :: c in server.clients ==> GetsLines(old(c.sent), c.sent, c.up, states, id, lines, c)
    {
      hide GetsLines, Step, WellFormed, Traces, Handled, Session;
      ghost var logs;
      states, logs := NothingHandled(id);
      for i := 0 to |lines|
        invariant server.Valid() && client.id == id && |states| == i + 1 && states[0] == old(server.Abs())
        invariant Handled(logs, states, id, lines[..i])
      {
        assert lines[..i + 1] == lines[..i] + [lines[i]];
        ghost var s := HandleNext(client, id, lines[..i], lines[i], states, logs);
        states := states + [s];
      }
      assert lines[..|lines|] == lines;
      AllHandled(logs, states, id, lines);
    }

    ghost method NothingHandled(id: Id) returns (states: seq<State<Client>>, logs: map<Client, seq<Message>>)
      requires server.Valid()
      ensures states == [server.Abs()] && Handled(logs, states, id, []) && logs == map c | c in server.clients :: c.sent
    {
      hide GetsLines, WellFormed;
      states := [server.Abs()];
      logs := map c | c in server.clients :: c.sent;
      TraceStarts(server.Abs(), id);
      forall c | c in server.clients ensures GetsLines(logs[c], c.sent, c.up, states, id, [], c) {
        NoLineYet(c.sent, c.up, server.Abs(), id, c);
      }
    }

    lemma AllHandled(logs: map<Client, seq<Message>>, states: seq<State<Client>>, id: Id, lines: seq<Option<Message>>)
      requires Handled(logs, states, id, lines)
      ensures Traces(states, id, lines) && states[|lines|] == server.Abs() == Session(states[0], id, lines)
      ensures forall c :: c in server.clients ==> c in logs && GetsLines(logs[c], c.sent, c.up, states, id, lines, c)
    {
      hide GetsLines, Session;
      TraceIsSession(states, id, lines);
    }

    /** The lines that were handled, and the next one. */
    method HandleNext(client: Client, id: Id, ghost front: seq<Option<Message>>, line: Option<Message>,
                      ghost states: seq<State<Client>>, ghost logs: map<Client, seq<Message>>)
      returns (ghost s: State<Client>)
      requires server.Valid() && client in server.clients && client.id == id
      requires id in server.registry.store && server.registry.store[id] == client
      requires Handled(logs, states, id, front)
      modifies server`topicSources, server.broker
      modifies server.clients`id, server.clients`name, server.clients`firmware
      modifies server.clients`features, server.clients`subs, server.clients`sent
      ensures server.Valid() && client.id == id && s == server.Abs()
      ensures Handled(logs, states + [s], id, front + [line])
    {
      hide GetsLine, GetsLines, Step, WellFormed, Traces;
      ghost var before := map c | c in server.clients :: c.sent;
      HandleLine(client, id, line);
      s := server.Abs();
      OneStateMore(states, s, id, front, line);
      forall c | c in server.clients ensures GetsLines(logs[c], c.sent, c.up, states + [s], id, front + [line], c) {
        OneLineMore(logs[c], before[c], c.sent, c.up, states, s, id, front, line, c);
      }
    }

    /** A line that is no message is skipped; any other is handled with the connection's id as its sender. */
    method HandleLine(client: Client, id: Id, line: Option<Message>)
      requires server.Valid() && client in server.clients && client.id == id
      requires id in server.registry.store && server.registry.store[id] == client
      modifies server`topicSources, server.broker
      modifies server.clients`id, server.clients`name, server.clients`firmware
      modifies server.clients`features, server.clients`subs, server.clients`sent
      ensures server.Valid() && client.id == id
      ensures server.Abs() == if line.Some? then Step(old(server.Abs()), line.value.(sender := id)) else old(server.Abs())
      ensures forall c :: c in server.clients ==> GetsLine(old(c.sent), c.sent, c.up, old(server.Abs()), id, line, c)
    {
      hide IsFor, Passes, Step, WellFormed;
      if line.None? {
        return;
      }
      ghost var s := server.Abs();
      server.Handle(line.value.(sender := client.id));
      OwnIdStays(s, line.value.(sender := id), client);
      assert server.Abs().meta[client].id == client.id;
    }
  }

  // ---------- who gets what a connection sends ----------

  /** How often line i is passed on: once to whom broker, routes or registry name for its kind and topic, and not at all to anybody else. */
  ghost predicate PassedOnce<C>(times: nat, s: State<C>, m: Message, c: C) {
    && (m.kind in {"data", "status"} ==> times == if m.topic in s.broker && c in s.broker[m.topic] then 1 else 0)
    && (m.kind in {"command", "query"} ==>
          times == if m.topic in s.routes && s.routes[m.topic] in s.registry && s.registry[s.routes[m.topic]] == c then 1 else 0)
    && (m.kind == "response" ==>
          times == if m.recipient != "" && m.recipient in s.registry && s.registry[m.recipient] == c then 1 else 0)
  }

  /** What a client with a working link gets from a connection is the lines with these numbers, each as often as it should be. */
  lemma EachLineOnce<C>(before: seq<Message>, after: seq<Message>, states: seq<State<C>>, id: Id, lines: seq<Option<Message>>, c: C)
    requires |states| == |lines| + 1 && GetsLines(before, after, true, states, id, lines, c)
    ensures before <= after
    ensures exists numbers ::
      && PassesEach(after[|before|..], numbers, id, lines)
      && (forall a, b :: 0 <= a < b < |numbers| ==> numbers[a] < numbers[b])
      && forall i :: 0 <= i < |lines| && lines[i].Some? ==>
           PassedOnce(multiset(numbers)[i], states[i], lines[i].value.(sender := id), c)
  {
    hide PassesEach;
    var numbers :| NumbersLinesFor(numbers, states, id, lines, c) && PassesEach(after[|before|..], numbers, id, lines);
    forall i | 0 <= i < |lines| && lines[i].Some? ensures PassedOnce(multiset(numbers)[i], states[i], lines[i].value.(sender := id), c) {
      IncreasingOnce(numbers, i);
      assert i in numbers <==> LineIsFor(states, id, lines, c, i);
    }
  }

  lemma {:induction false} IncreasingOnce(numbers: seq<int>, i: int)
    requires forall a, b :: 0 <= a < b < |numbers| ==> numbers[a] < numbers[b]
    ensures multiset(numbers)[i] == if i in numbers then 1 else 0
  {
    if numbers != [] {
      var front := numbers[..|numbers| - 1];
      IncreasingOnce(front, i);
      assert numbers == front + [numbers[|numbers| - 1]];
    }
  }

  lemma OwnIdStays<C>(s: State<C>, msg: Message, c: C)
    requires WellFormed(s) && c in s.meta && s.meta[c].id == msg.sender
    ensures c in Step(s, msg).meta && Step(s, msg).meta[c].id == msg.sender
  {
  }

  // ---------- what a connection leaves behind ----------

  /** Everything that differs between s0 and s belongs to the connection of c. */
  ghost predicate OnlyAdds<C>(s0: State<C>, s: State<C>, c: C, id: Id) {
    && s.registry == s0.registry[id := c]
    && s.meta.Keys == s0.meta.Keys && c in s.meta && s.meta[c].id == id
    && (forall x :: x in s.meta && x != c ==> s.meta[x] == s0.meta[x])
    && (forall t :: Members(s.broker, t) - {c} == Members(s0.broker, t))
    && (forall t :: t in s0.routes ==> t in s.routes && s.routes[t] == s0.routes[t])
    && (forall t :: t in s.routes && t !in s0.routes ==> s.routes[t] == id)
  }

  lemma StepOnlyAdds<C>(s0: State<C>, s: State<C>, c: C, msg: Message)
    requires OnlyAdds(s0, s, c, msg.sender)
    ensures OnlyAdds(s0, Step(s, msg), c, msg.sender)
  {
    hide FeatureMap;
    match msg.kind
    case "subscribe" =>
      if msg.payload.asSubscription.Some? {
        SubscribeAllMembers(s.broker, TopicSet(msg.payload.asSubscription.value), c);
      }
    case "unsubscribe" =>
      if msg.payload.asSubscription.Some? {
        UnsubscribeAllMembers(s.broker, TopicSet(msg.payload.asSubscription.value), c);
      }
    case _ =>
  }

  /** Every identify of the session keeps declaring what the connection owns at that moment. */
  ghost predicate SessionKeepsOwned<C>(s: State<C>, id: Id, lines: seq<Option<Message>>)
    requires id in s.registry ==> s.registry[id] in s.meta
  {
    forall i :: 0 <= i < |lines| && lines[i].Some? ==>
      KeepsOwned(Session(s, id, lines[..i]), lines[i].value.(sender := id))
  }

  lemma {:induction false} SessionAgrees<C>(s0: State<C>, s: State<C>, c: C, id: Id, lines: seq<Option<Message>>)
    requires OnlyAdds(s0, s, c, id) && Consistent(s) && SessionKeepsOwned(s, id, lines)
    ensures OnlyAdds(s0, Session(s, id, lines), c, id) && Consistent(Session(s, id, lines))
  {
    if lines != [] {
      var front, last := lines[..|lines| - 1], lines[|lines| - 1];
      assert forall i :: 0 <= i <= |front| ==> front[..i] == lines[..i];
      SessionAgrees(s0, s, c, id, front);
      if last.Some? {
        assert KeepsOwned(Session(s, id, front), last.value.(sender := id));
        StepOnlyAdds(s0, Session(s, id, front), c, last.value.(sender := id));
        StepConsistent(Session(s, id, front), last.value.(sender := id));
      }
    }
  }

  /**
   A whole connection undoes itself: registry and broker are as they were, the structures agree, and
   the only routes missing are those whose name the connection declared too when it closed.
   */
  lemma ConnectionUndoesItself<C>(s0: State<C>, c: C, id: Id, lines: seq<Option<Message>>)
    requires Consistent(s0) && Newcomer(s0, c) && s0.meta[c].id == id
    requires AcceptedNames(s0.meta[c].features) == {} // a new TCP client has no features
    requires SessionKeepsOwned(Register(s0, c), id, lines)
    ensures
      var open := Session(Register(s0, c), id, lines);
      var closed := Remove(open, c);
      && closed.registry == s0.registry && closed.broker == s0.broker && Consistent(closed)
      && closed.routes == s0.routes - FeatureNames(open.meta[c].features)
      && forall x :: x in s0.meta && x != c ==> x in closed.meta && closed.meta[x] == s0.meta[x]
  {
    var joined := Register(s0, c);
    RegisterConsistent(s0, c);
    assert forall t :: c !in Members(s0.broker, t);
    assert OnlyAdds(s0, joined, c, id);
    SessionAgrees(s0, joined, c, id, lines);
    ClosingUndoes(s0, Session(joined, id, lines), c, id);
  }

  lemma ClosingUndoes<C>(s0: State<C>, s: State<C>, c: C, id: Id)
    requires Consistent(s0) && id !in s0.registry && OnlyAdds(s0, s, c, id) && Consistent(s)
    ensures Remove(s, c).registry == s0.registry && Remove(s, c).broker == s0.broker
    ensures Consistent(Remove(s, c))
    ensures Remove(s, c).routes == s0.routes - FeatureNames(s.meta[c].features)
  {
    hide AcceptedNames, FeatureNames, UnsubscribeAll;
    RemoveConsistent(s, c);
    ClosingEmptiesBroker(s0, s, c, id);
    OwnRoutesGo(s0, s, c, id);
  }

  lemma ClosingEmptiesBroker<C>(s0: State<C>, s: State<C>, c: C, id: Id)
    requires BrokerListsSubs(s0) && BrokerListsSubs(s) && OnlyAdds(s0, s, c, id)
    ensures UnsubscribeAll(s.broker, s.meta[c].subs, c) == s0.broker
  {
    var closed := UnsubscribeAll(s.broker, s.meta[c].subs, c);
    UnsubscribeAllMembers(s.broker, s.meta[c].subs, c);
    forall t ensures Members(closed, t) == Members(s0.broker, t) {
      assert c in Members(s.broker, t) ==> t in s.meta[c].subs;
    }
    SameMembersSameBroker(closed, s0.broker);
  }

  lemma OwnRoutesGo<C>(s0: State<C>, s: State<C>, c: C, id: Id)
    requires OnlyAdds(s0, s, c, id) && NoDanglingRoute(s)
    ensures s.routes - FeatureNames(s.meta[c].features) == s0.routes - FeatureNames(s.meta[c].features)
  {
    hide ValidFeature;
    forall t | t in s.routes && t !in s0.routes ensures t in FeatureNames(s.meta[c].features) {
      assert Declares(s.meta[c], t);
    }
  }

  /** With no empty sets stored, the nested map is determined by who is in which set. */
  lemma SameMembersSameBroker<C>(a: map<Topic, set<C>>, b: map<Topic, set<C>>)
    requires forall t :: t in a ==> a[t] != {}
    requires forall t :: t in b ==> b[t] != {}
    requires forall t :: Members(a, t) == Members(b, t)
    ensures a == b
  {
    forall t ensures t in a <==> t in b {
      assert Members(a, t) == Members(b, t);
    }
    forall t | t in a ensures a[t] == b[t] {
      assert Members(a, t) == Members(b, t);
    }
  }
}
