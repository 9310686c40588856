/**
 Queries end to end: clients that follow the library, the server that routes, FIFO links between them,
 and a routing table that may change in any way at any time.
 */
module Correlation {
  import opened Wrappers
  import opened Proto
  import M = Matcher

  type Proc = nat

  /** A message under way on the connection with this id, towards the server (Up) or the client (Down). */
  datatype Packet = Packet(up: bool, conn: Id, msg: Message)

  /** A run of a query handler: at which connection, on which message, with which result, and the response made of it. */
  datatype HandlerRun = HandlerRun(at: Id, on: Message, result: Payload, reply: Message)

  /** What happened to one correlation id, recorded for the proofs. */
  datatype Trace = Trace(proc: Proc, call: M.Call, conn: Id, query: Message, routedTo: Option<Id>, run: Option<HandlerRun>)

  datatype Net = Net(
    matchers: map<Proc, M.State>,
    current: map<Proc, Id>,               // the connection a client sends on and reads from
    conns: map<Id, Proc>,                 // every connection ever made
    live: set<Id>,                        // the server's registry
    owner: map<Topic, Id>,                // the server's routing table
    links: seq<Packet>,                   // all that is under way, oldest first
    issued: map<M.Corr, (Proc, M.Call)>,  // correlation ids are fresh across all clients
    traces: map<M.Corr, Trace>,
    handled: seq<Message>)                // responses that some read loop has handled

  datatype Step =
    | Connect(p: Proc, id: Id)
    | Unregister(id: Id)
    | Reroute(owner: map<Topic, Id>)
    | Lose(i: nat)
    | OpenQuery(p: Proc, q: M.Call, corr: M.Corr)
    | SendQuery(p: Proc, q: M.Call, topic: Topic, payload: Payload)
    | Settle(p: Proc, step: M.Step)                                      // take, expire, clean up, or a failed send
    | ServerReads(i: nat, ok: bool)
    | ClientReads(p: Proc, i: nat, result: Option<Payload>, ok: bool)

  const INITIAL: Net := Net(map[], map[], map[], {}, map[], [], map[], map[], [])

  /** The oldest message of its link, in its direction. */
  ghost predicate Oldest(links: seq<Packet>, i: nat) {
    i < |links| && forall k :: 0 <= k < i ==> !(links[k].up == links[i].up && links[k].conn == links[i].conn)
  }

  ghost predicate Enabled(n: Net, step: Step) {
    match step
    case Connect(p, id) => id !in n.conns && id != ""
    case Unregister(id) => true
    case Reroute(owner) => true
    case Lose(i) => i < |n.links|
    case OpenQuery(p, q, corr) => p in n.matchers && corr !in n.issued && M.Enabled(n.matchers[p], M.Open(q, corr))
    case SendQuery(p, q, topic, payload) => p in n.matchers && p in n.current && M.Enabled(n.matchers[p], M.Sent(q))
    case Settle(p, s) =>
      p in n.matchers && (s.Take? || s.Expire? || s.Cleanup? || s.SendFails?) && M.Enabled(n.matchers[p], s)
    case ServerReads(i, ok) => Oldest(n.links, i) && n.links[i].up
    case ClientReads(p, i, result, ok) =>
      && p in n.matchers && p in n.current && Oldest(n.links, i) && !n.links[i].up && n.links[i].conn == n.current[p]
      && M.Enabled(n.matchers[p], M.Response(n.links[i].msg))
  }

  function Without(links: seq<Packet>, i: nat): seq<Packet>
    requires i < |links|
  {
    links[..i] + links[i + 1..]
  }

  /** The server injects the sender, then forwards a query to the topic's owner and a response to its recipient. */
  function Forward(n: Net, i: nat, ok: bool): Net
    requires i < |n.links|
  {
    var m := n.links[i].msg.(sender := n.links[i].conn);
    var rest := n.(links := Without(n.links, i));
    if m.kind == "query" && m.topic in n.owner && n.owner[m.topic] in n.live && ok then
      var o := n.owner[m.topic];
      var sent := rest.(links := rest.links + [Packet(false, o, m)]);
      if m.correlationId in n.traces
      then sent.(traces := n.traces[m.correlationId := n.traces[m.correlationId].(routedTo := Some(o))])
      else sent
    else if m.kind == "response" && m.recipient != "" && m.recipient in n.live && ok then
      rest.(links := rest.links + [Packet(false, m.recipient, m)])
    else rest
  }

  function ResponseTo(query: Message, result: Payload): Message {
    Message("response", query.topic, "", query.sender, query.correlationId, result)
  }

  /** The read loop: run the handler on a query (None: no handler, or it failed), hand a response to its channel. */
  function Read(n: Net, p: Proc, i: nat, result: Option<Payload>, ok: bool): Net
    requires p in n.matchers && i < |n.links| && M.Enabled(n.matchers[p], M.Response(n.links[i].msg))
  {
    var m, conn := n.links[i].msg, n.links[i].conn;
    var rest := n.(links := Without(n.links, i));
    if m.kind == "query" && result.Some? then
      var reply := ResponseTo(m, result.value);
      var ran :=
        if m.correlationId in n.traces
        then rest.(traces := n.traces[m.correlationId := n.traces[m.correlationId].(run := Some(HandlerRun(conn, m, result.value, reply)))])
        else rest;
      if ok then ran.(links := rest.links + [Packet(true, conn, reply)]) else ran
    else if m.kind == "response" then
      rest.(matchers := n.matchers[p := M.Respond(n.matchers[p], m)], handled := n.handled + [m])
    else rest
  }

  ghost function Next(n: Net, step: Step): Net
    requires Enabled(n, step)
  {
    match step
    case Connect(p, id) =>
      n.(conns := n.conns[id := p], current := n.current[p := id], live := n.live + {id},
         matchers := if p in n.matchers then n.matchers else n.matchers[p := M.INITIAL])
    case Unregister(id) => n.(live := n.live - {id})
    case Reroute(owner) => n.(owner := owner)
    case Lose(i) => n.(links := Without(n.links, i))
    case OpenQuery(p, q, corr) =>
      n.(matchers := n.matchers[p := M.Next(n.matchers[p], M.Open(q, corr))], issued := n.issued[corr := (p, q)])
    case SendQuery(p, q, topic, payload) =>
      var corr := n.matchers[p].queries[q].corr;
      var msg := Message("query", topic, "", "", corr, payload);
      n.(matchers := n.matchers[p := M.Next(n.matchers[p], M.Sent(q))],
         links := n.links + [Packet(true, n.current[p], msg)],
         traces := n.traces[corr := Trace(p, q, n.current[p], msg, None, None)])
    case Settle(p, s) => n.(matchers := n.matchers[p := M.Next(n.matchers[p], s)])
    case ServerReads(i, ok) => Forward(n, i, ok)
    case ClientReads(p, i, result, ok) => Read(n, p, i, result, ok)
  }

  // ---------- tokens ----------

  function CorrsOf(links: seq<Packet>): seq<M.Corr> {
    seq(|links|, i requires 0 <= i < |links| => links[i].msg.correlationId)
  }

  function CorrsIn(msgs: seq<Message>): seq<M.Corr> {
    seq(|msgs|, i requires 0 <= i < |msgs| => msgs[i].correlationId)
  }

  /** Queries under way, responses under way and responses handled, for one correlation id. */
  function Tokens(links: seq<Packet>, handled: seq<Message>, corr: M.Corr): nat {
    multiset(CorrsOf(links))[corr] + multiset(CorrsIn(handled))[corr]
  }

  lemma CorrsOfWithout(links: seq<Packet>, i: nat)
    requires i < |links|
    ensures multiset(CorrsOf(Without(links, i))) == multiset(CorrsOf(links)) - multiset{links[i].msg.correlationId}
    ensures links[i].msg.correlationId in CorrsOf(links)
  {
    var c := CorrsOf(links);
    assert c == c[..i] + [c[i]] + c[i + 1..];
    assert CorrsOf(Without(links, i)) == c[..i] + c[i + 1..];
  }

  lemma CorrsOfAppend(links: seq<Packet>, pk: Packet)
    ensures multiset(CorrsOf(links + [pk])) == multiset(CorrsOf(links)) + multiset{pk.msg.correlationId}
  {
    assert CorrsOf(links + [pk]) == CorrsOf(links) + [pk.msg.correlationId];
  }

  lemma CorrsInAppend(msgs: seq<Message>, m: Message)
    ensures multiset(CorrsIn(msgs + [m])) == multiset(CorrsIn(msgs)) + multiset{m.correlationId}
  {
    assert CorrsIn(msgs + [m]) == CorrsIn(msgs) + [m.correlationId];
  }

  /** Removing a packet takes its token away, and no other. */
  lemma TokensWithout(links: seq<Packet>, handled: seq<Message>, i: nat, corr: M.Corr)
    requires i < |links|
    ensures Tokens(links, handled, corr)
         == Tokens(Without(links, i), handled, corr) + if corr == links[i].msg.correlationId then 1 else 0
  {
    CorrsOfWithout(links, i);
  }

  lemma TokensAppend(links: seq<Packet>, handled: seq<Message>, pk: Packet, corr: M.Corr)
    ensures Tokens(links + [pk], handled, corr)
         == Tokens(links, handled, corr) + if corr == pk.msg.correlationId then 1 else 0
  {
    CorrsOfAppend(links, pk);
  }

  lemma TokensHandled(links: seq<Packet>, handled: seq<Message>, m: Message, corr: M.Corr)
    ensures Tokens(links, handled + [m], corr)
         == Tokens(links, handled, corr) + if corr == m.correlationId then 1 else 0
  {
    CorrsInAppend(handled, m);
  }

  lemma PacketHasToken(links: seq<Packet>, handled: seq<Message>, pk: Packet)
    requires pk in links
    ensures Tokens(links, handled, pk.msg.correlationId) >= 1
  {
    var i :| 0 <= i < |links| && links[i] == pk;
    assert CorrsOf(links)[i] == pk.msg.correlationId;
  }

  lemma HandledHasToken(links: seq<Packet>, handled: seq<Message>, m: Message)
    requires m in handled
    ensures Tokens(links, handled, m.correlationId) >= 1
  {
    var i :| 0 <= i < |handled| && handled[i] == m;
    assert CorrsIn(handled)[i] == m.correlationId;
  }

  lemma WithoutMembers(links: seq<Packet>, i: nat)
    requires i < |links|
    ensures forall pk :: pk in Without(links, i) ==> pk in links
  {
  }

  // ---------- what every step keeps ----------

  /** The response carries the handler's result back to the query's sender, on its topic and under its correlation id. */
  ghost predicate Replies(run: HandlerRun) {
    && run.reply.kind == "response" && run.reply.topic == run.on.topic && run.reply.payload == run.result
    && run.reply.recipient == run.on.sender && run.reply.correlationId == run.on.correlationId
  }

  /** A recorded handler run happened at the connection the query was routed to, on that very query. */
  ghost predicate RunOk(t: Trace) {
    t.run.Some? ==>
      && t.routedTo == Some(t.run.value.at)
      && t.run.value.on == t.query.(sender := t.conn)
      && Replies(t.run.value)
  }

  ghost predicate TraceOk(corr: M.Corr, t: Trace, issued: map<M.Corr, (Proc, M.Call)>, conns: map<Id, Proc>) {
    && corr in issued && issued[corr] == (t.proc, t.call)
    && t.conn in conns && conns[t.conn] == t.proc
    && t.query.kind == "query" && t.query.correlationId == corr
    && RunOk(t)
  }

  ghost predicate TracesOk(traces: map<M.Corr, Trace>, issued: map<M.Corr, (Proc, M.Call)>, conns: map<Id, Proc>) {
    forall corr :: corr in traces ==> TraceOk(corr, traces[corr], issued, conns)
  }

  /** The response that a handler run produced, as the server passed it on. */
  ghost predicate PassedOn(m: Message, t: Trace) {
    t.run.Some? && m == t.run.value.reply.(sender := t.run.value.at)
  }

  /** A packet is the query or the response of its correlation id, on the right connection. */
  ghost predicate PacketOk(pk: Packet, t: Trace) {
    if pk.msg.kind == "query" then
      && t.run.None?
      && if pk.up then pk.conn == t.conn && pk.msg == t.query && t.routedTo.None?
         else t.routedTo == Some(pk.conn) && pk.msg == t.query.(sender := t.conn)
    else
      && t.run.Some?
      && if pk.up then pk.conn == t.run.value.at && pk.msg == t.run.value.reply
         else pk.conn == t.conn && PassedOn(pk.msg, t)
  }

  ghost predicate Travels(pk: Packet, traces: map<M.Corr, Trace>) {
    pk.msg.correlationId in traces && PacketOk(pk, traces[pk.msg.correlationId])
  }

  ghost predicate PacketsOk(links: seq<Packet>, traces: map<M.Corr, Trace>) {
    forall pk :: pk in links ==> Travels(pk, traces)
  }

  ghost predicate Arrived(m: Message, traces: map<M.Corr, Trace>) {
    m.correlationId in traces && PassedOn(m, traces[m.correlationId])
  }

  ghost predicate HandledOk(handled: seq<Message>, traces: map<M.Corr, Trace>) {
    forall m :: m in handled ==> Arrived(m, traces)
  }

  ghost predicate TokensOk(links: seq<Packet>, handled: seq<Message>, traces: map<M.Corr, Trace>) {
    forall corr :: Tokens(links, handled, corr) <= if corr in traces then 1 else 0
  }

  /** A correlation id names one call of one client; it is unused until the query is sent. */
  ghost predicate CallOk(p: Proc, q: M.Call, query: M.Query, issued: map<M.Corr, (Proc, M.Call)>, traces: map<M.Corr, Trace>) {
    && query.corr in issued && issued[query.corr] == (p, q)
    && (query.pc.Opened? ==> query.corr !in traces)
  }

  ghost predicate CallsOk(matchers: map<Proc, M.State>, issued: map<M.Corr, (Proc, M.Call)>, traces: map<M.Corr, Trace>) {
    forall p, q :: p in matchers && q in matchers[p].queries ==> CallOk(p, q, matchers[p].queries[q], issued, traces)
  }

  ghost predicate CurrentOk(current: map<Proc, Id>, conns: map<Id, Proc>) {
    forall p :: p in current ==> current[p] in conns && conns[current[p]] == p
  }

  ghost predicate MatchersOk(matchers: map<Proc, M.State>) {
    forall p :: p in matchers ==> M.Exact(matchers[p])
  }

  ghost predicate GivenOk(matchers: map<Proc, M.State>, handled: seq<Message>) {
    forall p, q :: p in matchers && q in matchers[p].given ==> matchers[p].given[q] in handled
  }

  ghost predicate Inv(n: Net) {
    && TracesOk(n.traces, n.issued, n.conns)
    && PacketsOk(n.links, n.traces)
    && HandledOk(n.handled, n.traces)
    && TokensOk(n.links, n.handled, n.traces)
    && CallsOk(n.matchers, n.issued, n.traces)
    && CurrentOk(n.current, n.conns)
    && MatchersOk(n.matchers)
    && GivenOk(n.matchers, n.handled)
  }

  /** The packet at i is the only bearer of its correlation id. */
  lemma Alone(links: seq<Packet>, handled: seq<Message>, traces: map<M.Corr, Trace>, i: nat)
    requires TokensOk(links, handled, traces) && i < |links|
    ensures forall pk :: pk in Without(links, i) ==> pk.msg.correlationId != links[i].msg.correlationId
    ensures forall m :: m in handled ==> m.correlationId != links[i].msg.correlationId
  {
    hide Tokens, Without;
    var corr := links[i].msg.correlationId;
    TokensWithout(links, handled, i, corr);
    forall pk | pk in Without(links, i) ensures pk.msg.correlationId != corr {
      if pk.msg.correlationId == corr { PacketHasToken(Without(links, i), handled, pk); }
    }
    forall m | m in handled ensures m.correlationId != corr {
      if m.correlationId == corr { HandledHasToken(Without(links, i), handled, m); }
    }
  }

  // ---------- losing and moving a packet ----------

  lemma LoseTokens(links: seq<Packet>, handled: seq<Message>, traces: map<M.Corr, Trace>, i: nat)
    requires TokensOk(links, handled, traces) && i < |links|
    ensures TokensOk(Without(links, i), handled, traces)
  {
    hide Tokens, Without;
    forall corr ensures Tokens(Without(links, i), handled, corr) <= if corr in traces then 1 else 0 {
      TokensWithout(links, handled, i, corr);
    }
  }

  lemma LoseKeeps(n: Net, i: nat)
    requires Inv(n) && i < |n.links|
    ensures Inv(n.(links := Without(n.links, i)))
  {
    hide TracesOk, HandledOk, TokensOk, CallsOk, CurrentOk, MatchersOk, GivenOk, Without;
    LoseTokens(n.links, n.handled, n.traces, i);
    WithoutMembers(n.links, i);
  }

  /** t records more about the same query. */
  ghost predicate Extends(t: Trace, from: Trace) {
    t.proc == from.proc && t.call == from.call && t.conn == from.conn && t.query == from.query && RunOk(t)
  }

  lemma TracesExtended(traces: map<M.Corr, Trace>, issued: map<M.Corr, (Proc, M.Call)>, conns: map<Id, Proc>, corr: M.Corr, t: Trace)
    requires TracesOk(traces, issued, conns) && corr in traces && Extends(t, traces[corr])
    ensures TracesOk(traces[corr := t], issued, conns)
  {
    hide RunOk;
    var traces' := traces[corr := t];
    forall c | c in traces' ensures TraceOk(c, traces'[c], issued, conns) {
      assert TraceOk(c, traces[c], issued, conns);
    }
  }

  lemma CallsExtended(matchers: map<Proc, M.State>, issued: map<M.Corr, (Proc, M.Call)>, traces: map<M.Corr, Trace>, corr: M.Corr, t: Trace)
    requires CallsOk(matchers, issued, traces) && corr in traces
    ensures CallsOk(matchers, issued, traces[corr := t])
  {
    forall p, q | p in matchers && q in matchers[p].queries
      ensures CallOk(p, q, matchers[p].queries[q], issued, traces[corr := t])
    {
      assert CallOk(p, q, matchers[p].queries[q], issued, traces);
    }
  }

  lemma HandledExtended(handled: seq<Message>, traces: map<M.Corr, Trace>, corr: M.Corr, t: Trace)
    requires HandledOk(handled, traces) && forall m :: m in handled ==> m.correlationId != corr
    ensures HandledOk(handled, traces[corr := t])
  {
    hide PassedOn;
    forall m | m in handled ensures Arrived(m, traces[corr := t]) {
      assert Arrived(m, traces);
    }
  }

  lemma PacketsExtended(links: seq<Packet>, traces: map<M.Corr, Trace>, corr: M.Corr, t: Trace)
    requires PacketsOk(links, traces) && forall pk :: pk in links ==> pk.msg.correlationId != corr
    ensures PacketsOk(links, traces[corr := t])
  {
    hide PacketOk;
    forall pk | pk in links ensures Travels(pk, traces[corr := t]) {
      assert Travels(pk, traces);
    }
  }

  /** Dropping the packet at i while recording more about its query. */
  lemma DropKeeps(n: Net, i: nat, t: Trace)
    requires Inv(n) && i < |n.links| && n.links[i].msg.correlationId in n.traces
    requires Extends(t, n.traces[n.links[i].msg.correlationId])
    ensures Inv(n.(links := Without(n.links, i), traces := n.traces[n.links[i].msg.correlationId := t]))
  {
    hide TracesOk, PacketsOk, HandledOk, TokensOk, CallsOk, CurrentOk, MatchersOk, GivenOk, Without, Extends;
    var corr := n.links[i].msg.correlationId;
    Alone(n.links, n.handled, n.traces, i);
    LoseKeeps(n, i);
    PacketsExtended(Without(n.links, i), n.traces, corr, t);
    HandledExtended(n.handled, n.traces, corr, t);
    CallsExtended(n.matchers, n.issued, n.traces, corr, t);
    TracesExtended(n.traces, n.issued, n.conns, corr, t);
    TokensExtended(Without(n.links, i), n.handled, n.traces, corr, t);
  }

  lemma TokensExtended(links: seq<Packet>, handled: seq<Message>, traces: map<M.Corr, Trace>, corr: M.Corr, t: Trace)
    requires TokensOk(links, handled, traces)
    ensures TokensOk(links, handled, traces[corr := t])
  {
    hide Tokens;
  }

  lemma MoveTokens(links: seq<Packet>, handled: seq<Message>, traces: map<M.Corr, Trace>, i: nat, pk: Packet)
    requires TokensOk(links, handled, traces) && i < |links| && pk.msg.correlationId == links[i].msg.correlationId
    ensures TokensOk(Without(links, i) + [pk], handled, traces)
  {
    hide Tokens, Without;
    forall corr ensures Tokens(Without(links, i) + [pk], handled, corr) <= if corr in traces then 1 else 0 {
      TokensWithout(links, handled, i, corr);
      TokensAppend(Without(links, i), handled, pk, corr);
    }
  }

  lemma PacketsAppend(links: seq<Packet>, traces: map<M.Corr, Trace>, pk: Packet)
    requires PacketsOk(links, traces) && Travels(pk, traces)
    ensures PacketsOk(links + [pk], traces)
  {
    hide Travels;
  }

  /** Replacing the packet at i by its continuation, with more recorded about its query. */
  lemma MoveKeeps(n: Net, i: nat, pk: Packet, t: Trace)
    requires Inv(n) && i < |n.links| && pk.msg.correlationId == n.links[i].msg.correlationId
    requires pk.msg.correlationId in n.traces && Extends(t, n.traces[pk.msg.correlationId]) && PacketOk(pk, t)
    ensures Inv(n.(links := Without(n.links, i) + [pk], traces := n.traces[pk.msg.correlationId := t]))
  {
    hide TracesOk, PacketsOk, HandledOk, TokensOk, CallsOk, CurrentOk, MatchersOk, GivenOk, Without, Extends, PacketOk;
    var corr := pk.msg.correlationId;
    DropKeeps(n, i, t);
    MoveTokens(n.links, n.handled, n.traces, i, pk);
    TokensExtended(Without(n.links, i) + [pk], n.handled, n.traces, corr, t);
    PacketsAppend(Without(n.links, i), n.traces[corr := t], pk);
  }

  // ---------- the steps ----------

  lemma ConnectKeeps(n: Net, p: Proc, id: Id)
    requires Inv(n) && Enabled(n, Connect(p, id))
    ensures Inv(Next(n, Connect(p, id)))
  {
    hide PacketsOk, HandledOk, TokensOk, RunOk, CallOk, M.Exact;
    var n' := Next(n, Connect(p, id));
    assert M.Exact(M.INITIAL) by { InitialExact(); }
    forall corr | corr in n'.traces ensures TraceOk(corr, n'.traces[corr], n'.issued, n'.conns) {
      assert TraceOk(corr, n.traces[corr], n.issued, n.conns);
    }
  }

  lemma InitialExact()
    ensures M.Exact(M.INITIAL)
  {
  }

  /** One client's matcher takes a step that opens nothing and handles no response. */
  lemma MatcherStepKeeps(n: Net, p: Proc, s: M.Step)
    requires Inv(n) && p in n.matchers && M.Enabled(n.matchers[p], s) && M.Fresh(n.matchers[p], s)
    requires !s.Open? && !s.Response?
    ensures Inv(n.(matchers := n.matchers[p := M.Next(n.matchers[p], s)]))
  {
    hide TracesOk, PacketsOk, HandledOk, TokensOk, CurrentOk, M.Exact, M.Fresh;
    var m := n.matchers[p];
    var m' := M.Next(m, s);
    M.NextExact(m, s);
    MatcherStepShape(m, s);
    var matchers := n.matchers[p := m'];
    forall p', q | p' in matchers && q in matchers[p'].queries
      ensures CallOk(p', q, matchers[p'].queries[q], n.issued, n.traces)
    {
      assert CallOk(p', q, n.matchers[p'].queries[q], n.issued, n.traces);
    }
  }

  lemma MatcherStepShape(m: M.State, s: M.Step)
    requires M.Enabled(m, s) && !s.Open? && !s.Response?
    ensures M.Next(m, s).queries.Keys == m.queries.Keys && M.Next(m, s).given == m.given
    ensures forall q :: q in m.queries ==>
      && M.Next(m, s).queries[q].corr == m.queries[q].corr
      && (M.Next(m, s).queries[q].pc.Opened? ==> m.queries[q].pc.Opened?)
  {
  }

  /** Correlation ids are fresh across all clients, so in particular within one. */
  lemma OpenIsFresh(n: Net, p: Proc, q: M.Call, corr: M.Corr)
    requires CallsOk(n.matchers, n.issued, n.traces) && p in n.matchers && corr !in n.issued
    ensures M.Fresh(n.matchers[p], M.Open(q, corr))
  {
    forall q' | q' in n.matchers[p].queries ensures n.matchers[p].queries[q'].corr != corr {
      assert CallOk(p, q', n.matchers[p].queries[q'], n.issued, n.traces);
    }
  }

  lemma OpenTraces(n: Net, p: Proc, q: M.Call, corr: M.Corr)
    requires TracesOk(n.traces, n.issued, n.conns) && corr !in n.issued
    ensures TracesOk(n.traces, n.issued[corr := (p, q)], n.conns) && corr !in n.traces
  {
    hide RunOk;
    assert corr in n.traces ==> TraceOk(corr, n.traces[corr], n.issued, n.conns);
    forall c | c in n.traces ensures TraceOk(c, n.traces[c], n.issued[corr := (p, q)], n.conns) {
      assert TraceOk(c, n.traces[c], n.issued, n.conns);
    }
  }

  lemma OpenCalls(n: Net, p: Proc, q: M.Call, corr: M.Corr)
    requires CallsOk(n.matchers, n.issued, n.traces) && corr !in n.traces && Enabled(n, OpenQuery(p, q, corr))
    ensures var n' := Next(n, OpenQuery(p, q, corr)); CallsOk(n'.matchers, n'.issued, n'.traces)
  {
    var n' := Next(n, OpenQuery(p, q, corr));
    forall p', q' | p' in n'.matchers && q' in n'.matchers[p'].queries
      ensures CallOk(p', q', n'.matchers[p'].queries[q'], n'.issued, n'.traces)
    {
      assert (p', q') != (p, q) ==> CallOk(p', q', n.matchers[p'].queries[q'], n.issued, n.traces);
    }
  }

  lemma OpenKeeps(n: Net, p: Proc, q: M.Call, corr: M.Corr)
    requires Inv(n) && Enabled(n, OpenQuery(p, q, corr))
    ensures Inv(Next(n, OpenQuery(p, q, corr)))
  {
    hide TracesOk, PacketsOk, HandledOk, TokensOk, CurrentOk, CallsOk, M.Exact, M.Fresh;
    OpenIsFresh(n, p, q, corr);
    M.NextExact(n.matchers[p], M.Open(q, corr));
    OpenTraces(n, p, q, corr);
    OpenCalls(n, p, q, corr);
  }

  /** The packet that SendQuery writes, and what is recorded about it. */
  lemma SentPacket(n: Net, p: Proc, q: M.Call, topic: Topic, payload: Payload)
    requires Inv(n) && Enabled(n, SendQuery(p, q, topic, payload))
    ensures var corr := n.matchers[p].queries[q].corr;
      && corr !in n.traces
      && var t := Trace(p, q, n.current[p], Message("query", topic, "", "", corr, payload), None, None);
      TraceOk(corr, t, n.issued, n.conns) && PacketOk(Packet(true, n.current[p], t.query), t)
  {
    hide TracesOk, PacketsOk, HandledOk, TokensOk, GivenOk, MatchersOk;
    assert CallOk(p, q, n.matchers[p].queries[q], n.issued, n.traces);
  }

  lemma NewTrace(n: Net, corr: M.Corr, t: Trace, pk: Packet)
    requires Inv(n) && corr !in n.traces && TraceOk(corr, t, n.issued, n.conns)
    requires pk.msg.correlationId == corr && PacketOk(pk, t)
    ensures TracesOk(n.traces[corr := t], n.issued, n.conns)
    ensures PacketsOk(n.links + [pk], n.traces[corr := t])
    ensures HandledOk(n.handled, n.traces[corr := t])
    ensures TokensOk(n.links + [pk], n.handled, n.traces[corr := t])
  {
    hide TraceOk, PacketOk, PassedOn, Tokens, CallsOk, CurrentOk, MatchersOk, GivenOk;
    var traces := n.traces[corr := t];
    forall c | c in traces ensures TraceOk(c, traces[c], n.issued, n.conns) { }
    forall other | other in n.links + [pk] ensures Travels(other, traces) {
      assert other in n.links ==> Travels(other, n.traces);
    }
    forall m | m in n.handled ensures Arrived(m, traces) {
      assert Arrived(m, n.traces);
    }
    forall c ensures Tokens(n.links + [pk], n.handled, c) <= if c in traces then 1 else 0 {
      TokensAppend(n.links, n.handled, pk, c);
    }
  }

  lemma SentCalls(n: Net, p: Proc, q: M.Call, t: Trace)
    requires Inv(n) && p in n.matchers && M.Enabled(n.matchers[p], M.Sent(q)) && q in n.matchers[p].queries
    ensures CallsOk(n.matchers[p := M.Next(n.matchers[p], M.Sent(q))], n.issued, n.traces[n.matchers[p].queries[q].corr := t])
  {
    hide TracesOk, PacketsOk, HandledOk, TokensOk, CurrentOk, MatchersOk, GivenOk, M.Exact, M.Fresh;
    var corr := n.matchers[p].queries[q].corr;
    assert CallOk(p, q, n.matchers[p].queries[q], n.issued, n.traces);
    MatcherStepShape(n.matchers[p], M.Sent(q));
    var matchers := n.matchers[p := M.Next(n.matchers[p], M.Sent(q))];
    forall p', q' | p' in matchers && q' in matchers[p'].queries
      ensures CallOk(p', q', matchers[p'].queries[q'], n.issued, n.traces[corr := t])
    {
      assert CallOk(p', q', n.matchers[p'].queries[q'], n.issued, n.traces);
    }
  }

  lemma SentOpensNothing(n: Net, p: Proc, q: M.Call)
    requires p in n.matchers
    ensures M.Fresh(n.matchers[p], M.Sent(q))
  {
  }

  lemma SendKeeps(n: Net, p: Proc, q: M.Call, topic: Topic, payload: Payload)
    requires Inv(n) && Enabled(n, SendQuery(p, q, topic, payload))
    ensures Inv(Next(n, SendQuery(p, q, topic, payload)))
  {
    var corr := n.matchers[p].queries[q].corr;
    var t := Trace(p, q, n.current[p], Message("query", topic, "", "", corr, payload), None, None);
    hide TracesOk, PacketsOk, HandledOk, TokensOk, CallsOk, CurrentOk, M.Exact, TraceOk, PacketOk, M.Next, M.Fresh;
    SentPacket(n, p, q, topic, payload);
    NewTrace(n, corr, t, Packet(true, n.current[p], t.query));
    SentCalls(n, p, q, t);
    SentOpensNothing(n, p, q);
    MatcherStepKeeps(n, p, M.Sent(q));
  }

  /** The query at i, still on its way to the server. */
  lemma UpQuery(n: Net, i: nat)
    requires Inv(n) && i < |n.links| && n.links[i].up && n.links[i].msg.kind == "query"
    ensures var m := n.links[i].msg; m.correlationId in n.traces
    ensures var m := n.links[i].msg; var t := n.traces[m.correlationId];
      && t.query == m && t.conn == n.links[i].conn && t.run.None? && t.routedTo.None? && RunOk(t)
      && t.query.correlationId == m.correlationId
  {
    hide HandledOk, TokensOk, CallsOk, CurrentOk, MatchersOk, GivenOk;
    assert Travels(n.links[i], n.traces);
    assert TraceOk(n.links[i].msg.correlationId, n.traces[n.links[i].msg.correlationId], n.issued, n.conns);
  }

  lemma ServerReadsKeeps(n: Net, i: nat, ok: bool)
    requires Inv(n) && Enabled(n, ServerReads(i, ok))
    ensures Inv(Next(n, ServerReads(i, ok)))
  {
    hide Inv, Without;
    var m := n.links[i].msg.(sender := n.links[i].conn);
    LoseKeeps(n, i);
    if m.kind == "query" && m.topic in n.owner && n.owner[m.topic] in n.live && ok {
      UpQuery(n, i);
      var t := n.traces[m.correlationId];
      var o := n.owner[m.topic];
      MoveKeeps(n, i, Packet(false, o, m), t.(routedTo := Some(o)));
    } else if m.kind == "response" && m.recipient != "" && m.recipient in n.live && ok {
      UpResponse(n, i);
      var t := n.traces[m.correlationId];
      assert n.traces[m.correlationId := t] == n.traces;
      MoveKeeps(n, i, Packet(false, m.recipient, m), t);
    }
  }

  /** The response at i, on its way to the server: addressed to the connection that asked. */
  lemma UpResponse(n: Net, i: nat)
    requires Inv(n) && i < |n.links| && n.links[i].up && n.links[i].msg.kind != "query"
    ensures var m := n.links[i].msg; m.correlationId in n.traces
    ensures var m := n.links[i].msg; var t := n.traces[m.correlationId];
      && RunOk(t) && m.recipient == t.conn && PassedOn(m.(sender := n.links[i].conn), t)
  {
    hide HandledOk, TokensOk, CallsOk, CurrentOk, MatchersOk, GivenOk;
    assert Travels(n.links[i], n.traces);
    assert TraceOk(n.links[i].msg.correlationId, n.traces[n.links[i].msg.correlationId], n.issued, n.conns);
  }

  /** The query at i, at the connection it was routed to. */
  lemma DownQuery(n: Net, i: nat)
    requires Inv(n) && i < |n.links| && !n.links[i].up && n.links[i].msg.kind == "query"
    ensures var m := n.links[i].msg; m.correlationId in n.traces
    ensures var m := n.links[i].msg; var t := n.traces[m.correlationId];
      && t.routedTo == Some(n.links[i].conn) && m == t.query.(sender := t.conn) && t.run.None?
  {
    hide HandledOk, TokensOk, CallsOk, CurrentOk, MatchersOk, GivenOk;
    assert Travels(n.links[i], n.traces);
  }

  /** The response at i is at the client that asked. */
  lemma DownResponse(n: Net, i: nat)
    requires Inv(n) && i < |n.links| && !n.links[i].up && n.links[i].msg.kind == "response"
    ensures Arrived(n.links[i].msg, n.traces)
    ensures n.links[i].conn == n.traces[n.links[i].msg.correlationId].conn
  {
    hide HandledOk, TokensOk, CallsOk, CurrentOk, MatchersOk, GivenOk, TracesOk;
    assert Travels(n.links[i], n.traces);
  }

  lemma HandlerRunKeeps(n: Net, p: Proc, i: nat, result: Payload, ok: bool)
    requires Inv(n) && Enabled(n, ClientReads(p, i, Some(result), ok)) && n.links[i].msg.kind == "query"
    ensures Inv(Next(n, ClientReads(p, i, Some(result), ok)))
    ensures ok ==>
      var query, links := n.links[i], Next(n, ClientReads(p, i, Some(result), ok)).links;
      && |links| == |n.links| && links[|links| - 1].up && links[|links| - 1].conn == query.conn
      && links[|links| - 1].msg.kind == "response" && links[|links| - 1].msg.payload == result
      && links[|links| - 1].msg.recipient == query.msg.sender && links[|links| - 1].msg.topic == query.msg.topic
      && links[|links| - 1].msg.correlationId == query.msg.correlationId
  {
    assert |Without(n.links, i)| == |n.links| - 1;
    hide Inv, PassedOn, Without, M.Enabled;
    DownQuery(n, i);
    var m, conn := n.links[i].msg, n.links[i].conn;
    var t := n.traces[m.correlationId];
    var reply := ResponseTo(m, result);
    var t' := t.(run := Some(HandlerRun(conn, m, result, reply)));
    if ok {
      MoveKeeps(n, i, Packet(true, conn, reply), t');
    } else {
      DropKeeps(n, i, t');
    }
  }

  lemma RespondShape(m: M.State, msg: Message)
    requires M.Enabled(m, M.Response(msg))
    ensures M.Respond(m, msg).queries == m.queries
    ensures forall q :: q in M.Respond(m, msg).given ==>
      M.Respond(m, msg).given[q] == msg || (q in m.given && M.Respond(m, msg).given[q] == m.given[q])
  {
  }

  lemma RespondMatchers(matchers: map<Proc, M.State>, handled: seq<Message>, p: Proc, msg: Message)
    requires MatchersOk(matchers) && GivenOk(matchers, handled) && p in matchers && M.Enabled(matchers[p], M.Response(msg))
    ensures MatchersOk(matchers[p := M.Respond(matchers[p], msg)])
    ensures GivenOk(matchers[p := M.Respond(matchers[p], msg)], handled + [msg])
  {
    hide M.Exact, M.Respond;
    M.NextExact(matchers[p], M.Response(msg));
    RespondShape(matchers[p], msg);
  }

  lemma RespondCalls(n: Net, p: Proc, msg: Message)
    requires CallsOk(n.matchers, n.issued, n.traces) && p in n.matchers && M.Enabled(n.matchers[p], M.Response(msg))
    ensures CallsOk(n.matchers[p := M.Respond(n.matchers[p], msg)], n.issued, n.traces)
  {
    hide M.Respond;
    RespondShape(n.matchers[p], msg);
    var matchers := n.matchers[p := M.Respond(n.matchers[p], msg)];
    forall p', q | p' in matchers && q in matchers[p'].queries
      ensures CallOk(p', q, matchers[p'].queries[q], n.issued, n.traces)
    {
      assert CallOk(p', q, n.matchers[p'].queries[q], n.issued, n.traces);
    }
  }

  lemma HandleTokens(links: seq<Packet>, handled: seq<Message>, traces: map<M.Corr, Trace>, i: nat)
    requires TokensOk(links, handled, traces) && i < |links|
    ensures TokensOk(Without(links, i), handled + [links[i].msg], traces)
  {
    hide Tokens, Without;
    var m := links[i].msg;
    forall corr ensures Tokens(Without(links, i), handled + [m], corr) <= if corr in traces then 1 else 0 {
      TokensWithout(links, handled, i, corr);
      TokensHandled(Without(links, i), handled, m, corr);
    }
  }

  lemma ResponseKeeps(n: Net, p: Proc, i: nat, result: Option<Payload>, ok: bool)
    requires Inv(n) && Enabled(n, ClientReads(p, i, result, ok)) && n.links[i].msg.kind == "response"
    ensures Inv(Next(n, ClientReads(p, i, result, ok)))
  {
    var msg := n.links[i].msg;
    HandleTokens(n.links, n.handled, n.traces, i);
    RespondMatchers(n.matchers, n.handled, p, msg);
    RespondCalls(n, p, msg);
    DownResponse(n, i);
    LoseKeeps(n, i);
    hide TracesOk, PacketsOk, TokensOk, CallsOk, CurrentOk, MatchersOk, GivenOk, Arrived, Without, M.Respond, M.Enabled, Oldest;
  }

  lemma NextKeeps(n: Net, step: Step)
    requires Inv(n) && Enabled(n, step)
    ensures Inv(Next(n, step))
  {
    match step {
      case Connect(p, id) => ConnectKeeps(n, p, id);
      case Unregister(id) =>
      case Reroute(owner) =>
      case Lose(i) => LoseKeeps(n, i);
      case OpenQuery(p, q, corr) => OpenKeeps(n, p, q, corr);
      case SendQuery(p, q, topic, payload) => SendKeeps(n, p, q, topic, payload);
      case Settle(p, s) => MatcherStepKeeps(n, p, s);
      case ServerReads(i, ok) => ServerReadsKeeps(n, i, ok);
      case ClientReads(p, i, result, ok) =>
        if n.links[i].msg.kind == "query" && result.Some? {
          HandlerRunKeeps(n, p, i, result.value, ok);
        } else if n.links[i].msg.kind == "response" {
          ResponseKeeps(n, p, i, result, ok);
        } else {
          LoseKeeps(n, i);
        }
    }
  }
}
