/**
 What queries can rely on, over every run of the network of Correlation.dfy.
 */
module CorrelationTheorems {
  import opened Wrappers
  import opened Proto
  import opened C = Correlation
  import M = Matcher
  import S = ServerState

  ghost predicate IsRun(states: seq<Net>, steps: seq<Step>) {
    && |states| == |steps| + 1 && states[0] == INITIAL
    && forall i :: 0 <= i < |steps| ==> Enabled(states[i], steps[i]) && states[i + 1] == Next(states[i], steps[i])
  }

  lemma {:induction false} RunInv(states: seq<Net>, steps: seq<Step>, i: nat)
    requires IsRun(states, steps) && i < |states|
    ensures Inv(states[i])
  {
    if i > 0 {
      RunInv(states, steps, i - 1);
      NextKeeps(states[i - 1], steps[i - 1]);
    }
  }

  /** A client can always read the oldest message of its connection: the matcher never gets in the way. */
  lemma ReadingNeverBlocks(states: seq<Net>, steps: seq<Step>, k: nat, p: Proc, i: nat, result: Option<Payload>, ok: bool)
    requires IsRun(states, steps) && k < |states|
    requires p in states[k].matchers && p in states[k].current && Oldest(states[k].links, i)
    requires !states[k].links[i].up && states[k].links[i].conn == states[k].current[p]
    ensures Enabled(states[k], ClientReads(p, i, result, ok))
  {
    hide M.Safe, Next;
    RunInv(states, steps, k);
    M.ResponsesAreSafe(states[k].matchers[p], states[k].links[i].msg);
  }

  /** Queries under way, responses under way and responses handled never exceed one per correlation id. */
  lemma AtMostOneToken(states: seq<Net>, steps: seq<Step>, i: nat, corr: M.Corr)
    requires IsRun(states, steps) && i < |states|
    ensures Tokens(states[i].links, states[i].handled, corr) <= 1
  {
    hide Tokens;
    RunInv(states, steps, i);
  }

  // ---------- what is recorded about a query never changes ----------

  /** to says everything that from says. */
  ghost predicate Keeps(from: Trace, to: Trace) {
    && to.proc == from.proc && to.call == from.call && to.conn == from.conn && to.query == from.query
    && (from.routedTo.Some? ==> to.routedTo == from.routedTo)
    && (from.run.Some? ==> to.run == from.run)
  }

  lemma TraceStaysWhenRouted(n: Net, i: nat, ok: bool, corr: M.Corr)
    requires Inv(n) && Enabled(n, ServerReads(i, ok)) && corr in n.traces
    ensures corr in Forward(n, i, ok).traces && Keeps(n.traces[corr], Forward(n, i, ok).traces[corr])
  {
    hide Inv, Without, RunOk, PacketOk, PassedOn;
    if n.links[i].msg.kind == "query" { UpQuery(n, i); }
  }

  lemma TraceStaysWhenRead(n: Net, p: Proc, i: nat, result: Option<Payload>, ok: bool, corr: M.Corr)
    requires Inv(n) && Enabled(n, ClientReads(p, i, result, ok)) && corr in n.traces
    ensures corr in Read(n, p, i, result, ok).traces && Keeps(n.traces[corr], Read(n, p, i, result, ok).traces[corr])
  {
    hide Inv, Without, RunOk, PacketOk, PassedOn, M.Respond, M.Enabled;
    if n.links[i].msg.kind == "query" { DownQuery(n, i); }
  }

  lemma TraceStays(n: Net, step: Step, corr: M.Corr)
    requires Inv(n) && Enabled(n, step) && corr in n.traces
    ensures corr in Next(n, step).traces && Keeps(n.traces[corr], Next(n, step).traces[corr])
  {
    hide Inv, Forward, Read, M.Next, M.Enabled, PacketOk, TraceOk;
    match step {
      case SendQuery(p, q, topic, payload) => SentPacket(n, p, q, topic, payload);
      case ServerReads(i, ok) => TraceStaysWhenRouted(n, i, ok, corr);
      case ClientReads(p, i, result, ok) => TraceStaysWhenRead(n, p, i, result, ok, corr);
      case _ =>
    }
  }

  // ---------- how a trace came about ----------

  /** The call q of client p writes this query on this connection. */
  ghost predicate Sent(n: Net, step: Step, p: Proc, q: M.Call, conn: Id, query: Message) {
    && step.SendQuery? && step.p == p && step.q == q && p in n.current && n.current[p] == conn
    && p in n.matchers && q in n.matchers[p].queries
    && query == Message("query", step.topic, "", "", n.matchers[p].queries[q].corr, step.payload)
  }

  /** The server passes the query on to the registered client that owns its topic at this moment. */
  ghost predicate Routed(n: Net, step: Step, conn: Id, query: Message, at: Id) {
    && step.ServerReads? && step.ok && step.i < |n.links|
    && n.links[step.i] == Packet(true, conn, query) && query.kind == "query"
    && query.topic in n.owner && n.owner[query.topic] == at && at in n.live
  }

  /** The client whose connection this is runs its handler on the query. */
  ghost predicate Ran(n: Net, step: Step, run: HandlerRun) {
    && step.ClientReads? && step.result.Some? && step.i < |n.links|
    && n.links[step.i] == Packet(false, run.at, run.on) && run.on.kind == "query"
    && step.p in n.current && n.current[step.p] == run.at
    && run.result == step.result.value && Replies(run)
  }

  lemma NewTraceIsSent(n: Net, step: Step, corr: M.Corr)
    requires Inv(n) && Enabled(n, step) && corr !in n.traces && corr in Next(n, step).traces
    ensures var t := Next(n, step).traces[corr];
      Sent(n, step, t.proc, t.call, t.conn, t.query) && t.routedTo.None? && t.run.None?
  {
    hide Inv, Forward, Read, M.Next;
    if !step.SendQuery? { TracesOnlyGrow(n, step); }
  }

  lemma TracesOnlyGrow(n: Net, step: Step)
    requires Enabled(n, step) && !step.SendQuery?
    ensures Next(n, step).traces.Keys == n.traces.Keys
  {
    hide Forward, Read, M.Next;
    match step {
      case ServerReads(i, ok) => ForwardTraces(n, i, ok);
      case ClientReads(p, i, result, ok) => ReadTraces(n, p, i, result, ok);
      case _ =>
    }
  }

  /** The server records nothing but where it routes a query. */
  lemma ForwardTraces(n: Net, i: nat, ok: bool)
    requires i < |n.links|
    ensures Forward(n, i, ok).traces.Keys == n.traces.Keys
    ensures forall corr :: corr in n.traces ==> Forward(n, i, ok).traces[corr].run == n.traces[corr].run
  {
    hide Without;
    var corr := n.links[i].msg.correlationId;
    assert Forward(n, i, ok).traces == n.traces
      || (corr in n.traces && exists o :: Forward(n, i, ok).traces == n.traces[corr := n.traces[corr].(routedTo := o)]);
  }

  /** A read loop records nothing but its handler runs. */
  lemma ReadTraces(n: Net, p: Proc, i: nat, result: Option<Payload>, ok: bool)
    requires p in n.matchers && i < |n.links| && M.Enabled(n.matchers[p], M.Response(n.links[i].msg))
    ensures Read(n, p, i, result, ok).traces.Keys == n.traces.Keys
    ensures forall corr :: corr in n.traces ==> Read(n, p, i, result, ok).traces[corr].routedTo == n.traces[corr].routedTo
  {
    hide Without, M.Respond, ResponseTo;
    var corr := n.links[i].msg.correlationId;
    assert Read(n, p, i, result, ok).traces == n.traces
      || (corr in n.traces && exists run :: Read(n, p, i, result, ok).traces == n.traces[corr := n.traces[corr].(run := run)]);
  }

  lemma NewRouteIsRouted(n: Net, step: Step, corr: M.Corr)
    requires Inv(n) && Enabled(n, step) && corr in n.traces && n.traces[corr].routedTo.None?
    requires corr in Next(n, step).traces && Next(n, step).traces[corr].routedTo.Some?
    ensures var t := Next(n, step).traces[corr]; Routed(n, step, t.conn, t.query, t.routedTo.value)
  {
    hide Inv, Forward, Read, M.Next, M.Enabled, PacketOk, RunOk, TraceOk;
    match step {
      case SendQuery(p, q, topic, payload) => SentPacket(n, p, q, topic, payload);
      case ServerReads(i, ok) => ForwardRoutes(n, i, ok, corr);
      case ClientReads(p, i, result, ok) => ReadTraces(n, p, i, result, ok);
      case _ =>
    }
  }

  lemma ForwardRoutes(n: Net, i: nat, ok: bool, corr: M.Corr)
    requires Inv(n) && Enabled(n, ServerReads(i, ok)) && corr in n.traces && n.traces[corr].routedTo.None?
    requires corr in Forward(n, i, ok).traces && Forward(n, i, ok).traces[corr].routedTo.Some?
    ensures var t := Forward(n, i, ok).traces[corr]; Routed(n, ServerReads(i, ok), t.conn, t.query, t.routedTo.value)
  {
    hide Inv, Without, RunOk;
    if n.links[i].msg.kind == "query" { UpQuery(n, i); }
  }

  lemma NewRunRan(n: Net, step: Step, corr: M.Corr)
    requires Inv(n) && Enabled(n, step) && corr in n.traces && n.traces[corr].run.None?
    requires corr in Next(n, step).traces && Next(n, step).traces[corr].run.Some?
    ensures Ran(n, step, Next(n, step).traces[corr].run.value) && n.traces[corr].routedTo.Some?
  {
    hide Inv, Forward, Read, M.Next, M.Enabled, PacketOk, RunOk, TraceOk;
    match step {
      case SendQuery(p, q, topic, payload) => SentPacket(n, p, q, topic, payload);
      case ServerReads(i, ok) => ForwardTraces(n, i, ok);
      case ClientReads(p, i, result, ok) => ReadRuns(n, p, i, result, ok, corr);
      case _ =>
    }
  }

  lemma ReadRuns(n: Net, p: Proc, i: nat, result: Option<Payload>, ok: bool, corr: M.Corr)
    requires Inv(n) && Enabled(n, ClientReads(p, i, result, ok)) && corr in n.traces && n.traces[corr].run.None?
    requires corr in Read(n, p, i, result, ok).traces && Read(n, p, i, result, ok).traces[corr].run.Some?
    ensures Ran(n, ClientReads(p, i, result, ok), Read(n, p, i, result, ok).traces[corr].run.value)
    ensures n.traces[corr].routedTo.Some?
  {
    hide Inv, Without, RunOk, M.Respond, M.Enabled;
    if n.links[i].msg.kind == "query" { DownQuery(n, i); }
  }

  lemma {:induction false} SentSometime(states: seq<Net>, steps: seq<Step>, i: nat, corr: M.Corr)
    requires IsRun(states, steps) && i < |states| && corr in states[i].traces
    ensures var t := states[i].traces[corr];
      exists h :: 0 <= h < i && Sent(states[h], steps[h], t.proc, t.call, t.conn, t.query)
  {
    hide Inv, Next, Enabled, Sent;
    if i > 0 {
      RunInv(states, steps, i - 1);
      if corr in states[i - 1].traces {
        SentSometime(states, steps, i - 1, corr);
        TraceStays(states[i - 1], steps[i - 1], corr);
      } else {
        NewTraceIsSent(states[i - 1], steps[i - 1], corr);
      }
    }
  }

  lemma {:induction false} RoutedSometime(states: seq<Net>, steps: seq<Step>, i: nat, corr: M.Corr)
    requires IsRun(states, steps) && i < |states| && corr in states[i].traces && states[i].traces[corr].routedTo.Some?
    ensures var t := states[i].traces[corr];
      exists j :: 0 <= j < i && corr in states[j].traces && Routed(states[j], steps[j], t.conn, t.query, t.routedTo.value)
  {
    hide Inv, Next, Enabled, Routed;
    if i > 0 {
      RunInv(states, steps, i - 1);
      if corr !in states[i - 1].traces {
        NewTraceIsSent(states[i - 1], steps[i - 1], corr);
        assert false;
      }
      TraceStays(states[i - 1], steps[i - 1], corr);
      if states[i - 1].traces[corr].routedTo.Some? {
        RoutedSometime(states, steps, i - 1, corr);
      } else {
        NewRouteIsRouted(states[i - 1], steps[i - 1], corr);
      }
    }
  }

  /** Already in n the query was routed, as t records it. */
  ghost predicate RoutedBy(n: Net, corr: M.Corr, t: Trace) {
    corr in n.traces && n.traces[corr].routedTo.Some? && Keeps(n.traces[corr], t)
  }

  lemma {:induction false} RanSometime(states: seq<Net>, steps: seq<Step>, i: nat, corr: M.Corr)
    requires IsRun(states, steps) && i < |states| && corr in states[i].traces && states[i].traces[corr].run.Some?
    ensures var t := states[i].traces[corr];
      exists k :: 0 <= k < i && Ran(states[k], steps[k], t.run.value) && RoutedBy(states[k], corr, t)
  {
    hide Inv, Next, Enabled, Ran;
    if i > 0 {
      RunInv(states, steps, i - 1);
      if corr !in states[i - 1].traces {
        NewTraceIsSent(states[i - 1], steps[i - 1], corr);
        assert false;
      }
      TraceStays(states[i - 1], steps[i - 1], corr);
      if states[i - 1].traces[corr].run.Some? {
        RanSometime(states, steps, i - 1, corr);
      } else {
        NewRunRan(states[i - 1], steps[i - 1], corr);
      }
    }
  }

  // ---------- the server in this network is the server of ServerState.dfy ----------

  /** On any server state, what is forwarded goes to exactly the connections of the clients that Handle serves. */
  lemma ForwardServesRecipients<C>(s: S.State<C>, n: Net, i: nat)
    requires S.Coherent(s) && n.owner == s.routes && n.live == s.registry.Keys && i < |n.links|
    requires n.links[i].msg.kind in {"query", "response"}
    ensures
      var m := n.links[i].msg.(sender := n.links[i].conn);
      && (S.Recipients(s, m) == {} ==> Forward(n, i, true).links == Without(n.links, i))
      && forall c :: c in S.Recipients(s, m) ==>
           c in s.meta && Forward(n, i, true).links == Without(n.links, i) + [Packet(false, s.meta[c].id, m)]
  {
    hide Without;
  }

  // ---------- the main result ----------

  /** The result of a call of SendQuery, once it has one. */
  function ResultOf(pc: M.Pc): Option<M.Outcome> {
    match pc
    case Leaving(r) => Some(r)
    case Done(r) => Some(r)
    case _ => None
  }

  /**
   The story behind an answer: at step h the call wrote its query; at step j the server passed it to the
   registered owner of its topic; at step k that connection's client ran its handler on that very query
   (with the asking connection as its sender); the answer is what the handler produced.
   */
  ghost predicate Genuine(states: seq<Net>, steps: seq<Step>, h: nat, j: nat, k: nat, p: Proc, q: M.Call, t: Trace, answer: Message) {
    && h < j < k < |steps| && k < |states|
    && Sent(states[h], steps[h], p, q, t.conn, t.query)
    && t.run.Some?
    && Routed(states[j], steps[j], t.conn, t.query, t.run.value.at)
    && t.run.value.on == t.query.(sender := t.conn)
    && Ran(states[k], steps[k], t.run.value)
    && answer == t.run.value.reply.(sender := t.run.value.at)
  }

  /** An answered call was answered by the response to its own query. */
  lemma AnswerIsRecorded(n: Net, p: Proc, q: M.Call, m: Message)
    requires Inv(n) && p in n.matchers && q in n.matchers[p].queries
    requires ResultOf(n.matchers[p].queries[q].pc) == Some(M.Answered(m))
    ensures m.correlationId == n.matchers[p].queries[q].corr && Arrived(m, n.traces)
    ensures var t := n.traces[m.correlationId]; t.proc == p && t.call == q && RunOk(t)
  {
    hide PacketsOk, TokensOk, CurrentOk, RunOk, PassedOn, M.CorrsDiffer, M.EntriesExact;
    var s := n.matchers[p];
    assert M.Exact(s);
    assert M.Delivered(s, q);
    assert m == s.given[q];
    assert CallOk(p, q, s.queries[q], n.issued, n.traces);
    assert TraceOk(m.correlationId, n.traces[m.correlationId], n.issued, n.conns);
  }

  /**
   Every message that SendQuery returns was produced by a handler run on that call's own query, at the
   client that owned the query's topic when the server routed it.
   */
  lemma AnswersAreGenuine(states: seq<Net>, steps: seq<Step>, i: nat, p: Proc, q: M.Call, m: Message)
    requires IsRun(states, steps) && i < |states| && p in states[i].matchers && q in states[i].matchers[p].queries
    requires ResultOf(states[i].matchers[p].queries[q].pc) == Some(M.Answered(m))
    ensures exists h: nat, j: nat, k: nat, t :: k < i && Genuine(states, steps, h, j, k, p, q, t, m)
  {
    hide Inv, Next, Enabled, Sent, Routed, Ran;
    RunInv(states, steps, i);
    AnswerIsRecorded(states[i], p, q, m);
    var corr := m.correlationId;
    var t := states[i].traces[corr];
    RanSometime(states, steps, i, corr);
    var k :| 0 <= k < i && Ran(states[k], steps[k], t.run.value) && RoutedBy(states[k], corr, t);
    RoutedSometime(states, steps, k, corr);
    var at := t.run.value.at;
    var j :| 0 <= j < k && corr in states[j].traces && Routed(states[j], steps[j], t.conn, t.query, at);
    SentSometime(states, steps, j, corr);
    TracesKept(states, steps, j, i, corr);
    var h :| 0 <= h < j && Sent(states[h], steps[h], p, q, t.conn, t.query);
    assert Genuine(states, steps, h, j, k, p, q, t, m);
  }

  lemma {:induction false} TracesKept(states: seq<Net>, steps: seq<Step>, i: nat, j: nat, corr: M.Corr)
    requires IsRun(states, steps) && i <= j < |states| && corr in states[i].traces
    ensures corr in states[j].traces && Keeps(states[i].traces[corr], states[j].traces[corr])
    decreases j
  {
    hide Inv, Next, Enabled;
    if i < j {
      TracesKept(states, steps, i, j - 1, corr);
      RunInv(states, steps, j - 1);
      TraceStays(states[j - 1], steps[j - 1], corr);
    }
  }

  /** In this step the call writes a query on the topic with the payload, on the connection. */
  ghost predicate Asked(n: Net, step: Step, p: Proc, q: M.Call, conn: Id, topic: Topic, payload: Payload) {
    && step.SendQuery? && step.p == p && step.q == q && step.topic == topic && step.payload == payload
    && p in n.current && n.current[p] == conn
  }

  /** The packet carries a query on the topic, with the payload and the correlation id, in this direction. */
  ghost predicate Carries(pk: Packet, up: bool, conn: Id, topic: Topic, payload: Payload, corr: M.Corr) {
    && pk.up == up && pk.conn == conn && pk.msg.kind == "query"
    && pk.msg.topic == topic && pk.msg.payload == payload && pk.msg.correlationId == corr
  }

  /** In this step the server reads that query from the connection, while `at` is registered and owns the topic. */
  ghost predicate OwnerAsked(n: Net, step: Step, conn: Id, at: Id, topic: Topic, payload: Payload, corr: M.Corr) {
    && step.ServerReads? && step.ok && step.i < |n.links| && Carries(n.links[step.i], true, conn, topic, payload, corr)
    && topic in n.owner && n.owner[topic] == at && at in n.live
  }

  /** In this step the client at `at` reads that query, sent by `conn`, and its handler returns the result. */
  ghost predicate HandlerRan(n: Net, step: Step, conn: Id, at: Id, topic: Topic, payload: Payload, corr: M.Corr, result: Payload) {
    && step.ClientReads? && step.result == Some(result) && step.p in n.current && n.current[step.p] == at
    && step.i < |n.links| && Carries(n.links[step.i], false, at, topic, payload, corr)
    && n.links[step.i].msg.sender == conn
  }

  /**
   The same, field by field. The call wrote its query at step h; at step j the server read it, while `at` owned
   its topic; at step k that client read it, with the asking connection as its sender, and its handler returned a
   result; the answer is a response with that result as its payload, from the owner, to the asking connection,
   on the query's topic and under the call's correlation id.
   */
  lemma AnswersInFull(states: seq<Net>, steps: seq<Step>, i: nat, p: Proc, q: M.Call, m: Message)
    requires IsRun(states, steps) && i < |states| && p in states[i].matchers && q in states[i].matchers[p].queries
    requires ResultOf(states[i].matchers[p].queries[q].pc) == Some(M.Answered(m))
    ensures m.kind == "response" && m.correlationId == states[i].matchers[p].queries[q].corr
    ensures exists h: nat, j: nat, k: nat, payload: Payload ::
      && h < j < k < i <= |steps|
      && Asked(states[h], steps[h], p, q, m.recipient, m.topic, payload)
      && OwnerAsked(states[j], steps[j], m.recipient, m.sender, m.topic, payload, m.correlationId)
      && HandlerRan(states[k], steps[k], m.recipient, m.sender, m.topic, payload, m.correlationId, m.payload)
  {
    hide Inv, Next, Enabled;
    AnswersAreGenuine(states, steps, i, p, q, m);
    RunInv(states, steps, i);
    AnswerIsRecorded(states[i], p, q, m);
    var h: nat, j: nat, k: nat, t :| k < i && Genuine(states, steps, h, j, k, p, q, t, m);
    assert t.query.correlationId == m.correlationId;
    var payload := t.query.payload;
    assert Asked(states[h], steps[h], p, q, m.recipient, m.topic, payload);
    assert OwnerAsked(states[j], steps[j], m.recipient, m.sender, m.topic, payload, m.correlationId);
    assert HandlerRan(states[k], steps[k], m.recipient, m.sender, m.topic, payload, m.correlationId, m.payload);
  }

  /** These steps, in this order, lead from each state to the next. */
  ghost predicate Path(states: seq<Net>, steps: seq<Step>) {
    && |states| == |steps| + 1
    && forall i :: 0 <= i < |steps| ==> Enabled(states[i], steps[i]) && states[i + 1] == Next(states[i], steps[i])
  }

  /** A query on its way to its owner: sent, passed on, run, answered, passed back, handled, taken. */
  function RoundTrip(p: Proc, q: M.Call, corr: M.Corr, topic: Topic, payload: Payload, owner: Proc, result: Payload): seq<Step> {
    [OpenQuery(p, q, corr), SendQuery(p, q, topic, payload), ServerReads(0, true), ClientReads(owner, 0, Some(result), true),
     ServerReads(0, true), ClientReads(p, 0, None, true), Settle(p, M.Take(q))]
  }

  /** Nothing keeps a client from reading the oldest message of its connection. */
  lemma CanRead(n: Net, p: Proc, i: nat, result: Option<Payload>, ok: bool)
    requires Inv(n) && p in n.matchers && p in n.current && Oldest(n.links, i)
    requires !n.links[i].up && n.links[i].conn == n.current[p]
    ensures Enabled(n, ClientReads(p, i, result, ok)) && M.Safe(n.matchers[p])
  {
    hide M.Safe;
    assert M.Exact(n.matchers[p]);
    M.ResponsesAreSafe(n.matchers[p], n.links[i].msg);
  }

  lemma QueryIsSent(n: Net, p: Proc, q: M.Call, corr: M.Corr, topic: Topic, payload: Payload) returns (n1: Net, n2: Net)
    requires Inv(n) && n.links == [] && p in n.matchers && p in n.current && q !in n.matchers[p].queries && corr !in n.issued
    ensures Enabled(n, OpenQuery(p, q, corr)) && n1 == Next(n, OpenQuery(p, q, corr))
    ensures Enabled(n1, SendQuery(p, q, topic, payload)) && n2 == Next(n1, SendQuery(p, q, topic, payload)) && Inv(n2)
    ensures n2.links == [Packet(true, n.current[p], Message("query", topic, "", "", corr, payload))]
    ensures n2.current == n.current && n2.live == n.live && n2.owner == n.owner && n2.matchers.Keys == n.matchers.Keys
    ensures q in n2.matchers[p].queries && n2.matchers[p].queries[q] == M.Query(corr, M.Waiting)
    ensures corr in n2.matchers[p].resChans && n2.matchers[p].resChans[corr] == q
  {
    hide Inv;
    n1 := Next(n, OpenQuery(p, q, corr));
    NextKeeps(n, OpenQuery(p, q, corr));
    n2 := Next(n1, SendQuery(p, q, topic, payload));
    NextKeeps(n1, SendQuery(p, q, topic, payload));
  }

  /** The server passes the only message under way on to its topic's owner or to its recipient. */
  lemma IsPassedOn(n: Net, conn: Id, m: Message, to: Id) returns (n': Net)
    requires Inv(n) && n.links == [Packet(true, conn, m)] && to in n.live
    requires (m.kind == "query" && m.topic in n.owner && n.owner[m.topic] == to) || (m.kind == "response" && m.recipient == to && to != "")
    ensures Enabled(n, ServerReads(0, true)) && n' == Next(n, ServerReads(0, true)) && Inv(n')
    ensures n'.links == [Packet(false, to, m.(sender := conn))]
    ensures n'.matchers == n.matchers && n'.current == n.current && n'.live == n.live
  {
    hide Inv;
    n' := Next(n, ServerReads(0, true));
    NextKeeps(n, ServerReads(0, true));
    assert Without(n.links, 0) == [];
  }

  lemma HandlerReplies(n: Net, query: Message, owner: Proc, result: Payload) returns (n': Net)
    requires Inv(n) && owner in n.matchers && owner in n.current
    requires n.links == [Packet(false, n.current[owner], query)] && query.kind == "query"
    ensures Enabled(n, ClientReads(owner, 0, Some(result), true)) && n' == Next(n, ClientReads(owner, 0, Some(result), true)) && Inv(n')
    ensures n'.links == [Packet(true, n.current[owner], Message("response", query.topic, "", query.sender, query.correlationId, result))]
    ensures n'.matchers == n.matchers && n'.current == n.current && n'.live == n.live
  {
    hide Inv, M.Enabled, M.Respond;
    CanRead(n, owner, 0, Some(result), true);
    n' := Next(n, ClientReads(owner, 0, Some(result), true));
    NextKeeps(n, ClientReads(owner, 0, Some(result), true));
    assert Without(n.links, 0) == [];
  }

  lemma AnswerIsTaken(n5: Net, p: Proc, q: M.Call, answer: Message) returns (n6: Net, n7: Net)
    requires Inv(n5) && p in n5.matchers && p in n5.current
    requires n5.links == [Packet(false, n5.current[p], answer)] && answer.kind == "response"
    requires q in n5.matchers[p].queries && n5.matchers[p].queries[q] == M.Query(answer.correlationId, M.Waiting)
    requires answer.correlationId in n5.matchers[p].resChans && n5.matchers[p].resChans[answer.correlationId] == q
    ensures Enabled(n5, ClientReads(p, 0, None, true)) && n6 == Next(n5, ClientReads(p, 0, None, true))
    ensures Enabled(n6, Settle(p, M.Take(q))) && n7 == Next(n6, Settle(p, M.Take(q)))
    ensures p in n7.matchers && q in n7.matchers[p].queries && n7.matchers[p].queries[q].pc == M.Leaving(M.Answered(answer))
  {
    hide Inv, M.Exact;
    CanRead(n5, p, 0, None, true);
    n6 := Next(n5, ClientReads(p, 0, None, true));
    M.ResponseStep(n5.matchers[p], answer);
    n7 := Next(n6, Settle(p, M.Take(q)));
  }

  /**
   Queries do get answered: on drained links, a query on a topic whose owner is registered and reads its connection
   is answered with what the owner's handler returns, by these seven steps.
   */
  lemma UndisturbedQueryIsAnswered(n: Net, p: Proc, q: M.Call, corr: M.Corr, topic: Topic, payload: Payload, owner: Proc, result: Payload)
    returns (states: seq<Net>)
    requires Inv(n) && n.links == [] && p in n.matchers && p in n.current && q !in n.matchers[p].queries && corr !in n.issued
    requires n.current[p] in n.live && n.current[p] != ""
    requires topic in n.owner && n.owner[topic] in n.live
    requires owner in n.matchers && owner in n.current && n.current[owner] == n.owner[topic]
    ensures Path(states, RoundTrip(p, q, corr, topic, payload, owner, result)) && states[0] == n
    ensures p in states[7].matchers && q in states[7].matchers[p].queries
    ensures exists m ::
      ResultOf(states[7].matchers[p].queries[q].pc) == Some(M.Answered(m)) && m.payload == result && m.topic == topic
  {
    hide Inv, Next, Enabled, M.Exact;
    var n1, n2 := QueryIsSent(n, p, q, corr, topic, payload);
    var n3 := IsPassedOn(n2, n.current[p], n2.links[0].msg, n.owner[topic]);
    var n4 := HandlerReplies(n3, n3.links[0].msg, owner, result);
    var n5 := IsPassedOn(n4, n.owner[topic], n4.links[0].msg, n.current[p]);
    var n6, n7 := AnswerIsTaken(n5, p, q, n5.links[0].msg);
    states := [n, n1, n2, n3, n4, n5, n6, n7];
    var steps := RoundTrip(p, q, corr, topic, payload, owner, result);
    forall i | 0 <= i < |steps| ensures Enabled(states[i], steps[i]) && states[i + 1] == Next(states[i], steps[i]) {
      if i == 0 {} else if i == 1 {} else if i == 2 {} else if i == 3 {} else if i == 4 {} else if i == 5 {} else {}
    }
  }

  /** No two packets under way, no two handled responses, and no packet and handled response, share a correlation id. */
  lemma IdsTravelOnce(states: seq<Net>, steps: seq<Step>, i: nat)
    requires IsRun(states, steps) && i < |states|
    ensures var links, handled := states[i].links, states[i].handled;
      && (forall a, b :: 0 <= a < b < |links| ==> links[a].msg.correlationId != links[b].msg.correlationId)
      && (forall a, b :: 0 <= a < b < |handled| ==> handled[a].correlationId != handled[b].correlationId)
      && (forall a, b :: 0 <= a < |links| && 0 <= b < |handled| ==> links[a].msg.correlationId != handled[b].correlationId)
  {
    hide Inv;
    RunInv(states, steps, i);
    var n := states[i];
    assert TokensOk(n.links, n.handled, n.traces) by { InvTokens(n); }
    hide TokensOk;
    forall a, b | 0 <= a < |n.links| && 0 <= b < |n.links| && a != b
      ensures n.links[a].msg.correlationId != n.links[b].msg.correlationId
    {
      Alone(n.links, n.handled, n.traces, a);
      var b' := if b < a then b else b - 1;
      assert Without(n.links, a)[b'] == n.links[b];
    }
    forall a, b | 0 <= a < |n.links| && 0 <= b < |n.handled| ensures n.links[a].msg.correlationId != n.handled[b].correlationId {
      Alone(n.links, n.handled, n.traces, a);
    }
    HandledOnce(n.links, n.handled, n.traces);
  }

  lemma InvTokens(n: Net)
    requires Inv(n)
    ensures TokensOk(n.links, n.handled, n.traces)
  {
  }

  lemma TwiceCounts(c: seq<M.Corr>, a: nat, b: nat)
    requires a < b < |c| && c[a] == c[b]
    ensures multiset(c)[c[b]] >= 2
  {
    assert c == c[..b] + [c[b]] + c[b + 1..];
    assert c[..b][a] == c[b];
    assert c[b] in multiset(c[..b]);
  }

  lemma HandledOnce(links: seq<Packet>, handled: seq<Message>, traces: map<M.Corr, Trace>)
    requires TokensOk(links, handled, traces)
    ensures forall a, b :: 0 <= a < b < |handled| ==> handled[a].correlationId != handled[b].correlationId
  {
    var c := CorrsIn(handled);
    forall a, b | 0 <= a < b < |handled| ensures handled[a].correlationId != handled[b].correlationId {
      assert Tokens(links, handled, c[b]) <= 1;
      if c[a] == c[b] {
        TwiceCounts(c, a, b);
      }
    }
  }

  /** Two answered calls never share an answer's correlation id, so no response answers twice. */
  lemma AnswersAreDistinct(states: seq<Net>, steps: seq<Step>, i: nat, p: Proc, q: M.Call, m: Message, p': Proc, q': M.Call, m': Message)
    requires IsRun(states, steps) && i < |states|
    requires p in states[i].matchers && q in states[i].matchers[p].queries
    requires p' in states[i].matchers && q' in states[i].matchers[p'].queries
    requires ResultOf(states[i].matchers[p].queries[q].pc) == Some(M.Answered(m))
    requires ResultOf(states[i].matchers[p'].queries[q'].pc) == Some(M.Answered(m'))
    requires m.correlationId == m'.correlationId
    ensures p == p' && q == q' && m == m'
  {
    hide Inv;
    RunInv(states, steps, i);
    AnswerIsRecorded(states[i], p, q, m);
    AnswerIsRecorded(states[i], p', q', m');
  }
}
