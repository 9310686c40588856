/**
 What subscribers receive, under any interleaving of publishers, subscriptions and disconnects: for
 each publisher, the messages attempted to a client are that publisher's messages, in order, filtered
 by "the client was in the topic's subscriber set when the broker was locked", each exactly once.
 */
module Delivery {
  import opened Proto
  import opened ServerState
  import opened Interleaving
  import opened InterleavingProofs
  import opened InterleavingTheorems

  /** The messages of publisher p in a client's log. */
  function From(log: seq<Attempt>, p: Conn): seq<Message> {
    if log == [] then []
    else From(log[..|log| - 1], p) + if log[|log| - 1].from == p then [log[|log| - 1].msg] else []
  }

  /** The part of a history of publications that c was a recipient of. */
  function For(history: seq<Publication>, c: Conn): seq<Message> {
    if history == [] then []
    else For(history[..|history| - 1], c) + if c in history[|history| - 1].to then [history[|history| - 1].msg] else []
  }

  /** What a publisher in the middle of its fan-out still owes to c. */
  function Owed(pc: Pc, c: Conn): seq<Message> {
    if pc.Publishing? && c in pc.remaining then [pc.msg] else []
  }

  ghost predicate LogsKnown(sys: Sys) {
    && sys.attempts.Keys == sys.published.Keys == sys.pc.Keys
    && (forall c :: c in sys.attempts ==> forall a :: a in sys.attempts[c] ==> a.from in sys.pc)
    && (forall p :: p in sys.published ==> forall b :: b in sys.published[p] ==> b.to <= sys.pc.Keys)
    && (forall p :: p in sys.pc && sys.pc[p].Publishing? ==> sys.pc[p].remaining <= sys.pc.Keys)
  }

  ghost predicate Balanced(sys: Sys, p: Conn, c: Conn)
    requires p in sys.pc && p in sys.published && c in sys.attempts
  {
    From(sys.attempts[c], p) + Owed(sys.pc[p], c) == For(sys.published[p], c)
  }

  ghost predicate AllBalanced(sys: Sys)
    requires LogsKnown(sys)
  {
    forall p, c :: p in sys.pc && c in sys.pc ==> Balanced(sys, p, c)
  }

  lemma {:induction false} FromStranger(log: seq<Attempt>, p: Conn)
    requires forall a :: a in log ==> a.from != p
    ensures From(log, p) == []
  {
    if log != [] {
      FromStranger(log[..|log| - 1], p);
      assert log[|log| - 1] in log;
    }
  }

  lemma {:induction false} ForStranger(history: seq<Publication>, c: Conn)
    requires forall b :: b in history ==> c !in b.to
    ensures For(history, c) == []
  {
    if history != [] {
      ForStranger(history[..|history| - 1], c);
      assert history[|history| - 1] in history;
    }
  }

  lemma FromAppend(log: seq<Attempt>, a: Attempt, p: Conn)
    ensures From(log + [a], p) == From(log, p) + if a.from == p then [a.msg] else []
  {
    assert (log + [a])[..|log|] == log;
  }

  lemma ForAppend(history: seq<Publication>, b: Publication, c: Conn)
    ensures For(history + [b], c) == For(history, c) + if c in b.to then [b.msg] else []
  {
    assert (history + [b])[..|history|] == history;
  }

  lemma AcceptBalances(sys: Sys, sys': Sys, t: Conn, id: Id, features: map<string, Feature>)
    requires Domains(sys) && Enabled(sys, Accept(t, id, features)) && sys' == DoAccept(sys, t, id, features)
    requires LogsKnown(sys) && AllBalanced(sys)
    ensures LogsKnown(sys') && AllBalanced(sys')
  {
    hide PointsInto;
    forall p, c | p in sys'.pc && c in sys'.pc ensures Balanced(sys', p, c) {
      if p == t && c != t {
        FromStranger(sys.attempts[c], t);
      } else if c == t && p != t {
        ForStranger(sys.published[p], t);
      } else if p != t {
        assert Balanced(sys, p, c);
      }
    }
  }

  lemma DispatchPublishes(sys: Sys, m: Message)
    requires forall topic :: Members(sys.s.broker, topic) <= sys.pc.Keys
    ensures Dispatch(sys.s, m).Publishing? ==> Dispatch(sys.s, m).remaining <= sys.pc.Keys
  {
    hide Members;
  }

  lemma ReceiveLogs(sys: Sys, sys': Sys, t: Conn, msg: Message)
    requires Domains(sys) && Enabled(sys, Receive(t, msg)) && sys' == DoReceive(sys, t, msg)
    requires forall topic :: Members(sys.s.broker, topic) <= sys.pc.Keys
    requires LogsKnown(sys)
    ensures LogsKnown(sys')
  {
    hide PointsInto, Members, Dispatch;
    var next := Dispatch(sys.s, msg.(sender := sys.s.meta[t].id));
    DispatchPublishes(sys, msg.(sender := sys.s.meta[t].id));
    forall p, b | p in sys'.published && b in sys'.published[p] ensures b.to <= sys'.pc.Keys {
      assert p != t ==> sys'.published[p] == sys.published[p];
    }
  }

  /** Locking the broker records the message and owes it to exactly the subscribers of that moment. */
  lemma ReceiveBalances(sys: Sys, sys': Sys, t: Conn, msg: Message)
    requires Domains(sys) && Enabled(sys, Receive(t, msg)) && sys' == DoReceive(sys, t, msg)
    requires LogsKnown(sys) && AllBalanced(sys) && LogsKnown(sys')
    ensures AllBalanced(sys')
  {
    hide PointsInto, Dispatch, AllBalanced;
    var m := msg.(sender := sys.s.meta[t].id);
    var next := Dispatch(sys.s, m);
    DispatchedMessage(sys, m);
    if next.Publishing? {
      LockingOwes(sys, sys', t, next, sys.published[t] + [Publication(m, next.remaining)]);
    } else {
      assert sys'.published == sys.published[t := sys.published[t]];
      LockingOwes(sys, sys', t, next, sys.published[t]);
    }
  }

  lemma DispatchedMessage(sys: Sys, m: Message)
    ensures Dispatch(sys.s, m).Publishing? ==> Dispatch(sys.s, m).msg == m
  {
    hide Members;
  }

  lemma LockingOwes(sys: Sys, sys': Sys, t: Conn, next: Pc, history: seq<Publication>)
    requires LogsKnown(sys) && AllBalanced(sys) && LogsKnown(sys')
    requires t in sys.pc && sys.pc[t].Idle? && sys'.pc == sys.pc[t := next]
    requires sys'.attempts == sys.attempts && sys'.published == sys.published[t := history]
    requires history == if next.Publishing? then sys.published[t] + [Publication(next.msg, next.remaining)] else sys.published[t]
    ensures AllBalanced(sys')
  {
    forall p, c | p in sys'.pc && c in sys'.pc ensures Balanced(sys', p, c) {
      assert Balanced(sys, p, c);
      if p == t {
        assert From(sys.attempts[c], p) + [] == From(sys.attempts[c], p);
        if next.Publishing? {
          ForAppend(sys.published[t], Publication(next.msg, next.remaining), c);
        }
      }
    }
  }

  /** Each send pays one debt, and only to the client it is sent to, whether or not it fails. */
  lemma PublishToBalances(sys: Sys, sys': Sys, t: Conn, to: Conn, ok: bool)
    requires Domains(sys) && Enabled(sys, PublishTo(t, to, ok)) && sys' == DoPublishTo(sys, t, to, ok)
    requires LogsKnown(sys) && AllBalanced(sys)
    ensures LogsKnown(sys') && AllBalanced(sys')
  {
    hide PointsInto, Balanced;
    PublishToLogs(sys, sys', t, to, ok);
    forall p, c | p in sys'.pc && c in sys'.pc ensures Balanced(sys', p, c) {
      PublishToBalancesOne(sys, sys', t, to, ok, p, c);
    }
  }

  lemma PublishToLogs(sys: Sys, sys': Sys, t: Conn, to: Conn, ok: bool)
    requires Domains(sys) && Enabled(sys, PublishTo(t, to, ok)) && sys' == DoPublishTo(sys, t, to, ok)
    requires LogsKnown(sys)
    ensures LogsKnown(sys')
  {
  }

  lemma PublishToBalancesOne(sys: Sys, sys': Sys, t: Conn, to: Conn, ok: bool, p: Conn, c: Conn)
    requires Domains(sys) && Enabled(sys, PublishTo(t, to, ok)) && sys' == DoPublishTo(sys, t, to, ok)
    requires LogsKnown(sys) && LogsKnown(sys') && p in sys.pc && c in sys.pc && Balanced(sys, p, c)
    ensures Balanced(sys', p, c)
  {
    hide PointsInto, LogsKnown, From, For;
    if c == to {
      FromAppend(sys.attempts[to], Attempt(sys.pc[t].msg, t, ok), p);
    }
  }

  predicate MovesRoutes(step: Step) {
    step.Store? || step.ReadFeatures? || step.ClaimExisting? || step.ReplaceMeta? || step.ClaimDeclared?
    || step.Acknowledge? || step.Disconnect? || step.ReleaseRoutes? || step.EndLoop?
  }

  predicate MovesSubs(step: Step) {
    step.BrokerSubscribe? || step.MarkSubscribed? || step.BrokerUnsubscribe? || step.MarkUnsubscribed?
    || step.DropSubscription? || step.EndDrop?
  }

  ghost predicate SameLogs(sys: Sys, sys': Sys) {
    sys'.attempts == sys.attempts && sys'.published == sys.published && sys'.pc.Keys == sys.pc.Keys
  }

  lemma RouteStepsLog(sys: Sys, sys': Sys, step: Step)
    requires Domains(sys) && Enabled(sys, step) && sys' == Next(sys, step) && MovesRoutes(step)
    ensures SameLogs(sys, sys')
  {
    hide AcceptedNames, Claim, PointsInto, RoutesFree, BrokerFree, Domains;
  }

  lemma SubStepsLog(sys: Sys, sys': Sys, step: Step)
    requires Domains(sys) && Enabled(sys, step) && sys' == Next(sys, step) && MovesSubs(step)
    ensures SameLogs(sys, sys')
  {
    hide BrokerAdd, BrokerDel, PointsInto, RoutesFree, BrokerFree, Domains;
  }

  lemma ReadStepsLog(sys: Sys, sys': Sys, step: Step)
    requires Domains(sys) && Enabled(sys, step) && sys' == Next(sys, step)
    requires step.EndPublish? || step.LookupRoute? || step.LookupOwner? || step.Forward?
    ensures SameLogs(sys, sys')
  {
    hide PointsInto, Domains;
  }

  /** All other steps touch neither the logs nor a running fan-out. */
  lemma QuietLogs(sys: Sys, sys': Sys, step: Step)
    requires Domains(sys) && Enabled(sys, step) && sys' == Next(sys, step)
    requires !step.Accept? && !step.Receive? && !step.PublishTo?
    ensures sys'.attempts == sys.attempts && sys'.published == sys.published && sys'.pc.Keys == sys.pc.Keys
  {
    hide Next, Domains, Enabled;
    if MovesRoutes(step) { RouteStepsLog(sys, sys', step); }
    else if MovesSubs(step) { SubStepsLog(sys, sys', step); }
    else { ReadStepsLog(sys, sys', step); }
  }

  lemma QuietFanOut(sys: Sys, sys': Sys, step: Step)
    requires Domains(sys) && Enabled(sys, step) && sys' == Next(sys, step)
    requires !step.Accept? && !step.Receive? && !step.PublishTo?
    requires sys'.pc.Keys == sys.pc.Keys
    ensures forall p, c :: p in sys.pc ==> Owed(sys'.pc[p], c) == Owed(sys.pc[p], c)
  {
    hide AcceptedNames, BrokerAdd, BrokerDel, Claim, PointsInto, Domains;
    OthersStandStill(sys, sys', step);
    forall c ensures Owed(sys'.pc[step.t], c) == [] && Owed(sys.pc[step.t], c) == [] {
    }
  }

  lemma QuietBalances(sys: Sys, sys': Sys)
    requires LogsKnown(sys) && AllBalanced(sys)
    requires sys'.attempts == sys.attempts && sys'.published == sys.published && sys'.pc.Keys == sys.pc.Keys
    requires forall p, c :: p in sys.pc ==> Owed(sys'.pc[p], c) == Owed(sys.pc[p], c)
    ensures LogsKnown(sys') && AllBalanced(sys')
  {
    forall p | p in sys'.pc && sys'.pc[p].Publishing? ensures sys'.pc[p].remaining <= sys'.pc.Keys {
      forall c | c in sys'.pc[p].remaining ensures c in sys'.pc.Keys {
        assert Owed(sys'.pc[p], c) == Owed(sys.pc[p], c);
      }
    }
    forall p, c | p in sys'.pc && c in sys'.pc ensures Balanced(sys', p, c) {
      assert Balanced(sys, p, c);
    }
  }

  lemma NextBalances(sys: Sys, step: Step)
    requires Domains(sys) && Enabled(sys, step) && LogsKnown(sys) && AllBalanced(sys) && Core(sys)
    ensures LogsKnown(Next(sys, step)) && AllBalanced(Next(sys, step))
  {
    hide LogsKnown, AllBalanced, Domains, IdsFresh, RegistryCoherent, OwnClients, BrokerBacked, SubsBacked, RoutesHeld;
    var sys' := Next(sys, step);
    match step
    case Accept(t, id, features) => AcceptBalances(sys, sys', t, id, features);
    case Receive(t, msg) =>
      SubscribersExist(sys);
      ReceiveLogs(sys, sys', t, msg);
      ReceiveBalances(sys, sys', t, msg);
    case PublishTo(t, c, ok) => PublishToBalances(sys, sys', t, c, ok);
    case _ =>
      QuietLogs(sys, sys', step);
      QuietFanOut(sys, sys', step);
      QuietBalances(sys, sys');
  }

  lemma SubscribersExist(sys: Sys)
    requires BrokerBacked(sys)
    ensures forall topic :: Members(sys.s.broker, topic) <= sys.pc.Keys
  {
  }

  lemma {:induction false} RunBalances(r: Run, i: nat)
    requires IsRun(r) && i < |r.states|
    ensures LogsKnown(r.states[i]) && AllBalanced(r.states[i])
  {
    if i > 0 {
      RunBalances(r, i - 1);
      RunCore(r, i - 1);
      assert IsStep(r.states[i - 1], r.steps[i - 1], r.states[i]);
      NextBalances(r.states[i - 1], r.steps[i - 1]);
    }
  }

  /** The messages that actually went out to a client. */
  function Inbox(log: seq<Attempt>): seq<Attempt> {
    if log == [] then []
    else Inbox(log[..|log| - 1]) + if log[|log| - 1].ok then [log[|log| - 1]] else []
  }

  lemma {:induction false} NoErrorsInboxIsLog(log: seq<Attempt>)
    requires forall a :: a in log ==> a.ok
    ensures Inbox(log) == log
  {
    if log != [] {
      NoErrorsInboxIsLog(log[..|log| - 1]);
      assert log[|log| - 1] in log;
      assert log == log[..|log| - 1] + [log[|log| - 1]];
    }
  }

  /**
   Over every run: whenever p is not in the middle of a fan-out, what it sent to c is its history
   filtered by c's membership at the moment of each publish. If no send to c failed, so is c's inbox,
   whatever happened to the sends to anybody else.
   */
  lemma DeliveryTrace(r: Run, i: nat, p: Conn, c: Conn)
    requires IsRun(r) && i < |r.states|
    requires p in r.states[i].pc && c in r.states[i].pc && !r.states[i].pc[p].Publishing?
    ensures c in r.states[i].attempts && p in r.states[i].published
    ensures From(r.states[i].attempts[c], p) == For(r.states[i].published[p], c)
    ensures (forall a :: a in r.states[i].attempts[c] ==> a.ok) ==>
      From(Inbox(r.states[i].attempts[c]), p) == For(r.states[i].published[p], c)
  {
    RunBalances(r, i);
    assert Balanced(r.states[i], p, c);
    if forall a :: a in r.states[i].attempts[c] ==> a.ok {
      NoErrorsInboxIsLog(r.states[i].attempts[c]);
    }
  }

  ghost predicate Increasing(numbers: seq<int>) {
    forall a, b :: 0 <= a < b < |numbers| ==> numbers[a] < numbers[b]
  }

  /** The positions in a client's log of what p sent it. */
  ghost predicate Sent(numbers: seq<int>, log: seq<Attempt>, p: Conn) {
    Increasing(numbers) && forall i :: i in numbers <==> 0 <= i < |log| && log[i].from == p
  }

  /** The positions in a publisher's history of what was published while c was subscribed. */
  ghost predicate Meant(numbers: seq<int>, history: seq<Publication>, c: Conn) {
    Increasing(numbers) && forall i :: i in numbers <==> 0 <= i < |history| && c in history[i].to
  }

  /** What p sent to c and what p published for c: first with first, second with second, and so on to the last, the same messages. */
  ghost predicate PairsOff(log: seq<Attempt>, history: seq<Publication>, p: Conn, c: Conn) {
    exists sent, meant ::
      && Sent(sent, log, p) && Meant(meant, history, c) && |sent| == |meant|
      && forall k :: 0 <= k < |sent| ==>
           0 <= sent[k] < |log| && 0 <= meant[k] < |history| && log[sent[k]].msg == history[meant[k]].msg
  }

  lemma SentMore(numbers: seq<int>, front: seq<Attempt>, a: Attempt, p: Conn)
    requires Sent(numbers, front, p)
    ensures Sent(if a.from == p then numbers + [|front|] else numbers, front + [a], p)
  {
    forall k | 0 <= k < |numbers| ensures numbers[k] < |front| {
      assert numbers[k] in numbers;
    }
    assert forall i :: 0 <= i < |front| ==> (front + [a])[i] == front[i];
  }

  lemma MeantMore(numbers: seq<int>, front: seq<Publication>, b: Publication, c: Conn)
    requires Meant(numbers, front, c)
    ensures Meant(if c in b.to then numbers + [|front|] else numbers, front + [b], c)
  {
    forall k | 0 <= k < |numbers| ensures numbers[k] < |front| {
      assert numbers[k] in numbers;
    }
    assert forall i :: 0 <= i < |front| ==> (front + [b])[i] == front[i];
  }

  function AttemptedMessages(log: seq<Attempt>): seq<Message> {
    seq(|log|, i requires 0 <= i < |log| => log[i].msg)
  }

  function PublishedMessages(history: seq<Publication>): seq<Message> {
    seq(|history|, i requires 0 <= i < |history| => history[i].msg)
  }

  /** The picked messages are those at the positions, in order. */
  ghost predicate Picks(numbers: seq<int>, all: seq<Message>, picked: seq<Message>) {
    && |numbers| == |picked|
    && forall k :: 0 <= k < |numbers| ==> 0 <= numbers[k] < |all| && all[numbers[k]] == picked[k]
  }

  lemma PicksMore(numbers: seq<int>, front: seq<Message>, m: Message, picked: seq<Message>, selected: bool)
    requires Picks(numbers, front, picked)
    ensures Picks(if selected then numbers + [|front|] else numbers, front + [m], picked + if selected then [m] else [])
  {
  }

  lemma {:induction false} FromSelects(log: seq<Attempt>, p: Conn) returns (numbers: seq<int>)
    ensures Sent(numbers, log, p) && Picks(numbers, AttemptedMessages(log), From(log, p))
  {
    hide Sent, Picks;
    if log == [] {
      numbers := [];
      NothingPicked(p);
    } else {
      var front, last := log[..|log| - 1], log[|log| - 1];
      var before := FromSelects(front, p);
      numbers := if last.from == p then before + [|front|] else before;
      SentMore(before, front, last, p);
      PicksMore(before, AttemptedMessages(front), last.msg, From(front, p), last.from == p);
      assert front + [last] == log;
      assert AttemptedMessages(front) + [last.msg] == AttemptedMessages(log);
    }
  }

  lemma {:induction false} ForSelects(history: seq<Publication>, c: Conn) returns (numbers: seq<int>)
    ensures Meant(numbers, history, c) && Picks(numbers, PublishedMessages(history), For(history, c))
  {
    hide Meant, Picks;
    if history == [] {
      numbers := [];
      NothingPicked(c);
    } else {
      var front, last := history[..|history| - 1], history[|history| - 1];
      var before := ForSelects(front, c);
      numbers := if c in last.to then before + [|front|] else before;
      MeantMore(before, front, last, c);
      PicksMore(before, PublishedMessages(front), last.msg, For(front, c), c in last.to);
      assert front + [last] == history;
      assert PublishedMessages(front) + [last.msg] == PublishedMessages(history);
    }
  }

  lemma NothingPicked(p: Conn)
    ensures Sent([], [], p) && Meant([], [], p) && Picks([], [], [])
  {
  }

  lemma PairOff(log: seq<Attempt>, history: seq<Publication>, p: Conn, c: Conn)
    requires From(log, p) == For(history, c)
    ensures PairsOff(log, history, p, c)
  {
    hide Sent, Meant, From, For;
    var sent := FromSelects(log, p);
    var meant := ForSelects(history, c);
  }

  /** The same without From and For, position by position. */
  lemma SendsPairOff(r: Run, i: nat, p: Conn, c: Conn)
    requires IsRun(r) && i < |r.states|
    requires p in r.states[i].pc && c in r.states[i].pc && !r.states[i].pc[p].Publishing?
    ensures c in r.states[i].attempts && p in r.states[i].published
    ensures PairsOff(r.states[i].attempts[c], r.states[i].published[p], p, c)
  {
    hide PairsOff, IsRun, Domains;
    DeliveryTrace(r, i, p, c);
    PairOff(r.states[i].attempts[c], r.states[i].published[p], p, c);
  }

  /** Handling a data or status message is recorded, and the recorded recipients are the subscribers: in the broker's set exactly when the topic is in Subs, no change being under way. */
  lemma RecipientsAreSubscribers(r: Run, i: nat, t: Conn, msg: Message, c: Conn)
    requires IsRun(r) && i < |r.steps| && r.steps[i] == Receive(t, msg) && msg.kind in {"data", "status"}
    requires c in r.states[i].pc && Registered(r.states[i].pc[c])
    requires !r.states[i].pc[c].SubscribeHalf? && !r.states[i].pc[c].UnsubscribeHalf?
    ensures var sys, sys' := r.states[i], r.states[i + 1];
      && c in sys.s.meta && t in sys.s.meta && t in sys.published && t in sys'.published
      && sys'.published[t] == sys.published[t] + [Publication(msg.(sender := sys.s.meta[t].id), Members(sys.s.broker, msg.topic))]
      && (c in Members(sys.s.broker, msg.topic) <==> msg.topic in sys.s.meta[c].subs)
  {
    hide Core, Enabled, Next;
    RunCore(r, i);
    assert IsStep(r.states[i], r.steps[i], r.states[i + 1]);
    CoreIsDefined(r.states[i]);
    RecordedAreSubscribers(r.states[i], r.states[i + 1], t, msg, c);
  }

  lemma RecordedAreSubscribers(sys: Sys, sys': Sys, t: Conn, msg: Message, c: Conn)
    requires Domains(sys) && Enabled(sys, Receive(t, msg)) && sys' == Next(sys, Receive(t, msg))
    requires c in sys.pc && Registered(sys.pc[c]) && !sys.pc[c].SubscribeHalf? && !sys.pc[c].UnsubscribeHalf?
    requires msg.kind in {"data", "status"} && Core(sys)
    ensures c in sys.s.meta && t in sys.s.meta && t in sys.published && t in sys'.published
    ensures sys'.published[t] == sys.published[t] + [Publication(msg.(sender := sys.s.meta[t].id), Members(sys.s.broker, msg.topic))]
    ensures c in Members(sys.s.broker, msg.topic) <==> msg.topic in sys.s.meta[c].subs
  {
    hide IdsFresh, RegistryCoherent, OwnClients, RoutesHeld;
    assert MustSubscribe(sys.pc[c], sys.s.meta[c].subs, msg.topic) <==> msg.topic in sys.s.meta[c].subs;
  }
}
