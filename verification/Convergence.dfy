/**
 Subscriptions across reconnects: the client library at one end of a FIFO link, the server at the other,
 everybody else moving freely. Calls of Subscribe and Unsubscribe and the resubscription after the
 acknowledgement are interleaved at every access to the handlers, the Connected flag and the link. What the
 server will believe once the link is drained is, before the resubscription, part of the client's handler
 keys and, after it, exactly those keys, but for the topics on which three kinds of race went wrong. No
 hypothesis on the schedule is made; the exact condition for agreement is on those races.
 */
module Convergence {
  import opened Proto
  import opened ServerState
  import opened ServerRuns
  import opened ClientLibrary

  datatype Phase =
    | Disconnected                      // before Connect returns, or between a lost link and the next attempt
    | Dialled                           // the transport is connected, the Connected flag not yet set
    | AwaitingAck                       // the flag set, identify under way
    | Resubscribing(topics: seq<Topic>) // handler keys collected, not yet sent
    | Running                           // handlers sent again, in the read loop
    | Stopped                           // Start has returned

  /** A call of Subscribe or Unsubscribe that has changed the handlers; checked once it found the client connected. */
  datatype Call = Call(topic: Topic, subscribe: bool, checked: bool)

  /**
   view.sent holds the messages that the server has not read yet; me is the client object of the current
   connection; calls are those under way. Recorded for the proofs: extra, topics that came to the server
   without a handler, and missing, topics with a handler that were taken from the server.
   */
  datatype Sys = Sys(
    view: View,
    phase: Phase,
    ack: bool,
    srv: State<nat>,
    me: nat,
    calls: map<nat, Call>,
    extra: set<Topic>,
    missing: set<Topic>)

  datatype Step =
    | Dial(c: nat, m: Meta)
    | SetConnected
    | Send(msg: Message)           // identify, data, status, command, query or response
    | Begin(id: nat, topic: Topic, subscribe: bool)
    | Check(id: nat)
    | Finish(id: nat)
    | ServerReads
    | Collect(topics: seq<Topic>)
    | SendAgain
    | Cut
    | NoticeCut
    | GiveUp
    | ServerDrops
    | Others(e: Event<nat>)

  ghost predicate Init(sys: Sys) {
    && sys.view == View({}, false, false, []) && sys.phase == Disconnected
    && sys.srv == State(map[], map[], map[], map[]) && sys.calls == map[]
    && sys.extra == {} && sys.missing == {}
  }

  ghost predicate Enabled(sys: Sys, step: Step) {
    match step
    case Dial(c, m) => sys.phase == Disconnected && Possible(sys.srv, Joined(c, m))
    case SetConnected => sys.phase == Dialled
    case Send(msg) => msg.kind != "subscribe" && msg.kind != "unsubscribe"
    case Begin(id, topic, subscribe) => id !in sys.calls
    case Check(id) => id in sys.calls && !sys.calls[id].checked
    case Finish(id) => id in sys.calls && sys.calls[id].checked
    case ServerReads => sys.view.sent != [] && Live(sys.srv, sys.me) // also what was written before a cut
    case Collect(topics) => sys.phase == AwaitingAck && sys.ack && TopicSet(topics) == sys.view.handlers
    case SendAgain => sys.phase.Resubscribing?
    case Cut => sys.view.linkUp
    case NoticeCut => sys.phase == Running && !sys.view.linkUp
    case GiveUp => sys.phase == AwaitingAck
    case ServerDrops => !sys.view.linkUp && Live(sys.srv, sys.me)
    case Others(e) => Possible(sys.srv, e) && (Live(sys.srv, sys.me) ==> ByOther(sys.srv, e, sys.me))
  }

  function CallMessage(call: Call): Message {
    if call.subscribe then SubscribeMessage([call.topic]) else UnsubscribeMessage([call.topic])
  }

  /** The topics that calls are working on. */
  function Busy(calls: map<nat, Call>): set<Topic> {
    set id | id in calls :: calls[id].topic
  }

  /** What the server will hold for the current connection once the link is drained. */
  ghost function Expected(sys: Sys): set<Topic>
    requires sys.me in sys.srv.meta
  {
    Fold(sys.srv.meta[sys.me].subs, sys.view.sent)
  }

  /**
   The last call on a topic finds the flag not set and returns without writing, after an earlier call has
   already written a subscription on the new link.
   */
  ghost predicate ReturnsTooSoon(sys: Sys, id: nat)
    requires id in sys.calls
  {
    var topic := sys.calls[id].topic;
    && sys.view.linkUp && !sys.view.connected && sys.me in sys.srv.meta
    && topic !in Busy(sys.calls - {id}) && topic !in sys.view.handlers && topic in Expected(sys)
  }

  /** The server is to hold the topic without its being sent again. */
  predicate Owed(sys: Sys, topic: Topic) {
    sys.phase == Running || (sys.phase.Resubscribing? && topic !in sys.phase.topics)
  }

  /** The message of the last call on a topic is written. */
  function Settle(sys: Sys, call: Call): Sys {
    if call.subscribe && call.topic !in sys.view.handlers then sys.(extra := sys.extra + {call.topic})
    else if !call.subscribe && call.topic in sys.view.handlers && Owed(sys, call.topic) then sys.(missing := sys.missing + {call.topic})
    else sys
  }

  ghost function Next(sys: Sys, step: Step): Sys
    requires WellFormed(sys.srv) && Enabled(sys, step)
  {
    match step
    case Dial(c, m) =>
      Sys(View(sys.view.handlers, false, true, []), Dialled, false, Apply(sys.srv, Joined(c, m)), c, sys.calls, {}, {})
    case SetConnected => sys.(view := sys.view.(connected := true), phase := AwaitingAck)
    case Send(msg) => sys.(view := Write(sys.view, msg))
    case Begin(id, topic, subscribe) =>
      var handlers := if subscribe then sys.view.handlers + {topic} else sys.view.handlers - {topic};
      sys.(view := sys.view.(handlers := handlers), calls := sys.calls[id := Call(topic, subscribe, false)],
           extra := sys.extra - {topic}, missing := sys.missing - {topic})
    case Check(id) =>
      if sys.view.connected then sys.(calls := sys.calls[id := sys.calls[id].(checked := true)])
      else
        var rest := sys.(calls := sys.calls - {id});
        if ReturnsTooSoon(sys, id) then rest.(extra := rest.extra + {sys.calls[id].topic}) else rest
    case Finish(id) =>
      var call, rest := sys.calls[id], sys.calls - {id};
      var written := sys.(view := Write(sys.view, CallMessage(call)), calls := rest);
      if sys.view.linkUp && call.topic !in Busy(rest) then Settle(written, call) else written
    case ServerReads =>
      var msg := sys.view.sent[0].(sender := sys.srv.meta[sys.me].id);
      sys.(view := sys.view.(sent := sys.view.sent[1..]),
           ack := sys.ack || (msg.kind == "identify" && msg.payload.asIdentify.Some?),
           srv := ServerState.Step(sys.srv, msg))
    case Collect(topics) => sys.(phase := Resubscribing(topics))
    case SendAgain =>
      sys.(view := Write(sys.view, SubscribeMessage(sys.phase.topics)),
           phase := if sys.view.linkUp then Running else Stopped,
           extra := if sys.view.linkUp then sys.extra + (TopicSet(sys.phase.topics) - sys.view.handlers - Busy(sys.calls)) else sys.extra)
    case Cut => sys.(view := sys.view.(linkUp := false))
    case NoticeCut => sys.(view := sys.view.(connected := false), phase := Disconnected)
    case GiveUp => sys.(phase := Stopped)
    case ServerDrops => sys.(srv := Apply(sys.srv, Left(sys.me)))
    case Others(e) => sys.(srv := Apply(sys.srv, e))
  }

  /** A call that nobody interrupts does what the library's method does. */
  lemma UninterruptedCall(sys: Sys, id: nat, topic: Topic, subscribe: bool)
    requires WellFormed(sys.srv) && id !in sys.calls
    ensures
      var begun := Next(sys, Begin(id, topic, subscribe));
      var checked := Next(begun, Check(id));
      var done := if sys.view.connected then Next(checked, Finish(id)) else checked;
      && done.calls == sys.calls
      && done.view == if subscribe then AfterSubscribe(sys.view, topic) else AfterUnsubscribe(sys.view, topic)
  {
  }

  // ---------- the pending messages ----------

  /** The effect of one message on the sender's Subs. */
  function Effect(subs: set<Topic>, msg: Message): set<Topic> {
    if msg.payload.asSubscription.None? then subs
    else if msg.kind == "subscribe" then subs + TopicSet(msg.payload.asSubscription.value)
    else if msg.kind == "unsubscribe" then subs - TopicSet(msg.payload.asSubscription.value)
    else subs
  }

  function Fold(subs: set<Topic>, msgs: seq<Message>): set<Topic> {
    if msgs == [] then subs else Effect(Fold(subs, msgs[..|msgs| - 1]), msgs[|msgs| - 1])
  }

  lemma FoldAppend(subs: set<Topic>, msgs: seq<Message>, msg: Message)
    ensures Fold(subs, msgs + [msg]) == Effect(Fold(subs, msgs), msg)
  {
    assert (msgs + [msg])[..|msgs|] == msgs;
  }

  /** Reading the oldest message moves its effect from the link to the server. */
  lemma {:induction false} FoldHead(subs: set<Topic>, msgs: seq<Message>)
    requires msgs != []
    ensures Fold(Effect(subs, msgs[0]), msgs[1..]) == Fold(subs, msgs)
  {
    if |msgs| > 1 {
      var front := msgs[..|msgs| - 1];
      FoldHead(subs, front);
      assert msgs[1..][..|msgs| - 2] == front[1..];
    } else {
      assert msgs[..0] == [] && msgs[1..] == [];
    }
  }

  /** The server's side: handling a message from a registered client has that effect on its Subs. */
  lemma StepHasEffect(s: State<nat>, me: nat, msg: Message)
    requires Agreed(s) && Live(s, me) && msg.sender == s.meta[me].id
    ensures Live(ServerState.Step(s, msg), me)
    ensures ServerState.Step(s, msg).meta[me].subs == Effect(s.meta[me].subs, msg)
    ensures ServerState.Step(s, msg).meta[me].id == s.meta[me].id
  {
    hide FeatureMap, Claim, SubscribeAll, UnsubscribeAll, BrokerListsSubs, SubsInBroker;
  }

  // ---------- the invariant ----------

  /** Off busy topics: the server will hold no topic but those with a handler and the extra ones. */
  ghost predicate NoMore(sys: Sys, expected: set<Topic>) {
    forall t :: t !in Busy(sys.calls) ==>
      && (t in expected ==> t in sys.view.handlers || t in sys.extra)
      && (t in sys.extra ==> t in expected)
  }

  /** Off busy topics: it will hold all topics with a handler but the missing ones, counting what is about to be sent again. */
  ghost predicate NoLess(sys: Sys, expected: set<Topic>) {
    match sys.phase
    case Resubscribing(topics) =>
      forall t :: t !in Busy(sys.calls) ==>
        && (t in sys.view.handlers ==> t in expected || t in topics || t in sys.missing)
        && (t in sys.missing ==> t !in expected && t !in topics)
    case Running =>
      forall t :: t !in Busy(sys.calls) ==>
        && (t in sys.view.handlers ==> t in expected || t in sys.missing)
        && (t in sys.missing ==> t !in expected)
    case _ => sys.missing == {}
  }

  ghost predicate RecordsMatch(sys: Sys) {
    && sys.extra !! sys.view.handlers && sys.extra !! Busy(sys.calls)
    && sys.missing <= sys.view.handlers && sys.missing !! Busy(sys.calls)
  }

  ghost predicate LinkInv(sys: Sys)
    requires sys.me in sys.srv.meta
  {
    RecordsMatch(sys) && NoMore(sys, Expected(sys)) && NoLess(sys, Expected(sys))
  }

  ghost predicate Inv(sys: Sys) {
    && Agreed(sys.srv)
    && (sys.phase == Disconnected || sys.phase == Dialled <==> !sys.view.connected)
    && (sys.phase == Disconnected ==> !sys.view.linkUp)
    && (sys.view.linkUp ==> Live(sys.srv, sys.me) && LinkInv(sys))
  }

  lemma InvIsDefined(sys: Sys)
    requires Inv(sys)
    ensures WellFormed(sys.srv)
  {
  }

  /** What a step of the client that writes msg makes of the expectation. */
  lemma WritingExpects(sys: Sys, sys': Sys, msg: Message)
    requires sys.view.linkUp && sys.me in sys.srv.meta
    requires sys'.srv == sys.srv && sys'.me == sys.me && sys'.view.sent == sys.view.sent + [msg]
    ensures Expected(sys') == Effect(Expected(sys), msg)
  {
    FoldAppend(sys.srv.meta[sys.me].subs, sys.view.sent, msg);
  }

  lemma SendKeeps(sys: Sys, msg: Message)
    requires Inv(sys) && Enabled(sys, Send(msg))
    ensures Inv(Next(sys, Send(msg)))
  {
    InvIsDefined(sys);
    hide Agreed, Fold, TopicSet, Busy;
    if sys.view.linkUp {
      WritingExpects(sys, Next(sys, Send(msg)), msg);
    }
  }

  /** A call that begins makes its topic busy, one that ends may leave it. */
  lemma BusyCalls(calls: map<nat, Call>, id: nat, call: Call)
    ensures Busy(calls[id := call]) == Busy(calls - {id}) + {call.topic}
    ensures id !in calls ==> Busy(calls - {id}) == Busy(calls)
    ensures id in calls ==> Busy(calls) == Busy(calls - {id}) + {calls[id].topic}
  {
    assert id !in calls ==> calls - {id} == calls;
    forall t ensures t in Busy(calls[id := call]) <==> t in Busy(calls - {id}) + {call.topic} {
      var after := calls[id := call];
      if k :| k in calls - {id} && calls[k].topic == t {
        assert k in after && after[k].topic == t;
      }
      assert after[id].topic == call.topic;
    }
    if id in calls {
      forall t ensures t in Busy(calls) <==> t in Busy(calls - {id}) + {calls[id].topic} {
        if k :| k in calls && calls[k].topic == t && k != id {
          assert k in calls - {id};
        }
      }
    }
  }

  lemma BeginKeeps(sys: Sys, id: nat, topic: Topic, subscribe: bool)
    requires Inv(sys) && Enabled(sys, Begin(id, topic, subscribe))
    ensures Inv(Next(sys, Begin(id, topic, subscribe)))
  {
    InvIsDefined(sys);
    BusyCalls(sys.calls, id, Call(topic, subscribe, false));
    hide Agreed, Fold, TopicSet, Busy;
    var sys' := Next(sys, Begin(id, topic, subscribe));
    assert sys.view.linkUp ==> Expected(sys') == Expected(sys);
  }

  lemma CheckKeeps(sys: Sys, id: nat)
    requires Inv(sys) && Enabled(sys, Check(id))
    ensures Inv(Next(sys, Check(id)))
  {
    InvIsDefined(sys);
    BusyCalls(sys.calls, id, sys.calls[id].(checked := true));
    hide Agreed, Fold, Busy, LinkInv, ReturnsTooSoon;
    var sys' := Next(sys, Check(id));
    if sys.view.linkUp && sys.view.connected {
      CheckedLink(sys, sys');
    } else if sys.view.linkUp {
      ReturnedLink(sys, sys', id);
    }
  }

  lemma CheckedLink(sys: Sys, sys': Sys)
    requires sys.me in sys.srv.meta && LinkInv(sys) && sys' == sys.(calls := sys'.calls) && Busy(sys'.calls) == Busy(sys.calls)
    ensures LinkInv(sys')
  {
    hide Busy, Fold;
    assert Expected(sys') == Expected(sys);
  }

  lemma ReturnedLink(sys: Sys, sys': Sys, id: nat)
    requires sys.me in sys.srv.meta && LinkInv(sys) && sys.view.linkUp && !sys.view.connected && id in sys.calls
    requires Busy(sys.calls) == Busy(sys.calls - {id}) + {sys.calls[id].topic}
    requires sys.phase == Disconnected || sys.phase == Dialled
    requires sys' == sys.(calls := sys.calls - {id},
                          extra := if ReturnsTooSoon(sys, id) then sys.extra + {sys.calls[id].topic} else sys.extra)
    ensures LinkInv(sys')
  {
    hide Busy, Fold;
    assert Expected(sys') == Expected(sys);
  }

  lemma FinishKeeps(sys: Sys, id: nat)
    requires Inv(sys) && Enabled(sys, Finish(id))
    ensures Inv(Next(sys, Finish(id)))
  {
    hide Expected;
    InvIsDefined(sys);
    var call := sys.calls[id];
    BusyCalls(sys.calls, id, call);
    assert TopicSet([call.topic]) == {call.topic};
    hide Agreed, Fold, TopicSet, Busy, NoMore, NoLess, RecordsMatch, Settle;
    if sys.view.linkUp {
      var sys' := Next(sys, Finish(id));
      SettleChangesRecords(sys.(view := Write(sys.view, CallMessage(call)), calls := sys.calls - {id}), call);
      WritingExpects(sys, sys', CallMessage(call));
      FinishRecords(sys, sys', call, Expected(sys));
    }
  }

  lemma SettleChangesRecords(sys: Sys, call: Call)
    ensures Settle(sys, call) == sys.(extra := Settle(sys, call).extra, missing := Settle(sys, call).missing)
  {
  }

  /** Off busy topics, a finished call leaves its topic as it says, or recorded. */
  lemma FinishRecords(sys: Sys, sys': Sys, call: Call, expected: set<Topic>)
    requires RecordsMatch(sys) && NoMore(sys, expected) && NoLess(sys, expected)
    requires Busy(sys.calls) == Busy(sys'.calls) + {call.topic}
    requires sys'.view.handlers == sys.view.handlers && sys'.phase == sys.phase
    requires (sys'.extra, sys'.missing) ==
      if call.topic in Busy(sys'.calls) then (sys.extra, sys.missing) else (Settle(sys, call).extra, Settle(sys, call).missing)
    ensures
      var expected' := if call.subscribe then expected + {call.topic} else expected - {call.topic};
      RecordsMatch(sys') && NoMore(sys', expected') && NoLess(sys', expected')
  {
    hide Busy;
    var t := call.topic;
    assert t !in sys.extra && t !in sys.missing;
    assert forall x :: x != t && x !in Busy(sys'.calls) ==> x !in Busy(sys.calls);
    assert forall x :: x != t ==> (x in sys'.extra <==> x in sys.extra) && (x in sys'.missing <==> x in sys.missing);
  }

  lemma CollectKeeps(sys: Sys, topics: seq<Topic>)
    requires Inv(sys) && Enabled(sys, Collect(topics))
    ensures Inv(Next(sys, Collect(topics)))
  {
    InvIsDefined(sys);
    assert forall t :: t in topics <==> t in sys.view.handlers;
    hide Agreed, Fold, TopicSet, Busy;
    var sys' := Next(sys, Collect(topics));
    assert sys.view.linkUp ==> Expected(sys') == Expected(sys);
  }

  lemma SendAgainKeeps(sys: Sys)
    requires Inv(sys) && Enabled(sys, SendAgain)
    ensures Inv(Next(sys, SendAgain))
  {
    InvIsDefined(sys);
    assert forall t :: t in TopicSet(sys.phase.topics) <==> t in sys.phase.topics;
    hide Agreed, Fold, TopicSet, Busy;
    if sys.view.linkUp {
      WritingExpects(sys, Next(sys, SendAgain), SubscribeMessage(sys.phase.topics));
    }
  }

  lemma ServerReadsKeeps(sys: Sys)
    requires Inv(sys) && Enabled(sys, ServerReads)
    ensures Inv(Next(sys, ServerReads))
  {
    InvIsDefined(sys);
    hide Agreed, TopicSet, Busy;
    var msg := sys.view.sent[0].(sender := sys.srv.meta[sys.me].id);
    StepHasEffect(sys.srv, sys.me, msg);
    StepAgreed(sys.srv, msg);
    FoldHead(sys.srv.meta[sys.me].subs, sys.view.sent);
    assert Effect(sys.srv.meta[sys.me].subs, msg) == Effect(sys.srv.meta[sys.me].subs, sys.view.sent[0]);
    assert Expected(Next(sys, ServerReads)) == Expected(sys);
    hide Fold, Effect;
  }

  lemma DialKeeps(sys: Sys, c: nat, m: Meta)
    requires Inv(sys) && Enabled(sys, Dial(c, m))
    ensures Inv(Next(sys, Dial(c, m)))
  {
    hide AcceptedNames, Claim;
    ApplyAgreed(sys.srv, Joined(c, m));
  }

  lemma SameLink(sys: Sys, sys': Sys)
    requires sys.me in sys.srv.meta && sys'.me in sys'.srv.meta && LinkInv(sys) && Expected(sys') == Expected(sys)
    requires (sys'.view.handlers, sys'.phase, sys'.calls, sys'.extra, sys'.missing)
          == (sys.view.handlers, sys.phase, sys.calls, sys.extra, sys.missing)
    ensures LinkInv(sys')
  {
    hide Expected, Busy;
  }

  lemma OthersKeep(sys: Sys, e: Event<nat>)
    requires Inv(sys) && Enabled(sys, Others(e))
    ensures Inv(Next(sys, Others(e)))
  {
    InvIsDefined(sys);
    hide Agreed, Apply, Fold, LinkInv;
    ApplyAgreed(sys.srv, e);
    if sys.view.linkUp {
      OthersSpareMe(sys.srv, e, sys.me);
      SameLink(sys, Next(sys, Others(e)));
    }
  }

  lemma NextKeeps(sys: Sys, step: Step)
    requires Inv(sys) && Enabled(sys, step)
    ensures Inv(Next(sys, step))
  {
    hide Apply, Fold, Busy;
    match step
    case Dial(c, m) => DialKeeps(sys, c, m);
    case Send(msg) => SendKeeps(sys, msg);
    case Begin(id, topic, subscribe) => BeginKeeps(sys, id, topic, subscribe);
    case Check(id) => CheckKeeps(sys, id);
    case Finish(id) => FinishKeeps(sys, id);
    case ServerReads => ServerReadsKeeps(sys);
    case Collect(topics) => CollectKeeps(sys, topics);
    case SendAgain => SendAgainKeeps(sys);
    case ServerDrops => ApplyAgreed(sys.srv, Left(sys.me));
    case Others(e) => OthersKeep(sys, e);
    case _ =>
  }

  /** Next where it is defined; that it is defined in every reachable state is part of what is proved. */
  ghost predicate IsStep(sys: Sys, step: Step, sys': Sys) {
    Enabled(sys, step) && (WellFormed(sys.srv) ==> sys' == Next(sys, step))
  }

  ghost predicate IsRun(states: seq<Sys>, steps: seq<Step>) {
    && |states| == |steps| + 1 && Init(states[0])
    && forall i :: 0 <= i < |steps| ==> IsStep(states[i], steps[i], states[i + 1])
  }

  lemma {:induction false} RunInv(states: seq<Sys>, steps: seq<Step>, i: nat)
    requires IsRun(states, steps) && i < |states|
    ensures Inv(states[i])
  {
    if i > 0 {
      hide Inv, Enabled, Next;
      RunInv(states, steps, i - 1);
      InvIsDefined(states[i - 1]);
      assert IsStep(states[i - 1], steps[i - 1], states[i]);
      NextKeeps(states[i - 1], steps[i - 1]);
    } else {
      StartInv(states[0]);
    }
  }

  lemma StartInv(sys: Sys)
    requires Init(sys)
    ensures Inv(sys)
  {
  }

  // ---------- what the server will hold ----------

  /**
   Through any number of drops and any race, for every topic that no call is working on: on a working link the
   pending messages lead the server, before the resubscription, to no topic without a handler and, in the read
   loop, to exactly the topics with a handler, but for the extra and the missing ones.
   */
  lemma PendingLeadsToHandlers(states: seq<Sys>, steps: seq<Step>, i: nat, topic: Topic)
    requires IsRun(states, steps) && i < |states| && states[i].view.linkUp && topic !in Busy(states[i].calls)
    ensures Live(states[i].srv, states[i].me)
    ensures topic in Expected(states[i]) ==> topic in states[i].view.handlers || topic in states[i].extra
    ensures states[i].phase == Running ==>
      (topic in Expected(states[i]) <==>
        (topic in states[i].view.handlers && topic !in states[i].missing) || topic in states[i].extra)
    ensures topic in states[i].extra ==> topic !in states[i].view.handlers
  {
    hide Fold, Busy;
    RunInv(states, steps, i);
  }

  /** On a drained link the broker says the same. */
  lemma DrainedMeansAgreed(states: seq<Sys>, steps: seq<Step>, i: nat, topic: Topic)
    requires IsRun(states, steps) && i < |states| && topic !in Busy(states[i].calls)
    requires states[i].view.linkUp && states[i].phase == Running && states[i].view.sent == []
    ensures states[i].me in Members(states[i].srv.broker, topic) <==>
      (topic in states[i].view.handlers && topic !in states[i].missing) || topic in states[i].extra
  {
    hide Busy;
    RunInv(states, steps, i);
    SubscribedExactly(states[i].srv, states[i].me, topic);
  }

  // ---------- when the two sides agree ----------

  /** Off busy topics, the server will hold only topics with a handler and, counting what is about to be sent again, all of them. */
  ghost predicate Agrees(sys: Sys) {
    sys.view.linkUp && sys.me in sys.srv.meta ==>
      forall t :: t !in Busy(sys.calls) ==>
        && (t in Expected(sys) ==> t in sys.view.handlers)
        && (t in sys.view.handlers && Owed(sys, t) ==> t in Expected(sys))
  }

  /**
   The three races. A resubscription must not bring back a topic that lost its handler after the topics were
   collected, unless a call on it is still to come. The last call to write on a topic must say what the
   handlers say, where the topic is not about to be sent again anyway. And it must not
   return without writing when that leaves an earlier subscription on a new link.
   */
  ghost predicate WinsRace(sys: Sys, step: Step) {
    sys.view.linkUp ==>
      match step
      case SendAgain => sys.phase.Resubscribing? ==> TopicSet(sys.phase.topics) <= sys.view.handlers + Busy(sys.calls)
      case Check(id) => id in sys.calls ==> !ReturnsTooSoon(sys, id)
      case Finish(id) =>
        id in sys.calls ==>
          var call := sys.calls[id];
          call.topic in Busy(sys.calls - {id})
          || (if call.subscribe then call.topic in sys.view.handlers else Owed(sys, call.topic) ==> call.topic !in sys.view.handlers)
      case _ => true
  }

  lemma AgreesExactly(sys: Sys)
    requires Inv(sys) && sys.view.linkUp
    ensures Agrees(sys) <==> sys.extra == {} && sys.missing == {}
  {
    hide Agreed, Fold, Busy;
    if t :| t in sys.extra {
      assert t in Expected(sys) && t !in Busy(sys.calls);
    }
    if t :| t in sys.missing {
      assert t !in Expected(sys) && t !in Busy(sys.calls);
    }
  }

  lemma NothingLeft(a: set<Topic>, b: set<Topic>, c: set<Topic>)
    ensures a - b - c == {} <==> a <= b + c
  {
    if a - b - c == {} {
      forall t | t in a ensures t in b + c {
        assert t !in a - b - c;
      }
    }
  }

  /** Steps change the records in the three races only. */
  lemma NextRecords(sys: Sys, step: Step)
    requires WellFormed(sys.srv) && Enabled(sys, step) && sys.extra == {} && sys.missing == {}
    ensures Next(sys, step).extra == {} && Next(sys, step).missing == {} <==> WinsRace(sys, step)
  {
    hide Apply, Busy;
    if step.SendAgain? {
      NothingLeft(TopicSet(sys.phase.topics), sys.view.handlers, Busy(sys.calls));
    }
  }

  /** A new connection starts with clean records, and without a link there is nothing to agree on. */
  lemma DownAgrees(sys: Sys, step: Step)
    requires Inv(sys) && Enabled(sys, step) && !sys.view.linkUp
    ensures Agrees(Next(sys, step)) && WinsRace(sys, step)
  {
    InvIsDefined(sys);
    NextKeeps(sys, step);
    if step.Dial? {
      AgreesExactly(Next(sys, step));
    }
    hide Inv, Apply, Fold, Busy;
  }

  /** From agreement, a step leads to agreement exactly if it wins its race. */
  lemma NextAgreesExactly(sys: Sys, step: Step)
    requires Inv(sys) && Agrees(sys) && Enabled(sys, step)
    ensures Agrees(Next(sys, step)) <==> WinsRace(sys, step)
  {
    InvIsDefined(sys);
    hide Agrees, WinsRace, Inv, Busy;
    NextKeeps(sys, step);
    if !sys.view.linkUp {
      DownAgrees(sys, step);
    } else if Next(sys, step).view.linkUp {
      AgreesExactly(sys);
      AgreesExactly(Next(sys, step));
      NextRecords(sys, step);
    } else {
      CutAgrees(sys, step);
    }
  }

  lemma CutAgrees(sys: Sys, step: Step)
    requires WellFormed(sys.srv) && Enabled(sys, step) && sys.view.linkUp && !Next(sys, step).view.linkUp
    ensures Agrees(Next(sys, step)) && WinsRace(sys, step)
  {
    hide Apply, Busy, Fold;
  }

  ghost predicate WinsRaces(states: seq<Sys>, steps: seq<Step>) {
    forall k :: 0 <= k < |steps| && k < |states| ==> WinsRace(states[k], steps[k])
  }

  lemma {:induction false} WinningRunsAgree(states: seq<Sys>, steps: seq<Step>, i: nat)
    requires IsRun(states, steps) && WinsRaces(states, steps) && i < |states|
    ensures Agrees(states[i])
  {
    if i > 0 {
      hide Inv, Next, Enabled, Agrees, WinsRace;
      WinningRunsAgree(states, steps, i - 1);
      RunInv(states, steps, i - 1);
      InvIsDefined(states[i - 1]);
      assert IsStep(states[i - 1], steps[i - 1], states[i]);
      NextAgreesExactly(states[i - 1], steps[i - 1]);
    }
  }

  /**
   Over any run, drops and any schedule included: client and server agree, pending messages counted, in
   every state with a working link if and only if every resubscription and every last call wins its race.
   */
  lemma AgreesThroughoutExactly(states: seq<Sys>, steps: seq<Step>)
    requires IsRun(states, steps)
    ensures (forall i :: 0 <= i < |states| ==> Agrees(states[i])) <==> WinsRaces(states, steps)
  {
    hide Inv, Next, Enabled, Agrees, WinsRace;
    if WinsRaces(states, steps) {
      forall i | 0 <= i < |states| ensures Agrees(states[i]) {
        WinningRunsAgree(states, steps, i);
      }
    }
    if forall i :: 0 <= i < |states| ==> Agrees(states[i]) {
      forall k | 0 <= k < |steps| && k < |states| ensures WinsRace(states[k], steps[k]) {
        RunInv(states, steps, k);
        InvIsDefined(states[k]);
        assert IsStep(states[k], steps[k], states[k + 1]);
        assert Agrees(states[k + 1]);
        NextAgreesExactly(states[k], steps[k]);
      }
    }
  }

  /** So on a drained link with no call under way the broker lists the connection for exactly the handled topics. */
  lemma DrainedAndWon(states: seq<Sys>, steps: seq<Step>, i: nat, topic: Topic)
    requires IsRun(states, steps) && WinsRaces(states, steps) && i < |states|
    requires states[i].view.linkUp && states[i].phase == Running && states[i].view.sent == [] && states[i].calls == map[]
    ensures states[i].me in Members(states[i].srv.broker, topic) <==> topic in states[i].view.handlers
  {
    WinningRunsAgree(states, steps, i);
    RunInv(states, steps, i);
    hide Agreed, Fold;
    AgreesExactly(states[i]);
    DrainedMeansAgreed(states, steps, i, topic);
  }

  // ---------- calls that do not overlap ----------

  /** Each call says what the handlers say, and no other call works on its topic. */
  ghost predicate CallsApart(sys: Sys) {
    && (forall id :: id in sys.calls ==> (sys.calls[id].subscribe <==> sys.calls[id].topic in sys.view.handlers))
    && (forall id, k :: id in sys.calls && k in sys.calls && sys.calls[id].topic == sys.calls[k].topic ==> id == k)
  }

  /** A call begins only on a topic that no call is working on. */
  ghost predicate BeginsApart(states: seq<Sys>, steps: seq<Step>) {
    forall k :: 0 <= k < |steps| && k < |states| && steps[k].Begin? ==> steps[k].topic !in Busy(states[k].calls)
  }

  lemma NextApart(sys: Sys, step: Step)
    requires WellFormed(sys.srv) && Enabled(sys, step) && CallsApart(sys)
    requires step.Begin? ==> step.topic !in Busy(sys.calls)
    ensures CallsApart(Next(sys, step))
    ensures step.Finish? ==> WinsRace(sys, step)
  {
    hide Apply;
  }

  lemma {:induction false} ApartThroughout(states: seq<Sys>, steps: seq<Step>, i: nat)
    requires IsRun(states, steps) && BeginsApart(states, steps) && i < |states|
    ensures CallsApart(states[i])
  {
    if i > 0 {
      hide Inv, Next, Enabled, CallsApart;
      ApartThroughout(states, steps, i - 1);
      RunInv(states, steps, i - 1);
      InvIsDefined(states[i - 1]);
      assert IsStep(states[i - 1], steps[i - 1], states[i]);
      NextApart(states[i - 1], steps[i - 1]);
    }
  }

  /** When calls on a topic do not overlap, only resubscriptions and calls that return unsent have races to win. */
  lemma ApartCallsWin(states: seq<Sys>, steps: seq<Step>)
    requires IsRun(states, steps) && BeginsApart(states, steps)
    requires forall k :: 0 <= k < |steps| && k < |states| && (steps[k].SendAgain? || steps[k].Check?) ==>
      WinsRace(states[k], steps[k])
    ensures WinsRaces(states, steps)
  {
    hide Inv, Next, Enabled, CallsApart;
    forall k | 0 <= k < |steps| && k < |states| ensures WinsRace(states[k], steps[k]) {
      ApartThroughout(states, steps, k);
      RunInv(states, steps, k);
      InvIsDefined(states[k]);
      assert IsStep(states[k], steps[k], states[k + 1]);
      NextApart(states[k], steps[k]);
    }
  }
}
