/**
 The request/response matcher of the client library (client/client.go): any number of concurrent
 SendQuery calls and the read loop, interleaved at the lock that guards resChans.
 */
module Matcher {
  import opened Proto

  /** One call of SendQuery; it makes one channel, so the call also names its channel. */
  type Call = nat

  type Corr = string

  /** A Go channel of capacity one. */
  datatype Chan = Chan(buffer: seq<Message>, closed: bool)

  datatype Outcome = Answered(msg: Message) | SendFailed | TimedOut

  datatype Pc =
    | Opened               // channel registered, query not yet sent
    | Waiting              // in the select
    | Leaving(r: Outcome)  // result fixed, deferred delete still to run
    | Done(r: Outcome)

  datatype Query = Query(corr: Corr, pc: Pc)

  /** resChans as in the source; given records, for the proofs, the response put into each channel. */
  datatype State = State(
    resChans: map<Corr, Call>,
    chans: map<Call, Chan>,
    queries: map<Call, Query>,
    given: map<Call, Message>)

  datatype Step =
    | Open(q: Call, corr: Corr)
    | Sent(q: Call)
    | SendFails(q: Call)
    | Response(msg: Message)
    | Take(q: Call)
    | Expire(q: Call)
    | Cleanup(q: Call)

  const INITIAL: State := State(map[], map[], map[], map[])

  predicate At(s: State, q: Call, pc: Pc) {
    q in s.queries && q in s.chans && s.queries[q].pc == pc
  }

  /** When both the response and the timer are ready, the select may take either. */
  predicate Enabled(s: State, step: Step) {
    match step
    case Open(q, corr) => q !in s.queries
    case Sent(q) => At(s, q, Opened)
    case SendFails(q) => At(s, q, Opened)
    case Response(msg) => msg.correlationId in s.resChans ==> s.resChans[msg.correlationId] in s.chans
    case Take(q) => At(s, q, Waiting) && s.chans[q].buffer != []
    case Expire(q) => At(s, q, Waiting)
    case Cleanup(q) => q in s.queries && q in s.chans && s.queries[q].pc.Leaving?
  }

  function Goto(s: State, q: Call, pc: Pc): State
    requires q in s.queries
  {
    s.(queries := s.queries[q := s.queries[q].(pc := pc)])
  }

  /** The read loop's critical section: look up, send, close, delete. */
  function Respond(s: State, msg: Message): State
    requires Enabled(s, Response(msg))
  {
    if msg.correlationId !in s.resChans then s
    else
      var q := s.resChans[msg.correlationId];
      s.(chans := s.chans[q := Chan(s.chans[q].buffer + [msg], true)],
         resChans := s.resChans - {msg.correlationId},
         given := s.given[q := msg])
  }

  function Next(s: State, step: Step): State
    requires Enabled(s, step)
  {
    match step
    case Open(q, corr) =>
      State(s.resChans[corr := q], s.chans[q := Chan([], false)], s.queries[q := Query(corr, Opened)], s.given - {q})
    case Sent(q) => Goto(s, q, Waiting)
    case SendFails(q) => Goto(s, q, Leaving(SendFailed))
    case Response(msg) => Respond(s, msg)
    case Take(q) =>
      Goto(s.(chans := s.chans[q := s.chans[q].(buffer := s.chans[q].buffer[1..])]), q, Leaving(Answered(s.chans[q].buffer[0])))
    case Expire(q) => Goto(s, q, Leaving(TimedOut))
    case Cleanup(q) =>
      Goto(s.(resChans := s.resChans - {s.queries[q].corr}), q, Done(s.queries[q].pc.r))
  }

  // ---------- under every interleaving, with any correlation ids ----------

  /** The send in the read loop neither panics on a closed channel nor blocks on a full one. */
  predicate SendIsSafe(s: State, msg: Message) {
    msg.correlationId in s.resChans ==>
      s.resChans[msg.correlationId] in s.chans && s.chans[s.resChans[msg.correlationId]] == Chan([], false)
  }

  ghost predicate Safe(s: State) {
    && s.chans.Keys == s.queries.Keys && s.given.Keys <= s.chans.Keys
    && (forall corr :: corr in s.resChans ==>
          && s.resChans[corr] in s.queries
          && s.queries[s.resChans[corr]].corr == corr
          && s.chans[s.resChans[corr]] == Chan([], false))
    && (forall q :: q in s.chans ==> (s.chans[q].closed <==> q in s.given))
  }

  lemma NextSafe(s: State, step: Step)
    requires Safe(s) && Enabled(s, step)
    ensures Safe(Next(s, step))
  {
  }

  /** Every step can be taken from a safe state; no response finds its channel closed or full. */
  lemma ResponsesAreSafe(s: State, msg: Message)
    requires Safe(s)
    ensures Enabled(s, Response(msg)) && SendIsSafe(s, msg)
  {
  }

  /** Handling a response, spelled out for a safe state. */
  lemma ResponseStep(s: State, msg: Message)
    requires Safe(s)
    ensures Enabled(s, Response(msg)) && Safe(Next(s, Response(msg)))
    ensures
      var s' := Next(s, Response(msg));
      && s'.resChans == s.resChans - {msg.correlationId}
      && (msg.correlationId !in s.resChans ==> s'.chans == s.chans)
      && (msg.correlationId in s.resChans ==>
            var q := s.resChans[msg.correlationId];
            q in s.chans && s.chans[q] == Chan([], false) && s'.chans == s.chans[q := Chan([msg], true)])
  {
    NextSafe(s, Response(msg));
    if msg.correlationId in s.resChans {
      assert s.chans[s.resChans[msg.correlationId]].buffer + [msg] == [msg];
    }
  }

  // ---------- with ids that no unfinished call has ----------

  /** A call has finished when its deferred delete has run. */
  predicate Unfinished(s: State, q: Call) {
    q in s.queries && !s.queries[q].pc.Done?
  }

  /** The new id is not that of an unfinished call; an id may be used again after its call has finished. */
  ghost predicate Fresh(s: State, step: Step) {
    step.Open? ==> forall q :: Unfinished(s, q) ==> s.queries[q].corr != step.corr
  }

  /** Nothing has answered the call yet and it still holds its entry. */
  predicate Outstanding(s: State, q: Call) {
    Unfinished(s, q) && q !in s.given
  }

  /** What the channel of a call contains: the response it was given, until the call takes it. */
  predicate Delivered(s: State, q: Call)
    requires q in s.queries && q in s.chans
  {
    var pc := s.queries[q].pc;
    if (pc.Leaving? || pc.Done?) && pc.r.Answered?
    then q in s.given && pc.r.msg == s.given[q] && s.chans[q].buffer == []
    else s.chans[q].buffer == if q in s.given then [s.given[q]] else []
  }

  ghost predicate CorrsDiffer(s: State) {
    forall q, p :: Unfinished(s, q) && Unfinished(s, p) && s.queries[q].corr == s.queries[p].corr ==> q == p
  }

  /** The entry under the call's id is the call's own. */
  predicate Registered(s: State, q: Call)
    requires q in s.queries
  {
    s.queries[q].corr in s.resChans && s.resChans[s.queries[q].corr] == q
  }

  ghost predicate EntriesExact(s: State) {
    forall q :: q in s.queries ==> (Outstanding(s, q) <==> Registered(s, q))
  }

  ghost predicate AllDelivered(s: State) {
    forall q :: q in s.queries && q in s.chans ==> Delivered(s, q)
  }

  ghost predicate GivenMatch(s: State) {
    forall q :: q in s.given && q in s.queries ==> s.given[q].correlationId == s.queries[q].corr
  }

  ghost predicate Exact(s: State) {
    Safe(s) && CorrsDiffer(s) && EntriesExact(s) && AllDelivered(s) && GivenMatch(s)
  }

  lemma NextCorrsDiffer(s: State, step: Step)
    requires Safe(s) && CorrsDiffer(s) && Enabled(s, step) && Fresh(s, step)
    ensures CorrsDiffer(Next(s, step))
  {
  }

  lemma NextEntries(s: State, step: Step)
    requires Safe(s) && CorrsDiffer(s) && EntriesExact(s) && Enabled(s, step) && Fresh(s, step)
    ensures EntriesExact(Next(s, step))
  {
  }

  lemma NextDelivered(s: State, step: Step)
    requires Safe(s) && EntriesExact(s) && AllDelivered(s) && Enabled(s, step)
    ensures AllDelivered(Next(s, step))
  {
    var s' := Next(s, step);
    forall q | q in s'.queries && q in s'.chans ensures Delivered(s', q) {
      assert q in s.queries ==> Delivered(s, q);
    }
  }

  lemma NextGivenMatch(s: State, step: Step)
    requires Safe(s) && GivenMatch(s) && Enabled(s, step)
    ensures GivenMatch(Next(s, step))
  {
  }

  lemma NextExact(s: State, step: Step)
    requires Exact(s) && Enabled(s, step) && Fresh(s, step)
    ensures Exact(Next(s, step))
  {
    hide Safe, CorrsDiffer, EntriesExact, AllDelivered, GivenMatch, Next, Enabled, Fresh;
    NextSafe(s, step);
    NextCorrsDiffer(s, step);
    NextEntries(s, step);
    NextDelivered(s, step);
    NextGivenMatch(s, step);
  }

  ghost predicate IsRun(states: seq<State>, steps: seq<Step>) {
    && |states| == |steps| + 1 && states[0] == INITIAL
    && forall i :: 0 <= i < |steps| ==> Enabled(states[i], steps[i]) && states[i + 1] == Next(states[i], steps[i])
  }

  /** Under every interleaving, every registered channel is open and empty, so the read loop never panics or blocks on one. */
  lemma {:induction false} ChannelsAlwaysSafe(states: seq<State>, steps: seq<Step>, i: nat)
    requires IsRun(states, steps) && i < |states|
    ensures Safe(states[i]) && forall msg :: SendIsSafe(states[i], msg)
  {
    if i > 0 {
      ChannelsAlwaysSafe(states, steps, i - 1);
      NextSafe(states[i - 1], steps[i - 1]);
    }
  }

  /** Keys, channels, results and responses stay in agreement exactly if a new id is not that of an unfinished call. */
  lemma NextExactly(s: State, step: Step)
    requires Exact(s) && Enabled(s, step)
    ensures Exact(Next(s, step)) <==> Fresh(s, step)
  {
    if Fresh(s, step) {
      NextExact(s, step);
    } else {
      CollisionBreaks(s, step);
    }
  }

  lemma CollisionBreaks(s: State, step: Step)
    requires Safe(s) && Enabled(s, step) && !Fresh(s, step)
    ensures !CorrsDiffer(Next(s, step))
  {
    var p :| Unfinished(s, p) && s.queries[p].corr == step.corr;
    assert Unfinished(Next(s, step), p) && Unfinished(Next(s, step), step.q);
  }

  /** Each call starts with an id that no unfinished call has. */
  ghost predicate FreshRun(states: seq<State>, steps: seq<Step>) {
    forall k :: 0 <= k < |steps| && k < |states| ==> Fresh(states[k], steps[k])
  }

  lemma {:induction false} RunExact(states: seq<State>, steps: seq<Step>, i: nat)
    requires IsRun(states, steps) && FreshRun(states, steps) && i < |states|
    ensures Exact(states[i])
  {
    if i > 0 {
      RunExact(states, steps, i - 1);
      NextExact(states[i - 1], steps[i - 1]);
    }
  }

  /** The agreement holds throughout a run exactly if every call starts with such an id. */
  lemma RunExactly(states: seq<State>, steps: seq<Step>)
    requires IsRun(states, steps)
    ensures (forall i :: 0 <= i < |states| ==> Exact(states[i])) <==> FreshRun(states, steps)
  {
    hide Exact, Fresh, Next, Enabled;
    if FreshRun(states, steps) {
      forall i | 0 <= i < |states| ensures Exact(states[i]) {
        RunExact(states, steps, i);
      }
    }
    if forall i :: 0 <= i < |states| ==> Exact(states[i]) {
      forall k | 0 <= k < |steps| && k < |states| ensures Fresh(states[k], steps[k]) {
        NextExactly(states[k], steps[k]);
        assert Exact(states[k + 1]);
      }
    }
  }

  /** Steps that start no call lead from s to s'. */
  ghost predicate Settles(s: State, rest: seq<Step>, s': State)
    decreases |rest|
  {
    if rest == [] then s' == s
    else !rest[0].Open? && Enabled(s, rest[0]) && Settles(Next(s, rest[0]), rest[1..], s')
  }

  lemma {:induction false} SettlingExact(s: State, rest: seq<Step>, s': State)
    requires Exact(s) && Settles(s, rest, s')
    ensures Exact(s')
    decreases |rest|
  {
    hide Exact, Next, Enabled;
    if rest != [] {
      assert Fresh(s, rest[0]);
      NextExact(s, rest[0]);
      SettlingExact(Next(s, rest[0]), rest[1..], s');
    }
  }

  /** How an unfinished call may finish without a response. */
  function WayOut(s: State, p: Call): seq<Step>
    requires p in s.queries
  {
    match s.queries[p].pc
    case Opened => [SendFails(p), Cleanup(p)]
    case Waiting => [Expire(p), Cleanup(p)]
    case _ => [Cleanup(p)]
  }

  /** The older of two calls with one id takes the entry of the other along when it finishes. */
  lemma CollisionOrphans(s: State, q: Call, corr: Corr, p: Call) returns (s': State)
    requires Exact(s) && Enabled(s, Open(q, corr)) && Unfinished(s, p) && s.queries[p].corr == corr
    ensures p in Next(s, Open(q, corr)).queries
    ensures Settles(Next(s, Open(q, corr)), WayOut(Next(s, Open(q, corr)), p), s')
    ensures Outstanding(s', q) && s'.queries[q].corr == corr && corr !in s'.resChans
  {
    hide CorrsDiffer, EntriesExact, AllDelivered, GivenMatch;
    var s1 := Next(s, Open(q, corr));
    var way := WayOut(s1, p);
    var s2 := if |way| == 1 then s1 else Next(s1, way[0]);
    s' := Next(s2, Cleanup(p));
    assert Settles(s2, [Cleanup(p)], s');
    if |way| == 2 {
      assert way[1..] == [Cleanup(p)];
    }
  }

  /** However its calls finish, the entries stay those of the outstanding calls exactly if the new id is not that of an unfinished call. */
  lemma EntriesStayExactly(s: State, q: Call, corr: Corr)
    requires Exact(s) && Enabled(s, Open(q, corr))
    ensures (forall rest, s' :: Settles(Next(s, Open(q, corr)), rest, s') ==> EntriesExact(s')) <==> Fresh(s, Open(q, corr))
  {
    var s1 := Next(s, Open(q, corr));
    if Fresh(s, Open(q, corr)) {
      NextExact(s, Open(q, corr));
      forall rest, s' | Settles(s1, rest, s') ensures EntriesExact(s') {
        SettlingExact(s1, rest, s');
      }
    } else {
      var p :| Unfinished(s, p) && s.queries[p].corr == corr;
      var s' := CollisionOrphans(s, q, corr, p);
      assert !EntriesExact(s');
    }
  }

  /** However the calls under way finish, the map's entries are those of the outstanding calls. */
  ghost predicate EntriesStay(s: State) {
    forall rest, s' :: Settles(s, rest, s') ==> EntriesExact(s')
  }

  lemma ExactEntriesStay(s: State)
    requires Exact(s)
    ensures EntriesStay(s)
  {
    forall rest, s' | Settles(s, rest, s') ensures EntriesExact(s') {
      SettlingExact(s, rest, s');
    }
  }

  lemma {:induction false} StayingRunsAreFresh(states: seq<State>, steps: seq<Step>, n: nat)
    requires IsRun(states, steps) && n < |states| && forall i :: 0 <= i < |states| ==> EntriesStay(states[i])
    ensures Exact(states[n])
    ensures forall k :: 0 <= k < n ==> Fresh(states[k], steps[k])
  {
    if n > 0 {
      hide Exact, Enabled, Next, EntriesExact;
      StayingRunsAreFresh(states, steps, n - 1);
      var s, step := states[n - 1], steps[n - 1];
      assert EntriesStay(states[n]);
      if step.Open? {
        EntriesStayExactly(s, step.q, step.corr);
      }
      NextExact(s, step);
    }
  }

  /** In every state of a run the entries stay those of the outstanding calls, however these finish, exactly if every call starts with such an id. */
  lemma EntriesStayThroughoutExactly(states: seq<State>, steps: seq<Step>)
    requires IsRun(states, steps)
    ensures (forall i :: 0 <= i < |states| ==> EntriesStay(states[i])) <==> FreshRun(states, steps)
  {
    hide Exact, Fresh, Next, Enabled, EntriesStay;
    if FreshRun(states, steps) {
      forall i | 0 <= i < |states| ensures EntriesStay(states[i]) {
        RunExact(states, steps, i);
        ExactEntriesStay(states[i]);
      }
    }
    if forall i :: 0 <= i < |states| ==> EntriesStay(states[i]) {
      StayingRunsAreFresh(states, steps, |steps|);
    }
  }

  /** In such runs the map's keys are exactly the ids of the outstanding calls. */
  lemma KeysAreOutstanding(states: seq<State>, steps: seq<Step>, i: nat, corr: Corr)
    requires IsRun(states, steps) && FreshRun(states, steps) && i < |states|
    ensures corr in states[i].resChans <==> exists q :: Outstanding(states[i], q) && states[i].queries[q].corr == corr
  {
    hide Fresh, Next, Enabled;
    RunExact(states, steps, i);
    var s := states[i];
    if corr in s.resChans {
      assert Outstanding(s, s.resChans[corr]);
    }
  }

  /**
   What a step makes of a call: it waits once its query is sent; its result is fixed by a failed send, the timer, or
   the oldest message in its channel, each for itself; the deferred delete leaves the result as it is.
   */
  lemma ResultsExactly(s: State, step: Step, q: Call)
    requires Enabled(s, step) && (q in s.queries || (step.Open? && step.q == q))
    ensures q in Next(s, step).queries
    ensures var after := Next(s, step).queries[q];
      && (step == Sent(q) ==> after.pc == Waiting)
      && (step == SendFails(q) ==> after.pc == Leaving(SendFailed))
      && (step == Expire(q) ==> after.pc == Leaving(TimedOut))
      && (step == Take(q) ==> after.pc == Leaving(Answered(s.chans[q].buffer[0])))
      && (step == Cleanup(q) ==> after.pc == Done(s.queries[q].pc.r))
      && (step.Open? && step.q == q ==> after == Query(step.corr, Opened))
      && (step !in {Sent(q), SendFails(q), Expire(q), Take(q), Cleanup(q)} && !(step.Open? && step.q == q) ==> after == s.queries[q])
      && (q in s.queries ==> after.corr == s.queries[q].corr)
  {
  }

  /** Once a call has its result, it keeps it, and it is the result that is returned. */
  lemma {:induction false} ResultStays(states: seq<State>, steps: seq<Step>, i: nat, j: nat, q: Call)
    requires IsRun(states, steps) && i <= j < |states|
    requires q in states[i].queries && (states[i].queries[q].pc.Leaving? || states[i].queries[q].pc.Done?)
    ensures q in states[j].queries && (states[j].queries[q].pc.Leaving? || states[j].queries[q].pc.Done?)
    ensures states[j].queries[q].pc.r == states[i].queries[q].pc.r
    decreases j
  {
    hide Next;
    if i < j {
      ResultStays(states, steps, i, j - 1, q);
      assert Enabled(states[j - 1], steps[j - 1]);
      ResultsExactly(states[j - 1], steps[j - 1], q);
    }
  }

  /** What a call was given it keeps; calls are never forgotten. */
  lemma GivenStays(s: State, step: Step, q: Call)
    requires Exact(s) && Enabled(s, step) && q in s.queries && q in s.given
    ensures q in Next(s, step).queries && q in Next(s, step).given && Next(s, step).given[q] == s.given[q]
  {
    hide AllDelivered, GivenMatch, CorrsDiffer;
  }

  lemma ResponseIsGiven(s: State, msg: Message, q: Call)
    requires Exact(s) && Outstanding(s, q) && s.queries[q].corr == msg.correlationId
    ensures Enabled(s, Response(msg))
    ensures q in Respond(s, msg).queries && q in Respond(s, msg).given && Respond(s, msg).given[q] == msg
  {
    hide AllDelivered, GivenMatch;
  }

  /** A call that was given a response has it ready to be taken, or took it, or gave up. */
  lemma GivenIsReady(s: State, q: Call)
    requires Exact(s) && q in s.queries && q in s.given
    ensures s.queries[q].pc.Waiting? ==> Enabled(s, Take(q)) && s.chans[q].buffer == [s.given[q]]
    ensures forall r :: s.queries[q].pc in {Leaving(r), Done(r)} && r.Answered? ==> r.msg == s.given[q]
  {
    assert Delivered(s, q);
  }

  /**
   A response handled while its call is between registering and the end of its select is not lost: it
   stays in the call's channel, ready to be taken, for as long as the call has not settled.
   */
  lemma {:induction false} ResponseIsNotLost(states: seq<State>, steps: seq<Step>, i: nat, j: nat, q: Call)
    requires IsRun(states, steps) && FreshRun(states, steps) && i < j < |states|
    requires steps[i].Response? && Outstanding(states[i], q) && states[i].queries[q].corr == steps[i].msg.correlationId
    ensures q in states[j].queries && q in states[j].given && states[j].given[q] == steps[i].msg
    ensures states[j].queries[q].pc.Waiting? ==> Enabled(states[j], Take(q)) && states[j].chans[q].buffer == [steps[i].msg]
    ensures forall r :: states[j].queries[q].pc in {Leaving(r), Done(r)} && r.Answered? ==> r.msg == steps[i].msg
    decreases j
  {
    hide Exact, Safe, Outstanding;
    RunExact(states, steps, j - 1);
    RunExact(states, steps, j);
    assert Enabled(states[j - 1], steps[j - 1]) && states[j] == Next(states[j - 1], steps[j - 1]);
    if j == i + 1 {
      ResponseIsGiven(states[i], steps[i].msg, q);
    } else {
      ResponseIsNotLost(states, steps, i, j - 1, q);
      GivenStays(states[j - 1], steps[j - 1], q);
    }
    GivenIsReady(states[j], q);
  }
}
