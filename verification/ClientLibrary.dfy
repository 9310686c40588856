/**
 The mutable parts of the client library (client/client.go): the handler and connection fields that
 Subscribe, Unsubscribe and the reconnect loop update, and the critical sections on resChans.
 */
module ClientLibrary {
  import opened Wrappers
  import opened Json
  import opened Proto
  import M = Matcher

  /** A Go channel of capacity one. Sending to it when closed panics, when full blocks; closing it twice panics. */
  class ResponseChan {
    var buffer: seq<Message>
    var closed: bool

    constructor ()
      ensures buffer == [] && !closed
    {
      buffer, closed := [], false;
    }

    method Send(msg: Message)
      requires !closed && |buffer| < 1
      modifies this`buffer
      ensures buffer == old(buffer) + [msg]
    {
      buffer := buffer + [msg];
    }

    method Close()
      requires !closed
      modifies this`closed
      ensures closed
    {
      closed := true;
    }
  }

  /** What the subscription protocol of a client depends on; sent is what went into the current connection. */
  datatype View = View(handlers: set<Topic>, connected: bool, linkUp: bool, sent: seq<Message>)

  function SubscribeMessage(topics: seq<Topic>): Message {
    Message("subscribe", "", "", "", "", EncodeSubscription(topics))
  }

  function UnsubscribeMessage(topics: seq<Topic>): Message {
    Message("unsubscribe", "", "", "", "", EncodeSubscription(topics))
  }

  /** Writing to a broken link is an error and sends nothing. */
  function Write(v: View, msg: Message): View {
    if v.linkUp then v.(sent := v.sent + [msg]) else v
  }

  /** The handler is stored in any case; the message is sent only while connected. */
  function AfterSubscribe(v: View, topic: Topic): View {
    var w := v.(handlers := v.handlers + {topic});
    if v.connected then Write(w, SubscribeMessage([topic])) else w
  }

  function AfterUnsubscribe(v: View, topic: Topic): View {
    var w := v.(handlers := v.handlers - {topic});
    if v.connected then Write(w, UnsubscribeMessage([topic])) else w
  }

  /** The message asks for these topics, in its text and in what that decodes to. */
  ghost predicate Asks(m: Message, kind: string, topics: seq<Topic>) {
    m.kind == kind && m.payload.asSubscription == Some(topics) && DecodeTopics(m.payload.raw) == Some(topics)
  }

  lemma MessagesAsk(topics: seq<Topic>)
    ensures Asks(SubscribeMessage(topics), "subscribe", topics) && Asks(UnsubscribeMessage(topics), "unsubscribe", topics)
  {
    hide DecodeTopics, EncodeTopics;
    SubscriptionDecodes(topics);
  }

  class Client {
    var connected: bool
    var subHandlers: set<Topic>
    var linkUp: bool
    var sent: seq<Message>
    var resChans: map<string, ResponseChan>
    ghost var calls: map<M.Call, ResponseChan> // the channel that each call of SendQuery made
    ghost var matcher: M.State

    constructor ()
      ensures Status() == View({}, false, false, []) && resChans == map[] && Valid() && matcher == M.INITIAL
    {
      connected, subHandlers, linkUp, sent := false, {}, false, [];
      resChans := map[];
      calls, matcher := map[], M.INITIAL;
    }

    function Status(): View
      reads this
    {
      View(subHandlers, connected, linkUp, sent)
    }

    /** The channel objects are in the states that the matcher says. */
    static ghost predicate Channels(calls: map<M.Call, ResponseChan>, chans: map<M.Call, M.Chan>)
      reads calls.Values
    {
      calls.Keys == chans.Keys && forall q :: q in calls ==> chans[q] == M.Chan(calls[q].buffer, calls[q].closed)
    }

    static ghost predicate Distinct(calls: map<M.Call, ResponseChan>) {
      forall q, p :: q in calls && p in calls && q != p ==> calls[q] != calls[p]
    }

    /** The map leads from each id to the channel of the call that the matcher has under it. */
    static ghost predicate Entries(resChans: map<string, ResponseChan>, calls: map<M.Call, ResponseChan>, entries: map<M.Corr, M.Call>) {
      && resChans.Keys == entries.Keys
      && forall corr :: corr in resChans ==> entries[corr] in calls && calls[entries[corr]] == resChans[corr]
    }

    /** Map and channels are those of the matcher, whose every registered channel is open and empty. */
    ghost predicate Valid()
      reads this, calls.Values
    {
      M.Safe(matcher) && Distinct(calls) && Channels(calls, matcher.chans) && Entries(resChans, calls, matcher.resChans)
    }

    method TransportSend(msg: Message) returns (ok: bool)
      modifies this`sent
      ensures ok == linkUp && Status() == Write(old(Status()), msg)
      ensures sent == if ok then old(sent) + [msg] else old(sent)
    {
      ok := linkUp;
      if ok {
        sent := sent + [msg];
      }
    }

    method Subscribe(topic: Topic) returns (ok: bool)
      modifies this`subHandlers, this`sent
      ensures Status() == AfterSubscribe(old(Status()), topic)
      ensures ok <==> !connected || linkUp
      ensures forall t :: t in subHandlers <==> t in old(subHandlers) || t == topic
      ensures connected && linkUp ==>
        |sent| == |old(sent)| + 1 && old(sent) < sent && Asks(sent[|old(sent)|], "subscribe", [topic])
      ensures !(connected && linkUp) ==> sent == old(sent)
    {
      MessagesAsk([topic]);
      hide Asks;
      subHandlers := subHandlers + {topic};
      if !connected {
        return true;
      }
      ok := TransportSend(SubscribeMessage([topic]));
    }

    method Unsubscribe(topic: Topic) returns (ok: bool)
      modifies this`subHandlers, this`sent
      ensures Status() == AfterUnsubscribe(old(Status()), topic)
      ensures ok <==> !connected || linkUp
      ensures forall t :: t in subHandlers <==> t in old(subHandlers) && t != topic
      ensures connected && linkUp ==>
        |sent| == |old(sent)| + 1 && old(sent) < sent && Asks(sent[|old(sent)|], "unsubscribe", [topic])
      ensures !(connected && linkUp) ==> sent == old(sent)
    {
      MessagesAsk([topic]);
      hide Asks;
      subHandlers := subHandlers - {topic};
      if !connected {
        return true;
      }
      ok := TransportSend(UnsubscribeMessage([topic]));
    }

    /** After the acknowledgement: every handler's topic once, in any order. */
    method Collect() returns (topics: seq<Topic>)
      ensures (set t | t in topics) == subHandlers && |topics| == |subHandlers|
    {
      topics := [];
      var remaining := subHandlers;
      while remaining != {}
        invariant remaining <= subHandlers && (set t | t in topics) == subHandlers - remaining
        invariant |topics| + |remaining| == |subHandlers|
        decreases remaining
      {
        var t :| t in remaining;
        assert (set x | x in topics + [t]) == (set x | x in topics) + {t};
        topics := topics + [t];
        remaining := remaining - {t};
      }
    }

    /** Then one subscribe message with the topics as they were collected, whatever the handlers are by now. */
    method SendAgain(topics: seq<Topic>) returns (ok: bool)
      modifies this`sent
      ensures ok == linkUp && Status() == Write(old(Status()), SubscribeMessage(topics))
      ensures ok ==> |sent| == |old(sent)| + 1 && old(sent) < sent && Asks(sent[|old(sent)|], "subscribe", topics)
      ensures !ok ==> sent == old(sent)
    {
      MessagesAsk(topics);
      hide Asks;
      ok := TransportSend(SubscribeMessage(topics));
    }

    // ---------- the steps of SendQuery and of the read loop on resChans ----------

    method OpenQuery(corr: string, ghost q: M.Call) returns (ch: ResponseChan)
      requires Valid() && q !in calls
      modifies this`resChans, this`calls, this`matcher
      ensures Valid() && fresh(ch) && calls == old(calls)[q := ch] && resChans == old(resChans)[corr := ch]
      ensures M.Enabled(old(matcher), M.Open(q, corr)) && matcher == M.Next(old(matcher), M.Open(q, corr))
    {
      ch := new ResponseChan();
      M.NextSafe(matcher, M.Open(q, corr));
      resChans := resChans[corr := ch];
      calls := calls[q := ch];
      matcher := M.Next(matcher, M.Open(q, corr));
    }

    method WriteQuery(msg: Message, ghost q: M.Call) returns (ok: bool)
      requires Valid() && M.At(matcher, q, M.Opened)
      modifies this`sent, this`matcher
      ensures Valid() && ok == linkUp && Status() == Write(old(Status()), msg)
      ensures matcher == M.Next(old(matcher), if ok then M.Sent(q) else M.SendFails(q))
      ensures sent == if ok then old(sent) + [msg] else old(sent)
      ensures matcher.queries[q].pc == if ok then M.Waiting else M.Leaving(M.SendFailed)
    {
      ok := TransportSend(msg);
      M.NextSafe(matcher, if ok then M.Sent(q) else M.SendFails(q));
      matcher := M.Next(matcher, if ok then M.Sent(q) else M.SendFails(q));
    }

    /** The select: the response or, at any time, the timer. */
    method Await(ch: ResponseChan, timeout: bool, ghost q: M.Call) returns (r: M.Outcome)
      requires Valid() && q in calls && calls[q] == ch && M.At(matcher, q, M.Waiting)
      requires timeout || ch.buffer != []
      modifies ch`buffer, this`matcher
      ensures Valid() && matcher == M.Next(old(matcher), if timeout then M.Expire(q) else M.Take(q))
      ensures matcher.queries[q].pc == M.Leaving(r)
      ensures timeout ==> r == M.TimedOut && ch.buffer == old(ch.buffer)
      ensures !timeout ==> r.Answered? && [r.msg] + ch.buffer == old(ch.buffer)
    {
      hide M.Safe, Entries;
      ghost var step := if timeout then M.Expire(q) else M.Take(q);
      M.NextSafe(matcher, step);
      if timeout {
        r := M.TimedOut;
      } else {
        r := M.Answered(ch.buffer[0]);
        ch.buffer := ch.buffer[1..];
      }
      matcher := M.Next(matcher, step);
    }

    /** The deferred delete removes whatever is under the id. */
    method CloseQuery(corr: string, ghost q: M.Call)
      requires Valid() && M.Enabled(matcher, M.Cleanup(q)) && matcher.queries[q].corr == corr
      modifies this`resChans, this`matcher
      ensures Valid() && resChans == old(resChans) - {corr} && matcher == M.Next(old(matcher), M.Cleanup(q))
      ensures matcher.queries[q].pc == M.Done(old(matcher).queries[q].pc.r)
    {
      hide M.Safe, Distinct, Channels;
      M.NextSafe(matcher, M.Cleanup(q));
      resChans := resChans - {corr};
      matcher := M.Next(matcher, M.Cleanup(q));
    }

    method Deliver(ch: ResponseChan, msg: Message, ghost q: M.Call)
      requires Distinct(calls) && Channels(calls, matcher.chans) && q in calls && calls[q] == ch
      requires matcher.chans[q] == M.Chan([], false)
      modifies ch
      ensures ch.buffer == [msg] && ch.closed && Channels(calls, matcher.chans[q := M.Chan([msg], true)])
    {
      ch.Send(msg);
      ch.Close();
    }

    /** A registered response goes into its channel alone; the channel is then closed and forgotten. */
    method Answer(ch: ResponseChan, msg: Message)
      requires Valid() && msg.correlationId in resChans && resChans[msg.correlationId] == ch
      modifies this`resChans, this`matcher, ch
      ensures Valid() && resChans == old(resChans) - {msg.correlationId} && ch.buffer == [msg] && ch.closed
      ensures M.Enabled(old(matcher), M.Response(msg)) && matcher == M.Next(old(matcher), M.Response(msg))
    {
      hide M.Safe, M.Next, M.Enabled, M.SendIsSafe, Distinct, Channels;
      M.ResponseStep(matcher, msg);
      ghost var next := M.Next(matcher, M.Response(msg));
      Deliver(ch, msg, matcher.resChans[msg.correlationId]);
      resChans := resChans - {msg.correlationId};
      matcher := next;
    }

    /** Responses to unknown ids change nothing. */
    method HandleResponse(msg: Message)
      requires Valid()
      modifies this`resChans, this`matcher, if msg.correlationId in resChans then {resChans[msg.correlationId]} else {}
      ensures Valid() && resChans == old(resChans) - {msg.correlationId}
      ensures msg.correlationId in old(resChans) ==>
        var ch := old(resChans)[msg.correlationId]; ch.buffer == [msg] && ch.closed
      ensures M.Enabled(old(matcher), M.Response(msg)) && matcher == M.Next(old(matcher), M.Response(msg))
    {
      if msg.correlationId in resChans {
        hide M.Safe, M.Next, M.Enabled, Distinct, Channels, Entries;
        Answer(resChans[msg.correlationId], msg);
      }
    }
  }
}
