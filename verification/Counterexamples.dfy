/**
 Concrete states and inputs at which a property fails once a hypothesis is dropped. Where the failure
 has an exact condition, the lemma that states it is named.
 */
module Counterexamples {
  import opened Wrappers
  import opened Proto
  import opened ServerState
  import opened Json
  import opened Sse
  import L = ClientLibrary
  import V = Convergence
  import M = Matcher
  import R = Radio

  const ANY_NUMBER: Method := Method(map["value" := DataType("number", [], [])], map[])
  const NOTHING: Method := Method(map[], map[])
  const TEMP: Feature := Feature("t", "", ANY_NUMBER, NOTHING, NOTHING, NOTHING)
  const EMPTY: Payload := Payload("{}", Some(IdentifyPayload("", "", [])), Some([]), Some(AckPayload("", "")))

  lemma TempIsValid()
    ensures ValidFeature(TEMP) && AcceptedNames(map["t" := TEMP]) == {"t"} && FeatureNames(map["t" := TEMP]) == {"t"}
  {
    assert !IsSpace(TEMP.name[0]);
    assert ByteLength("t") == 1 + ByteLength("");
    assert map["t" := TEMP]["t"].name in FeatureNames(map["t" := TEMP]);
  }

  /** Client 0, registered as "a", declares and owns "t". */
  const ONE_OWNER: State<nat> :=
    State(map["a" := 0], map[], map["t" := "a"], map[0 := Meta("a", "", "", map["t" := TEMP], {})])

  lemma OneOwnerConsistent()
    ensures Consistent(ONE_OWNER)
  {
    hide ValidFeature, AcceptedNames;
    TempIsValid();
  }

  const SHRUNK: State<nat> := Step(ONE_OWNER, Message("identify", "", "a", "", "", EMPTY))

  /** See IdentifyConsistentExactly. An identify that no longer declares an owned topic leaves its route behind, for good once the client is gone. */
  lemma ShrinkingIdentifyDangles()
    ensures Consistent(ONE_OWNER)
    ensures Agreed(SHRUNK) && !NoDanglingRoute(SHRUNK)
    ensures Remove(SHRUNK, 0).registry == map[] && Remove(SHRUNK, 0).routes == map["t" := "a"]
    ensures Target(Remove(SHRUNK, 0), "t") == None
  {
    OneOwnerConsistent();
    assert FeatureMap([]) == map[] && FeatureNames(map[]) == {};
    assert SHRUNK.meta[0].features == map[];
    assert SHRUNK.routes == map["t" := "a"];
    assert "t" in SHRUNK.routes && SHRUNK.registry[SHRUNK.routes["t"]] == 0;
    assert !Declares(SHRUNK.meta[0], "t");
    assert Remove(SHRUNK, 0).routes == SHRUNK.routes;
    assert Remove(SHRUNK, 0).registry == map[];
    StepAgreed(ONE_OWNER, Message("identify", "", "a", "", "", EMPTY));
  }

  /** As above, with client 1, registered as "b", declaring the same topic without owning it. */
  const TWO_DECLARERS: State<nat> :=
    State(map["a" := 0, "b" := 1], map[], map["t" := "a"],
          map[0 := Meta("a", "", "", map["t" := TEMP], {}), 1 := Meta("b", "", "", map["t" := TEMP], {})])

  lemma TwoDeclarersConsistent()
    ensures Consistent(TWO_DECLARERS)
  {
    hide ValidFeature, AcceptedNames;
    TempIsValid();
  }

  /** See ReleasesFreely in ExactRoutes. When a client that shares a topic leaves, the owner loses its route although it stays and declares the topic. */
  lemma SharedNameLosesRoute()
    ensures Consistent(TWO_DECLARERS)
    ensures
      var after := Remove(TWO_DECLARERS, 1);
      Live(after, 0) && Declares(after.meta[0], "t") && "t" !in after.routes && Target(after, "t") == None
  {
    hide ValidFeature, AcceptedNames, Consistent;
    TwoDeclarersConsistent();
    TempIsValid();
  }

  /** See Matcher.NextExactly. With the id of an unfinished call used again, one call's cleanup takes the entry of the other, which can then never be answered. */
  lemma CollidingIdsOrphanACall()
    ensures
      var s1 := M.Next(M.INITIAL, M.Open(0, "x"));
      var s2 := M.Next(s1, M.Open(1, "x"));
      var s3 := M.Next(s2, M.Sent(0));
      var s4 := M.Next(s3, M.Expire(0));
      var s5 := M.Next(s4, M.Cleanup(0));
      !M.Fresh(s1, M.Open(1, "x")) && M.Safe(s5) && M.Outstanding(s5, 1) && s5.resChans == map[] && !M.Exact(s5)
      && forall m :: M.Respond(s5, m) == s5
  {
  }

  /** With the id of a finished call used again, the matcher stays exact, but the late response to the first call answers the second. */
  lemma ReusedIdTakesLateAnswer(m: Message)
    requires m.correlationId == "x"
    ensures
      var s1 := M.Next(M.Next(M.INITIAL, M.Open(0, "x")), M.Sent(0));
      var s2 := M.Next(M.Next(s1, M.Expire(0)), M.Cleanup(0));
      var s3 := M.Next(M.Next(s2, M.Open(1, "x")), M.Sent(1));
      && M.Fresh(s2, M.Open(1, "x")) && M.Enabled(s3, M.Response(m))
      && var s4 := M.Next(s3, M.Response(m));
         M.Enabled(s4, M.Take(1)) && M.Next(s4, M.Take(1)).queries[1].pc == M.Leaving(M.Answered(m))
  {
  }

  /** See Radio.RoundTripExactly. An address of 256 bytes wraps to length zero: all of it is parsed as data. */
  lemma LongAddressMisparses()
    ensures
      var address: seq<R.byte> := seq(256, _ => 7);
      R.Parse(R.Frame(address, [1])) == Success(R.LoRaMessage([], address + [1]))
  {
    var address: seq<R.byte> := seq(256, _ => 7);
    R.ParseFrame(address, [1]);
  }

  // ---------- client ids ----------

  /** Client 0 is registered as "a"; client 1 is about to register under the same id. */
  const SAME_ID: State<nat> :=
    State(map["a" := 0], map[], map[], map[0 := Meta("a", "", "", map[], {}), 1 := Meta("a", "", "", map[], {})])

  /** See ServerState.RegisterSparesOthersExactly. With an id used twice the second registration hides the first client, and its removal unregisters both. */
  lemma SharedIdHidesClient()
    ensures Consistent(SAME_ID) && Live(SAME_ID, 0)
    ensures !Live(Register(SAME_ID, 1), 0) && Remove(Register(SAME_ID, 1), 1).registry == map[]
  {
  }

  // ---------- races of the client library: see Convergence.AgreesThroughoutExactly ----------

  /** Unsubscribe runs between the collection of the topics and the sending of the resubscription: the topic comes back without a handler. */
  lemma RacingUnsubscribeComesBack()
    ensures
      var collected := L.View({"t"}, true, true, []);
      var after := L.Write(L.AfterUnsubscribe(collected, "t"), L.SubscribeMessage(["t"]));
      after.handlers == {} && V.Fold({}, after.sent) == {"t"}
  {
    var unsubscribed := L.AfterUnsubscribe(L.View({"t"}, true, true, []), "t");
    assert TopicSet(["t"]) == {"t"};
    assert unsubscribed.sent == [] + [L.UnsubscribeMessage(["t"])];
    V.FoldAppend({}, [], L.UnsubscribeMessage(["t"]));
    V.FoldAppend({}, unsubscribed.sent, L.SubscribeMessage(["t"]));
  }

  /** A call of Subscribe begins before a call of Unsubscribe on the same topic and writes after it: the topic stays without a handler. */
  lemma OverlappingCallsDisagree()
    ensures
      var began := L.View({}, true, true, []); // Subscribe has stored the handler, Unsubscribe has deleted it
      var after := L.Write(L.Write(began, L.UnsubscribeMessage(["t"])), L.SubscribeMessage(["t"]));
      after.handlers == {} && V.Fold({}, after.sent) == {"t"}
  {
    var unsubscribed := L.Write(L.View({}, true, true, []), L.UnsubscribeMessage(["t"]));
    assert TopicSet(["t"]) == {"t"};
    assert unsubscribed.sent == [] + [L.UnsubscribeMessage(["t"])];
    V.FoldAppend({}, [], L.UnsubscribeMessage(["t"]));
    V.FoldAppend({}, unsubscribed.sent, L.SubscribeMessage(["t"]));
  }

  /**
   A late write of Subscribe goes out on a new link before the Connected flag is set; Unsubscribe then finds the
   flag not set and sends nothing: the topic stays without a handler.
   */
  lemma UnsentUnsubscribeStays()
    ensures
      var dialled := L.View({"t"}, false, true, []);
      var after := L.AfterUnsubscribe(L.Write(dialled, L.SubscribeMessage(["t"])), "t");
      after.handlers == {} && V.Fold({}, after.sent) == {"t"}
  {
    assert TopicSet(["t"]) == {"t"};
    assert L.Write(L.View({"t"}, false, true, []), L.SubscribeMessage(["t"])).sent == [] + [L.SubscribeMessage(["t"])];
    V.FoldAppend({}, [], L.SubscribeMessage(["t"]));
  }

  // ---------- topics that need escaping: see Json.ConcatenationIsExact and Sse.CountedThroughoutExactly ----------

  const BROKEN := "a\"b"
  const TWO_IN_ONE := "a\",\"b"
  const NOT_UTF8: GoString := [BadByte(0xFF)]

  lemma TextOfText(s: string)
    ensures Valid(FromText(s)) && ReadText(FromText(s)) == s
  {
    ValidExactly(FromText(s), s);
  }

  lemma BrokenIsUnreadable()
    ensures Said(FromText(BROKEN)).None?
  {
    hide ParseMembers;
    TextOfText(BROKEN);
    ScanPlain("a", "b\"]}");
    assert BROKEN + "\"]}" == "a" + "\"" + "b\"]}";
    LiteralFirst(BROKEN + "\"]}", 2);
    assert "\"" + (BROKEN + "\"]}") == "\"" + BROKEN + "\"]}";
    ConcatenatedParse(BROKEN);
  }

  lemma TwoInOneIsTwo()
    ensures Said(FromText(TWO_IN_ONE)) == Some(["a", "b"])
  {
    TextOfText(TWO_IN_ONE);
    assert EscapeAll("a") == "a" + EscapeAll("") && EscapeAll("b") == "b" + EscapeAll("");
    assert QuoteList(["a", "b"]) == Quote("a") + "," + QuoteList(["b"]);
    assert Concatenated(TWO_IN_ONE) == EncodeTopics(["a", "b"]);
    EncodeDecode(["a", "b"]);
  }

  lemma NotUtf8IsReplaced()
    ensures Said(NOT_UTF8) == Some(["\U{FFFD}"]) && !Valid(NOT_UTF8)
  {
    hide Concatenated, DecodeTopics;
    assert NOT_UTF8[0].BadByte?;
    assert |ReadText(NOT_UTF8)| == 1 && ReadText(NOT_UTF8)[0] == '\U{FFFD}';
    assert ReadText(NOT_UTF8) == "\U{FFFD}";
    PlainDecodes("\U{FFFD}");
  }

  /** Opening a stream on a topic with a quote in it leaves a connection and no subscription. */
  lemma BrokenTopicUnsubscribed<C>(w: Web<C>, c: ConnId)
    requires Counted(w) && Connections(w.sse, FromText(BROKEN)) == []
    ensures var w' := Opened(w, FromText(BROKEN), c);
      Connections(w'.sse, FromText(BROKEN)) == [c] && w'.srv == w.srv && !IsSubscribed(w', FromText(BROKEN))
  {
    hide Said, Agreed, BROKEN;
    BrokenIsUnreadable();
  }

  /** A topic can say two: opening it subscribes to both without a connection on either. */
  lemma TwoInOneSubscribesBoth<C>(w: Web<C>, c: ConnId)
    requires Counted(w) && Connections(w.sse, FromText(TWO_IN_ONE)) == [] && Connections(w.sse, FromText("a")) == []
    ensures var w' := Opened(w, FromText(TWO_IN_ONE), c);
      && Connections(w'.sse, FromText("a")) == [] && IsSubscribed(w', FromText("a"))
      && IsSubscribed(w', FromText("b")) && !IsSubscribed(w', FromText(TWO_IN_ONE))
  {
    hide Said, Agreed, SubscriptionMessage, Step, Live, FromText, ReadText, Valid;
    Known(w);
    TwoInOneIsTwo();
    TextOfText("a");
    TextOfText("b");
    TextOfText(TWO_IN_ONE);
    OwnSubscriptions(w.srv, w.me, "subscribe", FromText(TWO_IN_ONE));
    assert "a" in ["a", "b"] && "b" in ["a", "b"] && TWO_IN_ONE !in ["a", "b"];
  }

  /** And closing it unsubscribes both whatever connections they have. */
  lemma TwoInOneUnsubscribesBoth<C>(w: Web<C>, c: ConnId)
    requires Agreed(w.srv) && Live(w.srv, w.me)
    requires Connections(w.sse, FromText(TWO_IN_ONE)) == [c] && Connections(w.sse, FromText("a")) != []
    ensures var w' := Closed(w, FromText(TWO_IN_ONE), c);
      Connections(w'.sse, FromText("a")) != [] && !IsSubscribed(w', FromText("a")) && !IsSubscribed(w', FromText("b"))
  {
    hide Said, SubscriptionMessage, Step, FromText, ReadText, Valid;
    TwoInOneIsTwo();
    TextOfText("a");
    TextOfText("b");
    TextOfText(TWO_IN_ONE);
    OwnSubscriptions(w.srv, w.me, "unsubscribe", FromText(TWO_IN_ONE));
    assert Without([c], c) == [];
    assert "a" in ["a", "b"] && "b" in ["a", "b"] && "a" != TWO_IN_ONE;
  }

  /** A byte that is no UTF-8 needs no escape and is read as U+FFFD: that gets the subscription, the stream's own topic none. */
  lemma NotUtf8SubscribesElsewhere<C>(w: Web<C>, c: ConnId)
    requires Counted(w) && Connections(w.sse, NOT_UTF8) == [] && Connections(w.sse, FromText("\U{FFFD}")) == []
    ensures var w' := Opened(w, NOT_UTF8, c);
      && Connections(w'.sse, NOT_UTF8) == [c] && !IsSubscribed(w', NOT_UTF8)
      && Connections(w'.sse, FromText("\U{FFFD}")) == [] && IsSubscribed(w', FromText("\U{FFFD}"))
  {
    hide Said, Agreed, SubscriptionMessage, Step, Live, FromText, ReadText, Valid;
    Known(w);
    NotUtf8IsReplaced();
    TextOfText("\U{FFFD}");
    OwnSubscriptions(w.srv, w.me, "subscribe", NOT_UTF8);
    assert "\U{FFFD}" in ["\U{FFFD}"];
  }
}
