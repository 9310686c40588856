/**
 The LoRa radio (server/sx1276Radio.go): the packet format [address length][address][data], its parser,
 and the bounded receive queue that drops what arrives when it is full.
 */
module Radio {
  import opened Wrappers

  newtype byte = b: int | 0 <= b < 256

  datatype LoRaMessage = LoRaMessage(address: seq<byte>, data: seq<byte>)

  datatype ParseError = TooShort | BadAddressLength

  const QUEUE_SIZE := 100

  // ---------- framing ----------

  /** The length byte is the address length truncated to 8 bits. */
  function Frame(address: seq<byte>, data: seq<byte>): seq<byte> {
    [(|address| % 256) as byte] + address + data
  }

  function Parse(packet: seq<byte>): Result<LoRaMessage, ParseError> {
    if |packet| < 2 then Failure(TooShort)
    else
      var n := packet[0] as int;
      if |packet| < 1 + n then Failure(BadAddressLength)
      else Success(LoRaMessage(packet[1..1 + n], packet[1 + n..]))
  }

  /** The bytes on the air: the address length modulo 256, then the address, then the data. */
  ghost predicate OnAir(packet: seq<byte>, address: seq<byte>, data: seq<byte>) {
    && |packet| == 1 + |address| + |data| && packet[0] as int == |address| % 256
    && packet[1..1 + |address|] == address && packet[1 + |address|..] == data
  }

  /** At least two bytes, and at least as many after the first as the first announces. */
  ghost predicate Acceptable(packet: seq<byte>) {
    |packet| >= 2 && |packet| >= 1 + packet[0] as int
  }

  /** The message is the packet without its first byte, cut where the first byte says. */
  ghost predicate CutFrom(m: LoRaMessage, packet: seq<byte>) {
    |packet| >= 1 && |m.address| == packet[0] as int && [packet[0]] + m.address + m.data == packet
  }

  /** Both functions byte by byte: what a frame holds, and which packets are accepted as what. */
  lemma BytesExactly(address: seq<byte>, data: seq<byte>, packet: seq<byte>)
    ensures packet == Frame(address, data) <==> OnAir(packet, address, data)
    ensures Parse(packet).Success? <==> Acceptable(packet)
    ensures Parse(packet) == Failure(TooShort) <==> |packet| < 2
    ensures forall m :: Parse(packet) == Success(m) <==> Acceptable(packet) && CutFrom(m, packet)
  {
    if OnAir(packet, address, data) {
      assert packet == [packet[0]] + packet[1..1 + |address|] + packet[1 + |address|..];
    }
    forall m ensures Parse(packet) == Success(m) <==> Acceptable(packet) && CutFrom(m, packet) {
      if Acceptable(packet) && CutFrom(m, packet) {
        assert packet[1..1 + |m.address|] == m.address && packet[1 + |m.address|..] == m.data;
      }
    }
  }

  /** For every address and data: a frame parses to the two parts it was made of, cut at the address length modulo 256. */
  lemma ParseFrame(address: seq<byte>, data: seq<byte>)
    requires |address| + |data| > 0
    ensures
      var body, n := address + data, |address| % 256;
      Parse(Frame(address, data)) == Success(LoRaMessage(body[..n], body[n..]))
  {
    var packet, body, n := Frame(address, data), address + data, |address| % 256;
    assert packet == [packet[0]] + body;
    assert packet[1..1 + n] == body[..n];
    assert packet[1 + n..] == body[n..];
  }

  /** The round trip holds exactly for addresses of at most 255 bytes, unless address and data are both empty. */
  lemma RoundTripExactly(address: seq<byte>, data: seq<byte>)
    ensures Parse(Frame(address, data)) == Success(LoRaMessage(address, data)) <==> (|address| <= 255 && |address| + |data| > 0)
  {
    if |address| + |data| > 0 {
      ParseFrame(address, data);
      var n := |address| % 256;
      if |address| <= 255 {
        assert (address + data)[..n] == address && (address + data)[n..] == data;
      } else {
        assert |(address + data)[..n]| != |address|;
      }
    }
  }

  /** Every accepted packet frames back to itself, so the parser loses nothing and accepts only frames. */
  lemma AcceptedPacketsReframe(packet: seq<byte>)
    requires Parse(packet).Success?
    ensures Frame(Parse(packet).value.address, Parse(packet).value.data) == packet
  {
  }

  /** What is rejected: fewer than two bytes, or fewer address bytes than the first byte announces. */
  lemma RejectedExactly(packet: seq<byte>)
    ensures Parse(packet).Failure? <==>
      !exists address: seq<byte>, data: seq<byte> :: |address| <= 255 && |address| + |data| > 0 && packet == Frame(address, data)
  {
    if Parse(packet).Success? {
      AcceptedPacketsReframe(packet);
      var m := Parse(packet).value;
      assert packet == Frame(m.address, m.data);
    } else if address: seq<byte>, data: seq<byte> :| |address| <= 255 && |address| + |data| > 0 && packet == Frame(address, data) {
      RoundTripExactly(address, data);
      assert false;
    }
  }

  // ---------- the queue over whole runs ----------

  /** A packet handed over by the hardware, or one call of Receive. */
  datatype Event = Arrive(packet: seq<byte>) | Take

  datatype Queue = Queue(waiting: seq<LoRaMessage>, received: seq<LoRaMessage>)

  function OnArrive(q: Queue, packet: seq<byte>): Queue {
    var parsed := Parse(packet);
    if parsed.Success? && |q.waiting| < QUEUE_SIZE then q.(waiting := q.waiting + [parsed.value]) else q
  }

  /** An empty queue makes Receive wait; nothing changes until something arrives. */
  function OnTake(q: Queue): Queue {
    if q.waiting == [] then q else Queue(q.waiting[1..], q.received + [q.waiting[0]])
  }

  function Run(events: seq<Event>): Queue {
    if events == [] then Queue([], [])
    else
      var before := Run(events[..|events| - 1]);
      match events[|events| - 1]
      case Arrive(packet) => OnArrive(before, packet)
      case Take => OnTake(before)
  }

  /** The arrivals that were neither rejected by the parser nor met by a full queue, in order. */
  function Accepted(events: seq<Event>): seq<LoRaMessage> {
    if events == [] then []
    else
      var front, last := events[..|events| - 1], events[|events| - 1];
      if last.Arrive? && Parse(last.packet).Success? && Occupancy(front) < QUEUE_SIZE
      then Accepted(front) + [Parse(last.packet).value] else Accepted(front)
  }

  /** How many messages are waiting, counted from accepted arrivals and successful receives alone. */
  function Occupancy(events: seq<Event>): nat {
    if events == [] then 0
    else
      var n := Occupancy(events[..|events| - 1]);
      match events[|events| - 1]
      case Arrive(packet) => if Parse(packet).Success? && n < QUEUE_SIZE then n + 1 else n
      case Take => if n > 0 then n - 1 else 0
  }

  /** Over every run: at most 100 wait, and received followed by waiting is exactly what was accepted, in order. */
  lemma {:induction false} NothingElseIsLost(events: seq<Event>)
    ensures |Run(events).waiting| == Occupancy(events) <= QUEUE_SIZE
    ensures Run(events).received + Run(events).waiting == Accepted(events)
  {
    if events != [] {
      var front := events[..|events| - 1];
      NothingElseIsLost(front);
      var before := Run(front);
      match events[|events| - 1]
      case Arrive(packet) =>
        if Parse(packet).Success? && |before.waiting| < QUEUE_SIZE {
          assert before.received + (before.waiting + [Parse(packet).value]) == before.received + before.waiting + [Parse(packet).value];
        }
      case Take =>
        if before.waiting != [] {
          assert before.received + [before.waiting[0]] + before.waiting[1..] == before.received + before.waiting;
        }
    }
  }

  /**
   One more event, byte by byte: an arrival joins the waiting messages exactly if it is acceptable and fewer than
   100 wait; a receive moves the oldest waiting message to the received ones; nothing else changes.
   */
  lemma RunInFull(events: seq<Event>, e: Event)
    ensures Run([]) == Queue([], [])
    ensures var before, after := Run(events), Run(events + [e]);
      && (e.Arrive? && Acceptable(e.packet) && |before.waiting| < 100 ==>
            && after.received == before.received && |after.waiting| == |before.waiting| + 1
            && before.waiting < after.waiting && CutFrom(after.waiting[|before.waiting|], e.packet))
      && (e.Arrive? && !(Acceptable(e.packet) && |before.waiting| < 100) ==> after == before)
      && (e.Take? && before.waiting == [] ==> after == before)
      && (e.Take? && before.waiting != [] ==>
            [before.waiting[0]] + after.waiting == before.waiting && after.received == before.received + [before.waiting[0]])
  {
    assert (events + [e])[..|events|] == events;
    if e.Arrive? { BytesExactly([], [], e.packet); }
  }

  // ---------- the radio object ----------

  datatype StartError = AlreadyRunning | InitialiseFailed | FrequencyFailed | PowerFailed

  /** What the hardware answers to the calls that Start makes. */
  datatype Hardware = Hardware(initialises: bool, setsFrequency: bool, setsPower: bool)

  datatype SendError = NotRunning | TransmitFailed

  datatype Received = Message(m: LoRaMessage) | RadioStopped | WouldBlock

  datatype Arrival = Queued | Rejected(e: ParseError) | Dropped | PanicOnClosedQueue

  class SX1276Radio {
    var running: bool
    var closed: bool
    var msgQueue: seq<LoRaMessage>
    var hardwareOpen: bool
    var transmitted: seq<seq<byte>>
    ghost var received: seq<LoRaMessage>

    constructor ()
      ensures !running && !closed && !hardwareOpen && View() == Queue([], []) && transmitted == []
    {
      running, closed, msgQueue, hardwareOpen, transmitted, received := false, false, [], false, [], [];
    }

    ghost function View(): Queue
      reads this
    {
      Queue(msgQueue, received)
    }

    /** Each failure is reported as itself; hardware that came up and then failed is closed again. */
    method Start(hw: Hardware) returns (err: Option<StartError>)
      modifies this`running, this`hardwareOpen
      ensures err ==
        if old(running) then Some(AlreadyRunning)
        else if !hw.initialises then Some(InitialiseFailed)
        else if !hw.setsFrequency then Some(FrequencyFailed)
        else if !hw.setsPower then Some(PowerFailed)
        else None
      ensures running == (old(running) || err.None?)
      ensures hardwareOpen ==
        if err.None? then true else if old(running) || !hw.initialises then old(hardwareOpen) else false
    {
      if running {
        return Some(AlreadyRunning);
      }
      if !hw.initialises {
        return Some(InitialiseFailed);
      }
      hardwareOpen := true;
      if !hw.setsFrequency {
        hardwareOpen := false;
        return Some(FrequencyFailed);
      }
      if !hw.setsPower {
        hardwareOpen := false;
        return Some(PowerFailed);
      }
      running := true;
      return None;
    }

    method Stop()
      modifies this`running, this`closed, this`hardwareOpen
      ensures !running && closed == (old(closed) || old(running))
      ensures hardwareOpen == (old(hardwareOpen) && !old(running))
    {
      if running {
        running := false;
        closed := true;
        hardwareOpen := false;
      }
    }

    /** What goes out on the air is the frame, filled into a buffer of exactly its size. */
    method Send(address: seq<byte>, data: seq<byte>, transmits: bool) returns (err: Option<SendError>)
      modifies this`transmitted
      ensures err == if !running then Some(NotRunning) else if !transmits then Some(TransmitFailed) else None
      ensures transmitted == if err.None? then old(transmitted) + [Frame(address, data)] else old(transmitted)
      ensures err.None? ==>
        |transmitted| == |old(transmitted)| + 1 && OnAir(transmitted[|old(transmitted)|], address, data)
    {
      if !running {
        return Some(NotRunning);
      }
      var packet := new byte[1 + |address| + |data|];
      packet[0] := (|address| % 256) as byte;
      Copy(packet, 1, address);
      Copy(packet, 1 + |address|, data);
      assert packet[..] == Frame(address, data);
      if !transmits {
        return Some(TransmitFailed);
      }
      transmitted := transmitted + [packet[..]];
      return None;
    }

    method OnHardwareReceive(packet: seq<byte>) returns (r: Arrival)
      modifies this`msgQueue
      ensures !closed ==> View() == OnArrive(old(View()), packet)
      ensures r == Queued <==> !closed && Parse(packet).Success? && |old(msgQueue)| < QUEUE_SIZE
      ensures r.Rejected? <==> Parse(packet).Failure?
      ensures r == PanicOnClosedQueue <==> closed && Parse(packet).Success?
      ensures r == Queued <==> !closed && Acceptable(packet) && |old(msgQueue)| < 100
      ensures r == Queued ==>
        |msgQueue| == |old(msgQueue)| + 1 && old(msgQueue) < msgQueue && CutFrom(msgQueue[|old(msgQueue)|], packet)
      ensures r == Rejected(TooShort) <==> |packet| < 2
      ensures r == Rejected(BadAddressLength) <==> |packet| >= 2 && |packet| < 1 + packet[0] as int
      ensures r == Dropped <==> !closed && Acceptable(packet) && |old(msgQueue)| >= 100
      ensures r != Queued ==> msgQueue == old(msgQueue)
    {
      if |packet| < 2 {
        return Rejected(TooShort);
      }
      var addrLen := packet[0] as int;
      if |packet| < 1 + addrLen {
        return Rejected(BadAddressLength);
      }
      var address, payload := packet[1..1 + addrLen], packet[1 + addrLen..];
      if closed {
        return PanicOnClosedQueue;
      }
      if |msgQueue| < QUEUE_SIZE {
        msgQueue := msgQueue + [LoRaMessage(address, payload)];
        return Queued;
      }
      return Dropped;
    }

    /** A stopped radio still hands out what was queued before it stopped. */
    method Receive() returns (r: Received)
      modifies this`msgQueue, this`received
      ensures View() == OnTake(old(View()))
      ensures old(msgQueue) != [] ==> msgQueue == old(msgQueue)[1..] && received == old(received) + [old(msgQueue)[0]]
      ensures old(msgQueue) == [] ==> msgQueue == [] && received == old(received)
      ensures old(msgQueue) != [] ==> r == Message(old(msgQueue)[0])
      ensures old(msgQueue) == [] ==> r == if closed then RadioStopped else WouldBlock
    {
      if msgQueue != [] {
        r := Message(msgQueue[0]);
        received := received + [msgQueue[0]];
        msgQueue := msgQueue[1..];
        return;
      }
      return if closed then RadioStopped else WouldBlock;
    }
  }

  /** Go's copy into a buffer at an offset. */
  method Copy(dst: array<byte>, at: nat, src: seq<byte>)
    requires at + |src| <= dst.Length
    modifies dst
    ensures dst[..] == old(dst[..at]) + src + old(dst[at + |src|..])
  {
    for i := 0 to |src|
      invariant forall k :: 0 <= k < dst.Length ==> dst[k] == if at <= k < at + i then src[k - at] else old(dst[k])
    {
      dst[at + i] := src[i];
    }
  }
}
