/**
 * The RTP producer as a state machine: the guard flags around setup, start
 * and stop, the receive filter that forwards only datagrams longer than the
 * 12-byte fixed RTP header (section 5.1 of RFC 3550), and the watchdog that
 * rebuilds the socket when an interval passes without traffic.
 *
 * The receive thread and the watchdog thread become events applied one at a
 * time; the operating system's choice of port and whether a bind succeeds
 * are parameters. Packet-loss counting belongs to RTPPacketProcessor, which
 * is not part of this model: the consumer is given the bytes after the
 * fixed header.
 */
module RTPProducer {
  import opened JavaText

  const RTP_HEADER := 12
  const DATAGRAM_BUFFER := 1500
  const WATCHDOG_INTERVAL_MS := 5000

  /**
   * The datagram channel field: null (dropped by the watchdog), open but not
   * bound (a failed bind at setup), bound to a port, or closed (by a stop or
   * at the end of run; the reference is kept).
   */
  datatype Channel = NoChannel | Unbound | Bound(port: int) | Closed

  /** Closing the channel keeps the reference; a null reference stays null. */
  function Close(c: Channel): (r: Channel)
    ensures r.NoChannel? <==> c.NoChannel?
    ensures !r.Bound? && !r.Unbound?
  {
    if c.NoChannel? then NoChannel else Closed
  }

  datatype Producer = Producer(
    running: bool,
    stop: bool,
    packetsReceived: int,
    packetsLastReceived: int,
    localPort: int,
    remote: Option<string>,
    consumer: Option<nat>,
    channel: Channel,
    forwarded: seq<seq<byte>>,
    watchdogStarted: bool)

  const Initial := Producer(false, false, 0, 0, 0, None, None, NoChannel, [], false)

  datatype Setup = NotWhileRunning | BindFailed | Ready

  // ---------------------------------------------------------------- setup guards

  /**
   * setStreamingSocket: refused while running; otherwise the address and
   * requested port are recorded and a new channel is opened. A successful
   * bind replaces the port by the one actually bound (`bound`, None when the
   * bind fails); after a failed bind the field holds the new, unbound channel.
   */
  function SetStreamingSocket(p: Producer, remote: string, port: int, bound: Option<int>): (r: (Producer, Setup))
    ensures p.running <==> r.1 == NotWhileRunning
    ensures r.1 == NotWhileRunning ==> r.0 == p
    ensures r.1 == Ready <==> !p.running && bound.Some?
    ensures r.1 == Ready ==> r.0.localPort == bound.value && r.0.channel == Bound(bound.value) && r.0.remote == Some(remote)
    ensures r.1 == BindFailed ==> r.0.localPort == port && r.0.channel == Unbound && r.0.remote == Some(remote)
    ensures r.0.forwarded == p.forwarded && r.0.running == p.running && r.0.stop == p.stop
  {
    if p.running then (p, NotWhileRunning)
    else
      var q := p.(localPort := port, remote := Some(remote));
      match bound
      case None => (q.(channel := Unbound), BindFailed)
      case Some(b) => (q.(localPort := b, channel := Bound(b)), Ready)
  }

  /** setConsumer: refused while running. */
  function SetConsumer(p: Producer, consumer: nat): (r: (Producer, bool))
    ensures r.1 <==> !p.running
    ensures r.1 ==> r.0 == p.(consumer := Some(consumer))
    ensures !r.1 ==> r.0 == p
  {
    if p.running then (p, false) else (p.(consumer := Some(consumer)), true)
  }

  // ---------------------------------------------------------------- start and stop

  datatype Start = AlreadyRunning | StillStopping | Started

  /**
   * The head of run: a second start is refused; a stop requested before the
   * start is consumed and refused, with running left set; otherwise the
   * watchdog is started.
   */
  function StartRun(p: Producer): (r: (Producer, Start))
    ensures r.1 == AlreadyRunning <==> p.running
    ensures r.1 == AlreadyRunning ==> r.0 == p
    ensures r.1 == StillStopping <==> !p.running && p.stop
    ensures r.1 == StillStopping ==> r.0 == p.(running := true, stop := false)
    ensures r.1 == Started ==> r.0 == p.(running := true, watchdogStarted := true)
  {
    if p.running then (p, AlreadyRunning)
    else if p.stop then (p.(running := true, stop := false), StillStopping)
    else (p.(running := true, watchdogStarted := true), Started)
  }

  /**
   * stopProducing: only the first call acts; it closes the socket (closing
   * a closed one again is harmless), which is a null dereference only when
   * the channel field is null: never set up, or dropped by the watchdog.
   */
  function StopProducing(p: Producer): (r: (Producer, bool))
    ensures p.stop ==> r == (p, true)
    ensures r.0.stop
    ensures !p.stop ==> r.0 == p.(stop := true, channel := Close(p.channel)) && (r.1 <==> !p.channel.NoChannel?)
  {
    if p.stop then (p, true)
    else (p.(stop := true, channel := Close(p.channel)), !p.channel.NoChannel?)
  }

  /** The end of run: a channel that is still referenced is closed, and both flags are cleared. */
  function FinishRun(p: Producer): (r: Producer)
    ensures !r.running && !r.stop && r.channel == Close(p.channel)
    ensures r.forwarded == p.forwarded && r.localPort == p.localPort
  {
    p.(running := false, stop := false, channel := Close(p.channel))
  }

  /** A stop after a run that ended on a live channel closes the kept reference again, without a crash. */
  lemma StopAfterFinishedRun(p: Producer)
    requires !p.channel.NoChannel?
    ensures var (q, ok) := StopProducing(FinishRun(p));
            ok && q.channel == Closed && q.stop && !q.running
  {
  }

  lemma StopIsIdempotent(p: Producer)
    ensures StopProducing(StopProducing(p).0) == (StopProducing(p).0, true)
  {
  }

  /** A stop requested before the start leaves running set, so every later start is refused. */
  lemma EarlyStopBlocksRestart(p: Producer)
    requires !p.running && p.stop
    ensures var q := StartRun(p).0;
            q.running && !q.stop && StartRun(q).1 == AlreadyRunning
  {
  }

  // ---------------------------------------------------------------- traffic and watchdog

  /** What the consumer is given for a datagram: the bytes after the fixed header, if there are any. */
  function Payload(datagram: seq<byte>): (r: Option<seq<byte>>)
    ensures r.Some? <==> |datagram| > RTP_HEADER
    ensures r.Some? ==> |r.value| >= 1 && datagram == datagram[..RTP_HEADER] + r.value
  {
    if |datagram| > RTP_HEADER then Some(datagram[RTP_HEADER..]) else None
  }

  /** The bytes a datagram leaves in the 1500-byte receive buffer. */
  function Kept(datagram: seq<byte>): (r: seq<byte>)
    ensures |r| <= DATAGRAM_BUFFER && r <= datagram
  {
    if |datagram| <= DATAGRAM_BUFFER then datagram else datagram[..DATAGRAM_BUFFER]
  }

  /**
   * Whether a received datagram is counted: a datagram longer than the
   * header is handed to the consumer first, and with no consumer set that
   * call is a NullPointerException, caught outside the receive loop before
   * the count is incremented.
   */
  predicate CountsFor(consumer: Option<nat>, datagram: seq<byte>)
  {
    consumer.Some? || Payload(Kept(datagram)).None?
  }

  /**
   * One datagram. Only a bound channel receives the tuner's traffic (an
   * unbound or closed channel, or none, delivers nothing). A received
   * datagram is forwarded when it is longer than the header and a consumer
   * is set, and counted unless forwarding it failed for lack of a consumer.
   */
  function Receive(p: Producer, datagram: seq<byte>): (r: Producer)
    ensures p.channel.Bound? && CountsFor(p.consumer, datagram) ==> r.packetsReceived == p.packetsReceived + 1
    ensures p.channel.Bound? && p.consumer.Some? && Payload(Kept(datagram)).Some? ==>
              r.forwarded == p.forwarded + [Payload(Kept(datagram)).value]
    ensures !(p.channel.Bound? && p.consumer.Some? && Payload(Kept(datagram)).Some?) ==> r.forwarded == p.forwarded
    ensures !(p.channel.Bound? && CountsFor(p.consumer, datagram)) ==> r == p
  {
    if !p.channel.Bound? then p
    else
      var kept := Kept(datagram);
      match Payload(kept)
      case None => p.(packetsReceived := p.packetsReceived + 1)
      case Some(payload) =>
        if p.consumer.None? then p
        else p.(packetsReceived := p.packetsReceived + 1, forwarded := p.forwarded + [payload])
  }

  /** How many of a batch of datagrams are counted. */
  function Counted(consumer: Option<nat>, datagrams: seq<seq<byte>>): (n: nat)
    ensures n <= |datagrams|
    ensures consumer.Some? ==> n == |datagrams|
    ensures n == 0 <==> forall k :: 0 <= k < |datagrams| ==> !CountsFor(consumer, datagrams[k])
    decreases |datagrams|
  {
    if datagrams == [] then 0
    else
      var rest := Counted(consumer, datagrams[1..]);
      assert forall k :: 1 <= k < |datagrams| ==> datagrams[k] == datagrams[1..][k - 1];
      (if CountsFor(consumer, datagrams[0]) then 1 else 0) + rest
  }

  /** Start of a watchdog interval: the count is sampled. */
  function Sample(p: Producer): (r: Producer)
    ensures r.packetsLastReceived == p.packetsReceived
  {
    p.(packetsLastReceived := p.packetsReceived)
  }

  /**
   * End of a watchdog interval: the count is reset; when it has not moved
   * since the sample the channel is dropped and rebound to localPort
   * (`rebindOk` says whether that bind succeeds). The flag says whether the
   * socket was rebuilt.
   */
  function Check(p: Producer, rebindOk: bool): (r: (Producer, bool))
    ensures r.0.packetsReceived == 0
    ensures r.1 <==> p.packetsReceived == p.packetsLastReceived
    ensures r.1 ==> r.0.channel == (if rebindOk then Bound(p.localPort) else NoChannel)
    ensures !r.1 ==> r.0.channel == p.channel
    ensures r.0.forwarded == p.forwarded && r.0.localPort == p.localPort
  {
    var stalled := p.packetsReceived == p.packetsLastReceived;
    var q := p.(packetsReceived := 0);
    if stalled then (q.(channel := if rebindOk then Bound(p.localPort) else NoChannel), true)
    else (q, false)
  }

  function ReceiveAll(p: Producer, datagrams: seq<seq<byte>>): (r: Producer)
    ensures r.channel == p.channel && r.localPort == p.localPort && r.packetsLastReceived == p.packetsLastReceived
    ensures r.consumer == p.consumer
    ensures p.channel.Bound? ==> r.packetsReceived == p.packetsReceived + Counted(p.consumer, datagrams)
    decreases |datagrams|
  {
    if datagrams == [] then p else ReceiveAll(Receive(p, datagrams[0]), datagrams[1..])
  }

  /**
   * Over one interval on a bound channel, the socket is rebuilt exactly when
   * no datagram was counted, and on the same port. With a consumer set that
   * is exactly when no datagram arrived; without one, an interval of only
   * datagrams longer than the header still rebuilds the socket.
   */
  lemma {:induction false} RebuildIffSilent(p: Producer, datagrams: seq<seq<byte>>, rebindOk: bool)
    requires p.channel.Bound?
    ensures var (q, rebuilt) := Check(ReceiveAll(Sample(p), datagrams), rebindOk);
            (rebuilt <==> forall k :: 0 <= k < |datagrams| ==> !CountsFor(p.consumer, datagrams[k]))
            && (p.consumer.Some? ==> (rebuilt <==> datagrams == []))
            && (rebuilt && rebindOk ==> q.channel == Bound(p.localPort))
  {
    var s := Sample(p);
    assert s.channel == p.channel && s.consumer == p.consumer;
    var after := ReceiveAll(s, datagrams);
    assert after.packetsReceived == s.packetsLastReceived + Counted(p.consumer, datagrams);
  }

  /** A port chosen by the system at setup is the port the watchdog rebinds. */
  lemma RebindUsesBoundPort(p: Producer, remote: string, chosen: int)
    requires !p.running
    ensures var q := SetStreamingSocket(p, remote, 0, Some(chosen)).0;
            var r := Check(Sample(q), true).0;
            r.channel == Bound(chosen)
  {
  }

  // ---------------------------------------------------------------- the running producer

  datatype Event = Datagram(bytes: seq<byte>) | IntervalStart | IntervalEnd(rebindOk: bool) | StopRequest

  function Apply(p: Producer, e: Event): Producer
  {
    match e
    case Datagram(bytes) => Receive(p, bytes)
    case IntervalStart => Sample(p)
    case IntervalEnd(ok) => Check(p, ok).0
    case StopRequest => StopProducing(p).0
  }

  /** The events a started producer handles: all of them, up to the stop. */
  function Drive(p: Producer, events: seq<Event>): (r: Producer)
    ensures events == [] || p.stop ==> r == p
    ensures |r.forwarded| >= |p.forwarded| && r.forwarded[..|p.forwarded|] == p.forwarded
    decreases |events|
  {
    if p.stop || events == [] then p else Drive(Apply(p, events[0]), events[1..])
  }

  /** Blocks the consumer can be given: non-empty, and no longer than a buffer minus the header. */
  predicate Bodies(blocks: seq<seq<byte>>)
  {
    forall k :: 0 <= k < |blocks| ==> 1 <= |blocks[k]| <= DATAGRAM_BUFFER - RTP_HEADER
  }

  /** The consumer is given only payloads: every forwarded block is non-empty and at most 1488 bytes. */
  lemma {:induction false} ForwardedAreBodies(p: Producer, events: seq<Event>)
    requires Bodies(p.forwarded)
    ensures Bodies(Drive(p, events).forwarded)
    decreases |events|
  {
    if !(p.stop || events == []) {
      var q := Apply(p, events[0]);
      if events[0].Datagram? && p.channel.Bound? && p.consumer.Some? && Payload(Kept(events[0].bytes)).Some? {
        var kept := Kept(events[0].bytes);
        assert kept == kept[..RTP_HEADER] + Payload(kept).value;
        assert q.forwarded == p.forwarded + [Payload(kept).value];
      }
      assert Bodies(q.forwarded);
      ForwardedAreBodies(q, events[1..]);
      assert Drive(p, events) == Drive(q, events[1..]);
    }
  }

  class NIORTPProducer {
    var running: bool
    var stop: bool
    var packetsReceived: int
    var packetsLastReceived: int
    var localPort: int
    var remote: Option<string>
    var consumer: Option<nat>
    var channel: Channel
    var forwarded: seq<seq<byte>>
    var watchdogStarted: bool

    function State(): Producer
      reads this
    {
      Producer(running, stop, packetsReceived, packetsLastReceived, localPort, remote, consumer, channel, forwarded, watchdogStarted)
    }

    method SetState(p: Producer)
      modifies this
      ensures State() == p
    {
      running, stop := p.running, p.stop;
      packetsReceived, packetsLastReceived := p.packetsReceived, p.packetsLastReceived;
      localPort, remote, consumer, channel := p.localPort, p.remote, p.consumer, p.channel;
      forwarded, watchdogStarted := p.forwarded, p.watchdogStarted;
    }

    constructor ()
      ensures State() == Initial
    {
      running, stop := false, false;
      packetsReceived, packetsLastReceived := 0, 0;
      localPort, remote, consumer, channel := 0, None, None, NoChannel;
      forwarded, watchdogStarted := [], false;
    }

    method SetStreamingSocketTo(remoteAddress: string, port: int, bound: Option<int>) returns (outcome: Setup)
      modifies this
      ensures (State(), outcome) == SetStreamingSocket(old(State()), remoteAddress, port, bound)
    {
      if running {
        return NotWhileRunning;
      }
      localPort := port;
      remote := Some(remoteAddress);
      if bound.None? {
        channel := Unbound;
        return BindFailed;
      }
      channel := Bound(bound.value);
      localPort := bound.value;
      return Ready;
    }

    method SetConsumerTo(c: nat) returns (ok: bool)
      modifies this
      ensures (State(), ok) == SetConsumer(old(State()), c)
    {
      if running {
        return false;
      }
      consumer := Some(c);
      return true;
    }

    method StopProducingNow() returns (ok: bool)
      modifies this
      ensures (State(), ok) == StopProducing(old(State()))
    {
      if stop {
        return true;
      }
      stop := true;
      ok := !channel.NoChannel?;
      channel := Close(channel);
    }

    /**
     * run: the start guards, then the events of the receive and watchdog
     * threads until a stop, then the channel is closed and both flags cleared.
     * Events that run out with no stop seen stand for an interrupt of the
     * receive thread, which also ends the loop.
     */
    method Run(events: seq<Event>) returns (start: Start)
      modifies this
      ensures start == StartRun(old(State())).1
      ensures start != Started ==> State() == StartRun(old(State())).0
      ensures start == Started ==> State() == FinishRun(Drive(StartRun(old(State())).0, events))
    {
      if running {
        return AlreadyRunning;
      }
      if stop {
        running, stop := true, false;
        return StillStopping;
      }
      running, watchdogStarted := true, true;
      start := Started;
      HandleEvents(events);
      running, stop, channel := false, false, Close(channel);
    }

    /** The receive loop: one event at a time until the events run out or a stop is seen. */
    method HandleEvents(events: seq<Event>)
      modifies this
      ensures State() == Drive(old(State()), events)
    {
      var rest := events;
      while rest != [] && !stop
        invariant Drive(State(), rest) == Drive(old(State()), events)
      {
        SetState(Apply(State(), rest[0]));
        rest := rest[1..];
      }
    }
  }
}
