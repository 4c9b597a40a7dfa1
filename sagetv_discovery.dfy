/**
 * Answering SageTV's network encoder discovery: which datagrams are
 * answered, the exact bytes of the answer, and the per-server window
 * that suppresses repeated requests.
 *
 * The socket, the clock and the local address are parameters: each received
 * datagram carries the sender's address text, the sender's socket text, its
 * bytes and the time it was read. Whether the port binds and where the stop
 * interrupt lands (during a receive, which is an I/O error that terminates
 * the JVM, or between datagrams) are parameters too.
 */
module SageTVDiscovery {
  import opened JavaText

  const DISCOVERY_PORT := 8271
  const BUFFER_SIZE := 4096
  /** How long after its last datagram a server's requests are ignored, in milliseconds. */
  const WINDOW_MS := 11000
  const LOOPBACK_ADDRESS := "127.0.0.1"

  const ASCII_S: byte := 83
  const ASCII_T: byte := 84
  const ASCII_N: byte := 78

  // ---------------------------------------------------------------- request check

  /** The test applied to header byte i of a request. */
  predicate HeaderByteOk(i: nat, b: byte)
    requires i < 6
  {
    match i
    case 0 => b == ASCII_S
    case 1 => b == ASCII_T
    case 2 => b == ASCII_N
    case 3 => Signed(b) >= 4
    case 4 => Signed(b) >= 1
    case _ => Signed(b) >= 0
  }

  datatype Verdict = Answer | Reject | Underflow

  /** The six header reads from byte i on: the first failing test rejects, running out of bytes underflows. */
  function CheckFrom(d: seq<byte>, i: nat): (v: Verdict)
    requires i <= 6 && i <= |d|
    ensures v == Answer <==> |d| >= 6 && forall k :: i <= k < 6 ==> HeaderByteOk(k, d[k])
    ensures v == Underflow <==> |d| < 6 && forall k :: i <= k < 6 && k < |d| ==> HeaderByteOk(k, d[k])
    decreases 6 - i
  {
    if i == 6 then Answer
    else if i >= |d| then Underflow
    else if !HeaderByteOk(i, d[i]) then Reject
    else CheckFrom(d, i + 1)
  }

  function Check(d: seq<byte>): (v: Verdict)
  {
    CheckFrom(d, 0)
  }

  /** A request is answered exactly when it starts "STN" followed by signed bytes of at least 4, 1 and 0. */
  lemma AnsweredRequests(d: seq<byte>)
    ensures Check(d) == Answer <==>
      |d| >= 6 && d[0] == ASCII_S && d[1] == ASCII_T && d[2] == ASCII_N
      && Signed(d[3]) >= 4 && Signed(d[4]) >= 1 && Signed(d[5]) >= 0
  {
    if |d| >= 6 && d[0] == ASCII_S && d[1] == ASCII_T && d[2] == ASCII_N
       && Signed(d[3]) >= 4 && Signed(d[4]) >= 1 && Signed(d[5]) >= 0
    {
      forall k | 0 <= k < 6
        ensures HeaderByteOk(k, d[k])
      {
      }
    }
    if Check(d) == Answer {
      assert HeaderByteOk(0, d[0]) && HeaderByteOk(1, d[1]) && HeaderByteOk(2, d[2]);
      assert HeaderByteOk(3, d[3]) && HeaderByteOk(4, d[4]) && HeaderByteOk(5, d[5]);
    }
  }

  /** A header byte of 0x80 or more reads as negative and fails the version tests. */
  lemma HighVersionByteRejected(d: seq<byte>)
    requires |d| >= 6 && d[0] == ASCII_S && d[1] == ASCII_T && d[2] == ASCII_N
    requires d[3] >= 128
    ensures Check(d) == Reject
  {
    assert !HeaderByteOk(3, d[3]);
  }

  // ---------------------------------------------------------------- response

  /** A string's characters as bytes; the addresses written here are plain ASCII. */
  function TextBytes(s: string): (b: seq<byte>)
    ensures |b| == |s|
    ensures forall k :: 0 <= k < |s| ==> b[k] == s[k] as int % 256
  {
    if s == [] then [] else [s[0] as int % 256] + TextBytes(s[1..])
  }

  /** The address the response advertises. */
  function Hostname(useLoopback: bool, senderText: string, localAddress: string): (h: string)
    ensures h == LOOPBACK_ADDRESS <==> (useLoopback && Contains(senderText, localAddress)) || localAddress == LOOPBACK_ADDRESS
    ensures h != LOOPBACK_ADDRESS ==> h == localAddress
  {
    if useLoopback && Contains(senderText, localAddress) then LOOPBACK_ADDRESS else localAddress
  }

  /** "STN", 4, 1, 0, the encoder port big-endian in two bytes, the hostname's length byte, the hostname. */
  function Response(port: int, host: seq<byte>): (r: seq<byte>)
    ensures |r| == 9 + |host|
    ensures r[..6] == [ASCII_S, ASCII_T, ASCII_N, 4, 1, 0]
    ensures r[9..] == host
  {
    [ASCII_S, ASCII_T, ASCII_N, 4, 1, 0, (port / 256) % 256, port % 256, |host| % 256] + host
  }

  /** What a receiver reads back from a response: the port and the hostname. */
  function DecodeResponse(r: seq<byte>): Option<(int, seq<byte>)>
  {
    if |r| < 9 || r[..6] != [ASCII_S, ASCII_T, ASCII_N, 4, 1, 0] || |r| != 9 + r[8] as int then None
    else Some((r[6] as int * 256 + r[7] as int, r[9..]))
  }

  /** The two port bytes give the port back modulo 65536, and the hostname comes back whole when shorter than 256 bytes. */
  lemma ResponseRoundTrip(port: int, host: seq<byte>)
    requires |host| < 256
    ensures DecodeResponse(Response(port, host)) == Some((port % 65536, host))
  {
    var r := Response(port, host);
    assert r[8] as int == |host|;
    PortBytes(port);
    assert r[6] as int * 256 + r[7] as int == port % 65536;
  }

  /** The two port bytes, high then low, read back as the port modulo 65536. */
  lemma PortBytes(port: int)
    ensures ((port / 256) % 256) * 256 + port % 256 == port % 65536
  {
    var q := port / 256;
    var lo := port % 256;
    var hi := q % 256;
    assert port == 65536 * (q / 256) + (256 * hi + lo);
    assert 0 <= 256 * hi + lo < 65536;
  }

  // ---------------------------------------------------------------- duplicate window

  /** A datagram from a server whose window has not yet closed is ignored. */
  predicate WindowOpen(window: map<string, int>, server: string, now: int)
  {
    server in window && window[server] > now
  }

  /** Every datagram, ignored or not, moves its server's window to now + 11000. */
  function Touch(window: map<string, int>, server: string, now: int): (w: map<string, int>)
    ensures w.Keys == window.Keys + {server}
    ensures w[server] == now + WINDOW_MS
    ensures forall s :: s in window && s != server ==> w[s] == window[s]
  {
    window[server := now + WINDOW_MS]
  }

  // ---------------------------------------------------------------- the receive loop

  datatype Datagram = Datagram(server: string, senderText: string, bytes: seq<byte>, now: int)

  datatype Event = Ignored | Invalid | Reply(bytes: seq<byte>) | Ended

  /** The bytes the receive buffer keeps of a datagram. */
  function Received(d: Datagram): (b: seq<byte>)
    ensures |b| <= BUFFER_SIZE
  {
    if |d.bytes| <= BUFFER_SIZE then d.bytes else d.bytes[..BUFFER_SIZE]
  }

  /**
   * One datagram: ignored inside its server's window; otherwise checked;
   * an underflow, or a response too large for the buffer, ends discovery.
   */
  function Handle(port: int, useLoopback: bool, localAddress: string, d: Datagram, window: map<string, int>): (r: (Event, map<string, int>))
    ensures r.1 == Touch(window, d.server, d.now)
    ensures r.0 == Ignored <==> WindowOpen(window, d.server, d.now)
    ensures r.0.Reply? ==> Check(Received(d)) == Answer && |r.0.bytes| >= 9 && r.0.bytes[..6] == [ASCII_S, ASCII_T, ASCII_N, 4, 1, 0]
  {
    var w := Touch(window, d.server, d.now);
    if WindowOpen(window, d.server, d.now) then (Ignored, w)
    else
      match Check(Received(d))
      case Reject => (Invalid, w)
      case Underflow => (Ended, w)
      case Answer =>
        var host := TextBytes(Hostname(useLoopback, d.senderText, localAddress));
        if 9 + |host| > BUFFER_SIZE then (Ended, w)
        else (Reply(Response(port, host)), w)
  }

  /** How one datagram is handled, given the window: the event and the new window. */
  type Handler = (Datagram, map<string, int>) -> (Event, map<string, int>)

  /** The handler of a discovery thread with the given port, loopback setting and local address. */
  function HandlerOf(port: int, useLoopback: bool, localAddress: string): Handler
  {
    (d, w) => Handle(port, useLoopback, localAddress, d, w)
  }

  /** What the sent list gains from one datagram. */
  function SentBy(senderText: string, e: Event): seq<(string, seq<byte>)>
  {
    if e.Reply? then [(senderText, e.bytes)] else []
  }

  /** The replies a handler sends while reading ds, to whom, up to the datagram that ends discovery. */
  function Replies(handle: Handler, ds: seq<Datagram>, window: map<string, int>): (r: (seq<(string, seq<byte>)>, bool))
    ensures |r.0| <= |ds|
    decreases |ds|
  {
    if ds == [] then ([], false)
    else
      var (e, w) := handle(ds[0], window);
      if e == Ended then ([], true)
      else
        var rest := Replies(handle, ds[1..], w);
        (SentBy(ds[0].senderText, e) + rest.0, rest.1)
  }

  /** The responses sent while reading ds, to whom, up to the datagram that ends discovery. */
  function Responses(port: int, useLoopback: bool, localAddress: string, ds: seq<Datagram>, window: map<string, int>): (r: (seq<(string, seq<byte>)>, bool))
    ensures |r.0| <= |ds|
  {
    Replies(HandlerOf(port, useLoopback, localAddress), ds, window)
  }

  lemma ResponsesStep(port: int, useLoopback: bool, localAddress: string, ds: seq<Datagram>, i: nat, window: map<string, int>)
    requires i < |ds|
    ensures var (e, w) := Handle(port, useLoopback, localAddress, ds[i], window);
            Responses(port, useLoopback, localAddress, ds[i..], window).0
            == if e == Ended then [] else SentBy(ds[i].senderText, e) + Responses(port, useLoopback, localAddress, ds[i + 1..], w).0
  {
    assert ds[i..][0] == ds[i] && ds[i..][1..] == ds[i + 1..];
  }

  /** A second request from the same server inside the window gets no answer, whatever it holds. */
  lemma RepeatInsideWindowIgnored(port: int, useLoopback: bool, localAddress: string,
                                  first: Datagram, second: Datagram, window: map<string, int>)
    requires first.server == second.server && second.now < first.now + WINDOW_MS
    ensures var (_, w) := Handle(port, useLoopback, localAddress, first, window);
            Handle(port, useLoopback, localAddress, second, w).0 == Ignored
  {
  }

  /** Once a server's window has closed, its next valid request is answered. */
  lemma ClosedWindowAnswers(port: int, localAddress: string, d: Datagram, window: map<string, int>)
    requires !WindowOpen(window, d.server, d.now) && Check(Received(d)) == Answer
    requires |localAddress| <= 100
    ensures Handle(port, false, localAddress, d, window).0 == Reply(Response(port, TextBytes(localAddress)))
  {
  }

  /**
   * The receive loop over the datagrams, keeping the last-response window;
   * `ended` says whether a datagram ended discovery.
   */
  method Serve(port: int, useLoopback: bool, localAddress: string, ds: seq<Datagram>)
    returns (sent: seq<(string, seq<byte>)>, ended: bool)
    ensures (sent, ended) == Responses(port, useLoopback, localAddress, ds, map[])
  {
    sent, ended := ServeWith(HandlerOf(port, useLoopback, localAddress), ds);
  }

  /** The loop itself, for any handler: read, handle, stop at the end event, send a reply. */
  method ServeWith(handle: Handler, ds: seq<Datagram>) returns (sent: seq<(string, seq<byte>)>, ended: bool)
    ensures (sent, ended) == Replies(handle, ds, map[])
  {
    ghost var all := Replies(handle, ds, map[]);
    var lastResponse: map<string, int> := map[];
    var rest := ds;
    sent, ended := [], false;
    while rest != []
      invariant sent + Replies(handle, rest, lastResponse).0 == all.0
      invariant Replies(handle, rest, lastResponse).1 == all.1
    {
      var (event, w) := handle(rest[0], lastResponse);
      if event == Ended {
        assert sent + [] == sent;
        return sent, true;
      }
      var more := SentBy(rest[0].senderText, event);
      ghost var tail := Replies(handle, rest[1..], w).0;
      assert sent + (more + tail) == (sent + more) + tail;
      sent := sent + more;
      lastResponse := w;
      rest := rest[1..];
    }
    assert sent + [] == sent;
  }

  // ---------------------------------------------------------------- start and run

  /** The states of the one static discovery thread: never started, alive, or terminated. */
  datatype ThreadState = New | Alive | Terminated

  datatype Status = Status(running: bool, encoderPort: int, thread: ThreadState)

  const Initial := Status(false, 0, New)

  datatype StartOutcome = ConfigOnly | AlreadyRunning | Started | ThreadNotNew

  /**
   * startDiscoveryBroadcast: nothing in config-only mode or while running;
   * otherwise running is set and the port recorded before the thread is
   * started. A thread that has already run cannot be started again: that
   * start throws IllegalThreadStateException, leaving running set with no
   * thread to clear it.
   */
  function Start(s: Status, configOnly: bool, port: int): (r: (Status, StartOutcome))
    ensures r.1 == ConfigOnly <==> configOnly
    ensures r.1 == AlreadyRunning <==> !configOnly && s.running
    ensures r.1 == ConfigOnly || r.1 == AlreadyRunning ==> r.0 == s
    ensures r.1 == Started <==> !configOnly && !s.running && s.thread == New
    ensures r.1 == Started ==> r.0 == Status(true, port, Alive)
    ensures r.1 == ThreadNotNew ==> r.0 == Status(true, port, s.thread)
  {
    if configOnly then (s, ConfigOnly)
    else if s.running then (s, AlreadyRunning)
    else if s.thread == New then (Status(true, port, Alive), Started)
    else (Status(true, port, s.thread), ThreadNotNew)
  }

  /** The finally block of run: running is cleared and the thread terminates. */
  function Finish(s: Status): (r: Status)
    ensures !r.running && r.thread == Terminated && r.encoderPort == s.encoderPort
  {
    Status(false, s.encoderPort, Terminated)
  }

  /**
   * Once the thread has run, the next start sets running without a thread,
   * and from then on every start is refused as already running: discovery
   * stays off until the process restarts.
   */
  lemma RestartAfterRunIsDead(port: int, port2: int, port3: int)
    ensures var (s1, o1) := Start(Initial, false, port);
            var (s2, o2) := Start(Finish(s1), false, port2);
            o1 == Started && o2 == ThreadNotNew && s2.running && s2.thread != Alive
            && Start(s2, false, port3) == (s2, AlreadyRunning)
  {
  }

  /** How the receive loop is left when no datagram has ended it: the interrupt lands during a receive, or between datagrams. */
  datatype Interrupt = DuringReceive | BetweenDatagrams

  /**
   * Whether a run ends by terminating the JVM: a failed bind, or an interrupt
   * while blocked in receive (ClosedByInterruptException is an IOException).
   * A datagram that ends discovery (an underflow or an oversized response is
   * a runtime exception) and an interrupt between datagrams end it quietly.
   */
  predicate TerminatesJvm(bindOk: bool, endedByDatagram: bool, interrupt: Interrupt)
  {
    !bindOk || (!endedByDatagram && interrupt == DuringReceive)
  }

  class Discovery {
    var running: bool
    var encoderPort: int
    var thread: ThreadState
    const useLoopback: bool
    const configOnly: bool

    function State(): Status
      reads this
    {
      Status(running, encoderPort, thread)
    }

    constructor (useLoopback: bool, configOnly: bool)
      ensures State() == Initial
      ensures this.useLoopback == useLoopback && this.configOnly == configOnly
    {
      running := false;
      encoderPort := 0;
      thread := New;
      this.useLoopback := useLoopback;
      this.configOnly := configOnly;
    }

    /** Starts the thread: not in config-only mode, not while running, and only a thread that has not run yet. */
    method StartDiscoveryBroadcast(port: int) returns (outcome: StartOutcome)
      modifies this
      ensures (State(), outcome) == Start(old(State()), configOnly, port)
    {
      if configOnly {
        return ConfigOnly;
      }
      if running {
        return AlreadyRunning;
      }
      running := true;
      encoderPort := port;
      if thread != New {
        return ThreadNotNew;
      }
      thread := Alive;
      outcome := Started;
    }

    /**
     * The thread's run: bind the discovery port (`bindOk`), then the receive
     * loop until a datagram ends it or the thread is interrupted; running is
     * always cleared. `terminated` says whether the loop ended in
     * terminateJVM.
     */
    method Run(localAddress: string, bindOk: bool, ds: seq<Datagram>, interrupt: Interrupt)
      returns (sent: seq<(string, seq<byte>)>, terminated: bool)
      modifies this
      ensures !bindOk ==> sent == [] && terminated
      ensures bindOk ==> sent == Responses(old(encoderPort), useLoopback, localAddress, ds, map[]).0
      ensures terminated <==> TerminatesJvm(bindOk, Responses(old(encoderPort), useLoopback, localAddress, ds, map[]).1, interrupt)
      ensures State() == Finish(old(State()))
    {
      if !bindOk {
        sent, terminated := [], true;
      } else {
        var ended;
        sent, ended := Serve(encoderPort, useLoopback, localAddress, ds);
        terminated := !ended && interrupt == DuringReceive;
      }
      running, thread := false, Terminated;
    }
  }
}
