/**
 * Status queries against an InfiniTV tuner's get_var page: the request URL,
 * trimming the returned line to the text inside the page body, retrying on
 * I/O errors, and reading a program number, a PID list or the copy-control
 * status out of the returned text.
 */
module InfiniTVStatus {
  import opened JavaText
  import TVChannels

  const DATA_START: string := "<body class=\"get\">"
  const DATA_END: string := "</body></html>"

  /** The tuner index sent to the device: tunerNumber - 1 as a Java int. */
  function TunerIndexText(tunerNumber: int): string
    requires IsInt32(tunerNumber)
  {
    IntToString(Wrap32(tunerNumber - 1))
  }

  /** The request URL; the device numbers its tuners from 0, callers from 1. */
  function GetVarUrl(deviceAddress: string, tunerNumber: int, service: string, value: string): string
    requires IsInt32(tunerNumber)
  {
    "http://" + deviceAddress + "/get_var?i=" + TunerIndexText(tunerNumber)
      + "&s=" + service + "&v=" + value
  }

  /** tunerNumber - 1 in 32-bit arithmetic: exact except below INT_MIN. */
  lemma TunerIndexValue(tunerNumber: int)
    requires IsInt32(tunerNumber)
    ensures tunerNumber != INT_MIN ==> Wrap32(tunerNumber - 1) == tunerNumber - 1
    ensures tunerNumber == INT_MIN ==> Wrap32(tunerNumber - 1) == INT_MAX
  {
    if tunerNumber == INT_MIN {
      assert (tunerNumber - 1) % 0x1_0000_0000 == INT_MAX;
    }
  }

  /** The index in the URL reads back as tunerNumber - 1, wrapping below INT_MIN. */
  lemma TunerIndexReadsBack(tunerNumber: int)
    requires IsInt32(tunerNumber)
    ensures tunerNumber != INT_MIN ==> ParseInt(TunerIndexText(tunerNumber), 10) == Some(tunerNumber - 1)
    ensures tunerNumber == INT_MIN ==> ParseInt(TunerIndexText(tunerNumber), 10) == Some(INT_MAX)
  {
    var w := Wrap32(tunerNumber - 1);
    TunerIndexValue(tunerNumber);
    IntToStringRoundTrip(w);
  }

  /** An occurrence of DATA_END never starts inside an occurrence of DATA_START. */
  lemma MarkersDoNotOverlap(line: string, start: int, end: int)
    requires OccursAt(line, DATA_START, start) && OccursAt(line, DATA_END, end)
    requires start <= end
    ensures start + |DATA_START| <= end
  {
    OpeningMarkerShape();
    assert line[end] == '<' && line[end + 1] == '/' by {
      assert line[end..end + |DATA_END|] == DATA_END;
    }
    assert forall j :: start <= j < start + |DATA_START| ==> line[j] == DATA_START[j - start] by {
      assert line[start..start + |DATA_START|] == DATA_START;
    }
  }

  /**
   * The trimming rule of getVar: the text between the first DATA_START and
   * the first DATA_END when DATA_START is found at an index above 0 and
   * DATA_END after it; otherwise the whole line.
   */
  function TrimBody(line: string): string
  {
    var start := IndexOf(line, DATA_START);
    var end := IndexOf(line, DATA_END);
    if start > 0 && end > start then
      MarkersDoNotOverlap(line, start, end);
      line[start + |DATA_START|..end]
    else line
  }

  /** The only '<' of DATA_START is its first character. */
  lemma OpeningMarkerShape()
    ensures |DATA_START| == 18 && DATA_START[0] == '<' && DATA_START[1] == 'b'
    ensures forall j :: 1 <= j < |DATA_START| ==> DATA_START[j] != '<'
    ensures |DATA_END| == 14 && DATA_END[0] == '<' && DATA_END[1] == '/'
  {
    var tail := DATA_START[1..];
    assert '<' !in tail;
    forall j | 1 <= j < |DATA_START| ensures DATA_START[j] != '<' {
      assert DATA_START[j] == tail[j - 1];
    }
  }

  /**
   * A page whose prefix and body hold no '<' is cut back to its body: the
   * prefix makes DATA_START start above 0, and no DATA_END can start before
   * the closing one.
   */
  lemma TrimBodyOfPage(pre: string, body: string, post: string)
    requires pre != []
    requires forall k :: 0 <= k < |pre| ==> pre[k] != '<'
    requires forall k :: 0 <= k < |body| ==> body[k] != '<'
    ensures TrimBody(pre + DATA_START + body + DATA_END + post) == body
  {
    var line := pre + DATA_START + body + DATA_END + post;
    var s0 := |pre|;
    var k := s0 + |DATA_START| + |body|;
    OpeningMarkerShape();
    PageMarkers(pre, body, post);
    FirstOccurrence(line, DATA_START, s0);
    FirstOccurrence(line, DATA_END, k);
    TrimBodyAt(line, s0, k);
  }

  /** With both markers located, the body is what lies between them. */
  lemma TrimBodyAt(line: string, start: int, end: int)
    requires 0 < start && start + |DATA_START| <= end
    requires IndexOf(line, DATA_START) == start && IndexOf(line, DATA_END) == end
    ensures TrimBody(line) == line[start + |DATA_START|..end]
  {
  }

  /** Where the markers of a page sit, and that no '<' comes before the closing one but the opening one. */
  lemma PageMarkers(pre: string, body: string, post: string)
    requires forall k :: 0 <= k < |pre| ==> pre[k] != '<'
    requires forall k :: 0 <= k < |body| ==> body[k] != '<'
    requires |DATA_START| == 18 && DATA_START[0] == '<'
    requires forall j :: 1 <= j < |DATA_START| ==> DATA_START[j] != '<'
    requires |DATA_END| == 14 && DATA_END[0] == '<' && DATA_END[1] == '/' && DATA_START[1] == 'b'
    ensures var line := pre + DATA_START + body + DATA_END + post;
            var s0 := |pre|;
            var k := s0 + |DATA_START| + |body|;
            OccursAt(line, DATA_START, s0) && OccursAt(line, DATA_END, k)
            && line[s0 + |DATA_START|..k] == body
            && (forall i :: 0 <= i < s0 ==> !OccursAt(line, DATA_START, i))
            && (forall i :: 0 <= i < k ==> !OccursAt(line, DATA_END, i))
  {
    var line := pre + DATA_START + body + DATA_END + post;
    var s0 := |pre|;
    var b0 := s0 + |DATA_START|;
    var k := b0 + |body|;
    assert line[s0..b0] == DATA_START;
    assert line[b0..k] == body;
    assert line[k..k + |DATA_END|] == DATA_END;
    forall i | 0 <= i < k ensures line[i] == '<' ==> i == s0 {
      if i < s0 {
        assert line[i] == pre[i];
      } else if i < b0 {
        assert line[i] == DATA_START[i - s0];
      } else {
        assert line[i] == body[i - b0];
      }
    }
    assert line[s0 + 1] == DATA_START[1];
    forall i | 0 <= i < k ensures !OccursAt(line, DATA_END, i) {
      if i + |DATA_END| <= |line| {
        assert line[i..i + |DATA_END|][0] == line[i];
        assert line[i..i + |DATA_END|][1] == line[i + 1];
      }
    }
    forall i | 0 <= i < s0 ensures !OccursAt(line, DATA_START, i) {
      if i + |DATA_START| <= |line| {
        assert line[i..i + |DATA_START|][0] == line[i];
      }
    }
  }

  /** An occurrence with none before it is the one indexOf finds. */
  lemma FirstOccurrence(s: string, p: string, at: int)
    requires OccursAt(s, p, at) && forall i :: 0 <= i < at ==> !OccursAt(s, p, i)
    ensures IndexOf(s, p) == at
  {
  }

  /** What one HTTP exchange gave back. */
  datatype Fetch = Line(text: string) | NoLine | IOFailure(cause: string)

  /** What getVar hands to its caller. */
  datatype VarResult = Value(text: string) | IOError(cause: string) | Crash

  /** One getVar attempt: a missing line is a NullPointerException, not an I/O error. */
  function GetVarOnce(f: Fetch): (r: VarResult)
    ensures f.Line? ==> r == Value(TrimBody(f.text))
    ensures f.NoLine? ==> r.Crash?
    ensures f.IOFailure? ==> r == IOError(f.cause)
  {
    match f
    case Line(text) => Value(TrimBody(text))
    case NoLine => Crash
    case IOFailure(cause) => IOError(cause)
  }

  /** Math.abs(retry) + 1 evaluated in 32-bit arithmetic. */
  function Attempts(retry: int): (n: int)
    requires IsInt32(retry)
    ensures -INT_MAX < retry < INT_MAX ==> n == (if retry < 0 then -retry else retry) + 1
    ensures retry == INT_MAX || retry == -INT_MAX || retry == INT_MIN ==> n < 0
    ensures retry == INT_MAX || retry == -INT_MAX ==> n == INT_MIN
    ensures retry == INT_MIN ==> n == INT_MIN + 1
  {
    Wrap32(Abs32(retry) + 1)
  }

  /**
   * The outcome of attempts i, i+1, ... up to n: the first value returned, a
   * crash at once, or the last I/O error (lastError when no attempt failed).
   */
  function Retried(responses: nat -> Fetch, i: nat, n: int, lastError: string): (r: VarResult)
    ensures r.IOError? ==> r.cause == lastError || exists k :: i <= k < n && responses(k) == IOFailure(r.cause)
    decreases if n > i then n - i else 0
  {
    if i >= n then IOError(lastError)
    else match GetVarOnce(responses(i))
      case Value(t) => Value(t)
      case Crash => Crash
      case IOError(c) => Retried(responses, i + 1, n, c)
  }

  /** getVar with retries: |retry| + 1 attempts in 32-bit arithmetic. */
  method GetVarRetry(retry: int, responses: nat -> Fetch) returns (r: VarResult)
    requires IsInt32(retry)
    ensures r == Retried(responses, 0, Attempts(retry), "")
  {
    var attempts := Attempts(retry);
    var lastError := "";
    var i := 0;
    while i < attempts
      invariant 0 <= i
      invariant Retried(responses, 0, attempts, "") == Retried(responses, i, attempts, lastError)
      decreases attempts - i
    {
      var once := GetVarOnce(responses(i));
      match once {
        case Value(t) => return Value(t);
        case Crash => return Crash;
        case IOError(c) => lastError := c;
      }
      i := i + 1;
    }
    r := IOError(lastError);
  }

  /** Attempts that fail with an I/O error hand on to the next one, keeping its cause. */
  lemma {:induction false} RetrySkipsFailures(responses: nat -> Fetch, i: nat, n: int, e: string, k: nat)
    requires i < k <= n
    requires forall j :: i <= j < k ==> responses(j).IOFailure?
    ensures Retried(responses, i, n, e) == Retried(responses, k, n, responses(k - 1).cause)
    decreases k - i
  {
    if i + 1 < k {
      RetrySkipsFailures(responses, i + 1, n, responses(i).cause, k);
    }
  }

  /** The first answered attempt wins once every earlier attempt failed with an I/O error. */
  lemma RetryReturnsFirstSuccess(responses: nat -> Fetch, i: nat, n: int, e: string, k: nat)
    requires i <= k < n
    requires forall j :: i <= j < k ==> responses(j).IOFailure?
    requires responses(k).Line?
    ensures Retried(responses, i, n, e) == Value(TrimBody(responses(k).text))
  {
    if i < k {
      RetrySkipsFailures(responses, i, n, e, k);
    }
  }

  /** When every attempt fails, the error of the last attempt is thrown. */
  lemma {:induction false} RetryThrowsLastError(responses: nat -> Fetch, i: nat, n: int, e: string)
    requires i < n
    requires forall j :: i <= j < n ==> responses(j).IOFailure?
    ensures Retried(responses, i, n, e) == IOError(responses(n - 1).cause)
    decreases n - i
  {
    assert Retried(responses, i, n, e) == Retried(responses, i + 1, n, responses(i).cause);
    if i + 1 < n {
      RetryThrowsLastError(responses, i + 1, n, responses(i).cause);
    }
  }

  /**
   * retry of Integer.MAX_VALUE, -Integer.MAX_VALUE or Integer.MIN_VALUE
   * overflows to a negative count: no attempt is made.
   */
  lemma RetryMaxMakesNoAttempt(responses: nat -> Fetch, retry: int)
    requires retry == INT_MAX || retry == -INT_MAX || retry == INT_MIN
    ensures Retried(responses, 0, Attempts(retry), "") == IOError("")
  {
  }

  /** GetProgram: the trimmed decimal value, or -1. */
  function ProgramFromValue(value: string): (r: int)
    ensures IsInt32(r)
  {
    match ParseInt(Trim(value), 10)
    case Some(v) => v
    case None => -1
  }

  /** A printed program number reads back. */
  lemma ProgramRoundTrip(n: int)
    requires IsInt32(n)
    ensures ProgramFromValue(IntToString(n)) == n
  {
    var s := IntToString(n);
    TrimIsInfix(s);
    IntToStringRoundTrip(n);
  }

  /** One PID: a trimmed hexadecimal piece. */
  function ParsePid(piece: string): Option<int>
  {
    ParseInt(Trim(piece), 16)
  }

  /** Each piece parsed on its own. */
  function ParsedPieces(pieces: seq<string>): (r: seq<Option<int>>)
    ensures |r| == |pieces| && forall k :: 0 <= k < |r| ==> r[k] == ParsePid(pieces[k])
  {
    Parsed(ParsePid, pieces)
  }

  /** Each piece parsed on its own by the given parser. */
  function Parsed(parse: string -> Option<int>, pieces: seq<string>): (r: seq<Option<int>>)
    ensures |r| == |pieces| && forall k :: 0 <= k < |r| ==> r[k] == parse(pieces[k])
  {
    seq(|pieces|, k requires 0 <= k < |pieces| => parse(pieces[k]))
  }

  /** All the values, in order, when every element has one; otherwise None. */
  function Collect(xs: seq<Option<int>>): (r: Option<seq<int>>)
    ensures r.Some? <==> forall k :: 0 <= k < |xs| ==> xs[k].Some?
    ensures r.Some? ==> |r.value| == |xs| && forall k :: 0 <= k < |xs| ==> Some(r.value[k]) == xs[k]
  {
    if xs == [] then Some([])
    else
      var init := Collect(xs[..|xs| - 1]);
      var last := xs[|xs| - 1];
      if init.Some? && last.Some? then Some(init.value + [last.value]) else None
  }

  /** GetPids: the PIDs of the comma-separated pieces, or none when any piece fails. */
  function PidsFromValue(value: string): seq<int>
  {
    match Collect(ParsedPieces(Split(value, ",")))
    case Some(pids) => pids
    case None => []
  }

  /** A value either gives one PID per piece, in order, or no PID at all. */
  lemma PidsAllOrNothing(value: string)
    ensures var pieces := Split(value, ",");
            var r := PidsFromValue(value);
            (|r| == |pieces| && forall k :: 0 <= k < |r| ==> Some(r[k]) == ParsePid(pieces[k]))
            || (r == [] && exists k :: 0 <= k < |pieces| && ParsePid(pieces[k]).None?)
  {
  }

  /** One missing value makes the whole collection fail. */
  lemma CollectFails(xs: seq<Option<int>>, i: nat)
    requires i < |xs| && xs[i].None?
    ensures Collect(xs) == None
  {
  }

  lemma CollectExtend(xs: seq<Option<int>>, i: nat, before: seq<int>, v: int)
    requires i < |xs| && Collect(xs[..i]) == Some(before) && xs[i] == Some(v)
    ensures Collect(xs[..i + 1]) == Some(before + [v])
  {
    assert xs[..i + 1][..i] == xs[..i];
  }

  /** The parsing loop of GetPids: a fresh array of the PIDs, or an empty one. */
  method ParsePidArray(pieces: seq<string>) returns (pids: array<int>)
    ensures pids[..] == match Collect(ParsedPieces(pieces)) case Some(v) => v case None => []
  {
    pids := ParseEach(ParsePid, pieces);
  }

  /** The parsing loop for any parser: fill the array in order, or give up with an empty one. */
  method ParseEach(parse: string -> Option<int>, pieces: seq<string>) returns (pids: array<int>)
    ensures pids[..] == match Collect(Parsed(parse, pieces)) case Some(v) => v case None => []
  {
    ghost var parsed := Parsed(parse, pieces);
    pids := new int[|pieces|];
    var i := 0;
    while i < pids.Length
      invariant 0 <= i <= pids.Length == |pieces|
      invariant Collect(parsed[..i]) == Some(pids[..i])
    {
      var p := parse(pieces[i]);
      if p.None? {
        CollectFails(parsed, i);
        pids := new int[0];
        return;
      }
      ghost var before := pids[..i];
      pids[i] := p.value;
      assert pids[..i + 1] == before + [p.value];
      CollectExtend(parsed, i, before, p.value);
      i := i + 1;
    }
    assert parsed[..i] == parsed;
    assert pids[..i] == pids[..];
  }


  method GetPids(value: string) returns (pids: array<int>)
    ensures pids[..] == PidsFromValue(value)
  {
    pids := ParsePidArray(Split(value, ","));
  }

  /**
   * GetSignalStrength reads the text before the first " dBmV"; without that
   * unit the strength is 0.
   */
  function SignalLevelText(value: string): (r: Option<string>)
    ensures r.None? <==> !Contains(value, " dBmV")
    ensures r.Some? ==> StartsWith(value, r.value + " dBmV") && !Contains(r.value + " dBm", " dBmV")
  {
    var i := IndexOf(value, " dBmV");
    if i == -1 then None
    else
      assert value[..i + 5] == value[..i] + " dBmV" by { assert value[i..i + 5] == " dBmV"; }
      assert forall j :: !OccursAt(value[..i] + " dBm", " dBmV", j) by {
        forall j | OccursAt(value[..i] + " dBm", " dBmV", j) ensures false {
          assert value[j..j + 5] == (value[..i] + " dBm")[j..j + 5];
          assert OccursAt(value, " dBmV", j);
        }
      }
      Some(value[..i])
  }

  /** GetCCIStatus, in priority order. */
  function CciStatus(value: string): (r: TVChannels.CopyProtection)
  {
    if Contains(value, "None") then TVChannels.NONE
    else if Contains(value, "(00)") || Contains(value, "(0x00)") then TVChannels.COPY_FREELY
    else if Contains(value, "(0x02)") then TVChannels.COPY_ONCE
    else if Contains(value, "(0x03)") then TVChannels.COPY_NEVER
    else TVChannels.UNKNOWN
  }

  /** Each classification holds exactly when its marker is present and no earlier one is. */
  lemma CciStatusCases(value: string)
    ensures CciStatus(value) == TVChannels.NONE <==> Contains(value, "None")
    ensures CciStatus(value) == TVChannels.COPY_FREELY
            <==> !Contains(value, "None") && (Contains(value, "(00)") || Contains(value, "(0x00)"))
    ensures CciStatus(value) == TVChannels.COPY_ONCE
            <==> !Contains(value, "None") && !Contains(value, "(00)") && !Contains(value, "(0x00)")
                 && Contains(value, "(0x02)")
    ensures CciStatus(value) == TVChannels.COPY_NEVER
            <==> !Contains(value, "None") && !Contains(value, "(00)") && !Contains(value, "(0x00)")
                 && !Contains(value, "(0x02)") && Contains(value, "(0x03)")
    ensures CciStatus(value) == TVChannels.UNKNOWN
            <==> !Contains(value, "None") && !Contains(value, "(00)") && !Contains(value, "(0x00)")
                 && !Contains(value, "(0x02)") && !Contains(value, "(0x03)")
  {
  }
}
