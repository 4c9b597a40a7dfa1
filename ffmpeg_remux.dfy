/**
 * The decisions the FFmpeg remuxing consumer makes around the native calls:
 * the configuration floors, the growing probe window, which input streams
 * are kept and under which output id, and which packets reach the muxer.
 *
 * FFmpeg itself is not part of this model. Each probe attempt is an input
 * (the bytes buffered, the time elapsed, what the probe found), an input
 * stream is its codec type and the few numbers the selection reads, and a
 * packet is its stream index and decompression timestamp.
 */
module FFmpegRemux {
  import opened JavaText

  // ---------------------------------------------------------------- configuration

  const MIN_PROBE_FLOOR := 600096
  const MIN_ANALYZE_FLOOR := 600000
  const MAX_PROBE_FLOOR := 5617370
  const MAX_ANALYZE_FLOOR := 5000000
  const RW_BUFFER_FLOOR := 10340
  /** The catch-up room the circular buffer keeps beyond the largest probe. */
  const CATCH_UP := 1123474
  /** One MPEG-2 transport packet (ISO/IEC 13818-1 section 2.4.3.2). */
  const TS_PACKET := 188
  /** FFmpeg's "stream not found" error, FFERRTAG(0xF8, 'S', 'T', 'R') in libavutil/error.h. */
  const AVERROR_STREAM_NOT_FOUND := -1381258232
  /** The index that names no stream. */
  const NO_STREAM_IDX := -1

  /** The values read from the configuration, and the values in effect after the floors. */
  datatype Settings = Settings(
    minProbeSize: int,
    minAnalyzeDuration: int,
    maxProbeSize: int,
    maxAnalyzeDuration: int,
    rwBufferSize: int,
    circularBufferSize: int,
    minUploadIDTransfer: int)

  predicate Configured(c: Settings)
  {
    IsInt32(c.minProbeSize) && IsInt32(c.minAnalyzeDuration) && IsInt32(c.maxProbeSize)
    && IsInt32(c.maxAnalyzeDuration) && IsInt32(c.rwBufferSize) && IsInt32(c.circularBufferSize)
    && IsInt32(c.minUploadIDTransfer)
  }

  function Max(a: int, b: int): (m: int)
    ensures m >= a && m >= b && (m == a || m == b)
  {
    if a >= b then a else b
  }

  function Min(a: int, b: int): (m: int)
    ensures m <= a && m <= b && (m == a || m == b)
  {
    if a <= b then a else b
  }

  /**
   * Each setting is raised to its floor. The circular buffer's floor is the
   * largest probe plus the catch-up room, computed in 64 bits and cast back
   * to a 32-bit int; the upload threshold's floor is the read/write buffer.
   */
  function Effective(c: Settings): (r: Settings)
    requires Configured(c)
    ensures r.minProbeSize >= MIN_PROBE_FLOOR && r.minProbeSize >= c.minProbeSize
    ensures r.minAnalyzeDuration >= MIN_ANALYZE_FLOOR && r.minAnalyzeDuration >= c.minAnalyzeDuration
    ensures r.maxProbeSize >= MAX_PROBE_FLOOR && r.maxProbeSize >= c.maxProbeSize
    ensures r.maxAnalyzeDuration >= MAX_ANALYZE_FLOOR && r.maxAnalyzeDuration >= c.maxAnalyzeDuration
    ensures r.rwBufferSize >= RW_BUFFER_FLOOR && r.rwBufferSize >= c.rwBufferSize
    ensures r.minUploadIDTransfer >= r.rwBufferSize && r.minUploadIDTransfer >= c.minUploadIDTransfer
    ensures r.maxProbeSize + CATCH_UP <= INT_MAX ==>
              r.circularBufferSize >= r.maxProbeSize + CATCH_UP && r.circularBufferSize >= c.circularBufferSize
    ensures Configured(r)
  {
    var maxProbe := Max(c.maxProbeSize, MAX_PROBE_FLOOR);
    var rw := Max(c.rwBufferSize, RW_BUFFER_FLOOR);
    Settings(
      Max(c.minProbeSize, MIN_PROBE_FLOOR),
      Max(c.minAnalyzeDuration, MIN_ANALYZE_FLOOR),
      maxProbe,
      Max(c.maxAnalyzeDuration, MAX_ANALYZE_FLOOR),
      rw,
      Wrap32(Max(c.circularBufferSize, maxProbe + CATCH_UP)),
      Max(c.minUploadIDTransfer, rw))
  }

  /** Values already at or above their floors are kept as they are. */
  lemma EffectiveIsIdempotent(c: Settings)
    requires Configured(c) && Effective(c).maxProbeSize + CATCH_UP <= INT_MAX
    ensures Effective(Effective(c)) == Effective(c)
  {
  }

  /** The shipped defaults need no raising. */
  lemma DefaultsStand()
    ensures var d := Settings(800128, 800000, 5617370, 5000000, 20680, 7864320, 20680);
            Effective(d) == d
  {
  }

  /** A largest probe within the catch-up room of the int range makes the circular buffer wrap negative. */
  lemma CircularBufferWraps()
    ensures var c := Settings(800128, 800000, INT_MAX, 5000000, 20680, 7864320, 20680);
            Effective(c).circularBufferSize < 0
  {
  }

  // ---------------------------------------------------------------- probe window

  /**
   * The next probe size: at least the bytes buffered plus one transport
   * packet, never smaller than before unless the limit cuts it, never above
   * the limit.
   */
  function NextProbeSize(size: int, available: int, limit: int): (r: int)
    ensures Min(size, limit) <= r <= limit
    ensures r == limit || r >= available + TS_PACKET
  {
    var grown := Max(size, available + TS_PACKET);
    if grown <= limit then grown else limit
  }

  /** The next analyze duration: the time spent so far in microseconds, never smaller than before, never above the limit. */
  function NextAnalyzeDuration(duration: int, elapsedMicros: int, limit: int): (r: int)
    ensures Min(duration, limit) <= r <= limit
    ensures r == limit || r >= elapsedMicros
  {
    var grown := Max(duration, elapsedMicros);
    if grown <= limit then grown else limit
  }

  /** Why an attempt is thrown away: no stream information, no valid video codec, no valid audio codec. */
  datatype Retry = StreamInfo | NoVideo | NoAudio

  /**
   * What one attempt met: the input could not be opened; an interruption
   * was seen; no stream information was found; or the input opened with
   * these streams, FFmpeg's best video stream (`videoPick`, possibly
   * AVERROR_STREAM_NOT_FOUND) and FFmpeg's best audio stream
   * (`audioFallback`, asked for only when no audio stream beats (0, 0)).
   */
  datatype Probe =
    | OpenFailed
    | Interrupted
    | InfoFailed
    | Opened(streams: seq<InputStream>, videoPick: int, audioFallback: int)

  datatype Attempt = Attempt(available: int, elapsedMicros: int, probe: Probe)

  /**
   * How initRemuxer's loop ends. `ReadOutsideStreams` is the stream lookup
   * of an index that names no stream, which ends the loop by an exception.
   */
  datatype ProbeOutcome =
    | Accepted(probeSize: int, analyzeDuration: int, streams: seq<InputStream>, video: int, audio: int)
    | GaveUp(why: Retry, probeSize: int)
    | OpenError
    | InitInterrupted
    | ReadOutsideStreams(index: int)
    | StillProbing(probeSize: int, analyzeDuration: int)

  /** The reason an attempt is thrown away, if it is. */
  function Thrown(p: Probe): (r: Option<Retry>)
    ensures r.Some? ==> p.InfoFailed? || p.Opened?
    ensures p.InfoFailed? ==> r == Some(StreamInfo)
  {
    match p
    case InfoFailed => Some(StreamInfo)
    case Opened(streams, video, fallback) =>
      (match Examine(streams, video, fallback)
       case Again(why) => Some(why)
       case _ => None)
    case _ => None
  }

  /**
   * The probe loop over the attempts it makes: each attempt first grows the
   * window, then opening errors and interruptions end it, a thrown-away
   * attempt ends it only once the probe size has reached its limit, a
   * lookup outside the streams ends it, and a choice ends it. Running out of
   * attempts leaves it still probing. A start above its limit is cut to the
   * limit by the first attempt.
   */
  function ProbeLoop(size: int, duration: int, sizeLimit: int, durationLimit: int, attempts: seq<Attempt>): (r: ProbeOutcome)
    ensures r.GaveUp? ==> r.probeSize == sizeLimit
    ensures r.Accepted? ==>
              Min(size, sizeLimit) <= r.probeSize <= sizeLimit && Min(duration, durationLimit) <= r.analyzeDuration <= durationLimit
    ensures r.Accepted? ==> 0 <= r.audio < |r.streams| && ValidCodec(r.streams[r.audio])
    ensures r.Accepted? ==> r.video == AVERROR_STREAM_NOT_FOUND || (0 <= r.video < |r.streams| && ValidCodec(r.streams[r.video]))
    ensures r.ReadOutsideStreams? ==> r.index != AVERROR_STREAM_NOT_FOUND
    ensures r.StillProbing? && attempts != [] ==>
              Min(size, sizeLimit) <= r.probeSize <= sizeLimit && Min(duration, durationLimit) <= r.analyzeDuration <= durationLimit
    ensures r.StillProbing? && attempts == [] ==> r.probeSize == size && r.analyzeDuration == duration
    decreases |attempts|
  {
    if attempts == [] then StillProbing(size, duration)
    else
      var a := attempts[0];
      var s := NextProbeSize(size, a.available, sizeLimit);
      var d := NextAnalyzeDuration(duration, a.elapsedMicros, durationLimit);
      match Thrown(a.probe)
      case Some(why) =>
        if s == sizeLimit then GaveUp(why, s)
        else ProbeLoop(s, d, sizeLimit, durationLimit, attempts[1..])
      case None =>
        match a.probe
        case OpenFailed => OpenError
        case Interrupted => InitInterrupted
        case Opened(streams, video, fallback) =>
          (match Examine(streams, video, fallback)
           case OutsideStreams(k) => ReadOutsideStreams(k)
           case Chosen(v, au) => Accepted(s, d, streams, v, au))
  }

  /** The probe sizes the attempts use, in order. */
  function SizesTried(size: int, sizeLimit: int, attempts: seq<Attempt>): seq<int>
    decreases |attempts|
  {
    if attempts == [] then []
    else
      var s := NextProbeSize(size, attempts[0].available, sizeLimit);
      [s] + (if Thrown(attempts[0].probe).Some? && s != sizeLimit then SizesTried(s, sizeLimit, attempts[1..]) else [])
  }

  predicate NonDecreasing(t: seq<int>)
  {
    forall i, j :: 0 <= i < j < |t| ==> t[i] <= t[j]
  }

  predicate Between(t: seq<int>, lo: int, hi: int)
  {
    forall i :: 0 <= i < |t| ==> lo <= t[i] <= hi
  }

  /** The probe sizes tried never decrease and never pass the limit. */
  lemma {:induction false} SizesGrowWithinLimit(size: int, sizeLimit: int, attempts: seq<Attempt>)
    ensures NonDecreasing(SizesTried(size, sizeLimit, attempts))
    ensures Between(SizesTried(size, sizeLimit, attempts), Min(size, sizeLimit), sizeLimit)
    decreases |attempts|
  {
    if attempts != [] {
      var s := NextProbeSize(size, attempts[0].available, sizeLimit);
      var t := SizesTried(size, sizeLimit, attempts);
      if Thrown(attempts[0].probe).Some? && s != sizeLimit {
        SizesGrowWithinLimit(s, sizeLimit, attempts[1..]);
        var rest := SizesTried(s, sizeLimit, attempts[1..]);
        assert t == [s] + rest;
        assert forall i :: 1 <= i < |t| ==> t[i] == rest[i - 1];
      } else {
        assert t == [s];
      }
    }
  }

  /** An attempt thrown away below the limit is never reported: the next attempt is made. */
  lemma RetryBelowLimit(size: int, duration: int, sizeLimit: int, durationLimit: int, a: Attempt, rest: seq<Attempt>)
    requires Thrown(a.probe).Some? && NextProbeSize(size, a.available, sizeLimit) < sizeLimit
    ensures ProbeLoop(size, duration, sizeLimit, durationLimit, [a] + rest)
            == ProbeLoop(NextProbeSize(size, a.available, sizeLimit), NextAnalyzeDuration(duration, a.elapsedMicros, durationLimit),
                         sizeLimit, durationLimit, rest)
  {
    assert ([a] + rest)[1..] == rest;
  }

  /**
   * A configured minimum above its maximum is cut to the maximum by the
   * first attempt, so an attempt thrown away there is already final.
   */
  lemma MinAboveMaxProbesAtLimit(s: Settings, a: Attempt, rest: seq<Attempt>)
    requires s.minProbeSize > s.maxProbeSize && Thrown(a.probe).Some?
    ensures ProbeLoop(s.minProbeSize, s.minAnalyzeDuration, s.maxProbeSize, s.maxAnalyzeDuration, [a] + rest)
            == GaveUp(Thrown(a.probe).value, s.maxProbeSize)
  {
  }

  /** The configured minimum probe size above its maximum is accepted by the floors and kept as it is. */
  lemma FloorsKeepMinAboveMax()
    ensures var c := Settings(10000000, 800000, 5617370, 5000000, 20680, 7864320, 20680);
            Effective(c).minProbeSize > Effective(c).maxProbeSize
  {
  }

  /**
   * An input with no audio stream, whose video check passes, is never
   * retried: the audio lookup reads stream -1 and the loop ends there,
   * whatever the probe size.
   */
  lemma NoAudioEndsProbe(size: int, duration: int, sizeLimit: int, durationLimit: int, a: Attempt, rest: seq<Attempt>)
    requires a.probe.Opened?
    requires forall j :: 0 <= j < |a.probe.streams| ==> a.probe.streams[j].kind != Audio
    requires a.probe.videoPick == AVERROR_STREAM_NOT_FOUND
             || (0 <= a.probe.videoPick < |a.probe.streams| && ValidCodec(a.probe.streams[a.probe.videoPick]))
    ensures ProbeLoop(size, duration, sizeLimit, durationLimit, [a] + rest) == ReadOutsideStreams(NO_STREAM_IDX)
  {
    NoAudioReadsOutside(a.probe.streams, a.probe.videoPick, a.probe.audioFallback);
  }

  /** initRemuxer's probe loop. */
  method InitProbe(s: Settings, attempts: seq<Attempt>) returns (r: ProbeOutcome)
    ensures r == ProbeLoop(s.minProbeSize, s.minAnalyzeDuration, s.maxProbeSize, s.maxAnalyzeDuration, attempts)
  {
    var dynamicProbeSize := s.minProbeSize;
    var dynamicAnalyzeDuration := s.minAnalyzeDuration;
    var i := 0;
    while i < |attempts|
      invariant 0 <= i <= |attempts|
      invariant ProbeLoop(dynamicProbeSize, dynamicAnalyzeDuration, s.maxProbeSize, s.maxAnalyzeDuration, attempts[i..])
             == ProbeLoop(s.minProbeSize, s.minAnalyzeDuration, s.maxProbeSize, s.maxAnalyzeDuration, attempts)
    {
      var a := attempts[i];
      assert attempts[i..][0] == a && attempts[i..][1..] == attempts[i + 1..];
      dynamicProbeSize := Max(dynamicProbeSize, a.available + TS_PACKET);
      if dynamicProbeSize > s.maxProbeSize {
        dynamicProbeSize := s.maxProbeSize;
      }
      dynamicAnalyzeDuration := Max(dynamicAnalyzeDuration, a.elapsedMicros);
      if dynamicAnalyzeDuration > s.maxAnalyzeDuration {
        dynamicAnalyzeDuration := s.maxAnalyzeDuration;
      }
      var why: Retry;
      match a.probe {
        case OpenFailed => return OpenError;
        case Interrupted => return InitInterrupted;
        case InfoFailed => why := StreamInfo;
        case Opened(streams, preferredVideo, fallback) =>
          var v := ChooseStreams(streams, preferredVideo, fallback);
          match v {
            case OutsideStreams(k) => return ReadOutsideStreams(k);
            case Chosen(video, audio) =>
              return Accepted(dynamicProbeSize, dynamicAnalyzeDuration, streams, video, audio);
            case Again(w) => why := w;
          }
      }
      if dynamicProbeSize == s.maxProbeSize {
        return GaveUp(why, dynamicProbeSize);
      }
      i := i + 1;
    }
    return StillProbing(dynamicProbeSize, dynamicAnalyzeDuration);
  }

  // ---------------------------------------------------------------- stream selection

  datatype MediaType = Video | Audio | Subtitle | Data | Attachment | UnknownType

  datatype InputStream = InputStream(kind: MediaType, width: int, height: int, channels: int, frames: int)

  /** getCodecContext's test: audio, video or subtitle; video with both dimensions; audio with channels. */
  predicate ValidCodec(s: InputStream)
  {
    (s.kind == Audio || s.kind == Video || s.kind == Subtitle)
    && (s.kind != Video || (s.width != 0 && s.height != 0))
    && (s.kind != Audio || s.channels != 0)
  }

  lemma ValidCodecCases(s: InputStream)
    ensures s.kind == Subtitle ==> ValidCodec(s)
    ensures s.kind == Video ==> (ValidCodec(s) <==> s.width != 0 && s.height != 0)
    ensures s.kind == Audio ==> (ValidCodec(s) <==> s.channels != 0)
    ensures s.kind in {Data, Attachment, UnknownType} ==> !ValidCodec(s)
  {
  }

  /** Strictly better audio: more channels, or as many channels and more frames. */
  predicate Beats(c1: int, f1: int, c2: int, f2: int)
  {
    c1 > c2 || (c1 == c2 && f1 > f2)
  }

  /** The state of findBestAudioStream's scan. */
  datatype Scan = Scan(preferred: int, maxChannels: int, maxFrames: int, hasAudio: bool)

  /** The scan after the first n streams. */
  function AudioScan(streams: seq<InputStream>, n: nat): Scan
    requires n <= |streams|
  {
    if n == 0 then Scan(NO_STREAM_IDX, 0, 0, false)
    else
      var prev := AudioScan(streams, n - 1);
      var s := streams[n - 1];
      if s.kind != Audio then prev
      else if Beats(s.channels, s.frames, prev.maxChannels, prev.maxFrames) then Scan(n - 1, s.channels, s.frames, true)
      else prev.(hasAudio := true)
  }

  /** findBestAudioStream's answer: the scan's choice, or FFmpeg's when there is audio but none was chosen. */
  function BestAudio(streams: seq<InputStream>, fallback: int): int
  {
    var scan := AudioScan(streams, |streams|);
    if scan.hasAudio && scan.preferred == NO_STREAM_IDX then fallback else scan.preferred
  }

  /** What the scan keeps after n streams. */
  lemma {:induction false} ScanKeepsBest(streams: seq<InputStream>, n: nat)
    requires n <= |streams|
    ensures var scan := AudioScan(streams, n);
      && (scan.hasAudio <==> exists j :: 0 <= j < n && streams[j].kind == Audio)
      && (scan.preferred == NO_STREAM_IDX ==>
            scan.maxChannels == 0 && scan.maxFrames == 0
            && forall j :: 0 <= j < n && streams[j].kind == Audio ==> !Beats(streams[j].channels, streams[j].frames, 0, 0))
      && (scan.preferred != NO_STREAM_IDX ==>
            0 <= scan.preferred < n && streams[scan.preferred].kind == Audio
            && scan.maxChannels == streams[scan.preferred].channels && scan.maxFrames == streams[scan.preferred].frames
            && Beats(scan.maxChannels, scan.maxFrames, 0, 0)
            && forall j :: 0 <= j < scan.preferred && streams[j].kind == Audio ==>
                 Beats(scan.maxChannels, scan.maxFrames, streams[j].channels, streams[j].frames))
      && forall j :: 0 <= j < n && streams[j].kind == Audio ==> !Beats(streams[j].channels, streams[j].frames, scan.maxChannels, scan.maxFrames)
  {
    if n > 0 {
      ScanKeepsBest(streams, n - 1);
    }
  }

  /**
   * What findBestAudioStream chooses: -1 when there is no audio; otherwise
   * the earliest audio stream with the best (channels, frames), provided it
   * beats (0, 0); FFmpeg's own choice when no audio stream does.
   */
  lemma BestAudioChoice(streams: seq<InputStream>, fallback: int)
    ensures (forall j :: 0 <= j < |streams| ==> streams[j].kind != Audio) ==> BestAudio(streams, fallback) == NO_STREAM_IDX
    ensures var p := BestAudio(streams, fallback);
            (exists j :: 0 <= j < |streams| && streams[j].kind == Audio && Beats(streams[j].channels, streams[j].frames, 0, 0)) ==>
              0 <= p < |streams| && streams[p].kind == Audio
              && Beats(streams[p].channels, streams[p].frames, 0, 0)
              && (forall j :: 0 <= j < |streams| && streams[j].kind == Audio ==>
                    !Beats(streams[j].channels, streams[j].frames, streams[p].channels, streams[p].frames))
              && (forall j :: 0 <= j < p && streams[j].kind == Audio ==>
                    Beats(streams[p].channels, streams[p].frames, streams[j].channels, streams[j].frames))
    ensures (exists j :: 0 <= j < |streams| && streams[j].kind == Audio)
            && (forall j :: 0 <= j < |streams| && streams[j].kind == Audio ==> !Beats(streams[j].channels, streams[j].frames, 0, 0))
            ==> BestAudio(streams, fallback) == fallback
  {
    ScanKeepsBest(streams, |streams|);
  }

  /** findBestAudioStream's loop over the input streams. */
  method FindBestAudioStream(streams: seq<InputStream>, fallback: int) returns (preferred: int)
    ensures preferred == BestAudio(streams, fallback)
  {
    preferred := NO_STREAM_IDX;
    var maxChannels := 0;
    var maxFrames := 0;
    var hasAudio := false;
    for i := 0 to |streams|
      invariant Scan(preferred, maxChannels, maxFrames, hasAudio) == AudioScan(streams, i)
    {
      var s := streams[i];
      if s.kind == Audio {
        hasAudio := true;
        if s.channels > maxChannels || (s.channels == maxChannels && s.frames > maxFrames) {
          maxChannels := s.channels;
          maxFrames := s.frames;
          preferred := i;
        }
      }
    }
    if hasAudio && preferred == NO_STREAM_IDX {
      preferred := fallback;
    }
  }

  /** What one opened attempt decides: try again, read outside the streams, or keep these two. */
  datatype Verdict = Again(why: Retry) | OutsideStreams(index: int) | Chosen(video: int, audio: int)

  /**
   * The stream checks of one attempt: FFmpeg's video stream, unless it
   * found none, must have a valid codec; then the best audio stream must
   * be found and have a valid codec. An index that names no stream is read
   * all the same.
   */
  function Examine(streams: seq<InputStream>, videoPick: int, audioFallback: int): (v: Verdict)
    ensures v.Chosen? ==> v.video == videoPick && v.audio == BestAudio(streams, audioFallback)
    ensures v.Chosen? ==> 0 <= v.audio < |streams| && ValidCodec(streams[v.audio])
    ensures v.Chosen? ==> videoPick == AVERROR_STREAM_NOT_FOUND || (0 <= videoPick < |streams| && ValidCodec(streams[videoPick]))
    ensures v == Again(NoVideo) <==> 0 <= videoPick < |streams| && !ValidCodec(streams[videoPick])
    ensures v != Again(StreamInfo)
    ensures v.OutsideStreams? ==> v.index != AVERROR_STREAM_NOT_FOUND && !(0 <= v.index < |streams|)
    ensures v.OutsideStreams? ==> v.index == videoPick || v.index == BestAudio(streams, audioFallback)
  {
    if videoPick != AVERROR_STREAM_NOT_FOUND && !(0 <= videoPick < |streams|) then OutsideStreams(videoPick)
    else if videoPick != AVERROR_STREAM_NOT_FOUND && !ValidCodec(streams[videoPick]) then Again(NoVideo)
    else
      var audio := BestAudio(streams, audioFallback);
      if audio == AVERROR_STREAM_NOT_FOUND then Again(NoAudio)
      else if !(0 <= audio < |streams|) then OutsideStreams(audio)
      else if !ValidCodec(streams[audio]) then Again(NoAudio)
      else Chosen(videoPick, audio)
  }

  /** Streams without audio: the audio index is -1, which names no stream. */
  lemma NoAudioReadsOutside(streams: seq<InputStream>, videoPick: int, audioFallback: int)
    requires forall j :: 0 <= j < |streams| ==> streams[j].kind != Audio
    requires videoPick == AVERROR_STREAM_NOT_FOUND || (0 <= videoPick < |streams| && ValidCodec(streams[videoPick]))
    ensures Examine(streams, videoPick, audioFallback) == OutsideStreams(NO_STREAM_IDX)
  {
    BestAudioChoice(streams, audioFallback);
  }

  /** Lines 818-857 of initRemuxer for one opened attempt. */
  method ChooseStreams(streams: seq<InputStream>, preferredVideo: int, fallback: int) returns (v: Verdict)
    ensures v == Examine(streams, preferredVideo, fallback)
  {
    if preferredVideo != AVERROR_STREAM_NOT_FOUND {
      if !(0 <= preferredVideo < |streams|) {
        return OutsideStreams(preferredVideo);
      }
      if !ValidCodec(streams[preferredVideo]) {
        return Again(NoVideo);
      }
    }
    var preferredAudio := FindBestAudioStream(streams, fallback);
    var audioValid := false;
    if preferredAudio != AVERROR_STREAM_NOT_FOUND {
      if !(0 <= preferredAudio < |streams|) {
        return OutsideStreams(preferredAudio);
      }
      audioValid := ValidCodec(streams[preferredAudio]);
    }
    if !audioValid {
      return Again(NoAudio);
    }
    return Chosen(preferredVideo, preferredAudio);
  }

  // ---------------------------------------------------------------- stream map

  /**
   * What adding a stream to the output does: it is added; it cannot be
   * allocated; or it is allocated but its codec context cannot be copied,
   * in which case the output still gains the stream but no id is returned.
   */
  datatype AddResult = Added | NotAllocated | CopyFailed

  predicate ConsumesSlot(a: AddResult)
  {
    a != NotAllocated
  }

  /** Mapped ids are distinct and below the number of output streams; unmapped entries are -1. */
  predicate WellFormedMap(m: seq<int>, outputs: int)
  {
    (forall i :: 0 <= i < |m| ==> m[i] == -1 || 0 <= m[i] < outputs)
    && (forall i, j :: 0 <= i < j < |m| && m[i] != -1 ==> m[i] != m[j])
  }

  /**
   * The stream map: the chosen video stream first (output 0), the chosen
   * audio stream next (output 1), then every other valid stream in index
   * order under the id of the output stream it was added as. An accepted
   * probe without a video stream (`video` is AVERROR_STREAM_NOT_FOUND) has
   * no video codec context to add, and the setup fails. The audio stream is
   * FFmpeg's or the scan's choice of an audio stream, so it is not the
   * video stream.
   */
  method BuildStreamMap(streams: seq<InputStream>, video: int, audio: nat, adds: seq<AddResult>)
    returns (ok: bool, streamMap: array<int>, outputs: int)
    requires audio < |streams| && |adds| == |streams|
    requires video == AVERROR_STREAM_NOT_FOUND || (0 <= video < |streams| && video != audio)
    ensures ok <==> video != AVERROR_STREAM_NOT_FOUND && adds[video] == Added && adds[audio] == Added
    ensures ok ==> streamMap.Length == |streams| && streamMap[video] == 0 && streamMap[audio] == 1
    ensures ok ==> WellFormedMap(streamMap[..], outputs) && outputs <= |streams|
    ensures ok ==> forall i :: 0 <= i < |streams| && i != video && i != audio ==>
                      (streamMap[i] != -1 <==> ValidCodec(streams[i]) && adds[i] == Added)
  {
    streamMap := new int[|streams|](_ => -1);
    outputs := 0;
    if video == AVERROR_STREAM_NOT_FOUND || adds[video] != Added || adds[audio] != Added {
      return false, streamMap, outputs;
    }
    ok := true;
    streamMap[video] := 0;
    streamMap[audio] := 1;
    outputs := 2;
    ghost var owner: seq<int> := [video, audio];
    for idx := 0 to |streams|
      invariant 2 <= outputs <= 2 + idx - (if video < idx then 1 else 0) - (if audio < idx then 1 else 0)
      invariant |owner| == outputs
      invariant streamMap[video] == 0 && streamMap[audio] == 1
      invariant forall i :: 0 <= i < |streams| && streamMap[i] != -1 ==> 0 <= streamMap[i] < outputs && owner[streamMap[i]] == i
      invariant forall i :: idx <= i < |streams| && i != video && i != audio ==> streamMap[i] == -1
      invariant forall i :: 0 <= i < idx && i != video && i != audio ==>
                  (streamMap[i] != -1 <==> ValidCodec(streams[i]) && adds[i] == Added)
    {
      if streamMap[idx] != -1 {
        continue;
      }
      if ValidCodec(streams[idx]) {
        if ConsumesSlot(adds[idx]) {
          outputs := outputs + 1;
          if adds[idx] == Added {
            streamMap[idx] := outputs - 1;
            owner := owner + [idx];
          } else {
            owner := owner + [-1];
          }
        }
      }
    }
    OwnedIsWellFormed(streamMap[..], owner);
  }

  /** A map whose every mapped id names its own stream in owner is well formed. */
  lemma OwnedIsWellFormed(m: seq<int>, owner: seq<int>)
    requires forall i :: 0 <= i < |m| && m[i] != -1 ==> 0 <= m[i] < |owner| && owner[m[i]] == i
    ensures WellFormedMap(m, |owner|)
  {
    forall i, j | 0 <= i < j < |m| && m[i] != -1
      ensures m[i] != m[j]
    {
      assert owner[m[i]] == i;
    }
  }

  // ---------------------------------------------------------------- packet filter

  datatype Packet = Packet(streamIndex: nat, dts: int)

  /** Every entry is -1 or an output id that indexes a table as long as the map. */
  predicate MapInRange(m: seq<int>)
  {
    forall i :: 0 <= i < |m| ==> -1 <= m[i] < |m|
  }

  /**
   * The packets written, as (output stream, dts): unmapped packets are
   * dropped, and a mapped packet is written only when its dts differs from
   * the last one seen on its output stream; the last dts is updated either way.
   */
  function Filter(streamMap: seq<int>, lastDts: seq<int>, packets: seq<Packet>): (r: seq<(int, int)>)
    requires |lastDts| == |streamMap| && MapInRange(streamMap)
    ensures |r| <= |packets|
    decreases |packets|
  {
    if packets == [] then []
    else
      var p := packets[0];
      if p.streamIndex < |streamMap| && streamMap[p.streamIndex] != -1 then
        var out := streamMap[p.streamIndex];
        var changed := p.dts != lastDts[out];
        var rest := Filter(streamMap, lastDts[out := p.dts], packets[1..]);
        if changed then [(out, p.dts)] + rest else rest
      else Filter(streamMap, lastDts, packets[1..])
  }

  /**
   * Replaying the written packets against the last dts of each output
   * stream, every one of them changes it: no two packets written in turn on
   * one output stream share a dts, and the first differs from the initial table.
   */
  predicate DtsAlwaysChanges(written: seq<(int, int)>, last: seq<int>)
    decreases |written|
  {
    written == []
    || (0 <= written[0].0 < |last| && written[0].1 != last[written[0].0]
        && DtsAlwaysChanges(written[1..], last[written[0].0 := written[0].1]))
  }

  lemma {:induction false} FilterNeverRepeatsDts(streamMap: seq<int>, lastDts: seq<int>, packets: seq<Packet>)
    requires |lastDts| == |streamMap| && MapInRange(streamMap)
    ensures DtsAlwaysChanges(Filter(streamMap, lastDts, packets), lastDts)
    decreases |packets|
  {
    if packets != [] {
      var p := packets[0];
      if p.streamIndex < |streamMap| && streamMap[p.streamIndex] != -1 {
        var out := streamMap[p.streamIndex];
        var last' := lastDts[out := p.dts];
        FilterNeverRepeatsDts(streamMap, last', packets[1..]);
        var w := Filter(streamMap, lastDts, packets);
        var rest := Filter(streamMap, last', packets[1..]);
        if p.dts != lastDts[out] {
          assert w == [(out, p.dts)] + rest;
          assert w[1..] == rest;
        } else {
          assert last' == lastDts;
        }
      } else {
        FilterNeverRepeatsDts(streamMap, lastDts, packets[1..]);
      }
    }
  }

  /** A packet whose stream is unmapped never reaches the muxer, whatever follows. */
  lemma UnmappedPacketDropped(streamMap: seq<int>, lastDts: seq<int>, p: Packet, rest: seq<Packet>)
    requires |lastDts| == |streamMap| && MapInRange(streamMap)
    requires p.streamIndex >= |streamMap| || streamMap[p.streamIndex] == -1
    ensures Filter(streamMap, lastDts, [p] + rest) == Filter(streamMap, lastDts, rest)
  {
    assert ([p] + rest)[1..] == rest;
  }

  /** The last dts starts at -1, so a first packet with dts -1 on its stream is dropped. */
  lemma FirstDtsMinusOneDropped(streamMap: seq<int>, p: Packet)
    requires MapInRange(streamMap)
    requires p.streamIndex < |streamMap| && streamMap[p.streamIndex] != -1 && p.dts == -1
    ensures Filter(streamMap, seq(|streamMap|, _ => -1), [p]) == []
  {
  }

  /** remuxRtpPackets: the per-packet loop over lastDtsByStreamIndex. */
  method RemuxPackets(streamMap: array<int>, packets: seq<Packet>) returns (written: seq<(int, int)>)
    requires MapInRange(streamMap[..])
    ensures written == Filter(streamMap[..], seq(streamMap.Length, _ => -1), packets)
  {
    var lastDts := new int[streamMap.Length](_ => -1);
    written := [];
    assert lastDts[..] == seq(streamMap.Length, _ => -1);
    var i := 0;
    while i < |packets|
      invariant 0 <= i <= |packets|
      invariant written + Filter(streamMap[..], lastDts[..], packets[i..])
             == Filter(streamMap[..], seq(streamMap.Length, _ => -1), packets)
    {
      var p := packets[i];
      assert packets[i..][0] == p && packets[i..][1..] == packets[i + 1..];
      if p.streamIndex < streamMap.Length && streamMap[p.streamIndex] != -1 {
        var out := streamMap[p.streamIndex];
        var changed := p.dts != lastDts[out];
        lastDts[out] := p.dts;
        if changed {
          written := written + [(out, p.dts)];
        }
      }
      i := i + 1;
    }
  }
}
