/**
 * The FFmpeg consumer's output side: the staging buffer the muxer writes
 * into, flushed to an upload session, to a recording file or to nothing,
 * the ring-file position rule, and the protocol that moves the stream to a
 * new destination part-way through a buffer.
 *
 * The upload session (NIOSageTVUploadID) is not part of this model: what is
 * handed to it is logged with the upload id in use and whether it was sent
 * as a ring-buffered upload, and whether the server accepts a switch is a
 * parameter. A recording file is its bytes and its position; a write
 * stores every byte it is given. The thread's interrupt flag is a parameter.
 */
module FFmpegWriter {
  import opened JavaText
  import FFmpegRemux

  /** The switch index set by a pass that is at least the read/write buffer: one transport packet (ISO/IEC 13818-1 section 2.4.3.2) past -1. */
  const FIRST_PACKET_END := 187
  /** What switchBytesPassed is set to on every write with no switch pending: five transport packets. */
  const PASSED_IDLE := 940

  // ---------------------------------------------------------------- files

  /** An open recording file: its contents and the channel position. */
  datatype Sink = Sink(data: seq<byte>, pos: nat)

  predicate SinkOk(f: Sink)
  {
    f.pos <= |f.data|
  }

  /** Writing at the position overwrites what is there and extends the file past its end. */
  function WriteAt(f: Sink, bytes: seq<byte>): (r: Sink)
    requires SinkOk(f)
    ensures SinkOk(r) && r.pos == f.pos + |bytes|
    ensures r.data[..f.pos] == f.data[..f.pos] && r.data[f.pos..r.pos] == bytes
    ensures r.pos < |f.data| ==> |r.data| == |f.data| && r.data[r.pos..] == f.data[r.pos..]
    ensures r.pos >= |f.data| ==> |r.data| == r.pos
  {
    var tail := if f.pos + |bytes| < |f.data| then f.data[f.pos + |bytes|..] else [];
    Sink(f.data[..f.pos] + bytes + tail, f.pos + |bytes|)
  }

  /**
   * One pass of the file write loop: the bytes are written; when a ring size
   * is set and the position recorded after the previous write is past it,
   * the file position returns to 0; the position is then recorded.
   */
  function RecordWrite(f: Sink, recorded: int, ringSize: int, bytes: seq<byte>): (r: (Sink, int))
    requires SinkOk(f)
    ensures SinkOk(r.0) && r.1 == (if bytes == [] then recorded else r.0.pos)
    ensures bytes == [] ==> r.0 == f
    ensures bytes != [] ==> (r.0.pos == 0 <==> ringSize > 0 && recorded > ringSize)
    ensures bytes != [] ==> r.0.data == WriteAt(f, bytes).data
  {
    if bytes == [] then (f, recorded)
    else
      var g := WriteAt(f, bytes);
      var h := if ringSize > 0 && recorded > ringSize then g.(pos := 0) else g;
      (h, h.pos)
  }

  /** Without a ring size the file only grows: each write lands after what was written before. */
  lemma NoRingAppends(f: Sink, recorded: int, bytes: seq<byte>)
    requires SinkOk(f) && f.pos == |f.data|
    ensures RecordWrite(f, recorded, 0, bytes).0 == Sink(f.data + bytes, |f.data| + |bytes|)
  {
  }

  /**
   * With a ring size, a file whose recorded position is its channel position
   * stays within the ring size plus two writes: one write may pass the
   * ring size, and the next returns to the start.
   */
  predicate RingBounded(f: Sink, recorded: int, ringSize: int, maxWrite: nat)
  {
    SinkOk(f) && recorded == f.pos && f.pos <= ringSize + maxWrite && |f.data| <= ringSize + 2 * maxWrite
  }

  lemma RingStaysBounded(f: Sink, recorded: int, ringSize: int, maxWrite: nat, bytes: seq<byte>)
    requires ringSize > 0 && RingBounded(f, recorded, ringSize, maxWrite) && |bytes| <= maxWrite
    ensures var (g, rec) := RecordWrite(f, recorded, ringSize, bytes);
            RingBounded(g, rec, ringSize, maxWrite)
  {
    if bytes != [] {
      var g := WriteAt(f, bytes);
      assert |g.data| <= |f.data| || |g.data| == g.pos;
    }
  }

  // ---------------------------------------------------------------- the switch index

  datatype SwitchPoint = SwitchPoint(index: int, nextWrite: bool, passed: int)

  /**
   * Where a pending switch splits the staged bytes, after a write of
   * `length` bytes that left `position` bytes staged: once more than a
   * read/write buffer has passed since the request, at the end of the
   * staged bytes; -1 (not yet) otherwise, save for the two branches that
   * a pass count starting at 940 never reaches.
   */
  function Decide(switchFile: bool, nextWrite: bool, passed: int, length: int, position: int, rw: int): (r: SwitchPoint)
    ensures !switchFile ==> r == SwitchPoint(-1, nextWrite, PASSED_IDLE)
    ensures switchFile ==> r.passed == passed + length
    ensures switchFile && passed + length > rw ==> r.index == position && r.nextWrite == nextWrite
    ensures r.index == -1 || r.index == position || r.index == FIRST_PACKET_END
  {
    if !switchFile then SwitchPoint(-1, nextWrite, PASSED_IDLE)
    else
      var p := passed + length;
      if p > rw then SwitchPoint(position, nextWrite, p)
      else if length >= rw then SwitchPoint(-1 + 188, true, p)
      else if nextWrite && p <= length then SwitchPoint(position, false, p)
      else SwitchPoint(-1, nextWrite, p)
  }

  /**
   * Once a write has been made with no switch pending the pass count is 940,
   * and from there the two middle branches are dead: the switch index is
   * -1 or the end of the staged bytes, and the next-write flag stays clear.
   */
  lemma MiddleBranchesUnreachable(passed: int, length: nat, position: int, rw: int)
    requires passed >= PASSED_IDLE
    ensures var r := Decide(true, false, passed, length, position, rw);
            (r.index == -1 || r.index == position) && !r.nextWrite && r.passed >= PASSED_IDLE
  {
  }

  /** Before any idle write the pass count is 0, and a single full-buffer write reaches the 187 branch. */
  lemma FullBufferFromZeroSplitsAtFirstPacket(rw: int, position: int)
    requires rw > 0
    ensures Decide(true, false, 0, rw, position, rw) == SwitchPoint(FIRST_PACKET_END, true, rw)
  {
  }

  /**
   * With the read/write buffer at its floor the switch index never passes
   * the staged bytes: the 187 branch needs a write of a whole buffer, and
   * that write is already staged. So a switch always cuts inside them.
   */
  lemma SwitchCutsInsideStaged(switchFile: bool, nextWrite: bool, passed: int, st: seq<byte>, length: nat, rw: int)
    requires rw >= FFmpegRemux.RW_BUFFER_FLOOR && length <= |st|
    ensures var r := Decide(switchFile, nextWrite, passed, length, |st|, rw);
            r.index == -1 || 0 <= r.index <= |st|
    ensures var r := Decide(switchFile, nextWrite, passed, length, |st|, rw);
            r.index > 0 ==> OldPart(st, r.index) == st[..r.index - 1] && NewStart(st, r.index) == r.index
  {
  }

  // ---------------------------------------------------------------- writer state

  datatype Mode = UploadMode | FileMode | NullMode

  /** A block handed to the upload session: the upload id in use, the bytes, and whether a ring size was set. */
  datatype Upload = Upload(uploadID: int, bytes: seq<byte>, ring: bool)

  datatype Writer = Writer(
    mode: Mode,
    staged: seq<byte>,
    switchFile: bool,
    switchNextWrite: bool,
    switchBytesPassed: int,
    bytesStreamed: int,
    ringSize: int,
    recordedPos: int,
    file: Option<Sink>,
    switchTarget: Option<Sink>,
    retired: seq<Sink>,
    currentName: Option<string>,
    switchName: Option<string>,
    currentUploadID: int,
    switchUploadID: int,
    uploads: seq<Upload>)

  /**
   * Between writes: staged bytes stay below the upload threshold (so a
   * write always fits the buffer of a read/write buffer plus the
   * threshold). Staged bytes left by an upload run stay staged when the next
   * run streams to a file or to nothing.
   */
  predicate Ready(w: Writer, minUpload: int)
  {
    |w.staged| < minUpload
    && (w.mode == FileMode ==> w.file.Some? && SinkOk(w.file.value))
    && (w.switchTarget.Some? ==> SinkOk(w.switchTarget.value))
  }

  /**
   * The bytes a switch leaves with the old destination, and where the new
   * one starts. An index past the staged bytes would give no split, but a
   * write never produces one (SwitchCutsInsideStaged).
   */
  function OldPart(staged: seq<byte>, index: int): seq<byte>
  {
    if 0 < index <= |staged| then staged[..index - 1] else []
  }

  function NewStart(staged: seq<byte>, index: int): nat
  {
    if 0 < index <= |staged| then index else 0
  }

  /** Upload mode at a switch: the old part goes to the current upload id and is counted, and the request is cleared. */
  function SendOldPart(w: Writer, head: seq<byte>, sendHead: bool): (r: Writer)
    ensures r.staged == w.staged && r.mode == w.mode && r.file == w.file && r.ringSize == w.ringSize && !r.switchFile
    ensures r.switchName == w.switchName && r.switchUploadID == w.switchUploadID
    ensures r.bytesStreamed == w.bytesStreamed + |head|
  {
    var u := if sendHead then w.uploads + [Upload(w.currentUploadID, head, w.ringSize > 0)] else w.uploads;
    w.(uploads := u, bytesStreamed := w.bytesStreamed + |head|, switchFile := false)
  }

  /** An accepted switch adopts the requested name and upload id and restarts the count; a refused one changes nothing. */
  function AdoptSwitch(w: Writer, accepted: bool): (r: Writer)
    ensures r.staged == w.staged && r.mode == w.mode && r.file == w.file && r.ringSize == w.ringSize
    ensures r.switchFile == w.switchFile && r.uploads == w.uploads
    ensures accepted ==> r.currentName == w.switchName && r.currentUploadID == w.switchUploadID && r.bytesStreamed == 0
    ensures !accepted ==> r == w
  {
    if accepted then w.(currentName := w.switchName, currentUploadID := w.switchUploadID, bytesStreamed := 0) else w
  }

  /** Upload mode at a switch: the old part goes to the current upload id, then the new id may be adopted. */
  function SwitchUpload(w: Writer, head: seq<byte>, sendHead: bool, accepted: bool): (r: Writer)
    ensures r.staged == w.staged && r.mode == w.mode && r.file == w.file && r.ringSize == w.ringSize && !r.switchFile
  {
    AdoptSwitch(SendOldPart(w, head, sendHead), accepted)
  }

  /** Upload mode: the remaining bytes go to the current upload id and are counted. */
  function SendRest(w: Writer, rest: seq<byte>): (r: Writer)
    ensures r.staged == [] && r.mode == w.mode && r.file == w.file && r.ringSize == w.ringSize
  {
    w.(uploads := w.uploads + [Upload(w.currentUploadID, rest, w.ringSize > 0)],
       bytesStreamed := w.bytesStreamed + |rest|, staged := [])
  }

  /**
   * Upload mode once the threshold is reached. An interrupted transfer
   * drops the staged bytes; otherwise a due switch splits them first.
   */
  function FlushUpload(w: Writer, st: seq<byte>, index: int, accepted: bool, interrupted: bool): (r: Writer)
    ensures r.staged == [] && r.mode == w.mode && r.file == w.file && r.ringSize == w.ringSize
  {
    if interrupted then w.(staged := [])
    else
      var switching := w.switchFile && index > -1;
      var w1 := if switching then SwitchUpload(w, OldPart(st, index), 0 < index, accepted) else w;
      SendRest(w1, st[(if switching then NewStart(st, index) else 0)..])
  }

  /** File mode at a switch: the old part finishes the old file, unless the transfer was interrupted. */
  function FinishOld(w: Writer, head: seq<byte>, interrupted: bool): (r: Writer)
    requires w.file.Some? && SinkOk(w.file.value)
    ensures r.staged == w.staged && r.mode == w.mode && r.uploads == w.uploads && r.ringSize == w.ringSize && !r.switchFile
    ensures r.file.Some? && SinkOk(r.file.value) && r.switchTarget == w.switchTarget
  {
    var (f, rec) := if interrupted then (w.file.value, w.recordedPos) else RecordWrite(w.file.value, w.recordedPos, w.ringSize, head);
    w.(file := Some(f), recordedPos := rec,
       bytesStreamed := w.bytesStreamed + (if interrupted then 0 else |head|), switchFile := false)
  }

  /** File mode at a switch: when a new file waits, the old one is retired and the new one becomes current. */
  function Retire(w: Writer): (r: Writer)
    requires w.file.Some? && SinkOk(w.file.value) && (w.switchTarget.Some? ==> SinkOk(w.switchTarget.value))
    ensures r.staged == w.staged && r.mode == w.mode && r.uploads == w.uploads && r.ringSize == w.ringSize && r.switchFile == w.switchFile
    ensures r.file.Some? && SinkOk(r.file.value) && (r.switchTarget.Some? ==> SinkOk(r.switchTarget.value))
  {
    match w.switchTarget
    case None => w
    case Some(t) =>
      w.(retired := w.retired + [w.file.value], file := Some(t), currentName := w.switchName, switchTarget := None, bytesStreamed := 0)
  }

  /** File mode: the remaining bytes are written to the current file and counted. */
  function WriteRest(w: Writer, rest: seq<byte>): (r: Writer)
    requires w.file.Some? && SinkOk(w.file.value)
    ensures r.staged == [] && r.mode == w.mode && r.uploads == w.uploads && r.ringSize == w.ringSize
    ensures r.file.Some? && SinkOk(r.file.value) && r.switchTarget == w.switchTarget
  {
    var (f2, rec2) := RecordWrite(w.file.value, w.recordedPos, w.ringSize, rest);
    w.(file := Some(f2), recordedPos := rec2, bytesStreamed := w.bytesStreamed + |rest|, staged := [])
  }

  /** File mode: the staged bytes are written on every call. */
  function FlushFile(w: Writer, st: seq<byte>, index: int, interrupted: bool): (r: Writer)
    requires w.file.Some? && SinkOk(w.file.value) && (w.switchTarget.Some? ==> SinkOk(w.switchTarget.value))
    ensures r.staged == [] && r.mode == w.mode && r.uploads == w.uploads && r.ringSize == w.ringSize
    ensures r.file.Some? && SinkOk(r.file.value) && (r.switchTarget.Some? ==> SinkOk(r.switchTarget.value))
  {
    var switching := w.switchFile && index > -1;
    var w1 := if switching then Retire(FinishOld(w, OldPart(st, index), interrupted)) else w;
    WriteRest(w1, st[(if switching then NewStart(st, index) else 0)..])
  }

  /**
   * writeBuffer: stage the bytes, move the switch bookkeeping, then flush
   * according to the mode. It always reports the whole length written.
   */
  function Write(w: Writer, bytes: seq<byte>, rw: int, minUpload: int, accepted: bool, interrupted: bool): (r: Writer)
    requires Ready(w, minUpload) && rw >= FFmpegRemux.RW_BUFFER_FLOOR && |bytes| <= rw
    ensures Ready(r, minUpload) && r.mode == w.mode
  {
    var st := w.staged + bytes;
    var sp := Decide(w.switchFile, w.switchNextWrite, w.switchBytesPassed, |bytes|, |st|, rw);
    var w0 := w.(switchNextWrite := sp.nextWrite, switchBytesPassed := sp.passed);
    match w.mode
    case UploadMode =>
      if |st| < minUpload then w0.(staged := st)
      else FlushUpload(w0, st, sp.index, accepted, interrupted)
    case FileMode => FlushFile(w0, st, sp.index, interrupted)
    case NullMode => w0.(bytesStreamed := w.bytesStreamed + |st|, staged := [])
  }

  // ---------------------------------------------------------------- properties of a write

  /** In upload mode nothing is handed over while fewer than minUploadIDTransfer bytes are staged. */
  lemma UploadWaitsForThreshold(w: Writer, bytes: seq<byte>, rw: int, minUpload: int, accepted: bool, interrupted: bool)
    requires Ready(w, minUpload) && rw >= FFmpegRemux.RW_BUFFER_FLOOR && |bytes| <= rw && w.mode == UploadMode
    requires |w.staged| + |bytes| < minUpload
    ensures var r := Write(w, bytes, rw, minUpload, accepted, interrupted);
            r.staged == w.staged + bytes && r.uploads == w.uploads && r.bytesStreamed == w.bytesStreamed
  {
  }

  /** Without a switch, reaching the threshold hands every staged byte over in one block and counts it. */
  lemma UploadSendsEverything(w: Writer, bytes: seq<byte>, rw: int, minUpload: int, accepted: bool)
    requires Ready(w, minUpload) && rw >= FFmpegRemux.RW_BUFFER_FLOOR && |bytes| <= rw && w.mode == UploadMode && !w.switchFile
    requires |w.staged| + |bytes| >= minUpload
    ensures var r := Write(w, bytes, rw, minUpload, accepted, false);
            r.staged == [] && r.uploads == w.uploads + [Upload(w.currentUploadID, w.staged + bytes, w.ringSize > 0)]
            && r.bytesStreamed == w.bytesStreamed + |w.staged| + |bytes|
  {
    var st := w.staged + bytes;
    assert st[0..] == st;
  }

  /**
   * File mode writes on every call: the staged bytes, then the new ones,
   * land at the file position and the staging is emptied. Bytes an upload
   * run left staged are written at the head of the new file.
   */
  lemma FileWritesEveryCall(w: Writer, bytes: seq<byte>, rw: int, minUpload: int, accepted: bool, interrupted: bool)
    requires Ready(w, minUpload) && rw >= FFmpegRemux.RW_BUFFER_FLOOR && |bytes| <= rw && w.mode == FileMode && !w.switchFile
    ensures var r := Write(w, bytes, rw, minUpload, accepted, interrupted);
            var (f, rec) := RecordWrite(w.file.value, w.recordedPos, w.ringSize, w.staged + bytes);
            r.staged == [] && r.file == Some(f) && r.recordedPos == rec
            && r.bytesStreamed == w.bytesStreamed + |w.staged| + |bytes| && r.retired == w.retired
  {
    var st := w.staged + bytes;
    assert st[0..] == st;
  }

  /** A fresh file after an upload run begins with the bytes that run left staged. */
  lemma StaleStagingOpensNextFile(w: Writer, bytes: seq<byte>, rw: int, minUpload: int, accepted: bool, interrupted: bool)
    requires Ready(w, minUpload) && rw >= FFmpegRemux.RW_BUFFER_FLOOR && |bytes| <= rw && w.mode == FileMode && !w.switchFile
    requires w.file == Some(Sink([], 0))
    ensures var r := Write(w, bytes, rw, minUpload, accepted, interrupted);
            r.file.Some? && r.file.value.data == w.staged + bytes
  {
    FileWritesEveryCall(w, bytes, rw, minUpload, accepted, interrupted);
    var st := w.staged + bytes;
    assert Sink([], 0).data[..0] + st == st;
  }

  /** The null sink only counts, stale staged bytes included. */
  lemma NullOnlyCounts(w: Writer, bytes: seq<byte>, rw: int, minUpload: int, accepted: bool, interrupted: bool)
    requires Ready(w, minUpload) && rw >= FFmpegRemux.RW_BUFFER_FLOOR && |bytes| <= rw && w.mode == NullMode
    ensures var r := Write(w, bytes, rw, minUpload, accepted, interrupted);
            r.staged == [] && r.bytesStreamed == w.bytesStreamed + |w.staged| + |bytes| && r.file == w.file
            && r.uploads == w.uploads && r.switchFile == w.switchFile
  {
  }

  /**
   * An upload switch made at the end of the staged bytes: the old upload id
   * is given every staged byte but the last, the new one is given nothing,
   * and the last staged byte reaches neither. An accepted switch adopts the
   * new name and id and restarts the count; a refused one keeps both.
   */
  lemma UploadSwitchDropsLastByte(w: Writer, bytes: seq<byte>, rw: int, minUpload: int, accepted: bool)
    requires Ready(w, minUpload) && rw >= FFmpegRemux.RW_BUFFER_FLOOR && |bytes| <= rw && w.mode == UploadMode && w.switchFile
    requires |w.staged| + |bytes| >= minUpload && minUpload > 0 && w.switchBytesPassed + |bytes| > rw
    ensures var st := w.staged + bytes;
            var r := Write(w, bytes, rw, minUpload, accepted, false);
            r.uploads == w.uploads + [Upload(w.currentUploadID, st[..|st| - 1], w.ringSize > 0),
                                      Upload(r.currentUploadID, [], w.ringSize > 0)]
            && !r.switchFile && r.staged == []
            && (accepted ==> r.currentName == w.switchName && r.currentUploadID == w.switchUploadID && r.bytesStreamed == 0)
            && (!accepted ==> r.currentName == w.currentName && r.currentUploadID == w.currentUploadID
                              && r.bytesStreamed == w.bytesStreamed + |st| - 1)
  {
    var st := w.staged + bytes;
    assert st[|st|..] == [];
  }

  /**
   * A file switch made at the end of the staged bytes: the old file gets
   * every staged byte but the last and is retired, the new file becomes
   * current under the new name with nothing written yet, and the count restarts.
   */
  lemma FileSwitchDropsLastByte(w: Writer, bytes: seq<byte>, rw: int, minUpload: int, accepted: bool)
    requires Ready(w, minUpload) && rw >= FFmpegRemux.RW_BUFFER_FLOOR && |bytes| <= rw && w.mode == FileMode && w.switchFile
    requires w.switchTarget.Some? && |bytes| > 0 && w.switchBytesPassed + |bytes| > rw
    ensures var st := w.staged + bytes;
            var r := Write(w, bytes, rw, minUpload, accepted, false);
            var (oldFile, _) := RecordWrite(w.file.value, w.recordedPos, w.ringSize, st[..|st| - 1]);
            r.retired == w.retired + [oldFile] && r.file == w.switchTarget && r.currentName == w.switchName
            && r.switchTarget.None? && !r.switchFile && r.bytesStreamed == 0 && r.staged == []
  {
    var st := w.staged + bytes;
    assert st[|st|..] == [];
  }

  // ---------------------------------------------------------------- the run

  /**
   * How the head of run ends: already running; no destination at all (the
   * run ends at once); streaming in a mode; or running in file mode with no
   * file, when the upload session and the fallback file both failed.
   */
  datatype StartOutcome = AlreadyRunning | NoDestination | Streaming(mode: Mode) | NoWritableFile

  /**
   * The head of run on a consumer that is not running, as (new state,
   * outcome). The switch flag is cleared and the upload mode dropped. An
   * upload id above 0 is tried first: the upload session, else a new file
   * under the current name; when neither works the name is forgotten and
   * the run goes on without a file. Otherwise a file opened before is used,
   * then the null sink; with none of these the run ends at once.
   */
  function BeginRun(w: Writer, toNull: bool, uploadStarted: bool, fileCreated: bool): (r: (Writer, StartOutcome))
    ensures r.1 != AlreadyRunning && !r.0.switchFile
    ensures r.0.staged == w.staged && r.0.ringSize == w.ringSize && r.0.recordedPos == w.recordedPos
    ensures r.0.switchNextWrite == w.switchNextWrite && r.0.switchBytesPassed == w.switchBytesPassed
    ensures r.0.switchTarget == w.switchTarget && r.0.switchName == w.switchName && r.0.switchUploadID == w.switchUploadID
    ensures r.0.currentUploadID == w.currentUploadID && r.0.uploads == w.uploads && r.0.retired == w.retired
    ensures r.1 == Streaming(UploadMode) <==> w.currentUploadID > 0 && uploadStarted
    ensures r.1 == NoDestination <==> w.currentUploadID <= 0 && w.file.None? && !toNull
    ensures r.1 == NoWritableFile <==> w.currentUploadID > 0 && !uploadStarted && !(w.currentName.Some? && fileCreated) && !toNull
    ensures r.1.Streaming? ==> r.0.mode == r.1.mode && (r.1.mode == FileMode ==> r.0.file.Some?)
    ensures r.1.Streaming? && r.1.mode != UploadMode ==> r.1.mode == (if toNull then NullMode else FileMode)
    ensures r.1 == NoWritableFile ==> r.0.mode == FileMode && r.0.file.None? && r.0.currentName.None?
    ensures w.currentUploadID > 0 && !uploadStarted && w.currentName.Some? && fileCreated ==>
              r.0.file == Some(Sink([], 0)) && r.0.currentName == w.currentName
    ensures w.currentUploadID <= 0 && r.1 != NoDestination ==> r.0.file == w.file && r.0.currentName == w.currentName
    ensures r.1 == NoDestination ==> r.0.file.None? && r.0.currentName.None? && r.0.bytesStreamed == 0
    ensures r.1 != NoDestination ==> r.0.bytesStreamed == w.bytesStreamed
  {
    var idle := if toNull then NullMode else FileMode;
    var w0 := w.(switchFile := false, mode := idle);
    if w.currentUploadID > 0 then
      if uploadStarted then (w0.(mode := UploadMode), Streaming(UploadMode))
      else if w.currentName.Some? && fileCreated then (w0.(file := Some(Sink([], 0))), Streaming(idle))
      else (w0.(currentName := None, file := None), if toNull then Streaming(NullMode) else NoWritableFile)
    else if w.file.Some? then (w0, Streaming(idle))
    else if toNull then (w0, Streaming(NullMode))
    else (EndRun(w0), NoDestination)
  }

  /** The finally block of run: the count is cleared and the file is closed and forgotten with its name; nothing else changes. */
  function EndRun(w: Writer): (r: Writer)
    ensures r.bytesStreamed == 0 && r.file.None? && r.currentName.None?
    ensures r.mode == w.mode && r.staged == w.staged && r.ringSize == w.ringSize && r.recordedPos == w.recordedPos
    ensures r.switchFile == w.switchFile && r.switchNextWrite == w.switchNextWrite && r.switchBytesPassed == w.switchBytesPassed
    ensures r.switchTarget == w.switchTarget && r.switchName == w.switchName && r.switchUploadID == w.switchUploadID
    ensures r.currentUploadID == w.currentUploadID && r.uploads == w.uploads && r.retired == w.retired
  {
    w.(bytesStreamed := 0, currentName := None, file := None)
  }

  /**
   * Bytes an upload run leaves staged survive its end. When the next
   * recording asks for an upload id whose session cannot start, and its
   * file is created instead, that file begins with those bytes.
   */
  lemma UploadLeftoversOpenFallbackFile(w: Writer, name: string, uploadID: int, bytes: seq<byte>, rw: int, minUpload: int,
                                         accepted: bool, interrupted: bool)
    requires Ready(w, minUpload) && uploadID > 0 && rw >= FFmpegRemux.RW_BUFFER_FLOOR && |bytes| <= rw
    ensures var next := EndRun(w).(currentName := Some(name), currentUploadID := uploadID);
            var started := BeginRun(next, false, false, true);
            var written := Write(started.0, bytes, rw, minUpload, accepted, interrupted);
            started.1 == Streaming(FileMode) && written.file.Some? && written.file.value.data == w.staged + bytes
  {
    var next := EndRun(w).(currentName := Some(name), currentUploadID := uploadID);
    var started := BeginRun(next, false, false, true);
    StaleStagingOpensNextFile(started.0, bytes, rw, minUpload, accepted, interrupted);
  }

  // ---------------------------------------------------------------- the consumer

  class FFmpegConsumer {
    const rwBufferSize: int
    const minUploadIDTransfer: int
    var running: bool
    var uploadEnabled: bool
    var consumeToNull: bool
    var staged: seq<byte>
    var switchFile: bool
    var switchNextWrite: bool
    var switchBytesPassed: int
    var bytesStreamed: int
    var ringSize: int
    var recordedPos: int
    var file: Option<Sink>
    var switchTarget: Option<Sink>
    var retired: seq<Sink>
    var currentName: Option<string>
    var switchName: Option<string>
    var currentUploadID: int
    var switchUploadID: int
    var uploads: seq<Upload>

    function Mode(): Mode
      reads this
    {
      if uploadEnabled then UploadMode else if !consumeToNull then FileMode else NullMode
    }

    function State(): Writer
      reads this
    {
      Writer(Mode(), staged, switchFile, switchNextWrite, switchBytesPassed, bytesStreamed, ringSize, recordedPos,
             file, switchTarget, retired, currentName, switchName, currentUploadID, switchUploadID, uploads)
    }

    /** A consumer whose limits went through the configuration floors. */
    constructor (rw: int, minUpload: int)
      requires rw >= FFmpegRemux.RW_BUFFER_FLOOR && minUpload >= rw
      ensures rwBufferSize == rw && minUploadIDTransfer == minUpload && !running
      ensures State() == Writer(FileMode, [], false, false, 0, 0, 0, 0, None, None, [], None, None, -1, -1, [])
    {
      rwBufferSize, minUploadIDTransfer := rw, minUpload;
      running, uploadEnabled, consumeToNull := false, false, false;
      staged := [];
      switchFile, switchNextWrite, switchBytesPassed := false, false, 0;
      bytesStreamed, ringSize, recordedPos := 0, 0, 0;
      file, switchTarget, retired := None, None, [];
      currentName, switchName := None, None;
      currentUploadID, switchUploadID := -1, -1;
      uploads := [];
    }

    method ConsumeToUploadID(name: string, uploadID: int) returns (ok: bool)
      modifies this
      ensures ok && State() == old(State()).(currentName := Some(name), currentUploadID := uploadID)
    {
      currentName, currentUploadID := Some(name), uploadID;
      return true;
    }

    /** The file is created at once; when it cannot be, nothing changes. */
    method ConsumeToFilename(name: string, created: bool) returns (ok: bool)
      modifies this
      ensures ok == created
      ensures created ==> State() == old(State()).(file := Some(Sink([], 0)), currentName := Some(name))
      ensures !created ==> State() == old(State())
    {
      if !created {
        return false;
      }
      file, currentName := Some(Sink([], 0)), Some(name);
      return true;
    }

    method SetRecordBufferSize(size: int)
      modifies this
      ensures State() == old(State()).(ringSize := size)
    {
      ringSize := size;
    }

    method ConsumeToNull(toNull: bool)
      modifies this
      ensures consumeToNull == toNull && uploadEnabled == old(uploadEnabled)
      ensures State() == old(State()).(mode := Mode())
    {
      consumeToNull := toNull;
    }

    /** Requests a switch to an upload id; the answer is always false, whatever the switch does. */
    method SwitchStreamToUploadID(name: string, uploadID: int) returns (ok: bool)
      modifies this
      ensures !ok
      ensures State() == old(State()).(switchUploadID := uploadID, switchName := Some(name), switchFile := true)
    {
      switchUploadID, switchName, switchFile := uploadID, Some(name), true;
      return false;
    }

    /** Requests a switch to a new file, created at once; a file that cannot be created changes nothing. */
    method SwitchStreamToFilename(name: string, created: bool) returns (ok: bool)
      modifies this
      ensures ok == created
      ensures created ==> State() == old(State()).(switchTarget := Some(Sink([], 0)), switchName := Some(name), switchFile := true)
      ensures !created ==> State() == old(State())
    {
      if !created {
        return false;
      }
      switchTarget, switchName, switchFile := Some(Sink([], 0)), Some(name), true;
      return true;
    }

    /** The head of run: a consumer already running refuses; otherwise BeginRun, and running stays set unless the run ended at once. */
    method StartRun(uploadStarted: bool, fileCreated: bool) returns (outcome: StartOutcome)
      modifies this
      ensures old(running) ==> outcome == AlreadyRunning && State() == old(State()) && running
      ensures !old(running) ==> (State(), outcome) == BeginRun(old(State()), old(consumeToNull), uploadStarted, fileCreated)
      ensures !old(running) ==> (running <==> outcome != NoDestination)
      ensures consumeToNull == old(consumeToNull)
    {
      if running {
        return AlreadyRunning;
      }
      running := true;
      uploadEnabled, switchFile := false, false;
      if currentUploadID > 0 {
        if uploadStarted {
          uploadEnabled := true;
          return Streaming(UploadMode);
        }
        if currentName.Some? && fileCreated {
          file := Some(Sink([], 0));
          return Streaming(Mode());
        }
        currentName, file := None, None;
        if consumeToNull {
          return Streaming(NullMode);
        }
        return NoWritableFile;
      } else if file.Some? {
        return Streaming(Mode());
      } else if consumeToNull {
        return Streaming(NullMode);
      }
      FinishRun();
      return NoDestination;
    }

    /** The finally block of run: EndRun, and running is cleared. */
    method FinishRun()
      modifies this
      ensures State() == EndRun(old(State())) && !running
      ensures uploadEnabled == old(uploadEnabled) && consumeToNull == old(consumeToNull)
    {
      bytesStreamed := 0;
      currentName := None;
      file := None;
      running := false;
    }

    method SwitchUploadNow(head: seq<byte>, sendHead: bool, accepted: bool)
      modifies this
      ensures State() == SwitchUpload(old(State()), head, sendHead, accepted)
    {
      SendOldPartNow(head, sendHead);
      AdoptSwitchNow(accepted);
    }

    /** The old part is uploaded when there is one, counted, and the switch request cleared. */
    method SendOldPartNow(head: seq<byte>, sendHead: bool)
      modifies this
      ensures State() == SendOldPart(old(State()), head, sendHead)
    {
      if sendHead {
        uploads := uploads + [Upload(currentUploadID, head, ringSize > 0)];
      }
      bytesStreamed := bytesStreamed + |head|;
      switchFile := false;
    }

    /** The server's answer to switchUpload: on OK the new name and id become current. */
    method AdoptSwitchNow(accepted: bool)
      modifies this
      ensures State() == AdoptSwitch(old(State()), accepted)
    {
      if accepted {
        currentName, currentUploadID, bytesStreamed := switchName, switchUploadID, 0;
      }
    }

    method SendRestNow(rest: seq<byte>)
      modifies this
      ensures State() == SendRest(old(State()), rest)
    {
      uploads := uploads + [Upload(currentUploadID, rest, ringSize > 0)];
      bytesStreamed := bytesStreamed + |rest|;
      staged := [];
    }

    /** The upload branch of writeBuffer once the threshold is reached. */
    method FlushToUpload(st: seq<byte>, index: int, accepted: bool, interrupted: bool)
      modifies this
      ensures State() == FlushUpload(old(State()), st, index, accepted, interrupted)
    {
      if interrupted {
        staged := [];
        return;
      }
      var start := 0;
      if switchFile && index > -1 {
        SwitchUploadNow(OldPart(st, index), 0 < index, accepted);
        start := NewStart(st, index);
      }
      SendRestNow(st[start..]);
    }

    method FinishOldNow(head: seq<byte>, interrupted: bool)
      requires file.Some? && SinkOk(file.value)
      modifies this
      ensures State() == FinishOld(old(State()), head, interrupted)
    {
      if !interrupted {
        var (f, rec) := RecordWrite(file.value, recordedPos, ringSize, head);
        file, recordedPos := Some(f), rec;
        bytesStreamed := bytesStreamed + |head|;
      }
      switchFile := false;
    }

    method RetireNow()
      requires file.Some? && SinkOk(file.value) && (switchTarget.Some? ==> SinkOk(switchTarget.value))
      modifies this
      ensures State() == Retire(old(State()))
    {
      if switchTarget.Some? {
        retired := retired + [file.value];
        file, currentName, switchTarget := switchTarget, switchName, None;
        bytesStreamed := 0;
      }
    }

    method WriteRestNow(rest: seq<byte>)
      requires file.Some? && SinkOk(file.value)
      modifies this
      ensures State() == WriteRest(old(State()), rest)
    {
      var (f, rec) := RecordWrite(file.value, recordedPos, ringSize, rest);
      file, recordedPos := Some(f), rec;
      bytesStreamed := bytesStreamed + |rest|;
      staged := [];
    }

    /** The file branch of writeBuffer: finish the old file at a switch, then write the rest. */
    method FlushToFile(st: seq<byte>, index: int, interrupted: bool)
      requires file.Some? && SinkOk(file.value) && (switchTarget.Some? ==> SinkOk(switchTarget.value))
      modifies this
      ensures State() == FlushFile(old(State()), st, index, interrupted)
    {
      var start := 0;
      if switchFile && index > -1 {
        FinishOldNow(OldPart(st, index), interrupted);
        RetireNow();
        start := NewStart(st, index);
      }
      WriteRestNow(st[start..]);
    }

    /** writeBuffer, called by the muxer with at most one read/write buffer of bytes. */
    method WriteBuffer(bytes: seq<byte>, accepted: bool, interrupted: bool) returns (written: int)
      requires Ready(State(), minUploadIDTransfer) && rwBufferSize >= FFmpegRemux.RW_BUFFER_FLOOR && |bytes| <= rwBufferSize
      modifies this
      ensures written == |bytes|
      ensures State() == Write(old(State()), bytes, rwBufferSize, minUploadIDTransfer, accepted, interrupted)
    {
      var st := staged + bytes;
      var sp := Decide(switchFile, switchNextWrite, switchBytesPassed, |bytes|, |st|, rwBufferSize);
      switchNextWrite, switchBytesPassed := sp.nextWrite, sp.passed;
      assert State() == old(State()).(switchNextWrite := sp.nextWrite, switchBytesPassed := sp.passed);
      if uploadEnabled {
        if |st| < minUploadIDTransfer {
          staged := st;
        } else {
          FlushToUpload(st, sp.index, accepted, interrupted);
        }
      } else if !consumeToNull {
        FlushToFile(st, sp.index, interrupted);
      } else {
        bytesStreamed := bytesStreamed + |st|;
        staged := [];
      }
      return |bytes|;
    }
  }
}
