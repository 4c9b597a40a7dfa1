# OpenDCT core, modelled in Dafny

OpenDCT is a network encoder for SageTV. It tunes cable tuners (Ceton
InfiniTV and SiliconDust HDHomeRun), receives their RTP streams, remuxes
them with FFmpeg and hands the result to the SageTV server. It does this
either through the server's upload id protocol or by writing a recording
file. It also keeps channel lineups and answers SageTV's encoder
discovery broadcasts.

This project models the core of that system and proves properties of the
model. Each module follows one Java class:

- `JavaText` (`java_text.dfy`): the java.lang behaviour the other modules
  rely on, written out. This covers 32-bit int wrap-around, signed bytes,
  `indexOf`, `String.split` with its trailing-empty removal, `trim`,
  `Integer.parseInt`, `Integer.toString` and `Boolean.valueOf`.
- `TVChannels` (`tv_channel.dfy`): `TVChannelImpl`. It covers the
  twelve-string property array and its parsing, and the class with its
  setters and change journal.
- `InfiniTVStatus` (`infinitv_status.dfy`): `InfiniTVStatus`. It covers the
  `get_var` request, trimming of the reply body, the retry loop, and the
  program, PID list, copy-protection and signal-level readings.
- `InfiniTVScraper` (`infinitv_channels.dfy`): `InfiniTVChannels.populateChannels`.
  It covers the scrape of the device's channel map page into a lineup.
- `ChannelRegistry` (`channel_manager.dfy`): `ChannelManager`. It covers the
  lineup and offline-scan registries, the update and offline-scan
  schedules, and the form of a saved lineup.
- `HDHomeRunGetSet` (`hdhomerun_control.dfy`): `HDHomeRunControl.setVariable`
  and `getVariable`. It covers the fields of a get/set request and the walk
  over the tags of the reply.
- `SageTVDiscovery` (`sagetv_discovery.dfy`): `SageTVDiscovery`. It covers the
  request check, the response datagram, the per-server 11-second silence,
  the receive loop, and the start and end of the one static discovery
  thread.
- `RTPProducer` (`rtp_producer.dfy`): `NIORTPProducerImpl`. It covers the
  socket setup (a missing, unbound, bound or closed channel), the start and
  stop flags, the forwarding of datagram payloads, and the watchdog that
  rebuilds a silent socket.
- `FFmpegRemux` (`ffmpeg_remux.dfy`): the remuxing side of
  `FFmpegSageTVConsumerImpl`. It covers the configuration floors, the
  growing probe loop of `initRemuxer`, codec validity, best audio stream
  choice, the stream checks of each attempt (a missing audio stream
  included), the stream map, and the packet filter of `remuxRtpPackets`.
- `FFmpegWriter` (`ffmpeg_write.dfy`): the output side of
  `FFmpegSageTVConsumerImpl`. It covers `writeBuffer` in its upload, file and
  null modes, the file or upload id switch, the ring-buffer wrap of a
  recording file, the destination choice at the start of `run`, and the
  clean-up at its end.

Sockets, HTTP connections, clocks, threads and the FFmpeg native library
do not appear. What they would supply becomes a parameter: the lines of a
page, the bytes of a reply, the datagrams received, the outcome of a file
creation or of an upload start, or the attempts of a probe. Where a Java
object is updated in place, the model is a class whose methods are proved
against a pure transition function. The properties are lemmas about that
function.

Java's integer widths matter in several places and are written out:
`Math.abs(retry) + 1`, `frequency * 1000`, `tunerNumber - 1` and the
`(int)` cast of the circular buffer size. The response's port bytes use
Dafny's `/` and `%` by 256, which are Euclidean: for any port, negative
included, they give the same bytes as Java's `>> 8` and `& 0xff`.

The model follows the code as written, including behaviour that looks
unintended. These cases are proved as properties:

- At a switch, the byte just before the switch index goes to neither the
  old destination nor the new one.
- `switchStreamToUploadID` always answers false.
- A value field of one or two bytes that ends a reply is never read.
- `circularBufferSize` wraps negative for a very large probe size.
- A stop requested before `run` leaves the producer refusing every later
  start.
- A first packet whose dts is -1 is dropped.
- Discovery can be started once per process: after its thread has run,
  a new start sets the running flag, the thread throws, and every later
  start is refused.
- Without a consumer, datagrams that carry a payload are neither
  forwarded nor counted, so the watchdog rebuilds the socket.
- A configured minimum probe size above the maximum makes the first
  failed probe final.

## Model

| member | source | states |
|---|---|---|
| JavaText.Wrap32 | src/main/java/opendct/channel/http/InfiniTVChannels.java:142 | Java int arithmetic: the result lies in the int range, is congruent to the exact value modulo 2^32, and equals it when the exact value fits |
| JavaText.Abs32 | src/main/java/opendct/tuning/http/InfiniTVStatus.java:37 | Math.abs on an int: the magnitude of every int except INT_MIN, which stays INT_MIN |
| JavaText.Signed | src/main/java/opendct/sagetv/SageTVDiscovery.java:128-130 | a buffer byte read as a Java byte lies in -128..127 and agrees with the unsigned value modulo 256 |
| JavaText.IndexOf | src/main/java/opendct/tuning/http/InfiniTVStatus.java:67-68 | String.indexOf: -1 exactly when the text never occurs, otherwise the first position where it occurs |
| JavaText.DropTrailingEmpty | src/main/java/opendct/tuning/http/InfiniTVStatus.java:103 | String.split drops exactly the trailing empty pieces and keeps the rest in order |
| JavaText.JoinPieces | src/main/java/opendct/channel/http/InfiniTVChannels.java:107 | the pieces a separator cuts a string into, joined with that separator, give the string back |
| JavaText.PiecesFree | src/main/java/opendct/channel/http/InfiniTVChannels.java:107 | no piece contains the separator |
| JavaText.PiecesOfJoin | src/main/java/opendct/channel/http/InfiniTVChannels.java:107 | fields that cannot start a separator, joined and cut again, come back unchanged |
| JavaText.SplitOfJoin | src/main/java/opendct/channel/http/InfiniTVChannels.java:107 | String.split of joined fields returns those fields when the last one is non-empty |
| JavaText.TrimStart | src/main/java/opendct/tuning/http/InfiniTVStatus.java:90 | a suffix of the string that starts with a non-space, all removed characters being spaces or controls |
| JavaText.TrimEnd | src/main/java/opendct/tuning/http/InfiniTVStatus.java:90 | a prefix of the string that ends with a non-space, all removed characters being spaces or controls |
| JavaText.Trim | src/main/java/opendct/tuning/http/InfiniTVStatus.java:90 | String.trim: no longer than the input, empty or bounded by non-space characters |
| JavaText.TrimIsInfix | src/main/java/opendct/tuning/http/InfiniTVStatus.java:108 | the trimmed text occurs inside the original, and an already trimmed string is unchanged |
| JavaText.ParseInt | src/main/java/opendct/tuning/http/InfiniTVStatus.java:108 | Integer.parseInt: a parsed value is always an int and comes from non-empty text |
| JavaText.IntToString | src/main/java/opendct/channel/TVChannelImpl.java:135 | String.valueOf(int): non-empty, with a leading minus exactly for negative numbers |
| JavaText.NatToDigitsValue | src/main/java/opendct/channel/TVChannelImpl.java:135 | the decimal digits printed for a natural number read back as that number |
| JavaText.IntToStringRoundTrip | src/main/java/opendct/channel/TVChannelImpl.java:73 | Integer.valueOf of String.valueOf(n) is n for every int n |
| JavaText.ParseBool | src/main/java/opendct/channel/TVChannelImpl.java:64 | Boolean.valueOf: true exactly for "true" in any letter case |
| JavaText.BoolRoundTrip | src/main/java/opendct/channel/TVChannelImpl.java:128 | Boolean.valueOf of String.valueOf(b) is b |
| TVChannels.CciValueOf | src/main/java/opendct/channel/TVChannelImpl.java:79-84 | Enum.valueOf finds the constant whose name is the text, if there is one |
| TVChannels.NewChannel | src/main/java/opendct/channel/TVChannelImpl.java:25-55 | the two-argument constructor: the given number and name, not tunable, not ignored, UNKNOWN copy protection, strength 0 |
| TVChannels.ScrapedChannel | src/main/java/opendct/channel/TVChannelImpl.java:98-107 | the seven-argument constructor keeps the scraped values, an empty URL and the ignore flag |
| TVChannels.Properties | src/main/java/opendct/channel/TVChannelImpl.java:124-139 | getProperties: twelve strings, with number, name, tunable and ignore in their slots |
| TVChannels.FromProperties | src/main/java/opendct/channel/TVChannelImpl.java:57-89 | the array constructor fails exactly when fewer than eleven strings are given, and reads ignore only from a twelfth |
| TVChannels.CciRoundTrip | src/main/java/opendct/channel/TVChannelImpl.java:80 | every copy-protection constant reads back from its name |
| TVChannels.PropertiesRoundTrip | src/main/java/opendct/channel/TVChannelImpl.java:57-139 | a channel with an int strength is restored field for field from the array getProperties prints |
| TVChannels.FromPropertiesDefaults | src/main/java/opendct/channel/TVChannelImpl.java:72-88 | an unparsable strength gives 0, an unknown copy-protection name gives UNKNOWN, and eleven strings give ignore false |
| TVChannels.NoChanges | src/main/java/opendct/channel/TVChannelImpl.java:37 | a fresh change journal holds twelve empty slots |
| TVChannels.TVChannel.constructor | src/main/java/opendct/channel/TVChannelImpl.java:109-122 | the channel holds the given properties and an empty journal |
| TVChannels.TVChannel.SetTunable | src/main/java/opendct/channel/TVChannelImpl.java:145-148 | only tunable changes, and its slot of the journal records the printed value |
| TVChannels.TVChannel.SetModulation | src/main/java/opendct/channel/TVChannelImpl.java:150-153 | only the modulation changes, and its journal slot records it |
| TVChannels.TVChannel.SetFrequency | src/main/java/opendct/channel/TVChannelImpl.java:155-158 | only the frequency changes, and its journal slot records it |
| TVChannels.TVChannel.SetProgram | src/main/java/opendct/channel/TVChannelImpl.java:160-163 | only the program changes, and its journal slot records it |
| TVChannels.TVChannel.SetEia | src/main/java/opendct/channel/TVChannelImpl.java:165-168 | only the EIA number changes, and its journal slot records it |
| TVChannels.TVChannel.SetChannelRemap | src/main/java/opendct/channel/TVChannelImpl.java:186-189 | only the remap changes, and its journal slot records it |
| TVChannels.TVChannel.SetCci | src/main/java/opendct/channel/TVChannelImpl.java:203-206 | only the copy protection changes, and its journal slot records the constant's name |
| TVChannels.TVChannel.SetSignalStrength | src/main/java/opendct/channel/TVChannelImpl.java:212-215 | only the strength changes, and its journal slot records the printed number |
| TVChannels.TVChannel.SetUrl | src/main/java/opendct/channel/TVChannelImpl.java:225-228 | only the URL changes, and its journal slot records it |
| TVChannels.TVChannel.SetIgnore | src/main/java/opendct/channel/TVChannelImpl.java:234-237 | only the ignore flag changes, and its journal slot records the printed value |
| TVChannels.TVChannel.GetAndClearUpdates | src/main/java/opendct/channel/TVChannelImpl.java:239-243 | the old journal is handed over unchanged and a fresh empty one replaces it; the properties stay |
| InfiniTVStatus.TunerIndexText | src/main/java/opendct/tuning/http/InfiniTVStatus.java:55 | tunerNumber - 1 in 32-bit arithmetic, printed; TunerIndexValue and TunerIndexReadsBack state its value |
| InfiniTVStatus.GetVarUrl | src/main/java/opendct/tuning/http/InfiniTVStatus.java:55-57 | the get_var URL with the device address, tuner index, service and value in that order |
| InfiniTVStatus.TunerIndexValue | src/main/java/opendct/tuning/http/InfiniTVStatus.java:55 | tunerNumber - 1 is exact for every int but INT_MIN, which wraps to INT_MAX |
| InfiniTVStatus.TunerIndexReadsBack | src/main/java/opendct/tuning/http/InfiniTVStatus.java:55-57 | the tuner index printed in the URL reads back as the zero-based index |
| InfiniTVStatus.MarkersDoNotOverlap | src/main/java/opendct/tuning/http/InfiniTVStatus.java:67-71 | the closing marker cannot begin inside the opening marker, so the body substring is well formed |
| InfiniTVStatus.TrimBodyAt | src/main/java/opendct/tuning/http/InfiniTVStatus.java:67-72 | when the opening marker is first found after position 0 and the closing one after it, the result is exactly the text between them |
| InfiniTVStatus.OpeningMarkerShape | src/main/java/opendct/tuning/http/InfiniTVStatus.java:31-32 | the lengths and first characters of the two body markers |
| InfiniTVStatus.TrimBodyOfPage | src/main/java/opendct/tuning/http/InfiniTVStatus.java:67-72 | a page with text before the body markers yields exactly the body |
| InfiniTVStatus.PageMarkers | src/main/java/opendct/tuning/http/InfiniTVStatus.java:67-68 | in a page whose prefix and body hold no '<', each marker occurs first exactly where it was placed |
| InfiniTVStatus.GetVarOnce | src/main/java/opendct/tuning/http/InfiniTVStatus.java:52-82 | one request gives the trimmed line, an I/O error, or a crash when no line came back |
| InfiniTVStatus.Attempts | src/main/java/opendct/tuning/http/InfiniTVStatus.java:37 | the attempt count is abs(retry)+1 for every other retry; retry INT_MAX and -INT_MAX wrap to INT_MIN and retry INT_MIN to INT_MIN+1, all negative |
| InfiniTVStatus.Retried | src/main/java/opendct/tuning/http/InfiniTVStatus.java:39-49 | an error that comes out of the retry loop was raised by one of the attempts, or is the initial empty one |
| InfiniTVStatus.GetVarRetry | src/main/java/opendct/tuning/http/InfiniTVStatus.java:34-50 | the retry loop gives what the retry specification gives for the 32-bit attempt count |
| InfiniTVStatus.RetrySkipsFailures | src/main/java/opendct/tuning/http/InfiniTVStatus.java:39-48 | a run of attempts that fail with an I/O error passes on to the next attempt with the last cause |
| InfiniTVStatus.RetryReturnsFirstSuccess | src/main/java/opendct/tuning/http/InfiniTVStatus.java:39-47 | the first attempt that answers wins once every earlier one failed with an I/O error |
| InfiniTVStatus.RetryThrowsLastError | src/main/java/opendct/tuning/http/InfiniTVStatus.java:39-49 | when every attempt fails, the error of the last attempt is thrown |
| InfiniTVStatus.RetryMaxMakesNoAttempt | src/main/java/opendct/tuning/http/InfiniTVStatus.java:37-49 | retry INT_MAX, -INT_MAX or INT_MIN makes no attempt and throws the empty initial exception |
| InfiniTVStatus.ProgramFromValue | src/main/java/opendct/tuning/http/InfiniTVStatus.java:87-95 | GetProgram always answers a Java int (the parsed value or -1); ProgramRoundTrip states that a printed number reads back |
| InfiniTVStatus.ProgramRoundTrip | src/main/java/opendct/tuning/http/InfiniTVStatus.java:89-90 | a printed program number reads back unchanged |
| InfiniTVStatus.ParsePid | src/main/java/opendct/tuning/http/InfiniTVStatus.java:108 | one trimmed piece parsed as hexadecimal |
| InfiniTVStatus.PidsFromValue | src/main/java/opendct/tuning/http/InfiniTVStatus.java:103-115 | all pieces' PIDs or none; PidsAllOrNothing states it |
| InfiniTVStatus.ParsedPieces | src/main/java/opendct/tuning/http/InfiniTVStatus.java:107-109 | one hexadecimal parse per comma-separated piece, in order |
| InfiniTVStatus.Parsed | src/main/java/opendct/tuning/http/InfiniTVStatus.java:107-109 | one parse result per piece, in the order of the pieces |
| InfiniTVStatus.Collect | src/main/java/opendct/tuning/http/InfiniTVStatus.java:106-113 | all values in order when every piece parses, and nothing as soon as one fails |
| InfiniTVStatus.CollectFails | src/main/java/opendct/tuning/http/InfiniTVStatus.java:106-113 | one piece that fails to parse makes the whole result fail, wherever it stands |
| InfiniTVStatus.PidsAllOrNothing | src/main/java/opendct/tuning/http/InfiniTVStatus.java:103-115 | GetPids gives one PID per piece, in order, or an empty array |
| InfiniTVStatus.ParsePidArray | src/main/java/opendct/tuning/http/InfiniTVStatus.java:104-115 | the parsing loop fills the array with the collected PIDs, or returns an empty array on the first bad piece |
| InfiniTVStatus.ParseEach | src/main/java/opendct/tuning/http/InfiniTVStatus.java:104-115 | for any piece parser, the loop fills the array with every parsed value in order, or leaves it empty when some piece fails |
| InfiniTVStatus.GetPids | src/main/java/opendct/tuning/http/InfiniTVStatus.java:98-116 | the returned array holds the PIDs of the value |
| InfiniTVStatus.SignalLevelText | src/main/java/opendct/tuning/http/InfiniTVStatus.java:141-142 | the number text is present exactly when " dBmV" occurs, and it is what precedes the first occurrence |
| InfiniTVStatus.CciStatus | src/main/java/opendct/tuning/http/InfiniTVStatus.java:123-133 | the copy-protection classifier; CciStatusCases states each case and its priority |
| InfiniTVStatus.CciStatusCases | src/main/java/opendct/tuning/http/InfiniTVStatus.java:123-133 | each copy-protection result holds exactly when its marker occurs and no marker checked before it does |
| InfiniTVScraper.IsRowShaped | src/main/java/opendct/channel/http/InfiniTVChannels.java:105 | a row starts with the row marker, contains the cell separator and ends with the row end |
| InfiniTVScraper.RowCells | src/main/java/opendct/channel/http/InfiniTVChannels.java:106-107 | the inner text split on the cell separator; RowRoundTrip states it |
| InfiniTVScraper.RowMarkersApart | src/main/java/opendct/channel/http/InfiniTVChannels.java:105-106 | a line that starts and ends with the row markers is long enough for its inner text to exist |
| InfiniTVScraper.RowRoundTrip | src/main/java/opendct/channel/http/InfiniTVChannels.java:105-109 | a printed row of six plain cells passes the row test and splits back into those six cells |
| InfiniTVScraper.Ignored | src/main/java/opendct/channel/http/InfiniTVChannels.java:110-126 | a name containing a configured substring or a number equal to a configured number |
| InfiniTVScraper.IsIgnored | src/main/java/opendct/channel/http/InfiniTVChannels.java:110-126 | the two search loops ignore a row exactly when its name contains a listed text or its number is a listed number |
| InfiniTVScraper.ParseRowNumbers | src/main/java/opendct/channel/http/InfiniTVChannels.java:132-151 | frequency is the kHz value times 1000 in int arithmetic; a later value is set only when the earlier ones parsed; a failed frequency leaves all three at -1 |
| InfiniTVScraper.Refresh | src/main/java/opendct/channel/http/InfiniTVChannels.java:190-213 | modulation and ignore are always taken from the row, frequency, program and EIA only when positive, and nothing else changes |
| InfiniTVScraper.RefreshNeeded | src/main/java/opendct/channel/http/InfiniTVChannels.java:189-215 | some field of the existing channel differs from the row; RefreshNeededIffChanged states it |
| InfiniTVScraper.RefreshNeededIffChanged | src/main/java/opendct/channel/http/InfiniTVChannels.java:189-218 | the updated flag is raised exactly when the row changes the stored channel |
| InfiniTVScraper.NewRowChannel | src/main/java/opendct/channel/http/InfiniTVChannels.java:175-186 | a new channel holds the row's number, name, modulation and the printed numbers |
| InfiniTVScraper.MergeRow | src/main/java/opendct/channel/http/InfiniTVChannels.java:128-232 | an unparsable number changes nothing; otherwise the number is seen, only its own entry can change, and a duplicate is removed |
| InfiniTVScraper.Scan | src/main/java/opendct/channel/http/InfiniTVChannels.java:100-244 | every number seen parses as an int, and every channel added was seen |
| InfiniTVScraper.NoHeaderNoEffect | src/main/java/opendct/channel/http/InfiniTVChannels.java:239-243 | without the table header line the page changes nothing |
| InfiniTVScraper.MarkersSwitchParsing | src/main/java/opendct/channel/http/InfiniTVChannels.java:102-243 | outside the table only the header switches parsing on; inside, a non-row with the table end switches it off |
| InfiniTVScraper.LineStep | src/main/java/opendct/channel/http/InfiniTVChannels.java:100-244 | one line of the read loop; MarkersSwitchParsing and NoHeaderNoEffect state it |
| InfiniTVScraper.ScanLine | src/main/java/opendct/channel/http/InfiniTVChannels.java:102-243 | one pass of the read loop performs the line step of the scan |
| InfiniTVScraper.MergeRowInto | src/main/java/opendct/channel/http/InfiniTVChannels.java:128-232 | the row handling in the loop performs exactly the row merge |
| InfiniTVScraper.PopulateChannels | src/main/java/opendct/channel/http/InfiniTVChannels.java:68-326 | no address gives false at once; otherwise the read loop gives the scan of the lines, and cleanChannels gets the numbers seen unless reading failed |
| ChannelRegistry.AddDevice | src/main/java/opendct/channel/ChannelManager.java:82-91 | the lineup's device set, created when absent, gains the device; other lineups are untouched |
| ChannelRegistry.RemoveDevice | src/main/java/opendct/channel/ChannelManager.java:99-107 | an unknown lineup is left alone; otherwise its set loses the device |
| ChannelRegistry.DevicesOf | src/main/java/opendct/channel/ChannelManager.java:208-213 | the lineup's device set, or none for an unknown lineup |
| ChannelRegistry.AddDeviceIdempotent | src/main/java/opendct/channel/ChannelManager.java:82-91 | adding a device twice is adding it once |
| ChannelRegistry.RemoveUndoesAdd | src/main/java/opendct/channel/ChannelManager.java:82-107 | removing a device just added to a set that lacked it restores the map |
| ChannelRegistry.StartScan | src/main/java/opendct/channel/ChannelManager.java:182-199 | no devices or a running scan refuse with nothing changed; otherwise a new scan replaces the old one and its start is the answer |
| ChannelRegistry.StartedScanIsRecorded | src/main/java/opendct/channel/ChannelManager.java:193-198 | a started scan is in the map, running, with the lineup's devices |
| ChannelRegistry.RetireCompleted | src/main/java/opendct/channel/ChannelManager.java:126-144 | a completed scan leaves the scan map, and only the scans and saved lineups change |
| ChannelRegistry.OfflineTurn | src/main/java/opendct/channel/ChannelManager.java:120-168 | one lineup's turn never changes the device map, the refresh log or the set of lineups, and with now set a registered lineup never aborts the round |
| ChannelRegistry.OfflineTurnOnlyItsLineup | src/main/java/opendct/channel/ChannelManager.java:120-198 | a turn leaves every other lineup's record and scan alone, and a record it changes is rescheduled from the clock with a running scan |
| ChannelRegistry.NotDueIsSkipped | src/main/java/opendct/channel/ChannelManager.java:158-160 | a lineup that is not due and has no stalled scan is skipped unless now is set |
| ChannelRegistry.OfflineRound | src/main/java/opendct/channel/ChannelManager.java:119-170 | a round keeps the device map and the set of lineups; OfflineUntouchedByRound and OfflineNowStartsAll say which lineups it scans and which it leaves alone |
| ChannelRegistry.NowStartsIdleLineup | src/main/java/opendct/channel/ChannelManager.java:152-198 | with now set, a lineup with devices and no running scan gets a running scan of its devices when the start succeeds, and is rescheduled from the clock |
| ChannelRegistry.OfflineUntouchedByRound | src/main/java/opendct/channel/ChannelManager.java:119-170 | a lineup outside the walk keeps its record and its scan, even when the round aborts |
| ChannelRegistry.OfflineNowStartsAll | src/main/java/opendct/channel/ChannelManager.java:119-170 | with now set and every start succeeding, the round never aborts and every walked lineup with devices and no running scan ends with a running scan and a new schedule |
| ChannelRegistry.TurnAbortStops | src/main/java/opendct/channel/ChannelManager.java:119-170 | a turn that aborts on a missing lineup ends the round |
| ChannelRegistry.UpdateSkipped | src/main/java/opendct/channel/ChannelManager.java:451-453 | skipped only when not now, not yet due and already holding channels |
| ChannelRegistry.UpdateTurn | src/main/java/opendct/channel/ChannelManager.java:448-458 | one lineup's update touches only that lineup |
| ChannelRegistry.UpdateRound | src/main/java/opendct/channel/ChannelManager.java:447-459 | the update round keeps the scans, the device map and the set of lineups |
| ChannelRegistry.UpdateTurnReschedules | src/main/java/opendct/channel/ChannelManager.java:451-457 | a lineup's next update moves exactly when it was not skipped, and then to clock plus its interval |
| ChannelRegistry.UpdateNowReschedulesAll | src/main/java/opendct/channel/ChannelManager.java:447-459 | with now set every lineup walked is rescheduled from the clock |
| ChannelRegistry.UntouchedByRound | src/main/java/opendct/channel/ChannelManager.java:447-459 | a lineup outside the walk keeps its record |
| ChannelRegistry.PadKey | src/main/java/opendct/channel/ChannelManager.java:601-604 | the key is the number left-padded with zeros to four characters, never shortened |
| ChannelRegistry.ZerosValue | src/main/java/opendct/channel/ChannelManager.java:601-604 | leading zeros do not change the value of a digit string |
| ChannelRegistry.PadKeyKeepsNumber | src/main/java/opendct/channel/ChannelManager.java:601-606 | a padded key parses to the same number as the channel |
| ChannelRegistry.PadChannelKey | src/main/java/opendct/channel/ChannelManager.java:601-604 | the padding loop computes the padded key |
| ChannelRegistry.Available | src/main/java/opendct/channel/ChannelManager.java:608-614 | tunable and not ignored |
| ChannelRegistry.NumbersWhere | src/main/java/opendct/channel/ChannelManager.java:608-614 | the channels of one availability, never more than the lineup holds |
| ChannelRegistry.ListsPartition | src/main/java/opendct/channel/ChannelManager.java:608-614 | every channel lands in exactly one of the available and unavailable lists |
| ChannelRegistry.TerminatedIsJoin | src/main/java/opendct/channel/ChannelManager.java:617-625 | deleting the builder's last comma leaves the comma-joined list |
| ChannelRegistry.AvailabilityLists | src/main/java/opendct/channel/ChannelManager.java:596-630 | both saved lists are the comma-joined numbers of their availability |
| ChannelRegistry.SavedForm | src/main/java/opendct/channel/ChannelManager.java:599-606 | one saved entry per channel of the lineup |
| ChannelRegistry.SavedEntries | src/main/java/opendct/channel/ChannelManager.java:599-606 | the loop writes the saved entries of every channel, in lineup order |
| ChannelRegistry.SavedEntriesRoundTrip | src/main/java/opendct/channel/ChannelManager.java:599-606 | every saved entry reads back as the channel it was written from |
| ChannelRegistry.ChannelManager.constructor | src/main/java/opendct/channel/ChannelManager.java:46-57 | all registries start empty |
| ChannelRegistry.ChannelManager.AddDeviceToOfflineScan | src/main/java/opendct/channel/ChannelManager.java:82-91 | the device map becomes its AddDevice update |
| ChannelRegistry.ChannelManager.RemoveDeviceFromOfflineScan | src/main/java/opendct/channel/ChannelManager.java:99-107 | the device map becomes its RemoveDevice update |
| ChannelRegistry.ChannelManager.GetDevicesForOfflineScan | src/main/java/opendct/channel/ChannelManager.java:208-223 | an array holding each registered device once, empty for an unknown lineup |
| ChannelRegistry.ChannelManager.StartOfflineChannelScan | src/main/java/opendct/channel/ChannelManager.java:182-199 | the registry and the answer are those of StartScan |
| ChannelRegistry.ChannelManager.RetireCompletedScan | src/main/java/opendct/channel/ChannelManager.java:126-144 | the clean-up of a completed scan performs RetireCompleted |
| ChannelRegistry.ChannelManager.OfflineScanTurn | src/main/java/opendct/channel/ChannelManager.java:120-168 | one turn of the loop is OfflineTurn |
| ChannelRegistry.ChannelManager.StartAllOfflineChannelScans | src/main/java/opendct/channel/ChannelManager.java:119-170 | the loop over the names of the device map, each once, is OfflineRound |
| ChannelRegistry.ChannelManager.OfflineScanWalk | src/main/java/opendct/channel/ChannelManager.java:119-170 | the loop, over any order of names, ends in the state and answer of OfflineRound |
| ChannelRegistry.ChannelManager.UpdateLineupTurn | src/main/java/opendct/channel/ChannelManager.java:448-458 | one turn of the loop is UpdateTurn |
| ChannelRegistry.ChannelManager.UpdateChannelLineups | src/main/java/opendct/channel/ChannelManager.java:447-459 | the loop over the lineups is UpdateRound |
| ChannelRegistry.ChannelManager.AddChannelLineup | src/main/java/opendct/channel/ChannelManager.java:369-382 | a lineup is stored exactly when overwrite is set or its name is new; a refusal changes nothing |
| ChannelRegistry.ChannelManager.RemoveChannelLineup | src/main/java/opendct/channel/ChannelManager.java:393-406 | the lineup and its device set are dropped; false only when deleting an existing file failed |
| ChannelRegistry.ChannelManager.SaveChannelLineup | src/main/java/opendct/channel/ChannelManager.java:575-633 | nothing for an unknown lineup, otherwise its saved form |
| HDHomeRunGetSet.Request | src/main/java/opendct/tuning/hdhomerun/HDHomeRunControl.java:97-108 | the request names the key first, carries a value only when one is given and a lock key only when it is not 0 |
| HDHomeRunGetSet.GetRequestNamesOnly | src/main/java/opendct/tuning/hdhomerun/HDHomeRunControl.java:63-65 | a get sends the key name alone |
| HDHomeRunGetSet.ReadLength | src/main/java/opendct/tuning/hdhomerun/HDHomeRunControl.java:155 | a field length takes one or two bytes and is below 32768 |
| HDHomeRunGetSet.Walk | src/main/java/opendct/tuning/hdhomerun/HDHomeRunControl.java:153-193 | the tag walk never fails, and finds a value or an error only while more than four bytes remain |
| HDHomeRunGetSet.ParseReply | src/main/java/opendct/tuning/hdhomerun/HDHomeRunControl.java:147-198 | nothing received gives null; a value or an error comes only from a GETSET reply with a full header |
| HDHomeRunGetSet.WalkTags | src/main/java/opendct/tuning/hdhomerun/HDHomeRunControl.java:153-193 | the loop over the buffer position gives the tag walk's result |
| HDHomeRunGetSet.SetVariable | src/main/java/opendct/tuning/hdhomerun/HDHomeRunControl.java:94-199 | the request sent is Request, and the result is the reply parsed from the bytes received |
| HDHomeRunGetSet.GetVariable | src/main/java/opendct/tuning/hdhomerun/HDHomeRunControl.java:63-65 | a get sends the key alone and parses the reply like a set |
| HDHomeRunGetSet.ReadLengthRoundTrip | src/main/java/opendct/tuning/hdhomerun/HDHomeRunControl.java:155 | an encoded length reads back as that length, wherever it sits |
| HDHomeRunGetSet.FieldAt | src/main/java/opendct/tuning/hdhomerun/HDHomeRunControl.java:153-176 | a field placed in the buffer is read back as its tag, length and data |
| HDHomeRunGetSet.PacketWalk | src/main/java/opendct/tuning/hdhomerun/HDHomeRunControl.java:147-153 | a well-formed reply packet is parsed by walking its payload from byte 4 to its declared end, whatever follows it |
| HDHomeRunGetSet.WalkSkips | src/main/java/opendct/tuning/hdhomerun/HDHomeRunControl.java:174-191 | a field that is neither a value nor an error, such as the echoed name, is skipped whole |
| HDHomeRunGetSet.WalkFindsValue | src/main/java/opendct/tuning/hdhomerun/HDHomeRunControl.java:179-180 | a value field that fits before the end is returned as the value |
| HDHomeRunGetSet.SkipThenValue | src/main/java/opendct/tuning/hdhomerun/HDHomeRunControl.java:153-191 | a skipped field followed by a value field ending at the limit yields that value |
| HDHomeRunGetSet.NameThenValueReadsValue | src/main/java/opendct/tuning/hdhomerun/HDHomeRunControl.java:153-180 | a reply echoing the name and then a value of three or more bytes gives that value, whatever stale bytes follow |
| HDHomeRunGetSet.ShortLastValueIsMissed | src/main/java/opendct/tuning/hdhomerun/HDHomeRunControl.java:153 | a value of two bytes or fewer as the only field is never read: the loop stops with four bytes left |
| HDHomeRunGetSet.ErrorMessageRaises | src/main/java/opendct/tuning/hdhomerun/HDHomeRunControl.java:182-184 | an error message field raises the device's error with that message |
| SageTVDiscovery.HeaderByteOk | src/main/java/opendct/sagetv/SageTVDiscovery.java:125-130 | the test on each of the six header bytes, the last three read as signed bytes |
| SageTVDiscovery.CheckFrom | src/main/java/opendct/sagetv/SageTVDiscovery.java:125-130 | the remaining header reads answer exactly when six bytes are there and pass, and underflow exactly when they run out with no failed test |
| SageTVDiscovery.Check | src/main/java/opendct/sagetv/SageTVDiscovery.java:125-130 | the header reads from the first byte; AnsweredRequests states it |
| SageTVDiscovery.AnsweredRequests | src/main/java/opendct/sagetv/SageTVDiscovery.java:125-130 | a request is answered exactly when it starts "STN" followed by signed bytes of at least 4, 1 and 0 |
| SageTVDiscovery.HighVersionByteRejected | src/main/java/opendct/sagetv/SageTVDiscovery.java:128 | a version byte of 0x80 or more reads negative and is rejected |
| SageTVDiscovery.TextBytes | src/main/java/opendct/sagetv/SageTVDiscovery.java:145-147 | one byte per character, the character code modulo 256 |
| SageTVDiscovery.Hostname | src/main/java/opendct/sagetv/SageTVDiscovery.java:143-148 | the loopback address is advertised exactly when loopback is on and the sender text contains the local address, or the local address is the loopback one |
| SageTVDiscovery.Response | src/main/java/opendct/sagetv/SageTVDiscovery.java:134-155 | the response starts "STN" 4 1 0 and ends with the hostname after three bytes of port and length |
| SageTVDiscovery.ResponseRoundTrip | src/main/java/opendct/sagetv/SageTVDiscovery.java:140-155 | a receiver reads back the port modulo 65536 and a hostname shorter than 256 bytes |
| SageTVDiscovery.WindowOpen | src/main/java/opendct/sagetv/SageTVDiscovery.java:112-114 | a server's window is open while its recorded time is after now |
| SageTVDiscovery.Touch | src/main/java/opendct/sagetv/SageTVDiscovery.java:111-123 | every datagram moves only its server's window, to now plus 11000 ms |
| SageTVDiscovery.Received | src/main/java/opendct/sagetv/SageTVDiscovery.java:93-107 | the receive buffer keeps at most 4096 bytes of a datagram |
| SageTVDiscovery.Handle | src/main/java/opendct/sagetv/SageTVDiscovery.java:105-159 | a datagram is ignored exactly when its server's window is open, and a reply is sent only to a request that passes the check |
| SageTVDiscovery.Responses | src/main/java/opendct/sagetv/SageTVDiscovery.java:103-161 | at most one response per datagram |
| SageTVDiscovery.ResponsesStep | src/main/java/opendct/sagetv/SageTVDiscovery.java:103-161 | the responses from a datagram on are that datagram's response followed by the rest |
| SageTVDiscovery.Replies | src/main/java/opendct/sagetv/SageTVDiscovery.java:103-161 | whatever a datagram handler does, it sends at most one reply per datagram, with the servers' windows carried from one datagram to the next |
| SageTVDiscovery.RepeatInsideWindowIgnored | src/main/java/opendct/sagetv/SageTVDiscovery.java:111-119 | a second datagram from a server within 11 seconds is ignored, whatever it holds |
| SageTVDiscovery.ClosedWindowAnswers | src/main/java/opendct/sagetv/SageTVDiscovery.java:120-159 | once the window has closed, a valid request is answered with the local address |
| SageTVDiscovery.Serve | src/main/java/opendct/sagetv/SageTVDiscovery.java:101-165 | the receive loop sends exactly the responses the per-datagram specification gives, up to the datagram that ends discovery, and reports whether one did |
| SageTVDiscovery.ServeWith | src/main/java/opendct/sagetv/SageTVDiscovery.java:101-165 | the receive loop, for any per-datagram handler, sends exactly the replies the handler specification gives, starting with no window open, and reports whether a datagram ended it |
| SageTVDiscovery.Start | src/main/java/opendct/sagetv/SageTVDiscovery.java:46-65 | config-only mode and a running discovery change nothing; otherwise running is set and the port recorded, and the thread starts only if it never ran; a thread that already ran throws, leaving running set |
| SageTVDiscovery.Finish | src/main/java/opendct/sagetv/SageTVDiscovery.java:167-177 | the finally block clears running and the thread terminates |
| SageTVDiscovery.RestartAfterRunIsDead | src/main/java/opendct/sagetv/SageTVDiscovery.java:36-65 | after one run, a new start sets running without a thread, and every later start is refused as already running |
| SageTVDiscovery.Discovery.constructor | src/main/java/opendct/sagetv/SageTVDiscovery.java:32-38 | not running, no port, thread never started |
| SageTVDiscovery.Discovery.StartDiscoveryBroadcast | src/main/java/opendct/sagetv/SageTVDiscovery.java:46-65 | the state and outcome are those of Start |
| SageTVDiscovery.Discovery.Run | src/main/java/opendct/sagetv/SageTVDiscovery.java:89-180 | a failed bind sends nothing and terminates the JVM; otherwise the loop sends the specified responses, and terminateJVM follows exactly when no datagram ended the loop and the interrupt landed during a receive; the finally block clears running |
| RTPProducer.SetStreamingSocket | src/main/java/opendct/producer/NIORTPProducerImpl.java:58-88 | refused while running; otherwise a bound socket records the port the system chose; a failed bind keeps the requested port and leaves the new, unbound channel in the field |
| RTPProducer.SetConsumer | src/main/java/opendct/producer/NIORTPProducerImpl.java:94-100 | the consumer is set exactly when the producer is not running |
| RTPProducer.StartRun | src/main/java/opendct/producer/NIORTPProducerImpl.java:126-135 | a running producer refuses; a pending stop is consumed with running left set; otherwise the run starts with the watchdog |
| RTPProducer.StopProducing | src/main/java/opendct/producer/NIORTPProducerImpl.java:106-116 | the first stop sets the flag and closes the channel, keeping the reference, and crashes only when the field is null; later stops do nothing |
| RTPProducer.FinishRun | src/main/java/opendct/producer/NIORTPProducerImpl.java:280-292 | a referenced channel is closed but kept, and both flags are cleared |
| RTPProducer.Close | src/main/java/opendct/producer/NIORTPProducerImpl.java:280-288 | closing keeps a reference non-null and leaves it neither bound nor unbound |
| RTPProducer.StopAfterFinishedRun | src/main/java/opendct/producer/NIORTPProducerImpl.java:106-116 | a stop after a run that ended on a live channel closes it again without a crash |
| RTPProducer.StopIsIdempotent | src/main/java/opendct/producer/NIORTPProducerImpl.java:106-109 | stopping twice is stopping once |
| RTPProducer.EarlyStopBlocksRestart | src/main/java/opendct/producer/NIORTPProducerImpl.java:126-135 | after a stop requested before the start, every later start is refused as already running |
| RTPProducer.Payload | src/main/java/opendct/producer/NIORTPProducerImpl.java:254-260 | the consumer gets the bytes after the 12-byte header exactly when the datagram is longer than the header |
| RTPProducer.Kept | src/main/java/opendct/producer/NIORTPProducerImpl.java:243-250 | the 1500-byte buffer keeps a prefix of the datagram |
| RTPProducer.Receive | src/main/java/opendct/producer/NIORTPProducerImpl.java:245-273 | only a bound channel delivers; a datagram longer than the header is forwarded and counted when a consumer is set and neither forwarded nor counted without one; a shorter one is counted |
| RTPProducer.Counted | src/main/java/opendct/producer/NIORTPProducerImpl.java:254-265 | with a consumer every datagram is counted, and none is counted exactly when each is longer than the header with no consumer |
| RTPProducer.Sample | src/main/java/opendct/producer/NIORTPProducerImpl.java:147-149 | the watchdog samples the packet count |
| RTPProducer.Check | src/main/java/opendct/producer/NIORTPProducerImpl.java:158-197 | the count is reset, and the socket is rebuilt on the same port exactly when the count did not move |
| RTPProducer.ReceiveAll | src/main/java/opendct/producer/NIORTPProducerImpl.java:245-266 | a bound channel counts the datagrams of the interval that Counted counts, and keeps channel, port and consumer |
| RTPProducer.RebuildIffSilent | src/main/java/opendct/producer/NIORTPProducerImpl.java:146-197 | over one interval the socket is rebuilt exactly when no datagram was counted, which with a consumer is exactly when none arrived, and on the same port |
| RTPProducer.RebindUsesBoundPort | src/main/java/opendct/producer/NIORTPProducerImpl.java:64-74 | a port the system chose at setup is the port the watchdog rebinds |
| RTPProducer.Drive | src/main/java/opendct/producer/NIORTPProducerImpl.java:219-278 | events after a stop are not handled, and forwarded blocks are only ever appended |
| RTPProducer.ForwardedAreBodies | src/main/java/opendct/producer/NIORTPProducerImpl.java:243-261 | every block given to the consumer is non-empty and at most 1488 bytes |
| RTPProducer.NIORTPProducer.constructor | src/main/java/opendct/producer/NIORTPProducerImpl.java:45-56 | the producer starts idle with nothing bound |
| RTPProducer.NIORTPProducer.SetStreamingSocketTo | src/main/java/opendct/producer/NIORTPProducerImpl.java:58-88 | the state and outcome are those of SetStreamingSocket, including the unbound channel after a failed bind |
| RTPProducer.NIORTPProducer.SetConsumerTo | src/main/java/opendct/producer/NIORTPProducerImpl.java:94-100 | the state and answer are those of SetConsumer |
| RTPProducer.NIORTPProducer.StopProducingNow | src/main/java/opendct/producer/NIORTPProducerImpl.java:106-116 | the state and answer are those of StopProducing |
| RTPProducer.NIORTPProducer.Run | src/main/java/opendct/producer/NIORTPProducerImpl.java:126-293 | a refused start leaves the StartRun state; a started run handles the events up to the stop, then closes the channel it still references and clears both flags |
| RTPProducer.NIORTPProducer.HandleEvents | src/main/java/opendct/producer/NIORTPProducerImpl.java:219-278 | the receive loop leaves the producer in the state the event specification gives for the events it saw |
| FFmpegRemux.Effective | src/main/java/opendct/consumer/FFmpegSageTVConsumerImpl.java:57-99 | every limit is at least its floor and its configured value, and the upload threshold is at least the read/write buffer |
| FFmpegRemux.EffectiveIsIdempotent | src/main/java/opendct/consumer/FFmpegSageTVConsumerImpl.java:57-99 | applying the floors twice is applying them once |
| FFmpegRemux.DefaultsStand | src/main/java/opendct/consumer/FFmpegSageTVConsumerImpl.java:57-99 | the shipped defaults are all at or above their floors |
| FFmpegRemux.CircularBufferWraps | src/main/java/opendct/consumer/FFmpegSageTVConsumerImpl.java:88-92 | a largest probe of INT_MAX makes the int circular buffer size negative |
| FFmpegRemux.NextProbeSize | src/main/java/opendct/consumer/FFmpegSageTVConsumerImpl.java:764-765 | the probe size stays between the smaller of the old size and the limit and the limit, and reaches past the buffered bytes unless capped |
| FFmpegRemux.NextAnalyzeDuration | src/main/java/opendct/consumer/FFmpegSageTVConsumerImpl.java:767-768 | the analyze duration stays between the smaller of the old duration and the limit and the limit, and covers the elapsed time unless capped |
| FFmpegRemux.ProbeLoop | src/main/java/opendct/consumer/FFmpegSageTVConsumerImpl.java:760-863 | the probe gives up only at the size limit; an accepted probe used sizes between the smaller of the start and the limit and the limit, for any configured start, and its audio stream, and its video stream when there is one, have valid codecs; an index reported as read outside the streams is never AVERROR_STREAM_NOT_FOUND |
| FFmpegRemux.Thrown | src/main/java/opendct/consumer/FFmpegSageTVConsumerImpl.java:803-857 | only an attempt without stream information or one whose input opened can be thrown away, and one without stream information always is |
| FFmpegRemux.SizesGrowWithinLimit | src/main/java/opendct/consumer/FFmpegSageTVConsumerImpl.java:760-863 | the probe sizes tried never decrease and stay between the smaller of the minimum and the limit and the limit |
| FFmpegRemux.RetryBelowLimit | src/main/java/opendct/consumer/FFmpegSageTVConsumerImpl.java:803-857 | an attempt thrown away (no stream information, no valid video or audio codec) below the size limit leads to another attempt |
| FFmpegRemux.MinAboveMaxProbesAtLimit | src/main/java/opendct/consumer/FFmpegSageTVConsumerImpl.java:764-810 | a configured minimum above the maximum is cut to the maximum by the first attempt, so its retryable failure is final |
| FFmpegRemux.FloorsKeepMinAboveMax | src/main/java/opendct/consumer/FFmpegSageTVConsumerImpl.java:56-99 | the floors let a minimum probe size above the maximum through |
| FFmpegRemux.InitProbe | src/main/java/opendct/consumer/FFmpegSageTVConsumerImpl.java:738-863 | the loop of initRemuxer gives ProbeLoop's outcome for any configuration, a minimum above its maximum included |
| FFmpegRemux.NoAudioEndsProbe | src/main/java/opendct/consumer/FFmpegSageTVConsumerImpl.java:841-847 | an attempt with no audio stream whose video check passes is never retried, at any probe size: the loop ends reading stream -1 |
| FFmpegRemux.ValidCodec | src/main/java/opendct/consumer/FFmpegSageTVConsumerImpl.java:934-943 | getCodecContext's test; ValidCodecCases states its cases |
| FFmpegRemux.Beats | src/main/java/opendct/consumer/FFmpegSageTVConsumerImpl.java:993 | more channels, or as many channels and strictly more frames; BestAudioChoice states what the choice means |
| FFmpegRemux.ValidCodecCases | src/main/java/opendct/consumer/FFmpegSageTVConsumerImpl.java:934-943 | subtitles are valid, video needs both dimensions, audio needs channels, other kinds are invalid |
| FFmpegRemux.ScanKeepsBest | src/main/java/opendct/consumer/FFmpegSageTVConsumerImpl.java:983-999 | after any number of streams the scan has seen audio exactly when there was some, and holds the earliest audio stream that beats (0, 0) and every other one, or -1 with (0, 0) when none does |
| FFmpegRemux.BestAudioChoice | src/main/java/opendct/consumer/FFmpegSageTVConsumerImpl.java:976-1006 | -1 without audio; otherwise the first stream with the most channels and then the most frames, or FFmpeg's fallback when no audio stream beats (0, 0) |
| FFmpegRemux.FindBestAudioStream | src/main/java/opendct/consumer/FFmpegSageTVConsumerImpl.java:976-1006 | the loop returns BestAudio, whose meaning BestAudioChoice states |
| FFmpegRemux.Examine | src/main/java/opendct/consumer/FFmpegSageTVConsumerImpl.java:818-857 | a chosen pair keeps FFmpeg's video pick and the best audio stream, both valid when present; another try for the video exactly when the picked video stream is invalid; an index outside the streams is reported and is never AVERROR_STREAM_NOT_FOUND |
| FFmpegRemux.NoAudioReadsOutside | src/main/java/opendct/consumer/FFmpegSageTVConsumerImpl.java:841-847 | with no audio stream and a passing video check, the audio lookup reads index -1 |
| FFmpegRemux.ChooseStreams | src/main/java/opendct/consumer/FFmpegSageTVConsumerImpl.java:818-857 | the stream checks of one attempt decide as Examine does |
| FFmpegRemux.BuildStreamMap | src/main/java/opendct/consumer/FFmpegSageTVConsumerImpl.java:874-911 | fails exactly when there is no video stream or video or audio cannot be added; otherwise video maps to 0, audio to 1 and every other stream to a distinct new id, exactly when it is valid and added, or -1 |
| FFmpegRemux.OwnedIsWellFormed | src/main/java/opendct/consumer/FFmpegSageTVConsumerImpl.java:884-911 | a map whose ids each name their own input stream never gives two streams one output id |
| FFmpegRemux.Filter | src/main/java/opendct/consumer/FFmpegSageTVConsumerImpl.java:1011-1075 | never more packets written than read |
| FFmpegRemux.FilterNeverRepeatsDts | src/main/java/opendct/consumer/FFmpegSageTVConsumerImpl.java:1031-1035 | no packet is written with the same dts as the last one seen on its output stream |
| FFmpegRemux.UnmappedPacketDropped | src/main/java/opendct/consumer/FFmpegSageTVConsumerImpl.java:1020-1023 | a packet of an unmapped stream is never written, whatever follows it |
| FFmpegRemux.FirstDtsMinusOneDropped | src/main/java/opendct/consumer/FFmpegSageTVConsumerImpl.java:1011-1035 | since the last dts starts at -1, a first packet with dts -1 is dropped |
| FFmpegRemux.RemuxPackets | src/main/java/opendct/consumer/FFmpegSageTVConsumerImpl.java:1008-1075 | the packet loop writes exactly what Filter selects, starting from a table of -1 |
| FFmpegWriter.WriteAt | src/main/java/opendct/consumer/FFmpegSageTVConsumerImpl.java:700-702 | writing at the file position overwrites or extends the data and moves the position past the bytes |
| FFmpegWriter.RecordWrite | src/main/java/opendct/consumer/FFmpegSageTVConsumerImpl.java:700-710 | a non-empty write returns to position 0 exactly when a ring size is set and the recorded position passed it |
| FFmpegWriter.Ready | src/main/java/opendct/consumer/FFmpegSageTVConsumerImpl.java:588-591 | between writes fewer than minUploadIDTransfer bytes are staged, in any mode |
| FFmpegWriter.OldPart | src/main/java/opendct/consumer/FFmpegSageTVConsumerImpl.java:602-607 | the old destination gets the staged bytes before switchIndex - 1 |
| FFmpegWriter.SwitchCutsInsideStaged | src/main/java/opendct/consumer/FFmpegSageTVConsumerImpl.java:83-84 | with the read/write buffer at its 10340-byte floor, a switch index is -1 or within the staged bytes, so the old part is exactly the bytes before switchIndex - 1 and the rest starts at switchIndex; a switch index past them, where the source would throw IllegalArgumentException, cannot arise |
| FFmpegWriter.NewStart | src/main/java/opendct/consumer/FFmpegSageTVConsumerImpl.java:605 | staging resumes at switchIndex |
| FFmpegWriter.SendOldPart | src/main/java/opendct/consumer/FFmpegSageTVConsumerImpl.java:598-619 | the bytes before the switch point are counted as streamed on the old upload and the switch flag is cleared; staging, mode, file and switch target stay as they were |
| FFmpegWriter.AdoptSwitch | src/main/java/opendct/consumer/FFmpegSageTVConsumerImpl.java:621-633 | an accepted switch makes the switch target current and restarts the byte count at 0; a refused one changes nothing |
| FFmpegWriter.NoRingAppends | src/main/java/opendct/consumer/FFmpegSageTVConsumerImpl.java:700-710 | without a ring size a write at the end of the file appends |
| FFmpegWriter.RingStaysBounded | src/main/java/opendct/consumer/FFmpegSageTVConsumerImpl.java:700-710 | with a ring size and writes of at most maxWrite bytes, the position stays within the ring size plus one write and the file within the ring size plus two writes |
| FFmpegWriter.Decide | src/main/java/opendct/consumer/FFmpegSageTVConsumerImpl.java:564-580 | with no switch pending the pass count resets to 940; once more than a buffer has passed the switch happens at the end of the staged bytes |
| FFmpegWriter.MiddleBranchesUnreachable | src/main/java/opendct/consumer/FFmpegSageTVConsumerImpl.java:566-580 | from a pass count of 940 the two middle branches never fire |
| FFmpegWriter.FullBufferFromZeroSplitsAtFirstPacket | src/main/java/opendct/consumer/FFmpegSageTVConsumerImpl.java:571-573 | from a pass count of 0 a full-buffer write reaches the branch that splits at byte 187 |
| FFmpegWriter.SwitchUpload | src/main/java/opendct/consumer/FFmpegSageTVConsumerImpl.java:598-635 | the switch clears the request and leaves the staged bytes and file alone |
| FFmpegWriter.SendRest | src/main/java/opendct/consumer/FFmpegSageTVConsumerImpl.java:639-649 | the remaining bytes are sent and the staging emptied |
| FFmpegWriter.FlushUpload | src/main/java/opendct/consumer/FFmpegSageTVConsumerImpl.java:593-649 | the staging is always emptied, and the mode, file and ring size stay |
| FFmpegWriter.FinishOld | src/main/java/opendct/consumer/FFmpegSageTVConsumerImpl.java:656-675 | the old part finishes the current file and the switch request is cleared |
| FFmpegWriter.Retire | src/main/java/opendct/consumer/FFmpegSageTVConsumerImpl.java:677-695 | a waiting new file replaces the current one, and the file stays writable |
| FFmpegWriter.WriteRest | src/main/java/opendct/consumer/FFmpegSageTVConsumerImpl.java:700-711 | the remaining bytes are written and the staging emptied |
| FFmpegWriter.FlushFile | src/main/java/opendct/consumer/FFmpegSageTVConsumerImpl.java:651-711 | file mode empties the staging and always leaves a writable current file |
| FFmpegWriter.Write | src/main/java/opendct/consumer/FFmpegSageTVConsumerImpl.java:559-736 | a write keeps the writer ready and never changes its mode |
| FFmpegWriter.UploadWaitsForThreshold | src/main/java/opendct/consumer/FFmpegSageTVConsumerImpl.java:588-591 | below the upload threshold the bytes are only staged, and nothing is sent or counted |
| FFmpegWriter.UploadSendsEverything | src/main/java/opendct/consumer/FFmpegSageTVConsumerImpl.java:593-649 | without a switch, reaching the threshold sends every staged byte in one block and counts it |
| FFmpegWriter.FileWritesEveryCall | src/main/java/opendct/consumer/FFmpegSageTVConsumerImpl.java:650-711 | file mode writes the staged bytes and the new ones at the file position on every call and counts them |
| FFmpegWriter.StaleStagingOpensNextFile | src/main/java/opendct/consumer/FFmpegSageTVConsumerImpl.java:588-715 | bytes an upload run left staged open the next run's new file |
| FFmpegWriter.NullOnlyCounts | src/main/java/opendct/consumer/FFmpegSageTVConsumerImpl.java:712-716 | the null sink only counts, stale staged bytes included, and a pending switch never completes |
| FFmpegWriter.UploadSwitchDropsLastByte | src/main/java/opendct/consumer/FFmpegSageTVConsumerImpl.java:598-646 | an upload switch sends all but the last staged byte to the old id and nothing to the new one; an accepted switch adopts the new name and id |
| FFmpegWriter.FileSwitchDropsLastByte | src/main/java/opendct/consumer/FFmpegSageTVConsumerImpl.java:654-711 | a file switch writes all but the last staged byte to the old file, retires it, and makes the new file current |
| FFmpegWriter.FFmpegConsumer.constructor | src/main/java/opendct/consumer/FFmpegSageTVConsumerImpl.java:83-128 | a consumer with no destination, nothing staged and no switch pending |
| FFmpegWriter.FFmpegConsumer.ConsumeToUploadID | src/main/java/opendct/consumer/FFmpegSageTVConsumerImpl.java:356-365 | always accepted; only the name and the upload id change |
| FFmpegWriter.FFmpegConsumer.ConsumeToFilename | src/main/java/opendct/consumer/FFmpegSageTVConsumerImpl.java:368-380 | accepted exactly when the file can be created, which then becomes the empty current file |
| FFmpegWriter.FFmpegConsumer.SetRecordBufferSize | src/main/java/opendct/consumer/FFmpegSageTVConsumerImpl.java:319-321 | only the ring size changes |
| FFmpegWriter.FFmpegConsumer.ConsumeToNull | src/main/java/opendct/consumer/FFmpegSageTVConsumerImpl.java:352-354 | only the null flag changes |
| FFmpegWriter.FFmpegConsumer.SwitchStreamToUploadID | src/main/java/opendct/consumer/FFmpegSageTVConsumerImpl.java:382-402 | the switch is requested, and the answer is false |
| FFmpegWriter.FFmpegConsumer.SwitchStreamToFilename | src/main/java/opendct/consumer/FFmpegSageTVConsumerImpl.java:404-429 | accepted exactly when the new file can be created, and only then requested |
| FFmpegWriter.BeginRun | src/main/java/opendct/consumer/FFmpegSageTVConsumerImpl.java:157-221 | an upload id above 0 streams to its session when it starts, else to a new empty file under its name, else to the null sink when set, else runs on with no file; otherwise an opened file, then the null sink, and with neither the run ends at once; staged bytes, the switch request, the ring, the upload id and the logs are kept |
| FFmpegWriter.EndRun | src/main/java/opendct/consumer/FFmpegSageTVConsumerImpl.java:253-294 | the count is cleared and the file and its name are dropped; everything else is kept |
| FFmpegWriter.UploadLeftoversOpenFallbackFile | src/main/java/opendct/consumer/FFmpegSageTVConsumerImpl.java:176-206 | bytes an upload run left staged begin the next run's fallback file when that run's upload session cannot start |
| FFmpegWriter.FFmpegConsumer.StartRun | src/main/java/opendct/consumer/FFmpegSageTVConsumerImpl.java:157-221 | a running consumer refuses and changes nothing; otherwise the new state and outcome are BeginRun's, and running stays set unless the run ended at once |
| FFmpegWriter.FFmpegConsumer.FinishRun | src/main/java/opendct/consumer/FFmpegSageTVConsumerImpl.java:253-294 | the new state is EndRun's and running is cleared |
| FFmpegWriter.FFmpegConsumer.SwitchUploadNow | src/main/java/opendct/consumer/FFmpegSageTVConsumerImpl.java:598-635 | the state becomes SwitchUpload's |
| FFmpegWriter.FFmpegConsumer.SendOldPartNow | src/main/java/opendct/consumer/FFmpegSageTVConsumerImpl.java:598-619 | the state becomes SendOldPart's |
| FFmpegWriter.FFmpegConsumer.AdoptSwitchNow | src/main/java/opendct/consumer/FFmpegSageTVConsumerImpl.java:621-633 | the state becomes AdoptSwitch's |
| FFmpegWriter.FFmpegConsumer.SendRestNow | src/main/java/opendct/consumer/FFmpegSageTVConsumerImpl.java:639-649 | the state becomes SendRest's |
| FFmpegWriter.FFmpegConsumer.FlushToUpload | src/main/java/opendct/consumer/FFmpegSageTVConsumerImpl.java:593-649 | the state becomes FlushUpload's |
| FFmpegWriter.FFmpegConsumer.FinishOldNow | src/main/java/opendct/consumer/FFmpegSageTVConsumerImpl.java:656-675 | the state becomes FinishOld's |
| FFmpegWriter.FFmpegConsumer.RetireNow | src/main/java/opendct/consumer/FFmpegSageTVConsumerImpl.java:677-695 | the state becomes Retire's |
| FFmpegWriter.FFmpegConsumer.WriteRestNow | src/main/java/opendct/consumer/FFmpegSageTVConsumerImpl.java:700-711 | the state becomes WriteRest's |
| FFmpegWriter.FFmpegConsumer.FlushToFile | src/main/java/opendct/consumer/FFmpegSageTVConsumerImpl.java:651-711 | the state becomes FlushFile's |
| FFmpegWriter.FFmpegConsumer.WriteBuffer | src/main/java/opendct/consumer/FFmpegSageTVConsumerImpl.java:559-736 | writeBuffer reports the whole length and leaves the state Write specifies |

## Left out

- Network, HTTP and file I/O, threads, waits and clocks: these are not modelled. Their results are parameters instead: page lines, reply bytes, datagrams, creation outcomes, timestamps and probe attempts.
- The HDHomeRunPacket class is not part of this model. The reply tag layout follows the HDHomeRun control protocol (a tag byte, a one- or two-byte length, the data), and the CRC and socket timeouts are left out.
- ChannelLineup, OfflineChannelScan, NIOSageTVUploadID, RTPPacketProcessor and FFmpegCircularBuffer are modelled as values or logs. Their own logic (packet-loss counting, the circular buffer, the upload protocol) is not part of this model.
- FFmpeg native calls (avformat_open_input, avformat_find_stream_info, av_find_best_stream, av_interleaved_write_frame) are oracles. Their outcomes are parameters.
- The EIA channel float parse and format, and the lineup's isDuplicate check, are oracles of the scraper.
- InfiniTVStatus.SignalLevelText: stops at the number text; the float parse of the signal level is not modelled.
- SageTVDiscovery.TextBytes: the response text is encoded with Config.STD_BYTE, and Config is not part of this model. The texts encoded are a host address or "127.0.0.1", which are ASCII; the model gives one byte per character, which matches any ASCII-compatible charset only below 128.
- JavaText.DigitValue: reads only ASCII digits and letters; Character.digit also accepts other Unicode digits, which are not modelled.
- SageTVDiscovery.Discovery.Run: an I/O error while sending a response is not modelled; in the source it would also end the loop and terminate the JVM.
- RTPProducer.Receive: a receive on the unbound channel a failed bind leaves behind binds it to an ephemeral port in the source; nothing is sent there, so the model delivers nothing.
- Channel harvesting from a finished offline scan, loadChannelLineups, the stop and wait methods, the plain getters and the ConfigBag file format are left out; they are I/O or thread coordination.
- Config.getInteger is a parameter: the configured values arrive as a record before the floors are applied.
- FFmpegWriter.FFmpegConsumer.WriteBuffer: I/O exceptions inside writeBuffer and its catch paths are not modelled. In file mode a write with no destination (a NullPointerException in the source) is excluded by the Ready precondition; bytes left staged by an earlier upload run are allowed and handled.
- The busy-wait loops of switchStreamToFilename and switchStreamToUploadID are left out. The model records the switch request, and the write that completes it is modelled by Write.
- FFmpegWriter.FFmpegConsumer.FinishRun: drops the current file, while the source leaves currentFileOutputStream set to a closed stream that a second run would reuse.
- The source's currentFile and currentFileOutputStream are one destination in the model. A file write stores all of its bytes in one pass.
- FFmpegRemux.ProbeLoop: the error returns after the probe (opening the output context, lines 869-880) are not modelled beyond BuildStreamMap's failure. An interruption is an attempt outcome of its own, whichever of the checks at lines 797-849 sees it.
- FFmpegRemux.BuildStreamMap: an accepted probe without a video stream fails. The source gets there in one of two ways: a NullPointerException in addStreamToContext (line 874) when no earlier attempt had a valid video stream, or a video codec context an earlier attempt freed, whose use depends on FFmpeg. The model does not tell these apart.
- FFmpegRemux.BuildStreamMap: requires the video and audio streams to differ. av_find_best_stream returns a stream of the type asked for, and that is not modelled.
- The watchdog thread of NIORTPProducerImpl is modelled as a check between batches of datagrams; interleavings with the receive loop are not modelled.
- RTPProducer.NIORTPProducer.Run: a run whose events run out with no stop stands for an interrupt of the receive thread (line 219). The source interrupts the watchdog only in stopProducing (lines 111-113), so after such a run the watchdog lives on and keeps rebuilding the socket; the model ends it with the run.
- InfiniTVScraper.Scan: the lineup holds channel values, so each channel object's change journal is not tracked during a scrape.
