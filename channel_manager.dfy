/**
 * The registries of the channel manager: lineups by name, the capture
 * devices that opted in to offline scanning of each lineup, and the offline
 * scans by lineup name; the scheduling of lineup updates and offline scans
 * against a clock; and the formatting of a lineup when it is saved.
 *
 * ChannelLineup and OfflineChannelScan are not part of this model: a lineup
 * is a value holding what the manager reads of it, and a scan is a value
 * holding its devices and its running/complete status.
 */
module ChannelRegistry {
  import opened JavaText
  import opened TVChannels

  datatype SourceType = INFINITV | PRIME | STATIC

  datatype Lineup = Lineup(
    name: string,
    source: SourceType,
    channels: seq<ChannelProps>,     // getAllChannels(true, true), in its order
    updateInterval: int,
    offlineUpdateInterval: int,
    nextUpdate: int,
    nextOfflineUpdate: int)

  datatype OfflineScan = OfflineScan(devices: set<string>, running: bool, complete: bool)

  /** Everything the manager keeps, plus the lineups it asked to refresh or save, in order. */
  datatype Registry = Registry(
    lineups: map<string, Lineup>,
    scanDevices: map<string, set<string>>,
    scans: map<string, OfflineScan>,
    refreshed: seq<string>,
    saved: seq<string>)

  // ---------------------------------------------------------------- devices

  /** addDeviceToOfflineScan: the lineup's set, created when absent, gains the device. */
  function AddDevice(m: map<string, set<string>>, lineup: string, device: string): (r: map<string, set<string>>)
    ensures r.Keys == m.Keys + {lineup}
    ensures device in r[lineup] && (lineup in m ==> r[lineup] == m[lineup] + {device})
    ensures lineup !in m ==> r[lineup] == {device}
    ensures forall l :: l in m && l != lineup ==> r[l] == m[l]
  {
    m[lineup := (if lineup in m then m[lineup] else {}) + {device}]
  }

  /** removeDeviceFromOfflineScan: an unknown lineup is left alone. */
  function RemoveDevice(m: map<string, set<string>>, lineup: string, device: string): (r: map<string, set<string>>)
    ensures lineup !in m ==> r == m
    ensures r.Keys == m.Keys
    ensures lineup in m ==> r[lineup] == m[lineup] - {device}
    ensures forall l :: l in m && l != lineup ==> r[l] == m[l]
  {
    if lineup !in m then m else m[lineup := m[lineup] - {device}]
  }

  /** Adding a device twice is adding it once. */
  lemma AddDeviceIdempotent(m: map<string, set<string>>, lineup: string, device: string)
    ensures AddDevice(AddDevice(m, lineup, device), lineup, device) == AddDevice(m, lineup, device)
  {
  }

  /** Removing a device that was just added restores a set that did not hold it. */
  lemma RemoveUndoesAdd(m: map<string, set<string>>, lineup: string, device: string)
    requires lineup in m && device !in m[lineup]
    ensures RemoveDevice(AddDevice(m, lineup, device), lineup, device) == m
  {
    var r := RemoveDevice(AddDevice(m, lineup, device), lineup, device);
    assert r[lineup] == m[lineup];
    assert r.Keys == m.Keys;
  }

  /** The devices registered for a lineup, none for an unknown one. */
  function DevicesOf(m: map<string, set<string>>, lineup: string): set<string>
  {
    if lineup in m then m[lineup] else {}
  }

  // ---------------------------------------------------------------- scans

  /**
   * startOfflineChannelScan: no devices, or a scan of the lineup still
   * running, refuse; otherwise a new scan replaces the old one in the map
   * before it is started, and the outcome of its start is the result.
   */
  function StartScan(r: Registry, lineup: string, startOk: bool): (res: (Registry, bool))
    ensures res.1 ==> startOk
    ensures DevicesOf(r.scanDevices, lineup) == {} ==> res == (r, false)
    ensures lineup in r.scans && r.scans[lineup].running ==> res == (r, false)
    ensures res.0 != r ==> res.0 == r.(scans := r.scans[lineup := OfflineScan(DevicesOf(r.scanDevices, lineup), startOk, false)])
  {
    var devices := DevicesOf(r.scanDevices, lineup);
    if devices == {} then (r, false)
    else if lineup in r.scans && r.scans[lineup].running then (r, false)
    else (r.(scans := r.scans[lineup := OfflineScan(devices, startOk, false)]), startOk)
  }

  /** A scan that started is recorded as running with the lineup's devices. */
  lemma StartedScanIsRecorded(r: Registry, lineup: string, startOk: bool)
    requires StartScan(r, lineup, startOk).1
    ensures var r' := StartScan(r, lineup, startOk).0;
            lineup in r'.scans && r'.scans[lineup] == OfflineScan(DevicesOf(r.scanDevices, lineup), true, false)
            && r'.lineups == r.lineups && r'.scanDevices == r.scanDevices
  {
  }

  /** What one lineup's turn in startAllOfflineChannelScans gives: a registry, or an abort. */
  datatype Turn = Continue(reg: Registry) | Abort(reg: Registry)

  /** A completed scan is dropped from the map, and its lineup saved when it still exists. */
  function RetireCompleted(r: Registry, name: string): (r1: Registry)
    ensures r1.lineups == r.lineups && r1.scanDevices == r.scanDevices && r1.refreshed == r.refreshed
    ensures name in r.scans && r.scans[name].complete ==> r1.scans == r.scans - {name}
    ensures !(name in r.scans && r.scans[name].complete) ==> r1 == r
    ensures |r1.saved| <= |r.saved| + 1
  {
    if name in r.scans && r.scans[name].complete then
      r.(scans := r.scans - {name}, saved := if name in r.lineups then r.saved + [name] else r.saved)
    else r
  }

  /**
   * One turn of startAllOfflineChannelScans. A complete scan is saved and
   * dropped from the map. A scan that stopped without completing is
   * restarted; otherwise a lineup not yet due is skipped unless now is set,
   * and a due one gets a new scan. Only a scan that started moves the
   * lineup's next offline update to clock + its update interval. Reading a
   * lineup that is not registered aborts the whole round.
   */
  function OfflineTurn(r: Registry, now: bool, clock: int, name: string, startOk: bool): (t: Turn)
    ensures t.reg.scanDevices == r.scanDevices && t.reg.refreshed == r.refreshed
    ensures t.reg.lineups.Keys == r.lineups.Keys
    ensures now && name in r.lineups ==> t.Continue?
  {
    var scan := if name in r.scans then Some(r.scans[name]) else None;
    var r1 := RetireCompleted(r, name);
    var retry := scan.Some? && !scan.value.running && !scan.value.complete;
    if !retry && !now && name !in r1.lineups then Abort(r1)
    else if !retry && !now && r1.lineups[name].nextOfflineUpdate > clock then Continue(r1)
    else
      var (r2, started) := StartScan(r1, name, startOk);
      if !started then Continue(r2)
      else if name !in r2.lineups then Abort(r2)
      else
        var l := r2.lineups[name];
        Continue(r2.(lineups := r2.lineups[name := l.(nextOfflineUpdate := clock + l.updateInterval)]))
  }

  /**
   * A turn touches only its own lineup's record and scan, and a record it
   * changes is rescheduled from the clock with a running scan.
   */
  lemma OfflineTurnOnlyItsLineup(r: Registry, now: bool, clock: int, name: string, startOk: bool, other: string)
    requires other != name
    ensures var t := OfflineTurn(r, now, clock, name, startOk).reg;
            (other in r.lineups ==> t.lineups[other] == r.lineups[other])
            && (other in t.scans <==> other in r.scans)
            && (other in r.scans ==> t.scans[other] == r.scans[other])
            && (name in r.lineups && t.lineups[name] != r.lineups[name]
                ==> t.lineups[name] == r.lineups[name].(nextOfflineUpdate := clock + r.lineups[name].updateInterval)
                    && name in t.scans && t.scans[name].running)
  {
  }

  /** A lineup that is not due, without a stalled scan, is not touched unless now is set. */
  lemma NotDueIsSkipped(r: Registry, clock: int, name: string, startOk: bool)
    requires name in r.lineups && r.lineups[name].nextOfflineUpdate > clock
    requires name !in r.scans || (r.scans[name].running && !r.scans[name].complete)
    ensures OfflineTurn(r, false, clock, name, startOk) == Continue(r)
  {
  }

  /**
   * With now set, a registered lineup that has devices and no running scan
   * gets a scan that, when its start succeeds, is running with the lineup's
   * devices, and is rescheduled from the clock.
   */
  lemma NowStartsIdleLineup(r: Registry, clock: int, name: string)
    requires name in r.lineups && DevicesOf(r.scanDevices, name) != {}
    requires !(name in r.scans && r.scans[name].running)
    ensures var t := OfflineTurn(r, true, clock, name, true);
            t.Continue? && name in t.reg.scans
            && t.reg.scans[name] == OfflineScan(DevicesOf(r.scanDevices, name), true, false)
            && t.reg.lineups[name] == r.lineups[name].(nextOfflineUpdate := clock + r.lineups[name].updateInterval)
  {
    var r1 := RetireCompleted(r, name);
    assert !(name in r1.scans && r1.scans[name].running);
    assert StartScan(r1, name, true).1;
  }

  /** The lineups' turns in the order the device map is walked, stopping at an abort. */
  function OfflineRound(r: Registry, now: bool, clock: int, names: seq<string>, startOk: string -> bool): (t: Turn)
    ensures t.reg.scanDevices == r.scanDevices && t.reg.lineups.Keys == r.lineups.Keys
  {
    if names == [] then Continue(r)
    else match OfflineRound(r, now, clock, names[..|names| - 1], startOk)
      case Abort(r1) => Abort(r1)
      case Continue(r1) => OfflineTurn(r1, now, clock, names[|names| - 1], startOk(names[|names| - 1]))
  }

  /** A lineup outside the walk keeps its record and its scan, whether or not the round aborts. */
  lemma {:induction false} OfflineUntouchedByRound(r: Registry, now: bool, clock: int, names: seq<string>,
                                                   startOk: string -> bool, other: string)
    requires other !in names
    ensures var t := OfflineRound(r, now, clock, names, startOk).reg;
            (other in r.lineups ==> t.lineups[other] == r.lineups[other])
            && (other in t.scans <==> other in r.scans)
            && (other in r.scans ==> t.scans[other] == r.scans[other])
  {
    if names != [] {
      var init := names[..|names| - 1];
      assert other !in init by {
        assert forall k :: 0 <= k < |init| ==> init[k] == names[k];
      }
      OfflineUntouchedByRound(r, now, clock, init, startOk, other);
      var mid := OfflineRound(r, now, clock, init, startOk);
      if mid.Continue? {
        OfflineTurnOnlyItsLineup(mid.reg, now, clock, names[|names| - 1], startOk(names[|names| - 1]), other);
      }
    }
  }

  /**
   * With now set and every start succeeding, each walked lineup that has
   * devices and no running scan ends the round with a running scan of its
   * devices, rescheduled from the clock; and the round never aborts.
   */
  lemma {:induction false} OfflineNowStartsAll(r: Registry, clock: int, names: seq<string>, startOk: string -> bool)
    requires forall k :: 0 <= k < |names| ==> names[k] in r.lineups && startOk(names[k])
    requires forall j, k :: 0 <= j < k < |names| ==> names[j] != names[k]
    ensures OfflineRound(r, true, clock, names, startOk).Continue?
    ensures forall k :: 0 <= k < |names| && DevicesOf(r.scanDevices, names[k]) != {}
                        && !(names[k] in r.scans && r.scans[names[k]].running) ==>
              var t := OfflineRound(r, true, clock, names, startOk).reg;
              names[k] in t.scans && t.scans[names[k]] == OfflineScan(DevicesOf(r.scanDevices, names[k]), true, false)
              && t.lineups[names[k]] == r.lineups[names[k]].(nextOfflineUpdate := clock + r.lineups[names[k]].updateInterval)
  {
    if names != [] {
      var init := names[..|names| - 1];
      var last := names[|names| - 1];
      assert forall k :: 0 <= k < |init| ==> init[k] == names[k];
      OfflineNowStartsAll(r, clock, init, startOk);
      var mid := OfflineRound(r, true, clock, init, startOk).reg;
      assert last !in init;
      OfflineUntouchedByRound(r, true, clock, init, startOk, last);
      var t := OfflineTurn(mid, true, clock, last, true);
      assert OfflineRound(r, true, clock, names, startOk) == t;
      forall k | 0 <= k < |names| && DevicesOf(r.scanDevices, names[k]) != {}
                 && !(names[k] in r.scans && r.scans[names[k]].running)
        ensures names[k] in t.reg.scans && t.reg.scans[names[k]] == OfflineScan(DevicesOf(r.scanDevices, names[k]), true, false)
        ensures t.reg.lineups[names[k]] == r.lineups[names[k]].(nextOfflineUpdate := clock + r.lineups[names[k]].updateInterval)
      {
        var n := names[k];
        if k == |names| - 1 {
          NowStartsIdleLineup(mid, clock, last);
        } else {
          assert n == init[k] && n != last;
          OfflineTurnOnlyItsLineup(mid, true, clock, last, true, n);
          assert n in mid.scans && mid.scans[n] == OfflineScan(DevicesOf(r.scanDevices, n), true, false);
          assert t.reg.scans[n] == mid.scans[n];
          assert t.reg.lineups[n] == mid.lineups[n];
        }
      }
    }
  }

  // ---------------------------------------------------------------- lineup updates

  /** A lineup is left for later only when now is not set, it is not due and it has channels. */
  predicate UpdateSkipped(l: Lineup, now: bool, clock: int)
  {
    !now && l.nextUpdate > clock && |l.channels| > 0
  }

  /** One lineup of updateChannelLineups: refreshed from its source and rescheduled, or skipped. */
  function UpdateTurn(r: Registry, now: bool, clock: int, name: string): (r': Registry)
    requires name in r.lineups
    ensures r'.lineups.Keys == r.lineups.Keys && r'.scans == r.scans && r'.scanDevices == r.scanDevices
    ensures forall l :: l in r.lineups && l != name ==> r'.lineups[l] == r.lineups[l]
  {
    var l := r.lineups[name];
    if UpdateSkipped(l, now, clock) then r
    else
      r.(lineups := r.lineups[name := l.(nextUpdate := clock + l.updateInterval)],
         refreshed := if l.source != STATIC then r.refreshed + [name] else r.refreshed)
  }

  function UpdateRound(r: Registry, now: bool, clock: int, names: seq<string>): (r': Registry)
    requires forall k :: 0 <= k < |names| ==> names[k] in r.lineups
    ensures r'.lineups.Keys == r.lineups.Keys && r'.scans == r.scans && r'.scanDevices == r.scanDevices
  {
    if names == [] then r
    else UpdateTurn(UpdateRound(r, now, clock, names[..|names| - 1]), now, clock, names[|names| - 1])
  }

  /** A lineup's schedule moves exactly when it was not skipped, and then to clock + its interval. */
  lemma UpdateTurnReschedules(r: Registry, now: bool, clock: int, name: string)
    requires name in r.lineups
    ensures var l := r.lineups[name];
            var l' := UpdateTurn(r, now, clock, name).lineups[name];
            (UpdateSkipped(l, now, clock) ==> UpdateTurn(r, now, clock, name) == r)
            && (!UpdateSkipped(l, now, clock) ==> l' == l.(nextUpdate := clock + l.updateInterval))
  {
  }

  /** With now set, every lineup in the walk is rescheduled from the clock. */
  lemma {:induction false} UpdateNowReschedulesAll(r: Registry, clock: int, names: seq<string>)
    requires forall k :: 0 <= k < |names| ==> names[k] in r.lineups
    requires forall j, k :: 0 <= j < k < |names| ==> names[j] != names[k]
    ensures forall k :: 0 <= k < |names| ==>
              UpdateRound(r, true, clock, names).lineups[names[k]]
              == r.lineups[names[k]].(nextUpdate := clock + r.lineups[names[k]].updateInterval)
  {
    if names != [] {
      var init := names[..|names| - 1];
      UpdateNowReschedulesAll(r, clock, init);
      var mid := UpdateRound(r, true, clock, init);
      var last := names[|names| - 1];
      assert last !in init;
      assert mid.lineups[last] == r.lineups[last] by {
        UntouchedByRound(r, true, clock, init, last);
      }
    }
  }

  /** A lineup not in the walk keeps its record. */
  lemma {:induction false} UntouchedByRound(r: Registry, now: bool, clock: int, names: seq<string>, other: string)
    requires forall k :: 0 <= k < |names| ==> names[k] in r.lineups
    requires other in r.lineups && other !in names
    ensures UpdateRound(r, now, clock, names).lineups[other] == r.lineups[other]
  {
    if names != [] {
      UntouchedByRound(r, now, clock, names[..|names| - 1], other);
    }
  }

  // ---------------------------------------------------------------- saving

  function Zeros(n: nat): (z: string)
    ensures |z| == n && forall k :: 0 <= k < n ==> z[k] == '0'
  {
    seq(n, _ => '0')
  }

  /** The key a channel is saved under: its number left-padded with '0' to four characters. */
  function PadKey(channel: string): (key: string)
    ensures |key| == if |channel| >= 4 then |channel| else 4
    ensures key == Zeros(|key| - |channel|) + channel
  {
    if |channel| >= 4 then channel else Zeros(4 - |channel|) + channel
  }

  /** Leading zeros do not change the value of a run of digits. */
  lemma {:induction false} ZerosValue(n: nat, ds: string)
    ensures DigitsValue(Zeros(n) + ds, 10) == DigitsValue(ds, 10)
    decreases |ds|, n
  {
    if ds != [] {
      var s := Zeros(n) + ds;
      assert s[..|s| - 1] == Zeros(n) + ds[..|ds| - 1];
      ZerosValue(n, ds[..|ds| - 1]);
    } else if n > 0 {
      assert Zeros(n) + ds == Zeros(n - 1) + ['0'];
      assert (Zeros(n - 1) + ['0'])[..n - 1] == Zeros(n - 1) + [];
      ZerosValue(n - 1, []);
    }
  }

  /** A channel number of plain digits keeps its value under the key padding. */
  lemma PadKeyKeepsNumber(channel: string)
    requires channel != [] && forall k :: 0 <= k < |channel| ==> '0' <= channel[k] <= '9'
    ensures ParseInt(PadKey(channel), 10) == ParseInt(channel, 10)
  {
    var key := PadKey(channel);
    var z := Zeros(|key| - |channel|);
    ZerosValue(|key| - |channel|, channel);
    assert key[0] != '-' && key[0] != '+';
  }

  /** The zero-padding loop of saveChannelLineup. */
  method PadChannelKey(channel: string) returns (key: string)
    ensures key == PadKey(channel)
  {
    key := channel;
    while |key| < 4
      invariant |channel| <= |key| && (|channel| < 4 ==> |key| <= 4)
      invariant key == Zeros(|key| - |channel|) + channel
      invariant |channel| >= 4 ==> key == channel
      decreases 4 - |key|
    {
      key := "0" + key;
    }
  }

  predicate Available(c: ChannelProps)
  {
    c.tunable && !c.ignore
  }

  /** The numbers of the channels that are (or are not) available, in lineup order. */
  function NumbersWhere(cs: seq<ChannelProps>, available: bool): (r: seq<string>)
    ensures |r| <= |cs|
  {
    if cs == [] then []
    else NumbersWhere(cs[..|cs| - 1], available)
         + (if Available(cs[|cs| - 1]) == available then [cs[|cs| - 1].channel] else [])
  }

  /** Each channel lands in exactly one of the two lists. */
  lemma {:induction false} ListsPartition(cs: seq<ChannelProps>)
    ensures |NumbersWhere(cs, true)| + |NumbersWhere(cs, false)| == |cs|
    ensures forall k :: 0 <= k < |cs| ==> cs[k].channel in NumbersWhere(cs, Available(cs[k]))
  {
    if cs != [] {
      var init := cs[..|cs| - 1];
      ListsPartition(init);
      forall k | 0 <= k < |cs| ensures cs[k].channel in NumbersWhere(cs, Available(cs[k])) {
        if k < |cs| - 1 {
          assert cs[k] == init[k];
        }
      }
    }
  }

  /** What a StringBuilder holds after appending each item and a comma. */
  function Terminated(xs: seq<string>): (s: string)
  {
    if xs == [] then [] else Terminated(xs[..|xs| - 1]) + xs[|xs| - 1] + ","
  }

  lemma TerminatedSnoc(xs: seq<string>, x: string)
    ensures Terminated(xs + [x]) == Terminated(xs) + x + ","
  {
    assert (xs + [x])[..|xs|] == xs;
  }

  /** Deleting the builder's last comma leaves the comma-joined list. */
  lemma {:induction false} TerminatedIsJoin(xs: seq<string>)
    ensures xs == [] ==> Terminated(xs) == []
    ensures xs != [] ==> Terminated(xs) == Join(xs, ",") + ","
  {
    if |xs| > 1 {
      var init := xs[..|xs| - 1];
      TerminatedIsJoin(init);
      JoinSnoc(init, ",", xs[|xs| - 1]);
      assert init + [xs[|xs| - 1]] == xs;
    }
  }

  /** The available and unavailable lists, comma-joined without a trailing comma. */
  method AvailabilityLists(cs: seq<ChannelProps>) returns (unavailable: string, available: string)
    ensures unavailable == Join(NumbersWhere(cs, false), ",")
    ensures available == Join(NumbersWhere(cs, true), ",")
  {
    unavailable, available := "", "";
    var i := 0;
    while i < |cs|
      invariant 0 <= i <= |cs|
      invariant unavailable == Terminated(NumbersWhere(cs[..i], false))
      invariant available == Terminated(NumbersWhere(cs[..i], true))
    {
      assert cs[..i + 1][..i] == cs[..i];
      TerminatedSnoc(NumbersWhere(cs[..i], Available(cs[i])), cs[i].channel);
      assert NumbersWhere(cs[..i + 1], Available(cs[i])) == NumbersWhere(cs[..i], Available(cs[i])) + [cs[i].channel];
      assert NumbersWhere(cs[..i + 1], !Available(cs[i])) == NumbersWhere(cs[..i], !Available(cs[i])) + [];
      assert NumbersWhere(cs[..i], !Available(cs[i])) + [] == NumbersWhere(cs[..i], !Available(cs[i]));
      if !cs[i].tunable || cs[i].ignore {
        unavailable := unavailable + cs[i].channel + ",";
      } else if cs[i].tunable && !cs[i].ignore {
        available := available + cs[i].channel + ",";
      }
      i := i + 1;
    }
    assert cs[..i] == cs;
    TerminatedIsJoin(NumbersWhere(cs, false));
    TerminatedIsJoin(NumbersWhere(cs, true));
    if |unavailable| > 0 {
      unavailable := unavailable[..|unavailable| - 1];
    }
    if |available| > 0 {
      available := available[..|available| - 1];
    }
  }

  /** The channel entries and the two lists a saved lineup holds. */
  datatype SavedLineup = SavedLineup(
    entries: seq<(string, seq<string>)>,   // "channel." + padded number, and the 12 properties
    unavailable: string,
    available: string)

  function SavedForm(l: Lineup): (s: SavedLineup)
    ensures |s.entries| == |l.channels|
  {
    SavedLineup(
      seq(|l.channels|, k requires 0 <= k < |l.channels| => ("channel." + PadKey(l.channels[k].channel), Properties(l.channels[k]))),
      Join(NumbersWhere(l.channels, false), ","),
      Join(NumbersWhere(l.channels, true), ","))
  }

  /** The loop that writes one padded key and property array per channel. */
  method SavedEntries(l: Lineup) returns (entries: seq<(string, seq<string>)>)
    ensures entries == SavedForm(l).entries
  {
    entries := [];
    var i := 0;
    while i < |l.channels|
      invariant 0 <= i <= |l.channels|
      invariant entries == SavedForm(l).entries[..i]
    {
      var key := PadChannelKey(l.channels[i].channel);
      entries := entries + [("channel." + key, Properties(l.channels[i]))];
      i := i + 1;
    }
  }

  /** Every saved channel entry reads back as the channel it was written from. */
  lemma SavedEntriesRoundTrip(l: Lineup, k: int)
    requires 0 <= k < |l.channels| && IsInt32(l.channels[k].signalStrength)
    ensures FromProperties(SavedForm(l).entries[k].1) == Some(l.channels[k])
  {
    PropertiesRoundTrip(l.channels[k]);
  }

  // ---------------------------------------------------------------- the manager

  class ChannelManager {
    var lineups: map<string, Lineup>
    var scanDevices: map<string, set<string>>
    var scans: map<string, OfflineScan>
    var refreshed: seq<string>
    var saved: seq<string>

    function State(): Registry
      reads this
    {
      Registry(lineups, scanDevices, scans, refreshed, saved)
    }

    constructor ()
      ensures State() == Registry(map[], map[], map[], [], [])
    {
      lineups, scanDevices, scans, refreshed, saved := map[], map[], map[], [], [];
    }

    method AddDeviceToOfflineScan(lineup: string, device: string)
      modifies this
      ensures State() == old(State()).(scanDevices := AddDevice(old(scanDevices), lineup, device))
    {
      var devices: set<string>;
      if lineup !in scanDevices {
        devices := {};
        scanDevices := scanDevices[lineup := devices];
      } else {
        devices := scanDevices[lineup];
      }
      scanDevices := scanDevices[lineup := devices + {device}];
    }

    method RemoveDeviceFromOfflineScan(lineup: string, device: string)
      modifies this
      ensures State() == old(State()).(scanDevices := RemoveDevice(old(scanDevices), lineup, device))
    {
      if lineup !in scanDevices {
        return;
      }
      scanDevices := scanDevices[lineup := scanDevices[lineup] - {device}];
    }

    /** The registered devices as an array, each once; empty for an unknown lineup. */
    method GetDevicesForOfflineScan(lineup: string) returns (devices: array<string>)
      ensures devices.Length == |DevicesOf(scanDevices, lineup)|
      ensures forall d :: d in DevicesOf(scanDevices, lineup) <==> d in devices[..]
      ensures forall j, k :: 0 <= j < k < devices.Length ==> devices[j] != devices[k]
    {
      if lineup !in scanDevices {
        return new string[0];
      }
      var all := scanDevices[lineup];
      devices := new string[|all|];
      var rest := all;
      var i := 0;
      while rest != {}
        invariant 0 <= i <= devices.Length && rest <= all && |rest| == devices.Length - i
        invariant forall d :: d in all <==> d in rest || d in devices[..i]
        invariant forall k :: 0 <= k < i ==> devices[k] !in rest
        invariant forall j, k :: 0 <= j < k < i ==> devices[j] != devices[k]
        decreases |rest|
      {
        var d :| d in rest;
        devices[i] := d;
        rest := rest - {d};
        assert devices[..i + 1] == devices[..i] + [d];
        i := i + 1;
      }
      assert devices[..i] == devices[..];
    }

    method StartOfflineChannelScan(lineup: string, startOk: bool) returns (started: bool)
      modifies this
      ensures (State(), started) == StartScan(old(State()), lineup, startOk)
    {
      var devices := GetDevicesForOfflineScan(lineup);
      if devices.Length == 0 {
        return false;
      } else if lineup in scans && scans[lineup].running {
        return false;
      }
      scans := scans[lineup := OfflineScan(DevicesOf(scanDevices, lineup), startOk, false)];
      return startOk;
    }

    /** The completed-scan clean-up at the head of a lineup's turn. */
    method RetireCompletedScan(name: string)
      modifies this
      ensures State() == RetireCompleted(old(State()), name)
    {
      if name in scans && scans[name].complete {
        if name in lineups {
          saved := saved + [name];
        }
        scans := scans - {name};
      }
    }

    /** One lineup's turn of startAllOfflineChannelScans; false when it aborted. */
    method OfflineScanTurn(now: bool, clock: int, name: string, startOk: bool) returns (continued: bool)
      modifies this
      ensures var t := OfflineTurn(old(State()), now, clock, name, startOk);
              State() == t.reg && continued == t.Continue?
    {
      var hadScan := name in scans;
      var scan := if hadScan then scans[name] else OfflineScan({}, false, false);
      RetireCompletedScan(name);
      var retry := hadScan && !scan.running && !scan.complete;
      var started: bool;
      if retry {
        started := StartOfflineChannelScan(name, startOk);
      } else if !now && name !in lineups {
        return false;
      } else if !now && lineups[name].nextOfflineUpdate > clock {
        return true;
      } else {
        started := StartOfflineChannelScan(name, startOk);
      }
      if started {
        if name !in lineups {
          return false;
        }
        var l := lineups[name];
        lineups := lineups[name := l.(nextOfflineUpdate := clock + l.updateInterval)];
      }
      return true;
    }

    /**
     * startAllOfflineChannelScans, walking the device map's names in the
     * order given (the map's own iteration order); false when a missing
     * lineup aborted the walk.
     */
    method StartAllOfflineChannelScans(now: bool, clock: int, order: seq<string>, startOk: string -> bool)
      returns (completed: bool)
      requires ListsOnce(order, scanDevices.Keys)
      modifies this
      ensures var t := OfflineRound(old(State()), now, clock, order, startOk);
              State() == t.reg && completed == t.Continue?
    {
      completed := OfflineScanWalk(now, clock, order, startOk);
    }

    /** The loop of startAllOfflineChannelScans over the names in the order given. */
    method OfflineScanWalk(now: bool, clock: int, order: seq<string>, startOk: string -> bool)
      returns (completed: bool)
      modifies this
      ensures var t := OfflineRound(old(State()), now, clock, order, startOk);
              State() == t.reg && completed == t.Continue?
    {
      var i := 0;
      while i < |order|
        invariant 0 <= i <= |order|
        invariant OfflineRound(old(State()), now, clock, order[..i], startOk) == Continue(State())
      {
        ghost var before := State();
        var continued := OfflineScanTurn(now, clock, order[i], startOk(order[i]));
        assert OfflineRound(old(State()), now, clock, order[..i + 1], startOk)
            == OfflineTurn(before, now, clock, order[i], startOk(order[i])) by {
          OfflineRoundStep(old(State()), now, clock, order, i, startOk);
        }
        if !continued {
          TurnAbortStops(old(State()), now, clock, order, i + 1, startOk);
          return false;
        }
        i := i + 1;
      }
      assert order[..i] == order;
      return true;
    }

    /** One lineup of updateChannelLineups. */
    method UpdateLineupTurn(now: bool, clock: int, name: string)
      requires name in lineups
      modifies this
      ensures State() == UpdateTurn(old(State()), now, clock, name)
    {
      var l := lineups[name];
      if !now && l.nextUpdate > clock && |l.channels| > 0 {
        return;
      }
      if l.source != STATIC {
        refreshed := refreshed + [name];
      }
      lineups := lineups[name := l.(nextUpdate := clock + l.updateInterval)];
    }

    /** updateChannelLineups, walking the lineup map in the given order. */
    method UpdateChannelLineups(now: bool, clock: int, order: seq<string>)
      requires forall k :: 0 <= k < |order| ==> order[k] in lineups
      modifies this
      ensures State() == UpdateRound(old(State()), now, clock, order)
    {
      var i := 0;
      while i < |order|
        invariant 0 <= i <= |order|
        invariant lineups.Keys == old(lineups.Keys)
        invariant State() == UpdateRound(old(State()), now, clock, order[..i])
      {
        assert order[..i + 1][..i] == order[..i];
        UpdateLineupTurn(now, clock, order[i]);
        i := i + 1;
      }
      assert order[..i] == order;
    }

    /** Without overwrite an existing name is refused; with it the lineup is always stored. */
    method AddChannelLineup(l: Lineup, overwrite: bool) returns (added: bool)
      modifies this
      ensures added <==> overwrite || l.name !in old(lineups)
      ensures added ==> State() == old(State()).(lineups := old(lineups)[l.name := l])
      ensures !added ==> State() == old(State())
    {
      if overwrite {
        lineups := lineups[l.name := l];
        return true;
      }
      if l.name in lineups {
        return false;
      }
      lineups := lineups[l.name := l];
      return true;
    }

    /**
     * Drops the lineup and its device set; false only when deletion of an
     * existing properties file was asked for and failed.
     */
    method RemoveChannelLineup(name: string, delete: bool, fileExists: bool, deleteOk: bool) returns (ok: bool)
      modifies this
      ensures State() == old(State()).(lineups := old(lineups) - {name}, scanDevices := old(scanDevices) - {name})
      ensures !ok <==> delete && fileExists && !deleteOk
    {
      lineups := lineups - {name};
      scanDevices := scanDevices - {name};
      if delete {
        if fileExists {
          return deleteOk;
        }
      }
      return true;
    }

    /** saveChannelLineup's content: nothing for an unknown lineup. */
    method SaveChannelLineup(name: string) returns (s: Option<SavedLineup>)
      ensures name !in lineups ==> s.None?
      ensures name in lineups ==> s == Some(SavedForm(lineups[name]))
    {
      if name !in lineups {
        return None;
      }
      var l := lineups[name];
      var entries := SavedEntries(l);
      var unavailable, available := AvailabilityLists(l.channels);
      return Some(SavedLineup(entries, unavailable, available));
    }
  }

  /** The walk visits every name of the set, each exactly once. */
  ghost predicate ListsOnce(order: seq<string>, names: set<string>)
  {
    |order| == |names| && (set n | n in order) == names
  }

  /** Walking one more name runs that name's turn after the prefix, unless the prefix aborted. */
  lemma OfflineRoundStep(r: Registry, now: bool, clock: int, names: seq<string>, i: nat, startOk: string -> bool)
    requires i < |names|
    ensures var t := OfflineRound(r, now, clock, names[..i], startOk);
            OfflineRound(r, now, clock, names[..i + 1], startOk)
            == if t.Abort? then t else OfflineTurn(t.reg, now, clock, names[i], startOk(names[i]))
  {
    assert names[..i + 1][..i] == names[..i];
  }

  /** An abort ends the round: later lineups are not visited. */
  lemma {:induction false} TurnAbortStops(r: Registry, now: bool, clock: int, names: seq<string>, n: nat,
                                          startOk: string -> bool)
    requires 0 < n <= |names| && OfflineRound(r, now, clock, names[..n], startOk).Abort?
    ensures OfflineRound(r, now, clock, names, startOk) == OfflineRound(r, now, clock, names[..n], startOk)
    decreases |names| - n
  {
    if n < |names| {
      assert names[..n + 1][..n] == names[..n];
      TurnAbortStops(r, now, clock, names, n + 1, startOk);
    } else {
      assert names[..n] == names;
    }
  }
}
