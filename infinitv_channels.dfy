/**
 * The InfiniTV channel-map scraper. The lines of the device's channel-map
 * page are read one at a time: rows between the table header and the closing
 * table tag are cut into six cells and merged into a channel lineup, and the
 * numbers of all rows seen are handed to the lineup for cleaning at the end.
 */
module InfiniTVScraper {
  import opened JavaText
  import opened TVChannels

  const REQUEST_START: string :=
    "<table style=\"text-align:center;width:600px\"><tr><th>Channel</th><th>Name</th><th>"
    + "Modulation</th><th>Frequency (kHz)</th><th>Program</th><th>EIA</th></tr>"
  const REQUEST_END: string := "</table>"
  const ROW_START: string := "<tr><td>"
  const CELL_SEP: string := "</td><td>"
  const ROW_END: string := "</td></tr>"
  /** The row end is cut off by the length of this header marker, which is as long as ROW_END. */
  const CUT_END: string := "</th></tr>"

  /** The configured ignore lists and the duplicate-removal switch. */
  datatype Config = Config(ignoreNames: seq<string>, ignoreNumbers: seq<string>, removeDuplicates: bool)

  /** A parsed EIA value: whether it is above zero, and its String.valueOf text. */
  datatype Eia = Eia(positive: bool, text: string)

  /** -1f, the EIA value kept when the EIA cell is not parsed. */
  const NO_EIA: Eia := Eia(false, "-1.0")

  /**
   * What the scraper cannot compute itself: Float.parseFloat on the EIA cell,
   * and the lineup's duplicate test for a channel number and name.
   */
  datatype Oracles = Oracles(
    parseEia: string -> Option<Eia>,
    isDuplicate: (map<string, ChannelProps>, string, string) -> bool)

  // ---------------------------------------------------------------- rows

  predicate IsRowShaped(line: string)
  {
    StartsWith(line, ROW_START) && Contains(line, CELL_SEP) && EndsWith(line, ROW_END)
  }

  /** The row markers cannot overlap, so the inner text of a row-shaped line exists. */
  lemma RowMarkersApart(line: string)
    requires StartsWith(line, ROW_START) && EndsWith(line, ROW_END)
    ensures |ROW_START| + |ROW_END| <= |line|
  {
    var e := |line| - |ROW_END|;
    assert line[e] == '<' && line[e + 1] == '/' by {
      assert line[e..] == ROW_END;
    }
    assert forall k :: 0 <= k < |ROW_START| ==> line[k] == ROW_START[k] by {
      assert line[..|ROW_START|] == ROW_START;
    }
    assert e >= |ROW_START| || e == 0 || e == 1 || e == 2 || e == 3 || e == 4 || e == 5 || e == 6 || e == 7;
  }

  /** The cells of a row-shaped line: its inner text split at the cell separator. */
  function RowCells(line: string): (cells: seq<string>)
    requires IsRowShaped(line)
  {
    RowMarkersApart(line);
    Split(line[|ROW_START|..|line| - |CUT_END|], CELL_SEP)
  }

  /** The row printed for six cells free of '<', the last one non-empty, reads back as those cells. */
  lemma RowRoundTrip(cells: seq<string>)
    requires |cells| == 6 && cells[5] != []
    requires forall k, j :: 0 <= k < 6 && 0 <= j < |cells[k]| ==> cells[k][j] != '<'
    ensures IsRowShaped(ROW_START + Join(cells, CELL_SEP) + ROW_END)
    ensures RowCells(ROW_START + Join(cells, CELL_SEP) + ROW_END) == cells
  {
    var inner := Join(cells, CELL_SEP);
    var line := ROW_START + inner + ROW_END;
    assert FreeOfLead(cells, CELL_SEP);
    SplitOfJoin(cells, CELL_SEP);
    assert inner == cells[0] + CELL_SEP + Join(cells[1..], CELL_SEP);
    var at := |ROW_START| + |cells[0]|;
    assert line[at..at + |CELL_SEP|] == CELL_SEP;
    ContainsAt(line, CELL_SEP, at);
    assert line[..|ROW_START|] == ROW_START;
    assert line[|line| - |ROW_END|..] == ROW_END;
    assert line[|ROW_START|..|line| - |CUT_END|] == inner;
  }

  // ---------------------------------------------------------------- ignore rule

  /** A row is ignored when its name holds a configured substring or its number is a configured one. */
  predicate Ignored(cfg: Config, number: string, name: string)
  {
    (exists k :: 0 <= k < |cfg.ignoreNames| && Contains(name, cfg.ignoreNames[k]))
    || (exists k :: 0 <= k < |cfg.ignoreNumbers| && number == cfg.ignoreNumbers[k])
  }

  /** The two search loops of the ignore rule, each stopping at its first match. */
  method IsIgnored(cfg: Config, number: string, name: string) returns (ignore: bool)
    ensures ignore == Ignored(cfg, number, name)
  {
    ignore := false;
    var k := 0;
    while k < |cfg.ignoreNames|
      invariant 0 <= k <= |cfg.ignoreNames|
      invariant !ignore
      invariant forall j :: 0 <= j < k ==> !Contains(name, cfg.ignoreNames[j])
    {
      if Contains(name, cfg.ignoreNames[k]) {
        ignore := true;
        break;
      }
      k := k + 1;
    }
    var byName := ignore;
    k := 0;
    while k < |cfg.ignoreNumbers|
      invariant 0 <= k <= |cfg.ignoreNumbers|
      invariant ignore == byName
      invariant forall j :: 0 <= j < k ==> number != cfg.ignoreNumbers[j]
    {
      if number == cfg.ignoreNumbers[k] {
        ignore := true;
        break;
      }
      k := k + 1;
    }
  }

  // ---------------------------------------------------------------- numbers

  datatype RowNumbers = RowNumbers(frequency: int, program: int, eia: Eia)

  /**
   * Frequency (kHz, stored in Hz as a Java int), program and EIA, parsed in
   * that order: the first one that fails leaves itself and the later ones at -1.
   */
  function ParseRowNumbers(cells: seq<string>, parseEia: string -> Option<Eia>): (n: RowNumbers)
    requires |cells| == 6
    ensures IsInt32(n.frequency) && IsInt32(n.program)
    ensures ParseInt(cells[3], 10).None? ==> n == RowNumbers(-1, -1, NO_EIA)
    ensures ParseInt(cells[3], 10).Some? ==> n.frequency == Wrap32(ParseInt(cells[3], 10).value * 1000)
    ensures n.program != -1 ==> ParseInt(cells[3], 10).Some? && ParseInt(cells[4], 10) == Some(n.program)
    ensures n.eia != NO_EIA ==> ParseInt(cells[4], 10).Some? && parseEia(cells[5]) == Some(n.eia)
  {
    match ParseInt(cells[3], 10)
    case None => RowNumbers(-1, -1, NO_EIA)
    case Some(f) =>
      var frequency := Wrap32(f * 1000);
      match ParseInt(cells[4], 10)
      case None => RowNumbers(frequency, -1, NO_EIA)
      case Some(p) =>
        match parseEia(cells[5])
        case None => RowNumbers(frequency, p, NO_EIA)
        case Some(e) => RowNumbers(frequency, p, e)
  }

  // ---------------------------------------------------------------- merging

  /** The update conditions of an existing channel, any of which marks it updated. */
  predicate RefreshNeeded(c: ChannelProps, modulation: string, n: RowNumbers, ignore: bool)
  {
    c.modulation != modulation
    || (n.frequency > 0 && c.frequency != IntToString(n.frequency))
    || (n.program > 0 && c.program != IntToString(n.program))
    || (n.eia.positive && c.eia != n.eia.text)
    || c.ignore != ignore
  }

  /**
   * An existing channel after a row: the modulation and the ignore flag always
   * follow the row; frequency, program and EIA follow it only when positive.
   */
  function Refresh(c: ChannelProps, modulation: string, n: RowNumbers, ignore: bool): (r: ChannelProps)
    ensures r.channel == c.channel && r.name == c.name && r.channelRemap == c.channelRemap
    ensures r.tunable == c.tunable && r.url == c.url && r.signalStrength == c.signalStrength && r.cci == c.cci
    ensures r.modulation == modulation && r.ignore == ignore
    ensures r.frequency == c.frequency || (n.frequency > 0 && r.frequency == IntToString(n.frequency))
    ensures r.program == c.program || (n.program > 0 && r.program == IntToString(n.program))
    ensures r.eia == c.eia || (n.eia.positive && r.eia == n.eia.text)
  {
    c.(modulation := modulation,
       frequency := if n.frequency > 0 then IntToString(n.frequency) else c.frequency,
       program := if n.program > 0 then IntToString(n.program) else c.program,
       eia := if n.eia.positive then n.eia.text else c.eia,
       ignore := ignore)
  }

  /** The updated flag is raised exactly when the row changes the stored channel. */
  lemma RefreshNeededIffChanged(c: ChannelProps, modulation: string, n: RowNumbers, ignore: bool)
    ensures RefreshNeeded(c, modulation, n, ignore) <==> Refresh(c, modulation, n, ignore) != c
  {
  }

  /** The scraper's state between lines. */
  datatype ScanState = ScanState(
    parsing: bool,
    seen: set<string>,                  // newChannelList
    lineup: map<string, ChannelProps>,  // the lineup's channels by number
    updated: seq<string>)               // numbers handed to updateChannel, in order

  /** The channel a new row adds. */
  function NewRowChannel(cells: seq<string>, n: RowNumbers, ignore: bool): (c: ChannelProps)
    requires |cells| == 6
    ensures c.channel == cells[0] && c.name == cells[1] && c.modulation == cells[2] && c.ignore == ignore
    ensures c.frequency == IntToString(n.frequency) && c.program == IntToString(n.program)
    ensures c.eia == n.eia.text
  {
    ScrapedChannel(cells[0], cells[1], cells[2], IntToString(n.frequency), IntToString(n.program),
      n.eia.text, ignore)
  }

  /** One six-cell row merged into the state. */
  function MergeRow(o: Oracles, cfg: Config, st: ScanState, cells: seq<string>, ignore: bool): (r: ScanState)
    requires |cells| == 6
    ensures r.parsing == st.parsing
    ensures ParseInt(cells[0], 10).None? ==> r == st
    ensures ParseInt(cells[0], 10).Some? ==> r.seen == st.seen + {cells[0]}
    ensures forall k :: k != cells[0] ==> (k in r.lineup <==> k in st.lineup)
    ensures forall k :: k != cells[0] && k in r.lineup ==> r.lineup[k] == st.lineup[k]
    ensures r.updated == st.updated || r.updated == st.updated + [cells[0]]
    ensures ParseInt(cells[0], 10).Some? && cfg.removeDuplicates && o.isDuplicate(st.lineup, cells[0], cells[1])
            ==> cells[0] !in r.lineup && r.updated == st.updated
    ensures cells[0] in r.lineup && cells[0] !in st.lineup ==> r.lineup[cells[0]].ignore == ignore
    ensures cells[0] in r.lineup && cells[0] in st.lineup
            ==> (r.updated != st.updated <==> r.lineup[cells[0]] != st.lineup[cells[0]])
  {
    if ParseInt(cells[0], 10).None? then st
    else
      var n := ParseRowNumbers(cells, o.parseEia);
      var seen := st.seen + {cells[0]};
      if cfg.removeDuplicates && o.isDuplicate(st.lineup, cells[0], cells[1]) then
        st.(seen := seen, lineup := st.lineup - {cells[0]})
      else if cells[0] !in st.lineup then
        st.(seen := seen, lineup := st.lineup[cells[0] := NewRowChannel(cells, n, ignore)])
      else
        var c := st.lineup[cells[0]];
        RefreshNeededIffChanged(c, cells[2], n, ignore);
        if RefreshNeeded(c, cells[2], n, ignore) then
          st.(seen := seen, lineup := st.lineup[cells[0] := Refresh(c, cells[2], n, ignore)],
              updated := st.updated + [cells[0]])
        else st.(seen := seen)
  }

  /** One line of the page. */
  function LineStep(o: Oracles, cfg: Config, st: ScanState, line: string): ScanState
  {
    if st.parsing then
      if IsRowShaped(line) then
        var cells := RowCells(line);
        if |cells| == 6 then MergeRow(o, cfg, st, cells, Ignored(cfg, cells[0], cells[1])) else st
      else if Contains(line, REQUEST_END) then st.(parsing := false)
      else st
    else if Contains(line, REQUEST_START) then st.(parsing := true)
    else st
  }

  /**
   * The lines read so far, in order. Every number added to the seen set
   * parses as an int, and every channel the lineup gains was seen.
   */
  function Scan(o: Oracles, cfg: Config, st: ScanState, lines: seq<string>): (r: ScanState)
    ensures st.seen <= r.seen
    ensures forall c :: c in r.seen && c !in st.seen ==> ParseInt(c, 10).Some?
    ensures forall k :: k in r.lineup && k !in st.lineup ==> k in r.seen
  {
    if lines == [] then st
    else LineStep(o, cfg, Scan(o, cfg, st, lines[..|lines| - 1]), lines[|lines| - 1])
  }

  /** Nothing before the table header is merged: without a header line the state stays as it is. */
  lemma {:induction false} NoHeaderNoEffect(o: Oracles, cfg: Config, st: ScanState, lines: seq<string>)
    requires !st.parsing
    requires forall k :: 0 <= k < |lines| ==> !Contains(lines[k], REQUEST_START)
    ensures Scan(o, cfg, st, lines) == st
  {
    if lines != [] {
      NoHeaderNoEffect(o, cfg, st, lines[..|lines| - 1]);
    }
  }

  /** Outside the table every line but a header is skipped; inside, a non-row with the end tag stops parsing. */
  lemma MarkersSwitchParsing(o: Oracles, cfg: Config, st: ScanState, line: string)
    ensures !st.parsing ==> LineStep(o, cfg, st, line) == st.(parsing := Contains(line, REQUEST_START))
    ensures st.parsing && !IsRowShaped(line)
            ==> LineStep(o, cfg, st, line) == st.(parsing := !Contains(line, REQUEST_END))
    ensures st.parsing && IsRowShaped(line) ==> LineStep(o, cfg, st, line).parsing
  {
  }

  /** One line of the read loop: the header and end tags switch parsing, a six-cell row is merged. */
  method ScanLine(o: Oracles, cfg: Config, st: ScanState, line: string) returns (r: ScanState)
    ensures r == LineStep(o, cfg, st, line)
  {
    r := st;
    if st.parsing {
      if StartsWith(line, ROW_START) && Contains(line, CELL_SEP) && EndsWith(line, ROW_END) {
        var values := RowCells(line);
        if |values| == 6 {
          var ignore := IsIgnored(cfg, values[0], values[1]);
          r := MergeRowInto(o, cfg, st, values, ignore);
        }
      } else if Contains(line, REQUEST_END) {
        r := st.(parsing := false);
      }
    } else if Contains(line, REQUEST_START) {
      r := st.(parsing := true);
    }
  }

  /** The body of the read loop for one row: parse, drop a duplicate, add or refresh the channel. */
  method MergeRowInto(o: Oracles, cfg: Config, st: ScanState, values: seq<string>, ignore: bool) returns (r: ScanState)
    requires |values| == 6
    ensures r == MergeRow(o, cfg, st, values, ignore)
  {
    r := st;
    var channel := ParseInt(values[0], 10);
    if channel.None? {
      return;
    }
    var numbers := ParseRowNumbers(values, o.parseEia);
    r := r.(seen := r.seen + {values[0]});
    var isDuplicate := false;
    if cfg.removeDuplicates {
      isDuplicate := o.isDuplicate(st.lineup, values[0], values[1]);
      if isDuplicate {
        r := r.(lineup := r.lineup - {values[0]});
      }
    }
    if !isDuplicate {
      if values[0] !in r.lineup {
        r := r.(lineup := r.lineup[values[0] := NewRowChannel(values, numbers, ignore)]);
      } else {
        var oldChannel := r.lineup[values[0]];
        if RefreshNeeded(oldChannel, values[2], numbers, ignore) {
          r := r.(lineup := r.lineup[values[0] := Refresh(oldChannel, values[2], numbers, ignore)],
                  updated := r.updated + [values[0]]);
        }
      }
    }
  }

  /** What populateChannels ends with. */
  datatype Outcome = Outcome(
    ok: bool,
    lineup: map<string, ChannelProps>,
    updated: seq<string>,
    cleanedWith: Option<set<string>>)   // the set passed to cleanChannels, if it was called

  /**
   * populateChannels over the lines read: no address gives false at once; a
   * read error after those lines gives false and skips cleanChannels.
   */
  method PopulateChannels(o: Oracles, cfg: Config, address: Option<string>, lines: seq<string>,
                          readFailed: bool, lineup: map<string, ChannelProps>) returns (out: Outcome)
    ensures address.None? ==> out == Outcome(false, lineup, [], None)
    ensures address.Some? ==>
              var st := Scan(o, cfg, ScanState(false, {}, lineup, []), lines);
              out == Outcome(!readFailed, st.lineup, st.updated, if readFailed then None else Some(st.seen))
  {
    if address.None? {
      return Outcome(false, lineup, [], None);
    }
    var st := ScanState(false, {}, lineup, []);
    ghost var init := st;
    var i := 0;
    while i < |lines|
      invariant 0 <= i <= |lines|
      invariant st == Scan(o, cfg, init, lines[..i])
    {
      assert lines[..i + 1][..i] == lines[..i];
      st := ScanLine(o, cfg, st, lines[i]);
      i := i + 1;
    }
    assert lines[..i] == lines;
    if readFailed {
      return Outcome(false, st.lineup, st.updated, None);
    }
    return Outcome(true, st.lineup, st.updated, Some(st.seen));
  }
}
