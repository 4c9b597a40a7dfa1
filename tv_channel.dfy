/**
 * A channel record of a lineup: twelve properties that are stored as a
 * twelve-string array, parsed back from such an array, and a per-field
 * journal of the values set since the journal was last collected.
 */
module TVChannels {
  import opened JavaText

  /** Copy-control information of a channel, by enum constant name. */
  datatype CopyProtection = NONE | COPY_FREELY | COPY_ONCE | COPY_NEVER | UNKNOWN

  function CciName(c: CopyProtection): string
  {
    match c
    case NONE => "NONE"
    case COPY_FREELY => "COPY_FREELY"
    case COPY_ONCE => "COPY_ONCE"
    case COPY_NEVER => "COPY_NEVER"
    case UNKNOWN => "UNKNOWN"
  }

  /** Enum.valueOf: the constant whose name is exactly s, if any. */
  function CciValueOf(s: string): (r: Option<CopyProtection>)
    ensures r.Some? ==> CciName(r.value) == s
  {
    if s == "NONE" then Some(NONE)
    else if s == "COPY_FREELY" then Some(COPY_FREELY)
    else if s == "COPY_ONCE" then Some(COPY_ONCE)
    else if s == "COPY_NEVER" then Some(COPY_NEVER)
    else if s == "UNKNOWN" then Some(UNKNOWN)
    else None
  }

  /** Slots of the property array and of the change journal. */
  const iChannel := 0
  const iChannelRemap := 1
  const iTunable := 2
  const iName := 3
  const iURL := 4
  const iModulation := 5
  const iFrequency := 6
  const iProgram := 7
  const iEIA := 8
  const iSignalStrength := 9
  const iCCI := 10
  const iIgnore := 11
  const PropertyCount := 12

  datatype ChannelProps = ChannelProps(
    channel: string,
    channelRemap: string,
    tunable: bool,
    name: string,
    url: string,
    modulation: string,
    frequency: string,
    program: string,
    eia: string,
    signalStrength: int,
    cci: CopyProtection,
    ignore: bool)

  /** The defaults every constructor starts from. */
  function NewChannel(channel: string, name: string): (p: ChannelProps)
    ensures p.channel == channel && p.name == name
    ensures !p.tunable && !p.ignore && p.cci == UNKNOWN && p.signalStrength == 0
  {
    ChannelProps(channel, "", false, name, "", "", "", "", "", 0, UNKNOWN, false)
  }

  /** The seven-argument constructor used when a channel map is scraped. */
  function ScrapedChannel(channel: string, name: string, modulation: string, frequency: string,
                          program: string, eia: string, ignore: bool): (p: ChannelProps)
    ensures p.channel == channel && p.name == name && p.modulation == modulation
    ensures p.frequency == frequency && p.program == program && p.eia == eia
    ensures p.url == "" && p.ignore == ignore && !p.tunable
  {
    NewChannel(channel, name).(modulation := modulation, frequency := frequency,
      program := program, eia := eia, url := "", ignore := ignore)
  }

  /** getProperties: the twelve-string layout. */
  function Properties(p: ChannelProps): (r: seq<string>)
    ensures |r| == PropertyCount
    ensures r[iChannel] == p.channel && r[iName] == p.name
    ensures r[iTunable] == BoolToString(p.tunable) && r[iIgnore] == BoolToString(p.ignore)
  {
    [p.channel, p.channelRemap, BoolToString(p.tunable), p.name, p.url, p.modulation,
     p.frequency, p.program, p.eia, IntToString(p.signalStrength), CciName(p.cci),
     BoolToString(p.ignore)]
  }

  /**
   * The array constructor: fewer than eleven strings is an error; a signal
   * strength that is not an int becomes 0, an unknown copy-protection name
   * becomes UNKNOWN, and ignore is read only from a twelfth string.
   */
  function FromProperties(a: seq<string>): (r: Option<ChannelProps>)
    ensures r.None? <==> |a| < 11
    ensures r.Some? ==> r.value.channel == a[iChannel] && r.value.name == a[iName]
    ensures r.Some? ==> (r.value.ignore ==> |a| == 12)
  {
    if |a| < 11 then None
    else
      var strength := match ParseInt(a[iSignalStrength], 10) case Some(v) => v case None => 0;
      var cci := match CciValueOf(a[iCCI]) case Some(c) => c case None => UNKNOWN;
      var ignore := if |a| == 12 then ParseBool(a[iIgnore]) else false;
      Some(ChannelProps(a[iChannel], a[iChannelRemap], ParseBool(a[iTunable]), a[iName], a[iURL],
        a[iModulation], a[iFrequency], a[iProgram], a[iEIA], strength, cci, ignore))
  }

  lemma CciRoundTrip(c: CopyProtection)
    ensures CciValueOf(CciName(c)) == Some(c)
  {
  }

  /** Parsing what getProperties printed restores every field. */
  lemma PropertiesRoundTrip(p: ChannelProps)
    requires IsInt32(p.signalStrength)
    ensures FromProperties(Properties(p)) == Some(p)
  {
    IntToStringRoundTrip(p.signalStrength);
    BoolRoundTrip(p.tunable);
    BoolRoundTrip(p.ignore);
    CciRoundTrip(p.cci);
  }

  /** The fall-backs of the array constructor. */
  lemma FromPropertiesDefaults(a: seq<string>)
    requires |a| >= 11
    ensures ParseInt(a[iSignalStrength], 10).None? ==> FromProperties(a).value.signalStrength == 0
    ensures CciValueOf(a[iCCI]).None? ==> FromProperties(a).value.cci == UNKNOWN
    ensures |a| == 11 ==> !FromProperties(a).value.ignore
  {
  }

  function NoChanges(): (j: seq<Option<string>>)
    ensures |j| == PropertyCount && forall k :: 0 <= k < |j| ==> j[k].None?
  {
    seq(PropertyCount, _ => None)
  }

  class TVChannel {
    /** The channel number and the name are fixed at construction. */
    const channel: string
    const name: string
    var channelRemap: string
    var tunable: bool
    var url: string
    var modulation: string
    var frequency: string
    var program: string
    var eia: string
    var signalStrength: int
    var cci: CopyProtection
    var ignore: bool
    /** changes[k] is the last value set for slot k since the journal was collected. */
    var changes: array<Option<string>>

    ghost predicate Valid()
      reads this
    {
      changes.Length == PropertyCount
    }

    function Props(): (p: ChannelProps)
      reads this
      ensures p.channel == channel && p.name == name
    {
      ChannelProps(channel, channelRemap, tunable, name, url, modulation, frequency, program, eia,
        signalStrength, cci, ignore)
    }

    /** Every constructor: the given properties and an empty journal. */
    constructor (p: ChannelProps)
      ensures Valid() && Props() == p && changes[..] == NoChanges()
    {
      channel, name := p.channel, p.name;
      channelRemap, tunable, url, modulation := p.channelRemap, p.tunable, p.url, p.modulation;
      frequency, program, eia := p.frequency, p.program, p.eia;
      signalStrength, cci, ignore := p.signalStrength, p.cci, p.ignore;
      changes := new Option<string>[PropertyCount](_ => None);
    }

    method SetTunable(v: bool)
      requires Valid()
      modifies this, changes
      ensures Valid() && changes == old(changes)
      ensures Props() == old(Props()).(tunable := v)
      ensures changes[..] == old(changes[..])[iTunable := Some(BoolToString(v))]
    {
      tunable := v;
      changes[iTunable] := Some(BoolToString(v));
    }

    method SetModulation(v: string)
      requires Valid()
      modifies this, changes
      ensures Valid() && changes == old(changes)
      ensures Props() == old(Props()).(modulation := v)
      ensures changes[..] == old(changes[..])[iModulation := Some(v)]
    {
      modulation := v;
      changes[iModulation] := Some(v);
    }

    method SetFrequency(v: string)
      requires Valid()
      modifies this, changes
      ensures Valid() && changes == old(changes)
      ensures Props() == old(Props()).(frequency := v)
      ensures changes[..] == old(changes[..])[iFrequency := Some(v)]
    {
      frequency := v;
      changes[iFrequency] := Some(v);
    }

    method SetProgram(v: string)
      requires Valid()
      modifies this, changes
      ensures Valid() && changes == old(changes)
      ensures Props() == old(Props()).(program := v)
      ensures changes[..] == old(changes[..])[iProgram := Some(v)]
    {
      program := v;
      changes[iProgram] := Some(v);
    }

    method SetEia(v: string)
      requires Valid()
      modifies this, changes
      ensures Valid() && changes == old(changes)
      ensures Props() == old(Props()).(eia := v)
      ensures changes[..] == old(changes[..])[iEIA := Some(v)]
    {
      eia := v;
      changes[iEIA] := Some(v);
    }

    method SetChannelRemap(v: string)
      requires Valid()
      modifies this, changes
      ensures Valid() && changes == old(changes)
      ensures Props() == old(Props()).(channelRemap := v)
      ensures changes[..] == old(changes[..])[iChannelRemap := Some(v)]
    {
      channelRemap := v;
      changes[iChannelRemap] := Some(v);
    }

    method SetCci(v: CopyProtection)
      requires Valid()
      modifies this, changes
      ensures Valid() && changes == old(changes)
      ensures Props() == old(Props()).(cci := v)
      ensures changes[..] == old(changes[..])[iCCI := Some(CciName(v))]
    {
      cci := v;
      changes[iCCI] := Some(CciName(v));
    }

    method SetSignalStrength(v: int)
      requires Valid()
      modifies this, changes
      ensures Valid() && changes == old(changes)
      ensures Props() == old(Props()).(signalStrength := v)
      ensures changes[..] == old(changes[..])[iSignalStrength := Some(IntToString(v))]
    {
      signalStrength := v;
      changes[iSignalStrength] := Some(IntToString(v));
    }

    method SetUrl(v: string)
      requires Valid()
      modifies this, changes
      ensures Valid() && changes == old(changes)
      ensures Props() == old(Props()).(url := v)
      ensures changes[..] == old(changes[..])[iURL := Some(v)]
    {
      url := v;
      changes[iURL] := Some(v);
    }

    method SetIgnore(v: bool)
      requires Valid()
      modifies this, changes
      ensures Valid() && changes == old(changes)
      ensures Props() == old(Props()).(ignore := v)
      ensures changes[..] == old(changes[..])[iIgnore := Some(BoolToString(v))]
    {
      ignore := v;
      changes[iIgnore] := Some(BoolToString(v));
    }

    /** Hands over the journal and starts a fresh, empty one. */
    method GetAndClearUpdates() returns (journal: array<Option<string>>)
      requires Valid()
      modifies this
      ensures Valid() && fresh(changes) && changes[..] == NoChanges()
      ensures journal == old(changes) && journal[..] == old(changes[..])
      ensures Props() == old(Props())
    {
      journal := changes;
      changes := new Option<string>[PropertyCount](_ => None);
    }
  }
}
