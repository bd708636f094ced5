/**
 * The per-channel entity: its identity, its availability, and the wholesale
 * replacement of its channel record on refresh.
 */
module Entity {
  import opened Options
  import opened Text
  import opened Channel
  import opened Registry
  import opened Discovery

  /**
   * An entity as the constructor leaves it: the server name and interval come
   * from the stamped record and are never changed; `channelData` is replaced
   * by each refresh and may be `None`.
   */
  datatype SuplaChannel = SuplaChannel(serverName: string, updateInterval: int, channelData: Option<ChannelData>)

  /** The entity built from a channel discovery handed to a platform. */
  function FromDiscovery(s: StampedChannel): (e: SuplaChannel) {
    SuplaChannel(s.serverName, s.updateInterval, Some(s.data))
  }

  /** The entity's server: the registry entry under its `server_name`. */
  function Server(reg: Registry, e: SuplaChannel): (r: Option<ServerHandle>) {
    Lookup(reg, e.serverName)
  }

  /** Every entity built from discovery output finds its server and carries that server's interval. */
  lemma DiscoveredEntitiesFindServer(reg: Registry)
    requires UniqueNames(reg)
    ensures forall g, ch :: g in Discover(reg) && ch in g.channels ==>
      && Server(reg, FromDiscovery(ch)).Some?
      && FromDiscovery(ch).updateInterval == ServerInterval(Server(reg, FromDiscovery(ch)).value)
  {
    DiscoveredChannelsResolve(reg);
  }

  /** The text `"supla-{}-{}".format(guid.lower(), channelNumber)`. */
  function FormatUniqueId(guid: string, channelNumber: int): (id: string)
    ensures |id| >= |guid| + 8
    ensures id[..6] == "supla-"
    ensures forall i :: 6 <= i < 6 + |guid| ==> !IsUpper(id[i])
  {
    "supla-" + Lower(guid) + "-" + IntToDecimal(channelNumber)
  }

  /** `unique_id`; `None` where the property raises because the record or its `iodevice` is missing. */
  function UniqueId(e: SuplaChannel): (r: Option<string>)
    ensures r.Some? <==> e.channelData.Some? && e.channelData.value.iodevice.Some?
    ensures r.Some? ==> |r.value| >= 8 && r.value[..6] == "supla-"
  {
    match e.channelData
    case None => None
    case Some(cd) =>
      match cd.iodevice
      case None => None
      case Some(dev) => Some(FormatUniqueId(dev.gUIDString, cd.channelNumber))
  }

  /** Splits an identity back into its lower-cased GUID and channel number; `None` if it is not of that shape. */
  function ParseUniqueId(id: string): (r: Option<(string, int)>)
    ensures r.Some? ==> |id| >= 6 && id[..6] == "supla-" && forall i :: 0 <= i < |r.value.0| ==> r.value.0[i] != '-'
  {
    if |id| < 6 || id[..6] != "supla-" then None
    else
      var rest := id[6..];
      match FirstIndexOf(rest, '-')
      case None => None
      case Some(k) =>
        match ParseInt(rest[k + 1..])
        case None => None
        case Some(n) => Some((rest[..k], n))
  }

  /** A GUID without dashes, as the cloud reports them. */
  predicate DashFree(guid: string) {
    forall i :: 0 <= i < |guid| ==> guid[i] != '-'
  }

  /** Any dash-free text and any parsable number, joined as an identity, split back apart. */
  lemma ParseJoinedId(low: string, digits: string, n: int)
    requires DashFree(low)
    requires ParseInt(digits) == Some(n)
    ensures ParseUniqueId("supla-" + low + "-" + digits) == Some((low, n))
  {
    var id := "supla-" + low + "-" + digits;
    var rest := id[6..];
    assert rest == low + "-" + digits;
    FirstIndexOfSeparator(low, '-', digits);
    assert rest[|low| + 1..] == digits;
    assert rest[..|low|] == low;
  }

  /** The identity of a dash-free GUID and a channel number reads back as the lower-cased GUID and the number. */
  lemma UniqueIdRoundTrip(guid: string, channelNumber: int)
    requires DashFree(guid)
    ensures ParseUniqueId(FormatUniqueId(guid, channelNumber)) == Some((Lower(guid), channelNumber))
  {
    var low := Lower(guid);
    LowerKeepsNonLetters(guid, '-');
    assert DashFree(low);
    IntDecimalRoundTrip(channelNumber);
    ParseJoinedId(low, IntToDecimal(channelNumber), channelNumber);
  }

  /** Distinct channels get distinct identities: equal identities mean equal GUIDs up to case and equal numbers. */
  lemma UniqueIdInjective(g1: string, n1: int, g2: string, n2: int)
    requires DashFree(g1) && DashFree(g2)
    ensures FormatUniqueId(g1, n1) == FormatUniqueId(g2, n2) <==> Lower(g1) == Lower(g2) && n1 == n2
  {
    UniqueIdRoundTrip(g1, n1);
    UniqueIdRoundTrip(g2, n2);
  }

  /** Re-lower-casing the GUID does not change the identity. */
  lemma UniqueIdCaseInsensitive(guid: string, channelNumber: int)
    ensures FormatUniqueId(Lower(guid), channelNumber) == FormatUniqueId(guid, channelNumber)
  {
    LowerIdempotent(guid);
  }

  /** `available`: a record with a `state` whose `connected` flag is set; an absent flag counts as false. */
  function Available(e: SuplaChannel): (r: bool)
    ensures e.channelData.None? ==> !r
    ensures e.channelData.Some? && e.channelData.value.state.None? ==> !r
    ensures e.channelData.Some? && e.channelData.value.state.Some? ==>
      (r <==> e.channelData.value.state.value.connected == Some(true))
  {
    match e.channelData
    case None => false
    case Some(cd) =>
      match cd.state
      case None => false
      case Some(st) => st.connected == Some(true)
  }

  /**
   * `_update`: the fetched record replaces the held one wholesale. An entity
   * whose record is already `None` cannot refresh: reading its `id` raises
   * before `get_channel` is called, so it keeps `None`.
   */
  function Refresh(e: SuplaChannel, fetched: Option<ChannelData>): (r: SuplaChannel)
    ensures r.serverName == e.serverName && r.updateInterval == e.updateInterval
    ensures e.channelData.None? ==> r == e
    ensures e.channelData.Some? ==> r.channelData == fetched
  {
    if e.channelData.None? then e else e.(channelData := fetched)
  }

  /**
   * A refresh that reports the same device and channel number keeps the
   * identity, whatever it reports about the connection and state; the
   * availability afterwards depends on the fetched record alone.
   */
  lemma RefreshKeepsIdentity(e: SuplaChannel, fetched: ChannelData)
    requires e.channelData.Some?
    requires fetched.iodevice == e.channelData.value.iodevice
    requires fetched.channelNumber == e.channelData.value.channelNumber
    ensures UniqueId(Refresh(e, Some(fetched))) == UniqueId(e)
    ensures Refresh(e, Some(fetched)).serverName == e.serverName
    ensures Refresh(e, Some(fetched)).updateInterval == e.updateInterval
    ensures Available(Refresh(e, Some(fetched))) == (fetched.state.Some? && fetched.state.value.connected == Some(true))
  {
  }

  /**
   * The identity survives a refresh only through the fetched record: an
   * entity without a record, a refresh that returns no record, or a record
   * without `iodevice` leaves no identity (`unique_id` would raise), and
   * otherwise the identity is formatted from the fetched device and channel
   * number, whatever the entity held before.
   */
  lemma RefreshIdentity(e: SuplaChannel, fetched: Option<ChannelData>)
    ensures UniqueId(Refresh(e, fetched)).None? <==> e.channelData.None? || fetched.None? || fetched.value.iodevice.None?
    ensures e.channelData.Some? && fetched.Some? && fetched.value.iodevice.Some? ==>
      UniqueId(Refresh(e, fetched)) == Some(FormatUniqueId(fetched.value.iodevice.value.gUIDString, fetched.value.channelNumber))
  {
  }
}
