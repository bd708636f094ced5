/**
 * A channel as the Supla cloud reports it, and the static table that decides
 * which host platform, if any, a channel's function is loaded into.
 */
module Channel {
  import opened Options

  /** The `iodevice` sub-record: the device the channel belongs to. */
  datatype IoDevice = IoDevice(gUIDString: string)

  /** The `state` sub-record; `connected` may be missing. */
  datatype ChannelState = ChannelState(connected: Option<bool>)

  /** The fields of a channel record the integration reads. */
  datatype ChannelData = ChannelData(
    id: int,
    functionName: string,
    caption: Option<string>,
    channelNumber: int,
    iodevice: Option<IoDevice>,
    state: Option<ChannelState>)

  /** The host platforms channels are loaded into. */
  datatype Component = Cover | Switch

  /** The platform name handed to the host's loader. */
  function PlatformName(c: Component): (name: string)
    ensures name == "cover" <==> c == Cover
    ensures name == "switch" <==> c == Switch
  {
    match c
    case Cover => "cover"
    case Switch => "switch"
  }

  /** The function name of a channel with no function assigned. */
  const FunctionNone: string := "NONE"

  /** The supported functions and their platforms. */
  const FunctionComponentMap: map<string, Component> := map[
    "CONTROLLINGTHEROLLERSHUTTER" := Cover,
    "CONTROLLINGTHEGATE" := Cover,
    "LIGHTSWITCH" := Switch
  ]

  /** What discovery does with a channel: ignore it, warn about it, or route it to a platform. */
  datatype Verdict = IgnoredNone | Unsupported | Route(component: Component)

  /** The decision discovery takes for one channel function. */
  function Classify(functionName: string): (v: Verdict)
    ensures v == IgnoredNone <==> functionName == FunctionNone
    ensures v == Unsupported <==> functionName != FunctionNone && functionName !in FunctionComponentMap
    ensures v.Route? <==> functionName != FunctionNone && functionName in FunctionComponentMap
    ensures v.Route? ==> v.component == FunctionComponentMap[functionName]
  {
    if functionName == FunctionNone then IgnoredNone
    else if functionName in FunctionComponentMap then Route(FunctionComponentMap[functionName])
    else Unsupported
  }

  /** Exactly the roller-shutter and gate functions become covers, and only light switches become switches. */
  lemma ClassifyTable(f: string)
    ensures Classify(f) == Route(Cover) <==> f == "CONTROLLINGTHEROLLERSHUTTER" || f == "CONTROLLINGTHEGATE"
    ensures Classify(f) == Route(Switch) <==> f == "LIGHTSWITCH"
    ensures Classify("NONE") == IgnoredNone
  {
    if f in FunctionComponentMap {
      assert f == "CONTROLLINGTHEROLLERSHUTTER" || f == "CONTROLLINGTHEGATE" || f == "LIGHTSWITCH";
    }
  }
}
