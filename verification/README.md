# Supla integration: a verified model of its decision logic

This project models the pure logic of the Supla component of Home Assistant
(`homeassistant/components/supla/__init__.py`). The component connects to one
or more Supla cloud servers, lists each server's device channels, and maps every
channel whose function it supports to a host platform (`cover` or `switch`).
Each kept channel becomes an entity that polls the cloud at a per-server interval.

The model is functional. Channel records, optional sub-records, server handles
and authentication answers are immutable datatypes. Setup, discovery and the
entity properties are pure functions. Two loop-based methods mirror the
discovery loop: `DiscoverServer` walks one server's channels, running the
loop body `DiscoverChannel` on each, and `DiscoverDevices` walks the servers
in registry order.

- `options.dfy` (`Options`): Python's `None` versus a value.
- `text.dfy` (`Text`): ASCII `str.lower`, and `str(int)` with a parser as its inverse.
- `interval.dfy` (`Interval`): the polling interval. It is either spread over
  the hourly call budget (`SUPLA_API_CALL_LIMIT` = 950) or taken from the
  configuration, and it is always rounded up to the 10-second `SCAN_INTERVAL`.
- `channel.dfy` (`Channel`): the channel record and the function-to-platform table `SUPLA_FUNCTION_HA_CMP_MAP`.
- `registry.dfy` (`Registry`): `hass.data[SUPLA_SERVERS]`, an insertion-ordered dict keyed by server address.
- `discovery.dfy` (`Discovery`): `discover_devices`, covering the interval, filtering, stamping and grouping per platform.
- `setup.dfy` (`Setup`): `setup`, written as a fold over per-server authentication answers.
- `entity.dfy` (`Entity`): `SuplaChannel`, with its constructor, `server`, `unique_id`, `available` and `_update`.

The remote service is represented by inputs. For each configured server, a
`Probe` carries the answer to `get_server_info` (authenticated, rejected, or an
`OSError`) and the channel listing `get_channels` returns. A refresh receives the
record `get_channel` returned. Seconds are exact fractions, and a configured
`timedelta` is a whole number of microseconds.

Behaviour of the source worth noting:

- A configured `scan_interval` is rounded up to the 10-second tick like a
  computed one, so 25 s becomes 30 s. It is not used verbatim.
- With no configuration, 100 channels give a raw 3600·100/950 ≈ 378.9 s, which
  rounds to 380 s. The closed form 10·⌈36N/95⌉ holds for every N.
- When setup fails, the servers stored before the failing one remain in
  `hass.data`. `Aborted` therefore carries that partial registry, and setup
  still returns failure without running discovery.
- If the same address is configured twice, the later client replaces the
  earlier one at the earlier one's position in the dict. Discovery then lists
  that address once, with the later configuration.

## Model

| member | source | states |
|---|---|---|
| Text.Lower | homeassistant/components/supla/__init__.py:174 | ASCII lower-casing keeps the length and lower-cases character by character |
| Text.LowerIdempotent | homeassistant/components/supla/__init__.py:174 | lower-casing an already lower-cased GUID changes nothing |
| Text.LowerKeepsNonLetters | homeassistant/components/supla/__init__.py:174 | lower-casing neither creates nor removes a dash or digit |
| Text.IntToDecimal | homeassistant/components/supla/__init__.py:175 | `str(n)`: a leading minus sign exactly for negative n, then canonical digits (no leading zero unless the number is 0); IntDecimalRoundTrip proves ParseInt reads it back, and CanonicalDecimalRoundTrip that no other canonical spelling exists |
| Text.NatDecimalRoundTrip | homeassistant/components/supla/__init__.py:175 | the decimal digits printed for a channel number read back as that number |
| Text.LeadingDigitPositive | homeassistant/components/supla/__init__.py:175 | digits with a non-zero leading digit denote a positive number |
| Text.CanonicalDecimalRoundTrip | homeassistant/components/supla/__init__.py:175 | printing the value of any canonical digit string gives that string back, so `str` has exactly one spelling per number and an identity such as "supla-ab-07" is never printed |
| Text.ParseNegative | homeassistant/components/supla/__init__.py:175 | a minus sign followed by digits reads back as the negated value of the digits |
| Text.IntDecimalRoundTrip | homeassistant/components/supla/__init__.py:173-176 | `str(n)` of any integer, sign included, parses back to n |
| Text.FirstIndexOfSeparator | homeassistant/components/supla/__init__.py:173-176 | in a dash-free part followed by a dash, the first dash is the one right after that part |
| Interval.CeilDiv | homeassistant/components/supla/__init__.py:116 | `math.ceil(a / b)` is the least q with a <= b·q |
| Interval.CeilDivUnique | homeassistant/components/supla/__init__.py:116 | the ceiling is the only integer within one divisor step above the quotient |
| Interval.RoundToTick | homeassistant/components/supla/__init__.py:113-117 | the rounded interval is a multiple of 10 s, at least the raw interval and less than raw + 10 s |
| Interval.RoundToTickOnTick | homeassistant/components/supla/__init__.py:113-117 | a raw interval already on a 10 s tick is unchanged |
| Interval.RawInterval | homeassistant/components/supla/__init__.py:104-111 | the unrounded interval as an exact fraction with a positive denominator: 3600·N/950 without configuration, the configured microseconds over 10^6 otherwise; UpdateInterval and UnconfiguredClosedForm pin what it feeds into |
| Interval.UpdateInterval | homeassistant/components/supla/__init__.py:104-117 | unconfigured: a multiple of 10 within 10 s above 3600·N/950; configured: a multiple of 10 within 10 s above the configured seconds |
| Interval.UnconfiguredClosedForm | homeassistant/components/supla/__init__.py:104-117 | without configuration, N channels poll every 10·⌈36N/95⌉ seconds |
| Interval.UnconfiguredExamples | homeassistant/components/supla/__init__.py:104-117 | 0 channels give 0 s, 1 gives 10 s, 10 give 40 s, 100 give 380 s, 950 give 3600 s |
| Interval.UnconfiguredMonotone | homeassistant/components/supla/__init__.py:104-117 | more channels never shorten the computed interval |
| Interval.ConfiguredIgnoresChannelCount | homeassistant/components/supla/__init__.py:105-111 | with a configured interval the channel count plays no part |
| Interval.ConfiguredIsRounded | homeassistant/components/supla/__init__.py:110-117 | a configured 25 s is rounded to 30 s, while 30 s stays 30 s |
| Channel.PlatformName | homeassistant/components/supla/__init__.py:22-26 | covers load the "cover" platform and switches the "switch" platform |
| Channel.Classify | homeassistant/components/supla/__init__.py:124-142 | a channel is ignored exactly for function NONE, unsupported exactly for other functions missing from the table, and otherwise routed to the table's platform |
| Channel.ClassifyTable | homeassistant/components/supla/__init__.py:22-27 | only the roller-shutter and gate functions map to cover, and only the light switch maps to switch |
| Registry.Lookup | homeassistant/components/supla/__init__.py:168 | a lookup finds an entry with the asked address, or reports that none exists |
| Registry.LookupEntry | homeassistant/components/supla/__init__.py:168 | with distinct addresses, each entry is what its address looks up |
| Registry.Put | homeassistant/components/supla/__init__.py:73 | storing a client keeps addresses distinct and keeps existing keys in place; the length grows only for a new address |
| Registry.PutLookup | homeassistant/components/supla/__init__.py:73 | after storing, the address looks up the new client and every other address is unaffected |
| Discovery.ServerInterval | homeassistant/components/supla/__init__.py:104-117 | the interval every channel of one server is stamped with, counting dropped channels too; its bounds are those of Interval.UpdateInterval, and AllRoutesSound and DiscoveredChannelsResolve tie each loaded channel to its server's value |
| Discovery.RouteOne | homeassistant/components/supla/__init__.py:125-146 | one channel contributes one routed, stamped record exactly when its function maps to a platform, routed to that platform, and nothing otherwise |
| Discovery.RouteChannels | homeassistant/components/supla/__init__.py:124-146 | one server's kept channels are never more than its listed channels |
| Discovery.RouteChannelsSound | homeassistant/components/supla/__init__.py:124-146 | every kept channel is a listed one whose function maps to its platform, stamped with the server's name and interval |
| Discovery.RouteChannelsComplete | homeassistant/components/supla/__init__.py:124-146 | every listed channel whose function maps to a platform is kept, stamped and routed there |
| Discovery.RouteChannelsSnoc | homeassistant/components/supla/__init__.py:124-146 | unfolds RouteChannels' definition at one more channel of a listing (the step of the inner loop) |
| Discovery.RouteChannelsPush | homeassistant/components/supla/__init__.py:124-146 | unfolds RouteChannels' definition at a listing with one more channel at the end (a step of RouteChannelsAppend) |
| Discovery.RouteChannelsAppend | homeassistant/components/supla/__init__.py:124-146 | filtering a listing preserves its order: filtering a concatenation is the concatenation of the filtered parts |
| Discovery.AllRoutes | homeassistant/components/supla/__init__.py:100-146 | the kept channels of all servers in registry order; AllRoutesSound and AllRoutesComplete state that it holds exactly the supported channels of registered servers |
| Discovery.AllRoutesOrigin | homeassistant/components/supla/__init__.py:100-146 | a kept channel names a registered server that listed it, and carries that server's name and computed interval |
| Discovery.AllRoutesSound | homeassistant/components/supla/__init__.py:100-146 | every kept channel was listed by some registered server and carries that server's name and computed interval |
| Discovery.AllRoutesHas | homeassistant/components/supla/__init__.py:100-146 | a supported channel of a registered server is kept, stamped with that server's name and interval |
| Discovery.AllRoutesComplete | homeassistant/components/supla/__init__.py:100-146 | every supported channel of every registered server is kept |
| Discovery.ChannelsFor | homeassistant/components/supla/__init__.py:148 | a platform's list is no longer than the kept channels |
| Discovery.ChannelsForMembers | homeassistant/components/supla/__init__.py:148 | a channel is in a platform's list exactly when it was routed to that platform |
| Discovery.ChannelsForAppend | homeassistant/components/supla/__init__.py:148 | a platform's list keeps server order and then channel order |
| Discovery.ChannelsForSnoc | homeassistant/components/supla/__init__.py:148 | unfolds ChannelsFor's definition at one more routed channel (a step of the grouping proof) |
| Discovery.GroupIndex | homeassistant/components/supla/__init__.py:148 | `setdefault` finds the existing list of a platform, or reports that none exists |
| Discovery.AddToGroups | homeassistant/components/supla/__init__.py:148 | `setdefault(c, []).append(ch)`; AddKeepsDistinct, AddKeepsMatch, AddKeepsCover and AddToGroupsStep state that it keeps the grouping proper |
| Discovery.AddKeepsDistinct | homeassistant/components/supla/__init__.py:148 | appending a channel never creates a second list for a platform |
| Discovery.AddKeepsMatch | homeassistant/components/supla/__init__.py:148 | after appending, every list still holds exactly its platform's channels in order, and none is empty |
| Discovery.AddKeepsCover | homeassistant/components/supla/__init__.py:148 | after appending, every platform that received a channel has a list |
| Discovery.AddToGroupsStep | homeassistant/components/supla/__init__.py:148 | one `setdefault(...).append` keeps the grouping proper |
| Discovery.GroupBy | homeassistant/components/supla/__init__.py:148 | there are no more platform lists than kept channels |
| Discovery.GroupByProper | homeassistant/components/supla/__init__.py:98-148 | the dict built by discovery has one non-empty, order-preserving list per platform that received channels, and no other lists |
| Discovery.GroupBySnoc | homeassistant/components/supla/__init__.py:148 | unfolds GroupBy's definition at one more routed channel (a step of the inner loop) |
| Discovery.Discover | homeassistant/components/supla/__init__.py:98-152 | the platform loads of `discover_devices`; GroupByProper, LoadCount, LoadedPlatformNames and DiscoveredChannelsResolve state that they are one non-empty, order-preserving list per platform that received channels, each channel resolving to its server |
| Discovery.DistinctComponentsCount | homeassistant/components/supla/__init__.py:151-152 | lists for distinct platforms are as many as their platforms |
| Discovery.GroupedPlatforms | homeassistant/components/supla/__init__.py:148-152 | a platform has a list exactly when some channel was routed to it |
| Discovery.LoadCount | homeassistant/components/supla/__init__.py:150-152 | the platform is loaded once for each platform that received a channel, and no empty group is loaded |
| Discovery.DiscoverStepKept | homeassistant/components/supla/__init__.py:124-148 | a channel whose function maps to a platform adds one append to that platform's list |
| Discovery.DiscoverStepDropped | homeassistant/components/supla/__init__.py:124-142 | a channel with function NONE or an unsupported function leaves the lists unchanged |
| Discovery.DiscoverChannel | homeassistant/components/supla/__init__.py:125-148 | one pass of the inner loop body: after channel j the lists are the grouping of everything kept so far plus the listing up to and including j |
| Discovery.DiscoverServer | homeassistant/components/supla/__init__.py:102-148 | the inner loop over one server's channels adds exactly that server's kept channels to the lists |
| Discovery.DiscoverDevices | homeassistant/components/supla/__init__.py:98-152 | the discovery loop yields the proper grouping of all kept channels, in server order and then channel order |
| Discovery.GroupMember | homeassistant/components/supla/__init__.py:148 | a channel in a platform's list was routed to that platform |
| Discovery.ResolveOne | homeassistant/components/supla/__init__.py:144-148 | one channel handed to a platform names a registered server, was listed by it, carries its interval and maps to that platform |
| Discovery.DiscoveredChannelsResolve | homeassistant/components/supla/__init__.py:144-148 | every channel handed to a platform names a registered server, was listed by it, carries its interval and has a function mapping to that platform |
| Discovery.LoadedPlatformNames | homeassistant/components/supla/__init__.py:150-152 | the platform names passed to `load_platform` are "cover" or "switch", and no name is passed twice |
| Setup.HandleOf | homeassistant/components/supla/__init__.py:61-67 | the client stored for a server, keyed by its address and carrying its configured interval; PutAllLastWins and SetupCompletedRegistry state which handle each address ends up with |
| Setup.PutAll | homeassistant/components/supla/__init__.py:73 | storing the clients in configuration order keeps addresses distinct; PutAllKeepsOthers and PutAllLastWins state the last-wins binding |
| Setup.PutAllKeepsOthers | homeassistant/components/supla/__init__.py:59-73 | storing servers leaves the entries for addresses they do not use unchanged |
| Setup.PutAllLastWins | homeassistant/components/supla/__init__.py:59-73 | an address ends up bound to the client of its last configuration |
| Setup.Run | homeassistant/components/supla/__init__.py:59-89 | the setup loop keeps addresses distinct; a successful run loaded exactly what discovery over its registry yields; a failed run contacted at least one and at most all remaining servers and reports a non-authenticated answer |
| Setup.RunCompleted | homeassistant/components/supla/__init__.py:59-89 | a setup run that succeeds met only authenticated servers, registered them all and ran discovery on the result |
| Setup.RunCompletes | homeassistant/components/supla/__init__.py:59-89 | a run over authenticated servers only always succeeds |
| Setup.FirstFailure | homeassistant/components/supla/__init__.py:59-85 | the first failing server is preceded only by authenticated ones and did not itself authenticate |
| Setup.RunAbortedAt | homeassistant/components/supla/__init__.py:59-85 | a run that fails stopped at its first unauthenticated or unreachable server, after contacting exactly the servers up to it, and reports its answer |
| Setup.RunAbortedRegistry | homeassistant/components/supla/__init__.py:59-85 | a run that fails holds exactly the servers stored before the first failing one |
| Setup.ComponentSetup | homeassistant/components/supla/__init__.py:50-89 | `setup`: addresses stay distinct, success loads exactly Discover of the registry, failure reports a non-authenticated answer after contacting between one and all servers; SetupCompletesIff, SetupStopsAtFirstFailure and SetupCompletedRegistry give the full promise |
| Setup.SetupCompletesIff | homeassistant/components/supla/__init__.py:59-89 | setup returns True exactly when every configured server authenticated |
| Setup.SetupStopsAtFirstFailure | homeassistant/components/supla/__init__.py:69-85 | a failed setup contacted servers up to and including the first failing one and no later server, reports that server's failure, and did not run discovery |
| Setup.SetupCompletedRegistry | homeassistant/components/supla/__init__.py:59-89 | a successful setup registered every configured address and loaded exactly what discovery over that registry yields |
| Setup.LastOccurrence | homeassistant/components/supla/__init__.py:73 | every configured address has a last configuration |
| Entity.FromDiscovery | homeassistant/components/supla/__init__.py:158-163 | the constructor takes server name, interval and record from the stamped channel; DiscoveredEntitiesFindServer states that every entity so built finds its server and carries its interval |
| Entity.Server | homeassistant/components/supla/__init__.py:166-168 | the `server` property is the registry lookup under the entity's server name; DiscoveredEntitiesFindServer states that it succeeds for discovered entities |
| Entity.DiscoveredEntitiesFindServer | homeassistant/components/supla/__init__.py:158-168 | every entity built from discovery output finds its server in the registry and carries that server's interval |
| Entity.FormatUniqueId | homeassistant/components/supla/__init__.py:173-176 | the identity starts with "supla-" and its GUID part has no upper-case letter |
| Entity.UniqueId | homeassistant/components/supla/__init__.py:170-176 | the identity exists exactly when the record and its device sub-record are present, and then starts with "supla-" |
| Entity.ParseUniqueId | homeassistant/components/supla/__init__.py:173-176 | an identity that parses starts with "supla-" and yields a dash-free GUID |
| Entity.ParseJoinedId | homeassistant/components/supla/__init__.py:173-176 | "supla-", a dash-free GUID, a dash and a parsable number split back into the GUID and the number |
| Entity.UniqueIdRoundTrip | homeassistant/components/supla/__init__.py:173-176 | the identity of a dash-free GUID and a channel number parses back to the lower-cased GUID and the number |
| Entity.UniqueIdInjective | homeassistant/components/supla/__init__.py:173-176 | two identities are equal exactly when the GUIDs agree up to case and the channel numbers agree |
| Entity.UniqueIdCaseInsensitive | homeassistant/components/supla/__init__.py:174 | re-lower-casing the GUID does not change the identity |
| Entity.Available | homeassistant/components/supla/__init__.py:183-193 | unavailable without a record, unavailable without a state record, and otherwise available exactly when connected is true; an absent flag counts as false |
| Entity.Refresh | homeassistant/components/supla/__init__.py:210-215 | `_update` keeps the server name and interval; a held record is replaced wholesale by the fetched one, and an entity whose record is already None keeps None (the read of its id raises); RefreshKeepsIdentity and RefreshIdentity state what survives |
| Entity.RefreshKeepsIdentity | homeassistant/components/supla/__init__.py:210-215 | a refresh whose fetched record still reports the same device and channel number keeps the identity, and the server name and interval set by the constructor; availability follows the fetched state alone |
| Entity.RefreshIdentity | homeassistant/components/supla/__init__.py:210-215 | after a refresh the identity exists exactly when the entity held a record and the fetched record exists and carries `iodevice`, and is then formatted from the fetched device and number; otherwise `unique_id` would raise |

## Left out

- Network calls of the Supla client (`get_server_info`, `get_channels`, `get_channel`, `execute_action`): their results are inputs.
- `action`: it forwards the call to the client unchanged and has no local logic.
- `name`: it returns the caption unchanged and has no local logic.
- The `Throttle` on `update`: the rate limiter lives in a library outside this code, and its timing is not modelled.
- Configuration schemas (`SERVER_CONFIG`, `CONFIG_SCHEMA`): validation is done by a schema library. Configurations enter the model already valid.
- `load_platform`, `hass.data[SUPLA_CHANNELS]`, the `Entity` base class and logging: host plumbing. The model produces the per-platform groups that would be passed to `load_platform`.
- Exceptions other than `OSError` from `get_server_info`, and any exception from `get_channels` or `get_channel`, propagate out of `setup` or `update` in the source. The model assumes that listings and refreshes always arrive.
- Interval.UpdateInterval: the source computes with floating point. The model uses exact fractions, so float rounding is not modelled.
- Entity.Available: the source returns the raw `connected` value, which is `None` when absent. The model returns its truth value.
- Entity.Refresh: for an entity whose record is already None, `_update` raises TypeError reading the record's id (line 212). The model returns the entity unchanged and does not model the exception.
- Entity.RefreshKeepsIdentity: the `include` lists of `get_channels` and `get_channel` are not modelled. `_update` (line 214) asks only for "connected" and "state", not "iodevice", so the identity survives a refresh only if the remote still sends `iodevice`; RefreshIdentity states the case where it does not.
- Entity.UniqueIdRoundTrip: requires a GUID without dashes. Supla reports GUIDs as plain hexadecimal.
- Entity.UniqueIdInjective: requires GUIDs without dashes, for the same reason.
- Text.Lower: only ASCII letters are lower-cased, which is all a hexadecimal GUID contains. Unicode case mapping is not modelled.
