/**
 * Device discovery: for every registered server, in registry order, compute
 * the server's update interval, drop the channels with no function or an
 * unsupported function, stamp the rest with the server's name and interval,
 * and collect them per host platform. Each non-empty platform group is loaded
 * once.
 */
module Discovery {
  import opened Options
  import opened Interval
  import opened Channel
  import opened Registry

  /** A channel record after discovery has added `server_name` and `update_interval`. */
  datatype StampedChannel = StampedChannel(data: ChannelData, serverName: string, updateInterval: int)

  /** A kept channel together with the platform it goes to. */
  datatype Routed = Routed(component: Component, channel: StampedChannel)

  /** One platform load: the platform and the channels passed to it. */
  datatype Group = Group(component: Component, channels: seq<StampedChannel>)

  /** The interval every channel of `h` is stamped with; the count includes the channels that are dropped. */
  function ServerInterval(h: ServerHandle): (seconds: int) {
    UpdateInterval(h.updateInterval, |h.channels|)
  }

  /** What one channel contributes: nothing, or itself stamped and routed. */
  function RouteOne(ch: ChannelData, name: string, interval: int): (rs: seq<Routed>)
    ensures |rs| <= 1
    ensures |rs| == 1 <==> Classify(ch.functionName).Route?
    ensures |rs| == 1 ==> rs[0].channel == StampedChannel(ch, name, interval) && Classify(ch.functionName) == Route(rs[0].component)
  {
    match Classify(ch.functionName)
    case Route(c) => [Routed(c, StampedChannel(ch, name, interval))]
    case _ => []
  }

  /** `r` is one of `h`'s channels, routed by its function and stamped with `h`'s name and interval. */
  predicate FromServer(r: Routed, h: ServerHandle) {
    && r.channel.serverName == h.name
    && r.channel.updateInterval == ServerInterval(h)
    && r.channel.data in h.channels
    && Classify(r.channel.data.functionName) == Route(r.component)
  }

  /** The kept channels of one listing, in listing order. */
  function RouteChannels(chs: seq<ChannelData>, name: string, interval: int): (rs: seq<Routed>)
    ensures |rs| <= |chs|
    decreases |chs|
  {
    if chs == [] then []
    else RouteChannels(chs[..|chs| - 1], name, interval) + RouteOne(chs[|chs| - 1], name, interval)
  }

  /** Every kept channel comes from the listing, routed by its function, stamped with the given name and interval. */
  lemma {:induction false} RouteChannelsSound(chs: seq<ChannelData>, name: string, interval: int)
    ensures forall r :: r in RouteChannels(chs, name, interval) ==>
      && r.channel.serverName == name
      && r.channel.updateInterval == interval
      && r.channel.data in chs
      && Classify(r.channel.data.functionName) == Route(r.component)
    decreases |chs|
  {
    if chs != [] {
      var init := chs[..|chs| - 1];
      RouteChannelsSound(init, name, interval);
      assert forall ch :: ch in init ==> ch in chs;
    }
  }

  /** Every channel whose function maps to a platform is kept. */
  lemma {:induction false} RouteChannelsComplete(chs: seq<ChannelData>, name: string, interval: int)
    ensures forall ch :: ch in chs && Classify(ch.functionName).Route? ==>
      Routed(Classify(ch.functionName).component, StampedChannel(ch, name, interval)) in RouteChannels(chs, name, interval)
    decreases |chs|
  {
    if chs != [] {
      var init := chs[..|chs| - 1];
      RouteChannelsComplete(init, name, interval);
      assert chs == init + [chs[|chs| - 1]];
    }
  }

  /** Filtering one more channel of a listing adds at most that channel, at the end. */
  lemma RouteChannelsSnoc(chs: seq<ChannelData>, j: nat, name: string, interval: int)
    requires j < |chs|
    ensures RouteChannels(chs[..j + 1], name, interval) == RouteChannels(chs[..j], name, interval) + RouteOne(chs[j], name, interval)
  {
    assert chs[..j + 1][..j] == chs[..j];
  }

  /** Concatenation is associative. */
  lemma AppendAssoc<T>(x: seq<T>, y: seq<T>, z: seq<T>)
    ensures (x + y) + z == x + (y + z)
  {
  }

  /** Filtering a listing with one more channel at the end adds at most that channel. */
  lemma RouteChannelsPush(chs: seq<ChannelData>, ch: ChannelData, name: string, interval: int)
    ensures RouteChannels(chs + [ch], name, interval) == RouteChannels(chs, name, interval) + RouteOne(ch, name, interval)
  {
    assert (chs + [ch])[..|chs|] == chs;
  }

  /** Filtering a concatenation filters each part in turn: the listing order is kept. */
  lemma {:induction false} RouteChannelsAppend(a: seq<ChannelData>, b: seq<ChannelData>, name: string, interval: int)
    ensures RouteChannels(a + b, name, interval) == RouteChannels(a, name, interval) + RouteChannels(b, name, interval)
    decreases |b|
  {
    if b == [] {
      assert a + b == a;
    } else {
      var b' := b[..|b| - 1];
      var last := b[|b| - 1];
      assert b == b' + [last];
      assert a + b == (a + b') + [last];
      RouteChannelsPush(a + b', last, name, interval);
      RouteChannelsPush(b', last, name, interval);
      RouteChannelsAppend(a, b', name, interval);
      AppendAssoc(RouteChannels(a, name, interval), RouteChannels(b', name, interval), RouteOne(last, name, interval));
    }
  }

  /** The kept channels of one server. */
  function ServerRoutes(h: ServerHandle): (rs: seq<Routed>) {
    RouteChannels(h.channels, h.name, ServerInterval(h))
  }

  /** The kept channels of all servers: server order first, then listing order. */
  function AllRoutes(reg: Registry): (rs: seq<Routed>)
    decreases |reg|
  {
    if reg == [] then [] else AllRoutes(reg[..|reg| - 1]) + ServerRoutes(reg[|reg| - 1])
  }

  /** The registered server a kept channel was listed by. */
  lemma {:induction false} AllRoutesOrigin(reg: Registry, r: Routed) returns (i: nat)
    requires r in AllRoutes(reg)
    ensures i < |reg| && FromServer(r, reg[i])
    decreases |reg|
  {
    var init := reg[..|reg| - 1];
    var last := reg[|reg| - 1];
    if r in AllRoutes(init) {
      i := AllRoutesOrigin(init, r);
      assert reg[i] == init[i];
    } else {
      RouteChannelsSound(last.channels, last.name, ServerInterval(last));
      i := |reg| - 1;
    }
  }

  /** Every kept channel was listed by some registered server and carries that server's name and interval. */
  lemma AllRoutesSound(reg: Registry)
    ensures forall r :: r in AllRoutes(reg) ==> exists i :: 0 <= i < |reg| && FromServer(r, reg[i])
  {
    forall r | r in AllRoutes(reg)
      ensures exists i :: 0 <= i < |reg| && FromServer(r, reg[i])
    {
      var i := AllRoutesOrigin(reg, r);
    }
  }

  /** A channel of a registered server whose function maps to a platform is kept. */
  lemma {:induction false} AllRoutesHas(reg: Registry, i: nat, ch: ChannelData)
    requires i < |reg| && ch in reg[i].channels && Classify(ch.functionName).Route?
    ensures Routed(Classify(ch.functionName).component, StampedChannel(ch, reg[i].name, ServerInterval(reg[i]))) in AllRoutes(reg)
    decreases |reg|
  {
    var init := reg[..|reg| - 1];
    var last := reg[|reg| - 1];
    if i < |init| {
      assert reg[i] == init[i];
      AllRoutesHas(init, i, ch);
    } else {
      RouteChannelsComplete(last.channels, last.name, ServerInterval(last));
    }
  }

  /** Every channel of every registered server whose function maps to a platform is kept. */
  lemma AllRoutesComplete(reg: Registry)
    ensures forall i, ch :: 0 <= i < |reg| && ch in reg[i].channels && Classify(ch.functionName).Route? ==>
      Routed(Classify(ch.functionName).component, StampedChannel(ch, reg[i].name, ServerInterval(reg[i]))) in AllRoutes(reg)
  {
    forall i, ch | 0 <= i < |reg| && ch in reg[i].channels && Classify(ch.functionName).Route?
      ensures Routed(Classify(ch.functionName).component, StampedChannel(ch, reg[i].name, ServerInterval(reg[i]))) in AllRoutes(reg)
    {
      AllRoutesHas(reg, i, ch);
    }
  }

  /** The channels routed to `c`, in order: the reference definition of one group. */
  function ChannelsFor(rs: seq<Routed>, c: Component): (chs: seq<StampedChannel>)
    ensures |chs| <= |rs|
    decreases |rs|
  {
    if rs == [] then []
    else
      var last := rs[|rs| - 1];
      ChannelsFor(rs[..|rs| - 1], c) + (if last.component == c then [last.channel] else [])
  }

  /** A channel is in `c`'s group exactly when it was routed to `c`. */
  lemma {:induction false} ChannelsForMembers(rs: seq<Routed>, c: Component)
    ensures forall ch :: ch in ChannelsFor(rs, c) <==> Routed(c, ch) in rs
    decreases |rs|
  {
    if rs != [] {
      var init := rs[..|rs| - 1];
      ChannelsForMembers(init, c);
      assert rs == init + [rs[|rs| - 1]];
    }
  }

  /** Selecting one platform's channels commutes with concatenation. */
  lemma {:induction false} ChannelsForAppend(a: seq<Routed>, b: seq<Routed>, c: Component)
    ensures ChannelsFor(a + b, c) == ChannelsFor(a, c) + ChannelsFor(b, c)
    decreases |b|
  {
    if b == [] {
      assert a + b == a;
    } else {
      var b' := b[..|b| - 1];
      assert (a + b)[..|a + b| - 1] == a + b';
      assert (a + b)[|a + b| - 1] == b[|b| - 1];
      ChannelsForAppend(a, b', c);
    }
  }

  /** Position of the group for `c`, if there is one. */
  function GroupIndex(gs: seq<Group>, c: Component): (r: Option<nat>)
    ensures r.Some? ==> r.value < |gs| && gs[r.value].component == c
    ensures r.None? ==> forall j :: 0 <= j < |gs| ==> gs[j].component != c
  {
    if gs == [] then None
    else if gs[0].component == c then Some(0)
    else match GroupIndex(gs[1..], c)
      case None => None
      case Some(k) => Some(k + 1)
  }

  /** `component_configs.setdefault(c, []).append(ch)`. */
  function AddToGroups(gs: seq<Group>, r: Routed): (gs': seq<Group>) {
    match GroupIndex(gs, r.component)
    case Some(i) => gs[i := Group(r.component, gs[i].channels + [r.channel])]
    case None => gs + [Group(r.component, [r.channel])]
  }

  /** No platform is loaded twice. */
  predicate DistinctPlatforms(gs: seq<Group>) {
    forall i, j :: 0 <= i < j < |gs| ==> gs[i].component != gs[j].component
  }

  /** Each group is non-empty and holds exactly its platform's channels, in their order within `rs`. */
  predicate GroupsMatch(gs: seq<Group>, rs: seq<Routed>) {
    forall i :: 0 <= i < |gs| ==> gs[i].channels != [] && gs[i].channels == ChannelsFor(rs, gs[i].component)
  }

  /** Every platform that received a channel has a group. */
  predicate CoversPlatforms(gs: seq<Group>, rs: seq<Routed>) {
    forall c :: ChannelsFor(rs, c) != [] ==> exists i :: 0 <= i < |gs| && gs[i].component == c
  }

  /**
   * `gs` is the grouping of `rs`: one group per platform that received a
   * channel, none for a platform that received none, and each group's channels
   * are exactly that platform's channels in their order within `rs`.
   */
  predicate ProperGrouping(gs: seq<Group>, rs: seq<Routed>) {
    DistinctPlatforms(gs) && GroupsMatch(gs, rs) && CoversPlatforms(gs, rs)
  }

  /** The channels of `c` after one more routed channel. */
  lemma ChannelsForSnoc(rs: seq<Routed>, r: Routed, c: Component)
    ensures ChannelsFor(rs + [r], c) == ChannelsFor(rs, c) + (if r.component == c then [r.channel] else [])
  {
    assert (rs + [r])[..|rs|] == rs;
  }

  /** `AddToGroups` never reuses a platform. */
  lemma AddKeepsDistinct(gs: seq<Group>, r: Routed)
    requires DistinctPlatforms(gs)
    ensures DistinctPlatforms(AddToGroups(gs, r))
  {
    var gs' := AddToGroups(gs, r);
    match GroupIndex(gs, r.component)
    case Some(i) =>
      assert forall j :: 0 <= j < |gs'| ==> gs'[j].component == gs[j].component;
    case None =>
      assert forall j :: 0 <= j < |gs| ==> gs'[j] == gs[j];
  }

  /** `AddToGroups` appends the channel to exactly its platform's group. */
  lemma AddKeepsMatch(gs: seq<Group>, rs: seq<Routed>, r: Routed)
    requires DistinctPlatforms(gs) && GroupsMatch(gs, rs) && CoversPlatforms(gs, rs)
    ensures GroupsMatch(AddToGroups(gs, r), rs + [r])
  {
    var gs' := AddToGroups(gs, r);
    forall j | 0 <= j < |gs'|
      ensures gs'[j].channels != [] && gs'[j].channels == ChannelsFor(rs + [r], gs'[j].component)
    {
      ChannelsForSnoc(rs, r, gs'[j].component);
      match GroupIndex(gs, r.component)
      case Some(i) =>
        if j != i {
          assert gs'[j] == gs[j];
        }
      case None =>
        if j == |gs| {
          assert ChannelsFor(rs, r.component) == [];
        }
    }
  }

  /** After `AddToGroups`, the new channel's platform has a group and the others keep theirs. */
  lemma AddKeepsCover(gs: seq<Group>, rs: seq<Routed>, r: Routed)
    requires CoversPlatforms(gs, rs)
    ensures CoversPlatforms(AddToGroups(gs, r), rs + [r])
  {
    var gs' := AddToGroups(gs, r);
    forall c | ChannelsFor(rs + [r], c) != []
      ensures exists j :: 0 <= j < |gs'| && gs'[j].component == c
    {
      ChannelsForSnoc(rs, r, c);
      match GroupIndex(gs, r.component)
      case Some(i) =>
        if c == r.component {
          assert gs'[i].component == c;
        } else {
          var j :| 0 <= j < |gs| && gs[j].component == c;
          assert gs'[j].component == c;
        }
      case None =>
        if c == r.component {
          assert gs'[|gs|].component == c;
        } else {
          var j :| 0 <= j < |gs| && gs[j].component == c;
          assert gs'[j].component == c;
        }
    }
  }

  /** Appending one routed channel to its platform's list keeps the grouping proper. */
  lemma AddToGroupsStep(gs: seq<Group>, rs: seq<Routed>, r: Routed)
    requires ProperGrouping(gs, rs)
    ensures ProperGrouping(AddToGroups(gs, r), rs + [r])
  {
    AddKeepsDistinct(gs, r);
    AddKeepsMatch(gs, rs, r);
    AddKeepsCover(gs, rs, r);
  }

  /** The dict of platform lists built channel by channel. */
  function GroupBy(rs: seq<Routed>): (gs: seq<Group>)
    ensures |gs| <= |rs|
    decreases |rs|
  {
    if rs == [] then [] else AddToGroups(GroupBy(rs[..|rs| - 1]), rs[|rs| - 1])
  }

  /** Building the dict channel by channel yields the proper grouping. */
  lemma {:induction false} GroupByProper(rs: seq<Routed>)
    ensures ProperGrouping(GroupBy(rs), rs)
    decreases |rs|
  {
    if rs != [] {
      var init := rs[..|rs| - 1];
      var r := rs[|rs| - 1];
      assert rs == init + [r];
      GroupByProper(init);
      AddToGroupsStep(GroupBy(init), init, r);
    }
  }

  /** Building the groups of one more routed channel is one more `AddToGroups`. */
  lemma GroupBySnoc(rs: seq<Routed>, r: Routed)
    ensures GroupBy(rs + [r]) == AddToGroups(GroupBy(rs), r)
  {
    assert (rs + [r])[..|rs|] == rs;
  }

  /** The platform loads discovery performs for a registry. */
  function Discover(reg: Registry): (gs: seq<Group>) {
    GroupBy(AllRoutes(reg))
  }

  /** The platforms of a list of groups. */
  function Components(gs: seq<Group>): (cs: set<Component>) {
    set i | 0 <= i < |gs| :: gs[i].component
  }

  /** Groups for distinct platforms are as many as their platforms. */
  lemma {:induction false} DistinctComponentsCount(gs: seq<Group>)
    requires DistinctPlatforms(gs)
    ensures |Components(gs)| == |gs|
    decreases |gs|
  {
    if gs != [] {
      var init := gs[..|gs| - 1];
      var last := gs[|gs| - 1];
      DistinctComponentsCount(init);
      assert Components(gs) == Components(init) + {last.component};
      assert last.component !in Components(init);
    }
  }

  /** A set of platforms has one element per platform it contains. */
  lemma PlatformSetSize(cs: set<Component>)
    ensures |cs| == (if Cover in cs then 1 else 0) + (if Switch in cs then 1 else 0)
  {
    forall c | c in cs
      ensures c == Cover || c == Switch
    {
      match c
      case Cover =>
      case Switch =>
    }
    if Cover in cs && Switch in cs {
      assert cs == {Cover, Switch};
    } else if Cover in cs {
      assert cs == {Cover};
    } else if Switch in cs {
      assert cs == {Switch};
    } else {
      assert cs == {};
    }
  }

  /** A platform has a group exactly when it received a channel. */
  lemma GroupedPlatforms(rs: seq<Routed>, c: Component)
    ensures c in Components(GroupBy(rs)) <==> ChannelsFor(rs, c) != []
  {
    var gs := GroupBy(rs);
    GroupByProper(rs);
    if c in Components(gs) {
      var i :| 0 <= i < |gs| && gs[i].component == c;
      assert gs[i].channels != [] && gs[i].channels == ChannelsFor(rs, c);
    }
  }

  /** One load per platform that received at least one channel, and no more. */
  lemma LoadCount(rs: seq<Routed>)
    ensures |GroupBy(rs)| == (if ChannelsFor(rs, Cover) != [] then 1 else 0) + (if ChannelsFor(rs, Switch) != [] then 1 else 0)
  {
    var gs := GroupBy(rs);
    GroupByProper(rs);
    DistinctComponentsCount(gs);
    GroupedPlatforms(rs, Cover);
    GroupedPlatforms(rs, Switch);
    PlatformSetSize(Components(gs));
  }

  /** A kept channel of a listing is one more append to its platform's list. */
  lemma DiscoverStepKept(done: seq<Routed>, chs: seq<ChannelData>, j: nat, name: string, interval: int, c: Component)
    requires j < |chs| && Classify(chs[j].functionName) == Route(c)
    ensures GroupBy(done + RouteChannels(chs[..j + 1], name, interval))
      == AddToGroups(GroupBy(done + RouteChannels(chs[..j], name, interval)), Routed(c, StampedChannel(chs[j], name, interval)))
  {
    var before := done + RouteChannels(chs[..j], name, interval);
    var r := Routed(c, StampedChannel(chs[j], name, interval));
    RouteChannelsSnoc(chs, j, name, interval);
    assert done + RouteChannels(chs[..j + 1], name, interval) == before + [r];
    GroupBySnoc(before, r);
  }

  /** A dropped channel of a listing leaves the kept channels, and so the platform lists, as they were. */
  lemma DiscoverStepDropped(done: seq<Routed>, chs: seq<ChannelData>, j: nat, name: string, interval: int)
    requires j < |chs| && !Classify(chs[j].functionName).Route?
    ensures done + RouteChannels(chs[..j + 1], name, interval) == done + RouteChannels(chs[..j], name, interval)
  {
    RouteChannelsSnoc(chs, j, name, interval);
  }

  /** The body of the inner discovery loop: skip the channel, or stamp it and append it to its platform's list. */
  method DiscoverChannel(loads: seq<Group>, done: seq<Routed>, chs: seq<ChannelData>, j: nat, name: string, interval: int)
    returns (loads': seq<Group>)
    requires j < |chs|
    requires loads == GroupBy(done + RouteChannels(chs[..j], name, interval))
    ensures loads' == GroupBy(done + RouteChannels(chs[..j + 1], name, interval))
  {
    var ch := chs[j];
    var verdict := Classify(ch.functionName);
    if verdict.Route? {
      DiscoverStepKept(done, chs, j, name, interval, verdict.component);
      loads' := AddToGroups(loads, Routed(verdict.component, StampedChannel(ch, name, interval)));
    } else {
      DiscoverStepDropped(done, chs, j, name, interval);
      loads' := loads;
    }
  }

  /** The inner discovery loop over one server's channels, adding the kept ones to the platform lists. */
  method DiscoverServer(loads: seq<Group>, done: seq<Routed>, server: ServerHandle) returns (loads': seq<Group>)
    requires loads == GroupBy(done)
    ensures loads' == GroupBy(done + ServerRoutes(server))
  {
    var chs := server.channels;
    var name := server.name;
    var interval := ServerInterval(server);
    loads' := loads;
    var j := 0;
    assert done + RouteChannels(chs[..j], name, interval) == done;
    while j < |chs|
      invariant 0 <= j <= |chs|
      invariant loads' == GroupBy(done + RouteChannels(chs[..j], name, interval))
    {
      loads' := DiscoverChannel(loads', done, chs, j, name, interval);
      j := j + 1;
    }
    assert chs[..j] == chs;
  }

  /** The discovery loop as the integration runs it, one server at a time in registry order. */
  method DiscoverDevices(reg: Registry) returns (loads: seq<Group>)
    ensures loads == Discover(reg)
    ensures ProperGrouping(loads, AllRoutes(reg))
  {
    loads := [];
    var i := 0;
    while i < |reg|
      invariant 0 <= i <= |reg|
      invariant loads == GroupBy(AllRoutes(reg[..i]))
    {
      assert reg[..i + 1][..i] == reg[..i];
      loads := DiscoverServer(loads, AllRoutes(reg[..i]), reg[i]);
      i := i + 1;
    }
    assert reg[..i] == reg;
    GroupByProper(AllRoutes(reg));
  }

  /** A channel in a group was routed to that group's platform. */
  lemma GroupMember(rs: seq<Routed>, g: Group, ch: StampedChannel)
    requires g in GroupBy(rs) && ch in g.channels
    ensures Routed(g.component, ch) in rs
  {
    GroupByProper(rs);
    ChannelsForMembers(rs, g.component);
  }

  /** One channel handed to a platform resolves to the registered server it was listed by. */
  lemma ResolveOne(reg: Registry, g: Group, ch: StampedChannel)
    requires UniqueNames(reg)
    requires g in Discover(reg) && ch in g.channels
    ensures Lookup(reg, ch.serverName).Some?
    ensures ch.updateInterval == ServerInterval(Lookup(reg, ch.serverName).value)
    ensures ch.data in Lookup(reg, ch.serverName).value.channels
    ensures Classify(ch.data.functionName) == Route(g.component)
  {
    GroupMember(AllRoutes(reg), g, ch);
    var i := AllRoutesOrigin(reg, Routed(g.component, ch));
    LookupEntry(reg, i);
  }

  /**
   * Every channel handed to a platform resolves, through its `server_name`, to
   * the registered server it was listed by, carries that server's interval, and
   * has a function that maps to that platform.
   */
  lemma DiscoveredChannelsResolve(reg: Registry)
    requires UniqueNames(reg)
    ensures forall g, ch :: g in Discover(reg) && ch in g.channels ==>
      && Lookup(reg, ch.serverName).Some?
      && ch.updateInterval == ServerInterval(Lookup(reg, ch.serverName).value)
      && ch.data in Lookup(reg, ch.serverName).value.channels
      && Classify(ch.data.functionName) == Route(g.component)
  {
    forall g, ch | g in Discover(reg) && ch in g.channels
      ensures Lookup(reg, ch.serverName).Some?
      ensures ch.updateInterval == ServerInterval(Lookup(reg, ch.serverName).value)
      ensures ch.data in Lookup(reg, ch.serverName).value.channels
      ensures Classify(ch.data.functionName) == Route(g.component)
    {
      ResolveOne(reg, g, ch);
    }
  }

  /**
   * `load_platform` is called once per platform name: the names the loads
   * pass are "cover" or "switch", and no name is passed twice.
   */
  lemma LoadedPlatformNames(reg: Registry)
    ensures forall g :: g in Discover(reg) ==> PlatformName(g.component) in {"cover", "switch"}
    ensures forall i, j :: 0 <= i < j < |Discover(reg)| ==>
      PlatformName(Discover(reg)[i].component) != PlatformName(Discover(reg)[j].component)
  {
    GroupByProper(AllRoutes(reg));
  }
}
