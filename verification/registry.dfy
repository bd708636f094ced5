/**
 * The process-wide server registry: configured server address to an
 * authenticated client. It behaves like a Python dict: iteration follows
 * first insertion, and storing under an address already present replaces the
 * client in place.
 */
module Registry {
  import opened Options
  import opened Interval
  import opened Channel

  /** One entry of the `servers` configuration list. */
  datatype ServerConf = ServerConf(server: string, accessToken: string, scanInterval: Option<Duration>)

  /**
   * An authenticated client. `channels` is the listing this server answers to
   * `get_channels` with; the remote service itself is not modelled.
   */
  datatype ServerHandle = ServerHandle(name: string, updateInterval: Option<Duration>, channels: seq<ChannelData>)

  type Registry = seq<ServerHandle>

  /** Keys of a dict are distinct. */
  predicate UniqueNames(reg: Registry) {
    forall i, j :: 0 <= i < j < |reg| ==> reg[i].name != reg[j].name
  }

  /** Position of `name` among the registry's keys. */
  function IndexOf(reg: Registry, name: string): (r: Option<nat>)
    ensures r.Some? ==> r.value < |reg| && reg[r.value].name == name
    ensures r.Some? ==> forall j :: 0 <= j < r.value ==> reg[j].name != name
    ensures r.None? ==> forall j :: 0 <= j < |reg| ==> reg[j].name != name
  {
    if reg == [] then None
    else if reg[0].name == name then Some(0)
    else match IndexOf(reg[1..], name)
      case None => None
      case Some(k) => Some(k + 1)
  }

  /** `registry[name]`, or `None` for a missing key. */
  function Lookup(reg: Registry, name: string): (r: Option<ServerHandle>)
    ensures r.Some? ==> r.value in reg && r.value.name == name
    ensures r.None? ==> forall j :: 0 <= j < |reg| ==> reg[j].name != name
  {
    match IndexOf(reg, name)
    case None => None
    case Some(i) => Some(reg[i])
  }

  /** In a registry with distinct keys, every entry is what its own key looks up. */
  lemma LookupEntry(reg: Registry, i: nat)
    requires UniqueNames(reg)
    requires i < |reg|
    ensures Lookup(reg, reg[i].name) == Some(reg[i])
  {
    var k := IndexOf(reg, reg[i].name);
    assert k.Some?;
  }

  /** `registry[h.name] = h`: replace in place under an existing key, append under a new one. */
  function Put(reg: Registry, h: ServerHandle): (r: Registry)
    requires UniqueNames(reg)
    ensures UniqueNames(r)
    ensures |r| == if Lookup(reg, h.name).Some? then |reg| else |reg| + 1
    ensures forall i :: 0 <= i < |reg| ==> r[i].name == reg[i].name
  {
    match IndexOf(reg, h.name)
    case Some(i) => reg[i := h]
    case None => reg + [h]
  }

  /** After `Put`, the new key looks up the new handle and every other key looks up what it did before. */
  lemma PutLookup(reg: Registry, h: ServerHandle)
    requires UniqueNames(reg)
    ensures Lookup(Put(reg, h), h.name) == Some(h)
    ensures forall n :: n != h.name ==> Lookup(Put(reg, h), n) == Lookup(reg, n)
  {
    var r := Put(reg, h);
    match IndexOf(reg, h.name)
    case Some(i) =>
      assert forall j :: 0 <= j < |r| ==> r[j].name == reg[j].name;
      PutKeepsOthers(reg, r, h.name);
      LookupEntry(r, i);
    case None =>
      PutKeepsOthers(reg, r, h.name);
      LookupEntry(r, |reg|);
  }

  /** Entries under other keys look up the same once `r` agrees with `reg` everywhere but at `name`. */
  lemma PutKeepsOthers(reg: Registry, r: Registry, name: string)
    requires UniqueNames(reg) && UniqueNames(r)
    requires |reg| <= |r|
    requires forall j :: 0 <= j < |reg| ==> reg[j].name == name || r[j] == reg[j]
    requires forall j :: |reg| <= j < |r| ==> r[j].name == name
    requires forall j :: 0 <= j < |reg| ==> reg[j].name == r[j].name
    ensures forall n :: n != name ==> Lookup(r, n) == Lookup(reg, n)
  {
    forall n | n != name
      ensures Lookup(r, n) == Lookup(reg, n)
    {
      match IndexOf(reg, n)
      case None =>
      case Some(i) =>
        LookupEntry(r, i);
    }
  }
}
