/**
 * Component setup: contact the configured servers in order, register each
 * one that authenticates, and stop with failure at the first server that is
 * rejected or cannot be reached. Only when every server authenticated does
 * discovery run and setup succeed.
 */
module Setup {
  import opened Options
  import opened Channel
  import opened Registry
  import opened Discovery

  /** What contacting a server yields: an authenticated answer, an unauthenticated one, or an `OSError`. */
  datatype AuthResult = Authenticated | Rejected | TransportError

  /**
   * A configured server and the remote's behaviour towards it: the outcome
   * of `get_server_info`, and the listing `get_channels` would return.
   */
  datatype Probe = Probe(conf: ServerConf, answer: AuthResult, channels: seq<ChannelData>)

  /**
   * `Aborted`: setup returned `False` after contacting `contacted` servers,
   * the last of which failed for `reason`; `registry` is what had been stored
   * before. `Completed`: setup returned `True` after discovery loaded `loads`.
   */
  datatype SetupOutcome =
    | Aborted(contacted: nat, reason: AuthResult, registry: Registry)
    | Completed(registry: Registry, loads: seq<Group>)

  /** The client stored for an authenticated server: keyed by address, carrying the configured interval. */
  function HandleOf(p: Probe): (h: ServerHandle) {
    ServerHandle(p.conf.server, p.conf.scanInterval, p.channels)
  }

  /** The registry after storing the handles of `ps` in order. */
  function PutAll(reg: Registry, ps: seq<Probe>): (r: Registry)
    requires UniqueNames(reg)
    ensures UniqueNames(r)
    decreases |ps|
  {
    if ps == [] then reg else PutAll(Put(reg, HandleOf(ps[0])), ps[1..])
  }

  /** No probe in `ps` is for address `n`. */
  predicate Absent(ps: seq<Probe>, n: string) {
    forall j :: 0 <= j < |ps| ==> ps[j].conf.server != n
  }

  /** No probe after index `i` is for the same address as probe `i`. */
  predicate LastFor(ps: seq<Probe>, i: nat)
    requires i < |ps|
  {
    Absent(ps[i + 1..], ps[i].conf.server)
  }

  /** Addresses that `ps` does not mention keep their entries. */
  lemma {:induction false} PutAllKeepsOthers(reg: Registry, ps: seq<Probe>, n: string)
    requires UniqueNames(reg)
    requires Absent(ps, n)
    ensures Lookup(PutAll(reg, ps), n) == Lookup(reg, n)
    decreases |ps|
  {
    if ps != [] {
      PutLookup(reg, HandleOf(ps[0]));
      PutAllKeepsOthers(Put(reg, HandleOf(ps[0])), ps[1..], n);
    }
  }

  /** An address is bound to the handle of its last occurrence: a later entry for an address overrides an earlier one. */
  lemma {:induction false} PutAllLastWins(reg: Registry, ps: seq<Probe>, i: nat)
    requires UniqueNames(reg)
    requires i < |ps| && LastFor(ps, i)
    ensures Lookup(PutAll(reg, ps), ps[i].conf.server) == Some(HandleOf(ps[i]))
    decreases |ps|
  {
    var reg' := Put(reg, HandleOf(ps[0]));
    assert PutAll(reg, ps) == PutAll(reg', ps[1..]);
    if i == 0 {
      PutLookup(reg, HandleOf(ps[0]));
      PutAllKeepsOthers(reg', ps[1..], ps[0].conf.server);
    } else {
      assert ps[1..][i - 1] == ps[i];
      assert ps[1..][i..] == ps[i + 1..];
      assert LastFor(ps[1..], i - 1);
      PutAllLastWins(reg', ps[1..], i - 1);
    }
  }

  /** The setup loop from some point on: `reg` holds the servers authenticated so far, `contacted` counts them. */
  function Run(rest: seq<Probe>, reg: Registry, contacted: nat): (out: SetupOutcome)
    requires UniqueNames(reg)
    ensures UniqueNames(out.registry)
    ensures out.Completed? ==> out.loads == Discover(out.registry)
    ensures out.Aborted? ==> contacted < out.contacted <= contacted + |rest| && out.reason != Authenticated
    decreases |rest|
  {
    if rest == [] then Completed(reg, Discover(reg))
    else match rest[0].answer
      case Authenticated => Run(rest[1..], Put(reg, HandleOf(rest[0])), contacted + 1)
      case _ => Aborted(contacted + 1, rest[0].answer, reg)
  }

  /** `setup`: the fold over the configured servers from an empty registry. */
  function ComponentSetup(probes: seq<Probe>): (out: SetupOutcome)
    ensures UniqueNames(out.registry)
    ensures out.Completed? ==> out.loads == Discover(out.registry)
    ensures out.Aborted? ==> 1 <= out.contacted <= |probes| && out.reason != Authenticated
  {
    Run(probes, [], 0)
  }

  /** Every probe authenticated. */
  predicate AllAuthenticated(ps: seq<Probe>) {
    forall i :: 0 <= i < |ps| ==> ps[i].answer == Authenticated
  }

  /** A run that completes met only authenticated servers, registered them all, and ran discovery on the result. */
  lemma {:induction false} RunCompleted(rest: seq<Probe>, reg: Registry, contacted: nat)
    requires UniqueNames(reg)
    requires Run(rest, reg, contacted).Completed?
    ensures AllAuthenticated(rest)
    ensures Run(rest, reg, contacted).registry == PutAll(reg, rest)
    ensures Run(rest, reg, contacted).loads == Discover(PutAll(reg, rest))
    decreases |rest|
  {
    if rest != [] {
      RunCompleted(rest[1..], Put(reg, HandleOf(rest[0])), contacted + 1);
    }
  }

  /** A run over authenticated servers only completes. */
  lemma {:induction false} RunCompletes(rest: seq<Probe>, reg: Registry, contacted: nat)
    requires UniqueNames(reg)
    requires AllAuthenticated(rest)
    ensures Run(rest, reg, contacted).Completed?
    decreases |rest|
  {
    if rest != [] {
      RunCompletes(rest[1..], Put(reg, HandleOf(rest[0])), contacted + 1);
    }
  }

  /** Index of the first server that did not authenticate, or the number of servers if all did. */
  function FirstFailure(ps: seq<Probe>): (k: nat)
    ensures k <= |ps|
    ensures AllAuthenticated(ps[..k])
    ensures k < |ps| ==> ps[k].answer != Authenticated
    decreases |ps|
  {
    if ps == [] || ps[0].answer != Authenticated then 0
    else
      var k := 1 + FirstFailure(ps[1..]);
      assert forall i :: 1 <= i < k ==> ps[..k][i] == ps[1..][..k - 1][i - 1];
      k
  }

  /** Storing a non-empty sequence of handles stores the first, then the rest. */
  lemma PutAllCons(reg: Registry, p: Probe, ps: seq<Probe>)
    requires UniqueNames(reg)
    ensures PutAll(reg, [p] + ps) == PutAll(Put(reg, HandleOf(p)), ps)
  {
    assert ([p] + ps)[1..] == ps;
  }

  /** A run that aborts stopped at its first unauthenticated server, reporting that server's answer. */
  lemma {:induction false} RunAbortedAt(rest: seq<Probe>, reg: Registry, contacted: nat)
    requires UniqueNames(reg)
    requires Run(rest, reg, contacted).Aborted?
    ensures FirstFailure(rest) < |rest|
    ensures Run(rest, reg, contacted).contacted == contacted + FirstFailure(rest) + 1
    ensures Run(rest, reg, contacted).reason == rest[FirstFailure(rest)].answer
    decreases |rest|
  {
    if rest[0].answer == Authenticated {
      RunAbortedAt(rest[1..], Put(reg, HandleOf(rest[0])), contacted + 1);
    }
  }

  /** A run that aborts holds exactly the servers before its first failing one. */
  lemma {:induction false} RunAbortedRegistry(rest: seq<Probe>, reg: Registry, contacted: nat)
    requires UniqueNames(reg)
    requires Run(rest, reg, contacted).Aborted?
    ensures Run(rest, reg, contacted).registry == PutAll(reg, rest[..FirstFailure(rest)])
    decreases |rest|
  {
    if rest[0].answer == Authenticated {
      var tail := rest[1..];
      var reg' := Put(reg, HandleOf(rest[0]));
      assert Run(rest, reg, contacted) == Run(tail, reg', contacted + 1);
      RunAbortedRegistry(tail, reg', contacted + 1);
      var k := FirstFailure(tail);
      assert FirstFailure(rest) == k + 1;
      var front := tail[..k];
      assert rest[..k + 1] == [rest[0]] + front;
      PutAllCons(reg, rest[0], front);
    } else {
      assert rest[..0] == [];
    }
  }

  /** All or nothing: setup succeeds exactly when every configured server authenticated. */
  lemma SetupCompletesIff(probes: seq<Probe>)
    ensures ComponentSetup(probes).Completed? <==> AllAuthenticated(probes)
  {
    if ComponentSetup(probes).Completed? {
      RunCompleted(probes, [], 0);
    }
    if AllAuthenticated(probes) {
      RunCompletes(probes, [], 0);
    }
  }

  /**
   * A failed setup stopped at the first server that did not authenticate: the
   * servers after it were never contacted, discovery did not run, and the
   * registry holds just the servers before it.
   */
  lemma SetupStopsAtFirstFailure(probes: seq<Probe>)
    requires ComponentSetup(probes).Aborted?
    ensures var out := ComponentSetup(probes);
      && 1 <= out.contacted <= |probes|
      && AllAuthenticated(probes[..out.contacted - 1])
      && probes[out.contacted - 1].answer == out.reason
      && out.reason != Authenticated
      && out.registry == PutAll([], probes[..out.contacted - 1])
  {
    RunAbortedAt(probes, [], 0);
    RunAbortedRegistry(probes, [], 0);
  }

  /**
   * A successful setup registered every configured address, bound to its last
   * configuration, and loaded exactly what discovery over that registry yields.
   */
  lemma SetupCompletedRegistry(probes: seq<Probe>)
    requires ComponentSetup(probes).Completed?
    ensures var out := ComponentSetup(probes);
      && out.registry == PutAll([], probes)
      && out.loads == Discover(out.registry)
      && (forall i :: 0 <= i < |probes| ==> Lookup(out.registry, probes[i].conf.server).Some?)
  {
    RunCompleted(probes, [], 0);
    var reg := PutAll([], probes);
    forall i | 0 <= i < |probes|
      ensures Lookup(reg, probes[i].conf.server).Some?
    {
      var k := LastOccurrence(probes, i);
      PutAllLastWins([], probes, k);
    }
  }

  /** The index of the last probe for the same address as probe `i`. */
  lemma {:induction false} LastOccurrence(ps: seq<Probe>, i: nat) returns (k: nat)
    requires i < |ps|
    ensures i <= k < |ps|
    ensures ps[k].conf.server == ps[i].conf.server
    ensures LastFor(ps, k)
    decreases |ps| - i
  {
    if j :| i < j < |ps| && ps[j].conf.server == ps[i].conf.server {
      k := LastOccurrence(ps, j);
    } else {
      k := i;
    }
  }
}
