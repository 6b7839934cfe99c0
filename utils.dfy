/**
 * `Utils` (pks/utils.py): `systemctl` wrappers that report success as a
 * boolean, and the port filter that moves every port of a knock sequence to
 * an acceptable one by probing forward with wrap-around.
 */
module Utils {
  import opened Configuration
  import opened Environment

  // ---------------------------------------------------------------------------
  // Services.

  /** `start_service`: `systemctl start`, true exactly when it exits with code 0. */
  method StartService(host: Host, service: string) returns (ok: bool)
    modifies host`calls
    ensures host.calls == old(host.calls) + [SystemctlStart(service)]
    ensures ok <==> host.exitCode(|old(host.calls)|) == 0
  {
    var code := host.Systemctl(SystemctlStart(service));
    if code == 0 {
      return true;
    } else {
      return false;
    }
  }

  /** `stop_service`: `systemctl stop`, true exactly when it exits with code 0. */
  method StopService(host: Host, service: string) returns (ok: bool)
    modifies host`calls
    ensures host.calls == old(host.calls) + [SystemctlStop(service)]
    ensures ok <==> host.exitCode(|old(host.calls)|) == 0
  {
    var code := host.Systemctl(SystemctlStop(service));
    if code == 0 {
      return true;
    } else {
      return false;
    }
  }

  /**
   * The `systemctl` invocations of a restart whose stop is the `n`-th
   * invocation: the start follows only a successful stop.
   */
  function RestartCalls(exitCode: nat -> int, n: nat, service: string): (r: seq<ServiceCall>)
    ensures 1 <= |r| <= 2 && r[0] == SystemctlStop(service)
    ensures |r| == 2 <==> exitCode(n) == 0
    ensures |r| == 2 ==> r[1] == SystemctlStart(service)
  {
    if exitCode(n) == 0 then [SystemctlStop(service), SystemctlStart(service)] else [SystemctlStop(service)]
  }

  /**
   * `restart_service`: stop, then start only if the stop succeeded (the `and`
   * short-circuits); true exactly when both ran and both succeeded.
   */
  method RestartService(host: Host, service: string) returns (ok: bool)
    modifies host`calls
    ensures host.calls == old(host.calls) + RestartCalls(host.exitCode, |old(host.calls)|, service)
    ensures ok <==> host.exitCode(|old(host.calls)|) == 0 && host.exitCode(|old(host.calls)| + 1) == 0
  {
    var stopped := StopService(host, service);
    if stopped {
      var started := StartService(host, service);
      ok := started;
    } else {
      ok := false;
    }
  }

  // ---------------------------------------------------------------------------
  // The port filter.

  /** Inside `acceptable_port_range` (inclusive `[first, last]`) and not in `ports_blacklist`. */
  predicate Acceptable(cfg: Config, p: int)
  {
    cfg.firstPort <= p <= cfg.lastPort && p !in cfg.portsBlacklist
  }

  /** One probe step: `port += 1`, and past `last` the port becomes `(port % last) + first`. */
  function Step(cfg: Config, p: int): int
    requires cfg.lastPort > 0
  {
    var q := p + 1;
    if q > cfg.lastPort then q % cfg.lastPort + cfg.firstPort else q
  }

  /**
   * The probe can leave the range's cycle: `last` is positive (Python's `%`
   * and Dafny's agree for a positive divisor) and some port of `(first, last]`,
   * the ports the wrap-around keeps visiting, is acceptable.
   */
  predicate HasExit(cfg: Config)
  {
    0 < cfg.lastPort && exists q :: cfg.firstPort < q <= cfg.lastPort && q !in cfg.portsBlacklist
  }

  /**
   * The probe from `p` terminates. A port above the range additionally needs a
   * range of at least three ports, or the wrap-around can map it to itself
   * (see `TwoPortRangeStuck`).
   */
  predicate Terminates(cfg: Config, p: int)
  {
    HasExit(cfg) && (p > cfg.lastPort ==> cfg.firstPort + 2 <= cfg.lastPort)
  }

  /** Some acceptable port of `(first, last]`, which every in-range probe reaches. */
  ghost function Exit(cfg: Config): (g: int)
    requires HasExit(cfg)
    ensures cfg.firstPort < g <= cfg.lastPort && g !in cfg.portsBlacklist
  {
    var g :| cfg.firstPort < g <= cfg.lastPort && g !in cfg.portsBlacklist; g
  }

  /** Above the range, below it, or inside it: the probe only ever moves to a lower phase or stays. */
  ghost function Phase(cfg: Config, p: int): nat
  {
    if p > cfg.lastPort then 2 else if p < cfg.firstPort then 1 else 0
  }

  /** How far the probe still is from leaving its phase (inside the range: from reaching `Exit`). */
  ghost function Distance(cfg: Config, p: int): nat
    requires HasExit(cfg)
  {
    if p > cfg.lastPort then p - cfg.lastPort
    else if p < cfg.firstPort then cfg.firstPort - p
    else
      var g := Exit(cfg);
      if p <= g then g - p else cfg.lastPort - p + g - cfg.firstPort + 1
  }

  lemma ModBelowTwice(q: int, m: int)
    requires 0 < m <= q < 2 * m
    ensures q % m == q - m
  {
    assert q == 1 * m + (q - m);
  }

  /** A step away from an unacceptable port keeps the probe terminating and brings it closer. */
  lemma StepDecreases(cfg: Config, p: int)
    requires Terminates(cfg, p) && !Acceptable(cfg, p)
    ensures Terminates(cfg, Step(cfg, p))
    ensures Phase(cfg, Step(cfg, p)) < Phase(cfg, p) ||
      (Phase(cfg, Step(cfg, p)) == Phase(cfg, p) && Distance(cfg, Step(cfg, p)) < Distance(cfg, p))
  {
    var first, last := cfg.firstPort, cfg.lastPort;
    var q := p + 1;
    var s := Step(cfg, p);
    if p > last {
      assert 0 <= q % last < last;
      if q < 2 * last {
        ModBelowTwice(q, last);
      }
      assert first <= s < p;
    } else if first <= p {
      var g := Exit(cfg);
      if p == last && g < p {
        if last == 1 {
          assert q % last == 0;
        } else {
          ModBelowTwice(q, last);
        }
      }
    }
  }

  /**
   * The port the `while` loop of `filter_port_list` stops at: the first
   * acceptable port that the probe from `p` meets.
   */
  function FilterPort(cfg: Config, p: int): (r: int)
    requires Terminates(cfg, p)
    ensures Acceptable(cfg, r)
    ensures Acceptable(cfg, p) ==> r == p
    decreases Phase(cfg, p), Distance(cfg, p)
  {
    if Acceptable(cfg, p) then p
    else
      StepDecreases(cfg, p);
      FilterPort(cfg, Step(cfg, p))
  }

  /** `filter_port_list` on a list of candidates: each port is filtered on its own. */
  function FilterPorts(cfg: Config, ports: seq<int>): (r: seq<int>)
    requires forall i :: 0 <= i < |ports| ==> Terminates(cfg, ports[i])
    ensures |r| == |ports|
    ensures forall i :: 0 <= i < |ports| ==> r[i] == FilterPort(cfg, ports[i])
  {
    seq(|ports|, i requires 0 <= i < |ports| => FilterPort(cfg, ports[i]))
  }

  /** Every filtered port is acceptable, and a port that already was is kept. */
  lemma FilterPortsAcceptable(cfg: Config, ports: seq<int>)
    requires forall i :: 0 <= i < |ports| ==> Terminates(cfg, ports[i])
    ensures forall i :: 0 <= i < |ports| ==> Acceptable(cfg, FilterPorts(cfg, ports)[i])
    ensures forall i :: 0 <= i < |ports| && Acceptable(cfg, ports[i]) ==> FilterPorts(cfg, ports)[i] == ports[i]
  {
    forall i | 0 <= i < |ports|
      ensures Acceptable(cfg, FilterPorts(cfg, ports)[i])
    {
      assert FilterPorts(cfg, ports)[i] == FilterPort(cfg, ports[i]);
    }
  }

  /**
   * A port that has an acceptable port `y` at or above it within the range
   * moves up to the nearest acceptable port, skipping only unacceptable ones.
   */
  lemma {:induction false} FilterPortIsNextAcceptable(cfg: Config, p: int, y: int)
    requires Terminates(cfg, p) && p <= y && Acceptable(cfg, y)
    ensures p <= FilterPort(cfg, p) <= y
    ensures forall x :: p <= x < FilterPort(cfg, p) ==> !Acceptable(cfg, x)
    decreases y - p
  {
    if !Acceptable(cfg, p) {
      assert Step(cfg, p) == p + 1;
      StepDecreases(cfg, p);
      FilterPortIsNextAcceptable(cfg, p + 1, y);
    }
  }

  /** With the range 1000..1010 and the blacklist {1005, 1006}, port 1005 becomes 1007. */
  lemma FilterPortExample(cfg: Config)
    requires cfg.firstPort == 1000 && cfg.lastPort == 1010 && cfg.portsBlacklist == {1005, 1006}
    ensures Terminates(cfg, 1005) && FilterPort(cfg, 1005) == 1007
  {
    assert Acceptable(cfg, 1007);
    FilterPortIsNextAcceptable(cfg, 1005, 1007);
  }

  /** Wrapping past `last` restarts the probe at `first + 1`, so the wrap never lands on `first`. */
  lemma WrapSkipsFirst(cfg: Config)
    requires cfg.lastPort > 1
    ensures Step(cfg, cfg.lastPort) == cfg.firstPort + 1
  {
    ModBelowTwice(cfg.lastPort + 1, cfg.lastPort);
  }

  /**
   * With a two-port range `[first, first + 1]`, a port just above the range is
   * not acceptable and is its own next probe: the `while` loop never ends.
   */
  lemma TwoPortRangeStuck(cfg: Config, p: int)
    requires 0 < cfg.lastPort && cfg.firstPort + 1 == cfg.lastPort
    requires cfg.lastPort < p < 2 * cfg.lastPort - 1
    ensures !Acceptable(cfg, p) && Step(cfg, p) == p
  {
    ModBelowTwice(p + 1, cfg.lastPort);
  }

  /**
   * `Terminates` is sufficient, not necessary: with a two-port range and no
   * blacklist, port 11 wraps straight onto an acceptable port; with every port
   * above `first` blacklisted, `first` itself is kept and the port below it
   * steps onto it.
   */
  lemma TerminatesIsNotNecessary(cfg: Config)
    ensures cfg.firstPort == 5 && cfg.lastPort == 6 && cfg.portsBlacklist == {} ==>
      && !Terminates(cfg, 11) && !Acceptable(cfg, 11)
      && Step(cfg, 11) == 5 && Acceptable(cfg, 5)
    ensures cfg.firstPort == 1000 && cfg.lastPort == 1002 && cfg.portsBlacklist == {1001, 1002} ==>
      && !HasExit(cfg) && Acceptable(cfg, 1000)
      && !Acceptable(cfg, 999) && Step(cfg, 999) == 1000
  {
    if cfg.firstPort == 5 && cfg.lastPort == 6 && cfg.portsBlacklist == {} {
      assert 12 % 6 == 0;
    }
    if cfg.firstPort == 1000 && cfg.lastPort == 1002 && cfg.portsBlacklist == {1001, 1002} {
      assert forall q :: !(cfg.firstPort < q <= cfg.lastPort && q !in cfg.portsBlacklist) by {
        forall q | cfg.firstPort < q <= cfg.lastPort ensures q in cfg.portsBlacklist {
          assert q == 1001 || q == 1002;
        }
      }
    }
  }

  /**
   * `filter_port_list`: the ports are rewritten in place, each by its own
   * probe loop; every port ends up acceptable.
   */
  method FilterPortList(cfg: Config, ports: array<int>)
    requires forall i :: 0 <= i < ports.Length ==> Terminates(cfg, ports[i])
    modifies ports
    ensures ports[..] == FilterPorts(cfg, old(ports[..]))
    ensures forall i :: 0 <= i < ports.Length ==> Acceptable(cfg, ports[i])
  {
    for i := 0 to ports.Length
      invariant forall k :: 0 <= k < i ==> ports[k] == FilterPort(cfg, old(ports[k]))
      invariant forall k :: i <= k < ports.Length ==> ports[k] == old(ports[k])
    {
      var port := ports[i];
      while !Acceptable(cfg, port)
        invariant Terminates(cfg, port) && ports[i] == port
        invariant FilterPort(cfg, port) == FilterPort(cfg, old(ports[i]))
        invariant forall k :: 0 <= k < i ==> ports[k] == FilterPort(cfg, old(ports[k]))
        invariant forall k :: i < k < ports.Length ==> ports[k] == old(ports[k])
        decreases Phase(cfg, port), Distance(cfg, port)
      {
        StepDecreases(cfg, port);
        port := port + 1;
        if port > cfg.lastPort {
          port := (port % cfg.lastPort) + cfg.firstPort;
        }
        ports[i] := port;
      }
    }
  }
}
