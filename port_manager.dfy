/** The port allocator of port_manager.go: the set of ports in use within the configured range. */
module PortManager {
  import opened Wrappers

  /** The error findAvailablePort returns when every port of the range is in use. */
  datatype PortError = NoPortAvailable(minPort: int, maxPort: int)

  /** The lowest port of [lo, hi] that is not in used, if there is one. */
  function LowestFree(used: set<int>, lo: int, hi: int): (r: Option<int>)
    ensures r.Some? ==> lo <= r.value <= hi && r.value !in used
    ensures r.Some? ==> forall q :: lo <= q < r.value ==> q in used
    ensures r.None? <==> forall q :: lo <= q <= hi ==> q in used
    decreases hi - lo
  {
    if lo > hi then None
    else if lo !in used then Some(lo)
    else LowestFree(used, lo + 1, hi)
  }

  /** What assignPort does to the set: the verdict and the new set. */
  function Claim(used: set<int>, minPort: int, maxPort: int, port: int): (set<int>, bool)
  {
    if port < minPort || port > maxPort then (used, false)
    else if port in used then (used, false)
    else (used + {port}, true)
  }

  /** What releasePort does to the set. */
  function Release(used: set<int>, minPort: int, maxPort: int, port: int): set<int>
  {
    if port < minPort || port > maxPort then used
    else if port !in used then used
    else used - {port}
  }

  ghost predicate InRange(used: set<int>, minPort: int, maxPort: int) {
    forall p :: p in used ==> minPort <= p <= maxPort
  }

  /** A claim succeeds exactly for a free port of the range, and adds that port and nothing else. */
  lemma ClaimSpec(used: set<int>, minPort: int, maxPort: int, port: int)
    ensures Claim(used, minPort, maxPort, port).1 <==> minPort <= port <= maxPort && port !in used
    ensures Claim(used, minPort, maxPort, port).0 - used <= {port}
    ensures used <= Claim(used, minPort, maxPort, port).0
    ensures Claim(used, minPort, maxPort, port).1 ==> port in Claim(used, minPort, maxPort, port).0
  {
  }

  /** Claims and releases keep every used port inside the range. */
  lemma ClaimReleaseKeepRange(used: set<int>, minPort: int, maxPort: int, port: int)
    requires InRange(used, minPort, maxPort)
    ensures InRange(Claim(used, minPort, maxPort, port).0, minPort, maxPort)
    ensures InRange(Release(used, minPort, maxPort, port), minPort, maxPort)
  {
  }

  /** Releasing twice is releasing once; releasing a port never claimed changes nothing. */
  lemma ReleaseIdempotent(used: set<int>, minPort: int, maxPort: int, port: int)
    ensures Release(Release(used, minPort, maxPort, port), minPort, maxPort, port) == Release(used, minPort, maxPort, port)
    ensures port !in used ==> Release(used, minPort, maxPort, port) == used
    ensures InRange(used, minPort, maxPort) ==> port !in Release(used, minPort, maxPort, port)
  {
  }

  /** A port found over the allocator's own range can be claimed if nothing changes the set in between. */
  lemma FoundPortIsClaimable(used: set<int>, minPort: int, maxPort: int)
    requires LowestFree(used, minPort, maxPort).Some?
    ensures var p := LowestFree(used, minPort, maxPort).value;
      Claim(used, minPort, maxPort, p) == (used + {p}, true)
  {
  }

  /** The window between find and claim: once another caller has claimed the found port, the second claim fails. */
  lemma FoundPortLostToEarlierClaim(used: set<int>, minPort: int, maxPort: int)
    requires LowestFree(used, minPort, maxPort).Some?
    ensures var p := LowestFree(used, minPort, maxPort).value;
      var after := Claim(used, minPort, maxPort, p).0;
      Claim(after, minPort, maxPort, p) == (after, false)
  {
  }

  class PortAllocator {
    /** The configured range, MinPort and MaxPort of the loaded configuration. */
    const MinPort: int
    const MaxPort: int
    /** usedPorts: the keys of the Go map, whose values are always true. */
    var usedPorts: set<int>

    ghost predicate Valid()
      reads this
    {
      InRange(usedPorts, MinPort, MaxPort)
    }

    /** initializePortManager */
    constructor (minPort: int, maxPort: int)
      ensures Valid()
      ensures MinPort == minPort && MaxPort == maxPort && usedPorts == {}
    {
      MinPort, MaxPort := minPort, maxPort;
      usedPorts := {};
    }

    /** findAvailablePort: scan upward from minPort; -1 and an error when every port is taken. */
    method FindAvailablePort(minPort: int, maxPort: int) returns (port: int, err: Option<PortError>)
      ensures err.None? ==> minPort <= port <= maxPort && port !in usedPorts
      ensures err.None? ==> forall q :: minPort <= q < port ==> q in usedPorts
      ensures err.Some? <==> forall q :: minPort <= q <= maxPort ==> q in usedPorts
      ensures err.Some? ==> port == -1 && err.value == NoPortAvailable(minPort, maxPort)
      ensures err.None? ==> LowestFree(usedPorts, minPort, maxPort) == Some(port)
    {
      port := minPort;
      while port <= maxPort
        invariant minPort <= port
        invariant port <= maxPort + 1 || port == minPort
        invariant forall q :: minPort <= q < port ==> q in usedPorts
        invariant LowestFree(usedPorts, minPort, maxPort) == LowestFree(usedPorts, port, maxPort)
      {
        if port !in usedPorts {
          return port, None;
        }
        port := port + 1;
      }
      return -1, Some(NoPortAvailable(minPort, maxPort));
    }

    /** assignPort: mark a port used; false for a port outside the range or one already in use. */
    method AssignPort(port: int) returns (ok: bool)
      requires Valid()
      modifies this
      ensures Valid()
      ensures (usedPorts, ok) == Claim(old(usedPorts), MinPort, MaxPort, port)
    {
      if port < MinPort || port > MaxPort {
        return false;
      }
      if port in usedPorts {
        return false;
      }
      usedPorts := usedPorts + {port};
      return true;
    }

    /** releasePort: unmark a port; out-of-range and unused ports are only logged. */
    method ReleasePort(port: int)
      requires Valid()
      modifies this
      ensures Valid()
      ensures usedPorts == Release(old(usedPorts), MinPort, MaxPort, port)
    {
      if port < MinPort || port > MaxPort {
        return;
      }
      if port in usedPorts {
        usedPorts := usedPorts - {port};
      }
    }

    /** getCurrentlyUsedPorts: every used port once, in unspecified (map iteration) order. */
    method GetCurrentlyUsedPorts() returns (ports: seq<int>)
      ensures forall p :: p in ports <==> p in usedPorts
      ensures forall i, j :: 0 <= i < j < |ports| ==> ports[i] != ports[j]
    {
      ports := [];
      var rest := usedPorts;
      while rest != {}
        invariant rest <= usedPorts
        invariant forall p :: p in ports <==> p in usedPorts && p !in rest
        invariant forall i, j :: 0 <= i < j < |ports| ==> ports[i] != ports[j]
        decreases rest
      {
        assert exists q :: q in rest by {
          if forall q :: q !in rest {
            assert false;
          }
        }
        var p :| p in rest;
        ports := ports + [p];
        rest := rest - {p};
      }
    }
  }
}
