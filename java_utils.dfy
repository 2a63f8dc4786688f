/**
 * `Utils` of the Java driver (Utils.java): whether a cluster hostname names
 * a production appserver, and the search for a free local port.  Whether a
 * port can be bound is the predicate `free`; the random starting point of
 * the search is the parameter `offset`.
 */
module JavaUtils {
  import opened Text

  /** The first port of the range the search draws from. */
  const RANDOM_PORT_BASE: int := 32768

  /** The number of ports in that range: 32768 up to and including 60000. */
  const RANDOM_PORT_RANGE: int := 60000 - 32768 + 1

  /** One past the last port of the range. */
  const RANDOM_PORT_END: int := RANDOM_PORT_BASE + RANDOM_PORT_RANGE

  /** `isClusterAppserver`: everything that does not start with "localhost" is an appserver. */
  predicate IsClusterAppserver(clusterHostname: string) {
    !StartsWith(clusterHostname, "localhost")
  }

  /**
   * The hostnames `Config.init` makes up for a missing cluster hostname,
   * `"localhost:" + port`, all name a dev_appserver, whatever the port.
   */
  lemma LocalHostnameIsLocal(port: int)
    ensures !IsClusterAppserver("localhost:" + IntToString(port))
  {
    var h := "localhost:" + IntToString(port);
    assert h[..|"localhost"|] == "localhost";
  }

  /** A hostname with any prefix other than "localhost" in front names an appserver. */
  lemma ClusterHostnames(prefix: string, rest: string)
    requires |prefix| == |"localhost"| && prefix != "localhost"
    ensures IsClusterAppserver(prefix + rest)
  {
    assert (prefix + rest)[..|prefix|] == prefix;
  }

  /** The ports `lo`, `lo + 1`, ..., `hi - 1`. */
  function Ports(lo: int, hi: int): (r: seq<int>)
    requires lo <= hi
    ensures |r| == hi - lo && forall i | 0 <= i < |r| :: r[i] == lo + i
  {
    seq(hi - lo, i => lo + i)
  }

  /**
   * The order in which `pickUnusedPort` tries the ports: from the starting
   * point to the end of the range, then from the start of the range up to
   * the starting point.
   */
  function ScanOrder(start: int): seq<int>
    requires RANDOM_PORT_BASE <= start < RANDOM_PORT_END
  {
    Ports(start, RANDOM_PORT_END) + Ports(RANDOM_PORT_BASE, start)
  }

  predicate InRange(port: int) {
    RANDOM_PORT_BASE <= port < RANDOM_PORT_END
  }

  /**
   * The scan order lists every port of the range exactly once: it is as
   * long as the range, its ports are distinct and each lies in the range,
   * and every port of the range is in it.
   */
  lemma ScanOrderIsRange(start: int)
    requires RANDOM_PORT_BASE <= start < RANDOM_PORT_END
    ensures var order := ScanOrder(start);
            |order| == RANDOM_PORT_RANGE
            && (forall i | 0 <= i < |order| :: InRange(order[i]))
            && (forall i, j | 0 <= i < j < |order| :: order[i] != order[j])
            && (forall p | InRange(p) :: p in order)
  {
    var order := ScanOrder(start);
    var a, b := Ports(start, RANDOM_PORT_END), Ports(RANDOM_PORT_BASE, start);
    assert forall i | 0 <= i < |a| :: order[i] == a[i];
    assert forall i | |a| <= i < |order| :: order[i] == b[i - |a|];
    forall p | InRange(p)
      ensures p in order
    {
      if p >= start {
        assert order[p - start] == p;
      } else {
        assert order[|a| + p - RANDOM_PORT_BASE] == p;
      }
    }
  }

  /**
   * One loop of `pickUnusedPort`: try the ports from `lo` up to `hi` in
   * turn and return the first free one, or -1 after trying all of them.
   */
  method ProbePorts(lo: int, hi: int, free: int -> bool) returns (port: int, ghost probed: seq<int>)
    requires 0 <= lo <= hi
    ensures |probed| <= hi - lo && probed == Ports(lo, lo + |probed|)
    ensures port == -1 ==> |probed| == hi - lo && forall i | 0 <= i < |probed| :: !free(probed[i])
    ensures port != -1 ==> |probed| >= 1 && port == probed[|probed| - 1] && free(port)
                           && forall i | 0 <= i < |probed| - 1 :: !free(probed[i])
    ensures port == -1 ==> forall q | lo <= q < hi :: !free(q)
    ensures port != -1 ==> lo <= port < hi && free(port) && forall q | lo <= q < port :: !free(q)
  {
    probed := [];
    for p := lo to hi
      invariant probed == Ports(lo, p)
      invariant forall i | 0 <= i < |probed| :: !free(probed[i])
      invariant forall q | lo <= q < p :: !free(q)
    {
      probed := probed + [p];
      if free(p) {
        return p, probed;
      }
    }
    return -1, probed;
  }

  /**
   * `pickUnusedPort`, with the random starting point `RANDOM_PORT_BASE +
   * offset`: the ports it tries, in order, and the first free one, or -1
   * when none is.  The tries are a prefix of the scan order in which all
   * but the last failed; the last is the port returned, or the whole
   * order was tried and failed.
   */
  method PickUnusedPort(offset: int, free: int -> bool) returns (port: int, ghost probed: seq<int>)
    requires 0 <= offset < RANDOM_PORT_RANGE
    ensures var order := ScanOrder(RANDOM_PORT_BASE + offset);
            |probed| <= |order| && probed == order[..|probed|]
            && (port == -1 ==> probed == order && forall i | 0 <= i < |probed| :: !free(probed[i]))
            && (port != -1 ==> |probed| >= 1 && port == probed[|probed| - 1] && free(port)
                               && forall i | 0 <= i < |probed| - 1 :: !free(probed[i]))
    ensures port == -1 <==> forall q | InRange(q) :: !free(q)
    ensures port != -1 ==> InRange(port) && free(port)
  {
    var startingPoint := RANDOM_PORT_BASE + offset;
    ghost var order := ScanOrder(startingPoint);
    // from the starting point to the end of the range
    ghost var upper;
    port, upper := ProbePorts(startingPoint, RANDOM_PORT_END, free);
    if port != -1 {
      assert order[..|upper|] == upper;
      return port, upper;
    }
    // from the start of the range up to the starting point
    ghost var lower;
    port, lower := ProbePorts(RANDOM_PORT_BASE, startingPoint, free);
    probed := upper + lower;
    assert order[..|probed|] == probed;
  }

  /**
   * What the caller of `pickUnusedPort` sees: -1 exactly when no port of
   * the range is free; otherwise a free port of the range, and every port
   * tried is tried once.
   */
  lemma PickedPortMeaning(offset: int, free: int -> bool, port: int, probed: seq<int>)
    requires 0 <= offset < RANDOM_PORT_RANGE
    requires var order := ScanOrder(RANDOM_PORT_BASE + offset);
             |probed| <= |order| && probed == order[..|probed|]
             && (port == -1 ==> probed == order && forall i | 0 <= i < |probed| :: !free(probed[i]))
             && (port != -1 ==> |probed| >= 1 && port == probed[|probed| - 1] && free(port))
    ensures port == -1 <==> forall p | InRange(p) :: !free(p)
    ensures port != -1 ==> InRange(port) && free(port)
    ensures forall i, j | 0 <= i < j < |probed| :: probed[i] != probed[j]
  {
    var order := ScanOrder(RANDOM_PORT_BASE + offset);
    ScanOrderIsRange(RANDOM_PORT_BASE + offset);
    assert forall i | 0 <= i < |probed| :: probed[i] == order[i];
    if port == -1 {
      forall p | InRange(p)
        ensures !free(p)
      {
        var i :| 0 <= i < |order| && order[i] == p;
        assert probed[i] == p;
      }
    } else {
      assert port == order[|probed| - 1];
    }
  }
}
