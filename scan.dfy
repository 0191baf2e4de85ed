/** Scanning one host (backend.py, scan_port) and what the scan loop of a
    task builds from it: the per-host results in host order, and the final
    ordering by quality score (backend.py, scan_network_thread).

    Everything outside the program is an input gathered in a `World`: how
    `ipaddress.ip_network` reads a network string, the TCP connect outcome
    of each target, the network as seen through each target's proxy, and
    the formatted clock reading taken when a port is found open. */
module Scan {
  import opened Base
  import Prober

  datatype Target = Target(ip: string, port: int)

  /** The value `connect_ex` returned, or an exception from the socket layer. */
  datatype ConnectOutcome = Code(errno: int) | Raised

  /** A parsed network: its usable hosts in order (`hosts()`) and its
      address count (`num_addresses`), which is never smaller. */
  datatype Network = Network(hosts: seq<string>, numAddresses: nat)

  type HostRange = n: Network | 0 < n.numAddresses && |n.hosts| <= n.numAddresses
    witness Network([], 1)

  /** `ipaddress.ip_network(text, strict=False)`: a network, or the
      message of the ValueError it raises. */
  datatype Parsed = Parsed(net: HostRange) | Invalid(message: string)

  datatype World = World(
    parse: string -> Parsed,
    connect: Target -> ConnectOutcome,
    sites: Target -> Prober.SiteProbe,
    models: Target -> Prober.ModelProbe,
    stamp: Target -> string)

  /** An open port; `quality` is the proxy report when the quality check
      was asked for (the flat copies of its fields are not repeated). */
  datatype ScanResult = ScanResult(
    ip: string,
    port: int,
    status: string,
    timestamp: string,
    quality: Option<Prober.ProxyReport>)

  /** What scanning `ip` yields: a record exactly when the connect code is
      0, carrying that target, and the proxy report of the target (AI
      endpoints included) exactly when the quality check is on. */
  function HostResult(w: World, ip: string, port: int, checkQuality: bool): (r: Option<ScanResult>)
    ensures r.Some? <==> w.connect(Target(ip, port)) == Code(0)
    ensures r.Some? ==> r.value.ip == ip && r.value.port == port && r.value.status == "open"
    ensures r.Some? ==> r.value.timestamp == w.stamp(Target(ip, port))
    ensures r.Some? ==> (r.value.quality.Some? <==> checkQuality)
    ensures r.Some? && checkQuality ==>
      var t := Target(ip, port);
      r.value.quality.value == Prober.Expected(w.sites(t), w.models(t), true)
  {
    var t := Target(ip, port);
    if w.connect(t) == Code(0) then
      var quality := if checkQuality then Some(Prober.Expected(w.sites(t), w.models(t), true)) else None;
      Some(ScanResult(ip, port, "open", w.stamp(t), quality))
    else None
  }

  /** Scans one host, probing the proxy behind an open port when asked. */
  method ScanPort(w: World, ip: string, port: int, checkQuality: bool) returns (r: Option<ScanResult>)
    ensures r == HostResult(w, ip, port, checkQuality)
  {
    var t := Target(ip, port);
    r := None;
    var code := w.connect(t);
    if code == Code(0) {
      var quality: Option<Prober.ProxyReport> := None;
      if checkQuality {
        var report, _ := Prober.TestProxyQuality(w.sites(t), w.models(t), true);
        quality := Some(report);
      }
      r := Some(ScanResult(ip, port, "open", w.stamp(t), quality));
    }
  }

  /** The result of every host, in host order (the order of `futures`). */
  function Outcomes(w: World, hosts: seq<string>, port: int, checkQuality: bool): (outs: seq<Option<ScanResult>>)
    ensures |outs| == |hosts|
    ensures forall i :: 0 <= i < |hosts| ==> outs[i] == HostResult(w, hosts[i], port, checkQuality)
  {
    seq(|hosts|, i requires 0 <= i < |hosts| => HostResult(w, hosts[i], port, checkQuality))
  }

  /** The open ports of a scan, in host order: every one of them is a
      scanned host whose connect code was 0, and every such host is there. */
  lemma FoundAreOpenHosts(w: World, hosts: seq<string>, port: int, checkQuality: bool, r: ScanResult)
    ensures r in Somes(Outcomes(w, hosts, port, checkQuality)) <==>
      exists i :: 0 <= i < |hosts| && w.connect(Target(hosts[i], port)) == Code(0)
                  && r == HostResult(w, hosts[i], port, checkQuality).value
  {
    var outs := Outcomes(w, hosts, port, checkQuality);
    SomesMembership(outs, r);
    if Some(r) in outs {
      var i :| 0 <= i < |outs| && outs[i] == Some(r);
      assert w.connect(Target(hosts[i], port)) == Code(0);
    }
    if exists i :: 0 <= i < |hosts| && w.connect(Target(hosts[i], port)) == Code(0)
                   && r == HostResult(w, hosts[i], port, checkQuality).value {
      var i :| 0 <= i < |hosts| && w.connect(Target(hosts[i], port)) == Code(0)
               && r == HostResult(w, hosts[i], port, checkQuality).value;
      assert outs[i] == Some(r);
    }
  }

  /* Ordering of the results: `results.sort(key=quality_score, reverse=True)`. */

  /** The sort key; a record without a score sorts as 0. */
  function Score(r: ScanResult): int
  {
    if r.quality.Some? then r.quality.value.qualityScore else 0
  }

  predicate SortedByScore(s: seq<ScanResult>)
  {
    forall i, j :: 0 <= i < j < |s| ==> Score(s[i]) >= Score(s[j])
  }

  /** The records of `s` whose key is `k`, in their order in `s`. */
  function WithScore(s: seq<ScanResult>, k: int): seq<ScanResult>
    decreases |s|
  {
    if s == [] then []
    else (if Score(s[0]) == k then [s[0]] else []) + WithScore(s[1..], k)
  }

  /** Places `x` before the first record of `s` whose key is not greater. */
  function Insert(x: ScanResult, s: seq<ScanResult>): (r: seq<ScanResult>)
    ensures |r| == |s| + 1
    decreases |s|
  {
    if s == [] || Score(s[0]) <= Score(x) then [x] + s
    else [s[0]] + Insert(x, s[1..])
  }

  /** A stable sort by descending score (insertion from the back). */
  function SortByScore(s: seq<ScanResult>): (r: seq<ScanResult>)
    ensures |r| == |s|
    decreases |s|
  {
    if s == [] then [] else Insert(s[0], SortByScore(s[1..]))
  }

  lemma {:induction false} InsertSorted(x: ScanResult, s: seq<ScanResult>)
    requires SortedByScore(s)
    ensures SortedByScore(Insert(x, s))
    ensures Insert(x, s) != [] && (Insert(x, s)[0] == x || (s != [] && Insert(x, s)[0] == s[0]))
    decreases |s|
  {
    if s != [] && Score(s[0]) > Score(x) {
      var tail := s[1..];
      assert SortedByScore(tail) by {
        forall i, j | 0 <= i < j < |tail| ensures Score(tail[i]) >= Score(tail[j]) {
          assert tail[i] == s[i + 1] && tail[j] == s[j + 1];
        }
      }
      InsertSorted(x, tail);
      var rest := Insert(x, tail);
      var r := [s[0]] + rest;
      forall j | 0 < j < |r| ensures Score(r[0]) >= Score(r[j]) {
        assert r[j] in rest;
        InsertMembers(x, tail);
        if r[j] != x {
          var k :| 0 <= k < |tail| && tail[k] == r[j];
          assert s[k + 1] == r[j];
        }
      }
      forall i, j | 0 < i < j < |r| ensures Score(r[i]) >= Score(r[j]) {
        assert r[i] == rest[i - 1] && r[j] == rest[j - 1];
      }
    }
  }

  lemma {:induction false} InsertMembers(x: ScanResult, s: seq<ScanResult>)
    ensures multiset(Insert(x, s)) == multiset(s) + multiset{x}
    ensures forall y :: y in Insert(x, s) <==> y == x || y in s
    decreases |s|
  {
    if s != [] && Score(s[0]) > Score(x) {
      InsertMembers(x, s[1..]);
      assert s == [s[0]] + s[1..];
    }
  }

  /** The sorted list is ordered by descending score. */
  lemma {:induction false} SortIsSorted(s: seq<ScanResult>)
    ensures SortedByScore(SortByScore(s))
    decreases |s|
  {
    if s != [] {
      SortIsSorted(s[1..]);
      InsertSorted(s[0], SortByScore(s[1..]));
    }
  }

  /** The sorted list holds the same records, each as often. */
  lemma {:induction false} SortIsPermutation(s: seq<ScanResult>)
    ensures multiset(SortByScore(s)) == multiset(s)
    decreases |s|
  {
    if s != [] {
      SortIsPermutation(s[1..]);
      InsertMembers(s[0], SortByScore(s[1..]));
      assert s == [s[0]] + s[1..];
    }
  }

  lemma WithScoreCons(x: ScanResult, s: seq<ScanResult>, k: int)
    ensures WithScore([x] + s, k) == (if Score(x) == k then [x] else []) + WithScore(s, k)
  {
    var r := [x] + s;
    assert r[0] == x && r[1..] == s;
  }

  lemma {:induction false} InsertKeepsEqualScoreOrder(x: ScanResult, s: seq<ScanResult>, k: int)
    ensures WithScore(Insert(x, s), k) == (if Score(x) == k then [x] else []) + WithScore(s, k)
    decreases |s|
  {
    if s == [] || Score(s[0]) <= Score(x) {
      WithScoreCons(x, s, k);
    } else {
      var tail := s[1..];
      InsertKeepsEqualScoreOrder(x, tail, k);
      WithScoreCons(s[0], Insert(x, tail), k);
      WithScoreCons(s[0], tail, k);
      assert s == [s[0]] + tail;
    }
  }

  /** Stability: records with equal scores keep their relative order. */
  lemma {:induction false} SortIsStable(s: seq<ScanResult>, k: int)
    ensures WithScore(SortByScore(s), k) == WithScore(s, k)
    decreases |s|
  {
    if s != [] {
      SortIsStable(s[1..], k);
      InsertKeepsEqualScoreOrder(s[0], SortByScore(s[1..]), k);
    }
  }

  /** An already ordered list is left as it is. */
  lemma {:induction false} SortKeepsSorted(s: seq<ScanResult>)
    requires SortedByScore(s)
    ensures SortByScore(s) == s
    decreases |s|
  {
    if s != [] {
      var tail := s[1..];
      assert SortedByScore(tail) by {
        forall i, j | 0 <= i < j < |tail| ensures Score(tail[i]) >= Score(tail[j]) {
          assert tail[i] == s[i + 1] && tail[j] == s[j + 1];
        }
      }
      SortKeepsSorted(tail);
      if tail != [] {
        assert Score(s[0]) >= Score(tail[0]) by { assert tail[0] == s[1]; }
      }
    }
  }

  /** The final order of a task's results: sorted only when the quality
      check was on and something was found. */
  function FinalOrder(checkQuality: bool, results: seq<ScanResult>): (r: seq<ScanResult>)
    ensures multiset(r) == multiset(results)
    ensures checkQuality ==> SortedByScore(r)
    ensures !checkQuality ==> r == results
  {
    if checkQuality && results != [] then
      SortIsPermutation(results);
      SortIsSorted(results);
      SortByScore(results)
    else results
  }
}
