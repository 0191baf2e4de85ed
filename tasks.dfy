/** One scan task of the multi-user backend (backend.py, class ScanTask and
    scan_network_thread). A scan task's counters and result list are fields
    the scan updates in place; the network, the hosts' ports and the clock
    are inputs. Times are integer microseconds. */
module Tasks {
  import opened Base
  import opened Scan

  /** The ValueError message of a thread pool asked for fewer than one worker. */
  const BadWorkers: string := "max_workers must be greater than 0"

  class ScanTask {
    const taskId: string
    const network: string
    const port: int
    const threads: int
    const checkProxyQuality: bool
    const createdAt: int

    var isScanning: bool
    var progress: nat
    var total: nat
    var scanned: nat
    var results: seq<ScanResult>
    var startTime: Option<int>
    var endTime: Option<int>
    var error: Option<string>

    /** The state of a task that has not started scanning yet. */
    predicate Pristine()
      reads this
    {
      && !isScanning && progress == 0 && total == 0 && scanned == 0
      && results == [] && startTime == None && endTime == None && error == None
    }

    constructor (taskId: string, network: string, port: int, threads: int, checkProxyQuality: bool, createdAt: int)
      ensures this.taskId == taskId && this.network == network && this.port == port
      ensures this.threads == threads && this.checkProxyQuality == checkProxyQuality
      ensures this.createdAt == createdAt
      ensures Pristine()
    {
      this.taskId := taskId;
      this.network := network;
      this.port := port;
      this.threads := threads;
      this.checkProxyQuality := checkProxyQuality;
      this.createdAt := createdAt;
      isScanning := false;
      progress := 0;
      total := 0;
      scanned := 0;
      results := [];
      startTime := None;
      endTime := None;
      error := None;
    }

    /** The hosts whose results the scan consumes: none when the network
        does not parse or the pool cannot be built. */
    function ScannedHosts(w: World): seq<string>
    {
      match w.parse(network)
      case Invalid(_) => []
      case Parsed(net) => if threads <= 0 then [] else net.hosts
    }

    /** The exception that ends the scan early, as its text. */
    function Failure(w: World): Option<string>
    {
      match w.parse(network)
      case Invalid(message) => Some(message)
      case Parsed(_) => if threads <= 0 then Some(BadWorkers) else None
    }

    /** The per-host results of the hosts this task scans, in host order. */
    function Found(w: World): seq<ScanResult>
    {
      Somes(Outcomes(w, ScannedHosts(w), port, checkProxyQuality))
    }

    /** Marks a scan task as running (the first two statements of the thread). */
    method Begin(startedAt: int)
      modifies this`isScanning, this`startTime
      ensures isScanning && startTime == Some(startedAt)
    {
      isScanning := true;
      startTime := Some(startedAt);
    }

    /** The `try` block and its `except`: parses the network, records the
        address count as the total, then consumes every host's result. */
    method ScanHosts(w: World)
      modifies this`total, this`scanned, this`progress, this`results, this`error
      ensures total == if w.parse(network).Parsed? then w.parse(network).net.numAddresses else old(total)
      ensures scanned == old(scanned) + |ScannedHosts(w)|
      ensures progress == if ScannedHosts(w) == [] then old(progress) else Percent(scanned, total)
      ensures results == old(results) + Found(w)
      ensures error == if Failure(w).Some? then Failure(w) else old(error)
    {
      match w.parse(network) {
        case Invalid(message) =>
          error := Some(message);
        case Parsed(net) =>
          total := net.numAddresses;
          if threads <= 0 {
            error := Some(BadWorkers);
          } else {
            ConsumeResults(w, net);
          }
      }
    }

    /** The loop over the futures: each host's result, in host order, is
        counted, updates the percentage and, when the port is open, is
        appended. */
    method ConsumeResults(w: World, net: HostRange)
      requires total == net.numAddresses
      modifies this`scanned, this`progress, this`results
      ensures scanned == old(scanned) + |net.hosts|
      ensures progress == if net.hosts == [] then old(progress) else Percent(scanned, total)
      ensures results == old(results) + Somes(Outcomes(w, net.hosts, port, checkProxyQuality))
    {
      var hosts := net.hosts;
      ghost var outs := Outcomes(w, hosts, port, checkProxyQuality);
      var i := 0;
      while i < |hosts|
        invariant 0 <= i <= |hosts|
        invariant scanned == old(scanned) + i
        invariant progress == if i == 0 then old(progress) else Percent(scanned, total)
        invariant results == old(results) + Somes(outs[..i])
      {
        var r := ScanPort(w, hosts[i], port, checkProxyQuality);
        scanned := scanned + 1;
        progress := Percent(scanned, total);
        SomesStep(outs, i);
        if r.Some? {
          results := results + [r.value];
        }
        i := i + 1;
      }
      assert outs[..i] == outs;
    }

    /** The `finally` block: a scan task stops scanning, records its end time
        and, when the quality check was on, orders what it found by
        descending quality score. */
    method Finish(endedAt: int)
      modifies this`isScanning, this`endTime, this`results
      ensures !isScanning && endTime == Some(endedAt)
      ensures results == FinalOrder(checkProxyQuality, old(results))
    {
      isScanning := false;
      endTime := Some(endedAt);
      if checkProxyQuality && results != [] {
        results := SortByScore(results);
      }
    }

    /** The body of scan_network_thread for a task found in the registry. */
    method Run(w: World, startedAt: int, endedAt: int)
      modifies this
      ensures !isScanning && startTime == Some(startedAt) && endTime == Some(endedAt)
      ensures total == if w.parse(network).Parsed? then w.parse(network).net.numAddresses else old(total)
      ensures scanned == old(scanned) + |ScannedHosts(w)|
      ensures progress == if ScannedHosts(w) == [] then old(progress) else Percent(scanned, total)
      ensures results == FinalOrder(checkProxyQuality, old(results) + Found(w))
      ensures error == if Failure(w).Some? then Failure(w) else old(error)
    {
      Begin(startedAt);
      ScanHosts(w);
      Finish(endedAt);
    }
  }

  /** Progress of a task run from its pristine state: the percentage is
      the floor of hosts scanned over the address count, at most 100, and
      reaches 100 only when every counted address is a host. */
  lemma FreshProgress(t: ScanTask, w: World)
    ensures var hosts := t.ScannedHosts(w);
      hosts != [] ==> && t.Failure(w) == None
                      && |hosts| <= w.parse(t.network).net.numAddresses
                      && Percent(|hosts|, w.parse(t.network).net.numAddresses) <= 100
                      && (Percent(|hosts|, w.parse(t.network).net.numAddresses) == 100
                          <==> |hosts| == w.parse(t.network).net.numAddresses)
  {
    var hosts := t.ScannedHosts(w);
    if hosts != [] {
      PercentFullOnlyAtTotal(|hosts|, w.parse(t.network).net.numAddresses);
    }
  }

  /** Results of a task run from its pristine state: exactly the open ports
      found, in host order or, with the quality check, reordered by
      descending score with equal scores kept in host order. */
  lemma FreshResults(t: ScanTask, w: World)
    requires t.Pristine()
    ensures multiset(FinalOrder(t.checkProxyQuality, t.results + t.Found(w))) == multiset(t.Found(w))
    ensures !t.checkProxyQuality ==> FinalOrder(t.checkProxyQuality, t.results + t.Found(w)) == t.Found(w)
    ensures forall k :: WithScore(FinalOrder(t.checkProxyQuality, t.results + t.Found(w)), k) == WithScore(t.Found(w), k)
  {
    var found := t.Found(w);
    assert t.results + found == found;
    forall k ensures WithScore(FinalOrder(t.checkProxyQuality, found), k) == WithScore(found, k) {
      if t.checkProxyQuality && found != [] {
        SortIsStable(found, k);
      }
    }
  }

  /** A /24 network: 256 addresses, 254 hosts. The scan ends at 99 %. */
  lemma SlashTwentyFourEndsBelowFull()
    ensures Percent(254, 256) == 99
  {
  }
}
