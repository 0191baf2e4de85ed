/** The single-user web scanner (scanner_web.py): one global scan status,
    reset and filled by a background scan of one network, and a start
    request that is refused while a scan runs. The socket connect, the
    network parser and the clock are inputs; the scan thread is modelled as
    running its statements in order. Times are integer microseconds. */
module WebScanner {
  import opened Base
  import Scan

  const DefaultNetwork: string := "10.16.65.0/24"
  const DefaultPort: int := 7890
  const DefaultThreads: int := 50

  /** The environment of the web scanner: how a network string parses,
      the connect outcome of each target, and the formatted clock reading
      taken when a port is found open. */
  datatype Env = Env(
    parse: string -> Scan.Parsed,
    connect: Scan.Target -> Scan.ConnectOutcome,
    stamp: Scan.Target -> string)

  datatype OpenPort = OpenPort(ip: string, port: int, status: string, timestamp: string)

  /** The fields of a start request's JSON body; an absent field is `None`. */
  datatype StartRequest = StartRequest(network: Option<string>, port: Option<int>, threads: Option<int>)

  /** scan_port: a record exactly when the connect code is 0, carrying the
      target scanned and the status "open". */
  function ScanPort(env: Env, ip: string, port: int): (r: Option<OpenPort>)
    ensures r.Some? <==> env.connect(Scan.Target(ip, port)) == Scan.Code(0)
    ensures r.Some? ==> r.value.ip == ip && r.value.port == port && r.value.status == "open"
    ensures r.Some? ==> r.value.timestamp == env.stamp(Scan.Target(ip, port))
  {
    var t := Scan.Target(ip, port);
    if env.connect(t) == Scan.Code(0) then Some(OpenPort(ip, port, "open", env.stamp(t))) else None
  }

  /** Every host's result, in host order. */
  function Outcomes(env: Env, hosts: seq<string>, port: int): (outs: seq<Option<OpenPort>>)
    ensures |outs| == |hosts|
    ensures forall i :: 0 <= i < |hosts| ==> outs[i] == ScanPort(env, hosts[i], port)
  {
    seq(|hosts|, i requires 0 <= i < |hosts| => ScanPort(env, hosts[i], port))
  }

  /** The hosts a scan consumes: none when the network does not parse or
      the pool cannot be built (both exceptions are swallowed). */
  function ScannedHosts(env: Env, network: string, threads: int): seq<string>
  {
    match env.parse(network)
    case Invalid(_) => []
    case Parsed(net) => if threads <= 0 then [] else net.hosts
  }

  /** The open ports of a scan, in host order. */
  function Found(env: Env, network: string, port: int, threads: int): seq<OpenPort>
  {
    Somes(Outcomes(env, ScannedHosts(env, network, threads), port))
  }

  class ScanStatus {
    var isScanning: bool
    var progress: nat
    var total: nat
    var scanned: nat
    var results: seq<OpenPort>
    var startTime: Option<int>
    var endTime: Option<int>

    /** No more results than hosts counted, and a percentage of at most 100. */
    predicate Valid()
      reads this
    {
      |results| <= scanned && progress <= 100
    }

    /** The status before any scan. */
    constructor ()
      ensures !isScanning && progress == 0 && total == 0 && scanned == 0 && results == []
      ensures startTime == None && endTime == None
      ensures Valid()
    {
      isScanning := false;
      progress := 0;
      total := 0;
      scanned := 0;
      results := [];
      startTime := None;
      endTime := None;
    }

    /** The reset at the start of the scan thread; `total` keeps its value. */
    method Begin(startedAt: int)
      modifies this`isScanning, this`progress, this`scanned, this`results, this`startTime
      ensures isScanning && progress == 0 && scanned == 0 && results == []
      ensures startTime == Some(startedAt)
      ensures Valid()
    {
      isScanning := true;
      progress := 0;
      scanned := 0;
      results := [];
      startTime := Some(startedAt);
    }

    /** The `try` block: `total` becomes the address count only once the
        network has parsed; then every host's result is consumed in host
        order. */
    method ScanHosts(env: Env, network: string, port: int, threads: int)
      requires scanned == 0 && Valid()
      modifies this`total, this`scanned, this`progress, this`results
      ensures Valid()
      ensures total == if env.parse(network).Parsed? then env.parse(network).net.numAddresses else old(total)
      ensures scanned == |ScannedHosts(env, network, threads)| && scanned <= total
      ensures progress == if scanned == 0 then old(progress) else Percent(scanned, total)
      ensures results == old(results) + Found(env, network, port, threads)
    {
      match env.parse(network) {
        case Invalid(_) =>
        case Parsed(net) =>
          total := net.numAddresses;
          if threads > 0 {
            ConsumeResults(env, net, port);
          }
      }
    }

    /** The loop over the futures: each host's result is counted, updates
        the percentage and, when the port is open, is appended. */
    method ConsumeResults(env: Env, net: Scan.HostRange, port: int)
      requires total == net.numAddresses && scanned == 0 && Valid()
      modifies this`scanned, this`progress, this`results
      ensures Valid()
      ensures scanned == |net.hosts|
      ensures progress == if net.hosts == [] then old(progress) else Percent(scanned, total)
      ensures results == old(results) + Somes(Outcomes(env, net.hosts, port))
    {
      var hosts := net.hosts;
      ghost var outs := Outcomes(env, hosts, port);
      var i := 0;
      while i < |hosts|
        invariant 0 <= i <= |hosts|
        invariant scanned == i
        invariant progress == if i == 0 then old(progress) else Percent(scanned, total)
        invariant results == old(results) + Somes(outs[..i])
        invariant |results| <= |old(results)| + i
      {
        var r := ScanPort(env, hosts[i], port);
        scanned := scanned + 1;
        progress := Percent(scanned, total);
        SomesStep(outs, i);
        if r.Some? {
          results := results + [r.value];
        }
        i := i + 1;
      }
      assert outs[..i] == outs;
    }

    /** The `finally` block. */
    method Finish(endedAt: int)
      modifies this`isScanning, this`endTime
      ensures !isScanning && endTime == Some(endedAt)
    {
      isScanning := false;
      endTime := Some(endedAt);
    }

    /** scan_network_thread: reset, scan, and always end not scanning with
        an end time, whether or not the network parsed. */
    method ScanNetworkThread(env: Env, network: string, port: int, threads: int, startedAt: int, endedAt: int)
      modifies this
      ensures Valid()
      ensures !isScanning && startTime == Some(startedAt) && endTime == Some(endedAt)
      ensures total == if env.parse(network).Parsed? then env.parse(network).net.numAddresses else old(total)
      ensures scanned == |ScannedHosts(env, network, threads)| && scanned <= total
      ensures progress == if scanned == 0 then 0 else Percent(scanned, total)
      ensures results == Found(env, network, port, threads)
    {
      Begin(startedAt);
      ScanHosts(env, network, port, threads);
      Finish(endedAt);
    }

    /** start_scan: refused, with nothing changed, while a scan runs;
        otherwise the scan of the requested network (defaults filled in)
        runs. */
    method StartScan(env: Env, req: StartRequest, startedAt: int, endedAt: int) returns (started: bool)
      modifies this
      ensures started <==> !old(isScanning)
      ensures !started ==> unchanged(this)
      ensures started ==>
        var network, port, threads := OrElse(req.network, DefaultNetwork), OrElse(req.port, DefaultPort), OrElse(req.threads, DefaultThreads);
        && Valid() && !isScanning && startTime == Some(startedAt) && endTime == Some(endedAt)
        && total == (if env.parse(network).Parsed? then env.parse(network).net.numAddresses else old(total))
        && scanned == |ScannedHosts(env, network, threads)| && scanned <= total
        && progress == (if scanned == 0 then 0 else Percent(scanned, total))
        && results == Found(env, network, port, threads)
    {
      if isScanning {
        return false;
      }
      var network := OrElse(req.network, DefaultNetwork);
      var port := OrElse(req.port, DefaultPort);
      var threads := OrElse(req.threads, DefaultThreads);
      ScanNetworkThread(env, network, port, threads, startedAt, endedAt);
      started := true;
    }
  }

  /** The results are exactly the open ports among the scanned hosts, in
      host order. */
  lemma FoundAreOpenHosts(env: Env, network: string, port: int, threads: int, r: OpenPort)
    ensures r in Found(env, network, port, threads) <==>
      var hosts := ScannedHosts(env, network, threads);
      exists i :: 0 <= i < |hosts| && env.connect(Scan.Target(hosts[i], port)) == Scan.Code(0)
                  && r == OpenPort(hosts[i], port, "open", env.stamp(Scan.Target(hosts[i], port)))
  {
    var hosts := ScannedHosts(env, network, threads);
    var outs := Outcomes(env, hosts, port);
    SomesMembership(outs, r);
    if Some(r) in outs {
      var i :| 0 <= i < |outs| && outs[i] == Some(r);
      assert env.connect(Scan.Target(hosts[i], port)) == Scan.Code(0);
    }
    if exists i :: 0 <= i < |hosts| && env.connect(Scan.Target(hosts[i], port)) == Scan.Code(0)
                   && r == OpenPort(hosts[i], port, "open", env.stamp(Scan.Target(hosts[i], port))) {
      var i :| 0 <= i < |hosts| && env.connect(Scan.Target(hosts[i], port)) == Scan.Code(0)
               && r == OpenPort(hosts[i], port, "open", env.stamp(Scan.Target(hosts[i], port)));
      assert outs[i] == Some(r);
    }
  }
}
