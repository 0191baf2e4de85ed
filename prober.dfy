/** The proxy-quality probe (backend.py, test_proxy_quality): try the open
    port as an HTTP proxy, then as a SOCKS5 proxy, against three reference
    sites in priority order, stop trying protocols once one of them reached
    any site, then check the AI endpoints through the working protocol and
    score the result.

    The network is an input: `probe(config)(site)` is the outcome of the GET
    of `site` through the proxy under `config`, and `models(config)` gives
    the outcome of each AI endpoint request under `config`. */
module Prober {
  import opened Base
  import opened Scoring
  import Endpoints

  datatype ProxyType = Http | Socks5

  /** The proxy configurations, in the order they are tried. */
  const Configs: seq<ProxyType> := [Http, Socks5]

  datatype Site = IpCheck | Google | YouTube

  function Priority(s: Site): nat
  {
    match s
    case IpCheck => 1
    case Google => 2
    case YouTube => 3
  }

  /** The reference sites sorted by ascending priority. */
  const Sites: seq<Site> := [IpCheck, Google, YouTube]

  /** Every reference site is requested once, in ascending priority. */
  lemma SitesByPriority()
    ensures forall s: Site :: s in Sites
    ensures forall i, j :: 0 <= i < j < |Sites| ==> Priority(Sites[i]) < Priority(Sites[j])
  {
    forall s: Site ensures s in Sites {
      assert Sites[Priority(s) - 1] == s;
    }
  }

  function SiteName(s: Site): string
  {
    match s
    case IpCheck => "IP Check"
    case Google => "Google"
    case YouTube => "YouTube"
  }

  /** The fields read from the geolocation service's JSON reply; a field
      the reply lacks is `None`. */
  datatype GeoData = GeoData(
    ip: Option<string>,
    countryName: Option<string>,
    countryCode: Option<string>,
    city: Option<string>,
    region: Option<string>)

  const NoGeo := GeoData(None, None, None, None, None)

  /** The exception a reference-site request raised, by the first `except`
      clause that catches it. */
  datatype Failure = ProxyError | Timeout | SslError | ConnectionError | Other(message: string)

  function FailureText(f: Failure): string
  {
    match f
    case ProxyError => "Proxy connection failed"
    case Timeout => "Request timeout"
    case SslError => "SSL error"
    case ConnectionError => "Connection error"
    case Other(message) => message
  }

  /** A reply (status, elapsed milliseconds, and the decoded JSON when the
      body decodes to an object) or a raised exception. */
  datatype SiteOutcome =
    | Reply(status: int, elapsedMs: nat, json: Option<GeoData>)
    | Raised(failure: Failure)

  type SiteProbe = ProxyType -> Site -> SiteOutcome
  type ModelProbe = ProxyType -> Endpoints.Endpoint -> Endpoints.HttpOutcome
  type AiReport = map<Endpoints.Endpoint, Endpoints.Availability>

  /** One request of the probe sequence and how it ended. */
  datatype Attempt = Attempt(config: ProxyType, site: Site, outcome: SiteOutcome)

  /** The `proxy_info` record; `proxyType == None` is 'unknown'. */
  datatype ProxyReport = ProxyReport(
    responseTime: Option<nat>,
    isWorking: bool,
    httpCode: Option<int>,
    canAccessGoogle: bool,
    accessibleSites: seq<string>,
    qualityScore: nat,
    qualityLevel: Band,
    error: Option<string>,
    proxyType: Option<ProxyType>,
    exit: GeoData,
    aiModels: Option<AiReport>)

  /** A status that proves the proxy completed a round trip to the origin. */
  predicate Reached(o: SiteOutcome)
  {
    o.Reply? && o.status in {200, 204, 301, 302, 403}
  }

  /** The three requests made under one configuration. */
  function Row(probe: SiteProbe, cfg: ProxyType): seq<Attempt>
  {
    seq(|Sites|, i requires 0 <= i < |Sites| => Attempt(cfg, Sites[i], probe(cfg)(Sites[i])))
  }

  predicate AnyReached(row: seq<Attempt>)
  {
    exists i :: 0 <= i < |row| && Reached(row[i].outcome)
  }

  /** The configuration whose results the report carries: HTTP when it
      reached some site, otherwise SOCKS5 (the last one tried). */
  function FinalConfig(probe: SiteProbe): ProxyType
  {
    if AnyReached(Row(probe, Http)) then Http else Socks5
  }

  function FinalRow(probe: SiteProbe): seq<Attempt>
  {
    Row(probe, FinalConfig(probe))
  }

  /** Every request made, in order: the HTTP row, then the SOCKS5 row only
      when no HTTP request reached a site. */
  function Attempted(probe: SiteProbe): seq<Attempt>
  {
    if AnyReached(Row(probe, Http)) then Row(probe, Http)
    else Row(probe, Http) + Row(probe, Socks5)
  }

  /* The report's fields as functions of the requests made so far; each is
     defined on the last request so that one request extends it by one step. */

  /** Names of the reached sites, the geolocation service excepted. */
  function Accessible(row: seq<Attempt>): seq<string>
    decreases |row|
  {
    if row == [] then []
    else
      var a := row[|row| - 1];
      Accessible(row[..|row| - 1]) + (if Reached(a.outcome) && a.site != IpCheck then [SiteName(a.site)] else [])
  }

  /** The first of the smallest elapsed times among the reached sites. */
  function Fastest(row: seq<Attempt>): Option<nat>
    decreases |row|
  {
    if row == [] then None
    else
      var best := Fastest(row[..|row| - 1]);
      var o := row[|row| - 1].outcome;
      if Reached(o) && (best.None? || o.elapsedMs < best.value) then Some(o.elapsedMs) else best
  }

  /** Status of the last reached site. */
  function LastCode(row: seq<Attempt>): Option<int>
    decreases |row|
  {
    if row == [] then None
    else
      var o := row[|row| - 1].outcome;
      if Reached(o) then Some(o.status) else LastCode(row[..|row| - 1])
  }

  predicate ReachedGoogle(row: seq<Attempt>)
  {
    exists i :: 0 <= i < |row| && row[i].site == Google && Reached(row[i].outcome)
  }

  /** Exit location from the last decodable 200 reply of the geolocation service. */
  function ExitGeo(row: seq<Attempt>): GeoData
    decreases |row|
  {
    if row == [] then NoGeo
    else
      var a := row[|row| - 1];
      if a.site == IpCheck && Reached(a.outcome) && a.outcome.status == 200 && a.outcome.json.Some?
      then a.outcome.json.value
      else ExitGeo(row[..|row| - 1])
  }

  /** Message of the last request that raised. */
  function LastError(attempts: seq<Attempt>): Option<string>
    decreases |attempts|
  {
    if attempts == [] then None
    else
      var o := attempts[|attempts| - 1].outcome;
      if o.Raised? then Some(FailureText(o.failure)) else LastError(attempts[..|attempts| - 1])
  }

  function AiCount(models: Option<AiReport>): nat
  {
    if models.Some? then Endpoints.AvailableCount(models.value) else 0
  }

  /** The report test_proxy_quality returns for these network outcomes. */
  function Expected(probe: SiteProbe, models: ModelProbe, checkAiModels: bool): ProxyReport
  {
    var cfg := FinalConfig(probe);
    var row := FinalRow(probe);
    var working := AnyReached(row);
    var ai := if working && checkAiModels then Some(Endpoints.Report(models(cfg))) else None;
    var score := if working then QualityScore(|Accessible(row)|, Fastest(row), AiCount(ai)) else 0;
    ProxyReport(
      responseTime := Fastest(row),
      isWorking := working,
      httpCode := LastCode(row),
      canAccessGoogle := ReachedGoogle(row),
      accessibleSites := Accessible(row),
      qualityScore := score,
      qualityLevel := if working then BandOf(score) else Unavailable,
      error := LastError(Attempted(probe)),
      proxyType := if working then Some(cfg) else None,
      exit := ExitGeo(row),
      aiModels := ai)
  }

  /** A row in which no site was reached contributes nothing to the report. */
  lemma {:induction false} UnreachedRowIsEmpty(row: seq<Attempt>)
    requires !AnyReached(row)
    ensures Accessible(row) == [] && Fastest(row) == None && LastCode(row) == None
    ensures !ReachedGoogle(row) && ExitGeo(row) == NoGeo
    decreases |row|
  {
    if row != [] {
      var init := row[..|row| - 1];
      assert !AnyReached(init) by {
        forall i | 0 <= i < |init| ensures !Reached(init[i].outcome) {
          assert init[i] == row[i];
        }
      }
      UnreachedRowIsEmpty(init);
    }
  }

  /** Each report field after one more request, from its value before. */
  lemma Extend(row: seq<Attempt>, a: Attempt)
    ensures AnyReached(row + [a]) == (AnyReached(row) || Reached(a.outcome))
    ensures ReachedGoogle(row + [a]) == (ReachedGoogle(row) || (a.site == Google && Reached(a.outcome)))
    ensures Accessible(row + [a]) == Accessible(row) + (if Reached(a.outcome) && a.site != IpCheck then [SiteName(a.site)] else [])
    ensures Fastest(row + [a]) == if Reached(a.outcome) && (Fastest(row).None? || a.outcome.elapsedMs < Fastest(row).value)
                                  then Some(a.outcome.elapsedMs) else Fastest(row)
    ensures LastCode(row + [a]) == if Reached(a.outcome) then Some(a.outcome.status) else LastCode(row)
    ensures ExitGeo(row + [a]) == if a.site == IpCheck && Reached(a.outcome) && a.outcome.status == 200 && a.outcome.json.Some?
                                  then a.outcome.json.value else ExitGeo(row)
    ensures LastError(row + [a]) == if a.outcome.Raised? then Some(FailureText(a.outcome.failure)) else LastError(row)
  {
    var next := row + [a];
    assert next[..|next| - 1] == row;
    assert forall i :: 0 <= i < |row| ==> next[i] == row[i];
    if AnyReached(next) && !Reached(a.outcome) {
      var i :| 0 <= i < |next| && Reached(next[i].outcome);
      assert i < |row|;
    }
    if ReachedGoogle(next) && !(a.site == Google && Reached(a.outcome)) {
      var i :| 0 <= i < |next| && next[i].site == Google && Reached(next[i].outcome);
      assert i < |row|;
    }
  }

  /** What the probe has recorded so far: the `proxy_info` fields the
      request loop writes, and the configuration of the last success. */
  datatype Findings = Findings(
    responseTime: Option<nat>,
    isWorking: bool,
    httpCode: Option<int>,
    canAccessGoogle: bool,
    accessible: seq<string>,
    error: Option<string>,
    proxyType: Option<ProxyType>,
    exit: GeoData,
    workingProxies: Option<ProxyType>)

  const NothingFound := Findings(None, false, None, false, [], None, None, NoGeo, None)

  /** `f` is what the requests `row` under `cfg` leave behind, after the
      requests `attempts` (which end with `row`) as far as errors go. */
  ghost predicate Summarises(f: Findings, cfg: ProxyType, row: seq<Attempt>, attempts: seq<Attempt>)
  {
    && f.isWorking == AnyReached(row)
    && f.accessible == Accessible(row)
    && f.responseTime == Fastest(row)
    && f.httpCode == LastCode(row)
    && f.canAccessGoogle == ReachedGoogle(row)
    && f.exit == ExitGeo(row)
    && f.proxyType == (if f.isWorking then Some(cfg) else None)
    && f.workingProxies == f.proxyType
    && f.error == LastError(attempts)
  }

  /** Records one reference-site request under `cfg` (the body of the inner
      loop of test_proxy_quality). */
  method Record(f: Findings, cfg: ProxyType, site: Site, outcome: SiteOutcome,
                ghost row: seq<Attempt>, ghost attempts: seq<Attempt>)
    returns (g: Findings)
    requires Summarises(f, cfg, row, attempts)
    requires SiteName(site) !in f.accessible
    ensures Summarises(g, cfg, row + [Attempt(cfg, site, outcome)], attempts + [Attempt(cfg, site, outcome)])
    ensures g.accessible == f.accessible || g.accessible == f.accessible + [SiteName(site)]
  {
    Extend(row, Attempt(cfg, site, outcome));
    Extend(attempts, Attempt(cfg, site, outcome));
    g := f;
    match outcome {
      case Reply(status, elapsed, json) =>
        if status in {200, 204, 301, 302, 403} {
          g := g.(isWorking := true, httpCode := Some(status), proxyType := Some(cfg), workingProxies := Some(cfg));
          if site == IpCheck && status == 200 && json.Some? {
            g := g.(exit := json.value);
          }
          if SiteName(site) !in g.accessible && SiteName(site) != "IP Check" {
            g := g.(accessible := g.accessible + [SiteName(site)]);
          }
          // Of the three site keys only 'can_access_google' is a field of the report.
          if site == Google {
            g := g.(canAccessGoogle := true);
          }
          if g.responseTime.None? || elapsed < g.responseTime.value {
            g := g.(responseTime := Some(elapsed));
          }
        }
      case Raised(failure) =>
        g := g.(error := Some(FailureText(failure)));
    }
  }

  /** No site's name is listed before its own request. */
  lemma NotYetListed(probe: SiteProbe, cfg: ProxyType, si: nat)
    requires si < |Sites|
    ensures SiteName(Sites[si]) !in Accessible(Row(probe, cfg)[..si])
  {
    RowUnfold(probe, cfg);
    var row := Row(probe, cfg);
    assert row[..1] == [row[0]];
    assert row[..2] == [row[0]] + [row[1]];
  }

  /** Requests the three reference sites in priority order under `cfg`
      (the inner loop of test_proxy_quality). */
  method ProbeRow(probe: SiteProbe, cfg: ProxyType, f: Findings, ghost before: seq<Attempt>)
    returns (g: Findings, ghost attempts: seq<Attempt>)
    requires f == NothingFound.(error := LastError(before))
    ensures attempts == before + Row(probe, cfg)
    ensures Summarises(g, cfg, Row(probe, cfg), attempts)
  {
    ghost var row := Row(probe, cfg);
    g := f;
    attempts := before;
    var si := 0;
    while si < |Sites|
      invariant 0 <= si <= |Sites|
      invariant attempts == before + row[..si]
      invariant Summarises(g, cfg, row[..si], attempts)
    {
      var site := Sites[si];
      var outcome := probe(cfg)(site);
      assert row[..si + 1] == row[..si] + [Attempt(cfg, site, outcome)];
      NotYetListed(probe, cfg, si);
      g := Record(g, cfg, site, outcome, row[..si], attempts);
      attempts := attempts + [Attempt(cfg, site, outcome)];
      si := si + 1;
    }
    assert row[..si] == row;
  }

  /** Tries HTTP, then SOCKS5 only if no HTTP request reached a site (the
      outer loop of test_proxy_quality, with its `break`). */
  method ProbeConfigs(probe: SiteProbe) returns (info: Findings, ghost attempts: seq<Attempt>)
    ensures attempts == Attempted(probe)
    ensures Summarises(info, FinalConfig(probe), FinalRow(probe), attempts)
  {
    info := NothingFound;
    attempts := [];
    var ci := 0;
    while ci < |Configs|
      invariant 0 <= ci <= |Configs|
      invariant ci == 0 ==> attempts == []
      invariant ci >= 1 ==> !AnyReached(Row(probe, Http))
      invariant ci == 1 ==> attempts == Row(probe, Http)
      invariant ci == 2 ==> attempts == Attempted(probe) && !AnyReached(Row(probe, Socks5))
      invariant info == NothingFound.(error := LastError(attempts))
    {
      var cfg := Configs[ci];
      info, attempts := ProbeRow(probe, cfg, info, attempts);
      if info.isWorking {
        break;
      }
      UnreachedRowIsEmpty(Row(probe, cfg));
      ci := ci + 1;
    }
    if ci == 2 {
      UnreachedRowIsEmpty(Row(probe, Socks5));
    }
  }

  /** Probes the proxy, checks the AI endpoints through the working
      configuration and scores it; `attempts` records the requests made. */
  method TestProxyQuality(probe: SiteProbe, models: ModelProbe, checkAiModels: bool)
    returns (report: ProxyReport, ghost attempts: seq<Attempt>)
    ensures report == Expected(probe, models, checkAiModels)
    ensures attempts == Attempted(probe)
  {
    var info;
    info, attempts := ProbeConfigs(probe);

    var aiModels: Option<AiReport> := None;
    if info.isWorking && checkAiModels && info.workingProxies.Some? {
      var m := Endpoints.CheckAiModels(models(info.workingProxies.value));
      aiModels := Some(m);
    }

    var score: nat := 0;
    var level := Unavailable;
    if info.isWorking {
      score := QualityScore(|info.accessible|, info.responseTime, AiCount(aiModels));
      level := BandOf(score);
    }

    report := ProxyReport(
      responseTime := info.responseTime,
      isWorking := info.isWorking,
      httpCode := info.httpCode,
      canAccessGoogle := info.canAccessGoogle,
      accessibleSites := info.accessible,
      qualityScore := score,
      qualityLevel := level,
      error := info.error,
      proxyType := info.proxyType,
      exit := info.exit,
      aiModels := aiModels);
  }

  /** A row, built one request at a time. */
  lemma RowUnfold(probe: SiteProbe, cfg: ProxyType)
    ensures var a0, a1, a2 := Attempt(cfg, IpCheck, probe(cfg)(IpCheck)),
                              Attempt(cfg, Google, probe(cfg)(Google)),
                              Attempt(cfg, YouTube, probe(cfg)(YouTube));
      && Row(probe, cfg) == [a0] + [a1] + [a2]
      && Accessible(Row(probe, cfg)) == Accessible([a0] + [a1]) + (if Reached(a2.outcome) then ["YouTube"] else [])
      && Accessible([a0] + [a1]) == Accessible([a0]) + (if Reached(a1.outcome) then ["Google"] else [])
      && Accessible([a0]) == []
      && ExitGeo(Row(probe, cfg)) == ExitGeo([a0] + [a1])
      && ExitGeo([a0] + [a1]) == ExitGeo([a0])
      && ExitGeo([a0]) == if Reached(a0.outcome) && a0.outcome.status == 200 && a0.outcome.json.Some?
                          then a0.outcome.json.value else NoGeo
  {
    var a0, a1, a2 := Attempt(cfg, IpCheck, probe(cfg)(IpCheck)),
                      Attempt(cfg, Google, probe(cfg)(Google)),
                      Attempt(cfg, YouTube, probe(cfg)(YouTube));
    var row := Row(probe, cfg);
    assert row == [a0] + [a1] + [a2];
    assert row[..2] == [a0] + [a1];
    assert ([a0] + [a1])[..1] == [a0];
    assert [a0][..0] == [];
  }

  /** The countable sites of one configuration's row: "Google" then
      "YouTube", each present exactly when that site was reached. */
  lemma RowAccessible(probe: SiteProbe, cfg: ProxyType)
    ensures Accessible(Row(probe, cfg)) ==
      (if Reached(probe(cfg)(Google)) then ["Google"] else []) + (if Reached(probe(cfg)(YouTube)) then ["YouTube"] else [])
  {
    RowUnfold(probe, cfg);
  }

  /** The geolocation fields come only from a 200 reply of the geolocation
      service (the first site of the row) whose body decoded. */
  lemma RowExit(probe: SiteProbe, cfg: ProxyType)
    ensures ExitGeo(Row(probe, cfg)) ==
      var o := probe(cfg)(IpCheck);
      if o.Reply? && o.status == 200 && o.json.Some? then o.json.value else NoGeo
  {
    RowUnfold(probe, cfg);
  }

  /** The best latency is the smallest elapsed time among the reached
      sites, and there is one exactly when some site was reached. */
  lemma {:induction false} FastestIsMinimum(row: seq<Attempt>)
    ensures Fastest(row).Some? <==> AnyReached(row)
    ensures Fastest(row).Some? ==>
      (exists i :: 0 <= i < |row| && Reached(row[i].outcome) && row[i].outcome.elapsedMs == Fastest(row).value)
      && (forall i :: 0 <= i < |row| && Reached(row[i].outcome) ==> Fastest(row).value <= row[i].outcome.elapsedMs)
    decreases |row|
  {
    if row != [] {
      var n := |row| - 1;
      var init, a := row[..n], row[n];
      assert row == init + [a];
      FastestIsMinimum(init);
      Extend(init, a);
      assert forall i :: 0 <= i < n ==> row[i] == init[i];
      if Fastest(row).Some? {
        if Fastest(row) == Fastest(init) {
          var i :| 0 <= i < n && Reached(init[i].outcome) && init[i].outcome.elapsedMs == Fastest(init).value;
          assert row[i] == init[i];
        } else {
          assert Reached(row[n].outcome) && row[n].outcome.elapsedMs == Fastest(row).value;
        }
      }
    }
  }

  /** The error field is the message of the last request that raised, and
      is empty exactly when no request raised. */
  lemma {:induction false} LastErrorIsLastFailure(attempts: seq<Attempt>)
    ensures LastError(attempts).None? <==> forall i :: 0 <= i < |attempts| ==> !attempts[i].outcome.Raised?
    ensures LastError(attempts).Some? ==>
      exists i :: 0 <= i < |attempts| && attempts[i].outcome.Raised?
        && FailureText(attempts[i].outcome.failure) == LastError(attempts).value
        && forall j :: i < j < |attempts| ==> !attempts[j].outcome.Raised?
    decreases |attempts|
  {
    if attempts != [] {
      var n := |attempts| - 1;
      var init := attempts[..n];
      var o := attempts[n].outcome;
      if o.Raised? {
        assert LastError(attempts) == Some(FailureText(o.failure));
        assert attempts[n].outcome.Raised?;
      } else {
        LastErrorIsLastFailure(init);
        assert LastError(attempts) == LastError(init);
        assert forall i :: 0 <= i < n ==> init[i] == attempts[i];
        if LastError(init).Some? {
          var i :| 0 <= i < n && init[i].outcome.Raised?
            && FailureText(init[i].outcome.failure) == LastError(init).value
            && forall j :: i < j < n ==> !init[j].outcome.Raised?;
          assert attempts[i] == init[i];
        }
      }
    }
  }

  /** Protocol fallback: the HTTP row is always requested first, in
      priority order; SOCKS5 is requested exactly when no HTTP request
      reached a site; the reported type is the configuration that worked. */
  lemma ProtocolFallback(probe: SiteProbe, models: ModelProbe, checkAiModels: bool)
    ensures |Attempted(probe)| >= 3 && Attempted(probe)[..3] == Row(probe, Http)
    ensures (exists i :: 0 <= i < |Attempted(probe)| && Attempted(probe)[i].config == Socks5)
            <==> !AnyReached(Row(probe, Http))
    ensures forall i :: 0 <= i < |Attempted(probe)| ==>
              Attempted(probe)[i].outcome == probe(Attempted(probe)[i].config)(Attempted(probe)[i].site)
    ensures Expected(probe, models, checkAiModels).isWorking
            <==> exists i :: 0 <= i < |Attempted(probe)| && Reached(Attempted(probe)[i].outcome)
    ensures Expected(probe, models, checkAiModels).proxyType == Some(Http) <==> AnyReached(Row(probe, Http))
    ensures Expected(probe, models, checkAiModels).proxyType == Some(Socks5)
            <==> !AnyReached(Row(probe, Http)) && AnyReached(Row(probe, Socks5))
  {
    var a := Attempted(probe);
    var h := Row(probe, Http);
    assert a[..3] == h;
    if AnyReached(h) {
      assert forall i :: 0 <= i < |a| ==> a[i].config == Http;
    } else {
      var k := Row(probe, Socks5);
      assert a[3].config == Socks5;
      assert forall i :: 0 <= i < |h| ==> a[i] == h[i];
      assert forall i :: 0 <= i < |k| ==> a[3 + i] == k[i];
      if AnyReached(k) {
        var i :| 0 <= i < |k| && Reached(k[i].outcome);
        assert Reached(a[3 + i].outcome);
      }
      if exists i :: 0 <= i < |a| && Reached(a[i].outcome) {
        var i :| 0 <= i < |a| && Reached(a[i].outcome);
        if i >= 3 { assert a[i] == k[i - 3]; }
      }
    }
  }

  /** Scoring of the report: a working proxy scores 30 to 95 (two countable
      sites at most) in the band of its score; a proxy that never worked
      keeps score 0, band "unavailable" and every field at its start value. */
  lemma ReportScore(probe: SiteProbe, models: ModelProbe, checkAiModels: bool)
    ensures var r := Expected(probe, models, checkAiModels);
      r.isWorking ==> BaseScore <= r.qualityScore <= 95 && r.qualityLevel == BandOf(r.qualityScore)
                      && r.proxyType.Some? && r.responseTime.Some? && r.httpCode.Some?
    ensures var r := Expected(probe, models, checkAiModels);
      !r.isWorking ==> r.qualityScore == 0 && r.qualityLevel == Unavailable && r.proxyType.None?
                       && r.responseTime.None? && r.httpCode.None? && !r.canAccessGoogle
                       && r.accessibleSites == [] && r.exit == NoGeo && r.aiModels.None?
  {
    var row := FinalRow(probe);
    RowAccessible(probe, FinalConfig(probe));
    FastestIsMinimum(row);
    if !AnyReached(row) {
      UnreachedRowIsEmpty(row);
    } else {
      var i :| 0 <= i < |row| && Reached(row[i].outcome);
      LastCodeReached(row, i);
    }
  }

  lemma {:induction false} LastCodeReached(row: seq<Attempt>, i: int)
    requires 0 <= i < |row| && Reached(row[i].outcome)
    ensures LastCode(row).Some?
    decreases |row|
  {
    if i < |row| - 1 {
      var init := row[..|row| - 1];
      assert init[i] == row[i];
      LastCodeReached(init, i);
    }
  }

  /** The accessible-site list never holds the geolocation service, holds
      no name twice, and lists "Google" exactly when Google was reached. */
  lemma AccessibleSitesShape(probe: SiteProbe, models: ModelProbe, checkAiModels: bool)
    ensures var r := Expected(probe, models, checkAiModels);
      && "IP Check" !in r.accessibleSites
      && (forall n :: n in r.accessibleSites ==> n == "Google" || n == "YouTube")
      && (forall i, j :: 0 <= i < j < |r.accessibleSites| ==> r.accessibleSites[i] != r.accessibleSites[j])
      && ("Google" in r.accessibleSites <==> r.canAccessGoogle)
      && ("Google" in r.accessibleSites <==> r.isWorking && Reached(probe(r.proxyType.value)(Google)))
      && ("YouTube" in r.accessibleSites <==> r.isWorking && Reached(probe(r.proxyType.value)(YouTube)))
  {
    var cfg := FinalConfig(probe);
    var row := FinalRow(probe);
    RowAccessible(probe, cfg);
    assert row[1] == Attempt(cfg, Google, probe(cfg)(Google));
    assert row[2] == Attempt(cfg, YouTube, probe(cfg)(YouTube));
    if ReachedGoogle(row) {
      var i :| 0 <= i < |row| && row[i].site == Google && Reached(row[i].outcome);
      assert row[0].site == IpCheck;
      assert i == 1;
    }
  }

  /** The reported latency is the smallest elapsed time among the reached
      sites of the working configuration. */
  lemma ResponseTimeIsFastest(probe: SiteProbe, models: ModelProbe, checkAiModels: bool)
    ensures var r := Expected(probe, models, checkAiModels);
      && (r.responseTime.Some? <==> r.isWorking)
      && (r.isWorking ==>
            (exists s :: s in Sites && Reached(probe(r.proxyType.value)(s))
                         && probe(r.proxyType.value)(s).elapsedMs == r.responseTime.value)
            && (forall s :: s in Sites && Reached(probe(r.proxyType.value)(s))
                         ==> r.responseTime.value <= probe(r.proxyType.value)(s).elapsedMs))
  {
    var cfg := FinalConfig(probe);
    var row := FinalRow(probe);
    FastestIsMinimum(row);
    if AnyReached(row) {
      var i :| 0 <= i < |row| && Reached(row[i].outcome) && row[i].outcome.elapsedMs == Fastest(row).value;
      assert row[i].site in Sites;
      forall s | s in Sites && Reached(probe(cfg)(s))
        ensures Fastest(row).value <= probe(cfg)(s).elapsedMs
      {
        var j :| 0 <= j < |Sites| && Sites[j] == s;
        assert row[j].outcome == probe(cfg)(s);
      }
    }
  }

  /** The exit location is the decoded 200 reply of the geolocation service
      under the working configuration, and is empty otherwise. */
  lemma ExitFromGeolocation(probe: SiteProbe, models: ModelProbe, checkAiModels: bool)
    ensures var r := Expected(probe, models, checkAiModels);
      var o := probe(FinalConfig(probe))(IpCheck);
      r.exit == if o.Reply? && o.status == 200 && o.json.Some? then o.json.value else NoGeo
  {
    RowExit(probe, FinalConfig(probe));
  }

  /** The AI endpoints are checked only for a working proxy, through the
      configuration that worked, and every endpoint gets an entry. */
  lemma AiUsesWorkingConfig(probe: SiteProbe, models: ModelProbe, checkAiModels: bool)
    ensures var r := Expected(probe, models, checkAiModels);
      && (r.aiModels.Some? <==> r.isWorking && checkAiModels)
      && (r.aiModels.Some? ==>
            && r.aiModels.value == Endpoints.Report(models(r.proxyType.value))
            && forall e :: e in Endpoints.AllEndpoints ==> e in r.aiModels.value)
  {
  }
}
