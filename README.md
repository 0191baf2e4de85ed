# LAN port scanner with proxy-quality probe — Dafny model

The system scans a network for hosts with one TCP port open. It can also
treat each open port as a proxy and grade it. There are two front ends:

- `backend.py` is a multi-user REST backend. It keeps a registry of scan
  tasks. Each task scans one network in the background. When asked, it
  tries every open port as an HTTP proxy against three reference sites,
  and as a SOCKS5 proxy only if HTTP reached none of them. A working proxy
  is then checked against four AI services, scored and banded.
- `scanner_web.py` is a single-user web page. It has one global scan status
  and refuses to start a scan while one is running.

The model covers:

- the scoring and banding of a proxy (`Scoring`);
- the per-endpoint AI availability classifier (`Endpoints`), with the
  case-insensitive substring search it relies on (`Text`);
- the probe sequence over protocols and sites (`Prober`);
- scanning one host and the stable sort of results by score (`Scan`);
- the scan task and its scan loop (`Tasks`);
- the registry of scan tasks: create, get, delete, the age-based sweep, stats and
  the thread's lookup (`Registry`);
- the web scanner's global status and start guard (`WebScanner`).

Everything outside the program is an input:

- the network parser (`ipaddress.ip_network`), given as a function from
  text to a host list and address count, or an error message;
- the TCP connect code of each target;
- the outcome of every HTTP request, as a function of the proxy
  configuration and the site or AI endpoint;
- the clock readings and the ids of new scan tasks.

Stateful code is written as imperative Dafny and proved against
specification functions:

- `Prober.TestProxyQuality` is the nested loop with its `break`. It is
  proved equal to `Prober.Expected`, and its ghost output records the
  requests made, in order.
- `Tasks.ScanTask` and `WebScanner.ScanStatus` are classes whose methods
  update the counters and the result list in place.
- `Registry.TaskRegistry` holds the map of scan tasks and changes it.

Behaviour of the code worth knowing:

- `total` is the network's address count, but only its usable hosts are
  scanned. For an IPv4 /30 or wider network `scanned` ends at `total - 2`, and
  `progress` never reaches 100: a /24 ends at 99 %. `Tasks.FreshProgress`
  and `Tasks.SlashTwentyFourEndsBelowFull` state this.
- Results come out in host order (the order of the submitted futures), not
  in completion order.
- Of the three site keys, only `can_access_google` is a field of the
  report. A reached YouTube shows only in `accessible_sites`.
- The error field holds the last exception's text over every request made.
  A later success does not clear it.
- A thread count below 1 makes the thread pool raise before any host is
  scanned. The backend stores the message as the scan task's error, with
  `total` already set; the web page swallows it.
- When the web page's network text does not parse, `total` keeps the value
  of the previous scan.

## Model

| member | source | states |
|---|---|---|
| Base.Somes | backend.py:428-429 | Keeping only the present results never lengthens the list. |
| Base.SomesMembership | backend.py:423-429 | A record is in the kept results exactly when some host produced it. |
| Base.Percent | backend.py:426 | The integer percentage is at most 100 while scanned ≤ total, and is 100 when scanned = total. |
| Base.PercentFullOnlyAtTotal | scanner_web.py:76 | While scanned ≤ total, the percentage is 100 if and only if every counted address was scanned. |
| Text.Lower | backend.py:125 | Lower-casing keeps the length, leaves no upper-case ASCII letter, and changes only upper-case letters, each to its lower-case form. |
| Text.Contains | backend.py:140 | Python's `pat in text`: true exactly when `pat` occurs at some index of `text`. |
| Endpoints.HasBlockPhrase | backend.py:128-140 | True exactly when one of the nine block phrases occurs in the body. |
| Endpoints.Classify | backend.py:122-163 | Each endpoint entry: available exactly for a 200/301/302 reply without a block phrase whose body has the keyword or whose status is 200, with the reply's time; blocked exactly for 403 or a block phrase in a 200/301/302 body; `http_<code>` exactly for other statuses; timeout, connection error and error exactly for those exceptions; never unknown; no time unless available. |
| Endpoints.ClassifyIgnoresCase | backend.py:125 | The letter case of a body never changes an endpoint's entry. |
| Endpoints.BlockPhraseWins | backend.py:140-144 | A block phrase in a 200/301/302 body gives "blocked", whatever the keyword and status. |
| Endpoints.CheckAiModels | backend.py:72-165 | The report has an entry for each of the four endpoints, and each entry depends only on that endpoint's own outcome. |
| Endpoints.AvailableCount | backend.py:331 | The count equals the number of endpoints the report marks available. It is at most 4, and positive exactly when some endpoint is available. |
| Scoring.SiteBonus | backend.py:306-312 | 0 for no site, else 15 + 5·min(count, 3): 20, 25, 30. |
| Scoring.LatencyBonus | backend.py:315-327 | 0 without a latency, else 5 for each bucket bound (300, 600, 1000, 2000, 3000, 5000 ms) above the latency; at most 30. |
| Scoring.AiBonus | backend.py:330-339 | 0 for no available endpoint, else 2 + 2·min(count, 4): 4, 6, 8, 10. |
| Scoring.QualityScore | backend.py:302-341 | The score of a working proxy lies in [30, 100], and in [30, 95] with at most two countable sites. |
| Scoring.ScoreMonotone | backend.py:302-341 | More sites, a faster latency or more available endpoints never lower the score. |
| Scoring.BandOf | backend.py:343-353 | The band is one rank above "bad" for each bound (40, 55, 70, 85) the score reaches; never "unavailable". |
| Scoring.BandMonotone | backend.py:343-353 | A higher score never falls in a lower band. |
| Scoring.TwoSitesFastIsExcellent | backend.py:302-353 | Two sites at 250 ms and no AI endpoint score 85, the lowest "excellent"; 84 is "good". |
| Prober.UnreachedRowIsEmpty | backend.py:240-274 | Requests that reach no site record no site, no latency, no code, no Google flag and no location. |
| Prober.RowAccessible | backend.py:263-265 | One protocol's countable sites are "Google", then "YouTube", each exactly when reached. |
| Prober.RowExit | backend.py:249-257 | One protocol's location comes only from a decodable 200 reply of the geolocation service. |
| Prober.FastestIsMinimum | backend.py:271-274 | The best latency exists exactly when some site was reached, and is the smallest elapsed time among reached sites. |
| Prober.LastErrorIsLastFailure | backend.py:276-285 | The error is the text of the last request that raised, and is empty exactly when none raised. |
| Prober.SitesByPriority | backend.py:209-224 | Every reference site is requested, in strictly ascending priority. |
| Prober.ProtocolFallback | backend.py:219-289 | HTTP is tried first on all three sites in priority order. SOCKS5 is tried exactly when no HTTP request reached a site. The proxy works exactly when some request reached a site. The reported type is the protocol that worked. |
| Prober.ReportScore | backend.py:301-355 | A working proxy scores 30–95 in the band of its score, with a type, latency and code. A proxy that never worked scores 0, is "unavailable", and keeps every field except `error` at its start value. |
| Prober.AccessibleSitesShape | backend.py:263-269 | The site list never holds "IP Check" and has no duplicates. "Google" is in it exactly when the Google flag is set. Each name is in it exactly when the working protocol reached that site. |
| Prober.ResponseTimeIsFastest | backend.py:271-274 | The latency is set exactly when the proxy works. It is the smallest elapsed time over the sites the working protocol reached. |
| Prober.ExitFromGeolocation | backend.py:249-257 | The exit location is the decoded 200 reply of the geolocation service under the working protocol, and empty otherwise. |
| Prober.AiUsesWorkingConfig | backend.py:291-294 | The AI endpoints are checked exactly when the proxy works and the check is on, through the protocol that worked, with an entry for every endpoint. |
| Prober.Record | backend.py:239-285 | One request's effect on the findings keeps them equal to the field functions of the requests made so far. |
| Prober.ProbeRow | backend.py:223-285 | The three requests under one protocol are made in priority order, and the findings are those of that row. |
| Prober.ProbeConfigs | backend.py:219-289 | The requests made are the HTTP row, then the SOCKS5 row only if HTTP reached nothing. The findings are those of the protocol kept. |
| Prober.TestProxyQuality | backend.py:168-357 | The returned report is `Expected` of the request outcomes, and the requests made are `Attempted`. |
| Scan.HostResult | backend.py:360-399 | A host yields a record exactly when its connect code is 0. The record carries the target and "open". It holds the proxy report, AI endpoints included, exactly when the quality check is on. |
| Scan.ScanPort | backend.py:360-399 | Scanning a host, with the proxy probe run as a method, yields the specified record. |
| Scan.Outcomes | backend.py:417-424 | One result per host, in host order. |
| Scan.FoundAreOpenHosts | backend.py:417-429 | A record is found exactly when it is the record of a scanned host whose connect code was 0. |
| Scan.SortIsSorted | backend.py:440-441 | The sorted results are in descending score order. |
| Scan.SortIsPermutation | backend.py:440-441 | The sorted results hold the same records, each as often. |
| Scan.SortIsStable | backend.py:440-441 | Records with equal scores keep their relative order. |
| Scan.SortKeepsSorted | backend.py:440-441 | Results already in descending order are left unchanged. |
| Scan.FinalOrder | backend.py:439-441 | The final list is a permutation of the results. It is sorted by descending score when the quality check is on, and untouched otherwise. |
| Tasks.ScanTask.constructor | backend.py:31-45 | A new task holds its parameters and creation time, and is not scanning, with zero counters, no results, no times and no error. |
| Tasks.ScanTask.Begin | backend.py:409-410 | A scan task is marked scanning with its start time. |
| Tasks.ScanTask.ScanHosts | backend.py:412-433 | `total` becomes the address count once the network parses. `scanned` grows by the hosts scanned and `progress` is their percentage of `total`. The results grow by the open ports in host order. A parse or pool error becomes its error. |
| Tasks.ScanTask.ConsumeResults | backend.py:417-429 | Each host's result, in order, adds one to `scanned`, sets the percentage and, when present, is appended. |
| Tasks.ScanTask.Finish | backend.py:435-441 | A scan task stops scanning and records its end time. Its results are sorted by score when the quality check is on. |
| Tasks.ScanTask.Run | backend.py:409-441 | A task's full run from any state: not scanning, both times set, the counters and error as above, and the results in final order. |
| Tasks.FreshProgress | backend.py:413-426 | After a fresh run that scanned hosts there is no error, and the percentage is at most 100. It is 100 exactly when the host count equals the address count. |
| Tasks.FreshResults | backend.py:417-441 | After a fresh run the results are a permutation of the open ports found, in host order without the quality check. Records of equal score always keep their host order. |
| Tasks.SlashTwentyFourEndsBelowFull | backend.py:413-426 | 254 hosts out of 256 addresses end at 99 %. |
| Registry.TaskRegistry.Survivors | backend.py:452-459 | The kept entries are exactly the tasks that are scanning or at most an hour old, each unchanged. |
| Registry.TaskRegistry.constructor | backend.py:23 | The registry starts empty. |
| Registry.TaskRegistry.Create | backend.py:469-525 | Defaults are applied first. An unparsable network is refused first, then a port outside 1–65535, each with the registry unchanged. Otherwise exactly one new pristine task with the given parameters is stored under the new id. |
| Registry.TaskRegistry.Get | backend.py:529-540 | A scan task is returned exactly when its id is stored, and its own id is that id. |
| Registry.TaskRegistry.Delete | backend.py:584-606 | An unknown id gives "not found" and a task still scanning is refused, each with the registry unchanged. Otherwise exactly that entry is removed. |
| Registry.TaskRegistry.Sweep | backend.py:444-459 | One sweep pass leaves exactly the entries that are scanning or at most an hour old. |
| Registry.TaskRegistry.Stats | backend.py:609-615 | The counts are the number of tasks, of scanning tasks, and of finished tasks. Active plus completed never exceeds the total. |
| Registry.TaskRegistry.Launch | backend.py:402-441 | An id not in the registry runs nothing. Otherwise that task, and no other, runs to completion: not scanning, with its start and end times; total is the address count when the network parses; scanned grows by the hosts consumed; progress is their percentage of the total; error is the exception text; results are the found ports in their final order. |
| WebScanner.ScanPort | scanner_web.py:32-49 | A record exactly when the connect code is 0, carrying the given ip and port and "open". |
| WebScanner.Outcomes | scanner_web.py:67-71 | One result per host, in host order. |
| WebScanner.FoundAreOpenHosts | scanner_web.py:67-79 | A record is in the results exactly when it is the record of a scanned host whose connect code was 0. |
| WebScanner.ScanStatus.constructor | scanner_web.py:20-29 | The initial global status: not scanning, zero counters, no results, no times. |
| WebScanner.ScanStatus.Begin | scanner_web.py:56-60 | A scan starts by marking the status scanning and resetting progress, scanned and results. `total` is untouched. |
| WebScanner.ScanStatus.ScanHosts | scanner_web.py:62-82 | `total` is overwritten only when the network parses. `scanned` counts the hosts scanned, and `progress` is their percentage of the address count. The results are the open ports in host order. |
| WebScanner.ScanStatus.ConsumeResults | scanner_web.py:67-79 | Each host adds exactly one to `scanned`. The results grow only by present results, in host order. |
| WebScanner.ScanStatus.Finish | scanner_web.py:84-86 | The status ends not scanning, with an end time. |
| WebScanner.ScanStatus.ScanNetworkThread | scanner_web.py:52-86 | After a scan, even one whose network does not parse, the status is not scanning and has both times. Its counters and results are those of the scanned hosts. |
| WebScanner.ScanStatus.StartScan | scanner_web.py:512-529 | A start while scanning is refused and changes nothing. Otherwise the requested scan runs, with defaults filled in: total is the address count, or the previous scan's total when the network does not parse; scanned is the host count; progress is their percentage, or 0 when nothing was scanned; results are the open ports in host order. |

## Left out

- Flask routes, JSON envelopes, CORS, the HTML page, the startup banners and `print` logging are not modelled. Neither are the `to_dict` method of a scan task and the routes that only serialise state: `get_all_tasks`, `get_task_results`, `get_status` and `health_check`.
- Sockets, `requests.get` and TLS are inputs. This covers connect codes, status codes, bodies, elapsed times, decoded JSON and exception kinds. The proxy URLs and request headers are not modelled.
- `ipaddress.ip_network` and `uuid4` are inputs. The parser gives a host list and an address count, with the count never below 1 or below the host count, or it gives an error message. Ids are parameters. `Registry.TaskRegistry.Create` overwrites an existing id, as a dict assignment would; uniqueness of the id is not modelled.
- Threads, `ThreadPoolExecutor`, the lock and the sweep's `while True: sleep(300)` are not modelled. Each operation is one sequential step, and the scan thread's statements run in order. Hosts are consumed in host order, as the futures are. Interleavings, including the web page's check-then-start race, are out of scope. `WebScanner.ScanStatus.StartScan` runs the started scan to completion within the call.
- Floating point is not modelled:
  - times are integer milliseconds, and `round(elapsed * 1000, 2)` is not modelled;
  - the percentage is the integer floor of scanned·100/total, while Python's `int(s / t * 100)` can be one less for some ratios (29/100 gives 28);
  - ages and timestamps are integer microseconds, and `strftime` formatting is left out (a found port's timestamp text is an input).
- Python's `str.lower()` is modelled on ASCII letters only. Unicode case mapping is not modelled.
- `Scan.ScanResult` keeps the proxy report as one field. The flat copies of its fields that `scan_port` adds to the record are not repeated.
- The key `exit_region` is added to the report only when the location is set. The model always has the field, as `None`.
- `successful_config` is assigned but never read, so it is not modelled. `best_time` and `response_time` are one integer field.
- An exception raised by `test_proxy_quality` inside `scan_port` would be swallowed, and the host would yield nothing. The modelled probe never raises.
- `start_scan` errors that come from malformed JSON are not modelled: a missing body, or a port or thread count that `int()` rejects. Request fields are given already typed.
