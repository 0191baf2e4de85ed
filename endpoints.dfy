/** Availability of the four AI services through a working proxy
    (backend.py, test_ai_model_availability). The HTTP request itself is an
    input: each endpoint's outcome is either a response (status code, body,
    elapsed milliseconds) or the kind of exception the request raised. */
module Endpoints {
  import opened Base
  import opened Text

  datatype Endpoint = ChatGpt | Claude | Gemini | Copilot

  /** The endpoints in the order they are requested. */
  const AllEndpoints: seq<Endpoint> := [ChatGpt, Claude, Gemini, Copilot]

  /** The keyword whose presence in the body marks the service as reached. */
  function CheckText(e: Endpoint): string
  {
    match e
    case ChatGpt => "openai"
    case Claude => "claude"
    case Gemini => "google"
    case Copilot => "microsoft"
  }

  /** Phrases of a region-block or proxy-detection page. */
  const BlockPhrases: seq<string> := [
    "not available in your country",
    "not available in your region",
    "service is not available",
    "access denied",
    "region restricted",
    "geographic restriction",
    "geoblocked",
    "vpn detected",
    "proxy detected"
  ]

  datatype HttpOutcome =
    | Response(status: int, body: string, elapsedMs: nat)
    | Timeout
    | ConnectionError
    | OtherError

  /** 'unknown', 'available', 'blocked', 'uncertain', 'timeout',
      'connection_error', 'http_<code>' and 'error'. */
  datatype EndpointStatus =
    | Unknown | Available | Blocked | Uncertain | TimedOut | ConnectionFailed
    | HttpStatus(code: int) | Failed

  datatype Availability = Availability(available: bool, status: EndpointStatus, responseTime: Option<nat>)

  /** The entry every endpoint starts from. */
  const Initial := Availability(false, Unknown, None)

  /** Redirect and success codes whose body is inspected. */
  predicate Inspected(status: int) { status in {200, 301, 302} }

  /** Some phrase of `phrases` occurs in `body`. */
  function AnyPhrase(body: string, phrases: seq<string>): (r: bool)
    ensures r <==> exists p :: p in phrases && Contains(body, p)
    decreases |phrases|
  {
    if phrases == [] then false
    else
      var rest := AnyPhrase(body, phrases[1..]);
      assert forall p :: p in phrases[1..] ==> p in phrases;
      assert forall p :: p in phrases && p != phrases[0] ==> p in phrases[1..];
      assert Contains(body, phrases[0]) ==> phrases[0] in phrases && Contains(body, phrases[0]);
      Contains(body, phrases[0]) || rest
  }

  /** The (lower-cased) body carries a region-block phrase. */
  function HasBlockPhrase(body: string): (r: bool)
    ensures r <==> exists p :: p in BlockPhrases && Contains(body, p)
  {
    AnyPhrase(body, BlockPhrases)
  }

  /** The entry recorded for endpoint `e` after its request ended in `o`. */
  function Classify(e: Endpoint, o: HttpOutcome): (a: Availability)
    ensures a.status != Unknown
    ensures a.available <==> a.status == Available
    ensures a.available ==> o.Response? && a.responseTime == Some(o.elapsedMs)
    ensures !a.available ==> a.responseTime == None
    ensures a.available <==>
      o.Response? && Inspected(o.status) && !HasBlockPhrase(Lower(o.body))
      && (Contains(Lower(o.body), CheckText(e)) || o.status == 200)
    ensures a.status == Blocked <==>
      o.Response? && (o.status == 403 || (Inspected(o.status) && HasBlockPhrase(Lower(o.body))))
    ensures a.status.HttpStatus? <==> o.Response? && !Inspected(o.status) && o.status != 403
    ensures a.status.HttpStatus? ==> a.status.code == o.status
    ensures a.status == TimedOut <==> o.Timeout?
    ensures a.status == ConnectionFailed <==> o.ConnectionError?
    ensures a.status == Failed <==> o.OtherError?
  {
    match o
    case Response(status, body, elapsed) =>
      if Inspected(status) then
        var lower := Lower(body);
        if HasBlockPhrase(lower) then Initial.(status := Blocked)
        else if Contains(lower, CheckText(e)) || status == 200 then
          Initial.(available := true, status := Available, responseTime := Some(elapsed))
        else Initial.(status := Uncertain)
      else if status == 403 then Initial.(status := Blocked)
      else Initial.(status := HttpStatus(status))
    case Timeout => Initial.(status := TimedOut)
    case ConnectionError => Initial.(status := ConnectionFailed)
    case OtherError => Initial.(status := Failed)
  }

  /** The body is inspected case-insensitively: the letter case of a
      response body never changes its endpoint's entry. */
  lemma ClassifyIgnoresCase(e: Endpoint, status: int, body: string, elapsed: nat)
    ensures Classify(e, Response(status, body, elapsed)) == Classify(e, Response(status, Lower(body), elapsed))
  {
    LowerIdempotent(body);
  }

  /** A block phrase anywhere in a 200/301/302 body marks the endpoint
      blocked, whatever its keyword and status. */
  lemma BlockPhraseWins(e: Endpoint, status: int, body: string, elapsed: nat, p: string, i: int)
    requires Inspected(status) && p in BlockPhrases && OccursAt(Lower(body), p, i)
    ensures Classify(e, Response(status, body, elapsed)) == Availability(false, Blocked, None)
  {
  }

  /** The report keyed by endpoint, each entry decided by its own outcome. */
  function Report(outcome: Endpoint -> HttpOutcome): map<Endpoint, Availability>
  {
    map e | e in AllEndpoints :: Classify(e, outcome(e))
  }

  /** Requests every endpoint in turn and records its entry; one endpoint's
      failure never affects another's entry. */
  method CheckAiModels(outcome: Endpoint -> HttpOutcome) returns (report: map<Endpoint, Availability>)
    ensures report.Keys == set e | e in AllEndpoints
    ensures forall e :: e in report ==> report[e] == Classify(e, outcome(e))
    ensures report == Report(outcome)
  {
    report := map[ChatGpt := Initial, Claude := Initial, Gemini := Initial, Copilot := Initial];
    var i := 0;
    while i < |AllEndpoints|
      invariant 0 <= i <= |AllEndpoints|
      invariant report.Keys == set e | e in AllEndpoints
      invariant forall j :: 0 <= j < i ==> report[AllEndpoints[j]] == Classify(AllEndpoints[j], outcome(AllEndpoints[j]))
      invariant forall j :: i <= j < |AllEndpoints| ==> report[AllEndpoints[j]] == Initial
    {
      var e := AllEndpoints[i];
      report := report[e := Classify(e, outcome(e))];
      i := i + 1;
    }
    assert forall e :: e in report ==> exists j :: 0 <= j < |AllEndpoints| && AllEndpoints[j] == e;
  }

  /** Number of endpoints the report marks available: the size of the set
      of available endpoints. */
  function AvailableCount(report: map<Endpoint, Availability>): (n: nat)
    ensures n <= |AllEndpoints|
    ensures n > 0 <==> exists e :: e in AllEndpoints && e in report && report[e].available
    ensures n == |AvailableIn(report, AllEndpoints)|
  {
    CountIsCardinality(report, AllEndpoints);
    CountAvailable(report, AllEndpoints)
  }

  /** The endpoints of `es` that the report marks available. */
  function AvailableIn(report: map<Endpoint, Availability>, es: seq<Endpoint>): set<Endpoint>
  {
    set e | e in es && e in report && report[e].available
  }

  predicate Distinct(es: seq<Endpoint>)
  {
    forall i, j :: 0 <= i < j < |es| ==> es[i] != es[j]
  }

  function CountAvailable(report: map<Endpoint, Availability>, es: seq<Endpoint>): (n: nat)
    ensures n <= |es|
    ensures n > 0 <==> exists e :: e in es && e in report && report[e].available
    decreases |es|
  {
    if es == [] then 0
    else
      var rest := CountAvailable(report, es[1..]);
      assert es == [es[0]] + es[1..];
      (if es[0] in report && report[es[0]].available then 1 else 0) + rest
  }

  /** Over endpoints listed once each, the count is the number of
      available endpoints. */
  lemma {:induction false} CountIsCardinality(report: map<Endpoint, Availability>, es: seq<Endpoint>)
    requires Distinct(es)
    ensures CountAvailable(report, es) == |AvailableIn(report, es)|
    decreases |es|
  {
    if es != [] {
      var tail := es[1..];
      DistinctTail(es);
      CountIsCardinality(report, tail);
      AvailableInCons(report, es);
    }
  }

  lemma DistinctTail(es: seq<Endpoint>)
    requires Distinct(es) && es != []
    ensures Distinct(es[1..]) && es[0] !in es[1..]
  {
    var tail := es[1..];
    forall i, j | 0 <= i < j < |tail| ensures tail[i] != tail[j] {
      assert tail[i] == es[i + 1] && tail[j] == es[j + 1];
    }
    forall k | 0 <= k < |tail| ensures tail[k] != es[0] {
      assert tail[k] == es[k + 1];
    }
  }

  /** The available endpoints of a list: its head, when available and not
      listed again, added to those of its tail. */
  lemma AvailableInCons(report: map<Endpoint, Availability>, es: seq<Endpoint>)
    requires es != [] && es[0] !in es[1..]
    ensures var here: set<Endpoint> := if es[0] in report && report[es[0]].available then {es[0]} else {};
      && AvailableIn(report, es) == here + AvailableIn(report, es[1..])
      && |AvailableIn(report, es)| == |here| + |AvailableIn(report, es[1..])|
  {
    assert es == [es[0]] + es[1..];
  }
}
