/** The bounded redirect loop of the field HTTP observation. */
module RedirectLoop {
  import opened Basics

  type Headers = map<string, string>

  datatype Response = Response(status: int, headers: Headers, content: seq<bv8>)

  /** What `urlsplit` reports; `Err` is its ValueError. */
  datatype Parts = Parts(scheme: string, host: Option<string>, port: Option<nat>)

  datatype Origin = Origin(scheme: string, host: Option<string>, port: nat)

  datatype Fault = Transport | BadUrl

  /** The world outside the loop: the proxy's answer to the n-th request, and the URL library. */
  datatype Web = Web(respond: (nat, string) -> Result<Response, Fault>,
                     join: (string, string) -> Result<string, Fault>,
                     split: string -> Result<Parts, Fault>,
                     boundaryHeader: string -> bool)

  datatype Request = Request(target: string, followRedirects: bool, maxRedirects: nat, maxBody: nat)

  datatype Redirect = Redirect(target: string, sameOrigin: bool, followed: bool, reason: Option<string>)

  datatype Hop = Hop(target: string, status: int, headers: Headers, captured: seq<bv8>)

  datatype Receipt = Receipt(status: int, finalUrl: string, headers: Headers, body: seq<bv8>, bodyTruncated: bool,
                             redirects: seq<Redirect>, requestId: string, chain: seq<Hop>)

  // ----- one response

  /** A missing header and an empty one are both falsy. */
  function Header(headers: Headers, name: string): string {
    if name in headers then headers[name] else ""
  }

  function Take(content: seq<bv8>, n: nat): seq<bv8> {
    if |content| <= n then content else content[..n]
  }

  /** An absent port and port 0 both give the scheme's default. */
  function OriginOf(web: Web, url: string): Result<Origin, Fault> {
    match web.split(url)
    case Err(e) => Err(e)
    case Ok(p) =>
      Ok(Origin(p.scheme, p.host,
                if p.port.Some? && p.port.value != 0 then p.port.value else if p.scheme == "https" then 443 else 80))
  }

  const BLOCKED := "X-ASTP-Redirect-Target"
  const PROVENANCE := "X-ASTP-Response-Provenance"

  /** Where the answer points, when it points anywhere: the proxy's blocked target wins over `Location`. */
  function Destination(answer: Response): Option<string> {
    var blocked := Header(answer.headers, BLOCKED);
    var location := if blocked != "" then blocked else Header(answer.headers, "Location");
    if location == "" || !(300 <= answer.status < 400 || blocked != "") then None else Some(location)
  }

  datatype Next = Finished | Raised(fault: Fault) | Stopped(entry: Redirect) | Follow(entry: Redirect)

  /** What the `k`-th answer, received from `url`, makes the loop do. */
  function After(web: Web, r: Request, k: nat, url: string): Next {
    match web.respond(k, url)
    case Err(e) => Raised(e)
    case Ok(answer) =>
      match Destination(answer)
      case None => Finished
      case Some(location) =>
        match web.join(url, location)
        case Err(e) => Raised(e)
        case Ok(target) =>
          var there, home := OriginOf(web, target), OriginOf(web, r.target);
          if there.Err? then Raised(there.error)
          else if home.Err? then Raised(home.error)
          else
            var same := there.value == home.value;
            if r.followRedirects && same && k < r.maxRedirects && Header(answer.headers, BLOCKED) == "" then
              Follow(Redirect(target, same, true, None))
            else
              Stopped(Redirect(target, same, false, Some(if !same then "out_of_scope" else "bounded")))
  }

  // ----- whole runs

  /** `sent` is the requests of a complete run: it starts at the target, each answer but the last leads to the
      next request, and the last answer leads nowhere. */
  ghost predicate IsRun(web: Web, r: Request, sent: seq<string>) {
    && sent != [] && sent[0] == r.target
    && (forall k :: 0 <= k < |sent| - 1 ==> Leads(web, r, k, sent[k], sent[k + 1]))
    && !After(web, r, |sent| - 1, sent[|sent| - 1]).Follow?
  }

  ghost predicate Leads(web: Web, r: Request, k: nat, url: string, next: string) {
    After(web, r, k, url).Follow? && After(web, r, k, url).entry.target == next
  }

  /** The redirect entries of the first `n` answers. */
  function Entries(web: Web, r: Request, sent: seq<string>): seq<Redirect> {
    if sent == [] then []
    else
      var last := |sent| - 1;
      var next := After(web, r, last, sent[last]);
      Entries(web, r, sent[..last]) + if next.Follow? || next.Stopped? then [next.entry] else []
  }

  /** The answers that came from the target itself, in order, without the proxy's own headers. */
  function Hops(web: Web, r: Request, sent: seq<string>): seq<Hop> {
    if sent == [] then []
    else
      var last := |sent| - 1;
      Hops(web, r, sent[..last]) + HopOf(web, r, last, sent[last])
  }

  function HopOf(web: Web, r: Request, k: nat, url: string): seq<Hop> {
    match web.respond(k, url)
    case Err(_) => []
    case Ok(answer) =>
      if Header(answer.headers, PROVENANCE) != "target" then []
      else [Hop(url, answer.status, TargetHeaders(web, answer.headers), Take(answer.content, r.maxBody))]
  }

  function TargetHeaders(web: Web, headers: Headers): Headers {
    map name | name in headers && !web.boundaryHeader(name) :: headers[name]
  }

  /** Every request goes to the original origin, and there are at most `maxRedirects + 1` of them. */
  lemma RequestsStayHome(web: Web, r: Request, sent: seq<string>)
    requires IsRun(web, r, sent)
    ensures |sent| <= r.maxRedirects + 1
    ensures !r.followRedirects ==> sent == [r.target]
    ensures forall k :: 0 < k < |sent| ==>
              OriginOf(web, r.target).Ok? && OriginOf(web, sent[k]) == OriginOf(web, r.target)
  {
    if |sent| > 1 {
      assert Leads(web, r, |sent| - 2, sent[|sent| - 2], sent[|sent| - 1]);
    }
    forall k | 0 < k < |sent|
      ensures OriginOf(web, r.target).Ok? && OriginOf(web, sent[k]) == OriginOf(web, r.target)
    {
      assert Leads(web, r, k - 1, sent[k - 1], sent[k]);
    }
  }

  /** The answers alone decide the run. */
  lemma {:induction false} RunIsUnique(web: Web, r: Request, a: seq<string>, b: seq<string>)
    requires IsRun(web, r, a) && IsRun(web, r, b)
    ensures a == b
  {
    RunsAgree(web, r, a, b, if |a| <= |b| then |a| else |b|);
    LastAnswerEndsTheRun(web, r, b, |a|);
    LastAnswerEndsTheRun(web, r, a, |b|);
  }

  lemma LastAnswerEndsTheRun(web: Web, r: Request, sent: seq<string>, n: nat)
    requires IsRun(web, r, sent) && 0 < n
    ensures n < |sent| <==> n <= |sent| && After(web, r, n - 1, sent[n - 1]).Follow?
  {
    assert n < |sent| ==> Leads(web, r, n - 1, sent[n - 1], sent[n]);
  }

  lemma {:induction false} RunsAgree(web: Web, r: Request, a: seq<string>, b: seq<string>, n: nat)
    requires IsRun(web, r, a) && IsRun(web, r, b) && n <= |a| && n <= |b|
    ensures a[..n] == b[..n]
  {
    if n > 1 {
      RunsAgree(web, r, a, b, n - 1);
      assert a[..n - 1][n - 2] == b[..n - 1][n - 2];
      assert Leads(web, r, n - 2, a[n - 2], a[n - 1]) && Leads(web, r, n - 2, b[n - 2], b[n - 1]);
      assert a[..n] == a[..n - 1] + [a[n - 1]] && b[..n] == b[..n - 1] + [b[n - 1]];
    }
  }

  /** Entry k reports where answer k points. Every entry but a last stopped one was followed, and the next
      request is its target. */
  lemma {:induction false} EntriesTellTheRun(web: Web, r: Request, sent: seq<string>, n: nat)
    requires IsRun(web, r, sent) && n < |sent|
    ensures |Entries(web, r, sent[..n])| == n
    ensures forall k :: 0 <= k < n ==>
              var e := Entries(web, r, sent[..n])[k];
              e.followed && e.sameOrigin && e.reason == None && e.target == sent[k + 1]
  {
    if n > 0 {
      EntriesTellTheRun(web, r, sent, n - 1);
      assert sent[..n][..n - 1] == sent[..n - 1];
      assert Leads(web, r, n - 1, sent[n - 1], sent[n]);
    }
  }

  lemma LastEntry(web: Web, r: Request, sent: seq<string>)
    requires IsRun(web, r, sent)
    ensures var entries := Entries(web, r, sent);
            && |sent| - 1 <= |entries| <= |sent|
            && (forall k :: 0 <= k < |sent| - 1 ==> entries[k].followed && entries[k].target == sent[k + 1])
            && (|entries| == |sent| ==>
                  && !entries[|sent| - 1].followed
                  && (entries[|sent| - 1].sameOrigin <==> entries[|sent| - 1].reason == Some("bounded")))
  {
    var last := |sent| - 1;
    EntriesTellTheRun(web, r, sent, last);
  }

  /** A hop was answered by the target, to a request of this run. */
  lemma {:induction false} HopsAreTargetAnswers(web: Web, r: Request, sent: seq<string>, h: Hop)
    requires h in Hops(web, r, sent)
    ensures exists k :: 0 <= k < |sent| && sent[k] == h.target && h in HopOf(web, r, k, sent[k])
    ensures |h.captured| <= r.maxBody && forall name :: name in h.headers ==> !web.boundaryHeader(name)
  {
    var last := |sent| - 1;
    if h in HopOf(web, r, last, sent[last]) {
      assert sent[last] == h.target;
    } else {
      HopsAreTargetAnswers(web, r, sent[..last], h);
      var k :| 0 <= k < last && sent[..last][k] == h.target && h in HopOf(web, r, k, sent[..last][k]);
      assert sent[k] == h.target && h in HopOf(web, r, k, sent[k]);
    }
  }

  // ----- the loop

  /** The decision at the end of one pass. */
  method Decide(web: Web, r: Request, index: nat, current: string, answer: Response) returns (next: Next)
    requires web.respond(index, current) == Ok(answer)
    ensures next == After(web, r, index, current)
  {
    var blocked := Header(answer.headers, BLOCKED);
    var location := if blocked != "" then blocked else Header(answer.headers, "Location");
    if location == "" || !(300 <= answer.status < 400 || blocked != "") {
      return Finished;
    }
    var target := web.join(current, location);
    if target.Err? {
      return Raised(target.error);
    }
    var there, home := OriginOf(web, target.value), OriginOf(web, r.target);
    if there.Err? {
      return Raised(there.error);
    }
    if home.Err? {
      return Raised(home.error);
    }
    var same := there.value == home.value;
    var followed := r.followRedirects && same && index < r.maxRedirects && blocked == "";
    var reason := if followed then None else if !same then Some("out_of_scope") else Some("bounded");
    var entry := Redirect(target.value, same, followed, reason);
    next := if followed then Follow(entry) else Stopped(entry);
  }

  /** The receipt reports the last answer, and every entry and hop of the run. */
  ghost predicate Reports(web: Web, r: Request, sent: seq<string>, receipt: Receipt)
    requires sent != []
  {
    var last := |sent| - 1;
    var answer := web.respond(last, sent[last]);
    && answer.Ok?
    && receipt.finalUrl == sent[last]
    && receipt.status == answer.value.status && receipt.headers == answer.value.headers
    && receipt.body <= answer.value.content && |receipt.body| <= r.maxBody
    && (receipt.bodyTruncated <==> receipt.body != answer.value.content)
    && (receipt.bodyTruncated ==> |receipt.body| == r.maxBody)
    && receipt.requestId == Header(answer.value.headers, "X-ASTP-Request-ID")
    && receipt.redirects == Entries(web, r, sent)
    && receipt.chain == Hops(web, r, sent)
  }

  /** The requests so far lead to `current`. */
  ghost predicate Heading(web: Web, r: Request, sent: seq<string>, current: string) {
    && (if sent == [] then current == r.target else sent[0] == r.target)
    && (forall k :: 0 <= k < |sent| - 1 ==> Leads(web, r, k, sent[k], sent[k + 1]))
    && (sent != [] ==> Leads(web, r, |sent| - 1, sent[|sent| - 1], current))
  }

  lemma OneMoreRequest(web: Web, r: Request, sent: seq<string>, current: string)
    requires Heading(web, r, sent, current)
    ensures var next := After(web, r, |sent|, current);
            && (if next.Follow? then Heading(web, r, sent + [current], next.entry.target)
                else IsRun(web, r, sent + [current]))
            && Hops(web, r, sent + [current]) == Hops(web, r, sent) + HopOf(web, r, |sent|, current)
            && Entries(web, r, sent + [current])
            == Entries(web, r, sent) + if next.Follow? || next.Stopped? then [next.entry] else []
  {
    assert (sent + [current])[..|sent|] == sent;
  }

  /** A complete run, and either its receipt or the fault that cut it. */
  method Observe(web: Web, r: Request) returns (outcome: Result<Receipt, Fault>, sent: seq<string>)
    ensures IsRun(web, r, sent)
    ensures match After(web, r, |sent| - 1, sent[|sent| - 1])
            case Raised(fault) => outcome == Err(fault)
            case _ => outcome.Ok? && Reports(web, r, sent, outcome.value)
  {
    var current := r.target;
    var redirects, chain := [], [];
    sent := [];
    for index := 0 to r.maxRedirects + 1
      invariant index <= r.maxRedirects && |sent| == index && Heading(web, r, sent, current)
      invariant redirects == Entries(web, r, sent) && chain == Hops(web, r, sent)
    {
      OneMoreRequest(web, r, sent, current);
      sent := sent + [current];
      var answer := web.respond(index, current);
      if answer.Err? {
        return Err(answer.error), sent;
      }
      var body := Take(answer.value.content, r.maxBody + 1);
      assert Take(body, r.maxBody) == Take(answer.value.content, r.maxBody);
      var headers := answer.value.headers;
      if Header(headers, PROVENANCE) == "target" {
        chain := chain + [Hop(current, answer.value.status, TargetHeaders(web, headers), Take(body, r.maxBody))];
      }
      var next := Decide(web, r, index, current, answer.value);
      if next.Raised? {
        return Err(next.fault), sent;
      }
      if next != Finished {
        redirects := redirects + [next.entry];
      }
      if !next.Follow? {
        var receipt := Receipt(answer.value.status, current, headers, Take(body, r.maxBody), |body| > r.maxBody,
                               redirects, Header(headers, "X-ASTP-Request-ID"), chain);
        return Ok(receipt), sent;
      }
      current := next.entry.target;
    }
  }
}
