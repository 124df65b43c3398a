/**
 * The REST client that JobRunner (trigger_jobs.py) and GuardrailsDeployer
 * (launch_guardrails.py) both carry: base URL, bearer header, the
 * classification of a reply, and the poll budget their waiting loops get.
 */
module CmlApi {
  import opened Wrappers
  import opened JsonValue
  import opened PyText

  /** What a client keeps after construction: the API base URL and the Authorization header. */
  datatype Client = Client(apiUrl: string, authorization: string)

  /** The constructor: `host.rstrip('/') + "/api/v2"` and `"Bearer " + key.strip()`. */
  function Connect(host: string, apiKey: string): (c: Client)
    ensures var base := RStrip(host, IsSlash);
      && c.apiUrl == base + "/api/v2"
      && host[..|base|] == base && (forall i :: |base| <= i < |host| ==> host[i] == '/')
      && (base == [] || base[|base| - 1] != '/')
    ensures c.authorization == "Bearer " + Strip(apiKey)
  {
    Client(RStrip(host, IsSlash) + "/api/v2", "Bearer " + Strip(apiKey))
  }

  /** The URL `make_request` sends to: `api_url + "/" + endpoint.lstrip('/')`. */
  function RequestUrl(c: Client, endpoint: string): string {
    c.apiUrl + "/" + LStrip(endpoint, IsSlash)
  }

  /** The URL is the host without its trailing slashes, "/api/v2/", and the endpoint
      without its leading slashes; exactly one slash joins each pair. */
  lemma RequestUrlLayout(host: string, apiKey: string, endpoint: string)
    ensures RequestUrl(Connect(host, apiKey), endpoint)
         == RStrip(host, IsSlash) + "/api/v2/" + LStrip(endpoint, IsSlash)
    ensures var base := RStrip(host, IsSlash);
            host == base + Slashes(|host| - |base|) && (base == [] || base[|base| - 1] != '/')
    ensures var path := LStrip(endpoint, IsSlash);
            endpoint == Slashes(|endpoint| - |path|) + path && (path == [] || path[0] != '/')
  {
    var base := RStrip(host, IsSlash);
    var path := LStrip(endpoint, IsSlash);
    assert Connect(host, apiKey).apiUrl == base + "/api/v2";
    JoinApiPath(base, path);
    HostLayout(host);
    EndpointLayout(endpoint);
  }

  /** One slash joins the API root and the path. */
  lemma JoinApiPath(base: string, path: string)
    ensures base + "/api/v2" + "/" + path == base + "/api/v2/" + path
  {
    assert "/api/v2" + "/" == "/api/v2/";
  }

  lemma HostLayout(host: string)
    ensures var base := RStrip(host, IsSlash);
            host == base + Slashes(|host| - |base|)
  {
    var base := RStrip(host, IsSlash);
    var tail := host[|base|..];
    assert forall i :: 0 <= i < |tail| ==> tail[i] == host[|base| + i];
    assert tail == Slashes(|host| - |base|);
    assert host == base + tail;
  }

  lemma EndpointLayout(endpoint: string)
    ensures var path := LStrip(endpoint, IsSlash);
            endpoint == Slashes(|endpoint| - |path|) + path
  {
    var path := LStrip(endpoint, IsSlash);
    var n := |endpoint| - |path|;
    var head := endpoint[..n];
    assert forall i :: 0 <= i < n ==> head[i] == endpoint[i];
    assert head == Slashes(n);
    assert endpoint == head + path;
  }

  /** Extra slashes at the end of the host or the start of the endpoint do not change the URL. */
  lemma SlashesIgnored(host: string, apiKey: string, endpoint: string, j: nat, k: nat)
    ensures RequestUrl(Connect(host + Slashes(j), apiKey), Slashes(k) + endpoint)
         == RequestUrl(Connect(host, apiKey), endpoint)
  {
    RStripPadding(host, j);
    LStripPadding(endpoint, k);
  }

  /** The header carries the key verbatim when it has no surrounding white space. */
  lemma BearerHeader(host: string, apiKey: string)
    requires apiKey != [] && !IsSpace(apiKey[0]) && !IsSpace(apiKey[|apiKey| - 1])
    ensures Connect(host, apiKey).authorization == "Bearer " + apiKey
  {
    StripUnpadded(apiKey);
  }

  /** The parsed body of a 2xx reply: a JSON object, or text that is not JSON. */
  datatype Body = NotJson | Object(fields: Fields)

  /** One call to `requests.request`: it raised, or a status, the text and its parse. */
  datatype Reply = Raised | Answered(status: int, text: string, body: Body)

  /** `make_request`: `None` for a raised call or a non-2xx status; otherwise the
      parsed object, and `{}` for an empty or unparseable body. */
  function MakeRequest(reply: Reply): (r: Option<Fields>)
    ensures r.Some? <==> reply.Answered? && 200 <= reply.status < 300
    ensures r.Some? && (reply.text == [] || reply.body.NotJson?) ==> r == Some(map[])
    ensures r.Some? && reply.text != [] && reply.body.Object? ==> r == Some(reply.body.fields)
  {
    match reply
    case Raised => None
    case Answered(status, text, body) =>
      if 200 <= status < 300 then
        if text != [] then
          match body
          case Object(f) => Some(f)
          case NotJson => Some(map[])
        else Some(map[])
      else None
  }

  /** `if result:` on what `make_request` returned: `None` and `{}` are both false. */
  predicate Usable(r: Option<Fields>) {
    r.Some? && r.value != map[]
  }

  /** Callers treat an empty 2xx body exactly like a failed request. */
  lemma UsableReply(reply: Reply)
    ensures Usable(MakeRequest(reply)) <==>
      && reply.Answered? && 200 <= reply.status < 300 && reply.text != []
      && reply.body.Object? && reply.body.fields != map[]
  {
  }

  /** A request the client sent, kept so that the order and number of calls can be stated. */
  datatype Request = Request(verb: string, url: string, payload: Option<Fields>)

  function GetRequest(c: Client, endpoint: string): Request {
    Request("GET", RequestUrl(c, endpoint), None)
  }

  function PostRequest(c: Client, endpoint: string, payload: Option<Fields>): Request {
    Request("POST", RequestUrl(c, endpoint), payload)
  }

  /** The same request `n` times. */
  function Repeat(r: Request, n: nat): (rs: seq<Request>)
    ensures |rs| == n && forall i :: 0 <= i < n ==> rs[i] == r
  {
    seq(n, _ => r)
  }

  /** How many requests of the log use the given verb. */
  function CountVerb(log: seq<Request>, verb: string): (n: nat)
    ensures n <= |log|
  {
    if log == [] then 0
    else CountVerb(log[..|log| - 1], verb) + (if log[|log| - 1].verb == verb then 1 else 0)
  }

  lemma {:induction false} CountVerbAppend(a: seq<Request>, b: seq<Request>, verb: string)
    ensures CountVerb(a + b, verb) == CountVerb(a, verb) + CountVerb(b, verb)
    decreases |b|
  {
    if b == [] {
      assert a + b == a;
    } else {
      assert (a + b)[..|a + b| - 1] == a + b[..|b| - 1];
      CountVerbAppend(a, b[..|b| - 1], verb);
    }
  }

  lemma {:induction false} CountVerbRepeat(r: Request, n: nat, verb: string)
    ensures CountVerb(Repeat(r, n), verb) == (if r.verb == verb then n else 0)
  {
    if n > 0 {
      assert Repeat(r, n)[..n - 1] == Repeat(r, n - 1);
      CountVerbRepeat(r, n - 1, verb);
    }
  }

  /** Both waiting loops sleep 10 seconds between polls. */
  const PollInterval: nat := 10

  /** How many polls `while time.time() - start < timeout` makes when requests take no
      time and each sleep lasts exactly `PollInterval`: the polls start at 0, 10, 20, ...
      seconds, and each one that starts before the deadline happens. */
  function PollBudget(timeout: int): (n: nat)
    ensures timeout <= PollInterval * n
    ensures n == 0 || PollInterval * (n - 1) < timeout
  {
    if timeout <= 0 then 0 else (timeout + PollInterval - 1) / PollInterval
  }

  /** What poll number `i` observed; polls past the end of the sequence failed. */
  function Observe(polls: seq<Reply>, i: nat): Option<Fields> {
    if i < |polls| then MakeRequest(polls[i]) else None
  }

  /** `result.get("status", "unknown")` */
  function StatusOf(result: Fields): Json {
    Get(result, "status", JStr("unknown"))
  }

  /** What one poll means to a waiting loop: stop with success, stop with failure, or go on. */
  datatype Verdict = Pass | Fail | Pending

  /** How a waiting loop ended: its verdict and how many polls it made. */
  datatype Waited = Waited(succeeded: bool, polled: nat)

  /** The waiting loop from poll `i` on: the first poll that `judge` calls terminal decides,
      and running out of the budget is a failure. */
  function PollOutcome(polls: seq<Reply>, judge: Option<Fields> -> Verdict, i: nat, budget: nat): (w: Waited)
    requires i <= budget
    ensures i <= w.polled <= budget
    ensures w.succeeded ==> w.polled > i && judge(Observe(polls, w.polled - 1)) == Pass
    decreases budget - i
  {
    if i == budget then Waited(false, budget)
    else match judge(Observe(polls, i))
      case Pass => Waited(true, i + 1)
      case Fail => Waited(false, i + 1)
      case Pending => PollOutcome(polls, judge, i + 1, budget)
  }

  /** When every poll in the budget is pending, the loop fails after polling `budget` times. */
  lemma {:induction false} PollOutcomeAllPending(polls: seq<Reply>, judge: Option<Fields> -> Verdict, i: nat, budget: nat)
    requires i <= budget
    requires forall j :: i <= j < budget ==> judge(Observe(polls, j)) == Pending
    ensures PollOutcome(polls, judge, i, budget) == Waited(false, budget)
    decreases budget - i
  {
    if i < budget {
      PollOutcomeAllPending(polls, judge, i + 1, budget);
    }
  }

  /** The loop stops at the first terminal poll `k`, with that poll's verdict. */
  lemma {:induction false} PollOutcomeFirstTerminal(polls: seq<Reply>, judge: Option<Fields> -> Verdict,
                                                    i: nat, k: nat, budget: nat)
    requires i <= k < budget
    requires judge(Observe(polls, k)) != Pending
    requires forall j :: i <= j < k ==> judge(Observe(polls, j)) == Pending
    ensures PollOutcome(polls, judge, i, budget) == Waited(judge(Observe(polls, k)) == Pass, k + 1)
    decreases k - i
  {
    if i < k {
      PollOutcomeFirstTerminal(polls, judge, i + 1, k, budget);
    }
  }

  /** A wait succeeds iff some poll within the budget passes and every poll before it is
      pending. */
  lemma PollSucceedsIff(polls: seq<Reply>, judge: Option<Fields> -> Verdict, budget: nat)
    ensures PollOutcome(polls, judge, 0, budget).succeeded <==>
      exists k :: 0 <= k < budget && judge(Observe(polls, k)) == Pass
                  && forall j :: 0 <= j < k ==> judge(Observe(polls, j)) == Pending
  {
    var w := PollOutcome(polls, judge, 0, budget);
    if w.succeeded {
      var k := w.polled - 1;
      if !forall j :: 0 <= j < k ==> judge(Observe(polls, j)) == Pending {
        var j :| 0 <= j < k && judge(Observe(polls, j)) != Pending;
        FirstNonPending(polls, judge, j);
        var first :| 0 <= first <= j && judge(Observe(polls, first)) != Pending
                     && forall m :: 0 <= m < first ==> judge(Observe(polls, m)) == Pending;
        PollOutcomeFirstTerminal(polls, judge, 0, first, budget);
        assert false;
      }
    }
    if exists k :: 0 <= k < budget && judge(Observe(polls, k)) == Pass
                   && forall j :: 0 <= j < k ==> judge(Observe(polls, j)) == Pending {
      var k :| 0 <= k < budget && judge(Observe(polls, k)) == Pass
               && forall j :: 0 <= j < k ==> judge(Observe(polls, j)) == Pending;
      PollOutcomeFirstTerminal(polls, judge, 0, k, budget);
    }
  }

  /** Below any non-pending poll there is a first one. */
  lemma {:induction false} FirstNonPending(polls: seq<Reply>, judge: Option<Fields> -> Verdict, j: nat)
    requires judge(Observe(polls, j)) != Pending
    ensures exists k :: 0 <= k <= j && judge(Observe(polls, k)) != Pending
                        && forall m :: 0 <= m < k ==> judge(Observe(polls, m)) == Pending
  {
    if !forall m :: 0 <= m < j ==> judge(Observe(polls, m)) == Pending {
      var m :| 0 <= m < j && judge(Observe(polls, m)) != Pending;
      FirstNonPending(polls, judge, m);
    }
  }
}
