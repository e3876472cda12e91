/** The REST client's own logic: the backend host it talks to and how it is
    discovered, how every request's URL and Authorization header are
    rewritten, which failures are retried and how often, and what the SOS
    request carries. */
module Api {
  import opened Wrappers
  import opened Strings
  import opened Seqs
  import opened Payloads

  const DefaultHost: string := "http://localhost:8080"
  const MaxRetries: nat := 3

  // ---------------------------------------------------------------------
  // Backend host
  // ---------------------------------------------------------------------

  /** `(raw || 'http://localhost:8080').replace(/\/api$/, '')` */
  function NormalizeHost(raw: Option<string>): string {
    var s := OrElse(raw, DefaultHost);
    if EndsWith(s, "/api") then s[..|s| - 4] else s
  }

  /** An empty or missing host becomes the local default; one trailing
      `/api`, and only one, is removed; a host without it is kept. */
  lemma NormalizeHostSpec(h: string)
    ensures NormalizeHost(None) == DefaultHost && NormalizeHost(Some("")) == DefaultHost
    ensures NormalizeHost(Some(h + "/api")) == h
    ensures NormalizeHost(Some(h + "/api/api")) == h + "/api"
    ensures h != "" && !EndsWith(h, "/api") ==> NormalizeHost(Some(h)) == h
  {
    assert (h + "/api")[|h + "/api"| - 4..] == "/api";
    assert (h + "/api")[..|h + "/api"| - 4] == h;
    assert h + "/api/api" == (h + "/api") + "/api";
    assert ((h + "/api") + "/api")[|h + "/api/api"| - 4..] == "/api";
    assert ((h + "/api") + "/api")[..|h + "/api/api"| - 4] == h + "/api";
    assert DefaultHost[|DefaultHost| - 4..] != "/api";
  }

  /** The host the client's requests go to (`currentBaseHost`). */
  class ApiClient {
    var baseHost: string

    /** Module load: the configured `API_BASE`, normalised. */
    constructor (apiBase: Option<string>)
      ensures baseHost == NormalizeHost(apiBase)
    {
      baseHost := NormalizeHost(apiBase);
    }

    /** `setApiBase` stores the normalised host. */
    method SetApiBase(base: string)
      modifies this
      ensures baseHost == NormalizeHost(Some(base))
    {
      baseHost := NormalizeHost(Some(base));
    }

    /** `discoverBackend`: the candidates are tried in order, and the first
        whose `/api/config` answer has an `apiBase` becomes the host and is
        returned; `probe` gives each host's answer (`None` for a failed
        request). */
    method DiscoverBackend(apiBase: Option<string>, probe: string -> Option<ServerConfig>)
      returns (found: Option<ServerConfig>)
      modifies this
      ensures found == FirstWithApiBase(Candidates(old(baseHost), apiBase), probe)
      ensures found.Some? ==> Truthy(found.value.apiBase) && baseHost == NormalizeHost(found.value.apiBase)
      ensures found.None? ==> baseHost == old(baseHost)
    {
      var candidates := Candidates(baseHost, apiBase);
      found := ProbeCandidates(candidates, probe);
      if found.Some? {
        SetApiBase(found.value.apiBase.value);
      }
    }
  }

  /** The discovery loop: asks each host in turn and stops at the first
      answer that names an `apiBase`. */
  method ProbeCandidates(candidates: seq<string>, probe: string -> Option<ServerConfig>)
    returns (found: Option<ServerConfig>)
    ensures found == FirstWithApiBase(candidates, probe)
  {
    var i := 0;
    while i < |candidates|
      invariant 0 <= i <= |candidates|
      invariant FirstWithApiBase(candidates[i..], probe) == FirstWithApiBase(candidates, probe)
    {
      var cfg := probe(candidates[i]);
      if cfg.Some? && Truthy(cfg.value.apiBase) {
        return cfg;
      }
      assert candidates[i..][1..] == candidates[i + 1..];
      i := i + 1;
    }
    found := None;
  }

  /** What `/api/config` answers. */
  datatype ServerConfig = ServerConfig(apiBase: Option<string>, socketBase: Option<string>)

  function NonEmpty(s: string): bool {
    s != ""
  }

  /** The hosts discovery tries: the current one, the local default and the
      configured one, with empty ones dropped. */
  function Candidates(current: string, apiBase: Option<string>): (r: seq<string>)
  {
    Filter([current, DefaultHost] + (if apiBase.Some? then [NormalizeHost(apiBase)] else []), NonEmpty)
  }

  /** Dropping the empty hosts from the current one, a non-empty default
      and an optional configured one. */
  lemma FilterHosts(current: string, fallback: string, extra: Option<string>)
    requires fallback != ""
    ensures Filter([current, fallback] + (if extra.Some? then [extra.value] else []), NonEmpty) ==
      (if current != "" then [current] else []) + [fallback]
      + (if extra.Some? && extra.value != "" then [extra.value] else [])
  {
    FilterPair(current, fallback, if extra.Some? then [extra.value] else [], NonEmpty);
    if extra.Some? {
      FilterSingleton(extra.value, NonEmpty);
    }
  }

  /** The hosts discovery tries, written out: the current one when set, the
      local default, and the normalised configured base when not empty. */
  lemma CandidatesExact(current: string, apiBase: Option<string>)
    ensures Candidates(current, apiBase) ==
      (if current != "" then [current] else []) + [DefaultHost]
      + (if apiBase.Some? && NormalizeHost(apiBase) != "" then [NormalizeHost(apiBase)] else [])
  {
    assert |DefaultHost| > 0;
    FilterHosts(current, DefaultHost, if apiBase.Some? then Some(NormalizeHost(apiBase)) else None);
  }

  /** The current host is tried first (when set), the local default next,
      and the normalised configured base last (when it is not empty); no
      empty host is tried. */
  lemma CandidatesOrder(current: string, apiBase: Option<string>)
    ensures |Candidates(current, apiBase)| ==
      (if current != "" then 2 else 1) + (if apiBase.Some? && NormalizeHost(apiBase) != "" then 1 else 0)
    ensures 1 <= |Candidates(current, apiBase)| <= 3
    ensures current != "" ==> Candidates(current, apiBase)[0] == current && Candidates(current, apiBase)[1] == DefaultHost
    ensures current == "" ==> Candidates(current, apiBase)[0] == DefaultHost
    ensures apiBase.Some? && NormalizeHost(apiBase) != "" ==>
      Candidates(current, apiBase)[|Candidates(current, apiBase)| - 1] == NormalizeHost(apiBase)
    ensures DefaultHost in Candidates(current, apiBase)
    ensures forall i :: 0 <= i < |Candidates(current, apiBase)| ==> Candidates(current, apiBase)[i] != ""
  {
    CandidatesExact(current, apiBase);
    var base := NormalizeHost(apiBase);
    var c := Candidates(current, apiBase);
    var last := apiBase.Some? && base != "";
    if current != "" && last {
      assert c == [current, DefaultHost, base];
    } else if current != "" {
      assert c == [current, DefaultHost];
    } else if last {
      assert c == [DefaultHost, base];
    } else {
      assert c == [DefaultHost];
    }
  }

  /** Whether a host's answer names an `apiBase`, which ends discovery. */
  predicate Answers(hosts: seq<string>, i: int, probe: string -> Option<ServerConfig>)
    requires 0 <= i < |hosts|
  {
    probe(hosts[i]).Some? && Truthy(probe(hosts[i]).value.apiBase)
  }

  /** The answer of the first host whose config names an `apiBase`. */
  function FirstWithApiBase(hosts: seq<string>, probe: string -> Option<ServerConfig>): (r: Option<ServerConfig>)
    ensures r.Some? ==> Truthy(r.value.apiBase)
    decreases |hosts|
  {
    if hosts == [] then None
    else if probe(hosts[0]).Some? && Truthy(probe(hosts[0]).value.apiBase) then probe(hosts[0])
    else FirstWithApiBase(hosts[1..], probe)
  }

  /** Discovery finds nothing exactly when no candidate's answer names an
      `apiBase`; otherwise it returns the answer of the first candidate
      whose answer does. */
  lemma {:induction false} FirstWithApiBaseSpec(hosts: seq<string>, probe: string -> Option<ServerConfig>)
    ensures FirstWithApiBase(hosts, probe).None? <==>
      forall i :: 0 <= i < |hosts| ==> !Answers(hosts, i, probe)
    ensures FirstWithApiBase(hosts, probe).Some? ==>
      exists i :: 0 <= i < |hosts| && Answers(hosts, i, probe)
        && FirstWithApiBase(hosts, probe) == probe(hosts[i])
        && forall j :: 0 <= j < i ==> !Answers(hosts, j, probe)
    decreases |hosts|
  {
    if hosts != [] {
      FirstWithApiBaseSpec(hosts[1..], probe);
      if Answers(hosts, 0, probe) {
        assert FirstWithApiBase(hosts, probe) == probe(hosts[0]);
      } else {
        if FirstWithApiBase(hosts, probe).Some? {
          var i :| 0 <= i < |hosts[1..]| && Answers(hosts[1..], i, probe)
            && FirstWithApiBase(hosts[1..], probe) == probe(hosts[1..][i])
            && forall j :: 0 <= j < i ==> !Answers(hosts[1..], j, probe);
          assert hosts[1..][i] == hosts[i + 1];
          forall j | 0 <= j < i + 1
            ensures !Answers(hosts, j, probe)
          {
            if j > 0 {
              assert hosts[j] == hosts[1..][j - 1];
              assert !Answers(hosts[1..], j - 1, probe);
            }
          }
          assert Answers(hosts, i + 1, probe);
        } else {
          forall i | 0 <= i < |hosts|
            ensures !Answers(hosts, i, probe)
          {
            if i > 0 {
              assert hosts[i] == hosts[1..][i - 1];
              assert !Answers(hosts[1..], i - 1, probe);
            }
          }
        }
      }
    }
  }

  // ---------------------------------------------------------------------
  // Request URL and header rewriting, retries
  // ---------------------------------------------------------------------

  /** `/^https?:\/\//i` */
  predicate IsAbsolute(u: string) {
    StartsWith(Lower(u), "http://") || StartsWith(Lower(u), "https://")
  }

  /** The request interceptor's URL rule: absolute URLs and URLs already
      under `/api` are kept; any other gets `/api` (or `/api/`) in front. */
  function NormalizeUrl(u: string): string {
    if IsAbsolute(u) || StartsWith(u, "/api") then u
    else if StartsWith(u, "/") then "/api" + u
    else "/api/" + u
  }

  /** A rewritten URL is absolute or under `/api`, and rewriting it again
      changes nothing. */
  lemma NormalizeUrlIdempotent(u: string)
    ensures IsAbsolute(NormalizeUrl(u)) || StartsWith(NormalizeUrl(u), "/api")
    ensures NormalizeUrl(NormalizeUrl(u)) == NormalizeUrl(u)
    ensures !IsAbsolute(u) && !StartsWith(u, "/api") ==> EndsWith(NormalizeUrl(u), u)
  {
    var r := NormalizeUrl(u);
    if !IsAbsolute(u) && !StartsWith(u, "/api") {
      if StartsWith(u, "/") {
        assert r == "/api" + u;
        assert r[..4] == "/api";
        assert r[|r| - |u|..] == u;
      } else {
        assert r == "/api/" + u;
        assert r[..4] == "/api";
        assert r[|r| - |u|..] == u;
      }
    }
  }

  /** `isRetryableError`: no response at all, a 5xx, or 429. */
  function IsRetryable(status: Option<int>): bool {
    status.None? || status.value >= 500 || status.value == 429
  }

  /** Client errors other than 429 are never retried. */
  lemma IsRetryableCases(status: int)
    ensures IsRetryable(None)
    ensures 400 <= status < 500 && status != 429 ==> !IsRetryable(Some(status))
    ensures status >= 500 ==> IsRetryable(Some(status))
    ensures IsRetryable(Some(429))
  {
  }

  /** How one attempt ends: a response, or an error with the HTTP status
      (`None` when there was no response). */
  datatype Outcome = Success | Error(status: Option<int>)

  /** An axios request config as the interceptors see and rewrite it. */
  class RequestConfig {
    var url: Option<string>
    var authorization: Option<string>
    /** `__retryCount || 0` */
    var retryCount: nat

    constructor (url: Option<string>)
      ensures this.url == url && authorization == None && retryCount == 0
    {
      this.url := url;
      authorization := None;
      retryCount := 0;
    }

    /** The request interceptor: a stored token sets the bearer header, and
        the URL is rewritten. */
    method InterceptRequest(token: Option<string>)
      modifies this`url, this`authorization
      ensures Truthy(token) ==> authorization == Some("Bearer " + token.value)
      ensures !Truthy(token) ==> authorization == old(authorization)
      ensures url == Some(NormalizeUrl(OrElse(old(url), "")))
    {
      if Truthy(token) {
        authorization := Some("Bearer " + token.value);
      }
      var u := OrElse(url, "");
      if !IsAbsolute(u) {
        if !StartsWith(u, "/api") {
          url := Some(if StartsWith(u, "/") then "/api" + u else "/api/" + u);
          return;
        }
      }
      url := Some(u);
    }

    /** The response interceptor's error path: a retryable failure below the
        retry limit bumps the counter and asks for a retry. */
    method OnResponseError(status: Option<int>) returns (retry: bool)
      modifies this`retryCount
      ensures retry <==> IsRetryable(status) && old(retryCount) < MaxRetries
      ensures retryCount == if retry then old(retryCount) + 1 else old(retryCount)
    {
      retry := false;
      if IsRetryable(status) {
        if retryCount < MaxRetries {
          retryCount := retryCount + 1;
          retry := true;
        }
      }
    }

    /** One request through both interceptors, re-sent while the error path
        asks for it. `outcome(k)` is how attempt `k` ends. A fresh request is
        sent at most 1 + MaxRetries times; it fails only on a non-retryable
        error or once the retries are used up; every resend goes out with the
        same URL, since rewriting is idempotent. */
    method Send(token: Option<string>, outcome: nat -> Outcome) returns (attempts: nat, succeeded: bool)
      requires retryCount <= MaxRetries
      modifies this`url, this`authorization, this`retryCount
      ensures 1 <= attempts <= MaxRetries + 1 - old(retryCount)
      ensures retryCount == old(retryCount) + attempts - 1
      ensures succeeded <==> outcome(attempts - 1).Success?
      ensures forall k :: 0 <= k < attempts - 1 ==> outcome(k).Error? && IsRetryable(outcome(k).status)
      ensures !succeeded ==> !IsRetryable(outcome(attempts - 1).status) || retryCount == MaxRetries
      ensures url == Some(NormalizeUrl(OrElse(old(url), "")))
    {
      attempts := 0;
      var first := NormalizeUrl(OrElse(url, ""));
      NormalizeUrlIdempotent(OrElse(url, ""));
      while true
        invariant retryCount == old(retryCount) + attempts <= MaxRetries
        invariant forall k :: 0 <= k < attempts ==> outcome(k).Error? && IsRetryable(outcome(k).status)
        invariant attempts == 0 ==> url == old(url)
        invariant attempts > 0 ==> url == Some(first)
        decreases MaxRetries - retryCount
      {
        InterceptRequest(token);
        var o := outcome(attempts);
        attempts := attempts + 1;
        if o.Success? {
          succeeded := true;
          return;
        }
        var retry := OnResponseError(o.status);
        if !retry {
          succeeded := false;
          return;
        }
      }
    }
  }

  // ---------------------------------------------------------------------
  // SOS request
  // ---------------------------------------------------------------------

  /** The body of `POST /api/emergencies/sos`, location aside. */
  datatype SosBody = SosBody(kind: string, description: string)

  function SosRequestBody(sosType: Option<string>): SosBody {
    SosBody(OrElse(sosType, "SOS"),
            if Truthy(sosType) then sosType.value + " reported via SOS" else "Emergency SOS Alert")
  }

  /** A typed SOS names its type in the description; an untyped one is a
      plain SOS alert. */
  lemma SosRequestBodySpec(sosType: Option<string>)
    ensures Truthy(sosType) ==> SosRequestBody(sosType).description == SosRequestBody(sosType).kind + " reported via SOS"
    ensures !Truthy(sosType) ==> SosRequestBody(sosType) == SosBody("SOS", "Emergency SOS Alert")
  {
  }

  /** What `sendSOS` does: whether it posts (and what), and whether it
      reports success. */
  datatype SosResult = SosResult(posted: Option<SosBody>, success: bool)

  /** Without a stored token nothing is posted and failure is reported;
      otherwise the body is posted and success follows the POST. */
  function SendSos(token: Option<string>, sosType: Option<string>, postOk: bool): (r: SosResult)
    ensures !Truthy(token) ==> r.posted.None? && !r.success
    ensures Truthy(token) ==> r.posted == Some(SosRequestBody(sosType)) && (r.success <==> postOk)
  {
    if !Truthy(token) then SosResult(None, false)
    else SosResult(Some(SosRequestBody(sosType)), postOk)
  }
}
