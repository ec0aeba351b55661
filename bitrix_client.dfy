/** The Bitrix24 REST client: how it settles on its base URL, the retrying
    `_call` driver, the request bodies of the typed operations, the coercion
    of their results, and cursor pagination of the listing endpoints.

    The network is an oracle: the k-th POST ever issued receives `net(k)`.
    Each operation takes the index of its first POST and reports how many
    POSTs it issued, so that calls can be chained. Sleeps are recorded as
    their delays in a ghost log. */
module BitrixClient {
  import opened Wrappers
  import opened JsonValues

  // =====================================================================
  // Construction and base-URL normalisation

  /** The hardcoded webhook URL, as written, with its trailing slash. */
  const WebhookUrlLiteral: string := "https://b24-25ltxt.bitrix24.ru/rest/1/xdimdye9gomtwy6n/"

  /** `BITRIX_WEBHOOK_URL`: the literal with its trailing slashes stripped. */
  const WebhookUrl: string := RStripSlashes(WebhookUrlLiteral)

  /** The message of the ValueError raised when no base URL remains. */
  const NotConfigured: string := "BITRIX_WEBHOOK_URL is not configured"

  /** A constructed client; its only state is the base URL, set once. */
  datatype Client = Client(baseUrl: string)

  /** `s.rstrip("/")`. */
  function RStripSlashes(s: string): (r: string)
    ensures |r| <= |s| && r == s[..|r|]
    ensures r == [] || r[|r| - 1] != '/'
    ensures forall k :: |r| <= k < |s| ==> s[k] == '/'
    decreases |s|
  {
    if s != [] && s[|s| - 1] == '/' then RStripSlashes(s[..|s| - 1]) else s
  }

  /** `s.endswith(suffix)`. */
  predicate EndsWith(s: string, suffix: string) {
    |suffix| <= |s| && s[|s| - |suffix|..] == suffix
  }

  /** `s.rsplit("/", 1)[0]`: everything before the last '/', or the whole
      of `s` when it holds no '/'. */
  function DropLastSegment(s: string): (r: string)
    ensures '/' !in s ==> r == s
    ensures '/' in s ==> |r| < |s| && r == s[..|r|] && s[|r|] == '/'
    ensures '/' in s ==> forall k :: |r| < k < |s| ==> s[k] != '/'
    decreases |s|
  {
    if s == [] then s
    else if s[|s| - 1] == '/' then s[..|s| - 1]
    else if '/' in s[..|s| - 1] then DropLastSegment(s[..|s| - 1])
    else s
  }

  /** Cutting at a '/' with no '/' after it is cutting at the last '/'. */
  lemma DropAtLastSlash(s: string, i: nat)
    requires i < |s| && s[i] == '/'
    requires forall k :: i < k < |s| ==> s[k] != '/'
    ensures DropLastSegment(s) == s[..i]
  {
    assert '/' in s;
  }

  /** `BitrixClient.__init__(base_url)`: the argument, or the hardcoded URL
      when it is `None` or empty, with trailing slashes stripped and, when
      that ends in ".json", its last '/'-segment cut off; a ValueError when
      nothing remains. */
  function NewClient(baseUrl: Option<string>): (r: Result<Client, string>)
    ensures r.Success? ==> r.value.baseUrl != ""
    ensures r.Failure? ==> r.error == NotConfigured
  {
    var given := if baseUrl.Some? && baseUrl.value != "" then baseUrl.value else WebhookUrl;
    var stripped := RStripSlashes(given);
    var base := if EndsWith(stripped, ".json") then DropLastSegment(stripped) else stripped;
    if base == "" then Failure(NotConfigured) else Success(Client(base))
  }

  /** With no argument, or an empty one, the client falls back to the
      hardcoded URL, which is accepted: `BitrixClient()` never raises. */
  lemma DefaultClient()
    ensures WebhookUrl == "https://b24-25ltxt.bitrix24.ru/rest/1/xdimdye9gomtwy6n"
    ensures NewClient(None) == NewClient(Some("")) == Success(Client(WebhookUrl))
  {
    var lit := WebhookUrlLiteral;
    var url := "https://b24-25ltxt.bitrix24.ru/rest/1/xdimdye9gomtwy6n";
    assert lit == url + "/";
    assert lit[..|lit| - 1] == url;
    assert RStripSlashes(url) == url by { assert url[|url| - 1] == 'n'; }
    assert !EndsWith(url, ".json") by { assert url[|url| - 2] == '6'; }
  }

  /** The ValueError is raised exactly when the stripped argument is empty
      (a run of slashes), or ends in ".json" and holds no '/' after its
      first character, which is a '/' (as in "/x.json"). */
  lemma ConfigErrorIff(s: string)
    requires s != ""
    ensures var t := RStripSlashes(s);
      NewClient(Some(s)).Failure? <==>
        t == [] || (EndsWith(t, ".json") && t[0] == '/' && forall k :: 0 < k < |t| ==> t[k] != '/')
  {
    var t := RStripSlashes(s);
    if t != [] && EndsWith(t, ".json") {
      var r := DropLastSegment(t);
      if '/' in t {
        if r == [] {
          assert t[0] == '/';
        } else if t[0] == '/' {
          assert 0 < |r| < |t| && t[|r|] == '/';
        }
      } else {
        assert t[0] != '/';
      }
    }
  }

  /** A trailing ".json" segment after a '/' is cut off. */
  lemma JsonSegmentCut(base: string, file: string)
    requires base != "" && base[|base| - 1] != '/'
    requires EndsWith(file, ".json") && '/' !in file
    ensures NewClient(Some(base + "/" + file)) == Success(Client(base))
  {
    var s := base + "/" + file;
    assert s[|s| - 1] == file[|file| - 1] == 'n';
    assert RStripSlashes(s) == s;
    assert EndsWith(s, ".json") by {
      assert s[|s| - 5..] == file[|file| - 5..];
    }
    assert s[|base|] == '/';
    forall k | |base| < k < |s| ensures s[k] != '/' {
      assert s[k] == file[k - |base| - 1];
    }
    DropAtLastSlash(s, |base|);
    assert s[..|base|] == base;
  }

  /** A method file such as "/profile.json" at the end of the argument is cut
      back to the base, so both forms construct the same client. */
  lemma MethodFileStripped(base: string, file: string)
    requires base != "" && base[|base| - 1] != '/' && !EndsWith(base, ".json")
    requires EndsWith(file, ".json") && '/' !in file
    ensures NewClient(Some(base + "/" + file)) == NewClient(Some(base)) == Success(Client(base))
  {
    JsonSegmentCut(base, file);
  }

  /** Normalisation is applied once, so it is not idempotent: a base that
      ends in two ".json" segments loses one of them, and feeding the result
      back into the constructor loses the other. */
  lemma NormalisationNotIdempotent(base: string, first: string, second: string)
    requires base != "" && base[|base| - 1] != '/'
    requires EndsWith(first, ".json") && '/' !in first
    requires EndsWith(second, ".json") && '/' !in second
    ensures NewClient(Some(base + "/" + first + "/" + second)) == Success(Client(base + "/" + first))
    ensures NewClient(Some(base + "/" + first)) == Success(Client(base))
    ensures base + "/" + first != base
  {
    var once := base + "/" + first;
    assert once[|once| - 1] == first[|first| - 1];
    JsonSegmentCut(once, second);
    JsonSegmentCut(base, first);
    assert |once| > |base|;
  }

  // =====================================================================
  // The retrying `_call` driver

  /** The body of an HTTP response: a JSON object, or text that is not JSON. */
  datatype Body = JsonBody(fields: map<string, Json>) | NotJson(text: string)

  /** What one POST yields: a response, or a transport exception (connection
      failure, timeout). */
  datatype Response = Reply(status: int, body: Body) | TransportError(message: string)

  /** The network oracle: the k-th POST ever issued receives `net(k)`. */
  type Network = nat -> Response

  /** One POST: the URL and its JSON body. */
  datatype Request = Request(url: string, body: Json)

  /** `n` copies of the same request. */
  function Repeat(req: Request, n: nat): (r: seq<Request>)
    ensures |r| == n && forall k :: 0 <= k < n ==> r[k] == req
  {
    if n == 0 then [] else Repeat(req, n - 1) + [req]
  }

  /** The last exception `_call` recorded before giving up. */
  datatype Cause =
    | StatusError(status: int)           // httpx.HTTPStatusError: a non-2xx status
    | ApiError(body: map<string, Json>)  // a 2xx body carrying "error"
    | DecodeError(text: string)          // a 2xx body that is not JSON
    | NetworkError(message: string)      // a transport exception

  /** The RuntimeError `_call` raises: "HTTP error calling <method>: <cause>". */
  datatype CallError = CallError(apiMethod: string, cause: Cause)

  const MaxAttempts: nat := 5
  const TransientStatuses: set<int> := {429, 500, 502, 503, 504}
  const MaxDelay: nat := 10

  /** What `raise_for_status` accepts: a 2xx status. */
  predicate IsSuccessStatus(status: int) {
    200 <= status < 300
  }

  function Pow2(n: nat): nat {
    if n == 0 then 1 else 2 * Pow2(n - 1)
  }

  /** The sleep after the `attempt`-th failed attempt: `min(2 ** attempt, 10)`. */
  function Backoff(attempt: nat): (delay: nat)
    ensures attempt >= 1 ==> 2 <= delay <= MaxDelay
  {
    Pow2AtLeastTwo(attempt);
    if Pow2(attempt) < MaxDelay then Pow2(attempt) else MaxDelay
  }

  /** The sleeps after the first `n` attempts. */
  function Backoffs(n: nat): (delays: seq<nat>)
    ensures |delays| == n && forall k :: 0 <= k < n ==> delays[k] == Backoff(k + 1)
  {
    if n == 0 then [] else Backoffs(n - 1) + [Backoff(n)]
  }

  /** What one attempt does with the response it got. */
  datatype Step = Returned(data: map<string, Json>) | Retried(status: int) | Aborted(cause: Cause)

  /** One attempt of `_call`: a transient status raises HTTPStatusError, and so
      does `raise_for_status` for any other non-2xx status; both are caught by
      the branch that sleeps and retries. A body that is not JSON, a body with
      "error" and a transport exception end the loop. */
  function Classify(resp: Response): (step: Step)
    ensures step.Retried? <==> resp.Reply? && !IsSuccessStatus(resp.status)
    ensures step.Retried? ==> step.status == resp.status
    ensures step.Returned? <==>
      resp.Reply? && IsSuccessStatus(resp.status) && resp.body.JsonBody? && "error" !in resp.body.fields
    ensures step.Returned? ==> step.data == resp.body.fields
  {
    match resp
    case TransportError(message) => Aborted(NetworkError(message))
    case Reply(status, body) =>
      if status in TransientStatuses then Retried(status)
      else if !IsSuccessStatus(status) then Retried(status)
      else match body
        case NotJson(text) => Aborted(DecodeError(text))
        case JsonBody(fields) =>
          if "error" in fields then Aborted(ApiError(fields)) else Returned(fields)
  }

  /** Whether the `k`-th attempt of a call whose first POST is the network's
      `start`-th is retried. */
  predicate RetriedAt(net: Network, start: nat, k: nat) {
    Classify(net(start + k)).Retried?
  }

  /** Whether the `k`-th response from `start` on has a non-2xx status. */
  predicate Non2xxAt(net: Network, start: nat, k: nat) {
    net(start + k).Reply? && !IsSuccessStatus(net(start + k).status)
  }

  /** The index, counting from `from`, of the first attempt whose response
      does not lead to a retry, or MaxAttempts when all of them do. */
  function FirstStop(net: Network, start: nat, from: nat): (j: nat)
    requires from <= MaxAttempts
    ensures from <= j <= MaxAttempts
    ensures forall k: nat :: from <= k < j ==> RetriedAt(net, start, k)
    ensures j < MaxAttempts ==> !RetriedAt(net, start, j)
    decreases MaxAttempts - from
  {
    if from == MaxAttempts || !RetriedAt(net, start, from) then from
    else FirstStop(net, start, from + 1)
  }

  /** What a `_call` run did: its result, the POSTs it issued, the sleeps. */
  datatype CallRun = CallRun(result: Result<map<string, Json>, CallError>, posts: nat, delays: seq<nat>)

  /** The run of `_call(method, ...)` whose first POST is the network's
      `start`-th: every attempt before the first that does not retry sleeps;
      that attempt returns the body or raises; if all five retry, the fifth
      status is raised after a fifth sleep. */
  function CallSpec(apiMethod: string, net: Network, start: nat): (run: CallRun)
    ensures 1 <= run.posts <= MaxAttempts
    ensures run.result.Failure? ==> run.result.error.apiMethod == apiMethod
  {
    var j := FirstStop(net, start, 0);
    if j == MaxAttempts then
      var status := Classify(net(start + MaxAttempts - 1)).status;
      CallRun(Failure(CallError(apiMethod, StatusError(status))), MaxAttempts, Backoffs(MaxAttempts))
    else
      var step := Classify(net(start + j));
      var result := if step.Returned? then Success(step.data) else Failure(CallError(apiMethod, step.cause));
      CallRun(result, j + 1, Backoffs(j))
  }

  /** The run of a call whose first `j` attempts are retried and whose next
      one is not. */
  lemma CallStopsAt(apiMethod: string, net: Network, start: nat, j: nat)
    requires j < MaxAttempts
    requires forall k: nat :: k < j ==> RetriedAt(net, start, k)
    requires !RetriedAt(net, start, j)
    ensures var step := Classify(net(start + j));
      CallSpec(apiMethod, net, start)
      == CallRun(if step.Returned? then Success(step.data) else Failure(CallError(apiMethod, step.cause)), j + 1, Backoffs(j))
  {
  }

  /** The run of a call all of whose attempts are retried. */
  lemma CallRetriesAll(apiMethod: string, net: Network, start: nat)
    requires forall k: nat :: k < MaxAttempts ==> RetriedAt(net, start, k)
    ensures CallSpec(apiMethod, net, start)
      == CallRun(Failure(CallError(apiMethod, StatusError(Classify(net(start + MaxAttempts - 1)).status))), MaxAttempts, Backoffs(MaxAttempts))
  {
  }

  /** A 2xx JSON response without "error" is returned unchanged and ends the
      call; conversely, whatever `_call` returns is such a body, from its last
      POST, every earlier POST having had a non-2xx status. */
  lemma CallReturnsBodyUnchanged(apiMethod: string, net: Network, start: nat)
    ensures var first := net(start);
      first.Reply? && IsSuccessStatus(first.status) && first.body.JsonBody? && "error" !in first.body.fields ==>
        CallSpec(apiMethod, net, start) == CallRun(Success(first.body.fields), 1, [])
    ensures var run := CallSpec(apiMethod, net, start);
      run.result.Success? ==>
        var last := net(start + run.posts - 1);
        last.Reply? && IsSuccessStatus(last.status) && last == Reply(last.status, JsonBody(run.result.value))
        && "error" !in run.result.value
        && (forall k: nat :: k < run.posts - 1 ==> Non2xxAt(net, start, k))
        && run.delays == Backoffs(run.posts - 1)
  {
    var run := CallSpec(apiMethod, net, start);
    var j := FirstStop(net, start, 0);
    assert forall k: nat :: k < j ==> Non2xxAt(net, start, k);
  }

  /** When the first five responses all have non-2xx statuses, `_call` POSTs
      five times, sleeps 2, 4, 8, 10 and 10 (a sleep follows even the fifth
      failure) and raises with the fifth status. */
  lemma CallExhaustsRetries(apiMethod: string, net: Network, start: nat)
    requires forall k: nat :: k < MaxAttempts ==> Non2xxAt(net, start, k)
    ensures var last := net(start + MaxAttempts - 1);
      last.Reply?
      && CallSpec(apiMethod, net, start) == CallRun(Failure(CallError(apiMethod, StatusError(last.status))), 5, [2, 4, 8, 10, 10])
  {
    forall k: nat | k < MaxAttempts ensures RetriedAt(net, start, k) {
      assert Non2xxAt(net, start, k);
    }
    var j := FirstStop(net, start, 0);
    assert j == MaxAttempts;
    assert Non2xxAt(net, start, MaxAttempts - 1);
    assert Backoffs(5) == [2, 4, 8, 10, 10];
  }

  /** A transport exception, a body that is not JSON or a body with "error"
      ends the call at once: no sleep follows and no further POST is made.
      Every failure names the method it was calling. */
  lemma CallAbortsWithoutRetry(apiMethod: string, net: Network, start: nat)
    requires Classify(net(start)).Aborted?
    ensures CallSpec(apiMethod, net, start) == CallRun(Failure(CallError(apiMethod, Classify(net(start)).cause)), 1, [])
  {
    assert FirstStop(net, start, 0) == 0;
  }

  /** The sleeps of a run: one per attempt that was retried, with the delays
      `min(2 ** k, 10)` for k = 1, 2, ...; at most five POSTs. */
  lemma CallSleepsBetweenRetries(apiMethod: string, net: Network, start: nat)
    ensures var run := CallSpec(apiMethod, net, start);
      1 <= run.posts <= MaxAttempts
      && run.delays == Backoffs(|run.delays|)
      && |run.delays| == (if run.result.Failure? && run.result.error.cause.StatusError? then run.posts else run.posts - 1)
      && forall k :: 0 <= k < |run.delays| ==> 2 <= run.delays[k] <= MaxDelay
  {
    var run := CallSpec(apiMethod, net, start);
    var j := FirstStop(net, start, 0);
    if j < MaxAttempts {
      var step := Classify(net(start + j));
      assert step.Aborted? ==> !step.cause.StatusError?;
    }
  }

  lemma {:induction false} Pow2AtLeastTwo(n: nat)
    ensures n >= 1 ==> Pow2(n) >= 2
  {
    if n > 1 {
      Pow2AtLeastTwo(n - 1);
    }
  }

  /** `BitrixClient._call(method, params)`: POSTs `params` to
      `base_url + "/" + method` at most five times, as CallSpec describes. */
  method Call(client: Client, apiMethod: string, params: Json, net: Network, start: nat)
    returns (r: Result<map<string, Json>, CallError>, posts: nat, ghost sent: seq<Request>, ghost delays: seq<nat>)
    ensures r == CallSpec(apiMethod, net, start).result && posts == CallSpec(apiMethod, net, start).posts
    ensures delays == CallSpec(apiMethod, net, start).delays
    ensures SentAll(sent, posts, client, apiMethod, params)
  {
    var url := client.baseUrl + "/" + apiMethod;
    var attempts := 0;
    var lastError: Option<Cause> := None;
    sent, delays := [], [];
    while attempts < MaxAttempts
      invariant attempts <= MaxAttempts
      invariant sent == Repeat(Request(url, params), attempts)
      invariant forall k: nat :: k < attempts ==> RetriedAt(net, start, k)
      invariant delays == Backoffs(attempts)
      invariant attempts > 0 ==>
        RetriedAt(net, start, attempts - 1)
        && lastError == Some(StatusError(Classify(net(start + attempts - 1)).status))
    {
      attempts := attempts + 1;
      sent := sent + [Request(url, params)];
      var resp := net(start + attempts - 1);
      if resp.Reply? && (resp.status in TransientStatuses || !IsSuccessStatus(resp.status)) {
        // HTTPStatusError, raised for the transient set or by raise_for_status
        lastError := Some(StatusError(resp.status));
        delays := delays + [Backoff(attempts)];
        assert RetriedAt(net, start, attempts - 1);
      } else {
        // the attempt that ends the loop: it returns the body, or its
        // exception is the one raised
        CallStopsAt(apiMethod, net, start, attempts - 1);
        match resp {
          case TransportError(message) =>
            lastError := Some(NetworkError(message));
          case Reply(_, body) =>
            if body.NotJson? {
              lastError := Some(DecodeError(body.text));
            } else if "error" in body.fields {
              lastError := Some(ApiError(body.fields));
            } else {
              r, posts := Success(body.fields), attempts;
              return;
            }
        }
        r, posts := Failure(CallError(apiMethod, lastError.value)), attempts;
        return;
      }
    }
    CallRetriesAll(apiMethod, net, start);
    r, posts := Failure(CallError(apiMethod, lastError.value)), attempts;
  }

  // =====================================================================
  // Typed operations: request bodies and result coercion

  /** An exception a typed operation raises: the RuntimeError of `_call`, or
      the TypeError/ValueError/KeyError of a coercion of its result. */
  datatype ClientError =
    | Runtime(error: CallError)
    | Coercion
    | Unfinished  // pagination stopped at its page bound (see ListPages)

  /** The `params` part of every add request. */
  const RegisterEvent: Json := Object(map["REGISTER_SONET_EVENT" := Str("Y")])

  const CompanyAdd: string := "crm.company.add.json"
  const CompanyDelete: string := "crm.company.delete.json"
  const CompanyList: string := "crm.company.list.json"
  const ContactAdd: string := "crm.contact.add.json"
  const ContactDelete: string := "crm.contact.delete.json"
  const ContactList: string := "crm.contact.list.json"

  /** The body `create_company(title)` posts. */
  function CompanyPayload(title: string): Json {
    Object(map["fields" := Object(map["TITLE" := Str(title)]), "params" := RegisterEvent])
  }

  /** The arguments of `create_contact`. */
  datatype ContactArgs = ContactArgs(
    firstName: string, lastName: string, phone: string,
    gender: Option<string>, companyId: Option<int>, middleName: Option<string>)

  /** The "fields" map `create_contact` builds: the name parts and a single
      WORK phone always; SECOND_NAME only for a truthy middle name; COMPANY_ID
      whenever a company id is given, 0 included; the gender never. */
  function ContactFields(a: ContactArgs): (f: map<string, Json>)
    ensures f.Keys <= {"NAME", "LAST_NAME", "PHONE", "SECOND_NAME", "COMPANY_ID"}
    ensures "NAME" in f && f["NAME"] == Str(a.firstName)
    ensures "LAST_NAME" in f && f["LAST_NAME"] == Str(a.lastName)
    ensures "PHONE" in f && f["PHONE"] == Array([Object(map["VALUE" := Str(a.phone), "VALUE_TYPE" := Str("WORK")])])
    ensures "SECOND_NAME" in f <==> a.middleName.Some? && a.middleName.value != ""
    ensures "SECOND_NAME" in f ==> f["SECOND_NAME"] == Str(a.middleName.value)
    ensures "COMPANY_ID" in f <==> a.companyId.Some?
    ensures "COMPANY_ID" in f ==> f["COMPANY_ID"] == Int(a.companyId.value)
  {
    var phones := Array([Object(map["VALUE" := Str(a.phone), "VALUE_TYPE" := Str("WORK")])]);
    var named := map["NAME" := Str(a.firstName), "LAST_NAME" := Str(a.lastName), "PHONE" := phones];
    var withMiddle :=
      if a.middleName.Some? && a.middleName.value != "" then named["SECOND_NAME" := Str(a.middleName.value)]
      else named;
    if a.companyId.Some? then withMiddle["COMPANY_ID" := Int(a.companyId.value)] else withMiddle
  }

  /** The body `create_contact(...)` posts. */
  function ContactPayload(a: ContactArgs): Json {
    Object(map["fields" := Object(ContactFields(a)), "params" := RegisterEvent])
  }

  /** The gender argument never reaches the request body. */
  lemma {:induction false} ContactGenderIgnored(a: ContactArgs, gender: Option<string>)
    ensures ContactPayload(a.(gender := gender)) == ContactPayload(a)
  {
    assert ContactFields(a.(gender := gender)) == ContactFields(a);
  }

  /** The body of a delete request: `{"id": int(id)}`. */
  function DeletePayload(id: int): Json {
    Object(map["id" := Int(id)])
  }

  /** The body of an add-company request determines the title. */
  lemma CompanyPayloadInjective(a: string, b: string)
    ensures CompanyPayload(a) == CompanyPayload(b) ==> a == b
  {
    if CompanyPayload(a) == CompanyPayload(b) {
      assert CompanyPayload(a).fields["fields"].fields["TITLE"] == Str(a);
    }
  }

  /** The body of an add-contact request determines every argument but the
      gender, and the middle name only when it is truthy. */
  lemma ContactPayloadDetermines(a: ContactArgs, b: ContactArgs)
    requires ContactPayload(a) == ContactPayload(b)
    ensures a.firstName == b.firstName && a.lastName == b.lastName && a.phone == b.phone
    ensures a.companyId == b.companyId
    ensures (a.middleName.Some? && a.middleName.value != "") <==> (b.middleName.Some? && b.middleName.value != "")
    ensures a.middleName.Some? && a.middleName.value != "" ==> a.middleName == b.middleName
  {
    var fa, fb := ContactFields(a), ContactFields(b);
    assert fa == ContactPayload(a).fields["fields"].fields;
    assert fb == ContactPayload(b).fields["fields"].fields;
    assert fa["PHONE"] == fb["PHONE"];
    assert Array([Object(map["VALUE" := Str(a.phone), "VALUE_TYPE" := Str("WORK")])]).items[0].fields["VALUE"] == Str(a.phone);
    assert Array([Object(map["VALUE" := Str(b.phone), "VALUE_TYPE" := Str("WORK")])]).items[0].fields["VALUE"] == Str(b.phone);
  }

  /** The body of a delete request determines the id. */
  lemma DeletePayloadInjective(a: int, b: int)
    ensures DeletePayload(a) == DeletePayload(b) ==> a == b
  {
    if DeletePayload(a) == DeletePayload(b) {
      assert DeletePayload(a).fields["id"] == Int(a);
    }
  }

  /** `int(data.get("result"))`: the id an add call reports, or the
      TypeError/ValueError of the conversion. */
  function AddedId(data: map<string, Json>): (r: Result<int, ClientError>)
    ensures r.Success? <==> "result" in data && ToInt(data["result"]).Some?
    ensures r.Success? ==> ToInt(data["result"]) == Some(r.value)
    ensures r.Failure? ==> r.error == Coercion
  {
    match ToInt(Get(data, "result"))
    case Some(id) => Success(id)
    case None => Failure(Coercion)
  }

  /** `bool(data.get("result"))`: whether a delete call reports success. */
  function Deleted(data: map<string, Json>): (b: bool)
    ensures b <==> "result" in data && Truthy(data["result"])
  {
    Truthy(Get(data, "result"))
  }

  /** The result of an add call: the RuntimeError of `_call`, or the id. */
  function AddOutcome(run: CallRun): Result<int, ClientError> {
    match run.result
    case Failure(e) => Failure(Runtime(e))
    case Success(data) => AddedId(data)
  }

  /** The result of a delete call: the RuntimeError of `_call`, or the flag. */
  function DeleteOutcome(run: CallRun): Result<bool, ClientError> {
    match run.result
    case Failure(e) => Failure(Runtime(e))
    case Success(data) => Success(Deleted(data))
  }

  /** The POST log of one `_call` with the given method and body. */
  predicate SentAll(sent: seq<Request>, posts: nat, client: Client, apiMethod: string, body: Json) {
    sent == Repeat(Request(client.baseUrl + "/" + apiMethod, body), posts)
  }

  /** `create_company(title)`. */
  method CreateCompany(client: Client, title: string, net: Network, start: nat)
    returns (r: Result<int, ClientError>, posts: nat, ghost sent: seq<Request>, ghost delays: seq<nat>)
    ensures var run := CallSpec(CompanyAdd, net, start);
      posts == run.posts && r == AddOutcome(run)
    ensures r.Success? ==> CallSpec(CompanyAdd, net, start).result.Success?
    ensures SentAll(sent, posts, client, CompanyAdd, CompanyPayload(title))
    ensures delays == CallSpec(CompanyAdd, net, start).delays
  {
    var data;
    data, posts, sent, delays := Call(client, CompanyAdd, CompanyPayload(title), net, start);
    r := match data case Failure(e) => Failure(Runtime(e)) case Success(d) => AddedId(d);
  }

  /** `create_contact(first_name, last_name, phone, gender, company_id, middle_name)`. */
  method CreateContact(client: Client, args: ContactArgs, net: Network, start: nat)
    returns (r: Result<int, ClientError>, posts: nat, ghost sent: seq<Request>, ghost delays: seq<nat>)
    ensures var run := CallSpec(ContactAdd, net, start);
      posts == run.posts && r == AddOutcome(run)
    ensures r.Success? ==> CallSpec(ContactAdd, net, start).result.Success?
    ensures SentAll(sent, posts, client, ContactAdd, ContactPayload(args))
    ensures delays == CallSpec(ContactAdd, net, start).delays
  {
    var data;
    data, posts, sent, delays := Call(client, ContactAdd, ContactPayload(args), net, start);
    r := match data case Failure(e) => Failure(Runtime(e)) case Success(d) => AddedId(d);
  }

  /** `delete_company(company_id)`. */
  method DeleteCompany(client: Client, id: int, net: Network, start: nat)
    returns (r: Result<bool, ClientError>, posts: nat, ghost sent: seq<Request>, ghost delays: seq<nat>)
    ensures var run := CallSpec(CompanyDelete, net, start);
      posts == run.posts && r == DeleteOutcome(run)
    ensures r.Success? <==> CallSpec(CompanyDelete, net, start).result.Success?
    ensures SentAll(sent, posts, client, CompanyDelete, DeletePayload(id))
    ensures delays == CallSpec(CompanyDelete, net, start).delays
  {
    var data;
    data, posts, sent, delays := Call(client, CompanyDelete, DeletePayload(id), net, start);
    r := match data case Failure(e) => Failure(Runtime(e)) case Success(d) => Success(Deleted(d));
  }

  /** `delete_contact(contact_id)`. */
  method DeleteContact(client: Client, id: int, net: Network, start: nat)
    returns (r: Result<bool, ClientError>, posts: nat, ghost sent: seq<Request>, ghost delays: seq<nat>)
    ensures var run := CallSpec(ContactDelete, net, start);
      posts == run.posts && r == DeleteOutcome(run)
    ensures r.Success? <==> CallSpec(ContactDelete, net, start).result.Success?
    ensures SentAll(sent, posts, client, ContactDelete, DeletePayload(id))
    ensures delays == CallSpec(ContactDelete, net, start).delays
  {
    var data;
    data, posts, sent, delays := Call(client, ContactDelete, DeletePayload(id), net, start);
    r := match data case Failure(e) => Failure(Runtime(e)) case Success(d) => Success(Deleted(d));
  }

  // =====================================================================
  // Cursor pagination

  const CompanySelect: seq<Json> := [Str("ID"), Str("TITLE")]
  const ContactSelect: seq<Json> :=
    [Str("ID"), Str("NAME"), Str("SECOND_NAME"), Str("LAST_NAME"), Str("PHONE"), Str("COMPANY_ID")]

  /** The body of a list request: newest first, no filter, the selected
      fields, and the cursor `start`. */
  function ListPayload(select: seq<Json>, start: Json): Json {
    Object(map[
      "order" := Object(map["ID" := Str("DESC")]),
      "filter" := Object(map[]),
      "select" := Array(select),
      "start" := start])
  }

  /** The body of a list request determines the selected fields and the cursor. */
  lemma ListPayloadInjective(select: seq<Json>, cursor: Json, select2: seq<Json>, cursor2: Json)
    ensures ListPayload(select, cursor) == ListPayload(select2, cursor2) ==> select == select2 && cursor == cursor2
  {
    if ListPayload(select, cursor) == ListPayload(select2, cursor2) {
      assert ListPayload(select, cursor).fields["start"] == cursor;
      assert ListPayload(select, cursor).fields["select"] == Array(select);
    }
  }

  /** `data.get("result", [])` as the items `results.extend` accepts; `None`
      stands for the TypeError of extending by `None`, a number or a bool. */
  function PageItems(data: map<string, Json>): (items: Option<seq<Json>>)
    ensures "result" !in data ==> items == Some([])
    ensures items.None? <==> "result" in data && !data["result"].Array? && !data["result"].Str?
    ensures "result" in data && data["result"].Array? ==> items == Some(data["result"].items)
    ensures "result" in data && data["result"].Str? ==>
      items.Some? && |items.value| == |data["result"].s|
      && forall k :: 0 <= k < |items.value| ==> items.value[k] == Str([data["result"].s[k]])
  {
    if "result" !in data then Some([])
    else match data["result"]
      case Array(items) => Some(items)
      case Str(text) => Some(Chars(text))
      case _ => None
  }

  /** A string as `list.extend` takes it: its characters, one string each. */
  function Chars(text: string): (items: seq<Json>)
    ensures |items| == |text| && forall k :: 0 <= k < |text| ==> items[k] == Str([text[k]])
  {
    if text == [] then [] else Chars(text[..|text| - 1]) + [Str([text[|text| - 1]])]
  }

  /** `s[:n]`, Python slicing included for a negative `n`: the first `n`
      elements, or all but the last `-n`, clamped to the sequence. */
  function PyPrefix<T>(s: seq<T>, n: int): (r: seq<T>)
    ensures n >= 0 ==> |r| == (if n < |s| then n else |s|)
    ensures n < 0 ==> |r| == (if |s| + n > 0 then |s| + n else 0)
    ensures |r| <= |s| && r == s[..|r|]
  {
    if n >= |s| then s
    else if n >= 0 then s[..n]
    else if |s| + n >= 0 then s[..|s| + n]
    else []
  }

  /** The pages, one after the other. */
  function Flatten(pages: seq<seq<Json>>): seq<Json> {
    if pages == [] then [] else Flatten(pages[..|pages| - 1]) + pages[|pages| - 1]
  }

  /** What a pagination run did: its result, the POSTs it issued, the cursor
      each page request carried, and the items and `next` of each page read. */
  datatype ListRun = ListRun(
    result: Result<seq<Json>, ClientError>, posts: nat,
    starts: seq<Json>, pages: seq<seq<Json>>, nexts: seq<Json>)

  /** A run preceded by requests already made. */
  function Combine(posts: nat, starts: seq<Json>, pages: seq<seq<Json>>, nexts: seq<Json>, run: ListRun): ListRun {
    ListRun(run.result, posts + run.posts, starts + run.starts, pages + run.pages, nexts + run.nexts)
  }

  lemma CombineAssoc(n: nat, s: seq<Json>, p: seq<seq<Json>>, x: seq<Json>,
                     m: nat, s2: seq<Json>, p2: seq<seq<Json>>, x2: seq<Json>, run: ListRun)
    ensures Combine(n, s, p, x, Combine(m, s2, p2, x2, run)) == Combine(n + m, s + s2, p + p2, x + x2, run)
  {
    assert s + (s2 + run.starts) == (s + s2) + run.starts;
    assert p + (p2 + run.pages) == (p + p2) + run.pages;
    assert x + (x2 + run.nexts) == (x + x2) + run.nexts;
  }

  /** One page request: the error it raised, or the items and `next` of the
      page; either way the number of POSTs it took. */
  datatype Page =
    | PageError(error: ClientError, posts: nat)
    | Page(items: seq<Json>, next: Json, posts: nat)

  /** What a page request yields, given its `_call` run: the error it raised,
      the TypeError of a "result" that is not a list, or the items and `next`. */
  function PageOf(call: CallRun): (page: Page)
    ensures page.posts == call.posts
  {
    match call.result
    case Failure(e) => PageError(Runtime(e), call.posts)
    case Success(data) =>
      match PageItems(data)
      case None => PageError(Coercion, call.posts)
      case Some(items) => Page(items, Get(data, "next"), call.posts)
  }

  /** The page request whose first POST is the network's `pos`-th. */
  function ReadPage(apiMethod: string, net: Network, pos: nat): (page: Page)
    ensures 1 <= page.posts <= MaxAttempts
  {
    PageOf(CallSpec(apiMethod, net, pos))
  }

  /** What the page request whose first POST is the network's `pos`-th yields. */
  type PageReader = nat -> Page

  /** The page requests of one listing method against the network. */
  function Reader(apiMethod: string, net: Network): PageReader {
    (pos: nat) => ReadPage(apiMethod, net, pos)
  }

  /** The rest of a `list_*` loop, from the page request whose first POST is
      the network's `pos`-th, carrying `cursor`, with `acc` already read and at
      most `fuel` more page requests allowed. */
  function Paginate(read: PageReader, limit: int, pos: nat, cursor: Json, acc: seq<Json>, fuel: nat)
    : (run: ListRun)
    ensures |run.pages| == |run.nexts| <= |run.starts| <= fuel
    ensures |run.starts| <= |run.pages| + 1
    decreases fuel
  {
    if fuel == 0 then ListRun(Failure(Unfinished), 0, [], [], [])
    else
      var page := read(pos);
      if page.PageError? then ListRun(Failure(page.error), page.posts, [cursor], [], [])
      else if |acc + page.items| >= limit || !Truthy(page.next) then
        ListRun(Success(PyPrefix(acc + page.items, limit)), page.posts, [cursor], [page.items], [page.next])
      else
        Combine(page.posts, [cursor], [page.items], [page.next],
                Paginate(read, limit, pos + page.posts, page.next, acc + page.items, fuel - 1))
  }

  /** `Paginate` in the shape of the loop: the requests already made are
      carried along and the run is returned whole. */
  function PaginateFrom(read: PageReader, limit: int, pos: nat, cursor: Json, acc: seq<Json>, fuel: nat,
                        posts: nat, starts: seq<Json>, pages: seq<seq<Json>>, nexts: seq<Json>): ListRun
    decreases fuel
  {
    if fuel == 0 then ListRun(Failure(Unfinished), posts, starts, pages, nexts)
    else
      var page := read(pos);
      if page.PageError? then ListRun(Failure(page.error), posts + page.posts, starts + [cursor], pages, nexts)
      else if |acc + page.items| >= limit || !Truthy(page.next) then
        ListRun(Success(PyPrefix(acc + page.items, limit)), posts + page.posts, starts + [cursor],
                pages + [page.items], nexts + [page.next])
      else
        PaginateFrom(read, limit, pos + page.posts, page.next, acc + page.items, fuel - 1,
                     posts + page.posts, starts + [cursor], pages + [page.items], nexts + [page.next])
  }

  lemma {:induction false} PaginateFromCombines(read: PageReader, limit: int, pos: nat, cursor: Json, acc: seq<Json>, fuel: nat,
                                                posts: nat, starts: seq<Json>, pages: seq<seq<Json>>, nexts: seq<Json>)
    ensures PaginateFrom(read, limit, pos, cursor, acc, fuel, posts, starts, pages, nexts)
         == Combine(posts, starts, pages, nexts, Paginate(read, limit, pos, cursor, acc, fuel))
    decreases fuel
  {
    if fuel == 0 {
      assert starts + [] == starts && pages + [] == pages && nexts + [] == nexts;
    } else {
      var page := read(pos);
      if page.PageError? {
        assert pages + [] == pages && nexts + [] == nexts;
      } else if |acc + page.items| < limit && Truthy(page.next) {
        PaginateFromCombines(read, limit, pos + page.posts, page.next, acc + page.items, fuel - 1,
                             posts + page.posts, starts + [cursor], pages + [page.items], nexts + [page.next]);
        PaginateFromStep(read, limit, pos, cursor, acc, fuel, posts, starts, pages, nexts);
      }
    }
  }

  /** The step of `PaginateFromCombines` for a page after which the loop goes on. */
  lemma PaginateFromStep(read: PageReader, limit: int, pos: nat, cursor: Json, acc: seq<Json>, fuel: nat,
                         posts: nat, starts: seq<Json>, pages: seq<seq<Json>>, nexts: seq<Json>)
    requires fuel > 0 && read(pos).Page?
    requires |acc + read(pos).items| < limit && Truthy(read(pos).next)
    requires var page := read(pos);
      PaginateFrom(read, limit, pos + page.posts, page.next, acc + page.items, fuel - 1,
                   posts + page.posts, starts + [cursor], pages + [page.items], nexts + [page.next])
      == Combine(posts + page.posts, starts + [cursor], pages + [page.items], nexts + [page.next],
                 Paginate(read, limit, pos + page.posts, page.next, acc + page.items, fuel - 1))
    ensures PaginateFrom(read, limit, pos, cursor, acc, fuel, posts, starts, pages, nexts)
         == Combine(posts, starts, pages, nexts, Paginate(read, limit, pos, cursor, acc, fuel))
  {
    var page := read(pos);
    var rest := Paginate(read, limit, pos + page.posts, page.next, acc + page.items, fuel - 1);
    CombineAssoc(posts, starts, pages, nexts, page.posts, [cursor], [page.items], [page.next], rest);
  }

  /** The variables of a `list_*` loop between two page requests. */
  datatype ListState = ListState(pos: nat, cursor: Json, acc: seq<Json>, fuel: nat,
                                 posts: nat, starts: seq<Json>, pages: seq<seq<Json>>, nexts: seq<Json>)

  /** The rest of the run from a loop state. */
  function Resume(read: PageReader, limit: int, st: ListState): ListRun {
    PaginateFrom(read, limit, st.pos, st.cursor, st.acc, st.fuel, st.posts, st.starts, st.pages, st.nexts)
  }

  /** One turn of the loop form: after a page that lets the listing go on,
      the run from the next state is the run from this one. */
  lemma PaginateFromNext(read: PageReader, limit: int, st: ListState, page: Page) returns (next: ListState)
    requires st.fuel > 0 && page == read(st.pos) && page.Page?
    requires |st.acc + page.items| < limit && Truthy(page.next)
    ensures next == ListState(st.pos + page.posts, page.next, st.acc + page.items, st.fuel - 1, st.posts + page.posts,
                              st.starts + [st.cursor], st.pages + [page.items], st.nexts + [page.next])
    ensures Resume(read, limit, next) == Resume(read, limit, st)
  {
    next := ListState(st.pos + page.posts, page.next, st.acc + page.items, st.fuel - 1, st.posts + page.posts,
                      st.starts + [st.cursor], st.pages + [page.items], st.nexts + [page.next]);
  }

  lemma FlattenAppend(pages: seq<seq<Json>>, page: seq<Json>)
    ensures Flatten(pages + [page]) == Flatten(pages) + page
  {
    assert (pages + [page])[..|pages|] == pages;
  }

  lemma FlattenSingle(page: seq<Json>)
    ensures Flatten([page]) == page
  {
    assert [page][..0] == [];
  }

  lemma AppendAssoc<T>(a: seq<T>, b: seq<T>, c: seq<T>)
    ensures a + (b + c) == (a + b) + c
  {
  }

  lemma {:induction false} FlattenPrepend(page: seq<Json>, pages: seq<seq<Json>>)
    ensures Flatten([page] + pages) == page + Flatten(pages)
    decreases |pages|
  {
    if pages == [] {
      assert [page] + pages == [] + [page];
      FlattenAppend([], page);
    } else {
      var last := pages[|pages| - 1];
      var init := pages[..|pages| - 1];
      assert pages == init + [last];
      assert [page] + pages == ([page] + init) + [last];
      FlattenAppend([page] + init, last);
      FlattenPrepend(page, init);
      FlattenAppend(init, last);
    }
  }

  /** Every cursor after the first is the truthy `next` before it. */
  predicate CursorsChain(starts: seq<Json>, nexts: seq<Json>) {
    forall k :: 0 <= k < |nexts| && k + 1 < |starts| ==> starts[k + 1] == nexts[k] && Truthy(nexts[k])
  }

  /** A page with a truthy `next`, in front of a chained run whose first
      cursor is that `next`, keeps the chain. */
  lemma CursorsChainCons(cursor: Json, next: Json, starts: seq<Json>, nexts: seq<Json>)
    requires Truthy(next) && CursorsChain(starts, nexts)
    requires |starts| > 0 ==> starts[0] == next
    ensures CursorsChain([cursor] + starts, [next] + nexts)
  {
    var s, x := [cursor] + starts, [next] + nexts;
    forall k | 0 <= k < |x| && k + 1 < |s| ensures s[k + 1] == x[k] && Truthy(x[k]) {
      if k > 0 {
        assert x[k] == nexts[k - 1];
      }
    }
  }

  /** The cursors: the first page request carries the given cursor and every
      later one the `next` of the page before, which was truthy. */
  lemma {:induction false} PaginateCursors(read: PageReader, limit: int, pos: nat, cursor: Json, acc: seq<Json>, fuel: nat)
    ensures var run := Paginate(read, limit, pos, cursor, acc, fuel);
      (|run.starts| > 0 ==> run.starts[0] == cursor) && CursorsChain(run.starts, run.nexts)
    decreases fuel
  {
    var run := Paginate(read, limit, pos, cursor, acc, fuel);
    if fuel > 0 {
      var page := read(pos);
      if page.Page? && |acc + page.items| < limit && Truthy(page.next) {
        var rest := Paginate(read, limit, pos + page.posts, page.next, acc + page.items, fuel - 1);
        PaginateCursors(read, limit, pos + page.posts, page.next, acc + page.items, fuel - 1);
        assert run == Combine(page.posts, [cursor], [page.items], [page.next], rest);
        CursorsChainCons(cursor, page.next, rest.starts, rest.nexts);
      } else {
        assert run.starts == [cursor];
      }
    }
  }

  /** Before each page request after the first, fewer than `limit` items had
      been read. */
  predicate ContinuedBelowLimit(run: ListRun, acc: seq<Json>, limit: int) {
    forall k :: 1 <= k <= |run.pages| && k < |run.starts| ==> |acc + Flatten(run.pages[..k])| < limit
  }

  /** A successful run ended on a page that brought the items read to `limit`
      or had a falsy `next`, and returned the first `limit` items read. */
  predicate StoppedAtLimit(run: ListRun, acc: seq<Json>, limit: int) {
    run.result.Success? ==>
      |run.pages| == |run.starts| == |run.nexts| >= 1
      && (|acc + Flatten(run.pages)| >= limit || !Truthy(run.nexts[|run.nexts| - 1]))
      && run.result.value == PyPrefix(acc + Flatten(run.pages), limit)
  }

  /** The items read after the first k pages, once the first page is
      folded into what was read before. */
  lemma FlattenPrefixShift(acc: seq<Json>, items: seq<Json>, pages: seq<seq<Json>>, k: nat)
    requires 1 <= k <= |pages| + 1
    ensures acc + Flatten(([items] + pages)[..k]) == (acc + items) + Flatten(pages[..k - 1])
  {
    assert ([items] + pages)[..k] == [items] + pages[..k - 1];
    FlattenPrepend(items, pages[..k - 1]);
  }

  /** A page that left fewer than `limit` items read, in front of a run that
      continued only below `limit`, keeps that property. */
  lemma ContinuedCons(acc: seq<Json>, items: seq<Json>, limit: int, posts: nat, cursor: Json, next: Json, rest: ListRun)
    requires |acc + items| < limit && ContinuedBelowLimit(rest, acc + items, limit)
    ensures ContinuedBelowLimit(Combine(posts, [cursor], [items], [next], rest), acc, limit)
  {
    var run := Combine(posts, [cursor], [items], [next], rest);
    forall k | 1 <= k <= |run.pages| && k < |run.starts| ensures |acc + Flatten(run.pages[..k])| < limit {
      FlattenPrefixShift(acc, items, rest.pages, k);
    }
  }

  /** A page is followed by another only while fewer than `limit` items have
      been read. */
  lemma {:induction false} PaginateContinues(read: PageReader, limit: int, pos: nat, cursor: Json, acc: seq<Json>, fuel: nat)
    ensures ContinuedBelowLimit(Paginate(read, limit, pos, cursor, acc, fuel), acc, limit)
    decreases fuel
  {
    var run := Paginate(read, limit, pos, cursor, acc, fuel);
    if fuel > 0 {
      var page := read(pos);
      if page.Page? && |acc + page.items| < limit && Truthy(page.next) {
        var items := page.items;
        var results := acc + items;
        var rest := Paginate(read, limit, pos + page.posts, page.next, results, fuel - 1);
        PaginateContinues(read, limit, pos + page.posts, page.next, results, fuel - 1);
        assert run == Combine(page.posts, [cursor], [items], [page.next], rest);
        ContinuedCons(acc, items, limit, page.posts, cursor, page.next, rest);
      } else {
        assert run.starts == [cursor];
      }
    }
  }

  /** A page in front of a run that stopped at `limit` gives a run that
      stopped at `limit`. */
  lemma StoppedCons(acc: seq<Json>, items: seq<Json>, limit: int, posts: nat, cursor: Json, next: Json, rest: ListRun)
    requires StoppedAtLimit(rest, acc + items, limit)
    ensures StoppedAtLimit(Combine(posts, [cursor], [items], [next], rest), acc, limit)
  {
    if rest.result.Success? {
      FlattenPrepend(items, rest.pages);
      AppendAssoc(acc, items, Flatten(rest.pages));
    }
  }

  /** A successful listing stopped because `limit` items were read or `next`
      was falsy, and returns the first `limit` items of all pages read. */
  lemma {:induction false} PaginateResult(read: PageReader, limit: int, pos: nat, cursor: Json, acc: seq<Json>, fuel: nat)
    ensures StoppedAtLimit(Paginate(read, limit, pos, cursor, acc, fuel), acc, limit)
    decreases fuel
  {
    var run := Paginate(read, limit, pos, cursor, acc, fuel);
    if fuel > 0 {
      var page := read(pos);
      if page.Page? {
        var items := page.items;
        var results := acc + items;
        if |results| >= limit || !Truthy(page.next) {
          assert run == ListRun(Success(PyPrefix(results, limit)), page.posts, [cursor], [items], [page.next]);
          FlattenSingle(items);
        } else {
          var rest := Paginate(read, limit, pos + page.posts, page.next, results, fuel - 1);
          PaginateResult(read, limit, pos + page.posts, page.next, results, fuel - 1);
          assert run == Combine(page.posts, [cursor], [items], [page.next], rest);
          StoppedCons(acc, items, limit, page.posts, cursor, page.next, rest);
        }
      }
    }
  }

  /** A successful listing holds at most `limit` items, exactly `limit` when
      that many were read, and they are the first items of the pages read. */
  lemma ListingTruncated(read: PageReader, limit: int, fuel: nat)
    requires limit >= 0
    ensures var run := Paginate(read, limit, 0, Int(0), [], fuel);
      run.result.Success? ==>
        |run.result.value| <= limit
        && |run.result.value| <= |Flatten(run.pages)|
        && (|Flatten(run.pages)| >= limit ==> |run.result.value| == limit)
        && run.result.value == Flatten(run.pages)[..|run.result.value|]
  {
    PaginateResult(read, limit, 0, Int(0), [], fuel);
    var run := Paginate(read, limit, 0, Int(0), [], fuel);
    assert [] + Flatten(run.pages) == Flatten(run.pages);
  }

  /** A server that answers every POST with two items and a cursor. */
  function TwoPerPage(k: nat): Response {
    Reply(200, JsonBody(map["result" := Array([Int(2 * k), Int(2 * k + 1)]), "next" := Int(2 * k + 2)]))
  }

  lemma TwoPerPageRead(p: nat)
    ensures Reader(CompanyList, TwoPerPage)(p) == Page([Int(2 * p), Int(2 * p + 1)], Int(2 * p + 2), 1)
  {
    CallReturnsBodyUnchanged(CompanyList, TwoPerPage, p);
  }

  /** The pages that server gives the first three page requests. */
  predicate TwoPerPageReads(read: PageReader) {
    read(0) == Page([Int(0), Int(1)], Int(2), 1)
    && read(1) == Page([Int(2), Int(3)], Int(4), 1)
    && read(2) == Page([Int(4), Int(5)], Int(6), 1)
  }

  /** With four items read, the third page of that server ends the listing. */
  lemma PaginationExampleLast(read: PageReader, fuel: nat)
    requires TwoPerPageReads(read) && fuel >= 1
    ensures Paginate(read, 5, 2, Int(4), [Int(0), Int(1), Int(2), Int(3)], fuel)
         == ListRun(Success([Int(0), Int(1), Int(2), Int(3), Int(4)]), 1, [Int(4)], [[Int(4), Int(5)]], [Int(6)])
  {
    var acc := [Int(0), Int(1), Int(2), Int(3)];
    assert |acc + [Int(4), Int(5)]| == 6;
    assert PyPrefix(acc + [Int(4), Int(5)], 5) == [Int(0), Int(1), Int(2), Int(3), Int(4)];
  }

  /** With two items read, the second page continues to the third. */
  lemma PaginationExampleSecond(read: PageReader, fuel: nat)
    requires TwoPerPageReads(read) && fuel >= 2
    ensures Paginate(read, 5, 1, Int(2), [Int(0), Int(1)], fuel)
         == ListRun(Success([Int(0), Int(1), Int(2), Int(3), Int(4)]), 2, [Int(2), Int(4)],
                    [[Int(2), Int(3)], [Int(4), Int(5)]], [Int(4), Int(6)])
  {
    var acc := [Int(0), Int(1), Int(2), Int(3)];
    assert [Int(0), Int(1)] + [Int(2), Int(3)] == acc;
    var rest := Paginate(read, 5, 2, Int(4), acc, fuel - 1);
    assert Paginate(read, 5, 1, Int(2), [Int(0), Int(1)], fuel) == Combine(1, [Int(2)], [[Int(2), Int(3)]], [Int(4)], rest);
    PaginationExampleLast(read, fuel - 1);
    assert [Int(2)] + [Int(4)] == [Int(2), Int(4)];
    assert [[Int(2), Int(3)]] + [[Int(4), Int(5)]] == [[Int(2), Int(3)], [Int(4), Int(5)]];
    assert [Int(4)] + [Int(6)] == [Int(4), Int(6)];
  }

  /** A reader giving those pages lists five items in three page requests. */
  lemma PaginationExampleFirst(read: PageReader, fuel: nat)
    requires TwoPerPageReads(read) && fuel >= 3
    ensures var run := Paginate(read, 5, 0, Int(0), [], fuel);
      run.starts == [Int(0), Int(2), Int(4)]
      && run.posts == 3
      && run.result == Success([Int(0), Int(1), Int(2), Int(3), Int(4)])
  {
    assert [] + [Int(0), Int(1)] == [Int(0), Int(1)];
    var rest := Paginate(read, 5, 1, Int(2), [Int(0), Int(1)], fuel - 1);
    assert Paginate(read, 5, 0, Int(0), [], fuel) == Combine(1, [Int(0)], [[Int(0), Int(1)]], [Int(2)], rest);
    PaginationExampleSecond(read, fuel - 1);
    assert [Int(0)] + [Int(2), Int(4)] == [Int(0), Int(2), Int(4)];
  }

  /** Against that server, listing five items takes three page requests
      (cursors 0, 2 and 4) and truncates the third page. */
  lemma PaginationExample(fuel: nat)
    requires fuel >= 3
    ensures var run := Paginate(Reader(CompanyList, TwoPerPage), 5, 0, Int(0), [], fuel);
      run.starts == [Int(0), Int(2), Int(4)]
      && run.posts == 3
      && run.result == Success([Int(0), Int(1), Int(2), Int(3), Int(4)])
  {
    TwoPerPageRead(0);
    TwoPerPageRead(1);
    TwoPerPageRead(2);
    PaginationExampleFirst(Reader(CompanyList, TwoPerPage), fuel);
  }

  /** `read` yields the page requests of `apiMethod` against the network. */
  ghost predicate ReaderFor(read: PageReader, apiMethod: string, net: Network) {
    forall p: nat {:trigger ReadPage(apiMethod, net, p)} :: read(p) == ReadPage(apiMethod, net, p)
  }

  lemma ReaderIsFor(apiMethod: string, net: Network)
    ensures ReaderFor(Reader(apiMethod, net), apiMethod, net)
  {
  }

  /** One turn of the `list_*` loop up to the stop test: `_call` with the
      cursor, then `data.get("result", [])` and `data.get("next")`. */
  method FetchPage(client: Client, apiMethod: string, select: seq<Json>, cursor: Json, net: Network, pos: nat,
                   ghost read: PageReader, ghost before: seq<seq<Request>>, ghost starts: seq<Json>)
    returns (page: Page, ghost sent: seq<Request>, ghost log: seq<seq<Request>>)
    requires ReaderFor(read, apiMethod, net)
    ensures page == read(pos) && 1 <= page.posts
    ensures |sent| == page.posts && SentAll(sent, page.posts, client, apiMethod, ListPayload(select, cursor))
    ensures log == before + [sent]
    ensures PageRequests(before, client, apiMethod, select, starts) ==>
      PageRequests(log, client, apiMethod, select, starts + [cursor])
      && TotalPosts(log) == TotalPosts(before) + page.posts
  {
    var data, used;
    ghost var delays;
    data, used, sent, delays := Call(client, apiMethod, ListPayload(select, cursor), net, pos);
    assert read(pos) == ReadPage(apiMethod, net, pos);
    log := before + [sent];
    if PageRequests(before, client, apiMethod, select, starts) {
      PageRequestsSnoc(before, client, apiMethod, select, starts, sent, cursor);
    }
    if data.Failure? {
      return PageError(Runtime(data.error), used), sent, log;
    }
    var items := PageItems(data.value);
    if items.None? {
      return PageError(Coercion, used), sent, log;
    }
    page := Page(items.value, Get(data.value, "next"), used);
  }

  /** The POST log of a listing, one block per page request: every POST of
      a page request carries that request's cursor. */
  predicate PageRequests(sent: seq<seq<Request>>, client: Client, apiMethod: string, select: seq<Json>,
                         starts: seq<Json>)
    decreases |sent|
  {
    |sent| == |starts|
    && (sent != [] ==>
          var n := |sent| - 1;
          PageRequests(sent[..n], client, apiMethod, select, starts[..n])
          && |sent[n]| >= 1 && SentAll(sent[n], |sent[n]|, client, apiMethod, ListPayload(select, starts[n])))
  }

  /** The k-th page request POSTed the list body with the k-th cursor, at
      least once. */
  lemma {:induction false} PageRequestsAt(sent: seq<seq<Request>>, client: Client, apiMethod: string,
                                          select: seq<Json>, starts: seq<Json>, k: nat)
    requires PageRequests(sent, client, apiMethod, select, starts)
    requires k < |sent|
    ensures |sent[k]| >= 1
    ensures forall i :: 0 <= i < |sent[k]| ==>
      sent[k][i] == Request(client.baseUrl + "/" + apiMethod, ListPayload(select, starts[k]))
    decreases |sent|
  {
    var n := |sent| - 1;
    if k < n {
      PageRequestsAt(sent[..n], client, apiMethod, select, starts[..n], k);
      assert sent[..n][k] == sent[k] && starts[..n][k] == starts[k];
    }
  }

  /** The number of POSTs in a listing's log. */
  function TotalPosts(sent: seq<seq<Request>>): nat {
    if sent == [] then 0 else TotalPosts(sent[..|sent| - 1]) + |sent[|sent| - 1]|
  }

  lemma PageRequestsSnoc(sent: seq<seq<Request>>, client: Client, apiMethod: string, select: seq<Json>,
                         starts: seq<Json>, block: seq<Request>, cursor: Json)
    requires PageRequests(sent, client, apiMethod, select, starts)
    requires |block| >= 1 && SentAll(block, |block|, client, apiMethod, ListPayload(select, cursor))
    ensures PageRequests(sent + [block], client, apiMethod, select, starts + [cursor])
    ensures TotalPosts(sent + [block]) == TotalPosts(sent) + |block|
  {
    assert (sent + [block])[..|sent|] == sent;
    assert (starts + [cursor])[..|starts|] == starts;
  }

  /** The `list_companies`/`list_contacts` loop: request a page carrying the
      cursor, extend the results by its items, stop once `limit` items are in
      or `next` is falsy, otherwise carry `next` as the new cursor; return the
      first `limit` items. At most `maxPages` page requests are issued. The
      log `sent` holds the POSTs of each page request. */
  method ListPages(client: Client, apiMethod: string, select: seq<Json>, limit: int, maxPages: nat,
                   net: Network, start: nat, ghost read: PageReader)
    returns (r: Result<seq<Json>, ClientError>, posts: nat,
             ghost starts: seq<Json>, ghost sent: seq<seq<Request>>)
    requires ReaderFor(read, apiMethod, net)
    ensures var run := Paginate(read, limit, start, Int(0), [], maxPages);
      r == run.result && posts == run.posts
    ensures starts == Paginate(read, limit, start, Int(0), [], maxPages).starts
    ensures PageRequests(sent, client, apiMethod, select, starts) && TotalPosts(sent) == posts
  {
    var cursor: Json := Int(0);
    var results: seq<Json> := [];
    var pos := start;
    var fuel := maxPages;
    posts, starts, sent := 0, [], [];
    ghost var st := ListState(start, Int(0), [], maxPages, 0, [], [], []);
    ghost var whole := Resume(read, limit, st);
    PaginateFromCombines(read, limit, start, Int(0), [], maxPages, 0, [], [], []);
    assert whole == Paginate(read, limit, start, Int(0), [], maxPages);
    while fuel > 0
      invariant pos == start + posts
      invariant whole == Resume(read, limit, st)
      invariant st.pos == pos && st.cursor == cursor && st.acc == results && st.fuel == fuel
      invariant st.posts == posts && st.starts == starts
      invariant PageRequests(sent, client, apiMethod, select, starts) && TotalPosts(sent) == posts
      decreases fuel
    {
      var page;
      ghost var block;
      page, block, sent := FetchPage(client, apiMethod, select, cursor, net, pos, read, sent, starts);
      if page.PageError? {
        r, posts, starts := Failure(page.error), posts + page.posts, starts + [cursor];
        return;
      }
      if |results + page.items| >= limit || !Truthy(page.next) {
        r := Success(PyPrefix(results + page.items, limit));
        posts, starts := posts + page.posts, starts + [cursor];
        return;
      }
      st := PaginateFromNext(read, limit, st, page);
      posts, starts := posts + page.posts, starts + [cursor];
      results := results + page.items;
      cursor := page.next;
      pos := pos + page.posts;
      fuel := fuel - 1;
    }
    r := Failure(Unfinished);
  }

  /** `list_companies(limit)`. */
  method ListCompanies(client: Client, limit: int, maxPages: nat, net: Network, start: nat)
    returns (r: Result<seq<Json>, ClientError>, posts: nat, ghost starts: seq<Json>, ghost sent: seq<seq<Request>>)
    ensures var run := Paginate(Reader(CompanyList, net), limit, start, Int(0), [], maxPages);
      r == run.result && posts == run.posts
    ensures starts == Paginate(Reader(CompanyList, net), limit, start, Int(0), [], maxPages).starts
    ensures PageRequests(sent, client, CompanyList, CompanySelect, starts) && TotalPosts(sent) == posts
  {
    ReaderIsFor(CompanyList, net);
    r, posts, starts, sent :=
      ListPages(client, CompanyList, CompanySelect, limit, maxPages, net, start, Reader(CompanyList, net));
  }

  /** `list_contacts(limit)`. */
  method ListContacts(client: Client, limit: int, maxPages: nat, net: Network, start: nat)
    returns (r: Result<seq<Json>, ClientError>, posts: nat, ghost starts: seq<Json>, ghost sent: seq<seq<Request>>)
    ensures var run := Paginate(Reader(ContactList, net), limit, start, Int(0), [], maxPages);
      r == run.result && posts == run.posts
    ensures starts == Paginate(Reader(ContactList, net), limit, start, Int(0), [], maxPages).starts
    ensures PageRequests(sent, client, ContactList, ContactSelect, starts) && TotalPosts(sent) == posts
  {
    ReaderIsFor(ContactList, net);
    r, posts, starts, sent :=
      ListPages(client, ContactList, ContactSelect, limit, maxPages, net, start, Reader(ContactList, net));
  }

  // =====================================================================
  // Id projection

  /** `int(item["ID"])`, or `None` for the KeyError, TypeError or ValueError. */
  function IdOf(item: Json): Option<int> {
    if item.Object? && "ID" in item.fields then ToInt(item.fields["ID"]) else None
  }

  /** `[int(i["ID"]) for i in items]`: the ids in the same order, or the
      exception of the first item without a readable id. */
  function ProjectIds(items: seq<Json>): (r: Result<seq<int>, ClientError>)
    ensures r.Success? <==> forall k :: 0 <= k < |items| ==> IdOf(items[k]).Some?
    ensures r.Success? ==> |r.value| == |items| && forall k :: 0 <= k < |items| ==> IdOf(items[k]) == Some(r.value[k])
    ensures r.Failure? ==> r.error == Coercion
  {
    if items == [] then Success([])
    else match IdOf(items[0])
      case None => Failure(Coercion)
      case Some(id) =>
        match ProjectIds(items[1..])
        case Failure(e) => Failure(e)
        case Success(ids) => Success([id] + ids)
  }

  /** `list_company_ids(limit)`. */
  method ListCompanyIds(client: Client, limit: int, maxPages: nat, net: Network, start: nat)
    returns (r: Result<seq<int>, ClientError>, posts: nat, ghost starts: seq<Json>, ghost sent: seq<seq<Request>>)
    ensures var run := Paginate(Reader(CompanyList, net), limit, start, Int(0), [], maxPages);
      posts == run.posts
      && (run.result.Failure? ==> r == Failure(run.result.error))
      && (run.result.Success? ==> r == ProjectIds(run.result.value))
    ensures starts == Paginate(Reader(CompanyList, net), limit, start, Int(0), [], maxPages).starts
    ensures PageRequests(sent, client, CompanyList, CompanySelect, starts) && TotalPosts(sent) == posts
  {
    var items;
    items, posts, starts, sent := ListCompanies(client, limit, maxPages, net, start);
    r := match items case Failure(e) => Failure(e) case Success(list) => ProjectIds(list);
  }

  /** `list_contact_ids(limit)`. */
  method ListContactIds(client: Client, limit: int, maxPages: nat, net: Network, start: nat)
    returns (r: Result<seq<int>, ClientError>, posts: nat, ghost starts: seq<Json>, ghost sent: seq<seq<Request>>)
    ensures var run := Paginate(Reader(ContactList, net), limit, start, Int(0), [], maxPages);
      posts == run.posts
      && (run.result.Failure? ==> r == Failure(run.result.error))
      && (run.result.Success? ==> r == ProjectIds(run.result.value))
    ensures starts == Paginate(Reader(ContactList, net), limit, start, Int(0), [], maxPages).starts
    ensures PageRequests(sent, client, ContactList, ContactSelect, starts) && TotalPosts(sent) == posts
  {
    var items;
    items, posts, starts, sent := ListContacts(client, limit, maxPages, net, start);
    r := match items case Failure(e) => Failure(e) case Success(list) => ProjectIds(list);
  }
}
