/** The bulk routes of the Bitrix24 router: the shared-secret gate, the
    create loops of `push_to_bitrix` and of the `push_stream` event
    generator, and the delete loops of `clear_bitrix` and of the
    `clear_stream` event generator.

    The routes are modelled over the outcomes of the client operations they
    call: the i-th `create_company` call of a request yields
    `remote.createCompany(i)`, and so on (what each of those calls does on
    the network is the subject of the BitrixClient module). Faker output and
    `random.choice` are given functions of the call index, `random.shuffle`
    a given permutation. Each handler also returns, as a ghost log, the
    client calls it made, in order. */
module Webhook {
  import opened Wrappers
  import opened JsonValues
  import BitrixClient

  // =====================================================================
  // Requests, replies and the world the handlers see

  /** An exception raised by a client call: a RuntimeError (what `_call`
      raises) or any other exception (a failed `int(...)`, ...), with the
      text `str(e)` gives. */
  datatype ErrorKind = RuntimeError | OtherError
  datatype Raised = Raised(kind: ErrorKind, message: string)

  /** `str(e)` of the RuntimeError `_call` raises, given the text of the last
      exception it recorded. */
  function CallErrorText(apiMethod: string, text: string): string {
    "HTTP error calling " + apiMethod + ": " + text
  }

  /** A client error as the routes see it: the RuntimeError of `_call`, whose
      text is "HTTP error calling <method>: " and the text of the last
      exception, or the exception of a coercion with its own text. A listing
      stopped at its page bound has no counterpart in the client. */
  function RaisedOf(e: BitrixClient.ClientError, text: string): (r: Option<Raised>)
    ensures r.None? <==> e.Unfinished?
    ensures r.Some? ==> (r.value.kind == RuntimeError <==> e.Runtime?)
    ensures r.Some? && e.Coercion? ==> r.value.message == text
  {
    match e
    case Runtime(ce) => Some(Raised(RuntimeError, CallErrorText(ce.apiMethod, text)))
    case Coercion => Some(Raised(OtherError, text))
    case Unfinished => None
  }

  /** The outcomes of the client calls of one request, by call index. */
  datatype Remote = Remote(
    createCompany: nat -> Result<int, Raised>,
    createContact: nat -> Result<int, Raised>,
    contactIds: Result<seq<int>, Raised>,    // list_contact_ids(limit=5000)
    companyIds: Result<seq<int>, Raised>,    // list_company_ids(limit=5000)
    deleteContact: nat -> Result<bool, Raised>,
    deleteCompany: nat -> Result<bool, Raised>)

  datatype Gender = Male | Female

  /** The value `random.choice(["male", "female"])` picked. */
  function GenderName(g: Gender): string {
    match g
    case Male => "male"
    case Female => "female"
  }

  datatype Names = Names(first: string, last: string, middle: string)

  /** The fake data of one request, by index: company titles, the gender
      picked for the j-th contact, the names Faker gives for that gender, and
      phone numbers. */
  datatype Fakes = Fakes(
    titles: nat -> string,
    genders: nat -> Gender,
    names: (nat, Gender) -> Names,
    phones: nat -> string)

  /** A client call, as the handlers make it. */
  datatype Call =
    | AddCompany(title: string)
    | AddContact(args: BitrixClient.ContactArgs)
    | ListContactIds(limit: int)
    | ListCompanyIds(limit: int)
    | DeleteContact(id: int)
    | DeleteCompany(id: int)

  /** One event of a progress stream, sent as `data: <payload>\n\n`. */
  datatype Event = Percent(value: nat) | Done | Error(error: Raised)

  /** What a request gets back. */
  datatype Reply =
    | Unprocessable                          // 422: `count` outside 1..500
    | Rejected(status: int, detail: string)  // an HTTPException
    | Stream(events: seq<Event>)             // a text/event-stream response
    | Pushed(companies: nat, contacts: nat)  // {"status": "ok", "bitrix_companies", "bitrix_contacts"}
    | Cleared(contacts: nat, companies: nat) // {"status": "ok", "deleted_contacts", "deleted_companies"}
    | ServerError(error: Raised)             // an uncaught exception: 500

  /** A handler run: its reply and the client calls it made. */
  datatype Run = Run(reply: Reply, calls: seq<Call>)

  const MinCount: int := 1
  const MaxCount: int := 500
  const ClearLimit: int := 5000
  const Forbidden: string := "Forbidden: invalid secret"

  /** `random.shuffle` reorders a list without adding or losing elements. */
  ghost predicate Shuffles(shuffle: seq<int> -> seq<int>) {
    forall s :: multiset(shuffle(s)) == multiset(s)
  }

  /** What the counting properties need of `random.shuffle`: the length is kept. */
  ghost predicate KeepsLength(shuffle: seq<int> -> seq<int>) {
    forall s :: |shuffle(s)| == |s|
  }

  lemma ShuffleKeepsLength(shuffle: seq<int> -> seq<int>, s: seq<int>)
    requires Shuffles(shuffle)
    ensures |shuffle(s)| == |s|
  {
    assert |multiset(shuffle(s))| == |multiset(s)|;
  }

  // =====================================================================
  // The secret gate

  /** The gate of every bulk route: with `BITRIX_WEBHOOK_SECRET` set to a
      non-empty value, a request passes only when it supplies that value;
      with it unset or empty, every request passes. */
  function SecretAccepted(configured: Option<string>, supplied: Option<string>): (ok: bool)
    ensures ok <==> configured == None || configured == Some("") || supplied == configured
  {
    var configuredTruthy := configured.Some? && configured.value != "";
    var suppliedFalsy := supplied.None? || supplied.value == "";
    !(configuredTruthy && (suppliedFalsy || supplied.value != configured.value))
  }

  /** A request without a secret, or with an empty one, is turned away
      whenever a secret is configured. */
  lemma GateNeedsSecret(secret: string, supplied: Option<string>)
    requires secret != ""
    requires supplied == None || supplied == Some("")
    ensures !SecretAccepted(Some(secret), supplied)
  {
  }

  /** The gate, then the handler body. */
  function Guarded(configured: Option<string>, supplied: Option<string>, body: Run): (run: Run)
    ensures SecretAccepted(configured, supplied) ==> run == body
    ensures !SecretAccepted(configured, supplied) ==> run.reply == Rejected(403, Forbidden) && run.calls == []
  {
    if SecretAccepted(configured, supplied) then body else Run(Rejected(403, Forbidden), [])
  }

  // =====================================================================
  // Progress values

  /** The value streamed after the `done`-th completed unit: `min(done // 2, 100)`. */
  function Progress(done: nat): (p: nat)
    ensures p <= 100
  {
    if done / 2 < 100 then done / 2 else 100
  }

  lemma ProgressMonotone(i: nat, j: nat)
    requires i <= j
    ensures Progress(i) <= Progress(j)
  {
  }

  /** The progress events after the first `n` completed units. */
  function ProgressEvents(n: nat): (events: seq<Event>)
    ensures |events| == n
  {
    if n == 0 then [] else ProgressEvents(n - 1) + [Percent(Progress(n))]
  }

  /** The k-th progress event carries the value after k + 1 units. */
  lemma {:induction false} ProgressEventAt(n: nat, k: nat)
    requires k < n
    ensures ProgressEvents(n)[k] == Percent(Progress(k + 1))
  {
    if k < n - 1 {
      ProgressEventAt(n - 1, k);
    }
  }

  /** The event that ends a stream: the error of the exception that
      stopped it, or "done". */
  function Terminal(failure: Option<Raised>): (event: Event)
    ensures !event.Percent?
  {
    if failure.Some? then Error(failure.value) else Done
  }

  /** A stream of `progress` progress events, then its terminal event. */
  function StreamEvents(progress: nat, failure: Option<Raised>): seq<Event> {
    ProgressEvents(progress) + [Terminal(failure)]
  }

  /** The numeric values of a stream never decrease and never exceed 100. */
  predicate NonDecreasing(events: seq<Event>) {
    (forall i :: 0 <= i < |events| && events[i].Percent? ==> events[i].value <= 100)
    && forall i, j :: 0 <= i < j < |events| && events[i].Percent? && events[j].Percent? ==>
         events[i].value <= events[j].value
  }

  /** Progress events followed by one terminal event form a non-decreasing
      stream. */
  lemma ProgressNonDecreasing(n: nat, last: Event)
    requires !last.Percent?
    ensures NonDecreasing(ProgressEvents(n) + [last])
  {
    var events := ProgressEvents(n) + [last];
    forall i | 0 <= i < n {
      ProgressEventAt(n, i);
    }
    forall i, j | 0 <= i < j < |events| && events[i].Percent? && events[j].Percent?
      ensures events[i].value <= events[j].value
    {
      ProgressEventAt(n, i);
      if j < n {
        ProgressEventAt(n, j);
      }
      ProgressMonotone(i + 1, j + 1);
    }
  }

  /** The streamed value is the percentage of the `2 * count` units done
      after every unit exactly when `count` is 100: for any other count it is
      half the number of units done, capped at 100. */
  lemma ProgressIsPercentageIff(count: nat)
    requires count >= 1
    ensures (forall d :: 1 <= d <= 2 * count ==> Progress(d) == d * 100 / (2 * count)) <==> count == 100
  {
    if count < 100 {
      QuotientWithin((2 * count) * 100, 2 * count, 100);
      assert Progress(2 * count) == count;
    } else if count > 100 {
      QuotientWithin(2 * 100, 2 * count, 0);
      assert Progress(2) == 1;
    } else {
      forall d | 1 <= d <= 2 * count ensures Progress(d) == d * 100 / (2 * count) {
        QuotientWithin(d * 100, 200, d / 2);
      }
    }
  }

  /** Division by a positive divisor yields the quotient its bounds fix. */
  lemma QuotientWithin(a: nat, b: nat, q: nat)
    requires b > 0 && b * q <= a < b * q + b
    ensures a / b == q
  {
    var r := a / b;
    assert b * r <= a < b * r + b;
    if r < q {
      ProductGrows(b, r, q);
    } else if r > q {
      ProductGrows(b, q, r);
    }
  }

  lemma {:induction false} ProductGrows(b: nat, x: nat, y: nat)
    requires x < y
    ensures b * x + b <= b * y
    decreases y - x
  {
    if x + 1 < y {
      ProductGrows(b, x + 1, y);
    }
    assert b * (x + 1) == b * x + b;
  }

  /** `f"data: {payload}\n\n"` for each event. */
  function Render(event: Event): (line: string)
    ensures |line| >= 8 && line[..6] == "data: " && line[|line| - 2..] == "\n\n"
  {
    match event
    case Percent(value) => "data: " + NatToString(value) + "\n\n"
    case Done => "data: done\n\n"
    case Error(e) => "data: error: " + e.message + "\n\n"
  }

  /** The payload of a rendered progress event reads back as its value, and
      the payload of the other events is not a number. */
  lemma RenderedPercentParses(event: Event)
    ensures var line := Render(event);
      ParseInt(line[6..|line| - 2]).Some? <==> event.Percent?
    ensures var line := Render(event);
      event.Percent? ==> ParseInt(line[6..|line| - 2]) == Some(event.value)
  {
    var line := Render(event);
    match event
    case Percent(value) =>
      assert line[6..|line| - 2] == NatToString(value) == IntToString(value);
      IntToStringRoundTrip(value);
    case Done =>
      assert line[6..|line| - 2] == "done";
      assert !IsDigit('d');
    case Error(e) =>
      assert line[6] == 'e' && !IsDigit('e');
  }

  // =====================================================================
  // Sequential client calls

  /** How many of the first `n` calls succeed before the first one that
      raises. */
  function Leading<T>(outcomes: nat -> Result<T, Raised>, n: nat): (k: nat)
    ensures k <= n
    ensures forall i :: 0 <= i < k ==> outcomes(i).Success?
    ensures k < n ==> outcomes(k).Failure?
  {
    if n == 0 then 0
    else
      var k := Leading(outcomes, n - 1);
      if k < n - 1 || outcomes(n - 1).Failure? then k else n
  }

  /** A call that raises stops every longer run of calls at the same place. */
  lemma {:induction false} LeadingStops<T>(outcomes: nat -> Result<T, Raised>, i: nat, n: nat)
    requires i < n
    requires Leading(outcomes, i) == i && outcomes(i).Failure?
    ensures Leading(outcomes, n) == i
    decreases n
  {
    if n > i + 1 {
      LeadingStops(outcomes, i, n - 1);
    }
  }

  /** The values of the first `n` calls, all of which succeed. */
  function Values<T>(outcomes: nat -> Result<T, Raised>, n: nat): (values: seq<T>)
    requires Leading(outcomes, n) == n
    ensures |values| == n && forall i :: 0 <= i < n ==> outcomes(i) == Success(values[i])
  {
    if n == 0 then [] else Values(outcomes, n - 1) + [outcomes(n - 1).value]
  }

  /** How many of the first `n` delete calls returned true without raising. */
  function Succeeded(outcomes: nat -> Result<bool, Raised>, n: nat): (k: nat)
    ensures k <= n
  {
    if n == 0 then 0 else Succeeded(outcomes, n - 1) + (if outcomes(n - 1) == Success(true) then 1 else 0)
  }

  /** Every delete is counted exactly when every one of them returned true. */
  lemma {:induction false} SucceededAll(outcomes: nat -> Result<bool, Raised>, n: nat)
    ensures Succeeded(outcomes, n) == n <==> forall j :: 0 <= j < n ==> outcomes(j) == Success(true)
  {
    if n > 0 {
      SucceededAll(outcomes, n - 1);
    }
  }

  // =====================================================================
  // The create loops

  /** The arguments of the contact created for `companyId` as the j-th one. */
  function ContactAt(fakes: Fakes, j: nat, companyId: int): (args: BitrixClient.ContactArgs)
    ensures args.companyId == Some(companyId)
  {
    var gender := fakes.genders(j);
    var names := fakes.names(j, gender);
    BitrixClient.ContactArgs(names.first, names.last, fakes.phones(j),
                             Some(GenderName(gender)), Some(companyId), Some(names.middle))
  }

  /** The first `n` `create_company` calls. */
  function CompanyCalls(fakes: Fakes, n: nat): (calls: seq<Call>)
    ensures |calls| == n && forall i :: 0 <= i < n ==> calls[i] == AddCompany(fakes.titles(i))
  {
    if n == 0 then [] else CompanyCalls(fakes, n - 1) + [AddCompany(fakes.titles(n - 1))]
  }

  /** The first `n` `create_contact` calls, one per company id of `order`. */
  function ContactCalls(fakes: Fakes, order: seq<int>, n: nat): (calls: seq<Call>)
    requires n <= |order|
    ensures |calls| == n && forall j :: 0 <= j < n ==> calls[j] == AddContact(ContactAt(fakes, j, order[j]))
  {
    if n == 0 then [] else ContactCalls(fakes, order, n - 1) + [AddContact(ContactAt(fakes, n - 1, order[n - 1]))]
  }

  /** What one create loop did: its calls, how many entities it created,
      and the exception that ended it early, if any. */
  datatype Phase = Phase(calls: seq<Call>, created: nat, failure: Option<Raised>)

  /** The company loop: `count` `create_company` calls, up to and including
      the first that raises. */
  function CompanyPhase(count: nat, fakes: Fakes, remote: Remote): (phase: Phase)
    ensures phase.created <= count
    ensures |phase.calls| == phase.created + (if phase.failure.Some? then 1 else 0)
    ensures phase.failure.None? ==> Leading(remote.createCompany, count) == count == phase.created
  {
    var c := Leading(remote.createCompany, count);
    if c < count then Phase(CompanyCalls(fakes, c + 1), c, Some(remote.createCompany(c).error))
    else Phase(CompanyCalls(fakes, c), c, None)
  }

  /** The contact loop: one `create_contact` call per company id of `order`,
      up to and including the first that raises. */
  function ContactPhase(fakes: Fakes, remote: Remote, order: seq<int>): (phase: Phase)
    ensures phase.created <= |order|
    ensures |phase.calls| == phase.created + (if phase.failure.Some? then 1 else 0)
    ensures phase.failure.None? ==> Leading(remote.createContact, |order|) == |order| == phase.created
  {
    var k := Leading(remote.createContact, |order|);
    if k < |order| then Phase(ContactCalls(fakes, order, k + 1), k, Some(remote.createContact(k).error))
    else Phase(ContactCalls(fakes, order, k), k, None)
  }

  /** What the create loops did: the calls, how many companies and contacts
      were created, and the exception that ended them early, if any. */
  datatype PushRun = PushRun(calls: seq<Call>, companies: nat, contacts: nat, failure: Option<Raised>)

  /** The create loops of both push routes: `count` companies, then, over the
      shuffled list of their ids, one contact per id; the first exception
      ends both loops. */
  function PushSpec(count: nat, fakes: Fakes, remote: Remote, shuffle: seq<int> -> seq<int>): (run: PushRun)
    ensures run.companies <= count
    ensures run.contacts > 0 || run.failure.None? ==> run.companies == count
    ensures |run.calls| == run.companies + run.contacts + (if run.failure.Some? then 1 else 0)
  {
    var companies := CompanyPhase(count, fakes, remote);
    if companies.failure.Some? then PushRun(companies.calls, companies.created, 0, companies.failure)
    else
      var contacts := ContactPhase(fakes, remote, shuffle(Values(remote.createCompany, count)));
      PushRun(companies.calls + contacts.calls, count, contacts.created, contacts.failure)
  }

  /** The calls of a push begin with the company calls, each with the fake
      title of its index. */
  lemma PushCompaniesFirst(count: nat, fakes: Fakes, remote: Remote, shuffle: seq<int> -> seq<int>)
    ensures var calls := PushSpec(count, fakes, remote, shuffle).calls;
      forall i :: 0 <= i < |calls| && i < count ==> calls[i] == AddCompany(fakes.titles(i))
  {
    var companies := CompanyPhase(count, fakes, remote);
    var calls := PushSpec(count, fakes, remote, shuffle).calls;
    assert calls[..|companies.calls|] == companies.calls;
  }

  /** The stream of `push_stream`: one progress event per created company
      or contact, then "done", or the error that ended the loops. */
  function PushEvents(run: PushRun): seq<Event> {
    StreamEvents(run.companies + run.contacts, run.failure)
  }

  /** The reply of `push_to_bitrix` to an exception: 502 with
      "Bitrix error: " for a RuntimeError, 500 with the message otherwise. */
  function PushErrorReply(e: Raised): (reply: Reply)
    ensures reply.Rejected? && (reply.status == 502 <==> e.kind == RuntimeError)
    ensures e.kind == RuntimeError ==> reply.detail == "Bitrix error: " + e.message
    ensures e.kind != RuntimeError ==> reply == Rejected(500, e.message)
  {
    if e.kind == RuntimeError then Rejected(502, "Bitrix error: " + e.message) else Rejected(500, e.message)
  }

  /** The reply of `push_to_bitrix`: the counts of created companies and
      contacts, or the error reply. */
  function PushReply(run: PushRun): Reply {
    if run.failure.Some? then PushErrorReply(run.failure.value) else Pushed(run.companies, run.contacts)
  }

  /** `count` outside 1..500 is refused by query validation before the
      handler runs. */
  predicate ValidCount(count: int) {
    MinCount <= count <= MaxCount
  }

  /** `GET /bitrix/webhook/push-stream`. */
  function PushStreamSpec(configured: Option<string>, supplied: Option<string>, count: int,
                          fakes: Fakes, remote: Remote, shuffle: seq<int> -> seq<int>): Run
  {
    if !ValidCount(count) then Run(Unprocessable, [])
    else
      var run := PushSpec(count, fakes, remote, shuffle);
      Guarded(configured, supplied, Run(Stream(PushEvents(run)), run.calls))
  }

  /** `POST /bitrix/webhook/push-to-bitrix`. */
  function PushToBitrixSpec(configured: Option<string>, supplied: Option<string>, count: int,
                            fakes: Fakes, remote: Remote, shuffle: seq<int> -> seq<int>): Run
  {
    if !ValidCount(count) then Run(Unprocessable, [])
    else
      var run := PushSpec(count, fakes, remote, shuffle);
      Guarded(configured, supplied, Run(PushReply(run), run.calls))
  }

  /** The count is validated before the secret is looked at: a count outside
      1..500 is refused with 422 and no client call, whatever the secret;
      a valid count with a bad secret is refused with 403. */
  lemma CountCheckedFirst(configured: Option<string>, supplied: Option<string>, count: int,
                          fakes: Fakes, remote: Remote, shuffle: seq<int> -> seq<int>)
    ensures !ValidCount(count) ==>
      PushStreamSpec(configured, supplied, count, fakes, remote, shuffle) == Run(Unprocessable, [])
      && PushToBitrixSpec(configured, supplied, count, fakes, remote, shuffle) == Run(Unprocessable, [])
    ensures ValidCount(count) && !SecretAccepted(configured, supplied) ==>
      PushStreamSpec(configured, supplied, count, fakes, remote, shuffle) == Run(Rejected(403, Forbidden), [])
      && PushToBitrixSpec(configured, supplied, count, fakes, remote, shuffle) == Run(Rejected(403, Forbidden), [])
  {
  }

  /** A stream of progress events and its terminal event: the values never
      decrease, and only the last event is not a progress event. */
  lemma StreamShape(progress: nat, failure: Option<Raised>)
    ensures var events := StreamEvents(progress, failure);
      NonDecreasing(events) && |events| == progress + 1
      && (forall i :: 0 <= i < progress ==> events[i].Percent?)
      && events[progress] == Terminal(failure)
  {
    var events := StreamEvents(progress, failure);
    ProgressNonDecreasing(progress, Terminal(failure));
    forall i | 0 <= i < progress ensures events[i].Percent? {
      ProgressEventAt(progress, i);
    }
  }

  /** A push completes exactly when every company and every contact call
      succeeds. */
  lemma PushCompletesIff(count: nat, fakes: Fakes, remote: Remote, shuffle: seq<int> -> seq<int>)
    requires KeepsLength(shuffle)
    ensures PushSpec(count, fakes, remote, shuffle).failure.None? <==>
      Leading(remote.createCompany, count) == count && Leading(remote.createContact, count) == count
  {
    var run := PushSpec(count, fakes, remote, shuffle);
    if CompanyPhase(count, fakes, remote).failure.None? {
      var contacts := ContactPhase(fakes, remote, shuffle(Values(remote.createCompany, count)));
      assert run.failure == contacts.failure;
    }
  }

  /** A push that completes creates `count` companies and `count` contacts;
      its stream carries `2 * count` progress events before "done", and
      `push_to_bitrix` reports both counts. */
  lemma PushSucceeds(count: nat, fakes: Fakes, remote: Remote, shuffle: seq<int> -> seq<int>)
    requires KeepsLength(shuffle)
    requires PushSpec(count, fakes, remote, shuffle).failure.None?
    ensures var run := PushSpec(count, fakes, remote, shuffle);
      && run.companies == count && run.contacts == count && PushReply(run) == Pushed(count, count)
      && PushEvents(run) == StreamEvents(2 * count, None)
  {
    var run := PushSpec(count, fakes, remote, shuffle);
    var contacts := ContactPhase(fakes, remote, shuffle(Values(remote.createCompany, count)));
    assert run.companies == count && run.contacts == contacts.created && run.failure == contacts.failure;
    assert run.companies + run.contacts == 2 * count && run.failure == None;
    assert PushEvents(run) == StreamEvents(run.companies + run.contacts, run.failure);
  }

  /** A push that does not complete is stopped by the first create call
      that raises: fewer than `2 * count` entities are created, the
      exception ends the stream after their progress events, and it decides
      the error reply of `push_to_bitrix`. */
  lemma PushFails(count: nat, fakes: Fakes, remote: Remote, shuffle: seq<int> -> seq<int>)
    requires KeepsLength(shuffle)
    requires PushSpec(count, fakes, remote, shuffle).failure.Some?
    ensures var run := PushSpec(count, fakes, remote, shuffle);
      && run.companies + run.contacts < 2 * count
      && PushReply(run) == PushErrorReply(run.failure.value)
      && PushEvents(run)[run.companies + run.contacts] == Error(run.failure.value)
      && (Leading(remote.createCompany, count) < count ==>
            run.failure.value == remote.createCompany(Leading(remote.createCompany, count)).error)
      && (Leading(remote.createCompany, count) == count ==>
            Leading(remote.createContact, count) < count
            && run.failure.value == remote.createContact(Leading(remote.createContact, count)).error)
  {
    var run := PushSpec(count, fakes, remote, shuffle);
    var companies := CompanyPhase(count, fakes, remote);
    if companies.failure.None? {
      var order := shuffle(Values(remote.createCompany, count));
      var contacts := ContactPhase(fakes, remote, order);
      assert run.companies == count && run.contacts == contacts.created && run.failure == contacts.failure;
    }
    StreamShape(run.companies + run.contacts, run.failure);
  }

  /** The company id of each `create_contact` call. */
  function ContactCompanyIds(calls: seq<Call>): (ids: seq<int>)
  {
    if calls == [] then []
    else
      var last := calls[|calls| - 1];
      ContactCompanyIds(calls[..|calls| - 1])
        + if last.AddContact? && last.args.companyId.Some? then [last.args.companyId.value] else []
  }

  lemma {:induction false} ContactCompanyIdsAppend(a: seq<Call>, b: seq<Call>)
    ensures ContactCompanyIds(a + b) == ContactCompanyIds(a) + ContactCompanyIds(b)
    decreases |b|
  {
    if b == [] {
      assert a + b == a;
    } else {
      var init := b[..|b| - 1];
      assert (a + b)[..|a + b| - 1] == a + init;
      ContactCompanyIdsAppend(a, init);
    }
  }

  lemma {:induction false} CompanyCallsHaveNoContact(fakes: Fakes, n: nat)
    ensures ContactCompanyIds(CompanyCalls(fakes, n)) == []
  {
    if n > 0 {
      CompanyCallsHaveNoContact(fakes, n - 1);
      var calls := CompanyCalls(fakes, n);
      assert calls[..n - 1] == CompanyCalls(fakes, n - 1);
    }
  }

  lemma {:induction false} ContactCallsCompanyIds(fakes: Fakes, order: seq<int>, n: nat)
    requires n <= |order|
    ensures ContactCompanyIds(ContactCalls(fakes, order, n)) == order[..n]
  {
    if n > 0 {
      assert order[..n] == order[..n - 1] + [order[n - 1]];
      ContactCallsCompanyIds(fakes, order, n - 1);
      var calls := ContactCalls(fakes, order, n);
      assert calls[..n - 1] == ContactCalls(fakes, order, n - 1);
    }
  }

  /** A push that succeeds creates exactly one contact per created company:
      the company ids of the `create_contact` calls are the created ids,
      each once, in shuffled order. */
  lemma PushContactPerCompany(count: nat, fakes: Fakes, remote: Remote, shuffle: seq<int> -> seq<int>)
    requires Shuffles(shuffle)
    requires PushSpec(count, fakes, remote, shuffle).failure.None?
    ensures Leading(remote.createCompany, count) == count
    ensures var run := PushSpec(count, fakes, remote, shuffle);
      var created := Values(remote.createCompany, count);
      multiset(ContactCompanyIds(run.calls)) == multiset(created)
      && |ContactCompanyIds(run.calls)| == count
  {
    var c := Leading(remote.createCompany, count);
    var created := Values(remote.createCompany, count);
    var order := shuffle(created);
    assert |multiset(order)| == |multiset(created)|;
    var k := Leading(remote.createContact, |order|);
    var run := PushSpec(count, fakes, remote, shuffle);
    assert run.calls == CompanyCalls(fakes, count) + ContactCalls(fakes, order, |order|);
    ContactCompanyIdsAppend(CompanyCalls(fakes, count), ContactCalls(fakes, order, |order|));
    CompanyCallsHaveNoContact(fakes, count);
    ContactCallsCompanyIds(fakes, order, |order|);
    assert order[..|order|] == order;
  }

  /** `push_stream`: the gate, then an event generator that creates `count`
      companies and then one contact per shuffled company id, streaming the
      progress after each, "done" at the end, or the error of the first
      exception and nothing after it. */
  method PushStream(configured: Option<string>, supplied: Option<string>, count: int,
                    fakes: Fakes, remote: Remote, shuffle: seq<int> -> seq<int>)
    returns (reply: Reply, ghost calls: seq<Call>)
    requires Shuffles(shuffle)
    ensures reply == PushStreamSpec(configured, supplied, count, fakes, remote, shuffle).reply
    ensures calls == PushStreamSpec(configured, supplied, count, fakes, remote, shuffle).calls
  {
    if !ValidCount(count) {
      return Unprocessable, [];
    }
    if !SecretAccepted(configured, supplied) {
      return Rejected(403, Forbidden), [];
    }
    var events;
    events, calls := PushEventGen(count, fakes, remote, shuffle);
    reply := Stream(events);
  }

  /** The event generator of `push_stream`. */
  method PushEventGen(count: nat, fakes: Fakes, remote: Remote, shuffle: seq<int> -> seq<int>)
    returns (events: seq<Event>, ghost calls: seq<Call>)
    requires Shuffles(shuffle)
    ensures events == PushEvents(PushSpec(count, fakes, remote, shuffle))
    ensures calls == PushSpec(count, fakes, remote, shuffle).calls
  {
    var createdCompanies, failure;
    createdCompanies, events, failure, calls := StreamCompanies(count, fakes, remote);
    if failure.Some? {
      return;
    }
    ShuffleKeepsLength(shuffle, createdCompanies);
    createdCompanies := shuffle(createdCompanies);
    ghost var companyCalls := calls;
    ghost var contactCalls;
    events, failure, contactCalls := StreamContacts(createdCompanies, count, events, fakes, remote);
    calls := companyCalls + contactCalls;
    PushEventsAfterContacts(count, fakes, remote, shuffle, createdCompanies);
    if failure.Some? {
      return;
    }
    events := events + [Done];
  }

  /** Once every company is created, the stream is the progress of `count`
      companies and of the contacts created, then its terminal event. */
  lemma PushEventsAfterContacts(count: nat, fakes: Fakes, remote: Remote, shuffle: seq<int> -> seq<int>, order: seq<int>)
    requires CompanyPhase(count, fakes, remote).failure.None?
    requires order == shuffle(Values(remote.createCompany, count))
    ensures var phase := ContactPhase(fakes, remote, order);
      PushEvents(PushSpec(count, fakes, remote, shuffle)) == StreamEvents(count + phase.created, phase.failure)
  {
    var run := PushSpec(count, fakes, remote, shuffle);
    var phase := ContactPhase(fakes, remote, order);
    assert run.companies + run.contacts == count + phase.created && run.failure == phase.failure;
  }

  /** The company loop of `push_stream`: a progress event after each
      created company, an error event for the first exception. */
  method StreamCompanies(count: nat, fakes: Fakes, remote: Remote)
    returns (createdCompanies: seq<int>, events: seq<Event>, failure: Option<Raised>, ghost calls: seq<Call>)
    ensures var phase := CompanyPhase(count, fakes, remote);
      failure == phase.failure
      && (failure.None? ==> events == ProgressEvents(phase.created))
      && (failure.Some? ==> events == StreamEvents(phase.created, failure))
      && (failure.None? ==> createdCompanies == Values(remote.createCompany, count))
    ensures calls == CompanyPhase(count, fakes, remote).calls
  {
    calls, events, createdCompanies := [], [], [];
    var done := 0;
    var i := 0;
    while i < count
      invariant 0 <= i <= count && done == i
      invariant Leading(remote.createCompany, i) == i
      invariant createdCompanies == Values(remote.createCompany, i)
      invariant calls == CompanyCalls(fakes, i)
      invariant events == ProgressEvents(done)
    {
      calls := calls + [AddCompany(fakes.titles(i))];
      var outcome := remote.createCompany(i);
      if outcome.Failure? {
        LeadingStops(remote.createCompany, i, count);
        events := events + [Error(outcome.error)];
        return createdCompanies, events, Some(outcome.error), calls;
      }
      createdCompanies := createdCompanies + [outcome.value];
      done := done + 1;
      events := events + [Percent(Progress(done))];
      i := i + 1;
    }
    failure := None;
  }

  /** The contact loop of `push_stream`, continuing the progress count from
      `done`: a progress event after each created contact, an error event
      for the first exception. */
  method StreamContacts(createdCompanies: seq<int>, done: nat, events0: seq<Event>, fakes: Fakes, remote: Remote)
    returns (events: seq<Event>, failure: Option<Raised>, ghost calls: seq<Call>)
    requires events0 == ProgressEvents(done)
    ensures var phase := ContactPhase(fakes, remote, createdCompanies);
      failure == phase.failure
      && (failure.None? ==> events == ProgressEvents(done + phase.created))
      && (failure.Some? ==> events == StreamEvents(done + phase.created, failure))
    ensures calls == ContactPhase(fakes, remote, createdCompanies).calls
  {
    calls, events := [], events0;
    var progress := done;
    var j := 0;
    while j < |createdCompanies|
      invariant 0 <= j <= |createdCompanies| && progress == done + j
      invariant Leading(remote.createContact, j) == j
      invariant calls == ContactCalls(fakes, createdCompanies, j)
      invariant events == ProgressEvents(progress)
    {
      var gender := fakes.genders(j);
      var names := fakes.names(j, gender);
      var args := BitrixClient.ContactArgs(names.first, names.last, fakes.phones(j),
                                           Some(GenderName(gender)), Some(createdCompanies[j]), Some(names.middle));
      assert args == ContactAt(fakes, j, createdCompanies[j]);
      calls := calls + [AddContact(args)];
      var outcome := remote.createContact(j);
      if outcome.Failure? {
        LeadingStops(remote.createContact, j, |createdCompanies|);
        events := events + [Error(outcome.error)];
        return events, Some(outcome.error), calls;
      }
      progress := progress + 1;
      events := events + [Percent(Progress(progress))];
      j := j + 1;
    }
    failure := None;
  }

  /** `push_to_bitrix`: the gate, then the same create loops, answering with
      the numbers of companies and contacts created, or with 502 for a
      RuntimeError and 500 for any other exception. */
  method PushToBitrix(configured: Option<string>, supplied: Option<string>, count: int,
                      fakes: Fakes, remote: Remote, shuffle: seq<int> -> seq<int>)
    returns (reply: Reply, ghost calls: seq<Call>)
    requires Shuffles(shuffle)
    ensures reply == PushToBitrixSpec(configured, supplied, count, fakes, remote, shuffle).reply
    ensures calls == PushToBitrixSpec(configured, supplied, count, fakes, remote, shuffle).calls
  {
    if !ValidCount(count) {
      return Unprocessable, [];
    }
    if !SecretAccepted(configured, supplied) {
      return Rejected(403, Forbidden), [];
    }
    reply, calls := PushEntities(count, fakes, remote, shuffle);
  }

  /** The body of `push_to_bitrix` after the gate. */
  method PushEntities(count: nat, fakes: Fakes, remote: Remote, shuffle: seq<int> -> seq<int>)
    returns (reply: Reply, ghost calls: seq<Call>)
    requires Shuffles(shuffle)
    ensures reply == PushReply(PushSpec(count, fakes, remote, shuffle))
    ensures calls == PushSpec(count, fakes, remote, shuffle).calls
  {
    var createdCompanies, failure;
    createdCompanies, failure, calls := CreateCompanies(count, fakes, remote);
    if failure.Some? {
      return PushErrorReply(failure.value), calls;
    }
    ShuffleKeepsLength(shuffle, createdCompanies);
    createdCompanies := shuffle(createdCompanies);
    ghost var companyCalls := calls;
    ghost var contactCalls;
    var createdContacts;
    createdContacts, failure, contactCalls := CreateContacts(createdCompanies, fakes, remote);
    calls := companyCalls + contactCalls;
    if failure.Some? {
      return PushErrorReply(failure.value), calls;
    }
    reply := Pushed(|createdCompanies|, |createdContacts|);
  }

  /** The company loop of `push_to_bitrix`. */
  method CreateCompanies(count: nat, fakes: Fakes, remote: Remote)
    returns (createdCompanies: seq<int>, failure: Option<Raised>, ghost calls: seq<Call>)
    ensures var phase := CompanyPhase(count, fakes, remote);
      failure == phase.failure
      && (failure.None? ==> createdCompanies == Values(remote.createCompany, count))
    ensures calls == CompanyPhase(count, fakes, remote).calls
  {
    calls, createdCompanies := [], [];
    var i := 0;
    while i < count
      invariant 0 <= i <= count
      invariant Leading(remote.createCompany, i) == i
      invariant createdCompanies == Values(remote.createCompany, i)
      invariant calls == CompanyCalls(fakes, i)
    {
      calls := calls + [AddCompany(fakes.titles(i))];
      var outcome := remote.createCompany(i);
      if outcome.Failure? {
        LeadingStops(remote.createCompany, i, count);
        return createdCompanies, Some(outcome.error), calls;
      }
      createdCompanies := createdCompanies + [outcome.value];
      i := i + 1;
    }
    failure := None;
  }

  /** The contact loop of `push_to_bitrix`: one contact per company id. */
  method CreateContacts(createdCompanies: seq<int>, fakes: Fakes, remote: Remote)
    returns (createdContacts: seq<int>, failure: Option<Raised>, ghost calls: seq<Call>)
    ensures var phase := ContactPhase(fakes, remote, createdCompanies);
      failure == phase.failure
      && (failure.None? ==> createdContacts == Values(remote.createContact, |createdCompanies|))
    ensures calls == ContactPhase(fakes, remote, createdCompanies).calls
  {
    calls, createdContacts := [], [];
    var j := 0;
    while j < |createdCompanies|
      invariant 0 <= j <= |createdCompanies|
      invariant Leading(remote.createContact, j) == j
      invariant createdContacts == Values(remote.createContact, j)
      invariant calls == ContactCalls(fakes, createdCompanies, j)
    {
      var gender := fakes.genders(j);
      var names := fakes.names(j, gender);
      var args := BitrixClient.ContactArgs(names.first, names.last, fakes.phones(j),
                                           Some(GenderName(gender)), Some(createdCompanies[j]), Some(names.middle));
      assert args == ContactAt(fakes, j, createdCompanies[j]);
      calls := calls + [AddContact(args)];
      var outcome := remote.createContact(j);
      if outcome.Failure? {
        LeadingStops(remote.createContact, j, |createdCompanies|);
        return createdContacts, Some(outcome.error), calls;
      }
      createdContacts := createdContacts + [outcome.value];
      j := j + 1;
    }
    failure := None;
  }

  // =====================================================================
  // The delete loops

  /** The first `n` `delete_contact` calls: one per id, in order. */
  function ContactDeletes(ids: seq<int>, n: nat): (calls: seq<Call>)
    requires n <= |ids|
    ensures |calls| == n && forall j :: 0 <= j < n ==> calls[j] == DeleteContact(ids[j])
  {
    if n == 0 then [] else ContactDeletes(ids, n - 1) + [DeleteContact(ids[n - 1])]
  }

  /** The first `n` `delete_company` calls: one per id, in order. */
  function CompanyDeletes(ids: seq<int>, n: nat): (calls: seq<Call>)
    requires n <= |ids|
    ensures |calls| == n && forall j :: 0 <= j < n ==> calls[j] == DeleteCompany(ids[j])
  {
    if n == 0 then [] else CompanyDeletes(ids, n - 1) + [DeleteCompany(ids[n - 1])]
  }

  /** `clear_stream` after the gate: list all contact ids, then all company
      ids; an exception from either ends the stream with its error; with
      nothing listed the stream is "100" and "done"; otherwise every contact
      and then every company is deleted, one progress event each, whatever
      the delete returned or raised, then "done". */
  function ClearStreamBody(remote: Remote): (run: Run)
    ensures run.reply.Stream? && run.reply.events != []
    ensures var ok := remote.contactIds.Success? && remote.companyIds.Success?;
      run.reply.events[|run.reply.events| - 1] == Done <==> ok
    ensures remote.contactIds.Failure? ==> run.reply.events == [Error(remote.contactIds.error)]
    ensures remote.contactIds.Success? && remote.companyIds.Failure? ==>
      run.reply.events == [Error(remote.companyIds.error)]
    ensures |run.calls| == (if remote.contactIds.Failure? then 1
                            else if remote.companyIds.Failure? then 2
                            else 2 + |remote.contactIds.value| + |remote.companyIds.value|)
  {
    var listContacts := [ListContactIds(ClearLimit)];
    if remote.contactIds.Failure? then Run(Stream([Error(remote.contactIds.error)]), listContacts)
    else
      var lists := listContacts + [ListCompanyIds(ClearLimit)];
      if remote.companyIds.Failure? then Run(Stream([Error(remote.companyIds.error)]), lists)
      else
        var contactIds := remote.contactIds.value;
        var companyIds := remote.companyIds.value;
        var total := |contactIds| + |companyIds|;
        if total == 0 then Run(Stream([Percent(100), Done]), lists)
        else Run(Stream(ProgressEvents(total) + [Done]), lists + ContactDeletes(contactIds, |contactIds|) + CompanyDeletes(companyIds, |companyIds|))
  }

  /** The error replies by client error: `push_to_bitrix` and `clear_bitrix`
      answer 502 exactly for the RuntimeError of `_call`, naming the method
      it was calling; `push_to_bitrix` answers 500 for a coercion error and
      `clear_bitrix` lets it escape. */
  lemma ClientErrorReplies(e: BitrixClient.ClientError, text: string)
    requires !e.Unfinished?
    ensures var raised := RaisedOf(e, text).value;
      (PushErrorReply(raised).status == 502 <==> e.Runtime?)
      && (ClearErrorReply(raised).Rejected? <==> e.Runtime?)
      && (e.Runtime? ==>
            PushErrorReply(raised).detail == "Bitrix error: " + CallErrorText(e.error.apiMethod, text)
            && ClearErrorReply(raised) == PushErrorReply(raised))
      && (e.Coercion? ==> PushErrorReply(raised) == Rejected(500, text) && ClearErrorReply(raised).ServerError?)
  {
  }

  /** A `create_company` whose five attempts all get a non-2xx status makes
      `push_to_bitrix` answer 502, naming the add method. */
  lemma ExhaustedCreateCompanyIs502(net: BitrixClient.Network, start: nat, text: string)
    requires forall k: nat :: k < BitrixClient.MaxAttempts ==> BitrixClient.Non2xxAt(net, start, k)
    ensures var outcome := BitrixClient.AddOutcome(BitrixClient.CallSpec(BitrixClient.CompanyAdd, net, start));
      outcome.Failure? && RaisedOf(outcome.error, text).Some?
      && PushErrorReply(RaisedOf(outcome.error, text).value)
         == Rejected(502, "Bitrix error: " + CallErrorText("crm.company.add.json", text))
  {
    BitrixClient.CallExhaustsRetries(BitrixClient.CompanyAdd, net, start);
  }

  /** `GET /bitrix/clear-stream`. */
  function ClearStreamSpec(configured: Option<string>, supplied: Option<string>, remote: Remote): Run {
    Guarded(configured, supplied, ClearStreamBody(remote))
  }

  /** The reply of `clear_bitrix` to an exception from a listing: 502 with
      "Bitrix error: " for a RuntimeError; any other exception escapes the
      handler and the server answers 500. */
  function ClearErrorReply(e: Raised): (reply: Reply)
    ensures reply.Rejected? <==> e.kind == RuntimeError
    ensures reply.Rejected? ==> reply == Rejected(502, "Bitrix error: " + e.message)
    ensures !reply.Rejected? ==> reply == ServerError(e)
  {
    if e.kind == RuntimeError then Rejected(502, "Bitrix error: " + e.message) else ServerError(e)
  }

  /** `clear_bitrix` after the gate: list the contact ids and delete each,
      counting the deletes that returned true; then list the company ids and
      do the same. A delete that raises is skipped; a listing that raises
      ends the request. */
  function ClearBitrixBody(remote: Remote): (run: Run)
    ensures run.reply.Cleared? <==> remote.contactIds.Success? && remote.companyIds.Success?
    ensures remote.contactIds.Failure? ==>
      run.reply == ClearErrorReply(remote.contactIds.error) && run.calls == [ListContactIds(ClearLimit)]
    ensures remote.contactIds.Success? && remote.companyIds.Failure? ==>
      run.reply == ClearErrorReply(remote.companyIds.error) && |run.calls| == |remote.contactIds.value| + 2
    ensures remote.contactIds.Success? && remote.companyIds.Success? ==>
      |run.calls| == 2 + |remote.contactIds.value| + |remote.companyIds.value|
  {
    var listContacts := [ListContactIds(ClearLimit)];
    if remote.contactIds.Failure? then Run(ClearErrorReply(remote.contactIds.error), listContacts)
    else
      var contactIds := remote.contactIds.value;
      var calls := listContacts + ContactDeletes(contactIds, |contactIds|) + [ListCompanyIds(ClearLimit)];
      if remote.companyIds.Failure? then Run(ClearErrorReply(remote.companyIds.error), calls)
      else
        var companyIds := remote.companyIds.value;
        Run(Cleared(Succeeded(remote.deleteContact, |contactIds|), Succeeded(remote.deleteCompany, |companyIds|)),
            calls + CompanyDeletes(companyIds, |companyIds|))
  }

  /** `POST /bitrix/clear-bitrix`. */
  function ClearBitrixSpec(configured: Option<string>, supplied: Option<string>, remote: Remote): Run {
    Guarded(configured, supplied, ClearBitrixBody(remote))
  }

  /** In a call log, no contact is deleted after a company. */
  predicate ContactsBeforeCompanies(calls: seq<Call>) {
    forall i, j :: 0 <= i < j < |calls| && calls[i].DeleteCompany? ==> !calls[j].DeleteContact?
  }

  /** A delete that returns false or raises never ends a clear loop: the
      calls both clear routes make, and the stream of `clear_stream`, do not
      depend on the outcomes of the deletes. */
  lemma ClearIgnoresDeleteOutcomes(configured: Option<string>, supplied: Option<string>, remote: Remote,
                                   contactOutcomes: nat -> Result<bool, Raised>,
                                   companyOutcomes: nat -> Result<bool, Raised>)
    ensures var other := remote.(deleteContact := contactOutcomes, deleteCompany := companyOutcomes);
      && ClearStreamSpec(configured, supplied, other) == ClearStreamSpec(configured, supplied, remote)
      && ClearBitrixSpec(configured, supplied, other).calls == ClearBitrixSpec(configured, supplied, remote).calls
  {
  }

  /** Both clear routes delete every listed contact before any company. */
  lemma ClearDeletesContactsFirst(configured: Option<string>, supplied: Option<string>, remote: Remote)
    ensures ContactsBeforeCompanies(ClearStreamSpec(configured, supplied, remote).calls)
    ensures ContactsBeforeCompanies(ClearBitrixSpec(configured, supplied, remote).calls)
  {
    if remote.contactIds.Success? {
      var contactIds := remote.contactIds.value;
      var lists := [ListContactIds(ClearLimit), ListCompanyIds(ClearLimit)];
      var deletes := ContactDeletes(contactIds, |contactIds|);
      var before := [ListContactIds(ClearLimit)] + deletes + [ListCompanyIds(ClearLimit)];
      if remote.companyIds.Success? {
        var companyDeletes := CompanyDeletes(remote.companyIds.value, |remote.companyIds.value|);
        var streamCalls := lists + deletes + companyDeletes;
        forall i, j | 0 <= i < j < |streamCalls| && streamCalls[i].DeleteCompany?
          ensures !streamCalls[j].DeleteContact?
        {
          assert i >= 2 + |deletes|;
        }
        var bitrixCalls := before + companyDeletes;
        forall i, j | 0 <= i < j < |bitrixCalls| && bitrixCalls[i].DeleteCompany?
          ensures !bitrixCalls[j].DeleteContact?
        {
          assert i >= 2 + |deletes|;
        }
      } else {
        forall i | 0 <= i < |before| ensures !before[i].DeleteCompany? {
          if 1 <= i <= |deletes| {
            assert before[i] == deletes[i - 1];
          }
        }
      }
    }
  }

  /** The calls of `clear_stream`: both listings, then one `delete_contact`
      per listed contact id, in listed order, then one `delete_company` per
      listed company id, in listed order; a failing listing deletes nothing. */
  lemma ClearStreamCallOrder(remote: Remote)
    ensures var calls := ClearStreamBody(remote).calls;
      calls[0] == ListContactIds(ClearLimit)
      && (remote.contactIds.Failure? ==> |calls| == 1)
      && (remote.contactIds.Success? ==> |calls| >= 2 && calls[1] == ListCompanyIds(ClearLimit))
      && (remote.contactIds.Success? && remote.companyIds.Failure? ==> |calls| == 2)
    ensures remote.contactIds.Success? && remote.companyIds.Success? ==>
      var calls := ClearStreamBody(remote).calls;
      var contactIds, companyIds := remote.contactIds.value, remote.companyIds.value;
      |calls| == 2 + |contactIds| + |companyIds|
      && (forall j :: 0 <= j < |contactIds| ==> calls[2 + j] == DeleteContact(contactIds[j]))
      && (forall j :: 0 <= j < |companyIds| ==> calls[2 + |contactIds| + j] == DeleteCompany(companyIds[j]))
  {
    if remote.contactIds.Success? && remote.companyIds.Success? {
      var calls := ClearStreamBody(remote).calls;
      var contactIds, companyIds := remote.contactIds.value, remote.companyIds.value;
      var contactDeletes := ContactDeletes(contactIds, |contactIds|);
      var companyDeletes := CompanyDeletes(companyIds, |companyIds|);
      assert calls == [ListContactIds(ClearLimit), ListCompanyIds(ClearLimit)] + contactDeletes + companyDeletes;
      forall j | 0 <= j < |contactIds| ensures calls[2 + j] == DeleteContact(contactIds[j]) {
        assert calls[2 + j] == contactDeletes[j];
      }
      forall j | 0 <= j < |companyIds| ensures calls[2 + |contactIds| + j] == DeleteCompany(companyIds[j]) {
        assert calls[2 + |contactIds| + j] == companyDeletes[j];
      }
    }
  }

  /** The calls of `clear_bitrix`: the contact listing, one `delete_contact`
      per listed contact id, in listed order, then the company listing and,
      when it succeeds, one `delete_company` per listed company id, in listed
      order; a failing contact listing is the only call. */
  lemma ClearBitrixCallOrder(remote: Remote)
    ensures var calls := ClearBitrixBody(remote).calls;
      calls[0] == ListContactIds(ClearLimit) && (remote.contactIds.Failure? ==> |calls| == 1)
    ensures remote.contactIds.Success? ==>
      var calls := ClearBitrixBody(remote).calls;
      var contactIds := remote.contactIds.value;
      |calls| >= 2 + |contactIds|
      && (forall j :: 0 <= j < |contactIds| ==> calls[1 + j] == DeleteContact(contactIds[j]))
      && calls[1 + |contactIds|] == ListCompanyIds(ClearLimit)
      && (remote.companyIds.Failure? ==> |calls| == 2 + |contactIds|)
      && (remote.companyIds.Success? ==>
            var companyIds := remote.companyIds.value;
            |calls| == 2 + |contactIds| + |companyIds|
            && forall j :: 0 <= j < |companyIds| ==> calls[2 + |contactIds| + j] == DeleteCompany(companyIds[j]))
  {
    if remote.contactIds.Success? {
      var calls := ClearBitrixBody(remote).calls;
      var contactIds := remote.contactIds.value;
      var contactDeletes := ContactDeletes(contactIds, |contactIds|);
      var listed := [ListContactIds(ClearLimit)] + contactDeletes + [ListCompanyIds(ClearLimit)];
      assert calls[..|listed|] == listed;
      forall j | 0 <= j < |contactIds| ensures calls[1 + j] == DeleteContact(contactIds[j]) {
        assert calls[1 + j] == listed[1 + j] == contactDeletes[j];
      }
      assert calls[1 + |contactIds|] == listed[1 + |contactIds|];
      if remote.companyIds.Success? {
        var companyIds := remote.companyIds.value;
        var companyDeletes := CompanyDeletes(companyIds, |companyIds|);
        assert calls == listed + companyDeletes;
        forall j | 0 <= j < |companyIds| ensures calls[2 + |contactIds| + j] == DeleteCompany(companyIds[j]) {
          assert calls[2 + |contactIds| + j] == companyDeletes[j];
        }
      }
    }
  }

  /** With nothing listed, `clear_stream` streams "100" and "done" and
      deletes nothing; otherwise its values rise monotonically, with one
      event per listed id before "done". */
  lemma ClearStreamEvents(remote: Remote)
    ensures var run := ClearStreamBody(remote);
      run.reply.Stream? && NonDecreasing(run.reply.events)
      && (remote.contactIds.Success? && remote.companyIds.Success? ==>
            var total := |remote.contactIds.value| + |remote.companyIds.value|;
            && (total == 0 ==>
                  && run.reply.events == [Percent(100), Done]
                  && forall c :: c in run.calls ==> !c.DeleteContact? && !c.DeleteCompany?)
            && (total > 0 ==>
                  && |run.reply.events| == total + 1
                  && run.reply.events[total - 1] == Percent(Progress(total))
                  && run.reply.events[total] == Done))
  {
    var run := ClearStreamBody(remote);
    if remote.contactIds.Success? && remote.companyIds.Success? {
      var total := |remote.contactIds.value| + |remote.companyIds.value|;
      if total > 0 {
        ProgressNonDecreasing(total, Done);
        ProgressEventAt(total, total - 1);
      }
    }
  }

  /** `clear_bitrix` reports, for contacts and for companies, the number of
      deletes that returned true: never more than the ids listed, and all of
      them exactly when every delete returned true. */
  lemma ClearedCounts(remote: Remote)
    requires remote.contactIds.Success? && remote.companyIds.Success?
    ensures var reply := ClearBitrixBody(remote).reply;
      var contactIds := remote.contactIds.value;
      var companyIds := remote.companyIds.value;
      reply.Cleared?
      && reply.contacts <= |contactIds| && reply.companies <= |companyIds|
      && (reply.contacts == |contactIds| <==> forall j :: 0 <= j < |contactIds| ==> remote.deleteContact(j) == Success(true))
      && (reply.companies == |companyIds| <==> forall j :: 0 <= j < |companyIds| ==> remote.deleteCompany(j) == Success(true))
  {
    SucceededAll(remote.deleteContact, |remote.contactIds.value|);
    SucceededAll(remote.deleteCompany, |remote.companyIds.value|);
  }

  /** `clear_stream`: the gate, then an event generator that lists the
      contact and company ids and deletes them all, streaming the progress. */
  method ClearStream(configured: Option<string>, supplied: Option<string>, remote: Remote)
    returns (reply: Reply, ghost calls: seq<Call>)
    ensures reply == ClearStreamSpec(configured, supplied, remote).reply
    ensures calls == ClearStreamSpec(configured, supplied, remote).calls
  {
    if !SecretAccepted(configured, supplied) {
      return Rejected(403, Forbidden), [];
    }
    var events;
    events, calls := ClearEventGen(remote);
    reply := Stream(events);
  }

  /** The event generator of `clear_stream`. */
  method ClearEventGen(remote: Remote) returns (events: seq<Event>, ghost calls: seq<Call>)
    ensures ClearStreamBody(remote).reply == Stream(events)
    ensures calls == ClearStreamBody(remote).calls
  {
    calls := [ListContactIds(ClearLimit)];
    if remote.contactIds.Failure? {
      return [Error(remote.contactIds.error)], calls;
    }
    var contactIds := remote.contactIds.value;
    calls := calls + [ListCompanyIds(ClearLimit)];
    if remote.companyIds.Failure? {
      return [Error(remote.companyIds.error)], calls;
    }
    var companyIds := remote.companyIds.value;
    var done := 0;
    var total := |contactIds| + |companyIds|;
    if total == 0 {
      return [Percent(100), Done], calls;
    }
    events := [];
    ghost var lists := calls;
    // A delete that raises is passed over; its outcome is not used.
    for j := 0 to |contactIds|
      invariant done == j
      invariant events == ProgressEvents(done)
      invariant calls == lists + ContactDeletes(contactIds, j)
    {
      calls := calls + [DeleteContact(contactIds[j])];
      done := done + 1;
      events := events + [Percent(Progress(done))];
    }
    ghost var afterContacts := calls;
    for j := 0 to |companyIds|
      invariant done == |contactIds| + j
      invariant events == ProgressEvents(done)
      invariant calls == afterContacts + CompanyDeletes(companyIds, j)
    {
      calls := calls + [DeleteCompany(companyIds[j])];
      done := done + 1;
      events := events + [Percent(Progress(done))];
    }
    events := events + [Done];
  }

  /** `clear_bitrix`: the gate, then the delete loops with their counters. */
  method ClearBitrix(configured: Option<string>, supplied: Option<string>, remote: Remote)
    returns (reply: Reply, ghost calls: seq<Call>)
    ensures reply == ClearBitrixSpec(configured, supplied, remote).reply
    ensures calls == ClearBitrixSpec(configured, supplied, remote).calls
  {
    if !SecretAccepted(configured, supplied) {
      return Rejected(403, Forbidden), [];
    }
    reply, calls := ClearEntities(remote);
  }

  /** The body of `clear_bitrix` after the gate. */
  method ClearEntities(remote: Remote) returns (reply: Reply, ghost calls: seq<Call>)
    ensures reply == ClearBitrixBody(remote).reply
    ensures calls == ClearBitrixBody(remote).calls
  {
    var deletedContacts := 0;
    var deletedCompanies := 0;
    calls := [ListContactIds(ClearLimit)];
    if remote.contactIds.Failure? {
      return ClearErrorReply(remote.contactIds.error), calls;
    }
    var contactIds := remote.contactIds.value;
    ghost var listed := calls;
    for j := 0 to |contactIds|
      invariant deletedContacts == Succeeded(remote.deleteContact, j)
      invariant calls == listed + ContactDeletes(contactIds, j)
    {
      calls := calls + [DeleteContact(contactIds[j])];
      var outcome := remote.deleteContact(j);
      if outcome.Success? && outcome.value {
        deletedContacts := deletedContacts + 1;
      }
    }
    calls := calls + [ListCompanyIds(ClearLimit)];
    if remote.companyIds.Failure? {
      return ClearErrorReply(remote.companyIds.error), calls;
    }
    var companyIds := remote.companyIds.value;
    ghost var afterContacts := calls;
    for j := 0 to |companyIds|
      invariant deletedCompanies == Succeeded(remote.deleteCompany, j)
      invariant calls == afterContacts + CompanyDeletes(companyIds, j)
    {
      calls := calls + [DeleteCompany(companyIds[j])];
      var outcome := remote.deleteCompany(j);
      if outcome.Success? && outcome.value {
        deletedCompanies := deletedCompanies + 1;
      }
    }
    reply := Cleared(deletedContacts, deletedCompanies);
  }
}
