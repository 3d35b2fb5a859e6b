/**
 * The contact resolver (`callCiro`, exported a second time as `enrichLead`):
 * one call to the contact-lookup provider, the collapse of every provider
 * problem into one failure, the `|| null` normalisation of what comes back,
 * and the stub used when no provider key is configured.
 */
module Ciro {
  import opened Wrappers
  import opened JsString

  /** `{ name, company, linkedinUrl }`: what the resolver is asked about. */
  datatype ContactRequest = ContactRequest(name: string, company: string, linkedinUrl: Option<string>)

  /** `{ email, phone }`: what the resolver returns; either may be `null`. */
  datatype Contact = Contact(email: Option<string>, phone: Option<string>)

  /** The fields of the provider's JSON body that the resolver reads. */
  datatype CiroBody = CiroBody(email: Option<string>, phone: Option<string>)

  /**
   * One exchange with the provider: the request never got an answer, or it got a
   * response with its `ok` flag and its body (`None` when the body is not JSON).
   */
  datatype CiroResponse = NetworkError | HttpResponse(ok: bool, body: Option<CiroBody>)

  /**
   * The resolver chosen when the process is configured: the stub (no API key)
   * or the live provider, given as the response it sends to each request.
   */
  datatype CiroProvider = CiroStub | CiroLive(respond: ContactRequest -> CiroResponse)

  /** Every way the lookup can fail, collapsed into one. */
  datatype LookupError = LookupFailure

  const StubPhone: string := "+1-555-0100"

  /** `data.email || null` and `data.phone || null`. */
  function Normalise(body: CiroBody): (c: Contact)
    ensures c.email.Some? ==> c.email.value != "" && c.email == body.email
    ensures c.phone.Some? ==> c.phone.value != "" && c.phone == body.phone
    ensures Truthy(body.email) ==> c.email == body.email
    ensures Truthy(body.phone) ==> c.phone == body.phone
  {
    Contact(OrNull(body.email), OrNull(body.phone))
  }

  /** A response the resolver accepts: it arrived, is `ok`, and its body is JSON. */
  predicate Usable(r: CiroResponse) {
    r.HttpResponse? && r.ok && r.body.Some?
  }

  /** The stub's first and last name: the first space-separated token or `unknown`, the rest or `user`. */
  function StubNames(name: string): (names: (string, string)) {
    var (first, rest) := HeadAndTail(name, " ");
    (if first == "" then "unknown" else first, if rest == "" then "user" else rest)
  }

  /** The stub's domain: the company name in lower case with every whitespace character removed. */
  function StubDomain(company: string): string {
    RemoveWhitespace(ToLower(company))
  }

  /** The stub's address `first.last@company.com`, in lower case. */
  function StubEmail(name: string, company: string): string {
    var (first, last) := StubNames(name);
    ToLower(first) + "." + ToLower(last) + "@" + StubDomain(company) + ".com"
  }

  /**
   * `callCiro` (and its alias `enrichLead`): the stub answers every request with
   * the derived address and the fixed phone; the live provider fails unless its
   * response is usable, and a usable response is normalised.
   */
  function CallCiro(provider: CiroProvider, req: ContactRequest): (r: Result<Contact, LookupError>)
    ensures provider.CiroStub? ==> r == Success(Contact(Some(StubEmail(req.name, req.company)), Some(StubPhone)))
    ensures provider.CiroLive? ==> (r.Success? <==> Usable(provider.respond(req)))
    ensures provider.CiroLive? && r.Success? ==> r.value == Normalise(provider.respond(req).body.value)
    ensures r.Success? ==> (r.value.email.Some? ==> r.value.email.value != "") &&
                           (r.value.phone.Some? ==> r.value.phone.value != "")
  {
    match provider
    case CiroStub =>
      Success(Contact(Some(StubEmail(req.name, req.company)), Some(StubPhone)))
    case CiroLive(respond) =>
      var response := respond(req);
      if response.NetworkError? || !response.ok || response.body.None? then Failure(LookupFailure)
      else Success(Normalise(response.body.value))
  }

  /**
   * The stub's names: the first name is never empty and holds no space; the last
   * name is never empty; when the name has a non-empty first token followed by a
   * space and more text, first name, space and last name give back the name.
   */
  lemma StubNamesSpec(name: string)
    ensures StubNames(name).0 != "" && ' ' !in StubNames(name).0
    ensures StubNames(name).1 != ""
    ensures ' ' !in name ==> StubNames(name).0 == (if name == "" then "unknown" else name)
    ensures ' ' !in name ==> StubNames(name).1 == "user"
    ensures ' ' in name && HeadAndTail(name, " ").0 != "" && HeadAndTail(name, " ").1 != "" ==>
              StubNames(name).0 + " " + StubNames(name).1 == name
  {
    HeadAndTailSpec(name, " ");
    ContainsChar(name, ' ');
    ContainsChar(HeadAndTail(name, " ").0, ' ');
  }

  /**
   * The stub's address has the shape `local@domain.com`: it ends in `.com`, the
   * character before the domain is `@`, the domain is the company in lower case
   * without whitespace, and the domain holds no whitespace and no upper-case letter.
   */
  lemma StubEmailShape(name: string, company: string)
    ensures var e, d := StubEmail(name, company), StubDomain(company);
      && |e| >= |d| + 7
      && e[|e| - 4..] == ".com"
      && e[|e| - 5 - |d|] == '@'
      && e[|e| - 4 - |d|..|e| - 4] == d
      && (forall i :: 0 <= i < |d| ==> !IsWhitespace(d[i]) && !('A' <= d[i] <= 'Z'))
  {
    var (first, last) := StubNames(name);
    StubNamesSpec(name);
    var d := StubDomain(company);
    var local := ToLower(first) + "." + ToLower(last);
    var e := StubEmail(name, company);
    assert e == local + "@" + d + ".com";
    assert |local| >= 3;
    LowerHasNoUpper(company);
    RemoveWhitespaceKeeps(ToLower(company));
  }

  /** Lower-casing leaves no ASCII upper-case letter. */
  lemma LowerHasNoUpper(s: string)
    ensures forall i :: 0 <= i < |ToLower(s)| ==> !('A' <= ToLower(s)[i] <= 'Z')
  {
  }

  /** Removing whitespace keeps only characters of the input. */
  lemma {:induction false} RemoveWhitespaceKeeps(s: string)
    ensures forall i :: 0 <= i < |RemoveWhitespace(s)| ==> RemoveWhitespace(s)[i] in s
  {
    if s != [] {
      RemoveWhitespaceKeeps(s[1..]);
    }
  }
}
