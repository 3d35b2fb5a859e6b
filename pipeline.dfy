/**
 * The two-stage chain every enrichment path runs for one lead: the contact
 * resolver, then the augmentation generator with the contact just resolved,
 * then one write of the outcome. The three routes inline this chain; it is
 * defined once here, with the log of the provider calls it makes.
 */
module Pipeline {
  import opened Wrappers
  import opened JsString
  import opened LeadStore
  import Ciro
  import Claude

  /**
   * The resolver and the generator as the routes call them: each returns its
   * result or throws. The routes are stated for any pair; `Configured` is the
   * pair the application wires in.
   */
  datatype Providers = Providers(
    resolve: Ciro.ContactRequest -> Result<Ciro.Contact, Ciro.LookupError>,
    generate: Claude.EnrichedLeadData -> Result<Claude.HierarchyAndEmail, Claude.GenerationError>)

  /** `enrichWithCiro` and `generateHierarchyAndEmail`, under the configured modes. */
  function Configured(ciro: Ciro.CiroProvider, claude: Claude.ClaudeProvider): (p: Providers)
    ensures forall r :: p.resolve(r) == Ciro.CallCiro(ciro, r)
    ensures forall d :: p.generate(d) == Claude.GenerateHierarchyAndEmail(claude, d)
  {
    Providers(r => Ciro.CallCiro(ciro, r), d => Claude.GenerateHierarchyAndEmail(claude, d))
  }

  /** A generator that never succeeds with an empty hierarchy or an empty template. */
  ghost predicate KeepsContent(providers: Providers) {
    forall d :: providers.generate(d).Success? ==>
      providers.generate(d).value.hierarchy != "" && providers.generate(d).value.emailTemplate != ""
  }

  /** The configured generator keeps content: its fallbacks replace empty sections. */
  lemma ConfiguredKeepsContent(ciro: Ciro.CiroProvider, claude: Claude.ClaudeProvider)
    ensures KeepsContent(Configured(ciro, claude))
  {
    var providers := Configured(ciro, claude);
    forall d ensures providers.generate(d).Success? ==>
                       providers.generate(d).value.hierarchy != "" && providers.generate(d).value.emailTemplate != ""
    {
      assert providers.generate(d) == Claude.GenerateHierarchyAndEmail(claude, d);
    }
  }

  /** One outbound call, with what it was asked. */
  datatype Call = ResolverCall(request: Ciro.ContactRequest) | GeneratorCall(input: Claude.EnrichedLeadData)

  /** What the chain reads of a lead. */
  datatype Profile = Profile(name: string, title: Option<string>, company: Option<string>,
                             linkedinUrl: Option<string>, connectionDegree: Option<string>)

  /** The stage that threw. */
  datatype StageError = LookupStage | GenerationStage

  /** Both stages' results, when both succeeded. */
  datatype Enrichment = Enrichment(contact: Ciro.Contact, augmentation: Claude.HierarchyAndEmail)

  /** One run of the chain: its outcome and the calls it made, in order. */
  datatype Attempt = Attempt(outcome: Result<Enrichment, StageError>, calls: seq<Call>)

  function ProfileOf(l: Lead): Profile {
    Profile(l.name, l.title, l.company, l.linkedinUrl, l.connectionDegree)
  }

  /** `{ name, company: company || '', linkedinUrl }`. */
  function ResolverRequest(p: Profile): Ciro.ContactRequest {
    Ciro.ContactRequest(p.name, OrElse(p.company, ""), p.linkedinUrl)
  }

  /** `{ name, title: title || '', company: company || '', connectionDegree, email, phone }`. */
  function GeneratorInput(p: Profile, c: Ciro.Contact): Claude.EnrichedLeadData {
    Claude.EnrichedLeadData(p.name, OrElse(p.title, ""), OrElse(p.company, ""), p.connectionDegree, c.email, c.phone)
  }

  /**
   * The chain: the resolver is always called first; the generator is called only
   * after the resolver succeeded, and is given the email and phone it resolved;
   * the chain succeeds exactly when both stages do, with both stages' results.
   */
  function Enrich(providers: Providers, p: Profile): (a: Attempt)
    ensures |a.calls| >= 1 && a.calls[0] == ResolverCall(ResolverRequest(p))
    ensures providers.resolve(ResolverRequest(p)).Failure? ==>
              a == Attempt(Failure(LookupStage), [ResolverCall(ResolverRequest(p))])
    ensures providers.resolve(ResolverRequest(p)).Success? ==>
              var contact := providers.resolve(ResolverRequest(p)).value;
              var generated := providers.generate(GeneratorInput(p, contact));
              && a.calls == [ResolverCall(ResolverRequest(p)), GeneratorCall(GeneratorInput(p, contact))]
              && (generated.Failure? ==> a.outcome == Failure(GenerationStage))
              && (generated.Success? ==> a.outcome == Success(Enrichment(contact, generated.value)))
    ensures KeepsContent(providers) && a.outcome.Success? ==>
              a.outcome.value.augmentation.hierarchy != "" && a.outcome.value.augmentation.emailTemplate != ""
  {
    var request := ResolverRequest(p);
    match providers.resolve(request)
    case Failure(_) => Attempt(Failure(LookupStage), [ResolverCall(request)])
    case Success(contact) =>
      var input := GeneratorInput(p, contact);
      match providers.generate(input)
      case Failure(_) => Attempt(Failure(GenerationStage), [ResolverCall(request), GeneratorCall(input)])
      case Success(augmentation) =>
        Attempt(Success(Enrichment(contact, augmentation)), [ResolverCall(request), GeneratorCall(input)])
  }

  /** Whether a call log holds a call to the generator. */
  predicate CalledGenerator(calls: seq<Call>) {
    exists i :: 0 <= i < |calls| && calls[i].GeneratorCall?
  }

  /** The success update: contact, hierarchy, template, `completed` and the stamp, in one write. */
  function EnrichedPatch(e: Enrichment, now: Timestamp): LeadPatch {
    LeadPatch(Put(e.contact.email), Put(e.contact.phone), Put(Some(e.augmentation.hierarchy)),
              Put(Some(e.augmentation.emailTemplate)), Put(Completed), Put(Some(now)))
  }

  /** The failure update: `{ enrichmentStatus: 'failed' }` and nothing else. */
  const FailedPatch: LeadPatch := LeadPatch(Keep, Keep, Keep, Keep, Put(Failed), Keep)

  /** The write that follows a run of the chain on a stored lead. */
  function Settle(l: Lead, outcome: Result<Enrichment, StageError>, now: Timestamp): Lead {
    match outcome
    case Success(e) => ApplyPatch(l, EnrichedPatch(e, now))
    case Failure(_) => ApplyPatch(l, FailedPatch)
  }

  /**
   * A completed lead carries the generator's output and its stamp. Email and
   * phone may still be `null`: `completed` means the chain ran to the end.
   */
  predicate CompletedHasContent(l: Lead) {
    l.status == Completed ==>
      l.hierarchy.Some? && l.hierarchy.value != "" &&
      l.emailTemplate.Some? && l.emailTemplate.value != "" &&
      l.enrichedAt.Some?
  }

  /**
   * A failed resolver stops the chain: the generator is never called, and the
   * lead is written as `failed` with every other field as it was.
   */
  lemma ResolverFailureSkipsGenerator(providers: Providers, l: Lead, now: Timestamp)
    requires providers.resolve(ResolverRequest(ProfileOf(l))).Failure?
    ensures var a := Enrich(providers, ProfileOf(l));
            && !CalledGenerator(a.calls)
            && a.outcome == Failure(LookupStage)
            && Settle(l, a.outcome, now) == l.(status := Failed)
  {
    var a := Enrich(providers, ProfileOf(l));
    assert a.calls == [ResolverCall(ResolverRequest(ProfileOf(l)))];
  }

  /**
   * A failed generator after a successful resolver writes only the status: the
   * email and phone just resolved are dropped.
   */
  lemma GeneratorFailureWritesOnlyStatus(providers: Providers, l: Lead, now: Timestamp)
    requires providers.resolve(ResolverRequest(ProfileOf(l))).Success?
    requires providers.generate(GeneratorInput(ProfileOf(l), providers.resolve(ResolverRequest(ProfileOf(l))).value)).Failure?
    ensures var a := Enrich(providers, ProfileOf(l));
            && CalledGenerator(a.calls)
            && a.outcome == Failure(GenerationStage)
            && Settle(l, a.outcome, now) == l.(status := Failed)
  {
    var a := Enrich(providers, ProfileOf(l));
    assert a.calls[1].GeneratorCall?;
  }

  /**
   * When both stages succeed, one write sets email and phone from the resolver
   * (even when they are `null`), hierarchy and template from the generator,
   * `completed` and the stamp; the profile is untouched.
   */
  lemma SuccessWritesEverything(providers: Providers, l: Lead, now: Timestamp)
    requires KeepsContent(providers)
    requires Enrich(providers, ProfileOf(l)).outcome.Success?
    ensures var e := Enrich(providers, ProfileOf(l)).outcome.value;
            var s := Settle(l, Enrich(providers, ProfileOf(l)).outcome, now);
            && s == l.(email := e.contact.email, phone := e.contact.phone,
                       hierarchy := Some(e.augmentation.hierarchy),
                       emailTemplate := Some(e.augmentation.emailTemplate),
                       status := Completed, enrichedAt := Some(now))
            && CompletedHasContent(s)
  {
  }

  /** Every write that follows the chain leaves a lead whose `completed` status is backed by content. */
  lemma SettleKeepsCompletedContent(l: Lead, outcome: Result<Enrichment, StageError>, now: Timestamp)
    requires CompletedHasContent(l)
    requires outcome.Success? ==>
               outcome.value.augmentation.hierarchy != "" && outcome.value.augmentation.emailTemplate != ""
    ensures CompletedHasContent(Settle(l, outcome, now))
  {
  }

  /**
   * There is no skip: the chain reads only the profile, so a `completed` or
   * `failed` lead runs both stages again exactly as a pending one with the same
   * profile, and a success overwrites whatever enrichment it held.
   */
  lemma NoSkip(providers: Providers, l1: Lead, l2: Lead, now: Timestamp)
    requires SameProfile(l1, l2)
    ensures Enrich(providers, ProfileOf(l1)) == Enrich(providers, ProfileOf(l2))
    ensures Enrich(providers, ProfileOf(l1)).outcome.Success? ==>
              Settle(l1, Enrich(providers, ProfileOf(l1)).outcome, now) ==
              Settle(l2, Enrich(providers, ProfileOf(l2)).outcome, now)
  {
    assert ProfileOf(l1) == ProfileOf(l2);
  }
}
