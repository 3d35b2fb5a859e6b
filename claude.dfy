/**
 * The augmentation generator (`lib/claude.ts`): the call to the generation
 * provider, the tolerant marker parse of its free-text reply, the strict
 * JSON path of the email-only generator, and the hierarchy inference that
 * never fails.
 */
module Claude {
  import opened Wrappers
  import opened JsString
  import EmailTemplate

  /** `LeadData`: what `inferHierarchy` and `generateEmail` are told about a lead. */
  datatype LeadData = LeadData(firstName: string, lastName: string, title: string, company: string,
                               companySize: Option<string>, industry: Option<string>)

  /** `EnrichedLeadData`: what `generateHierarchyAndEmail` is told about a lead. */
  datatype EnrichedLeadData = EnrichedLeadData(name: string, title: string, company: string,
                                               connectionDegree: Option<string>,
                                               email: Option<string>, phone: Option<string>)

  /** `HierarchyAndEmailResult`. */
  datatype HierarchyAndEmail = HierarchyAndEmail(hierarchy: string, emailTemplate: string)

  /** `HierarchyInference`. */
  datatype HierarchyInference = HierarchyInference(seniorityLevel: string, department: string, level: int,
                                                   reportsTo: seq<string>, manages: seq<string>)

  /** `EmailGeneration`. */
  datatype EmailGeneration = EmailGeneration(subject: string, content: string)

  /**
   * One exchange with the generation provider: the request or the decoding of
   * its JSON body threw, or a JSON body arrived whose `content[0].text` may be
   * missing (an error body from the provider has none).
   */
  datatype ClaudeResponse = TransportError | ClaudeBody(text: Option<string>)

  /**
   * The three prompts the generator sends, named by what each is built from;
   * `PromptText` spells each one out.
   */
  datatype Prompt = AugmentPrompt(title: string) | HierarchyPrompt(lead: LeadData) | EmailPrompt(lead: LeadData, context: string)

  /**
   * The generator chosen when the process is configured: the stub (no API key)
   * or the live provider, given as the response it sends to each prompt.
   */
  datatype ClaudeProvider = ClaudeStub | ClaudeLive(respond: Prompt -> ClaudeResponse)

  /**
   * `JSON.parse` of a reply into the record the caller expects, for text that
   * parses; `None` stands for the exception.
   */
  datatype JsonParser = JsonParser(asEmail: string -> Option<EmailGeneration>,
                                   asHierarchy: string -> Option<HierarchyInference>)

  /** The error the generator throws, with its message. */
  datatype GenerationError = GenerationFailure(message: string)

  const HierarchyMarker: string := "Hierarchy:"
  const EmailMarker: string := "Email:"
  const NoHierarchy: string := "Unable to determine hierarchy"
  const NoTemplate: string := "Unable to generate email template"
  const HierarchyAndEmailFailed: string := "Failed to generate hierarchy and email"
  const EmailFailed: string := "Failed to generate email"

  /** The reply `callClaude` invents without an API key when the prompt mentions both `hierarchy` and `email`. */
  const MockAugmentation: string :=
    HierarchyMarker + " Director-level, reports to VP, manages team of engineers\nEmail: Subject: Exploring Product Management Opportunities\n\n"
    + "Dear Hiring Manager,\n\nI am reaching out regarding potential Product Manager opportunities at your organization. "
    + "With my background in technical product management and team scaling, I believe I could contribute significantly to your product initiatives.\n\n"
    + "Would you be available for a brief conversation to discuss how my experience might align with your team's needs?\n\n"
    + "Best regards,\n[Your Name]"

  const MockPrefix: string := "Mock response for: "

  /** The hierarchy the stub generator reports for every lead. */
  const StubHierarchy: string := "Director-level, reports to VP of Engineering, manages Senior Engineers"

  /** What `inferHierarchy` returns whenever the provider or the JSON parse fails. */
  const DefaultHierarchy: HierarchyInference :=
    HierarchyInference("Director", "Engineering", 3, ["VP of Engineering"], ["Senior Engineers", "Engineers"])

  /**
   * What `callClaude` answers without an API key: a canned augmentation when the
   * prompt mentions both `hierarchy` and `email`, otherwise an echo of the
   * prompt's first 100 characters.
   */
  function MockReply(prompt: string): (reply: string)
    ensures |reply| > 0 && (reply[0] == 'H' || reply[0] == 'M')
  {
    if Contains(prompt, "hierarchy") && Contains(prompt, "email") then MockAugmentation
    else MockPrefix + Prefix(prompt, 100)
  }

  /**
   * What `callClaude` answers with an API key: the text of the first content
   * block, or `""` when the body has none; only a transport or decoding error
   * throws.
   */
  function LiveReply(respond: Prompt -> ClaudeResponse, prompt: Prompt): (r: Result<string, GenerationError>)
    ensures r.Failure? <==> respond(prompt).TransportError?
    ensures r.Success? ==> r.value == OrElse(respond(prompt).text, "")
  {
    match respond(prompt)
    case TransportError => Failure(GenerationFailure("provider call failed"))
    case ClaudeBody(text) => Success(OrElse(text, ""))
  }

  /** `callClaude`, for either configuration. */
  function CallClaude(provider: ClaudeProvider, prompt: Prompt): Result<string, GenerationError> {
    match provider
    case ClaudeStub => Success(MockReply(PromptText(prompt)))
    case ClaudeLive(respond) => LiveReply(respond, prompt)
  }

  // ---------------------------------------------------------------------------
  // generateHierarchyAndEmail

  /** The text of a prompt. */
  function PromptText(prompt: Prompt): string {
    match prompt
    case AugmentPrompt(title) => AugmentPromptText(title)
    case HierarchyPrompt(lead) => HierarchyPromptText(lead)
    case EmailPrompt(lead, context) => EmailPromptText(lead, context)
  }

  /** The prompt of `generateHierarchyAndEmail`; only the title goes into it. */
  function AugmentPromptText(title: string): string {
    "Given the title \"" + title + "\", infer the hierarchy level (VP, Director, etc.)\n"
    + "        and draft a personalized outreach email for a Product Manager job search.\n"
    + "        Return format:\n"
    + "        Hierarchy: [description]\n"
    + "        Email: [subject and body]"
  }

  /**
   * The marker parse: `reply.split("Hierarchy:")[1]?.split("Email:")[0]?.trim()`
   * and `reply.split("Email:")[1]?.trim()`, each `||` its fallback text.
   */
  function ParseMarkers(reply: string): (r: HierarchyAndEmail)
    ensures r.hierarchy != "" && r.emailTemplate != ""
  {
    var hierarchyParts := Split(reply, HierarchyMarker);
    var hierarchy :=
      if |hierarchyParts| < 2 then NoHierarchy
      else OrElse(Some(Trim(Split(hierarchyParts[1], EmailMarker)[0])), NoHierarchy);
    var emailParts := Split(reply, EmailMarker);
    var template :=
      if |emailParts| < 2 then NoTemplate
      else OrElse(Some(Trim(emailParts[1])), NoTemplate);
    HierarchyAndEmail(hierarchy, template)
  }

  /** The template the stub generator drafts from the lead's own fields. */
  const StubTemplateNoticed: string := ",\n\nI noticed your role as "
  const StubTemplateImpressed: string := " and was impressed by your team's recent achievements.\n\nAs someone in a "
  const StubTemplatePitch: string := " degree connection, I wanted to reach out about potential opportunities for Product Managers with experience in scaling technical teams.\n\n"
  const StubTemplateAsk: string := "Would you be open to a brief 15-minute call to discuss how my background might align with "
  const StubTemplateClose: string := "'s growth plans?\n\nBest regards,\n[Your Name]"

  function StubTemplate(lead: EnrichedLeadData): string
  {
    EmailTemplate.Format(
      "Connecting with " + lead.company + " Engineering Leadership",
      "Hi " + lead.name + StubTemplateNoticed + lead.title + " at " + lead.company
      + StubTemplateImpressed + OrElse(lead.connectionDegree, "2nd") + StubTemplatePitch
      + StubTemplateAsk + lead.company + StubTemplateClose)
  }

  /**
   * `generateHierarchyAndEmail`: strict about the provider call and tolerant
   * about its reply. It fails only when the call throws; any reply, even an
   * empty one, parses into a non-empty hierarchy and template.
   */
  function GenerateHierarchyAndEmail(provider: ClaudeProvider, lead: EnrichedLeadData)
    : (r: Result<HierarchyAndEmail, GenerationError>)
    ensures r.Failure? <==> provider.ClaudeLive? && provider.respond(AugmentPrompt(lead.title)).TransportError?
    ensures r.Failure? ==> r.error == GenerationFailure(HierarchyAndEmailFailed)
    ensures r.Success? ==> r.value.hierarchy != "" && r.value.emailTemplate != ""
    ensures provider.ClaudeStub? ==> r == Success(HierarchyAndEmail(StubHierarchy, StubTemplate(lead)))
    ensures provider.ClaudeLive? && r.Success? ==>
              r.value == ParseMarkers(OrElse(provider.respond(AugmentPrompt(lead.title)).text, ""))
  {
    match provider
    case ClaudeStub => Success(HierarchyAndEmail(StubHierarchy, StubTemplate(lead)))
    case ClaudeLive(respond) =>
      match LiveReply(respond, AugmentPrompt(lead.title))
      case Failure(_) => Failure(GenerationFailure(HierarchyAndEmailFailed))
      case Success(reply) => Success(ParseMarkers(reply))
  }

  /**
   * The hierarchy section: the fallback when the reply has no `Hierarchy:`;
   * otherwise the trimmed text after the first `Hierarchy:`, cut at whichever
   * comes first of the next `Hierarchy:` and the next `Email:` (the fallback
   * if that trims to nothing).
   */
  lemma ParseHierarchySection(reply: string)
    ensures !Contains(reply, HierarchyMarker) ==> ParseMarkers(reply).hierarchy == NoHierarchy
    ensures Contains(reply, HierarchyMarker) ==>
              var rest := After(reply, HierarchyMarker).value;
              var section := Trim(rest[..Min(Upto(rest, HierarchyMarker), Upto(rest, EmailMarker))]);
              ParseMarkers(reply).hierarchy == (if section == "" then NoHierarchy else section)
  {
    SplitFirstTwo(reply, HierarchyMarker);
    if Contains(reply, HierarchyMarker) {
      var rest := After(reply, HierarchyMarker).value;
      var piece := Split(reply, HierarchyMarker)[1];
      assert piece == Before(rest, HierarchyMarker);
      SplitFirstTwo(piece, EmailMarker);
      CutAtFirstMarker(rest);
    }
  }

  /**
   * Cutting at the first `Hierarchy:` and then at the first `Email:` cuts at
   * whichever of the two comes first: the markers cannot overlap, since `Email:`
   * holds no `H`.
   */
  lemma CutAtFirstMarker(rest: string)
    ensures Before(Before(rest, HierarchyMarker), EmailMarker) ==
            rest[..Min(Upto(rest, HierarchyMarker), Upto(rest, EmailMarker))]
  {
    assert HierarchyMarker[0] !in EmailMarker;
    CutAtFirstOfTwo(rest, HierarchyMarker, EmailMarker);
  }

  /**
   * The template section: the fallback when the reply has no `Email:`;
   * otherwise the trimmed text between the first `Email:` and the second one
   * (or the end), so a second `Email:` in the body cuts the template short.
   */
  lemma ParseTemplateSection(reply: string)
    ensures !Contains(reply, EmailMarker) ==> ParseMarkers(reply).emailTemplate == NoTemplate
    ensures Contains(reply, EmailMarker) ==>
              var rest := After(reply, EmailMarker).value;
              var section := Trim(rest[..Upto(rest, EmailMarker)]);
              ParseMarkers(reply).emailTemplate == (if section == "" then NoTemplate else section)
  {
    SplitFirstTwo(reply, EmailMarker);
  }

  /**
   * Whatever the reply, the parsed hierarchy holds neither marker and the parsed
   * template holds no `Email:`.
   */
  lemma ParsedSectionsHoldNoMarker(reply: string)
    ensures !Contains(ParseMarkers(reply).hierarchy, HierarchyMarker)
    ensures !Contains(ParseMarkers(reply).hierarchy, EmailMarker)
    ensures !Contains(ParseMarkers(reply).emailTemplate, EmailMarker)
  {
    FallbacksHoldNoMarker();
    var hierarchyParts := Split(reply, HierarchyMarker);
    if |hierarchyParts| >= 2 {
      SplitPiecesLackSeparator(reply, HierarchyMarker);
      FirstPieceTrimmedLacks(hierarchyParts[1], EmailMarker, HierarchyMarker);
    }
    var emailParts := Split(reply, EmailMarker);
    if |emailParts| >= 2 {
      SplitPiecesLackSeparator(reply, EmailMarker);
      TrimSpec(emailParts[1], EmailMarker);
    }
  }

  /** The fallback texts hold no marker. */
  lemma FallbacksHoldNoMarker()
    ensures !Contains(NoHierarchy, HierarchyMarker) && !Contains(NoHierarchy, EmailMarker)
    ensures !Contains(NoTemplate, EmailMarker)
  {
    MissingCharAbsent(NoHierarchy, HierarchyMarker, |HierarchyMarker| - 1);
    MissingCharAbsent(NoHierarchy, EmailMarker, |EmailMarker| - 1);
    MissingCharAbsent(NoTemplate, EmailMarker, |EmailMarker| - 1);
  }

  /**
   * The first piece of a split, trimmed, holds neither the separator nor any
   * pattern the whole string lacks.
   */
  lemma FirstPieceTrimmedLacks(s: string, sep: string, pat: string)
    requires |sep| > 0 && !Contains(s, pat)
    ensures !Contains(Trim(Split(s, sep)[0]), sep) && !Contains(Trim(Split(s, sep)[0]), pat)
  {
    SplitPiecesLackSeparator(s, sep);
    SplitFirstTwo(s, sep);
    SliceKeepsAbsence(s, pat, 0, Upto(s, sep));
    TrimSpec(Split(s, sep)[0], sep);
    TrimSpec(Split(s, sep)[0], pat);
  }

  /** A string that lacks one of the pattern's characters does not contain the pattern. */
  lemma MissingCharAbsent(s: string, pat: string, k: nat)
    requires k < |pat| && pat[k] !in s
    ensures !Contains(s, pat)
  {
    forall i: nat ensures !OccursAt(s, pat, i) {
      if i + |pat| <= |s| {
        assert s[i..i + |pat|][k] == s[i + k];
      }
    }
  }

  /** An empty reply, what `callClaude` returns for a body without text, yields both fallbacks. */
  lemma EmptyReplyDegrades()
    ensures ParseMarkers("") == HierarchyAndEmail(NoHierarchy, NoTemplate)
  {
    ParseHierarchySection("");
    ParseTemplateSection("");
  }

  /**
   * Degraded content is not a failure: a live provider whose body carries no
   * text makes `generateHierarchyAndEmail` succeed with both fallbacks.
   */
  lemma MissingTextIsNotFailure(provider: ClaudeProvider, lead: EnrichedLeadData)
    requires provider.ClaudeLive? && provider.respond(AugmentPrompt(lead.title)) == ClaudeBody(None)
    ensures GenerateHierarchyAndEmail(provider, lead) == Success(HierarchyAndEmail(NoHierarchy, NoTemplate))
  {
    EmptyReplyDegrades();
  }

  // ---------------------------------------------------------------------------
  // JSON decoding

  /** The whitespace `JSON.parse` skips before a value. */
  predicate IsJsonSpace(c: char) {
    c == ' ' || c == '\t' || c == '\n' || c == '\r'
  }

  /** The text's first non-blank character can begin a JSON value; `JSON.parse` throws on anything else. */
  predicate MayStartJson(text: string) {
    |text| > 0 &&
    if IsJsonSpace(text[0]) then MayStartJson(text[1..])
    else text[0] in "{[\"-0123456789tfn"
  }

  /** `JSON.parse(text)` as an email, failing on text that cannot start a JSON value. */
  function DecodeEmail(json: JsonParser, text: string): Option<EmailGeneration> {
    if MayStartJson(text) then json.asEmail(text) else None
  }

  /** `JSON.parse(text)` as a hierarchy, failing on text that cannot start a JSON value. */
  function DecodeHierarchy(json: JsonParser, text: string): Option<HierarchyInference> {
    if MayStartJson(text) then json.asHierarchy(text) else None
  }

  // ---------------------------------------------------------------------------
  // inferHierarchy

  const HierarchyPromptIntro: string :=
    "Based on this job title and company information, infer the organizational hierarchy:\n"
    + "        \n"
    + "        Name: "

  const HierarchyPromptInstructions: string :=
    "        \n"
    + "        Return a JSON object with:\n"
    + "        - seniorityLevel (e.g., \"C-Level\", \"VP\", \"Director\", \"Manager\", \"Individual Contributor\")\n"
    + "        - department (e.g., \"Engineering\", \"Sales\", \"Marketing\", \"Operations\")\n"
    + "        - hierarchy object with:\n"
    + "          - level (1-5, where 1 is C-Level)\n"
    + "          - reportsTo (array of likely reporting positions)\n"
    + "          - manages (array of likely direct report positions)\n"
    + "        \n"
    + "        Return only valid JSON, no additional text."

  /** The lines of both JSON prompts that describe the lead. */
  function LeadLines(lead: LeadData): string {
    lead.firstName + " " + lead.lastName + "\n"
    + "        Title: " + lead.title + "\n"
    + "        Company: " + lead.company + "\n"
    + "        Company Size: " + OrElse(lead.companySize, "Unknown") + "\n"
    + "        Industry: " + OrElse(lead.industry, "Unknown") + "\n"
  }

  /** The prompt of `inferHierarchy`. */
  function HierarchyPromptText(lead: LeadData): string {
    HierarchyPromptIntro + LeadLines(lead) + HierarchyPromptInstructions
  }

  /**
   * `inferHierarchy` never fails: a failed provider call or a reply that does not
   * parse gives the default hierarchy, a reply that parses is returned as
   * parsed, and anything else it returns is the parse of the live provider's reply.
   */
  function InferHierarchy(provider: ClaudeProvider, json: JsonParser, lead: LeadData): (r: HierarchyInference)
    ensures provider.ClaudeLive? && provider.respond(HierarchyPrompt(lead)).TransportError? ==>
              r == DefaultHierarchy
    ensures r != DefaultHierarchy ==>
              CallClaude(provider, HierarchyPrompt(lead)).Success? &&
              DecodeHierarchy(json, CallClaude(provider, HierarchyPrompt(lead)).value) == Some(r)
    ensures CallClaude(provider, HierarchyPrompt(lead)).Success? ==>
              var parsed := DecodeHierarchy(json, CallClaude(provider, HierarchyPrompt(lead)).value);
              (parsed.Some? ==> r == parsed.value) && (parsed.None? ==> r == DefaultHierarchy)
  {
    match CallClaude(provider, HierarchyPrompt(lead))
    case Failure(_) => DefaultHierarchy
    case Success(reply) =>
      match DecodeHierarchy(json, reply)
      case None => DefaultHierarchy
      case Some(h) => h
  }

  /**
   * Without an API key `inferHierarchy` always gives the default: the canned
   * replies of `callClaude` begin with `H` or `M`, which no JSON value does.
   */
  lemma StubInferHierarchyIsDefault(json: JsonParser, lead: LeadData)
    ensures InferHierarchy(ClaudeStub, json, lead) == DefaultHierarchy
  {
    MockReplyIsNotJson(PromptText(HierarchyPrompt(lead)));
  }

  /** No canned reply can start a JSON value. */
  lemma MockReplyIsNotJson(prompt: string)
    ensures !MayStartJson(MockReply(prompt))
  {
    var reply := MockReply(prompt);
    assert reply[0] == 'H' || reply[0] == 'M';
  }

  // ---------------------------------------------------------------------------
  // generateEmail

  const EmailPromptIntro: string :=
    "Generate a personalized outreach email for this lead:\n"
    + "        \n"
    + "        Name: "

  /** The part of the `generateEmail` prompt before the context line. */
  function EmailPromptHead(lead: LeadData): string {
    EmailPromptIntro + LeadLines(lead) + "        \n" + "        "
  }

  /** The part of the `generateEmail` prompt after the context line. */
  const EmailPromptTail: string :=
    "\n"
    + "        \n"
    + "        Create a professional, personalized email that:\n"
    + "        1. Shows research about their role and company\n"
    + "        2. Provides value or insight\n"
    + "        3. Has a clear but soft call-to-action\n"
    + "        4. Is concise (under 150 words)\n"
    + "        \n"
    + "        Return a JSON object with:\n"
    + "        - subject: email subject line\n"
    + "        - content: email body\n"
    + "        \n"
    + "        Return only valid JSON, no additional text."

  /** `${context ? `Additional context: ${context}` : ''}`. */
  function ContextLine(context: string): string {
    if context != "" then "Additional context: " + context else ""
  }

  /** The prompt of `generateEmail`. */
  function EmailPromptText(lead: LeadData, context: string): string {
    EmailPromptHead(lead) + ContextLine(context) + EmailPromptTail
  }

  /**
   * The context only ever adds its own line: with an empty context the prompt is
   * the plain one, and a non-empty context inserts `Additional context:
   * <context>` between the same two parts of the plain prompt, whatever the
   * context is.
   */
  lemma EmailPromptContext(lead: LeadData, context: string)
    ensures PromptText(EmailPrompt(lead, "")) == EmailPromptHead(lead) + EmailPromptTail
    ensures context == "" ==> PromptText(EmailPrompt(lead, context)) == PromptText(EmailPrompt(lead, ""))
    ensures context != "" ==>
              PromptText(EmailPrompt(lead, context)) == EmailPromptHead(lead) + "Additional context: " + context + EmailPromptTail
  {
    var head := EmailPromptHead(lead);
    InsertLine(head, "Additional context: ", context, EmailPromptTail);
  }

  lemma InsertLine(head: string, tag: string, context: string, tail: string)
    ensures head + (tag + context) + tail == head + tag + context + tail
    ensures head + [] + tail == head + tail
  {
  }

  const StubEmailNoticed: string := ",\n\nI noticed your role as "
  const StubEmailImpressed: string := " and was impressed by your team's recent achievements.\n\n"
  const StubEmailSimilar: string := "I'm reaching out because we've helped similar companies in the "
  const StubEmailGains: string := " industry streamline their operations and achieve significant efficiency gains.\n\n"
  const StubEmailAsk: string := "Would you be open to a brief 15-minute call next week to discuss how we might be able to help "
  const StubEmailClose: string := " as well?\n\nBest regards,\n[Your Name]"

  /** The body of the stub email. */
  function StubEmailContent(lead: LeadData): string {
    "Hi " + lead.firstName + StubEmailNoticed + lead.title + " at " + lead.company + StubEmailImpressed
    + StubEmailSimilar + OrElse(lead.industry, "your") + StubEmailGains
    + StubEmailAsk + lead.company + StubEmailClose
  }

  /**
   * `generateEmail`: strict where the marker parse is tolerant. A failed
   * provider call and a reply that does not parse as JSON both become the error
   * `Failed to generate email`; a reply that parses is returned as it is.
   */
  function GenerateEmail(provider: ClaudeProvider, json: JsonParser, lead: LeadData, context: string)
    : (r: Result<EmailGeneration, GenerationError>)
    ensures r.Failure? ==> r.error == GenerationFailure(EmailFailed)
    ensures provider.ClaudeStub? ==>
              r == Success(EmailGeneration("Quick question about " + lead.company + "'s tech stack",
                                           StubEmailContent(lead)))
    ensures provider.ClaudeLive? ==>
              var response := provider.respond(EmailPrompt(lead, context));
              && (response.TransportError? ==> r.Failure?)
              && (response.ClaudeBody? ==>
                    r == match DecodeEmail(json, OrElse(response.text, ""))
                         case None => Failure(GenerationFailure(EmailFailed))
                         case Some(e) => Success(e))
  {
    match provider
    case ClaudeStub =>
      Success(EmailGeneration("Quick question about " + lead.company + "'s tech stack", StubEmailContent(lead)))
    case ClaudeLive(respond) =>
      match LiveReply(respond, EmailPrompt(lead, context))
      case Failure(_) => Failure(GenerationFailure(EmailFailed))
      case Success(reply) =>
        match DecodeEmail(json, reply)
        case None => Failure(GenerationFailure(EmailFailed))
        case Some(e) => Success(e)
  }

  /** An empty reply fails the email-only generator, while it only degrades the marker parse. */
  lemma EmptyReplyFailsGenerateEmail(provider: ClaudeProvider, json: JsonParser, lead: LeadData, context: string)
    requires provider.ClaudeLive? && provider.respond(EmailPrompt(lead, context)) == ClaudeBody(None)
    ensures GenerateEmail(provider, json, lead, context) == Failure(GenerationFailure(EmailFailed))
  {
    assert !MayStartJson("");
  }
}
