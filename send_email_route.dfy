/**
 * `/api/sendEmail`: POST drafts an outreach email for one stored lead — unless
 * it already has a template and no regeneration was asked for — and writes the
 * combined template; PUT writes a template edited by hand; PATCH only reads.
 */
module SendEmailRoute {
  import opened Wrappers
  import opened Http
  import opened JsString
  import opened LeadStore
  import opened Claude
  import EmailTemplate

  /** The POST reply: the stored template as it was, or the generated email with the updated lead. */
  datatype PostReply = Existing(emailTemplate: string) | Generated(email: EmailGeneration, lead: Lead)

  /**
   * The name split: `name.split(' ')[0]` and `nameParts.slice(1).join(' ')` (the
   * `|| ''` of each changes nothing, both being strings). The first name holds no
   * space; with a space in the name, first name, one space and last name give the
   * name back; without one, the whole name is the first name.
   */
  function SplitName(name: string): (parts: (string, string))
    ensures ' ' !in parts.0
    ensures ' ' in name ==> parts.0 + " " + parts.1 == name
    ensures ' ' !in name ==> parts == (name, "")
  {
    HeadAndTailSpec(name, " ");
    ContainsChar(name, ' ');
    ContainsChar(HeadAndTail(name, " ").0, ' ');
    HeadAndTail(name, " ")
  }

  /** What `generateEmail` is told about the lead: its split name, title and company, no size or industry. */
  function EmailLead(l: Lead): LeadData {
    LeadData(SplitName(l.name).0, SplitName(l.name).1, OrElse(l.title, ""), OrElse(l.company, ""), None, None)
  }

  /** The skip rule: a lead with a non-empty template keeps it unless regeneration is asked for. */
  predicate KeepsTemplate(l: Lead, regenerate: bool) {
    Truthy(l.emailTemplate) && !regenerate
  }

  /** The update that writes a template and nothing else. */
  function TemplatePatch(template: Option<string>): LeadPatch {
    LeadPatch(Keep, Keep, Keep, Put(template), Keep, Keep)
  }

  /**
   * POST `{ leadId, regenerate = false, context = '' }`. A missing id gives 400,
   * an unknown one 404, both without a call or a write. A lead whose template is
   * kept comes back with it, without a call or a write. Otherwise the generator
   * is called once; its failure gives 500 and no write, its email is written as
   * the lead's template — the only field that changes — and returned with the
   * updated lead. The call log holds the prompt of each generator call.
   */
  method Post(store: Store, provider: ClaudeProvider, json: JsonParser, leadId: Option<Id>,
              regenerate: bool, context: string)
    returns (reply: Reply<PostReply>, ghost calls: seq<Prompt>)
    requires store.Valid()
    modifies store
    ensures store.Valid() && store.order == old(store.order)
    ensures leadId.None? ==> reply == Err(400, "Lead ID required") && store.rows == old(store.rows) && calls == []
    ensures leadId.Some? && leadId.value !in old(store.rows) ==>
              reply == Err(404, "Lead not found") && store.rows == old(store.rows) && calls == []
    ensures leadId.Some? && leadId.value in old(store.rows) && KeepsTemplate(old(store.rows)[leadId.value], regenerate) ==>
              reply == Ok(Existing(old(store.rows)[leadId.value].emailTemplate.value)) &&
              store.rows == old(store.rows) && calls == []
    ensures leadId.Some? && leadId.value in old(store.rows) && !KeepsTemplate(old(store.rows)[leadId.value], regenerate) ==>
              var l := old(store.rows)[leadId.value];
              var generated := GenerateEmail(provider, json, EmailLead(l), context);
              && calls == [EmailPrompt(EmailLead(l), context)]
              && (generated.Failure? ==> reply == Err(500, "Failed to generate email") && store.rows == old(store.rows))
              && (generated.Success? ==>
                    var e := generated.value;
                    var written := l.(emailTemplate := Some(EmailTemplate.Format(e.subject, e.content)));
                    reply == Ok(Generated(e, written)) && store.rows == old(store.rows)[leadId.value := written])
  {
    calls := [];
    if leadId.None? {
      return Err(400, "Lead ID required"), calls;
    }
    var id := leadId.value;
    var found := store.FindUnique(id);
    if found.None? {
      return Err(404, "Lead not found"), calls;
    }
    var l := found.value;
    if KeepsTemplate(l, regenerate) {
      return Ok(Existing(l.emailTemplate.value)), calls;
    }
    var lead := EmailLead(l);
    calls := [EmailPrompt(lead, context)];
    var generated := GenerateEmail(provider, json, lead, context);
    if generated.Failure? {
      return Err(500, "Failed to generate email"), calls;
    }
    var e := generated.value;
    var updated := store.Update(id, TemplatePatch(Some(EmailTemplate.Format(e.subject, e.content))));
    reply := Ok(Generated(e, updated.value));
  }

  /**
   * The template PUT writes: subject and content combined when both are
   * non-empty, otherwise the content as it came — an absent content leaves the
   * field out of the update, so the stored template stays.
   */
  function EditedTemplate(subject: Option<string>, content: Option<string>): Patch<Option<string>> {
    if Truthy(subject) && Truthy(content) then Put(Some(EmailTemplate.Format(subject.value, content.value)))
    else if content.Some? then Put(content)
    else Keep
  }

  /**
   * PUT `{ leadId, subject, content }`. A missing id gives 400; an unknown id
   * makes the update throw, which gives 500; otherwise only the template
   * changes, to the edited one, and the updated lead comes back.
   */
  method PutTemplate(store: Store, leadId: Option<Id>, subject: Option<string>, content: Option<string>)
    returns (reply: Reply<Lead>)
    requires store.Valid()
    modifies store
    ensures store.Valid() && store.order == old(store.order)
    ensures leadId.None? ==> reply == Err(400, "Lead ID required") && store.rows == old(store.rows)
    ensures leadId.Some? && leadId.value !in old(store.rows) ==>
              reply == Err(500, "Failed to update email") && store.rows == old(store.rows)
    ensures leadId.Some? && leadId.value in old(store.rows) ==>
              var l := old(store.rows)[leadId.value];
              var written := l.(emailTemplate := Patched(EditedTemplate(subject, content), l.emailTemplate));
              reply == Ok(written) && store.rows == old(store.rows)[leadId.value := written]
  {
    if leadId.None? {
      return Err(400, "Lead ID required");
    }
    var updated := store.Update(leadId.value, LeadPatch(Keep, Keep, Keep, EditedTemplate(subject, content), Keep, Keep));
    if updated.None? {
      return Err(500, "Failed to update email");
    }
    reply := Ok(updated.value);
  }

  /** PATCH `{ leadId }`: 400 without an id, otherwise the lead as stored (or `null`); nothing is written. */
  method PatchRead(store: Store, leadId: Option<Id>) returns (reply: Reply<Option<Lead>>)
    ensures leadId.None? ==> reply == Err(400, "Lead ID required")
    ensures leadId.Some? ==>
              reply == Ok(if leadId.value in store.rows then Some(store.rows[leadId.value]) else None)
  {
    if leadId.None? {
      return Err(400, "Lead ID required");
    }
    var found := store.FindUnique(leadId.value);
    reply := Ok(found);
  }
}
