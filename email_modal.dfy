/**
 * The email editor (`EmailModal`): it reads a stored template back into a
 * subject and a body, asks the server to regenerate, and copies the email out
 * in the stored format.
 */
module EmailModal {
  import opened Wrappers
  import opened Http
  import opened JsString
  import opened LeadStore
  import Claude
  import SendEmailRoute
  import EmailTemplate

  /** The editor's `subject` and `content` fields. */
  datatype Editor = Editor(subject: string, content: string)

  /**
   * The parse of a template: when its first line starts with `Subject: `, the
   * subject is that line without the prefix and the content is every line from
   * the third on, joined again by newlines; otherwise the whole template is the
   * content and the subject stays as it was.
   */
  function ParseTemplate(template: string, editor: Editor): Editor {
    var lines := Split(template, "\n");
    if StartsWith(lines[0], EmailTemplate.SubjectPrefix) then
      Editor(ReplaceFirst(lines[0], EmailTemplate.SubjectPrefix, ""),
             Join(if |lines| >= 2 then lines[2..] else [], "\n"))
    else
      editor.(content := template)
  }

  /** The effect on opening: a non-empty stored template is parsed; otherwise the editor is left alone. */
  function Load(stored: Option<string>, editor: Editor): Editor {
    if Truthy(stored) then ParseTemplate(stored.value, editor) else editor
  }

  /** `copyToClipboard`: the editor's email in the stored format. */
  function CopyText(editor: Editor): string {
    EmailTemplate.Format(editor.subject, editor.content)
  }

  /** The `regenerate` flag of the editor's POST: always `true`. */
  const RegenerateFlag: bool := true

  /**
   * The effect of the POST's reply: a reply carrying `emailTemplate` is parsed
   * like a stored template; otherwise one carrying `email` gives subject and
   * content directly; an error leaves the editor alone.
   */
  function Regenerated(reply: Reply<SendEmailRoute.PostReply>, editor: Editor): Editor {
    match reply
    case Err(_, _) => editor
    case Ok(Existing(template)) => if template != "" then ParseTemplate(template, editor) else editor
    case Ok(Generated(e, _)) => Editor(e.subject, e.content)
  }

  /** The first line of a template with a subject line, and the rest. */
  lemma SplitSubjectLine(s: string, rest: string)
    requires '\n' !in s
    ensures Split(EmailTemplate.SubjectPrefix + s + "\n" + rest, "\n") == [EmailTemplate.SubjectPrefix + s] + Split(rest, "\n")
  {
    var first := EmailTemplate.SubjectPrefix + s;
    assert '\n' !in first by {
      forall k | 0 <= k < |first| ensures first[k] != '\n' {
        if k >= |EmailTemplate.SubjectPrefix| {
          assert first[k] == s[k - |EmailTemplate.SubjectPrefix|];
        }
      }
    }
    assert EmailTemplate.SubjectPrefix + s + "\n" + rest == first + ['\n'] + rest;
    SplitOnChar(first, '\n', rest);
  }

  /**
   * The subject line is read back and the second line is dropped whatever it
   * holds: `Subject: s`, any line, then the content parses to `(s, content)`.
   */
  lemma {:induction false} SecondLineDropped(s: string, second: string, content: string, editor: Editor)
    requires '\n' !in s && '\n' !in second
    ensures ParseTemplate(EmailTemplate.SubjectPrefix + s + "\n" + second + "\n" + content, editor) == Editor(s, content)
  {
    var rest := second + "\n" + content;
    assert EmailTemplate.SubjectPrefix + s + "\n" + second + "\n" + content == EmailTemplate.SubjectPrefix + s + "\n" + rest;
    SplitSubjectLine(s, rest);
    assert rest == second + ['\n'] + content;
    SplitOnChar(second, '\n', content);
    var lines := Split(EmailTemplate.SubjectPrefix + s + "\n" + rest, "\n");
    assert lines == [EmailTemplate.SubjectPrefix + s, second] + Split(content, "\n");
    assert lines[2..] == Split(content, "\n");
    SplitThenJoin(content, "\n");
    var first := EmailTemplate.SubjectPrefix + s;
    assert StartsWith(first, EmailTemplate.SubjectPrefix) by {
      assert first[..|EmailTemplate.SubjectPrefix|] == EmailTemplate.SubjectPrefix;
    }
    ReplacePrefix(first, EmailTemplate.SubjectPrefix);
    assert first[|EmailTemplate.SubjectPrefix|..] == s;
  }

  /**
   * The round trip: a template written as `Subject: s`, a blank line and the
   * content — by the server's POST and PUT and by `copyToClipboard` alike —
   * parses back to exactly `(s, content)` when the subject holds no newline.
   */
  lemma RoundTrip(s: string, content: string, editor: Editor)
    requires '\n' !in s
    ensures ParseTemplate(EmailTemplate.Format(s, content), editor) == Editor(s, content)
    ensures ParseTemplate(CopyText(Editor(s, content)), editor) == Editor(s, content)
  {
    assert EmailTemplate.Format(s, content) == EmailTemplate.SubjectPrefix + s + "\n" + "" + "\n" + content;
    SecondLineDropped(s, "", content, editor);
  }

  /** A template whose first line lacks the prefix becomes the content, and the subject stays. */
  lemma NoSubjectLine(template: string, editor: Editor)
    requires !StartsWith(template, EmailTemplate.SubjectPrefix)
    ensures ParseTemplate(template, editor) == editor.(content := template)
  {
    var lines := Split(template, "\n");
    SplitFirstTwo(template, "\n");
    assert lines[0] == template[..|lines[0]|];
  }

  /**
   * The editor's regenerate request can never hit the skip rule, so the server
   * always answers with a generated email, never with the stored template.
   */
  lemma RegenerateNeverKeeps(l: Lead)
    ensures !SendEmailRoute.KeepsTemplate(l, RegenerateFlag)
  {
  }

  /**
   * After a successful regeneration the editor shows what the server stored:
   * the subject and content taken from the reply are the parse of the template
   * the server wrote, when the generated subject holds no newline.
   */
  lemma RegeneratedShowsStored(e: Claude.EmailGeneration, l: Lead, editor: Editor)
    requires '\n' !in e.subject
    ensures Regenerated(Ok(SendEmailRoute.Generated(e, l)), editor)
            == ParseTemplate(EmailTemplate.Format(e.subject, e.content), editor)
  {
    RoundTrip(e.subject, e.content, editor);
  }

  /**
   * A template saved through PUT with a subject (free of newlines) and a
   * non-empty content reads back into that subject and content on the next
   * opening; PUT without a content leaves what the editor would load alone.
   */
  lemma SavedTemplateReloads(subject: string, content: string, stored: Option<string>, editor: Editor)
    requires '\n' !in subject && subject != "" && content != ""
    ensures Load(Patched(SendEmailRoute.EditedTemplate(Some(subject), Some(content)), stored), editor)
            == Editor(subject, content)
    ensures Load(Patched(SendEmailRoute.EditedTemplate(Some(subject), None), stored), editor) == Load(stored, editor)
  {
    var written := EmailTemplate.Format(subject, content);
    assert written[..|EmailTemplate.SubjectPrefix|] == EmailTemplate.SubjectPrefix;
    RoundTrip(subject, content, editor);
  }
}
