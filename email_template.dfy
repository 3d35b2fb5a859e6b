/**
 * The stored email template: one text blob, a `Subject: ` line, a blank line,
 * then the body. Every writer in the application builds it the same way.
 */
module EmailTemplate {

  const SubjectPrefix: string := "Subject: "

  /** `Subject: ${subject}\n\n${body}`. */
  function Format(subject: string, body: string): (t: string)
    ensures |t| == |SubjectPrefix| + |subject| + 2 + |body|
    ensures t[..|SubjectPrefix|] == SubjectPrefix
    ensures t[|SubjectPrefix|..|SubjectPrefix| + |subject|] == subject
    ensures t[|SubjectPrefix| + |subject|..|SubjectPrefix| + |subject| + 2] == "\n\n"
    ensures t[|SubjectPrefix| + |subject| + 2..] == body
  {
    SubjectPrefix + subject + "\n\n" + body
  }
}
