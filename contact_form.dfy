/**
 * The contact form (src/components/ContactForm.tsx).
 *
 * The form holds three text fields and two flags.  Submitting sets
 * `isSubmitting` and arms a 1000 ms timer; when it fires, the browser is sent
 * to a `mailto:` URI built from the fields, the flags flip to "submitted", the
 * fields are cleared and a 5000 ms timer is armed that clears `isSubmitted`.
 * The timers are explicit events here.  The URI follows the `mailto:` form of
 * RFC 6068, section 2; the percent-encoding of its header values is a
 * parameter of the model.
 */
module ContactForm {
  import opened Wrappers

  datatype Field = Name | Email | Message

  datatype FormData = FormData(name: string, email: string, message: string)

  const EmptyForm := FormData("", "", "")

  function Get(d: FormData, f: Field): string
  {
    match f
    case Name => d.name
    case Email => d.email
    case Message => d.message
  }

  /** `handleChange`: the named field takes the new value, the others keep theirs. */
  function WithField(d: FormData, f: Field, value: string): (r: FormData)
    ensures Get(r, f) == value
    ensures forall g: Field :: g != f ==> Get(r, g) == Get(d, g)
  {
    match f
    case Name => d.(name := value)
    case Email => d.(email := value)
    case Message => d.(message := value)
  }

  const Recipient := "projecteden2027@gmail.com"
  const Subject := "Contact Form Submission from Eden 2027"
  const CompletionDelayMs: nat := 1000
  const SuccessResetDelayMs: nat := 5000

  /** The plain-text mail body. */
  function MailBody(d: FormData): string
  {
    "Name: " + d.name + "\nEmail: " + d.email + "\n\nMessage:\n" + d.message
  }

  /** The body opens with the name line and ends with the message verbatim; the fixed text is 25 characters. */
  lemma MailBodyShape(d: FormData)
    ensures |MailBody(d)| == |d.name| + |d.email| + |d.message| + 25
    ensures MailBody(d)[..6] == "Name: " && MailBody(d)[6..6 + |d.name|] == d.name
    ensures MailBody(d)[|MailBody(d)| - |d.message|..] == d.message
  {
  }

  /** The navigation target: recipient, then the encoded `subject` and `body` header fields. */
  function MailtoUrl(d: FormData, encode: string -> string): (r: string)
    ensures StripPrefix(MailtoPrefix, r).Some?
    ensures |r| >= 6 + |encode(MailBody(d))|
    ensures r[|r| - 6 - |encode(MailBody(d))|..] == "&body=" + encode(MailBody(d))
  {
    "mailto:" + Recipient + "?subject=" + encode(Subject) + "&body=" + encode(MailBody(d))
  }

  /**
   * What a single-line input can hold: `text` and `email` inputs strip line
   * breaks from their value, so neither the name nor the email has one.
   */
  predicate SingleLine(s: string)
  {
    '\n' !in s && '\r' !in s
  }

  /**
   * The shape of an address that `type="email"` accepts: text, one `@`,
   * text.  The browser's own rule is stricter.
   */
  predicate EmailShaped(s: string)
  {
    var k := IndexOf(s, '@');
    0 < k < |s| - 1 && '@' !in s[k + 1..]
  }

  /**
   * A form the browser lets reach `handleSubmit`: all three inputs are
   * `required`, the email passes `type="email"`, and the two single-line
   * inputs hold no line break.
   */
  predicate Sendable(d: FormData)
  {
    && d.name != "" && d.message != ""
    && EmailShaped(d.email)
    && SingleLine(d.name) && SingleLine(d.email)
  }

  /** An encoder that never emits `&`, as RFC 6068 requires inside a header value. */
  ghost predicate EscapesAmpersand(encode: string -> string)
  {
    forall s :: '&' !in encode(s)
  }

  /** The position of the first `c` in `s`, or `|s|` when there is none. */
  function IndexOf(s: string, c: char): (k: nat)
    ensures k <= |s|
    ensures forall i :: 0 <= i < k ==> s[i] != c
    ensures k < |s| ==> s[k] == c
  {
    if s == [] || s[0] == c then 0 else 1 + IndexOf(s[1..], c)
  }

  function StripPrefix(prefix: string, s: string): (r: Option<string>)
    ensures r.Some? <==> |prefix| <= |s| && s[..|prefix|] == prefix
    ensures r.Some? ==> s == prefix + r.value
  {
    if |prefix| <= |s| && s[..|prefix|] == prefix then Some(s[|prefix|..]) else None
  }

  /** The text before and after the first `c`. */
  function SplitAt(s: string, c: char): (r: Option<(string, string)>)
    ensures r.Some? ==> c !in r.value.0 && s == r.value.0 + [c] + r.value.1
    ensures r.None? ==> c !in s
  {
    var k := IndexOf(s, c);
    if k == |s| then None else Some((s[..k], s[k + 1..]))
  }

  lemma StripConcat(prefix: string, s: string)
    ensures StripPrefix(prefix, prefix + s) == Some(s)
  {
    assert (prefix + s)[..|prefix|] == prefix;
    assert (prefix + s)[|prefix|..] == s;
  }

  lemma SplitConcat(a: string, c: char, b: string)
    requires c !in a
    ensures SplitAt(a + [c] + b, c) == Some((a, b))
  {
    var s := a + [c] + b;
    assert forall i :: 0 <= i < |a| ==> s[i] == a[i];
    assert s[|a|] == c;
    assert IndexOf(s, c) == |a|;
    assert s[..|a|] == a;
    assert s[|a| + 1..] == b;
  }

  /** Reads the three fields back out of a mail body. */
  function ParseMailBody(body: string): Option<FormData>
  {
    match StripPrefix("Name: ", body)
    case None => None
    case Some(afterName) =>
      match SplitAt(afterName, '\n')
      case None => None
      case Some((name, rest)) => ParseEmailAndMessage(name, rest)
  }

  /** The part of a mail body after the name line. */
  function ParseEmailAndMessage(name: string, rest: string): Option<FormData>
  {
    match StripPrefix("Email: ", rest)
    case None => None
    case Some(afterEmail) =>
      match SplitAt(afterEmail, '\n')
      case None => None
      case Some((email, rest')) =>
        match StripPrefix("\nMessage:\n", rest')
        case None => None
        case Some(message) => Some(FormData(name, email, message))
  }

  lemma ParseEmailAndMessageOf(name: string, email: string, message: string)
    requires '\n' !in email
    ensures ParseEmailAndMessage(name, "Email: " + (email + ['\n'] + ("\nMessage:\n" + message)))
            == Some(FormData(name, email, message))
  {
    var tail := "\nMessage:\n" + message;
    StripConcat("Email: ", email + ['\n'] + tail);
    SplitConcat(email, '\n', tail);
    StripConcat("\nMessage:\n", message);
  }

  /** A body whose name and email are single lines determines the form it came from. */
  lemma MailBodyRoundTrip(d: FormData)
    requires '\n' !in d.name && '\n' !in d.email
    ensures ParseMailBody(MailBody(d)) == Some(d)
  {
    var emailPart := "Email: " + (d.email + ['\n'] + ("\nMessage:\n" + d.message));
    var afterName := d.name + ['\n'] + emailPart;
    assert "\nEmail: " == ['\n'] + "Email: ";
    assert "\n\nMessage:\n" == ['\n'] + "\nMessage:\n";
    assert MailBody(d) == "Name: " + afterName;
    StripConcat("Name: ", afterName);
    SplitConcat(d.name, '\n', emailPart);
    ParseEmailAndMessageOf(d.name, d.email, d.message);
  }

  /** With single-line names and emails, equal bodies mean equal forms. */
  lemma MailBodyInjective(d: FormData, e: FormData)
    requires '\n' !in d.name && '\n' !in d.email
    requires '\n' !in e.name && '\n' !in e.email
    requires MailBody(d) == MailBody(e)
    ensures d == e
  {
    MailBodyRoundTrip(d);
    MailBodyRoundTrip(e);
  }

  /** A name containing a line break can make two different forms send the same body. */
  lemma MailBodyAmbiguousWithLineBreaks()
    ensures MailBody(FormData("a\nEmail: b", "c", "m")) == MailBody(FormData("a", "b\nEmail: c", "m"))
    ensures FormData("a\nEmail: b", "c", "m") != FormData("a", "b\nEmail: c", "m")
  {
  }

  const MailtoPrefix := "mailto:" + Recipient + "?subject="

  /** The value of the `body` header field: the text after the first `&body=`. */
  function BodyParameter(url: string): Option<string>
  {
    match StripPrefix(MailtoPrefix, url)
    case None => None
    case Some(query) =>
      match SplitAt(query, '&')
      case None => None
      case Some((_, fields)) => StripPrefix("body=", fields)
  }

  /** The value of the `subject` header field: the text between `?subject=` and the first `&`. */
  function SubjectParameter(url: string): Option<string>
  {
    match StripPrefix(MailtoPrefix, url)
    case None => None
    case Some(query) =>
      match SplitAt(query, '&')
      case None => None
      case Some((subject, _)) => Some(subject)
  }

  /**
   * The URI addresses the site's mailbox, its `subject` field holds the
   * encoded subject and its `body` field the encoded body.
   */
  lemma MailtoCarriesBody(d: FormData, encode: string -> string)
    requires EscapesAmpersand(encode)
    ensures StripPrefix(MailtoPrefix, MailtoUrl(d, encode)).Some?
    ensures SubjectParameter(MailtoUrl(d, encode)) == Some(encode(Subject))
    ensures BodyParameter(MailtoUrl(d, encode)) == Some(encode(MailBody(d)))
  {
    var body := encode(MailBody(d));
    var subject := encode(Subject);
    assert '&' !in subject;
    assert MailtoUrl(d, encode) == MailtoPrefix + (subject + ['&'] + ("body=" + body));
    StripConcat(MailtoPrefix, subject + ['&'] + ("body=" + body));
    SplitConcat(subject, '&', "body=" + body);
    StripConcat("body=", body);
  }

  /** Decoding the URI's fields gives back the fixed subject and the submitted form. */
  lemma MailtoRoundTrip(d: FormData, encode: string -> string, decode: string -> string)
    requires EscapesAmpersand(encode)
    requires forall s :: decode(encode(s)) == s
    requires '\n' !in d.name && '\n' !in d.email
    ensures SubjectParameter(MailtoUrl(d, encode)).Some?
    ensures decode(SubjectParameter(MailtoUrl(d, encode)).value) == Subject
    ensures BodyParameter(MailtoUrl(d, encode)).Some?
    ensures ParseMailBody(decode(BodyParameter(MailtoUrl(d, encode)).value)) == Some(d)
  {
    MailtoCarriesBody(d, encode);
    MailBodyRoundTrip(d);
  }

  /** What the component renders: the success panel, or the form and its button. */
  datatype View = SuccessPanel | FormView(data: FormData, submitDisabled: bool, buttonKey: string)

  /** The form's state, its two armed timers and the navigations it has made. */
  class Form {
    /** `encodeURIComponent`, supplied from outside. */
    const encode: string -> string
    var data: FormData
    var isSubmitting: bool
    var isSubmitted: bool
    /** The armed 1000 ms timer with the form data its closure captured. */
    var pendingCompletion: Option<FormData>
    /** Whether the 5000 ms timer is armed. */
    var pendingReset: bool
    /** Every URI assigned to `window.location.href`, oldest first. */
    var navigations: seq<string>

    /**
     * At most one flag is set; each flag is set exactly while its timer is
     * armed; the single-line inputs hold single lines; the captured form is
     * one the browser let through.
     */
    ghost predicate Valid()
      reads this
    {
      && (isSubmitting <==> pendingCompletion.Some?)
      && (isSubmitted <==> pendingReset)
      && !(isSubmitting && isSubmitted)
      && SingleLine(data.name) && SingleLine(data.email)
      && (pendingCompletion.Some? ==> Sendable(pendingCompletion.value))
    }

    function Render(): (v: View)
      reads this
      ensures v.SuccessPanel? <==> isSubmitted
      ensures v.FormView? ==> v.data == data && (v.submitDisabled <==> isSubmitting)
      ensures v.FormView? ==> v.buttonKey == if isSubmitting then "contact.form.sending" else "contact.form.button"
    {
      if isSubmitted then SuccessPanel
      else FormView(data, isSubmitting, if isSubmitting then "contact.form.sending" else "contact.form.button")
    }

    constructor (encode: string -> string)
      ensures this.encode == encode && Valid()
      ensures data == EmptyForm && !isSubmitting && !isSubmitted
      ensures pendingCompletion == None && !pendingReset && navigations == []
    {
      this.encode := encode;
      data := EmptyForm;
      isSubmitting, isSubmitted := false, false;
      pendingCompletion, pendingReset := None, false;
      navigations := [];
    }

    /**
     * A change event.  The inputs exist only while the success panel is not
     * shown, and the name and email inputs never report a line break.
     */
    method Change(field: Field, value: string)
      requires Valid() && !isSubmitted
      requires field != Message ==> SingleLine(value)
      modifies this
      ensures Valid()
      ensures data == WithField(old(data), field, value)
      ensures isSubmitting == old(isSubmitting) && isSubmitted == old(isSubmitted)
      ensures pendingCompletion == old(pendingCompletion) && pendingReset == old(pendingReset)
      ensures navigations == old(navigations)
    {
      data := WithField(data, field, value);
    }

    /**
     * A submit event.  It reaches the handler only from the form, with its
     * button enabled and its inputs passing the browser's validation.
     */
    method Submit()
      requires Valid() && !isSubmitted && !isSubmitting
      requires Sendable(data)
      modifies this
      ensures Valid()
      ensures isSubmitting && !isSubmitted
      ensures pendingCompletion == Some(data) && !pendingReset
      ensures data == old(data) && navigations == old(navigations)
    {
      isSubmitting := true;
      pendingCompletion := Some(data);
    }

    /** The 1000 ms timer fires: navigate, report success, clear the fields, arm the reset. */
    method Complete()
      requires Valid() && pendingCompletion.Some?
      modifies this
      ensures Valid()
      ensures navigations == old(navigations) + [MailtoUrl(old(pendingCompletion).value, encode)]
      ensures Sendable(old(pendingCompletion).value)
      ensures !isSubmitting && isSubmitted
      ensures data == EmptyForm
      ensures pendingCompletion == None && pendingReset
    {
      var captured := pendingCompletion.value;
      navigations := navigations + [MailtoUrl(captured, encode)];
      isSubmitting := false;
      isSubmitted := true;
      data := EmptyForm;
      pendingCompletion := None;
      pendingReset := true;
    }

    /** The 5000 ms timer fires: the form is shown again. */
    method ResetSubmitted()
      requires Valid() && pendingReset
      modifies this
      ensures Valid()
      ensures !isSubmitted && !pendingReset
      ensures isSubmitting == old(isSubmitting) && pendingCompletion == old(pendingCompletion)
      ensures data == old(data) && navigations == old(navigations)
    {
      isSubmitted := false;
      pendingReset := false;
    }
  }

  /**
   * The mail an armed timer will send decodes back to the form captured at
   * submission: the browser's validation kept its name and email single-line.
   */
  lemma PendingMailRoundTrips(f: Form, decode: string -> string)
    requires f.Valid() && f.pendingCompletion.Some?
    requires EscapesAmpersand(f.encode)
    requires forall s :: decode(f.encode(s)) == s
    ensures BodyParameter(MailtoUrl(f.pendingCompletion.value, f.encode)).Some?
    ensures ParseMailBody(decode(BodyParameter(MailtoUrl(f.pendingCompletion.value, f.encode)).value))
            == Some(f.pendingCompletion.value)
  {
    MailtoRoundTrip(f.pendingCompletion.value, f.encode, decode);
  }

  /**
   * Fill in the form, submit, edit the message while the submission is
   * pending, let both timers fire.  The mail carries the fields as they were
   * at submission, and decoding it gives them back; the late edit is neither
   * sent nor kept.
   */
  method SubmissionScenario(encode: string -> string, decode: string -> string, d: FormData, late: string)
    returns (sent: seq<string>, afterCompletion: View, afterReset: View)
    requires Sendable(d)
    requires EscapesAmpersand(encode) && forall s :: decode(encode(s)) == s
    ensures sent == [MailtoUrl(d, encode)]
    ensures BodyParameter(sent[0]).Some? && ParseMailBody(decode(BodyParameter(sent[0]).value)) == Some(d)
    ensures afterCompletion == SuccessPanel
    ensures afterReset == FormView(EmptyForm, false, "contact.form.button")
  {
    var form := new Form(encode);
    form.Change(Name, d.name);
    form.Change(Email, d.email);
    form.Change(Message, d.message);
    form.Submit();
    form.Change(Message, late);
    PendingMailRoundTrips(form, decode);
    form.Complete();
    afterCompletion := form.Render();
    form.ResetSubmitted();
    afterReset := form.Render();
    sent := form.navigations;
  }
}
