/** The contact form (ContactForm.tsx). The schema asks for a name of at
    least 2 characters, a valid e-mail address, a subject of at least 5 and
    a message of at least 10. A valid submission sets `isSubmitting`; when
    the simulated send delay expires `isSuccess` is set as well, and a
    follow-up timer later clears both flags and resets the form. Because
    `isSubmitting` stays set through the success window, the button's
    "Message Sent!" label is never shown. */
module ContactForm {
  import opened FormErrors

  const MinName: nat := 2
  const MinSubject: nat := 5
  const MinMessage: nat := 10

  datatype Field = Name | Email | Subject | Message

  datatype ContactData = ContactData(name: string, email: string, subject: string, message: string)

  /** The values of the form's inputs after a reset. */
  const Blank: ContactData := ContactData("", "", "", "")

  /** The text of one input. */
  function Value(d: ContactData, f: Field): string
  {
    match f
    case Name => d.name
    case Email => d.email
    case Subject => d.subject
    case Message => d.message
  }

  /** The values after the user edits input `f` to read `text`. */
  function WithValue(d: ContactData, f: Field, text: string): (e: ContactData)
    ensures Value(e, f) == text
    ensures forall g :: g != f ==> Value(e, g) == Value(d, g)
  {
    match f
    case Name => d.(name := text)
    case Email => d.(email := text)
    case Subject => d.(subject := text)
    case Message => d.(message := text)
  }

  /** The schema's rule for field `f` fails on `d`. */
  predicate Violates(d: ContactData, f: Field, isEmail: string -> bool)
  {
    match f
    case Name => |d.name| < MinName
    case Email => !isEmail(d.email)
    case Subject => |d.subject| < MinSubject
    case Message => |d.message| < MinMessage
  }

  /** The schema's verdict, one error per failing field in field order.
      `isEmail` is the e-mail address check the schema library performs. */
  function Errors(d: ContactData, isEmail: string -> bool): (errs: seq<FieldError<Field>>)
    ensures |errs| <= 4
    ensures forall f :: Reports(errs, f) <==> Violates(d, f, isEmail)
    ensures Reports(errs, Name) <==> |d.name| < MinName
    ensures Reports(errs, Email) <==> !isEmail(d.email)
    ensures Reports(errs, Subject) <==> |d.subject| < MinSubject
    ensures Reports(errs, Message) <==> |d.message| < MinMessage
    ensures errs == [] <==>
      |d.name| >= MinName && isEmail(d.email) && |d.subject| >= MinSubject && |d.message| >= MinMessage
  {
    var name := if |d.name| < MinName then [FieldError(Name, "Name must be at least 2 characters")] else [];
    var email := if !isEmail(d.email) then [FieldError(Email, "Please enter a valid email address")] else [];
    var subject := if |d.subject| < MinSubject then [FieldError(Subject, "Subject must be at least 5 characters")] else [];
    var message := if |d.message| < MinMessage then [FieldError(Message, "Message must be at least 10 characters")] else [];
    var errs := name + email + subject + message;
    assert forall i :: 0 <= i < |errs| ==> errs[i] in name || errs[i] in email || errs[i] in subject || errs[i] in message;
    assert name != [] ==> errs[0] == name[0];
    assert email != [] ==> errs[|name|] == email[0];
    assert subject != [] ==> errs[|name| + |email|] == subject[0];
    assert message != [] ==> errs[|name| + |email| + |subject|] == message[0];
    errs
  }

  /** The button is disabled while either flag is set. */
  function ButtonDisabled(isSubmitting: bool, isSuccess: bool): (disabled: bool)
    ensures disabled <==> isSubmitting || isSuccess
    ensures (isSuccess ==> isSubmitting) ==> (disabled <==> isSubmitting)
  {
    isSubmitting || isSuccess
  }

  datatype Label = Sending | Sent | SendMessage

  /** The button text: "Sending...", "Message Sent!" or "Send Message". */
  function LabelText(l: Label): string
  {
    match l
    case Sending => "Sending..."
    case Sent => "Message Sent!"
    case SendMessage => "Send Message"
  }

  /** The button label; `isSubmitting` takes precedence. */
  function ButtonLabel(isSubmitting: bool, isSuccess: bool): (l: Label)
    ensures l == Sent <==> !isSubmitting && isSuccess
    ensures l == Sending <==> isSubmitting
  {
    if isSubmitting then Sending else if isSuccess then Sent else SendMessage
  }

  /** Under the flag invariant the "Message Sent!" label is unreachable, and
      the label reads "Sending..." exactly when the button is disabled. */
  lemma SentLabelUnreachable(isSubmitting: bool, isSuccess: bool)
    requires isSuccess ==> isSubmitting
    ensures ButtonLabel(isSubmitting, isSuccess) != Sent
    ensures LabelText(ButtonLabel(isSubmitting, isSuccess)) != "Message Sent!"
    ensures ButtonLabel(isSubmitting, isSuccess) == Sending <==> ButtonDisabled(isSubmitting, isSuccess)
  {
  }

  /** The continuation the page is waiting for. */
  datatype Pending =
    | NoTimer      // nothing scheduled
    | SendDelay    // the 2-second delay awaited by the submit handler
    | ResetDelay   // the 3-second follow-up that clears the flags

  /** The form's state. */
  class Form {
    var values: ContactData
    var errors: seq<FieldError<Field>>
    var submitted: bool  // the form library's `isSubmitted`
    var isSubmitting: bool
    var isSuccess: bool
    var pending: Pending

    /** The flags follow the outstanding continuation, so in particular
        `isSuccess` implies `isSubmitting`; once the submit handler has
        returned, the library has recorded the submission. */
    ghost predicate Valid()
      reads this
    {
      && (pending == ResetDelay ==> submitted)
      && (pending == NoTimer ==> !isSubmitting && !isSuccess)
      && (pending == SendDelay ==> isSubmitting && !isSuccess)
      && (pending == ResetDelay ==> isSubmitting && isSuccess)
    }

    constructor ()
      ensures Valid()
      ensures !isSubmitting && !isSuccess && pending == NoTimer
      ensures values == Blank && errors == [] && !submitted
    {
      values := Blank;
      errors := [];
      submitted := false;
      isSubmitting := false;
      isSuccess := false;
      pending := NoTimer;
    }

    /** The current label; never "Message Sent!" in a reachable state. */
    function CurrentLabel(): (l: Label)
      reads this
      requires Valid()
      ensures l != Sent
      ensures l == Sending <==> ButtonDisabled(isSubmitting, isSuccess)
    {
      SentLabelUnreachable(isSubmitting, isSuccess);
      ButtonLabel(isSubmitting, isSuccess)
    }

    /** The user edits input `f`. Before the first submission nothing is
        validated; afterwards the schema re-runs and only `f`'s error is
        replaced. */
    method Input(f: Field, text: string, isEmail: string -> bool)
      requires Valid()
      modifies this
      ensures Valid()
      ensures values == WithValue(old(values), f, text)
      ensures submitted == old(submitted) && isSubmitting == old(isSubmitting)
      ensures isSuccess == old(isSuccess) && pending == old(pending)
      ensures !submitted ==> errors == old(errors)
      ensures submitted ==> errors == Revalidated(old(errors), f, Errors(values, isEmail))
      ensures submitted ==> (Reports(errors, f) <==> Violates(values, f, isEmail))
      ensures forall g :: g != f ==> (Reports(errors, g) <==> Reports(old(errors), g))
    {
      values := WithValue(values, f, text);
      if submitted {
        errors := Revalidated(errors, f, Errors(values, isEmail));
      }
    }

    /** A click on the (enabled) submit button: the schema runs first and
        the submit handler only starts when it reports nothing. The library
        records the submission when the handler returns, so a rejected
        submission is recorded at once and an accepted one only when the
        send delay settles. */
    method HandleSubmit(isEmail: string -> bool)
      requires Valid() && !ButtonDisabled(isSubmitting, isSuccess)
      modifies this
      ensures Valid()
      ensures values == old(values)
      ensures errors == Errors(values, isEmail)
      ensures errors == [] ==> isSubmitting && !isSuccess && pending == SendDelay
      ensures errors == [] ==> submitted == old(submitted)
      ensures errors != [] ==> !isSubmitting && !isSuccess && pending == NoTimer && submitted
    {
      errors := Errors(values, isEmail);
      if errors == [] {
        isSubmitting := true;
        pending := SendDelay;
      } else {
        submitted := true;
      }
    }

    /** The send delay resolves: success is flagged while `isSubmitting`
        stays set, the follow-up timer starts, and the handler returns, so
        the submission is recorded. */
    method SendDelayElapsed()
      requires Valid() && pending == SendDelay
      modifies this
      ensures Valid()
      ensures isSubmitting && isSuccess && pending == ResetDelay
      ensures values == old(values) && errors == old(errors) && submitted
    {
      submitted := true;
      isSuccess := true;
      pending := ResetDelay;
    }

    /** The awaited delay rejects: `isSubmitting` is cleared, nothing is
        reset, and the handler returns, so the submission is recorded. */
    method SendDelayRejected()
      requires Valid() && pending == SendDelay
      modifies this
      ensures Valid()
      ensures !isSubmitting && isSuccess == old(isSuccess) && pending == NoTimer
      ensures values == old(values) && errors == old(errors) && submitted
    {
      submitted := true;
      isSubmitting := false;
      pending := NoTimer;
    }

    /** The follow-up timer fires: both flags clear and the form is reset,
        which also forgets the submission. */
    method ResetDelayElapsed()
      requires Valid() && pending == ResetDelay
      modifies this
      ensures Valid()
      ensures !isSubmitting && !isSuccess && pending == NoTimer
      ensures values == Blank && errors == [] && !submitted
    {
      submitted := false;
      isSuccess := false;
      isSubmitting := false;
      values := Blank;
      errors := [];
      pending := NoTimer;
    }
  }
}
