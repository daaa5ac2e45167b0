/** The modern contact form (ModernContactForm.tsx). The schema asks for a
    name of at least 2 characters, a valid e-mail address and a message of
    at least 10; there is no subject. A valid submission sets
    `isSubmitting`, which a `finally` block clears whether the send
    succeeds or fails; only success resets the form. Each input highlights
    its overlay while it has focus, and a rejected submission focuses the
    first input in form order whose rule fails. */
module ModernContactForm {
  import opened Optional
  import opened FormErrors

  const MinName: nat := 2
  const MinMessage: nat := 10

  datatype Field = Name | Email | Message

  datatype ContactData = ContactData(name: string, email: string, message: string)

  const Blank: ContactData := ContactData("", "", "")

  /** The text of one input. */
  function Value(d: ContactData, f: Field): string
  {
    match f
    case Name => d.name
    case Email => d.email
    case Message => d.message
  }

  /** The values after the user edits input `f` to read `text`. */
  function WithValue(d: ContactData, f: Field, text: string): (e: ContactData)
    ensures Value(e, f) == text
    ensures forall g :: g != f ==> Value(e, g) == Value(d, g)
  {
    match f
    case Name => d.(name := text)
    case Email => d.(email := text)
    case Message => d.(message := text)
  }

  /** The schema's rule for field `f` fails on `d`. */
  predicate Violates(d: ContactData, f: Field, isEmail: string -> bool)
  {
    match f
    case Name => |d.name| < MinName
    case Email => !isEmail(d.email)
    case Message => |d.message| < MinMessage
  }

  /** The schema's verdict, one error per failing field in field order, so
      the first entry names the first failing input of the form.
      `isEmail` is the e-mail address check the schema library performs. */
  function Errors(d: ContactData, isEmail: string -> bool): (errs: seq<FieldError<Field>>)
    ensures |errs| <= 3
    ensures forall f :: Reports(errs, f) <==> Violates(d, f, isEmail)
    ensures errs != [] && Violates(d, Name, isEmail) ==> errs[0].field == Name
    ensures errs != [] && !Violates(d, Name, isEmail) && Violates(d, Email, isEmail) ==> errs[0].field == Email
    ensures errs != [] && !Violates(d, Name, isEmail) && !Violates(d, Email, isEmail) ==> errs[0].field == Message
    ensures Reports(errs, Name) <==> |d.name| < MinName
    ensures Reports(errs, Email) <==> !isEmail(d.email)
    ensures Reports(errs, Message) <==> |d.message| < MinMessage
    ensures errs == [] <==> |d.name| >= MinName && isEmail(d.email) && |d.message| >= MinMessage
  {
    var name := if |d.name| < MinName then [FieldError(Name, "Name must be at least 2 characters")] else [];
    var email := if !isEmail(d.email) then [FieldError(Email, "Please enter a valid email address")] else [];
    var message := if |d.message| < MinMessage then [FieldError(Message, "Message must be at least 10 characters")] else [];
    var errs := name + email + message;
    assert forall i :: 0 <= i < |errs| ==> errs[i] in name || errs[i] in email || errs[i] in message;
    assert name != [] ==> errs[0] == name[0];
    assert email != [] ==> errs[|name|] == email[0];
    assert message != [] ==> errs[|name| + |email|] == message[0];
    errs
  }

  /** The focus overlay of one input. */
  datatype Overlay = Overlay(opacity: real, scale: real)

  /** The overlay of field `f` given the focused field. */
  function OverlayFor(focusedField: Option<Field>, f: Field): (o: Overlay)
    ensures o.opacity > 0.0 <==> focusedField == Some(f)
    ensures o == Overlay(0.3, 1.0) || o == Overlay(0.0, 0.95)
  {
    if focusedField == Some(f) then Overlay(0.3, 1.0) else Overlay(0.0, 0.95)
  }

  /** At most one input shows its highlight, and none without focus. */
  lemma AtMostOneHighlight(focusedField: Option<Field>, f: Field, g: Field)
    requires OverlayFor(focusedField, f).opacity > 0.0
    ensures focusedField.Some?
    ensures OverlayFor(focusedField, g).opacity > 0.0 <==> g == f
  {
  }

  datatype Label = Sending | SendMessage

  /** The submit button's label. */
  function ButtonLabel(isSubmitting: bool): (l: Label)
    ensures l == Sending <==> isSubmitting
  {
    if isSubmitting then Sending else SendMessage
  }

  /** The form's state. */
  class Form {
    var values: ContactData
    var errors: seq<FieldError<Field>>
    var submitted: bool  // the form library's `isSubmitted`
    var isSubmitting: bool
    var focusedField: Option<Field>

    constructor ()
      ensures values == Blank && errors == [] && !submitted
      ensures !isSubmitting && focusedField == None
    {
      values := Blank;
      errors := [];
      submitted := false;
      isSubmitting := false;
      focusedField := None;
    }

    /** The button is disabled exactly while submitting. */
    function ButtonDisabled(): (disabled: bool)
      reads this
      ensures disabled <==> ButtonLabel(isSubmitting) == Sending
    {
      isSubmitting
    }

    /** The user edits input `f`. Before the first submission nothing is
        validated; afterwards the schema re-runs and only `f`'s error is
        replaced. */
    method Input(f: Field, text: string, isEmail: string -> bool)
      modifies this
      ensures values == WithValue(old(values), f, text)
      ensures submitted == old(submitted) && isSubmitting == old(isSubmitting)
      ensures focusedField == old(focusedField)
      ensures !submitted ==> errors == old(errors)
      ensures submitted ==> errors == Revalidated(old(errors), f, Errors(values, isEmail))
      ensures submitted ==> (Reports(errors, f) <==> Violates(values, f, isEmail))
      ensures forall g :: g != f ==> (Reports(errors, g) <==> Reports(old(errors), g))
    {
      values := WithValue(values, f, text);
      if submitted {
        errors := Revalidated(errors, f, Errors(values, isEmail));
      }
    }

    /** An input gains focus. */
    method Focus(f: Field)
      modifies this
      ensures focusedField == Some(f)
      ensures OverlayFor(focusedField, f) == Overlay(0.3, 1.0)
      ensures forall g :: g != f ==> OverlayFor(focusedField, g) == Overlay(0.0, 0.95)
      ensures values == old(values) && errors == old(errors)
      ensures submitted == old(submitted) && isSubmitting == old(isSubmitting)
    {
      focusedField := Some(f);
    }

    /** An input loses focus; the handler clears the field whichever it was. */
    method Blur()
      modifies this
      ensures focusedField == None
      ensures forall g :: OverlayFor(focusedField, g) == Overlay(0.0, 0.95)
      ensures values == old(values) && errors == old(errors)
      ensures submitted == old(submitted) && isSubmitting == old(isSubmitting)
    {
      focusedField := None;
    }

    /** A click on the (enabled) submit button: the schema runs first and
        the submit handler only starts when it reports nothing. When it
        reports something, the library focuses the first failing input,
        whose focus handler then records it, and records the submission;
        an accepted submission is recorded only when the handler returns. */
    method HandleSubmit(isEmail: string -> bool)
      requires !ButtonDisabled()
      modifies this
      ensures values == old(values)
      ensures errors == Errors(values, isEmail)
      ensures isSubmitting <==> errors == []
      ensures errors == [] ==> submitted == old(submitted)
      ensures errors != [] ==> submitted
      ensures errors == [] ==> focusedField == old(focusedField)
      ensures errors != [] ==> focusedField == Some(errors[0].field)
      ensures errors != [] ==> Violates(values, focusedField.value, isEmail)
      ensures errors != [] ==> forall g :: OverlayFor(focusedField, g).opacity > 0.0 <==> g == errors[0].field
    {
      errors := Errors(values, isEmail);
      if errors == [] {
        isSubmitting := true;
      } else {
        submitted := true;
        focusedField := Some(errors[0].field);
      }
    }

    /** The send settles. On success the form is reset; on either path the
        `finally` block clears `isSubmitting`. The handler then returns and
        the library records the submission, after the reset, so edits are
        re-validated from here on even on a blank form. */
    method SendSettled(succeeded: bool)
      requires isSubmitting
      modifies this
      ensures !isSubmitting && !ButtonDisabled()
      ensures ButtonLabel(isSubmitting) == SendMessage
      ensures submitted
      ensures succeeded ==> values == Blank && errors == []
      ensures !succeeded ==> values == old(values) && errors == old(errors)
      ensures focusedField == old(focusedField)
    {
      if succeeded {
        values := Blank;
        errors := [];
      }
      submitted := true;
      isSubmitting := false;
    }
  }
}
