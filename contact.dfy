/** The contact form (components/ContactSection.tsx): four text fields, and a simulated submission
    that shows a spinner for 2000 ms, then a success panel for 3000 ms, then a cleared form. */
module Contact {

  /** The four inputs, by their `name` attribute. */
  datatype Field = Name | Email | Subject | Message

  /** The `name` attribute of each input, which `handleInputChange` uses as the key. */
  function AttributeName(f: Field): string {
    match f
    case Name => "name"
    case Email => "email"
    case Subject => "subject"
    case Message => "message"
  }

  /** The inputs carry four different names, so an event names exactly one field. */
  lemma AttributeNamesDistinct(f: Field, g: Field)
    ensures AttributeName(f) == AttributeName(g) <==> f == g
  {
  }

  /** The `formData` record. */
  datatype FormData = FormData(name: string, email: string, subject: string, message: string)

  /** The form as first rendered and as reset after a submission. */
  const EmptyForm := FormData("", "", "", "")

  function Get(form: FormData, f: Field): string {
    match f
    case Name => form.name
    case Email => form.email
    case Subject => form.subject
    case Message => form.message
  }

  /** `{...formData, [name]: value}`: the named field takes the new value and the other three keep theirs. */
  function With(form: FormData, f: Field, value: string): (r: FormData)
    ensures Get(r, f) == value
    ensures forall g :: g != f ==> Get(r, g) == Get(form, g)
  {
    match f
    case Name => form.(name := value)
    case Email => form.(email := value)
    case Subject => form.(subject := value)
    case Message => form.(message := value)
  }

  /** Every field of the reset form is empty. */
  lemma EmptyFormIsEmpty(f: Field)
    ensures Get(EmptyForm, f) == ""
  {
  }

  /** The form's state: the record and the two flags. A pending continuation of the submission
      is identified by its flag: the 2000 ms wait runs exactly while `isSubmitting`, the 3000 ms
      reset timer exactly while `isSubmitted`. */
  class ContactForm {
    var formData: FormData
    var isSubmitting: bool
    var isSubmitted: bool

    /** The spinner and the success panel are never both shown. */
    ghost predicate Valid()
      reads this
    {
      !(isSubmitting && isSubmitted)
    }

    /** Every field empty, both flags false. */
    constructor ()
      ensures Valid()
      ensures formData == EmptyForm && !isSubmitting && !isSubmitted
    {
      formData := EmptyForm;
      isSubmitting := false;
      isSubmitted := false;
    }

    /** `handleInputChange`: overwrite the field the event names, keep the other three. */
    method Change(f: Field, value: string)
      requires Valid()
      modifies this
      ensures Valid()
      ensures formData == With(old(formData), f, value)
      ensures isSubmitting == old(isSubmitting) && isSubmitted == old(isSubmitted)
    {
      formData := With(formData, f, value);
    }

    /** `handleSubmit` up to its first `await`. The DOM calls it only while the form is shown
        and its button is enabled, and the `required` inputs keep it from firing while any
        field is empty. */
    method Submit()
      requires Valid() && !isSubmitting && !isSubmitted
      requires forall f :: Get(formData, f) != ""
      modifies this
      ensures Valid()
      ensures isSubmitting && !isSubmitted && formData == old(formData)
    {
      isSubmitting := true;
    }

    /** The 2000 ms wait ends: the spinner gives way to the success panel. */
    method SendingDone()
      requires Valid() && isSubmitting
      modifies this
      ensures Valid()
      ensures !isSubmitting && isSubmitted && formData == old(formData)
    {
      isSubmitting := false;
      isSubmitted := true;
    }

    /** The 3000 ms timer fires: the panel closes and every field is cleared. */
    method ResetDone()
      requires Valid() && isSubmitted
      modifies this
      ensures Valid()
      ensures !isSubmitting && !isSubmitted && formData == EmptyForm
    {
      isSubmitted := false;
      formData := EmptyForm;
    }

    /** The success panel replaces the form. */
    predicate ShowsSuccessPanel()
      reads this
      ensures Valid() && ShowsSuccessPanel() ==> !isSubmitting
    {
      isSubmitted
    }

    /** The submit button is disabled and shows "Sending...". */
    predicate SubmitDisabled()
      reads this
      ensures Valid() && SubmitDisabled() ==> !isSubmitted
    {
      isSubmitting
    }

    /** The success panel and the form are the two branches of one conditional, so a disabled
        button is never hidden behind the panel: spinner and panel never show together. */
    lemma DisplayConditions()
      requires Valid()
      ensures SubmitDisabled() ==> !ShowsSuccessPanel()
    {
    }
  }

  /** One submission cycle: idle, filled in, submitting, submitted, idle with every field cleared,
      including what was typed while the message was being sent. */
  method SubmissionScenario(name: string, note: string)
    requires name != ""
  {
    var form := new ContactForm();
    form.Change(Name, name);
    assert Get(form.formData, Name) == name && Get(form.formData, Email) == "";
    form.Change(Email, "visitor@example.com");
    form.Change(Subject, "Homelab");
    form.Change(Message, "Hello");
    assert forall f :: Get(form.formData, f) != "";
    form.Submit();
    assert form.SubmitDisabled() && !form.ShowsSuccessPanel();
    form.Change(Message, note);
    form.SendingDone();
    assert form.ShowsSuccessPanel() && !form.SubmitDisabled();
    form.ResetDone();
    assert form.formData == EmptyForm && !form.ShowsSuccessPanel() && !form.SubmitDisabled();
  }
}
