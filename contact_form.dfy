/** The new-contact form: the Irish phone validator, the contact record built
    from the form, and the form's touched flags and messages. */
module ContactFormView {
  import opened Crm
  import opened Text

  /** The number after the prefix: a digit 1-9, then 8 or 9 more digits. */
  predicate NationalNumber(n: string) {
    (|n| == 9 || |n| == 10) && '1' <= n[0] <= '9' && AllDigits(n)
  }

  /** `/^(\+353|0)(\s?[1-9]{1}[\d\s]{8,9})$/` on a string without whitespace,
      where neither `\s` can match: the prefix `+353` or `0`, then the
      national number. */
  predicate IrishPhone(s: string) {
    || (|s| >= 4 && s[..4] == "+353" && NationalNumber(s[4..]))
    || (|s| >= 1 && s[0] == '0' && NationalNumber(s[1..]))
  }

  /** The validator's error object. */
  const PhoneError: map<string, bool> := map["irelandPhone" := true]

  /** `irelandPhoneValidator`: no error for an empty or absent value; otherwise
      the whitespace-free value must be an Irish number, or the error is
      exactly `{irelandPhone: true}`. */
  function PhoneValidator(value: Option<string>): (r: Option<map<string, bool>>)
    ensures !Truthy(value) ==> r.None?
    ensures Truthy(value) ==> (r.None? <==> IrishPhone(RemoveWhitespace(value.value)))
    ensures r.Some? ==> r.value == PhoneError
  {
    if !Truthy(value) then None
    else if IrishPhone(RemoveWhitespace(value.value)) then None
    else Some(PhoneError)
  }

  /** Whitespace anywhere in a non-empty value does not change the verdict. */
  lemma PhoneWhitespaceInvariant(a: string, w: string, b: string)
    requires AllWhitespace(w) && a + b != ""
    ensures PhoneValidator(Some(a + w + b)) == PhoneValidator(Some(a + b))
  {
    RemoveWhitespaceAppend(a + w, b);
    RemoveWhitespaceAppend(a, w);
    RemoveWhitespaceOfWhitespace(w);
    RemoveWhitespaceAppend(a, b);
    assert RemoveWhitespace(a + w) == RemoveWhitespace(a);
    assert RemoveWhitespace(a + w + b) == RemoveWhitespace(a + b);
    assert |a + w + b| >= |a + b| > 0;
  }

  /** A value of whitespace alone is rejected, though the empty value is not. */
  lemma WhitespaceOnlyPhoneRejected(w: string)
    requires w != "" && AllWhitespace(w)
    ensures PhoneValidator(Some(w)) == Some(PhoneError)
    ensures PhoneValidator(Some("")).None?
  {
    RemoveWhitespaceOfWhitespace(w);
  }

  /** An accepted number, without whitespace, has 10 or 11 characters after
      `0`, 13 or 14 after `+353`, and is digits after an optional `+`. */
  lemma IrishPhoneShape(s: string)
    requires IrishPhone(s)
    ensures s[0] == '0' ==> |s| == 10 || |s| == 11
    ensures s[0] == '+' ==> |s| == 13 || |s| == 14
    ensures s[0] == '0' || s[0] == '+'
    ensures forall i :: 0 < i < |s| ==> IsDigit(s[i])
  {
    if s[0] == '+' {
      assert s[..4] == "+353";
      assert forall i :: 4 <= i < |s| ==> s[i] == s[4..][i - 4];
    } else {
      assert forall i :: 1 <= i < |s| ==> s[i] == s[1..][i - 1];
    }
  }

  /** A string of digits chosen as a number, without whitespace. */
  lemma NumberExample(s: string)
    requires s == "0871234567"
    ensures RemoveWhitespace(s) == s && IrishPhone(s)
  {
    assert forall i | 0 <= i < |s| :: '0' <= s[i] <= '9';
    DigitsHaveNoWhitespace(s);
    RemoveWhitespaceOfClean(s);
    var n := s[1..];
    assert |n| == 9 && n[0] == '8';
    assert forall i | 0 <= i < |n| :: n[i] == s[i + 1];
  }

  /** Spaces grouping the digits are accepted: `087 1234567` passes. */
  lemma SpacedNumberExample()
    ensures PhoneValidator(Some("087 1234567")).None?
  {
    var a, b := "087", "1234567";
    var joined := a + b;
    assert joined == "0871234567";
    assert a + " " + b == "087 1234567";
    PhoneWhitespaceInvariant(a, " ", b);
    NumberExample(joined);
  }

  /** Too short, and a wrong prefix, are rejected. */
  lemma RejectedNumberExamples(short: string, wrong: string)
    requires short == "0871234" && wrong == "1871234567"
    ensures PhoneValidator(Some(short)) == Some(PhoneError)
    ensures PhoneValidator(Some(wrong)) == Some(PhoneError)
  {
    assert forall i | 0 <= i < |short| :: '0' <= short[i] <= '9';
    assert forall i | 0 <= i < |wrong| :: '0' <= wrong[i] <= '9';
    DigitsHaveNoWhitespace(short);
    DigitsHaveNoWhitespace(wrong);
    RemoveWhitespaceOfClean(short);
    RemoveWhitespaceOfClean(wrong);
    assert short[0] == '0' && |short[1..]| == 6;
    assert wrong[0] == '1';
  }

  /** The names of the form's controls. */
  const Controls: set<string> := {"firstname", "lastname", "email", "phone", "address"}

  /** `Validators.required` and `Validators.minLength(2)` of a name; the
      length is JavaScript's, in UTF-16 code units. */
  predicate NameValid(v: Option<string>) {
    Truthy(v) && Utf16Length(v.value) >= 2
  }

  /** One character outside the Basic Multilingual Plane is two code units
      long, so it is a name of the minimum length; one other character is not. */
  lemma NameLengthExamples(c: char)
    requires c > '\U{FFFF}'
    ensures NameValid(Some([c]))
    ensures !NameValid(Some("a"))
  {
  }

  /** The contact sent for the form's values: the names and email as they
      are, an empty phone or address left undefined, nothing else set. */
  function ContactPayload(firstname: Option<string>, lastname: Option<string>, email: Option<string>,
                          phone: Option<string>, address: Option<string>): (r: Contact)
    ensures r.id.None? && r.createdAt.None? && r.updatedAt.None? && r.archived.None?
    ensures r.properties.firstname == firstname && r.properties.lastname == lastname
    ensures r.properties.email == email
    ensures r.properties.phone == (if Truthy(phone) then phone else None)
    ensures r.properties.address == (if Truthy(address) then address else None)
    ensures r.properties.jobtitle.None? && r.properties.company.None? && r.properties.createdate.None?
    ensures r.properties.hs_object_id.None? && r.properties.lastmodifieddate.None?
  {
    var properties := ContactProperties(firstname, lastname, email, None, None,
      if Truthy(phone) then phone else None,
      if Truthy(address) then address else None,
      None, None, None);
    Contact(None, properties, None, None, None)
  }

  /** The success message names the contact the CRM answered with. */
  function CreatedMessage(response: Contact): string {
    "Customer " + Interpolated(response.properties.firstname) + " " + Interpolated(response.properties.lastname)
      + " has been successfully registered and synced to HubSpot."
  }

  function FailedMessage(message: string): string {
    "Failed to sync customer to HubSpot: " + message + ". Please try again."
  }

  class ContactForm {
    var firstname: Option<string>
    var lastname: Option<string>
    var email: Option<string>
    var phone: Option<string>
    var address: Option<string>
    var touched: set<string>
    var submitting: bool
    var successMessage: string
    var errorMessage: string
    /** The contacts emitted on `contactCreated`, in order. */
    var emitted: seq<Contact>

    constructor()
      ensures firstname == Some("") && lastname == Some("") && email == Some("")
      ensures phone == Some("") && address == Some("")
      ensures touched == {} && !submitting && successMessage == "" && errorMessage == "" && emitted == []
    {
      firstname, lastname, email, phone, address := Some(""), Some(""), Some(""), Some(""), Some("");
      touched := {};
      submitting := false;
      successMessage, errorMessage := "", "";
      emitted := [];
    }

    /** `contactForm.valid`; `emailValid` stands for `Validators.email` on the
        email value. */
    predicate FormValid(emailValid: bool)
      reads this
    {
      NameValid(firstname) && NameValid(lastname) && Truthy(email) && emailValid
      && PhoneValidator(phone).None?
    }

    /** `onSubmit` up to the request: an invalid form only marks every
        control touched and sends nothing; a valid one clears both messages
        and yields the contact to send. */
    method OnSubmit(emailValid: bool) returns (payload: Option<Contact>)
      modifies this
      ensures firstname == old(firstname) && lastname == old(lastname) && email == old(email)
      ensures phone == old(phone) && address == old(address) && emitted == old(emitted)
      ensures !old(FormValid(emailValid)) ==>
        payload.None? && touched == old(touched) + Controls
        && submitting == old(submitting) && successMessage == old(successMessage) && errorMessage == old(errorMessage)
      ensures old(FormValid(emailValid)) ==>
        payload == Some(ContactPayload(firstname, lastname, email, phone, address))
        && touched == old(touched) && submitting && successMessage == "" && errorMessage == ""
    {
      if !FormValid(emailValid) {
        touched := touched + Controls;
        return None;
      }
      submitting := true;
      successMessage := "";
      errorMessage := "";
      payload := Some(ContactPayload(firstname, lastname, email, phone, address));
    }

    /** `contactForm.reset()`: every value back to `null`, nothing touched. */
    method ResetForm()
      modifies this
      ensures firstname.None? && lastname.None? && email.None? && phone.None? && address.None?
      ensures touched == {}
      ensures submitting == old(submitting) && successMessage == old(successMessage)
      ensures errorMessage == old(errorMessage) && emitted == old(emitted)
    {
      firstname, lastname, email, phone, address := None, None, None, None, None;
      touched := {};
    }

    /** The request's `next`: the success message, the form reset, and the
        created contact emitted. */
    method OnCreated(response: Contact)
      modifies this
      ensures !submitting && successMessage == CreatedMessage(response) && errorMessage == old(errorMessage)
      ensures firstname.None? && lastname.None? && email.None? && phone.None? && address.None?
      ensures touched == {} && emitted == old(emitted) + [response]
    {
      submitting := false;
      successMessage := CreatedMessage(response);
      ResetForm();
      emitted := emitted + [response];
    }

    /** The request's `error`: the values are kept for another try. */
    method OnFailed(message: string)
      modifies this
      ensures !submitting && errorMessage == FailedMessage(message) && successMessage == old(successMessage)
      ensures firstname == old(firstname) && lastname == old(lastname) && email == old(email)
      ensures phone == old(phone) && address == old(address)
      ensures touched == old(touched) && emitted == old(emitted)
    {
      submitting := false;
      errorMessage := FailedMessage(message);
    }

    /** `onReset`: the form reset and both messages cleared. */
    method OnReset()
      modifies this
      ensures firstname.None? && lastname.None? && email.None? && phone.None? && address.None?
      ensures touched == {} && successMessage == "" && errorMessage == ""
      ensures submitting == old(submitting) && emitted == old(emitted)
    {
      ResetForm();
      successMessage := "";
      errorMessage := "";
    }
  }

  /** A form that can be submitted sends a phone that is absent or passes the
      validator, and its names are at least two UTF-16 code units long. */
  lemma PayloadOfValidForm(form: ContactForm, emailValid: bool)
    requires form.FormValid(emailValid)
    ensures var c := ContactPayload(form.firstname, form.lastname, form.email, form.phone, form.address);
      && (c.properties.phone.None? || IrishPhone(RemoveWhitespace(c.properties.phone.value)))
      && Utf16Length(c.properties.firstname.value) >= 2 && Utf16Length(c.properties.lastname.value) >= 2
      && c.properties.email == form.email
  {
  }

  /** After a reset the form cannot be submitted again until it is filled
      in, although its (absent) phone is accepted. */
  lemma ResetFormIsInvalid(form: ContactForm, emailValid: bool)
    requires form.firstname.None? && form.phone.None?
    ensures !form.FormValid(emailValid)
    ensures PhoneValidator(form.phone).None?
  {
  }
}
