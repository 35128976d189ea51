/** ContactDetailsForm.tsx: step 2 of the wizard. Field edits clear the
    field's error and re-run the parent's email or phone check; submit
    validates the required fields against the parent's validation status,
    saves the partial onboarding record, and moves on only when the save
    succeeds. */
module ContactDetailsForm {
  import opened Wrappers
  import opened Json
  import opened Text
  import opened Http
  import opened OnboardingData
  import opened FormErrors
  import OnboardingService

  /** One entry of the `validationStatus` prop: `isValid` is None while
      unknown (`null`). */
  datatype FieldStatus = FieldStatus(isValid: Option<bool>, message: string, isChecking: bool)

  datatype ValidationStatus = ValidationStatus(email: FieldStatus, phone: FieldStatus)

  datatype ContactField = FirstName | LastName | Email | PhoneNumber | JobTitle

  function Key(f: ContactField): string
  {
    match f
    case FirstName => "firstName"
    case LastName => "lastName"
    case Email => "email"
    case PhoneNumber => "phoneNumber"
    case JobTitle => "jobTitle"
  }

  function Value(d: ContactFormData, f: ContactField): string
  {
    match f
    case FirstName => d.firstName
    case LastName => d.lastName
    case Email => d.email
    case PhoneNumber => d.phoneNumber
    case JobTitle => d.jobTitle
  }

  /** `{ ...prev, [name]: value }`. */
  function WithField(d: ContactFormData, f: ContactField, v: string): (r: ContactFormData)
    ensures Value(r, f) == v
    ensures forall g :: g != f ==> Value(r, g) == Value(d, g)
  {
    match f
    case FirstName => d.(firstName := v)
    case LastName => d.(lastName := v)
    case Email => d.(email := v)
    case PhoneNumber => d.(phoneNumber := v)
    case JobTitle => d.(jobTitle := v)
  }

  const FIRST_NAME_REQUIRED := "First name is required"
  const LAST_NAME_REQUIRED := "Last name is required"
  const EMAIL_REQUIRED := "Email is required"
  const EMAIL_INVALID := "Please enter a valid email address"
  const PHONE_REQUIRED := "Phone number is required"
  const PHONE_INVALID := "Please enter a valid phone number"
  const SAVE_FAILED := "Failed to save contact information. Please try again."

  /** The message for a field checked by the parent: required when blank,
      invalid only when the parent has positively rejected it. */
  function CheckedError(text: string, status: FieldStatus, required: string, invalid: string): (r: Option<string>)
    ensures Blank(text) ==> r == Some(required)
    ensures !Blank(text) && status.isValid == Some(false) ==> r == Some(invalid)
    ensures r.None? <==> !Blank(text) && status.isValid != Some(false)
  {
    if Blank(text) then Some(required) else if status.isValid == Some(false) then Some(invalid) else None
  }

  function Entry(k: string, e: Option<string>): Errors
  {
    if e.Some? then map[k := e] else map[]
  }

  /** The errors `validateForm` reports. */
  function ContactErrors(d: ContactFormData, status: ValidationStatus): Errors
  {
    Entry("firstName", if Blank(d.firstName) then Some(FIRST_NAME_REQUIRED) else None) +
    Entry("lastName", if Blank(d.lastName) then Some(LAST_NAME_REQUIRED) else None) +
    Entry("email", CheckedError(d.email, status.email, EMAIL_REQUIRED, EMAIL_INVALID)) +
    Entry("phoneNumber", CheckedError(d.phoneNumber, status.phone, PHONE_REQUIRED, PHONE_INVALID))
  }

  /** The form is valid exactly when both names are non-blank and the email
      and the phone are non-blank and not rejected; a status still unknown
      lets its field pass, and the job title is never checked. */
  lemma ContactErrorsFacts(d: ContactFormData, status: ValidationStatus)
    ensures ContactErrors(d, status) == map[] <==>
      && !Blank(d.firstName) && !Blank(d.lastName)
      && !Blank(d.email) && status.email.isValid != Some(false)
      && !Blank(d.phoneNumber) && status.phone.isValid != Some(false)
    ensures "jobTitle" !in ContactErrors(d, status)
    ensures "email" in ContactErrors(d, status) <==> Blank(d.email) || status.email.isValid == Some(false)
    ensures forall k :: k in ContactErrors(d, status) ==> HasError(ContactErrors(d, status), k)
  {
    var e := ContactErrors(d, status);
    if Blank(d.firstName) { assert "firstName" in e; }
    if Blank(d.lastName) { assert "lastName" in e; }
    if CheckedError(d.email, status.email, EMAIL_REQUIRED, EMAIL_INVALID).Some? { assert "email" in e; }
    if CheckedError(d.phoneNumber, status.phone, PHONE_REQUIRED, PHONE_INVALID).Some? { assert "phoneNumber" in e; }
  }

  /** `if (!text.trim()) newErrors[key] = required`. */
  method RequireText(errors: Errors, key: string, text: string, required: string) returns (r: Errors)
    ensures r == errors + Entry(key, if Blank(text) then Some(required) else None)
  {
    r := errors;
    if Blank(text) {
      r := r[key := Some(required)];
    }
  }

  /** The required-then-rejected test of the email and the phone. */
  method RequireChecked(errors: Errors, key: string, text: string, status: FieldStatus, required: string, invalid: string)
    returns (r: Errors)
    ensures r == errors + Entry(key, CheckedError(text, status, required, invalid))
  {
    r := errors;
    if Blank(text) {
      r := r[key := Some(required)];
    } else if status.isValid == Some(false) {
      r := r[key := Some(invalid)];
    }
  }

  /** The body of `validateForm`: `newErrors` built field by field. */
  method BuildErrors(data: ContactFormData, status: ValidationStatus) returns (newErrors: Errors)
    ensures newErrors == ContactErrors(data, status)
  {
    newErrors := map[];
    newErrors := RequireText(newErrors, "firstName", data.firstName, FIRST_NAME_REQUIRED);
    newErrors := RequireText(newErrors, "lastName", data.lastName, LAST_NAME_REQUIRED);
    newErrors := RequireChecked(newErrors, "email", data.email, status.email, EMAIL_REQUIRED, EMAIL_INVALID);
    newErrors := RequireChecked(newErrors, "phoneNumber", data.phoneNumber, status.phone, PHONE_REQUIRED, PHONE_INVALID);
  }

  /** The domain record sent with the step-2 save: no domain yet, not
      verified, and the contact's email. */
  function PlaceholderDomain(email: string): DomainFormData
  {
    DomainFormData("", "", false, Some(false), Some(email))
  }

  /** The component. The callbacks of the parent are recorded: the values
      passed to `validateEmail` and `validatePhone`, the data passed to
      `onNext`, and each request the save sends. */
  class ContactDetailsForm {
    var formData: ContactFormData
    var errors: Errors
    var isLoading: bool
    const validationStatus: ValidationStatus
    const companyData: Option<CompanyFormData>
    var emailChecks: seq<string>
    var phoneChecks: seq<string>
    var requests: seq<Envelope>
    var nextCalls: seq<ContactFormData>

    constructor(initialData: Option<ContactFormData>, validationStatus: ValidationStatus, companyData: Option<CompanyFormData>)
      ensures formData == initialData.GetOr(EmptyContact) && errors == map[] && !isLoading
      ensures this.validationStatus == validationStatus && this.companyData == companyData
      ensures emailChecks == [] && phoneChecks == [] && requests == [] && nextCalls == []
    {
      formData := initialData.GetOr(EmptyContact);
      errors := map[];
      isLoading := false;
      this.validationStatus := validationStatus;
      this.companyData := companyData;
      emailChecks := [];
      phoneChecks := [];
      requests := [];
      nextCalls := [];
    }

    /** `handleChange`: only the named field changes and only its error is
        cleared; an email or phone edit is passed to the parent's check. */
    method HandleChange(f: ContactField, value: string)
      modifies this
      ensures formData == WithField(old(formData), f, value)
      ensures errors == ClearOnChange(old(errors), Key(f))
      ensures emailChecks == old(emailChecks) + (if f == Email then [value] else [])
      ensures phoneChecks == old(phoneChecks) + (if f == PhoneNumber then [value] else [])
      ensures isLoading == old(isLoading) && requests == old(requests) && nextCalls == old(nextCalls)
    {
      formData := WithField(formData, f, value);
      if HasError(errors, Key(f)) {
        errors := errors[Key(f) := None];
      }
      if f == Email {
        emailChecks := emailChecks + [value];
      }
      if f == PhoneNumber {
        phoneChecks := phoneChecks + [value];
      }
    }

    /** `handleBlur`: the parent's checks run again; nothing else changes. */
    method HandleBlur(f: ContactField, value: string)
      modifies this
      ensures emailChecks == old(emailChecks) + (if f == Email then [value] else [])
      ensures phoneChecks == old(phoneChecks) + (if f == PhoneNumber then [value] else [])
      ensures formData == old(formData) && errors == old(errors) && isLoading == old(isLoading)
      ensures requests == old(requests) && nextCalls == old(nextCalls)
    {
      if f == Email {
        emailChecks := emailChecks + [value];
      }
      if f == PhoneNumber {
        phoneChecks := phoneChecks + [value];
      }
    }

    /** `validateForm`: the new error map replaces the old one. */
    method ValidateForm() returns (valid: bool)
      modifies this
      ensures errors == ContactErrors(formData, validationStatus)
      ensures valid <==> errors == map[]
      ensures formData == old(formData) && isLoading == old(isLoading)
      ensures emailChecks == old(emailChecks) && phoneChecks == old(phoneChecks)
      ensures requests == old(requests) && nextCalls == old(nextCalls)
    {
      var newErrors := BuildErrors(formData, validationStatus);
      errors := newErrors;
      valid := newErrors == map[];
    }

    /** The submit button is disabled while either check is running. */
    predicate SubmitDisabled()
      reads this
    {
      validationStatus.email.isChecking || validationStatus.phone.isChecking
    }

    /** `handleSubmit`, given the UTM bundle in session storage and the
        outcome of the save's fetch. */
    method HandleSubmit(utm: map<string, string>, response: FetchOutcome)
      modifies this
      ensures formData == old(formData)
      ensures emailChecks == old(emailChecks) && phoneChecks == old(phoneChecks)
      ensures ContactErrors(formData, validationStatus) != map[] ==>
        errors == ContactErrors(formData, validationStatus) && requests == old(requests) && nextCalls == old(nextCalls)
        && isLoading == old(isLoading)
      ensures ContactErrors(formData, validationStatus) == map[] ==>
        var (result, request) := OnboardingService.SubmitOnboardingData(
          companyData.GetOr(EmptyCompany), formData, PlaceholderDomain(formData.email), utm, response);
        && requests == old(requests) + [request] && !isLoading
        && (result.success ==> errors == map[] && nextCalls == old(nextCalls) + [formData])
        && (!result.success ==> errors == map["email" := Some(SAVE_FAILED)] && nextCalls == old(nextCalls))
    {
      var valid := ValidateForm();
      if !valid {
        return;
      }
      isLoading := true;
      var company := if companyData.Some? then companyData.value else EmptyCompany;
      var submission := OnboardingService.SubmitOnboardingData(
        company, formData, DomainFormData("", "", false, Some(false), Some(formData.email)), utm, response);
      var submissionResult := submission.0;
      requests := requests + [submission.1];
      if !submissionResult.success {
        isLoading := false;
        errors := SetError(errors, "email", SAVE_FAILED);
        return;
      }
      isLoading := false;
      nextCalls := nextCalls + [formData];
    }

    /** A submit attempt from the page: nothing happens while the button is
        disabled. */
    method Submit(utm: map<string, string>, response: FetchOutcome)
      modifies this
      ensures SubmitDisabled() ==>
        formData == old(formData) && errors == old(errors) && requests == old(requests) && nextCalls == old(nextCalls)
      ensures |nextCalls| > |old(nextCalls)| ==>
        !SubmitDisabled() && ContactErrors(formData, validationStatus) == map[]
        && OnboardingService.SubmitOnboardingData(
             companyData.GetOr(EmptyCompany), formData, PlaceholderDomain(formData.email), utm, response).0.success
    {
      if SubmitDisabled() {
        return;
      }
      HandleSubmit(utm, response);
    }
  }
}
