/** CompanyDetailsForm.tsx: step 1 of the wizard. Field edits clear the
    field's error; submit validates the two required fields and, once valid,
    hands the data to `onNext` after a simulated 800 ms delay. */
module CompanyDetailsForm {
  import opened Wrappers
  import opened Text
  import opened OnboardingData
  import opened FormErrors

  /** The inputs of the form, by their `name` attribute. */
  datatype CompanyField = CompanyName | Industry | Size | Website

  function Key(f: CompanyField): string
  {
    match f
    case CompanyName => "companyName"
    case Industry => "industry"
    case Size => "size"
    case Website => "website"
  }

  function Value(d: CompanyFormData, f: CompanyField): string
  {
    match f
    case CompanyName => d.companyName
    case Industry => d.industry
    case Size => d.size
    case Website => d.website
  }

  /** `{ ...prev, [name]: value }`: the named field gets the value, the
      others keep theirs. */
  function WithField(d: CompanyFormData, f: CompanyField, v: string): (r: CompanyFormData)
    ensures Value(r, f) == v
    ensures forall g :: g != f ==> Value(r, g) == Value(d, g)
  {
    match f
    case CompanyName => d.(companyName := v)
    case Industry => d.(industry := v)
    case Size => d.(size := v)
    case Website => d.(website := v)
  }

  const COMPANY_NAME_REQUIRED := "Company name is required"
  const INDUSTRY_REQUIRED := "Industry is required"

  /** The errors `validateForm` reports: one per required field that is blank. */
  function CompanyErrors(d: CompanyFormData): Errors
  {
    (if Blank(d.companyName) then map["companyName" := Some(COMPANY_NAME_REQUIRED)] else map[]) +
    (if Blank(d.industry) then map["industry" := Some(INDUSTRY_REQUIRED)] else map[])
  }

  /** Validation passes exactly when both the company name and the industry
      are non-blank; the error map holds exactly the failing ones, and size
      and website never produce an error. */
  lemma CompanyErrorsFacts(d: CompanyFormData)
    ensures CompanyErrors(d) == map[] <==> !Blank(d.companyName) && !Blank(d.industry)
    ensures "companyName" in CompanyErrors(d) <==> Blank(d.companyName)
    ensures "industry" in CompanyErrors(d) <==> Blank(d.industry)
    ensures "size" !in CompanyErrors(d) && "website" !in CompanyErrors(d)
    ensures forall k :: k in CompanyErrors(d) ==> HasError(CompanyErrors(d), k)
  {
    var e := CompanyErrors(d);
    if Blank(d.companyName) {
      assert "companyName" in e;
    }
    if Blank(d.industry) {
      assert "industry" in e;
    }
  }

  /** The component. `pending` holds the data captured by each scheduled
      800 ms timeout, oldest first; `nextCalls` records every call of
      `onNext`. */
  class CompanyDetailsForm {
    var formData: CompanyFormData
    var errors: Errors
    var isLoading: bool
    var pending: seq<CompanyFormData>
    var nextCalls: seq<CompanyFormData>

    /** Only validated data is ever scheduled or handed to `onNext`. */
    ghost predicate Valid()
      reads this
    {
      && (forall i :: 0 <= i < |pending| ==> CompanyErrors(pending[i]) == map[])
      && (forall i :: 0 <= i < |nextCalls| ==> CompanyErrors(nextCalls[i]) == map[])
    }

    /** `useState(initialData)`, with the empty record when no initial data
        is given. */
    constructor(initialData: Option<CompanyFormData>)
      ensures formData == initialData.GetOr(EmptyCompany)
      ensures errors == map[] && !isLoading && pending == [] && nextCalls == []
      ensures Valid()
    {
      formData := initialData.GetOr(EmptyCompany);
      errors := map[];
      isLoading := false;
      pending := [];
      nextCalls := [];
    }

    /** `handleChange`: only the named field changes, and only its error is
        cleared. */
    method HandleChange(f: CompanyField, value: string)
      requires Valid()
      modifies this
      ensures Valid()
      ensures formData == WithField(old(formData), f, value)
      ensures errors == ClearOnChange(old(errors), Key(f))
      ensures isLoading == old(isLoading) && pending == old(pending) && nextCalls == old(nextCalls)
    {
      formData := WithField(formData, f, value);
      if HasError(errors, Key(f)) {
        errors := errors[Key(f) := None];
      }
    }

    /** `validateForm`: builds the new error map field by field and replaces
        the old one. */
    method ValidateForm() returns (valid: bool)
      requires Valid()
      modifies this
      ensures Valid()
      ensures errors == CompanyErrors(formData)
      ensures valid <==> errors == map[]
      ensures formData == old(formData) && isLoading == old(isLoading)
      ensures pending == old(pending) && nextCalls == old(nextCalls)
    {
      var data := formData;
      var newErrors: Errors := map[];
      if Blank(data.companyName) {
        newErrors := newErrors["companyName" := Some(COMPANY_NAME_REQUIRED)];
      }
      if Blank(data.industry) {
        newErrors := newErrors["industry" := Some(INDUSTRY_REQUIRED)];
      }
      assert newErrors == CompanyErrors(data);
      errors := newErrors;
      valid := newErrors == map[];
    }

    /** `handleSubmit`: nothing is scheduled unless validation passes; then
        the form is loading and a timeout holding the current data is
        scheduled. */
    method HandleSubmit()
      requires Valid()
      modifies this
      ensures Valid()
      ensures errors == CompanyErrors(formData) && formData == old(formData) && nextCalls == old(nextCalls)
      ensures CompanyErrors(formData) == map[] ==> isLoading && pending == old(pending) + [formData]
      ensures CompanyErrors(formData) != map[] ==> isLoading == old(isLoading) && pending == old(pending)
    {
      var valid := ValidateForm();
      if !valid {
        return;
      }
      isLoading := true;
      pending := pending + [formData];
    }

    /** The oldest timeout fires: loading ends and `onNext` receives the data
        captured at submit time. */
    method FireTimeout()
      requires Valid() && pending != []
      modifies this
      ensures Valid()
      ensures !isLoading && nextCalls == old(nextCalls) + [old(pending)[0]] && pending == old(pending)[1..]
      ensures CompanyErrors(nextCalls[|nextCalls| - 1]) == map[]
      ensures formData == old(formData) && errors == old(errors)
    {
      isLoading := false;
      nextCalls := nextCalls + [pending[0]];
      pending := pending[1..];
    }
  }

  /** Every call of `onNext` carries data that passed validation: a submit
      followed by its timeout hands over exactly the validated data. */
  method SubmitThenFire(form: CompanyDetailsForm) returns (handed: Option<CompanyFormData>)
    requires form.Valid() && form.pending == []
    modifies form
    ensures form.Valid()
    ensures handed.Some? <==> !Blank(old(form.formData.companyName)) && !Blank(old(form.formData.industry))
    ensures handed.Some? ==> handed.value == old(form.formData) && form.nextCalls == old(form.nextCalls) + [handed.value]
    ensures handed.None? ==> form.nextCalls == old(form.nextCalls)
  {
    CompanyErrorsFacts(form.formData);
    form.HandleSubmit();
    if form.pending == [] {
      return None;
    }
    handed := Some(form.pending[0]);
    form.FireTimeout();
  }
}
