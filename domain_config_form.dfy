/** DomainConfigForm.tsx: step 3 of the wizard. The user enters a custom
    domain and an email, has the domain's A records checked through Google
    DNS, and submits to trigger the deployment; while it runs the progress
    screen replaces the form, and its completion hands the data to `onNext`. */
module DomainConfigForm {
  import opened Wrappers
  import opened Json
  import opened Text
  import opened Http
  import opened Patterns
  import opened OnboardingData
  import opened FormErrors
  import DnsService
  import AnsibleService

  /** How an awaited service call ended: with its value, or by throwing
      (which the two services used here never do: both catch everything). */
  datatype Awaited<T> = Returned(value: T) | Threw

  datatype DomainField = CustomDomain | Email

  /** `{ ...prev, [name]: value }` for the two inputs of the form. */
  function WithField(d: DomainFormData, f: DomainField, v: string): (r: DomainFormData)
    ensures f == CustomDomain ==> r == d.(customDomain := v)
    ensures f == Email ==> r == d.(email := Some(v))
    ensures r.isDNSVerified == d.isDNSVerified && r.subdomain == d.subdomain && r.usesCustomDomain == d.usesCustomDomain
  {
    match f
    case CustomDomain => d.(customDomain := v)
    case Email => d.(email := Some(v))
  }

  function Key(f: DomainField): string
  {
    match f
    case CustomDomain => "customDomain"
    case Email => "email"
  }

  const DOMAIN_REQUIRED := "Custom domain is required"
  const DOMAIN_INVALID := "Please enter a valid domain name"
  const DNS_UNVERIFIED := "Please verify your DNS configuration"
  const EMAIL_REQUIRED := "Email is required"
  const EMAIL_INVALID := "Please enter a valid email address"
  const DNS_CHECK_FAILED := "Failed to verify DNS records. Please try again."
  const DEPLOY_FAILED := "Failed to deploy infrastructure. Please try again."

  /** The default initial data when the parent passes none. */
  const DEFAULT_DATA := DomainFormData("", "", true, Some(false), Some(""))

  /** The record shown before any check: an A record at `@`. */
  const INITIAL_RECORDS := [DnsService.DnsRecord("A", Some(JStr("@")), Some(JStr(DnsService.REQUIRED_A_RECORD)))]

  /** The custom-domain error: the first of "required", "invalid format" and
      "not verified" that applies. The format test reads the untrimmed text. */
  function DomainError(d: DomainFormData): (r: Option<string>)
    ensures Blank(d.customDomain) ==> r == Some(DOMAIN_REQUIRED)
    ensures !Blank(d.customDomain) && !DomainName(d.customDomain) ==> r == Some(DOMAIN_INVALID)
    ensures DomainName(d.customDomain) && d.isDNSVerified != Some(true) ==> r == Some(DNS_UNVERIFIED)
    ensures r.None? <==> DomainName(d.customDomain) && d.isDNSVerified == Some(true)
  {
    DomainNameNotBlank(d.customDomain);
    if Blank(d.customDomain) then Some(DOMAIN_REQUIRED)
    else if !DomainName(d.customDomain) then Some(DOMAIN_INVALID)
    else if d.isDNSVerified != Some(true) then Some(DNS_UNVERIFIED)
    else None
  }

  /** A well-formed domain is never blank, so the three domain checks
      exclude each other. */
  lemma DomainNameNotBlank(s: string)
    ensures DomainName(s) ==> !Blank(s)
  {
    if DomainName(s) {
      DomainNameNoSpace(s);
      assert !IsSpace(s[0]);
    }
  }

  /** The email error: required when missing or blank, otherwise invalid
      unless it has the `local@domain.tld` shape. */
  function EmailError(d: DomainFormData): (r: Option<string>)
    ensures d.email.None? || Blank(d.email.value) ==> r == Some(EMAIL_REQUIRED)
    ensures r.None? <==> d.email.Some? && !Blank(d.email.value) && EmailRegex(d.email.value)
    ensures r.Some? ==> r.value in {EMAIL_REQUIRED, EMAIL_INVALID}
  {
    EmailIff(if d.email.Some? then d.email.value else "");
    if d.email.None? || Blank(d.email.value) then Some(EMAIL_REQUIRED)
    else if !IsEmail(d.email.value) then Some(EMAIL_INVALID)
    else None
  }

  function Entry(k: string, e: Option<string>): Errors
  {
    if e.Some? then map[k := e] else map[]
  }

  /** The errors `validateForm` reports. */
  function DomainErrors(d: DomainFormData): Errors
  {
    Entry("customDomain", DomainError(d)) + Entry("email", EmailError(d))
  }

  /** Validation passes exactly when the custom domain is well formed and
      verified and the email is present and well formed. */
  lemma DomainErrorsFacts(d: DomainFormData)
    ensures DomainErrors(d) == map[] <==>
      && DomainName(d.customDomain) && d.isDNSVerified == Some(true)
      && d.email.Some? && !Blank(d.email.value) && EmailRegex(d.email.value)
    ensures DomainErrors(d).Keys <= {"customDomain", "email"}
    ensures forall k :: k in DomainErrors(d) ==> HasError(DomainErrors(d), k)
  {
    if DomainError(d).Some? { assert "customDomain" in DomainErrors(d); }
    if EmailError(d).Some? { assert "email" in DomainErrors(d); }
  }

  /** The body of `validateForm`. */
  method BuildErrors(data: DomainFormData) returns (newErrors: Errors)
    ensures newErrors == DomainErrors(data)
  {
    newErrors := map[];
    if Blank(data.customDomain) {
      newErrors := newErrors["customDomain" := Some(DOMAIN_REQUIRED)];
    } else if !DomainName(data.customDomain) {
      newErrors := newErrors["customDomain" := Some(DOMAIN_INVALID)];
    } else if data.isDNSVerified != Some(true) {
      newErrors := newErrors["customDomain" := Some(DNS_UNVERIFIED)];
    }
    assert newErrors == Entry("customDomain", DomainError(data));
    var before := newErrors;
    if data.email.None? || Blank(data.email.value) {
      newErrors := newErrors["email" := Some(EMAIL_REQUIRED)];
    } else if !IsEmail(data.email.value) {
      newErrors := newErrors["email" := Some(EMAIL_INVALID)];
    }
    assert newErrors == before + Entry("email", EmailError(data));
  }

  /** The component. The calls it makes are recorded: the domains checked,
      the deployment requests and the data passed to `onNext`. */
  class DomainConfigForm {
    var formData: DomainFormData
    var errors: Errors
    var isLoading: bool
    var isVerifyingDNS: bool
    var isDeploying: bool
    var deploymentStatus: Option<AnsibleService.DeploymentResult>
    var requiredRecords: seq<DnsService.DnsRecord>
    var dnsChecks: seq<string>
    var deployRequests: seq<AnsibleService.DeploymentParams>
    var nextCalls: seq<DomainFormData>

    /** The progress screen is up only after a successful trigger for data
        that passed validation, and `onNext` only ever receives such data. */
    ghost predicate Valid()
      reads this
    {
      && (isDeploying ==>
            && deploymentStatus.Some? && deploymentStatus.value.success
            && DomainErrors(formData) == map[]
            && deployRequests != []
            && deployRequests[|deployRequests| - 1] == AnsibleService.DeploymentParams(formData.customDomain, formData.email.GetOr("")))
      && (forall i :: 0 <= i < |nextCalls| ==> DomainErrors(nextCalls[i]) == map[])
    }

    constructor(initialData: Option<DomainFormData>)
      ensures Valid()
      ensures formData == initialData.GetOr(DEFAULT_DATA) && errors == map[]
      ensures !isLoading && !isVerifyingDNS && !isDeploying && deploymentStatus.None?
      ensures requiredRecords == INITIAL_RECORDS
      ensures dnsChecks == [] && deployRequests == [] && nextCalls == []
    {
      formData := initialData.GetOr(DEFAULT_DATA);
      errors := map[];
      isLoading := false;
      isVerifyingDNS := false;
      isDeploying := false;
      deploymentStatus := None;
      requiredRecords := INITIAL_RECORDS;
      dnsChecks := [];
      deployRequests := [];
      nextCalls := [];
    }

    /** The `domain` and `email` props of the progress view shown while
        deploying (`formData.email || ''`). */
    function ProgressProps(): (string, string)
      reads this
    {
      (formData.customDomain, formData.email.GetOr(""))
    }

    /** `checkDNS(domain)`, given how the Google DNS call ends. The verdict
        becomes `isDNSVerified` and sets or clears the domain error; when the
        call throws, only the error changes. */
    method CheckDNS(domain: string, outcome: Awaited<AxiosOutcome>)
      requires Valid() && !isDeploying
      modifies this
      ensures Valid() && !isVerifyingDNS && dnsChecks == old(dnsChecks) + [domain]
      ensures outcome.Threw? ==>
        formData == old(formData) && requiredRecords == old(requiredRecords)
        && errors == SetError(old(errors), "customDomain", DNS_CHECK_FAILED)
      ensures outcome.Returned? ==>
        var result := DnsService.VerifyDNSWithGoogle(domain, outcome.value);
        && formData == old(formData).(isDNSVerified := Some(result.isValid))
        && requiredRecords == (if result.requiredRecords.Some? then result.requiredRecords.value else old(requiredRecords))
        && errors == (if result.isValid then old(errors)["customDomain" := None]
                      else SetError(old(errors), "customDomain", result.message))
      ensures isLoading == old(isLoading) && !isDeploying && deploymentStatus == old(deploymentStatus)
      ensures deployRequests == old(deployRequests) && nextCalls == old(nextCalls)
    {
      isVerifyingDNS := true;
      dnsChecks := dnsChecks + [domain];
      match outcome {
        case Returned(o) =>
          var result := DnsService.VerifyDNSWithGoogle(domain, o);
          formData := formData.(isDNSVerified := Some(result.isValid));
          if result.requiredRecords.Some? {
            requiredRecords := result.requiredRecords.value;
          }
          if !result.isValid {
            errors := SetError(errors, "customDomain", result.message);
          } else {
            errors := errors["customDomain" := None];
          }
        case Threw =>
          errors := SetError(errors, "customDomain", DNS_CHECK_FAILED);
      }
      isVerifyingDNS := false;
    }

    /** The "Verify DNS" button: disabled without a domain or while a check
        runs; otherwise it checks the current domain. */
    method ClickCheckDNS(outcome: Awaited<AxiosOutcome>)
      requires Valid() && !isDeploying
      modifies this
      ensures Valid() && !isDeploying
      ensures old(formData.customDomain) == "" || old(isVerifyingDNS) ==>
        formData == old(formData) && errors == old(errors) && dnsChecks == old(dnsChecks)
      ensures old(formData.customDomain) != "" && !old(isVerifyingDNS) ==>
        dnsChecks == old(dnsChecks) + [old(formData.customDomain)]
      ensures formData.customDomain == old(formData.customDomain) && formData.email == old(formData.email)
      ensures deployRequests == old(deployRequests) && nextCalls == old(nextCalls)
    {
      if formData.customDomain == "" || isVerifyingDNS {
        return;
      }
      CheckDNS(formData.customDomain, outcome);
    }

    /** `handleChange`: only the named field changes (editing the domain
        keeps `isDNSVerified`), and only its error is cleared. */
    method HandleChange(f: DomainField, value: string)
      requires Valid() && !isDeploying
      modifies this
      ensures Valid() && !isDeploying
      ensures formData == WithField(old(formData), f, value)
      ensures errors == ClearOnChange(old(errors), Key(f))
      ensures isLoading == old(isLoading) && isVerifyingDNS == old(isVerifyingDNS)
      ensures deploymentStatus == old(deploymentStatus) && requiredRecords == old(requiredRecords)
      ensures dnsChecks == old(dnsChecks) && deployRequests == old(deployRequests) && nextCalls == old(nextCalls)
    {
      formData := WithField(formData, f, value);
      if HasError(errors, Key(f)) {
        errors := errors[Key(f) := None];
      }
    }

    /** `validateForm`: the new error map replaces the old one. */
    method ValidateForm() returns (valid: bool)
      requires Valid() && !isDeploying
      modifies this
      ensures Valid() && !isDeploying
      ensures errors == DomainErrors(formData) && (valid <==> errors == map[])
      ensures formData == old(formData) && isLoading == old(isLoading) && deploymentStatus == old(deploymentStatus)
      ensures dnsChecks == old(dnsChecks) && deployRequests == old(deployRequests) && nextCalls == old(nextCalls)
    {
      var newErrors := BuildErrors(formData);
      errors := newErrors;
      valid := newErrors == map[];
    }

    /** `handleSubmit`, given how the deployment call ends. Nothing is
        triggered unless validation passes. */
    method HandleSubmit(outcome: Awaited<AxiosOutcome>)
      requires Valid() && !isDeploying
      modifies this
      ensures Valid() && formData == old(formData) && dnsChecks == old(dnsChecks) && nextCalls == old(nextCalls)
      ensures DomainErrors(formData) != map[] ==>
        errors == DomainErrors(formData) && deployRequests == old(deployRequests) && !isDeploying
        && deploymentStatus == old(deploymentStatus) && isLoading == old(isLoading)
      ensures DomainErrors(formData) == map[] ==> Deployed(old(deployRequests), outcome)
    {
      var valid := ValidateForm();
      if !valid {
        return;
      }
      StartDeployment(outcome);
    }

    /** The state once a valid submission's trigger has ended: the request
        is recorded, loading is over, and a failed trigger puts its message on
        the domain field; only a successful one opens the progress screen. */
    ghost predicate Deployed(before: seq<AnsibleService.DeploymentParams>, outcome: Awaited<AxiosOutcome>)
      reads this
    {
      var params := AnsibleService.DeploymentParams(formData.customDomain, formData.email.GetOr(""));
      && deployRequests == before + [params]
      && !isLoading
      && (outcome.Threw? ==>
            && !isDeploying && deploymentStatus == Some(AnsibleService.DeploymentResult(false, DEPLOY_FAILED, None))
            && errors == map["customDomain" := Some(DEPLOY_FAILED)])
      && (outcome.Returned? ==>
            var result := AnsibleService.TriggerDeployment(params, outcome.value);
            && deploymentStatus == Some(result)
            && (isDeploying <==> result.success)
            && (result.success ==> errors == map[])
            && (!result.success ==> errors == map["customDomain" := Some(result.message)]))
    }

    /** The part of `handleSubmit` after validation has passed. */
    method StartDeployment(outcome: Awaited<AxiosOutcome>)
      requires Valid() && !isDeploying && errors == map[] && DomainErrors(formData) == map[]
      modifies this
      ensures Valid() && Deployed(old(deployRequests), outcome)
      ensures formData == old(formData) && dnsChecks == old(dnsChecks) && nextCalls == old(nextCalls)
    {
      isLoading := true;
      deploymentStatus := None;
      var params := AnsibleService.DeploymentParams(formData.customDomain, if formData.email.Some? then formData.email.value else "");
      deployRequests := deployRequests + [params];
      match outcome {
        case Returned(o) =>
          var deploymentResult := AnsibleService.TriggerDeployment(params, o);
          deploymentStatus := Some(deploymentResult);
          if !deploymentResult.success {
            errors := SetError(errors, "customDomain", deploymentResult.message);
            isLoading := false;
            return;
          }
          isLoading := false;
          isDeploying := true;
        case Threw =>
          deploymentStatus := Some(AnsibleService.DeploymentResult(false, DEPLOY_FAILED, None));
          errors := SetError(errors, "customDomain", DEPLOY_FAILED);
          isLoading := false;
      }
    }

    /** The submit button is disabled until the DNS check has passed. */
    predicate SubmitDisabled()
      reads this
    {
      formData.isDNSVerified != Some(true)
    }

    /** A submit attempt from the page. */
    method Submit(outcome: Awaited<AxiosOutcome>)
      requires Valid() && !isDeploying
      modifies this
      ensures Valid()
      ensures SubmitDisabled() ==> deployRequests == old(deployRequests) && !isDeploying && errors == old(errors)
      ensures |deployRequests| > |old(deployRequests)| ==> DomainErrors(formData) == map[]
      ensures nextCalls == old(nextCalls) && formData == old(formData)
    {
      if SubmitDisabled() {
        return;
      }
      HandleSubmit(outcome);
    }

    /** `handleDeploymentComplete`, the progress view's `onComplete`. */
    method HandleDeploymentComplete()
      requires Valid() && isDeploying
      modifies this
      ensures Valid() && nextCalls == old(nextCalls) + [formData] && DomainErrors(formData) == map[]
      ensures formData == old(formData) && isDeploying && deployRequests == old(deployRequests)
    {
      nextCalls := nextCalls + [formData];
    }

    /** `handleDeploymentError`, the progress view's `onError`: back to the
        form with the error on the domain field. */
    method HandleDeploymentError(error: string)
      requires Valid() && isDeploying
      modifies this
      ensures Valid() && !isDeploying && errors == SetError(old(errors), "customDomain", error)
      ensures formData == old(formData) && nextCalls == old(nextCalls) && deployRequests == old(deployRequests)
    {
      isDeploying := false;
      errors := SetError(errors, "customDomain", error);
    }
  }
}
