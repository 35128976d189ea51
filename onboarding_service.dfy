/** src/services/onboardingService.ts: `submitOnboardingData`, which flattens
    the three wizard records and the stored attribution bundle into one
    `onboarding` payload, and `fetchOnboardings`, which asks the router for a
    page of stored records. */
module OnboardingService {
  import opened Wrappers
  import opened Json
  import opened Http
  import opened OnboardingData

  datatype SubmitResult = SubmitResult(success: bool, message: string)

  const SUBMITTED := "Onboarding data submitted successfully"
  const SUBMIT_FAILED := "Failed to submit onboarding data"
  const FETCH_FAILED := "Failed to fetch onboardings"

  /** The eleven fields every payload carries, in the router's terms. */
  const FIXED_KEYS: set<string> := {
    "companyName", "industry", "companySize", "companyWebsite",
    "firstName", "lastName", "email", "phoneNumber", "jobTitle",
    "customDomain", "isDNSVerified" }

  /** The attribution bundle as JSON strings. */
  function BundleJson(utm: map<string, string>): map<string, Json>
  {
    map k | k in utm :: JStr(utm[k])
  }

  /** The form fields of the payload under their payload names: `size` and
      `website` renamed, `isDNSVerified` defaulting to false. */
  function FormFields(company: CompanyFormData, contact: ContactFormData, domain: DomainFormData): map<string, Json>
  {
    map[
      "companyName" := JStr(company.companyName),
      "industry" := JStr(company.industry),
      "companySize" := JStr(company.size),
      "companyWebsite" := JStr(company.website),
      "firstName" := JStr(contact.firstName),
      "lastName" := JStr(contact.lastName),
      "email" := JStr(contact.email),
      "phoneNumber" := JStr(contact.phoneNumber),
      "jobTitle" := JStr(contact.jobTitle),
      "customDomain" := JStr(domain.customDomain),
      "isDNSVerified" := JBool(domain.isDNSVerified.GetOr(false))
    ]
  }

  /** Each form field sits under its own payload name. */
  lemma FormFieldsFacts(company: CompanyFormData, contact: ContactFormData, domain: DomainFormData)
    ensures var f := FormFields(company, contact, domain);
      && f.Keys == FIXED_KEYS
      && f["companyName"] == JStr(company.companyName)
      && f["industry"] == JStr(company.industry)
      && f["companySize"] == JStr(company.size)
      && f["companyWebsite"] == JStr(company.website)
      && f["firstName"] == JStr(contact.firstName)
      && f["lastName"] == JStr(contact.lastName)
      && f["email"] == JStr(contact.email)
      && f["phoneNumber"] == JStr(contact.phoneNumber)
      && f["jobTitle"] == JStr(contact.jobTitle)
      && f["customDomain"] == JStr(domain.customDomain)
      && f["isDNSVerified"] == JBool(domain.isDNSVerified == Some(true))
  {
  }

  /** The `OnboardingSubmissionData` object: the form fields, then the stored
      bundle spread over them. */
  function OnboardingPayload(company: CompanyFormData, contact: ContactFormData, domain: DomainFormData,
                             utm: map<string, string>): map<string, Json>
  {
    FormFields(company, contact, domain) + BundleJson(utm)
  }

  /** What the payload holds: every bundle key with its stored value, and every
      form field the bundle does not shadow with its form value; nothing else. */
  lemma OnboardingPayloadFacts(company: CompanyFormData, contact: ContactFormData, domain: DomainFormData,
                               utm: map<string, string>)
    ensures var p := OnboardingPayload(company, contact, domain, utm);
      && p.Keys == FIXED_KEYS + utm.Keys
      && (forall k :: k in utm ==> p[k] == JStr(utm[k]))
      && (forall k :: k in FIXED_KEYS && k !in utm ==> p[k] == FormFields(company, contact, domain)[k])
  {
    FormFieldsFacts(company, contact, domain);
  }

  /** `submitOnboardingData`, given the stored bundle and the outcome of its
      fetch. The request is always sent. */
  function SubmitOnboardingData(company: CompanyFormData, contact: ContactFormData, domain: DomainFormData,
                                utm: map<string, string>, response: FetchOutcome): (r: (SubmitResult, Envelope))
    ensures r.1 == Envelope("onboarding", JObj(OnboardingPayload(company, contact, domain, utm)))
    ensures r.0.success <==> response.FetchResponse? && response.ok && response.body.Parsed?
    ensures r.0.success ==> r.0.message == SUBMITTED
    ensures response.FetchRejected? ==> r.0.message == response.error
    ensures response.FetchResponse? && !response.ok ==> r.0.message == SUBMIT_FAILED
    ensures response.FetchResponse? && response.ok && response.body.Unparsable? ==> r.0.message == response.body.error
  {
    var request := Envelope("onboarding", JObj(OnboardingPayload(company, contact, domain, utm)));
    var result :=
      match response
      case FetchRejected(e) => SubmitResult(false, e)
      case FetchResponse(ok, body) =>
        if !ok then SubmitResult(false, SUBMIT_FAILED)
        else if body.Unparsable? then SubmitResult(false, body.error)
        else SubmitResult(true, SUBMITTED);
    (result, request)
  }

  /** The optional argument of `fetchOnboardings`; a filter is a string field
      of the `filters` object. */
  datatype FetchParams = FetchParams(page: Option<int>, limit: Option<int>, filters: Option<map<string, string>>)

  datatype FetchResult = FetchResult(success: bool, data: Option<Json>, message: Option<string>)

  /** `x || d` for an optional number. */
  function NumberOr(x: Option<int>, d: int): int
  {
    if x.Some? && x.value != 0 then x.value else d
  }

  /** The `get_onboardings` envelope: `page || 1`, `limit || 10`, and
      `filters || {}`, the supplied filters copied key by key as strings. */
  function FetchRequest(params: Option<FetchParams>): (e: Envelope)
    ensures e.service == "get_onboardings" && e.payload.JObj?
    ensures e.payload.fields.Keys == {"page", "limit", "filters"}
    ensures params.None? ==>
      && e.payload.fields["page"] == JInt(1)
      && e.payload.fields["limit"] == JInt(10)
      && e.payload.fields["filters"] == JObj(map[])
    ensures params.Some? ==>
      && e.payload.fields["page"] == JInt(if params.value.page.Some? && params.value.page.value != 0 then params.value.page.value else 1)
      && e.payload.fields["limit"] == JInt(if params.value.limit.Some? && params.value.limit.value != 0 then params.value.limit.value else 10)
    ensures e.payload.fields["filters"].JObj?
    ensures params.Some? && params.value.filters.Some? ==>
      && e.payload.fields["filters"].fields.Keys == params.value.filters.value.Keys
      && forall k :: k in params.value.filters.value ==>
           e.payload.fields["filters"].fields[k] == JStr(params.value.filters.value[k])
    ensures (params.None? || params.value.filters.None?) ==> e.payload.fields["filters"] == JObj(map[])
  {
    var page := if params.Some? then NumberOr(params.value.page, 1) else 1;
    var limit := if params.Some? then NumberOr(params.value.limit, 10) else 10;
    var filters := if params.Some? && params.value.filters.Some? then params.value.filters.value else map[];
    Envelope("get_onboardings", JObj(map[
      "page" := JInt(page),
      "limit" := JInt(limit),
      "filters" := JObj(map k | k in filters :: JStr(filters[k]))
    ]))
  }

  /** A supplied page or limit of 0 is replaced by the default, as if absent. */
  lemma FetchRequestZeroDefaults(filters: Option<map<string, string>>)
    ensures FetchRequest(Some(FetchParams(Some(0), Some(0), filters))).payload.fields["page"] == JInt(1)
    ensures FetchRequest(Some(FetchParams(Some(0), Some(0), filters))).payload.fields["limit"] == JInt(10)
  {
  }

  /** `fetchOnboardings`, given the outcome of its axios call. A response
      that is not a truthy 200 throws an `Error` whose message is
      "Failed to fetch onboardings"; the `catch` then reports the message of
      any `Error`, AxiosError included, and the same default for anything
      else thrown. */
  function FetchOnboardings(params: Option<FetchParams>, outcome: AxiosOutcome): (r: FetchResult)
    ensures r.success <==> outcome.Resolved? && Truthy(outcome.data) && outcome.status == 200
    ensures r.success ==> r == FetchResult(true, Some(outcome.data), None)
    ensures outcome.Resolved? && !r.success ==> r == FetchResult(false, None, Some(FETCH_FAILED))
    ensures outcome.AxiosFailed? ==> r == FetchResult(false, None, Some(outcome.message))
    ensures outcome.OtherFailure? && outcome.error.Some? ==> r == FetchResult(false, None, Some(outcome.error.value))
    ensures outcome.OtherFailure? && outcome.error.None? ==> r == FetchResult(false, None, Some(FETCH_FAILED))
  {
    match outcome
    case Resolved(status, data, _) =>
      if !Truthy(data) || status != 200 then FetchResult(false, None, Some(FETCH_FAILED))
      else FetchResult(true, Some(data), None)
    case AxiosFailed(message, _) => FetchResult(false, None, Some(message))
    case OtherFailure(error) => FetchResult(false, None, Some(error.GetOr(FETCH_FAILED)))
  }
}
