/** How the client's requests meet the router: each service POSTs a
    `{service, payload}` body, proxy.php decodes it with
    `json_decode($body, true)` and acts on it. These members run the client's
    payload builders into the router's handler and state what reaches the
    database or the remote API. */
module Integration {
  import opened Wrappers
  import opened Json
  import opened Php
  import opened Http
  import opened OnboardingData
  import ContactService
  import OnboardingService
  import UtmService
  import DnsService
  import AnsibleService
  import Proxy
  import ContactDetailsForm
  import DomainConfigForm
  import DeploymentProgress

  /** The request the router sees for an envelope the client sends. */
  function Wire(e: Envelope): (r: Proxy.Request)
    ensures r.verb == "POST"
    ensures Index(r.body, "service") == JStr(e.service) && Index(r.body, "payload") == e.payload
    ensures Proxy.ValidEnvelope(r.body) <==> e.payload != JNull
  {
    Proxy.Request("POST", JObj(map["service" := JStr(e.service), "payload" := e.payload]))
  }

  // ----- contact -----

  /** The eleven contact columns a submission should fill: the four form
      fields, the five attribution values of the page query (empty when
      absent), the page address and the submission time. */
  function ContactRow(form: ContactService.ContactFormData, page: ContactService.PageLocation, submittedAt: string): seq<Json>
  {
    [ JStr(form.name), JStr(form.email), JStr(form.phone), JStr(form.message),
      JStr(ContactService.QueryValueOrEmpty(page.search, "utm_source")),
      JStr(ContactService.QueryValueOrEmpty(page.search, "utm_medium")),
      JStr(ContactService.QueryValueOrEmpty(page.search, "utm_campaign")),
      JStr(ContactService.QueryValueOrEmpty(page.search, "utm_term")),
      JStr(ContactService.QueryValueOrEmpty(page.search, "utm_content")),
      JStr(page.href), JStr(submittedAt) ]
  }

  /** The router binds the contact payload's values to the columns in the
      order the table expects, none of them missing. */
  lemma ContactColumns(form: ContactService.ContactFormData, page: ContactService.PageLocation, submittedAt: string)
    ensures Proxy.ContactParams(ContactService.ContactPayload(form, page, submittedAt)) == ContactRow(form, page, submittedAt)
  {
    ContactFormValues(form, page, submittedAt);
    ContactUtmValues(form, page, submittedAt);
    ContactPageValues(form, page, submittedAt);
    ContactColumnsOf(ContactService.ContactPayload(form, page, submittedAt).fields, form, page, submittedAt);
  }

  /** The four form fields are sent under their own names. */
  lemma ContactFormValues(form: ContactService.ContactFormData, page: ContactService.PageLocation, submittedAt: string)
    ensures var p := ContactService.ContactPayload(form, page, submittedAt).fields;
      && "name" in p && p["name"] == JStr(form.name)
      && "email" in p && p["email"] == JStr(form.email)
      && "phone" in p && p["phone"] == JStr(form.phone)
      && "message" in p && p["message"] == JStr(form.message)
  {
  }

  /** The five attribution values of the page query are sent under their keys. */
  lemma ContactUtmValues(form: ContactService.ContactFormData, page: ContactService.PageLocation, submittedAt: string)
    ensures var p := ContactService.ContactPayload(form, page, submittedAt).fields;
      && "utm_source" in p && p["utm_source"] == JStr(ContactService.QueryValueOrEmpty(page.search, "utm_source"))
      && "utm_medium" in p && p["utm_medium"] == JStr(ContactService.QueryValueOrEmpty(page.search, "utm_medium"))
      && "utm_campaign" in p && p["utm_campaign"] == JStr(ContactService.QueryValueOrEmpty(page.search, "utm_campaign"))
      && "utm_term" in p && p["utm_term"] == JStr(ContactService.QueryValueOrEmpty(page.search, "utm_term"))
      && "utm_content" in p && p["utm_content"] == JStr(ContactService.QueryValueOrEmpty(page.search, "utm_content"))
  {
  }

  /** The page address is sent as `source`, the moment as `submitted_at`. */
  lemma ContactPageValues(form: ContactService.ContactFormData, page: ContactService.PageLocation, submittedAt: string)
    ensures var p := ContactService.ContactPayload(form, page, submittedAt).fields;
      && "source" in p && p["source"] == JStr(page.href)
      && "submitted_at" in p && p["submitted_at"] == JStr(submittedAt)
  {
  }

  /** The same, for any payload holding those values. */
  lemma ContactColumnsOf(p: map<string, Json>, form: ContactService.ContactFormData, page: ContactService.PageLocation,
                         submittedAt: string)
    requires "name" in p && p["name"] == JStr(form.name)
    requires "email" in p && p["email"] == JStr(form.email)
    requires "phone" in p && p["phone"] == JStr(form.phone)
    requires "message" in p && p["message"] == JStr(form.message)
    requires "utm_source" in p && p["utm_source"] == JStr(ContactService.QueryValueOrEmpty(page.search, "utm_source"))
    requires "utm_medium" in p && p["utm_medium"] == JStr(ContactService.QueryValueOrEmpty(page.search, "utm_medium"))
    requires "utm_campaign" in p && p["utm_campaign"] == JStr(ContactService.QueryValueOrEmpty(page.search, "utm_campaign"))
    requires "utm_term" in p && p["utm_term"] == JStr(ContactService.QueryValueOrEmpty(page.search, "utm_term"))
    requires "utm_content" in p && p["utm_content"] == JStr(ContactService.QueryValueOrEmpty(page.search, "utm_content"))
    requires "source" in p && p["source"] == JStr(page.href)
    requires "submitted_at" in p && p["submitted_at"] == JStr(submittedAt)
    ensures Proxy.ContactParams(JObj(p)) == ContactRow(form, page, submittedAt)
  {
  }

  /** The envelope a valid contact form is sent in, handled: once the database
      accepts the statement, the insert binds exactly the row above as eleven
      strings. */
  method DeliverContact(form: ContactService.ContactFormData, page: ContactService.PageLocation, submittedAt: string,
                        db: Proxy.DbOutcome, curl: Proxy.CurlOutcome)
      returns (response: Proxy.Response, effect: Proxy.Effect)
    ensures db.connectError.None? && db.prepareError.None? ==>
      effect == Proxy.Bound(Proxy.Statement(Proxy.CONTACT_INSERT, Proxy.Ss(11), ContactRow(form, page, submittedAt)))
    ensures db.connectError.Some? || db.prepareError.Some? ==> effect == Proxy.NoEffect
    ensures response.status == 200 <==> db.connectError.None? && db.prepareError.None? && db.executeError.None?
  {
    var request := Envelope("contact", ContactService.ContactPayload(form, page, submittedAt));
    ContactColumns(form, page, submittedAt);
    Proxy.SwitchCaseLabels(Proxy.Contact, "contact");
    response, effect := Proxy.HandleRequest(Wire(request), db, curl);
  }

  // ----- onboarding -----

  /** The attribution keys the tracker ever stores. */
  const TRACKED_KEYS: set<string> := UtmService.UTM_KEY_SET + {UtmService.FIRST_VISIT, UtmService.REFERRER}

  /** No stored attribution key shadows a form field of the onboarding payload. */
  lemma TrackedKeysDisjoint()
    ensures TRACKED_KEYS !! OnboardingService.FIXED_KEYS
  {
  }

  /** A stored attribution value, or `''`. */
  function StoredOr(utm: map<string, string>, k: string): Json
  {
    JStr(if k in utm then utm[k] else "")
  }

  /** The fifteen onboarding columns a submission should fill: the ten text
      fields of the three wizard records and the five stored attribution
      values. `isDNSVerified` is sent but has no column. */
  function OnboardingRow(company: CompanyFormData, contact: ContactFormData, domain: DomainFormData,
                         utm: map<string, string>): seq<Json>
  {
    [ JStr(company.companyName), JStr(company.industry), JStr(company.size), JStr(company.website),
      JStr(contact.firstName), JStr(contact.lastName), JStr(contact.email), JStr(contact.phoneNumber),
      JStr(contact.jobTitle), JStr(domain.customDomain),
      StoredOr(utm, "utm_source"), StoredOr(utm, "utm_medium"), StoredOr(utm, "utm_campaign"),
      StoredOr(utm, "utm_term"), StoredOr(utm, "utm_content") ]
  }

  /** When the bundle shadows no form field, the router binds the wizard's
      fields and the stored attribution values in column order. */
  lemma OnboardingColumns(company: CompanyFormData, contact: ContactFormData, domain: DomainFormData,
                          utm: map<string, string>)
    requires utm.Keys !! OnboardingService.FIXED_KEYS
    ensures Proxy.OnboardingParams(JObj(OnboardingService.OnboardingPayload(company, contact, domain, utm)))
      == OnboardingRow(company, contact, domain, utm)
  {
    OnboardingService.OnboardingPayloadFacts(company, contact, domain, utm);
    OnboardingService.FormFieldsFacts(company, contact, domain);
    ColumnsOf(OnboardingService.OnboardingPayload(company, contact, domain, utm),
              OnboardingService.FormFields(company, contact, domain), company, contact, domain, utm);
  }

  /** The same, for any payload laid out as the form fields `f` under the
      bundle. */
  lemma ColumnsOf(p: map<string, Json>, f: map<string, Json>, company: CompanyFormData, contact: ContactFormData,
                  domain: DomainFormData, utm: map<string, string>)
    requires utm.Keys !! OnboardingService.FIXED_KEYS
    requires p.Keys == OnboardingService.FIXED_KEYS + utm.Keys && f.Keys == OnboardingService.FIXED_KEYS
    requires forall k :: k in utm ==> p[k] == JStr(utm[k])
    requires forall k :: k in OnboardingService.FIXED_KEYS && k !in utm ==> p[k] == f[k]
    requires "companyName" in f && f["companyName"] == JStr(company.companyName)
    requires "industry" in f && f["industry"] == JStr(company.industry)
    requires "companySize" in f && f["companySize"] == JStr(company.size)
    requires "companyWebsite" in f && f["companyWebsite"] == JStr(company.website)
    requires "firstName" in f && f["firstName"] == JStr(contact.firstName)
    requires "lastName" in f && f["lastName"] == JStr(contact.lastName)
    requires "email" in f && f["email"] == JStr(contact.email)
    requires "phoneNumber" in f && f["phoneNumber"] == JStr(contact.phoneNumber)
    requires "jobTitle" in f && f["jobTitle"] == JStr(contact.jobTitle)
    requires "customDomain" in f && f["customDomain"] == JStr(domain.customDomain)
    ensures Proxy.OnboardingParams(JObj(p)) == OnboardingRow(company, contact, domain, utm)
  {
    UtmKeyNotFixed("utm_source");
    UtmKeyNotFixed("utm_medium");
    UtmKeyNotFixed("utm_campaign");
    UtmKeyNotFixed("utm_term");
    UtmKeyNotFixed("utm_content");
  }

  /** The attribution keys all start with `u`, which no form field does. */
  lemma UtmKeyNotFixed(k: string)
    requires k in UtmService.UTM_KEY_SET
    ensures k !in OnboardingService.FIXED_KEYS
  {
    assert |k| > 0 && k[0] == 'u';
  }

  /** A bundle key named like a form field wins over the form: the spread
      comes last, so the stored value is what gets bound. */
  lemma BundleShadowsForm(company: CompanyFormData, contact: ContactFormData, domain: DomainFormData,
                          utm: map<string, string>)
    requires "email" in utm
    ensures Proxy.OnboardingParams(JObj(OnboardingService.OnboardingPayload(company, contact, domain, utm)))[6]
      == JStr(utm["email"])
  {
    var p := JObj(OnboardingService.OnboardingPayload(company, contact, domain, utm));
    assert Index(p, "email") == JStr(utm["email"]) by {
      OnboardingService.OnboardingPayloadFacts(company, contact, domain, utm);
    }
    EmailColumn(p);
  }

  /** The seventh bound value is the payload's `email`. */
  lemma EmailColumn(p: Json)
    ensures Proxy.OnboardingParams(p)[6] == Index(p, "email")
  {
  }

  /** The full submission, sent and handled. */
  method DeliverOnboarding(company: CompanyFormData, contact: ContactFormData, domain: DomainFormData,
                           utm: map<string, string>, response: FetchOutcome, db: Proxy.DbOutcome, curl: Proxy.CurlOutcome)
      returns (answer: Proxy.Response, effect: Proxy.Effect)
    requires utm.Keys <= TRACKED_KEYS
    ensures db.connectError.None? && db.prepareError.None? ==>
      effect == Proxy.Bound(Proxy.Statement(Proxy.ONBOARDING_INSERT, Proxy.Ss(15), OnboardingRow(company, contact, domain, utm)))
    ensures db.connectError.Some? || db.prepareError.Some? ==> effect == Proxy.NoEffect
    ensures answer.status == 200 <==> db.connectError.None? && db.prepareError.None? && db.executeError.None?
  {
    var request := OnboardingService.SubmitOnboardingData(company, contact, domain, utm, response).1;
    TrackedKeysDisjoint();
    OnboardingColumns(company, contact, domain, utm);
    Proxy.SwitchCaseLabels(Proxy.Onboarding, "onboarding");
    answer, effect := Proxy.HandleRequest(Wire(request), db, curl);
  }

  /** The save made by the contact step's submit handler when, as in the
      wizard, no company record is passed down: a row with empty company
      fields and an empty domain, keyed by the contact's own fields. This is
      the handler's save; the wizard as written throws while rendering that
      step, because it passes no validation status. */
  method DeliverContactStepSave(contact: ContactFormData, utm: map<string, string>, response: FetchOutcome,
                                db: Proxy.DbOutcome, curl: Proxy.CurlOutcome)
      returns (answer: Proxy.Response, effect: Proxy.Effect)
    requires utm.Keys <= TRACKED_KEYS
    ensures db.connectError.None? && db.prepareError.None? ==>
      effect == Proxy.Bound(Proxy.Statement(Proxy.ONBOARDING_INSERT, Proxy.Ss(15), [
        JStr(""), JStr(""), JStr(""), JStr(""),
        JStr(contact.firstName), JStr(contact.lastName), JStr(contact.email), JStr(contact.phoneNumber),
        JStr(contact.jobTitle), JStr(""),
        StoredOr(utm, "utm_source"), StoredOr(utm, "utm_medium"), StoredOr(utm, "utm_campaign"),
        StoredOr(utm, "utm_term"), StoredOr(utm, "utm_content") ]))
    ensures db.connectError.Some? || db.prepareError.Some? ==> effect == Proxy.NoEffect
  {
    var company := None.GetOr(EmptyCompany);
    answer, effect := DeliverOnboarding(company, contact, ContactDetailsForm.PlaceholderDomain(contact.email), utm, response, db, curl);
  }

  // ----- listing -----

  /** The page number the client asks for (`page || 1`). */
  function RequestedPage(params: Option<OnboardingService.FetchParams>): int
  {
    if params.Some? then OnboardingService.NumberOr(params.value.page, 1) else 1
  }

  /** The page size the client asks for (`limit || 10`). */
  function RequestedLimit(params: Option<OnboardingService.FetchParams>): int
  {
    if params.Some? then OnboardingService.NumberOr(params.value.limit, 10) else 10
  }

  /** The string filters the client sends (`filters || {}`). */
  function RequestedFilters(params: Option<OnboardingService.FetchParams>): map<string, string>
  {
    if params.Some? && params.value.filters.Some? then params.value.filters.value else map[]
  }

  /** The router serves the requested page and size, raised to 1 when the
      client asks for less; a filter takes effect exactly when it is one of the
      three attribution keys and its text is neither `''` nor `'0'` (PHP's
      `empty`), so the client's other filters are dropped. */
  lemma {:induction false} FetchReachesProxy(params: Option<OnboardingService.FetchParams>, k: string)
    ensures var payload := OnboardingService.FetchRequest(params).payload;
      && Proxy.PageOf(payload) == Proxy.Max(1, RequestedPage(params))
      && Proxy.LimitOf(payload) == Proxy.Max(1, RequestedLimit(params))
    ensures var filters := Index(OnboardingService.FetchRequest(params).payload, "filters");
      k in Proxy.ActiveFilters(filters, Proxy.FILTER_KEYS) <==>
        k in Proxy.FILTER_KEYS && k in RequestedFilters(params) && RequestedFilters(params)[k] != ""
        && RequestedFilters(params)[k] != "0"
  {
    var payload := OnboardingService.FetchRequest(params).payload;
    var filters := Index(payload, "filters");
    Proxy.ActiveFiltersMembers(filters, Proxy.FILTER_KEYS, k);
  }

  /** A listing request, sent and handled, answers as the listing
      specification says for the payload the client built. */
  method DeliverFetch(params: Option<OnboardingService.FetchParams>, db: Proxy.DbOutcome, curl: Proxy.CurlOutcome)
      returns (response: Proxy.Response, effect: Proxy.Effect)
    ensures (response, effect) == Proxy.OnboardingsSpec(OnboardingService.FetchRequest(params).payload, db)
    ensures !effect.Requested?
  {
    var request := OnboardingService.FetchRequest(params);
    Proxy.SwitchCaseLabels(Proxy.GetOnboardings, "get_onboardings");
    response, effect := Proxy.HandleRequest(Wire(request), db, curl);
    Proxy.OnlyRemoteCasesRequest(Proxy.GetOnboardings, request.payload, db);
  }

  // ----- DNS and deployment -----

  /** Google's resolver is asked for the A record of the cleaned domain, and
      its answer is relayed. */
  method DeliverGoogleCheck(domain: string, db: Proxy.DbOutcome, curl: Proxy.CurlOutcome)
      returns (response: Proxy.Response, effect: Proxy.Effect)
    ensures effect == Proxy.Requested(Proxy.Outbound(Proxy.GoogleResolve(DnsService.CleanDomain(domain), "A"), [], Proxy.NoFields))
    ensures response == Proxy.Relay(curl)
  {
    var request := DnsService.GoogleRequest(domain);
    Proxy.SwitchCaseLabels(Proxy.GoogleDns, "googledns");
    response, effect := Proxy.HandleRequest(Wire(request), db, curl);
  }

  /** The record lookup is forwarded as JSON with the API key header. */
  method DeliverSiteRelicCheck(domain: string, db: Proxy.DbOutcome, curl: Proxy.CurlOutcome)
      returns (response: Proxy.Response, effect: Proxy.Effect)
    ensures effect == Proxy.Requested(Proxy.Outbound(Proxy.Fixed(Proxy.SITERELIC_URL), Proxy.SITERELIC_HEADERS,
      Proxy.JsonEncoded(JObj(map["url" := JStr(DnsService.CleanDomain(domain)), "types" := JArr([JStr("A"), JStr("CNAME")])]))))
    ensures response == Proxy.Relay(curl)
  {
    var request := DnsService.SiteRelicRequest(domain);
    Proxy.SwitchCaseLabels(Proxy.SiteRelic, "siterelic");
    response, effect := Proxy.HandleRequest(Wire(request), db, curl);
  }

  /** The deployment trigger reaches the build job form-encoded, carrying
      exactly the domain and the email. */
  method DeliverDeployment(params: AnsibleService.DeploymentParams, db: Proxy.DbOutcome, curl: Proxy.CurlOutcome)
      returns (response: Proxy.Response, effect: Proxy.Effect)
    ensures effect == Proxy.Requested(Proxy.Outbound(Proxy.Fixed(Proxy.JENKINS_URL), Proxy.JENKINS_HEADERS,
      Proxy.FormEncoded(JObj(map["domain" := JStr(params.domain), "email" := JStr(params.email)]))))
    ensures response == Proxy.Relay(curl)
  {
    var request := AnsibleService.DeploymentRequest(params);
    Proxy.SwitchCaseLabels(Proxy.Ansible, "ansible");
    response, effect := Proxy.HandleRequest(Wire(request), db, curl);
  }

  /** The domain step end to end: valid data whose trigger succeeds opens
      the progress view for that domain and email; the view runs its 45
      seconds and calls `onComplete` once, and the form hands its data to
      `onNext` exactly once. */
  method DeployAndFinish(data: DomainFormData, outcome: AxiosOutcome)
      returns (form: DomainConfigForm.DomainConfigForm, view: DeploymentProgress.DeploymentProgress)
    requires DomainConfigForm.DomainErrors(data) == map[]
    requires outcome.Resolved? && (outcome.status == 200 || outcome.status == 201)
    ensures form.Valid() && form.isDeploying && form.formData == data
    ensures form.deployRequests == [AnsibleService.DeploymentParams(data.customDomain, data.email.GetOr(""))]
    ensures form.nextCalls == [data]
    ensures view.domain == data.customDomain && view.email == data.email.GetOr("")
    ensures view.completions == 1 && view.progress == 100.0
  {
    form := new DomainConfigForm.DomainConfigForm(Some(data));
    form.HandleSubmit(DomainConfigForm.Returned(outcome));
    var props := form.ProgressProps();
    var ticks;
    view, ticks := DeploymentProgress.RunToCompletion(props.0, props.1);
    form.HandleDeploymentComplete();
  }
}
