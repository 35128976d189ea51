/** OnboardingFlow.tsx: the four-step wizard. `step` selects the screen;
    each form's submit stores its record and advances, and the contact and
    domain steps can go back one step. */
module OnboardingFlow {
  import opened OnboardingData
  import opened Wrappers

  /** `domainInfo` of the success screen. */
  datatype DomainInfo = DomainInfo(domain: string, isCustomDomain: bool)

  /** What `renderStep` shows, with the props that carry state. */
  datatype Screen =
    | CompanyScreen(companyInitial: CompanyFormData)
    | ContactScreen(contactInitial: ContactFormData)
    | DomainScreen(domainInitial: DomainFormData)
    | SuccessScreen(info: DomainInfo)
    | NoScreen

  const INITIAL_DOMAIN := DomainFormData("", "", false, None, None)

  /** `customDomain || subdomain + '.example.com'` and `!!customDomain`. */
  function DomainInfoOf(d: DomainFormData): (r: DomainInfo)
    ensures r.isCustomDomain <==> d.customDomain != ""
    ensures r.isCustomDomain ==> r.domain == d.customDomain
    ensures !r.isCustomDomain ==> r.domain == d.subdomain + ".example.com"
  {
    DomainInfo(if d.customDomain != "" then d.customDomain else d.subdomain + ".example.com", d.customDomain != "")
  }

  /** The shown domain is never empty, and a custom domain is shown exactly
      as entered. */
  lemma DomainInfoNonEmpty(d: DomainFormData)
    ensures DomainInfoOf(d).domain != ""
    ensures |DomainInfoOf(d).domain| >= 12 || DomainInfoOf(d).isCustomDomain
  {
  }

  /** The steps that offer a way back. */
  predicate HasBack(step: int)
  {
    step == 2 || step == 3
  }

  class OnboardingFlow {
    var step: int
    var companyData: CompanyFormData
    var contactData: ContactFormData
    var domainData: DomainFormData

    ghost predicate Valid()
      reads this
    {
      1 <= step <= 4
    }

    /** The wizard starts at step 1 with empty records. */
    constructor()
      ensures Valid() && step == 1
      ensures companyData == EmptyCompany && contactData == EmptyContact && domainData == INITIAL_DOMAIN
    {
      step := 1;
      companyData := EmptyCompany;
      contactData := EmptyContact;
      domainData := INITIAL_DOMAIN;
    }

    /** `renderStep`. */
    function RenderStep(): (r: Screen)
      reads this
      ensures Valid() ==> r != NoScreen
      ensures step == 1 ==> r == CompanyScreen(companyData)
      ensures step == 2 ==> r == ContactScreen(contactData)
      ensures step == 3 ==> r == DomainScreen(domainData)
      ensures step == 4 ==> r == SuccessScreen(DomainInfoOf(domainData))
    {
      if step == 1 then CompanyScreen(companyData)
      else if step == 2 then ContactScreen(contactData)
      else if step == 3 then DomainScreen(domainData)
      else if step == 4 then SuccessScreen(DomainInfoOf(domainData))
      else NoScreen
    }

    /** `handleCompanySubmit`. */
    method HandleCompanySubmit(data: CompanyFormData)
      modifies this
      ensures Valid() && step == 2 && companyData == data
      ensures contactData == old(contactData) && domainData == old(domainData)
    {
      companyData := data;
      step := 2;
    }

    /** `handleContactSubmit`. */
    method HandleContactSubmit(data: ContactFormData)
      modifies this
      ensures Valid() && step == 3 && contactData == data
      ensures companyData == old(companyData) && domainData == old(domainData)
    {
      contactData := data;
      step := 3;
    }

    /** `handleDomainSubmit`. */
    method HandleDomainSubmit(data: DomainFormData)
      modifies this
      ensures Valid() && step == 4 && domainData == data
      ensures companyData == old(companyData) && contactData == old(contactData)
    {
      domainData := data;
      step := 4;
    }

    /** The `onBack` of the contact and domain steps. */
    method Back()
      requires HasBack(step)
      modifies this
      ensures Valid() && step == old(step) - 1
      ensures companyData == old(companyData) && contactData == old(contactData) && domainData == old(domainData)
    {
      if step == 2 {
        step := 1;
      } else {
        step := 2;
      }
    }
  }

  /** Calling the wizard's three submit handlers in turn ends on the success
      screen showing the entered domain. These are the handlers alone: the
      wizard as written throws while rendering step 2. */
  method CompleteWizard(company: CompanyFormData, contact: ContactFormData, domain: DomainFormData)
    returns (flow: OnboardingFlow)
    ensures flow.Valid() && flow.step == 4
    ensures flow.companyData == company && flow.contactData == contact && flow.domainData == domain
    ensures flow.RenderStep() == SuccessScreen(DomainInfoOf(domain))
  {
    flow := new OnboardingFlow();
    flow.HandleCompanySubmit(company);
    flow.HandleContactSubmit(contact);
    flow.HandleDomainSubmit(domain);
  }
}
