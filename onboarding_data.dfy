/** The records the three wizard forms collect (`CompanyFormData`,
    `ContactFormData` and `DomainFormData`, declared beside the forms in
    src/features/onboarding/). */
module OnboardingData {
  import opened Wrappers

  datatype CompanyFormData = CompanyFormData(companyName: string, industry: string, size: string, website: string)

  datatype ContactFormData = ContactFormData(
    firstName: string, lastName: string, email: string, phoneNumber: string, jobTitle: string)

  /** `isDNSVerified` and `email` are optional fields: the wizard's initial
      domain record has neither. */
  datatype DomainFormData = DomainFormData(
    subdomain: string, customDomain: string, usesCustomDomain: bool,
    isDNSVerified: Option<bool>, email: Option<string>)

  const EmptyCompany := CompanyFormData("", "", "", "")
  const EmptyContact := ContactFormData("", "", "", "", "")
}
