# Lysticle onboarding and lead capture: a verified model

Lysticle's web front end collects leads and onboards customers. A visitor
fills in a contact form, or walks a four-step wizard: company details, then
contact details, then a custom domain that is checked through Google DNS and
deployed by a build job. The session's marketing attribution (the `utm_*`
query parameters, the day of the first visit and the referrer) is kept in
session storage. It is attached to every record saved. A cookie records the
visitor's consent.

Every request goes to one PHP endpoint, `proxy.php`. It takes a JSON
envelope `{service, payload}` and:
- stores onboarding and contact records in MySQL;
- lists onboardings with pagination and LIKE filters on the attribution;
- relays DNS lookups and the deployment trigger to remote APIs through curl.

This project models that core in Dafny and proves what it promises.

## Modules

| module | models |
|---|---|
| `Proxy` | `proxy.php`: the preflight, the envelope check, the `switch`, the listing case, the two insert cases, the `googledns` guard and the curl tail. The database and curl are inputs: `DbOutcome` and `CurlOutcome`. |
| `Php` | The PHP semantics the router relies on: `$a['k']` on decoded JSON, `isset`, `empty`, `intval`, string conversion and `implode`. |
| `ContactService` | The four validators and the submit of `contactService.ts`. |
| `UtmService` | `utmService.ts`. Session storage is a field of `UtmTracker`. The query is a sequence of key/value pairs (`Query`), with `URLSearchParams` `get`, `set` and `has`. |
| `DnsService` | `dnsService.ts`: domain cleaning and how the two lookups read their answers. |
| `AnsibleService` | `ansibleService.ts`: the trigger's status test, the job id and the error messages. |
| `OnboardingService` | `onboardingService.ts`: the flat payload with the attribution spread last, and the listing request. |
| `CookieService` | `cookieService.ts`: the `document.cookie` parser, the consent defaults and expiry, and the cookie writes (class `CookieJar`). |
| `DeploymentProgress` | `DeploymentProgress.tsx`, with the timer in half-second ticks (class `DeploymentProgress`). |
| `OnboardingFlow`, `CompanyDetailsForm`, `ContactDetailsForm`, `DomainConfigForm` | The wizard and its three forms. Each component is a class: its state variables are fields, its handlers are methods, and every awaited service outcome is a method argument. The callbacks it receives (`onNext`, the parent's validators) are recorded in sequence fields. |
| `Integration` | Client and router composed: each client payload, delivered in its envelope, reaches the database or the remote API as stated. |
| `Json`, `Http`, `Text`, `Patterns`, `Query`, `FormErrors`, `OnboardingData`, `Wrappers` | Shared definitions: JSON values and JavaScript truthiness; fetch and axios outcomes; `trim` over JavaScript's white-space set (`\s`: the ECMAScript white-space and line-terminator characters); the regular expressions as explicit predicates; the query model; the `Partial<…>` error maps of the forms; the wizard's records; `Option`. |

## Model

| member | source | states |
|---|---|---|
| Proxy.HandleRequest | proxy.php:24-335 | The whole request decision table:<br>- OPTIONS answers 200 with no body and no effect;<br>- a body without `service` or `payload` gives 400 "Invalid request";<br>- an unlisted service gives 400 "Unknown service";<br>- the listing case answers as `OnboardingsSpec`;<br>- the two insert cases answer as `InsertCase` with their 15- and 11-value lists;<br>- siterelic and ansible send their URL, headers and JSON or form-encoded payload, and relay the answer;<br>- googledns without `name` or `type` gives 400 "Invalid payload for Google DNS API", and with both asks `dns.google/resolve` and relays the answer. |
| Proxy.SwitchCase | proxy.php:46-316 | PHP's loose `==` switch: a string picks the case whose label it equals; `true` picks the first case; any other non-string picks none. |
| Proxy.SwitchCaseLabels | proxy.php:46-316 | Each case's label selects that case, and a string selects no case exactly when it is none of the six labels. |
| Proxy.Relay | proxy.php:327-333 | A curl error gives 500 with "Curl error: …"; otherwise the downstream status and text are relayed unchanged. |
| Proxy.PaginationFacts | proxy.php:52-118 | Page and limit are at least 1 and the offset is `(page-1)*limit >= 0`. Pages is the ceiling of total/limit: `pages*limit >= total`, one page fewer would not hold total, and pages is 0 exactly when total is 0. So the `limit > 0` fallback is never taken. |
| Proxy.PagesFacts | proxy.php:118 | The same ceiling facts for any limit of at least 1. |
| Proxy.NonNegativeProduct | proxy.php:54 | A product of two naturals is non-negative; this gives the offset bound. |
| Proxy.PageExamples | proxy.php:52 | The page is `max(1, n)` for an integer `n` or its decimal text, and 1 for non-numeric text or a missing key. |
| Proxy.ActiveFilters | proxy.php:65-81 | Never more active filters than keys. |
| Proxy.ActiveFiltersMembers | proxy.php:65-81 | A key is an active filter exactly when it is one of the keys and its filter value is not PHP-`empty`. |
| Proxy.ActiveFiltersUnfold | proxy.php:67-81 | The three tests run in the order utm_source, utm_medium, utm_campaign. |
| Proxy.Conditions | proxy.php:66-81 | One `k LIKE ?` condition per active key, in order. |
| Proxy.LikeParams | proxy.php:67-81 | One `%v%` parameter per active key, in order, with v the filter's text. |
| Proxy.Ss | proxy.php:63-81 | A type string of n `s` characters. |
| Proxy.FilterSnoc | proxy.php:67-81 | Adding one key adds exactly one condition, one parameter and one `s`: the three outputs stay in lock-step. |
| Proxy.AddFilter | proxy.php:67-71 | One filter test, proved against the reference: it extends conditions, parameters and types by the key exactly when its filter is non-empty. |
| Proxy.AddFilters | proxy.php:66-81 | The three tests together produce the conditions, parameters and types of exactly the active filters. |
| Proxy.BuildFilters | proxy.php:61-86 | The filter builder equals the reference `FilterSpec` on every payload. |
| Proxy.FilterSpecFacts | proxy.php:61-86 | There are at most 3 parameters, with as many `s` types. The WHERE clause is empty iff there are no parameters, iff none of the three filters is non-empty. Empty `filters` give no parameters. |
| Proxy.ResultSet.constructor | proxy.php:105 | A result starts before its first row. |
| Proxy.ResultSet.FetchAssoc | proxy.php:107 | Returns the next row and advances, or null at the end. |
| Proxy.CollectRows | proxy.php:106-109 | The `while (fetch_assoc)` loop collects exactly the result's rows, in order. |
| Proxy.OnboardingsSpecFacts | proxy.php:47-131 | Once connected and prepared, the listing binds two more types and values than there are filter parameters, ending in `"ii"`, the limit and the offset. Its pagination is page, limit, the unfiltered COUNT(*) total and the page count, so `pages` ignores filtering. |
| Proxy.HandleGetOnboardings | proxy.php:47-131 | The listing case, statement by statement, proved equal to the specification `OnboardingsSpec`. This covers the connection error, the prepare error, the execute error and success. |
| Proxy.OnboardingParams | proxy.php:150-187 | 15 bound values; the five attribution values are never null (`''` when unset). |
| Proxy.ContactParams | proxy.php:248-274 | 11 bound values; the five attribution values and `source` are never null (`''` when unset). |
| Proxy.InsertCase | proxy.php:133-298 | An insert case:<br>- a connection failure gives 500 "Database connection failed: Connection failed: …" with no statement;<br>- a prepare failure gives 500 "Database error: Prepare failed: …";<br>- otherwise the list is bound as all strings;<br>- the answer is 200 with success, message and insert id exactly when execution succeeds. |
| Proxy.OnlyRemoteCasesRequest | proxy.php:125-318 | The database cases exit before the curl tail: they never send a remote request. |
| Php.Index | proxy.php:150-159 | A non-null `$a['k']` is the key's value in an object. |
| Php.OrEmpty | proxy.php:162-166 | `isset($a['k']) ? $a['k'] : ''` is never null, and takes the value when the key is set. |
| Php.SkipPhpSpace | proxy.php:52-53 | `intval` skips leading white space: the rest is a suffix of the text that starts with no white space. |
| Php.LeadingDigits | proxy.php:52-53 | The longest run of leading digits. |
| Php.LeadingDigitsAll | proxy.php:52-53 | A string of digits is its own leading run. |
| Php.IntvalRoundTrip | proxy.php:52-53 | `intval` of the decimal text of n is n, for every integer n. |
| Php.LeadingIntDecimal | proxy.php:52-53 | Reading a natural's decimal text gives it back. |
| Php.LeadingIntDigits | proxy.php:52-53 | Text that starts with a digit reads as its leading digits. |
| Php.LeadingIntNegative | proxy.php:52-53 | A leading minus negates. |
| ContactService.ValidateName | src/services/contactService.ts:17-28 | Valid exactly when the trimmed name is at least 2 UTF-16 code units long (JavaScript's `.length`) and every character is an ASCII letter, white space, `'` or `-`. The first failing rule gives its message; a valid name gives `{true, ''}`. |
| ContactService.ValidateEmail | src/services/contactService.ts:30-39 | Valid exactly when the input matches `^[^\s@]+@[^\s@]+\.[^\s@]+$`. A blank input gets "Email is required" and any other mismatch the invalid message. |
| ContactService.BlankHasNoDigits | src/services/contactService.ts:41-47 | A blank phone has no digits, so the length test never reports on it. |
| ContactService.ValidatePhone | src/services/contactService.ts:41-51 | Valid exactly when the input holds exactly 10 characters `0`–`9`, whatever else it contains. |
| ContactService.ValidateMessage | src/services/contactService.ts:53-61 | Valid exactly when the trimmed message is at least 10 UTF-16 code units long; a blank one gets "Message is required", any other invalid one "Message must be at least 10 characters long". |
| ContactService.AstralTrim | src/services/contactService.ts:57 | A run of characters outside the Basic Multilingual Plane is its own trim and counts two code units per character. |
| ContactService.Utf16MessageLength | src/services/contactService.ts:57 | Five or more characters outside the Basic Multilingual Plane make a valid message, because `.length` counts two code units for each. |
| ContactService.Utf16NameLength | src/services/contactService.ts:21-25 | A name of such characters, even a single one, passes the length rule and fails the character rule, so it gets the character message. |
| ContactService.AstralNotNameChar | src/services/contactService.ts:24 | No character outside the Basic Multilingual Plane is a letter, white space, `'` or `-`. |
| ContactService.Utf16Examples | src/services/contactService.ts:17-61 | The five-emoji message is valid, and the one-emoji name gets "Name can only contain letters, spaces, hyphens and apostrophes". |
| ContactService.SubmitContactForm | src/services/contactService.ts:63-118 | An invalid form gives "Please fix validation errors before submitting" and sends nothing. A valid one sends the `contact` envelope. It succeeds, with the thank-you message, exactly when the response is ok and its body parses; a non-ok response gives "Failed to submit contact form". |
| ContactService.ContactPayloadUtm | src/services/contactService.ts:92-96 | Each of the five attribution keys is sent with the page query's value, or `''` when absent. |
| UtmService.ExtractedStep | src/services/utmService.ts:32-36 | One `if (params.has(k))` line adds k, exactly when the query has it, with its value, or undefined when that value is empty. |
| UtmService.ExtractedFacts | src/services/utmService.ts:24-43 | Extraction keeps exactly the five `utm_*` keys the query has and nothing else. A key present with an empty value is recorded as undefined. Any other value is the query's first value for it. An unparsable URL gives `{}`. |
| UtmService.CopyParam | src/services/utmService.ts:32 | One assignment extends the extraction by one key. |
| UtmService.ExtractUTMFromURL | src/services/utmService.ts:24-43 | The assignments in sequence build exactly the extraction above. |
| UtmService.MergeFacts | src/services/utmService.ts:51-67 | After `{...existing, ...params}`, the stamps and JSON serialisation:<br>- new defined values win;<br>- a key sent as undefined is removed;<br>- untouched stored keys are kept;<br>- `first_visit` is the stored one or now;<br>- `referrer` is set only when absent and `document.referrer` is non-empty;<br>- no other key appears. |
| UtmService.MergeIdempotent | src/services/utmService.ts:51-67 | Storing the same attribution twice leaves the bundle as after the first store, `first_visit` included. |
| UtmService.UtmTracker.constructor | src/services/utmService.ts:19 | Session storage starts empty. |
| UtmService.UtmTracker.GetUTMParams | src/services/utmService.ts:76-84 | The stored bundle, or `{}` when nothing is stored or the text does not parse. |
| UtmService.UtmTracker.StoreUTMParams | src/services/utmService.ts:48-71 | Storage afterwards holds the merge of what was stored with the new parameters. |
| UtmService.UtmTracker.InitUTMTracking | src/services/utmService.ts:89-99 | Storage changes only when the extraction found at least one key, and then holds the merge. |
| UtmService.UtmTracker.AppendUTMToURL | src/services/utmService.ts:104-129 | The URL comes back unchanged when the bundle has no `utm_` key or it does not parse. Otherwise base and fragment are kept, and each truthy stored value appears exactly once under its key. Every other parameter is preserved, with its order and multiplicity. |
| UtmService.SetStep | src/services/utmService.ts:117-121 | `URLSearchParams.set` leaves exactly one entry with the new value and touches no other key. |
| UtmService.TruthySetStep | src/services/utmService.ts:117-121 | A set keeps the keys already set correct and adds its own. |
| UtmService.RestKeptStep | src/services/utmService.ts:117-121 | A set keeps the untouched keys and non-utm parameters as they were. |
| UtmService.RestKeptSkip | src/services/utmService.ts:117-121 | Skipping a falsy value keeps the same facts. |
| UtmService.SetIfTruthy | src/services/utmService.ts:117-121 | One `if (utmParams.k) set(k, …)` line sets k exactly when its stored value is truthy, and keeps the invariant. |
| UtmService.ApplyUtmParams | src/services/utmService.ts:114-123 | The five lines together: truthy stored values are set once each, and every other entry is unchanged. |
| DnsService.CleanDomainShape | src/services/dnsService.ts:30 | Cleaning removes at most one leading `http://` or `https://`, then at most one leading `www.`, and changes nothing else. |
| DnsService.CleanBareDomain | src/services/dnsService.ts:30 | A domain without those prefixes is unchanged. |
| DnsService.VerifyDNS | src/services/dnsService.ts:27-74 | Valid exactly when the answer resolved with a truthy body and status 200. Both resolved branches require A `@`→the configured address and CNAME `www`→the original domain; the failure branches require nothing. A valid answer passes on the body's `records` exactly when it has one; a resolved answer that is not valid gives "DNS records are not properly configured". An axios error gives the response's message or the fixed default, and any other thrown value "An unexpected error occurred". |
| DnsService.SiteRelicIgnoresRecords | src/services/dnsService.ts:41-51 | The verdict and message do not depend on the records returned. |
| DnsService.GoogleRecords | src/services/dnsService.ts:95-100 | `Answer` is mapped to records of the same length and order; a missing `Answer` is read as empty. |
| DnsService.VerifyDNSWithGoogle | src/services/dnsService.ts:81-131 | Valid exactly when a 200 answer has at least one record. The success branch always requires the single A `@`→`66.94.124.95` and chooses its message by the verdict. The non-200 and error branches have no required records; an axios error gives the response's message or the default. |
| DnsService.GoogleNoAnswer | src/services/dnsService.ts:95-106 | A 200 answer without `Answer` gives "No DNS records found for the domain", with no records. |
| DnsService.GoogleAcceptsAnyAddress | src/services/dnsService.ts:103 | Any non-empty answer is accepted: the addresses are never compared with the required one. |
| AnsibleService.DeploymentRequest | src/services/ansibleService.ts:30-40 | The envelope's payload holds exactly `domain` and `email`; the form-encoded copy is not what is sent. |
| AnsibleService.JobId | src/services/ansibleService.ts:45 | The job id is the text after the last `/` of `Location`, `''` without one; it never contains `/`. |
| AnsibleService.JobIdIsLastSegment | src/services/ansibleService.ts:45 | The job id is a suffix of `Location`, preceded by `/` whenever it is shorter. |
| AnsibleService.TriggerDeployment | src/services/ansibleService.ts:25-71 | Success exactly when the status is 200 or 201, with the started message and the job id. Any other status gives "Failed to trigger deployment". An axios error gives the response's message or the network message; any other error gives the fixed message. |
| OnboardingService.FormFieldsFacts | src/services/onboardingService.ts:44-61 | The eleven form fields: `size`→`companySize`, `website`→`companyWebsite`, the others verbatim, and `isDNSVerified` false unless it is true. |
| OnboardingService.OnboardingPayloadFacts | src/services/onboardingService.ts:43-64 | The bundle is spread last: its keys all appear with their stored values, and the form fields fill the rest. |
| OnboardingService.SubmitOnboardingData | src/services/onboardingService.ts:37-91 | Sends the `onboarding` envelope. It succeeds exactly when the response is ok and its body parses. Otherwise the message is the error's own: the rejection's, "Failed to submit onboarding data" or the parse error's. |
| OnboardingService.FetchRequest | src/services/onboardingService.ts:103-110 | The listing sends exactly `page`, `limit` and `filters`: a missing or zero page falls back to 1, a missing or zero limit to 10. `filters` is an object with exactly the supplied filter keys, each holding its string, or `{}` when none are supplied. |
| OnboardingService.FetchRequestZeroDefaults | src/services/onboardingService.ts:106-107 | A supplied 0 falls back to the default. |
| OnboardingService.FetchOnboardings | src/services/onboardingService.ts:93-129 | Success exactly on a truthy 200 body, which is returned as `data`. Any other response gives "Failed to fetch onboardings"; a thrown `Error`, AxiosError or not, gives its own message; anything else thrown gives "Failed to fetch onboardings". |
| CookieService.GetCookie | src/services/cookieService.ts:11-18 | A found value is non-empty, contains no `;`, and comes from a single occurrence of `"; name="` in `"; "+cookie`. |
| CookieService.GetCookieFound | src/services/cookieService.ts:11-18 | A found value is exactly the text between the unique marker and the next `;` or the end. |
| CookieService.GetCookieUnique | src/services/cookieService.ts:11-18 | The converse of `GetCookieFound`, anywhere in the text: a value that follows the first and only marker of the name and runs to the next `;` or the end is found. |
| CookieService.GetCookieBetween | src/services/cookieService.ts:11-18 | The consent cookie between two other cookies is found. |
| CookieService.GetCookieAbsent | src/services/cookieService.ts:13-17 | Without the marker there is no value. |
| CookieService.GetCookieFirst | src/services/cookieService.ts:12-16 | Thanks to the `"; "` prefix, the first cookie is found. |
| CookieService.GetCookieSingle | src/services/cookieService.ts:12-13 | A single cookie whose name merely ends with `name` does not match. |
| CookieService.FullConsent | src/services/cookieService.ts:33-40 | Defaults analytics false, marketing false, necessary true, each overridden by a supplied value (`necessary` included); the timestamp is always now. |
| CookieService.HasValidConsent | src/services/cookieService.ts:55-62 | False without consent; otherwise true exactly when now − timestamp < 180·24·60·60·1000. |
| CookieService.ConsentLivesAsLongAsCookie | src/services/cookieService.ts:2-61 | Consent is valid exactly until the expiry instant, in milliseconds, from which the cookie's `expires` date is formatted. The browser may drop the cookie up to a second earlier. |
| CookieService.CookieJar.constructor | src/services/cookieService.ts:24 | No cookie written yet. |
| CookieService.CookieJar.SetCookie | src/services/cookieService.ts:20-25 | Appends one write that expires at now + days in milliseconds. |
| CookieService.CookieJar.SetCookieConsent | src/services/cookieService.ts:32-48 | Writes the full consent with a 180-day expiry and returns it. |
| CookieService.CookieJar.ClearCookieConsent | src/services/cookieService.ts:50-53 | Writes an empty consent cookie that expired at the epoch. |
| DeploymentProgress.Steps | src/features/onboarding/DeploymentProgress.tsx:26-67 | Five steps with pairwise distinct ids; the fourth is the domain step, whose description ends with the domain being configured. |
| DeploymentProgress.TickDurations | src/features/onboarding/DeploymentProgress.tsx:80 | Each duration in half-second ticks is twice its seconds. |
| DeploymentProgress.DurationsFacts | src/features/onboarding/DeploymentProgress.tsx:26-67 | The tick durations are 16, 12, 20, 24, 18; they total 90 ticks = 45 s; the last step starts at tick 72. |
| DeploymentProgress.StepsSum | src/features/onboarding/DeploymentProgress.tsx:76 | The `reduce` over the steps gives 45 s. |
| DeploymentProgress.Statuses | src/features/onboarding/DeploymentProgress.tsx:88-102 | One status per step. |
| DeploymentProgress.StartMonotone | src/features/onboarding/DeploymentProgress.tsx:90-92 | Step windows start in order. |
| DeploymentProgress.StatusesOrdered | src/features/onboarding/DeploymentProgress.tsx:88-102 | Statuses never increase along the list, and a started step has every earlier step completed. So the list is completed*, running?, pending*. |
| DeploymentProgress.WindowsOrdered | src/features/onboarding/DeploymentProgress.tsx:94-101 | Two disjoint windows in order compare that way at any tick. |
| DeploymentProgress.AtMostOneRunning | src/features/onboarding/DeploymentProgress.tsx:88-102 | At most one step is running. |
| DeploymentProgress.IndexAt | src/features/onboarding/DeploymentProgress.tsx:97 | The index of the window holding t is within range. |
| DeploymentProgress.IndexAtWindow | src/features/onboarding/DeploymentProgress.tsx:90-96 | Before the end, t lies in the window of that index. |
| DeploymentProgress.RunningBeforeEnd | src/features/onboarding/DeploymentProgress.tsx:88-102 | Before the total, exactly one step, the one whose window holds t, is running. |
| DeploymentProgress.AllCompletedAtEnd | src/features/onboarding/DeploymentProgress.tsx:99-100 | From the total on, every step is completed. |
| DeploymentProgress.StatusesMonotone | src/features/onboarding/DeploymentProgress.tsx:94-101 | No step's status moves backwards as time passes, and none is ever "error". |
| DeploymentProgress.ComputeStatuses | src/features/onboarding/DeploymentProgress.tsx:88-102 | The `map` with its running `accumulatedTime` computes exactly `Statuses`, and reports the running index exactly when one is running. |
| DeploymentProgress.NoneRunningBefore | src/features/onboarding/DeploymentProgress.tsx:94-98 | When step j runs, no earlier step does: the loop's running index is the one found. |
| DeploymentProgress.ProgressMonotone | src/features/onboarding/DeploymentProgress.tsx:83-85 | Progress stays in [0,100] and never decreases; the remaining time never increases and is never negative. Each reaches its bound exactly from tick 90, and they add up until then. |
| DeploymentProgress.TimesAt | src/features/onboarding/DeploymentProgress.tsx:76-107 | With total duration 45 s, the `min`/`max` expressions are the progress and the remaining time, and `currentTime >= totalDuration` holds exactly from tick 90. |
| DeploymentProgress.CurrentAfterTick | src/features/onboarding/DeploymentProgress.tsx:97 | `currentStepIndex` changes only to the running step. So it is the running step before the end and stays 4 after it. |
| DeploymentProgress.Pad2 | src/features/onboarding/DeploymentProgress.tsx:121 | `padStart(2, '0')` of a number below 100: two digits with that value. |
| DeploymentProgress.FormatTime | src/features/onboarding/DeploymentProgress.tsx:118-122 | Minutes, `:` and two-digit seconds of the floor of the time. |
| DeploymentProgress.FloorFacts | src/features/onboarding/DeploymentProgress.tsx:119-120 | `floor(s/60)` and `floor(s mod 60)` split `floor(s)` into minutes and seconds below 60. |
| DeploymentProgress.FormatTimeRoundTrip | src/features/onboarding/DeploymentProgress.tsx:118-122 | The text parses back: digits, `:`, two digits, with minutes·60 + seconds = `floor(s)` and seconds < 60. |
| DeploymentProgress.DeploymentProgress.constructor | src/features/onboarding/DeploymentProgress.tsx:69-79 | Mounting starts the timer at tick 0 with every step pending and index 0. |
| DeploymentProgress.DeploymentProgress.Tick | src/features/onboarding/DeploymentProgress.tsx:79-113 | One interval tick advances time by half a second and sets the statuses to `Statuses`. Progress, elapsed and remaining are set to their definitions. The index is that of the running step. The timer stops, and the completion timeout is scheduled, exactly on tick 90. |
| DeploymentProgress.DeploymentProgress.FireCompletion | src/features/onboarding/DeploymentProgress.tsx:109-111 | The timeout calls `onComplete` once, at tick 90. |
| DeploymentProgress.DeploymentProgress.Unmount | src/features/onboarding/DeploymentProgress.tsx:115 | The cleanup stops the timer and changes nothing else. |
| DeploymentProgress.RunToCompletion | src/features/onboarding/DeploymentProgress.tsx:75-116 | Run to the end, the view takes 90 ticks and calls `onComplete` exactly once. All steps end completed, with progress 100 and nothing remaining. |
| OnboardingFlow.DomainInfoOf | src/features/onboarding/OnboardingFlow.tsx:97-100 | The shown domain is `customDomain` when non-empty, else `subdomain + '.example.com'`; `isCustomDomain` holds iff `customDomain` is non-empty. |
| OnboardingFlow.DomainInfoNonEmpty | src/features/onboarding/OnboardingFlow.tsx:97-100 | The shown domain is never empty. |
| OnboardingFlow.OnboardingFlow.constructor | src/features/onboarding/OnboardingFlow.tsx:9-27 | The wizard starts at step 1 with empty company, contact and domain records. |
| OnboardingFlow.OnboardingFlow.RenderStep | src/features/onboarding/OnboardingFlow.tsx:49-107 | Each step renders its form with its stored record, and step 4 renders the success screen. Within steps 1–4, `default` is never reached. |
| OnboardingFlow.OnboardingFlow.HandleCompanySubmit | src/features/onboarding/OnboardingFlow.tsx:29-32 | Stores the company record, moves to step 2 and changes nothing else. |
| OnboardingFlow.OnboardingFlow.HandleContactSubmit | src/features/onboarding/OnboardingFlow.tsx:34-37 | Stores the contact record, moves to step 3 and changes nothing else. |
| OnboardingFlow.OnboardingFlow.HandleDomainSubmit | src/features/onboarding/OnboardingFlow.tsx:39-42 | Stores the domain record, moves to step 4 and changes nothing else. |
| OnboardingFlow.OnboardingFlow.Back | src/features/onboarding/OnboardingFlow.tsx:70-84 | Back exists only on steps 2 and 3 and goes one step down. |
| OnboardingFlow.CompleteWizard | src/features/onboarding/OnboardingFlow.tsx:29-104 | Calling the three submit handlers in turn ends on the success screen for the entered domain. As written, the wizard throws while rendering step 2, so this describes the handlers, not a reachable run. |
| FormErrors.ClearOnChange | src/features/onboarding/CompanyDetailsForm.tsx:34-36 | Clearing on change removes the field's error, leaves every other entry, and changes nothing when there was no error. |
| FormErrors.SetError | src/features/onboarding/DomainConfigForm.tsx:59-62 | `{...prev, k: message}` sets that field and keeps every other. |
| CompanyDetailsForm.WithField | src/features/onboarding/CompanyDetailsForm.tsx:32 | `{...prev, [name]: value}` changes only the named field. |
| CompanyDetailsForm.CompanyErrorsFacts | src/features/onboarding/CompanyDetailsForm.tsx:39-52 | Valid exactly when the trimmed company name and industry are both non-empty. The errors are exactly the failing ones of those two; `size` and `website` never fail. |
| CompanyDetailsForm.CompanyDetailsForm.constructor | src/features/onboarding/CompanyDetailsForm.tsx:17-28 | Starts from the initial data with no errors, and with the invariant that every scheduled timeout and every `onNext` call holds validated data. Every method keeps that invariant, over any sequence of changes, submits and timeouts. |
| CompanyDetailsForm.CompanyDetailsForm.HandleChange | src/features/onboarding/CompanyDetailsForm.tsx:30-37 | Only the named field changes, and only its error is cleared. |
| CompanyDetailsForm.CompanyDetailsForm.ValidateForm | src/features/onboarding/CompanyDetailsForm.tsx:39-52 | The errors become exactly the company errors; the result says whether there are none. |
| CompanyDetailsForm.CompanyDetailsForm.HandleSubmit | src/features/onboarding/CompanyDetailsForm.tsx:54-64 | Only a valid form schedules the 800 ms timeout, which holds the current data. |
| CompanyDetailsForm.CompanyDetailsForm.FireTimeout | src/features/onboarding/CompanyDetailsForm.tsx:60-63 | The timeout ends loading and calls `onNext` with the data it held, which passed validation. |
| CompanyDetailsForm.SubmitThenFire | src/features/onboarding/CompanyDetailsForm.tsx:54-64 | `onNext` receives the data exactly when validation passes, and then unchanged. |
| ContactDetailsForm.WithField | src/features/onboarding/ContactDetailsForm.tsx:53 | Only the named field changes. |
| ContactDetailsForm.CheckedError | src/features/onboarding/ContactDetailsForm.tsx:84-93 | A blank value is required. A non-blank one is rejected only when the parent's status is `false`, so an unknown status passes. |
| ContactDetailsForm.ContactErrorsFacts | src/features/onboarding/ContactDetailsForm.tsx:76-96 | Valid exactly when both names and the email and phone are non-blank and neither check has rejected them. `jobTitle` is never checked. |
| ContactDetailsForm.RequireText | src/features/onboarding/ContactDetailsForm.tsx:78-83 | One "required" test adds its entry exactly when the text is blank. |
| ContactDetailsForm.RequireChecked | src/features/onboarding/ContactDetailsForm.tsx:84-93 | One required-then-rejected test adds its entry. |
| ContactDetailsForm.BuildErrors | src/features/onboarding/ContactDetailsForm.tsx:77-93 | `newErrors`, built step by step, is exactly the contact errors. |
| ContactDetailsForm.ContactDetailsForm.constructor | src/features/onboarding/ContactDetailsForm.tsx:32-49 | Starts from the initial data or empty fields, with no errors and nothing recorded. |
| ContactDetailsForm.ContactDetailsForm.HandleChange | src/features/onboarding/ContactDetailsForm.tsx:51-64 | Only the named field changes and only its error is cleared; an email or phone edit runs the parent's check on the new value. |
| ContactDetailsForm.ContactDetailsForm.HandleBlur | src/features/onboarding/ContactDetailsForm.tsx:66-74 | Leaving the email or phone re-runs its check and changes nothing else. |
| ContactDetailsForm.ContactDetailsForm.ValidateForm | src/features/onboarding/ContactDetailsForm.tsx:76-96 | The errors become exactly the contact errors. |
| ContactDetailsForm.ContactDetailsForm.HandleSubmit | src/features/onboarding/ContactDetailsForm.tsx:98-135 | An invalid form sends nothing. A valid one sends one onboarding save: empty company defaults when none is given, and a placeholder domain with the contact email. `onNext` is called exactly when the save succeeds. On failure the email error is the fixed "Failed to save contact information. Please try again.", whatever the service said. |
| ContactDetailsForm.ContactDetailsForm.Submit | src/features/onboarding/ContactDetailsForm.tsx:295 | Nothing happens while either check is running. `onNext` is reached only with checks idle, validation passed and the save succeeded. |
| DomainConfigForm.WithField | src/features/onboarding/DomainConfigForm.tsx:78 | Only the named field changes, and never `isDNSVerified`. |
| DomainConfigForm.DomainError | src/features/onboarding/DomainConfigForm.tsx:88-94 | The first of "required", "invalid format" (against `^([a-z0-9]+(-[a-z0-9]+)*\.)+[a-z]{2,}$`) and "not verified". No error exactly when the domain is well formed and verified. |
| DomainConfigForm.DomainNameNotBlank | src/features/onboarding/DomainConfigForm.tsx:88-90 | A well-formed domain is never blank. |
| DomainConfigForm.EmailError | src/features/onboarding/DomainConfigForm.tsx:97-101 | The email must be present, non-blank and match the same `L@D.x` rule as the contact validator. |
| DomainConfigForm.DomainErrorsFacts | src/features/onboarding/DomainConfigForm.tsx:85-105 | Valid exactly when the domain is well formed and verified and the email is present and well formed. Only the two fields can carry errors. |
| DomainConfigForm.BuildErrors | src/features/onboarding/DomainConfigForm.tsx:86-101 | `newErrors`, built branch by branch, is exactly the domain errors. |
| DomainConfigForm.DomainConfigForm.constructor | src/features/onboarding/DomainConfigForm.tsx:24-44 | The default data, no errors, not deploying, and the initial A record. |
| DomainConfigForm.DomainConfigForm.CheckDNS | src/features/onboarding/DomainConfigForm.tsx:46-74 | Sets `isDNSVerified` to the Google verdict, adopts the returned required records, and sets or clears the domain error by the verdict. A thrown call only sets the fixed error and leaves `isDNSVerified` as it was. |
| DomainConfigForm.DomainConfigForm.ClickCheckDNS | src/features/onboarding/DomainConfigForm.tsx:202-203 | The button does nothing without a domain or during a check; otherwise it checks the current domain. |
| DomainConfigForm.DomainConfigForm.HandleChange | src/features/onboarding/DomainConfigForm.tsx:76-83 | Only the named field changes and only its error is cleared; editing the domain keeps `isDNSVerified`. |
| DomainConfigForm.DomainConfigForm.ValidateForm | src/features/onboarding/DomainConfigForm.tsx:85-105 | The errors become exactly the domain errors. |
| DomainConfigForm.DomainConfigForm.HandleSubmit | src/features/onboarding/DomainConfigForm.tsx:107-148 | A failed validation triggers no deployment. A valid one triggers exactly one, with the domain and the email or `''`. A failure puts the service's message, or the fixed one when the call throws, on the domain field and stays off the progress screen. Only success opens it. |
| DomainConfigForm.DomainConfigForm.StartDeployment | src/features/onboarding/DomainConfigForm.tsx:111-147 | The part after validation, with the same outcome. |
| DomainConfigForm.DomainConfigForm.Submit | src/features/onboarding/DomainConfigForm.tsx:303 | The button is disabled until DNS is verified. A deployment is only ever triggered for data that passes validation. |
| DomainConfigForm.DomainConfigForm.HandleDeploymentComplete | src/features/onboarding/DomainConfigForm.tsx:150-153 | `onNext` receives the form data, which was validated for the deployment that succeeded. |
| DomainConfigForm.DomainConfigForm.HandleDeploymentError | src/features/onboarding/DomainConfigForm.tsx:155-162 | Back to the form with the error on the domain field. |
| Integration.Wire | proxy.php:34-44 | An envelope arrives as a POST with its service and payload, and passes the envelope check exactly when its payload is not null. |
| Integration.ContactColumns | proxy.php:248-274 | The contact payload, bound by the router, is the contact row in column order: the four fields, the page's five attribution values, the page address and the time. |
| Integration.ContactFormValues | src/services/contactService.ts:87 | The four form fields are sent under their own names. |
| Integration.ContactUtmValues | src/services/contactService.ts:92-96 | The five attribution values are sent under their keys. |
| Integration.ContactPageValues | src/services/contactService.ts:89-90 | The page address is sent as `source` and the moment as `submitted_at`. |
| Integration.ContactColumnsOf | proxy.php:248-274 | Any payload with those values binds that row. |
| Integration.DeliverContact | proxy.php:231-298 | A valid contact form, once connected and prepared, binds exactly its row as eleven strings. The answer is 200 exactly when the database accepts it. |
| Integration.TrackedKeysDisjoint | src/services/onboardingService.ts:43-63 | No attribution key the tracker stores is also a form field of the onboarding payload. |
| Integration.OnboardingColumns | proxy.php:150-187 | When the bundle shadows no form field, the router binds the wizard's ten fields and the five stored attribution values (`''` when unset) in column order. `isDNSVerified` has no column. |
| Integration.ColumnsOf | proxy.php:150-187 | The same, for any payload laid out that way. |
| Integration.UtmKeyNotFixed | src/services/onboardingService.ts:44-60 | No attribution key names a form field. |
| Integration.BundleShadowsForm | src/services/onboardingService.ts:63 | A bundle key named like a form field wins, because the spread comes last. |
| Integration.EmailColumn | proxy.php:156 | The email column is bound from the payload's `email`. |
| Integration.DeliverOnboarding | proxy.php:133-211 | A full submission binds exactly the onboarding row as fifteen strings. |
| Integration.DeliverContactStepSave | src/features/onboarding/ContactDetailsForm.tsx:105-120 | The save of the contact step's submit handler, called without company data as the wizard passes none: it binds a row with empty company fields and an empty domain. |
| Integration.FetchReachesProxy | src/services/onboardingService.ts:103-110 | The router serves the requested page and size, raised to 1 when lower. A client filter takes effect exactly when it is one of the three keys and is neither `''` nor `'0'`. |
| Integration.DeliverFetch | proxy.php:47-131 | A listing request is answered as the listing specification says and never calls a remote API. |
| Integration.DeliverGoogleCheck | proxy.php:300-310 | The Google check asks for the A record of the cleaned domain and relays the answer. |
| Integration.DeliverSiteRelicCheck | proxy.php:213-220 | The record lookup is forwarded as JSON with the API key header. |
| Integration.DeliverDeployment | proxy.php:222-229 | The deployment trigger reaches the build job form-encoded with exactly the domain and the email. |
| Integration.DeployAndFinish | src/features/onboarding/DomainConfigForm.tsx:107-174 | For valid data whose trigger succeeds, the progress view opens for that domain and email. It calls `onComplete` once, and the form hands its data to `onNext` exactly once. |
| Json.Get | src/services/dnsService.ts:94-98 | A field lookup on a decoded response body (`response.data.Answer`, `record.name`, `record.data`, and `response.data.records` at line 45) finds exactly the object's keys. |
| Json.StringOr | src/services/dnsService.ts:65 | A JavaScript `or` fallback for a string: the string when non-empty, else the fallback. |
| Text.TrimStart | src/services/contactService.ts:18 | `trimStart` removes exactly a white-space prefix. |
| Text.TrimEnd | src/services/contactService.ts:18 | `trimEnd` removes exactly a white-space suffix. |
| Text.TrimEmptyIff | src/services/contactService.ts:18 | `!s.trim()` holds exactly when s is all white space. |
| Text.TrimNoSpace | src/features/onboarding/DomainConfigForm.tsx:88 | Text without white space trims to itself. |
| Text.Decimal | src/features/onboarding/DeploymentProgress.tsx:121 | Number-to-text: digits, no leading zero. |
| Text.DecimalRoundTrip | src/features/onboarding/DeploymentProgress.tsx:121 | The decimal text reads back as the number. |
| Text.Find | src/services/cookieService.ts:13 | The first occurrence of the separator. |
| Text.Split | src/services/cookieService.ts:13 | `split` gives at least one part. |
| Text.SplitTwo | src/services/cookieService.ts:14-15 | Two parts are the text around the only occurrence. |
| Text.SplitNone | src/services/cookieService.ts:13 | Without the separator there is one part. |
| Text.UpTo | src/services/cookieService.ts:15 | `split(';').shift()` is the prefix before the first `;`. |
| Text.AfterLast | src/services/ansibleService.ts:45 | `split('/').pop()` is the suffix after the last `/`. |
| Text.IndexOf | src/services/contactService.ts:34-35 | The first position of a character: the `@` at which `IsEmail` splits an address for the email regular expression. |
| Text.FindFirst | src/services/cookieService.ts:13 | `Find` reports an occurrence that has none before it. |
| Text.Utf16LengthAstral | src/services/contactService.ts:21-57 | A string of characters outside the Basic Multilingual Plane is twice as long in code units as in characters. |
| Text.SplitAtFirst | src/services/cookieService.ts:13 | A string whose first separator is followed by no other splits into the text before and after it. |
| Text.Utf16Length | src/services/contactService.ts:21-57 | JavaScript's `.length` in UTF-16 code units: between the character count and twice it, zero only for the empty string, and equal to the character count exactly when every character lies in the Basic Multilingual Plane. |
| Patterns.EmailSound | src/services/contactService.ts:35 | The executable email test implies the regular expression. |
| Patterns.EmailComplete | src/services/contactService.ts:35 | Every `L@D.x` split with those character classes passes the test. |
| Patterns.EmailIff | src/services/contactService.ts:35 | The test and the regular expression agree on every string. |
| Patterns.DigitsOf | src/services/contactService.ts:46 | `replace(/\D/g, '')` keeps only digits. |
| Patterns.DigitsOfAppend | src/services/contactService.ts:46 | Removing non-digits distributes over concatenation. |
| Patterns.DomainNameNoSpace | src/features/onboarding/DomainConfigForm.tsx:90 | A well-formed domain is non-empty and has no white space. |
| Query.Get | src/services/utmService.ts:32-36 | `get` finds a value exactly when `has` holds. |
| Query.ReplaceFirstFacts | src/services/utmService.ts:117-121 | `set` on a present key leaves one entry with the new value, keeps the other keys, and keeps every entry outside the key set. |
| Query.SetFacts | src/services/utmService.ts:117-121 | The same for `set` whether or not the key was present. |
| Query.CountDropped | src/services/utmService.ts:117-121 | Dropping a key set removes exactly those keys. |

## Left out

- I/O is modelled by its outcome. `mysqli`, curl, `fetch`, axios, session storage and `document.cookie` are replaced by their outcomes (`DbOutcome`, `CurlOutcome`, `FetchOutcome`, `AxiosOutcome`) or by a field. The clock (`Date.now`, `toISOString`) and `document.referrer` become parameters.
- `json_decode`, `json_encode`, `JSON.stringify`/`parse`, `encodeURIComponent`, `urlencode`, `http_build_query`, `new URL` and the text form of a query are not modelled. Each appears as a constructor naming the value it encodes (for example `JsonEncoded(payload)`, `FormEncoded(payload)`, `GoogleResolve(name, type)`). `Wire` treats the decoded body as the object the client sent.
- The CORS headers (proxy.php:24-26) are sent unconditionally and carry no decision; they are not modelled.
- The DB password, the siterelic API key and the Jenkins credentials are opaque constants. `REQUIRED_A_RECORD` is a build-time environment value and is a placeholder constant too.
- Proxy.HandleRequest: does not model exceptions raised by `mysqli` itself in its exception-reporting mode. It also does not model a `fetch_assoc` on a failed count query: a missing count is read as 0. `pages` is emitted as an integer, while PHP's `ceil` returns a float that `json_encode` writes as, for example, `3.0` (proxy.php:110-118); JSON numbers are integers only in this model.
- Json.StringOr: a truthy `message` that is not a string (a number, an object) is returned as it is by JavaScript's `||`; the model gives the fallback instead, since every message here is a string.
- Php.Intval: covers optional white space, a sign and decimal digits. It leaves out exponents, hexadecimal, overflow to `PHP_INT_MAX` and floats; JSON numbers are integers only.
- DeploymentProgress: the half-second interval and the one-second timeout are explicit `Tick` and `FireCompletion` calls. Times are exact reals, not JavaScript floats. The icons and rendering are not modelled.
- DeploymentProgress never calls its `onError` prop. So DomainConfigForm.DomainConfigForm.HandleDeploymentError is reachable only by a caller that does.
- DomainConfigForm.DomainConfigForm.CheckDNS and StartDeployment: both services catch every error, so their `catch` branches are reachable only through the `Threw` outcome.
- The wizard renders ContactDetailsForm without `validationStatus`, `validateEmail`, `validatePhone` or `companyData` (src/features/onboarding/OnboardingFlow.tsx:68-72).
  - The model's ContactDetailsForm takes the validation status as a constructor argument and records each call to the validators.
  - `Integration.DeliverContactStepSave` and `OnboardingFlow.CompleteWizard` describe the handlers of the wired components, not a run of the wizard that can be reached: as written, step 2 throws while rendering (see below).
- The wizard's initial domain record has no `isDNSVerified` or `email` (src/features/onboarding/OnboardingFlow.tsx:23-27). Both are optional in `DomainFormData`.
- `isDNSVerified` is sent in the onboarding payload, but the router binds no column for it (proxy.php:138-187).
- React rendering, class names, icons, `OnboardingLayout`, `StepIndicator`, `OnboardingSuccess`, the tables, the pages and the marketing sections are not modelled. Neither are console logging and asynchronous interleaving: each handler runs to completion with its awaited outcome given.
- `databaseService.ts` and `AuthGuard.tsx` are not part of this model.

## Behaviour that follows the code

- `googledns` is sent as a POST with no body. `CURLOPT_POST` is set in the shared tail for every remote case (proxy.php:318-322). It is not a GET.
- The `switch` compares loosely. Under PHP 8, a JSON `true` as `service` selects the first case, `get_onboardings` (proxy.php:46-47). The model keeps this.
- The wizard as written cannot render step 2. It passes no `validationStatus` to ContactDetailsForm (src/features/onboarding/OnboardingFlow.tsx:68-72). While rendering, ContactDetailsForm calls `getInputClassName('email')` (src/features/onboarding/ContactDetailsForm.tsx:220), which reads `validationStatus[field].isValid` on `undefined` (line 139) and throws a TypeError. The model supplies the status instead, so the contact step's handlers are described as they would run once it is supplied.
- The listing's `pages` uses the unfiltered `COUNT(*)` (proxy.php:57-58). It is the page count of the whole table, not of the filtered result.
