/** src/services/dnsService.ts: domain cleaning, the two verification calls
    through the router (`siterelic` and `googledns`) and the interpretation of
    their answers. */
module DnsService {
  import opened Wrappers
  import opened Json
  import opened Text
  import opened Http

  /** A DNS record as the service reports it. Records copied from a Google
      answer carry whatever `name` and `data` the answer held, possibly
      `undefined` (`None`). */
  datatype DnsRecord = DnsRecord(rtype: string, host: Option<Json>, value: Option<Json>)

  /** The `records` field of a result: absent, the value the siterelic answer
      carried, or the records mapped from a Google answer. */
  datatype Records = NoRecords | Raw(value: Json) | Mapped(items: seq<DnsRecord>)

  datatype DnsVerification = DnsVerification(
    isValid: bool, message: string, records: Records, requiredRecords: Option<seq<DnsRecord>>)

  /** The address clients must point their A record at, configured at build
      time; its value is not part of the model. */
  const REQUIRED_A_RECORD := "<required A record>"
  const GOOGLE_A_RECORD := "66.94.124.95"

  const SITERELIC_OK := "DNS records verified successfully"
  const SITERELIC_NOT_CONFIGURED := "DNS records are not properly configured"
  const SITERELIC_FAILED := "Failed to verify DNS records"
  const GOOGLE_OK := "DNS records verified successfully using Google DNS"
  const GOOGLE_NONE := "No DNS records found for the domain"
  const GOOGLE_FAILED := "Failed to verify DNS records using Google DNS"
  const UNEXPECTED := "An unexpected error occurred"

  /** `domain.replace(/^(https?:\/\/)?(www\.)?/, '')`. */
  function CleanDomain(domain: string): string
  {
    var rest :=
      if StartsWith(domain, "https://") then domain[8..]
      else if StartsWith(domain, "http://") then domain[7..]
      else domain;
    if StartsWith(rest, "www.") then rest[4..] else rest
  }

  /** Cleaning removes one optional scheme and then one optional `www.`, each
      as long as the text begins with it, and changes nothing else. */
  lemma CleanDomainShape(domain: string) returns (scheme: string, www: string)
    ensures domain == scheme + www + CleanDomain(domain)
    ensures scheme == "https://" || scheme == "http://" || scheme == ""
    ensures www == "www." || www == ""
    ensures scheme == "" <==> !StartsWith(domain, "https://") && !StartsWith(domain, "http://")
    ensures www == "" <==> !StartsWith(domain[|scheme|..], "www.")
  {
    if StartsWith(domain, "https://") {
      scheme := "https://";
    } else if StartsWith(domain, "http://") {
      scheme := "http://";
    } else {
      scheme := "";
    }
    var rest := domain[|scheme|..];
    assert domain == scheme + rest by {
      assert domain[..|scheme|] == scheme;
    }
    if StartsWith(rest, "www.") {
      www := "www.";
      assert rest == www + rest[4..] by {
        assert rest[..4] == www;
      }
    } else {
      www := "";
      assert rest == www + rest;
    }
    assert CleanDomain(domain) == rest[|www|..];
  }

  /** A bare host name is left as it is. */
  lemma CleanBareDomain(domain: string)
    requires !StartsWith(domain, "http://") && !StartsWith(domain, "https://") && !StartsWith(domain, "www.")
    ensures CleanDomain(domain) == domain
  {
  }

  /** The records a client must create, reported by the siterelic path. */
  function SiteRelicRequired(domain: string): seq<DnsRecord>
  {
    [ DnsRecord("A", Some(JStr("@")), Some(JStr(REQUIRED_A_RECORD))),
      DnsRecord("CNAME", Some(JStr("www")), Some(JStr(domain))) ]
  }

  /** The envelope `verifyDNS` sends. */
  function SiteRelicRequest(domain: string): Envelope
  {
    Envelope("siterelic", JObj(map["url" := JStr(CleanDomain(domain)), "types" := JArr([JStr("A"), JStr("CNAME")])]))
  }

  /** `verifyDNS(domain)`, given the outcome of its axios call. */
  function VerifyDNS(domain: string, outcome: AxiosOutcome): (r: DnsVerification)
    ensures r.isValid <==> outcome.Resolved? && Truthy(outcome.data) && outcome.status == 200
    ensures r.isValid ==> r.message == SITERELIC_OK
    ensures r.isValid ==> (r.records.Raw? <==> Get(outcome.data, "records").Some?)
    ensures r.isValid && r.records.Raw? ==> Get(outcome.data, "records") == Some(r.records.value)
    ensures outcome.Resolved? && !r.isValid ==> r.message == SITERELIC_NOT_CONFIGURED && r.records.NoRecords?
    ensures outcome.Resolved? <==> r.requiredRecords == Some(SiteRelicRequired(domain))
    ensures !outcome.Resolved? ==> r.requiredRecords.None? && r.records.NoRecords?
    ensures outcome.AxiosFailed? ==> r.message == ErrorMessageOr(outcome.responseData, SITERELIC_FAILED)
    ensures outcome.OtherFailure? ==> r.message == UNEXPECTED
  {
    match outcome
    case Resolved(status, data, _) =>
      if Truthy(data) && status == 200 then
        var records := Get(data, "records");
        DnsVerification(true, SITERELIC_OK, if records.Some? then Raw(records.value) else NoRecords,
                        Some(SiteRelicRequired(domain)))
      else
        DnsVerification(false, SITERELIC_NOT_CONFIGURED, NoRecords, Some(SiteRelicRequired(domain)))
    case AxiosFailed(_, responseData) =>
      DnsVerification(false, ErrorMessageOr(responseData, SITERELIC_FAILED), NoRecords, None)
    case OtherFailure(_) =>
      DnsVerification(false, UNEXPECTED, NoRecords, None)
  }

  /** The siterelic answer is not inspected: any truthy body with status 200
      verifies the domain, whatever records it lists. */
  lemma SiteRelicIgnoresRecords(domain: string, data: Json, data': Json, loc: Option<string>)
    requires Truthy(data) && Truthy(data')
    ensures VerifyDNS(domain, Resolved(200, data, loc)).isValid == VerifyDNS(domain, Resolved(200, data', loc)).isValid
    ensures VerifyDNS(domain, Resolved(200, data, loc)).message == VerifyDNS(domain, Resolved(200, data', loc)).message
  {
  }

  /** The envelope `verifyDNSWithGoogle` sends. */
  function GoogleRequest(domain: string): Envelope
  {
    Envelope("googledns", JObj(map["name" := JStr(CleanDomain(domain)), "type" := JStr("A")]))
  }

  /** `response.data.Answer || []`, when it is an array. */
  function AnswerItems(data: Json): Option<seq<Json>>
  {
    var answer := Get(data, "Answer");
    if !TruthyOpt(answer) then Some([])
    else if answer.value.JArr? then Some(answer.value.items)
    else None
  }

  /** `({ type: 'A', host: record.name, value: record.data })`. */
  function ARecord(item: Json): DnsRecord
  {
    DnsRecord("A", Get(item, "name"), Get(item, "data"))
  }

  /** `answer.map(...)`: reading a field of a `null` element throws a
      TypeError, and so does calling `map` on a truthy non-array. */
  function GoogleRecords(data: Json): (r: Option<seq<DnsRecord>>)
    ensures r.Some? <==> AnswerItems(data).Some? && JNull !in AnswerItems(data).value
    ensures r.Some? ==> |r.value| == |AnswerItems(data).value|
    ensures r.Some? ==> forall i :: 0 <= i < |r.value| ==> r.value[i] == ARecord(AnswerItems(data).value[i])
  {
    var items := AnswerItems(data);
    if items.None? || JNull in items.value then None
    else Some(seq(|items.value|, i requires 0 <= i < |items.value| => ARecord(items.value[i])))
  }

  /** `verifyDNSWithGoogle(domain)`, given the outcome of its axios call. */
  function VerifyDNSWithGoogle(domain: string, outcome: AxiosOutcome): (r: DnsVerification)
    ensures r.isValid <==>
      outcome.Resolved? && Truthy(outcome.data) && outcome.status == 200 &&
      GoogleRecords(outcome.data).Some? && |GoogleRecords(outcome.data).value| > 0
    ensures r.requiredRecords.Some? <==>
      outcome.Resolved? && Truthy(outcome.data) && outcome.status == 200 && GoogleRecords(outcome.data).Some?
    ensures r.requiredRecords.Some? ==>
      r.requiredRecords.value == [DnsRecord("A", Some(JStr("@")), Some(JStr(GOOGLE_A_RECORD)))]
      && r.records == Mapped(GoogleRecords(outcome.data).value)
      && r.message == if r.isValid then GOOGLE_OK else GOOGLE_NONE
    ensures outcome.Resolved? && !(Truthy(outcome.data) && outcome.status == 200) ==> r.message == GOOGLE_FAILED
    ensures outcome.AxiosFailed? ==> r.message == ErrorMessageOr(outcome.responseData, GOOGLE_FAILED)
    ensures outcome.OtherFailure? ==> r.message == UNEXPECTED
    ensures r.requiredRecords.None? ==> r.records.NoRecords? && !r.isValid
  {
    match outcome
    case Resolved(status, data, _) =>
      if Truthy(data) && status == 200 then
        match GoogleRecords(data)
        case None => DnsVerification(false, UNEXPECTED, NoRecords, None)
        case Some(records) =>
          DnsVerification(|records| > 0, if |records| > 0 then GOOGLE_OK else GOOGLE_NONE, Mapped(records),
                          Some([DnsRecord("A", Some(JStr("@")), Some(JStr(GOOGLE_A_RECORD)))]))
      else DnsVerification(false, GOOGLE_FAILED, NoRecords, None)
    case AxiosFailed(_, responseData) =>
      DnsVerification(false, ErrorMessageOr(responseData, GOOGLE_FAILED), NoRecords, None)
    case OtherFailure(_) =>
      DnsVerification(false, UNEXPECTED, NoRecords, None)
  }

  /** A missing or empty `Answer` is no records, so the domain is not verified. */
  lemma GoogleNoAnswer(domain: string, data: Json, loc: Option<string>)
    requires Truthy(data) && !TruthyOpt(Get(data, "Answer"))
    ensures VerifyDNSWithGoogle(domain, Resolved(200, data, loc)) ==
      DnsVerification(false, GOOGLE_NONE, Mapped([]), Some([DnsRecord("A", Some(JStr("@")), Some(JStr(GOOGLE_A_RECORD)))]))
  {
  }

  /** The answered addresses are never compared with the required one: any
      non-empty answer of objects verifies the domain. */
  lemma GoogleAcceptsAnyAddress(domain: string, items: seq<Json>, loc: Option<string>)
    requires |items| > 0 && forall i :: 0 <= i < |items| ==> items[i].JObj?
    ensures VerifyDNSWithGoogle(domain, Resolved(200, JObj(map["Answer" := JArr(items)]), loc)).isValid
  {
    var data := JObj(map["Answer" := JArr(items)]);
    assert AnswerItems(data) == Some(items);
    assert forall i :: 0 <= i < |items| ==> items[i] != JNull;
  }
}
