/** proxy.php: the single backend endpoint. It answers CORS preflight,
    checks the `{service, payload}` envelope, dispatches on `service` (three
    database-backed services and three relayed to remote APIs) and relays the
    remote answer. The database and curl are replaced by their outcomes. */
module Proxy {
  import opened Wrappers
  import opened Json
  import opened Text
  import opened Php

  /** The request: its method and `json_decode` of its body (null when the
      body is not JSON). */
  datatype Request = Request(verb: string, body: Json)

  datatype Body = NoBody | JsonBody(value: Json) | RawBody(text: string)

  /** The status set with `http_response_code` (200 when never set) and what
      was echoed. */
  datatype Response = Response(status: int, body: Body)

  /** The cases of `switch ($service)`. */
  datatype Service = GetOnboardings | Onboarding | SiteRelic | Ansible | Contact | GoogleDns | Unknown

  /** A prepared statement with its bound type string and parameters (bound
      values are the decoded payload values; null for a missing key). */
  datatype Statement = Statement(sql: string, types: string, params: seq<Json>)

  datatype Url = Fixed(text: string) | GoogleResolve(name: string, rtype: string)

  /** `CURLOPT_POSTFIELDS`: JSON text, a form-encoded query, or null. */
  datatype PostFields = JsonEncoded(value: Json) | FormEncoded(value: Json) | NoFields

  /** The curl request of the shared tail; it is always a POST. */
  datatype Outbound = Outbound(url: Url, headers: seq<string>, fields: PostFields)

  /** What the request did besides answering: nothing, bind a statement for
      the database, or send a request to a remote API. */
  datatype Effect = NoEffect | Bound(stmt: Statement) | Requested(out: Outbound)

  /** The database as the request meets it: the connection error if
      connecting fails, the `COUNT(*)` (None when that query fails), the
      `prepare` and `execute` errors, the rows the select returns and the id
      an insert gets. */
  datatype DbOutcome = DbOutcome(
    connectError: Option<string>, total: Option<nat>, prepareError: Option<string>,
    executeError: Option<string>, rows: seq<Json>, insertId: int)

  datatype CurlOutcome = CurlFailed(error: string) | CurlDone(httpCode: int, text: string)

  const SITERELIC_URL := "https://api.siterelic.com/dnsrecord"
  const JENKINS_URL := "http://66.94.124.95:8080/job/Run-Ansible-Playbook/buildWithParameters"
  /** The API key and the Jenkins credentials are opaque. */
  const SITERELIC_HEADERS := ["x-api-key: <api key>", "Content-Type: application/json"]
  const JENKINS_HEADERS := ["Authorization: Basic <credentials>", "Content-Type: application/x-www-form-urlencoded"]

  const ONBOARDING_INSERT :=
    "INSERT INTO onboardings (company_name, industry, company_size, company_website, first_name, last_name, email, phone, job_title, domain, utm_source, utm_medium, utm_campaign, utm_term, utm_content) VALUES (?, ?, ?, ?, ?, ?, ?, ?, ?, ?, ?, ?, ?, ?, ?)"
  const CONTACT_INSERT :=
    "INSERT INTO contact_forms (name, email, phone, message, utm_source, utm_medium, utm_campaign, utm_term, utm_content, source, submitted_at) VALUES (?, ?, ?, ?, ?, ?, ?, ?, ?, ?, ?)"

  function ErrorBody(message: string): Body
  {
    JsonBody(JObj(map["error" := JStr(message)]))
  }

  // ----- dispatch -----

  /** The `case` label of each service. */
  function Label(s: Service): string
  {
    match s
    case GetOnboardings => "get_onboardings"
    case Onboarding => "onboarding"
    case SiteRelic => "siterelic"
    case Ansible => "ansible"
    case Contact => "contact"
    case GoogleDns => "googledns"
    case Unknown => ""
  }

  /** The case `switch` selects with PHP 8's loose `==`: a string matches its
      label; `true` equals every non-empty string, so it takes the first case;
      numbers, `false` and arrays match no label. */
  function SwitchCase(service: Json): (r: Service)
    ensures service.JStr? && r != Unknown ==> Label(r) == service.s
    ensures service == JBool(true) ==> r == GetOnboardings
    ensures !service.JStr? && service != JBool(true) ==> r == Unknown
  {
    match service
    case JBool(b) => if b then GetOnboardings else Unknown
    case JStr(s) =>
      if s == "get_onboardings" then GetOnboardings
      else if s == "onboarding" then Onboarding
      else if s == "siterelic" then SiteRelic
      else if s == "ansible" then Ansible
      else if s == "contact" then Contact
      else if s == "googledns" then GoogleDns
      else Unknown
    case _ => Unknown
  }

  /** Every label selects its own case, and any other string is unknown. */
  lemma SwitchCaseLabels(s: Service, text: string)
    ensures s != Unknown ==> SwitchCase(JStr(Label(s))) == s
    ensures SwitchCase(JStr(text)) == Unknown <==>
      text !in {"get_onboardings", "onboarding", "siterelic", "ansible", "contact", "googledns"}
  {
  }

  /** The envelope check: `service` and `payload` are both set. */
  predicate ValidEnvelope(body: Json)
  {
    IsSet(body, "service") && IsSet(body, "payload")
  }

  // ----- curl tail -----

  /** The shared tail: a curl error becomes 500 with its message, otherwise
      the remote status and body are passed on untouched. */
  function Relay(curl: CurlOutcome): (r: Response)
    ensures curl.CurlFailed? ==> r == Response(500, ErrorBody("Curl error: " + curl.error))
    ensures curl.CurlDone? ==> r.status == curl.httpCode && r.body == RawBody(curl.text)
  {
    match curl
    case CurlFailed(e) => Response(500, ErrorBody("Curl error: " + e))
    case CurlDone(code, text) => Response(code, RawBody(text))
  }

  // ----- get_onboardings: pagination -----

  function Max(a: int, b: int): int { if a >= b then a else b }

  /** `isset($payload['page']) ? max(1, intval($payload['page'])) : 1`. */
  function PageOf(payload: Json): int
  {
    if IsSet(payload, "page") then Max(1, Intval(Index(payload, "page"))) else 1
  }

  /** `isset($payload['limit']) ? max(1, intval($payload['limit'])) : 10`. */
  function LimitOf(payload: Json): int
  {
    if IsSet(payload, "limit") then Max(1, Intval(Index(payload, "limit"))) else 10
  }

  function OffsetOf(payload: Json): int
  {
    (PageOf(payload) - 1) * LimitOf(payload)
  }

  /** `$limit > 0 ? ceil($total / $limit) : 0`. */
  function Pages(total: nat, limit: int): int
  {
    if limit > 0 then (total + limit - 1) / limit else 0
  }

  /** Page and limit are at least 1, so the offset is never negative and the
      zero branch of the page count is never taken; the page count is the
      least number of pages of `limit` rows that hold `total` rows. */
  lemma PaginationFacts(payload: Json, total: nat)
    ensures PageOf(payload) >= 1 && LimitOf(payload) >= 1
    ensures OffsetOf(payload) >= 0 && OffsetOf(payload) == (PageOf(payload) - 1) * LimitOf(payload)
    ensures var limit := LimitOf(payload); var pages := Pages(total, limit);
      && pages >= 0
      && pages * limit >= total
      && (pages - 1) * limit < total + (if total == 0 then limit else 0)
      && (pages == 0 <==> total == 0)
  {
    var page, limit := PageOf(payload), LimitOf(payload);
    assert (page - 1) * limit >= 0 by { NonNegativeProduct(page - 1, limit); }
    PagesFacts(total, limit);
  }

  lemma NonNegativeProduct(a: nat, b: nat)
    ensures a * b >= 0
  {
  }

  /** The ceiling division behind the page count, for a positive limit. */
  lemma PagesFacts(total: nat, limit: int)
    requires limit >= 1
    ensures var pages := Pages(total, limit);
      && pages >= 0
      && pages * limit >= total
      && (pages - 1) * limit < total + (if total == 0 then limit else 0)
      && (pages == 0 <==> total == 0)
  {
    var q := total + limit - 1;
    var pages := q / limit;
    assert q == pages * limit + q % limit;
    assert pages * limit >= total;
    assert (pages - 1) * limit == pages * limit - limit;
  }

  /** A page given as a number or as its decimal text is taken as is when it
      is at least 1; 0, negative numbers and text without leading digits all
      mean the first page. */
  lemma PageExamples(n: int)
    ensures PageOf(JObj(map["page" := JInt(n)])) == Max(1, n)
    ensures PageOf(JObj(map["page" := JStr(IntText(n))])) == Max(1, n)
    ensures PageOf(JObj(map["page" := JStr("abc")])) == 1
    ensures PageOf(JObj(map[])) == 1
  {
    IntvalRoundTrip(n);
    var t := "abc";
    assert SkipPhpSpace(t) == t;
    assert LeadingDigits(t) == [];
  }

  // ----- get_onboardings: filters -----

  /** The filter keys, in the order the builder tests them. */
  const FILTER_KEYS: seq<string> := ["utm_source", "utm_medium", "utm_campaign"]

  /** The keys among `keys` whose filter value is not empty, in order. */
  function ActiveFilters(filters: Json, keys: seq<string>): (r: seq<string>)
    ensures |r| <= |keys|
    decreases |keys|
  {
    if keys == [] then []
    else (if !Empty(Index(filters, keys[0])) then [keys[0]] else []) + ActiveFilters(filters, keys[1..])
  }

  /** A key is active exactly when it is among the keys and its filter value
      is not empty. */
  lemma {:induction false} ActiveFiltersMembers(filters: Json, keys: seq<string>, k: string)
    ensures k in ActiveFilters(filters, keys) <==> k in keys && !Empty(Index(filters, k))
    decreases |keys|
  {
    if keys != [] {
      ActiveFiltersMembers(filters, keys[1..], k);
      assert keys == [keys[0]] + keys[1..];
    }
  }

  function Condition(k: string): string { k + " LIKE ?" }

  function Conditions(keys: seq<string>): (r: seq<string>)
    ensures |r| == |keys| && forall i :: 0 <= i < |keys| ==> r[i] == Condition(keys[i])
  {
    seq(|keys|, i requires 0 <= i < |keys| => Condition(keys[i]))
  }

  function LikeParams(filters: Json, keys: seq<string>): (r: seq<Json>)
    ensures |r| == |keys| && forall i :: 0 <= i < |keys| ==> r[i] == JStr("%" + ToText(Index(filters, keys[i])) + "%")
  {
    seq(|keys|, i requires 0 <= i < |keys| => JStr("%" + ToText(Index(filters, keys[i])) + "%"))
  }

  function Where(conditions: seq<string>): string
  {
    if conditions == [] then "" else " WHERE " + Join(conditions, " AND ")
  }

  function Ss(n: nat): (r: string)
    ensures |r| == n && forall i :: 0 <= i < n ==> r[i] == 's'
  {
    seq(n, i => 's')
  }

  /** The filter part of the select: the WHERE clause, the LIKE parameters and
      their type letters. */
  datatype FilterPart = FilterPart(whereClause: string, params: seq<Json>, types: string)

  /** Reference definition of the filter builder on the payload. */
  function FilterSpec(payload: Json): FilterPart
  {
    var filters := Index(payload, "filters");
    var active := ActiveFilters(filters, FILTER_KEYS);
    FilterPart(Where(Conditions(active)), LikeParams(filters, active), Ss(|active|))
  }

  /** The builder keeps conditions, parameters and type letters in lock step:
      one of each per non-empty filter among the three, in order; the WHERE
      clause is empty exactly when no filter is set. */
  lemma FilterSpecFacts(payload: Json)
    ensures var f := FilterSpec(payload); var filters := Index(payload, "filters");
      && |f.params| == |f.types| <= 3
      && (forall i :: 0 <= i < |f.types| ==> f.types[i] == 's')
      && (f.whereClause == "" <==> f.params == [])
      && (f.params == [] <==> forall k :: k in FILTER_KEYS ==> Empty(Index(filters, k)))
      && (Empty(filters) ==> f.params == [])
  {
    var filters := Index(payload, "filters");
    var active := ActiveFilters(filters, FILTER_KEYS);
    forall k ensures k in active <==> k in FILTER_KEYS && !Empty(Index(filters, k)) {
      ActiveFiltersMembers(filters, FILTER_KEYS, k);
    }
    if active != [] {
      assert active[0] in active;
    }
  }

  lemma FilterSnoc(filters: Json, keys: seq<string>, k: string)
    ensures Conditions(keys + [k]) == Conditions(keys) + [Condition(k)]
    ensures LikeParams(filters, keys + [k]) == LikeParams(filters, keys) + [JStr("%" + ToText(Index(filters, k)) + "%")]
    ensures Ss(|keys| + 1) == Ss(|keys|) + "s"
  {
  }

  /** The three filters taken in turn. */
  lemma ActiveFiltersUnfold(filters: Json)
    ensures ActiveFilters(filters, FILTER_KEYS) ==
      (if !Empty(Index(filters, "utm_source")) then ["utm_source"] else []) +
      (if !Empty(Index(filters, "utm_medium")) then ["utm_medium"] else []) +
      (if !Empty(Index(filters, "utm_campaign")) then ["utm_campaign"] else [])
  {
    assert FILTER_KEYS[1..] == ["utm_medium", "utm_campaign"];
    assert FILTER_KEYS[1..][1..] == ["utm_campaign"];
    assert FILTER_KEYS[1..][1..][1..] == [];
  }

  /** One `if (!empty($filters[k]))` step of the builder. */
  method AddFilter(filters: Json, conditions: seq<string>, params: seq<Json>, types: string,
                   ghost taken: seq<string>, k: string)
    returns (conditions': seq<string>, params': seq<Json>, types': string)
    requires conditions == Conditions(taken) && params == LikeParams(filters, taken) && types == Ss(|taken|)
    ensures var taken' := taken + (if !Empty(Index(filters, k)) then [k] else []);
      conditions' == Conditions(taken') && params' == LikeParams(filters, taken') && types' == Ss(|taken'|)
  {
    conditions', params', types' := conditions, params, types;
    if !Empty(Index(filters, k)) {
      FilterSnoc(filters, taken, k);
      conditions' := conditions + [k + " LIKE ?"];
      params' := params + [JStr("%" + ToText(Index(filters, k)) + "%")];
      types' := types + "s";
    } else {
      assert taken + [] == taken;
    }
  }

  /** The imperative builder of the WHERE clause. */
  method BuildFilters(payload: Json) returns (whereClause: string, filterParams: seq<Json>, filterTypes: string)
    ensures FilterPart(whereClause, filterParams, filterTypes) == FilterSpec(payload)
  {
    var filters := Index(payload, "filters");
    whereClause := "";
    filterParams := [];
    filterTypes := "";
    if !Empty(filters) {
      var conditions;
      conditions, filterParams, filterTypes := AddFilters(filters);
      if conditions != [] {
        whereClause := " WHERE " + Join(conditions, " AND ");
      }
      assert whereClause == Where(conditions);
    } else {
      ActiveFiltersUnfold(filters);
      assert ActiveFilters(filters, FILTER_KEYS) == [];
      assert Ss(0) == "" && Conditions([]) == [] && LikeParams(filters, []) == [];
    }
  }

  /** The three `if (!empty($filters[k]))` steps of the builder, in order. */
  method AddFilters(filters: Json) returns (conditions: seq<string>, params: seq<Json>, types: string)
    ensures var active := ActiveFilters(filters, FILTER_KEYS);
      conditions == Conditions(active) && params == LikeParams(filters, active) && types == Ss(|active|)
  {
    conditions, params, types := [], [], "";
    ActiveFiltersUnfold(filters);
    ghost var t0: seq<string> := [];
    ghost var t1 := t0 + (if !Empty(Index(filters, "utm_source")) then ["utm_source"] else []);
    ghost var t2 := t1 + (if !Empty(Index(filters, "utm_medium")) then ["utm_medium"] else []);
    ghost var t3 := t2 + (if !Empty(Index(filters, "utm_campaign")) then ["utm_campaign"] else []);
    assert t3 == ActiveFilters(filters, FILTER_KEYS);
    conditions, params, types := AddFilter(filters, conditions, params, types, t0, "utm_source");
    conditions, params, types := AddFilter(filters, conditions, params, types, t1, "utm_medium");
    conditions, params, types := AddFilter(filters, conditions, params, types, t2, "utm_campaign");
  }

  // ----- get_onboardings: rows -----

  /** A `mysqli_result`: its rows and the read position. */
  class ResultSet {
    const rows: seq<Json>
    var next: nat

    constructor(rows: seq<Json>)
      ensures this.rows == rows && next == 0
    {
      this.rows := rows;
      next := 0;
    }

    /** `fetch_assoc()`: the next row, or null after the last. */
    method FetchAssoc() returns (row: Option<Json>)
      modifies this
      ensures old(next) < |rows| ==> row == Some(rows[old(next)]) && next == old(next) + 1
      ensures old(next) >= |rows| ==> row.None? && next == old(next)
    {
      if next < |rows| {
        row := Some(rows[next]);
        next := next + 1;
      } else {
        row := None;
      }
    }
  }

  /** `while ($row = $result->fetch_assoc()) $onboardings[] = $row;` on a
      fresh result: every row, in order. */
  method CollectRows(rows: seq<Json>) returns (onboardings: seq<Json>)
    ensures onboardings == rows
  {
    var result := new ResultSet(rows);
    onboardings := [];
    var row := result.FetchAssoc();
    while row.Some?
      invariant result.rows == rows && result.next <= |rows|
      invariant row.Some? ==> result.next >= 1 && onboardings + [row.value] == rows[..result.next]
      invariant row.None? ==> result.next == |rows| && onboardings == rows[..result.next]
      decreases |rows| - result.next + (if row.Some? then 1 else 0)
    {
      onboardings := onboardings + [row.value];
      row := result.FetchAssoc();
    }
    assert rows[..|rows|] == rows;
  }

  // ----- get_onboardings: the whole case -----

  function SelectSql(whereClause: string): string
  {
    "SELECT * FROM onboardings" + whereClause + " ORDER BY id DESC LIMIT ? OFFSET ?"
  }

  function PaginationJson(page: int, limit: int, total: nat): Json
  {
    JObj(map["page" := JInt(page), "limit" := JInt(limit), "total" := JInt(total), "pages" := JInt(Pages(total, limit))])
  }

  function ListingJson(rows: seq<Json>, pagination: Json): Json
  {
    JObj(map["success" := JBool(true), "data" := JArr(rows), "pagination" := pagination])
  }

  /** Reference definition of the `get_onboardings` case. */
  function OnboardingsSpec(payload: Json, db: DbOutcome): (Response, Effect)
  {
    if db.connectError.Some? then
      (Response(500, ErrorBody("Database connection failed: Connection failed: " + db.connectError.value)), NoEffect)
    else
      var page := PageOf(payload);
      var limit := LimitOf(payload);
      var total := db.total.GetOr(0);
      var f := FilterSpec(payload);
      if db.prepareError.Some? then
        (Response(500, ErrorBody("Database error: Prepare failed: " + db.prepareError.value)), NoEffect)
      else
        var stmt := Statement(SelectSql(f.whereClause), f.types + "ii", f.params + [JInt(limit), JInt(OffsetOf(payload))]);
        if db.executeError.Some? then
          (Response(500, ErrorBody("Database error: Execute failed: " + db.executeError.value)), Bound(stmt))
        else
          (Response(200, JsonBody(ListingJson(db.rows, PaginationJson(page, limit, total)))), Bound(stmt))
  }

  /** The bound select has one type letter per parameter, the LIKE parameters
      first and `ii` for the limit and the offset last; the page count uses
      the unfiltered total, so it is the same whatever the filters. */
  lemma OnboardingsSpecFacts(payload: Json, db: DbOutcome)
    requires db.connectError.None? && db.prepareError.None?
    ensures var (resp, effect) := OnboardingsSpec(payload, db);
      && effect.Bound?
      && |effect.stmt.types| == |effect.stmt.params| == |FilterSpec(payload).params| + 2
      && effect.stmt.types[|effect.stmt.types| - 2..] == "ii"
      && effect.stmt.params[|effect.stmt.params| - 2..] == [JInt(LimitOf(payload)), JInt(OffsetOf(payload))]
      && (db.executeError.None? ==>
            resp.status == 200 && resp.body.value.fields["pagination"] ==
            PaginationJson(PageOf(payload), LimitOf(payload), db.total.GetOr(0)))
  {
    FilterSpecFacts(payload);
  }

  /** The `get_onboardings` case. */
  method HandleGetOnboardings(payload: Json, db: DbOutcome) returns (response: Response, effect: Effect)
    ensures (response, effect) == OnboardingsSpec(payload, db)
  {
    if db.connectError.Some? {
      return Response(500, ErrorBody("Database connection failed: Connection failed: " + db.connectError.value)), NoEffect;
    }
    var page := PageOf(payload);
    var limit := LimitOf(payload);
    var offset := (page - 1) * limit;
    var total := if db.total.Some? then db.total.value else 0;
    var whereClause, filterParams, filterTypes := BuildFilters(payload);
    var query := "SELECT * FROM onboardings" + whereClause + " ORDER BY id DESC LIMIT ? OFFSET ?";
    if db.prepareError.Some? {
      return Response(500, ErrorBody("Database error: Prepare failed: " + db.prepareError.value)), NoEffect;
    }
    FilterSpecFacts(payload);
    assert FilterPart(whereClause, filterParams, filterTypes) == FilterSpec(payload);
    var stmt: Statement;
    if filterParams != [] {
      var allParams := filterParams + [JInt(limit), JInt(offset)];
      stmt := Statement(query, filterTypes + "ii", allParams);
    } else {
      assert filterTypes + "ii" == "ii" && filterParams + [JInt(limit), JInt(offset)] == [JInt(limit), JInt(offset)];
      stmt := Statement(query, "ii", [JInt(limit), JInt(offset)]);
    }
    effect := Bound(stmt);
    assert stmt == Statement(SelectSql(whereClause), filterTypes + "ii", filterParams + [JInt(limit), JInt(offset)]);
    if db.executeError.Some? {
      return Response(500, ErrorBody("Database error: Execute failed: " + db.executeError.value)), effect;
    }
    var onboardings := CollectRows(db.rows);
    response := Response(200, JsonBody(ListingJson(onboardings, PaginationJson(page, limit, total))));
  }

  // ----- inserts -----

  /** The fifteen values bound for `onboarding`, in column order: the ten
      form fields as sent (null when missing), then the five utm values, each
      `''` when not set. */
  function OnboardingParams(payload: Json): (r: seq<Json>)
    ensures |r| == 15
    ensures forall i :: 10 <= i < 15 ==> r[i] != JNull
  {
    [ Index(payload, "companyName"), Index(payload, "industry"), Index(payload, "companySize"),
      Index(payload, "companyWebsite"), Index(payload, "firstName"), Index(payload, "lastName"),
      Index(payload, "email"), Index(payload, "phoneNumber"), Index(payload, "jobTitle"),
      Index(payload, "customDomain"),
      OrEmpty(payload, "utm_source"), OrEmpty(payload, "utm_medium"), OrEmpty(payload, "utm_campaign"),
      OrEmpty(payload, "utm_term"), OrEmpty(payload, "utm_content") ]
  }

  /** The eleven values bound for `contact`, in column order; the utm values
      and `source` default to `''`. */
  function ContactParams(payload: Json): (r: seq<Json>)
    ensures |r| == 11
    ensures forall i :: 4 <= i < 10 ==> r[i] != JNull
  {
    [ Index(payload, "name"), Index(payload, "email"), Index(payload, "phone"), Index(payload, "message"),
      OrEmpty(payload, "utm_source"), OrEmpty(payload, "utm_medium"), OrEmpty(payload, "utm_campaign"),
      OrEmpty(payload, "utm_term"), OrEmpty(payload, "utm_content"), OrEmpty(payload, "source"),
      Index(payload, "submitted_at") ]
  }

  /** A database insert case: connect, prepare, bind, execute, answer. */
  function InsertCase(sql: string, params: seq<Json>, successMessage: string, db: DbOutcome): (r: (Response, Effect))
    ensures db.connectError.Some? ==> r == (Response(500, ErrorBody("Database connection failed: Connection failed: " + db.connectError.value)), NoEffect)
    ensures db.connectError.None? && db.prepareError.Some? ==>
      r == (Response(500, ErrorBody("Database error: Prepare failed: " + db.prepareError.value)), NoEffect)
    ensures db.connectError.None? && db.prepareError.None? ==> r.1 == Bound(Statement(sql, Ss(|params|), params))
    ensures r.0.status == 200 <==> db.connectError.None? && db.prepareError.None? && db.executeError.None?
    ensures r.0.status == 200 ==> r.0.body == JsonBody(JObj(map[
      "success" := JBool(true), "message" := JStr(successMessage), "id" := JInt(db.insertId)]))
  {
    if db.connectError.Some? then
      (Response(500, ErrorBody("Database connection failed: Connection failed: " + db.connectError.value)), NoEffect)
    else if db.prepareError.Some? then
      (Response(500, ErrorBody("Database error: Prepare failed: " + db.prepareError.value)), NoEffect)
    else
      var stmt := Statement(sql, Ss(|params|), params);
      if db.executeError.Some? then
        (Response(500, ErrorBody("Database error: Execute failed: " + db.executeError.value)), Bound(stmt))
      else
        (Response(200, JsonBody(JObj(map[
           "success" := JBool(true), "message" := JStr(successMessage), "id" := JInt(db.insertId)]))),
         Bound(stmt))
  }

  // ----- the endpoint -----

  /** The whole script, given the request, the database and the curl outcome. */
  method HandleRequest(request: Request, db: DbOutcome, curl: CurlOutcome) returns (response: Response, effect: Effect)
    ensures request.verb == "OPTIONS" ==> response == Response(200, NoBody) && effect == NoEffect
    ensures request.verb != "OPTIONS" && !ValidEnvelope(request.body) ==>
      response == Response(400, ErrorBody("Invalid request")) && effect == NoEffect
    ensures request.verb != "OPTIONS" && ValidEnvelope(request.body) ==>
      var payload := Index(request.body, "payload");
      match SwitchCase(Index(request.body, "service"))
      case Unknown => response == Response(400, ErrorBody("Unknown service")) && effect == NoEffect
      case GetOnboardings => (response, effect) == OnboardingsSpec(payload, db)
      case Onboarding =>
        (response, effect) == InsertCase(ONBOARDING_INSERT, OnboardingParams(payload), "Data saved successfully", db)
      case Contact =>
        (response, effect) == InsertCase(CONTACT_INSERT, ContactParams(payload), "Contact form submitted successfully", db)
      case SiteRelic =>
        response == Relay(curl) && effect == Requested(Outbound(Fixed(SITERELIC_URL), SITERELIC_HEADERS, JsonEncoded(payload)))
      case Ansible =>
        response == Relay(curl) && effect == Requested(Outbound(Fixed(JENKINS_URL), JENKINS_HEADERS, FormEncoded(payload)))
      case GoogleDns =>
        if IsSet(payload, "name") && IsSet(payload, "type") then
          response == Relay(curl) &&
          effect == Requested(Outbound(GoogleResolve(ToText(Index(payload, "name")), ToText(Index(payload, "type"))), [], NoFields))
        else
          response == Response(400, ErrorBody("Invalid payload for Google DNS API")) && effect == NoEffect
  {
    if request.verb == "OPTIONS" {
      return Response(200, NoBody), NoEffect;
    }
    var requestData := request.body;
    if !IsSet(requestData, "service") || !IsSet(requestData, "payload") {
      return Response(400, ErrorBody("Invalid request")), NoEffect;
    }
    var service := Index(requestData, "service");
    var payload := Index(requestData, "payload");
    var url: Url;
    var headers: seq<string>;
    var fields: PostFields;
    match SwitchCase(service) {
      case GetOnboardings =>
        response, effect := HandleGetOnboardings(payload, db);
        return;
      case Onboarding =>
        var outcome := InsertCase(ONBOARDING_INSERT, OnboardingParams(payload), "Data saved successfully", db);
        response, effect := outcome.0, outcome.1;
        return;
      case SiteRelic =>
        url := Fixed(SITERELIC_URL);
        headers := SITERELIC_HEADERS;
        fields := JsonEncoded(payload);
      case Ansible =>
        url := Fixed(JENKINS_URL);
        headers := JENKINS_HEADERS;
        fields := FormEncoded(payload);
      case Contact =>
        var outcome := InsertCase(CONTACT_INSERT, ContactParams(payload), "Contact form submitted successfully", db);
        response, effect := outcome.0, outcome.1;
        return;
      case GoogleDns =>
        if !IsSet(payload, "name") || !IsSet(payload, "type") {
          return Response(400, ErrorBody("Invalid payload for Google DNS API")), NoEffect;
        }
        url := GoogleResolve(ToText(Index(payload, "name")), ToText(Index(payload, "type")));
        headers := [];
        fields := NoFields;
      case Unknown =>
        return Response(400, ErrorBody("Unknown service")), NoEffect;
    }
    effect := Requested(Outbound(url, headers, fields));
    response := Relay(curl);
  }

  /** The database-backed cases never reach the curl tail, and the relayed
      ones always do (the Google case once its guard passes). */
  lemma OnlyRemoteCasesRequest(service: Service, payload: Json, db: DbOutcome)
    ensures service in {GetOnboardings, Onboarding, Contact} ==>
      var e := if service == GetOnboardings then OnboardingsSpec(payload, db).1
               else if service == Onboarding then InsertCase(ONBOARDING_INSERT, OnboardingParams(payload), "Data saved successfully", db).1
               else InsertCase(CONTACT_INSERT, ContactParams(payload), "Contact form submitted successfully", db).1;
      !e.Requested?
  {
  }
}
