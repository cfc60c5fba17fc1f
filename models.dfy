/**
 * The response records of the API and their construction from parsed JSON.
 *
 * Each record is built from the keys of a JSON object, as the source's
 * schema classes are built from keyword arguments: a required field must be
 * present with a value of its type, an absent (or null) optional scalar or
 * sub-record becomes `None`, and an absent list field becomes `[]`. Keys
 * that the record does not name are ignored.
 */
module Models {
  import opened Wrappers
  import opened Json

  /** Why a record could not be built: the record's own field that failed. */
  datatype SchemaError = Missing(field: string) | Invalid(field: string)

  // ---------------------------------------------------------------------
  // Records

  datatype EmailSource = EmailSource(
    domain: string,
    uri: string,
    extractedOn: string,
    lastSeenOn: string,
    stillOnPage: bool)

  datatype EmailVerification = EmailVerification(
    date: Option<string>,
    status: Option<string>)

  datatype Email = Email(
    value: string,
    emailType: string,
    confidence: int,
    sources: seq<EmailSource>,
    firstName: Option<string>,
    lastName: Option<string>,
    position: Option<string>,
    seniority: Option<string>,
    department: Option<string>,
    linkedin: Option<string>,
    twitter: Option<string>,
    phoneNumber: Option<string>,
    verification: Option<EmailVerification>)

  datatype DomainSearchData = DomainSearchData(
    domain: string,
    disposable: bool,
    webmail: bool,
    acceptAll: bool,
    pattern: Option<string>,
    organization: Option<string>,
    description: Option<string>,
    industry: Option<string>,
    twitter: Option<string>,
    facebook: Option<string>,
    linkedin: Option<string>,
    instagram: Option<string>,
    youtube: Option<string>,
    technologies: seq<string>,
    country: Option<string>,
    state: Option<string>,
    city: Option<string>,
    postalCode: Option<string>,
    street: Option<string>,
    headcount: Option<string>,
    companyType: Option<string>,
    emails: seq<Email>,
    linkedDomains: seq<string>)

  datatype MetaParams = MetaParams(
    domain: Option<string>,
    company: Option<string>,
    emailType: Option<string>,
    seniority: Option<string>,
    department: Option<string>,
    firstName: Option<string>,
    lastName: Option<string>,
    fullName: Option<string>,
    email: Option<string>)

  datatype Meta = Meta(
    results: Option<int>,
    limit: Option<int>,
    offset: Option<int>,
    params: Option<MetaParams>)

  datatype DomainSearchResponse = DomainSearchResponse(data: DomainSearchData, meta: Meta)

  datatype EmailFinderData = EmailFinderData(
    firstName: string,
    lastName: string,
    email: string,
    score: int,
    domain: string,
    acceptAll: bool,
    position: Option<string>,
    twitter: Option<string>,
    linkedinUrl: Option<string>,
    phoneNumber: Option<string>,
    company: Option<string>,
    sources: seq<EmailSource>,
    verification: Option<EmailVerification>)

  datatype EmailFinderResponse = EmailFinderResponse(data: EmailFinderData, meta: Meta)

  datatype EmailVerificationData = EmailVerificationData(
    status: string,
    result: string,
    score: int,
    email: string,
    regexp: bool,
    gibberish: bool,
    disposable: bool,
    webmail: bool,
    mxRecords: bool,
    smtpServer: bool,
    smtpCheck: bool,
    acceptAll: bool,
    block: bool,
    sources: seq<EmailSource>)

  datatype EmailVerificationResponse = EmailVerificationResponse(data: EmailVerificationData, meta: Meta)

  // ---------------------------------------------------------------------
  // The keys each record demands

  const EmailSourceRequired: set<string> :=
    {"domain", "uri", "extracted_on", "last_seen_on", "still_on_page"}
  const EmailRequired: set<string> := {"value", "type", "confidence"}
  const DomainSearchDataRequired: set<string> := {"domain", "disposable", "webmail", "accept_all"}
  const EmailFinderDataRequired: set<string> :=
    {"first_name", "last_name", "email", "score", "domain", "accept_all"}
  const EmailVerificationDataRequired: set<string> :=
    {"status", "result", "score", "email", "regexp", "gibberish", "disposable", "webmail",
     "mx_records", "smtp_server", "smtp_check", "accept_all", "block"}

  // ---------------------------------------------------------------------
  // Scalar conversions: exact JSON types, no coercion

  function AsString(j: Json): Option<string> {
    if j.JString? then Some(j.str) else None
  }

  function AsInt(j: Json): Option<int> {
    if j.JInt? then Some(j.i) else None
  }

  function AsBool(j: Json): Option<bool> {
    if j.JBool? then Some(j.b) else None
  }

  // ---------------------------------------------------------------------
  // Which values a field accepts, and what a decoded field holds

  /** A required field is present and has the declared type. */
  predicate RequiredOk<T>(m: Fields, key: string, conv: Json -> Option<T>) {
    key in m && conv(m[key]).Some?
  }

  /** An optional field is absent, null, or has the declared type. */
  predicate OptionalOk<T>(m: Fields, key: string, conv: Json -> Option<T>) {
    key !in m || m[key] == JNull || conv(m[key]).Some?
  }

  /** A list field is absent, or an array whose every item has the declared type. */
  predicate ListOk<T>(m: Fields, key: string, conv: Json -> Option<T>) {
    key !in m || (m[key].JArray? && Each(m[key].items, conv).Some?)
  }

  /** An optional field holds what the object's value converts to, `None` for absent or null. */
  ghost predicate KeptOptional<T>(m: Fields, key: string, conv: Json -> Option<T>, v: Option<T>) {
    match v
    case None => key !in m || m[key] == JNull
    case Some(x) => key in m && conv(m[key]) == Some(x)
  }

  /** A list field holds the object's array item by item, `[]` when the key is absent. */
  ghost predicate KeptList<T>(m: Fields, key: string, conv: Json -> Option<T>, v: seq<T>) {
    if key in m then m[key].JArray? && Each(m[key].items, conv) == Some(v) else v == []
  }

  // ---------------------------------------------------------------------
  // Field kinds

  /** A field without a default: it must be present and convert. */
  function Required<T>(m: Fields, key: string, conv: Json -> Option<T>): (r: Result<T, SchemaError>)
    ensures r.Success? <==> RequiredOk(m, key, conv)
    ensures r.Success? ==> conv(m[key]) == Some(r.value)
    ensures key !in m ==> r == Failure(Missing(key))
    ensures key in m && r.Failure? ==> r == Failure(Invalid(key))
  {
    if key !in m then Failure(Missing(key))
    else
      match conv(m[key])
      case Some(v) => Success(v)
      case None => Failure(Invalid(key))
  }

  /** An `Optional[...] = None` field: absent or null gives `None`. */
  function Optional<T>(m: Fields, key: string, conv: Json -> Option<T>): (r: Result<Option<T>, SchemaError>)
    ensures key !in m || m[key] == JNull ==> r == Success(None)
    ensures r.Success? <==> OptionalOk(m, key, conv)
    ensures r.Success? && r.value.Some? ==> key in m && conv(m[key]) == r.value
    ensures r.Failure? ==> r == Failure(Invalid(key))
    ensures r.Success? ==> KeptOptional(m, key, conv, r.value)
  {
    if key !in m || m[key] == JNull then Success(None)
    else
      match conv(m[key])
      case Some(v) => Success(Some(v))
      case None => Failure(Invalid(key))
  }

  /** Converts every item of a JSON array, failing if any item fails. */
  function Each<T>(xs: seq<Json>, conv: Json -> Option<T>): (r: Option<seq<T>>)
    ensures r.Some? <==> forall i :: 0 <= i < |xs| ==> conv(xs[i]).Some?
    ensures r.Some? ==> |r.value| == |xs| && forall i :: 0 <= i < |xs| ==> conv(xs[i]) == Some(r.value[i])
    decreases |xs|
  {
    if xs == [] then Some([])
    else
      match conv(xs[0])
      case None => None
      case Some(head) =>
        match Each(xs[1..], conv)
        case None => None
        case Some(tail) => Some([head] + tail)
  }

  /** A `List[...] = Field(default_factory=list)` field: absent gives `[]`. */
  function ListOf<T>(m: Fields, key: string, conv: Json -> Option<T>): (r: Result<seq<T>, SchemaError>)
    ensures key !in m ==> r == Success([])
    ensures key in m ==> (r.Success? <==> m[key].JArray? && Each(m[key].items, conv).Some?)
    ensures key in m && r.Success? ==> Each(m[key].items, conv) == Some(r.value)
    ensures r.Failure? ==> r == Failure(Invalid(key))
    ensures r.Success? <==> ListOk(m, key, conv)
    ensures r.Success? ==> KeptList(m, key, conv, r.value)
  {
    if key !in m then Success([])
    else if !m[key].JArray? then Failure(Invalid(key))
    else
      match Each(m[key].items, conv)
      case Some(vs) => Success(vs)
      case None => Failure(Invalid(key))
  }

  /** A sub-record given as a JSON object. */
  function AsRecord<T>(j: Json, decode: Fields -> Result<T, SchemaError>): Option<T> {
    if !j.JObject? then None
    else
      match decode(j.obj)
      case Success(v) => Some(v)
      case Failure(_) => None
  }

  // ---------------------------------------------------------------------
  // The objects each record accepts: every field of the record is acceptable

  predicate EmailSourceOk(m: Fields) {
    && RequiredOk(m, "domain", AsString) && RequiredOk(m, "uri", AsString)
    && RequiredOk(m, "extracted_on", AsString) && RequiredOk(m, "last_seen_on", AsString)
    && RequiredOk(m, "still_on_page", AsBool)
  }

  predicate EmailVerificationOk(m: Fields) {
    OptionalOk(m, "date", AsString) && OptionalOk(m, "status", AsString)
  }

  predicate EmailOk(m: Fields) {
    && RequiredOk(m, "value", AsString) && RequiredOk(m, "type", AsString)
    && RequiredOk(m, "confidence", AsInt) && ListOk(m, "sources", AsEmailSource)
    && OptionalOk(m, "first_name", AsString) && OptionalOk(m, "last_name", AsString)
    && OptionalOk(m, "position", AsString) && OptionalOk(m, "seniority", AsString)
    && OptionalOk(m, "department", AsString) && OptionalOk(m, "linkedin", AsString)
    && OptionalOk(m, "twitter", AsString) && OptionalOk(m, "phone_number", AsString)
    && OptionalOk(m, "verification", AsEmailVerification)
  }

  predicate DomainSearchDataOk(m: Fields) {
    && RequiredOk(m, "domain", AsString) && RequiredOk(m, "disposable", AsBool)
    && RequiredOk(m, "webmail", AsBool) && RequiredOk(m, "accept_all", AsBool)
    && OptionalOk(m, "pattern", AsString) && OptionalOk(m, "organization", AsString)
    && OptionalOk(m, "description", AsString) && OptionalOk(m, "industry", AsString)
    && OptionalOk(m, "twitter", AsString) && OptionalOk(m, "facebook", AsString)
    && OptionalOk(m, "linkedin", AsString) && OptionalOk(m, "instagram", AsString)
    && OptionalOk(m, "youtube", AsString) && ListOk(m, "technologies", AsString)
    && OptionalOk(m, "country", AsString) && OptionalOk(m, "state", AsString)
    && OptionalOk(m, "city", AsString) && OptionalOk(m, "postal_code", AsString)
    && OptionalOk(m, "street", AsString) && OptionalOk(m, "headcount", AsString)
    && OptionalOk(m, "company_type", AsString) && ListOk(m, "emails", AsEmail)
    && ListOk(m, "linked_domains", AsString)
  }

  predicate MetaParamsOk(m: Fields) {
    && OptionalOk(m, "domain", AsString) && OptionalOk(m, "company", AsString)
    && OptionalOk(m, "type", AsString) && OptionalOk(m, "seniority", AsString)
    && OptionalOk(m, "department", AsString) && OptionalOk(m, "first_name", AsString)
    && OptionalOk(m, "last_name", AsString) && OptionalOk(m, "full_name", AsString)
    && OptionalOk(m, "email", AsString)
  }

  predicate MetaOk(m: Fields) {
    && OptionalOk(m, "results", AsInt) && OptionalOk(m, "limit", AsInt)
    && OptionalOk(m, "offset", AsInt) && OptionalOk(m, "params", AsMetaParams)
  }

  predicate EmailFinderDataOk(m: Fields) {
    && RequiredOk(m, "first_name", AsString) && RequiredOk(m, "last_name", AsString)
    && RequiredOk(m, "email", AsString) && RequiredOk(m, "score", AsInt)
    && RequiredOk(m, "domain", AsString) && RequiredOk(m, "accept_all", AsBool)
    && OptionalOk(m, "position", AsString) && OptionalOk(m, "twitter", AsString)
    && OptionalOk(m, "linkedin_url", AsString) && OptionalOk(m, "phone_number", AsString)
    && OptionalOk(m, "company", AsString) && ListOk(m, "sources", AsEmailSource)
    && OptionalOk(m, "verification", AsEmailVerification)
  }

  predicate EmailVerificationDataOk(m: Fields) {
    && RequiredOk(m, "status", AsString) && RequiredOk(m, "result", AsString)
    && RequiredOk(m, "score", AsInt) && RequiredOk(m, "email", AsString)
    && RequiredOk(m, "regexp", AsBool) && RequiredOk(m, "gibberish", AsBool)
    && RequiredOk(m, "disposable", AsBool) && RequiredOk(m, "webmail", AsBool)
    && RequiredOk(m, "mx_records", AsBool) && RequiredOk(m, "smtp_server", AsBool)
    && RequiredOk(m, "smtp_check", AsBool) && RequiredOk(m, "accept_all", AsBool)
    && RequiredOk(m, "block", AsBool) && ListOk(m, "sources", AsEmailSource)
  }

  // ---------------------------------------------------------------------
  // Decoders

  function DecodeEmailSource(m: Fields): (r: Result<EmailSource, SchemaError>)
    ensures r.Success? <==> EmailSourceOk(m)
    ensures r.Success? ==> EmailSourceRequired <= m.Keys
    ensures r.Success? ==> m["domain"] == JString(r.value.domain) && m["uri"] == JString(r.value.uri)
    ensures r.Success? ==> m["extracted_on"] == JString(r.value.extractedOn)
    ensures r.Success? ==> m["last_seen_on"] == JString(r.value.lastSeenOn)
    ensures r.Success? ==> m["still_on_page"] == JBool(r.value.stillOnPage)
  {
    var domain :- Required(m, "domain", AsString);
    var uri :- Required(m, "uri", AsString);
    var extractedOn :- Required(m, "extracted_on", AsString);
    var lastSeenOn :- Required(m, "last_seen_on", AsString);
    var stillOnPage :- Required(m, "still_on_page", AsBool);
    Success(EmailSource(domain, uri, extractedOn, lastSeenOn, stillOnPage))
  }

  function AsEmailSource(j: Json): Option<EmailSource> {
    AsRecord(j, DecodeEmailSource)
  }

  function DecodeEmailVerification(m: Fields): (r: Result<EmailVerification, SchemaError>)
    ensures r.Success? <==> EmailVerificationOk(m)
    ensures (forall k :: k in m ==> m[k] == JNull || m[k].JString?) ==> r.Success?
    ensures r.Success? ==> KeptOptional(m, "date", AsString, r.value.date) && KeptOptional(m, "status", AsString, r.value.status)
  {
    var date :- Optional(m, "date", AsString);
    var status :- Optional(m, "status", AsString);
    Success(EmailVerification(date, status))
  }

  function AsEmailVerification(j: Json): Option<EmailVerification> {
    AsRecord(j, DecodeEmailVerification)
  }

  function DecodeEmail(m: Fields): (r: Result<Email, SchemaError>)
    ensures r.Success? <==> EmailOk(m)
    ensures r.Success? ==> EmailRequired <= m.Keys
    ensures r.Success? ==> m["value"] == JString(r.value.value) && m["type"] == JString(r.value.emailType)
    ensures r.Success? ==> m["confidence"] == JInt(r.value.confidence)
    ensures r.Success? ==> KeptList(m, "sources", AsEmailSource, r.value.sources)
    ensures r.Success? ==> KeptOptional(m, "first_name", AsString, r.value.firstName) && KeptOptional(m, "last_name", AsString, r.value.lastName)
    ensures r.Success? ==> KeptOptional(m, "position", AsString, r.value.position) && KeptOptional(m, "seniority", AsString, r.value.seniority)
    ensures r.Success? ==> KeptOptional(m, "department", AsString, r.value.department) && KeptOptional(m, "linkedin", AsString, r.value.linkedin)
    ensures r.Success? ==> KeptOptional(m, "twitter", AsString, r.value.twitter) && KeptOptional(m, "phone_number", AsString, r.value.phoneNumber)
    ensures r.Success? ==> KeptOptional(m, "verification", AsEmailVerification, r.value.verification)
  {
    var value :- Required(m, "value", AsString);
    var emailType :- Required(m, "type", AsString);
    var confidence :- Required(m, "confidence", AsInt);
    var sources :- ListOf(m, "sources", AsEmailSource);
    var firstName :- Optional(m, "first_name", AsString);
    var lastName :- Optional(m, "last_name", AsString);
    var position :- Optional(m, "position", AsString);
    var seniority :- Optional(m, "seniority", AsString);
    var department :- Optional(m, "department", AsString);
    var linkedin :- Optional(m, "linkedin", AsString);
    var twitter :- Optional(m, "twitter", AsString);
    var phoneNumber :- Optional(m, "phone_number", AsString);
    var verification :- Optional(m, "verification", AsEmailVerification);
    Success(Email(value, emailType, confidence, sources, firstName, lastName, position,
                  seniority, department, linkedin, twitter, phoneNumber, verification))
  }

  function AsEmail(j: Json): Option<Email> {
    AsRecord(j, DecodeEmail)
  }

  function DecodeDomainSearchData(m: Fields): (r: Result<DomainSearchData, SchemaError>)
    ensures r.Success? <==> DomainSearchDataOk(m)
    ensures r.Success? ==> DomainSearchDataRequired <= m.Keys
    ensures r.Success? ==> m["domain"] == JString(r.value.domain) && m["disposable"] == JBool(r.value.disposable)
    ensures r.Success? ==> m["webmail"] == JBool(r.value.webmail) && m["accept_all"] == JBool(r.value.acceptAll)
    ensures r.Success? ==> KeptOptional(m, "pattern", AsString, r.value.pattern) && KeptOptional(m, "organization", AsString, r.value.organization)
    ensures r.Success? ==> KeptOptional(m, "description", AsString, r.value.description) && KeptOptional(m, "industry", AsString, r.value.industry)
    ensures r.Success? ==> KeptOptional(m, "twitter", AsString, r.value.twitter) && KeptOptional(m, "facebook", AsString, r.value.facebook)
    ensures r.Success? ==> KeptOptional(m, "linkedin", AsString, r.value.linkedin) && KeptOptional(m, "instagram", AsString, r.value.instagram)
    ensures r.Success? ==> KeptOptional(m, "youtube", AsString, r.value.youtube) && KeptOptional(m, "country", AsString, r.value.country)
    ensures r.Success? ==> KeptOptional(m, "state", AsString, r.value.state) && KeptOptional(m, "city", AsString, r.value.city)
    ensures r.Success? ==> KeptOptional(m, "postal_code", AsString, r.value.postalCode) && KeptOptional(m, "street", AsString, r.value.street)
    ensures r.Success? ==> KeptOptional(m, "headcount", AsString, r.value.headcount) && KeptOptional(m, "company_type", AsString, r.value.companyType)
    ensures r.Success? ==> KeptList(m, "technologies", AsString, r.value.technologies)
    ensures r.Success? ==> KeptList(m, "emails", AsEmail, r.value.emails)
    ensures r.Success? ==> KeptList(m, "linked_domains", AsString, r.value.linkedDomains)
  {
    var domain :- Required(m, "domain", AsString);
    var disposable :- Required(m, "disposable", AsBool);
    var webmail :- Required(m, "webmail", AsBool);
    var acceptAll :- Required(m, "accept_all", AsBool);
    var pattern :- Optional(m, "pattern", AsString);
    var organization :- Optional(m, "organization", AsString);
    var description :- Optional(m, "description", AsString);
    var industry :- Optional(m, "industry", AsString);
    var twitter :- Optional(m, "twitter", AsString);
    var facebook :- Optional(m, "facebook", AsString);
    var linkedin :- Optional(m, "linkedin", AsString);
    var instagram :- Optional(m, "instagram", AsString);
    var youtube :- Optional(m, "youtube", AsString);
    var technologies :- ListOf(m, "technologies", AsString);
    var country :- Optional(m, "country", AsString);
    var state :- Optional(m, "state", AsString);
    var city :- Optional(m, "city", AsString);
    var postalCode :- Optional(m, "postal_code", AsString);
    var street :- Optional(m, "street", AsString);
    var headcount :- Optional(m, "headcount", AsString);
    var companyType :- Optional(m, "company_type", AsString);
    var emails :- ListOf(m, "emails", AsEmail);
    var linkedDomains :- ListOf(m, "linked_domains", AsString);
    Success(DomainSearchData(domain, disposable, webmail, acceptAll, pattern, organization,
                             description, industry, twitter, facebook, linkedin, instagram,
                             youtube, technologies, country, state, city, postalCode, street,
                             headcount, companyType, emails, linkedDomains))
  }

  function AsDomainSearchData(j: Json): Option<DomainSearchData> {
    AsRecord(j, DecodeDomainSearchData)
  }

  function DecodeMetaParams(m: Fields): (r: Result<MetaParams, SchemaError>)
    ensures r.Success? <==> MetaParamsOk(m)
    ensures (forall k :: k in m ==> m[k] == JNull || m[k].JString?) ==> r.Success?
    ensures r.Success? ==> KeptOptional(m, "domain", AsString, r.value.domain) && KeptOptional(m, "company", AsString, r.value.company)
    ensures r.Success? ==> KeptOptional(m, "type", AsString, r.value.emailType) && KeptOptional(m, "seniority", AsString, r.value.seniority)
    ensures r.Success? ==> KeptOptional(m, "department", AsString, r.value.department) && KeptOptional(m, "email", AsString, r.value.email)
    ensures r.Success? ==> KeptOptional(m, "first_name", AsString, r.value.firstName) && KeptOptional(m, "last_name", AsString, r.value.lastName)
    ensures r.Success? ==> KeptOptional(m, "full_name", AsString, r.value.fullName)
  {
    var domain :- Optional(m, "domain", AsString);
    var company :- Optional(m, "company", AsString);
    var emailType :- Optional(m, "type", AsString);
    var seniority :- Optional(m, "seniority", AsString);
    var department :- Optional(m, "department", AsString);
    var firstName :- Optional(m, "first_name", AsString);
    var lastName :- Optional(m, "last_name", AsString);
    var fullName :- Optional(m, "full_name", AsString);
    var email :- Optional(m, "email", AsString);
    Success(MetaParams(domain, company, emailType, seniority, department, firstName, lastName,
                       fullName, email))
  }

  function AsMetaParams(j: Json): Option<MetaParams> {
    AsRecord(j, DecodeMetaParams)
  }

  function DecodeMeta(m: Fields): (r: Result<Meta, SchemaError>)
    ensures r.Success? <==> MetaOk(m)
    ensures ("params" !in m || m["params"] == JNull) && (forall k :: k in m && k != "params" ==> m[k] == JNull || m[k].JInt?)
      ==> r.Success?
    ensures r.Success? ==> KeptOptional(m, "results", AsInt, r.value.results)
    ensures r.Success? ==> KeptOptional(m, "limit", AsInt, r.value.limit) && KeptOptional(m, "offset", AsInt, r.value.offset)
    ensures r.Success? ==> (r.value.params.None? <==> "params" !in m || m["params"] == JNull)
    ensures r.Success? && r.value.params.Some? ==> AsMetaParams(m["params"]) == r.value.params
  {
    var results :- Optional(m, "results", AsInt);
    var limit :- Optional(m, "limit", AsInt);
    var offset :- Optional(m, "offset", AsInt);
    var params :- Optional(m, "params", AsMetaParams);
    Success(Meta(results, limit, offset, params))
  }

  function AsMeta(j: Json): Option<Meta> {
    AsRecord(j, DecodeMeta)
  }

  function DecodeDomainSearchResponse(m: Fields): (r: Result<DomainSearchResponse, SchemaError>)
    ensures r.Success? <==> "data" in m && "meta" in m && AsDomainSearchData(m["data"]).Some? && AsMeta(m["meta"]).Some?
    ensures r.Success? ==> Some(r.value.data) == AsDomainSearchData(m["data"]) && Some(r.value.meta) == AsMeta(m["meta"])
  {
    var data :- Required(m, "data", AsDomainSearchData);
    var meta :- Required(m, "meta", AsMeta);
    Success(DomainSearchResponse(data, meta))
  }

  function DecodeEmailFinderData(m: Fields): (r: Result<EmailFinderData, SchemaError>)
    ensures r.Success? <==> EmailFinderDataOk(m)
    ensures r.Success? ==> EmailFinderDataRequired <= m.Keys
    ensures r.Success? ==> m["first_name"] == JString(r.value.firstName) && m["last_name"] == JString(r.value.lastName)
    ensures r.Success? ==> m["email"] == JString(r.value.email) && m["score"] == JInt(r.value.score)
    ensures r.Success? ==> m["domain"] == JString(r.value.domain) && m["accept_all"] == JBool(r.value.acceptAll)
    ensures r.Success? ==> KeptOptional(m, "position", AsString, r.value.position) && KeptOptional(m, "twitter", AsString, r.value.twitter)
    ensures r.Success? ==> KeptOptional(m, "linkedin_url", AsString, r.value.linkedinUrl) && KeptOptional(m, "phone_number", AsString, r.value.phoneNumber)
    ensures r.Success? ==> KeptOptional(m, "company", AsString, r.value.company)
    ensures r.Success? ==> KeptList(m, "sources", AsEmailSource, r.value.sources)
    ensures r.Success? ==> KeptOptional(m, "verification", AsEmailVerification, r.value.verification)
  {
    var firstName :- Required(m, "first_name", AsString);
    var lastName :- Required(m, "last_name", AsString);
    var email :- Required(m, "email", AsString);
    var score :- Required(m, "score", AsInt);
    var domain :- Required(m, "domain", AsString);
    var acceptAll :- Required(m, "accept_all", AsBool);
    var position :- Optional(m, "position", AsString);
    var twitter :- Optional(m, "twitter", AsString);
    var linkedinUrl :- Optional(m, "linkedin_url", AsString);
    var phoneNumber :- Optional(m, "phone_number", AsString);
    var company :- Optional(m, "company", AsString);
    var sources :- ListOf(m, "sources", AsEmailSource);
    var verification :- Optional(m, "verification", AsEmailVerification);
    Success(EmailFinderData(firstName, lastName, email, score, domain, acceptAll, position,
                            twitter, linkedinUrl, phoneNumber, company, sources, verification))
  }

  function AsEmailFinderData(j: Json): Option<EmailFinderData> {
    AsRecord(j, DecodeEmailFinderData)
  }

  function DecodeEmailFinderResponse(m: Fields): (r: Result<EmailFinderResponse, SchemaError>)
    ensures r.Success? <==> "data" in m && "meta" in m && AsEmailFinderData(m["data"]).Some? && AsMeta(m["meta"]).Some?
    ensures r.Success? ==> Some(r.value.data) == AsEmailFinderData(m["data"]) && Some(r.value.meta) == AsMeta(m["meta"])
  {
    var data :- Required(m, "data", AsEmailFinderData);
    var meta :- Required(m, "meta", AsMeta);
    Success(EmailFinderResponse(data, meta))
  }

  function DecodeEmailVerificationData(m: Fields): (r: Result<EmailVerificationData, SchemaError>)
    ensures r.Success? <==> EmailVerificationDataOk(m)
    ensures r.Success? ==> EmailVerificationDataRequired <= m.Keys
    ensures r.Success? ==> m["status"] == JString(r.value.status) && m["result"] == JString(r.value.result)
    ensures r.Success? ==> m["score"] == JInt(r.value.score) && m["email"] == JString(r.value.email)
    ensures r.Success? ==> m["regexp"] == JBool(r.value.regexp) && m["gibberish"] == JBool(r.value.gibberish)
    ensures r.Success? ==> m["disposable"] == JBool(r.value.disposable) && m["webmail"] == JBool(r.value.webmail)
    ensures r.Success? ==> m["mx_records"] == JBool(r.value.mxRecords) && m["smtp_server"] == JBool(r.value.smtpServer)
    ensures r.Success? ==> m["smtp_check"] == JBool(r.value.smtpCheck) && m["accept_all"] == JBool(r.value.acceptAll)
    ensures r.Success? ==> m["block"] == JBool(r.value.block)
    ensures r.Success? ==> KeptList(m, "sources", AsEmailSource, r.value.sources)
  {
    var status :- Required(m, "status", AsString);
    var result :- Required(m, "result", AsString);
    var score :- Required(m, "score", AsInt);
    var email :- Required(m, "email", AsString);
    var regexp :- Required(m, "regexp", AsBool);
    var gibberish :- Required(m, "gibberish", AsBool);
    var disposable :- Required(m, "disposable", AsBool);
    var webmail :- Required(m, "webmail", AsBool);
    var mxRecords :- Required(m, "mx_records", AsBool);
    var smtpServer :- Required(m, "smtp_server", AsBool);
    var smtpCheck :- Required(m, "smtp_check", AsBool);
    var acceptAll :- Required(m, "accept_all", AsBool);
    var block :- Required(m, "block", AsBool);
    var sources :- ListOf(m, "sources", AsEmailSource);
    Success(EmailVerificationData(status, result, score, email, regexp, gibberish, disposable,
                                  webmail, mxRecords, smtpServer, smtpCheck, acceptAll, block,
                                  sources))
  }

  function AsEmailVerificationData(j: Json): Option<EmailVerificationData> {
    AsRecord(j, DecodeEmailVerificationData)
  }

  function DecodeEmailVerificationResponse(m: Fields): (r: Result<EmailVerificationResponse, SchemaError>)
    ensures r.Success? <==> "data" in m && "meta" in m && AsEmailVerificationData(m["data"]).Some? && AsMeta(m["meta"]).Some?
    ensures r.Success? ==> Some(r.value.data) == AsEmailVerificationData(m["data"]) && Some(r.value.meta) == AsMeta(m["meta"])
  {
    var data :- Required(m, "data", AsEmailVerificationData);
    var meta :- Required(m, "meta", AsMeta);
    Success(EmailVerificationResponse(data, meta))
  }
}
