/**
 * Properties of the response records: a reference encoder (the JSON a
 * record is dumped to, with `None` written as null) that decoding inverts,
 * and the defaults a minimal object decodes to.
 */
module ModelProperties {
  import opened Wrappers
  import opened Json
  import opened Models

  // ---------------------------------------------------------------------
  // Reference encoder

  function OptText(o: Option<string>): Json {
    match o
    case Some(s) => JString(s)
    case None => JNull
  }

  function OptNumber(o: Option<int>): Json {
    match o
    case Some(n) => JInt(n)
    case None => JNull
  }

  function Items<T>(xs: seq<T>, enc: T -> Json): (r: seq<Json>)
    ensures |r| == |xs| && forall i :: 0 <= i < |xs| ==> r[i] == enc(xs[i])
  {
    seq(|xs|, i requires 0 <= i < |xs| => enc(xs[i]))
  }

  function TextJson(s: string): Json {
    JString(s)
  }

  function EncodeEmailSource(x: EmailSource): Fields {
    map["domain" := JString(x.domain), "uri" := JString(x.uri),
        "extracted_on" := JString(x.extractedOn), "last_seen_on" := JString(x.lastSeenOn),
        "still_on_page" := JBool(x.stillOnPage)]
  }

  function EmailSourceJson(x: EmailSource): Json {
    JObject(EncodeEmailSource(x))
  }

  function EncodeEmailVerification(x: EmailVerification): Fields {
    map["date" := OptText(x.date), "status" := OptText(x.status)]
  }

  function OptVerification(o: Option<EmailVerification>): Json {
    match o
    case Some(v) => JObject(EncodeEmailVerification(v))
    case None => JNull
  }

  function EncodeEmail(x: Email): Fields {
    map["value" := JString(x.value), "type" := JString(x.emailType),
        "confidence" := JInt(x.confidence),
        "sources" := JArray(Items(x.sources, EmailSourceJson)),
        "first_name" := OptText(x.firstName), "last_name" := OptText(x.lastName),
        "position" := OptText(x.position), "seniority" := OptText(x.seniority),
        "department" := OptText(x.department), "linkedin" := OptText(x.linkedin),
        "twitter" := OptText(x.twitter), "phone_number" := OptText(x.phoneNumber),
        "verification" := OptVerification(x.verification)]
  }

  function EmailJson(x: Email): Json {
    JObject(EncodeEmail(x))
  }

  function EncodeDomainSearchData(x: DomainSearchData): Fields {
    map["domain" := JString(x.domain), "disposable" := JBool(x.disposable),
        "webmail" := JBool(x.webmail), "accept_all" := JBool(x.acceptAll),
        "pattern" := OptText(x.pattern), "organization" := OptText(x.organization),
        "description" := OptText(x.description), "industry" := OptText(x.industry),
        "twitter" := OptText(x.twitter), "facebook" := OptText(x.facebook),
        "linkedin" := OptText(x.linkedin), "instagram" := OptText(x.instagram),
        "youtube" := OptText(x.youtube),
        "technologies" := JArray(Items(x.technologies, TextJson)),
        "country" := OptText(x.country), "state" := OptText(x.state),
        "city" := OptText(x.city), "postal_code" := OptText(x.postalCode),
        "street" := OptText(x.street), "headcount" := OptText(x.headcount),
        "company_type" := OptText(x.companyType),
        "emails" := JArray(Items(x.emails, EmailJson)),
        "linked_domains" := JArray(Items(x.linkedDomains, TextJson))]
  }

  function EncodeMetaParams(x: MetaParams): Fields {
    map["domain" := OptText(x.domain), "company" := OptText(x.company),
        "type" := OptText(x.emailType), "seniority" := OptText(x.seniority),
        "department" := OptText(x.department), "first_name" := OptText(x.firstName),
        "last_name" := OptText(x.lastName), "full_name" := OptText(x.fullName),
        "email" := OptText(x.email)]
  }

  function EncodeMeta(x: Meta): Fields {
    map["results" := OptNumber(x.results), "limit" := OptNumber(x.limit),
        "offset" := OptNumber(x.offset),
        "params" := match x.params case Some(p) => JObject(EncodeMetaParams(p)) case None => JNull]
  }

  function EncodeDomainSearchResponse(x: DomainSearchResponse): Fields {
    map["data" := JObject(EncodeDomainSearchData(x.data)), "meta" := JObject(EncodeMeta(x.meta))]
  }

  function EncodeEmailFinderData(x: EmailFinderData): Fields {
    map["first_name" := JString(x.firstName), "last_name" := JString(x.lastName),
        "email" := JString(x.email), "score" := JInt(x.score), "domain" := JString(x.domain),
        "accept_all" := JBool(x.acceptAll), "position" := OptText(x.position),
        "twitter" := OptText(x.twitter), "linkedin_url" := OptText(x.linkedinUrl),
        "phone_number" := OptText(x.phoneNumber), "company" := OptText(x.company),
        "sources" := JArray(Items(x.sources, EmailSourceJson)),
        "verification" := OptVerification(x.verification)]
  }

  function EncodeEmailFinderResponse(x: EmailFinderResponse): Fields {
    map["data" := JObject(EncodeEmailFinderData(x.data)), "meta" := JObject(EncodeMeta(x.meta))]
  }

  function EncodeEmailVerificationData(x: EmailVerificationData): Fields {
    map["status" := JString(x.status), "result" := JString(x.result), "score" := JInt(x.score),
        "email" := JString(x.email), "regexp" := JBool(x.regexp),
        "gibberish" := JBool(x.gibberish), "disposable" := JBool(x.disposable),
        "webmail" := JBool(x.webmail), "mx_records" := JBool(x.mxRecords),
        "smtp_server" := JBool(x.smtpServer), "smtp_check" := JBool(x.smtpCheck),
        "accept_all" := JBool(x.acceptAll), "block" := JBool(x.block),
        "sources" := JArray(Items(x.sources, EmailSourceJson))]
  }

  function EncodeEmailVerificationResponse(x: EmailVerificationResponse): Fields {
    map["data" := JObject(EncodeEmailVerificationData(x.data)), "meta" := JObject(EncodeMeta(x.meta))]
  }

  // ---------------------------------------------------------------------
  // One field at a time

  lemma RequiredText(m: Fields, key: string, s: string)
    requires key in m && m[key] == JString(s)
    ensures Required(m, key, AsString) == Success(s)
  {
  }

  lemma RequiredNumber(m: Fields, key: string, n: int)
    requires key in m && m[key] == JInt(n)
    ensures Required(m, key, AsInt) == Success(n)
  {
  }

  lemma RequiredFlag(m: Fields, key: string, b: bool)
    requires key in m && m[key] == JBool(b)
    ensures Required(m, key, AsBool) == Success(b)
  {
  }

  lemma OptionalText(m: Fields, key: string, o: Option<string>)
    requires key in m && m[key] == OptText(o)
    ensures Optional(m, key, AsString) == Success(o)
  {
  }

  lemma OptionalNumber(m: Fields, key: string, o: Option<int>)
    requires key in m && m[key] == OptNumber(o)
    ensures Optional(m, key, AsInt) == Success(o)
  {
  }

  lemma Absent<T>(m: Fields, key: string, conv: Json -> Option<T>)
    requires key !in m
    ensures Optional(m, key, conv) == Success(None)
    ensures ListOf(m, key, conv) == Success([])
  {
  }

  /** A list whose every item converts back decodes back whole. */
  lemma ItemsRoundTrip<T>(m: Fields, key: string, xs: seq<T>, enc: T -> Json, conv: Json -> Option<T>)
    requires key in m && m[key] == JArray(Items(xs, enc))
    requires forall i :: 0 <= i < |xs| ==> conv(enc(xs[i])) == Some(xs[i])
    ensures ListOf(m, key, conv) == Success(xs)
  {
    var r := Each(Items(xs, enc), conv);
    assert r.Some?;
    assert r.value == xs;
  }

  // ---------------------------------------------------------------------
  // Decoding inverts encoding

  lemma EmailSourceRoundTrip(x: EmailSource)
    ensures DecodeEmailSource(EncodeEmailSource(x)) == Success(x)
    ensures AsEmailSource(EmailSourceJson(x)) == Some(x)
  {
    var m := EncodeEmailSource(x);
    RequiredText(m, "domain", x.domain);
    RequiredText(m, "uri", x.uri);
    RequiredText(m, "extracted_on", x.extractedOn);
    RequiredText(m, "last_seen_on", x.lastSeenOn);
    RequiredFlag(m, "still_on_page", x.stillOnPage);
  }

  lemma SourcesRoundTrip(m: Fields, xs: seq<EmailSource>)
    requires "sources" in m && m["sources"] == JArray(Items(xs, EmailSourceJson))
    ensures ListOf(m, "sources", AsEmailSource) == Success(xs)
  {
    forall i | 0 <= i < |xs| ensures AsEmailSource(EmailSourceJson(xs[i])) == Some(xs[i]) {
      EmailSourceRoundTrip(xs[i]);
    }
    ItemsRoundTrip(m, "sources", xs, EmailSourceJson, AsEmailSource);
  }

  lemma EmailVerificationRoundTrip(x: EmailVerification)
    ensures DecodeEmailVerification(EncodeEmailVerification(x)) == Success(x)
  {
    var m := EncodeEmailVerification(x);
    OptionalText(m, "date", x.date);
    OptionalText(m, "status", x.status);
  }

  lemma VerificationRoundTrip(m: Fields, o: Option<EmailVerification>)
    requires "verification" in m && m["verification"] == OptVerification(o)
    ensures Optional(m, "verification", AsEmailVerification) == Success(o)
  {
    if o.Some? {
      EmailVerificationRoundTrip(o.value);
    }
  }

  /** The required fields of an email and its sources. */
  lemma EmailIdentity(x: Email)
    ensures var m := EncodeEmail(x);
      && Required(m, "value", AsString) == Success(x.value)
      && Required(m, "type", AsString) == Success(x.emailType)
      && Required(m, "confidence", AsInt) == Success(x.confidence)
      && ListOf(m, "sources", AsEmailSource) == Success(x.sources)
  {
    var m := EncodeEmail(x);
    RequiredText(m, "value", x.value);
    RequiredText(m, "type", x.emailType);
    RequiredNumber(m, "confidence", x.confidence);
    SourcesRoundTrip(m, x.sources);
  }

  /** Who the address belongs to. */
  lemma EmailPerson(x: Email)
    ensures var m := EncodeEmail(x);
      && Optional(m, "first_name", AsString) == Success(x.firstName)
      && Optional(m, "last_name", AsString) == Success(x.lastName)
      && Optional(m, "position", AsString) == Success(x.position)
      && Optional(m, "seniority", AsString) == Success(x.seniority)
  {
    var m := EncodeEmail(x);
    OptionalText(m, "first_name", x.firstName);
    OptionalText(m, "last_name", x.lastName);
    OptionalText(m, "position", x.position);
    OptionalText(m, "seniority", x.seniority);
  }

  /** The department, the social profiles, the phone and the verification. */
  lemma EmailReach(x: Email)
    ensures var m := EncodeEmail(x);
      && Optional(m, "department", AsString) == Success(x.department)
      && Optional(m, "linkedin", AsString) == Success(x.linkedin)
      && Optional(m, "twitter", AsString) == Success(x.twitter)
      && Optional(m, "phone_number", AsString) == Success(x.phoneNumber)
      && Optional(m, "verification", AsEmailVerification) == Success(x.verification)
  {
    var m := EncodeEmail(x);
    OptionalText(m, "department", x.department);
    OptionalText(m, "linkedin", x.linkedin);
    OptionalText(m, "twitter", x.twitter);
    OptionalText(m, "phone_number", x.phoneNumber);
    VerificationRoundTrip(m, x.verification);
  }

  lemma EmailRoundTrip(x: Email)
    ensures DecodeEmail(EncodeEmail(x)) == Success(x)
    ensures AsEmail(EmailJson(x)) == Some(x)
  {
    EmailIdentity(x);
    EmailPerson(x);
    EmailReach(x);
  }

  /** The domain and whether it is disposable. */
  lemma DomainSearchDataHead(x: DomainSearchData)
    ensures var m := EncodeDomainSearchData(x);
      && Required(m, "domain", AsString) == Success(x.domain)
      && Required(m, "disposable", AsBool) == Success(x.disposable)
  {
    var m := EncodeDomainSearchData(x);
    RequiredText(m, "domain", x.domain);
    RequiredFlag(m, "disposable", x.disposable);
  }

  /** Whether the domain is a webmail and whether it accepts all addresses. */
  lemma DomainSearchDataFlags(x: DomainSearchData)
    ensures var m := EncodeDomainSearchData(x);
      && Required(m, "webmail", AsBool) == Success(x.webmail)
      && Required(m, "accept_all", AsBool) == Success(x.acceptAll)
  {
    var m := EncodeDomainSearchData(x);
    RequiredFlag(m, "webmail", x.webmail);
    RequiredFlag(m, "accept_all", x.acceptAll);
  }

  /** The domain's address pattern and its organisation. */
  lemma DomainSearchDataProfile(x: DomainSearchData)
    ensures var m := EncodeDomainSearchData(x);
      && Optional(m, "pattern", AsString) == Success(x.pattern)
      && Optional(m, "organization", AsString) == Success(x.organization)
      && Optional(m, "description", AsString) == Success(x.description)
      && Optional(m, "industry", AsString) == Success(x.industry)
  {
    var m := EncodeDomainSearchData(x);
    OptionalText(m, "pattern", x.pattern);
    OptionalText(m, "organization", x.organization);
    OptionalText(m, "description", x.description);
    OptionalText(m, "industry", x.industry);
  }

  /** The organisation's social profiles. */
  lemma DomainSearchDataSocial(x: DomainSearchData)
    ensures var m := EncodeDomainSearchData(x);
      && Optional(m, "twitter", AsString) == Success(x.twitter)
      && Optional(m, "facebook", AsString) == Success(x.facebook)
      && Optional(m, "linkedin", AsString) == Success(x.linkedin)
      && Optional(m, "instagram", AsString) == Success(x.instagram)
  {
    var m := EncodeDomainSearchData(x);
    OptionalText(m, "twitter", x.twitter);
    OptionalText(m, "facebook", x.facebook);
    OptionalText(m, "linkedin", x.linkedin);
    OptionalText(m, "instagram", x.instagram);
  }

  /** The video channel and the technology list. */
  lemma DomainSearchDataMedia(x: DomainSearchData)
    ensures var m := EncodeDomainSearchData(x);
      && Optional(m, "youtube", AsString) == Success(x.youtube)
      && ListOf(m, "technologies", AsString) == Success(x.technologies)
  {
    var m := EncodeDomainSearchData(x);
    OptionalText(m, "youtube", x.youtube);
    ItemsRoundTrip(m, "technologies", x.technologies, TextJson, AsString);
  }

  /** Where the organisation is. */
  lemma DomainSearchDataPlace(x: DomainSearchData)
    ensures var m := EncodeDomainSearchData(x);
      && Optional(m, "country", AsString) == Success(x.country)
      && Optional(m, "state", AsString) == Success(x.state)
      && Optional(m, "city", AsString) == Success(x.city)
      && Optional(m, "postal_code", AsString) == Success(x.postalCode)
  {
    var m := EncodeDomainSearchData(x);
    OptionalText(m, "country", x.country);
    OptionalText(m, "state", x.state);
    OptionalText(m, "city", x.city);
    OptionalText(m, "postal_code", x.postalCode);
  }

  /** The street, the headcount and the company type. */
  lemma DomainSearchDataCompany(x: DomainSearchData)
    ensures var m := EncodeDomainSearchData(x);
      && Optional(m, "street", AsString) == Success(x.street)
      && Optional(m, "headcount", AsString) == Success(x.headcount)
      && Optional(m, "company_type", AsString) == Success(x.companyType)
  {
    var m := EncodeDomainSearchData(x);
    OptionalText(m, "street", x.street);
    OptionalText(m, "headcount", x.headcount);
    OptionalText(m, "company_type", x.companyType);
  }

  /** The email list and the linked domains. */
  lemma DomainSearchDataLists(x: DomainSearchData)
    ensures var m := EncodeDomainSearchData(x);
      && ListOf(m, "emails", AsEmail) == Success(x.emails)
      && ListOf(m, "linked_domains", AsString) == Success(x.linkedDomains)
  {
    var m := EncodeDomainSearchData(x);
    forall i | 0 <= i < |x.emails| ensures AsEmail(EmailJson(x.emails[i])) == Some(x.emails[i]) {
      EmailRoundTrip(x.emails[i]);
    }
    ItemsRoundTrip(m, "emails", x.emails, EmailJson, AsEmail);
    ItemsRoundTrip(m, "linked_domains", x.linkedDomains, TextJson, AsString);
  }

  lemma DomainSearchDataRoundTrip(x: DomainSearchData)
    ensures DecodeDomainSearchData(EncodeDomainSearchData(x)) == Success(x)
  {
    DomainSearchDataHead(x);
    DomainSearchDataFlags(x);
    DomainSearchDataProfile(x);
    DomainSearchDataSocial(x);
    DomainSearchDataMedia(x);
    DomainSearchDataPlace(x);
    DomainSearchDataCompany(x);
    DomainSearchDataLists(x);
  }

  /** The echoed domain search filters. */
  lemma MetaParamsSearch(x: MetaParams)
    ensures var m := EncodeMetaParams(x);
      && Optional(m, "domain", AsString) == Success(x.domain)
      && Optional(m, "company", AsString) == Success(x.company)
      && Optional(m, "type", AsString) == Success(x.emailType)
      && Optional(m, "seniority", AsString) == Success(x.seniority)
  {
    var m := EncodeMetaParams(x);
    OptionalText(m, "domain", x.domain);
    OptionalText(m, "company", x.company);
    OptionalText(m, "type", x.emailType);
    OptionalText(m, "seniority", x.seniority);
  }

  /** The echoed department, names and address. */
  lemma MetaParamsPerson(x: MetaParams)
    ensures var m := EncodeMetaParams(x);
      && Optional(m, "department", AsString) == Success(x.department)
      && Optional(m, "first_name", AsString) == Success(x.firstName)
      && Optional(m, "last_name", AsString) == Success(x.lastName)
      && Optional(m, "full_name", AsString) == Success(x.fullName)
      && Optional(m, "email", AsString) == Success(x.email)
  {
    var m := EncodeMetaParams(x);
    OptionalText(m, "department", x.department);
    OptionalText(m, "first_name", x.firstName);
    OptionalText(m, "last_name", x.lastName);
    OptionalText(m, "full_name", x.fullName);
    OptionalText(m, "email", x.email);
  }

  lemma MetaParamsRoundTrip(x: MetaParams)
    ensures DecodeMetaParams(EncodeMetaParams(x)) == Success(x)
  {
    MetaParamsSearch(x);
    MetaParamsPerson(x);
  }

  lemma MetaRoundTrip(x: Meta)
    ensures DecodeMeta(EncodeMeta(x)) == Success(x)
    ensures AsMeta(JObject(EncodeMeta(x))) == Some(x)
  {
    var m := EncodeMeta(x);
    OptionalNumber(m, "results", x.results);
    OptionalNumber(m, "limit", x.limit);
    OptionalNumber(m, "offset", x.offset);
    if x.params.Some? {
      MetaParamsRoundTrip(x.params.value);
    }
  }

  lemma DomainSearchResponseRoundTrip(x: DomainSearchResponse)
    ensures DecodeDomainSearchResponse(EncodeDomainSearchResponse(x)) == Success(x)
  {
    DomainSearchDataRoundTrip(x.data);
    MetaRoundTrip(x.meta);
    var m := EncodeDomainSearchResponse(x);
    assert AsDomainSearchData(m["data"]) == Some(x.data);
    assert AsMeta(m["meta"]) == Some(x.meta);
  }

  /** The person, the address found and its score. */
  lemma EmailFinderDataIdentity(x: EmailFinderData)
    ensures var m := EncodeEmailFinderData(x);
      && Required(m, "first_name", AsString) == Success(x.firstName)
      && Required(m, "last_name", AsString) == Success(x.lastName)
      && Required(m, "email", AsString) == Success(x.email)
      && Required(m, "score", AsInt) == Success(x.score)
  {
    var m := EncodeEmailFinderData(x);
    RequiredText(m, "first_name", x.firstName);
    RequiredText(m, "last_name", x.lastName);
    RequiredText(m, "email", x.email);
    RequiredNumber(m, "score", x.score);
  }

  /** The domain, whether it accepts all addresses, the position and the company. */
  lemma EmailFinderDataCompany(x: EmailFinderData)
    ensures var m := EncodeEmailFinderData(x);
      && Required(m, "domain", AsString) == Success(x.domain)
      && Required(m, "accept_all", AsBool) == Success(x.acceptAll)
      && Optional(m, "position", AsString) == Success(x.position)
      && Optional(m, "company", AsString) == Success(x.company)
  {
    var m := EncodeEmailFinderData(x);
    RequiredText(m, "domain", x.domain);
    RequiredFlag(m, "accept_all", x.acceptAll);
    OptionalText(m, "position", x.position);
    OptionalText(m, "company", x.company);
  }

  /** The social profiles and the phone. */
  lemma EmailFinderDataReach(x: EmailFinderData)
    ensures var m := EncodeEmailFinderData(x);
      && Optional(m, "twitter", AsString) == Success(x.twitter)
      && Optional(m, "linkedin_url", AsString) == Success(x.linkedinUrl)
      && Optional(m, "phone_number", AsString) == Success(x.phoneNumber)
  {
    var m := EncodeEmailFinderData(x);
    OptionalText(m, "twitter", x.twitter);
    OptionalText(m, "linkedin_url", x.linkedinUrl);
    OptionalText(m, "phone_number", x.phoneNumber);
  }

  /** The sources and the verification. */
  lemma EmailFinderDataEvidence(x: EmailFinderData)
    ensures var m := EncodeEmailFinderData(x);
      && ListOf(m, "sources", AsEmailSource) == Success(x.sources)
      && Optional(m, "verification", AsEmailVerification) == Success(x.verification)
  {
    var m := EncodeEmailFinderData(x);
    SourcesRoundTrip(m, x.sources);
    VerificationRoundTrip(m, x.verification);
  }

  lemma EmailFinderDataRoundTrip(x: EmailFinderData)
    ensures DecodeEmailFinderData(EncodeEmailFinderData(x)) == Success(x)
  {
    EmailFinderDataIdentity(x);
    EmailFinderDataCompany(x);
    EmailFinderDataReach(x);
    EmailFinderDataEvidence(x);
  }

  lemma EmailFinderResponseRoundTrip(x: EmailFinderResponse)
    ensures DecodeEmailFinderResponse(EncodeEmailFinderResponse(x)) == Success(x)
  {
    EmailFinderDataRoundTrip(x.data);
    MetaRoundTrip(x.meta);
  }

  /** The verdict, its score and the address. */
  lemma EmailVerificationDataHead(x: EmailVerificationData)
    ensures var m := EncodeEmailVerificationData(x);
      && Required(m, "status", AsString) == Success(x.status)
      && Required(m, "result", AsString) == Success(x.result)
      && Required(m, "score", AsInt) == Success(x.score)
      && Required(m, "email", AsString) == Success(x.email)
  {
    var m := EncodeEmailVerificationData(x);
    RequiredText(m, "status", x.status);
    RequiredText(m, "result", x.result);
    RequiredNumber(m, "score", x.score);
    RequiredText(m, "email", x.email);
  }

  /** The checks on the address's spelling. */
  lemma EmailVerificationDataSyntax(x: EmailVerificationData)
    ensures var m := EncodeEmailVerificationData(x);
      && Required(m, "regexp", AsBool) == Success(x.regexp)
      && Required(m, "gibberish", AsBool) == Success(x.gibberish)
  {
    var m := EncodeEmailVerificationData(x);
    RequiredFlag(m, "regexp", x.regexp);
    RequiredFlag(m, "gibberish", x.gibberish);
  }

  /** The checks on the address's provider. */
  lemma EmailVerificationDataProvider(x: EmailVerificationData)
    ensures var m := EncodeEmailVerificationData(x);
      && Required(m, "disposable", AsBool) == Success(x.disposable)
      && Required(m, "webmail", AsBool) == Success(x.webmail)
  {
    var m := EncodeEmailVerificationData(x);
    RequiredFlag(m, "disposable", x.disposable);
    RequiredFlag(m, "webmail", x.webmail);
  }

  /** The checks on the mail server. */
  lemma EmailVerificationDataServer(x: EmailVerificationData)
    ensures var m := EncodeEmailVerificationData(x);
      && Required(m, "mx_records", AsBool) == Success(x.mxRecords)
      && Required(m, "smtp_server", AsBool) == Success(x.smtpServer)
      && Required(m, "smtp_check", AsBool) == Success(x.smtpCheck)
      && Required(m, "accept_all", AsBool) == Success(x.acceptAll)
  {
    var m := EncodeEmailVerificationData(x);
    RequiredFlag(m, "mx_records", x.mxRecords);
    RequiredFlag(m, "smtp_server", x.smtpServer);
    RequiredFlag(m, "smtp_check", x.smtpCheck);
    RequiredFlag(m, "accept_all", x.acceptAll);
  }

  /** The block flag and the sources. */
  lemma EmailVerificationDataEvidence(x: EmailVerificationData)
    ensures var m := EncodeEmailVerificationData(x);
      && Required(m, "block", AsBool) == Success(x.block)
      && ListOf(m, "sources", AsEmailSource) == Success(x.sources)
  {
    var m := EncodeEmailVerificationData(x);
    RequiredFlag(m, "block", x.block);
    SourcesRoundTrip(m, x.sources);
  }

  lemma EmailVerificationDataRoundTrip(x: EmailVerificationData)
    ensures DecodeEmailVerificationData(EncodeEmailVerificationData(x)) == Success(x)
  {
    EmailVerificationDataHead(x);
    EmailVerificationDataSyntax(x);
    EmailVerificationDataProvider(x);
    EmailVerificationDataServer(x);
    EmailVerificationDataEvidence(x);
  }

  lemma EmailVerificationResponseRoundTrip(x: EmailVerificationResponse)
    ensures DecodeEmailVerificationResponse(EncodeEmailVerificationResponse(x)) == Success(x)
  {
    EmailVerificationDataRoundTrip(x.data);
    MetaRoundTrip(x.meta);
  }

  // ---------------------------------------------------------------------
  // Objects holding only the required keys decode to the defaults

  lemma EmailSourceNeedsAllFields(m: Fields, key: string)
    requires key in EmailSourceRequired && key !in m
    ensures DecodeEmailSource(m).Failure?
  {
  }

  lemma EmailVerificationDefaults()
    ensures DecodeEmailVerification(map[]) == Success(EmailVerification(None, None))
  {
  }

  lemma EmailDefaults(value: string, emailType: string, confidence: int)
    ensures DecodeEmail(map["value" := JString(value), "type" := JString(emailType),
                            "confidence" := JInt(confidence)])
         == Success(Email(value, emailType, confidence, [], None, None, None, None, None,
                          None, None, None, None))
  {
  }

  lemma DomainSearchDataDefaults(domain: string, disposable: bool, webmail: bool, acceptAll: bool)
    ensures DecodeDomainSearchData(map["domain" := JString(domain), "disposable" := JBool(disposable),
                                       "webmail" := JBool(webmail), "accept_all" := JBool(acceptAll)])
         == Success(DomainSearchData(domain, disposable, webmail, acceptAll, None, None, None,
                                     None, None, None, None, None, None, [], None, None, None,
                                     None, None, None, None, [], []))
  {
    var m := map["domain" := JString(domain), "disposable" := JBool(disposable),
                 "webmail" := JBool(webmail), "accept_all" := JBool(acceptAll)];
    RequiredText(m, "domain", domain);
    RequiredFlag(m, "disposable", disposable);
    RequiredFlag(m, "webmail", webmail);
    RequiredFlag(m, "accept_all", acceptAll);
    Absent(m, "pattern", AsString);
    Absent(m, "organization", AsString);
    Absent(m, "description", AsString);
    Absent(m, "industry", AsString);
    Absent(m, "twitter", AsString);
    Absent(m, "facebook", AsString);
    Absent(m, "linkedin", AsString);
    Absent(m, "instagram", AsString);
    Absent(m, "youtube", AsString);
    Absent(m, "technologies", AsString);
    Absent(m, "country", AsString);
    Absent(m, "state", AsString);
    Absent(m, "city", AsString);
    Absent(m, "postal_code", AsString);
    Absent(m, "street", AsString);
    Absent(m, "headcount", AsString);
    Absent(m, "company_type", AsString);
    Absent(m, "emails", AsEmail);
    Absent(m, "linked_domains", AsString);
  }

  lemma MetaDefaults()
    ensures DecodeMeta(map[]) == Success(Meta(None, None, None, None))
    ensures DecodeMetaParams(map[]) == Success(MetaParams(None, None, None, None, None, None, None, None, None))
  {
  }

  lemma EmailFinderDataDefaults(firstName: string, lastName: string, email: string, score: int,
                                domain: string, acceptAll: bool)
    ensures DecodeEmailFinderData(map["first_name" := JString(firstName), "last_name" := JString(lastName),
                                      "email" := JString(email), "score" := JInt(score),
                                      "domain" := JString(domain), "accept_all" := JBool(acceptAll)])
         == Success(EmailFinderData(firstName, lastName, email, score, domain, acceptAll,
                                    None, None, None, None, None, [], None))
  {
  }

  /** The verdict, its score, the address and the spelling checks of an object that has them. */
  lemma VerificationDataVerdict(m: Fields)
    requires "status" in m && m["status"].JString? && "result" in m && m["result"].JString?
    requires "score" in m && m["score"].JInt? && "email" in m && m["email"].JString?
    requires "regexp" in m && m["regexp"].JBool? && "gibberish" in m && m["gibberish"].JBool?
    ensures Required(m, "status", AsString) == Success(m["status"].str)
    ensures Required(m, "result", AsString) == Success(m["result"].str)
    ensures Required(m, "score", AsInt) == Success(m["score"].i)
    ensures Required(m, "email", AsString) == Success(m["email"].str)
    ensures Required(m, "regexp", AsBool) == Success(m["regexp"].b)
    ensures Required(m, "gibberish", AsBool) == Success(m["gibberish"].b)
  {
    RequiredText(m, "status", m["status"].str);
    RequiredText(m, "result", m["result"].str);
    RequiredNumber(m, "score", m["score"].i);
    RequiredText(m, "email", m["email"].str);
    RequiredFlag(m, "regexp", m["regexp"].b);
    RequiredFlag(m, "gibberish", m["gibberish"].b);
  }

  /** The provider and server checks of an object that has them. */
  lemma VerificationDataChecks(m: Fields)
    requires "disposable" in m && m["disposable"].JBool? && "webmail" in m && m["webmail"].JBool?
    requires "mx_records" in m && m["mx_records"].JBool? && "smtp_server" in m && m["smtp_server"].JBool?
    requires "smtp_check" in m && m["smtp_check"].JBool? && "accept_all" in m && m["accept_all"].JBool?
    requires "block" in m && m["block"].JBool?
    ensures Required(m, "disposable", AsBool) == Success(m["disposable"].b)
    ensures Required(m, "webmail", AsBool) == Success(m["webmail"].b)
    ensures Required(m, "mx_records", AsBool) == Success(m["mx_records"].b)
    ensures Required(m, "smtp_server", AsBool) == Success(m["smtp_server"].b)
    ensures Required(m, "smtp_check", AsBool) == Success(m["smtp_check"].b)
    ensures Required(m, "accept_all", AsBool) == Success(m["accept_all"].b)
    ensures Required(m, "block", AsBool) == Success(m["block"].b)
  {
    RequiredFlag(m, "disposable", m["disposable"].b);
    RequiredFlag(m, "webmail", m["webmail"].b);
    RequiredFlag(m, "mx_records", m["mx_records"].b);
    RequiredFlag(m, "smtp_server", m["smtp_server"].b);
    RequiredFlag(m, "smtp_check", m["smtp_check"].b);
    RequiredFlag(m, "accept_all", m["accept_all"].b);
    RequiredFlag(m, "block", m["block"].b);
  }

  /**
   * Any object holding the thirteen scalar fields with their types, and no
   * `sources`, decodes, to a record with those values and no sources.
   */
  lemma EmailVerificationDataDefaults(m: Fields)
    requires "status" in m && m["status"].JString? && "result" in m && m["result"].JString?
    requires "score" in m && m["score"].JInt? && "email" in m && m["email"].JString?
    requires "regexp" in m && m["regexp"].JBool? && "gibberish" in m && m["gibberish"].JBool?
    requires "disposable" in m && m["disposable"].JBool? && "webmail" in m && m["webmail"].JBool?
    requires "mx_records" in m && m["mx_records"].JBool? && "smtp_server" in m && m["smtp_server"].JBool?
    requires "smtp_check" in m && m["smtp_check"].JBool? && "accept_all" in m && m["accept_all"].JBool?
    requires "block" in m && m["block"].JBool?
    requires "sources" !in m
    ensures DecodeEmailVerificationData(m)
         == Success(EmailVerificationData(m["status"].str, m["result"].str, m["score"].i, m["email"].str,
                                          m["regexp"].b, m["gibberish"].b, m["disposable"].b,
                                          m["webmail"].b, m["mx_records"].b, m["smtp_server"].b,
                                          m["smtp_check"].b, m["accept_all"].b, m["block"].b, []))
  {
    VerificationDataVerdict(m);
    VerificationDataChecks(m);
    Absent(m, "sources", AsEmailSource);
  }

  // ---------------------------------------------------------------------
  // Success bodies carrying some of the optional keys

  /** A list given as the empty array decodes to `[]`. */
  lemma EmptyList<T>(m: Fields, key: string, conv: Json -> Option<T>)
    requires key in m && m[key] == JArray([])
    ensures ListOf(m, key, conv) == Success([])
  {
    assert Each([], conv) == Some([]);
  }

  /** The data of a domain search for `example.com`, with empty lists. */
  function SearchDataBody(): Fields {
    map["domain" := JString("example.com"), "disposable" := JBool(false), "webmail" := JBool(false),
        "accept_all" := JBool(true), "emails" := JArray([]), "linked_domains" := JArray([])]
  }

  /** The meta of that search: counts, and the echoed domain. */
  function SearchMetaBody(): Fields {
    map["results" := JInt(0), "limit" := JInt(10), "offset" := JInt(0),
        "params" := JObject(map["domain" := JString("example.com")])]
  }

  /** The data of a person lookup, with empty sources. */
  function FinderDataBody(): Fields {
    map["first_name" := JString("John"), "last_name" := JString("Doe"),
        "email" := JString("john.doe@example.com"), "score" := JInt(95),
        "domain" := JString("example.com"), "accept_all" := JBool(false), "sources" := JArray([])]
  }

  /** The meta of that lookup: only the echoed domain and names. */
  function FinderMetaBody(): Fields {
    map["params" := JObject(map["domain" := JString("example.com"), "first_name" := JString("John"),
                                "last_name" := JString("Doe")])]
  }

  /** The required fields and the lists of that search data. */
  lemma SearchDataFields(data: Fields)
    requires data == SearchDataBody()
    ensures Required(data, "domain", AsString) == Success("example.com")
    ensures Required(data, "disposable", AsBool) == Success(false)
    ensures Required(data, "webmail", AsBool) == Success(false)
    ensures Required(data, "accept_all", AsBool) == Success(true)
    ensures ListOf(data, "technologies", AsString) == Success([])
    ensures ListOf(data, "emails", AsEmail) == Success([])
    ensures ListOf(data, "linked_domains", AsString) == Success([])
  {
    RequiredText(data, "domain", "example.com");
    RequiredFlag(data, "disposable", false);
    RequiredFlag(data, "webmail", false);
    RequiredFlag(data, "accept_all", true);
    Absent(data, "technologies", AsString);
    EmptyList(data, "emails", AsEmail);
    EmptyList(data, "linked_domains", AsString);
  }

  /** That search data names no profile: its pattern, organisation and social links are `None`. */
  lemma SearchDataProfileAbsent(data: Fields)
    requires data == SearchDataBody()
    ensures Optional(data, "pattern", AsString) == Success(None)
    ensures Optional(data, "organization", AsString) == Success(None)
    ensures Optional(data, "description", AsString) == Success(None)
    ensures Optional(data, "industry", AsString) == Success(None)
    ensures Optional(data, "twitter", AsString) == Success(None)
    ensures Optional(data, "facebook", AsString) == Success(None)
    ensures Optional(data, "linkedin", AsString) == Success(None)
    ensures Optional(data, "instagram", AsString) == Success(None)
  {
    Absent(data, "pattern", AsString);
    Absent(data, "organization", AsString);
    Absent(data, "description", AsString);
    Absent(data, "industry", AsString);
    Absent(data, "twitter", AsString);
    Absent(data, "facebook", AsString);
    Absent(data, "linkedin", AsString);
    Absent(data, "instagram", AsString);
  }

  /** That search data names no place: its video channel, address, headcount and company type are `None`. */
  lemma SearchDataPlaceAbsent(data: Fields)
    requires data == SearchDataBody()
    ensures Optional(data, "youtube", AsString) == Success(None)
    ensures Optional(data, "country", AsString) == Success(None)
    ensures Optional(data, "state", AsString) == Success(None)
    ensures Optional(data, "city", AsString) == Success(None)
    ensures Optional(data, "postal_code", AsString) == Success(None)
    ensures Optional(data, "street", AsString) == Success(None)
    ensures Optional(data, "headcount", AsString) == Success(None)
    ensures Optional(data, "company_type", AsString) == Success(None)
  {
    Absent(data, "youtube", AsString);
    Absent(data, "country", AsString);
    Absent(data, "state", AsString);
    Absent(data, "city", AsString);
    Absent(data, "postal_code", AsString);
    Absent(data, "street", AsString);
    Absent(data, "headcount", AsString);
    Absent(data, "company_type", AsString);
  }

  lemma SearchDataExample(data: Fields)
    requires data == SearchDataBody()
    ensures DecodeDomainSearchData(data) ==
      Success(DomainSearchData("example.com", false, false, true, None, None, None, None, None, None,
                               None, None, None, [], None, None, None, None, None, None, None, [], []))
  {
    SearchDataFields(data);
    SearchDataProfileAbsent(data);
    SearchDataPlaceAbsent(data);
  }

  lemma SearchMetaExample()
    ensures AsMeta(JObject(SearchMetaBody())) ==
      Some(Meta(Some(0), Some(10), Some(0),
                Some(MetaParams(Some("example.com"), None, None, None, None, None, None, None, None))))
  {
    var params := map["domain" := JString("example.com")];
    var p := MetaParams(Some("example.com"), None, None, None, None, None, None, None, None);
    OptionalText(params, "domain", Some("example.com"));
    assert DecodeMetaParams(params) == Success(p);
    var meta := SearchMetaBody();
    OptionalNumber(meta, "results", Some(0));
    OptionalNumber(meta, "limit", Some(10));
    OptionalNumber(meta, "offset", Some(0));
    assert Optional(meta, "params", AsMetaParams) == Success(Some(p));
  }

  /** A domain search body with empty lists and a meta echoing only the domain. */
  lemma DomainSearchResponseExample()
    ensures DecodeDomainSearchResponse(map["data" := JObject(SearchDataBody()), "meta" := JObject(SearchMetaBody())])
         == Success(DomainSearchResponse(
              DomainSearchData("example.com", false, false, true, None, None, None, None, None, None,
                               None, None, None, [], None, None, None, None, None, None, None, [], []),
              Meta(Some(0), Some(10), Some(0),
                   Some(MetaParams(Some("example.com"), None, None, None, None, None, None, None, None)))))
  {
    SearchDataExample(SearchDataBody());
    SearchMetaExample();
  }

  /** The required fields and the sources of that lookup's data. */
  lemma FinderDataFields(data: Fields)
    requires data == FinderDataBody()
    ensures Required(data, "first_name", AsString) == Success("John")
    ensures Required(data, "last_name", AsString) == Success("Doe")
    ensures Required(data, "email", AsString) == Success("john.doe@example.com")
    ensures Required(data, "score", AsInt) == Success(95)
    ensures Required(data, "domain", AsString) == Success("example.com")
    ensures Required(data, "accept_all", AsBool) == Success(false)
    ensures ListOf(data, "sources", AsEmailSource) == Success([])
  {
    RequiredText(data, "first_name", "John");
    RequiredText(data, "last_name", "Doe");
    RequiredText(data, "email", "john.doe@example.com");
    RequiredNumber(data, "score", 95);
    RequiredText(data, "domain", "example.com");
    RequiredFlag(data, "accept_all", false);
    EmptyList(data, "sources", AsEmailSource);
  }

  lemma FinderDataExample(data: Fields)
    requires data == FinderDataBody()
    ensures DecodeEmailFinderData(data) ==
      Success(EmailFinderData("John", "Doe", "john.doe@example.com", 95, "example.com", false,
                              None, None, None, None, None, [], None))
  {
    FinderDataFields(data);
  }

  lemma FinderMetaExample()
    ensures AsMeta(JObject(FinderMetaBody())) ==
      Some(Meta(None, None, None,
                Some(MetaParams(Some("example.com"), None, None, None, None, Some("John"), Some("Doe"),
                                None, None))))
  {
    var params := map["domain" := JString("example.com"), "first_name" := JString("John"),
                      "last_name" := JString("Doe")];
    var p := MetaParams(Some("example.com"), None, None, None, None, Some("John"), Some("Doe"), None, None);
    OptionalText(params, "domain", Some("example.com"));
    OptionalText(params, "first_name", Some("John"));
    OptionalText(params, "last_name", Some("Doe"));
    assert DecodeMetaParams(params) == Success(p);
    var meta := FinderMetaBody();
    assert Optional(meta, "params", AsMetaParams) == Success(Some(p));
  }

  /** An email finder body with empty sources and a meta echoing the domain and the names. */
  lemma EmailFinderResponseExample()
    ensures DecodeEmailFinderResponse(map["data" := JObject(FinderDataBody()), "meta" := JObject(FinderMetaBody())])
         == Success(EmailFinderResponse(
              EmailFinderData("John", "Doe", "john.doe@example.com", 95, "example.com", false,
                              None, None, None, None, None, [], None),
              Meta(None, None, None,
                   Some(MetaParams(Some("example.com"), None, None, None, None, Some("John"), Some("Doe"),
                                   None, None)))))
  {
    FinderDataExample(FinderDataBody());
    FinderMetaExample();
  }

  /** The data of a verification of `test@example.com`: deliverable, with empty sources. */
  function VerifierDataBody(): Fields {
    map["status" := JString("valid"), "result" := JString("deliverable"), "score" := JInt(100),
        "email" := JString("test@example.com"), "regexp" := JBool(true), "gibberish" := JBool(false),
        "disposable" := JBool(false), "webmail" := JBool(false), "mx_records" := JBool(true),
        "smtp_server" := JBool(true), "smtp_check" := JBool(true), "accept_all" := JBool(false),
        "block" := JBool(false), "sources" := JArray([])]
  }

  /** The meta of that verification: only the echoed address. */
  function VerifierMetaBody(): Fields {
    map["params" := JObject(map["email" := JString("test@example.com")])]
  }

  lemma VerifierDataExample(data: Fields)
    requires data == VerifierDataBody()
    ensures DecodeEmailVerificationData(data) ==
      Success(EmailVerificationData("valid", "deliverable", 100, "test@example.com", true, false, false,
                                    false, true, true, true, false, false, []))
  {
    VerificationDataVerdict(data);
    VerificationDataChecks(data);
    EmptyList(data, "sources", AsEmailSource);
  }

  lemma VerifierMetaExample()
    ensures AsMeta(JObject(VerifierMetaBody())) ==
      Some(Meta(None, None, None,
                Some(MetaParams(None, None, None, None, None, None, None, None, Some("test@example.com")))))
  {
    var params := map["email" := JString("test@example.com")];
    var p := MetaParams(None, None, None, None, None, None, None, None, Some("test@example.com"));
    OptionalText(params, "email", Some("test@example.com"));
    assert DecodeMetaParams(params) == Success(p);
    var meta := VerifierMetaBody();
    assert Optional(meta, "params", AsMetaParams) == Success(Some(p));
  }

  /** An email verifier body with empty sources and a meta echoing the address. */
  lemma EmailVerificationResponseExample()
    ensures DecodeEmailVerificationResponse(map["data" := JObject(VerifierDataBody()),
                                                "meta" := JObject(VerifierMetaBody())])
         == Success(EmailVerificationResponse(
              EmailVerificationData("valid", "deliverable", 100, "test@example.com", true, false, false,
                                    false, true, true, true, false, false, []),
              Meta(None, None, None,
                   Some(MetaParams(None, None, None, None, None, None, None, None, Some("test@example.com"))))))
  {
    VerifierDataExample(VerifierDataBody());
    VerifierMetaExample();
  }
}
