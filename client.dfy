/**
 * The request client: argument validation, query construction, and the
 * classification of an HTTP outcome into parsed JSON or a typed error.
 *
 * The HTTP exchange itself is not modelled: each operation takes `reply`,
 * the outcome the transport delivers for the request it sends, and returns
 * that request (or `None` when it rejects its arguments before sending).
 */
module Client {
  import opened Wrappers
  import opened Json
  import opened Exceptions
  import opened Models

  const BaseUrl: string := "https://api.hunter.io/v2/"
  const DefaultTimeout: int := 30

  const ApiKeyRequired: string := "API key is required"
  const DomainOrCompanyRequired: string := "Either domain or company must be provided"
  const NameRequired: string := "Either first_name and last_name, or full_name must be provided"
  const EmailAddressRequired: string := "Email address is required"
  const InvalidApiKey: string := "Invalid API key"
  const RateLimitExceeded: string := "Rate limit exceeded"
  const ErrorFallback: string := "API request failed"
  const RequestFailed: string := "Request failed: "
  const InvalidJson: string := "Invalid JSON response: "

  /** A query-parameter value: a string or an integer argument. */
  datatype Value = Text(s: string) | Number(n: int)

  /** The query parameters of a request. */
  type Params = map<string, Value>

  /** What is handed to the HTTP session. */
  datatype Request = Request(httpMethod: string, url: string, query: Params, timeout: int)

  /** A response body: JSON the transport could parse, or text it could not. */
  datatype Body = Parsed(json: Json) | Unparsable(reason: string)

  /** What the transport delivers: a request exception, or a status and a body. */
  datatype HttpOutcome = TransportFailure(description: string) | Response(status: int, body: Body)

  /** Python exceptions the client lets escape unhandled. */
  datatype PyException = TypeError | AttributeError

  /** Every way an operation can fail. `Validation` is the source's `ValueError`. */
  datatype ClientError =
    | Validation(message: string)
    | Api(error: HunterError)
    | Schema(schema: SchemaError)
    | Uncaught(exception: PyException)

  /** Python truthiness of an optional string: neither `None` nor empty. */
  predicate Present(arg: Option<string>) {
    arg.Some? && arg.value != ""
  }

  // ---------------------------------------------------------------------
  // Response classification

  /** Python's `t in s` on strings. */
  function HasInfix(s: string, t: string): bool
    decreases |s|
  {
    if |s| < |t| then false else s[..|t|] == t || HasInfix(s[1..], t)
  }

  /** The body has the documented error shape `{"errors": [{"details": d, ...}, ...]}`. */
  predicate HasDetails(body: Body, d: string) {
    && body.Parsed? && body.json.JObject?
    && "errors" in body.json.obj
    && body.json.obj["errors"].JArray?
    && |body.json.obj["errors"].items| > 0
    && body.json.obj["errors"].items[0].JObject?
    && "details" in body.json.obj["errors"].items[0].obj
    && body.json.obj["errors"].items[0].obj["details"] == JString(d)
  }

  /**
   * The message of an error response: `errors[0].details` when the body has
   * that shape, otherwise the fallback. The membership test `"errors" in`
   * raises `TypeError` on a null, boolean or number; on a string holding
   * `errors`, or an array holding the string `"errors"`, the test passes and
   * the subscript `["errors"]` raises `TypeError`. A first entry that is not
   * an object makes `.get` raise `AttributeError`.
   */
  function ExtractErrorMessage(body: Body): (r: Result<string, PyException>)
    ensures forall d :: HasDetails(body, d) ==> r == Success(d)
    ensures r.Success? && r.value != ErrorFallback ==> HasDetails(body, r.value)
    ensures body.Unparsable? ==> r == Success(ErrorFallback)
    ensures r.Failure? ==> body.Parsed?
    ensures r == Failure(AttributeError) <==>
      && body.Parsed? && body.json.JObject? && "errors" in body.json.obj
      && body.json.obj["errors"].JArray? && |body.json.obj["errors"].items| > 0
      && !body.json.obj["errors"].items[0].JObject?
    ensures body.Parsed? && (body.json.JNull? || body.json.JBool? || body.json.JInt?) ==> r == Failure(TypeError)
    ensures body.Parsed? && body.json.JObject? ==> r.Success? || r == Failure(AttributeError)
    ensures body.Parsed? && body.json.JArray? ==>
      (r.Failure? <==> JString("errors") in body.json.items) && (r.Failure? ==> r.error == TypeError)
    ensures body.Parsed? && body.json.JString? ==>
      (r.Failure? <==> HasInfix(body.json.str, "errors")) && (r.Failure? ==> r.error == TypeError)
  {
    match body
    case Unparsable(_) => Success(ErrorFallback)
    case Parsed(j) =>
      match j
      case JObject(m) =>
        if "errors" !in m then Success(ErrorFallback)
        else if !m["errors"].JArray? || |m["errors"].items| == 0 then Success(ErrorFallback)
        else (
          match m["errors"].items[0]
          case JObject(first) =>
            if "details" in first && first["details"].JString? then Success(first["details"].str)
            else Success(ErrorFallback)
          case _ => Failure(AttributeError))
      case JArray(xs) => if JString("errors") in xs then Failure(TypeError) else Success(ErrorFallback)
      case JString(s) => if HasInfix(s, "errors") then Failure(TypeError) else Success(ErrorFallback)
      case _ => Failure(TypeError)
  }

  /** A success response's body: its JSON, or an error if it does not parse. */
  function ParseJsonResponse(body: Body): (r: Result<Json, ClientError>)
    ensures r.Success? <==> body.Parsed?
    ensures body.Parsed? ==> r == Success(body.json)
    ensures body.Unparsable? ==> r == Failure(Api(NewError(HunterApiError, InvalidJson + body.reason)))
  {
    match body
    case Parsed(j) => Success(j)
    case Unparsable(reason) => Failure(Api(NewError(HunterApiError, InvalidJson + reason)))
  }

  /** The `api` error of class `cls` that `r` raises, if it raises one. */
  predicate Raises<T>(r: Result<T, ClientError>, cls: ErrorClass) {
    r.Failure? && r.error.Api? && r.error.error.errorClass == cls
  }

  /**
   * Status dispatch: 401 and 429 take precedence, any other status from 400
   * up is a generic error carrying that status, and below 400 the body is
   * parsed.
   */
  function ProcessResponse(status: int, body: Body): (r: Result<Json, ClientError>)
    ensures r.Success? <==> status < 400 && body.Parsed?
    ensures r.Success? ==> r.value == body.json
    ensures Raises(r, HunterAuthError) <==> status == 401
    ensures Raises(r, HunterRateLimitError) <==> status == 429
    ensures status == 401 ==> r == Failure(Api(NewError(HunterAuthError, InvalidApiKey, 401)))
    ensures status == 429 ==> r == Failure(Api(NewError(HunterRateLimitError, RateLimitExceeded, 429)))
    ensures forall d :: HasDetails(body, d) && 400 <= status && status != 401 && status != 429 ==>
      r == Failure(Api(NewError(HunterApiError, d, status)))
    ensures 400 <= status && r.Failure? && r.error.Api? ==> r.error.error.statusCode == status
    ensures 400 <= status && status != 401 && status != 429 && ExtractErrorMessage(body).Success? ==>
      r == Failure(Api(NewError(HunterApiError, ExtractErrorMessage(body).value, status)))
    ensures 400 <= status && status != 401 && status != 429 && ExtractErrorMessage(body).Failure? ==>
      r == Failure(Uncaught(ExtractErrorMessage(body).error))
    ensures 400 <= status && status != 401 && status != 429 && body.Unparsable? ==>
      r == Failure(Api(NewError(HunterApiError, ErrorFallback, status)))
    ensures status < 400 && body.Unparsable? ==>
      r == Failure(Api(NewError(HunterApiError, InvalidJson + body.reason)))
  {
    if status == 401 then Failure(Api(NewError(HunterAuthError, InvalidApiKey, status)))
    else if status == 429 then Failure(Api(NewError(HunterRateLimitError, RateLimitExceeded, status)))
    else if status >= 400 then
      match ExtractErrorMessage(body)
      case Success(message) => Failure(Api(NewError(HunterApiError, message, status)))
      case Failure(e) => Failure(Uncaught(e))
    else ParseJsonResponse(body)
  }

  /** The outcome of sending a request, before the response record is built. */
  function ExecuteRequest(reply: HttpOutcome): (r: Result<Json, ClientError>)
    ensures reply.TransportFailure? ==>
      r == Failure(Api(NewError(HunterApiError, RequestFailed + reply.description)))
    ensures reply.Response? ==> r == ProcessResponse(reply.status, reply.body)
  {
    match reply
    case TransportFailure(description) => Failure(Api(NewError(HunterApiError, RequestFailed + description)))
    case Response(status, body) => ProcessResponse(status, body)
  }

  /**
   * `ResponseClass(**data)`: the data must be an object (otherwise `**`
   * raises `TypeError`) whose keys the record's decoder accepts.
   */
  function Instantiate<T>(data: Json, decode: Fields -> Result<T, SchemaError>): (r: Result<T, ClientError>)
    ensures !data.JObject? ==> r == Failure(Uncaught(TypeError))
    ensures data.JObject? && decode(data.obj).Success? ==> r == Success(decode(data.obj).value)
    ensures data.JObject? && decode(data.obj).Failure? ==> r == Failure(Schema(decode(data.obj).error))
  {
    if !data.JObject? then Failure(Uncaught(TypeError))
    else
      match decode(data.obj)
      case Success(v) => Success(v)
      case Failure(e) => Failure(Schema(e))
  }

  /** The whole response path of an operation: classification, then construction. */
  function Receive<T>(reply: HttpOutcome, decode: Fields -> Result<T, SchemaError>): (r: Result<T, ClientError>)
    ensures ExecuteRequest(reply).Failure? ==> r == Failure(ExecuteRequest(reply).error)
    ensures ExecuteRequest(reply).Success? ==> r == Instantiate(ExecuteRequest(reply).value, decode)
  {
    match ExecuteRequest(reply)
    case Failure(e) => Failure(e)
    case Success(data) => Instantiate(data, decode)
  }

  // ---------------------------------------------------------------------
  // Argument validation and the query maps

  /** The `ValueError` message `email_finder` raises before sending, if any. */
  function ValidateEmailFinderParams(domain: Option<string>, company: Option<string>,
                                     firstName: Option<string>, lastName: Option<string>,
                                     fullName: Option<string>): (r: Option<string>)
    ensures r.None? <==>
      (Present(domain) || Present(company)) && ((Present(firstName) && Present(lastName)) || Present(fullName))
    ensures !Present(domain) && !Present(company) ==> r == Some(DomainOrCompanyRequired)
    ensures (Present(domain) || Present(company)) && r.Some? ==> r == Some(NameRequired)
  {
    if !Present(domain) && !Present(company) then Some(DomainOrCompanyRequired)
    else if !(Present(firstName) && Present(lastName)) && !Present(fullName) then Some(NameRequired)
    else None
  }

  /** A string argument is sent under `key` exactly when it is present. */
  predicate TextParam(q: Params, key: string, arg: Option<string>) {
    && (key in q <==> Present(arg))
    && (key in q ==> q[key] == Text(arg.value))
  }

  /** An integer argument is sent under `key` exactly when it is not `None`. */
  predicate NumberParam(q: Params, key: string, arg: Option<int>) {
    && (key in q <==> arg.Some?)
    && (key in q ==> q[key] == Number(arg.value))
  }

  const DomainSearchKeys: set<string> :=
    {"domain", "company", "limit", "offset", "type", "seniority", "department", "required_field"}

  const EmailFinderKeys: set<string> :=
    {"domain", "company", "first_name", "last_name", "full_name", "max_duration"}

  /** The optional filters of `domain_search`. */
  const FilterKeys: set<string> := {"type", "seniority", "department", "required_field"}

  /**
   * The last four inserts of `domain_search`: each filter is sent under its
   * own key (`type` for the type filter) exactly when it is present, and
   * the entries already in `q` are kept.
   */
  method AddFilters(q: Params, typeFilter: Option<string>, seniority: Option<string>,
                    department: Option<string>, requiredField: Option<string>)
    returns (r: Params)
    requires forall k :: k in q ==> k !in FilterKeys
    ensures TextParam(r, "type", typeFilter) && TextParam(r, "seniority", seniority)
    ensures TextParam(r, "department", department) && TextParam(r, "required_field", requiredField)
    ensures forall k :: k in r ==> k in q || k in FilterKeys
    ensures forall k :: k in q ==> k in r && r[k] == q[k]
  {
    r := q;
    if Present(typeFilter) {
      r := r["type" := Text(typeFilter.value)];
    }
    if Present(seniority) {
      r := r["seniority" := Text(seniority.value)];
    }
    if Present(department) {
      r := r["department" := Text(department.value)];
    }
    if Present(requiredField) {
      r := r["required_field" := Text(requiredField.value)];
    }
  }

  /** The parameters `domain_search` sends, before the key is added. */
  predicate DomainSearchQuery(q: Params, domain: Option<string>, company: Option<string>,
                              limit: Option<int>, offset: Option<int>, typeFilter: Option<string>,
                              seniority: Option<string>, department: Option<string>,
                              requiredField: Option<string>) {
    && q.Keys <= DomainSearchKeys
    && TextParam(q, "domain", domain)
    && TextParam(q, "company", company)
    && NumberParam(q, "limit", limit)
    && NumberParam(q, "offset", offset)
    && TextParam(q, "type", typeFilter)
    && TextParam(q, "seniority", seniority)
    && TextParam(q, "department", department)
    && TextParam(q, "required_field", requiredField)
  }

  /** The parameters `email_finder` sends, before the key is added. */
  predicate EmailFinderQuery(q: Params, domain: Option<string>, company: Option<string>,
                             firstName: Option<string>, lastName: Option<string>,
                             fullName: Option<string>, maxDuration: Option<int>) {
    && q.Keys <= EmailFinderKeys
    && TextParam(q, "domain", domain)
    && TextParam(q, "company", company)
    && TextParam(q, "first_name", firstName)
    && TextParam(q, "last_name", lastName)
    && TextParam(q, "full_name", fullName)
    && NumberParam(q, "max_duration", maxDuration)
  }

  /** `params` with `"api_key"` set to `key`, overwriting any previous value. */
  predicate Signed(q: Params, params: Params, key: string) {
    && "api_key" in q && q["api_key"] == Text(key)
    && (forall k :: k in q && k != "api_key" ==> k in params && q[k] == params[k])
    && (forall k :: k in params ==> k in q)
  }

  /** A signed query is the caller's map plus the key, and nothing else. */
  lemma SignedIsUpdate(q: Params, params: Params, key: string)
    requires Signed(q, params, key)
    ensures q == params["api_key" := Text(key)]
    ensures "api_key" !in params ==> q - {"api_key"} == params
  {
    assert q.Keys == params.Keys + {"api_key"};
    if "api_key" !in params {
      assert (q - {"api_key"}).Keys == params.Keys;
    }
  }

  /** A search by domain alone sends exactly that domain. */
  lemma DomainOnlyQuery(q: Params, d: string)
    requires d != ""
    requires DomainSearchQuery(q, Some(d), None, None, None, None, None, None, None)
    ensures q == map["domain" := Text(d)]
  {
    assert q.Keys == {"domain"};
  }

  /**
   * The name check: a first name needs a last name unless a full name is
   * given, and a full name suffices on its own.
   */
  lemma NameCheck(target: Option<string>, firstName: Option<string>, lastName: Option<string>,
                  fullName: Option<string>)
    requires Present(target)
    ensures !Present(lastName) && !Present(fullName) ==>
      ValidateEmailFinderParams(target, None, firstName, lastName, fullName) == Some(NameRequired)
    ensures Present(fullName) ==> ValidateEmailFinderParams(target, None, firstName, lastName, fullName).None?
    ensures ValidateEmailFinderParams(None, target, firstName, lastName, fullName)
         == ValidateEmailFinderParams(target, None, firstName, lastName, fullName)
  {
  }

  // ---------------------------------------------------------------------
  // The client

  class HunterClient {
    const apiKey: string
    const timeout: int
    const baseUrl: string := BaseUrl

    /** Stores the key and the timeout; `Create` is the checked entry point. */
    constructor (apiKey: string, timeout: int := DefaultTimeout)
      requires apiKey != ""
      ensures this.apiKey == apiKey && this.timeout == timeout
    {
      this.apiKey := apiKey;
      this.timeout := timeout;
    }

    /** `HunterClient(api_key, timeout=30)`: an empty key is rejected. */
    static method Create(apiKey: string, timeout: int := DefaultTimeout) returns (r: Result<HunterClient, ClientError>)
      ensures r.Failure? <==> apiKey == ""
      ensures r.Failure? ==> r.error == Validation(ApiKeyRequired)
      ensures r.Success? ==> fresh(r.value) && r.value.apiKey == apiKey && r.value.timeout == timeout
    {
      if apiKey == "" {
        return Failure(Validation(ApiKeyRequired));
      }
      var client := new HunterClient(apiKey, timeout);
      return Success(client);
    }

    /**
     * Sends `params` (none given means none) with the key added to
     * `baseUrl + endpoint`, and classifies the reply.
     */
    method MakeRequest(endpoint: string, reply: HttpOutcome, params: Option<Params> := None,
                       httpMethod: string := "GET")
      returns (sent: Request, result: Result<Json, ClientError>)
      ensures sent.httpMethod == httpMethod && sent.url == BaseUrl + endpoint && sent.timeout == timeout
      ensures Signed(sent.query, if params.Some? then params.value else map[], apiKey)
      ensures result == ExecuteRequest(reply)
    {
      var url := baseUrl + endpoint;
      var query: Params := if params.None? then map[] else params.value;
      query := query["api_key" := Text(apiKey)];
      sent := Request(httpMethod, url, query, timeout);
      result := ExecuteRequest(reply);
    }

    /**
     * The parameter map `domain_search` builds, one conditional insert at a
     * time, or the `ValueError` it raises when neither a domain nor a company
     * is given.
     */
    method DomainSearchParams(domain: Option<string>, company: Option<string>, limit: Option<int>,
                              offset: Option<int>, typeFilter: Option<string>, seniority: Option<string>,
                              department: Option<string>, requiredField: Option<string>)
      returns (r: Result<Params, ClientError>)
      ensures r.Failure? <==> !Present(domain) && !Present(company)
      ensures r.Failure? ==> r.error == Validation(DomainOrCompanyRequired)
      ensures r.Success? ==> DomainSearchQuery(r.value, domain, company, limit, offset, typeFilter, seniority,
                                               department, requiredField)
    {
      if !Present(domain) && !Present(company) {
        return Failure(Validation(DomainOrCompanyRequired));
      }
      var params: Params := map[];
      if Present(domain) {
        params := params["domain" := Text(domain.value)];
      }
      if Present(company) {
        params := params["company" := Text(company.value)];
      }
      if limit.Some? {
        params := params["limit" := Number(limit.value)];
      }
      if offset.Some? {
        params := params["offset" := Number(offset.value)];
      }
      params := AddFilters(params, typeFilter, seniority, department, requiredField);
      return Success(params);
    }

    /** `domain_search`: needs a domain or a company; sends only the present arguments. */
    method DomainSearch(reply: HttpOutcome, domain: Option<string> := None, company: Option<string> := None,
                        limit: Option<int> := None, offset: Option<int> := None,
                        typeFilter: Option<string> := None, seniority: Option<string> := None,
                        department: Option<string> := None, requiredField: Option<string> := None)
      returns (sent: Option<Request>, result: Result<DomainSearchResponse, ClientError>)
      ensures sent.None? <==> !Present(domain) && !Present(company)
      ensures sent.None? ==> result == Failure(Validation(DomainOrCompanyRequired))
      ensures sent.Some? ==> sent.value.url == BaseUrl + "domain-search" && sent.value.httpMethod == "GET"
      ensures sent.Some? ==> sent.value.timeout == timeout
      ensures sent.Some? ==> "api_key" in sent.value.query && sent.value.query["api_key"] == Text(apiKey)
      ensures sent.Some? ==> DomainSearchQuery(sent.value.query - {"api_key"}, domain, company, limit, offset,
                                               typeFilter, seniority, department, requiredField)
      ensures sent.Some? ==> result == Receive(reply, DecodeDomainSearchResponse)
    {
      var params := DomainSearchParams(domain, company, limit, offset, typeFilter, seniority, department,
                                       requiredField);
      if params.Failure? {
        return None, Failure(params.error);
      }
      var request, _ := MakeRequest("domain-search", reply, Some(params.value));
      SignedIsUpdate(request.query, params.value, apiKey);
      sent := Some(request);
      result := Receive(reply, DecodeDomainSearchResponse);
    }

    /**
     * The parameter map `email_finder` builds after validating its
     * arguments, or the `ValueError` the validation raises.
     */
    method EmailFinderParams(domain: Option<string>, company: Option<string>, firstName: Option<string>,
                             lastName: Option<string>, fullName: Option<string>, maxDuration: Option<int>)
      returns (r: Result<Params, ClientError>)
      ensures r.Failure? <==> ValidateEmailFinderParams(domain, company, firstName, lastName, fullName).Some?
      ensures r.Failure? ==>
        r.error == Validation(ValidateEmailFinderParams(domain, company, firstName, lastName, fullName).value)
      ensures r.Success? ==> EmailFinderQuery(r.value, domain, company, firstName, lastName, fullName, maxDuration)
    {
      var invalid := ValidateEmailFinderParams(domain, company, firstName, lastName, fullName);
      if invalid.Some? {
        return Failure(Validation(invalid.value));
      }
      var params: Params := map[];
      if Present(domain) {
        params := params["domain" := Text(domain.value)];
      }
      if Present(company) {
        params := params["company" := Text(company.value)];
      }
      if Present(firstName) {
        params := params["first_name" := Text(firstName.value)];
      }
      if Present(lastName) {
        params := params["last_name" := Text(lastName.value)];
      }
      if Present(fullName) {
        params := params["full_name" := Text(fullName.value)];
      }
      if maxDuration.Some? {
        params := params["max_duration" := Number(maxDuration.value)];
      }
      return Success(params);
    }

    /**
     * `email_finder`: needs a domain or a company, then both names or a
     * full name; sends only the present arguments.
     */
    method EmailFinder(reply: HttpOutcome, domain: Option<string> := None, company: Option<string> := None,
                       firstName: Option<string> := None, lastName: Option<string> := None,
                       fullName: Option<string> := None, maxDuration: Option<int> := None)
      returns (sent: Option<Request>, result: Result<EmailFinderResponse, ClientError>)
      ensures sent.None? <==> ValidateEmailFinderParams(domain, company, firstName, lastName, fullName).Some?
      ensures sent.None? ==>
        result == Failure(Validation(ValidateEmailFinderParams(domain, company, firstName, lastName, fullName).value))
      ensures sent.Some? ==> sent.value.url == BaseUrl + "email-finder" && sent.value.httpMethod == "GET"
      ensures sent.Some? ==> sent.value.timeout == timeout
      ensures sent.Some? ==> "api_key" in sent.value.query && sent.value.query["api_key"] == Text(apiKey)
      ensures sent.Some? ==> EmailFinderQuery(sent.value.query - {"api_key"}, domain, company, firstName,
                                              lastName, fullName, maxDuration)
      ensures sent.Some? ==> result == Receive(reply, DecodeEmailFinderResponse)
    {
      var params := EmailFinderParams(domain, company, firstName, lastName, fullName, maxDuration);
      if params.Failure? {
        return None, Failure(params.error);
      }
      var request, _ := MakeRequest("email-finder", reply, Some(params.value));
      SignedIsUpdate(request.query, params.value, apiKey);
      sent := Some(request);
      result := Receive(reply, DecodeEmailFinderResponse);
    }

    /** `email_verifier`: needs a non-empty address, which is all it sends. */
    method EmailVerifier(reply: HttpOutcome, email: string)
      returns (sent: Option<Request>, result: Result<EmailVerificationResponse, ClientError>)
      ensures sent.None? <==> email == ""
      ensures sent.None? ==> result == Failure(Validation(EmailAddressRequired))
      ensures sent.Some? ==> sent.value.url == BaseUrl + "email-verifier" && sent.value.httpMethod == "GET"
      ensures sent.Some? ==> sent.value.timeout == timeout
      ensures sent.Some? ==> sent.value.query == map["email" := Text(email), "api_key" := Text(apiKey)]
      ensures sent.Some? ==> result == Receive(reply, DecodeEmailVerificationResponse)
    {
      if email == "" {
        return None, Failure(Validation(EmailAddressRequired));
      }
      var params: Params := map["email" := Text(email)];
      var request, _ := MakeRequest("email-verifier", reply, Some(params));
      SignedIsUpdate(request.query, params, apiKey);
      sent := Some(request);
      result := Receive(reply, DecodeEmailVerificationResponse);
    }
  }
}
