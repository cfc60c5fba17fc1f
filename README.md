# Hunter.io client, modelled in Dafny

This project models the core of a small Python client for the Hunter.io v2
REST API: the domain search, email finder and email verifier operations.
The model covers three parts:

- **The client** (module `Client`, file `client.dfy`).
  - `HunterClient` is a class holding the API key, the timeout and the base URL.
  - Its operations validate their arguments, then build the query map one conditional insert at a time. String arguments follow Python truthiness: `None` and `""` are both left out. Integer arguments are left out only when `None`, so `0` is sent.
  - `MakeRequest` adds the `api_key` and joins the endpoint to `https://api.hunter.io/v2/`.
  - The HTTP exchange is a parameter `reply`: either a transport failure, or a status code with a body. The body is parsed JSON or unparsable text.
  - Classification turns the reply into JSON or an error: 401 is an authentication error and 429 a rate-limit error. Any other status from 400 up is a generic error whose message is `errors[0].details`, or `"API request failed"` without it. Below 400 the body must parse.
  - Each operation returns the request it would send, or `None` when it rejects its arguments first. It also returns the response record or the error.
- **The response records** (module `Models`, file `models.dfy`).
  - Each pydantic record is a datatype.
  - Each record's decoder turns a JSON object into that record. Required keys must be present with the right JSON type. Absent or null optional scalars become `None`. Absent lists become `[]`.
  - `ModelProperties` (file `model_properties.dfy`) holds a reference encoder. It proves that every record decodes back from its encoding, and that objects holding only the required fields decode to the documented defaults.
- **The error taxonomy** (module `Exceptions`, file `exceptions.dfy`).
  - `HunterAPIError` and its two subclasses are one datatype carrying a class, a message and a status code.

`wrappers.dfy` holds `Option` and `Result`. `json.dfy` holds the JSON value type.

Python exceptions that the client lets escape are modelled as `ClientError.Uncaught`:

- a `TypeError` from `"errors" in <body>` when the body is null, a boolean or a number;
- a `TypeError` from the subscript `body["errors"]` when the body is a string containing `errors`, or an array containing the string `"errors"`;
- an `AttributeError` from `.get` on a first error entry that is not a dict;
- a `TypeError` from `Record(**data)` on a body that is not an object.

## Model

| member | source | states |
|---|---|---|
| Exceptions.NewError | hunter_client/exceptions.py:4-24 | the message is kept verbatim and is the error's string form; the status code defaults to 0 and is otherwise kept; the error is an instance of exactly its own class and `HunterAPIError` |
| Models.Required | hunter_client/models.py:11-15 | a required field decodes iff its key is present and its value has the declared JSON type; otherwise it fails, naming the key as missing or invalid |
| Models.Optional | hunter_client/models.py:21-22 | an absent or null optional field decodes to `None`; it decodes iff it is absent, null or of the declared type, and otherwise the key is named as invalid; on success the field holds what the value converts to |
| Models.Each | hunter_client/models.py:31 | a list decodes iff every item does, item by item, keeping length and order |
| Models.ListOf | hunter_client/models.py:31 | a list field decodes iff it is absent, or an array whose every item decodes; an absent list is `[]`, a present one holds those items in order; otherwise the key is named as invalid |
| Models.DecodeEmailSource | hunter_client/models.py:8-15 | decodes iff all five fields are present with their JSON types, and the record holds their values |
| Models.DecodeEmailVerification | hunter_client/models.py:18-22 | decodes iff each of the two fields is absent, null or a string, so neither field is needed; each field holds the given string, or `None` when it is absent or null |
| Models.DecodeEmail | hunter_client/models.py:25-40 | decodes iff value, type and confidence are present with their types, every optional field is absent, null or of its type, and sources is absent or an array of decodable sources; the record holds the required values; each optional field holds the object's value, or `None` when absent or null; sources hold the decoded array, `[]` when absent |
| Models.DecodeDomainSearchData | hunter_client/models.py:43-68 | decodes iff domain, disposable, webmail and accept_all are present with their types, each of the sixteen optional strings is absent, null or a string, and each of technologies, emails and linked_domains is absent or an array of decodable items; the record holds the required values; each optional string holds the object's value, or `None` when absent or null; the three lists hold the decoded arrays, `[]` when absent |
| Models.DecodeMetaParams | hunter_client/models.py:71-82 | decodes iff each of the nine fields is absent, null or a string, so no field is needed; each field holds the given string, or `None` when it is absent or null |
| Models.DecodeMeta | hunter_client/models.py:85-91 | decodes iff results, limit and offset are each absent, null or an integer and params is absent, null or a decodable parameter object; the counts hold the given integers, or `None` when absent or null; params is `None` exactly when absent or null, and otherwise the decoded parameter record |
| Models.DecodeDomainSearchResponse | hunter_client/models.py:94-98 | succeeds iff both `data` and `meta` are present and decode, and holds exactly those two records |
| Models.DecodeEmailFinderData | hunter_client/models.py:101-116 | decodes iff the six scalar fields are present with their types, every optional field is absent, null or of its type, and sources is absent or an array of decodable sources; the record holds the required values; each optional field holds the object's value, or `None` when absent or null; sources hold the decoded array, `[]` when absent |
| Models.DecodeEmailFinderResponse | hunter_client/models.py:119-123 | succeeds iff both `data` and `meta` are present and decode, and holds exactly those two records |
| Models.DecodeEmailVerificationData | hunter_client/models.py:126-142 | decodes iff the thirteen scalar fields are present with their types and sources is absent or an array of decodable sources; the record holds their values; sources hold the decoded array, `[]` when absent |
| Models.DecodeEmailVerificationResponse | hunter_client/models.py:145-149 | succeeds iff both `data` and `meta` are present and decode, and holds exactly those two records |
| ModelProperties.EmailSourceRoundTrip | hunter_client/models.py:8-15 | every email source decodes back from its JSON object |
| ModelProperties.EmailVerificationRoundTrip | hunter_client/models.py:18-22 | every verification record decodes back from its JSON object |
| ModelProperties.EmailRoundTrip | hunter_client/models.py:25-40 | every email, sources and verification included, decodes back from its JSON object |
| ModelProperties.DomainSearchDataRoundTrip | hunter_client/models.py:43-68 | every domain search data record, nested emails included, decodes back from its JSON object |
| ModelProperties.MetaParamsRoundTrip | hunter_client/models.py:71-82 | every echoed parameter record decodes back from its JSON object |
| ModelProperties.MetaRoundTrip | hunter_client/models.py:85-91 | every meta record decodes back from its JSON object |
| ModelProperties.DomainSearchResponseRoundTrip | hunter_client/models.py:94-98 | every domain search response decodes back from its JSON object |
| ModelProperties.EmailFinderDataRoundTrip | hunter_client/models.py:101-116 | every email finder data record decodes back from its JSON object |
| ModelProperties.EmailFinderResponseRoundTrip | hunter_client/models.py:119-123 | every email finder response decodes back from its JSON object |
| ModelProperties.EmailVerificationDataRoundTrip | hunter_client/models.py:126-142 | every email verification data record decodes back from its JSON object |
| ModelProperties.EmailVerificationResponseRoundTrip | hunter_client/models.py:145-149 | every email verification response decodes back from its JSON object |
| ModelProperties.EmailSourceNeedsAllFields | hunter_client/models.py:8-15 | an object missing any of the five fields does not decode |
| ModelProperties.EmailVerificationDefaults | hunter_client/models.py:18-22 | the empty object decodes to both fields `None` |
| ModelProperties.EmailDefaults | hunter_client/models.py:25-40 | an object with only value, type and confidence decodes to no sources and every other field `None` |
| ModelProperties.DomainSearchDataDefaults | hunter_client/models.py:43-68 | an object with only the four required fields decodes to empty lists and every other field `None` |
| ModelProperties.MetaDefaults | hunter_client/models.py:85-91 | the empty object decodes to all four fields `None` |
| ModelProperties.EmailFinderDataDefaults | hunter_client/models.py:101-116 | an object with only the six required fields decodes to no sources and every other field `None` |
| ModelProperties.EmailVerificationDataDefaults | hunter_client/models.py:126-142 | any object holding the thirteen scalar fields with their types and no sources decodes, to those values and no sources |
| ModelProperties.DomainSearchResponseExample | tests/test_client.py:120-134 | the mocked domain search body decodes, its lists empty, every absent optional field `None`, and the meta holding the counts and only the echoed domain |
| ModelProperties.EmailFinderResponseExample | tests/test_client.py:161-177 | the mocked email finder body decodes, its sources empty, every absent optional field `None`, and the meta holding only the echoed domain and names |
| ModelProperties.EmailVerificationResponseExample | tests/test_client.py:201-221 | the mocked email verifier body decodes, its sources empty, and the meta holding only the echoed address |
| Client.ExtractErrorMessage | hunter_client/client.py:124-143 | the message is `errors[0].details` whenever the body has that shape, and the fallback text otherwise, even for an unparsable body; an object body never raises anything but `AttributeError`, which it raises exactly when the first entry of a non-empty `errors` list is not an object; a null, boolean or number raises `TypeError`, and so does a string containing `errors` or an array containing `"errors"`, exactly then |
| Client.ParseJsonResponse | hunter_client/client.py:145-160 | a parsed body is returned as is; an unparsable one is an `"Invalid JSON response: "` error with status 0 |
| Client.ProcessResponse | hunter_client/client.py:96-122 | success iff the status is below 400 and the body parses; an authentication error iff 401 and a rate-limit error iff 429, with their fixed messages and statuses; any other status from 400 up gives a generic `HunterAPIError` with that status and the extracted message (`"API request failed"` for an unparsable body), or the exception the extraction lets escape |
| Client.ExecuteRequest | hunter_client/client.py:84-94 | a transport failure is a `"Request failed: "` error with status 0; a response is classified by status |
| Client.Instantiate | hunter_client/client.py:213-214 | data that is not an object raises `TypeError`; an object becomes the record its decoder yields, or the decoder's error |
| Client.Receive | hunter_client/client.py:264-265 | an operation's result is the classification error, or the record built from the parsed data |
| Client.ValidateEmailFinderParams | hunter_client/client.py:267-293 | no error iff a domain or company is present and either both names or a full name are; the domain-or-company message takes precedence over the name message |
| Client.NameCheck | hunter_client/client.py:287-293 | a first name without a last name or full name is rejected; a full name suffices; domain and company are interchangeable |
| Client.SignedIsUpdate | hunter_client/client.py:56-59 | the sent query is the caller's map with `api_key` set, overwriting any earlier value; a key-free map gets exactly one new entry |
| Client.DomainOnlyQuery | hunter_client/client.py:194-211 | a search by domain alone sends exactly `{"domain": d}` |
| Client.AddFilters | hunter_client/client.py:204-211 | each filter is sent under its own key, `type` for the type filter, exactly when it is present; earlier entries are kept and no other key is added |
| Client.HunterClient.constructor | hunter_client/client.py:15-31 | stores the key and the timeout |
| Client.HunterClient.Create | hunter_client/client.py:15-31 | fails with "API key is required" iff the key is empty; otherwise a new client holds the key and the timeout, which defaults to 30 |
| Client.HunterClient.MakeRequest | hunter_client/client.py:33-61 | the URL is the base URL followed by the endpoint; absent parameters mean an empty map; the client's key is set under `api_key`; the reply is classified |
| Client.HunterClient.DomainSearchParams | hunter_client/client.py:191-211 | fails iff neither domain nor company is present; otherwise the map holds exactly the present arguments, the integers whenever they are not `None` |
| Client.HunterClient.DomainSearch | hunter_client/client.py:162-214 | rejects before sending iff neither domain nor company is present; otherwise sends a GET to `domain-search`, with the client's timeout, the key and exactly the present arguments, and returns the decoded response |
| Client.HunterClient.EmailFinderParams | hunter_client/client.py:241-262 | fails with the validation message iff validation fails; otherwise the map holds exactly the present arguments, `max_duration` whenever it is not `None` |
| Client.HunterClient.EmailFinder | hunter_client/client.py:216-265 | rejects before sending iff validation fails; otherwise sends a GET to `email-finder`, with the client's timeout, the key and exactly the present arguments, and returns the decoded response |
| Client.HunterClient.EmailVerifier | hunter_client/client.py:295-312 | rejects an empty address before sending; otherwise the query is exactly the address and the key, sent to `email-verifier`, and the decoded response is returned |

## Left out

- The HTTP session, the network call, the timeout's effect and the `RequestException` hierarchy are I/O in a foreign library. The transport's result is the `reply` parameter, and an exception's text is its `description`.
- `urljoin` is modelled as string concatenation, which is what it does for the fixed base and the relative endpoints used here.
- Byte-level JSON parsing and floating-point numbers are left out. A body is a JSON value or unparsable text with the parser's message.
- Pydantic's type coercion (for example `"5"` into an `int`), its handling of extra keys, and its validation error reports are left out. Decoding accepts exactly the declared JSON types, and a failure names one field of the outermost record.
- Client.ExtractErrorMessage: a `details` value that is not a string gives the fallback message. The source would store the raw non-string value as the message.
- Client.HunterClient.MakeRequest: the source adds `api_key` to the caller's own dict, which the caller sees afterwards. The model works on map values, so that aliasing is not captured.
- Client.HunterClient.constructor: it requires a non-empty key. `Create` is the entry point that models the `ValueError` for an empty key.
- The `session` field is not modelled, because it is only used for the network call.
- `example.py` (console output) and `hunter_client/__init__.py` (re-exports) are not part of this model.
