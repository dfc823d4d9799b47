# chargehound-go, modelled in Dafny

This project models the request logic of the Go bindings for the
Chargehound disputes API:

- how the bindings build a client;
- how one call on the disputes resource becomes one HTTP request;
- how the response is routed to a decoded value or to a classified error.

The HTTP client and the JSON decoder are not modelled as code. They enter
as a record of functions (`Requestor.Net`), so every statement below holds
for any network behaviour and any decoder.

Modules, one file each:

- `Wrappers` (`wrappers.dfy`): the `Option` type.
- `Json` (`json.dfy`): JSON values, and how `encoding/json` writes a struct.
  A struct is a list of tagged fields. A field tagged `omitempty` is dropped
  when its value is empty: `false`, `0`, `""`, an empty map or list, or null.
  The typed readers read a missing member as the Go zero value.
- `Encoding` (`encoding.dfy`): the standard-library encodings the requests go
  through, written out in full:
  - UTF-8;
  - base64, as in section 4 of RFC 4648;
  - `url.QueryEscape`;
  - `url.Values.Encode`, which joins the pairs in ascending key order.
- `Errors` (`errors.go`, in `errors.dfy`):
  - the six error kinds;
  - the status switch of `responseToError`;
  - the `Error`, `StatusCode` and `Type` accessors.
- `Requestor` (`requestor.go`, in `requestor.dfy`):
  - `newAPIRequestor`, as a method proved against the function `Describe`;
  - the header set: Basic credentials as in section 2 of RFC 7617, User-Agent and Content-Type;
  - `newRequest`, as a method proved against the function `Perform`.
- `DisputeRequests` (the pure parts of `disputes.go`, in `dispute_requests.dfy`):
  - the products, create and update bodies, and their round trips through the JSON reader;
  - the List query;
  - the route table of the seven operations.
- `Chargehound` (`chargehound.go` and the operations of `disputes.go`, in `chargehound.dfy`):
  - the `Client` class and its constructor `New`;
  - the `Disputes` class, whose seven methods are proved against the function `Dispatch`.

Where the repository's tests or documentation disagree with the
code, the model follows the code:

- A List call always passes a query, so its URL ends in `?` even when no key is set.
- `Content-Type: application/json` is sent on every request, with or without a body.
- The API version is stored in the client but is never sent.
- `limit` is sent as `string(int)`: a single code point, not decimal digits.
- Update bodies have no `template_id` key.
- The error labels are those of `errors.go`, for example "Server Error".

## Model

| member | source | states |
|---|---|---|
| Errors.KindOf | errors.go:45-58 | Statuses 400, 401, 403, 404 and 500 give Bad Request, Unauthorized, Forbidden, Not Found and Server Error. Each holds in both directions. Every other status gives the generic Error kind. |
| Errors.LabelsDistinct | errors.go:10-17 | Two kinds whose labels start with the same letter are the same kind. So the six labels are pairwise distinct. |
| Errors.ErrorResponse.Error | errors.go:63-65 | The rendered error is the kind's label, then ": ", then the message. The length and all three parts are pinned. |
| Errors.ResponseToError | errors.go:37-61 | An envelope that fails to decode gives that decode error unchanged. Otherwise the result is an API error whose StatusCode is the envelope's status, whose message is the envelope's, and whose Type is the kind of that status. |
| Errors.ErrorStringInjective | errors.go:63-65 | Two errors that render to the same string have the same kind and the same message. |
| Errors.KindIgnoresBodyType | errors.go:45-58 | Two envelopes with the same status get the same kind, whatever error type their bodies named. |
| Errors.RenderedErrors | errors.go:45-65 | The rendered strings for statuses 400, 401, 403, 404, 500 and 502 with any message, for example "Not Found: " + message. |
| Errors.NotFoundExample | errors.go:52-65 | A 404 envelope with message "not found" has Type Not Found and StatusCode 404, and renders as "Not Found: not found". |
| Requestor.UserAgent | requestor.go:42 | The User-Agent is "Chargehound/v1 GoBindings/" followed by the client version. |
| Requestor.RequestURL | requestor.go:29-33 | Without a query, the URL is protocol + host + base path + path. With a query, it is followed by "?" and the encoded query. |
| Requestor.EmptyQueryKeepsMark | requestor.go:31-33 | An empty query still appends "?": the mark depends on a query being passed, not on its contents. |
| Requestor.Describe | requestor.go:20-46 | The per-call client is used when given, and the default client otherwise. Key, User-Agent and URL come from the client settings. Method, body and query pass through unchanged. |
| Requestor.NewAPIRequestor | requestor.go:20-46 | The requestor built step by step equals Describe of the same inputs. It never fails. |
| Requestor.SetHeader | requestor.go:54 | After Set, the name holds exactly the one value. Other names are unchanged. |
| Requestor.AddHeader | requestor.go:56-57 | After Add, the value follows those the name already held. Other names are unchanged. |
| Requestor.Headers | requestor.go:54-57 | Every request carries exactly three headers: Basic credentials for the key with an empty password, the User-Agent, and Content-Type application/json. |
| Requestor.BasicAuth | requestor.go:54 | The Authorization value for a user name and password starts with "Basic ", and the rest decodes as base64 to exactly the UTF-8 bytes of user + ":" + password. |
| Requestor.CredentialsCarryKey | requestor.go:54 | The Authorization value is "Basic " followed by text that decodes to exactly the UTF-8 bytes of key + ":". |
| Requestor.ApiKeyCredentials | requestor.go:54 | The key "api_key" gives "Basic YXBpX2tleTo=". |
| Requestor.Outbound | requestor.go:49-57 | The request handed to the HTTP client has the requestor's method, URL and body, and the fixed header set. |
| Requestor.Perform | requestor.go:48-71 | A call without error has a response and a value. A response is only returned below status 400. An API error comes without a response or a value. |
| Requestor.NewRequest | requestor.go:48-71 | A request that cannot be built gives the build error, whatever roundTrip would do. Otherwise the outcome is that of roundTrip on the chosen client and the request carrying the fixed headers. A transport failure is returned as is. Status >= 400 goes to the classifier with no response. Below 400, the response is returned with the decode result. |
| Json.EncodeLookup | disputes.go:238-248 | With distinct tags, a field's tag is in the encoded object exactly when the field is written, that is, not omitempty with an empty value. A present tag holds the field's value. |
| Json.EncodeMembers | disputes.go:238-248 | Every member of an encoded object comes from a written field with that tag and that value. |
| Json.EncodeAbsent | disputes.go:234-235 | A tag that no field carries never appears. This is how OptHTTPClient, tagged "-", stays out of the body. |
| Json.ReadBack | disputes.go:252-253 | Reading an encoded field with its typed reader gives back the field's payload. An omitted field reads as the zero value it had. |
| Encoding.Base64Length | requestor.go:54 | The encoding of n bytes has 4 * ceil(n / 3) characters. |
| Encoding.Base64RoundTrip | requestor.go:54 | Decoding the base64 encoding of any bytes gives back those bytes. |
| Encoding.QueryEscape | requestor.go:32 | An escaped component holds only unreserved characters, "+" and "%". |
| Encoding.QueryEscapeUnreserved | requestor.go:32 | Text made only of unreserved characters is escaped to itself. |
| Encoding.LeastKey | requestor.go:32 | The key chosen first is in the set and no greater than any other key. This fixes the sorted order of Values.Encode. |
| Encoding.ValuesEncode | requestor.go:32 | The encoded query is empty exactly when there are no keys. |
| Encoding.ValuesEncodeSingle | requestor.go:32 | A one-key query encodes as the escaped key, "=", and the escaped value. |
| DisputeRequests.ProductRoundTrip | disputes.go:96-104 | Reading back an encoded product gives the same product. |
| DisputeRequests.ProductsRoundTrip | disputes.go:96-104 | Reading back an encoded product list gives the same list. |
| DisputeRequests.UpdateBody | disputes.go:238-248 | Each of the nine update tags is in the body exactly when its field is not at its zero value: a non-empty string, a true flag, a non-empty fields map or products list. |
| DisputeRequests.UpdateBodySparse | disputes.go:238-248 | Every key of an update body is one of the nine updateDisputeBody tags, and its value is not empty. |
| DisputeRequests.UpdateBodyRoundTrip | disputes.go:365-381 | Reading back an update body gives exactly the nine mutable fields of the parameters. The ID and the HTTP client are not in it. |
| DisputeRequests.ForceOnlyBody | disputes.go:238-248 | Parameters with only Force = true give exactly {"force": true}. |
| DisputeRequests.CreateTagsDistinct | disputes.go:177-236 | The 28 create tags are pairwise distinct. |
| DisputeRequests.CreateBody | disputes.go:177-195 | id, charge, reason, charged_at, disputed_at, due_by, currency and amount, the tags without omitempty, are always in the create body, even with empty values. |
| DisputeRequests.CreateBodySparse | disputes.go:177-236 | Every key of the create body is a create tag. An optional key is present only with a non-empty value. |
| DisputeRequests.CreateChargeRoundTrip | disputes.go:179-191 | Reading the create body gives back id, charge, customer, reason, charged_at, disputed_at and due_by. |
| DisputeRequests.CreateAmountRoundTrip | disputes.go:193-205 | Reading the create body gives back currency, amount, processor, state, reversal_currency, fee and reversal_amount. |
| DisputeRequests.CreateCheckRoundTrip | disputes.go:207-219 | Reading the create body gives back reversal_total, is_charge_refundable, submitted_count, the three checks and template. |
| DisputeRequests.CreateEvidenceRoundTrip | disputes.go:221-233 | Reading the create body gives back fields, products, user_id, kind, submit, queue and reference_url. |
| DisputeRequests.CreateBodyRoundTrip | disputes.go:177-236 | Reading back the create body gives every parameter except the HTTP client. |
| DisputeRequests.RuneString | disputes.go:330 | string(int) is one character. It is the code point n for every Unicode scalar value n (below U+D800, or from U+E000 to U+10FFFF). Every other int, negative, a surrogate or beyond U+10FFFF, gives U+FFFD. |
| DisputeRequests.ListQuery | disputes.go:328-341 | limit is present exactly when Limit > 0. starting_after is present exactly when set. ending_before is present only when it is set and starting_after is not, so at most one cursor is sent. state is present exactly when set. Each present key holds its value, and there are no other keys. |
| DisputeRequests.LimitIsOneCodePoint | disputes.go:329-331 | A limit of 10 is sent as the one character U+000A. |
| DisputeRequests.RouteOf | disputes.go:251-464 | The method and path of each operation: Create POST disputes, Retrieve GET disputes/{id}, Response GET disputes/{id}/response, List GET disputes, Update PUT disputes/{id}, Submit POST disputes/{id}/submit, Accept POST disputes/{id}/accept. Only Create, Update and Submit send a body, and only List a query. Create sends the create body of its parameters, Update and Submit the update body, and List the list query of its parameters. |
| Chargehound.Client.New | chargehound.go:47-62 | New copies the key and API version. It sets base path "/v1/", host "api.chargehound.com", protocol "https://" and version "6.0.0". It creates a fresh HTTP client with a 60-second timeout and a disputes resource that points back to this client. |
| Chargehound.Requested | requestor.go:20-46 | An operation's requestor has the route's method, body and query, and the URL for its path. It carries the client's API key and the User-Agent for the client's version. It uses the per-call client when given and the default client otherwise. |
| Chargehound.Dispatch | disputes.go:268-274 | Without an error, the payload is there and the status is below 400. With an error, the status stays 0. An API error carries no payload. |
| Chargehound.Disputes.Send | disputes.go:268-274 | The status is recorded only when there is no error. The payload and the error are newRequest's. |
| Chargehound.Disputes.Create | disputes.go:251-275 | Create returns Dispatch of a create call on the client's settings. |
| Chargehound.Disputes.Retrieve | disputes.go:278-299 | Retrieve returns Dispatch of a retrieve call. |
| Chargehound.Disputes.Response | disputes.go:302-323 | Response returns Dispatch of a response call. |
| Chargehound.Disputes.List | disputes.go:326-363 | List returns Dispatch of a list call. |
| Chargehound.Disputes.BuildListQuery | disputes.go:328-341 | The query filled by successive Set calls equals ListQuery. |
| Chargehound.ListQueryBuilt | disputes.go:328-341 | Any query with the presence and value pattern of the Set calls is ListQuery. |
| Chargehound.Disputes.Update | disputes.go:385-411 | Update returns Dispatch of an update call. |
| Chargehound.Disputes.Submit | disputes.go:414-440 | Submit returns Dispatch of a submit call. |
| Chargehound.Disputes.Accept | disputes.go:443-464 | Accept returns Dispatch of an accept call. |
| Chargehound.StatusRecordedOnlyOnSuccess | disputes.go:268-274 | An operation has no error exactly when the request was built, a status below 400 was delivered and the body decoded. The recorded status is then the delivered one and the payload is the decoded body. Otherwise the status is 0. |
| Chargehound.OverrideDecides | requestor.go:23-27 | With a per-call client, the client's default HTTP client makes no difference to anything an operation returns. |
| Chargehound.DefaultClientHandles | requestor.go:23-27 | Without a per-call client, the request goes through the client's default one. |
| Chargehound.DefaultResourceURL | chargehound.go:11-13 | With New's defaults, every resource URL is "https://api.chargehound.com/v1/" followed by the path. |
| Chargehound.DefaultRetrieveURL | disputes.go:278-286 | With the defaults, Retrieve of dp_xxx targets "https://api.chargehound.com/v1/disputes/dp_xxx". |
| Chargehound.ListCursorQuery | disputes.go:333-337 | With both cursors set, the query is exactly {starting_after: dp_yyy}. |
| Chargehound.ListCursorURL | disputes.go:326-350 | With the defaults, that List targets "https://api.chargehound.com/v1/disputes?starting_after=dp_yyy". |
| Chargehound.UpdateSubmitSameBody | disputes.go:385-440 | Update and Submit send the same body, with PUT and POST respectively. |
| Chargehound.NewClientRequest | chargehound.go:47-62 | A Retrieve built from a client made by New, through the route table and newAPIRequestor, is a GET without body or query. It carries the client's key and the User-Agent "Chargehound/v1 GoBindings/6.0.0", and targets the default host. The API version plays no part. |

## Left out

- Network I/O: `http.NewRequest`, `Client.Do` and the response body stream are not modelled as code. They are the functions of `Requestor.Net`, so every statement holds for any outcome they produce. The 60-second timeout is kept only as a number on the HTTP client.
- The JSON decoder is a function of `Requestor.Net`. Only the encoder's field selection (omitempty, `json:"-"`) is modelled. Byte-level JSON text, escaping and floating-point numbers are not. Arbitrary values in `fields` maps are `Json` trees without floats.
- Response types: `Dispute`, `DisputeList` and `Response` hold no logic. An operation's payload is a type parameter.
- Requestor.Perform, Requestor.NewRequest, Chargehound.Dispatch: when the body of a status below 400 fails to decode, Go leaves a partly filled value. These members return no value or payload in that case.
- Chargehound.Dispatch: on an API, build or transport error, Go returns a pointer to the zero value of the result type. The model writes this as payload `None`.
- Requestor.NewRequest: the HTTP client is a pure function (`Net.roundTrip`). So the model cannot tell how many times a request is sent, and "no retry" is not stated. What is stated is that the outcome is that of one exchange with the chosen client, or the build error.
- `url.Values` is a map with one value per key. Only `Set` is used, so keys with several values do not occur.
- Go strings are sequences of Unicode scalar values here. Strings holding invalid UTF-8 are not modelled.
- Never-taken error branches: `newAPIRequestor` and `newUpdateDisputeBody` never return an error, so the operations' checks of those errors are not modelled.
- The error of `json.NewEncoder(b).Encode` in Create and in `newUpdateDisputeBody` is ignored by the code and is not modelled.
- requestor.go:36 reads `cc.ApiKey`, but the field is declared as `APIKey` (chargehound.go:21). The model reads the client's API key.
- Test files name things the code lacks: `TemplateID`, `CustomerName` and `CustomerEmail` (disputes_test.go:316-318), `BadRequestError`, `UnauthorizedError`, `ForbiddenError`, `NotFoundError` and `InternalServerError` (errors_test.go:27-47), and `New` called with a string key (disputes_test.go:14) or with two arguments (errors_test.go:51), where the code takes one `*ClientParams`. They are not part of this model.
- Concurrency: the bindings have none.
