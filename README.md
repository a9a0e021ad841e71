# Volcengine request signing and API clients, in Dafny

This project models the core of an n8n community node for Volcengine. The node talks to two kinds of Volcengine endpoints.

- **The OpenAPI gateway** (IAM and any other service through a custom request). The generic `Service` client assembles each request. It defaults the options, splits request data into query and body by method and content type, and adds `Action` and `Version`. It normalises null parameters to `''` and checks the credentials. It has the request signed and builds the URL.
- **The AIR knowledge base** ("Viking"). `AirService` builds JSON requests, signs them under the service name `air` and posts the search and chat-completion bodies with their defaults.

Both clients sign with the same **signer**: an HMAC-SHA256 scheme in the style of AWS Signature Version 4. The signer works in these steps:

1. It percent-encodes with the unreserved set of section 2.3 of RFC 3986.
2. It writes a canonical query string and a canonical header block over the signable headers.
3. It formats the basic ISO 8601 timestamp and the credential scope `date/region/service/request`.
4. It joins the six-line canonical request and the four-line string to sign.
5. It derives the signing key through four HMAC steps.
6. It adds the `X-Date`, `X-Security-Token`, `X-Content-Sha256` and `Authorization` headers to the request in place.

Around the clients, the model covers three more parts:

- the two response classifiers;
- the transport's request-option builder;
- the operations of the node: SendRequest, GetUser, ListUsers, UpdateUser, UpdateLoginProfile, SearchKnowledge and ChatCompletions. Each operation turns form parameters into API parameters, calls a client and classifies the response. SendRequest is the exception: it returns the raw response.

## Layout

| file | module | models |
|---|---|---|
| base.dfy | Base | `Option` and `Result` |
| js_values.dfy | JsValues | JavaScript values, truthiness, `String(v)`, optional properties (`Field`) |
| dicts.dfy | Dicts | plain objects as insertion-ordered key/value sequences; assignment and spread |
| text.dfy | Text | `join`, `split`, `\s`, `trim`, case mapping, `substr` |
| order.dfy | Order | JavaScript string order; `sort()` and keyed sorts |
| escape.dfy | Escape | UTF-8, hexadecimal, `uriEscape` and its inverse |
| host.dfy | Host | the runtime functions the client uses but does not define, and request bodies |
| query.dfy | Query | `queryParamsToString` |
| signer.dfy | Signing | the signer: `sortParams`, canonical headers, timestamp, scope, canonical request, `addHeaders`, `addAuthorization` (class `Signer` over class `RequestObj`) |
| transport.dfy | Transport | `createRequestFn`'s option record |
| service.dfy | OpenApi | class `Service`, `createAPI` and its variants, `fetchOpenAPI` |
| iam.dfy | Iam | `IamService` and its `ListUsers` binding |
| air.dfy | Air | class `AirService`: `request`, `searchKnowledge`, `chatCompletions`, `chat` |
| responses.dfy | Responses | `handleVolcEngineResponse`, `handleAirKnowledgeResponse` |
| operations.dfy | Operations | what the operations share: credential, host, IAM client, the call and its classification |
| send_request.dfy … chat_completions.dfy | one module per operation | the operation's `call` |

Code that updates state is written imperatively:

- `Signer` and `RequestObj` are classes whose methods rewrite the request's headers and parameters;
- `Service` and `AirService` are classes with setters;
- the normalisation loop, the header-emitting loop, the `URLSearchParams` append loop, the key/value collection loop and the message `push` calls are methods with loops or statement sequences.

Each of these is proved equal to a function of its inputs or old state. The properties are proved about those functions.

The clock, the hash functions, JSON, the serialisers and the HTTP transport are parameters: a `Runtime` value of functions, an ISO time string and a `send` function. The model states, for every input, what is handed to the transport and how the response is classified.

## Model

| member | source | states |
|---|---|---|
| Signing.SortParams | nodes/help/utils/volcengine/sign.ts:93-107 | The sorted copy's keys are in ascending order. |
| Signing.SortParamsGet | nodes/help/utils/volcengine/sign.ts:93-107 | The sorted copy holds exactly the properties whose value is neither null nor undefined, with the same values; no params gives `{}`. |
| Signing.SortParamsIgnoresOrder | nodes/help/utils/volcengine/sign.ts:96-104 | Two parameter objects with the same properties in any key order are signed with the same sorted parameters. |
| Signing.ValuedKeysPermutation | nodes/help/utils/volcengine/sign.ts:96-100 | Objects with the same valued properties have the same valued keys up to permutation, which is what lets the sort ignore key order. |
| Signing.CanonicalHeaderValue | nodes/help/utils/volcengine/sign.ts:200-202 | The normalised value has only single spaces and no white space at either end. |
| Signing.CanonicalHeaderValueIdempotent | nodes/help/utils/volcengine/sign.ts:200-202 | Normalising a value twice gives the same result as normalising it once. |
| Signing.CanonicalHeaderValueKeepsText | nodes/help/utils/volcengine/sign.ts:200-202 | Normalisation changes only white space: the other characters stay, in order. |
| Signing.CanonicalLinesNames | nodes/help/utils/volcengine/sign.ts:186-196 | The emitted lines name exactly the signable headers of the sorted entries, in order. |
| Signing.CanonicalNamesAreSigned | nodes/help/utils/volcengine/sign.ts:180-213 | Canonical headers and the signed-headers list name the same headers in the same order. |
| Signing.CanonicalLinesFail | nodes/help/utils/volcengine/sign.ts:187-196 | Emitting fails exactly when some signable entry has no value. The error names the first such entry, where the loop stops. |
| Signing.CanonicalHeadersFail | nodes/help/utils/volcengine/sign.ts:180-198 | `canonicalHeaders()` throws exactly when a signable header is null or undefined, with `Header <name> contains invalid value` naming such a header. |
| Signing.CanonicalHeadersFirstInvalid | nodes/help/utils/volcengine/sign.ts:185-193 | The header named in the error is the first invalid one in the sorted copy, where the `forEach` stops. |
| Signing.SignedHeadersList | nodes/help/utils/volcengine/sign.ts:204-213 | Split on `;`, the signed-headers list gives back the signable lower-cased names, and they are sorted. |
| Signing.HexHash | nodes/help/utils/volcengine/sign.ts:219-221 | A SHA-256 digest in hexadecimal is 64 characters. |
| Signing.GetDateTimeFormat | nodes/help/utils/volcengine/sign.ts:124-126 | For a `toISOString()` value, the timestamp is its date and time fields without separators or milliseconds, in the basic form `YYYYMMDDTHHMMSSZ`. |
| Signing.BasicForm | nodes/help/utils/volcengine/sign.ts:124-126 | The fields of an ISO string, run together, are eight digits, `T`, six digits and `Z`. |
| Signing.StripDate | nodes/help/utils/volcengine/sign.ts:125 | The stripping regular expression removes the date's separators and keeps its digits. |
| Signing.StripTime | nodes/help/utils/volcengine/sign.ts:125 | The stripping regular expression removes the time's colons and milliseconds. |
| Signing.ScopeFields | nodes/help/utils/volcengine/sign.ts:215-217 | Split on `/`, the credential scope reads back as date (first 8 characters), region, service and `request`. |
| Signing.ScopeOfIsoTime | nodes/help/utils/volcengine/sign.ts:258-260 | Signed at a `toISOString()` time, the scope starts with the date digits `YYYYMMDD`. |
| Signing.CanonicalRequestText | nodes/help/utils/volcengine/sign.ts:166-178 | The canonical request is the method upper-cased, the path or `/`, the query, the header block, a blank line, the signed headers and the body hash, with line breaks between them. |
| Signing.CanonicalRequestLines | nodes/help/utils/volcengine/sign.ts:166-178 | The canonical request splits back into exactly its fields: method, path, query, the header lines, an empty line, signed headers and body hash. |
| Signing.StringToSignLines | nodes/help/utils/volcengine/sign.ts:157-164 | The string to sign splits back into its four lines: `HMAC-SHA256`, the timestamp, the scope and the hash of the canonical request. |
| Signing.AddedHeaders | nodes/help/utils/volcengine/sign.ts:128-145 | After `addHeaders`, `X-Date` is the timestamp, `X-Security-Token` is the session token when it is non-empty, `X-Content-Sha256` is the body hash when there is a body, and every other header is unchanged. |
| Signing.SignsSentBodyHash | nodes/help/utils/volcengine/sign.ts:223-232 | The body hash in the canonical request is the one `addHeaders` sent when there is a body. Without a body it is a preset header, or else the hash of `''`. |
| Signing.EmitHeaderBlock | nodes/help/utils/volcengine/sign.ts:186-197 | The emitting loop produces the header block of the entries, or the first invalid-header error. |
| Signing.AuthorizationFrom | nodes/help/utils/volcengine/sign.ts:115-122 | With an invalid header, the error of `canonicalHeaders()`. Otherwise `HMAC-SHA256 Credential=<ak>/<scope>, SignedHeaders=<list>, Signature=<hmac>` over the canonical request built from the signed and canonical headers. |
| Signing.SignRequestHeaders | nodes/help/utils/volcengine/sign.ts:109-145 | Signing changes only `X-Date`, `X-Security-Token` (with a session token), `X-Content-Sha256` (with a body) and `Authorization`. It fails exactly when a signable header after `addHeaders` is invalid. |
| Signing.RequestObj.constructor | nodes/help/utils/volcengine/sign.ts:84-91 | Holds the given region, method, parameters, path, headers and body. |
| Signing.Signer.constructor | nodes/help/utils/volcengine/sign.ts:84-91 | Headers default to `{}` and params become their sorted copy. Nothing else in the request changes. |
| Signing.Signer.CanonicalHeaders | nodes/help/utils/volcengine/sign.ts:180-198 | Copies and sorts the entries by lower-cased name, then emits the signable ones; the result is the canonical header block of the request's headers. |
| Signing.Signer.SignedHeaders | nodes/help/utils/volcengine/sign.ts:204-213 | Returns the signed-headers list of the request's headers. |
| Signing.Signer.AddHeaders | nodes/help/utils/volcengine/sign.ts:128-145 | The headers become `AddedHeaders` of the old request. Region, method, params, path and body are unchanged. |
| Signing.Signer.AddSignature | nodes/help/utils/volcengine/sign.ts:112 | Adds `Authorization` when the signature succeeds, and otherwise fails with the headers unchanged. |
| Signing.Signer.AddAuthorization | nodes/help/utils/volcengine/sign.ts:109-113 | The headers become those of `SignRequest`. On an invalid header the call fails after the `addHeaders` changes were made. |
| Escape.EscapeChar | nodes/help/utils/volcengine/sign.ts:47-55 | An unreserved character is kept. Any other character becomes `%XX` groups of its UTF-8 bytes. |
| Escape.EscapeCharPasses | nodes/help/utils/volcengine/sign.ts:49-51 | The three passes (`encodeURIComponent`, `escape` on the remaining runs, `*` to `%2A`) give that rule for every character. |
| Escape.UriEscapeByCharacter | nodes/help/utils/volcengine/sign.ts:47-55 | `uriEscape` applies the per-character rule to each character of the string. |
| Escape.UriEscapeRoundTrip | nodes/help/utils/volcengine/sign.ts:47-55 | Percent-decoding `uriEscape(s)` gives back `s`. |
| Escape.UriEscapeIdentity | nodes/help/utils/volcengine/sign.ts:47-55 | `uriEscape(s) == s` exactly when every character of `s` is in `A-Za-z0-9_.~-`. |
| Escape.EscapeCharsLength | nodes/help/utils/volcengine/sign.ts:47-55 | Escaping never shortens a string, and lengthens it when it holds a reserved character. |
| Escape.UriEscapeAlphabet | nodes/help/utils/volcengine/sign.ts:47-55 | The output contains only unreserved characters and `%`. |
| Escape.UriEscapeStar | nodes/help/utils/volcengine/sign.ts:51 | `*` is sent as `%2A` and a space as `%20`. |
| Escape.UriEscapeEmpty | nodes/help/utils/volcengine/sign.ts:65-68 | Only the empty key escapes to the empty string. |
| Escape.Hex | nodes/help/utils/volcengine/sign.ts:219-221 | A digest is written as two lower-case hexadecimal digits per byte. |
| Escape.PercentEncode | nodes/help/utils/volcengine/sign.ts:49 | Each byte becomes three characters `%XX`. |
| Escape.Utf8 | nodes/help/utils/volcengine/sign.ts:49 | A character is encoded as 1 to 4 UTF-8 bytes. |
| Order.SortStrings | nodes/help/utils/volcengine/sign.ts:101 | `.sort()` gives a sorted permutation of its input. |
| Order.SortedUnique | nodes/help/utils/volcengine/sign.ts:101 | Two sorted permutations of the same strings are equal. |
| Order.SortIgnoresOrder | nodes/help/utils/volcengine/sign.ts:101 | The input order has no effect on the result of the sort. |
| Order.FilterSortCommute | nodes/help/utils/volcengine/sign.ts:96-101 | Filtering and then sorting gives the same result as sorting and then filtering. |
| Order.KeysOfSortBy | nodes/help/utils/volcengine/sign.ts:185 | Sorting the header entries by lower-cased name gives the names in sorted order. |
| Text.CollapseIsCollapsed | nodes/help/utils/volcengine/sign.ts:201 | After `replace(/\s+/g, ' ')`, no two white-space characters are adjacent. |
| Text.TrimCollapsed | nodes/help/utils/volcengine/sign.ts:201 | Trimming a collapsed string keeps it collapsed and leaves no white space at either end. |
| Text.SplitJoin | nodes/help/utils/volcengine/sign.ts:259 | Splitting a join on a separator that no piece contains gives back the pieces. |
| Dicts.MergeGet | nodes/help/utils/volcengine/service.ts:26-29 | In a spread, a property of the later object wins and the others come from the earlier one. |
| Dicts.PutNew | nodes/help/utils/volcengine/air.ts:411-413 | Assigning a new key appends it at the end of the object. |
| Query.EscapedItems | nodes/help/utils/volcengine/sign.ts:70-71 | An array value's escaped elements come out sorted and as a permutation of the escaped elements. |
| Query.EntryPairs | nodes/help/utils/volcengine/sign.ts:59-75 | Every pair of a property carries the escaped key, and that key is never empty. |
| Query.EntryAsPairs | nodes/help/utils/volcengine/sign.ts:59-75 | A property contributes nothing exactly when it has no pairs. Otherwise it contributes its pairs as `k=v` joined with `&`. |
| Query.JoinRepeatedKey | nodes/help/utils/volcengine/sign.ts:71 | `ek=` plus the values joined with `&ek=` equals the `ek=value` pairs joined with `&`. |
| Query.QueryAsPairs | nodes/help/utils/volcengine/sign.ts:57-77 | The query string is the `key=value` texts of the escaped pairs, in key order, joined with `&`. |
| Query.QueryRoundTrip | nodes/help/utils/volcengine/sign.ts:57-77 | Splitting the query string on `&` and then on `=` gives back exactly the escaped pairs, in order. |
| Query.QueryPairsEscaped | nodes/help/utils/volcengine/sign.ts:57-77 | Every key and value written contains only unreserved characters and `%`. |
| Query.QueryKeys | nodes/help/utils/volcengine/sign.ts:61-68 | A property with a value and a non-empty key is written. |
| Query.QueryPairsFromProperties | nodes/help/utils/volcengine/sign.ts:61-68 | Every written pair comes from a property with a value and a non-empty key. |
| OpenApi.OrElse | nodes/help/utils/volcengine/service.ts:178-179 | `o.p \|\| d` is the default or a non-empty set value. |
| OpenApi.SpreadDefaults | nodes/help/utils/volcengine/service.ts:18-30 | The constructor takes host, region and protocol from the caller when present, even as `undefined`, and from the defaults otherwise. The other options are the caller's. |
| OpenApi.CreateApiDefaults | nodes/help/utils/volcengine/service.ts:67-107 | With no parameters, the three bindings are GET/urlencode, POST/json and POST/urlencode. A given method or content type overrides the default, and one given as `undefined` falls back to GET. |
| OpenApi.RequestParamsOf | nodes/help/utils/volcengine/service.ts:103-160 | The binding's action, version and method override the caller's. A GET sends all data as the query. Otherwise the query is the query keys with the caller's query overlaid. json sets the JSON content type with the data. urlencode sends the form pairs. Any other content type throws `contentType <t> is not support`. |
| OpenApi.QueryKeyEntriesGet | nodes/help/utils/volcengine/service.ts:121-128 | The reduce keeps exactly the listed keys whose value is not `undefined`. |
| OpenApi.QueryOverlay | nodes/help/utils/volcengine/service.ts:121-130 | For a non-GET binding, the caller's `params.query` wins over a query key taken from the request data. |
| OpenApi.FormPairsMembers | nodes/help/utils/volcengine/service.ts:140-151 | The form pairs are exactly the non-nullish properties, as `String(v)`. |
| OpenApi.Service.UrlEncodedBody | nodes/help/utils/volcengine/service.ts:141-150 | The append loop produces the form pairs. |
| OpenApi.SignedParams | nodes/help/utils/volcengine/service.ts:170-180 | `Action` is the given action, and `Version` is the given non-empty version or else `defaultVersion`. |
| OpenApi.SignedParamsQuery | nodes/help/utils/volcengine/service.ts:170-180 | Every other signed parameter is that of `params.query`. |
| OpenApi.Normalised | nodes/help/utils/volcengine/service.ts:185-190 | Normalising keeps every key in place and leaves no null or undefined value. |
| OpenApi.NormalisedGet | nodes/help/utils/volcengine/service.ts:185-190 | Normalising maps `null`/`undefined` to `''` and keeps every other value. |
| OpenApi.NormaliseStep | nodes/help/utils/volcengine/service.ts:186-189 | One loop step preserves the loop invariant. |
| OpenApi.NormaliseParams | nodes/help/utils/volcengine/service.ts:185-190 | The in-place loop produces the normalised parameters. |
| OpenApi.SignedQuery | nodes/help/utils/volcengine/service.ts:170-190 | A signed parameter is the action, the version, or a query parameter, with `null` and `undefined` made `''`. |
| OpenApi.RequestUrl | nodes/help/utils/volcengine/service.ts:207-211 | The URL is `protocol//host` plus the path, with `?` and the query string only when the query string is non-empty. |
| OpenApi.FetchOpenApiOf | nodes/help/utils/volcengine/service.ts:202-205 | A missing or empty access key or secret key throws `accessKeyId and secretKey is necessary`. |
| OpenApi.FetchOpenApiUnfold | nodes/help/utils/volcengine/service.ts:162-216 | With credentials, the result is the signed request addressed by `AddressOf`. |
| OpenApi.AddressOfSent | nodes/help/utils/volcengine/service.ts:207-215 | A sent request carries the method (GET by default) and the signed headers, and goes to the built URL. |
| OpenApi.FetchOpenApiRequest | nodes/help/utils/volcengine/service.ts:162-216 | A request that is sent had credentials. Its URL is `protocol//host` + path (`/` by default) + `?query` when the query is non-empty. Its method is GET by default. Its headers are those signing produced. |
| OpenApi.FetchWith | nodes/help/utils/volcengine/service.ts:162-216 | The step-by-step body computes `FetchOpenApiOf`. |
| OpenApi.NormalisedQuery | nodes/help/utils/volcengine/service.ts:170-190 | Produces the normalised signed parameters. |
| OpenApi.NewSigner | nodes/help/utils/volcengine/service.ts:170-201 | The signer gets a request with region (default `cn-north-1`), method (default GET), path (default `/`), headers, truthy body and the service name. |
| OpenApi.SignAndAddress | nodes/help/utils/volcengine/service.ts:206-215 | After `addAuthorization`, the result is the addressed request, or the signing error. |
| OpenApi.Service.constructor | nodes/help/utils/volcengine/service.ts:25-30 | The options are the defaults overridden by the given options. |
| OpenApi.Service.SetAccessKeyId | nodes/help/utils/volcengine/service.ts:34-36 | Sets only `accessKeyId`. |
| OpenApi.Service.SetSecretKey | nodes/help/utils/volcengine/service.ts:38-40 | Sets only `secretKey`. |
| OpenApi.Service.SetSessionToken | nodes/help/utils/volcengine/service.ts:42-44 | Sets only `sessionToken`. |
| OpenApi.Service.SetRegion | nodes/help/utils/volcengine/service.ts:46-48 | Sets only `region`. |
| OpenApi.Service.SetHost | nodes/help/utils/volcengine/service.ts:50-52 | Sets only `host`. |
| OpenApi.Service.GetSessionToken | nodes/help/utils/volcengine/service.ts:54 | Returns the session token exactly when one is set. |
| OpenApi.Service.GetAccessKeyId | nodes/help/utils/volcengine/service.ts:56 | Returns the access key exactly when one is set. |
| OpenApi.Service.GetSecretKey | nodes/help/utils/volcengine/service.ts:58 | Returns the secret key exactly when one is set. |
| OpenApi.Service.RequestParams | nodes/help/utils/volcengine/service.ts:103-156 | Produces `RequestParamsOf`. |
| OpenApi.Service.FetchOpenApi | nodes/help/utils/volcengine/service.ts:162-216 | Produces `FetchOpenApiOf` on the service's options. |
| OpenApi.Service.CallApi | nodes/help/utils/volcengine/service.ts:157-159 | A binding call is the content-type error, or `fetchOpenAPI` of the built parameters. |
| Iam.IamOptionsFixed | nodes/help/utils/volcengine/iam.ts:35-41 | The service is always `iam` at `2018-01-01`, whatever the caller passes. Every other option is the caller's. |
| Iam.NewIamService | nodes/help/utils/volcengine/iam.ts:35-41 | `new IamService(options)` holds the defaults spread with the fixed IAM options. |
| Iam.ListUsers | nodes/help/utils/volcengine/iam.ts:43 | `ListUsers` is the `createAPI('ListUsers')` binding applied to the call. |
| Iam.ListUsersIsGet | nodes/help/utils/volcengine/iam.ts:43 | `ListUsers` is a GET. All of its data is the query, the caller's query is dropped, and it signs `Action=ListUsers` and `Version=2018-01-01`. |
| Transport.RequestBody | nodes/help/utils/volcengine/fetch.ts:18-27 | A body is sent exactly when the data is truthy and the method is not GET. String and `URLSearchParams` data are sent as text, and anything else as an object. |
| Transport.HttpOptionsFor | nodes/help/utils/volcengine/fetch.ts:29-42 | The method defaults to GET and the URL is trimmed. `json` is true, `returnFullResponse` false, SSL checking on and HTTP status errors ignored. |
| Transport.HeadersOverrideDefaults | nodes/help/utils/volcengine/fetch.ts:32-36 | Caller headers override the `Content-Type` form default and the `User-Agent` default. |
| Transport.DefaultHeaderGet | nodes/help/utils/volcengine/fetch.ts:8 | The defaults are exactly `Content-Type: application/x-www-form-urlencoded` and `User-Agent: n8n-nodes-volcengine/v1.0.0`. |
| Responses.Coalesce | nodes/help/utils/ResponseUtils.ts:64 | `a ?? b` is `b` exactly when `a` is null or undefined. |
| Responses.HandleVolcEngineResponse | nodes/help/utils/ResponseUtils.ts:50-65 | Fails on a truthy `ResponseMetadata.Error`, with its `Message`. Also fails on a null or undefined response, because reading `.Result` throws. Otherwise returns `Result`, or `{}` in its place. |
| Responses.NoMetadataSucceeds | nodes/help/utils/ResponseUtils.ts:56-64 | An envelope without `ResponseMetadata` succeeds, returning its `Result` or `{}`. |
| Responses.HandleAirKnowledgeResponse | nodes/help/utils/ResponseUtils.ts:75-100 | Succeeds exactly when `code === 0`, returning `data` or `{ message }`. |
| Responses.KnowledgeFailureReport | nodes/help/utils/ResponseUtils.ts:82-95 | A failure reports code (or `UNKNOWN`), message (or `未知错误`), `httpCode` `String(code)`, `[code] message`, and the request id only when truthy. |
| Responses.MissingCodeFails | nodes/help/utils/ResponseUtils.ts:82-83 | A missing code fails with code `UNKNOWN`. |
| Air.BaseHeadersGet | nodes/help/utils/volcengine/air.ts:335-339 | The base headers are `Accept` and `Content-Type` `application/json` and `Host`. |
| Air.RequestHeadersGet | nodes/help/utils/volcengine/air.ts:335-345 | Extra headers override the base headers. `V-Account-Id` is the account exactly when one is set. |
| Air.SentBody | nodes/help/utils/volcengine/air.ts:363-366 | The body is attached exactly when the data is truthy and the method is POST. |
| Air.QueryPairs | nodes/help/utils/volcengine/air.ts:376 | The parameters become `(k, String(v))` pairs in order. |
| Air.AirUrl | nodes/help/utils/volcengine/air.ts:373-379 | The URL is `protocol//host` + path, then `?` and the encoded parameters only when there is at least one parameter. |
| Air.AirRequestOf | nodes/help/utils/volcengine/air.ts:325-328 | A missing access key or secret key throws before any header is built. |
| Air.AirRequestSent | nodes/help/utils/volcengine/air.ts:322-392 | A sent request goes to the built URL. Its method is POST unless given. It carries the data exactly when the data is truthy and the method is POST. Its headers are those signing under `air` produced. |
| Air.AirSignedHeaders | nodes/help/utils/volcengine/air.ts:335-370 | The sent headers are `Authorization` (scope service `air`), the signer's headers, `V-Account-Id`, the extra headers, and the JSON and `Host` defaults, in that precedence. |
| Air.Default | nodes/help/utils/volcengine/air.ts:402 | A destructuring default replaces only `undefined`. |
| Air.Without | nodes/help/utils/volcengine/air.ts:402 | The `...rest` holds every property not named in the pattern. |
| Air.SearchHeadGet | nodes/help/utils/volcengine/air.ts:404-408 | The body starts with `collection_name`, `query` and `limit` (5 when undefined). |
| Air.SearchKnowledgeBodyGet | nodes/help/utils/volcengine/air.ts:401-420 | `limit` is 5 when undefined. `project` is present only when truthy. `collection_name` and `query` are always present. Every other property passes through. |
| Air.ChatCompletionsBody | nodes/help/utils/volcengine/air.ts:427-456 | The body is `model`, `messages`, then `max_tokens` 4096, `temperature` 0.1, `stream` false and `return_token_usage` true when undefined, then `project` when truthy. |
| Air.ChatMessages | nodes/help/utils/volcengine/air.ts:473-492 | The messages are the system prompt when truthy, the history when truthy, then the question. A non-iterable history throws. |
| Air.ChatNamesDistinct | nodes/help/utils/volcengine/air.ts:438-448 | The seven body properties have distinct names. |
| Air.ChatParamsGet | nodes/help/utils/volcengine/air.ts:494-499 | `chat` passes the model `Doubao-1-5-pro-32k`, 4096 and 0.1 in place of falsy settings. |
| Air.ChatBody | nodes/help/utils/volcengine/air.ts:494-499 | `chat` posts the messages with the default model, tokens and temperature in place of falsy ones, `stream` false, `return_token_usage` true and no project. |
| Air.AirService.constructor | nodes/help/utils/volcengine/air.ts:283-288 | The options are the knowledge-base defaults overridden by the given options. |
| Air.AirService.SetAccessKeyId | nodes/help/utils/volcengine/air.ts:290-292 | Sets only `accessKeyId`. |
| Air.AirService.SetSecretKey | nodes/help/utils/volcengine/air.ts:294-296 | Sets only `secretKey`. |
| Air.AirService.SetSessionToken | nodes/help/utils/volcengine/air.ts:298-300 | Sets only `sessionToken`. |
| Air.AirService.SetRegion | nodes/help/utils/volcengine/air.ts:302-304 | Sets only `region`. |
| Air.AirService.SetHost | nodes/help/utils/volcengine/air.ts:306-308 | Sets only `host`. |
| Air.AirService.SetAccountId | nodes/help/utils/volcengine/air.ts:310-312 | Sets only `accountId`. |
| Air.AirService.GetAccessKeyId | nodes/help/utils/volcengine/air.ts:314 | Returns the access key exactly when one is set. |
| Air.AirService.GetSecretKey | nodes/help/utils/volcengine/air.ts:316 | Returns the secret key exactly when one is set. |
| Air.AirService.Request | nodes/help/utils/volcengine/air.ts:322-392 | Produces `AirRequestOf` on the service's options. |
| Air.AirService.SearchKnowledge | nodes/help/utils/volcengine/air.ts:401-420 | POSTs the search body to `/api/knowledge/collection/search_knowledge`. |
| Air.AirService.ChatCompletions | nodes/help/utils/volcengine/air.ts:427-456 | POSTs the chat body to `/api/knowledge/chat/completions`. |
| Air.AirService.Chat | nodes/help/utils/volcengine/air.ts:463-500 | Builds the messages and calls `chatCompletions`, or throws on a non-iterable history. |
| Air.PushMessages | nodes/help/utils/volcengine/air.ts:473-492 | The `push` calls produce `ChatMessages`. |
| Air.SignAndAddress | nodes/help/utils/volcengine/air.ts:369-391 | After signing under `air`, the result is the built URL, method, signed headers and POST-only body, or the signing error. |
| Operations.BaseUrl | nodes/VolcEngine/resource/customRequest/SendRequest.ts:263 | The base URL is the credential's, or `https://open.volcengineapi.com` when that is empty. |
| Operations.IamConfiguredFields | nodes/VolcEngine/resource/iam/GetUser.ts:47-51 | The configured service signs as `iam` at `2018-01-01`, with the credential's keys, region and host, and no session token. |
| Operations.ConfigureIam | nodes/VolcEngine/resource/iam/GetUser.ts:47-51 | `new IamService()` and its four setters give those options. |
| Operations.CreateIam | nodes/VolcEngine/resource/iam/UpdateLoginProfile.ts:219-225 | `new IamService({...})` gives the same options as the setters. |
| Operations.Classify | nodes/VolcEngine/resource/iam/GetUser.ts:62-69 | A thrown error is passed on. A response succeeds or fails exactly as `handleVolcEngineResponse` decides. |
| Operations.ClassifyKnowledge | nodes/VolcEngine/resource/viking/SearchKnowledge.ts:167-169 | A thrown error is passed on. A response succeeds or fails exactly as `handleAirKnowledgeResponse` decides. |
| Operations.IamCallSigned | nodes/VolcEngine/resource/iam/GetUser.ts:62-67 | An IAM call signs `Action`, `Version` `2018-01-01` and the query (nullish values made `''`) under `iam`. |
| Operations.SignedOf | nodes/VolcEngine/resource/iam/GetUser.ts:62-67 | The signed parameters of a call with explicit action, version and query. |
| Operations.IamCallMethod | nodes/VolcEngine/resource/iam/GetUser.ts:65 | An IAM call is sent as GET. |
| Operations.IamQueryGet | nodes/VolcEngine/resource/iam/ListUsers.ts:68-72 | An IAM GET binding signs the action, `2018-01-01` and the data. |
| Operations.IamCall | nodes/VolcEngine/resource/iam/GetUser.ts:62-69 | Produces the classified `fetchOpenAPI` result. |
| Operations.StrOr | nodes/VolcEngine/resource/viking/SearchKnowledge.ts:96 | `x \|\| fallback` on a string is the fallback or a non-empty value; the region, the base URL and the viking clients all use it. |
| Operations.PutIf | nodes/VolcEngine/resource/iam/UpdateUser.ts:76-78 | A conditional assignment sets its name exactly when the condition holds. |
| Operations.PutIfGet | nodes/VolcEngine/resource/iam/UpdateUser.ts:76-90 | A later assignment wins, and every other parameter stays as it was. |
| Operations.Lenient | nodes/VolcEngine/resource/viking/SearchKnowledge.ts:131-134 | A non-string value is taken as it is. A string is parsed. |
| Operations.Assign3Literal | nodes/VolcEngine/resource/viking/SearchKnowledge.ts:114-118 | Three assignments under distinct names build the literal of the three. |
| Operations.Assign3Get | nodes/VolcEngine/resource/iam/UpdateUser.ts:73-90 | A parameter holds the value of the last assignment that ran and named it. |
| Operations.Assign9Get | nodes/VolcEngine/resource/iam/UpdateLoginProfile.ts:228-262 | The same for nine assignments in a row. |
| SendRequestOperation.Fill | nodes/VolcEngine/resource/customRequest/SendRequest.ts:293 | A query value is `value ?? ''`. A body value is kept as it is. |
| SendRequestOperation.CollectWellFormed | nodes/VolcEngine/resource/customRequest/SendRequest.ts:291-295 | The collected object never has a key twice. |
| SendRequestOperation.CollectGet | nodes/VolcEngine/resource/customRequest/SendRequest.ts:291-295 | Exactly the non-empty names get a property, holding the last pair's value. |
| SendRequestOperation.CollectStep | nodes/VolcEngine/resource/customRequest/SendRequest.ts:291-295 | One more pair changes only the property it names. |
| SendRequestOperation.InitNamed | nodes/VolcEngine/resource/customRequest/SendRequest.ts:291-295 | Dropping a last pair that does not name `k` keeps `k`'s last pair. |
| SendRequestOperation.CollectPairs | nodes/VolcEngine/resource/customRequest/SendRequest.ts:291-295 | The `for` loop produces the collected object. |
| SendRequestOperation.ServiceOptionsFields | nodes/VolcEngine/resource/customRequest/SendRequest.ts:330-337 | The service signs under the chosen name with the credential's keys, region and host, and has no default version. |
| SendRequestOperation.KeyPairQuery | nodes/VolcEngine/resource/customRequest/SendRequest.ts:284-295 | A named query pair is sent with its value, or `''` when the value is missing, unless a later pair has the same name. |
| SendRequestOperation.JsonObjectQuery | nodes/VolcEngine/resource/customRequest/SendRequest.ts:296-300 | A JSON query contributes exactly its object's properties. |
| SendRequestOperation.UnparsableQueryThrows | nodes/VolcEngine/resource/customRequest/SendRequest.ts:297-298 | A JSON query that does not parse throws before anything is sent. |
| SendRequestOperation.BodyRule | nodes/VolcEngine/resource/customRequest/SendRequest.ts:340-347 | Data is passed exactly for a truthy POST body with `sendBody`. The JSON `Content-Type` is set exactly when, in addition, the content type is `json`. |
| SendRequestOperation.KeyPairBodySent | nodes/VolcEngine/resource/customRequest/SendRequest.ts:313-326 | Pairs always make a body on a POST with `sendBody`, even when there are none. |
| SendRequestOperation.NoBodyUnlessPost | nodes/VolcEngine/resource/customRequest/SendRequest.ts:304-306 | A method other than POST sends no body and no extra header. |
| SendRequestOperation.SignedRequest | nodes/VolcEngine/resource/customRequest/SendRequest.ts:340-347 | The action, the version and every query parameter are signed under the chosen service. |
| SendRequestOperation.RequestMethod | nodes/VolcEngine/resource/customRequest/SendRequest.ts:343 | The request uses the chosen method, or GET when the method is empty. |
| SendRequestOperation.QueryWellFormed | nodes/VolcEngine/resource/customRequest/SendRequest.ts:281-301 | The query never has a key twice. |
| SendRequestOperation.BuildQuery | nodes/VolcEngine/resource/customRequest/SendRequest.ts:281-301 | Produces `QueryOf`. |
| SendRequestOperation.BuildBody | nodes/VolcEngine/resource/customRequest/SendRequest.ts:304-327 | Produces `BodyDataOf`. |
| SendRequestOperation.Call | nodes/VolcEngine/resource/customRequest/SendRequest.ts:260-350 | Produces `CallOf`: the host, query, body, service, `fetchOpenAPI` and the raw result. |
| GetUserOperation.UserParams | nodes/VolcEngine/resource/iam/GetUser.ts:54-59 | `UserName` when non-empty, otherwise `ID` when truthy, otherwise nothing; never both and nothing else. |
| GetUserOperation.BuildParams | nodes/VolcEngine/resource/iam/GetUser.ts:54-59 | The conditional assignments produce `UserParams`. |
| GetUserOperation.Call | nodes/VolcEngine/resource/iam/GetUser.ts:30-70 | Produces `CallOf`: the setters, the `GetUser` GET and the classification. |
| ListUsersOperation.ListParams | nodes/VolcEngine/resource/iam/ListUsers.ts:68-72 | The parameter object never has a key twice. |
| ListUsersOperation.ListParamsGet | nodes/VolcEngine/resource/iam/ListUsers.ts:68-72 | `Limit` and `Offset` are always sent, and `Query` only when non-empty. Nothing else is sent. |
| ListUsersOperation.ListUsersRequest | nodes/VolcEngine/resource/iam/ListUsers.ts:68-72 | Through the GET binding, the whole query is the operation's parameters. |
| ListUsersOperation.SignedListQuery | nodes/VolcEngine/resource/iam/ListUsers.ts:68-72 | The signed query is `Action`, `Version`, `Limit`, `Offset` and a non-empty `Query`. |
| ListUsersOperation.ListUsersQuery | nodes/VolcEngine/resource/iam/ListUsers.ts:56-72 | The call signs `ListUsers`, `2018-01-01`, `Limit` (50 by default), `Offset` (0 by default), and `Query` only when non-empty. |
| ListUsersOperation.Call | nodes/VolcEngine/resource/iam/ListUsers.ts:43-75 | Produces `CallOf`. |
| UpdateUserOperation.UpdateParamsGet | nodes/VolcEngine/resource/iam/UpdateUser.ts:73-90 | `UserName` is always sent. Each new value is sent exactly when non-empty. Nothing else is sent. |
| UpdateUserOperation.SendsUserName | nodes/VolcEngine/resource/iam/UpdateUser.ts:73-75 | `UserName` is always sent. |
| UpdateUserOperation.SendsNewEmail | nodes/VolcEngine/resource/iam/UpdateUser.ts:88-90 | `NewEmail` is sent exactly when non-empty. |
| UpdateUserOperation.SendsNewUserName | nodes/VolcEngine/resource/iam/UpdateUser.ts:76-78 | `NewUserName` is sent exactly when non-empty. |
| UpdateUserOperation.BuildParams | nodes/VolcEngine/resource/iam/UpdateUser.ts:73-90 | The assignments produce `UpdateParams`. |
| UpdateUserOperation.Call | nodes/VolcEngine/resource/iam/UpdateUser.ts:59-101 | Produces `CallOf`. |
| UpdateLoginProfileOperation.Digits | nodes/VolcEngine/resource/iam/UpdateLoginProfile.ts:247 | Returns the longest leading run of digits. |
| UpdateLoginProfileOperation.ParseInt | nodes/VolcEngine/resource/iam/UpdateLoginProfile.ts:247-250 | `parseInt` is an integer or NaN. |
| UpdateLoginProfileOperation.ParseIntOfNat | nodes/VolcEngine/resource/iam/UpdateLoginProfile.ts:247-250 | `parseInt` reads back the decimal text of every natural number and stops at the first non-digit. |
| UpdateLoginProfileOperation.ParseIntNaN | nodes/VolcEngine/resource/iam/UpdateLoginProfile.ts:247-250 | Text with no digit after the sign gives NaN. |
| UpdateLoginProfileOperation.DigitsValueOfNat | nodes/VolcEngine/resource/iam/UpdateLoginProfile.ts:247 | The digits of `String(n)` denote `n`. |
| UpdateLoginProfileOperation.LoginParamsLast | nodes/VolcEngine/resource/iam/UpdateLoginProfile.ts:228-262 | Every parameter holds its last assignment, and nothing else is sent. |
| UpdateLoginProfileOperation.SendsUserName | nodes/VolcEngine/resource/iam/UpdateLoginProfile.ts:228-230 | `UserName` is always sent. |
| UpdateLoginProfileOperation.SendsPassword | nodes/VolcEngine/resource/iam/UpdateLoginProfile.ts:231-233 | `Password` is sent exactly when non-empty. |
| UpdateLoginProfileOperation.SendsLoginAllowed | nodes/VolcEngine/resource/iam/UpdateLoginProfile.ts:234-236 | `LoginAllowed` is sent when non-empty, as `s === 'true'`. |
| UpdateLoginProfileOperation.SendsPasswordResetRequired | nodes/VolcEngine/resource/iam/UpdateLoginProfile.ts:237-239 | `PasswordResetRequired` is sent when non-empty, as `s === 'true'`. |
| UpdateLoginProfileOperation.SendsSafeAuthFlag | nodes/VolcEngine/resource/iam/UpdateLoginProfile.ts:240-242 | `SafeAuthFlag` is sent when non-empty, as `s === 'true'`. |
| UpdateLoginProfileOperation.SendsSafeAuthType | nodes/VolcEngine/resource/iam/UpdateLoginProfile.ts:243-245 | `SafeAuthType` is sent as given exactly when non-empty. |
| UpdateLoginProfileOperation.SendsSafeAuthExemptRequired | nodes/VolcEngine/resource/iam/UpdateLoginProfile.ts:246-248 | `SafeAuthExemptRequired` is sent as `parseInt` exactly when non-empty. |
| UpdateLoginProfileOperation.SendsExemptUnit | nodes/VolcEngine/resource/iam/UpdateLoginProfile.ts:249-262 | The unit is sent parsed exactly when non-empty. The duration goes with it: minutes for `'0'`, hours for `'1'`, days otherwise. |
| UpdateLoginProfileOperation.BuildParams | nodes/VolcEngine/resource/iam/UpdateLoginProfile.ts:228-262 | The assignments produce `LoginParams`. |
| UpdateLoginProfileOperation.SetProtection | nodes/VolcEngine/resource/iam/UpdateLoginProfile.ts:237-245 | The middle three assignments. |
| UpdateLoginProfileOperation.SetExemption | nodes/VolcEngine/resource/iam/UpdateLoginProfile.ts:246-262 | The exemption assignments, with the duration chosen by the unit. |
| UpdateLoginProfileOperation.Call | nodes/VolcEngine/resource/iam/UpdateLoginProfile.ts:196-273 | Produces `CallOf`. |
| SearchKnowledgeOperation.KeyCount | nodes/VolcEngine/resource/viking/SearchKnowledge.ts:149 | `Object.keys(v).length` throws exactly on null and undefined. |
| SearchKnowledgeOperation.History | nodes/VolcEngine/resource/viking/SearchKnowledge.ts:129-141 | The history sent is always a non-empty array. |
| SearchKnowledgeOperation.Filter | nodes/VolcEngine/resource/viking/SearchKnowledge.ts:143-155 | The filter sent always has at least one key. |
| SearchKnowledgeOperation.UnparsableHistoryDropped | nodes/VolcEngine/resource/viking/SearchKnowledge.ts:138-140 | An unparsable history is dropped silently. |
| SearchKnowledgeOperation.ArrayHistoryKept | nodes/VolcEngine/resource/viking/SearchKnowledge.ts:131-137 | A non-empty array history is sent as given. |
| SearchKnowledgeOperation.ParsedFilter | nodes/VolcEngine/resource/viking/SearchKnowledge.ts:143-151 | A parsed object filter is sent when it has keys, and `{}` is not sent. |
| SearchKnowledgeOperation.NullFilterDropped | nodes/VolcEngine/resource/viking/SearchKnowledge.ts:149-154 | A `null` filter is dropped: the throw is swallowed. |
| SearchKnowledgeOperation.SearchParamsLast | nodes/VolcEngine/resource/viking/SearchKnowledge.ts:114-163 | Every parameter holds its last assignment, and nothing else is sent. |
| SearchKnowledgeOperation.SendsRequired | nodes/VolcEngine/resource/viking/SearchKnowledge.ts:114-118 | `collection_name`, `query` and `limit` are always sent. |
| SearchKnowledgeOperation.SendsProject | nodes/VolcEngine/resource/viking/SearchKnowledge.ts:120-122 | `project` is sent exactly when non-empty. |
| SearchKnowledgeOperation.SendsHistory | nodes/VolcEngine/resource/viking/SearchKnowledge.ts:129-141 | `history` is sent exactly when it parses to a non-empty array. |
| SearchKnowledgeOperation.SendsFilter | nodes/VolcEngine/resource/viking/SearchKnowledge.ts:143-155 | `filter` is sent exactly when it parses to something with keys. |
| SearchKnowledgeOperation.SendsSwitches | nodes/VolcEngine/resource/viking/SearchKnowledge.ts:125-127 | `multi_round_rewrite` and `return_raw_chunk` are `true` when their flags are truthy, and absent otherwise. |
| SearchKnowledgeOperation.SendsResourceId | nodes/VolcEngine/resource/viking/SearchKnowledge.ts:161-163 | `resource_id` is sent when truthy. |
| SearchKnowledgeOperation.SearchBody | nodes/VolcEngine/resource/viking/SearchKnowledge.ts:167 | The client's default limit never applies, and the project is posted exactly when set. |
| SearchKnowledgeOperation.BuildParams | nodes/VolcEngine/resource/viking/SearchKnowledge.ts:114-163 | The assignments produce `SearchParams`. |
| SearchKnowledgeOperation.SetLeading | nodes/VolcEngine/resource/viking/SearchKnowledge.ts:120-141 | The project, rewrite and history assignments. |
| SearchKnowledgeOperation.SetTrailing | nodes/VolcEngine/resource/viking/SearchKnowledge.ts:143-163 | The filter, raw-chunk and resource-id assignments. |
| SearchKnowledgeOperation.SetHistory | nodes/VolcEngine/resource/viking/SearchKnowledge.ts:129-141 | The history `try` block. |
| SearchKnowledgeOperation.SetFilter | nodes/VolcEngine/resource/viking/SearchKnowledge.ts:143-155 | The filter `try` block. |
| SearchKnowledgeOperation.Call | nodes/VolcEngine/resource/viking/SearchKnowledge.ts:91-170 | Produces `CallOf`. |
| ChatCompletionsOperation.HistoryItems | nodes/VolcEngine/resource/viking/ChatCompletions.ts:146-153 | The history items are used only for a parsed array; an unparsable history gives none. |
| ChatCompletionsOperation.MessagesShape | nodes/VolcEngine/resource/viking/ChatCompletions.ts:135-159 | The question is last, the system prompt (when given) is first, and the history lies between them. |
| ChatCompletionsOperation.UnparsableHistoryIgnored | nodes/VolcEngine/resource/viking/ChatCompletions.ts:151-153 | An unparsable history adds nothing and raises no error. |
| ChatCompletionsOperation.NonArrayHistoryIgnored | nodes/VolcEngine/resource/viking/ChatCompletions.ts:148-150 | A non-array history adds nothing. |
| ChatCompletionsOperation.ChatParamsShape | nodes/VolcEngine/resource/viking/ChatCompletions.ts:162-173 | `max_tokens` is 4096 when falsy. `temperature` is 0.1 only for null or undefined. `stream` is false. `return_token_usage` is false only for `false`. `project` is sent when truthy. |
| ChatCompletionsOperation.ChatParamsAppend | nodes/VolcEngine/resource/viking/ChatCompletions.ts:171-173 | Assigning `project` appends it. |
| ChatCompletionsOperation.ChatParamsProps | nodes/VolcEngine/resource/viking/ChatCompletions.ts:162-173 | Each parameter is read back by its name, and `project` is missing unless truthy. |
| ChatCompletionsOperation.PutProject | nodes/VolcEngine/resource/viking/ChatCompletions.ts:171-173 | `project` is not among the literal's names. |
| ChatCompletionsOperation.BodyIsParams | nodes/VolcEngine/resource/viking/ChatCompletions.ts:176 | The client's defaults never apply: the posted body is exactly the parameters. |
| ChatCompletionsOperation.BodyOfNamed | nodes/VolcEngine/resource/viking/ChatCompletions.ts:176 | A body of such parameters is those parameters. |
| ChatCompletionsOperation.ZeroSettings | nodes/VolcEngine/resource/viking/ChatCompletions.ts:165-166 | A temperature of 0 is posted as 0, while a `max_tokens` of 0 becomes 4096. |
| ChatCompletionsOperation.BuildMessages | nodes/VolcEngine/resource/viking/ChatCompletions.ts:135-159 | The `push` calls produce `Messages`. |
| ChatCompletionsOperation.BuildParams | nodes/VolcEngine/resource/viking/ChatCompletions.ts:162-173 | Produces `ChatParams`. |
| ChatCompletionsOperation.Call | nodes/VolcEngine/resource/viking/ChatCompletions.ts:114-179 | Produces `CallOf`. |

## Left out

- SHA-256 and HMAC-SHA256 (crypto-js) are the `sha256` and `hmac` functions of `Host.Runtime`, over UTF-8 bytes. Their results are not computed. The `arrayBufferToWordArray` adapter (nodes/help/utils/volcengine/sign.ts:263-270) belongs to that library bridge and is not modelled.
- The clock: `new Date().toISOString()` is an `iso` string parameter. The timestamp lemmas hold for the `YYYY-MM-DDTHH:mm:ss.sssZ` form that `toISOString` gives for years 0 to 9999.
- `JSON.stringify`, `JSON.parse`, `URLSearchParams.toString()`, `qs.stringify` and `new URL(s).host` are functions of `Host.Runtime`. A parse that throws is `None`. The exact `SyntaxError` text of `JSON.parse` is not modelled: the constant `SendRequestOperation.InvalidJson` stands for it.
- Lone UTF-16 surrogates: a Dafny `char` is a Unicode scalar value, so the input on which `encodeURIComponent` throws, and `uriEscape` returns `''`, cannot be written. The `catch` branch of `uriEscape` is therefore not modelled.
- String comparison is by code point. JavaScript compares UTF-16 code units. The two orders differ only between characters above U+FFFF and those in U+E000 to U+FFFF.
- Floating-point numbers are carried as the text JavaScript prints for them (`Num.Frac`). No arithmetic is done on them.
- The check `typeof value.toString !== 'function'` in `canonicalHeaders` is not modelled: every modelled value other than null and undefined has a `toString`.
- Integer-like object keys, which JavaScript enumerates before the other keys, are not modelled: objects keep insertion order.
- The transport: both clients call `fetch`, which they import as the default export of `./fetch` (nodes/help/utils/volcengine/service.ts:7, 212; nodes/help/utils/volcengine/air.ts:7, 391). nodes/help/utils/volcengine/fetch.ts has no default export: its only export is `createRequestFn`. So the model does not call a transport. The clients return the URL and request they would hand to `fetch` (`Transport.Outgoing`), and the operations take the transport as a `send` function from that request to the response. `Transport.Fetch` models `createRequestFn` by itself, as the transport the clients were presumably meant to use. Nothing in the source connects the two.
- Of the request that `fetchOpenAPI` hands to `fetch`, only the method, headers and data are modelled. These are the only fields the transport reads.
- `httpRequestFn`: the operations pass it as a service option, and the spread at nodes/help/utils/volcengine/service.ts:26-29 stores it in `this.options`. Nothing in service.ts or air.ts ever reads it, so it never reaches the transport. The model leaves it out of the service options, and doing so changes no modelled result.
- Promises and concurrency are not modelled: each call runs alone, from start to finish, on a service nobody else changes.
- n8n plumbing: `getCredentials`, `getNodeParameter` and `getVolcEngineCredentials` become input records (`Operations.Connection` and each operation's `Input`). `NodeApiError` becomes the `Responses.ResponseError` datatype. The node and item index it carries are not modelled. The UI property declarations are not modelled.
- The type declarations of `types.ts` are not modelled as such: the modelled records follow the shapes they declare.
- Air.ChatMessages: when the history is iterable but holds elements that are not messages, they are pushed as they are, as the source does. The model does not check element shapes.
- Text.Lower, Text.Upper: case mapping covers the ASCII letters only, whereas `toLowerCase()` and `toUpperCase()` map every Unicode letter. Header names and request methods are HTTP tokens (section 3.2.6 of RFC 7230), which are ASCII, so for those the two agree. A non-ASCII header name such as `X-Ä` keeps its case in the model. It is lower-cased by the signer (nodes/help/utils/volcengine/sign.ts:170, 185, 188, 207).
- Signing.Signer.CanonicalHeaders, Signing.SignedHeadersList, Signing.CanonicalRequestText: these rely on that ASCII case mapping for the sort key, the canonical header lines, the signed-headers list and the upper-cased method.
- Signing.Signer.CanonicalHeaders: two headers whose names are equal after lower-casing, such as `Host` and `host`, are tied. The comparator at nodes/help/utils/volcengine/sign.ts:185 never answers "equal", so the engine's sort decides their order. The model's insertion sort (`Order.SortBy`) fixes one order for such ties, the reverse of their input order, and the engine may choose another.
- Air.ChatMessages: the text of the `TypeError` the engine raises when `options.history` is not iterable is not modelled. The constant `Air.NotIterable` stands for it.
- UpdateLoginProfileOperation.ParseInt: a run of digits is read as an exact integer. `parseInt` returns a double, which rounds above 2^53: `String(parseInt("9007199254740993"))` is `"9007199254740992"`, and the model keeps the exact value.
