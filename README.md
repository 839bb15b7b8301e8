# Taleo REST client: a Dafny model

This project models the core of a PHP client for the Taleo Business Edition
REST service: the `Api` class (taleo/Api.php) and the `Error` record it logs
(taleo/Error.php).

The client keeps three kinds of state:
- credentials: company code, user name, password and service URL;
- a session: host URL and authentication token;
- an append-only log of `Error` records.

Every call to the service goes through `make_request`, in four steps:
1. it completes a partial request array (`add_missing_request_values`);
2. it sends the request;
3. it decodes the JSON reply;
4. it turns a `status.success == false` envelope into a logged `Error`.

On top of this sit:
- `login`/`logout`, which fetch, release and clear the session;
- resolvers for entities, fields and records;
- related-record lookup, which guesses the property a related record lives
  under (`find_entity_name`).

Modules, one per file:

| file | module | models |
|---|---|---|
| php_values.dfy | `PhpValues` | PHP arrays as ordered key/value sequences, decoded JSON values, truthiness, `property_exists`, `->`, `strtolower`, string conversion |
| serializers.dfy | `Serializers` | the query, cookie and header serialisers |
| paths.dfy | `Paths` | `fix_trailing_slash`, the request-path table `get_request_path`, `sprintf` filling of its templates |
| requests.dfy | `Requests` | the request array, `add_missing_request_values` as a function, the HTTP verb choice |
| responses.dfy | `Responses` | the response interpreter of `make_request`, with transport and decoder as oracles |
| errors.dfy | `Errors` | class `Error` with its constructor, getters and setters |
| session.dfy | `Session` | the outcome of `login` and `logout`, `is_blank` |
| resolution.dfy | `Resolution` | the outcome of every resolver, `find_entity_name`, the related-record loops |
| api.dfy | `Taleo` | class `Api`: its fields and its methods, each proved to give the outcome the matching function states |

The network is a parameter, `Network(transport, decode)`:
- `transport` answers a request with a body, or fails;
- `decode` is json_decode, which gives a value or a parse error.

Every method of `Api` that calls the service takes it as an argument. Each
method states two things:
- its result and new session equal those of a pure function (`Exchange`,
  `LoginOutcome`, `LogoutOutcome`, `Entities`, `RelatedRecords`, …);
- the error log gains exactly one `Error` per call rejected by a failure envelope, and nothing else.

The properties are then proved as lemmas about those functions.

The model follows the code where it behaves differently from what its
comments and its description suggest:
- A `query` key holding an empty array still appends `?` to the URL.
- A leading `/` on `path` is not removed, so `https://h/` with `/login`
  gives `https://h//login`.
- `logout` clears the session only when the release call succeeds.
- `fix_trailing_slash` with "toggle" applied twice is not the identity on a
  path ending in two slashes.

## Model

| member | source | states |
|---|---|---|
| Paths.FixTrailingSlash | taleo/Api.php:1100-1145 | "ensure" gives a path ending in a slash that extends the input by at most one character; "prevent" gives the input minus one trailing slash when it has one, else the input; "toggle" adds a slash to a path without one and removes one from a path with one; any other task returns the input |
| Paths.EnsureIdempotent | taleo/Api.php:1112-1116 | "ensure" is idempotent and leaves a path that already ends in a slash unchanged |
| Paths.ToggleTwice | taleo/Api.php:1124-1130 | "toggle" twice gives back every path that does not end in two slashes |
| Paths.ToggleTwiceOnDoubleSlash | taleo/Api.php:1124-1130 | on "a//", "toggle" gives "a/" and then "a": two toggles are not the identity there |
| Paths.PreventRemovesOneSlash | taleo/Api.php:1118-1122 | "prevent" removes exactly one slash, so a path ending in two slashes still ends in one |
| Paths.GetRequestPath | taleo/Api.php:1175-1225 | a template exists exactly for the twelve known slugs; every template is non-empty and neither starts nor ends with a slash |
| Serializers.ConvertArrayToQueryString | taleo/Api.php:973-985 | the loop that writes `k=v&` per pair and drops the last `&` yields exactly the `&`-joined pairs in insertion order |
| Serializers.ConvertArrayToCookieString | taleo/Api.php:925-937 | the loop that writes `k=v; ` per pair and drops the last `; ` yields exactly the `; `-joined pairs (the cookie-pair list of section 4.2.1 of RFC 6265) |
| Serializers.ConvertArrayToOptionArray | taleo/Api.php:951-959 | one `k: v` line per entry, in the array's order |
| Serializers.TerminatedIsJoinedThenSep | taleo/Api.php:976-982 | for a non-empty array the text with a separator after every entry is the joined text plus one separator, so dropping it leaves no trailing separator |
| Serializers.JoinedConcat | taleo/Api.php:976-982 | the text of two non-empty arrays placed one after the other is their texts joined by one separator |
| Serializers.JoinedFront | taleo/Api.php:976-982 | the joined text is the first entry, then the separator and the joined text of the rest |
| Serializers.QueryStringShape | taleo/Api.php:973-985 | the empty array gives ""; otherwise the first pair comes first, followed by `&` and the rest's query string, with no encoding |
| Serializers.CookieStringShape | taleo/Api.php:925-937 | the empty array gives ""; otherwise the first pair comes first, followed by `; ` and the rest's cookie string |
| Requests.Normalized | taleo/Api.php:877-911 | the request as sent has a URL, an `authToken` cookie, a `Content-Type` header and a return-transfer flag; a POST has a body; nothing the caller set (cookies, headers, body, flag, path, query, method) is changed |
| Requests.NormalizedUrl | taleo/Api.php:878-895 | the URL sent is the located URL followed by `?` and the query string whenever a query is present |
| Requests.ExplicitUrlKept | taleo/Api.php:878-895 | an explicit `url` is kept, followed only by the query suffix, and `host` is left as given |
| Requests.ExplicitUrlIgnoresHostAndPath | taleo/Api.php:878-891 | with an explicit `url`, neither `host`, nor `path`, nor the session's host URL changes the URL sent |
| Requests.UrlFromBase | taleo/Api.php:878-891 | without `url` the base is `host`, else the session's host URL; without `path` the URL is the base alone; with `path` it is the base with one slash ensured, then the path |
| Requests.LeadingSlashKept | taleo/Api.php:884-890 | a leading slash of `path` is kept: base `https://h/` and path `/login` give `https://h//login` |
| Requests.EmptyQueryLeavesMark | taleo/Api.php:892-895 | a `query` holding an empty array leaves a URL ending in `?` |
| Requests.DefaultsOnlyWhenAbsent | taleo/Api.php:896-908 | the `authToken` cookie, `Content-Type: application/json`, an empty POST body and return-transfer 1 are added only when absent, after the caller's own entries |
| Requests.HttpVerb | taleo/Api.php:1019-1052 | "delete", "put" and "post" select DELETE, PUT and POST; every other method value leaves GET |
| Responses.Interpret | taleo/Api.php:429-455 | a falsy body fails; a non-JSON type delivers the body unchanged; a JSON body that does not parse fails; a parsed envelope with a truthy `status.success` is delivered decoded, and one without is rejected carrying `errormessage`, `operation`, `errorcode` and `error` of `status.detail`; it fails exactly in the first and third cases |
| Responses.TransportFailureFails | taleo/Api.php:431-433 | a failed transfer, an empty body or "0" fails the call whatever the content type |
| Responses.MalformedFails | taleo/Api.php:436-439 | a JSON body that does not parse fails the call without logging |
| Responses.NonJsonPassesThrough | taleo/Api.php:434-454 | for a non-JSON content type the body is returned exactly as received |
| Responses.DeliveredIsTruthy | taleo/Api.php:429-455 | whatever is delivered is truthy, so a caller's `if (!$response = …)` fails exactly on a failed call |
| Responses.FailureEnvelopeExample | taleo/Api.php:440-450 | the envelope with `success` false and detail Bad/login/401/Auth is rejected with those four values |
| Errors.Error.constructor | taleo/Error.php:72-84 | the constructor stores request, message, type, code and detail; the defaults are an empty request, "" for message, type and detail, and 0 for code |
| Errors.Error.GetCode | taleo/Error.php:88-90 | returns the stored code |
| Errors.Error.SetCode | taleo/Error.php:92-94 | stores the code and leaves the other four fields unchanged |
| Errors.Error.GetDetail | taleo/Error.php:96-98 | returns the stored detail |
| Errors.Error.SetDetail | taleo/Error.php:100-102 | stores the detail and leaves the other four fields unchanged |
| Errors.Error.GetMessage | taleo/Error.php:104-106 | returns the stored message |
| Errors.Error.SetMessage | taleo/Error.php:108-110 | stores the message and leaves the other four fields unchanged |
| Errors.Error.GetRequest | taleo/Error.php:112-114 | returns the stored request |
| Errors.Error.SetRequest | taleo/Error.php:116-118 | stores the request and leaves the other four fields unchanged |
| Errors.Error.GetType | taleo/Error.php:120-122 | returns the stored type |
| Errors.Error.SetType | taleo/Error.php:124-126 | stores the type and leaves the other four fields unchanged |
| Session.IsBlank | taleo/Api.php:1234-1240 | a value is blank exactly when it is the empty string; a truthy value is never blank, and "0" is the one value that is neither blank nor truthy |
| Session.LoginOutcome | taleo/Api.php:371-386 | login succeeds exactly when each blank value is fetched as a truthy value (the token fetched with the new host URL); success means both values are set; a value already set is never changed; a blank value is replaced on success by the value fetched for it; a failure never changes the token |
| Session.TokenStep | taleo/Api.php:378-385 | the token half of `login` keeps the host URL, succeeds exactly when a blank token is fetched truthy, then stores the fetched token, and otherwise leaves the token as it was |
| Session.LoginWithoutFetch | taleo/Api.php:371-386 | with both values set, `login` succeeds with the same outcome whatever the network does, so nothing is fetched |
| Session.LoginHostFailure | taleo/Api.php:372-376 | a failed host URL fetch fails `login` and leaves both values as they were |
| Session.LoginKeepsHostOnTokenFailure | taleo/Api.php:372-383 | a failed token fetch after a successful host URL fetch fails `login` and leaves the fetched host URL set with a blank token |
| Session.LogoutOutcome | taleo/Api.php:399-407 | `logout` returns true exactly when the release succeeds, and then clears both values; otherwise both are kept |
| Resolution.Merge | taleo/Api.php:653 | two JSON arrays merge into the first one's items followed by the second one's, nothing dropped or reordered |
| Resolution.FindEntityName | taleo/Api.php:1077-1087 | the name is the plural if the record has it, else the lower-case name if it has that, else the name as given; it is always one of the three and, unless it is the given name, a property of the record |
| Resolution.Select | taleo/Api.php:784-795 | the related record is the value of the first of plural, lower-case name and name that the response has, or else the whole response unchanged |
| Resolution.RelationshipLinks | taleo/Api.php:833-834 | a key is among the links read exactly when it is a property of the record's own `relationshipUrls` |
| Resolution.RelationshipLinksAsWritten | taleo/Api.php:833-834 | reading `relationshipUrls` through the entity-named property yields no link for a record without such a property |
| Resolution.DiscoveryEntry | taleo/Api.php:835-854 | a link gives an entry exactly when its call succeeds |
| Resolution.DiscoveryEntryAsWritten | taleo/Api.php:835-854 | a link whose call fails stores null under its own name; one whose call succeeds stores what the corrected loop stores |
| Resolution.NoLabelNoFields | taleo/Api.php:539-702 | without a truthy label, code, standard fields, custom fields, field, field values and all fields fail |
| Resolution.EntityFieldsSpec | taleo/Api.php:645-656 | all fields are the standard fields followed by the custom fields; the call fails exactly when either is falsy (including empty) or not an array |
| Resolution.FieldValuesSpec | taleo/Api.php:623-634 | field values are returned exactly for a truthy field that has `lookupValues`, and are those values |
| Resolution.PluralExample | taleo/Api.php:1077-1079 | "user" finds the property "users", and the users are picked out of the response |
| Resolution.LowerCaseExample | taleo/Api.php:1080-1083 | "Candidate" finds the lower-case property "candidate" |
| Resolution.UnknownNameExample | taleo/Api.php:1084-1086 | a name the response lacks stays as given, and the whole response is returned |
| Resolution.CollectedKeys | taleo/Api.php:817-829 | the names collected are exactly the names asked for whose related record is truthy, each stored under the name asked for with that record |
| Resolution.CollectedNonEmpty | taleo/Api.php:817-829 | the collection is non-empty exactly when one name has a truthy related record |
| Resolution.RelatedRecordsNamed | taleo/Api.php:812-861 | with names asked for, `get_related_records` succeeds exactly when one of them has a truthy related record |
| Resolution.DiscoveryAtLeastOne | taleo/Api.php:830-861 | the discovery loop comes back empty exactly when no link gives an entry |
| Resolution.DiscoveredSomeLink | taleo/Api.php:835-854 | the corrected discovery loop stores something exactly when one link's call succeeds |
| Resolution.RelatedRecordsDiscovered | taleo/Api.php:830-861 | without names, for a truthy record, the corrected discovery branch of `get_related_records` (links read from the record itself, failed links skipped) succeeds exactly when one relationship link answers |
| Resolution.DiscoveredAsWrittenNeverEmpty | taleo/Api.php:835-854 | as written, the discovery loop stores something for every link, answered or not |
| Resolution.FailedLinkCountsAsFound | taleo/Api.php:835-854 | with every call failing, one link yields `{"user": null}` as written and nothing corrected |
| Resolution.DoubleLookupLosesLinks | taleo/Api.php:833-834 | a record holding one relationship link has no links as written and that one link corrected |
| Resolution.DiscoveryAsWrittenFails | taleo/Api.php:830-861 | as written, discovery fails for every record that lacks a property named after its own entity |
| Taleo.Api.constructor | taleo/Api.php:112-125 | a new client stores the credentials, with blank host URL and token and an empty error log |
| Taleo.Api.AddMissingRequestValues | taleo/Api.php:877-911 | filling the request key by key yields exactly `Normalized` of the request and the session |
| Taleo.Api.LogError | taleo/Api.php:1250-1254 | appends the error at the end of the log and returns true |
| Taleo.Api.MakeRequest | taleo/Api.php:429-455 | returns what `Exchange` delivers and nothing otherwise; a rejected reply appends exactly one new `Error` (request as sent, message, type = operation, code, detail); any other outcome leaves the log unchanged; the session is unchanged |
| Taleo.Api.FetchResponse | taleo/Api.php:429-455 | `$response->response` of a call, or failure, as `Fetch` states; the session is unchanged and the log gains exactly one error when the call is rejected and nothing otherwise |
| Taleo.Api.FetchHostUrl | taleo/Api.php:348-359 | the `URL` answered for the company code, as `FetchedHostUrl` states; the session is unchanged and the log gains one error only when the call is rejected |
| Taleo.Api.FetchAuthToken | taleo/Api.php:320-336 | the `authToken` answered by the login call, as `FetchedAuthToken` states; the session is unchanged and the log gains one error only when the call is rejected |
| Taleo.Api.Login | taleo/Api.php:371-386 | the result, host URL and token afterwards are those of `LoginOutcome`; the credentials stay; the log gains exactly the errors of the calls made (`LoginRejections`): none when both values are set, and only those of the host URL call, or only those of the token call, when only that value is blank |
| Taleo.Api.LoginToken | taleo/Api.php:378-385 | the result and token afterwards are those of `TokenStep`; the host URL stays; the log is unchanged when the token is set and gains one error only when the token call is rejected |
| Taleo.Api.ReleaseAuthToken | taleo/Api.php:467-480 | true exactly when the logout call for the token is delivered; the log gains one error only when that call is rejected |
| Taleo.Api.Logout | taleo/Api.php:399-407 | the result, host URL and token afterwards are those of `LogoutOutcome`; the log gains one error only when the release call is rejected |
| Taleo.Api.GetEntities | taleo/Api.php:493-503 | the `objects` of the entity list, as `Entities` states; the log gains one error only when the call is rejected |
| Taleo.Api.GetEntity | taleo/Api.php:514-527 | the entity description, as `Entity` states; the log gains one error only when the call is rejected |
| Taleo.Api.GetEntityLabel | taleo/Api.php:668-675 | the label of a truthy entity, as `Label` states; the log gains one error only when the entity call is rejected |
| Taleo.Api.GetEntityCode | taleo/Api.php:539-555 | the code of the standard-field description, as `Code` states; the log gains one error per rejected call among the entity call and, for a truthy label, the description call (`StandardRejections`) |
| Taleo.Api.GetEntityCustomFields | taleo/Api.php:566-582 | the custom fields, as `CustomFields` states; the log gains one error per rejected call among the entity call and, for a truthy label, the custom-field call (`CustomRejections`) |
| Taleo.Api.GetEntityStandardFields | taleo/Api.php:686-702 | the standard fields, as `StandardFields` states; the log gains one error per rejected call among the entity call and, for a truthy label, the description call (`StandardRejections`) |
| Taleo.Api.GetEntityField | taleo/Api.php:594-611 | `displayfield->field` fetched by entity code, as `EntityField` states; the log gains one error per rejected call among the code's calls and, for a truthy code, the field call (`FieldRejections`) |
| Taleo.Api.GetEntityFieldValues | taleo/Api.php:623-634 | the lookup values, as `EntityFieldValues` states; the log gains the errors of the field's calls (`FieldRejections`) and no others |
| Taleo.Api.GetEntityFields | taleo/Api.php:645-656 | the merged fields, as `EntityFields` states; the log gains the errors of the standard fields' calls and, when those are truthy, of the custom fields' calls (`FieldsRejections`) |
| Taleo.Api.GetRecord | taleo/Api.php:714-728 | the record under its entity's name, as `Record` states; the log gains one error only when the call is rejected |
| Taleo.Api.GetRecords | taleo/Api.php:741-756 | the search result, with the query always sent, as `Records` states; the log gains one error only when the call is rejected |
| Taleo.Api.GetRelatedRecord | taleo/Api.php:771-796 | the related record picked out by the inferred name, as `RelatedRecord` states; the log gains one error only when the call is rejected |
| Taleo.Api.CollectRelated | taleo/Api.php:817-829 | the loop stores the truthy related records under the names asked for, as `Collected` states; the log gains one error per name whose call is rejected (`NamesRejections`) |
| Taleo.Api.DiscoverRelated | taleo/Api.php:833-855 | the discovery loop (corrected) stores the answered links under their inferred names, as `Discovered` states; the log gains one error per link whose call is rejected (`LinksRejections`) |
| Taleo.Api.DiscoverFromRecord | taleo/Api.php:830-855 | the discovery branch (corrected): failure for a record that is not truthy, else the discovery loop over the record's own links; the log gains the errors of the record call and of the link calls |
| Taleo.Api.GetRelatedRecords | taleo/Api.php:812-862 | the related records, or failure when nothing was stored, as `RelatedRecords` states; the log gains exactly the errors of the calls made (`RelatedRecordsRejections`); its discovery branch is the corrected one of the Findings, not the code at lines 833-854 |

## Left out

- cURL itself (taleo/Api.php:996-1063) is not modelled. The transport is the `transport` function of `Network`, which receives the request as sent. Only the verb choice (`HttpVerb`) and the serialisers it calls are modelled.
- json_decode and json_encode are not modelled. Decoding is the `decode` function of `Network`, and the JSON encoding of a POST body (taleo/Api.php:1044) is not specified.
- JSON numbers are integers; floats are not modelled.
- Duplicate property names in a decoded object are not modelled: the first one counts.
- `debug`, index.php and `get_message_template` are not part of this model: they are output, a demo script, and an unused table.
- The trivial getters and setters of `Api` (taleo/Api.php:136-289) are not modelled; they read and write one field each.
- Taleo.Api.FetchHostUrl: a fetched `URL` that is not a JSON string counts as a failure. The code would store a truthy number or object as the host URL.
- Taleo.Api.FetchAuthToken: a fetched `authToken` that is not a JSON string counts as a failure, for the same reason.
- Resolution.Merge: `array_merge` of anything but two JSON arrays is a failure. PHP 7 returns null with a warning there, and PHP 8 raises an error.
- Paths.Fill: `sprintf` is given each argument already as text. A record id is an integer written in decimal; coercion of other argument types is not modelled.
- PhpValues.Text: an object converted to a string gives "". PHP raises an error there.
- `property_exists` on a value that is not an object is false. PHP 7 returns null with a warning, which the code reads as false.
- Paths.ToggleTwice: holds only for paths that do not end in two slashes, because "toggle" removes one slash from those.
- Taleo.Api.DiscoverRelated: follows the corrected discovery loop (see Findings), not the code as written. The code as written is modelled by `Resolution.RelatedRecordsAsWritten`, using PHP 7 semantics for the failed call. Under PHP 8, `property_exists` on null raises an error.
- Taleo.Api.DiscoverFromRecord: the discovery branch as corrected in the Findings, like `Taleo.Api.DiscoverRelated`.
- Taleo.Api.GetRelatedRecords: its discovery branch (no names given) is the corrected one of the Findings: it reads the links of the record itself and skips links whose call fails. The code at taleo/Api.php:833-854 looks the record up a second time and stores null for a failed link; that behaviour is modelled only by `Resolution.RelatedRecordsAsWritten`.
- The service is stateless and deterministic: `transport` is a function, so two equal requests get equal answers. The code sends some requests more than once (`get_entity_fields` fetches the entity label twice, and `get_entity_code` and `get_entity_standard_fields` each fetch the same standard-field description). A service whose answer changes between those calls is not modelled; in particular, the model takes the entity code and the standard fields from equal answers to the same request.
- An array a caller passes in (the `query` of `get_records`) may repeat a key in the model, which a PHP array cannot; lookups read the first entry and the serialisers write every entry.
- The discovery loop reads links from a JSON object only; a JSON array of links is not iterated.
- The `is_array` checks of the serialisers are not modelled, because their argument is always an array here.
- The Error objects in the log are the ones `MakeRequest` created. Later changes to them through their setters are outside the `Api` model.

## Findings

| source | as written | input that shows it | evidently intended | confidence | as-written member | corrected member |
|---|---|---|---|---|---|---|
| taleo/Api.php:833-834 | the discovery loop reads `$record->$entity_name->relationshipUrls`, but `get_record` already returned `$response->response->$entity_name` | a record `{"id":1,"relationshipUrls":{"user":"https://h/u"}}` of entity "requisition": no links are read, so `get_related_records` with no names fails | read `$record->relationshipUrls` | not executed; depends on the service nesting the record only once | Resolution.RelationshipLinksAsWritten | Resolution.RelationshipLinks |
| taleo/Api.php:838-854 | a link whose `make_request` fails still stores `$response->response` (null, under PHP 7) under the link's name | one link `"user"` and a network on which every call fails: the result is `{"user": null}`, a success | skip links whose call fails, as the named branch skips failures | not executed; PHP 8 raises an error instead | Resolution.DiscoveryEntryAsWritten | Resolution.DiscoveryEntry |
