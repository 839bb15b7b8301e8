/** The client object (`Api` in Api.php): its session fields, its error
    log, and the operations that read and update them. Every call to the
    service goes through `MakeRequest`; each operation is proved to return
    what the matching function of `Session` or `Resolution` gives. */
module Taleo {
  import opened PhpValues
  import opened Serializers
  import opened Paths
  import opened Requests
  import opened Responses
  import opened Errors
  import opened Session
  import opened Resolution

  class Api {
    var authToken: string
    var companyCode: string
    var errors: seq<Error>
    var hostUrl: string
    var password: string
    var serviceUrl: string
    var username: string

    /** A new client has the given credentials, no session and no errors. */
    constructor (companyCode: string := "", username: string := "", password: string := "", serviceUrl: string := "")
      ensures Creds() == Credentials(companyCode, username, password, serviceUrl)
      ensures authToken == "" && hostUrl == "" && errors == []
    {
      this.authToken := "";
      this.companyCode := companyCode;
      this.errors := [];
      this.hostUrl := "";
      this.password := password;
      this.serviceUrl := serviceUrl;
      this.username := username;
    }

    function Creds(): Credentials
      reads this
    {
      Credentials(companyCode, username, password, serviceUrl)
    }

    /** The session the resolvers run in. */
    function ContextWith(net: Network): Context
      reads this
    {
      Context(hostUrl, authToken, net)
    }

    /** The credentials are unchanged and the error log has only grown. */
    twostate predicate Logged()
      reads this
    {
      Creds() == old(Creds()) && old(errors) <= errors
    }

    /** As `Logged`, and the session is unchanged too. */
    twostate predicate Kept()
      reads this
    {
      Logged() && hostUrl == old(hostUrl) && authToken == old(authToken)
    }

    /** The log after one call for `request`: one more error when the call
        was rejected by a failure envelope, the same log otherwise. */
    twostate predicate LoggedOnce(request: Request, net: Network)
      reads this
    {
      var reply := Exchange(request, old(hostUrl), old(authToken), net);
      && (!reply.Rejected? ==> errors == old(errors))
      && (reply.Rejected? ==> |errors| == |old(errors)| + 1)
      && |errors| == |old(errors)| + Rejections(request, old(hostUrl), old(authToken), net)
    }

    /** `add_missing_request_values`, key by key. */
    method AddMissingRequestValues(request: Request) returns (r: Request)
      ensures r == Normalized(request, hostUrl, authToken)
    {
      r := request;
      if r.url.None? {
        if r.host.None? {
          r := r.(url := Some(hostUrl), host := Some(hostUrl));
        } else {
          r := r.(url := r.host);
        }
        if r.path.Some? {
          r := r.(url := Some(FixTrailingSlash(r.url.value, "ensure") + r.path.value));
        }
      }
      if r.query.Some? {
        var queryString := ConvertArrayToQueryString(r.query.value);
        r := r.(url := Some(r.url.value + "?" + queryString));
      }
      if "authToken" !in Keys(r.cookie) {
        r := r.(cookie := Put(r.cookie, "authToken", authToken));
      }
      if "Content-Type" !in Keys(r.httpHeader) {
        r := r.(httpHeader := Put(r.httpHeader, "Content-Type", JsonType));
      }
      if r.httpMethod == Some("post") && r.postFields.None? {
        r := r.(postFields := Some(""));
      }
      if r.returnTransfer.None? {
        r := r.(returnTransfer := Some(1));
      }
    }

    /** `log_error`: appends the error at the end of the log. */
    method LogError(error: Error) returns (logged: bool)
      modifies this
      ensures errors == old(errors) + [error] && logged
      ensures Creds() == old(Creds()) && hostUrl == old(hostUrl) && authToken == old(authToken)
    {
      errors := errors + [error];
      logged := true;
    }

    /** `make_request`: returns what `Exchange` delivers, and nothing
        otherwise. A failure envelope appends exactly one new `Error` built
        from its detail and the request as sent; every other outcome leaves
        the log as it was. */
    method MakeRequest(request: Request, net: Network) returns (response: Option<Payload>)
      modifies this
      ensures Kept()
      ensures var reply := Exchange(request, hostUrl, authToken, net);
              && (reply.Delivered? ==> response == Some(reply.payload))
              && (!reply.Delivered? ==> response.None?)
              && (!reply.Rejected? ==> errors == old(errors))
              && (reply.Rejected? ==>
                    && |errors| == |old(errors)| + 1
                    && fresh(errors[|errors| - 1])
                    && errors[|errors| - 1].request == Normalized(request, hostUrl, authToken)
                    && errors[|errors| - 1].message == reply.message
                    && errors[|errors| - 1].errorType == reply.operation
                    && errors[|errors| - 1].code == reply.code
                    && errors[|errors| - 1].detail == reply.detail)
    {
      var resolved := AddMissingRequestValues(request);
      var raw := net.transport(resolved);
      if raw.None? || !TruthyText(raw.value) {
        return None;
      }
      if Lookup(resolved.httpHeader, "Content-Type") != Some(JsonType) {
        return Some(Raw(raw.value));
      }
      match net.decode(raw.value)
      case Malformed =>
        return None;
      case Parsed(j) =>
        if !Succeeded(j) {
          var detail := Get(Get(j, "status"), "detail");
          var error := new Error(resolved, Get(detail, "errormessage"), Get(detail, "operation"),
                                 Get(detail, "errorcode"), Get(detail, "error"));
          var _ := LogError(error);
          return None;
        }
        return Some(Decoded(j));
    }

    /** `$response->response` of a call: the step every resolver shares. */
    method FetchResponse(request: Request, net: Network) returns (response: Option<Json>)
      modifies this
      ensures Kept()
      ensures LoggedOnce(request, net)
      ensures response == Fetch(ContextWith(net), request)
    {
      var payload := MakeRequest(request, net);
      if payload.None? {
        return None;
      }
      response := Some(ResponseOf(payload.value));
    }

    /** `fetch_host_url`: the `URL` the discovery service answers with. */
    method FetchHostUrl(net: Network) returns (url: Option<string>)
      modifies this
      ensures Kept()
      ensures LoggedOnce(HostUrlRequest(Creds()), net)
      ensures url == FetchedHostUrl(Creds(), hostUrl, authToken, net)
    {
      var response := MakeRequest(HostUrlRequest(Creds()), net);
      if response.None? {
        return None;
      }
      var value := Get(ResponseOf(response.value), "URL");
      url := if value.Str? then Some(value.s) else None;
    }

    /** `fetch_auth_token`: the `authToken` the login call answers with. */
    method FetchAuthToken(net: Network) returns (token: Option<string>)
      modifies this
      ensures Kept()
      ensures LoggedOnce(AuthTokenRequest(Creds()), net)
      ensures token == FetchedAuthToken(Creds(), hostUrl, authToken, net)
    {
      var response := MakeRequest(AuthTokenRequest(Creds()), net);
      if response.None? {
        return None;
      }
      var value := Get(ResponseOf(response.value), "authToken");
      token := if value.Str? then Some(value.s) else None;
    }

    /** `login`: the new session is the one `LoginOutcome` gives. */
    method Login(net: Network) returns (ok: bool)
      modifies this
      ensures Logged()
      ensures !IsBlank(old(hostUrl)) && !IsBlank(old(authToken)) ==> errors == old(errors)
      ensures IsBlank(old(hostUrl)) && !IsBlank(old(authToken)) ==> LoggedOnce(HostUrlRequest(old(Creds())), net)
      ensures !IsBlank(old(hostUrl)) && IsBlank(old(authToken)) ==> LoggedOnce(AuthTokenRequest(old(Creds())), net)
      ensures |errors| == |old(errors)| + LoginRejections(old(Creds()), old(hostUrl), old(authToken), net)
      ensures var outcome := LoginOutcome(old(Creds()), old(hostUrl), old(authToken), net);
              ok == outcome.ok && hostUrl == outcome.hostUrl && authToken == outcome.authToken
    {
      if IsBlank(hostUrl) {
        var url := FetchHostUrl(net);
        if !Accepted(url) {
          return false;
        }
        hostUrl := url.value;
      }
      ok := LoginToken(net);
    }

    /** The token half of `login`: a blank token is fetched, with the host
        URL the client has by then, and stored when truthy. */
    method LoginToken(net: Network) returns (ok: bool)
      modifies this
      ensures Logged() && hostUrl == old(hostUrl)
      ensures !IsBlank(old(authToken)) ==> errors == old(errors)
      ensures IsBlank(old(authToken)) ==> LoggedOnce(AuthTokenRequest(old(Creds())), net)
      ensures |errors| == |old(errors)| + TokenRejections(old(Creds()), old(hostUrl), old(authToken), net)
      ensures var outcome := TokenStep(old(Creds()), old(hostUrl), old(authToken), net);
              ok == outcome.ok && authToken == outcome.authToken
    {
      if IsBlank(authToken) {
        var token := FetchAuthToken(net);
        if !Accepted(token) {
          return false;
        }
        authToken := token.value;
      }
      return true;
    }

    /** `release_auth_token`: whether the logout call for the token succeeds. */
    method ReleaseAuthToken(token: string, net: Network) returns (released: bool)
      modifies this
      ensures Kept()
      ensures LoggedOnce(ReleaseRequest(token), net)
      ensures released == Exchange(ReleaseRequest(token), hostUrl, authToken, net).Delivered?
    {
      var response := MakeRequest(ReleaseRequest(token), net);
      released := response.Some?;
    }

    /** `logout`: the new session is the one `LogoutOutcome` gives. */
    method Logout(net: Network) returns (ok: bool)
      modifies this
      ensures Logged()
      ensures LoggedOnce(ReleaseRequest(old(authToken)), net)
      ensures var outcome := LogoutOutcome(old(hostUrl), old(authToken), net);
              ok == outcome.ok && hostUrl == outcome.hostUrl && authToken == outcome.authToken
    {
      var released := ReleaseAuthToken(authToken, net);
      if !released {
        return false;
      }
      authToken := "";
      hostUrl := "";
      return true;
    }

    /** `get_entities` */
    method GetEntities(net: Network) returns (entities: Option<Json>)
      modifies this
      ensures Kept()
      ensures LoggedOnce(PathOf("entities", []), net)
      ensures entities == Entities(ContextWith(net))
    {
      var response := FetchResponse(PathOf("entities", []), net);
      entities := Field(response, "objects");
    }

    /** `get_entity` */
    method GetEntity(entityName: string, net: Network) returns (entity: Option<Json>)
      modifies this
      ensures Kept()
      ensures LoggedOnce(PathOf("entity", [entityName]), net)
      ensures entity == Entity(ContextWith(net), entityName)
    {
      entity := FetchResponse(PathOf("entity", [entityName]), net);
    }

    /** `get_entity_label` */
    method GetEntityLabel(entityName: string, net: Network) returns (entityLabel: Option<Json>)
      modifies this
      ensures Kept()
      ensures LoggedOnce(PathOf("entity", [entityName]), net)
      ensures entityLabel == Label(ContextWith(net), entityName)
    {
      var entity := GetEntity(entityName, net);
      if !Holds(entity) {
        return None;
      }
      entityLabel := Some(Get(entity.value, "label"));
    }

    /** `get_entity_code` */
    method GetEntityCode(entityName: string, net: Network) returns (code: Option<Json>)
      modifies this
      ensures Kept()
      ensures |errors| == |old(errors)| + StandardRejections(ContextWith(net), entityName)
      ensures code == Code(ContextWith(net), entityName)
    {
      var entityLabel := GetEntityLabel(entityName, net);
      if !Holds(entityLabel) {
        return None;
      }
      var response := FetchResponse(PathOf("entity_standard_fields", [Text(entityLabel.value)]), net);
      code := Field(response, "code");
    }

    /** `get_entity_custom_fields` */
    method GetEntityCustomFields(entityName: string, net: Network) returns (fields: Option<Json>)
      modifies this
      ensures Kept()
      ensures |errors| == |old(errors)| + CustomRejections(ContextWith(net), entityName)
      ensures fields == CustomFields(ContextWith(net), entityName)
    {
      var entityLabel := GetEntityLabel(entityName, net);
      if !Holds(entityLabel) {
        return None;
      }
      var response := FetchResponse(PathOf("entity_custom_fields", [Text(entityLabel.value)]), net);
      fields := Field(response, "fields");
    }

    /** `get_entity_standard_fields` */
    method GetEntityStandardFields(entityName: string, net: Network) returns (fields: Option<Json>)
      modifies this
      ensures Kept()
      ensures |errors| == |old(errors)| + StandardRejections(ContextWith(net), entityName)
      ensures fields == StandardFields(ContextWith(net), entityName)
    {
      var entityLabel := GetEntityLabel(entityName, net);
      if !Holds(entityLabel) {
        return None;
      }
      var response := FetchResponse(PathOf("entity_standard_fields", [Text(entityLabel.value)]), net);
      fields := Field(response, "fields");
    }

    /** `get_entity_field` */
    method GetEntityField(entityName: string, fieldName: string, net: Network) returns (field: Option<Json>)
      modifies this
      ensures Kept()
      ensures |errors| == |old(errors)| + FieldRejections(ContextWith(net), entityName, fieldName)
      ensures field == EntityField(ContextWith(net), entityName, fieldName)
    {
      var code := GetEntityCode(entityName, net);
      if !Holds(code) {
        return None;
      }
      var response := FetchResponse(PathOf("entity_field", [Text(code.value), fieldName]), net);
      field := Field(Field(response, "displayfield"), fieldName);
    }

    /** `get_entity_field_values` */
    method GetEntityFieldValues(entityName: string, fieldName: string, net: Network) returns (values: Option<Json>)
      modifies this
      ensures Kept()
      ensures |errors| == |old(errors)| + FieldRejections(ContextWith(net), entityName, fieldName)
      ensures values == EntityFieldValues(ContextWith(net), entityName, fieldName)
    {
      var field := GetEntityField(entityName, fieldName, net);
      if !Holds(field) {
        return None;
      }
      if !HasProperty(field.value, "lookupValues") {
        return None;
      }
      values := Some(Get(field.value, "lookupValues"));
    }

    /** `get_entity_fields` */
    method GetEntityFields(entityName: string, net: Network) returns (fields: Option<Json>)
      modifies this
      ensures Kept()
      ensures |errors| == |old(errors)| + FieldsRejections(ContextWith(net), entityName)
      ensures fields == EntityFields(ContextWith(net), entityName)
    {
      var standard := GetEntityStandardFields(entityName, net);
      if !Holds(standard) {
        return None;
      }
      var custom := GetEntityCustomFields(entityName, net);
      if !Holds(custom) {
        return None;
      }
      fields := Merge(standard.value, custom.value);
    }

    /** `get_record` */
    method GetRecord(entityName: string, recordId: int, net: Network) returns (record: Option<Json>)
      modifies this
      ensures Kept()
      ensures LoggedOnce(PathOf("record", [entityName, Decimal(recordId)]), net)
      ensures record == Record(ContextWith(net), entityName, recordId)
    {
      var response := FetchResponse(PathOf("record", [entityName, Decimal(recordId)]), net);
      record := Field(response, entityName);
    }

    /** `get_records` */
    method GetRecords(entityName: string, query: StringMap, net: Network) returns (records: Option<Json>)
      modifies this
      ensures Kept()
      ensures LoggedOnce(PathOf("records_search", [entityName]).(query := Some(query)), net)
      ensures records == Records(ContextWith(net), entityName, query)
    {
      var request := PathOf("records_search", [entityName]);
      request := request.(query := Some(query));
      records := FetchResponse(request, net);
    }

    /** `get_related_record` */
    method GetRelatedRecord(entityName: string, recordId: int, relatedName: string, net: Network)
      returns (related: Option<Json>)
      modifies this
      ensures Kept()
      ensures LoggedOnce(PathOf("related_record", [entityName, Decimal(recordId), relatedName]), net)
      ensures related == RelatedRecord(ContextWith(net), entityName, recordId, relatedName)
    {
      var response := FetchResponse(PathOf("related_record", [entityName, Decimal(recordId), relatedName]), net);
      if response.None? {
        return None;
      }
      var name := FindEntityName(response.value, relatedName);
      if HasProperty(response.value, name) {
        related := Some(Get(response.value, name));
      } else {
        related := Some(response.value);
      }
    }

    /** The first loop of `get_related_records`: the truthy related
        records of the names, each under its name. */
    method CollectRelated(entityName: string, recordId: int, names: seq<string>, net: Network)
      returns (collected: Assoc<Json>)
      modifies this
      ensures Kept()
      ensures |errors| == |old(errors)| + NamesRejections(ContextWith(net), entityName, recordId, names)
      ensures collected == Collected(RelatedOf(ContextWith(net), entityName, recordId), names)
    {
      var ctx := ContextWith(net);
      ghost var related := RelatedOf(ctx, entityName, recordId);
      collected := [];
      for i := 0 to |names|
        invariant Kept()
        invariant collected == Collected(related, names[..i])
        invariant |errors| == |old(errors)| + NamesRejections(ctx, entityName, recordId, names[..i])
      {
        var record := GetRelatedRecord(entityName, recordId, names[i], net);
        CollectedStep(related, names, i);
        NamesRejectionsStep(ctx, entityName, recordId, names, i);
        if Holds(record) {
          collected := Put(collected, names[i], record.value);
        }
      }
      assert names[..|names|] == names;
    }

    /** The discovery loop of `get_related_records`, skipping the links
        whose call fails. */
    method DiscoverRelated(links: Assoc<Json>, net: Network) returns (collected: Assoc<Json>)
      modifies this
      ensures Kept()
      ensures |errors| == |old(errors)| + LinksRejections(ContextWith(net), links)
      ensures collected == Discovered(EntryOf(ContextWith(net)), links)
    {
      var ctx := ContextWith(net);
      collected := [];
      for i := 0 to |links|
        invariant Kept()
        invariant collected == Discovered(EntryOf(ctx), links[..i])
        invariant |errors| == |old(errors)| + LinksRejections(ctx, links[..i])
      {
        var response := FetchResponse(UrlRequest(links[i].1), net);
        assert links[..i + 1][..i] == links[..i];
        if response.Some? {
          var name := FindEntityName(response.value, links[i].0);
          var value := if HasProperty(response.value, name) then Get(response.value, name) else response.value;
          collected := Put(collected, name, value);
        }
      }
      assert links[..|links|] == links;
    }

    /** The discovery branch of `get_related_records`: the record, then
        the corrected discovery loop over its links; failure when the record
        is not truthy. */
    method DiscoverFromRecord(entityName: string, recordId: int, net: Network)
      returns (collected: Option<Assoc<Json>>)
      modifies this
      ensures Kept()
      ensures var record := Record(ContextWith(net), entityName, recordId);
              && (Holds(record) ==> collected == Some(Discovered(EntryOf(ContextWith(net)), RelationshipLinks(record.value))))
              && (!Holds(record) ==> collected.None?)
      ensures var record := Record(ContextWith(net), entityName, recordId);
              |errors| == |old(errors)| + Rejects(ContextWith(net), PathOf("record", [entityName, Decimal(recordId)]))
                           + (if Holds(record) then LinksRejections(ContextWith(net), RelationshipLinks(record.value)) else 0)
    {
      var record := GetRecord(entityName, recordId, net);
      if !Holds(record) {
        return None;
      }
      var discovered := DiscoverRelated(RelationshipLinks(record.value), net);
      collected := Some(discovered);
    }

    /** `get_related_records`, with the discovery branch reading the links
        of the record itself and skipping the links whose call fails. */
    method GetRelatedRecords(entityName: string, recordId: int, names: seq<string>, net: Network)
      returns (records: Option<Assoc<Json>>)
      modifies this
      ensures Kept()
      ensures |errors| == |old(errors)| + RelatedRecordsRejections(ContextWith(net), entityName, recordId, names)
      ensures records == RelatedRecords(ContextWith(net), entityName, recordId, names)
    {
      var collected: Assoc<Json>;
      if |names| > 0 {
        collected := CollectRelated(entityName, recordId, names, net);
      } else {
        var discovered := DiscoverFromRecord(entityName, recordId, net);
        if discovered.None? {
          return None;
        }
        collected := discovered.value;
      }
      if |collected| == 0 {
        return None;
      }
      records := Some(collected);
    }
  }
}
