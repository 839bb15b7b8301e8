/** The entity and record resolvers of the client (`get_entities` …
    `get_related_records`): what each returns, given the session's host URL
    and token and the network's answers. `None` is the `false` a resolver
    returns when one of its calls fails. The resolvers only read the
    session, so these are functions of a fixed `Context`. */
module Resolution {
  import opened PhpValues
  import opened Paths
  import opened Requests
  import opened Responses

  /** The session a resolver runs in. */
  datatype Context = Context(hostUrl: string, authToken: string, net: Network)

  /** `$response->response` of a call, or `None` when `make_request` fails. */
  function Fetch(ctx: Context, request: Request): Option<Json>
  {
    var reply := Exchange(request, ctx.hostUrl, ctx.authToken, ctx.net);
    if reply.Delivered? then Some(ResponseOf(reply.payload)) else None
  }

  /** `if (!$value = …)` lets the resolver go on. */
  predicate Holds(o: Option<Json>)
  {
    o.Some? && Truthy(o.value)
  }

  /** `->name` of a fetched value; a failed fetch stays failed. */
  function Field(o: Option<Json>, name: string): Option<Json>
  {
    match o
    case Some(j) => Some(Get(j, name))
    case None => None
  }

  /** A request for a path template of the table, filled with `args`. */
  function PathOf(slug: string, args: seq<string>): Request
  {
    PathRequest(Fill(PathFor(slug), args))
  }

  /** `get_entities`: the `objects` of the entity list. */
  function Entities(ctx: Context): Option<Json>
  {
    Field(Fetch(ctx, PathOf("entities", [])), "objects")
  }

  /** `get_entity`: the description of one entity. */
  function Entity(ctx: Context, entityName: string): Option<Json>
  {
    Fetch(ctx, PathOf("entity", [entityName]))
  }

  /** `get_entity_label`: the `label` of a truthy entity description. */
  function Label(ctx: Context, entityName: string): Option<Json>
  {
    var entity := Entity(ctx, entityName);
    if Holds(entity) then Some(Get(entity.value, "label")) else None
  }

  /** The standard-field description that `get_entity_code` and
      `get_entity_standard_fields` both fetch, for a truthy label. */
  function StandardDescription(ctx: Context, entityName: string): Option<Json>
  {
    var entityLabel := Label(ctx, entityName);
    if Holds(entityLabel) then Fetch(ctx, PathOf("entity_standard_fields", [Text(entityLabel.value)])) else None
  }

  /** `get_entity_code`: the `code` of the standard-field description. */
  function Code(ctx: Context, entityName: string): Option<Json>
  {
    Field(StandardDescription(ctx, entityName), "code")
  }

  /** `get_entity_standard_fields`: the `fields` of the standard-field description. */
  function StandardFields(ctx: Context, entityName: string): Option<Json>
  {
    Field(StandardDescription(ctx, entityName), "fields")
  }

  /** `get_entity_custom_fields`: the `fields` of the custom-field
      description, for a truthy label. */
  function CustomFields(ctx: Context, entityName: string): Option<Json>
  {
    var entityLabel := Label(ctx, entityName);
    if Holds(entityLabel) then Field(Fetch(ctx, PathOf("entity_custom_fields", [Text(entityLabel.value)])), "fields")
    else None
  }

  /** `get_entity_field`: `displayfield->field` of the field description,
      fetched by entity code, for a truthy code. */
  function EntityField(ctx: Context, entityName: string, fieldName: string): Option<Json>
  {
    var code := Code(ctx, entityName);
    if Holds(code) then
      Field(Field(Fetch(ctx, PathOf("entity_field", [Text(code.value), fieldName])), "displayfield"), fieldName)
    else None
  }

  /** `get_entity_field_values`: the `lookupValues` of a truthy field
      description that has that property. */
  function EntityFieldValues(ctx: Context, entityName: string, fieldName: string): Option<Json>
  {
    var field := EntityField(ctx, entityName, fieldName);
    if Holds(field) && HasProperty(field.value, "lookupValues") then Some(Get(field.value, "lookupValues"))
    else None
  }

  /** `array_merge` of two JSON arrays: the first one's items, then the
      second one's. */
  function Merge(standard: Json, custom: Json): (r: Option<Json>)
    ensures r.Some? <==> standard.Arr? && custom.Arr?
    ensures r.Some? ==> r.value.Arr? && |r.value.items| == |standard.items| + |custom.items|
    ensures r.Some? ==>
              r.value.items[..|standard.items|] == standard.items && r.value.items[|standard.items|..] == custom.items
  {
    if standard.Arr? && custom.Arr? then Some(Arr(standard.items + custom.items)) else None
  }

  /** `get_entity_fields`: the standard fields followed by the custom
      fields, when both are truthy. */
  function EntityFields(ctx: Context, entityName: string): Option<Json>
  {
    var standard := StandardFields(ctx, entityName);
    if !Holds(standard) then None
    else
      var custom := CustomFields(ctx, entityName);
      if !Holds(custom) then None
      else Merge(standard.value, custom.value)
  }

  /** `get_record`: the record is the property named after its entity. */
  function Record(ctx: Context, entityName: string, recordId: int): Option<Json>
  {
    Field(Fetch(ctx, PathOf("record", [entityName, Decimal(recordId)])), entityName)
  }

  /** `get_records`: the search result; the query is always sent, even an
      empty one. */
  function Records(ctx: Context, entityName: string, query: StringMap): Option<Json>
  {
    Fetch(ctx, PathOf("records_search", [entityName]).(query := Some(query)))
  }

  /** `find_entity_name`: the property a related record is most likely
      kept under: the plural if the record has it, else the lower-case
      name if it has that, else the name as given. */
  function FindEntityName(record: Json, name: string): (r: string)
    ensures r == name + "s" || r == ToLower(name) || r == name
    ensures HasProperty(record, r) || r == name
    ensures HasProperty(record, name + "s") ==> r == name + "s"
    ensures !HasProperty(record, name + "s") && HasProperty(record, ToLower(name)) ==> r == ToLower(name)
    ensures r != name ==> HasProperty(record, r)
  {
    if HasProperty(record, name + "s") then name + "s"
    else if HasProperty(record, ToLower(name)) then ToLower(name)
    else name
  }

  /** The related record inside a response: the value of the first of the
      plural, the lower-case name and the name that the response has as a
      property, or else the whole response. */
  function Select(response: Json, name: string): (r: Json)
    ensures HasProperty(response, name + "s") ==> r == Get(response, name + "s")
    ensures !HasProperty(response, name + "s") && HasProperty(response, ToLower(name)) ==>
              r == Get(response, ToLower(name))
    ensures !HasProperty(response, name + "s") && !HasProperty(response, ToLower(name))
            && HasProperty(response, name) ==>
              r == Get(response, name)
    ensures !HasProperty(response, name + "s") && !HasProperty(response, ToLower(name))
            && !HasProperty(response, name) ==>
              r == response
  {
    var key := FindEntityName(response, name);
    if HasProperty(response, key) then Get(response, key) else response
  }

  /** `get_related_record`: the related records of one kind, picked out of
      the response by `Select`. */
  function RelatedRecord(ctx: Context, entityName: string, recordId: int, relatedName: string): Option<Json>
  {
    var response := Fetch(ctx, PathOf("related_record", [entityName, Decimal(recordId), relatedName]));
    if response.Some? then Some(Select(response.value, relatedName)) else None
  }

  /** `get_related_record` as a function of the related name alone. */
  function RelatedOf(ctx: Context, entityName: string, recordId: int): string -> Option<Json>
  {
    name => RelatedRecord(ctx, entityName, recordId, name)
  }

  /** The first loop of `get_related_records`: for each name asked for, in
      order, a truthy related record is stored under that name. */
  function Collected(related: string -> Option<Json>, names: seq<string>): Assoc<Json>
    decreases |names|
  {
    if |names| == 0 then []
    else
      var acc := Collected(related, names[..|names| - 1]);
      var name := names[|names| - 1];
      if Holds(related(name)) then Put(acc, name, related(name).value) else acc
  }

  /** A request for a relationship URL; a null URL leaves `url` unset. */
  function UrlRequest(url: Json): Request
  {
    EmptyRequest.(url := if url.Null? then None else Some(Text(url)))
  }

  /** The relationship links of a record: its `relationshipUrls`. */
  function RelationshipLinks(record: Json): (links: Assoc<Json>)
    ensures forall i :: 0 <= i < |links| ==> HasProperty(Get(record, "relationshipUrls"), links[i].0)
    ensures forall k :: k in Keys(links) <==> HasProperty(Get(record, "relationshipUrls"), k)
  {
    var urls := Get(record, "relationshipUrls");
    assert forall i :: 0 <= i < |Props(urls)| ==> Props(urls)[i].0 in Keys(Props(urls));
    Props(urls)
  }

  /** The links as the discovery loop reads them: `relationshipUrls` of the
      record's property named after the entity, although the record has
      already been taken out of that property by `get_record`. A record
      without such a property of its own has no links this way. */
  function RelationshipLinksAsWritten(record: Json, entityName: string): (links: Assoc<Json>)
    ensures !HasProperty(record, entityName) ==> links == []
  {
    Props(Get(Get(record, entityName), "relationshipUrls"))
  }

  /** One link of the discovery loop: a response that comes back gives the
      entry under the inferred name; a failed call gives no entry. */
  function DiscoveryEntry(ctx: Context, name: string, url: Json): (entry: Option<(string, Json)>)
    ensures entry.None? <==> Fetch(ctx, UrlRequest(url)).None?
  {
    var response := Fetch(ctx, UrlRequest(url));
    if response.Some? then Some((FindEntityName(response.value, name), Select(response.value, name)))
    else None
  }

  /** One link as the loop is written: after a failed call `$response` is
      false, its `->response` is null, and null is stored under the name
      of the link. */
  function DiscoveryEntryAsWritten(ctx: Context, name: string, url: Json): (entry: (string, Json))
    ensures Fetch(ctx, UrlRequest(url)).None? ==> entry == (name, Null)
    ensures Fetch(ctx, UrlRequest(url)).Some? ==> Some(entry) == DiscoveryEntry(ctx, name, url)
  {
    var response := Fetch(ctx, UrlRequest(url));
    if response.Some? then (FindEntityName(response.value, name), Select(response.value, name))
    else (name, Null)
  }

  /** The discovery step of a context, for one link. */
  function EntryOf(ctx: Context): ((string, Json)) -> Option<(string, Json)>
  {
    (link: (string, Json)) => DiscoveryEntry(ctx, link.0, link.1)
  }

  /** The discovery step as written: every link gives an entry. */
  function EntryAsWrittenOf(ctx: Context): ((string, Json)) -> Option<(string, Json)>
  {
    (link: (string, Json)) => Some(DiscoveryEntryAsWritten(ctx, link.0, link.1))
  }

  /** The discovery loop over the links, in order: each entry the step
      gives is stored under its name. */
  function Discovered(entry: ((string, Json)) -> Option<(string, Json)>, links: Assoc<Json>): Assoc<Json>
    decreases |links|
  {
    if |links| == 0 then []
    else
      var acc := Discovered(entry, links[..|links| - 1]);
      match entry(links[|links| - 1])
      case Some(e) => Put(acc, e.0, e.1)
      case None => acc
  }

  /** The number of errors logged by the calls the resolvers make: one
      per call rejected by a failure envelope. */
  function Rejects(ctx: Context, request: Request): nat
  {
    Rejections(request, ctx.hostUrl, ctx.authToken, ctx.net)
  }

  /** One more name extends the collection by its own record, if truthy. */
  lemma CollectedStep(related: string -> Option<Json>, names: seq<string>, i: nat)
    requires i < |names|
    ensures Collected(related, names[..i + 1])
            == if Holds(related(names[i])) then Put(Collected(related, names[..i]), names[i], related(names[i]).value)
               else Collected(related, names[..i])
  {
    assert names[..i + 1][..i] == names[..i];
  }

  /** The errors `get_entity_label` logs: those of its one call. */
  function LabelRejections(ctx: Context, entityName: string): nat
  {
    Rejects(ctx, PathOf("entity", [entityName]))
  }

  /** The errors `get_entity_code` and `get_entity_standard_fields` log:
      the label's call, then the description's call for a truthy label. */
  function StandardRejections(ctx: Context, entityName: string): nat
  {
    var entityLabel := Label(ctx, entityName);
    LabelRejections(ctx, entityName)
    + (if Holds(entityLabel) then Rejects(ctx, PathOf("entity_standard_fields", [Text(entityLabel.value)])) else 0)
  }

  /** The errors `get_entity_custom_fields` logs. */
  function CustomRejections(ctx: Context, entityName: string): nat
  {
    var entityLabel := Label(ctx, entityName);
    LabelRejections(ctx, entityName)
    + (if Holds(entityLabel) then Rejects(ctx, PathOf("entity_custom_fields", [Text(entityLabel.value)])) else 0)
  }

  /** The errors `get_entity_field` and `get_entity_field_values` log: the
      code's calls, then the field's call for a truthy code. */
  function FieldRejections(ctx: Context, entityName: string, fieldName: string): nat
  {
    var code := Code(ctx, entityName);
    StandardRejections(ctx, entityName)
    + (if Holds(code) then Rejects(ctx, PathOf("entity_field", [Text(code.value), fieldName])) else 0)
  }

  /** The errors `get_entity_fields` logs: the standard fields' calls,
      then the custom fields' calls when the standard fields are truthy. */
  function FieldsRejections(ctx: Context, entityName: string): nat
  {
    StandardRejections(ctx, entityName)
    + (if Holds(StandardFields(ctx, entityName)) then CustomRejections(ctx, entityName) else 0)
  }

  /** The errors the first loop of `get_related_records` logs: one
      `get_related_record` call per name, in order. */
  function NamesRejections(ctx: Context, entityName: string, recordId: int, names: seq<string>): nat
    decreases |names|
  {
    if |names| == 0 then 0
    else
      NamesRejections(ctx, entityName, recordId, names[..|names| - 1])
      + Rejects(ctx, PathOf("related_record", [entityName, Decimal(recordId), names[|names| - 1]]))
  }

  /** One more name adds the errors of its own call. */
  lemma NamesRejectionsStep(ctx: Context, entityName: string, recordId: int, names: seq<string>, i: nat)
    requires i < |names|
    ensures NamesRejections(ctx, entityName, recordId, names[..i + 1])
            == NamesRejections(ctx, entityName, recordId, names[..i])
               + Rejects(ctx, PathOf("related_record", [entityName, Decimal(recordId), names[i]]))
  {
    assert names[..i + 1][..i] == names[..i];
  }

  /** The errors the discovery loop logs: one call per link, in order. */
  function LinksRejections(ctx: Context, links: Assoc<Json>): nat
    decreases |links|
  {
    if |links| == 0 then 0
    else LinksRejections(ctx, links[..|links| - 1]) + Rejects(ctx, UrlRequest(links[|links| - 1].1))
  }

  /** The errors `get_related_records` logs: one call per name, or the
      record's call and, for a truthy record, one call per link. */
  function RelatedRecordsRejections(ctx: Context, entityName: string, recordId: int, names: seq<string>): nat
  {
    if |names| > 0 then NamesRejections(ctx, entityName, recordId, names)
    else
      var record := Record(ctx, entityName, recordId);
      Rejects(ctx, PathOf("record", [entityName, Decimal(recordId)]))
      + (if Holds(record) then LinksRejections(ctx, RelationshipLinks(record.value)) else 0)
  }

  /** `get_related_records`: the records of the names asked for, or, when
      none are asked for, of every relationship link of the record; `None`
      when nothing was collected. */
  function RelatedRecords(ctx: Context, entityName: string, recordId: int, names: seq<string>): Option<Assoc<Json>>
  {
    if |names| > 0 then
      var collected := Collected(RelatedOf(ctx, entityName, recordId), names);
      if |collected| == 0 then None else Some(collected)
    else
      var record := Record(ctx, entityName, recordId);
      if !Holds(record) then None
      else
        var discovered := Discovered(EntryOf(ctx), RelationshipLinks(record.value));
        if |discovered| == 0 then None else Some(discovered)
  }

  /** `get_related_records` with the discovery branch as written. */
  function RelatedRecordsAsWritten(ctx: Context, entityName: string, recordId: int, names: seq<string>): Option<Assoc<Json>>
  {
    if |names| > 0 then
      var collected := Collected(RelatedOf(ctx, entityName, recordId), names);
      if |collected| == 0 then None else Some(collected)
    else
      var record := Record(ctx, entityName, recordId);
      if !Holds(record) then None
      else
        var discovered := Discovered(EntryAsWrittenOf(ctx), RelationshipLinksAsWritten(record.value, entityName));
        if |discovered| == 0 then None else Some(discovered)
  }

  // ---------------------------------------------------------------------
  // Properties of the resolvers

  /** Every resolver that works from the entity label fails when the label
      is not truthy, without fetching anything else. */
  lemma NoLabelNoFields(ctx: Context, entityName: string, fieldName: string)
    requires !Holds(Label(ctx, entityName))
    ensures Code(ctx, entityName).None? && StandardFields(ctx, entityName).None?
    ensures CustomFields(ctx, entityName).None? && EntityField(ctx, entityName, fieldName).None?
    ensures EntityFieldValues(ctx, entityName, fieldName).None? && EntityFields(ctx, entityName).None?
  {
  }

  /** `get_entity_fields` gives the standard fields followed by the custom
      fields; it fails exactly when either is not truthy or either is not
      an array. */
  lemma EntityFieldsSpec(ctx: Context, entityName: string)
    ensures var r := EntityFields(ctx, entityName);
            var standard := StandardFields(ctx, entityName);
            var custom := CustomFields(ctx, entityName);
            && (r.Some? <==> Holds(standard) && Holds(custom) && standard.value.Arr? && custom.value.Arr?)
            && (r.Some? ==> r.value == Arr(standard.value.items + custom.value.items))
  {
  }

  /** `get_entity_field_values` succeeds exactly for a truthy field that
      has `lookupValues`, and then gives them. */
  lemma FieldValuesSpec(ctx: Context, entityName: string, fieldName: string)
    ensures var r := EntityFieldValues(ctx, entityName, fieldName);
            var field := EntityField(ctx, entityName, fieldName);
            && (r.Some? <==> Holds(field) && HasProperty(field.value, "lookupValues"))
            && (r.Some? ==> r.value == Get(field.value, "lookupValues"))
  {
  }

  /** Name inference on sample responses: "user" finds "users", and the
      users are picked out of the response. */
  lemma PluralExample()
    ensures FindEntityName(Obj([("users", Arr([Num(7)]))]), "user") == "users"
    ensures Select(Obj([("users", Arr([Num(7)]))]), "user") == Arr([Num(7)])
  {
    assert "user" + "s" == "users";
    var users: Assoc<Json> := [("users", Arr([Num(7)]))];
    assert users[0].0 == "users";
    assert "users" in Keys(users);
  }

  /** "Candidate" finds the lower-case property "candidate". */
  lemma LowerCaseExample()
    ensures FindEntityName(Obj([("candidate", Obj([]))]), "Candidate") == "candidate"
  {
    var candidate: Assoc<Json> := [("candidate", Obj([]))];
    assert candidate[0].0 == "candidate";
    assert Keys(candidate) == {"candidate"};
    assert "Candidate" + "s" != "candidate";
    assert ToLower("Candidate") == "candidate";
  }

  /** A name the response lacks in every form stays as given, and the
      whole response is the related record. */
  lemma UnknownNameExample()
    ensures FindEntityName(Obj([("id", Num(1))]), "Foo") == "Foo"
    ensures Select(Obj([("id", Num(1))]), "Foo") == Obj([("id", Num(1))])
  {
    var id: Assoc<Json> := [("id", Num(1))];
    assert id[0].0 == "id";
    assert Keys(id) == {"id"};
    assert ToLower("Foo") == "foo";
  }

  /** The names collected by the first loop are exactly the names asked for
      whose related record is truthy, each stored with that record. */
  lemma {:induction false} CollectedKeys(related: string -> Option<Json>, names: seq<string>)
    ensures Keys(Collected(related, names)) == set n | n in names && Holds(related(n))
    ensures forall n :: n in Keys(Collected(related, names)) ==>
              Some(Lookup(Collected(related, names), n).value) == related(n)
    decreases |names|
  {
    if |names| > 0 {
      var prefix := names[..|names| - 1];
      CollectedKeys(related, prefix);
      assert names == prefix + [names[|names| - 1]];
      assert forall n :: n in names <==> n in prefix || n == names[|names| - 1];
    }
  }

  /** The first loop stores something exactly when one of the names has
      a truthy related record. */
  lemma CollectedNonEmpty(related: string -> Option<Json>, names: seq<string>)
    ensures |Collected(related, names)| > 0 <==> exists n :: n in names && Holds(related(n))
  {
    var collected := Collected(related, names);
    CollectedKeys(related, names);
    if exists n :: n in names && Holds(related(n)) {
      var n :| n in names && Holds(related(n));
      assert n in Keys(collected);
    } else if |collected| > 0 {
      assert collected[0].0 in Keys(collected);
    }
  }

  /** With names asked for, `get_related_records` succeeds exactly when
      one of them has a truthy related record. */
  lemma RelatedRecordsNamed(ctx: Context, entityName: string, recordId: int, names: seq<string>)
    requires |names| > 0
    ensures RelatedRecords(ctx, entityName, recordId, names).Some?
        <==> exists n :: n in names && Holds(RelatedOf(ctx, entityName, recordId)(n))
  {
    CollectedNonEmpty(RelatedOf(ctx, entityName, recordId), names);
  }

  /** The discovery loop stores something exactly when the step gives an
      entry for one of the links: it comes back empty only when every
      link gives none. */
  lemma {:induction false} DiscoveryAtLeastOne(entry: ((string, Json)) -> Option<(string, Json)>, links: Assoc<Json>)
    ensures |Discovered(entry, links)| == 0 <==> forall i :: 0 <= i < |links| ==> entry(links[i]).None?
    decreases |links|
  {
    if |links| > 0 {
      var prefix := links[..|links| - 1];
      DiscoveryAtLeastOne(entry, prefix);
      assert forall i :: 0 <= i < |prefix| ==> prefix[i] == links[i];
      match entry(links[|links| - 1])
      case Some(e) =>
        var r := Put(Discovered(entry, prefix), e.0, e.1);
        assert e.0 in Keys(r);
      case None =>
    }
  }

  /** Corrected, the discovery loop stores something exactly when one of
      the links answers. */
  lemma DiscoveredSomeLink(ctx: Context, links: Assoc<Json>)
    ensures |Discovered(EntryOf(ctx), links)| > 0
        <==> exists i :: 0 <= i < |links| && Fetch(ctx, UrlRequest(links[i].1)).Some?
  {
    DiscoveryAtLeastOne(EntryOf(ctx), links);
    forall i | 0 <= i < |links|
      ensures EntryOf(ctx)(links[i]).None? <==> Fetch(ctx, UrlRequest(links[i].1)).None?
    {
      assert EntryOf(ctx)(links[i]) == DiscoveryEntry(ctx, links[i].0, links[i].1);
    }
  }

  /** Corrected, discovery succeeds for a truthy record exactly when one
      of its relationship links answers. */
  lemma RelatedRecordsDiscovered(ctx: Context, entityName: string, recordId: int)
    requires Holds(Record(ctx, entityName, recordId))
    ensures var links := RelationshipLinks(Record(ctx, entityName, recordId).value);
            (RelatedRecords(ctx, entityName, recordId, []).Some? <==>
               exists i :: 0 <= i < |links| && Fetch(ctx, UrlRequest(links[i].1)).Some?)
  {
    DiscoveredSomeLink(ctx, RelationshipLinks(Record(ctx, entityName, recordId).value));
  }

  /** As written, a failed link still stores an entry, so the discovery
      loop is never empty once there is a link, even when every call fails. */
  lemma DiscoveredAsWrittenNeverEmpty(ctx: Context, links: Assoc<Json>)
    ensures |Discovered(EntryAsWrittenOf(ctx), links)| == 0 <==> |links| == 0
  {
    DiscoveryAtLeastOne(EntryAsWrittenOf(ctx), links);
    if |links| > 0 {
      assert EntryAsWrittenOf(ctx)(links[0]).Some?;
    }
  }

  /** A network on which every call fails. */
  function Unreachable(): Network
  {
    Network(_ => None, _ => Malformed)
  }

  /** With a single link and a network on which every call fails, the loop
      as written stores null under the link's name; the corrected loop
      stores nothing. */
  lemma FailedLinkCountsAsFound()
    ensures var ctx := Context("https://h/", "t", Unreachable());
            && Discovered(EntryAsWrittenOf(ctx), [("user", Str("https://h/u"))]) == [("user", Null)]
            && Discovered(EntryOf(ctx), [("user", Str("https://h/u"))]) == []
  {
    var ctx := Context("https://h/", "t", Unreachable());
    var links: Assoc<Json> := [("user", Str("https://h/u"))];
    assert links[..0] == [];
    assert Fetch(ctx, UrlRequest(Str("https://h/u"))).None?;
  }

  /** A record as `get_record` returns it, with one relationship link: the
      links as written are empty, whereas the record's own links hold the
      link. */
  lemma DoubleLookupLosesLinks()
    ensures var record := Obj([("id", Num(1)), ("relationshipUrls", Obj([("user", Str("https://h/u"))]))]);
            && RelationshipLinksAsWritten(record, "requisition") == []
            && RelationshipLinks(record) == [("user", Str("https://h/u"))]
  {
    var props: Assoc<Json> := [("id", Num(1)), ("relationshipUrls", Obj([("user", Str("https://h/u"))]))];
    assert props[0].0 == "id" && props[1].0 == "relationshipUrls";
    assert Keys(props) == {"id", "relationshipUrls"};
    assert Lookup(props, "relationshipUrls") == Some(Obj([("user", Str("https://h/u"))]));
  }

  /** As written, discovery fails for every record that, like the records
      of the service, lacks a property named after its own entity. */
  lemma DiscoveryAsWrittenFails(ctx: Context, entityName: string, recordId: int)
    requires Holds(Record(ctx, entityName, recordId))
    requires !HasProperty(Record(ctx, entityName, recordId).value, entityName)
    ensures RelatedRecordsAsWritten(ctx, entityName, recordId, []).None?
  {
  }
}
