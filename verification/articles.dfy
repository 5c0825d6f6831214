/**
 * `post_qiita_article` and `update_qiita_article`: the request bodies they
 * build, entry by entry, and the request they send (or, for an update with
 * nothing in it, do not send).
 */
module Articles {
  import opened Wrappers
  import opened JsonValue
  import opened Http

  /** `[key]` when `present`, `[]` otherwise: one optional key of a request body. */
  function When(present: bool, key: string): seq<string> {
    if present then [key] else []
  }

  /** The entry an optional argument contributes to a body: none when it is absent. */
  function EntryIf(present: bool, key: string, value: Json): Fields {
    if present then [(key, value)] else []
  }

  /** An optional string argument as the value it puts in a body, if any. */
  function StrEntry(s: Option<string>): Option<Json> {
    if s.Some? then Some(JStr(s.value)) else None
  }

  /** Python truthiness of the optional tag list: it counts only when given and not empty. */
  predicate TagsGiven(tags: Option<seq<Json>>) {
    tags.Some? && tags.value != []
  }

  /** Python truthiness of the optional organization name: only a given, non-empty name counts. */
  predicate OrganizationGiven(org: Option<string>) {
    org.Some? && org.value != ""
  }

  // ---------------------------------------------------------------------------
  // Creating an article

  /** The body `post_qiita_article` sends, its entries in insertion order; `tweet` has no part in it. */
  function CreatePayload(title: string, body: string, tags: Option<seq<Json>>, private: bool,
                         organizationUrlName: Option<string>): Fields
  {
    CreateBase(title, body, private)
    + EntryIf(TagsGiven(tags), "tags", if tags.Some? then JArr(tags.value) else JNull)
    + EntryIf(OrganizationGiven(organizationUrlName), "organization_url_name",
              if organizationUrlName.Some? then JStr(organizationUrlName.value) else JNull)
  }

  /** The three entries every create body starts with. */
  function CreateBase(title: string, body: string, private: bool): Fields {
    [("title", JStr(title)), ("body", JStr(body)), ("private", JBool(private))]
  }

  /**
   * The create body always holds the title, the body and `private`; it holds
   * the tags only when the list is non-empty and the organization only when
   * the name is non-empty; it never holds `tweet`, and nothing else.
   */
  lemma CreatePayloadKeys(title: string, body: string, tags: Option<seq<Json>>, private: bool,
                          organizationUrlName: Option<string>)
    ensures var keys := Keys(CreatePayload(title, body, tags, private, organizationUrlName));
      && keys == ["title", "body", "private"]
                 + When(TagsGiven(tags), "tags")
                 + When(OrganizationGiven(organizationUrlName), "organization_url_name")
      && "tweet" !in keys
  {
    var tagPart := EntryIf(TagsGiven(tags), "tags", if tags.Some? then JArr(tags.value) else JNull);
    var orgPart := EntryIf(OrganizationGiven(organizationUrlName), "organization_url_name",
                           if organizationUrlName.Some? then JStr(organizationUrlName.value) else JNull);
    assert Keys(CreateBase(title, body, private)) == ["title", "body", "private"];
    assert Keys(tagPart) == When(TagsGiven(tags), "tags");
    assert Keys(orgPart) == When(OrganizationGiven(organizationUrlName), "organization_url_name");
    KeysConcat(CreateBase(title, body, private), tagPart);
    KeysConcat(CreateBase(title, body, private) + tagPart, orgPart);
  }

  /**
   * In the create body the title and the body are the given strings,
   * `private` is the given bool, the tags are the given list when it is
   * non-empty and the organization the given name when it is non-empty.
   */
  lemma CreatePayloadValues(title: string, body: string, tags: Option<seq<Json>>, private: bool,
                            organizationUrlName: Option<string>)
    ensures var payload := CreatePayload(title, body, tags, private, organizationUrlName);
      && Lookup(payload, "title") == Some(JStr(title))
      && Lookup(payload, "body") == Some(JStr(body))
      && Lookup(payload, "private") == Some(JBool(private))
      && Lookup(payload, "tags") == (if TagsGiven(tags) then Some(JArr(tags.value)) else None)
      && Lookup(payload, "organization_url_name") ==
           (if OrganizationGiven(organizationUrlName) then StrEntry(organizationUrlName) else None)
  {
    var base := CreateBase(title, body, private);
    var tagPart := EntryIf(TagsGiven(tags), "tags", if tags.Some? then JArr(tags.value) else JNull);
    var orgPart := EntryIf(OrganizationGiven(organizationUrlName), "organization_url_name",
                           if organizationUrlName.Some? then JStr(organizationUrlName.value) else JNull);
    assert Keys(base) == ["title", "body", "private"];
    assert Keys(tagPart) == When(TagsGiven(tags), "tags");
    assert Keys(orgPart) == When(OrganizationGiven(organizationUrlName), "organization_url_name");
    KeysConcat(base, tagPart);
    LookupAt(base, 0);
    LookupAt(base, 1);
    LookupAt(base, 2);
    LookupSplit(base + tagPart, orgPart, "title");
    LookupSplit(base, tagPart, "title");
    LookupSplit(base + tagPart, orgPart, "body");
    LookupSplit(base, tagPart, "body");
    LookupSplit(base + tagPart, orgPart, "private");
    LookupSplit(base, tagPart, "private");
    LookupSplit(base + tagPart, orgPart, "tags");
    LookupSplit(base, tagPart, "tags");
    LookupSplit(base + tagPart, orgPart, "organization_url_name");
    LookupSplit(base, tagPart, "organization_url_name");
  }

  /**
   * `post_qiita_article`: builds the body by inserting its entries one by one
   * and sends it in one `POST items`.
   */
  method PostQiitaArticle(title: string, body: string, tags: Option<seq<Json>> := None,
                          private: bool := false, tweet: bool := false,
                          organizationUrlName: Option<string> := None)
    returns (request: Request)
    ensures request == Request("POST", "items", [],
                               Some(JObj(CreatePayload(title, body, tags, private, organizationUrlName))))
  {
    var payload: Fields := [];
    PutFresh(payload, "title", JStr(title));
    payload := Put(payload, "title", JStr(title));
    PutFresh(payload, "body", JStr(body));
    payload := Put(payload, "body", JStr(body));
    assert Keys(payload) == ["title", "body"];
    PutFresh(payload, "private", JBool(private));
    payload := Put(payload, "private", JBool(private));
    assert payload == CreateBase(title, body, private);
    if TagsGiven(tags) {
      assert Keys(payload) == ["title", "body", "private"];
      PutFresh(payload, "tags", JArr(tags.value));
      payload := Put(payload, "tags", JArr(tags.value));
    }
    ghost var withTags := payload;
    assert withTags == CreateBase(title, body, private)
                       + EntryIf(TagsGiven(tags), "tags", if tags.Some? then JArr(tags.value) else JNull);
    assert Keys(payload) == ["title", "body", "private"] + When(TagsGiven(tags), "tags");
    if OrganizationGiven(organizationUrlName) {
      PutFresh(payload, "organization_url_name", JStr(organizationUrlName.value));
      payload := Put(payload, "organization_url_name", JStr(organizationUrlName.value));
    }
    assert payload == withTags + EntryIf(OrganizationGiven(organizationUrlName), "organization_url_name",
                                         if organizationUrlName.Some? then JStr(organizationUrlName.value) else JNull);
    request := Request("POST", "items", [], Some(JObj(payload)));
  }

  // ---------------------------------------------------------------------------
  // Updating an article

  /** The answer an update with no field gives instead of a request. */
  function NothingToUpdate(): Json {
    JObj([("message", JStr("Nothing to update."))])
  }

  /** The patch `update_qiita_article` builds: one entry per argument that is not None, in insertion order. */
  function UpdatePatch(title: Option<string>, body: Option<string>, tags: Option<seq<Json>>,
                       private: Option<bool>): Fields
  {
    EntryIf(title.Some?, "title", if title.Some? then JStr(title.value) else JNull)
    + EntryIf(body.Some?, "body", if body.Some? then JStr(body.value) else JNull)
    + EntryIf(tags.Some?, "tags", if tags.Some? then JArr(tags.value) else JNull)
    + EntryIf(private.Some?, "private", if private.Some? then JBool(private.value) else JNull)
  }

  /** The patch's keys are exactly the supplied fields, in argument order; it is empty exactly when none is supplied. */
  lemma UpdatePatchKeys(title: Option<string>, body: Option<string>, tags: Option<seq<Json>>,
                        private: Option<bool>)
    ensures var patch := UpdatePatch(title, body, tags, private);
      && Keys(patch) == When(title.Some?, "title") + When(body.Some?, "body")
                        + When(tags.Some?, "tags") + When(private.Some?, "private")
      && (patch == [] <==> title.None? && body.None? && tags.None? && private.None?)
  {
    var p1 := EntryIf(title.Some?, "title", if title.Some? then JStr(title.value) else JNull);
    var p2 := EntryIf(body.Some?, "body", if body.Some? then JStr(body.value) else JNull);
    var p3 := EntryIf(tags.Some?, "tags", if tags.Some? then JArr(tags.value) else JNull);
    var p4 := EntryIf(private.Some?, "private", if private.Some? then JBool(private.value) else JNull);
    KeysConcat(p1, p2);
    KeysConcat(p1 + p2, p3);
    KeysConcat(p1 + p2 + p3, p4);
  }

  /**
   * Every supplied field carries its argument unchanged: an empty tag list and
   * `private = false` are supplied values too. A field that is not supplied is
   * absent.
   */
  lemma UpdatePatchValues(title: Option<string>, body: Option<string>, tags: Option<seq<Json>>,
                          private: Option<bool>)
    ensures var patch := UpdatePatch(title, body, tags, private);
      && Lookup(patch, "title") == StrEntry(title)
      && Lookup(patch, "body") == StrEntry(body)
      && Lookup(patch, "tags") == (if tags.Some? then Some(JArr(tags.value)) else None)
      && Lookup(patch, "private") == (if private.Some? then Some(JBool(private.value)) else None)
  {
    var p1 := EntryIf(title.Some?, "title", if title.Some? then JStr(title.value) else JNull);
    var p2 := EntryIf(body.Some?, "body", if body.Some? then JStr(body.value) else JNull);
    var p3 := EntryIf(tags.Some?, "tags", if tags.Some? then JArr(tags.value) else JNull);
    var p4 := EntryIf(private.Some?, "private", if private.Some? then JBool(private.value) else JNull);
    KeysConcat(p1, p2);
    KeysConcat(p1 + p2, p3);
    assert Keys(p1) == When(title.Some?, "title");
    assert Keys(p2) == When(body.Some?, "body");
    assert Keys(p3) == When(tags.Some?, "tags");
    assert Keys(p4) == When(private.Some?, "private");
    var front := p1 + p2 + p3;
    LookupSplit(front, p4, "title");
    LookupSplit(p1 + p2, p3, "title");
    LookupSplit(p1, p2, "title");
    LookupSplit(front, p4, "body");
    LookupSplit(p1 + p2, p3, "body");
    LookupSplit(p1, p2, "body");
    LookupSplit(front, p4, "tags");
    LookupSplit(p1 + p2, p3, "tags");
    LookupSplit(p1, p2, "tags");
    LookupSplit(front, p4, "private");
    LookupSplit(p1 + p2, p3, "private");
    LookupSplit(p1, p2, "private");
  }

  /**
   * `update_qiita_article`: builds the patch by inserting the supplied fields
   * one by one; an empty patch answers `NothingToUpdate()` and sends nothing,
   * any other is sent in one `PATCH items/{item_id}`.
   */
  method UpdateQiitaArticle(itemId: string, title: Option<string> := None,
                            body: Option<string> := None, tags: Option<seq<Json>> := None,
                            private: Option<bool> := None)
    returns (outcome: Outcome)
    ensures var patch := UpdatePatch(title, body, tags, private);
      outcome == if patch == [] then Reply(NothingToUpdate())
                 else Send(Request("PATCH", "items/" + itemId, [], Some(JObj(patch))))
    ensures outcome.Reply? <==> title.None? && body.None? && tags.None? && private.None?
  {
    UpdatePatchKeys(title, body, tags, private);
    var patch: Fields := [];
    if title.Some? {
      PutFresh(patch, "title", JStr(title.value));
      patch := Put(patch, "title", JStr(title.value));
    }
    assert patch == EntryIf(title.Some?, "title", if title.Some? then JStr(title.value) else JNull);
    assert Keys(patch) == When(title.Some?, "title");
    ghost var before := patch;
    if body.Some? {
      PutFresh(patch, "body", JStr(body.value));
      patch := Put(patch, "body", JStr(body.value));
    }
    assert patch == before + EntryIf(body.Some?, "body", if body.Some? then JStr(body.value) else JNull);
    before := patch;
    if tags.Some? {
      PutFresh(patch, "tags", JArr(tags.value));
      patch := Put(patch, "tags", JArr(tags.value));
    }
    assert patch == before + EntryIf(tags.Some?, "tags", if tags.Some? then JArr(tags.value) else JNull);
    before := patch;
    if private.Some? {
      PutFresh(patch, "private", JBool(private.value));
      patch := Put(patch, "private", JBool(private.value));
    }
    assert patch == before + EntryIf(private.Some?, "private", if private.Some? then JBool(private.value) else JNull);
    if patch == [] {
      return Reply(NothingToUpdate());
    }
    outcome := Send(Request("PATCH", "items/" + itemId, [], Some(JObj(patch))));
  }
}
