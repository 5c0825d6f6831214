/**
 * `search_qiita_items`: the request it sends and the projection of each
 * upstream article into a summary record.
 */
module Search {
  import opened Wrappers
  import opened JsonValue
  import opened Http

  /** The number of characters of the rendered body kept as the snippet. */
  const SnippetLength := 200

  /** The keys of a summary record, in the order the handler writes them. */
  const SummaryKeys := ["id", "title", "url", "likes_count", "stocks_count",
                        "created_at", "updated_at", "user", "tags", "snippet"]

  datatype UserRef = UserRef(id: Json, name: Json)

  /** One projected search result. */
  datatype Summary = Summary(
    id: Json,
    title: Json,
    url: Json,
    likesCount: Json,
    stocksCount: Json,
    createdAt: Json,
    updatedAt: Json,
    user: UserRef,
    tags: seq<Json>,
    snippet: Json)

  /** `GET items` with the search query and the page window. */
  function SearchRequest(query: string, page: int := 1, perPage: int := 10): (r: Request)
    ensures r.verb == "GET" && r.path == "items" && r.body.None?
    ensures Keys(r.params) == ["query", "page", "per_page"]
    ensures Lookup(r.params, "query") == Some(JStr(query))
    ensures Lookup(r.params, "page") == Some(JNum(page))
    ensures Lookup(r.params, "per_page") == Some(JNum(perPage))
  {
    var params := [("query", JStr(query)), ("page", JNum(page)), ("per_page", JNum(perPage))];
    assert Keys(params) == ["query", "page", "per_page"];
    LookupAt(params, 0);
    LookupAt(params, 1);
    LookupAt(params, 2);
    Request("GET", "items", params, None)
  }

  /**
   * The snippet of a rendered body: a missing or falsy body counts as "", a
   * string or list is cut to its first 200 elements, and anything else cannot
   * be sliced.
   */
  function Snippet(renderedBody: Json): (r: Result<Json, Fault>)
    ensures !Truthy(renderedBody) ==> r == Ok(JStr(""))
    ensures renderedBody.JStr? ==>
      && r.Ok? && r.value.JStr?
      && |r.value.s| <= SnippetLength
      && r.value.s <= renderedBody.s
      && (|r.value.s| < SnippetLength ==> r.value.s == renderedBody.s)
    ensures renderedBody.JArr? && Truthy(renderedBody) ==>
      && r.Ok? && r.value.JArr?
      && |r.value.items| <= SnippetLength
      && r.value.items <= renderedBody.items
      && (|r.value.items| < SnippetLength ==> r.value.items == renderedBody.items)
    ensures r.Err? <==> Truthy(renderedBody) && !renderedBody.JStr? && !renderedBody.JArr?
    ensures r.Err? ==> r.error == NotSliceable
  {
    if !Truthy(renderedBody) then Ok(JStr(""))
    else match renderedBody
      case JStr(s) => Ok(JStr(if |s| <= SnippetLength then s else s[..SnippetLength]))
      case JArr(xs) => Ok(JArr(if |xs| <= SnippetLength then xs else xs[..SnippetLength]))
      case _ => Err(NotSliceable)
  }

  /** The `name` of every tag, in order; each tag must be a dict to be asked for its name. */
  function NamesOf(tags: seq<Json>): (r: Result<seq<Json>, Fault>)
    ensures r.Ok? <==> forall i :: 0 <= i < |tags| ==> tags[i].JObj?
    ensures r.Ok? ==> |r.value| == |tags|
    ensures r.Ok? ==> forall i :: 0 <= i < |tags| ==> r.value[i] == Get(tags[i].fields, "name")
    ensures r.Err? ==> r.error == NoGetMethod
  {
    if tags == [] then Ok([])
    else if !tags[0].JObj? then Err(NoGetMethod)
    else match NamesOf(tags[1..])
      case Ok(rest) => Ok([Get(tags[0].fields, "name")] + rest)
      case Err(e) => Err(e)
  }

  /** The `tags` entry of a summary: the names of the article's tags, or [] when it has none. */
  function TagsOf(article: Fields): (r: Result<seq<Json>, Fault>)
    ensures "tags" !in Keys(article) ==> r == Ok([])
    ensures Lookup(article, "tags") == Some(JNull) ==> r == Err(NotIterable)
    ensures forall ts :: Lookup(article, "tags") == Some(JArr(ts)) ==> r == NamesOf(ts)
  {
    match Elements(GetOr(article, "tags", JArr([])))
    case Err(e) => Err(e)
    case Ok(ts) => NamesOf(ts)
  }

  /**
   * The `user` entry of a summary: the author's id and name, both None when
   * the article has no `user`. A `user` that is present but is not a dict
   * (None included) has no `.get`.
   */
  function UserOf(article: Fields): (r: Result<UserRef, Fault>)
    ensures "user" !in Keys(article) ==> r == Ok(UserRef(JNull, JNull))
    ensures forall u :: Lookup(article, "user") == Some(JObj(u)) ==>
              r == Ok(UserRef(Get(u, "id"), Get(u, "name")))
    ensures r.Err? <==> "user" in Keys(article) && !Get(article, "user").JObj?
    ensures r.Err? ==> r.error == NoGetMethod
  {
    var u := GetOr(article, "user", JObj([]));
    if u.JObj? then Ok(UserRef(Get(u.fields, "id"), Get(u.fields, "name")))
    else Err(NoGetMethod)
  }

  /**
   * The summary of one upstream article. The dict display is evaluated in
   * order, so the first failing entry (user, then tags, then snippet) decides
   * the error.
   */
  function Summarize(article: Json): Result<Summary, Fault> {
    if !article.JObj? then Err(NoGetMethod)
    else
      var fs := article.fields;
      match UserOf(fs)
      case Err(e) => Err(e)
      case Ok(user) =>
        match TagsOf(fs)
        case Err(e) => Err(e)
        case Ok(tags) =>
          match Snippet(Get(fs, "rendered_body"))
          case Err(e) => Err(e)
          case Ok(snippet) =>
            Ok(Summary(Get(fs, "id"), Get(fs, "title"), Get(fs, "url"),
                       Get(fs, "likes_count"), Get(fs, "stocks_count"),
                       Get(fs, "created_at"), Get(fs, "updated_at"),
                       user, tags, snippet))
  }

  /**
   * An article is summarised exactly when it is a dict whose user, tags and
   * rendered body can be projected; the summary copies the seven scalar
   * entries (None where missing) and holds the projected user, tag names and
   * snippet.
   */
  lemma SummarizeSpec(article: Json)
    ensures !article.JObj? ==> Summarize(article) == Err(NoGetMethod)
    ensures Summarize(article).Ok? <==>
      && article.JObj?
      && UserOf(article.fields).Ok?
      && TagsOf(article.fields).Ok?
      && Snippet(Get(article.fields, "rendered_body")).Ok?
    ensures Summarize(article).Ok? ==>
      var s := Summarize(article).value;
      && s.id == Get(article.fields, "id")
      && s.title == Get(article.fields, "title")
      && s.url == Get(article.fields, "url")
      && s.likesCount == Get(article.fields, "likes_count")
      && s.stocksCount == Get(article.fields, "stocks_count")
      && s.createdAt == Get(article.fields, "created_at")
      && s.updatedAt == Get(article.fields, "updated_at")
      && s.user == UserOf(article.fields).value
      && s.tags == TagsOf(article.fields).value
      && s.snippet == Snippet(Get(article.fields, "rendered_body")).value
  {
  }

  /** The values a summary object holds, in the order of `SummaryKeys`. */
  function SummaryValues(s: Summary): (vs: seq<Json>)
    ensures |vs| == |SummaryKeys|
  {
    [s.id, s.title, s.url, s.likesCount, s.stocksCount, s.createdAt, s.updatedAt,
     JObj([("id", s.user.id), ("name", s.user.name)]), JArr(s.tags), s.snippet]
  }

  /** No summary key is written twice. */
  lemma SummaryKeysDistinct(i: nat)
    requires i < |SummaryKeys|
    ensures SummaryKeys[i] !in SummaryKeys[..i]
  {
    if i == 0 {} else if i == 1 {} else if i == 2 {} else if i == 3 {} else if i == 4 {}
    else if i == 5 {} else if i == 6 {} else if i == 7 {} else if i == 8 {} else {}
  }

  /** A summary as the JSON object the tool returns: each summary key maps to its value. */
  function SummaryObject(s: Summary): (j: Json)
    ensures j.JObj? && Keys(j.fields) == SummaryKeys
    ensures forall i :: 0 <= i < |SummaryKeys| ==>
      Lookup(j.fields, SummaryKeys[i]) == Some(SummaryValues(s)[i])
  {
    forall i | 0 <= i < |SummaryKeys|
      ensures Lookup(Zip(SummaryKeys, SummaryValues(s)), SummaryKeys[i]) == Some(SummaryValues(s)[i])
    {
      SummaryKeysDistinct(i);
      LookupZip(SummaryKeys, SummaryValues(s), i);
    }
    JObj(Zip(SummaryKeys, SummaryValues(s)))
  }

  /**
   * The entries of a summary object key by key: the seven scalar fields copied
   * from the article, `user` as `{id, name}`, the tag names and the snippet.
   */
  lemma SummaryObjectEntries(s: Summary)
    ensures var fs := SummaryObject(s).fields;
      && Lookup(fs, "id") == Some(s.id)
      && Lookup(fs, "title") == Some(s.title)
      && Lookup(fs, "url") == Some(s.url)
      && Lookup(fs, "likes_count") == Some(s.likesCount)
      && Lookup(fs, "stocks_count") == Some(s.stocksCount)
      && Lookup(fs, "created_at") == Some(s.createdAt)
      && Lookup(fs, "updated_at") == Some(s.updatedAt)
      && Lookup(fs, "user") == Some(JObj([("id", s.user.id), ("name", s.user.name)]))
      && Lookup(fs, "tags") == Some(JArr(s.tags))
      && Lookup(fs, "snippet") == Some(s.snippet)
  {
    assert SummaryKeys[0] == "id" && SummaryKeys[1] == "title" && SummaryKeys[2] == "url";
    assert SummaryKeys[3] == "likes_count" && SummaryKeys[4] == "stocks_count";
    assert SummaryKeys[5] == "created_at" && SummaryKeys[6] == "updated_at";
    assert SummaryKeys[7] == "user" && SummaryKeys[8] == "tags" && SummaryKeys[9] == "snippet";
  }

  /** The tool's answer: an object whose only entry, `results`, lists the summaries in order. */
  function ResultsObject(results: seq<Summary>): (j: Json)
    ensures j.JObj? && Keys(j.fields) == ["results"]
    ensures Lookup(j.fields, "results").Some? && Lookup(j.fields, "results").value.JArr?
    ensures var rs := Lookup(j.fields, "results").value.items;
      |rs| == |results| && forall i :: 0 <= i < |results| ==> rs[i] == SummaryObject(results[i])
  {
    JObj([("results", JArr(seq(|results|, i requires 0 <= i < |results| => SummaryObject(results[i]))))])
  }

  /**
   * `search_qiita_items` on the decoded upstream response `data`: the request
   * it sends, and the summaries it builds by visiting the upstream articles in
   * order and appending one summary per article. The result lists one summary
   * per article, in the same order, unless an article cannot be projected, in
   * which case the first such article's fault is raised.
   */
  method SearchQiitaItems(data: Json, query: string, page: int := 1, perPage: int := 10)
    returns (request: Request, results: Result<seq<Summary>, Fault>)
    ensures request == SearchRequest(query, page, perPage)
    ensures Elements(data).Err? ==> results == Err(NotIterable)
    ensures Elements(data).Ok? ==>
      var articles := Elements(data).value;
      && (results.Ok? <==> forall i :: 0 <= i < |articles| ==> Summarize(articles[i]).Ok?)
      && (results.Ok? ==>
            && |results.value| == |articles|
            && forall i :: 0 <= i < |articles| ==> results.value[i] == Summarize(articles[i]).value)
      && (results.Err? ==>
            exists k :: 0 <= k < |articles| && Summarize(articles[k]) == Err(results.error)
                        && forall j :: 0 <= j < k ==> Summarize(articles[j]).Ok?)
  {
    request := SearchRequest(query, page, perPage);
    var visited := Elements(data);
    if visited.Err? {
      results := Err(visited.error);
      return;
    }
    var articles := visited.value;
    var acc: seq<Summary> := [];
    var i := 0;
    while i < |articles|
      invariant 0 <= i <= |articles|
      invariant |acc| == i
      invariant forall j :: 0 <= j < i ==> Summarize(articles[j]).Ok? && acc[j] == Summarize(articles[j]).value
    {
      var s := Summarize(articles[i]);
      if s.Err? {
        results := Err(s.error);
        assert Summarize(articles[i]) == Err(results.error);
        return;
      }
      acc := acc + [s.value];
      i := i + 1;
    }
    results := Ok(acc);
  }
}
