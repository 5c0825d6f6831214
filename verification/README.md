# Qiita MCP tool layer in Dafny

A model of the request/response layer of the Qiita tools that `main.py` serves
over the Model Context Protocol. Most tools send one request to the Qiita
REST API v2 (base `https://qiita.com/api/v2/`). The search reshapes the
response, and the write tools return it as is. The Markdown-resources tool and
an update with nothing to change answer without any request. The model covers
the part of that layer that decides what is sent and what is returned:

- **Search projection** (`search_qiita_items`). Every upstream article becomes a
  summary record with a fixed set of keys. The author is reduced to
  `{id, name}`, the tag objects to their names, and the rendered HTML body to a
  200-character `snippet`.
- **Create body** (`post_qiita_article`). `title`, `body` and `private` are always
  sent. `tags` and `organization_url_name` are sent only when truthy. `tweet` is
  never sent.
- **Partial update** (`update_qiita_article`). The patch holds exactly the
  arguments that are not `None`. An empty patch sends nothing and answers
  `{"message": "Nothing to update."}`.
- **Bearer-token hook** (`set_auth_header`). On every outgoing request, an
  `Authorization` header that is already there is kept. Otherwise the header is
  set to `Bearer <token>`.
- **Markdown resources** (`get_qiita_markdown_rules`). A constant with two links.

The tools' Python defaults are default parameters: `page = 1` and
`per_page = 10` for the search, `tags = None`, `private = False`,
`tweet = False` and `organization_url_name = None` for the create, and `None`
for every optional field of the update.

The model works on values:

- Upstream responses are inputs, as decoded JSON (`JsonValue.Json`).
- Outgoing requests are outputs (`Http.Request`, `Http.Outcome`).
- The token is a parameter.
- Python dicts are entry lists in insertion order.
  - `d.get`, `d[k] = v`, truthiness and `for`-loop iteration are defined to
    match Python (`JsonValue`).
  - The handlers' ill-shaped inputs raise the Python exceptions they would
    raise (`JsonValue.Fault`, returned as `Err`).
  - For example, an article whose `user` is present but `null` fails, while an
    article without `user` gets `{id: None, name: None}`.
- The header hook mutates a header map in place. It is a class, `Http.Headers`,
  whose names compare without regard to ASCII case, as HTTP header names do.

Modules: `Wrappers` (Option, Result), `JsonValue`, `Http`, `Search`,
`Articles`, `MarkdownRules`.

## Model

| member | source | states |
|---|---|---|
| `JsonValue.Lookup` | main.py:55-61 | a dict lookup finds a value exactly when the key is among the dict's keys |
| `JsonValue.GetOr` | main.py:63-66 | `d.get(k, default)` gives the default when the key is missing and the stored value otherwise |
| `JsonValue.PutSpec` | main.py:143-151 | after `d[k] = v` the key maps to `v`, every other key is unchanged, and a new key joins the key order at the end |
| `JsonValue.Elements` | main.py:52 | a `for` loop fails with TypeError exactly on None, bools and numbers, and visits nothing exactly when the value is falsy |
| `Http.PresentIffValues` | main.py:9 | a header is present exactly when some value is stored under its name |
| `Http.ValuesOfAppend` | main.py:9 | appending a header entry adds its value to that header's values only, at the end |
| `Http.WithDefault` | main.py:9 | `setdefault` keeps an existing header untouched; otherwise the header afterwards has exactly the new value; every other header keeps its values; existing entries keep their order |
| `Http.Headers.SetDefault` | main.py:9 | the header map afterwards is `WithDefault` of the map before |
| `Http.SetAuthHeader` | main.py:8-9 | the hook applies `setdefault("Authorization", "Bearer " + token)` to the request's headers |
| `Http.Prepare` | main.py:11 | every request the client sends gets a fresh header map to which the hook has been applied |
| `Search.SearchRequest` | main.py:44-47 | the search is a `GET items` carrying exactly `query`, `page` and `per_page` with the given values |
| `Search.Snippet` | main.py:67 | a falsy or missing rendered body gives `""`; a string gives a prefix of at most 200 characters, cut only when the body is longer; a non-empty list is cut the same way; anything else fails |
| `Search.NamesOf` | main.py:66 | the tag names list has one entry per tag, in order, each the tag's `name` (None when missing); it fails exactly when some tag is not a dict |
| `Search.TagsOf` | main.py:66 | an article without `tags` has no tag names; `tags: null` fails as not iterable; a tag list gives its names in order |
| `Search.UserOf` | main.py:62-65 | an article without `user` gets `{id: None, name: None}`; a `user` dict gives its `id` and `name`; a `user` present but not a dict fails |
| `Search.SummarizeSpec` | main.py:53-68 | an article is summarised exactly when it is a dict whose user, tags and snippet can be projected; the summary copies the seven scalar fields and holds the projected user, tags and snippet |
| `Search.SummaryObject` | main.py:54-68 | a summary's JSON object has exactly the ten summary keys in order, and each key maps to the summary value written under it |
| `Search.SummaryObjectEntries` | main.py:54-68 | key by key: `id`, `title`, `url`, `likes_count`, `stocks_count`, `created_at` and `updated_at` carry the values copied from the article, `user` is `{id, name}`, `tags` the list of names and `snippet` the snippet |
| `Search.ResultsObject` | main.py:70 | the tool's answer has only the key `results`, listing one summary object per summary, in order |
| `Search.SearchQiitaItems` | main.py:44-70 | with the request above: the result has one summary per upstream article, element i being the summary of article i; it fails exactly when some article cannot be projected, with the first such article's fault; a non-iterable response fails |
| `Articles.CreatePayloadKeys` | main.py:116-124 | the create body's keys are `title`, `body`, `private`, then `tags` only for a non-empty list, then `organization_url_name` only for a non-empty name; never `tweet` |
| `Articles.CreatePayloadValues` | main.py:116-124 | the create body carries the given title, body and `private` bool, the tags and the organization name unchanged when present |
| `Articles.PostQiitaArticle` | main.py:95-126 | the tool sends one `POST items` whose body is the create body, whatever `tweet` is |
| `Articles.UpdatePatchKeys` | main.py:143-153 | the patch's keys are exactly the non-None arguments among title, body, tags, private, in that order; the patch is empty exactly when all four are None |
| `Articles.UpdatePatchValues` | main.py:143-151 | each supplied field carries its argument unchanged (an empty tag list and `private = false` included); an unsupplied field is absent |
| `Articles.UpdateQiitaArticle` | main.py:131-157 | an empty patch answers `{"message": "Nothing to update."}` with no request, exactly when every field is None; otherwise one `PATCH items/{item_id}` carries the patch |
| `MarkdownRules.GetQiitaMarkdownRules` | main.py:161-170 | the answer has only the key `resources`, listing exactly two https links: the Qiita Markdown guide, then the API v2 docs |

## Left out

- HTTP I/O through `httpx.AsyncClient` is not modelled. This covers sending, `raise_for_status` on the read tools, `resp.json()` and the async hook machinery. The decoded response is an input and the request is an output. So a non-2xx status raising on the read path is not modelled.
- The write tools return the upstream response body unchanged. The model stops at the request they send.
- The token is a parameter. Reading it from the inbound request's `token` query parameter is framework context lookup. The TypeError when that parameter is missing is Python runtime behaviour.
- `get_qiita_item` and `get_my_qiita_articles` are not modelled. They forward one GET and return the body as is, or wrapped in `{"results": ...}`.
- FastMCP registration, tool annotations, the server instructions text and `mcp.run` are transport plumbing.
- The Zenn repository-dispatch tool does not appear in `main.py`.
- JSON numbers are integers only. Floats are not modelled. They only matter for truthiness (`0.0` is falsy) and are copied through otherwise.
- Header values are strings. httpx's byte encoding of header names and values is not modelled.
- Strings are sequences of Unicode scalar values, as Python `str` slicing counts code points. Surrogate code points, which Python strings can hold, are not modelled.
- Http.Headers.SetDefault: does not return the value that `setdefault` returns, because the hook ignores it.
- Decoded JSON objects are entry lists that may repeat a key, which no Python dict does (`json.loads` keeps the last value of a repeated key, while `Lookup` finds the first). Such inputs have no Python counterpart, and the properties stated about them say nothing about the program.
