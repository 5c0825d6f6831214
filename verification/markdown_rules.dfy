/** `get_qiita_markdown_rules`: reference links, answered without any request. */
module MarkdownRules {
  import opened Wrappers
  import opened JsonValue

  const MarkdownGuide := "https://help.qiita.com/ja/articles/qiita-markdown"
  const ApiDocs := "https://qiita.com/api/v2/docs"

  /** Starts with the `https://` scheme. */
  predicate IsHttpsUrl(s: string) {
    "https://" <= s
  }

  /** An object whose only entry, `resources`, lists two https links: the Markdown guide, then the API docs. */
  function GetQiitaMarkdownRules(): (r: Json)
    ensures r.JObj? && Keys(r.fields) == ["resources"]
    ensures Lookup(r.fields, "resources").Some? && Lookup(r.fields, "resources").value.JArr?
    ensures var links := Lookup(r.fields, "resources").value.items;
      && |links| == 2
      && forall i :: 0 <= i < |links| ==> links[i].JStr? && IsHttpsUrl(links[i].s)
    ensures Lookup(r.fields, "resources").value.items == [JStr(MarkdownGuide), JStr(ApiDocs)]
  {
    var fs := [("resources", JArr([JStr(MarkdownGuide), JStr(ApiDocs)]))];
    LookupAt(fs, 0);
    JObj(fs)
  }
}
