/**
 * The outbound side of the Qiita tools: the HTTP requests they issue, as
 * values, and the request hook that puts the caller's bearer token on every
 * one of them.
 */
module Http {
  import opened Wrappers
  import opened JsonValue

  /**
   * One request to the Qiita API: verb, path relative to the client's base URL
   * `https://qiita.com/api/v2/`, query parameters and JSON body.
   */
  datatype Request = Request(verb: string, path: string, params: Fields, body: Option<Json>)

  /** What a write tool does: send one request, or answer the caller without any request. */
  datatype Outcome = Send(request: Request) | Reply(value: Json)

  // ---------------------------------------------------------------------------
  // Header maps. Names compare without regard to ASCII case, as HTTP header
  // names do; the entries keep their insertion order.

  type HeaderList = seq<(string, string)>

  function LowerChar(c: char): char {
    if 'A' <= c <= 'Z' then (c as int + 32) as char else c
  }

  function LowerAscii(s: string): string {
    seq(|s|, i requires 0 <= i < |s| => LowerChar(s[i]))
  }

  predicate SameName(a: string, b: string) {
    LowerAscii(a) == LowerAscii(b)
  }

  /** Some entry carries the header `name`. */
  predicate Present(h: HeaderList, name: string) {
    exists i :: 0 <= i < |h| && SameName(h[i].0, name)
  }

  /** The values stored under `name`, in order. */
  function ValuesOf(h: HeaderList, name: string): seq<string> {
    if h == [] then []
    else (if SameName(h[0].0, name) then [h[0].1] else []) + ValuesOf(h[1..], name)
  }

  /** A header is present exactly when some value is stored under it. */
  lemma {:induction false} PresentIffValues(h: HeaderList, name: string)
    ensures Present(h, name) <==> ValuesOf(h, name) != []
  {
    if h != [] {
      PresentIffValues(h[1..], name);
      if Present(h[1..], name) {
        var i :| 0 <= i < |h[1..]| && SameName(h[1..][i].0, name);
        assert SameName(h[i + 1].0, name);
      }
      if Present(h, name) && !SameName(h[0].0, name) {
        var i :| 0 <= i < |h| && SameName(h[i].0, name);
        assert i > 0 && SameName(h[1..][i - 1].0, name);
      }
    }
  }

  /** Appending an entry adds its value to the end of that header's values and to no other header's. */
  lemma {:induction false} ValuesOfAppend(h: HeaderList, k: string, v: string, name: string)
    ensures ValuesOf(h + [(k, v)], name) == ValuesOf(h, name) + (if SameName(k, name) then [v] else [])
  {
    if h == [] {
      assert h + [(k, v)] == [(k, v)];
      assert [(k, v)][1..] == [];
    } else {
      assert (h + [(k, v)])[0] == h[0];
      assert (h + [(k, v)])[1..] == h[1..] + [(k, v)];
      ValuesOfAppend(h[1..], k, v, name);
    }
  }

  /**
   * The header map's set-default operation: a header that is already there is kept
   * as it is; otherwise `value` is added under `name`, after every existing
   * entry, and no other header changes.
   */
  function WithDefault(h: HeaderList, name: string, value: string): (r: HeaderList)
    ensures Present(h, name) ==> r == h
    ensures Present(r, name)
    ensures ValuesOf(r, name) == if Present(h, name) then ValuesOf(h, name) else [value]
    ensures forall n :: !SameName(n, name) ==> ValuesOf(r, n) == ValuesOf(h, n)
    ensures |h| <= |r| && r[..|h|] == h
  {
    if Present(h, name) then h
    else
      PresentIffValues(h, name);
      var r := h + [(name, value)];
      assert SameName(r[|h|].0, name);
      forall n | true
        ensures ValuesOf(r, n) == ValuesOf(h, n) + (if SameName(name, n) then [value] else [])
      {
        ValuesOfAppend(h, name, value, n);
      }
      r
  }

  /** The `Authorization` value the hook adds for `token`. */
  function BearerValue(token: string): string {
    "Bearer " + token
  }

  /** The header map of one outgoing request, which the hook updates in place. */
  class Headers {
    var entries: HeaderList

    constructor (entries: HeaderList)
      ensures this.entries == entries
    {
      this.entries := entries;
    }

    /** `setdefault`: adds `value` under `name` unless the header is already there. */
    method SetDefault(name: string, value: string)
      modifies this
      ensures entries == WithDefault(old(entries), name, value)
    {
      if !Present(entries, name) {
        entries := entries + [(name, value)];
      }
    }
  }

  /** A request on its way out of the client, with its own header map. */
  class OutgoingRequest {
    const request: Request
    const headers: Headers

    constructor (request: Request, headers: Headers)
      ensures this.request == request && this.headers == headers
    {
      this.request := request;
      this.headers := headers;
    }
  }

  /**
   * The request hook: keeps an `Authorization` header the request already
   * carries, and otherwise sets it to the bearer token of the inbound call.
   * The token is a parameter here; main.py's hook reads it from the `token`
   * query parameter of the inbound request.
   */
  method SetAuthHeader(out: OutgoingRequest, token: string)
    modifies out.headers
    ensures out.headers.entries == WithDefault(old(out.headers.entries), "Authorization", BearerValue(token))
  {
    out.headers.SetDefault("Authorization", BearerValue(token));
  }

  /**
   * The client sending `request` with the header map `defaults`: the hook
   * registered on the client runs on the fresh outgoing request before it
   * leaves.
   */
  method Prepare(request: Request, defaults: HeaderList, token: string) returns (out: OutgoingRequest)
    ensures fresh(out) && fresh(out.headers)
    ensures out.request == request
    ensures out.headers.entries == WithDefault(defaults, "Authorization", BearerValue(token))
  {
    var headers := new Headers(defaults);
    out := new OutgoingRequest(request, headers);
    SetAuthHeader(out, token);
  }
}
