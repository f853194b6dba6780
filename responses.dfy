/** The response envelopes a resource method may return instead of bare data.

    A plain `Response` serializes its data and ignores links; a headed one
    also sends the links in an HTTP `Link` header, adds the resource's own
    headers and lists every non-safelisted header it added in
    `Access-Control-Expose-Headers`; a wrapped one nests the data under a
    top-level member next to a `links` member and any extra members. */
module Responses {
  import opened Base
  import opened Dicts
  import opened Strings

  /** Link relation name to URL, in insertion order. */
  type Links = Dict<string, string>
  type Headers = Dict<string, string>

  /** Names bound by the wrapped envelope's own parameters, which therefore
      never reach its extra keyword members. */
  const ReservedKeywords: set<string> := {"self", "data", "status_code", "links", "data_key"}
  type Extras = m: map<string, Json> | m.Keys !! ReservedKeywords witness map[]

  datatype Variant =
    | Plain
    | Headed(headers: Option<Headers>)
    | Wrapped(dataKey: string, extras: Extras)

  datatype Response = Response(data: Json, statusCode: Option<int>, links: Links, variant: Variant)

  /** The constructor: the data, the status and the kind of envelope are kept
      as given, and so are the links, except that absent links become an empty
      link set. */
  function Make(data: Json, statusCode: Option<int>, links: Option<Links>, variant: Variant): (r: Response)
    ensures r.data == data && r.statusCode == statusCode && r.variant == variant
    ensures links.Some? ==> r.links == links.value
    ensures r.links == [] <==> links.None? || links.value == []
  {
    Response(data, statusCode, links.GetOr([]), variant)
  }

  /** The response's links on top of the view's base links: without base links
      they are the response's own; otherwise the base links, each overridden by
      a response link of the same relation, followed by the response's new
      relations. */
  function ExtendLinks(r: Response, base: Option<Links>): (m: Links)
    ensures base.None? ==> m == r.links
    ensures base.Some? ==> forall k :: Get(m, k) == if k in Keys(r.links) then Get(r.links, k) else Get(base.value, k)
    ensures base.Some? ==> Keys(m) == Keys(base.value) + Unseen(Keys(r.links), Keys(base.value))
  {
    match base
    case None => r.links
    case Some(b) =>
      DistinctUpdate(b, r.links);
      GetUpdateAll(b, r.links);
      KeysUpdate(b, r.links);
      Update(b, r.links)
  }

  /** The status the envelope asks for; an absent status and status 0 (both
      false in a truth test) give way to the view's default. */
  function StatusCode(r: Response, default: int): (s: int)
    ensures r.statusCode.Some? && r.statusCode.value != 0 ==> s == r.statusCode.value
    ensures r.statusCode.None? || r.statusCode.value == 0 ==> s == default
  {
    match r.statusCode
    case Some(c) => if c != 0 then c else default
    case None => default
  }

  /* ---------------------------------------------------------------- Link header */

  function FormatLink(rel: string, url: string): string {
    "<" + url + ">" + RelPrefix + rel + "\""
  }

  function Formatted(links: seq<(string, string)>): (fs: seq<string>)
    ensures |fs| == |links|
  {
    if links == [] then [] else [FormatLink(links[0].0, links[0].1)] + Formatted(links[1..])
  }

  /** The `Link` header value: every link as `<url>; rel="name"`, joined by ", ". */
  function LinkHeader(links: seq<(string, string)>): (h: string)
    ensures h == "" <==> links == []
  {
    var fs := Formatted(links);
    JoinCovers(fs, ", ");
    Join(fs, ", ")
  }

  /** A link the header can carry unambiguously. */
  predicate Unambiguous(links: seq<(string, string)>) {
    forall i :: 0 <= i < |links| ==> '"' !in links[i].0 && '>' !in links[i].1
  }

  const RelPrefix := "; rel=\""

  /** Reads `<url>` off the front of `s`, returning the URL and what follows. */
  function ParseUrl(s: string): (p: Option<(string, string)>)
    ensures p.Some? ==> |p.value.1| < |s|
  {
    if s == [] || s[0] != '<' then None
    else
      var t := s[1..];
      var u := Span(t, {'>'});
      if u == |t| then None else Some((t[..u], t[u + 1..]))
  }

  /** Reads `; rel="name"` off the front of `s`, returning the name and what follows. */
  function ParseRel(s: string): (p: Option<(string, string)>)
    ensures p.Some? ==> |p.value.1| < |s|
  {
    if |s| < |RelPrefix| || s[..|RelPrefix|] != RelPrefix then None
    else
      var r := s[|RelPrefix|..];
      var n := Span(r, {'"'});
      if n == |r| then None else Some((r[..n], r[n + 1..]))
  }

  /** Reads one `<url>; rel="name"` entry off the front of `s`, returning
      (name, url, what follows). */
  function ParseLink(s: string): (p: Option<(string, string, string)>)
    ensures p.Some? ==> |p.value.2| < |s|
  {
    match ParseUrl(s)
    case None => None
    case Some((url, after)) =>
      match ParseRel(after)
      case None => None
      case Some((rel, rest)) => Some((rel, url, rest))
  }

  /** One or more entries separated by ", ". */
  function ParseLinkList(s: string): Option<seq<(string, string)>>
    decreases |s|
  {
    match ParseLink(s)
    case None => None
    case Some((rel, url, rest)) =>
      if rest == "" then Some([(rel, url)])
      else if |rest| >= 2 && rest[..2] == ", " then
        match ParseLinkList(rest[2..])
        case None => None
        case Some(more) => Some([(rel, url)] + more)
      else None
  }

  /** How a client reads a `Link` header back; an empty value has no links. */
  function ParseLinks(s: string): Option<seq<(string, string)>> {
    if s == "" then Some([]) else ParseLinkList(s)
  }

  lemma ParseUrlOf(url: string, after: string)
    requires '>' !in url
    ensures ParseUrl("<" + url + ">" + after) == Some((url, after))
  {
    var s := "<" + url + ">" + after;
    assert s[1..] == url + ['>'] + after;
    SpanTo(url, '>', after);
  }

  lemma ParseRelOf(rel: string, rest: string)
    requires '"' !in rel
    ensures ParseRel(RelPrefix + rel + "\"" + rest) == Some((rel, rest))
  {
    var s := RelPrefix + rel + "\"" + rest;
    assert s[..|RelPrefix|] == RelPrefix;
    assert s[|RelPrefix|..] == rel + ['"'] + rest;
    SpanTo(rel, '"', rest);
  }

  lemma ParseFormatted(rel: string, url: string, rest: string)
    requires '"' !in rel && '>' !in url
    ensures ParseLink(FormatLink(rel, url) + rest) == Some((rel, url, rest))
  {
    var after := RelPrefix + rel + "\"" + rest;
    assert FormatLink(rel, url) + rest == "<" + url + ">" + after;
    ParseUrlOf(url, after);
    ParseRelOf(rel, rest);
  }

  /** The header of several links is the first entry, the separator, and the
      header of the others. */
  lemma JoinedCons(links: seq<(string, string)>)
    requires |links| >= 2
    ensures Join(Formatted(links), ", ") ==
              FormatLink(links[0].0, links[0].1) + (", " + Join(Formatted(links[1..]), ", "))
  {
    var fs := Formatted(links);
    assert fs[0] == FormatLink(links[0].0, links[0].1);
    assert fs[1..] == Formatted(links[1..]);
    AppendAssoc(fs[0], ", ", Join(fs[1..], ", "));
  }

  /** Reading an entry followed by ", " and a list reads the entry and the list. */
  lemma ParseListCons(s: string, rel: string, url: string, j: string, more: seq<(string, string)>)
    requires ParseLink(s) == Some((rel, url, ", " + j))
    requires ParseLinkList(j) == Some(more)
    ensures ParseLinkList(s) == Some([(rel, url)] + more)
  {
    var rest := ", " + j;
    assert rest != "" && rest[..2] == ", " && rest[2..] == j;
  }

  /** One link reads back as itself. */
  lemma ParseSingle(rel: string, url: string)
    requires '"' !in rel && '>' !in url
    ensures ParseLinkList(Join(Formatted([(rel, url)]), ", ")) == Some([(rel, url)])
  {
    assert Join(Formatted([(rel, url)]), ", ") == FormatLink(rel, url) + "";
    ParseFormatted(rel, url, "");
  }

  /** If the other links read back, so does the whole list. */
  lemma ParseStep(links: seq<(string, string)>)
    requires |links| >= 2 && '"' !in links[0].0 && '>' !in links[0].1
    requires ParseLinkList(Join(Formatted(links[1..]), ", ")) == Some(links[1..])
    ensures ParseLinkList(Join(Formatted(links), ", ")) == Some(links)
  {
    var j := Join(Formatted(links[1..]), ", ");
    JoinedCons(links);
    ParseFormatted(links[0].0, links[0].1, ", " + j);
    ParseListCons(Join(Formatted(links), ", "), links[0].0, links[0].1, j, links[1..]);
    assert [(links[0].0, links[0].1)] + links[1..] == links;
  }

  lemma {:induction false} ParseJoined(links: seq<(string, string)>)
    requires links != [] && Unambiguous(links)
    ensures ParseLinkList(Join(Formatted(links), ", ")) == Some(links)
  {
    if |links| == 1 {
      assert '"' !in links[0].0 && '>' !in links[0].1;
      ParseSingle(links[0].0, links[0].1);
      assert links == [(links[0].0, links[0].1)];
    } else {
      assert '"' !in links[0].0 && '>' !in links[0].1;
      assert Unambiguous(links[1..]) by {
        forall i | 0 <= i < |links[1..]| ensures '"' !in links[1..][i].0 && '>' !in links[1..][i].1 {
          assert links[1..][i] == links[i + 1];
        }
      }
      ParseJoined(links[1..]);
      ParseStep(links);
    }
  }

  /** A client reading the `Link` header gets back exactly the links, in
      order, as long as no URL contains '>' and no name contains '"'. */
  lemma LinkHeaderRoundTrip(links: seq<(string, string)>)
    requires Unambiguous(links)
    ensures ParseLinks(LinkHeader(links)) == Some(links)
  {
    if links != [] {
      ParseJoined(links);
    }
  }

  /* ---------------------------------------------------------------- Headed */

  /** Headers a browser script may read without being told. */
  const SafelistedHeaders: set<string> := {
    "Cache-Control", "Content-Language", "Content-Length", "Content-Type",
    "Expires", "Last-Modified", "Pragma"
  }
  const LinkHeaderName := "Link"
  const ExposeHeaderName := "Access-Control-Expose-Headers"

  function CustomHeaders(r: Response): Headers
    requires r.variant.Headed?
  {
    r.variant.headers.GetOr([])
  }

  function KeySet<K(==), V>(d: seq<(K, V)>): set<K> {
    set i | 0 <= i < |d| :: d[i].0
  }

  /** The headers the headed envelope sets itself: `Link` when it has links,
      and each of its own headers. */
  function AddedHeaders(r: Response, base: Option<Links>): set<string>
    requires r.variant.Headed?
  {
    (if ExtendLinks(r, base) != [] then {LinkHeaderName} else {}) + KeySet(CustomHeaders(r))
  }

  ghost predicate NoDuplicates<T>(s: seq<T>) {
    forall i, j :: 0 <= i < j < |s| ==> s[i] != s[j]
  }

  /** The value the headed envelope leaves under header `k`: the expose list
      (set last, so it wins), else the resource's own header, else the `Link`
      header, else whatever the JSON builder set. */
  function HeaderValue(initial: Headers, links: Links, custom: Headers, expose: seq<string>, k: string): Option<string> {
    if k == ExposeHeaderName && expose != [] then Some(Join(expose, ", "))
    else if k in Keys(custom) then Get(custom, k)
    else if k == LinkHeaderName && links != [] then Some(LinkHeader(links))
    else Get(initial, k)
  }

  /** What the headed envelope sends, given the headers the serializer already
      set (`initial`) and the order in which the exposed names were listed. */
  ghost predicate HeadedHeaders(r: Response, base: Option<Links>, initial: Headers, headers: Headers, expose: seq<string>)
    requires r.variant.Headed?
  {
    && NoDuplicates(expose)
    && (set h | h in expose) == AddedHeaders(r, base) - SafelistedHeaders
    && forall k :: Get(headers, k) == HeaderValue(initial, ExtendLinks(r, base), CustomHeaders(r), expose, k)
  }

  /** Lists a set's members once each, in an order the model leaves open (a
      Python set iterates in hash order). */
  method Enumerate(names: set<string>) returns (order: seq<string>)
    ensures NoDuplicates(order)
    ensures (set h | h in order) == names
  {
    var pending := names;
    order := [];
    while pending != {}
      invariant pending !! (set h | h in order)
      invariant pending + (set h | h in order) == names
      invariant NoDuplicates(order)
      decreases |pending|
    {
      var h :| h in pending;
      order := order + [h];
      pending := pending - {h};
    }
  }

  /** The three writes of the headed envelope, read back key by key. */
  lemma HeaderWrites(initial: Headers, links: Links, custom: Headers, expose: seq<string>,
                     h1: seq<(string, string)>, h2: seq<(string, string)>, h3: seq<(string, string)>)
    requires h1 == if links != [] then Put(initial, LinkHeaderName, LinkHeader(links)) else initial
    requires h2 == Update(h1, custom)
    requires h3 == if expose != [] then Put(h2, ExposeHeaderName, Join(expose, ", ")) else h2
    ensures forall k :: Get(h3, k) == HeaderValue(initial, links, custom, expose, k)
  {
    forall k ensures Get(h3, k) == HeaderValue(initial, links, custom, expose, k) {
      if links != [] {
        GetPut(initial, LinkHeaderName, LinkHeader(links), k);
      }
      GetUpdate(h1, custom, k);
      if expose != [] {
        GetPut(h2, ExposeHeaderName, Join(expose, ", "), k);
      }
    }
  }

  /** Sets each of the resource's own headers in turn, collecting their names. */
  method WriteHeaders(start: Headers, custom: Headers) returns (headers: Headers, added: set<string>)
    ensures headers == Update(start, custom)
    ensures added == KeySet(custom)
  {
    headers, added := start, {};
    var i := 0;
    while i < |custom|
      invariant 0 <= i <= |custom|
      invariant headers == Update(start, custom[..i])
      invariant added == KeySet(custom[..i])
    {
      var (key, value) := custom[i];
      DistinctPut(headers, key, value);
      UpdateSnoc(start, custom[..i], key, value);
      assert custom[..i + 1] == custom[..i] + [(key, value)];
      headers := Put(headers, key, value);
      added := added + {key};
      i := i + 1;
    }
    assert custom[..i] == custom;
  }

  method GenerateHeaded(r: Response, base: Option<Links>, initial: Headers) returns (headers: Headers, expose: seq<string>)
    requires r.variant.Headed?
    ensures HeadedHeaders(r, base, initial, headers, expose)
  {
    var links := ExtendLinks(r, base);
    var link := LinkHeader(links);
    var custom := CustomHeaders(r);
    headers := initial;
    var added: set<string> := {};
    if link != "" {
      DistinctPut(headers, LinkHeaderName, link);
      headers := Put(headers, LinkHeaderName, link);
      added := {LinkHeaderName};
    }
    var h1 := headers;
    var own;
    headers, own := WriteHeaders(h1, custom);
    added := added + own;
    var h2 := headers;
    expose := Enumerate(added - SafelistedHeaders);
    if expose != [] {
      DistinctPut(headers, ExposeHeaderName, Join(expose, ", "));
      headers := Put(headers, ExposeHeaderName, Join(expose, ", "));
    }
    HeaderWrites(initial, links, custom, expose, h1, h2, headers);
  }

  /* ---------------------------------------------------------------- Wrapped */

  /** Links as a JSON object from relation name to URL. */
  function LinksJson(links: Links): (j: Json)
    ensures j.JObj? && j.members.Keys == set k | k in Keys(links)
  {
    JObj(map k | k in Keys(links) :: JStr(Get(links, k).value))
  }

  /** The wrapped body: `links`, the data under the data key, and the extra
      members (which win over the data key). Choosing `links` as the data key
      passes `links` twice to the JSON builder, a type error. */
  function WrappedBody(r: Response, dumped: Json, base: Option<Links>): (b: Result<map<string, Json>>)
    requires r.variant.Wrapped?
    ensures b.Ok? <==> r.variant.dataKey != "links"
    ensures b.Err? ==> b.error.TypeError?
    ensures b.Ok? ==> b.value.Keys == {"links", r.variant.dataKey} + r.variant.extras.Keys
    ensures b.Ok? ==> b.value["links"] == LinksJson(ExtendLinks(r, base))
    ensures b.Ok? ==> b.value[r.variant.dataKey] ==
                      (if r.variant.dataKey in r.variant.extras then r.variant.extras[r.variant.dataKey] else dumped)
    ensures b.Ok? ==> forall k :: k in r.variant.extras ==> b.value[k] == r.variant.extras[k]
  {
    var inner := map[r.variant.dataKey := dumped] + r.variant.extras;
    if "links" in inner then Err(TypeError("keyword argument 'links' given twice"))
    else Ok(inner["links" := LinksJson(ExtendLinks(r, base))])
  }

  /* ---------------------------------------------------------------- Generate */

  /** A finished HTTP response: JSON body and headers. */
  datatype Rendered = Rendered(body: Json, headers: Headers)

  /** Turns an envelope into the HTTP response. `dumped` is the data as the
      resource's schema serializes it; `initial` the headers the JSON builder
      sets. */
  method Generate(r: Response, dumped: Json, base: Option<Links>, initial: Headers) returns (out: Result<Rendered>)
    ensures r.variant.Plain? ==> out == Ok(Rendered(dumped, initial))
    ensures r.variant.Headed? ==>
              && out.Ok? && out.value.body == dumped
              && exists expose :: HeadedHeaders(r, base, initial, out.value.headers, expose)
    ensures r.variant.Wrapped? ==>
              out == match WrappedBody(r, dumped, base)
                     case Ok(m) => Ok(Rendered(JObj(m), initial))
                     case Err(e) => Err(e)
  {
    match r.variant
    case Plain =>
      out := Ok(Rendered(dumped, initial));
    case Headed(_) =>
      var headers, expose := GenerateHeaded(r, base, initial);
      out := Ok(Rendered(dumped, headers));
    case Wrapped(_, _) =>
      match WrappedBody(r, dumped, base)
      case Ok(m) =>
        out := Ok(Rendered(JObj(m), initial));
      case Err(e) =>
        out := Err(e);
  }
}
