/** HttpRequest and HttpRequest.Builder of the Python version (both copies of
    the file are the same). The header and query dicts are objects the built
    request shares with the builder, listed in insertion order; `__str__`
    joins its lines with newlines and prints the body only when it is truthy. */
module BuilderPython {
  import opened Wrappers
  import opened Text
  import opened RequestFormat
  import OrderedDict
  import AssocList
  import BuilderJava

  /** A `Dict[str, str]`. */
  class Dict {
    var items: seq<Field>

    ghost predicate Valid()
      reads this
    {
      OrderedDict.DistinctKeys(items)
    }

    constructor ()
      ensures Valid() && items == []
    {
      items := [];
    }

    /** `d[k] = v`: a present key keeps its place, a new one goes last. */
    method SetItem(k: string, v: string)
      requires Valid()
      modifies this
      ensures Valid() && items == OrderedDict.Assign(old(items), k, v)
    {
      OrderedDict.AssignSize(items, k, v);
      items := OrderedDict.Assign(items, k, v);
    }
  }

  // ---- The rendering as a value ------------------------------------------

  /** `if self.body:` — None and the empty string are falsy. */
  predicate Truthy(body: Option<string>)
  {
    body.Some? && body.value != ""
  }

  /** The `parts` list of `__str__`. */
  function Lines(verb: string, url: string, params: seq<Field>, headers: seq<Field>,
                 body: Option<string>): seq<string>
  {
    Parts(verb, url, params, headers, Truthy(body), if body.Some? then body.value else "")
  }

  /** What `__str__` returns: the parts joined with newlines. */
  function RequestText(verb: string, url: string, params: seq<Field>, headers: seq<Field>,
                       body: Option<string>): string
  {
    Join("\n", Lines(verb, url, params, headers, body))
  }

  /** The headers section appears exactly when there are headers, and the body
      section exactly when the body is truthy; the text starts with the request line. */
  lemma Sections(verb: string, url: string, params: seq<Field>, headers: seq<Field>, body: Option<string>)
    ensures HeadersTitle in Lines(verb, url, params, headers, body) <==> |headers| > 0
    ensures BodyTitle in Lines(verb, url, params, headers, body) <==> Truthy(body)
    ensures Lines(verb, url, params, headers, body)[0] == RequestLine(verb, url, params)
    ensures var line, t := RequestLine(verb, url, params), RequestText(verb, url, params, headers, body);
      |t| >= |line| && t[..|line|] == line
  {
    PartsShape(verb, url, params, headers, Truthy(body), if body.Some? then body.value else "");
    JoinStartsWithFirst("\n", Lines(verb, url, params, headers, body));
  }

  /** An empty body prints exactly as no body. */
  lemma EmptyBodyOmitted(verb: string, url: string, params: seq<Field>, headers: seq<Field>)
    ensures RequestText(verb, url, params, headers, Some("")) == RequestText(verb, url, params, headers, None)
  {
  }

  /** Apart from an empty body, which Java prints and Python does not, the two
      renderings of the same entries in the same order differ only in Java's
      final newline. */
  lemma JavaAddsFinalNewline(verb: string, url: string, params: seq<Field>, headers: seq<Field>,
                             body: Option<string>)
    requires body != Some("")
    ensures RequestText(verb, url, params, headers, body) + "\n" ==
      BuilderJava.RequestText(verb, url, params, headers, body)
  {
    assert Lines(verb, url, params, headers, body) == BuilderJava.Lines(verb, url, params, headers, body);
    TerminatedIsJoinPlusNewline(Lines(verb, url, params, headers, body));
  }

  /** Headers are listed in insertion order: a new header's line comes last,
      and setting a present header changes its line in place. */
  lemma HeaderOrder(headers: seq<Field>, k: string, v: string)
    requires OrderedDict.DistinctKeys(headers)
    ensures AssocList.Lookup(headers, k).None? ==>
      FieldTexts(OrderedDict.Assign(headers, k, v), HeaderLine) == FieldTexts(headers, HeaderLine) + [HeaderLine(k, v)]
    ensures AssocList.Lookup(headers, k).Some? ==>
      |FieldTexts(OrderedDict.Assign(headers, k, v), HeaderLine)| == |headers| &&
      forall i :: 0 <= i < |headers| ==>
        (FieldTexts(OrderedDict.Assign(headers, k, v), HeaderLine)[i] ==
         if headers[i].0 == k then HeaderLine(k, v) else FieldTexts(headers, HeaderLine)[i])
  {
    OrderedDict.AssignPositions(headers, k, v);
  }

  // ---- The objects -------------------------------------------------------

  class Builder {
    const url: string
    const verb: string
    const headers: Dict
    const queryParams: Dict
    var body: Option<string>

    ghost predicate Valid()
      reads this, headers, queryParams
    {
      headers != queryParams && headers.Valid() && queryParams.Valid()
    }

    /** The assignments of `__init__` once both arguments have passed the
        None checks. */
    constructor (url: string, verb: string)
      ensures Valid()
      ensures this.url == url && this.verb == verb && body == None
      ensures fresh(headers) && fresh(queryParams)
      ensures headers.items == [] && queryParams.items == []
    {
      this.url := url;
      this.verb := verb;
      headers := new Dict();
      queryParams := new Dict();
      body := None;
    }

    /** `Builder(url, method)`: a None url is reported first, then a None
        method; empty strings pass. */
    static method Create(url: Option<string>, verb: Option<string>) returns (r: Result<Builder>)
      ensures url.None? ==> r == Err(ValueError(UrlRequired))
      ensures url.Some? && verb.None? ==> r == Err(ValueError(MethodRequired))
      ensures url.Some? && verb.Some? ==>
        r.Ok? && fresh(r.value) && r.value.Valid() &&
        r.value.url == url.value && r.value.verb == verb.value && r.value.body == None &&
        fresh(r.value.headers) && fresh(r.value.queryParams) &&
        r.value.headers.items == [] && r.value.queryParams.items == []
    {
      if url.None? {
        return Err(ValueError(UrlRequired));
      } else if verb.None? {
        return Err(ValueError(MethodRequired));
      }
      var b := new Builder(url.value, verb.value);
      r := Ok(b);
    }

    /** `add_header`: one dict key set, nothing else changed, `self` returned. */
    method AddHeader(key: string, value: string) returns (self: Builder)
      requires Valid()
      modifies headers
      ensures Valid() && self == this
      ensures headers.items == OrderedDict.Assign(old(headers.items), key, value)
      ensures queryParams.items == old(queryParams.items) && body == old(body)
    {
      headers.SetItem(key, value);
      self := this;
    }

    /** `add_query_param`: one dict key set, nothing else changed, `self` returned. */
    method AddQueryParam(key: string, value: string) returns (self: Builder)
      requires Valid()
      modifies queryParams
      ensures Valid() && self == this
      ensures queryParams.items == OrderedDict.Assign(old(queryParams.items), key, value)
      ensures headers.items == old(headers.items) && body == old(body)
    {
      queryParams.SetItem(key, value);
      self := this;
    }

    /** `body`: the last call decides the body. */
    method Body(b: Option<string>) returns (self: Builder)
      modifies this
      ensures self == this && body == b
      ensures headers.items == old(headers.items) && queryParams.items == old(queryParams.items)
    {
      body := b;
      self := this;
    }

    /** `build`: a new request holding the builder's fields, the dicts by reference. */
    method Build() returns (r: HttpRequest)
      ensures fresh(r)
      ensures r.url == url && r.verb == verb && r.body == body
      ensures r.headers == headers && r.queryParams == queryParams
    {
      r := new HttpRequest(this);
    }
  }

  /** The request; its properties are plain reads of these fields. */
  class HttpRequest {
    const url: string
    const verb: string
    const headers: Dict
    const queryParams: Dict
    const body: Option<string>

    constructor (builder: Builder)
      ensures url == builder.url && verb == builder.verb && body == builder.body
      ensures headers == builder.headers && queryParams == builder.queryParams
    {
      url := builder.url;
      verb := builder.verb;
      headers := builder.headers;
      queryParams := builder.queryParams;
      body := builder.body;
    }

    /** `__str__`: the parts list is built up, then joined. */
    method Str() returns (s: string)
      ensures s == RequestText(verb, url, queryParams.items, headers.items, body)
    {
      var q := queryParams.items;
      var h := headers.items;
      var parts := [verb + " " + url];
      if |q| > 0 {
        var query := QueryString(q);
        parts := parts[0 := parts[0] + "?" + query];
      }
      assert |parts| == 1 && parts[0] == RequestLine(verb, url, q);
      assert parts == [RequestLine(verb, url, q)];
      if |h| > 0 {
        parts := parts + [HeadersTitle];
        ghost var start := parts;
        var i := 0;
        while i < |h|
          invariant 0 <= i <= |h|
          invariant parts == start + FieldTexts(h[..i], HeaderLine)
        {
          FieldTextsPrefix(h, i, HeaderLine);
          parts := parts + ["  " + h[i].0 + ": " + h[i].1];
          i := i + 1;
        }
        assert h[..i] == h;
      }
      if body.Some? && body.value != "" {
        parts := parts + [BodyTitle];
        parts := parts + ["  " + body.value];
      }
      assert parts == Lines(verb, url, q, h, body);
      s := Join("\n", parts);
    }
  }

  /** The dicts are shared: a header added through the builder after `build`
      shows up in the request. */
  method SharedDictsScenario() returns (seen: seq<Field>)
    ensures seen == [("Accept", "text/plain")]
  {
    var created := Builder.Create(Some(DemoUrl), Some("GET"));
    var builder := created.value;
    var request := builder.Build();
    var b := builder.AddHeader("Accept", "text/plain");
    seen := request.headers.items;
  }

  /** The first demonstration request, with no final newline. */
  method SimpleGetScenario() returns (text: string)
    ensures text == "GET " + DemoUrl + "?id=123"
  {
    var created := Builder.Create(Some(DemoUrl), Some("GET"));
    var builder := created.value;
    var b := builder.AddQueryParam("id", "123");
    var request := builder.Build();
    text := request.Str();
    SimpleGetText();
  }

  lemma SimpleGetText()
    ensures RequestText("GET", DemoUrl, [("id", "123")], [], None) == "GET " + DemoUrl + "?id=123"
  {
    var texts := FieldTexts([("id", "123")], QueryPair);
    assert texts == [QueryPair("id", "123")];
    assert QueryString([("id", "123")]) == "id=123";
    assert RequestLine("GET", DemoUrl, [("id", "123")]) == "GET" + " " + DemoUrl + "?" + "id=123";
    assert "GET" + " " == "GET ";
    assert "?" + "id=123" == "?id=123";
  }

  /** The second demonstration request: the headers keep the order they were
      added in, and the printed parts are the request line with its one
      parameter, the headers section and the body section. */
  method ComplexPostScenario() returns (headers: seq<Field>, params: seq<Field>, text: string)
    ensures headers == [("Content-Type", "application/json"), ("Authorization", "Bearer abc123")]
    ensures params == [("version", "1.0")]
    ensures text == Join("\n", [RequestLine("POST", DemoUrl, [("version", "1.0")]), HeadersTitle,
                                HeaderLine("Content-Type", "application/json"),
                                HeaderLine("Authorization", "Bearer abc123"),
                                BodyTitle, BodyLine(PostBody)])
  {
    var created := Builder.Create(Some(DemoUrl), Some("POST"));
    var builder := created.value;
    var b := builder.AddHeader("Content-Type", "application/json");
    b := builder.AddHeader("Authorization", "Bearer abc123");
    assert "Content-Type"[0] != "Authorization"[0];
    assert [("Content-Type", "application/json")][1..] == [];
    b := builder.AddQueryParam("version", "1.0");
    b := builder.Body(Some(PostBody));
    var request := builder.Build();
    headers, params := request.headers.items, request.queryParams.items;
    text := request.Str();
    ComplexPostLines();
  }

  lemma ComplexPostLines()
    ensures Lines("POST", DemoUrl, [("version", "1.0")],
                  [("Content-Type", "application/json"), ("Authorization", "Bearer abc123")], Some(PostBody))
         == [RequestLine("POST", DemoUrl, [("version", "1.0")]), HeadersTitle,
             HeaderLine("Content-Type", "application/json"), HeaderLine("Authorization", "Bearer abc123"),
             BodyTitle, BodyLine(PostBody)]
  {
  }
}
