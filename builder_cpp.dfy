/** HttpRequest and HttpRequest::Builder of the C++ version. The header and
    query maps are std::map values, kept in ascending key order; `build`
    copies every field into a new request value. */
module BuilderCpp {
  import opened Wrappers
  import opened Text
  import opened RequestFormat
  import SortedMap
  import AssocList

  /** The request: a value, copied out of the builder. The getters are its
      fields. */
  datatype HttpRequest = HttpRequest(url: string, verb: string, headers: seq<SortedMap.Entry>,
                                     queryParams: seq<SortedMap.Entry>, body: string)
  {
    /** Both maps are std::maps: ascending keys, each once. */
    predicate Valid()
    {
      SortedMap.Sorted(headers) && SortedMap.Sorted(queryParams)
    }

    /** `toString`, writing to an ostringstream; the query parameters are
        separated with the help of a `first` flag. */
    method ToString() returns (s: string)
      ensures s == RequestText(this)
    {
      s := verb + " " + url;
      if |queryParams| > 0 {
        var query := WriteQuery(queryParams);
        s := s + "?" + query;
      }
      assert s == RequestLine(verb, url, queryParams);
      s := s + "\n";
      var headersPart := "";
      if |headers| > 0 {
        var lines := WriteHeaderLines(headers);
        headersPart := "Headers:\n" + lines;
      }
      assert headersPart == HeadersBlock(headers) by { Literals(); }
      s := s + headersPart;
      var bodyPart := "";
      if body != "" {
        bodyPart := "Body:\n  " + body + "\n";
      }
      assert bodyPart == BodyBlock(body) by { Literals(); }
      s := s + bodyPart;
      TextBlocks(this);
    }
  }

  /** The loop over the query parameters in `toString`: `&` before every
      pair except the first. */
  method WriteQuery(params: seq<Field>) returns (s: string)
    ensures s == QueryString(params)
  {
    s := "";
    var first := true;
    var i := 0;
    while i < |params|
      invariant 0 <= i <= |params|
      invariant first <==> i == 0
      invariant s == Join("&", FieldTexts(params[..i], QueryPair))
    {
      FieldTextsPrefix(params, i, QueryPair);
      if !first {
        JoinSnoc("&", FieldTexts(params[..i], QueryPair), QueryPair(params[i].0, params[i].1));
        s := s + "&";
      }
      s := s + params[i].0 + "=" + params[i].1;
      first := false;
      i := i + 1;
    }
    assert params[..i] == params;
  }

  // ---- The rendering as a value ------------------------------------------

  /** The lines of `toString`: the maps in key order, and the body section
      only for a non-empty body. */
  function Lines(r: HttpRequest): seq<string>
  {
    Parts(r.verb, r.url, r.queryParams, r.headers, r.body != "", r.body)
  }

  /** What `toString` returns: every line, the last included, ends in a newline. */
  function RequestText(r: HttpRequest): string
  {
    Terminated(Lines(r))
  }

  function BodyBlock(body: string): string
  {
    if body != "" then BodyTitle + "\n" + BodyLine(body) + "\n" else ""
  }

  /** The text is the request line, the headers block and the body block. */
  lemma TextBlocks(r: HttpRequest)
    ensures RequestText(r) == RequestLine(r.verb, r.url, r.queryParams) + "\n" + HeadersBlock(r.headers) + BodyBlock(r.body)
  {
    TerminatedParts(r.verb, r.url, r.queryParams, r.headers, r.body != "", r.body);
  }

  /** The headers section appears exactly when there are headers, the body
      section exactly when the body is not empty, and the text ends in a
      newline. */
  lemma Sections(r: HttpRequest)
    ensures HeadersTitle in Lines(r) <==> |r.headers| > 0
    ensures BodyTitle in Lines(r) <==> r.body != ""
    ensures Lines(r)[0] == RequestLine(r.verb, r.url, r.queryParams)
    ensures var t := RequestText(r); |t| > 0 && t[|t| - 1] == '\n'
  {
    PartsShape(r.verb, r.url, r.queryParams, r.headers, r.body != "", r.body);
  }

  /** An empty body prints exactly as no body. */
  lemma EmptyBodyHidden(r: HttpRequest)
    requires r.body == ""
    ensures RequestText(r) == RequestLine(r.verb, r.url, r.queryParams) + "\n" + HeadersBlock(r.headers)
  {
    TextBlocks(r);
  }

  /** The text depends on what the maps hold, not on the order the entries
      were added in: requests with the same lookups print the same. */
  lemma TextDependsOnContents(r: HttpRequest, r': HttpRequest)
    requires r.Valid() && r'.Valid()
    requires r.url == r'.url && r.verb == r'.verb && r.body == r'.body
    requires forall k :: AssocList.Lookup(r.headers, k) == AssocList.Lookup(r'.headers, k)
    requires forall k :: AssocList.Lookup(r.queryParams, k) == AssocList.Lookup(r'.queryParams, k)
    ensures RequestText(r) == RequestText(r')
  {
    SortedMap.Canonical(r.headers, r'.headers);
    SortedMap.Canonical(r.queryParams, r'.queryParams);
  }

  // ---- The builder -------------------------------------------------------

  class Builder {
    const url: string
    const verb: string
    var headers: seq<SortedMap.Entry>
    var queryParams: seq<SortedMap.Entry>
    var body: string

    ghost predicate Valid()
      reads this
    {
      SortedMap.Sorted(headers) && SortedMap.Sorted(queryParams)
    }

    /** The field initialisation of the constructor once both arguments have
        passed the emptiness checks: empty maps and an empty body. */
    constructor (url: string, verb: string)
      ensures Valid()
      ensures this.url == url && this.verb == verb
      ensures headers == [] && queryParams == [] && body == ""
    {
      this.url := url;
      this.verb := verb;
      headers := [];
      queryParams := [];
      body := "";
    }

    /** `Builder(url, method)`: an empty url is reported first, then an empty
        method. */
    static method Create(url: string, verb: string) returns (r: Result<Builder>)
      ensures url == "" ==> r == Err(InvalidArgument(UrlRequired))
      ensures url != "" && verb == "" ==> r == Err(InvalidArgument(MethodRequired))
      ensures url != "" && verb != "" ==>
        r.Ok? && fresh(r.value) && r.value.Valid() &&
        r.value.url == url && r.value.verb == verb &&
        r.value.headers == [] && r.value.queryParams == [] && r.value.body == ""
    {
      if url == "" {
        return Err(InvalidArgument(UrlRequired));
      }
      if verb == "" {
        return Err(InvalidArgument(MethodRequired));
      }
      var b := new Builder(url, verb);
      r := Ok(b);
    }

    /** `addHeader`: `headers[key] = value`, nothing else changed. */
    method AddHeader(key: string, value: string) returns (self: Builder)
      requires Valid()
      modifies this
      ensures Valid() && self == this
      ensures headers == SortedMap.Assign(old(headers), key, value)
      ensures queryParams == old(queryParams) && body == old(body)
    {
      SortedMap.AssignSorted(headers, key, value);
      headers := SortedMap.Assign(headers, key, value);
      self := this;
    }

    /** `addQueryParam`: `queryParams[key] = value`, nothing else changed. */
    method AddQueryParam(key: string, value: string) returns (self: Builder)
      requires Valid()
      modifies this
      ensures Valid() && self == this
      ensures queryParams == SortedMap.Assign(old(queryParams), key, value)
      ensures headers == old(headers) && body == old(body)
    {
      SortedMap.AssignSorted(queryParams, key, value);
      queryParams := SortedMap.Assign(queryParams, key, value);
      self := this;
    }

    /** `setBody`: the last call decides the body. */
    method SetBody(bodyContent: string) returns (self: Builder)
      modifies this
      ensures self == this && body == bodyContent
      ensures headers == old(headers) && queryParams == old(queryParams)
    {
      body := bodyContent;
      self := this;
    }

    /** `build() const`: a copy of the five fields; the builder is left as it was. */
    method Build() returns (r: HttpRequest)
      requires Valid()
      ensures r.Valid()
      ensures r.url == url && r.verb == verb && r.body == body
      ensures r.headers == headers && r.queryParams == queryParams
    {
      r := HttpRequest(url, verb, headers, queryParams, body);
    }
  }

  /** `build` copies: a header added to the builder afterwards is not in the
      request built before it. */
  method CopyScenario() returns (before: HttpRequest, after: HttpRequest)
    ensures AssocList.Lookup(before.headers, "Accept") == None
    ensures AssocList.Lookup(after.headers, "Accept") == Some("text/plain")
  {
    var created := Builder.Create(DemoUrl, "GET");
    var builder := created.value;
    before := builder.Build();
    var b := builder.AddHeader("Accept", "text/plain");
    after := builder.Build();
  }

  /** The first demonstration request: one query parameter, no headers and
      an empty body. */
  method SimpleGetScenario() returns (text: string)
    ensures text == "GET " + DemoUrl + "?id=123\n"
  {
    var created := Builder.Create(DemoUrl, "GET");
    var builder := created.value;
    var b := builder.AddQueryParam("id", "123");
    var request := builder.Build();
    text := request.ToString();
    SimpleGetText();
  }

  lemma SimpleGetText()
    ensures RequestText(HttpRequest(DemoUrl, "GET", [], [("id", "123")], "")) == "GET " + DemoUrl + "?id=123\n"
  {
    TextBlocks(HttpRequest(DemoUrl, "GET", [], [("id", "123")], ""));
    var texts := FieldTexts([("id", "123")], QueryPair);
    assert texts == [QueryPair("id", "123")];
    assert QueryString([("id", "123")]) == "id=123";
    assert RequestLine("GET", DemoUrl, [("id", "123")]) == "GET" + " " + DemoUrl + "?" + "id=123";
    assert "GET" + " " == "GET ";
    assert "?" + "id=123" + "\n" == "?id=123\n";
  }

  /** The second demonstration request lists its headers in key order, not in
      the order they were added, so its whole text is fixed: each of its lines
      ends in a newline. */
  method ComplexPostScenario() returns (r: HttpRequest, text: string)
    ensures r.headers == [("Authorization", "Bearer abc123"), ("Content-Type", "application/json")]
    ensures r.queryParams == [("version", "1.0")]
    ensures r.body == PostBody
    ensures text == Terminated([RequestLine("POST", DemoUrl, [("version", "1.0")]), HeadersTitle,
                                HeaderLine("Authorization", "Bearer abc123"),
                                HeaderLine("Content-Type", "application/json"),
                                BodyTitle, BodyLine(PostBody)])
  {
    var created := Builder.Create(DemoUrl, "POST");
    var builder := created.value;
    var b := builder.AddHeader("Content-Type", "application/json");
    b := builder.AddHeader("Authorization", "Bearer abc123");
    b := builder.AddQueryParam("version", "1.0");
    b := builder.SetBody(PostBody);
    assert Less("Authorization", "Content-Type");
    r := builder.Build();
    text := r.ToString();
    ComplexPostLines();
  }

  lemma ComplexPostLines()
    ensures Lines(HttpRequest(DemoUrl, "POST",
                              [("Authorization", "Bearer abc123"), ("Content-Type", "application/json")],
                              [("version", "1.0")], PostBody))
         == [RequestLine("POST", DemoUrl, [("version", "1.0")]), HeadersTitle,
             HeaderLine("Authorization", "Bearer abc123"), HeaderLine("Content-Type", "application/json"),
             BodyTitle, BodyLine(PostBody)]
  {
    assert PostBody != "";
  }
}
