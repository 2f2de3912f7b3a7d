/** HttpRequest and HttpRequest.Builder of the Java version. The header and
    query maps are HashMap objects: the built request holds the builder's own
    maps, not copies, and renders them in the map's iteration order. */
module BuilderJava {
  import opened Wrappers
  import opened Text
  import opened RequestFormat
  import HashIteration

  /** A HashMap<String, String>. */
  class StringMap {
    var entries: map<string, string>

    constructor ()
      ensures entries == map[]
    {
      entries := map[];
    }

    /** `put`: insert, or overwrite the value of a present key. */
    method Put(k: string, v: string)
      modifies this
      ensures entries == old(entries)[k := v]
    {
      entries := entries[k := v];
    }
  }

  // ---- The rendering as a value ------------------------------------------

  /** The lines of `toString`, for the maps visited in the orders `params` and
      `headers`: the body section is there whenever the body is not null. */
  function Lines(verb: string, url: string, params: seq<Field>, headers: seq<Field>,
                 body: Option<string>): seq<string>
  {
    Parts(verb, url, params, headers, body.Some?, if body.Some? then body.value else "")
  }

  /** What `toString` returns: every line, the last included, ends in a newline. */
  function RequestText(verb: string, url: string, params: seq<Field>, headers: seq<Field>,
                       body: Option<string>): string
  {
    Terminated(Lines(verb, url, params, headers, body))
  }

  /** The headers section appears exactly when there are headers, the body
      section exactly when the body is not null, and the text ends in a
      newline. */
  lemma Sections(verb: string, url: string, params: seq<Field>, headers: seq<Field>, body: Option<string>)
    ensures HeadersTitle in Lines(verb, url, params, headers, body) <==> |headers| > 0
    ensures BodyTitle in Lines(verb, url, params, headers, body) <==> body.Some?
    ensures Lines(verb, url, params, headers, body)[0] == RequestLine(verb, url, params)
    ensures var t := RequestText(verb, url, params, headers, body); |t| > 0 && t[|t| - 1] == '\n'
  {
    PartsShape(verb, url, params, headers, body.Some?, if body.Some? then body.value else "");
  }

  /** The body block: its title and the indented body, or nothing for null. */
  function BodyBlock(body: Option<string>): string
  {
    if body.Some? then BodyTitle + "\n" + BodyLine(body.value) + "\n" else ""
  }

  /** The text is the request line, the headers block and the body block. */
  lemma TextBlocks(verb: string, url: string, params: seq<Field>, headers: seq<Field>, body: Option<string>)
    ensures RequestText(verb, url, params, headers, body) ==
      RequestLine(verb, url, params) + "\n" + HeadersBlock(headers) + BodyBlock(body)
  {
    TerminatedParts(verb, url, params, headers, body.Some?, if body.Some? then body.value else "");
  }

  /** An empty body is not null, so it is still printed. */
  lemma EmptyBodyShown(verb: string, url: string, params: seq<Field>, headers: seq<Field>)
    ensures RequestText(verb, url, params, headers, Some("")) ==
      RequestText(verb, url, params, headers, None) + "Body:\n  \n"
  {
    TextBlocks(verb, url, params, headers, Some(""));
    TextBlocks(verb, url, params, headers, None);
  }

  // ---- The objects -------------------------------------------------------

  class Builder {
    const url: string
    /** The HTTP method. */
    const verb: string
    const headers: StringMap
    const queryParams: StringMap
    var body: Option<string>

    /** The two maps are distinct objects. */
    ghost predicate Valid()
      reads this
    {
      headers != queryParams
    }

    /** The field initialisation of `new Builder(url, method)` once both
        arguments have passed the null checks. */
    constructor (url: string, verb: string)
      ensures Valid()
      ensures this.url == url && this.verb == verb && body == None
      ensures fresh(headers) && fresh(queryParams)
      ensures headers.entries == map[] && queryParams.entries == map[]
    {
      this.url := url;
      this.verb := verb;
      headers := new StringMap();
      queryParams := new StringMap();
      body := None;
    }

    /** `new Builder(url, method)`: a null url is reported first, then a null
        method. */
    static method Create(url: Option<string>, verb: Option<string>) returns (r: Result<Builder>)
      ensures url.None? ==> r == Err(IllegalArgumentException(UrlRequired))
      ensures url.Some? && verb.None? ==> r == Err(IllegalArgumentException(MethodRequired))
      ensures url.Some? && verb.Some? ==>
        r.Ok? && fresh(r.value) && r.value.Valid() &&
        r.value.url == url.value && r.value.verb == verb.value && r.value.body == None &&
        fresh(r.value.headers) && fresh(r.value.queryParams) &&
        r.value.headers.entries == map[] && r.value.queryParams.entries == map[]
    {
      if url.None? {
        return Err(IllegalArgumentException(UrlRequired));
      } else if verb.None? {
        return Err(IllegalArgumentException(MethodRequired));
      }
      var b := new Builder(url.value, verb.value);
      r := Ok(b);
    }

    /** `addHeader`: one header set, nothing else changed, the builder returned. */
    method AddHeader(key: string, value: string) returns (self: Builder)
      requires Valid()
      modifies headers
      ensures self == this
      ensures headers.entries == old(headers.entries)[key := value]
      ensures queryParams.entries == old(queryParams.entries) && body == old(body)
    {
      headers.Put(key, value);
      self := this;
    }

    /** `addQueryParam`: one parameter set, nothing else changed, the builder returned. */
    method AddQueryParam(key: string, value: string) returns (self: Builder)
      requires Valid()
      modifies queryParams
      ensures self == this
      ensures queryParams.entries == old(queryParams.entries)[key := value]
      ensures headers.entries == old(headers.entries) && body == old(body)
    {
      queryParams.Put(key, value);
      self := this;
    }

    /** `body`: the last call decides the body; null is allowed. */
    method Body(b: Option<string>) returns (self: Builder)
      modifies this
      ensures self == this && body == b
      ensures headers.entries == old(headers.entries) && queryParams.entries == old(queryParams.entries)
    {
      body := b;
      self := this;
    }

    /** `build`: a new request that holds the builder's fields, the maps by reference. */
    method Build() returns (r: HttpRequest)
      ensures fresh(r)
      ensures r.url == url && r.verb == verb && r.body == body
      ensures r.headers == headers && r.queryParams == queryParams
    {
      r := new HttpRequest(this);
    }
  }

  /** The request; the getters are plain reads of these fields. */
  class HttpRequest {
    const url: string
    const verb: string
    const headers: StringMap
    const queryParams: StringMap
    const body: Option<string>

    constructor (builder: Builder)
      ensures url == builder.url && verb == builder.verb && body == builder.body
      ensures headers == builder.headers && queryParams == builder.queryParams
    {
      url := builder.url;
      verb := builder.verb;
      headers := builder.headers;
      queryParams := builder.queryParams;
      body := builder.body;
    }

    /** `toString`, appending to a StringBuilder. The ghost outputs record the
        order in which the two HashMaps were iterated. */
    method ToString() returns (s: string, ghost paramOrder: seq<string>, ghost headerOrder: seq<string>)
      ensures HashIteration.IsEnumeration(paramOrder, queryParams.entries.Keys)
      ensures HashIteration.IsEnumeration(headerOrder, headers.entries.Keys)
      ensures s == RequestText(verb, url, HashIteration.PairsOf(queryParams.entries, paramOrder),
                               HashIteration.PairsOf(headers.entries, headerOrder), body)
      ensures |s| > 0 && s[|s| - 1] == '\n'
      ensures queryParams.entries == map[] && headers.entries == map[] && body.None? ==>
        s == verb + " " + url + "\n"
    {
      var qs := HashIteration.IterationOrder(queryParams.entries);
      var hs := HashIteration.IterationOrder(headers.entries);
      paramOrder, headerOrder := qs, hs;
      // the entrySets, in iteration order
      var q := HashIteration.PairsOf(queryParams.entries, qs);
      var h := HashIteration.PairsOf(headers.entries, hs);
      s := Render(verb, url, q, h, body);
      Sections(verb, url, q, h, body);
      if queryParams.entries == map[] && headers.entries == map[] && body.None? {
        HashIteration.EnumerationSize(qs, queryParams.entries.Keys);
        HashIteration.EnumerationSize(hs, headers.entries.Keys);
        TextBlocks(verb, url, q, h, body);
      }
    }
  }

  /** The StringBuilder appends of `toString`, over the entries in the order
      the maps are iterated. */
  method Render(verb: string, url: string, q: seq<Field>, h: seq<Field>, body: Option<string>) returns (s: string)
    ensures s == RequestText(verb, url, q, h, body)
  {
    var sb := StartLine(verb, url, q);
    sb := sb + "\n";
    var headersPart := "";
    if |h| > 0 {
      var lines := WriteHeaderLines(h);
      headersPart := "Headers:\n" + lines;
    }
    assert headersPart == HeadersBlock(h) by { Literals(); }
    sb := sb + headersPart;
    var bodyPart := "";
    if body.Some? {
      bodyPart := "Body:\n  " + body.value + "\n";
    }
    assert bodyPart == BodyBlock(body) by { Literals(); }
    sb := sb + bodyPart;
    TextBlocks(verb, url, q, h, body);
    s := sb;
  }

  /** The first appends: `method + " " + url`, then `?` and the parameters
      joined by `&` when there are any. */
  method StartLine(verb: string, url: string, q: seq<Field>) returns (sb: string)
    ensures sb == RequestLine(verb, url, q)
  {
    sb := verb + " " + url;
    if |q| > 0 {
      var params := QueryTexts(q);
      sb := sb + "?" + Join("&", params);
    }
  }

  /** The loop over the query parameters' entrySet, collecting `k=v` texts. */
  method QueryTexts(q: seq<Field>) returns (params: seq<string>)
    ensures params == FieldTexts(q, QueryPair)
  {
    params := [];
    var i := 0;
    while i < |q|
      invariant 0 <= i <= |q|
      invariant params == FieldTexts(q[..i], QueryPair)
    {
      FieldTextsPrefix(q, i, QueryPair);
      params := params + [q[i].0 + "=" + q[i].1];
      i := i + 1;
    }
    assert q[..i] == q;
  }

  /** The request shares the builder's maps: a header added through the
      builder after `build` shows up in the request. */
  method SharedMapsScenario() returns (seen: map<string, string>)
    ensures seen == map["Accept" := "text/plain"]
  {
    var created := Builder.Create(Some(DemoUrl), Some("GET"));
    var builder := created.value;
    var request := builder.Build();
    var b := builder.AddHeader("Accept", "text/plain");
    seen := request.headers.entries;
  }

  /** The first demonstration request: one query parameter, no headers, no body. */
  method SimpleGetScenario() returns (text: string)
    ensures text == "GET " + DemoUrl + "?id=123\n"
  {
    var created := Builder.Create(Some(DemoUrl), Some("GET"));
    var builder := created.value;
    var b := builder.AddQueryParam("id", "123");
    var request := builder.Build();
    ghost var po, ho;
    text, po, ho := request.ToString();
    HashIteration.SingleEnumeration(po, "id");
    assert HashIteration.PairsOf(map["id" := "123"], po) == [("id", "123")];
    assert |HashIteration.PairsOf(request.headers.entries, ho)| == 0;
    SimpleGetText();
  }

  lemma SimpleGetText()
    ensures RequestText("GET", DemoUrl, [("id", "123")], [], None) == "GET " + DemoUrl + "?id=123\n"
  {
    TextBlocks("GET", DemoUrl, [("id", "123")], [], None);
    var texts := FieldTexts([("id", "123")], QueryPair);
    assert texts == [QueryPair("id", "123")];
    assert QueryString([("id", "123")]) == "id=123";
    assert RequestLine("GET", DemoUrl, [("id", "123")]) == "GET" + " " + DemoUrl + "?" + "id=123";
    assert "GET" + " " == "GET ";
    assert "?" + "id=123" + "\n" == "?id=123\n";
  }

  /** The second demonstration request: two headers, one parameter and a
      JSON body; the printed order of the headers is the HashMap's. */
  method ComplexPostScenario() returns (headers: map<string, string>, params: map<string, string>,
                                        body: Option<string>)
    ensures headers == map["Content-Type" := "application/json", "Authorization" := "Bearer abc123"]
    ensures params == map["version" := "1.0"]
    ensures body == Some(PostBody)
  {
    var created := Builder.Create(Some(DemoUrl), Some("POST"));
    var builder := created.value;
    var b := builder.AddHeader("Content-Type", "application/json");
    b := builder.AddHeader("Authorization", "Bearer abc123");
    b := builder.AddQueryParam("version", "1.0");
    b := builder.Body(Some(PostBody));
    var request := builder.Build();
    headers, params, body := request.headers.entries, request.queryParams.entries, request.body;
  }
}
