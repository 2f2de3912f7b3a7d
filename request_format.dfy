/** The text every HttpRequest rendering is made of: a request line, an
    optional headers section and an optional body section. The Java and C++
    renderers end each line with a newline; the Python one joins the same
    lines with newlines. */
module RequestFormat {
  import opened Text
  import HashIteration

  /** A header or query parameter, in the order the renderer visits it. */
  type Field = (string, string)

  const HeadersTitle := "Headers:"
  const BodyTitle := "Body:"

  /** The messages of the two Builder argument checks. */
  const UrlRequired := "URL is Required"
  const MethodRequired := "HTTP Method is Required"

  /** The URL of the demonstration requests. */
  const DemoUrl := "https://api.example.com/users"

  /** The JSON body of the second demonstration request. */
  const PostBody := "{\"name\": \"Alice\", \"email\": \"alice@example.com\"}"

  function QueryPair(k: string, v: string): string
  {
    k + "=" + v
  }

  function HeaderLine(k: string, v: string): string
  {
    "  " + k + ": " + v
  }

  function BodyLine(body: string): string
  {
    "  " + body
  }

  /** `fields` rendered one by one, in order, by `render`. */
  function FieldTexts(fields: seq<Field>, render: (string, string) -> string): seq<string>
  {
    seq(|fields|, i requires 0 <= i < |fields| => render(fields[i].0, fields[i].1))
  }

  /** The query string: each parameter as `k=v`, separated by `&`. */
  function QueryString(params: seq<Field>): string
  {
    Join("&", FieldTexts(params, QueryPair))
  }

  /** `method url`, then `?` and the query string when there are parameters. */
  function RequestLine(verb: string, url: string, params: seq<Field>): string
  {
    verb + " " + url + (if |params| == 0 then "" else "?" + QueryString(params))
  }

  /** The lines of a rendering. */
  function Parts(verb: string, url: string, params: seq<Field>, headers: seq<Field>,
                 showBody: bool, body: string): seq<string>
  {
    [RequestLine(verb, url, params)]
    + (if |headers| == 0 then [] else [HeadersTitle] + FieldTexts(headers, HeaderLine))
    + (if showBody then [BodyTitle, BodyLine(body)] else [])
  }

  /** The first line starts with `method url`; it goes on, with `?` and the
      query string, exactly when there are query parameters. */
  lemma RequestLineShape(verb: string, url: string, params: seq<Field>)
    ensures var line := RequestLine(verb, url, params);
      var n := |verb| + 1 + |url|;
      |line| >= n && line[..n] == verb + " " + url &&
      (|params| == 0 <==> |line| == n) &&
      (|params| > 0 ==> line[n] == '?' && line[n + 1..] == QueryString(params))
  {
  }

  /** Neither title contains a space, while every other line does. */
  lemma TitlesHaveNoSpace(s: string, j: nat)
    requires j < |s| && s[j] == ' '
    ensures s != HeadersTitle && s != BodyTitle
  {
  }

  /** The lines: the request line first, the headers section exactly when
      there are headers (its title, then one line per header, in order), and
      the body section last, exactly when the body is shown. */
  lemma PartsShape(verb: string, url: string, params: seq<Field>, headers: seq<Field>,
                   showBody: bool, body: string)
    ensures var p := Parts(verb, url, params, headers, showBody, body);
      |p| == 1 + (if |headers| == 0 then 0 else 1 + |headers|) + (if showBody then 2 else 0) &&
      p[0] == RequestLine(verb, url, params) &&
      (|headers| > 0 ==> p[1] == HeadersTitle && p[2..2 + |headers|] == FieldTexts(headers, HeaderLine)) &&
      (showBody ==> p[|p| - 2..] == [BodyTitle, BodyLine(body)])
    ensures HeadersTitle in Parts(verb, url, params, headers, showBody, body) <==> |headers| > 0
    ensures BodyTitle in Parts(verb, url, params, headers, showBody, body) <==> showBody
  {
    var line := RequestLine(verb, url, params);
    var hs := FieldTexts(headers, HeaderLine);
    var p := Parts(verb, url, params, headers, showBody, body);
    TitlesHaveNoSpace(line, |verb|);
    forall i | 0 <= i < |hs| ensures hs[i] != HeadersTitle && hs[i] != BodyTitle {
      TitlesHaveNoSpace(hs[i], 0);
    }
    TitlesHaveNoSpace(BodyLine(body), 0);
    if |headers| > 0 {
      assert p[1] == HeadersTitle;
    }
    if showBody {
      assert p[|p| - 2] == BodyTitle;
    }
  }

  /** The request line of the second demonstration request. */
  lemma PostRequestLine()
    ensures RequestLine("POST", DemoUrl, [("version", "1.0")]) == "POST " + DemoUrl + "?version=1.0"
  {
    assert FieldTexts([("version", "1.0")], QueryPair) == [QueryPair("version", "1.0")];
    assert QueryString([("version", "1.0")]) == "version=1.0";
    assert RequestLine("POST", DemoUrl, [("version", "1.0")]) == "POST" + " " + DemoUrl + "?" + "version=1.0";
    assert "POST" + " " == "POST ";
    assert "?" + "version=1.0" == "?version=1.0";
  }

  /** The headers block of the Java and C++ renderings: its title and one
      terminated line per header, or nothing when there are no headers. */
  function HeadersBlock(headers: seq<Field>): string
  {
    if |headers| == 0 then "" else HeadersTitle + "\n" + Terminated(FieldTexts(headers, HeaderLine))
  }

  /** Java and C++ build the text block by block: the request line, then the
      headers block, then the body block, each line ending in a newline. */
  lemma TerminatedParts(verb: string, url: string, params: seq<Field>, headers: seq<Field>,
                        showBody: bool, body: string)
    ensures Terminated(Parts(verb, url, params, headers, showBody, body)) ==
      RequestLine(verb, url, params) + "\n"
      + HeadersBlock(headers)
      + (if showBody then BodyTitle + "\n" + BodyLine(body) + "\n" else "")
  {
    var hb := if |headers| == 0 then [] else [HeadersTitle] + FieldTexts(headers, HeaderLine);
    var bb := if showBody then [BodyTitle, BodyLine(body)] else [];
    var line := RequestLine(verb, url, params);
    TerminatedAppend([line] + hb, bb);
    TerminatedAppend([line], hb);
    assert Terminated([line]) == line + "\n" by {
      TerminatedFront(line, []);
    }
    if |headers| > 0 {
      TerminatedFront(HeadersTitle, FieldTexts(headers, HeaderLine));
    }
    if showBody {
      TerminatedFront(BodyTitle, [BodyLine(body)]);
      TerminatedFront(BodyLine(body), []);
    }
  }

  /** The literals the Java and C++ renderers append, split into the pieces
      named here. */
  lemma Literals()
    ensures "Headers:\n" == HeadersTitle + "\n"
    ensures "Body:\n  " == BodyTitle + "\n" + "  "
  {
  }

  /** Appending one field to what has been rendered so far. */
  lemma FieldTextsPrefix(fields: seq<Field>, i: nat, render: (string, string) -> string)
    requires i < |fields|
    ensures FieldTexts(fields[..i + 1], render) ==
      FieldTexts(fields[..i], render) + [render(fields[i].0, fields[i].1)]
  {
  }

  /** The loop of the Java and C++ renderers over the headers: one `  k: v`
      line each, newline-terminated. */
  method WriteHeaderLines(headers: seq<Field>) returns (s: string)
    ensures s == Terminated(FieldTexts(headers, HeaderLine))
  {
    s := "";
    var i := 0;
    while i < |headers|
      invariant 0 <= i <= |headers|
      invariant s == Terminated(FieldTexts(headers[..i], HeaderLine))
    {
      FieldTextsPrefix(headers, i, HeaderLine);
      s := s + "  " + headers[i].0 + ": " + headers[i].1 + "\n";
      i := i + 1;
    }
    assert headers[..i] == headers;
  }

  /** Rendering a hash map's entries, in whatever order it iterates them, shows
      each entry exactly once and nothing else. */
  lemma TextsAreTheEntries(m: map<string, string>, ks: seq<string>, render: (string, string) -> string)
    requires HashIteration.IsEnumeration(ks, m.Keys)
    ensures |FieldTexts(HashIteration.PairsOf(m, ks), render)| == |m|
    ensures forall t :: t in FieldTexts(HashIteration.PairsOf(m, ks), render) <==>
      exists k :: k in m && t == render(k, m[k])
  {
    HashIteration.EnumerationSize(ks, m.Keys);
    var ts := FieldTexts(HashIteration.PairsOf(m, ks), render);
    forall t | t in ts ensures exists k :: k in m && t == render(k, m[k]) {
      var i :| 0 <= i < |ts| && ts[i] == t;
      assert ks[i] in m;
    }
    forall k | k in m ensures render(k, m[k]) in ts {
      var i :| 0 <= i < |ks| && ks[i] == k;
      assert ts[i] == render(k, m[k]);
    }
  }
}
