/**
 * The helpers of lib/utils.js: the multipart/form-data framer (RFC 7578),
 * the choice of transport and the request parameters, the classification of
 * a URI, the file-size check and the file-name sanitiser.
 */
module Utils {
  import opened Wrappers
  import opened JsValue
  import opened Bytes

  /** The process-wide multipart boundary. */
  const Boundary: string := "----Y0uR3tH3m4nN0wd0g"

  const Crlf: string := "\r\n"

  /** The dash-boundary line that opens every part (RFC 2046, section 5.1.1). */
  const DelimiterLine: string := "--" + Boundary + Crlf

  /** The text every Content-Disposition line starts with, up to the field name. */
  const DispositionPrefix: string := "Content-Disposition: form-data; name=\""

  // ---------------------------------------------------------------------
  // Boundary

  /** The characters RFC 2046, section 5.1.1 allows in a boundary (`bchars`). */
  predicate IsBChar(c: char) {
    ('0' <= c <= '9') || ('a' <= c <= 'z') || ('A' <= c <= 'Z') || c in "'()+_,-./:=? "
  }

  /** The fixed boundary is a legal RFC 2046 boundary: 1 to 70 `bchars`, not ending in a space. */
  lemma BoundaryIsLegal()
    ensures 1 <= |Boundary| <= 70 && Boundary[|Boundary| - 1] != ' '
    ensures forall i :: 0 <= i < |Boundary| ==> IsBChar(Boundary[i])
  {
  }

  // ---------------------------------------------------------------------
  // Transport and request parameters

  /** The two client modules `getProtocol` chooses between. */
  datatype Transport = Http | Https

  /** The result of `url.parse`, restricted to the properties the engine reads. */
  datatype UrlParts = UrlParts(
    protocol: Option<string>,
    hostname: Option<string>,
    port: Option<string>,
    path: Option<string>,
    pathname: Option<string>)

  /** The object `parseUri` returns; `None` stands for both `null` and an absent key. */
  datatype ParsedUri = ParsedUri(
    host: Option<string>,
    path: Option<string>,
    isValidUrl: bool,
    protocol: Option<string>,
    port: Option<string>,
    pathname: Option<string>)

  /** The options object handed to `request`. `agent` is `None` when the key is not set. */
  datatype RequestOptions = RequestOptions(
    httpMethod: string,
    host: Option<string>,
    path: Option<string>,
    port: Option<string>,
    headers: Dict,
    agent: Option<Value>)

  /** `getProtocol`: the secure client exactly for `https:`. */
  function GetProtocol(url: ParsedUri): (t: Transport)
    ensures t == Https <==> url.protocol == Some("https:")
  {
    if url.protocol == Some("https:") then Https else Http
  }

  /**
   * `getRequestOptions`: copies the method, the endpoint and the headers, and
   * sets `agent` only when the caller's agent is truthy.
   */
  function GetRequestOptions(httpMethod: string, url: ParsedUri, headers: Dict, agent: Value): (r: RequestOptions)
    ensures r.httpMethod == httpMethod && r.host == url.host && r.path == url.path && r.port == url.port
    ensures r.headers == headers
    ensures r.agent.Some? <==> Truthy(agent)
    ensures r.agent.Some? ==> r.agent.value == agent
  {
    RequestOptions(httpMethod, url.host, url.path, url.port, headers, if Truthy(agent) then Some(agent) else None)
  }

  /**
   * `parseUri`, with `url.parse` passed in. Only `http:` and `https:` URLs are
   * valid; anything else is kept whole as a path with no host and no protocol.
   */
  function ParseUri(uri: string, urlParse: string -> UrlParts): (r: ParsedUri)
    ensures r.isValidUrl <==> urlParse(uri).protocol == Some("http:") || urlParse(uri).protocol == Some("https:")
    ensures !r.isValidUrl ==> r.path == Some(uri) && r.host == None && r.protocol == None
    ensures !r.isValidUrl ==> r.port == None && r.pathname == None
    ensures r.isValidUrl ==>
      var p := urlParse(uri);
      r.protocol == p.protocol && r.host == p.hostname && r.port == p.port && r.path == p.path && r.pathname == p.pathname
  {
    var p := urlParse(uri);
    if p.protocol == Some("http:") || p.protocol == Some("https:") then
      ParsedUri(p.hostname, p.path, true, p.protocol, p.port, p.pathname)
    else
      ParsedUri(None, Some(uri), false, None, None, None)
  }

  /** A valid URL is served over https exactly when its scheme is `https:`, otherwise over http. */
  lemma ValidUrlTransport(uri: string, urlParse: string -> UrlParts)
    requires ParseUri(uri, urlParse).isValidUrl
    ensures GetProtocol(ParseUri(uri, urlParse)) == Https <==> urlParse(uri).protocol == Some("https:")
    ensures GetProtocol(ParseUri(uri, urlParse)) == Http <==> urlParse(uri).protocol == Some("http:")
  {
  }

  // ---------------------------------------------------------------------
  // File size

  /** `validateFileSize`: a positive maximum bounds the size; zero or a negative maximum means no limit. */
  function ValidateFileSize(maxFileSize: int, fileSize: int): (ok: bool)
    ensures maxFileSize <= 0 ==> ok
    ensures maxFileSize > 0 ==> (ok <==> fileSize <= maxFileSize)
  {
    if maxFileSize > 0 && fileSize > maxFileSize then false else true
  }

  // ---------------------------------------------------------------------
  // File names

  /** The characters the pattern `[\/:"*?<>|]` matches; backslash is not among them. */
  predicate IsUnsafe(c: char) {
    c == '/' || c == ':' || c == '"' || c == '*' || c == '?' || c == '<' || c == '>' || c == '|'
  }

  predicate NoUnsafe(s: string) {
    forall i :: 0 <= i < |s| ==> !IsUnsafe(s[i])
  }

  /** `fileName.replace(/[\/:"*?<>|]+/mg, '')`. */
  function RemoveUnsafe(s: string): string {
    if s == [] then []
    else RemoveUnsafe(s[..|s| - 1]) + (if IsUnsafe(s[|s| - 1]) then [] else [s[|s| - 1]])
  }

  /** `sanitizeFileName`: the name without unsafe characters, or `null` when nothing is left. */
  function SanitizeFileName(fileName: string): (r: Option<string>)
    ensures r.Some? ==> r.value != [] && NoUnsafe(r.value)
    ensures r.None? <==> forall i :: 0 <= i < |fileName| ==> IsUnsafe(fileName[i])
  {
    var s := RemoveUnsafe(fileName);
    RemoveUnsafeCounts(fileName);
    assert s == [] <==> forall i :: 0 <= i < |fileName| ==> IsUnsafe(fileName[i]) by {
      if s != [] {
        assert s[0] in multiset(s);
        assert !IsUnsafe(s[0]);
        assert s[0] in multiset(fileName);
      } else {
        forall i | 0 <= i < |fileName| ensures IsUnsafe(fileName[i]) {
          assert fileName[i] in multiset(fileName);
        }
      }
    }
    if |s| > 0 then Some(s) else None
  }

  /** Removal works character by character, so it keeps the order of what it keeps. */
  lemma {:induction false} RemoveUnsafeAppend(a: string, b: string)
    ensures RemoveUnsafe(a + b) == RemoveUnsafe(a) + RemoveUnsafe(b)
    decreases |b|
  {
    if b == [] {
      assert a + b == a;
    } else {
      assert (a + b)[..|a + b| - 1] == a + b[..|b| - 1];
      RemoveUnsafeAppend(a, b[..|b| - 1]);
    }
  }

  /**
   * Every unsafe character is gone and every other character, backslash
   * included, is kept as often as it occurs.
   */
  lemma {:induction false} RemoveUnsafeCounts(s: string)
    ensures NoUnsafe(RemoveUnsafe(s))
    ensures forall c :: multiset(RemoveUnsafe(s))[c] == if IsUnsafe(c) then 0 else multiset(s)[c]
    decreases |s|
  {
    if s != [] {
      var init := s[..|s| - 1];
      RemoveUnsafeCounts(init);
      assert s == init + [s[|s| - 1]];
    }
  }

  /** A name with nothing to remove comes back unchanged. */
  lemma {:induction false} RemoveUnsafeClean(s: string)
    requires NoUnsafe(s)
    ensures RemoveUnsafe(s) == s
    decreases |s|
  {
    if s != [] {
      RemoveUnsafeClean(s[..|s| - 1]);
    }
  }

  /** Sanitising a sanitised name changes nothing. */
  lemma SanitizeIdempotent(fileName: string)
    requires SanitizeFileName(fileName).Some?
    ensures SanitizeFileName(SanitizeFileName(fileName).value) == SanitizeFileName(fileName)
  {
    RemoveUnsafeClean(SanitizeFileName(fileName).value);
  }

  /** A non-empty name without unsafe characters is its own sanitised form. */
  lemma SanitizeCleanName(fileName: string)
    requires fileName != [] && NoUnsafe(fileName)
    ensures SanitizeFileName(fileName) == Some(fileName)
  {
    RemoveUnsafeClean(fileName);
  }

  // ---------------------------------------------------------------------
  // Multipart framing

  /** One text part: delimiter line, Content-Disposition with the name, blank line, value. */
  function FieldPart(name: string, value: string): string {
    DelimiterLine + (DispositionPrefix + name + "\"\r\n\r\n") + (value + Crlf)
  }

  /** The text parts of the enumerated fields, in enumeration order. */
  function FieldParts(entries: Dict): string {
    if entries == [] then ""
    else
      var last := entries[|entries| - 1];
      FieldParts(entries[..|entries| - 1]) + FieldPart(last.0, ToString(last.1))
  }

  /** The header of the file part; the file's bytes follow it on the wire. */
  function FileHeader(fileFieldName: string, fileName: string, contentType: string): string {
    DelimiterLine
      + (DispositionPrefix + fileFieldName + "\"; filename=\"" + fileName + "\"\r\n")
      + ("Content-Type: " + contentType + "\r\n\r\n")
  }

  /** The text `getMultipartForm` builds before it turns it into a Buffer. */
  function MultipartForm(fields: Value, fileFieldName: string, fileName: string, contentType: string): string {
    (if Truthy(fields) then FieldParts(Enumerate(fields)) else "") + FileHeader(fileFieldName, fileName, contentType)
  }

  /** `getMultipartForm`: appends one part per field, then the file-part header, and encodes the text. */
  method GetMultipartForm(fields: Value, fileFieldName: string, fileName: string, fileContentType: string)
    returns (form: seq<byte>)
    ensures form == Utf8(MultipartForm(fields, fileFieldName, fileName, fileContentType))
  {
    var text := "";
    if Truthy(fields) {
      var entries := Enumerate(fields);
      for i := 0 to |entries|
        invariant text == FieldParts(entries[..i])
      {
        var field := entries[i].0;
        ghost var before := text;
        text := text + ("--" + Boundary + "\r\n");
        text := text + ("Content-Disposition: form-data; name=\"" + field + "\"\r\n\r\n");
        text := text + (ToString(entries[i].1) + "\r\n");
        AppendThree(before, DelimiterLine, DispositionPrefix + field + "\"\r\n\r\n", ToString(entries[i].1) + Crlf);
        assert entries[..i + 1][..i] == entries[..i];
      }
      assert entries[..|entries|] == entries;
    }
    ghost var before := text;
    text := text + ("--" + Boundary + "\r\n");
    text := text + ("Content-Disposition: form-data; name=\"" + fileFieldName + "\"; filename=\"" + fileName + "\"\r\n");
    text := text + ("Content-Type: " + fileContentType + "\r\n\r\n");
    AppendThree(before, DelimiterLine,
      DispositionPrefix + fileFieldName + "\"; filename=\"" + fileName + "\"\r\n",
      "Content-Type: " + fileContentType + "\r\n\r\n");
    form := Utf8(text);
  }

  lemma AppendThree(t: string, a: string, b: string, c: string)
    ensures t + a + b + c == t + (a + b + c)
  {
  }

  lemma {:induction false} FieldPartsAppend(a: Dict, b: Dict)
    ensures FieldParts(a + b) == FieldParts(a) + FieldParts(b)
    decreases |b|
  {
    if b == [] {
      assert a + b == a;
    } else {
      assert (a + b)[..|a + b| - 1] == a + b[..|b| - 1];
      FieldPartsAppend(a, b[..|b| - 1]);
    }
  }

  lemma {:induction false} FieldPartsStartWithDelimiter(entries: Dict)
    requires entries != []
    ensures DelimiterLine <= FieldParts(entries)
    decreases |entries|
  {
    var init := entries[..|entries| - 1];
    var last := entries[|entries| - 1];
    var part := FieldPart(last.0, ToString(last.1));
    assert DelimiterLine <= part by {
      assert part == DelimiterLine + ((DispositionPrefix + last.0 + "\"\r\n\r\n") + (ToString(last.1) + Crlf));
    }
    if init != [] {
      FieldPartsStartWithDelimiter(init);
      PrefixOfAppend(DelimiterLine, FieldParts(init), part);
    }
  }

  lemma PrefixOfAppend(a: string, b: string, c: string)
    requires a <= b
    ensures a <= b + c
  {
    assert (b + c)[..|a|] == b[..|a|];
  }

  /** The form always opens with the delimiter line, whatever the fields. */
  lemma FormStartsWithDelimiter(fields: Value, fileFieldName: string, fileName: string, contentType: string)
    ensures DelimiterLine <= MultipartForm(fields, fileFieldName, fileName, contentType)
  {
    var header := FileHeader(fileFieldName, fileName, contentType);
    assert DelimiterLine <= header by {
      assert header == DelimiterLine + ((DispositionPrefix + fileFieldName + "\"; filename=\"" + fileName + "\"\r\n")
        + ("Content-Type: " + contentType + "\r\n\r\n"));
    }
    if Truthy(fields) && Enumerate(fields) != [] {
      FieldPartsStartWithDelimiter(Enumerate(fields));
      PrefixOfAppend(DelimiterLine, FieldParts(Enumerate(fields)), header);
    }
  }

  /** The form always ends with the file-part header. */
  lemma FormEndsWithFileHeader(fields: Value, fileFieldName: string, fileName: string, contentType: string)
    ensures var form := MultipartForm(fields, fileFieldName, fileName, contentType);
      var h := FileHeader(fileFieldName, fileName, contentType);
      |h| <= |form| && form[|form| - |h|..] == h
  {
  }

  /** Without fields, or with an object that has none, the form is the file-part header alone. */
  lemma FormWithoutFields(fields: Value, fileFieldName: string, fileName: string, contentType: string)
    requires !Truthy(fields) || Enumerate(fields) == []
    ensures MultipartForm(fields, fileFieldName, fileName, contentType) == FileHeader(fileFieldName, fileName, contentType)
  {
  }

  /** The total length of the field names and of the field values as strings. */
  function NameValueLength(entries: Dict): nat {
    if entries == [] then 0
    else
      var last := entries[|entries| - 1];
      NameValueLength(entries[..|entries| - 1]) + |last.0| + |ToString(last.1)|
  }

  /** Each text part adds 70 characters of framing to its name and value. */
  lemma {:induction false} FieldPartsLength(entries: Dict)
    ensures |FieldParts(entries)| == 70 * |entries| + NameValueLength(entries)
    decreases |entries|
  {
    if entries != [] {
      FieldPartsLength(entries[..|entries| - 1]);
    }
  }

  /**
   * The length of the form: 70 characters of framing per field, 97 for the
   * file-part header, plus the inserted names, values, file name and type.
   */
  lemma FormLength(fields: Value, fileFieldName: string, fileName: string, contentType: string)
    ensures |MultipartForm(fields, fileFieldName, fileName, contentType)|
      == (if Truthy(fields) then 70 * |Enumerate(fields)| + NameValueLength(Enumerate(fields)) else 0)
         + 97 + |fileFieldName| + |fileName| + |contentType|
  {
    if Truthy(fields) {
      FieldPartsLength(Enumerate(fields));
    }
  }

  /** The field name and value stand verbatim at fixed offsets of their part. */
  lemma FieldPartVerbatim(name: string, value: string)
    ensures var p := FieldPart(name, value);
      |p| == 70 + |name| + |value| && p[63..63 + |name|] == name && p[68 + |name|..68 + |name| + |value|] == value
  {
  }

  /** The field name, file name and content type stand verbatim at fixed offsets of the file header. */
  lemma FileHeaderVerbatim(fileFieldName: string, fileName: string, contentType: string)
    ensures var h := FileHeader(fileFieldName, fileName, contentType);
      var n := 76 + |fileFieldName|;
      var t := n + |fileName| + 17;
      |h| == 97 + |fileFieldName| + |fileName| + |contentType|
      && h[63..63 + |fileFieldName|] == fileFieldName
      && h[n..n + |fileName|] == fileName
      && h[t..t + |contentType|] == contentType
  {
  }

  /**
   * Nothing is escaped: a field name holding a quote produces the same bytes
   * as a different field name and file name.
   */
  lemma FileHeaderNotEscaped(contentType: string)
    ensures FileHeader("a\"; filename=\"b", "c", contentType) == FileHeader("a", "b\"; filename=\"c", contentType)
  {
    assert DispositionPrefix + "a\"; filename=\"b" + "\"; filename=\"" + "c"
        == DispositionPrefix + "a" + "\"; filename=\"" + "b\"; filename=\"c";
  }

  /**
   * Assigning one field replaces (or appends) exactly its part and leaves the
   * parts of the other fields as they were, in their order.
   */
  lemma FieldPartsPut(entries: Dict, k: string, v: Value) returns (before: Dict, after: Dict)
    ensures FieldParts(Put(entries, k, v)) == FieldParts(before) + FieldPart(k, ToString(v)) + FieldParts(after)
    ensures !HasKey(entries, k) ==> before == entries && after == []
    ensures HasKey(entries, k) ==> entries == before + [(k, Get(entries, k))] + after
  {
    before, after := PutSplit(entries, k, v);
    FieldPartsAppend(before + [(k, v)], after);
    FieldPartsAppend(before, [(k, v)]);
    assert [(k, v)][..0] == [];
  }
}
