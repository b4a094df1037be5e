/**
 * The upload engine of lib/poster.js: collecting a stream into one buffer,
 * the resumable chunked send with its server-driven continuation, and the
 * entry point `post` with its argument checks and option defaults.
 *
 * Everything the engine hands to the outside world is an input here: the
 * answers of the file system, the chunks a read stream delivers, the parsed
 * replies of the destination server, and `url.parse`.
 */
module Poster {
  import opened Wrappers
  import opened Decimal
  import opened JsValue
  import opened Bytes
  import opened Utils

  /** `MULTIPART_END`: the close delimiter of RFC 2046, section 5.1.1. */
  const MultipartEnd: string := "\r\n--" + Boundary + "--\r\n"

  /** The size of one chunk of the resumable send: 1 MiB. */
  const PartLength: nat := 1 * 1024 * 1024

  /**
   * The close delimiter is CRLF, the boundary between two pairs of dashes,
   * CRLF; it is ASCII, so its string length is its byte length.
   */
  lemma MultipartEndIsCloseDelimiter()
    ensures MultipartEnd == Crlf + "--" + Boundary + "--" + Crlf
    ensures IsAscii(MultipartEnd) && |Utf8(MultipartEnd)| == |MultipartEnd| == 29
  {
    Utf8Ascii(MultipartEnd);
  }

  // ---------------------------------------------------------------------
  // streamHandler

  /**
   * `streamHandler`: the `data` handler keeps each chunk and adds its length
   * to `size`; on `end` no chunk gives an empty buffer, one chunk is returned
   * as it is, and more are copied one after another into a buffer of `size`
   * bytes.
   */
  method StreamHandler(received: seq<seq<byte>>) returns (data: seq<byte>)
    ensures data == Concat(received)
    ensures |data| == TotalSize(received)
  {
    var chunks: seq<seq<byte>> := [];
    var size := 0;
    for k := 0 to |received|
      invariant chunks == received[..k]
      invariant size == TotalSize(chunks)
    {
      TotalSizePrefix(received, k);
      chunks := chunks + [received[k]];
      size := size + |received[k]|;
    }
    assert chunks == received;
    ConcatLength(chunks);
    data := BufferConcat(chunks, size);
  }

  /**
   * The `switch (chunks.length)` of the `end` listener: no chunk gives an
   * empty buffer, one chunk is taken as it is, and more chunks are copied
   * one after the other into `new Buffer(size)`.
   */
  method BufferConcat(chunks: seq<seq<byte>>, size: nat) returns (data: seq<byte>)
    requires size == TotalSize(chunks)
    ensures data == Concat(chunks)
  {
    if |chunks| == 0 {
      data := [];
    } else if |chunks| == 1 {
      data := chunks[0];
      assert chunks[..0] == [];
    } else {
      var buffer := new byte[size];
      var pos := 0;
      for i := 0 to |chunks|
        invariant pos == TotalSize(chunks[..i]) <= size
        invariant buffer[..pos] == Concat(chunks[..i])
      {
        TotalSizePrefix(chunks, i);
        CopyChunk(buffer, pos, chunks[i]);
        pos := pos + |chunks[i]|;
      }
      assert chunks[..|chunks|] == chunks;
      data := buffer[..];
    }
  }

  /** `chunk.copy(buffer, pos)`: the chunk overwrites the bytes from `pos` on, and all other bytes stay. */
  method CopyChunk(buffer: array<byte>, pos: nat, chunk: seq<byte>)
    requires pos + |chunk| <= buffer.Length
    modifies buffer
    ensures buffer[..pos + |chunk|] == old(buffer[..pos]) + chunk
    ensures buffer[pos + |chunk|..] == old(buffer[pos + |chunk|..])
  {
    ghost var done := buffer[..pos];
    forall j | 0 <= j < |chunk| {
      buffer[pos + j] := chunk[j];
    }
    assert buffer[..pos + |chunk|] == done + chunk;
  }

  // ---------------------------------------------------------------------
  // uploadPart

  /** What the destination answered for one request, after `JSON.parse`. */
  datatype Reply =
    | Continue(nextStart: Option<int>)   // `error == 'uploding'`, with the `next_start` it names
    | Final(body: string)                 // any other reply; the raw body goes to the caller
    | Failed(error: string)               // the request emitted `error`

  /** How one call of the engine ends. */
  datatype Outcome =
    | Pending                  // still waiting for a reply the given replies do not contain
    | Response(body: string)   // `callback(null, response)`
    | Error(error: string)     // `callback(error)`
    | Crash(error: string)     // an exception escapes; the callback is never called

  /**
   * One request to the destination, given by what `uploadPart` builds it
   * from: the upload URL, the upload options at the call (`fields.start`
   * already set), the file name, the offset and the file slice. The member
   * functions derive what goes on the wire.
   */
  datatype Request = Request(url: ParsedUri, uploadOptions: Dict, fileName: string, start: int, chunk: seq<byte>)
  {
    /** `getMultipartForm(fields, fileId, fileName, fileContentType)`, as bytes. */
    function Form(): seq<byte> {
      Utf8(MultipartForm(Get(uploadOptions, "fields"), ToString(Get(uploadOptions, "fileId")), fileName,
                         ToString(Get(uploadOptions, "fileContentType"))))
    }

    /** `form.length + fileSize + MULTIPART_END.length`. */
    function ContentLength(): int {
      |Form()| + |chunk| + |MultipartEnd|
    }

    /** `utils.getProtocol(uploadUrl)`. */
    function Protocol(): Transport {
      GetProtocol(url)
    }

    /** The options handed to `request`: POST, the URL parts, the headers and `uploadAgent`. */
    function Options(): RequestOptions {
      GetRequestOptions("POST", url, UploadHeaders(ContentLength(), Get(uploadOptions, "uploadHeaders")),
                        Get(uploadOptions, "uploadAgent"))
    }

    /** The writes of the `connect` handler in their order: header, file slice, close delimiter. */
    function Writes(): seq<seq<byte>> {
      [Form(), chunk, Utf8(MultipartEnd)]
    }
  }


  /** The requests of a resumable send, how it ends, and the final state of the shared `fields` object. */
  datatype Upload = Upload(requests: seq<Request>, outcome: Outcome, fields: Value)

  /** `start || 0`. */
  function StartOffset(start: Option<int>): int {
    match start
    case None => 0
    case Some(n) => n
  }

  /** How `Buffer.prototype.slice` resolves an index: negative counts from the end, then clamped. */
  function SliceIndex(i: int, length: nat): (r: nat)
    ensures r <= length
  {
    if i < 0 then (if length + i < 0 then 0 else length + i)
    else if i > length then length
    else i
  }

  /** `data.slice(begin, end)`. */
  function Slice(data: seq<byte>, begin: int, end: int): seq<byte> {
    var lo := SliceIndex(begin, |data|);
    var hi := SliceIndex(end, |data|);
    if lo < hi then data[lo..hi] else []
  }

  /** `fileData.slice(start, start + partLength)`. */
  function Chunk(data: seq<byte>, start: int): seq<byte> {
    Slice(data, start, start + PartLength)
  }

  function Min(a: int, b: int): int {
    if a < b then a else b
  }

  /** From a non-negative offset the chunk is the next (at most) 1 MiB of the file, empty past its end. */
  lemma ChunkBounds(data: seq<byte>, start: int)
    requires 0 <= start
    ensures Min(start, |data|) <= Min(start + PartLength, |data|)
    ensures Chunk(data, start) == data[Min(start, |data|)..Min(start + PartLength, |data|)]
    ensures |Chunk(data, start)| <= PartLength
    ensures start >= |data| ==> Chunk(data, start) == []
  {
  }

  /** `uploadOptions.fields.start = start`: objects gain or update `start`, other values ignore it. */
  function SetStart(fields: Value, start: int): Value {
    match fields
    case Obj(props) => Obj(Put(props, "start", Num(start)))
    case _ => fields
  }

  /** Setting `start` twice leaves only the second value. */
  lemma SetStartTwice(fields: Value, a: int, b: int)
    ensures SetStart(SetStart(fields, a), b) == SetStart(fields, b)
  {
    if fields.Obj? {
      PutPut(fields.props, "start", Num(a), Num(b));
    }
  }

  /**
   * On an object, `start` now holds the offset and every other field keeps
   * its value and its place; a new `start` comes last.
   */
  lemma SetStartKeepsOtherFields(fields: Value, start: int, k: string)
    requires fields.Obj?
    ensures Get(SetStart(fields, start).props, k) == if k == "start" then Num(start) else Get(fields.props, k)
    ensures Keys(SetStart(fields, start).props)
      == if HasKey(fields.props, "start") then Keys(fields.props) else Keys(fields.props) + ["start"]
  {
    GetPut(fields.props, "start", Num(start), k);
    KeysPut(fields.props, "start", Num(start));
  }

  /**
   * The multipart header of a chunk is the parts of the other fields, in
   * their order, with a `start` part holding the offset in the place of the
   * old one (or after them all), then the file-part header.
   */
  lemma StartPartInForm(fields: Value, start: int, fileFieldName: string, fileName: string, contentType: string)
    returns (before: Dict, after: Dict)
    requires fields.Obj?
    ensures MultipartForm(SetStart(fields, start), fileFieldName, fileName, contentType)
      == FieldParts(before) + FieldPart("start", IntToString(start)) + FieldParts(after)
         + FileHeader(fileFieldName, fileName, contentType)
    ensures !HasKey(fields.props, "start") ==> before == fields.props && after == []
    ensures HasKey(fields.props, "start") ==> fields.props == before + [("start", Get(fields.props, "start"))] + after
  {
    var props := Put(fields.props, "start", Num(start));
    before, after := FieldPartsPut(fields.props, "start", Num(start));
    assert SetStart(fields, start) == Obj(props);
  }

  /** The media type of every upload request, naming the boundary. */
  const FormDataType: string := "multipart/form-data; boundary=" + Boundary

  /** The two headers every upload request starts with. */
  function DefaultHeaders(contentLength: int): Dict {
    [("Content-Length", Num(contentLength)), ("Content-Type", Str(FormDataType))]
  }

  /** The defaults read back as written. */
  lemma DefaultHeadersLookup(contentLength: int)
    ensures Get(DefaultHeaders(contentLength), "Content-Length") == Num(contentLength)
    ensures Get(DefaultHeaders(contentLength), "Content-Type") == Str(FormDataType)
  {
    assert |"Content-Length"| != |"Content-Type"|;
  }

  /** The defaults, then every caller header copied over them when `uploadHeaders` is truthy. */
  function UploadHeaders(contentLength: int, custom: Value): Dict {
    if Truthy(custom) then PutAll(DefaultHeaders(contentLength), Enumerate(custom)) else DefaultHeaders(contentLength)
  }

  /** The header object of `uploadPart`, filled by its copy loop. */
  method BuildHeaders(contentLength: int, custom: Value) returns (headers: Dict)
    ensures headers == UploadHeaders(contentLength, custom)
  {
    headers := [("Content-Length", Num(contentLength)), ("Content-Type", Str(FormDataType))];
    if Truthy(custom) {
      var entries := Enumerate(custom);
      for i := 0 to |entries|
        invariant headers == PutAll(DefaultHeaders(contentLength), entries[..i])
      {
        headers := Put(headers, entries[i].0, entries[i].1);
        assert entries[..i + 1][..i] == entries[..i];
      }
      assert entries[..|entries|] == entries;
    }
  }

  /**
   * A caller header wins over the default of the same name (`Content-Length`
   * and `Content-Type` included); every default the caller does not name is kept.
   */
  lemma UploadHeadersLookup(contentLength: int, custom: Value, k: string)
    requires DistinctKeys(Enumerate(custom))
    ensures Get(UploadHeaders(contentLength, custom), k)
      == if Truthy(custom) && HasKey(Enumerate(custom), k) then Get(Enumerate(custom), k)
         else Get(DefaultHeaders(contentLength), k)
  {
    if Truthy(custom) {
      GetPutAll(DefaultHeaders(contentLength), Enumerate(custom), k);
    }
  }

  /** The request `uploadPart` sends for one offset, `uploadOptions.fields.start` already set. */
  function PartRequest(url: ParsedUri, uploadOptions: Dict, fileName: string, data: seq<byte>, start: int): Request {
    Request(url, uploadOptions, fileName, start, Chunk(data, start))
  }

  /** The message of the TypeError thrown by `undefined.start = ...` or `null.start = ...`. */
  function SetStartError(fields: Value): string {
    "TypeError: Cannot set property 'start' of " + ToString(fields)
  }

  /** `fields` can take a `start` property: it is neither `undefined` nor `null`. */
  predicate HasFields(uploadOptions: Dict) {
    var fields := Get(uploadOptions, "fields");
    !fields.Undefined? && !fields.Null?
  }

  /** The upload options once `uploadOptions.fields.start = offset` has run. */
  function OptionsAt(uploadOptions: Dict, offset: int): Dict {
    Put(uploadOptions, "fields", SetStart(Get(uploadOptions, "fields"), offset))
  }

  /** One `uploadPart` call: the upload options once `fields.start` is set, and the offset. */
  datatype Part = Part(options: Dict, offset: int)

  /** The calls of one resumable send, how it ends, and the `fields` object it leaves behind. */
  datatype Schedule = Schedule(parts: seq<Part>, outcome: Outcome, fields: Value)

  /**
   * The resumable send as a recursion over the server's replies: each call
   * sets `fields.start`, and a `Continue` reply makes exactly one further
   * call, at the offset the server names.
   */
  function Plan(uploadOptions: Dict, replies: seq<Reply>, start: Option<int>): Schedule
    decreases |replies|
  {
    var offset := StartOffset(start);
    var fields := Get(uploadOptions, "fields");
    if fields.Undefined? || fields.Null? then Schedule([], Crash(SetStartError(fields)), fields)
    else
      var part := Part(OptionsAt(uploadOptions, offset), offset);
      if replies == [] then Schedule([part], Pending, SetStart(fields, offset))
      else
        match replies[0]
        case Continue(next) =>
          var rest := Plan(part.options, replies[1..], next);
          Schedule([part] + rest.parts, rest.outcome, rest.fields)
        case Final(body) => Schedule([part], Response(body), SetStart(fields, offset))
        case Failed(error) => Schedule([part], Error(error), SetStart(fields, offset))
  }

  /** The request of every call, in order, each with the same file data. */
  function Requests(url: ParsedUri, fileName: string, data: seq<byte>, parts: seq<Part>): (rs: seq<Request>)
    ensures |rs| == |parts|
    ensures forall i :: 0 <= i < |parts| ==> rs[i] == PartRequest(url, parts[i].options, fileName, data, parts[i].offset)
  {
    if parts == [] then []
    else [PartRequest(url, parts[0].options, fileName, data, parts[0].offset)] + Requests(url, fileName, data, parts[1..])
  }

  /**
   * The whole send as `uploadPart` runs it: each call builds and sends its
   * request, and a `Continue` reply makes exactly one further call, at the
   * offset the server names, with the same file data.
   */
  function Transfer(url: ParsedUri, uploadOptions: Dict, fileName: string, data: seq<byte>,
                    replies: seq<Reply>, start: Option<int>): Upload
    decreases |replies|
  {
    var offset := StartOffset(start);
    var fields := Get(uploadOptions, "fields");
    if fields.Undefined? || fields.Null? then Upload([], Crash(SetStartError(fields)), fields)
    else
      var options := OptionsAt(uploadOptions, offset);
      var request := PartRequest(url, options, fileName, data, offset);
      if replies == [] then Upload([request], Pending, SetStart(fields, offset))
      else
        match replies[0]
        case Continue(next) =>
          var rest := Transfer(url, options, fileName, data, replies[1..], next);
          Upload([request] + rest.requests, rest.outcome, rest.fields)
        case Final(body) => Upload([request], Response(body), SetStart(fields, offset))
        case Failed(error) => Upload([request], Error(error), SetStart(fields, offset))
  }

  /** The send makes the requests of the planned calls and ends as planned. */
  lemma {:induction false} TransferFollowsPlan(url: ParsedUri, uploadOptions: Dict, fileName: string, data: seq<byte>,
                                               replies: seq<Reply>, start: Option<int>)
    ensures var plan := Plan(uploadOptions, replies, start);
      Transfer(url, uploadOptions, fileName, data, replies, start)
        == Upload(Requests(url, fileName, data, plan.parts), plan.outcome, plan.fields)
    decreases |replies|
  {
    var offset := StartOffset(start);
    var options := OptionsAt(uploadOptions, offset);
    if HasFields(uploadOptions) && replies != [] && replies[0].Continue? {
      var next := replies[0].nextStart;
      var part := Part(options, offset);
      var rest := Plan(options, replies[1..], next);
      TransferFollowsPlan(url, options, fileName, data, replies[1..], next);
      assert Plan(uploadOptions, replies, start) == Schedule([part] + rest.parts, rest.outcome, rest.fields);
      assert ([part] + rest.parts)[1..] == rest.parts;
    }
  }

  /**
   * The body of one `uploadPart` call once `fields.start` is set: the form,
   * the slice, `Content-Length`, the transport, the headers and the request
   * options, and the three writes in the order the `connect` handler makes them.
   */
  method SendPart(uploadUrl: ParsedUri, options: Dict, fileName: string, fileData: seq<byte>, offset: int)
    returns (request: Request, transport: Transport, requestOptions: RequestOptions, writes: seq<seq<byte>>)
    ensures request == PartRequest(uploadUrl, options, fileName, fileData, offset)
    ensures transport == request.Protocol() && requestOptions == request.Options() && writes == request.Writes()
  {
    var form := GetMultipartForm(Get(options, "fields"), ToString(Get(options, "fileId")), fileName,
                                 ToString(Get(options, "fileContentType")));
    var chunk := Slice(fileData, offset, offset + PartLength);
    var contentLength := |form| + |chunk| + |MultipartEnd|;
    transport := GetProtocol(uploadUrl);
    var headers := BuildHeaders(contentLength, Get(options, "uploadHeaders"));
    requestOptions := GetRequestOptions("POST", uploadUrl, headers, Get(options, "uploadAgent"));
    writes := [form, chunk, Utf8(MultipartEnd)];
    request := Request(uploadUrl, options, fileName, offset, chunk);
  }

  /**
   * `uploadPart`: set `fields.start`, send one chunk, and on an `'uploding'`
   * reply call itself again at the offset the server names. Reply `0`
   * answers this call's request; the rest answer the later calls.
   */
  method UploadPart(uploadUrl: ParsedUri, uploadOptions: Dict, fileName: string, fileData: seq<byte>,
                    replies: seq<Reply>, start: Option<int>)
    returns (requests: seq<Request>, outcome: Outcome, fields: Value)
    ensures Upload(requests, outcome, fields) == Transfer(uploadUrl, uploadOptions, fileName, fileData, replies, start)
    decreases |replies|
  {
    var offset := StartOffset(start);
    fields := Get(uploadOptions, "fields");
    if fields.Undefined? || fields.Null? {
      requests, outcome := [], Crash(SetStartError(fields));
      return;
    }
    fields := SetStart(fields, offset);
    var options := Put(uploadOptions, "fields", fields);
    var request, transport, requestOptions, writes := SendPart(uploadUrl, options, fileName, fileData, offset);
    if replies == [] {
      requests, outcome := [request], Pending;
      return;
    }
    match replies[0]
    case Continue(next) =>
      var later;
      later, outcome, fields := UploadPart(uploadUrl, options, fileName, fileData, replies[1..], next);
      requests := [request] + later;
    case Final(body) =>
      requests, outcome := [request], Response(body);
    case Failed(error) =>
      requests, outcome := [request], Error(error);
  }

  // ---------------------------------------------------------------------
  // Properties of one request

  /**
   * The declared `Content-Length` is exactly the number of bytes written:
   * the encoded form, the file slice and the close delimiter, in that order.
   * From a non-negative offset the slice is the next (at most) 1 MiB of the file.
   */
  lemma ContentLengthIsBodyLength(url: ParsedUri, uploadOptions: Dict, fileName: string, data: seq<byte>, start: int)
    ensures var r := PartRequest(url, uploadOptions, fileName, data, start);
      r.ContentLength() == |Concat(r.Writes())| && r.start == start && r.Protocol() == GetProtocol(url)
    ensures var r := PartRequest(url, uploadOptions, fileName, data, start);
      Concat(r.Writes()) == r.Form() + r.chunk + Utf8(MultipartEnd) && |r.Writes()[2]| == 29
      && Utf8(DelimiterLine) <= r.Form()
    ensures var r := PartRequest(url, uploadOptions, fileName, data, start);
      0 <= start ==> r.chunk == data[Min(start, |data|)..Min(start + PartLength, |data|)] && |r.chunk| <= PartLength
  {
    var r := PartRequest(url, uploadOptions, fileName, data, start);
    var ws := r.Writes();
    assert ws[..2][..1] == [r.Form()] && ws[..2] == [r.Form(), r.chunk];
    assert Concat([r.Form()]) == r.Form() by { assert [r.Form()][..0] == []; }
    MultipartEndIsCloseDelimiter();
    var text := MultipartForm(Get(uploadOptions, "fields"), ToString(Get(uploadOptions, "fileId")),
                              fileName, ToString(Get(uploadOptions, "fileContentType")));
    FormStartsWithDelimiter(Get(uploadOptions, "fields"), ToString(Get(uploadOptions, "fileId")),
                            fileName, ToString(Get(uploadOptions, "fileContentType")));
    Utf8Append(DelimiterLine, text[|DelimiterLine|..]);
    assert text == DelimiterLine + text[|DelimiterLine|..];
    if 0 <= start {
      ChunkBounds(data, start);
    }
  }

  /**
   * A caller header in `uploadHeaders` replaces the default of the same name;
   * otherwise `Content-Length` is the computed length and `Content-Type`
   * names the boundary.
   */
  lemma UploadHeadersDefaults(url: ParsedUri, uploadOptions: Dict, fileName: string, data: seq<byte>, start: int)
    requires DistinctKeys(Enumerate(Get(uploadOptions, "uploadHeaders")))
    ensures var r := PartRequest(url, uploadOptions, fileName, data, start);
      var custom := Get(uploadOptions, "uploadHeaders");
      var overrides := Truthy(custom) && HasKey(Enumerate(custom), "Content-Length");
      Get(r.Options().headers, "Content-Length")
        == if overrides then Get(Enumerate(custom), "Content-Length") else Num(r.ContentLength())
    ensures var r := PartRequest(url, uploadOptions, fileName, data, start);
      var custom := Get(uploadOptions, "uploadHeaders");
      var overrides := Truthy(custom) && HasKey(Enumerate(custom), "Content-Type");
      Get(r.Options().headers, "Content-Type")
        == if overrides then Get(Enumerate(custom), "Content-Type") else Str(FormDataType)
  {
    var r := PartRequest(url, uploadOptions, fileName, data, start);
    var custom := Get(uploadOptions, "uploadHeaders");
    UploadHeadersLookup(r.ContentLength(), custom, "Content-Length");
    UploadHeadersLookup(r.ContentLength(), custom, "Content-Type");
    DefaultHeadersLookup(r.ContentLength());
  }

  /**
   * After `fields.start = offset` on an object, the form of the request has
   * the parts of the other fields, a `start` part with the offset in decimal,
   * and the file-part header with the file field name and content type of the
   * options.
   */
  lemma RequestCarriesStart(url: ParsedUri, uploadOptions: Dict, fileName: string, data: seq<byte>, offset: int)
    returns (before: Dict, after: Dict)
    requires Get(uploadOptions, "fields").Obj?
    ensures PartRequest(url, OptionsAt(uploadOptions, offset), fileName, data, offset).Form()
      == Utf8(FieldParts(before) + FieldPart("start", IntToString(offset)) + FieldParts(after)
              + FileHeader(ToString(Get(uploadOptions, "fileId")), fileName, ToString(Get(uploadOptions, "fileContentType"))))
    ensures var props := Get(uploadOptions, "fields").props;
      !HasKey(props, "start") ==> before == props && after == []
    ensures var props := Get(uploadOptions, "fields").props;
      HasKey(props, "start") ==> props == before + [("start", Get(props, "start"))] + after
  {
    var fields := Get(uploadOptions, "fields");
    var options := OptionsAt(uploadOptions, offset);
    GetPut(uploadOptions, "fields", SetStart(fields, offset), "fields");
    GetPut(uploadOptions, "fields", SetStart(fields, offset), "fileId");
    GetPut(uploadOptions, "fields", SetStart(fields, offset), "fileContentType");
    before, after := StartPartInForm(fields, offset, ToString(Get(uploadOptions, "fileId")), fileName,
                                     ToString(Get(uploadOptions, "fileContentType")));
  }

  // ---------------------------------------------------------------------
  // Properties of the resumable send

  /** The number of `'uploding'` replies before the first other one. */
  function LeadingContinues(replies: seq<Reply>): (n: nat)
    ensures n <= |replies|
    ensures forall j :: 0 <= j < n ==> replies[j].Continue?
    ensures n < |replies| ==> !replies[n].Continue?
  {
    if replies == [] || !replies[0].Continue? then 0
    else
      var n := 1 + LeadingContinues(replies[1..]);
      assert forall j :: 1 <= j < n ==> replies[j] == replies[1..][j - 1];
      n
  }

  /** The offset of call `i`: the caller's `start` for the first, then the `next_start` of the reply before. */
  function CallOffset(start: Option<int>, replies: seq<Reply>, i: nat): int
    requires i <= LeadingContinues(replies)
  {
    if i == 0 then StartOffset(start) else StartOffset(replies[i - 1].nextStart)
  }

  /**
   * One call per leading `'uploding'` reply, plus one: each such reply makes
   * exactly one further call, and any other reply, or none, ends the send.
   * Call `i` is made at its own offset (the caller's `start` first, then the
   * `next_start` of each reply) with every other option as the caller gave it.
   */
  lemma {:induction false} PlanCalls(uploadOptions: Dict, replies: seq<Reply>, start: Option<int>)
    requires HasFields(uploadOptions)
    ensures var parts := Plan(uploadOptions, replies, start).parts;
      |parts| == LeadingContinues(replies) + 1
      && forall i :: 0 <= i < |parts| ==>
           parts[i] == Part(OptionsAt(uploadOptions, CallOffset(start, replies, i)), CallOffset(start, replies, i))
    decreases |replies|
  {
    var fields := Get(uploadOptions, "fields");
    var offset := StartOffset(start);
    var options := OptionsAt(uploadOptions, offset);
    if replies != [] && replies[0].Continue? {
      var next := replies[0].nextStart;
      var parts := Plan(uploadOptions, replies, start).parts;
      var rest := Plan(options, replies[1..], next).parts;
      assert parts == [Part(options, offset)] + rest;
      GetPut(uploadOptions, "fields", SetStart(fields, offset), "fields");
      PlanCalls(options, replies[1..], next);
      forall i | 1 <= i < |parts|
        ensures parts[i] == Part(OptionsAt(uploadOptions, CallOffset(start, replies, i)), CallOffset(start, replies, i))
      {
        CallOffsetShift(start, replies, i);
        OptionsAtTwice(uploadOptions, offset, CallOffset(start, replies, i));
        assert parts[i] == rest[i - 1];
      }
    }
  }

  /**
   * The first reply other than `'uploding'` decides the outcome (with none,
   * the send is still waiting), and `fields` ends holding the offset of the
   * last call.
   */
  lemma {:induction false} PlanEnd(uploadOptions: Dict, replies: seq<Reply>, start: Option<int>)
    requires HasFields(uploadOptions)
    ensures var plan := Plan(uploadOptions, replies, start);
      plan.fields == SetStart(Get(uploadOptions, "fields"), CallOffset(start, replies, LeadingContinues(replies)))
    ensures var plan := Plan(uploadOptions, replies, start);
      var n := LeadingContinues(replies);
      if n == |replies| then plan.outcome == Pending
      else if replies[n].Final? then plan.outcome == Response(replies[n].body)
      else plan.outcome == Error(replies[n].error)
    decreases |replies|
  {
    var fields := Get(uploadOptions, "fields");
    var offset := StartOffset(start);
    var options := OptionsAt(uploadOptions, offset);
    if replies != [] && replies[0].Continue? {
      var next := replies[0].nextStart;
      var n := LeadingContinues(replies[1..]);
      GetPut(uploadOptions, "fields", SetStart(fields, offset), "fields");
      PlanEnd(options, replies[1..], next);
      CallOffsetShift(start, replies, n + 1);
      SetStartTwice(fields, offset, CallOffset(start, replies, n + 1));
      if n < |replies[1..]| {
        assert replies[1..][n] == replies[n + 1];
      }
    }
  }

  /** Without a `fields` object the first `fields.start = ...` throws: nothing is sent. */
  lemma MissingFieldsCrash(url: ParsedUri, uploadOptions: Dict, fileName: string, data: seq<byte>,
                           replies: seq<Reply>, start: Option<int>)
    requires !HasFields(uploadOptions)
    ensures var u := Transfer(url, uploadOptions, fileName, data, replies, start);
      u.requests == [] && u.outcome == Crash(SetStartError(Get(uploadOptions, "fields")))
  {
  }

  /**
   * The requests of the send in closed form: request `i` is the request of
   * `uploadPart` for offset `CallOffset(start, replies, i)`.
   */
  lemma TransferRequests(url: ParsedUri, uploadOptions: Dict, fileName: string, data: seq<byte>,
                         replies: seq<Reply>, start: Option<int>)
    requires HasFields(uploadOptions)
    ensures var u := Transfer(url, uploadOptions, fileName, data, replies, start);
      |u.requests| == LeadingContinues(replies) + 1
      && forall i :: 0 <= i < |u.requests| ==>
           u.requests[i] == PartRequest(url, OptionsAt(uploadOptions, CallOffset(start, replies, i)), fileName, data,
                                        CallOffset(start, replies, i))
  {
    TransferFollowsPlan(url, uploadOptions, fileName, data, replies, start);
    PlanCalls(uploadOptions, replies, start);
  }

  /** Setting `fields.start` twice is setting it once, to the second offset. */
  lemma OptionsAtTwice(uploadOptions: Dict, a: int, b: int)
    ensures OptionsAt(OptionsAt(uploadOptions, a), b) == OptionsAt(uploadOptions, b)
  {
    var fields := Get(uploadOptions, "fields");
    GetPut(uploadOptions, "fields", SetStart(fields, a), "fields");
    SetStartTwice(fields, a, b);
    PutPut(uploadOptions, "fields", SetStart(fields, a), SetStart(fields, b));
  }

  /** After one `'uploding'` reply, the offsets of the later calls are those of the remaining replies. */
  lemma CallOffsetShift(start: Option<int>, replies: seq<Reply>, i: nat)
    requires replies != [] && replies[0].Continue? && 1 <= i <= LeadingContinues(replies)
    ensures i - 1 <= LeadingContinues(replies[1..])
    ensures CallOffset(start, replies, i) == CallOffset(replies[0].nextStart, replies[1..], i - 1)
  {
    if i > 1 {
      assert replies[1..][i - 2] == replies[i - 1];
    }
  }

  // ---------------------------------------------------------------------
  // A server that walks through the file

  /**
   * The replies of a server that asks for the next 1 MiB after each of the
   * first `k - 1` chunks and then answers with `body`.
   */
  function SequentialReplies(k: nat, body: string): seq<Reply> {
    seq(k, i => if i + 1 < k then Continue(Some((i + 1) * PartLength)) else Final(body))
  }

  /** The file slices the requests carry, in order. */
  function SentChunks(requests: seq<Request>): seq<seq<byte>> {
    seq(|requests|, i requires 0 <= i < |requests| => requests[i].chunk)
  }

  /** `n` `'uploding'` replies followed by another reply, or by none, are counted as `n`. */
  lemma {:induction false} LeadingContinuesExactly(replies: seq<Reply>, n: nat)
    requires n <= |replies|
    requires forall j :: 0 <= j < n ==> replies[j].Continue?
    requires n < |replies| ==> !replies[n].Continue?
    ensures LeadingContinues(replies) == n
    decreases n
  {
    if n > 0 {
      assert forall j :: 0 <= j < n - 1 ==> replies[1..][j] == replies[j + 1];
      if n < |replies| {
        assert replies[1..][n - 1] == replies[n];
      }
      LeadingContinuesExactly(replies[1..], n - 1);
    }
  }

  /** The chunk at offset `o` continues the file prefix that ends at `o`. */
  lemma ChunkExtends(data: seq<byte>, o: nat)
    ensures data[..Min(o, |data|)] + Chunk(data, o) == data[..Min(o + PartLength, |data|)]
  {
    ChunkBounds(data, o);
    var a, b := Min(o, |data|), Min(o + PartLength, |data|);
    assert data[..a] + data[a..b] == data[..b];
  }

  /** The first `m` chunks at the multiples of 1 MiB lay out the first `m` MiB of the file. */
  lemma {:induction false} ChunksCover(data: seq<byte>, m: nat)
    ensures Concat(seq(m, i => Chunk(data, i * PartLength))) == data[..Min(m * PartLength, |data|)]
  {
    var s := seq(m, i => Chunk(data, i * PartLength));
    if m > 0 {
      var o := (m - 1) * PartLength;
      assert 0 <= o && m * PartLength == o + PartLength;
      assert s[..m - 1] == seq(m - 1, i => Chunk(data, i * PartLength));
      assert s[m - 1] == Chunk(data, o);
      ChunksCover(data, m - 1);
      ChunkExtends(data, o);
    }
  }

  /**
   * If the server asks for the next 1 MiB multiple until the last chunk, the
   * send makes `k` calls at offsets 0, 1 MiB, 2 MiB, ..., their slices laid
   * end to end are the whole file, and the final reply reaches the caller.
   */
  lemma SequentialSendCoversFile(url: ParsedUri, uploadOptions: Dict, fileName: string, data: seq<byte>,
                                 k: nat, body: string)
    requires HasFields(uploadOptions)
    requires 1 <= k && |data| <= k * PartLength
    ensures var u := Transfer(url, uploadOptions, fileName, data, SequentialReplies(k, body), None);
      |u.requests| == k
      && (forall i :: 0 <= i < k ==> u.requests[i].start == i * PartLength)
      && Concat(SentChunks(u.requests)) == data
      && u.outcome == Response(body)
  {
    var replies := SequentialReplies(k, body);
    SequentialOutcome(url, uploadOptions, fileName, data, k, body);
    SequentialRequests(url, uploadOptions, fileName, data, k, body);
    var u := Transfer(url, uploadOptions, fileName, data, replies, None);
    var sent := SentChunks(u.requests);
    var laid := seq(k, i => Chunk(data, i * PartLength));
    assert forall i :: 0 <= i < k ==> sent[i] == laid[i];
    assert sent == laid;
    ChunksCover(data, k);
    assert Min(k * PartLength, |data|) == |data|;
  }

  /** Under the walking server request `i` is at `i` MiB and carries the chunk there. */
  lemma SequentialRequests(url: ParsedUri, uploadOptions: Dict, fileName: string, data: seq<byte>, k: nat, body: string)
    requires HasFields(uploadOptions)
    requires 1 <= k
    ensures var u := Transfer(url, uploadOptions, fileName, data, SequentialReplies(k, body), None);
      |u.requests| == k
      && forall i :: 0 <= i < k ==> u.requests[i].start == i * PartLength && u.requests[i].chunk == Chunk(data, i * PartLength)
  {
    var replies := SequentialReplies(k, body);
    TransferRequests(url, uploadOptions, fileName, data, replies, None);
    SequentialOffsets(k, body, 0);
    forall i | 0 <= i < k
      ensures CallOffset(None, replies, i) == i * PartLength
    {
      SequentialOffsets(k, body, i);
    }
  }

  /** Under the walking server call `i` is made at `i` MiB. */
  lemma SequentialOffsets(k: nat, body: string, i: nat)
    requires 1 <= k && i < k
    ensures LeadingContinues(SequentialReplies(k, body)) == k - 1
    ensures CallOffset(None, SequentialReplies(k, body), i) == i * PartLength
  {
    var replies := SequentialReplies(k, body);
    LeadingContinuesExactly(replies, k - 1);
    if i > 0 {
      assert replies[i - 1] == Continue(Some(i * PartLength));
    }
  }

  /** Under the walking server the last reply reaches the caller. */
  lemma SequentialOutcome(url: ParsedUri, uploadOptions: Dict, fileName: string, data: seq<byte>, k: nat, body: string)
    requires HasFields(uploadOptions)
    requires 1 <= k
    ensures Transfer(url, uploadOptions, fileName, data, SequentialReplies(k, body), None).outcome == Response(body)
  {
    var replies := SequentialReplies(k, body);
    TransferFollowsPlan(url, uploadOptions, fileName, data, replies, None);
    LeadingContinuesExactly(replies, k - 1);
    PlanEnd(uploadOptions, replies, None);
    assert replies[k - 1] == Final(body);
  }

  /**
   * A 2.5 MiB file against a server that ends after the third chunk: three
   * requests, at 0, 1048576 and 2097152, carrying 1 MiB, 1 MiB and 0.5 MiB.
   */
  lemma TwoAndAHalfMiB(url: ParsedUri, uploadOptions: Dict, fileName: string, data: seq<byte>, body: string)
    requires HasFields(uploadOptions)
    requires |data| == 2621440
    ensures var u := Transfer(url, uploadOptions, fileName, data,
                              [Continue(Some(1048576)), Continue(Some(2097152)), Final(body)], None);
      |u.requests| == 3
      && u.requests[0].start == 0 && u.requests[1].start == 1048576 && u.requests[2].start == 2097152
      && |u.requests[0].chunk| == 1048576 && |u.requests[1].chunk| == 1048576 && |u.requests[2].chunk| == 524288
      && u.outcome == Response(body)
  {
    var replies := SequentialReplies(3, body);
    assert replies == [Continue(Some(1048576)), Continue(Some(2097152)), Final(body)];
    SequentialRequests(url, uploadOptions, fileName, data, 3, body);
    SequentialOutcome(url, uploadOptions, fileName, data, 3, body);
    ChunkBounds(data, 0);
    ChunkBounds(data, 1048576);
    ChunkBounds(data, 2097152);
  }
}
