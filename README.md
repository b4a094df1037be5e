# poster: the upload engine in Dafny

This project models the upload engine of the `poster` Node.js package and proves properties of that model. The engine is `lib/utils.js` plus `lib/poster.js`. It takes a local file and sends it to an HTTP(S) upload endpoint as a series of multipart/form-data POST requests, each carrying at most 1 MiB of the file between the multipart header and the 29-byte close delimiter. The destination server drives the series: a reply with `error == 'uploding'` asks for another chunk at the offset it names in `next_start`.

The Dafny modules follow the structure of the code:

| module | file | what it holds |
|---|---|---|
| `Wrappers` | `wrappers.dfy` | `Option` |
| `Decimal` | `decimal.dfy` | decimal text of integers, as `'' + n` produces it |
| `JsValue` | `values.dfy` | the JavaScript values the engine handles. Objects are insertion-ordered dictionaries (`o[k]`, `o[k] = v`, `for (k in o)`). This file also has truthiness, `typeof`, string and number conversion. |
| `Bytes` | `bytes.dfy` | bytes, the UTF-8 encoding `new Buffer(string)` applies, and chunk concatenation |
| `Utils` | `utils.dfy` | `lib/utils.js`: the boundary, `getProtocol`, `getRequestOptions`, `parseUri`, `getMultipartForm`, `validateFileSize`, `sanitizeFileName` |
| `Poster` | `poster.dfy` | `MULTIPART_END`, `streamHandler` (its `switch` on the chunk count and the `chunk.copy` loop into `new Buffer(size)`), and `uploadPart` with its continuation protocol |
| `PostEntry` | `post.dfy` | `post` together with `upload`: the argument checks, the defaults merge, the sharing of `agent`/`headers`, the file-system steps, the file-name choice and the size check |

How the outside world enters the model:
- Everything the engine receives from outside is an input.
  - `url.parse` is a function parameter.
  - The file system is a record of three answers: whether `fs.exists` finds the path, what `fs.stat` delivers, and the chunks the read stream emits.
  - The destination server is a finite sequence of parsed replies: `Continue(next_start)`, `Final(body)`, or `Failed(error)` when the request emits `error`.
- When the replies run out, the send is `Pending`: it still waits for a reply.
- An exception that nothing catches is the outcome `Crash`. This covers a throw in `post` itself and a throw in a callback or listener it started. In that case the callback never runs.

Each request is modelled by what `uploadPart` builds it from. That is the upload URL, the upload options at the call with `fields.start` already set, the file name, the offset and the file slice. Member functions of `Poster.Request` derive what goes on the wire:
- the form bytes;
- `Content-Length`;
- the transport;
- the options handed to `request`;
- the three writes of the `connect` handler.

`Poster.UploadPart` has the shape of the code:
- It is a recursive method that sets `fields.start`.
- It builds and sends one request, through `SendPart`, `GetMultipartForm` and `BuildHeaders`, whose copy loops are `for` loops.
- It calls itself again on a `Continue` reply.

`UploadPart` is proved equal to the function `Poster.Transfer`. `Transfer` is proved equal, in turn, to the request list of the call schedule `Poster.Plan`. The properties of the send are proved on `Plan`: how many calls are made, at which offsets, how the send ends, and what `fields` holds afterwards. `PostEntry.Post` is proved equal to `PostEntry.PostSpec`, and the properties of `post` are proved on `PostSpec`.

Where the package documentation and the code disagree, the model follows the code:
- **`headers` and `agent` skip the upload.** `post` copies `agent` and `headers` into `uploadAgent` and `uploadHeaders` of the caller's `options` (lib/poster.js:163-173). This happens after `uploadOptions` was copied (lib/poster.js:159-161). So they never reach the upload requests: `PostEntry.SharedHeadersNotUsedForUpload`.
- **The options object changes after creation.** `uploadOptions.fields` is the caller's own `fields` object, and every call of `uploadPart` writes `start` into it (lib/poster.js:51). So the caller's options change during the send: `PostEntry.CallerSeesLastStart`.
- **Missing `fields` crashes.** Without `fields`, `uploadOptions.fields.start = start` throws in the read stream's `end` listener (lib/poster.js:23-44), which calls `uploadPart` through `upload` (lib/poster.js:122-123). By then `post` and the `fs.stat` callback have returned. Nothing catches the throw, so nothing is sent and the callback never runs: `PostEntry.PostWithoutFieldsCrashes`.
- **Not every exception is caught.**
  - An upload URL that is truthy but not a string makes `url.parse` throw before the `try` block, so `post` throws (`Crash`).
  - A `uri` that is truthy but not a string throws inside the `try` block, so the callback receives the error.
  - A parsed path that is not a string makes `fs.createReadStream` throw, out of a callback (`Crash`).
- **There are no URL sources.** Every source goes through `fs.exists`, so a URL source fails as a missing file.
- **The file is read from the parsed path.** The read stream is opened on `parseUri(uri).path` (lib/poster.js:119), while `fs.exists` and `fs.stat` use `uri` itself.
- **The `fs.stat` size only decides the size check.** The `fileSize` parameter of `uploadPart` is overwritten by `var fileSize = ...` (lib/poster.js:55), so the size is never used for the send: `PostEntry.StatSizeOnlyLimits`.
- **`sanitizeFileName` is not used by `post`.**

## Model

| member | source | states |
|---|---|---|
| Utils.BoundaryIsLegal | lib/utils.js:4 | The fixed boundary is a legal RFC 2046 boundary (section 5.1.1): 1 to 70 `bchars`, and its last character is not a space. |
| Utils.GetProtocol | lib/utils.js:23-25 | The secure client is chosen exactly when the protocol is `https:`. |
| Utils.GetRequestOptions | lib/utils.js:36-51 | Method, host, path, port and headers are copied. `agent` is set exactly when the given agent is truthy, and then holds it. |
| Utils.ParseUri | lib/utils.js:60-81 | `isValidUrl` holds exactly for `http:` and `https:`. A valid URL takes protocol, hostname, port, path and pathname from `url.parse`. Any other input is kept whole as the path, with no host, protocol, port or pathname. |
| Utils.ValidUrlTransport | lib/utils.js:23-25 | A valid URL goes over https exactly when its scheme is `https:`, and over http exactly when it is `http:`. |
| Utils.ValidateFileSize | lib/utils.js:118-125 | A maximum of 0 or below always accepts. A positive maximum accepts exactly the sizes that do not exceed it. |
| Utils.RemoveUnsafe | lib/utils.js:134-135 | The global replace of the unsafe characters by nothing. Its properties are in RemoveUnsafeCounts, RemoveUnsafeAppend and RemoveUnsafeClean. |
| Utils.SanitizeFileName | lib/utils.js:133-138 | The result is `null` exactly when every character is one of `/ : " * ? < > \|`. Otherwise it is non-empty and free of them. |
| Utils.RemoveUnsafeCounts | lib/utils.js:134-135 | After the replace, no unsafe character is left. Every other character, backslash included, occurs exactly as often as in the input. |
| Utils.RemoveUnsafeAppend | lib/utils.js:134-135 | The replace distributes over concatenation, so the kept characters keep their order. |
| Utils.RemoveUnsafeClean | lib/utils.js:134-135 | A name without unsafe characters is left unchanged by the replace. |
| Utils.SanitizeIdempotent | lib/utils.js:133-138 | Sanitising a non-null result again gives the same result. |
| Utils.SanitizeCleanName | lib/utils.js:133-138 | A non-empty name without unsafe characters comes back unchanged. |
| Utils.MultipartForm | lib/utils.js:92-109 | The form text: the field parts when `fields` is truthy, then the file header. Its properties are in FormStartsWithDelimiter, FormEndsWithFileHeader, FormWithoutFields, FormLength and StartPartInForm. |
| Utils.FieldParts | lib/utils.js:97-101 | One text part per enumerated field, in enumeration order. Its properties are in FieldPartsAppend, FieldPartsStartWithDelimiter, FieldPartsLength and FieldPartsPut. |
| Utils.FieldPart | lib/utils.js:98-100 | One text part: the delimiter line, the `Content-Disposition` line with the field name, a blank line, the value and CRLF. FieldPartVerbatim and FieldPartsLength state its layout and length. |
| Utils.FileHeader | lib/utils.js:104-106 | The file-part header. Its layout is in FileHeaderVerbatim and FileHeaderNotEscaped. |
| Utils.GetMultipartForm | lib/utils.js:92-109 | The loop's text is one part per enumerated field, in order, then the file-part header. The result is its UTF-8 encoding. |
| Utils.FieldPartsAppend | lib/utils.js:97-101 | The parts of two runs of fields are the parts of each, one after the other. |
| Utils.FieldPartsStartWithDelimiter | lib/utils.js:97-98 | A non-empty run of fields starts with the delimiter line `--boundary CRLF`. |
| Utils.FormStartsWithDelimiter | lib/utils.js:93-106 | Whatever the fields are, the form starts with `--boundary CRLF`. |
| Utils.FormEndsWithFileHeader | lib/utils.js:104-106 | The form always ends with the file-part header. The header is the Content-Disposition with `name` and `filename`, then the Content-Type line and a blank line. |
| Utils.FormWithoutFields | lib/utils.js:95-106 | With falsy fields, or an object with no fields, the form is exactly the file-part header. |
| Utils.FieldPartsLength | lib/utils.js:97-101 | Each text part adds 70 characters of framing to the length of its name and value. |
| Utils.FormLength | lib/utils.js:93-106 | The form length is the field parts (70 each, plus names and values), plus 97 for the file header, plus the file field name, file name and content type. |
| Utils.FieldPartVerbatim | lib/utils.js:98-100 | In a text part, the name and the value stand verbatim at fixed offsets. |
| Utils.FileHeaderVerbatim | lib/utils.js:104-106 | In the file header, the field name, the file name and the content type stand verbatim at fixed offsets. |
| Utils.FileHeaderNotEscaped | lib/utils.js:105 | Nothing is escaped. A field name containing `"; filename="` yields the same header as a different field name and file name. |
| Utils.FieldPartsPut | lib/utils.js:97-101 | Assigning one field replaces its part in place. A field that was not there gets its part after all the others. The parts of all other fields stay as they were, in order. |
| Decimal.NatToStringRoundTrip | lib/utils.js:100 | The decimal text of a natural number consists of digits and reads back as that number. |
| Decimal.IntToStringInjective | lib/utils.js:100 | Different numbers give different decimal texts, so a `start` part names one offset. |
| Decimal.IntToString | lib/utils.js:100 | The decimal text `'' + value` gives a whole number, with a leading `-` when negative. NatToStringRoundTrip and IntToStringInjective state its properties. |
| JsValue.GetPut | lib/poster.js:51 | After `o[k] = v`, `o[k]` reads `v` and every other key reads as before. |
| JsValue.PutPut | lib/poster.js:51 | A second assignment to the same key overwrites the first. |
| JsValue.KeysPut | lib/poster.js:51 | An assignment keeps the key order. A new key is appended last. |
| JsValue.PutSplit | lib/poster.js:51 | An assignment changes one entry, and everything before and after it stays. A new key's entry goes after all existing ones. |
| JsValue.PutDistinct | lib/poster.js:159-161 | Assignment keeps the keys of an object distinct. |
| JsValue.GetMissing | lib/poster.js:140 | A key the object does not have reads as `undefined`. |
| JsValue.GetPutAll | lib/poster.js:159-161 | After the copy loop, a key reads as in the source when the source has it, and as in the target otherwise. |
| JsValue.HasKeyPutAll | lib/poster.js:159-161 | After the copy loop, the target has exactly the keys of both objects. |
| JsValue.PutAllDistinct | lib/poster.js:159-161 | The copy loop keeps the target's keys distinct. |
| Bytes.EncodeChar | lib/utils.js:108 | One character encodes to 1 to 4 bytes. ASCII encodes to itself, and any other character starts with a lead byte of 0xC0 or above. |
| Bytes.Utf8 | lib/utils.js:108 | `new Buffer(form)`: the UTF-8 encoding, character by character. Utf8Append and Utf8Ascii state its properties. |
| Bytes.Utf8Append | lib/utils.js:108 | Encoding distributes over concatenation. |
| Bytes.Utf8Ascii | lib/poster.js:58 | An ASCII string encodes to itself, one byte per character, so its `length` is its byte count. |
| Bytes.Concat | lib/poster.js:19-42 | The received chunks laid end to end, in arrival order. ConcatLength, TotalSizePrefix and StreamHandler state its properties. |
| Bytes.TotalSize | lib/poster.js:16-21 | The `size` accumulator: the sum of the chunk lengths. ConcatLength ties it to Concat. |
| Bytes.ConcatLength | lib/poster.js:19-22 | The concatenation of the chunks is as long as the accumulated `size`. |
| Bytes.TotalSizePrefix | lib/poster.js:36-40 | Chunk `i` starts at the running position `pos` and ends where the next position begins. |
| Poster.MultipartEndIsCloseDelimiter | lib/poster.js:5 | `MULTIPART_END` is CRLF, `--`, the boundary, `--`, CRLF (RFC 2046, section 5.1.1). It is ASCII and 29 bytes long. |
| Poster.StreamHandler | lib/poster.js:13-46 | The delivered buffer is the in-order concatenation of the received chunks, and its length is the accumulated `size`. |
| Poster.BufferConcat | lib/poster.js:25-43 | No chunk gives an empty buffer and one chunk is returned as it is. More chunks are copied at running positions, and the result is their concatenation. |
| Poster.CopyChunk | lib/poster.js:38-39 | `chunk.copy(data, pos)` keeps the first `pos` bytes and places the chunk right after them. |
| Poster.Slice | lib/poster.js:55 | `Buffer.prototype.slice`, with both indices resolved by SliceIndex. ChunkBounds gives its closed form. |
| Poster.Chunk | lib/poster.js:55 | `fileData.slice(start, start + partLength)`. Its properties are in ChunkBounds, ChunkExtends and ChunksCover. |
| Poster.SliceIndex | lib/poster.js:55 | A slice index is clamped to the buffer length. |
| Poster.StartOffset | lib/poster.js:49 | `start \|\| 0`: a missing offset is 0, and a given one is kept. PlanCalls states that the first call uses it. |
| Poster.ChunkBounds | lib/poster.js:55 | From an offset of 0 or more, the slice is `data[min(start, n) .. min(start + 1 MiB, n)]`. It is at most 1 MiB, and empty at or past the end. |
| Poster.SetStart | lib/poster.js:51 | `fields.start = start` on an object, and no change otherwise. Its properties are in SetStartTwice and SetStartKeepsOtherFields. |
| Poster.OptionsAt | lib/poster.js:51 | The upload options once `fields.start` holds the offset. OptionsAtTwice and PlanCalls use it. |
| Poster.SetStartTwice | lib/poster.js:51 | Setting `fields.start` twice leaves only the second value. |
| Poster.SetStartKeepsOtherFields | lib/poster.js:51 | `start` holds the offset, and every other field keeps its value and place. A new `start` comes last. |
| Poster.StartPartInForm | lib/poster.js:51-53 | The form after `fields.start = offset` is the other fields' parts in their order, with a `start` part holding the offset, then the file header. The `start` part sits where the old `start` was, or after every other part when `fields` had none. |
| Poster.DefaultHeadersLookup | lib/poster.js:64-67 | The default headers are `Content-Length` with the computed length, and `Content-Type` naming the boundary. |
| Poster.DefaultHeaders | lib/poster.js:64-67 | The header object before the caller's headers: `Content-Length` and `Content-Type`, in that order. DefaultHeadersLookup and UploadHeadersLookup state its lookups. |
| Poster.UploadHeaders | lib/poster.js:64-74 | The defaults with a truthy `uploadHeaders` copied over them. UploadHeadersLookup and UploadHeadersDefaults state its lookups. |
| Poster.BuildHeaders | lib/poster.js:64-74 | The header loop yields the defaults with every caller header copied over them, in enumeration order. |
| Poster.UploadHeadersLookup | lib/poster.js:64-74 | A caller header wins over a default of the same name. Every default the caller does not name is kept. |
| Poster.SendPart | lib/poster.js:53-100 | One call builds the form, slice, length, transport, headers and request options, plus the writes header, slice, `MULTIPART_END` in that order, all as the request describes. |
| Poster.PartRequest | lib/poster.js:53-97 | The request of one call: the upload options with `start` set, the file name, the offset and `fileData.slice(start, start + partLength)`. ContentLengthIsBodyLength, RequestCarriesStart and SendPart state what it sends. |
| Poster.Request.Form | lib/poster.js:53 | `getMultipartForm(fields, fileId, fileName, fileContentType)` as bytes. RequestCarriesStart and ContentLengthIsBodyLength state its content. |
| Poster.Request.ContentLength | lib/poster.js:58 | `form.length + fileSize + MULTIPART_END.length`. ContentLengthIsBodyLength proves it equals the bytes written. |
| Poster.Request.Protocol | lib/poster.js:61 | `utils.getProtocol(uploadUrl)`. ValidUrlTransport states which transport a valid URL gets. |
| Poster.Request.Options | lib/poster.js:64-77 | The request options: POST, the URL parts, the upload headers and `uploadAgent`. PlainUploadRequest and UploadHeadersDefaults state its headers. |
| Poster.Request.Writes | lib/poster.js:95-97 | The three writes of the `connect` handler: form, slice, `MULTIPART_END`. ContentLengthIsBodyLength states their total length. |
| Poster.SetStartError | lib/poster.js:51 | The TypeError of `fields.start = start` when `fields` is `undefined` or `null`. MissingFieldsCrash and PostWithoutFieldsCrashes state when it is raised. |
| Poster.Transfer | lib/poster.js:48-105 | The send as a function of the replies. UploadPart equals it, and TransferFollowsPlan and TransferRequests give its closed form. |
| Poster.Plan | lib/poster.js:48-105 | The schedule of calls and how the send ends. PlanCalls and PlanEnd give its closed form. |
| Poster.UploadPart | lib/poster.js:48-105 | The recursive send makes exactly the requests of `Transfer` and ends with the same outcome and the same `fields` object. |
| Poster.Requests | lib/poster.js:77-90 | The i-th request of the send is the request of the i-th call, each with the same file data. |
| Poster.TransferFollowsPlan | lib/poster.js:48-105 | The send makes the requests of the planned calls, ends as planned, and leaves `fields` as planned. |
| Poster.ContentLengthIsBodyLength | lib/poster.js:53-98 | `Content-Length` equals the bytes written: the form, the slice and the 29-byte close delimiter, in that order. The form opens with `--boundary CRLF`. From an offset of 0 or more, the slice is the next up to 1 MiB of the file. |
| Poster.UploadHeadersDefaults | lib/poster.js:64-74 | `Content-Length` and `Content-Type` are the caller's values when `uploadHeaders` names them. Otherwise they are the computed length and the boundary media type. |
| Poster.RequestCarriesStart | lib/poster.js:51-53 | The form of each call carries a `start` part with its offset in decimal. The other fields keep their order, followed by the header for the file field name and content type. |
| Poster.LeadingContinues | lib/poster.js:84-89 | The count of calls that continue is at most the number of replies. Every reply it covers is `'uploding'`, and the reply right after them, if any, is not. |
| Poster.PlanCalls | lib/poster.js:49-86 | There is one call per leading `'uploding'` reply, plus one. Call `i` uses the caller's `start` (or 0) first, then the `next_start` of the reply before it. Its options are the upload options once `fields.start` holds that offset. |
| Poster.PlanEnd | lib/poster.js:84-103 | The first non-`'uploding'` reply decides the outcome: its body, or its request error. With no such reply, the send is still waiting. `fields.start` ends as the offset of the last call. |
| Poster.MissingFieldsCrash | lib/poster.js:51 | Without a `fields` object, the first `fields.start = ...` throws and no request is sent. |
| Poster.TransferRequests | lib/poster.js:48-105 | Request `i` of the send is the request for offset `CallOffset(i)`, and there are `LeadingContinues + 1` requests. |
| Poster.OptionsAtTwice | lib/poster.js:51 | Setting `fields.start` on options that already hold it is setting it once. |
| Poster.CallOffsetShift | lib/poster.js:84-86 | After an `'uploding'` reply, the offsets of the later calls are those of the remaining replies. |
| Poster.LeadingContinuesExactly | lib/poster.js:84-86 | `n` `'uploding'` replies, followed by another reply or by none, are counted as `n`. |
| Poster.ChunkExtends | lib/poster.js:55 | The slice at offset `o` continues the file prefix that ends at `o`. |
| Poster.ChunksCover | lib/poster.js:49-55 | The slices at 0, 1 MiB, ..., (m-1) MiB, laid end to end, are the first `m` MiB of the file. |
| Poster.SequentialSendCoversFile | lib/poster.js:49-89 | For a server that asks for each next 1 MiB multiple and then sends a final body, with at most `k` MiB of file, there are `k` requests at `i` MiB each. Their slices laid end to end are the whole file, and the final body reaches the caller. |
| Poster.SequentialRequests | lib/poster.js:49-55 | Under that server, request `i` is at `i` MiB and carries the slice there. |
| Poster.SequentialOffsets | lib/poster.js:84-86 | Under that server, call `i` is made at `i` MiB. |
| Poster.SequentialOutcome | lib/poster.js:84-89 | Under that server, the last reply reaches the caller. |
| Poster.TwoAndAHalfMiB | lib/poster.js:49-89 | A 2.5 MiB file gives exactly 3 requests, at 0, 1048576 and 2097152, carrying 1048576, 1048576 and 524288 bytes. The third reply ends the send. |
| PostEntry.CheckArguments | lib/poster.js:132-148 | Passing the argument checks means a truthy `uri`, an object `options` and a string `uploadUrl` that parses as `http:` or `https:`. The URL passed on is the parsed upload URL. |
| PostEntry.UrlTypeError | lib/poster.js:144 | The TypeError `url.parse` throws for a truthy upload URL that is not a string, in `utils.parseUri(options.uploadUrl)` before the `try` block. ChecksBeforeFileSystem states when it escapes. |
| PostEntry.ChecksBeforeFileSystem | lib/poster.js:132-148 | The checks run in the order `uri`, `options`, `options.uploadUrl`, parsed URL, each with its own message. A truthy non-string upload URL throws. A failed check makes no file-system call, sends nothing, and leaves `options` alone. |
| PostEntry.MergeOptions | lib/poster.js:150-161 | The caller's options copied over the defaults. MergedOptions and MergedOptionsUnset state its lookups. |
| PostEntry.MergeUploadOptions | lib/poster.js:150-161 | The copy loop yields the caller's options copied over the defaults. |
| PostEntry.DefaultsLookup | lib/poster.js:150-156 | The defaults are `method` POST, `maxFileSize` 0, `fileId` Filedata, `maxRedirects` 5 and `fileContentType` application/octet-stream. Nothing else is set. |
| PostEntry.UploadDefaults | lib/poster.js:150-156 | The five defaults in their order. DefaultsLookup and MergedKeys state its content. |
| PostEntry.MergedKeys | lib/poster.js:150-161 | After the copy loop, `uploadOptions` has exactly the five default keys and the caller's keys, with no key twice. |
| PostEntry.MergedOptions | lib/poster.js:150-161 | A key the caller set reads as the caller set it. Every other key reads as the default. |
| PostEntry.MergedOptionsUnset | lib/poster.js:150-161 | A key that neither the caller nor the defaults set is `undefined` in `uploadOptions`. |
| PostEntry.ShareAgentAndHeaders | lib/poster.js:163-173 | A truthy `agent` is copied to the two agent keys, and truthy `headers` to the two header keys. SharedOptions states its lookups. |
| PostEntry.ShareOptions | lib/poster.js:163-173 | The agent and headers sharing yields `ShareAgentAndHeaders` of the caller's object. |
| PostEntry.SharedOptions | lib/poster.js:163-173 | A truthy `agent` is copied to `downloadAgent` and `uploadAgent`, and truthy `headers` to `downloadHeaders` and `uploadHeaders`. Every other key keeps its value, and no key is lost. |
| PostEntry.PostSpec | lib/poster.js:130-202 | `post` as a function, from the argument checks to the send. Its properties are in ChecksBeforeFileSystem, RequestsOnlyAfterFileChecks, StatSizeOnlyLimits and the lemmas after them. |
| PostEntry.Proceed | lib/poster.js:150-201 | Everything after the argument checks. ProceedSteps equals it. |
| PostEntry.Post | lib/poster.js:130-202 | `post`, step by step, does exactly what `PostSpec` describes. |
| PostEntry.ProceedSteps | lib/poster.js:150-201 | After the argument checks, it merges, shares, parses `uri`, and calls `fs.exists` and `fs.stat`. Then it checks the size, chooses the file name, reads the stream and sends, all as `Proceed` describes. |
| PostEntry.FileChecksOutcomes | lib/poster.js:176-192 | After accepted arguments: a non-string path throws in `parseUri` and the catch reports it with no file-system call; a missing file reports `File does not exist on the file system.` after `fs.exists` alone; a stat error is reported as is, and a size above `maxFileSize` as `File is too large, maxFileSize: <max>, size: <size>`, after `fs.exists` and `fs.stat`. None of them sends a request. |
| PostEntry.TooLarge | lib/poster.js:191 | The message `File is too large, maxFileSize: <max>, size: <size>`. FileChecksOutcomes states when it is reported. |
| PostEntry.RequestsOnlyAfterFileChecks | lib/poster.js:176-197 | Requests go out only after `fs.exists(uri)`, `fs.stat(uri)` and the read stream on the parsed path, in that order. Otherwise at most two file-system calls are made and nothing is sent. |
| PostEntry.SizeAllowed | lib/poster.js:190 | `validateFileSize` on `maxFileSize` converted to a number. A value that converts to no number (NaN) never passes the `maxFileSize > 0` test, so `validateFileSize` never rejects and every size is allowed. |
| PostEntry.StatSizeOnlyLimits | lib/poster.js:185-195 | Two accepted `fs.stat` sizes give the same file-system calls, requests, outcome and options. |
| PostEntry.BaseNameHasNoSlash | lib/poster.js:194 | The base name never contains a slash. |
| PostEntry.AfterLastSlashHasNoSlash | lib/poster.js:194 | What follows the last slash contains no slash. |
| PostEntry.AfterLastSlashOfSegment | lib/poster.js:194 | For `dir/name`, what follows the last slash is `name`. |
| PostEntry.StripSlashes | lib/poster.js:194 | Trailing slashes are removed, and only they are. |
| PostEntry.StripTrailingSlashes | lib/poster.js:194 | The path without its trailing slashes, as `path.basename` ignores them. StripSlashes states it. |
| PostEntry.AfterLastSlash | lib/poster.js:194 | The last path segment, after the last slash. AfterLastSlashHasNoSlash, AfterLastSlashOfSegment and AfterLastSlashOfName state it. |
| PostEntry.BaseName | lib/poster.js:194 | `path.basename` on POSIX paths. Its properties are in BaseNameHasNoSlash, BaseNameOfPath and BaseNameOfName. |
| PostEntry.BaseNameOfName | lib/poster.js:194 | A path without slashes, such as `photo.jpg`, is its own base name. |
| PostEntry.AfterLastSlashOfName | lib/poster.js:194 | A string without slashes is its own last segment. |
| PostEntry.BaseNameOfPath | lib/poster.js:194 | `path.basename` of `dir/name` is `name`, with or without trailing slashes. |
| PostEntry.ChooseFileName | lib/poster.js:194 | `fileName` when truthy, otherwise the base name of `uri`. FileNameDefaultsToBaseName states its cases. |
| PostEntry.FileNameDefaultsToBaseName | lib/poster.js:194 | The file name is `fileName` when truthy, otherwise the last segment of the path. This holds for `dir/name` and for a bare `name`. |
| PostEntry.PlainUploadRequest | lib/poster.js:64-77 | Without `uploadHeaders` and `uploadAgent`, a request has exactly the two default headers and no agent. |
| PostEntry.PlainUpload | lib/poster.js:64-77 | Without `uploadHeaders` and `uploadAgent`, every request of the send has exactly the two default headers and no agent. |
| PostEntry.SharedHeadersNotUsedForUpload | lib/poster.js:159-173 | If the caller did not set `uploadHeaders` or `uploadAgent`, every request carries only the default headers and no agent. The caller's object, however, now holds `headers` and `agent` under those names. |
| PostEntry.CallerSeesLastStart | lib/poster.js:159-161 | After the send, the caller's `fields` object holds `start` equal to the offset of the last call. |
| PostEntry.AfterSend | lib/poster.js:51 | The caller's options after the send: `uploadOptions.fields` is the caller's own `fields` object, so the `start` written into it shows there. CallerSeesLastStart states it. |
| PostEntry.PostWithoutFieldsCrashes | lib/poster.js:176-196 | Without `fields`, the file is reached and read with three file-system calls. Then the read stream's `end` listener throws at `fields.start = start`, after `post` has returned. Nothing is sent. |
| PostEntry.PostSendsWholeFile | lib/poster.js:118-127 | When the server walks through the file 1 MiB at a time, the slices sent are exactly the bytes the read stream delivered, and the final body reaches the callback. |

## Left out

- File system, sockets and events:
  - `fs.exists`, `fs.stat`, `fs.createReadStream`, `http.request`/`https.request` and the `socket`/`connect` events are I/O. Their answers are inputs, and the model records the calls and writes they lead to.
  - Scheduling and concurrency between transfers are not modelled.
- `JSON.parse` of the reply is a foreign call. Replies arrive already parsed, and a body it cannot parse (an uncaught throw in the response handler) is not modelled.
- `next_start` is taken to be an integer or absent. Other JavaScript values there, and the slicing they would cause, are not modelled.
- `url.parse` is a parameter. `path.basename` is modelled as the POSIX last segment, with trailing slashes ignored.
- A read error on the file stream is not modelled: the stream either delivers all its chunks or none.
- Number semantics:
  - JavaScript numbers are modelled as integers. Fractions, NaN from arithmetic and the exponent notation of very large numbers are left out.
  - In `maxFileSize > 0`, a string reads as a number only when it is plain decimal digits.
- `for (k in o)`:
  - own properties come in insertion order, so the separate ordering of integer-like keys is not modelled;
  - inherited enumerable properties are not modelled;
  - a string enumerates its index keys and any other non-object nothing.
- Object identity is modelled as values. The sharing of `fields` between the caller's options and `uploadOptions` is spelled out, through `AfterSend` and `CallerSeesLastStart`.
- Strings are sequences of Dafny `char`, which are Unicode scalar values. A JavaScript string can also hold a lone surrogate, which `new Buffer(form)` encodes as EF BF BD; such strings cannot be represented, so that case of the encoding is not modelled.
- Error values and thrown exceptions are modelled as their message strings. The texts of the Node errors (`TypeError: ...`) are approximations.
- `downloadAgent` and `downloadHeaders` are set but never read in these files, so only their assignment is modelled.
- Remote probing, redirects, MIME-based name inference and proxy streaming are absent from `lib/utils.js` and `lib/poster.js`. They are not part of this model.
- `sanitizeFileName` is modelled on its own, because `post` does not call it.
- Poster.UploadPart: modelled as a recursive method rather than a `while` loop over the offset, because the code advances by calling itself from the response handler. The recursion is bounded by the number of replies given.

