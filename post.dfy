/**
 * `post` of lib/poster.js: the synchronous argument checks, the merge of the
 * caller's options over the upload defaults, the sharing of `agent` and
 * `headers` inside the caller's object, and the chain of file-system steps
 * that leads to the resumable send.
 *
 * The file system is a record of answers: whether `fs.exists` finds the
 * path, what `fs.stat` delivers, and the chunks the read stream emits. The
 * result records which file-system calls were made, in order.
 */
module PostEntry {
  import opened Wrappers
  import opened Decimal
  import opened JsValue
  import opened Bytes
  import opened Utils
  import opened Poster

  /** What `fs.stat` delivers to its callback. */
  datatype StatResult = Stats(size: nat) | StatError(error: string)

  /** The answers of the file system to the calls `post` makes. */
  datatype FileSystem = FileSystem(present: bool, stat: StatResult, stream: seq<seq<byte>>)

  /** A call `post` makes on the file system, with the path it names. */
  datatype FsCall = Exists(path: string) | Stat(path: string) | ReadStream(path: string)

  /**
   * What one `post` does: its file-system calls, the requests of the send,
   * how it ends, and the caller's `options` object afterwards.
   */
  datatype PostResult = PostResult(fsCalls: seq<FsCall>, requests: seq<Request>, outcome: Outcome, options: Value)

  const InvalidPath: string := "Invalid url or file path argument"
  const InvalidOptions: string := "Invalid options argument"
  const InvalidUploadUrl: string := "Invalid upload url argument"
  const NoSuchFile: string := "File does not exist on the file system."

  /** The TypeError `url.parse` throws for anything but a string. */
  function UrlTypeError(v: Value): string {
    "TypeError: Parameter 'url' must be a string, not " + TypeOf(v)
  }

  /** The TypeError `fs.createReadStream` throws for a path that is not a string. */
  const PathTypeError: string := "TypeError: path must be a string"

  /** The message for a file above `maxFileSize`. */
  function TooLarge(maxFileSize: Value, size: nat): string {
    "File is too large, maxFileSize: " + ToString(maxFileSize) + ", size: " + IntToString(size)
  }

  // ---------------------------------------------------------------------
  // The argument checks

  /** The outcome of the synchronous checks: an early end, or the parsed upload URL. */
  datatype Verdict = Rejected(outcome: Outcome) | Accepted(uploadUrl: ParsedUri)

  /**
   * `uri`, then `options`, then `options.uploadUrl` must be truthy, and the
   * upload URL must parse as `http:` or `https:`. Parsing an upload URL that
   * is not a string throws out of `post`.
   */
  function CheckArguments(uri: Value, options: Value, urlParse: string -> UrlParts): (v: Verdict)
    ensures v.Accepted? ==> Truthy(uri) && options.Obj? && Prop(options, "uploadUrl").Str?
    ensures v.Accepted? ==> v.uploadUrl == ParseUri(Prop(options, "uploadUrl").s, urlParse) && v.uploadUrl.isValidUrl
    ensures (Truthy(uri) && options.Obj? && Prop(options, "uploadUrl").Str? && Prop(options, "uploadUrl").s != ""
             && ParseUri(Prop(options, "uploadUrl").s, urlParse).isValidUrl) ==> v.Accepted?
  {
    if !Truthy(uri) then Rejected(Error(InvalidPath))
    else if !Truthy(options) then Rejected(Error(InvalidOptions))
    else if !Truthy(Prop(options, "uploadUrl")) then Rejected(Error(InvalidUploadUrl))
    else if !Prop(options, "uploadUrl").Str? then Rejected(Crash(UrlTypeError(Prop(options, "uploadUrl"))))
    else
      var uploadUrl := ParseUri(Prop(options, "uploadUrl").s, urlParse);
      if !uploadUrl.isValidUrl then Rejected(Error(InvalidUploadUrl)) else Accepted(uploadUrl)
  }

  // ---------------------------------------------------------------------
  // Options

  /** The upload options every call starts from. */
  function UploadDefaults(): Dict {
    [("method", Str("POST")), ("maxFileSize", Num(0)), ("fileId", Str("Filedata")), ("maxRedirects", Num(5)),
     ("fileContentType", Str("application/octet-stream"))]
  }

  /** `uploadOptions`: the defaults with every property of the caller's options copied over them. */
  function MergeOptions(options: Dict): Dict {
    PutAll(UploadDefaults(), options)
  }

  /** The copy loop of `post`. */
  method MergeUploadOptions(options: Dict) returns (uploadOptions: Dict)
    ensures uploadOptions == MergeOptions(options)
  {
    uploadOptions := [("method", Str("POST")), ("maxFileSize", Num(0)), ("fileId", Str("Filedata")),
                      ("maxRedirects", Num(5)), ("fileContentType", Str("application/octet-stream"))];
    for i := 0 to |options|
      invariant uploadOptions == PutAll(UploadDefaults(), options[..i])
    {
      uploadOptions := Put(uploadOptions, options[i].0, options[i].1);
      assert options[..i + 1][..i] == options[..i];
    }
    assert options[..|options|] == options;
  }

  /**
   * The caller's object after `post` shares `agent` as `downloadAgent` and
   * `uploadAgent`, and `headers` as `downloadHeaders` and `uploadHeaders`.
   */
  function ShareAgentAndHeaders(options: Dict): Dict {
    var agent := Get(options, "agent");
    var withAgent := if Truthy(agent) then Put(Put(options, "downloadAgent", agent), "uploadAgent", agent) else options;
    var headers := Get(withAgent, "headers");
    if Truthy(headers) then Put(Put(withAgent, "downloadHeaders", headers), "uploadHeaders", headers) else withAgent
  }

  /** `maxFileSize > 0` and `size > maxFileSize` with JavaScript's conversion of `maxFileSize`; NaN never limits. */
  function SizeAllowed(maxFileSize: Value, size: nat): bool {
    match ToNumber(maxFileSize)
    case None => true
    case Some(m) => ValidateFileSize(m, size)
  }

  // ---------------------------------------------------------------------
  // File names

  /** The path without its trailing slashes. */
  function StripTrailingSlashes(s: string): string {
    if s != [] && s[|s| - 1] == '/' then StripTrailingSlashes(s[..|s| - 1]) else s
  }

  /** What follows the last slash. */
  function AfterLastSlash(s: string): string {
    if s == [] || s[|s| - 1] == '/' then [] else AfterLastSlash(s[..|s| - 1]) + [s[|s| - 1]]
  }

  /** `path.basename` on POSIX: the last segment of the path, trailing slashes ignored. */
  function BaseName(path: string): string {
    AfterLastSlash(StripTrailingSlashes(path))
  }

  /** `uploadOptions.fileName` when truthy, otherwise the base name of the path. */
  function ChooseFileName(uploadOptions: Dict, path: string): string {
    var name := Get(uploadOptions, "fileName");
    if Truthy(name) then ToString(name) else BaseName(path)
  }

  // ---------------------------------------------------------------------
  // post

  /** The caller's options after the send: `fields` is the object `uploadPart` wrote `start` into. */
  function AfterSend(shared: Dict, fields: Value): Value {
    if HasKey(shared, "fields") then Obj(Put(shared, "fields", fields)) else Obj(shared)
  }

  /**
   * Everything after the argument checks: the merge, the sharing, `parseUri(uri)`
   * (whose throw the `try` block catches), `fs.exists`, `fs.stat`, the size
   * check, the file name, the read stream of the parsed path and the send.
   */
  function Proceed(uri: Value, options: Dict, uploadUrl: ParsedUri, urlParse: string -> UrlParts,
                   fs: FileSystem, replies: seq<Reply>): PostResult
  {
    var uploadOptions := MergeOptions(options);
    var shared := ShareAgentAndHeaders(options);
    if !uri.Str? then PostResult([], [], Error(UrlTypeError(uri)), Obj(shared))
    else
      var parsedUri := ParseUri(uri.s, urlParse);
      if !fs.present then PostResult([Exists(uri.s)], [], Error(NoSuchFile), Obj(shared))
      else
        var checked := [Exists(uri.s), Stat(uri.s)];
        match fs.stat
        case StatError(e) => PostResult(checked, [], Error(e), Obj(shared))
        case Stats(size) =>
          var maxFileSize := Get(uploadOptions, "maxFileSize");
          if !SizeAllowed(maxFileSize, size) then PostResult(checked, [], Error(TooLarge(maxFileSize, size)), Obj(shared))
          else if parsedUri.path.None? then PostResult(checked, [], Crash(PathTypeError), Obj(shared))
          else
            var fileName := ChooseFileName(uploadOptions, uri.s);
            var up := Transfer(uploadUrl, uploadOptions, fileName, Concat(fs.stream), replies, None);
            PostResult(checked + [ReadStream(parsedUri.path.value)], up.requests, up.outcome, AfterSend(shared, up.fields))
  }

  /** `post(uri, options, callback)` against the given file system, server and `url.parse`. */
  function PostSpec(uri: Value, options: Value, urlParse: string -> UrlParts, fs: FileSystem, replies: seq<Reply>): PostResult
  {
    match CheckArguments(uri, options, urlParse)
    case Rejected(outcome) => PostResult([], [], outcome, options)
    case Accepted(uploadUrl) => Proceed(uri, options.props, uploadUrl, urlParse, fs, replies)
  }

  /** `post`, step by step. */
  method Post(uri: Value, options: Value, urlParse: string -> UrlParts, fs: FileSystem, replies: seq<Reply>)
    returns (result: PostResult)
    ensures result == PostSpec(uri, options, urlParse, fs, replies)
  {
    var verdict := CheckArguments(uri, options, urlParse);
    if verdict.Rejected? {
      return PostResult([], [], verdict.outcome, options);
    }
    result := ProceedSteps(uri, options.props, verdict.uploadUrl, urlParse, fs, replies);
  }

  /** The assignments of `agent` and `headers` into the caller's object. */
  method ShareOptions(options: Dict) returns (shared: Dict)
    ensures shared == ShareAgentAndHeaders(options)
  {
    shared := options;
    if Truthy(Get(shared, "agent")) {
      var agent := Get(shared, "agent");
      shared := Put(shared, "downloadAgent", agent);
      shared := Put(shared, "uploadAgent", agent);
    }
    if Truthy(Get(shared, "headers")) {
      var headers := Get(shared, "headers");
      shared := Put(shared, "downloadHeaders", headers);
      shared := Put(shared, "uploadHeaders", headers);
    }
  }

  /** The part of `post` after the argument checks, step by step. */
  method ProceedSteps(uri: Value, options: Dict, uploadUrl: ParsedUri, urlParse: string -> UrlParts,
                      fs: FileSystem, replies: seq<Reply>)
    returns (result: PostResult)
    ensures result == Proceed(uri, options, uploadUrl, urlParse, fs, replies)
  {
    var uploadOptions := MergeUploadOptions(options);
    var shared := ShareOptions(options);
    if !uri.Str? {
      return PostResult([], [], Error(UrlTypeError(uri)), Obj(shared));
    }
    var parsedUri := ParseUri(uri.s, urlParse);
    var calls := [Exists(uri.s)];
    if !fs.present {
      return PostResult(calls, [], Error(NoSuchFile), Obj(shared));
    }
    calls := calls + [Stat(uri.s)];
    match fs.stat {
      case StatError(e) =>
        return PostResult(calls, [], Error(e), Obj(shared));
      case Stats(size) =>
        var maxFileSize := Get(uploadOptions, "maxFileSize");
        if !SizeAllowed(maxFileSize, size) {
          return PostResult(calls, [], Error(TooLarge(maxFileSize, size)), Obj(shared));
        }
        if parsedUri.path.None? {
          return PostResult(calls, [], Crash(PathTypeError), Obj(shared));
        }
        var fileName := ChooseFileName(uploadOptions, uri.s);
        calls := calls + [ReadStream(parsedUri.path.value)];
        var data := StreamHandler(fs.stream);
        var requests, outcome, fields := UploadPart(uploadUrl, uploadOptions, fileName, data, replies, None);
        return PostResult(calls, requests, outcome, AfterSend(shared, fields));
    }
  }

  // ---------------------------------------------------------------------
  // Properties of the file-name choice

  /** The base name never contains a slash. */
  lemma {:induction false} BaseNameHasNoSlash(path: string)
    ensures '/' !in BaseName(path)
  {
    AfterLastSlashHasNoSlash(StripTrailingSlashes(path));
  }

  lemma {:induction false} AfterLastSlashHasNoSlash(s: string)
    ensures '/' !in AfterLastSlash(s)
    decreases |s|
  {
    if s != [] && s[|s| - 1] != '/' {
      AfterLastSlashHasNoSlash(s[..|s| - 1]);
    }
  }

  /** A segment without slashes is its own last segment. */
  lemma {:induction false} AfterLastSlashOfSegment(dir: string, name: string)
    requires '/' !in name
    ensures AfterLastSlash(dir + "/" + name) == name
    decreases |name|
  {
    if name == [] {
      assert dir + "/" + name == dir + "/";
    } else {
      var init := name[..|name| - 1];
      assert (dir + "/" + name)[..|dir + "/" + name| - 1] == dir + "/" + init;
      AfterLastSlashOfSegment(dir, init);
      assert init + [name[|name| - 1]] == name;
    }
  }

  /**
   * `path.basename` takes the last segment: for `dir/name` it is `name`, and
   * trailing slashes do not change it.
   */
  lemma BaseNameOfPath(dir: string, name: string, slashes: nat)
    requires name != "" && '/' !in name
    ensures BaseName(dir + "/" + name + seq(slashes, _ => '/')) == name
  {
    StripSlashes(dir + "/" + name, slashes);
    AfterLastSlashOfSegment(dir, name);
  }

  lemma {:induction false} StripSlashes(s: string, slashes: nat)
    requires s != [] && s[|s| - 1] != '/'
    ensures StripTrailingSlashes(s + seq(slashes, _ => '/')) == s
    decreases slashes
  {
    if slashes == 0 {
      assert s + seq(0, _ => '/') == s;
    } else {
      var t := s + seq(slashes, _ => '/');
      assert t[..|t| - 1] == s + seq(slashes - 1, _ => '/');
      StripSlashes(s, slashes - 1);
    }
  }

  /** A path without slashes, such as a bare file name, is its own base name. */
  lemma BaseNameOfName(name: string)
    requires '/' !in name
    ensures BaseName(name) == name
  {
    AfterLastSlashOfName(name);
  }

  lemma {:induction false} AfterLastSlashOfName(name: string)
    requires '/' !in name
    ensures AfterLastSlash(name) == name
    decreases |name|
  {
    if name != [] {
      var init := name[..|name| - 1];
      AfterLastSlashOfName(init);
      assert init + [name[|name| - 1]] == name;
    }
  }

  /**
   * The name in the file-part header: `fileName` when truthy, else the last
   * segment of the path, for `dir/name` as for a bare `name`.
   */
  lemma FileNameDefaultsToBaseName(uploadOptions: Dict, dir: string, name: string)
    requires name != "" && '/' !in name
    ensures Truthy(Get(uploadOptions, "fileName"))
      ==> (ChooseFileName(uploadOptions, dir + "/" + name) == ToString(Get(uploadOptions, "fileName"))
           && ChooseFileName(uploadOptions, name) == ToString(Get(uploadOptions, "fileName")))
    ensures !Truthy(Get(uploadOptions, "fileName"))
      ==> (ChooseFileName(uploadOptions, dir + "/" + name) == name && ChooseFileName(uploadOptions, name) == name)
  {
    BaseNameOfPath(dir, name, 0);
    assert dir + "/" + name + seq(0, _ => '/') == dir + "/" + name;
    BaseNameOfName(name);
  }

  // ---------------------------------------------------------------------
  // Properties of the options

  /** What each key reads as in the defaults; every other key is absent. */
  lemma DefaultsLookup(k: string)
    ensures Get(UploadDefaults(), k)
      == if k == "method" then Str("POST")
         else if k == "maxFileSize" then Num(0)
         else if k == "fileId" then Str("Filedata")
         else if k == "maxRedirects" then Num(5)
         else if k == "fileContentType" then Str("application/octet-stream")
         else Undefined
  {
    var d := UploadDefaults();
    var d1, d2, d3, d4 := d[1..], d[2..], d[3..], d[4..];
    assert d1[1..] == d2 && d2[1..] == d3 && d3[1..] == d4 && d4[1..] == [];
    assert Get(d4, k) == if k == "fileContentType" then Str("application/octet-stream") else Undefined;
    assert Get(d3, k) == if k == "maxRedirects" then Num(5) else Get(d4, k);
    assert Get(d2, k) == if k == "fileId" then Str("Filedata") else Get(d3, k);
    assert Get(d1, k) == if k == "maxFileSize" then Num(0) else Get(d2, k);
  }

  /**
   * `uploadOptions` reads every key the caller set as the caller set it, and
   * every other key as the default: `method` POST, `maxFileSize` 0, `fileId`
   * Filedata, `maxRedirects` 5, `fileContentType` application/octet-stream.
   */
  lemma MergedOptions(options: Dict, k: string)
    requires DistinctKeys(options)
    ensures Get(MergeOptions(options), k) == if HasKey(options, k) then Get(options, k) else Get(UploadDefaults(), k)
  {
    GetPutAll(UploadDefaults(), options, k);
  }

  /** A key neither the caller nor the defaults set reads as `undefined` in `uploadOptions`. */
  lemma MergedOptionsUnset(options: Dict, k: string)
    requires DistinctKeys(options) && !HasKey(options, k)
    requires k != "method" && k != "maxFileSize" && k != "fileId" && k != "maxRedirects" && k != "fileContentType"
    ensures Get(MergeOptions(options), k) == Undefined
    ensures !HasKey(MergeOptions(options), k)
  {
    MergedOptions(options, k);
    DefaultsLookup(k);
    MergedKeys(options, k);
  }

  /**
   * `uploadOptions` has exactly the default keys and the caller's keys, each
   * once, so `for (attr in uploadOptions)` would see every one of them once.
   */
  lemma MergedKeys(options: Dict, k: string)
    ensures DistinctKeys(MergeOptions(options))
    ensures HasKey(MergeOptions(options), k)
      <==> k in ["method", "maxFileSize", "fileId", "maxRedirects", "fileContentType"] || HasKey(options, k)
  {
    var d := UploadDefaults();
    assert Keys(d[4..]) == ["fileContentType"];
    assert Keys(d[3..]) == ["maxRedirects"] + Keys(d[4..]);
    assert Keys(d[2..]) == ["fileId"] + Keys(d[3..]);
    assert Keys(d[1..]) == ["maxFileSize"] + Keys(d[2..]);
    assert Keys(d) == ["method", "maxFileSize", "fileId", "maxRedirects", "fileContentType"];
    assert DistinctKeys(d[4..]) && DistinctKeys(d[3..]) && DistinctKeys(d[2..]) && DistinctKeys(d[1..]);
    PutAllDistinct(d, options);
    HasKeyPutAll(d, options, k);
  }

  /**
   * The assignments of `agent` and `headers` go into the caller's object only,
   * under both names, and leave every other key as it was.
   */
  lemma SharedOptions(options: Dict, k: string)
    ensures var shared := ShareAgentAndHeaders(options);
      var agent := Get(options, "agent");
      var headers := Get(options, "headers");
      Get(shared, k)
        == if Truthy(headers) && (k == "downloadHeaders" || k == "uploadHeaders") then headers
           else if Truthy(agent) && (k == "downloadAgent" || k == "uploadAgent") then agent
           else Get(options, k)
    ensures HasKey(options, k) ==> HasKey(ShareAgentAndHeaders(options), k)
  {
    var agent := Get(options, "agent");
    var a1 := Put(options, "downloadAgent", agent);
    var withAgent := if Truthy(agent) then Put(a1, "uploadAgent", agent) else options;
    if Truthy(agent) {
      GetPut(options, "downloadAgent", agent, k);
      GetPut(a1, "uploadAgent", agent, k);
      GetPut(options, "downloadAgent", agent, "headers");
      GetPut(a1, "uploadAgent", agent, "headers");
      KeysPut(options, "downloadAgent", agent);
      KeysPut(a1, "uploadAgent", agent);
    }
    var headers := Get(withAgent, "headers");
    var h1 := Put(withAgent, "downloadHeaders", headers);
    if Truthy(headers) {
      GetPut(withAgent, "downloadHeaders", headers, k);
      GetPut(h1, "uploadHeaders", headers, k);
      KeysPut(withAgent, "downloadHeaders", headers);
      KeysPut(h1, "uploadHeaders", headers);
    }
  }

  // ---------------------------------------------------------------------
  // Properties of post

  /** The argument checks pass, the path is a string the file system finds, its size is allowed, and the parsed path is a string. */
  predicate ReachesSend(uri: Value, options: Value, urlParse: string -> UrlParts, fs: FileSystem) {
    CheckArguments(uri, options, urlParse).Accepted? && uri.Str? && fs.present && fs.stat.Stats?
    && SizeAllowed(Get(MergeOptions(options.props), "maxFileSize"), fs.stat.size)
    && ParseUri(uri.s, urlParse).path.Some?
  }

  /** The send `post` starts once every check has passed. */
  function SendOf(uri: Value, options: Value, urlParse: string -> UrlParts, fs: FileSystem, replies: seq<Reply>): Upload
    requires ReachesSend(uri, options, urlParse, fs)
  {
    var uploadOptions := MergeOptions(options.props);
    Transfer(CheckArguments(uri, options, urlParse).uploadUrl, uploadOptions, ChooseFileName(uploadOptions, uri.s),
             Concat(fs.stream), replies, None)
  }

  /**
   * Every check runs before any file-system call, in the order `uri`,
   * `options`, `options.uploadUrl`, then the parsed upload URL; a failed
   * check makes no call, sends nothing and leaves the caller's options alone.
   */
  lemma ChecksBeforeFileSystem(uri: Value, options: Value, urlParse: string -> UrlParts, fs: FileSystem, replies: seq<Reply>)
    ensures var r := PostSpec(uri, options, urlParse, fs, replies);
      CheckArguments(uri, options, urlParse).Rejected? ==> r.fsCalls == [] && r.requests == [] && r.options == options
    ensures var r := PostSpec(uri, options, urlParse, fs, replies);
      !Truthy(uri) ==> r.outcome == Error(InvalidPath)
    ensures var r := PostSpec(uri, options, urlParse, fs, replies);
      Truthy(uri) && !Truthy(options) ==> r.outcome == Error(InvalidOptions)
    ensures var r := PostSpec(uri, options, urlParse, fs, replies);
      Truthy(uri) && Truthy(options) && !Truthy(Prop(options, "uploadUrl")) ==> r.outcome == Error(InvalidUploadUrl)
    ensures var r := PostSpec(uri, options, urlParse, fs, replies);
      var uploadUrl := Prop(options, "uploadUrl");
      Truthy(uri) && Truthy(options) && Truthy(uploadUrl) && !uploadUrl.Str? ==> r.outcome == Crash(UrlTypeError(uploadUrl))
    ensures var r := PostSpec(uri, options, urlParse, fs, replies);
      var uploadUrl := Prop(options, "uploadUrl");
      (Truthy(uri) && Truthy(options) && uploadUrl.Str? && uploadUrl.s != "" && !ParseUri(uploadUrl.s, urlParse).isValidUrl)
        ==> r.outcome == Error(InvalidUploadUrl)
  {
  }

  /**
   * Once the arguments are accepted, each file-system failure ends `post`
   * with its own error and sends nothing: a path that is not a string fails
   * in `parseUri` before any call, a missing file after `fs.exists`, a stat
   * error or a size above `maxFileSize` after `fs.stat`. In each case the
   * caller's options have had `agent` and `headers` shared.
   */
  lemma FileChecksOutcomes(uri: Value, options: Value, urlParse: string -> UrlParts, fs: FileSystem, replies: seq<Reply>)
    requires CheckArguments(uri, options, urlParse).Accepted?
    ensures var r := PostSpec(uri, options, urlParse, fs, replies);
      !uri.Str? ==> r == PostResult([], [], Error(UrlTypeError(uri)), Obj(ShareAgentAndHeaders(options.props)))
    ensures var r := PostSpec(uri, options, urlParse, fs, replies);
      uri.Str? && !fs.present ==> r == PostResult([Exists(uri.s)], [], Error(NoSuchFile), Obj(ShareAgentAndHeaders(options.props)))
    ensures var r := PostSpec(uri, options, urlParse, fs, replies);
      uri.Str? && fs.present && fs.stat.StatError? ==>
        r == PostResult([Exists(uri.s), Stat(uri.s)], [], Error(fs.stat.error), Obj(ShareAgentAndHeaders(options.props)))
    ensures var r := PostSpec(uri, options, urlParse, fs, replies);
      var maxFileSize := Get(MergeOptions(options.props), "maxFileSize");
      uri.Str? && fs.present && fs.stat.Stats? && !SizeAllowed(maxFileSize, fs.stat.size) ==>
        r == PostResult([Exists(uri.s), Stat(uri.s)], [], Error(TooLarge(maxFileSize, fs.stat.size)),
                        Obj(ShareAgentAndHeaders(options.props)))
  {
  }

  /**
   * Requests go out only after the three file-system steps: `fs.exists` and
   * `fs.stat` on the path, then the read stream on the parsed path. Until
   * then nothing is sent, and stopping early never opens the stream.
   */
  lemma RequestsOnlyAfterFileChecks(uri: Value, options: Value, urlParse: string -> UrlParts, fs: FileSystem,
                                    replies: seq<Reply>)
    ensures var r := PostSpec(uri, options, urlParse, fs, replies);
      !ReachesSend(uri, options, urlParse, fs) ==> r.requests == [] && |r.fsCalls| <= 2
    ensures var r := PostSpec(uri, options, urlParse, fs, replies);
      ReachesSend(uri, options, urlParse, fs) ==>
        r.fsCalls == [Exists(uri.s), Stat(uri.s), ReadStream(ParseUri(uri.s, urlParse).path.value)]
        && r.requests == SendOf(uri, options, urlParse, fs, replies).requests
        && r.outcome == SendOf(uri, options, urlParse, fs, replies).outcome
  {
  }

  /**
   * The size `fs.stat` reports only decides whether the file is accepted:
   * any two accepted sizes give the same requests (the length sent comes
   * from the bytes read), the same outcome and the same options.
   */
  lemma StatSizeOnlyLimits(uri: Value, options: Value, urlParse: string -> UrlParts, present: bool, a: nat, b: nat,
                           stream: seq<seq<byte>>, replies: seq<Reply>)
    requires options.Obj? ==> SizeAllowed(Get(MergeOptions(options.props), "maxFileSize"), a)
    requires options.Obj? ==> SizeAllowed(Get(MergeOptions(options.props), "maxFileSize"), b)
    ensures PostSpec(uri, options, urlParse, FileSystem(present, Stats(a), stream), replies)
         == PostSpec(uri, options, urlParse, FileSystem(present, Stats(b), stream), replies)
  {
  }

  /** The request of one call when the options have no `uploadHeaders` and no `uploadAgent`. */
  lemma PlainUploadRequest(url: ParsedUri, options: Dict, fileName: string, data: seq<byte>, offset: int)
    requires Get(options, "uploadHeaders") == Undefined && Get(options, "uploadAgent") == Undefined
    ensures var r := PartRequest(url, options, fileName, data, offset);
      r.Options().headers == DefaultHeaders(r.ContentLength()) && r.Options().agent == None
  {
  }

  /**
   * `headers` and `agent` are shared as `uploadHeaders` and `uploadAgent`
   * only in the caller's object, after `uploadOptions` was copied: when the
   * caller did not set `uploadHeaders` or `uploadAgent` themselves, every
   * request carries only the two default headers and no agent, while the
   * caller's object now names them.
   */
  lemma SharedHeadersNotUsedForUpload(uri: Value, options: Value, urlParse: string -> UrlParts, fs: FileSystem,
                                      replies: seq<Reply>)
    requires ReachesSend(uri, options, urlParse, fs)
    requires DistinctKeys(options.props)
    requires !HasKey(options.props, "uploadHeaders") && !HasKey(options.props, "uploadAgent")
    ensures var r := PostSpec(uri, options, urlParse, fs, replies);
      forall i :: 0 <= i < |r.requests| ==>
        r.requests[i].Options().headers == DefaultHeaders(r.requests[i].ContentLength()) && r.requests[i].Options().agent == None
    ensures var r := PostSpec(uri, options, urlParse, fs, replies);
      var headers := Get(options.props, "headers");
      r.options.Obj? && (Truthy(headers) ==> Get(r.options.props, "uploadHeaders") == headers)
    ensures var r := PostSpec(uri, options, urlParse, fs, replies);
      var agent := Get(options.props, "agent");
      r.options.Obj? && (Truthy(agent) ==> Get(r.options.props, "uploadAgent") == agent)
  {
    var props := options.props;
    var uploadOptions := MergeOptions(props);
    var uploadUrl := CheckArguments(uri, options, urlParse).uploadUrl;
    var r := PostSpec(uri, options, urlParse, fs, replies);
    var up := SendOf(uri, options, urlParse, fs, replies);
    var shared := ShareAgentAndHeaders(props);
    assert r == Proceed(uri, props, uploadUrl, urlParse, fs, replies);
    assert up == Transfer(uploadUrl, uploadOptions, ChooseFileName(uploadOptions, uri.s), Concat(fs.stream), replies, None);
    assert r.requests == up.requests && r.options == AfterSend(shared, up.fields);
    MergedOptionsUnset(props, "uploadHeaders");
    MergedOptionsUnset(props, "uploadAgent");
    PlainUpload(uploadUrl, uploadOptions, ChooseFileName(uploadOptions, uri.s), Concat(fs.stream), replies);
    SharedOptions(props, "uploadHeaders");
    SharedOptions(props, "uploadAgent");
    GetPut(shared, "fields", up.fields, "uploadHeaders");
    GetPut(shared, "fields", up.fields, "uploadAgent");
  }

  /** A send whose options have no `uploadHeaders` and no `uploadAgent` sends only the default headers and no agent. */
  lemma PlainUpload(url: ParsedUri, uploadOptions: Dict, fileName: string, data: seq<byte>, replies: seq<Reply>)
    requires Get(uploadOptions, "uploadHeaders") == Undefined && Get(uploadOptions, "uploadAgent") == Undefined
    ensures var u := Transfer(url, uploadOptions, fileName, data, replies, None);
      forall i :: 0 <= i < |u.requests| ==>
        u.requests[i].Options().headers == DefaultHeaders(u.requests[i].ContentLength()) && u.requests[i].Options().agent == None
  {
    if HasFields(uploadOptions) {
      TransferRequests(url, uploadOptions, fileName, data, replies, None);
      forall i | 0 <= i <= LeadingContinues(replies)
        ensures var r := PartRequest(url, OptionsAt(uploadOptions, CallOffset(None, replies, i)), fileName, data,
                                     CallOffset(None, replies, i));
          r.Options().headers == DefaultHeaders(r.ContentLength()) && r.Options().agent == None
      {
        var offset := CallOffset(None, replies, i);
        var fields := SetStart(Get(uploadOptions, "fields"), offset);
        GetPut(uploadOptions, "fields", fields, "uploadHeaders");
        GetPut(uploadOptions, "fields", fields, "uploadAgent");
        PlainUploadRequest(url, OptionsAt(uploadOptions, offset), fileName, data, offset);
      }
    } else {
      MissingFieldsCrash(url, uploadOptions, fileName, data, replies, None);
    }
  }


  /**
   * `uploadOptions.fields` is the caller's own `fields` object, so after the
   * send the caller sees `fields.start` holding the offset of the last call.
   */
  lemma CallerSeesLastStart(uri: Value, options: Value, urlParse: string -> UrlParts, fs: FileSystem, replies: seq<Reply>)
    requires ReachesSend(uri, options, urlParse, fs)
    requires DistinctKeys(options.props) && Get(options.props, "fields").Obj?
    ensures var r := PostSpec(uri, options, urlParse, fs, replies);
      var last := CallOffset(None, replies, LeadingContinues(replies));
      r.options.Obj? && Get(r.options.props, "fields") == SetStart(Get(options.props, "fields"), last)
      && Get(Get(r.options.props, "fields").props, "start") == Num(last)
  {
    var props := options.props;
    var fields := Get(props, "fields");
    var uploadOptions := MergeOptions(props);
    var uploadUrl := CheckArguments(uri, options, urlParse).uploadUrl;
    var fileName := ChooseFileName(uploadOptions, uri.s);
    var last := CallOffset(None, replies, LeadingContinues(replies));
    RequestsOnlyAfterFileChecks(uri, options, urlParse, fs, replies);
    if !HasKey(props, "fields") {
      GetMissing(props, "fields");
    }
    MergedOptions(props, "fields");
    TransferFollowsPlan(uploadUrl, uploadOptions, fileName, Concat(fs.stream), replies, None);
    PlanEnd(uploadOptions, replies, None);
    var shared := ShareAgentAndHeaders(props);
    SharedOptions(props, "fields");
    GetPut(shared, "fields", SetStart(fields, last), "fields");
    SetStartKeepsOtherFields(fields, last, "start");
  }

  /**
   * Without `fields` in the options the first `fields.start = ...` throws
   * after the file was read: nothing is sent and the callback never runs.
   */
  lemma PostWithoutFieldsCrashes(uri: Value, options: Value, urlParse: string -> UrlParts, fs: FileSystem,
                                 replies: seq<Reply>)
    requires ReachesSend(uri, options, urlParse, fs)
    requires DistinctKeys(options.props) && !HasKey(options.props, "fields")
    ensures var r := PostSpec(uri, options, urlParse, fs, replies);
      r.requests == [] && r.outcome == Crash(SetStartError(Undefined)) && |r.fsCalls| == 3
  {
    var props := options.props;
    var uploadOptions := MergeOptions(props);
    RequestsOnlyAfterFileChecks(uri, options, urlParse, fs, replies);
    MergedOptionsUnset(props, "fields");
    MissingFieldsCrash(CheckArguments(uri, options, urlParse).uploadUrl, uploadOptions,
                       ChooseFileName(uploadOptions, uri.s), Concat(fs.stream), replies, None);
  }

  /**
   * End to end: when the server walks through the file 1 MiB at a time, the
   * slices `post` sends, laid end to end, are exactly the bytes the read
   * stream delivered, and the server's final reply reaches the callback.
   */
  lemma PostSendsWholeFile(uri: Value, options: Value, urlParse: string -> UrlParts, fs: FileSystem, k: nat, body: string)
    requires ReachesSend(uri, options, urlParse, fs)
    requires HasFields(MergeOptions(options.props))
    requires 1 <= k && TotalSize(fs.stream) <= k * PartLength
    ensures var r := PostSpec(uri, options, urlParse, fs, SequentialReplies(k, body));
      |r.requests| == k && Concat(SentChunks(r.requests)) == Concat(fs.stream) && r.outcome == Response(body)
  {
    var uploadOptions := MergeOptions(options.props);
    RequestsOnlyAfterFileChecks(uri, options, urlParse, fs, SequentialReplies(k, body));
    ConcatLength(fs.stream);
    SequentialSendCoversFile(CheckArguments(uri, options, urlParse).uploadUrl, uploadOptions,
                             ChooseFileName(uploadOptions, uri.s), Concat(fs.stream), k, body);
  }
}
