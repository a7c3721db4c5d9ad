/**
 * The upload handshake of utils/fileUpload.ts: hash the file, ask the
 * server for a part size, initiate a multipart upload, PUT the file to the
 * presigned URL unless the server already holds the content, complete the
 * upload, and optionally point an account's avatar at the new URL.
 *
 * The four endpoints and the presigned PUT are parameters (a `Backend` of
 * functions from request to reply), and the method returns, besides the
 * result, the calls it made in order, so that "no later step runs" is a
 * statement about that trace.
 */
module FileUpload {
  import opened Optional
  import opened JsText
  import opened Md5
  import opened Api
  import opened FileHashing

  /** A browser `File`: its name, its MIME type (`file.type`) and its bytes. */
  datatype File = File(name: string, mimeType: string, bytes: seq<byte>)

  /** `FileUploadConfig`: the object name, its content type, and whether to update an account's avatar. */
  datatype UploadConfig = UploadConfig(fileName: string, fileType: string, userID: Option<string>, updateAccount: bool)

  datatype InitRequest = InitRequest(hash: string, size: nat, partSize: int, maxParts: int, cause: string,
                                     name: string, contentType: string)

  /** `data.upload` of the initiate answer: the upload ID and the presigned part URLs (`sign.parts[k].url`). */
  datatype UploadTarget = UploadTarget(uploadID: string, partUrls: seq<string>)

  /** `data` of the initiate answer: a URL when the server already holds this content, otherwise where to upload. */
  datatype InitData = InitData(url: string, upload: Option<UploadTarget>)

  datatype PutRequest = PutRequest(url: string, contentType: string, body: seq<byte>)

  /** What `fetch(url, {method: 'PUT'})` gives: a rejection, or a response with its `ok` flag, status text and ETag header. */
  datatype PutReply = PutRejected(message: string) | PutAnswered(ok: bool, statusText: string, etag: Option<string>)

  datatype CompleteRequest = CompleteRequest(uploadID: string, parts: seq<string>, cause: string, name: string,
                                             contentType: string)

  datatype AccountUpdate = AccountUpdate(userID: string, faceURL: string)

  /**
   * The server side of one upload: what each endpoint answers when this
   * upload calls it. `missingTargetError` is the message of the TypeError
   * the JavaScript engine raises when an initiate answer without a URL
   * has no upload target or no part URL to read.
   */
  datatype Backend = Backend(
    partSize: Reply<int>,
    initiate: Reply<InitData>,
    put: PutReply,
    complete: Reply<string>,
    updateAccount: Reply<()>,
    missingTargetError: string)

  datatype Call =
    | PartSizeCall(size: nat)
    | InitiateCall(init: InitRequest)
    | PutCall(put: PutRequest)
    | CompleteCall(complete: CompleteRequest)
    | UpdateCall(update: AccountUpdate)

  /** The position of each call in the handshake. */
  function Stage(c: Call): nat
  {
    match c
    case PartSizeCall(_) => 0
    case InitiateCall(_) => 1
    case PutCall(_) => 2
    case CompleteCall(_) => 3
    case UpdateCall(_) => 4
  }

  /** Every call happens at most once, and never before a call of an earlier step. */
  predicate InHandshakeOrder(calls: seq<Call>)
  {
    forall i, j :: 0 <= i < j < |calls| ==> Stage(calls[i]) < Stage(calls[j])
  }

  /** Why an upload failed; each is caught by `uploadFile` and turned into `{url: '', success: false, error}`. */
  datatype UploadError =
    | PartSizeFailed(errMsg: string)
    | InitiateFailed(errMsg: string)
    | MissingUploadTarget(message: string)
    | PutFailed(statusText: string)
    | CompleteFailed(errMsg: string)
    | UpdateFailed(errMsg: string)
    | Exception(message: string)

  /**
   * The `error` text of a failed upload, `error.message || '上传失败'`: the
   * handshake's own errors name their step, and an exception or a
   * TypeError keeps its message when it has one.
   */
  function ErrorMessage(e: UploadError): (r: string)
    ensures r != ""
    ensures (e.Exception? || e.MissingUploadTarget?) && e.message != "" ==> r == e.message
    ensures (e.Exception? || e.MissingUploadTarget?) && e.message == "" ==> r == "上传失败"
  {
    match e
    case PartSizeFailed(m) => "获取分片大小失败: " + m
    case InitiateFailed(m) => "初始化分片上传失败: " + m
    case MissingUploadTarget(m) => Or(m, "上传失败")
    case PutFailed(t) => "上传失败: " + t
    case CompleteFailed(m) => "完成分片上传失败: " + m
    case UpdateFailed(m) => "更新账户信息失败: " + m
    case Exception(m) => Or(m, "上传失败")
  }

  /** `FileUploadResult`. */
  datatype UploadResult = UploadResult(url: string, success: bool, error: Option<UploadError>)

  /** `result.error || '上传失败'`: the text the pages show for a failed upload. */
  function FailureText(result: UploadResult): (r: string)
    ensures r != ""
    ensures result.error.Some? ==> r == ErrorMessage(result.error.value)
    ensures result.error.None? ==> r == "上传失败"
  {
    if result.error.Some? then ErrorMessage(result.error.value) else "上传失败"
  }

  function Failure(e: UploadError): UploadResult
  {
    UploadResult("", false, Some(e))
  }

  /** The endpoints that answer with an envelope. */
  datatype Endpoint = PartSizeEndpoint | InitiateEndpoint | CompleteEndpoint | UpdateEndpoint

  /** The error an envelope that is not a success turns into: an exception keeps its own message. */
  function ReplyError<T>(r: Reply<T>, endpoint: Endpoint): UploadError
  {
    if r.Threw? then Exception(r.message)
    else match endpoint
      case PartSizeEndpoint => PartSizeFailed(r.errMsg)
      case InitiateEndpoint => InitiateFailed(r.errMsg)
      case CompleteEndpoint => CompleteFailed(r.errMsg)
      case UpdateEndpoint => UpdateFailed(r.errMsg)
  }

  /** `s.replace(/"/g, '')`. */
  function RemoveQuotes(s: string): (r: string)
    ensures Excludes(r, '"')
    ensures |r| <= |s|
  {
    if |s| == 0 then ""
    else if s[0] == '"' then RemoveQuotes(s[1..])
    else [s[0]] + RemoveQuotes(s[1..])
  }

  /** A tag without quotes is left as it is. */
  lemma {:induction false} RemoveQuotesKeepsPlainTag(s: string)
    requires Excludes(s, '"')
    ensures RemoveQuotes(s) == s
  {
    if |s| > 0 {
      RemoveQuotesKeepsPlainTag(s[1..]);
      assert s == [s[0]] + s[1..];
    }
  }

  /** Removing quotes twice is removing them once. */
  lemma RemoveQuotesIdempotent(s: string)
    ensures RemoveQuotes(RemoveQuotes(s)) == RemoveQuotes(s)
  {
    RemoveQuotesKeepsPlainTag(RemoveQuotes(s));
  }

  /** `response.headers.get('ETag')?.replace(/"/g, '') || ''`. */
  function ETag(header: Option<string>): (r: string)
    ensures Excludes(r, '"')
    ensures header.None? ==> r == ""
  {
    if header.Some? then RemoveQuotes(header.value) else ""
  }

  /** `config.updateAccount && config.userID`. */
  predicate UpdatesAccount(config: UploadConfig)
  {
    config.updateAccount && config.userID.Some? && config.userID.value != ""
  }

  /** The initiate request for a file of this content hash, with the part size the server gave. */
  function InitRequestFor(hash: string, file: File, config: UploadConfig, partSize: int): InitRequest
  {
    InitRequest(hash, |file.bytes|, partSize, -1, "", config.fileName, config.fileType)
  }

  /** The avatar update that ends the handshake when the configuration asks for one, and nothing otherwise. */
  function UpdateCalls(config: UploadConfig, url: string): (r: seq<Call>)
    ensures |r| <= 1
  {
    if UpdatesAccount(config) then [UpdateCall(AccountUpdate(config.userID.value, url))] else []
  }

  /** The result once the final URL is known: a success, unless the account update asked for fails. */
  function ResultAfterUpdate(backend: Backend, config: UploadConfig, finalUrl: string): UploadResult
  {
    if UpdatesAccount(config) && !backend.updateAccount.Succeeded() then Failure(ReplyError(backend.updateAccount, UpdateEndpoint))
    else UploadResult(finalUrl, true, None)
  }

  /** `initResponse.data.upload` is there and `sign.parts[0]` exists. */
  predicate HasUploadTarget(d: InitData)
  {
    d.upload.Some? && |d.upload.value.partUrls| > 0
  }

  /**
   * The result `uploadFile` ends with, step by step: the error of the first
   * step that fails, otherwise the URL the server gave, at initiation when
   * it already holds the content, at completion otherwise.
   */
  function ExpectedResult(backend: Backend, config: UploadConfig): (r: UploadResult)
    ensures WellFormedResult(r)
  {
    if !backend.partSize.Succeeded() then Failure(ReplyError(backend.partSize, PartSizeEndpoint))
    else if !backend.initiate.Succeeded() then Failure(ReplyError(backend.initiate, InitiateEndpoint))
    else if backend.initiate.data.url != "" then ResultAfterUpdate(backend, config, backend.initiate.data.url)
    else if !HasUploadTarget(backend.initiate.data) then Failure(MissingUploadTarget(backend.missingTargetError))
    else if backend.put.PutRejected? then Failure(Exception(backend.put.message))
    else if !backend.put.ok then Failure(PutFailed(backend.put.statusText))
    else if !backend.complete.Succeeded() then Failure(ReplyError(backend.complete, CompleteEndpoint))
    else ResultAfterUpdate(backend, config, backend.complete.data)
  }

  /** Every step the upload reaches answers with success. */
  predicate EveryStepSucceeds(backend: Backend, config: UploadConfig)
  {
    backend.partSize.Succeeded() && backend.initiate.Succeeded()
    && (backend.initiate.data.url != ""
        || (HasUploadTarget(backend.initiate.data) && backend.put.PutAnswered? && backend.put.ok
            && backend.complete.Succeeded()))
    && (UpdatesAccount(config) ==> backend.updateAccount.Succeeded())
  }

  /** The URL of the uploaded object: the initiate answer's when it has one, the completion's otherwise. */
  function FinalUrl(backend: Backend): string
    requires backend.initiate.Answered? && backend.complete.Answered?
  {
    Or(backend.initiate.data.url, backend.complete.data)
  }

  /** An upload succeeds exactly when every step it reaches does, and then its URL is the server's final one. */
  lemma ExpectedResultSucceedsIff(backend: Backend, config: UploadConfig)
    ensures ExpectedResult(backend, config).success <==> EveryStepSucceeds(backend, config)
    ensures EveryStepSucceeds(backend, config) && backend.initiate.data.url != "" ==>
              ExpectedResult(backend, config) == UploadResult(backend.initiate.data.url, true, None)
    ensures EveryStepSucceeds(backend, config) && backend.initiate.data.url == "" ==>
              ExpectedResult(backend, config) == UploadResult(FinalUrl(backend), true, None)
  {
  }

  /** Step 6: update the account's avatar if asked to; an update that fails fails the upload. */
  method UpdateAccountIfAsked(backend: Backend, config: UploadConfig, finalUrl: string)
    returns (result: UploadResult, calls: seq<Call>)
    ensures calls == UpdateCalls(config, finalUrl)
    ensures calls == [] ==> result == UploadResult(finalUrl, true, None)
    ensures calls != [] ==>
              var r := backend.updateAccount;
              result == if r.Succeeded() then UploadResult(finalUrl, true, None) else Failure(ReplyError(r, UpdateEndpoint))
  {
    calls := [];
    if UpdatesAccount(config) {
      var update := AccountUpdate(config.userID.value, finalUrl);
      calls := [UpdateCall(update)];
      var updateResponse := backend.updateAccount;
      if !updateResponse.Succeeded() {
        return Failure(ReplyError(updateResponse, UpdateEndpoint)), calls;
      }
    }
    result := UploadResult(finalUrl, true, None);
  }

  /** Steps 4 and 5: PUT the whole file to the first presigned URL, then complete the upload with the part digests. */
  method PutAndComplete(backend: Backend, file: File, config: UploadConfig, target: UploadTarget, parts: seq<string>)
    returns (finalUrl: Option<string>, failure: Option<UploadError>, calls: seq<Call>)
    requires |target.partUrls| > 0
    ensures |calls| >= 1 && calls[0] == PutCall(PutRequest(target.partUrls[0], file.mimeType, file.bytes))
    ensures |calls| == 1 || calls == [calls[0], CompleteCall(CompleteRequest(target.uploadID, parts, "", config.fileName, config.fileType))]
    ensures finalUrl.Some? <==> failure.None?
    ensures finalUrl.Some? <==> |calls| == 2 && backend.complete.Succeeded()
    ensures backend.put.PutAnswered? && backend.put.ok && backend.complete.Succeeded() ==>
              finalUrl == Some(backend.complete.data)
    ensures |calls| == 1 <==> !(backend.put.PutAnswered? && backend.put.ok)
    ensures backend.put.PutRejected? ==> failure == Some(Exception(backend.put.message))
    ensures backend.put.PutAnswered? && !backend.put.ok ==> failure == Some(PutFailed(backend.put.statusText))
    ensures backend.put.PutAnswered? && backend.put.ok && !backend.complete.Succeeded() ==>
              failure == Some(ReplyError(backend.complete, CompleteEndpoint))
  {
    var put := PutRequest(target.partUrls[0], file.mimeType, file.bytes);
    calls := [PutCall(put)];
    var putResponse := backend.put;
    if putResponse.PutRejected? {
      return None, Some(Exception(putResponse.message)), calls;
    }
    if !putResponse.ok {
      return None, Some(PutFailed(putResponse.statusText)), calls;
    }
    var completeRequest := CompleteRequest(target.uploadID, parts, "", config.fileName, config.fileType);
    calls := calls + [CompleteCall(completeRequest)];
    var completeResponse := backend.complete;
    if !completeResponse.Succeeded() {
      return None, Some(ReplyError(completeResponse, CompleteEndpoint)), calls;
    }
    finalUrl, failure := Some(completeResponse.data), None;
  }

  /** The first call asks for the part size of the whole file, and no step runs twice or before an earlier one. */
  predicate OrderedFromPartSize(file: File, calls: seq<Call>)
  {
    |calls| >= 1 && calls[0] == PartSizeCall(|file.bytes|) && InHandshakeOrder(calls)
  }

  /** Only an upload configured to update an account calls the update, and for that account. */
  predicate UpdatesOnlyWhenAsked(config: UploadConfig, calls: seq<Call>)
  {
    forall i :: 0 <= i < |calls| && calls[i].UpdateCall? ==>
      UpdatesAccount(config) && calls[i].update.userID == config.userID.value
  }

  /** A success carries no error; a failure carries one and an empty URL. */
  predicate WellFormedResult(result: UploadResult)
  {
    (result.success <==> result.error.None?) && (!result.success ==> result.url == "")
  }

  /** A failed part-size request ends the upload with its error. */
  predicate StopsOnPartSizeFailure(backend: Backend, file: File, result: UploadResult, calls: seq<Call>)
  {
    !backend.partSize.Succeeded() ==>
      calls == [PartSizeCall(|file.bytes|)] && result == Failure(ReplyError(backend.partSize, PartSizeEndpoint))
  }

  /** The initiate request carries the content hash, the file size and the part size the server gave; its failure ends the upload. */
  predicate InitiatesWithHash(backend: Backend, file: File, config: UploadConfig, hash: string,
                              result: UploadResult, calls: seq<Call>)
  {
    backend.partSize.Succeeded() ==>
      |calls| >= 2 && calls[1] == InitiateCall(InitRequestFor(hash, file, config, backend.partSize.data))
      && (!backend.initiate.Succeeded() ==>
            |calls| == 2 && result == Failure(ReplyError(backend.initiate, InitiateEndpoint)))
  }

  /** When the server already holds the content there is no PUT and no completion, and its URL is the result. */
  predicate ShortCircuitsKnownContent(backend: Backend, config: UploadConfig, result: UploadResult, calls: seq<Call>)
  {
    backend.partSize.Succeeded() && backend.initiate.Succeeded() && backend.initiate.data.url != "" ==>
      |calls| >= 2 && calls[2..] == UpdateCalls(config, backend.initiate.data.url)
      && (result.success ==> result.url == backend.initiate.data.url)
  }

  /**
   * Otherwise a missing upload target is a failure; else the whole file
   * goes to the first presigned URL, the completion names every part
   * digest, and the completed URL is the result. A failed PUT ends the
   * upload before the completion, and a failed completion before any
   * account update.
   */
  predicate UploadsUnknownContent(backend: Backend, file: File, config: UploadConfig, parts: seq<string>,
                                  result: UploadResult, calls: seq<Call>)
  {
    backend.partSize.Succeeded() && backend.initiate.Succeeded() && backend.initiate.data.url == "" ==>
      var d := backend.initiate.data;
      if !HasUploadTarget(d) then
        |calls| == 2 && result == Failure(MissingUploadTarget(backend.missingTargetError))
      else
        |calls| >= 3 && calls[2] == PutCall(PutRequest(d.upload.value.partUrls[0], file.mimeType, file.bytes))
        && ((backend.put.PutAnswered? && backend.put.ok) <==> |calls| >= 4)
        && (|calls| >= 4 ==>
              calls[3] == CompleteCall(CompleteRequest(d.upload.value.uploadID, parts, "", config.fileName, config.fileType)))
        && (backend.put.PutAnswered? && backend.put.ok && !backend.complete.Succeeded() ==> |calls| == 4)
        && (backend.put.PutAnswered? && backend.put.ok && backend.complete.Succeeded() ==>
              calls[4..] == UpdateCalls(config, backend.complete.data))
        && (result.success ==>
              |calls| >= 4 && backend.complete.Answered? && result.url == backend.complete.data
              && calls[4..] == UpdateCalls(config, result.url))
  }

  /** Steps 2 to 6 of `uploadFile`, once the content hash is known. */
  method Handshake(backend: Backend, file: File, config: UploadConfig, fileHash: FileHash)
    returns (result: UploadResult, calls: seq<Call>)
    ensures OrderedFromPartSize(file, calls)
    ensures UpdatesOnlyWhenAsked(config, calls)
    ensures WellFormedResult(result)
    ensures StopsOnPartSizeFailure(backend, file, result, calls)
    ensures InitiatesWithHash(backend, file, config, fileHash.hash, result, calls)
    ensures ShortCircuitsKnownContent(backend, config, result, calls)
    ensures UploadsUnknownContent(backend, file, config, fileHash.parts, result, calls)
    ensures result == ExpectedResult(backend, config)
  {
    calls := [PartSizeCall(|file.bytes|)];
    var partSizeResponse := backend.partSize;
    if !partSizeResponse.Succeeded() {
      return Failure(ReplyError(partSizeResponse, PartSizeEndpoint)), calls;
    }
    var initRequest := InitRequest(fileHash.hash, |file.bytes|, partSizeResponse.data, -1, "", config.fileName, config.fileType);
    calls := calls + [InitiateCall(initRequest)];
    var initResponse := backend.initiate;
    if !initResponse.Succeeded() {
      return Failure(ReplyError(initResponse, InitiateEndpoint)), calls;
    }
    var finalUrl: string;
    if initResponse.data.url != "" {
      finalUrl := initResponse.data.url;
    } else {
      if initResponse.data.upload.None? || |initResponse.data.upload.value.partUrls| == 0 {
        return Failure(MissingUploadTarget(backend.missingTargetError)), calls;
      }
      var completed, failure, transferCalls := PutAndComplete(backend, file, config, initResponse.data.upload.value, fileHash.parts);
      calls := calls + transferCalls;
      if failure.Some? {
        return Failure(failure.value), calls;
      }
      finalUrl := completed.value;
    }
    var updateCalls;
    result, updateCalls := UpdateAccountIfAsked(backend, config, finalUrl);
    calls := calls + updateCalls;
  }

  /** `uploadFile`: hash the file, then run the handshake; every exception is caught into a failed result. */
  method UploadFile(md5: Hasher, backend: Backend, file: File, config: UploadConfig)
    returns (result: UploadResult, calls: seq<Call>, fileHash: FileHash)
    ensures fileHash.parts == PartDigests(md5, file.bytes, PART_SIZE)
    ensures fileHash.hash == CombinedHash(md5, fileHash.parts)
    ensures OrderedFromPartSize(file, calls)
    ensures UpdatesOnlyWhenAsked(config, calls)
    ensures WellFormedResult(result)
    ensures StopsOnPartSizeFailure(backend, file, result, calls)
    ensures InitiatesWithHash(backend, file, config, fileHash.hash, result, calls)
    ensures ShortCircuitsKnownContent(backend, config, result, calls)
    ensures UploadsUnknownContent(backend, file, config, fileHash.parts, result, calls)
    ensures result == ExpectedResult(backend, config)
  {
    fileHash := CalculateFileHash(md5, file.bytes);
    result, calls := Handshake(backend, file, config, fileHash);
  }

  /**
   * Every guarantee `uploadFile` gives about its calls and its result, with
   * the part digests and the combined hash of the file's 1 MiB parts: the
   * callers of the two facades re-state it through this predicate.
   */
  predicate UploadTrace(md5: Hasher, backend: Backend, file: File, config: UploadConfig,
                        result: UploadResult, calls: seq<Call>)
  {
    var parts := PartDigests(md5, file.bytes, PART_SIZE);
    && OrderedFromPartSize(file, calls)
    && UpdatesOnlyWhenAsked(config, calls)
    && WellFormedResult(result)
    && StopsOnPartSizeFailure(backend, file, result, calls)
    && InitiatesWithHash(backend, file, config, CombinedHash(md5, parts), result, calls)
    && ShortCircuitsKnownContent(backend, config, result, calls)
    && UploadsUnknownContent(backend, file, config, parts, result, calls)
  }

  /** The configuration `uploadAvatar` passes: `<userID>/<file name>`, updating that account. */
  function AvatarConfig(file: File, userID: string): UploadConfig
  {
    UploadConfig(userID + "/" + file.name, file.mimeType, Some(userID), true)
  }

  /** The configuration `uploadGenericFile` passes: the caller's object name, no account. */
  function GenericConfig(file: File, fileName: string): UploadConfig
  {
    UploadConfig(fileName, file.mimeType, None, false)
  }

  /** `uploadAvatar`: the object is named `<userID>/<file name>` and, once uploaded, becomes the account's avatar. */
  method UploadAvatar(md5: Hasher, backend: Backend, file: File, userID: string)
    returns (result: UploadResult, calls: seq<Call>)
    ensures backend.partSize.Succeeded() ==>
              |calls| >= 2 && calls[1].InitiateCall?
              && calls[1].init.name == userID + "/" + file.name && calls[1].init.contentType == file.mimeType
    ensures result.success && userID != "" ==> |calls| >= 1 && calls[|calls| - 1] == UpdateCall(AccountUpdate(userID, result.url))
    ensures userID == "" ==> forall i :: 0 <= i < |calls| ==> !calls[i].UpdateCall?
    ensures UploadTrace(md5, backend, file, AvatarConfig(file, userID), result, calls)
    ensures result == ExpectedResult(backend, AvatarConfig(file, userID))
  {
    var fileHash;
    result, calls, fileHash := UploadFile(md5, backend, file, AvatarConfig(file, userID));
  }

  /** `uploadGenericFile`: the caller names the object, and no account is touched. */
  method UploadGenericFile(md5: Hasher, backend: Backend, file: File, fileName: string)
    returns (result: UploadResult, calls: seq<Call>)
    ensures backend.partSize.Succeeded() ==>
              |calls| >= 2 && calls[1].InitiateCall?
              && calls[1].init.name == fileName && calls[1].init.contentType == file.mimeType
    ensures forall i :: 0 <= i < |calls| ==> !calls[i].UpdateCall?
    ensures UploadTrace(md5, backend, file, GenericConfig(file, fileName), result, calls)
    ensures result == ExpectedResult(backend, GenericConfig(file, fileName))
  {
    var fileHash;
    result, calls, fileHash := UploadFile(md5, backend, file, GenericConfig(file, fileName));
  }
}
