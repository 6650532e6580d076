/**
  Recipe extraction from a photo or a typed query: the file validation, the
  choice of payload and the status sequence of the three `handleUpload`
  revisions (front/src/components/MainApp.js, the `MainApp` of
  front/checkpoint.js, and front/src/App.js). Firebase Storage and the
  backend are parameters: each is given as the outcome of its call.
 */
module Upload {
  import opened Wrappers
  import opened Json
  import JsText

  datatype File = File(name: string, size: nat, mime: string)

  /** The JSON body posted to `/upload`. */
  datatype Payload = Query(text: string) | ImageUrl(url: string)

  datatype Status = Idle | Processing | Uploading | Extracting | Complete

  /** The outside calls a handler makes, in order. */
  datatype Call =
    | StoreImage(name: string)       // uploadBytes to `images/<name>`, then getDownloadURL
    | PostPayload(payload: Payload)  // POST `/upload` with a JSON body
    | PostFile(name: string)         // POST `/upload` with the file as form data

  /** The page state a handler writes. */
  datatype Page = Page(
    error: Option<string>,
    result: Option<Json>,
    searchResult: Option<Json>,
    imageUrl: Option<string>,
    status: Status)

  /** What one handler run did: the page it left, every `setStatus` in order, and its outside calls. */
  datatype Trace = Trace(page: Page, statuses: seq<Status>, calls: seq<Call>)

  const MAX_FILE_SIZE: nat := 5 * 1024 * 1024
  const SUPPORTED_FILE_TYPES: seq<string> := ["image/jpeg", "image/png", "image/gif"]

  const SIZE_ERROR := "파일 크기는 5MB를 초과할 수 없습니다."
  /** The type message of MainApp.js. */
  const TYPE_ERROR := "지원되지 않는 파일 형식입니다."
  /** The type message of checkpoint.js and App.js, which names the formats. */
  const TYPE_ERROR_LISTED := "지원되지 않는 파일 형식입니다. (지원: JPEG, PNG, GIF)"
  const NO_INPUT_ERROR := "텍스트를 입력하거나 이미지를 업로드해주세요."
  const ERROR_PREFIX := "오류 발생: "
  const UNKNOWN_ERROR := "알 수 없는 오류"

  /** The file passes both client-side checks. */
  predicate Acceptable(f: File) {
    f.size <= MAX_FILE_SIZE && f.mime in SUPPORTED_FILE_TYPES
  }

  /** `오류 발생: ${err.message || "알 수 없는 오류"}`. */
  function ErrorText(message: string): (r: string)
    ensures JsText.StartsWith(r, ERROR_PREFIX)
    ensures message != "" ==> r[|ERROR_PREFIX|..] == message
    ensures message == "" ==> r[|ERROR_PREFIX|..] == UNKNOWN_ERROR
  {
    ERROR_PREFIX + (if message == "" then UNKNOWN_ERROR else message)
  }

  /** The file check of MainApp/checkpoint: the thrown message, size first; `None` when the file passes. */
  function FileError(f: File, typeError: string): (r: Option<string>)
    ensures r.None? <==> Acceptable(f)
    ensures f.size > MAX_FILE_SIZE ==> r == Some(SIZE_ERROR)
    ensures f.size <= MAX_FILE_SIZE && f.mime !in SUPPORTED_FILE_TYPES ==> r == Some(typeError)
  {
    if f.size > MAX_FILE_SIZE then Some(SIZE_ERROR)
    else if f.mime !in SUPPORTED_FILE_TYPES then Some(typeError)
    else None
  }

  /**
    How every handler run that gets past its guards ends: "idle" with a
    prefixed error, or "complete" with no error and the backend's answer.
   */
  predicate Finished(r: Trace, backend: Outcome<Json>) {
    || (r.page.status == Idle && r.page.error.Some? && JsText.StartsWith(r.page.error.value, ERROR_PREFIX))
    || (r.page.status == Complete && r.page.error.None? && backend.Ok? && r.page.result == Some(backend.value))
  }

  /** The `catch` block: the prefixed message and back to "idle". */
  function Failed(p: Page, statuses: seq<Status>, calls: seq<Call>, message: string): (r: Trace)
    ensures r.page.status == Idle && r.page.error == Some(ErrorText(message))
    ensures r.statuses == statuses + [Idle] && r.calls == calls
  {
    Trace(p.(error := Some(ErrorText(message)), status := Idle), statuses + [Idle], calls)
  }

  /**
    The tail shared by both JSON-payload handlers: `fetchRecipeFromBackend`
    sets "extracting", posts the payload and stores the answer.
   */
  function Extract(p: Page, statuses: seq<Status>, calls: seq<Call>, payload: Payload, backend: Outcome<Json>): (r: Trace)
    requires p.error.None?
    ensures Finished(r, backend)
    ensures r.calls == calls + [PostPayload(payload)]
    ensures |r.statuses| == |statuses| + 2
    ensures r.statuses[..|statuses| + 1] == statuses + [Extracting]
    ensures backend.Ok? ==> r.page == p.(result := Some(backend.value), status := Complete)
    ensures r.page.status == Complete ==> r.statuses == statuses + [Extracting, Complete]
    ensures backend.Fail? ==> r == Failed(p, statuses + [Extracting], calls + [PostPayload(payload)], backend.message)
  {
    var calls' := calls + [PostPayload(payload)];
    match backend
    case Ok(data) => Trace(p.(result := Some(data), status := Complete), statuses + [Extracting, Complete], calls')
    case Fail(m) => Failed(p, statuses + [Extracting], calls', m)
  }

  /**
    `handleUpload(file)` of MainApp.js (`typeError` = TYPE_ERROR) and of the
    `MainApp` in checkpoint.js (`typeError` = TYPE_ERROR_LISTED): a non-blank
    input is sent as typed, an accepted and stored image replaces it, and
    neither is an error.
   */
  function MainUpload(p: Page, typeError: string, input: string, file: Option<File>,
                      storage: Outcome<string>, backend: Outcome<Json>): (r: Trace)
    ensures |r.statuses| >= 2 && r.statuses[0] == Processing
    ensures Finished(r, backend)
    ensures r.page.status == Complete ==> r.statuses == [Processing, Extracting, Complete]
    ensures r.page.searchResult.None?
    // the image is only stored once both file checks pass
    ensures file.Some? && Acceptable(file.value) ==> |r.calls| >= 1 && r.calls[0] == StoreImage(file.value.name)
    ensures file.Some? && !Acceptable(file.value) ==>
      r == Failed(p.(error := None, result := None, searchResult := None, imageUrl := None), [Processing], [],
                  FileError(file.value, typeError).value)
    // the payload posted: the stored image's URL if there is one, otherwise the untrimmed text
    ensures file.Some? && Acceptable(file.value) && storage.Ok? ==>
      r.calls == [StoreImage(file.value.name), PostPayload(ImageUrl(storage.value))]
      && r.page.imageUrl == Some(storage.value)
    ensures file.None? && !JsText.IsBlank(input) ==> r.calls == [PostPayload(Query(input))]
    ensures file.None? && JsText.IsBlank(input) ==>
      r.calls == [] && r.page.error == Some(ErrorText(NO_INPUT_ERROR))
  {
    var cleared := p.(error := None, result := None, searchResult := None, imageUrl := None, status := Processing);
    match file
    case None => SendText(cleared, input, backend)
    case Some(f) =>
      match FileError(f, typeError)
      case Some(m) => Failed(cleared, [Processing], [], m)
      case None => SendImage(cleared, f, storage, backend)
  }

  /** The no-file branch of `MainUpload`: a non-blank input is posted as typed, untrimmed. */
  function SendText(cleared: Page, input: string, backend: Outcome<Json>): (r: Trace)
    requires cleared.error.None?
    ensures Finished(r, backend)
    ensures r.page.searchResult == cleared.searchResult
    ensures |r.statuses| >= 2 && r.statuses[0] == Processing
    ensures r.page.status == Complete ==> r.statuses == [Processing, Extracting, Complete]
    ensures !JsText.IsBlank(input) ==> r.calls == [PostPayload(Query(input))]
    ensures JsText.IsBlank(input) ==> r == Failed(cleared, [Processing], [], NO_INPUT_ERROR)
  {
    if JsText.IsBlank(input) then Failed(cleared, [Processing], [], NO_INPUT_ERROR)
    else Extract(cleared, [Processing], [], Query(input), backend)
  }

  /** The accepted-file branch of `MainUpload`: store the image, then post its URL. */
  function SendImage(cleared: Page, f: File, storage: Outcome<string>, backend: Outcome<Json>): (r: Trace)
    requires cleared.error.None?
    ensures Finished(r, backend)
    ensures r.page.searchResult == cleared.searchResult
    ensures r.page.status == Complete ==> r.statuses == [Processing, Extracting, Complete]
    ensures |r.statuses| >= 2 && r.statuses[0] == Processing
    ensures |r.calls| >= 1 && r.calls[0] == StoreImage(f.name)
    ensures storage.Fail? ==> r == Failed(cleared, [Processing], [StoreImage(f.name)], storage.message)
    ensures storage.Ok? ==> r.calls == [StoreImage(f.name), PostPayload(ImageUrl(storage.value))]
    ensures storage.Ok? ==> r.page.imageUrl == Some(storage.value)
  {
    match storage
    case Fail(m) => Failed(cleared, [Processing], [StoreImage(f.name)], m)
    case Ok(url) => Extract(cleared.(imageUrl := Some(url)), [Processing], [StoreImage(f.name)], ImageUrl(url), backend)
  }

  /**
    `handleUpload(file)` of App.js: without a file nothing happens; a file
    that fails a check only sets the error, size checked first; an accepted
    file clears the page, is stored, then posted as form data.
   */
  function AppUpload(p: Page, file: Option<File>, storage: Outcome<string>, backend: Outcome<Json>): (r: Trace)
    ensures file.None? ==> r == Trace(p, [], [])
    ensures file.Some? && file.value.size > MAX_FILE_SIZE ==> r == Trace(p.(error := Some(SIZE_ERROR)), [], [])
    ensures file.Some? && file.value.size <= MAX_FILE_SIZE && file.value.mime !in SUPPORTED_FILE_TYPES ==>
      r == Trace(p.(error := Some(TYPE_ERROR_LISTED)), [], [])
    ensures file.Some? && Acceptable(file.value) ==>
      && |r.statuses| >= 1 && |r.calls| >= 1
      && r.statuses[0] == Uploading
      && r.calls[0] == StoreImage(file.value.name)
      && r.page.searchResult == p.searchResult
    ensures file.Some? && Acceptable(file.value) && storage.Ok? && backend.Ok? ==>
      && r.statuses == [Uploading, Extracting, Extracting, Complete]
      && r.calls == [StoreImage(file.value.name), PostFile(file.value.name)]
      && r.page == p.(error := None, result := Some(backend.value), imageUrl := Some(storage.value), status := Complete)
    ensures file.Some? && Acceptable(file.value) && (storage.Fail? || backend.Fail?) ==>
      r.page.status == Idle && r.page.result.None? && r.page.error.Some?
      && JsText.StartsWith(r.page.error.value, ERROR_PREFIX)
  {
    match file
    case None => Trace(p, [], [])
    case Some(f) =>
      if f.size > MAX_FILE_SIZE then Trace(p.(error := Some(SIZE_ERROR)), [], [])
      else if f.mime !in SUPPORTED_FILE_TYPES then Trace(p.(error := Some(TYPE_ERROR_LISTED)), [], [])
      else
        var cleared := p.(error := None, result := None, imageUrl := None, status := Uploading);
        match storage
        case Fail(m) => Failed(cleared, [Uploading], [StoreImage(f.name)], m)
        case Ok(url) =>
          var stored := cleared.(imageUrl := Some(url), status := Extracting);
          // fetchRecipeFromBackend sets "extracting" a second time before posting
          var calls := [StoreImage(f.name), PostFile(f.name)];
          match backend
          case Ok(data) => Trace(stored.(result := Some(data), status := Complete), [Uploading, Extracting, Extracting, Complete], calls)
          case Fail(m) => Failed(stored, [Uploading, Extracting, Extracting], calls, m)
  }

  /** The size limit is inclusive: exactly 5 MiB passes, one byte more does not. */
  lemma SizeLimitIsInclusive(name: string, mime: string)
    requires mime in SUPPORTED_FILE_TYPES
    ensures Acceptable(File(name, 5 * 1024 * 1024, mime))
    ensures !Acceptable(File(name, 5 * 1024 * 1024 + 1, mime))
  {
  }

  /** In every revision an oversize file of the wrong type reports its size, never its type. */
  lemma SizeIsCheckedBeforeType(p: Page, f: File, input: string, storage: Outcome<string>, backend: Outcome<Json>)
    requires f.size > MAX_FILE_SIZE && f.mime !in SUPPORTED_FILE_TYPES
    ensures MainUpload(p, TYPE_ERROR, input, Some(f), storage, backend).page.error == Some(ErrorText(SIZE_ERROR))
    ensures AppUpload(p, Some(f), storage, backend).page.error == Some(SIZE_ERROR)
  {
  }

  /** An accepted image wins over typed text in both MainApp revisions: the query is never sent. */
  lemma ImageOverridesText(p: Page, typeError: string, input: string, f: File, url: string, backend: Outcome<Json>)
    requires Acceptable(f)
    ensures PostPayload(Query(input)) !in MainUpload(p, typeError, input, Some(f), Ok(url), backend).calls
  {
    var calls := MainUpload(p, typeError, input, Some(f), Ok(url), backend).calls;
    assert calls == [StoreImage(f.name), PostPayload(ImageUrl(url))];
  }
}
