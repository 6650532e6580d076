/**
  The backend `/upload` route in its two revisions: server.js takes an image
  URL from the JSON body, serverBackUP.js takes the uploaded file and stores
  it first. Both ask the vision model for a recipe and shape its JSON answer
  with fallbacks. The storage and the model are parameters: the outcome of
  each call.
 */
module RecipeRoute {
  import opened Wrappers
  import opened Json
  import JsText

  datatype Response = Response(status: nat, body: Json)

  /** How the model call ended: it threw, or it answered with content that `JSON.parse` read (`None`: it threw). */
  datatype ModelReply = ModelFailed | Answered(parsed: Option<Json>)

  /** The outside calls a route makes, in order. */
  datatype Call =
    | StoreUpload(path: string)  // uploadBytes to `path`, then getDownloadURL
    | AskModel(imageUrl: Json)   // chat.completions.create with the image URL

  /** A file received by `multer`. */
  datatype File = File(originalname: string)

  const NO_DISH := "요리의 이름을 찾지 못 했습니다."
  const NO_RECIPE := "제공되는 레시피가 없습니다."
  const URL_REQUIRED := "Image URL is required"
  const NO_FILE := "No file uploaded."
  const MODEL_FAILED := "Failed to fetch data from OpenAI API."
  const PARSE_FAILED := "Failed to parse OpenAI response."
  const UNEXPECTED := "An unexpected error occurred. Please try again later."

  /**
    The recipe sent to the client from the parsed answer: `dish_name`,
    `ingredients` and `instructions`, each replaced by its fallback only
    when falsy.
   */
  function Shape(parsed: Option<Json>): (r: Json)
    ensures r.JObj? && r.fields.Keys == {"dish", "ingredients", "instructions"}
    ensures Truthy(Field(parsed, "dish_name")) ==> r.fields["dish"] == Field(parsed, "dish_name").value
    ensures !Truthy(Field(parsed, "dish_name")) ==> r.fields["dish"] == JStr(NO_DISH)
    ensures Truthy(Field(parsed, "ingredients")) ==> r.fields["ingredients"] == Field(parsed, "ingredients").value
    ensures !Truthy(Field(parsed, "ingredients")) ==> r.fields["ingredients"] == JArr([])
    ensures Truthy(Field(parsed, "instructions")) ==> r.fields["instructions"] == Field(parsed, "instructions").value
    ensures !Truthy(Field(parsed, "instructions")) ==> r.fields["instructions"] == JStr(NO_RECIPE)
  {
    JObj(map[
      "dish" := Or(Field(parsed, "dish_name"), JStr(NO_DISH)),
      "ingredients" := Or(Field(parsed, "ingredients"), JArr([])),
      "instructions" := Or(Field(parsed, "instructions"), JStr(NO_RECIPE))
    ])
  }

  /** The part after the image URL is known, shared by both revisions. */
  function Answer(reply: ModelReply): (r: Response)
    ensures reply.ModelFailed? ==> r == Response(500, ErrorBody(MODEL_FAILED))
    ensures reply.Answered? && reply.parsed.None? ==> r == Response(500, ErrorBody(PARSE_FAILED))
    ensures r.status == 200 <==> reply.Answered? && reply.parsed.Some?
    ensures r.status == 200 ==> r.body == Shape(reply.parsed)
  {
    match reply
    case ModelFailed => Response(500, ErrorBody(MODEL_FAILED))
    case Answered(None) => Response(500, ErrorBody(PARSE_FAILED))
    case Answered(parsed) => Response(200, Shape(parsed))
  }

  /**
    server.js: `const { imageUrl } = req.body`; a falsy URL is a 400 before
    any model call. Destructuring an absent or `null` body throws into the
    outer `catch`.
   */
  function ServerUpload(body: Option<Json>, reply: ModelReply): (r: (Response, seq<Call>))
    ensures body.None? || body == Some(JNull) ==> r == (Response(500, ErrorBody(UNEXPECTED)), [])
    ensures body.Some? && body != Some(JNull) && !Truthy(Field(body, "imageUrl")) ==>
      r == (Response(400, ErrorBody(URL_REQUIRED)), [])
    ensures r.1 != [] <==> body.Some? && Truthy(Field(body, "imageUrl"))
    ensures r.1 != [] ==> r == (Answer(reply), [AskModel(Field(body, "imageUrl").value)])
  {
    if body.None? || body == Some(JNull) then (Response(500, ErrorBody(UNEXPECTED)), [])
    else
      var imageUrl := Field(body, "imageUrl");
      if !Truthy(imageUrl) then (Response(400, ErrorBody(URL_REQUIRED)), [])
      else (Answer(reply), [AskModel(imageUrl.value)])
  }

  /** `uploads/${Date.now()}_${originalname}`, with the clock reading `now`. */
  function UploadPath(now: nat, f: File): string {
    "uploads/" + JsText.NatToString(now) + "_" + f.originalname
  }

  /**
    serverBackUP.js: no file is a 400; the file is stored under a
    time-stamped name, and a storage failure lands in the outer `catch`;
    the download URL goes to the model.
   */
  function BackupUpload(file: Option<File>, now: nat, storage: Outcome<string>, reply: ModelReply): (r: (Response, seq<Call>))
    ensures file.None? ==> r == (Response(400, ErrorBody(NO_FILE)), [])
    ensures file.Some? ==> |r.1| >= 1 && r.1[0] == StoreUpload(UploadPath(now, file.value))
    ensures file.Some? && storage.Fail? ==> r == (Response(500, ErrorBody(UNEXPECTED)), [StoreUpload(UploadPath(now, file.value))])
    ensures file.Some? && storage.Ok? ==>
      r == (Answer(reply), [StoreUpload(UploadPath(now, file.value)), AskModel(JStr(storage.value))])
  {
    match file
    case None => (Response(400, ErrorBody(NO_FILE)), [])
    case Some(f) =>
      var path := UploadPath(now, f);
      match storage
      case Fail(_) => (Response(500, ErrorBody(UNEXPECTED)), [StoreUpload(path)])
      case Ok(url) => (Answer(reply), [StoreUpload(path), AskModel(JStr(url))])
  }

  /** A complete answer passes through unchanged, an empty instruction list included. */
  lemma CompleteAnswerPassesThrough(dish: string, ingredients: seq<Json>, instructions: seq<Json>)
    requires dish != ""
    ensures var parsed := JObj(map["dish_name" := JStr(dish), "ingredients" := JArr(ingredients), "instructions" := JArr(instructions)]);
      Shape(Some(parsed)) == JObj(map["dish" := JStr(dish), "ingredients" := JArr(ingredients), "instructions" := JArr(instructions)])
  {
  }

  /** An answer with none of the fields (or `null`) gets every fallback. */
  lemma EmptyAnswerGetsFallbacks(parsed: Option<Json>)
    requires parsed == Some(JNull) || parsed == Some(JObj(map[]))
    ensures Shape(parsed) == JObj(map["dish" := JStr(NO_DISH), "ingredients" := JArr([]), "instructions" := JStr(NO_RECIPE)])
  {
  }

  /** Once the image URL is known, both revisions answer the same for the same model reply. */
  lemma RevisionsAgreeAfterTheUrl(url: string, f: File, now: nat, reply: ModelReply)
    requires url != ""
    ensures ServerUpload(Some(JObj(map["imageUrl" := JStr(url)])), reply).0 == BackupUpload(Some(f), now, Ok(url), reply).0
    ensures ServerUpload(Some(JObj(map["imageUrl" := JStr(url)])), reply).1[0] == BackupUpload(Some(f), now, Ok(url), reply).1[1]
  {
  }

  /**
    The `{ query }` body the main page posts for a typed search has no
    `imageUrl`: server.js refuses it before asking the model.
   */
  lemma TextQueryIsRefused(query: string, reply: ModelReply)
    ensures ServerUpload(Some(JObj(map["query" := JStr(query)])), reply) == (Response(400, ErrorBody(URL_REQUIRED)), [])
  {
    assert "imageUrl" !in map["query" := JStr(query)];
  }
}
