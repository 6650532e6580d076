/**
  The rest of the main page of front/src/components/MainApp.js: the text
  search `fetchNewRecipe`, the two navigation guards, and the character name
  and avatar lookups with their `|| ""` fallback.
 */
module MainApp {
  import opened Wrappers
  import opened Json
  import JsText
  import Upload

  datatype Effect =
    | Alert(msg: string)
    | Navigate(path: string, recipe: Option<Json>)  // navigate(path, { state: { recipe } })
    | Search(query: string)                         // axios.post("/upload", { query })

  const EMPTY_QUERY := "검색어를 입력해주세요!"
  const NO_RECIPE_TO_COOK := "레시피가 없습니다! 먼저 검색을 진행해주세요."
  const NO_RECIPE_TO_BUY := "레시피를 먼저 검색해주세요."

  /**
    `fetchNewRecipe()`: a blank input only alerts; otherwise the page is
    cleared, the input box emptied, and the typed text sent. A failure goes
    back to "idle" without an error message.
   */
  function FetchNewRecipe(p: Upload.Page, input: string, backend: Outcome<Json>): (r: (Upload.Page, string, seq<Effect>))
    ensures JsText.IsBlank(input) ==> r == (p, input, [Alert(EMPTY_QUERY)])
    ensures !JsText.IsBlank(input) ==>
      && r.1 == ""
      && r.2 == [Search(input)]
      && r.0.error.None? && r.0.result.None? && r.0.imageUrl.None?
    ensures !JsText.IsBlank(input) && backend.Ok? ==>
      r.0.status == Upload.Complete && r.0.searchResult == Some(backend.value)
    ensures !JsText.IsBlank(input) && backend.Fail? ==>
      r.0.status == Upload.Idle && r.0.searchResult.None?
  {
    if JsText.IsBlank(input) then (p, input, [Alert(EMPTY_QUERY)])
    else
      var cleared := p.(error := None, result := None, searchResult := None, imageUrl := None, status := Upload.Extracting);
      match backend
      case Ok(data) => (cleared.(searchResult := Some(data), status := Upload.Complete), "", [Search(input)])
      case Fail(_) => (cleared.(status := Upload.Idle), "", [Search(input)])
  }

  /** `handleStartCooking()`: only a result with a truthy `dish` opens the cooking page, carrying the result. */
  function StartCooking(result: Option<Json>): (r: Effect)
    ensures r.Navigate? <==> Truthy(Field(result, "dish"))
    ensures r.Navigate? ==> r == Navigate("/cooking", result)
    ensures r.Alert? ==> r.msg == NO_RECIPE_TO_COOK
  {
    if !Truthy(result) || !Truthy(Field(result, "dish")) then Alert(NO_RECIPE_TO_COOK)
    else Navigate("/cooking", result)
  }

  /** `handleNavigateToPurchase()`: any truthy result opens the purchase page. */
  function StartPurchase(result: Option<Json>): (r: Effect)
    ensures r.Navigate? <==> Truthy(result)
    ensures r.Navigate? ==> r == Navigate("/purchase", result)
    ensures r.Alert? ==> r.msg == NO_RECIPE_TO_BUY
  {
    if !Truthy(result) then Alert(NO_RECIPE_TO_BUY) else Navigate("/purchase", result)
  }

  /** The characters `NAME_MAP` and `IMG_MAP` know. */
  const CHARACTERS: seq<string> := ["baek", "seung", "jang"]

  /** `NAME_MAP[character] || ""`; a `null` character looks up the key "null", which is absent. */
  function DisplayName(character: Option<string>): (r: string)
    requires character.Some? ==> !JsText.IsPrototypeKey(character.value)
    ensures r != "" <==> character.Some? && character.value in CHARACTERS
    ensures character == Some("baek") ==> r == "빽AI"
    ensures character == Some("seung") ==> r == "3스타AI"
    ensures character == Some("jang") ==> r == "장금이"
  {
    match character
    case Some("baek") => "빽AI"
    case Some("seung") => "3스타AI"
    case Some("jang") => "장금이"
    case _ => ""
  }

  /** `IMG_MAP[character] || ""`: the avatar is `/images/<id>.png` for a known character. */
  function Avatar(character: Option<string>): (r: string)
    requires character.Some? ==> !JsText.IsPrototypeKey(character.value)
    ensures r != "" <==> character.Some? && character.value in CHARACTERS
    ensures r != "" ==> r == "/images/" + character.value + ".png"
  {
    match character
    case Some("baek") => "/images/baek.png"
    case Some("seung") => "/images/seung.png"
    case Some("jang") => "/images/jang.png"
    case _ => ""
  }

  /** A name and an avatar are shown together or not at all. */
  lemma NameAndAvatarAgree(character: Option<string>)
    requires character.Some? ==> !JsText.IsPrototypeKey(character.value)
    ensures DisplayName(character) == "" <==> Avatar(character) == ""
  {
  }

  /** A recipe that opens the cooking page also opens the purchase page, not conversely. */
  lemma CookableIsPurchasable(result: Option<Json>)
    ensures StartCooking(result).Navigate? ==> StartPurchase(result).Navigate?
    ensures StartPurchase(Some(JObj(map[]))).Navigate? && StartCooking(Some(JObj(map[]))).Alert?
  {
  }
}
