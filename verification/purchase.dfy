/**
  The ingredient shopping page front/src/pages/PurchasePage.js: one radio
  selection among the recipe's ingredients, the guarded search with its
  loading and error handling, and the bold-tag stripping of result titles.
  The shopping search itself is a parameter: the outcome of its call.
 */
module Purchase {
  import opened Wrappers
  import JsText

  datatype Ingredient = Ingredient(name: string, quantity: string)

  /** A shopping result as the search API returns it; `title` may hold `<b>` highlights. */
  datatype Item = Item(title: string, link: string, image: string)

  datatype Page = Page(selected: string, results: seq<Item>, loading: bool, error: Option<string>)

  datatype Effect = Alert(msg: string) | SearchFor(ingredient: string)

  const Initial := Page("", [], false, None)

  const NOTHING_SELECTED := "구매할 재료를 선택해주세요."
  const NO_ITEMS := "검색된 상품이 없습니다. 다른 재료를 선택해 주세요."
  const SEARCH_FAILED := "검색 결과를 가져오는 중 오류가 발생했습니다."

  /** The radio of ingredient `i` is checked: the selection becomes exactly that ingredient's name. */
  function Choose(p: Page, ingredients: seq<Ingredient>, i: nat): (r: Page)
    requires i < |ingredients|
    ensures r.selected == ingredients[i].name
    ensures r.results == p.results && r.loading == p.loading && r.error == p.error
  {
    p.(selected := ingredients[i].name)
  }

  /** The radio checked for a selection: every ingredient whose name equals it. */
  predicate Checked(p: Page, ingredients: seq<Ingredient>, i: nat)
    requires i < |ingredients|
  {
    p.selected == ingredients[i].name
  }

  /** Choosing a radio checks it, and unchecks every ingredient with another name. */
  lemma ChooseChecksOne(p: Page, ingredients: seq<Ingredient>, i: nat, j: nat)
    requires i < |ingredients| && j < |ingredients|
    ensures Checked(Choose(p, ingredients, i), ingredients, j) <==> ingredients[j].name == ingredients[i].name
  {
  }

  /** The state while the request is in flight: loading, with the error and the old results cleared. */
  function SearchBegin(p: Page): (r: Page)
    ensures r.loading && r.error.None? && r.results == [] && r.selected == p.selected
  {
    p.(loading := true, error := None, results := [])
  }

  /**
    The request's end, `finally` included: `data.items` when there are any,
    otherwise the no-items message; a thrown request (a missing `items` too)
    gives the failure message. `None` is a falsy `response.data`.
   */
  function SearchEnd(p: Page, response: Outcome<Option<seq<Item>>>): (r: Page)
    requires p.results == [] && p.error.None?
    ensures !r.loading && r.selected == p.selected
    ensures r.results != [] <==> response.Ok? && response.value.Some? && response.value.value != []
    ensures r.results != [] ==> r.results == response.value.value && r.error.None?
    ensures response.Ok? && r.results == [] ==> r.error == Some(NO_ITEMS)
    ensures response.Fail? ==> r.error == Some(SEARCH_FAILED)
  {
    match response
    case Fail(_) => p.(error := Some(SEARCH_FAILED), loading := false)
    case Ok(data) =>
      if data.Some? && |data.value| > 0 then p.(results := data.value, loading := false)
      else p.(error := Some(NO_ITEMS), loading := false)
  }

  /** `handleSearch()`: nothing selected alerts and asks nothing; otherwise one search for the selection. */
  function Search(p: Page, response: Outcome<Option<seq<Item>>>): (r: (Page, seq<Effect>))
    ensures p.selected == "" <==> r.1 == [Alert(NOTHING_SELECTED)]
    ensures p.selected == "" ==> r.0 == p
    ensures p.selected != "" ==> r.1 == [SearchFor(p.selected)] && !r.0.loading
    ensures p.selected != "" ==> r.0.results == [] || r.0.error.None?
    ensures p.selected != "" ==> r.0.selected == p.selected
  {
    if p.selected == "" then (p, [Alert(NOTHING_SELECTED)])
    else (SearchEnd(SearchBegin(p), response), [SearchFor(p.selected)])
  }

  const OPEN_TAG := "<b>"
  const CLOSE_TAG := "</b>"

  /** The title holds a `<b>` or `</b>` somewhere. */
  predicate HasTag(s: string) {
    JsText.Contains(s, OPEN_TAG) || JsText.Contains(s, CLOSE_TAG)
  }

  /**
    `title.replace(/<\/?b>/g, "")`: scanning left to right, each `<b>` or
    `</b>` that starts at the scan position is deleted and the scan resumes
    after it; any other character is kept.
   */
  function StripBold(s: string): (r: string)
    ensures |r| <= |s|
    decreases |s|
  {
    if JsText.StartsWith(s, OPEN_TAG) then StripBold(s[3..])
    else if JsText.StartsWith(s, CLOSE_TAG) then StripBold(s[4..])
    else if s == [] then []
    else [s[0]] + StripBold(s[1..])
  }

  /** A title with no '<' is shown exactly as given. */
  lemma {:induction false} NoAngleUnchanged(s: string)
    requires '<' !in s
    ensures StripBold(s) == s
    decreases |s|
  {
    if s != [] {
      assert !JsText.StartsWith(s, OPEN_TAG) && !JsText.StartsWith(s, CLOSE_TAG) by {
        assert s[0] != '<';
      }
      assert '<' !in s[1..];
      NoAngleUnchanged(s[1..]);
    }
  }

  /** A title changes exactly when it holds a tag, and then it gets strictly shorter. */
  lemma {:induction false} StripChangesIffTag(s: string)
    ensures HasTag(s) <==> |StripBold(s)| < |s|
    ensures !HasTag(s) <==> StripBold(s) == s
    decreases |s|
  {
    if s == [] {
    } else if JsText.StartsWith(s, OPEN_TAG) || JsText.StartsWith(s, CLOSE_TAG) {
      assert HasTag(s);
    } else {
      StripChangesIffTag(s[1..]);
      assert HasTag(s) <==> HasTag(s[1..]);
    }
  }

  /** One pass does not remove every tag: the deletion can join a new `<b>` out of the remains. */
  lemma OnePassCanLeaveATag()
    ensures StripBold("<<b>b>") == "<b>"
  {
    var s := "<<b>b>";
    assert s[..3][1] != OPEN_TAG[1];
    assert s[..4][1] != CLOSE_TAG[1];
    assert !JsText.StartsWith(s, OPEN_TAG) && !JsText.StartsWith(s, CLOSE_TAG);
    assert s[1..] == "<b>b>";
    assert JsText.StartsWith(s[1..], OPEN_TAG);
    assert s[1..][3..] == "b>";
    assert !JsText.StartsWith("b>", OPEN_TAG) && !JsText.StartsWith("b>", CLOSE_TAG);
    assert !JsText.StartsWith(">", OPEN_TAG) && !JsText.StartsWith(">", CLOSE_TAG);
    assert "b>"[1..] == ">";
    assert ">"[1..] == [];
  }
}
