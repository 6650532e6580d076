/**
  The taste-evaluation form shown when cooking is complete: five answer
  labels mapped to scores 5..1, and the submit guard on the user id. The
  front/src page and the inline page of checkpoint.js share this logic
  verbatim.
 */
module Taste {
  import JsText

  /** The answer labels in the order of the `<select>` options, from score 5 down to score 1. */
  const Labels: seq<string> := ["너무 부족하다", "조금 부족하다", "적절하다", "조금 과하다", "너무 과하다"]

  /** Score of an answer not in the table, the empty placeholder included. */
  const DefaultScore: nat := 3

  /** `mapping[text] || 3`. */
  function ConvertTasteScore(text: string): (r: nat)
    requires !JsText.IsPrototypeKey(text)
    ensures 1 <= r <= 5
    ensures forall i :: 0 <= i < |Labels| && text == Labels[i] ==> r == 5 - i
    ensures text !in Labels ==> r == DefaultScore
  {
    if text == "너무 부족하다" then 5
    else if text == "조금 부족하다" then 4
    else if text == "적절하다" then 3
    else if text == "조금 과하다" then 2
    else if text == "너무 과하다" then 1
    else DefaultScore
  }

  /** The label a score stands for. */
  function ScoreLabel(score: nat): (r: string)
    requires 1 <= score <= 5
    ensures r in Labels
  {
    Labels[5 - score]
  }

  /** The table is a bijection between the five labels and the scores 1..5. */
  lemma ScoreLabelRoundTrip(score: nat, text: string)
    requires 1 <= score <= 5
    requires text in Labels
    ensures ConvertTasteScore(ScoreLabel(score)) == score
    ensures ScoreLabel(ConvertTasteScore(text)) == text
  {
    assert !JsText.IsPrototypeKey(ScoreLabel(score));
    var i :| 0 <= i < |Labels| && Labels[i] == text;
    assert ConvertTasteScore(text) == 5 - i;
  }

  datatype Evaluation = Evaluation(userId: string, sweet: string, spicy: string, salty: string)

  /** The body posted to `/taste-evaluation`. */
  datatype Scores = Scores(userId: string, sweet: nat, spicy: nat, salty: nat)

  datatype Submission = Rejected(alert: string) | Post(body: Scores)

  const MISSING_ID := "사용자 ID를 입력해주세요."

  /** `handleSubmit`: an empty user id alerts and posts nothing; otherwise the id and the three converted scores. */
  function Submit(ev: Evaluation): (r: Submission)
    requires !JsText.IsPrototypeKey(ev.sweet) && !JsText.IsPrototypeKey(ev.spicy) && !JsText.IsPrototypeKey(ev.salty)
    ensures ev.userId == "" <==> r == Rejected(MISSING_ID)
    ensures r.Post? ==>
      && r.body.userId == ev.userId
      && r.body.sweet == ConvertTasteScore(ev.sweet)
      && r.body.spicy == ConvertTasteScore(ev.spicy)
      && r.body.salty == ConvertTasteScore(ev.salty)
    ensures r.Post? ==> 1 <= r.body.sweet <= 5 && 1 <= r.body.spicy <= 5 && 1 <= r.body.salty <= 5
  {
    if ev.userId == "" then Rejected(MISSING_ID)
    else Post(Scores(ev.userId, ConvertTasteScore(ev.sweet), ConvertTasteScore(ev.spicy), ConvertTasteScore(ev.salty)))
  }
}
