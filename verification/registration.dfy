/**
  The `/register` route of routes/userRoutes.js over an abstract user
  collection: the store is the sequence of saved users in insertion order,
  and a failing database call is a parameter.
 */
module Registration {
  import opened Wrappers
  import Json
  import Cooking

  datatype User = User(username: string, email: string, password: string)

  /** The JSON request body; `None` is a missing field. */
  datatype Body = Body(username: Option<string>, email: Option<string>, password: Option<string>)

  /** Which database call, if any, throws. */
  datatype Fault = NoFault | LookupFails | SaveFails

  datatype Response = Response(status: nat, body: Json.Json)

  const MISSING_FIELD := "모든 필드를 입력해주세요."
  const EMAIL_TAKEN := "이미 사용 중인 이메일입니다."
  const SERVER_ERROR := "서버 오류 발생"
  const REGISTERED := "✅ 회원가입 성공! MongoDB에 저장되었습니다."

  /** Some saved user has this email: `User.findOne({ email })` finds a document. */
  predicate EmailTaken(store: seq<User>, email: string) {
    exists i :: 0 <= i < |store| && store[i].email == email
  }

  /** No two saved users share an email. */
  predicate UniqueEmails(store: seq<User>) {
    forall i, j :: 0 <= i < j < |store| ==> store[i].email != store[j].email
  }

  /** All three fields are truthy. */
  predicate Complete(b: Body) {
    Cooking.Present(b.username) && Cooking.Present(b.email) && Cooking.Present(b.password)
  }

  /**
    `POST /register`: a missing field is a 400, then a taken email is a 400,
    otherwise the user is saved as given and the answer is a 201; a throwing
    database call is a 500 that saves nothing.
   */
  function Register(store: seq<User>, b: Body, fault: Fault): (r: (seq<User>, Response))
    ensures !Complete(b) ==> r == (store, Response(400, Json.ErrorBody(MISSING_FIELD)))
    ensures Complete(b) && fault.LookupFails? ==> r == (store, Response(500, Json.ErrorBody(SERVER_ERROR)))
    ensures Complete(b) && !fault.LookupFails? && EmailTaken(store, b.email.value) ==>
      r == (store, Response(400, Json.ErrorBody(EMAIL_TAKEN)))
    ensures r.1.status == 201 <==> Complete(b) && fault.NoFault? && !EmailTaken(store, b.email.value)
    ensures r.1.status == 201 ==> r.0 == store + [User(b.username.value, b.email.value, b.password.value)]
    ensures r.1.status != 201 ==> r.0 == store
  {
    if !Complete(b) then (store, Response(400, Json.ErrorBody(MISSING_FIELD)))
    else if fault.LookupFails? then (store, Response(500, Json.ErrorBody(SERVER_ERROR)))
    else if EmailTaken(store, b.email.value) then (store, Response(400, Json.ErrorBody(EMAIL_TAKEN)))
    else if fault.SaveFails? then (store, Response(500, Json.ErrorBody(SERVER_ERROR)))
    else (store + [User(b.username.value, b.email.value, b.password.value)],
          Response(201, Json.JObj(map["message" := Json.JStr(REGISTERED)])))
  }

  /** One registration keeps the emails unique. */
  lemma RegisterKeepsEmailsUnique(store: seq<User>, b: Body, fault: Fault)
    requires UniqueEmails(store)
    ensures UniqueEmails(Register(store, b, fault).0)
  {
    var r := Register(store, b, fault);
    if r.1.status == 201 {
      var u := r.0[|store|];
      forall i, j | 0 <= i < j < |r.0|
        ensures r.0[i].email != r.0[j].email
      {
        if j == |store| {
          assert r.0[i] == store[i];
          assert !EmailTaken(store, u.email);
        }
      }
    }
  }

  /** The store after a sequence of requests, each with its own fault. */
  function RegisterAll(store: seq<User>, requests: seq<(Body, Fault)>): (r: seq<User>)
    requires UniqueEmails(store)
    ensures UniqueEmails(r)
    ensures |store| <= |r| <= |store| + |requests|
    ensures r[..|store|] == store
    decreases |requests|
  {
    if requests == [] then store
    else
      var before := RegisterAll(store, requests[..|requests| - 1]);
      var last := requests[|requests| - 1];
      RegisterKeepsEmailsUnique(before, last.0, last.1);
      Register(before, last.0, last.1).0
  }

  /** A second sign-up with the same email is refused, even with a different name and password. */
  lemma SameEmailTwiceIsRefused(store: seq<User>, first: Body, second: Body)
    requires Complete(first) && Complete(second) && first.email == second.email
    requires !EmailTaken(store, first.email.value)
    ensures var after := Register(store, first, NoFault).0;
      Register(after, second, NoFault) == (after, Response(400, Json.ErrorBody(EMAIL_TAKEN)))
  {
    var after := Register(store, first, NoFault).0;
    assert after[|store|].email == second.email.value;
  }
}
