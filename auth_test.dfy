/** The unit tests of the authentication guard, run against the mock
    verifier: each builds a fresh response and a fresh `next`, calls the
    guard once and reports what was recorded. */
module AuthTest {
  import opened JsValues
  import opened Express
  import opened Auth
  import JsonWebTokenMock

  /** One test case: fresh recorders, one call of the guard with the given verifier. */
  method RunGuard(req: Request, jwtSecret: Option<string>, verify: Verifier)
    returns (status: Option<int>, json: Option<Body>, nextCalls: nat)
    ensures Decide(req, jwtSecret, verify) == Allowed ==>
      status == None && json == None && nextCalls == 1
    ensures Decide(req, jwtSecret, verify) != Allowed ==>
      var why := Decide(req, jwtSecret, verify).reason;
      status == Some(why.Status()) && json == Some(Body(why.Message())) && nextCalls == 0
  {
    var res := new Response();
    var next := new NextFunction();
    Restricted(req, jwtSecret, verify, res, next);
    status, json, nextCalls := res.statusCode, res.jsonBody, next.calls;
  }

  /** 'Should call next function'. */
  method ShouldCallNext(jwtSecret: Option<string>)
    returns (status: Option<int>, json: Option<Body>, nextCalls: nat)
    ensures nextCalls == 1 && status == None && json == None
  {
    status, json, nextCalls := RunGuard(Request(Some("valid"), Some("1")), jwtSecret, JsonWebTokenMock.Verify);
  }

  /** 'Should call status 400 due to token unable to be parsed'. */
  method ShouldRejectUnparseableToken(jwtSecret: Option<string>)
    returns (status: Option<int>, json: Option<Body>, nextCalls: nat)
    ensures status == Some(400) && json == Some(Body("Cannot parse passed in authorization token"))
    ensures nextCalls == 0
  {
    status, json, nextCalls := RunGuard(Request(Some("invalid"), Some("2")), jwtSecret, JsonWebTokenMock.Verify);
  }

  /** 'Should call status 401 due to incorrect token'. */
  method ShouldRejectOtherUser(jwtSecret: Option<string>)
    returns (status: Option<int>, json: Option<Body>, nextCalls: nat)
    ensures status == Some(401) && json == Some(Body("You are not authorized to view this information"))
    ensures nextCalls == 0
  {
    status, json, nextCalls := RunGuard(Request(Some("valid"), Some("2")), jwtSecret, JsonWebTokenMock.Verify);
  }

  /** 'Should call status 401 due to missing userId'. */
  method ShouldRejectMissingUserId(jwtSecret: Option<string>)
    returns (status: Option<int>, json: Option<Body>, nextCalls: nat)
    ensures status == Some(401) && json == Some(Body("You are not authorized to view this information"))
    ensures nextCalls == 0
  {
    status, json, nextCalls := RunGuard(Request(Some("valid"), None), jwtSecret, JsonWebTokenMock.Verify);
  }

  /** 'Should call status 400 due to missing auth token'. */
  method ShouldRejectMissingToken(jwtSecret: Option<string>)
    returns (status: Option<int>, json: Option<Body>, nextCalls: nat)
    ensures status == Some(400) && json == Some(Body("Bad request, please provide token in authorization headers"))
    ensures nextCalls == 0
  {
    status, json, nextCalls := RunGuard(Request(None, Some("2")), jwtSecret, JsonWebTokenMock.Verify);
  }

  /** Calling the guard twice with the same request records the same thing,
      for any verifier that answers the same both times: no state is carried
      from one call to the next. */
  method RepeatedRequestSameOutcome(req: Request, jwtSecret: Option<string>, verify: Verifier)
    returns (first: (Option<int>, Option<Body>, nat), second: (Option<int>, Option<Body>, nat))
    ensures first == second
  {
    var s1, j1, n1 := RunGuard(req, jwtSecret, verify);
    var s2, j2, n2 := RunGuard(req, jwtSecret, verify);
    first, second := (s1, j1, n1), (s2, j2, n2);
  }
}
