/** The test double for `jsonwebtoken`: its `verify` accepts exactly the token
    `"valid"` and ignores the secret. */
module JsonWebTokenMock {
  import opened JsValues
  import opened Auth

  const MockPayload := JwtPayload("kaydengr@uw.edu", "1")

  /** Mock `verify(token, secretOrPublicKey, callback)`, with the one callback
      invocation returned as a tagged result. */
  function Verify(token: string, secretOrPublicKey: string): (r: VerifyResult)
    ensures r.Verified? <==> token == "valid"
    ensures r.Verified? ==> r.payload.email == "kaydengr@uw.edu" && r.payload.id == "1"
  {
    if token == "valid" then Verified(MockPayload) else VerifyError
  }

  /** The mock's answer depends on the token alone. */
  lemma VerifyIgnoresSecret(token: string, s1: string, s2: string)
    ensures Verify(token, s1) == Verify(token, s2)
  {
  }

  /** Composed with the guard, the mock lets a request through exactly when
      it carries the token `"valid"` and the route parameter `"1"`, and
      rejects any other non-empty token as unparseable, whatever the secret. */
  lemma GuardWithMock(req: Request, jwtSecret: Option<string>)
    ensures Decide(req, jwtSecret, Verify) == Allowed <==>
      req.authorization == Some("valid") && req.userId == Some("1")
    ensures Truthy(req.authorization) && req.authorization != Some("valid") ==>
      Decide(req, jwtSecret, Verify) == Rejected(TokenInvalid)
    ensures req.authorization == Some("valid") && req.userId != Some("1") ==>
      Decide(req, jwtSecret, Verify) == Rejected(Unauthorized)
  {
  }

  /** Under the mock exactly one request gets through: token `"valid"` for user `"1"`. */
  lemma MockAllowsExactlyOneRequest(jwtSecret: Option<string>)
    ensures exists req: Request :: Decide(req, jwtSecret, Verify) == Allowed
    ensures forall req: Request :: Decide(req, jwtSecret, Verify) == Allowed ==>
      req == Request(Some("valid"), Some("1"))
  {
    var only := Request(Some("valid"), Some("1"));
    GuardWithMock(only, jwtSecret);
    forall req: Request | Decide(req, jwtSecret, Verify) == Allowed
      ensures req == only
    {
      GuardWithMock(req, jwtSecret);
    }
  }
}
