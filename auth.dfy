/** The token-authentication guard `restricted`: it reads the `authorization`
    header and the `userId` route parameter, verifies the token against the
    configured secret, and either rejects the request with a status and a JSON
    message or passes control to the next handler. */
module Auth {
  import opened JsValues
  import opened Express

  /** The claims a verified token carries. */
  datatype JwtPayload = JwtPayload(email: string, id: string)

  /** What `jwt.verify` hands its callback: an error, or the decoded payload. */
  datatype VerifyResult = VerifyError | Verified(payload: JwtPayload)

  /** `jwt.verify(token, secret, ..)`, seen as a single call returning a tagged result. */
  type Verifier = (string, string) -> VerifyResult

  /** The two parts of an Express request the guard reads. */
  datatype Request = Request(authorization: Option<string>, userId: Option<string>)

  const MissingTokenMessage := "Bad request, please provide token in authorization headers"
  const InvalidTokenMessage := "Cannot parse passed in authorization token"
  const UnauthorizedMessage := "You are not authorized to view this information"

  /** The three ways the guard rejects a request. */
  datatype Rejection = MissingToken | TokenInvalid | Unauthorized
  {
    function Status(): (code: int)
      ensures code == 400 || code == 401
      ensures code == 401 <==> this == Unauthorized
    {
      match this
      case MissingToken => 400
      case TokenInvalid => 400
      case Unauthorized => 401
    }

    function Message(): (m: string)
      ensures m != ""
      ensures this == MissingToken <==> m == MissingTokenMessage
      ensures this == TokenInvalid <==> m == InvalidTokenMessage
      ensures this == Unauthorized <==> m == UnauthorizedMessage
    {
      match this
      case MissingToken => MissingTokenMessage
      case TokenInvalid => InvalidTokenMessage
      case Unauthorized => UnauthorizedMessage
    }
  }

  /** The terminal outcome of one call of the guard. */
  datatype Outcome = Rejected(reason: Rejection) | Allowed

  /** `process.env.JWT_SECRET || "default"`. */
  function Secret(jwtSecret: Option<string>): (s: string)
    ensures s != ""
    ensures Truthy(jwtSecret) <==> jwtSecret == Some(s)
    ensures !Truthy(jwtSecret) ==> s == "default"
  {
    if Truthy(jwtSecret) then jwtSecret.value else "default"
  }

  /** The decision `restricted` takes, as a function of the request, the
      configured secret and the verifier. */
  function Decide(req: Request, jwtSecret: Option<string>, verify: Verifier): (o: Outcome)
    ensures o == Allowed ==> Truthy(req.authorization) && req.userId.Some?
    ensures o != Rejected(MissingToken) ==> Truthy(req.authorization)
  {
    if Truthy(req.authorization) then
      match verify(req.authorization.value, Secret(jwtSecret))
      case VerifyError => Rejected(TokenInvalid)
      case Verified(decoded) =>
        if Some(decoded.id) != req.userId then Rejected(Unauthorized) else Allowed
    else
      Rejected(MissingToken)
  }

  /** `restricted(req, res, next)`: writes `status(..).json(..)` for a
      rejection, or calls `next()` once, as `Decide` says. */
  method Restricted(req: Request, jwtSecret: Option<string>, verify: Verifier,
                    res: Response, next: NextFunction)
    modifies res, next
    ensures Decide(req, jwtSecret, verify).Allowed? ==>
      next.calls == old(next.calls) + 1 &&
      res.statusCode == old(res.statusCode) && res.jsonBody == old(res.jsonBody) &&
      res.sentStatus == old(res.sentStatus) && res.sent == old(res.sent)
    ensures Decide(req, jwtSecret, verify).Rejected? ==>
      var why := Decide(req, jwtSecret, verify).reason;
      next.calls == old(next.calls) &&
      res.statusCode == Some(why.Status()) && res.jsonBody == Some(Body(why.Message())) &&
      res.sentStatus == Some(why.Status()) && res.sent == old(res.sent) + 1
    ensures next.calls + res.sent == old(next.calls) + old(res.sent) + 1
  {
    var userId := req.userId;
    var token := req.authorization;
    var secret := Secret(jwtSecret);
    if Truthy(token) {
      var result := verify(token.value, secret);
      match result {
        case VerifyError =>
          var r := res.Status(400);
          r := r.Json(Body(InvalidTokenMessage));
        case Verified(decodedJwt) =>
          if Some(decodedJwt.id) != userId {
            var r := res.Status(401);
            r := r.Json(Body(UnauthorizedMessage));
          } else {
            next.Call();
          }
      }
    } else {
      var r := res.Status(400);
      r := r.Json(Body(MissingTokenMessage));
    }
  }

  // ---------------------------------------------------------------------------
  // One lemma per terminal outcome: when exactly the guard reaches it.

  lemma MissingTokenExactly(req: Request, jwtSecret: Option<string>, verify: Verifier)
    ensures Decide(req, jwtSecret, verify) == Rejected(MissingToken) <==> !Truthy(req.authorization)
  {
  }

  lemma InvalidTokenExactly(req: Request, jwtSecret: Option<string>, verify: Verifier)
    ensures Decide(req, jwtSecret, verify) == Rejected(TokenInvalid) <==>
      Truthy(req.authorization) && verify(req.authorization.value, Secret(jwtSecret)) == VerifyError
  {
  }

  lemma UnauthorizedExactly(req: Request, jwtSecret: Option<string>, verify: Verifier)
    ensures Decide(req, jwtSecret, verify) == Rejected(Unauthorized) <==>
      Truthy(req.authorization) &&
      exists p: JwtPayload :: verify(req.authorization.value, Secret(jwtSecret)) == Verified(p) &&
                              req.userId != Some(p.id)
  {
  }

  lemma AllowedExactly(req: Request, jwtSecret: Option<string>, verify: Verifier)
    ensures Decide(req, jwtSecret, verify) == Allowed <==>
      Truthy(req.authorization) &&
      exists p: JwtPayload :: verify(req.authorization.value, Secret(jwtSecret)) == Verified(p) &&
                              req.userId == Some(p.id)
  {
  }

  /** An absent `userId` never matches a payload id. */
  lemma AbsentUserIdNeverAllowed(req: Request, jwtSecret: Option<string>, verify: Verifier)
    requires req.userId == None
    ensures Decide(req, jwtSecret, verify) != Allowed
    ensures Truthy(req.authorization) && verify(req.authorization.value, Secret(jwtSecret)).Verified? ==>
      Decide(req, jwtSecret, verify) == Rejected(Unauthorized)
  {
  }

  /** Without a token the verifier and the route parameter do not matter. */
  lemma MissingTokenIgnoresRest(a: Request, b: Request, s1: Option<string>, s2: Option<string>,
                                v1: Verifier, v2: Verifier)
    requires !Truthy(a.authorization) && !Truthy(b.authorization)
    ensures Decide(a, s1, v1) == Decide(b, s2, v2) == Rejected(MissingToken)
  {
  }

  /** A token that verifies opens the routes of exactly one user: the one
      whose `userId` is the payload id. */
  lemma VerifiedTokenAuthorizesOneUser(token: string, jwtSecret: Option<string>, verify: Verifier)
    requires token != "" && verify(token, Secret(jwtSecret)).Verified?
    ensures exists userId: Option<string> :: Decide(Request(Some(token), userId), jwtSecret, verify) == Allowed
    ensures forall u1: Option<string>, u2: Option<string> ::
      (Decide(Request(Some(token), u1), jwtSecret, verify) == Allowed &&
       Decide(Request(Some(token), u2), jwtSecret, verify) == Allowed) ==> u1 == u2
  {
    var owner := Some(verify(token, Secret(jwtSecret)).payload.id);
    assert Decide(Request(Some(token), owner), jwtSecret, verify) == Allowed;
  }

  /** A token that does not verify opens no route at all. */
  lemma UnverifiedTokenAuthorizesNoUser(token: string, jwtSecret: Option<string>, verify: Verifier)
    requires token != "" && verify(token, Secret(jwtSecret)) == VerifyError
    ensures forall userId: Option<string> ::
      Decide(Request(Some(token), userId), jwtSecret, verify) == Rejected(TokenInvalid)
  {
  }

  // ---------------------------------------------------------------------------
  // What the outcome depends on.

  /** The part of a verification result the guard looks at: the error, or the payload id. */
  function VerifiedId(r: VerifyResult): Option<string>
  {
    match r
    case VerifyError => None
    case Verified(p) => Some(p.id)
  }

  /** Everything of one call that can influence its outcome. */
  function Observation(req: Request, jwtSecret: Option<string>, verify: Verifier): (Option<Option<string>>, Option<string>)
  {
    (if Truthy(req.authorization) then Some(VerifiedId(verify(req.authorization.value, Secret(jwtSecret)))) else None,
     req.userId)
  }

  /** Two calls that agree on the presence of a token, on whether verification
      failed, on the payload id and on `userId` have the same outcome: the
      payload email, the token text and the secret matter only through them. */
  lemma OutcomeDependsOnlyOnObservation(a: Request, s1: Option<string>, v1: Verifier,
                                       b: Request, s2: Option<string>, v2: Verifier)
    requires Observation(a, s1, v1) == Observation(b, s2, v2)
    ensures Decide(a, s1, v1) == Decide(b, s2, v2)
  {
  }

  /** The verifier is consulted once, on the header's token and on `Secret(jwtSecret)`:
      two verifiers that agree there give the same outcome. */
  lemma VerifiedWithConfiguredSecret(req: Request, jwtSecret: Option<string>, v1: Verifier, v2: Verifier)
    requires Truthy(req.authorization) ==>
      v1(req.authorization.value, Secret(jwtSecret)) == v2(req.authorization.value, Secret(jwtSecret))
    ensures Decide(req, jwtSecret, v1) == Decide(req, jwtSecret, v2)
  {
  }

  /** The email claim never affects the outcome. */
  lemma EmailIrrelevant(req: Request, jwtSecret: Option<string>, v1: Verifier, v2: Verifier)
    requires Truthy(req.authorization) ==>
      VerifiedId(v1(req.authorization.value, Secret(jwtSecret))) ==
      VerifiedId(v2(req.authorization.value, Secret(jwtSecret)))
    ensures Decide(req, jwtSecret, v1) == Decide(req, jwtSecret, v2)
  {
    OutcomeDependsOnlyOnObservation(req, jwtSecret, v1, req, jwtSecret, v2);
  }
}
