/** The bearer-token gate in front of the protected routes (internal/auth/middleware.go). */
module Auth {
  import opened Wrappers
  import opened Domain
  import opened Http

  /** The authorization scheme marker, matched case-sensitively, trailing space included. */
  const BearerPrefix: string := "Bearer "

  /** The part of the verified token the gate uses; the JWT's registered time claims are left out. */
  datatype Claims = Claims(userId: string, username: string)

  /** The identity the gate puts into the request context, under the keys "userID" and "username". */
  datatype Identity = Identity(userId: string, username: string)

  /**
   * The gate's decision: `Reject(status)` answers the request itself and the
   * wrapped handler never runs; `Forward(identity)` runs the wrapped handler
   * once, with `identity` in its context.
   */
  datatype GateDecision = Reject(status: int) | Forward(identity: Identity)

  /** `strings.HasPrefix`: `s` starts with `prefix`, character by character. */
  predicate HasPrefix(s: string, prefix: string): (b: bool)
    ensures b <==> |prefix| <= |s| && forall i :: 0 <= i < |prefix| ==> s[i] == prefix[i]
  {
    |prefix| <= |s| && s[..|prefix|] == prefix
  }

  /** `strings.TrimPrefix`: removes one leading `prefix`, if present. */
  function TrimPrefix(s: string, prefix: string): (r: string)
    ensures HasPrefix(s, prefix) ==> prefix + r == s
    ensures !HasPrefix(s, prefix) ==> r == s
  {
    if HasPrefix(s, prefix) then s[|prefix|..] else s
  }

  /**
   * The gate for the `Authorization` header `header` (empty when absent),
   * with `verify` the token codec's verification.
   */
  function Gate(header: string, verify: string -> Result<Claims, Error>): (d: GateDecision)
    ensures d.Reject? ==> d.status == StatusUnauthorized
    ensures d.Forward? ==> HasPrefix(header, BearerPrefix)
  {
    if header == "" || !HasPrefix(header, BearerPrefix) then Reject(StatusUnauthorized)
    else
      var token := TrimPrefix(header, BearerPrefix);
      match verify(token)
      case Failure(_) => Reject(StatusUnauthorized)
      case Success(claims) => Forward(Identity(claims.userId, claims.username))
  }

  /** A header that is missing or lacks the prefix is refused before any token is verified. */
  lemma GateRefusesBadHeader(header: string, verify: string -> Result<Claims, Error>,
                             other: string -> Result<Claims, Error>)
    requires header == "" || !HasPrefix(header, BearerPrefix)
    ensures Gate(header, verify) == Reject(StatusUnauthorized)
    ensures Gate(header, verify) == Gate(header, other)
  {
  }

  /**
   * With the prefix present the gate consults the verifier only on the header
   * minus one leading prefix: it forwards exactly when that token verifies,
   * and then with the verified claims' user ID and username.
   */
  lemma GateVerifiesStrippedToken(header: string, verify: string -> Result<Claims, Error>,
                                  other: string -> Result<Claims, Error>)
    requires HasPrefix(header, BearerPrefix)
    ensures BearerPrefix + header[|BearerPrefix|..] == header
    ensures var token := header[|BearerPrefix|..];
            && (Gate(header, verify).Forward? <==> verify(token).Success?)
            && (verify(token).Success? ==>
                  Gate(header, verify).identity == Identity(verify(token).value.userId, verify(token).value.username))
            && (verify(token) == other(token) ==> Gate(header, verify) == Gate(header, other))
  {
    assert header != "";
  }

  /** Every refusal answers 401, whatever its cause. */
  lemma GateRefusalsAreUniform(h1: string, h2: string, v1: string -> Result<Claims, Error>,
                               v2: string -> Result<Claims, Error>)
    requires Gate(h1, v1).Reject? && Gate(h2, v2).Reject?
    ensures Gate(h1, v1) == Gate(h2, v2)
  {
  }

  /** Only one prefix is removed, and the scheme marker is matched case-sensitively. */
  lemma GateExamples(verify: string -> Result<Claims, Error>)
    ensures Gate("Bearer Bearer t", verify) ==
              match verify("Bearer t")
              case Failure(_) => Reject(StatusUnauthorized)
              case Success(c) => Forward(Identity(c.userId, c.username))
    ensures Gate("bearer t", verify) == Reject(StatusUnauthorized)
    ensures Gate("Bearer", verify) == Reject(StatusUnauthorized)
  {
    assert HasPrefix("Bearer Bearer t", BearerPrefix);
    assert "Bearer Bearer t"[|BearerPrefix|..] == "Bearer t";
    assert "bearer t"[0] != BearerPrefix[0];
  }
}
