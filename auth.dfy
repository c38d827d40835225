/**
 * The authorization gate (`verifyToken` middleware): it reads the `token` cookie,
 * checks it with a JSON Web Token verifier (RFC 7519), and either answers the
 * request itself or hands the decoded claims to the wrapped handler. The
 * cryptographic check is an oracle supplied by the caller.
 */
module Auth {
  import opened Json

  /** What the token verifier reports. */
  datatype Verified = Ok(claims: Doc) | Err

  /** The gate's decision: answer with a status and message, or run the handler as `user`. */
  datatype Decision = Deny(status: int, message: string) | Admit(user: Doc)

  /** `req.cookies?.token` is truthy: present and not the empty string. */
  predicate HasToken(cookies: map<string, string>) {
    "token" in cookies && cookies["token"] != ""
  }

  function Gate(cookies: map<string, string>, verify: string -> Verified): (d: Decision)
    ensures d == Deny(401, "Unauthorized access") <==> !HasToken(cookies)
    ensures d == Deny(403, "Forbidden access") <==> HasToken(cookies) && verify(cookies["token"]).Err?
    ensures d.Admit? <==> HasToken(cookies) && verify(cookies["token"]).Ok?
    ensures d.Admit? ==> verify(cookies["token"]) == Ok(d.user)
  {
    if !HasToken(cookies) then Deny(401, "Unauthorized access")
    else
      match verify(cookies["token"])
      case Err => Deny(403, "Forbidden access")
      case Ok(claims) => Admit(claims)
  }

  /** The gate refuses with exactly one of two answers, and passes on nothing but verified claims. */
  lemma GateOutcomes(cookies: map<string, string>, verify: string -> Verified)
    ensures Gate(cookies, verify).Deny? ==>
      Gate(cookies, verify) in {Deny(401, "Unauthorized access"), Deny(403, "Forbidden access")}
    ensures forall u :: Gate(cookies, verify) == Admit(u) <==>
      HasToken(cookies) && verify(cookies["token"]) == Ok(u)
  {
  }
}
