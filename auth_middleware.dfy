/**
 * `requireAuth`: finds a bearer token in the Authorization header or the
 * `access_token` cookie (a subset of section 2.1 of RFC 6750), verifies
 * it and loads the user it names. Signature checking and the user query
 * are abstract function parameters; either one failing or throwing is a
 * `None`.
 */
module AuthMiddleware {
  import opened Wrappers
  import opened Text

  datatype Outcome = Unauthorized(message: string) | Next

  predicate Truthy(s: Option<string>) { s.Some? && s.value != "" }

  /** A header `"Bearer " + rest` splits on spaces into "Bearer", then the parts of `rest`. */
  lemma BearerSplit(h: string)
    requires StartsWith(h, "Bearer ")
    ensures |Split(h, ' ')| >= 2 && Split(h, ' ')[1] == Split(h[7..], ' ')[0]
  {
    assert h == "Bearer" + [' '] + h[7..];
    SplitAfterFirst("Bearer", ' ', h[7..]);
  }

  /**
   * `authHeader.split(" ")[1]` when the header starts with "Bearer ": the
   * text after the prefix up to the next space.
   */
  function BearerToken(authHeader: Option<string>): (t: Option<string>)
    ensures t.Some? <==> Truthy(authHeader) && StartsWith(authHeader.value, "Bearer ")
    ensures t.Some? ==> ' ' !in t.value && StartsWith(authHeader.value[7..], t.value)
    ensures t.Some? ==> 7 + |t.value| == |authHeader.value| || authHeader.value[7 + |t.value|] == ' '
  {
    if Truthy(authHeader) && StartsWith(authHeader.value, "Bearer ") then
      BearerSplit(authHeader.value);
      SplitFirstIsPrefix(authHeader.value[7..], ' ');
      Some(Split(authHeader.value, ' ')[1])
    else None
  }

  /** `req.headers.authorization || req.headers.Authorization`. */
  function AuthHeader(authorization: Option<string>, authorizationCap: Option<string>): Option<string> {
    if Truthy(authorization) then authorization else authorizationCap
  }

  /** The token the staged assignments end with: the header's, else the cookie's. */
  function ChosenToken(authorization: Option<string>, authorizationCap: Option<string>, cookie: Option<string>): Option<string> {
    var fromHeader := BearerToken(AuthHeader(authorization, authorizationCap));
    if !Truthy(fromHeader) && Truthy(cookie) then cookie else fromHeader
  }

  /** A usable header token always wins over the cookie, and the cookie fills in otherwise. */
  lemma HeaderWins(authorization: Option<string>, authorizationCap: Option<string>, cookie: Option<string>)
    ensures var fromHeader := BearerToken(AuthHeader(authorization, authorizationCap));
            var t := ChosenToken(authorization, authorizationCap, cookie);
            && (Truthy(fromHeader) ==> t == fromHeader)
            && (!Truthy(fromHeader) ==> (Truthy(t) <==> Truthy(cookie)))
            && (Truthy(t) ==> t == fromHeader || t == cookie)
  {
  }

  /** An incoming request: its headers and cookie, and the `user` the middleware attaches. */
  class AuthRequest<U> {
    const authorization: Option<string>
    const authorizationCap: Option<string>
    const accessToken: Option<string>
    var user: Option<U>

    constructor(authorization: Option<string>, authorizationCap: Option<string>, accessToken: Option<string>)
      ensures this.authorization == authorization && this.authorizationCap == authorizationCap
      ensures this.accessToken == accessToken && user == None
    {
      this.authorization := authorization;
      this.authorizationCap := authorizationCap;
      this.accessToken := accessToken;
      user := None;
    }

    /**
     * `requireAuth`: 401 "Unauthorized" without a token, when verification
     * fails or when no user is found; otherwise `req.user` is set and the
     * next handler runs.
     */
    method RequireAuth<C>(verify: string -> Option<C>, findUser: C -> Option<U>) returns (outcome: Outcome)
      modifies this
      ensures var t := ChosenToken(authorization, authorizationCap, accessToken);
              outcome == Next <==> Truthy(t) && verify(t.value).Some? && findUser(verify(t.value).value).Some?
      ensures outcome.Unauthorized? ==> outcome.message == "Unauthorized" && user == old(user)
      ensures outcome == Next ==>
                var t := ChosenToken(authorization, authorizationCap, accessToken);
                user == findUser(verify(t.value).value)
    {
      var token: Option<string> := None;
      var authHeader := AuthHeader(authorization, authorizationCap);
      if Truthy(authHeader) && StartsWith(authHeader.value, "Bearer ") {
        BearerSplit(authHeader.value);
        token := Some(Split(authHeader.value, ' ')[1]);
      }
      if !Truthy(token) && Truthy(accessToken) {
        token := accessToken;
      }
      if !Truthy(token) {
        return Unauthorized("Unauthorized");
      }
      var payload := verify(token.value);
      if payload.None? {
        return Unauthorized("Unauthorized");
      }
      var found := findUser(payload.value);
      if found.None? {
        return Unauthorized("Unauthorized");
      }
      user := found;
      outcome := Next;
    }
  }
}
