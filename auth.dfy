/** The two request guards of the server (server/lib/supabase.ts): a bearer
    token check and, on top of it, an admin-flag check. It is a
    case-sensitive, simplified form of the Bearer scheme of section 2.1 of
    RFC 6750.

    The identity provider that turns a token into a user is the parameter
    `provider`; the `users` row lookup for the admin flag is the parameter
    `lookup`. */
module Auth {
  import opened Wrappers
  import opened Text
  import opened Schema

  /** The user the identity provider resolves a token to. */
  datatype AuthUser = AuthUser(id: Id, email: string)

  /** What the `users` lookup by id can return. */
  datatype AdminLookup = LookupError | NoRow | Row(is_admin: bool)

  /** A guard either answers the request itself or lets it through with the
      resolved user attached. */
  datatype GuardOutcome = Reject(status: int, message: string) | Continue(user: AuthUser)

  const BearerPrefix: string := "Bearer "

  /** The token of an `Authorization` header: the text after a leading
      `Bearer `, or nothing when the header is absent or has another form. */
  function BearerToken(header: Option<string>): (r: Option<string>)
    ensures r.Some? <==> header.Some? && StartsWith(header.value, BearerPrefix)
    ensures r.Some? ==> header.value == BearerPrefix + r.value
  {
    if header.Some? && StartsWith(header.value, BearerPrefix)
    then Some(header.value[|BearerPrefix|..])
    else None
  }

  /** A header built from a token gives that token back. */
  lemma BearerTokenRoundTrip(token: string)
    ensures BearerToken(Some(BearerPrefix + token)) == Some(token)
  {
    assert (BearerPrefix + token)[..|BearerPrefix|] == BearerPrefix;
  }

  /** `validateAuthToken`: an empty token and a token the provider rejects
      fail with their own messages. */
  function ValidateAuthToken(token: string, provider: string -> Option<AuthUser>): (r: Result<AuthUser, string>)
    ensures r.Ok? <==> token != "" && provider(token).Some?
    ensures r.Ok? ==> r.value == provider(token).value
    ensures r.Err? ==> r.error == (if token == "" then "No token provided" else "Invalid or expired token")
  {
    if token == "" then Err("No token provided")
    else match provider(token)
      case None => Err("Invalid or expired token")
      case Some(user) => Ok(user)
  }

  /** `isUserAdmin`: true only for a row whose flag is true; a failed lookup
      or a missing row counts as "not an admin". */
  function IsUserAdmin(l: AdminLookup): (r: bool)
    ensures r <==> l == Row(true)
  {
    match l
    case Row(flag) => flag
    case _ => false
  }

  /** The decision of `requireAuth`. */
  function AuthDecision(header: Option<string>, provider: string -> Option<AuthUser>): (r: GuardOutcome)
    ensures r.Reject? ==> r.status == 401
    ensures BearerToken(header).None? ==> r == Reject(401, "Unauthorized")
    ensures r.Continue? <==> BearerToken(header).Some? && BearerToken(header).value != ""
                             && provider(BearerToken(header).value).Some?
    ensures r.Continue? ==> provider(BearerToken(header).value) == Some(r.user)
  {
    match BearerToken(header)
    case None => Reject(401, "Unauthorized")
    case Some(token) =>
      match ValidateAuthToken(token, provider)
      case Err(msg) => Reject(401, msg)
      case Ok(user) => Continue(user)
  }

  /** The decision of `requireAdmin`: the decision of `requireAuth`, then a
      403 for a user that is not an admin. */
  function AdminDecision(header: Option<string>, provider: string -> Option<AuthUser>,
                         lookup: Id -> AdminLookup): (r: GuardOutcome)
    ensures AuthDecision(header, provider).Reject? ==> r == AuthDecision(header, provider)
    ensures r.Continue? <==> AuthDecision(header, provider).Continue?
                             && IsUserAdmin(lookup(AuthDecision(header, provider).user.id))
    ensures r.Continue? ==> r == AuthDecision(header, provider)
    ensures r.Reject? && r.status == 403 ==> r.message == "Forbidden"
                                             && AuthDecision(header, provider).Continue?
  {
    match BearerToken(header)
    case None => Reject(401, "Unauthorized")
    case Some(token) =>
      match ValidateAuthToken(token, provider)
      case Err(msg) => Reject(401, msg)
      case Ok(user) => if !IsUserAdmin(lookup(user.id)) then Reject(403, "Forbidden") else Continue(user)
  }

  /** A header `Bearer ` with nothing after it is refused as "no token". */
  lemma EmptyTokenRejected(provider: string -> Option<AuthUser>, lookup: Id -> AdminLookup)
    ensures AuthDecision(Some(BearerPrefix), provider) == Reject(401, "No token provided")
    ensures AdminDecision(Some(BearerPrefix), provider, lookup) == Reject(401, "No token provided")
  {
    BearerTokenRoundTrip("");
    assert BearerPrefix + "" == BearerPrefix;
  }

  /** A token the provider rejects is refused as invalid by both guards. */
  lemma RejectedTokenRejected(token: string, provider: string -> Option<AuthUser>, lookup: Id -> AdminLookup)
    requires token != "" && provider(token).None?
    ensures AuthDecision(Some(BearerPrefix + token), provider) == Reject(401, "Invalid or expired token")
    ensures AdminDecision(Some(BearerPrefix + token), provider, lookup) == Reject(401, "Invalid or expired token")
  {
    BearerTokenRoundTrip(token);
  }

  // ---------------------------------------------------------------------
  // The guards as Express middleware: they write the response or attach the
  // user to the request, and report whether `next` was called.

  /** The parts of one request/response pair the guards touch. */
  class Exchange {
    var user: Option<AuthUser>
    var status: int
    var errorBody: Option<string>

    constructor ()
      ensures user == None && status == 200 && errorBody == None
    {
      user := None;
      status := 200;
      errorBody := None;
    }

    /** `requireAuth()` applied to this exchange. */
    method RequireAuth(header: Option<string>, provider: string -> Option<AuthUser>) returns (next: bool)
      modifies this
      ensures next <==> AuthDecision(header, provider).Continue?
      ensures next ==> user == Some(AuthDecision(header, provider).user)
                       && status == old(status) && errorBody == old(errorBody)
      ensures !next ==> user == old(user) && status == 401
                        && errorBody == Some(AuthDecision(header, provider).message)
    {
      var decision := AuthDecision(header, provider);
      match decision
      case Reject(code, msg) =>
        status := code;
        errorBody := Some(msg);
        next := false;
      case Continue(u) =>
        user := Some(u);
        next := true;
    }

    /** `requireAdmin()` applied to this exchange: no user is attached unless
        `next` is called. */
    method RequireAdmin(header: Option<string>, provider: string -> Option<AuthUser>,
                        lookup: Id -> AdminLookup) returns (next: bool)
      modifies this
      ensures next <==> AdminDecision(header, provider, lookup).Continue?
      ensures next ==> user == Some(AdminDecision(header, provider, lookup).user)
                       && status == old(status) && errorBody == old(errorBody)
      ensures !next ==> user == old(user)
                        && status == AdminDecision(header, provider, lookup).status
                        && errorBody == Some(AdminDecision(header, provider, lookup).message)
    {
      var decision := AdminDecision(header, provider, lookup);
      match decision
      case Reject(code, msg) =>
        status := code;
        errorBody := Some(msg);
        next := false;
      case Continue(u) =>
        user := Some(u);
        next := true;
    }
  }

  // ---------------------------------------------------------------------
  // The browser-side helpers of client/src/lib/supabase.ts.

  /** `getAuthToken`: the session's access token, or null. */
  function ClientAuthToken(session: Option<string>): (r: Option<string>)
    ensures r.Some? <==> session.Some? && session.value != ""
    ensures r.Some? ==> r.value == session.value
  {
    if session.Some? && session.value != "" then session else None
  }

  /** `isUserAdmin` in the browser: no session, a failed lookup or a missing
      row give false; it agrees with the server-side check. */
  function ClientIsUserAdmin(session: Option<AuthUser>, lookup: Id -> AdminLookup): (r: bool)
    ensures session.None? ==> !r
    ensures session.Some? ==> r == IsUserAdmin(lookup(session.value.id))
  {
    match session
    case None => false
    case Some(u) =>
      match lookup(u.id)
      case Row(flag) => flag
      case _ => false
  }
}
