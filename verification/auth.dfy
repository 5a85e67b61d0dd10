/**
 * The identity gate `AuthMiddleware(allowPublic)` of middlewares/auth.go: it
 * reads a bearer credential from the `Authorization` header and either fills
 * the context with the authenticated subject, falls back to a guest context,
 * or stops the request with 401.
 */
module Auth {
  import opened Wrappers
  import opened Strings
  import opened RequestContext

  /** The claims a verified token carries. */
  datatype Claims = Claims(userId: nat, roleId: nat)

  /** Token verification (`utils.ParseToken`): opaque, yields claims or an error. */
  type TokenParser = string -> Result<Claims, string>

  /** The role -> permission-names query (`utils.GetRolePermissions`): opaque. */
  type RoleStore = nat -> Result<seq<string>, string>

  const BearerScheme := "bearer"
  const BearerSchemeUpper := "BEARER"

  /**
   * `setPublic`: the guest context. `user_id` and `role_id` are present but
   * nil, the held list is empty, and the `scope` marker is `public`; every
   * other key is kept.
   */
  function SetPublic(ctx: Ctx): (r: Ctx)
    ensures KeyUserID in r && r[KeyUserID] == None
    ensures KeyRoleID in r && r[KeyRoleID] == None
    ensures KeyPermissions in r && r[KeyPermissions] == Some(TextListVal([]))
    ensures KeyScope in r && r[KeyScope] == Some(TextVal("public"))
    ensures r.Keys == ctx.Keys + {KeyUserID, KeyRoleID, KeyPermissions, KeyScope}
    ensures forall k :: k in ctx && k !in {KeyUserID, KeyRoleID, KeyPermissions, KeyScope} ==> r[k] == ctx[k]
  {
    ctx[KeyUserID := None]
       [KeyRoleID := None]
       [KeyPermissions := Some(TextListVal([]))]
       [KeyScope := Some(TextVal("public"))]
  }

  /**
   * The header check: split on a single space, exactly two parts, the first
   * equal to `bearer` ignoring case; the second part is the token.
   */
  function BearerToken(header: string): (t: Option<string>)
    ensures t.Some? ==> ' ' !in t.value
  {
    SplitPiecesLackSeparator(header, ' ');
    var parts := Split(header, ' ');
    if |parts| != 2 || ToLower(parts[0]) != BearerScheme then None
    else Some(parts[1])
  }

  /**
   * `AuthMiddleware(allowPublic)`. A missing header, a malformed header and a
   * token that fails to parse all take the same branch: guest context when
   * `allowPublic`, otherwise 401. A parsed token yields the subject, role,
   * the role's permissions (empty when the store fails) and scope `auth`.
   */
  function AuthMiddleware(allowPublic: bool, header: string, ctx: Ctx,
                          parseToken: TokenParser, roleStore: RoleStore): (o: Outcome)
    ensures allowPublic ==> o.Continue?
    ensures o.Abort? ==> o.status == StatusUnauthorized && o.ctx == ctx
    ensures o.Continue? ==>
      && KeyUserID in o.ctx
      && KeyPermissions in o.ctx && o.ctx[KeyPermissions].Some? && o.ctx[KeyPermissions].value.TextListVal?
    ensures o.Continue? ==>
      KeyScope in o.ctx && o.ctx[KeyScope] in {Some(TextVal("public")), Some(TextVal("auth"))}
    ensures o.Continue? && o.ctx[KeyScope] == Some(TextVal("auth")) ==>
      && BearerToken(header).Some?
      && parseToken(BearerToken(header).value).Success?
      && o.ctx[KeyUserID] == Some(UintVal(parseToken(BearerToken(header).value).value.userId))
      && KeyRoleID in o.ctx && o.ctx[KeyRoleID] == Some(UintVal(parseToken(BearerToken(header).value).value.roleId))
  {
    if header == "" then
      if allowPublic then Continue(SetPublic(ctx))
      else Abort(StatusUnauthorized, "missing authorization header", ctx)
    else
      match BearerToken(header)
      case None =>
        if allowPublic then Continue(SetPublic(ctx))
        else Abort(StatusUnauthorized, "invalid authorization format", ctx)
      case Some(token) =>
        match parseToken(token)
        case Failure(_) =>
          if allowPublic then Continue(SetPublic(ctx))
          else Abort(StatusUnauthorized, "invalid or expired token", ctx)
        case Success(claims) =>
          var permissions :=
            match roleStore(claims.roleId)
            case Success(names) => names
            case Failure(_) => [];
          Continue(ctx[KeyUserID := Some(UintVal(claims.userId))]
                      [KeyRoleID := Some(UintVal(claims.roleId))]
                      [KeyPermissions := Some(TextListVal(permissions))]
                      [KeyScope := Some(TextVal("auth"))])
  }

  // ---------------------------------------------------------------------
  // The header format
  // ---------------------------------------------------------------------

  /** `ToLower(s) == "bearer"` exactly when `s` spells `bearer` in any mix of cases. */
  lemma SchemeMatchIff(s: string)
    ensures ToLower(s) == BearerScheme <==>
      |s| == 6 && forall i :: 0 <= i < 6 ==> s[i] == BearerScheme[i] || s[i] == BearerSchemeUpper[i]
  {
    ToLowerEqualsIff(s, BearerScheme, BearerSchemeUpper);
  }

  /** A scheme spelling `bearer` contains no space. */
  lemma SchemeHasNoSpace(s: string)
    requires ToLower(s) == BearerScheme
    ensures ' ' !in s
  {
    SchemeMatchIff(s);
  }

  /** `scheme + " " + token` yields the token when the scheme spells `bearer` and the token has no space. */
  lemma BearerTokenRoundTrip(scheme: string, token: string)
    requires ToLower(scheme) == BearerScheme && ' ' !in token
    ensures BearerToken(scheme + " " + token) == Some(token)
  {
    SchemeHasNoSpace(scheme);
    SplitAtFirstSeparator(scheme, ' ', token);
    SplitWithoutSeparator(token, ' ');
    assert scheme + " " + token == scheme + [' '] + token;
  }

  /** Every accepted header is a `bearer` scheme, one space, and the space-free token. */
  lemma BearerTokenShape(header: string)
    requires BearerToken(header).Some?
    ensures var t := BearerToken(header).value;
      var k := |header| - |t| - 1;
      && 0 <= k
      && header == header[..k] + " " + t
      && ToLower(header[..k]) == BearerScheme
  {
    var parts := Split(header, ' ');
    JoinSplit(header, ' ');
    JoinCons(parts[0], parts[1..], ' ');
    assert [parts[0]] + parts[1..] == parts;
    assert parts[1..] == [parts[1]];
    assert header == parts[0] + " " + parts[1];
    assert header[..|parts[0]|] == parts[0];
  }

  /** Two spaces between scheme and token give three parts, so the header is rejected. */
  lemma DoubleSpaceRejected(scheme: string, token: string)
    requires ' ' !in scheme
    ensures BearerToken(scheme + "  " + token).None?
  {
    assert scheme + "  " + token == scheme + [' '] + ([' '] + token);
    SplitAtFirstSeparator(scheme, ' ', [' '] + token);
    assert [' '] + token == [] + [' '] + token;
    SplitAtFirstSeparator([], ' ', token);
  }

  // ---------------------------------------------------------------------
  // The gate's paths
  // ---------------------------------------------------------------------

  /** The three credential failures. */
  predicate NoCredential(header: string, parseToken: TokenParser) {
    header == "" || BearerToken(header).None? || parseToken(BearerToken(header).value).Failure?
  }

  /** With `allowPublic`, a missing, malformed or unverifiable credential yields the guest context. */
  lemma GuestFallback(header: string, ctx: Ctx, parseToken: TokenParser, roleStore: RoleStore)
    requires NoCredential(header, parseToken)
    ensures AuthMiddleware(true, header, ctx, parseToken, roleStore) == Continue(SetPublic(ctx))
  {
  }

  /** Without `allowPublic`, the same failures stop the request with 401 and an unchanged context. */
  lemma RejectWithoutCredential(header: string, ctx: Ctx, parseToken: TokenParser, roleStore: RoleStore)
    requires NoCredential(header, parseToken)
    ensures var o := AuthMiddleware(false, header, ctx, parseToken, roleStore);
      o.Abort? && o.status == 401 && o.ctx == ctx
  {
  }

  /**
   * A verified token fills the context from its claims, in either mode; a
   * failing role store leaves an empty held list rather than failing.
   */
  lemma Authenticated(allowPublic: bool, header: string, ctx: Ctx,
                      parseToken: TokenParser, roleStore: RoleStore)
    requires BearerToken(header).Some? && parseToken(BearerToken(header).value).Success?
    ensures var claims := parseToken(BearerToken(header).value).value;
      var held := if roleStore(claims.roleId).Success? then roleStore(claims.roleId).value else [];
      AuthMiddleware(allowPublic, header, ctx, parseToken, roleStore) ==
        Continue(ctx[KeyUserID := Some(UintVal(claims.userId))]
                    [KeyRoleID := Some(UintVal(claims.roleId))]
                    [KeyPermissions := Some(TextListVal(held))]
                    [KeyScope := Some(TextVal("auth"))])
  {
    assert header != "";
  }
}
