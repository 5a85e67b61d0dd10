/**
 * The two gates run in sequence, as a route chains them, and request
 * scenarios over the seeded role table.
 */
module Scenarios {
  import opened Wrappers
  import opened Strings
  import opened Permission
  import opened RequestContext
  import opened PermissionGate
  import opened Auth

  /** The seeded role -> permission lists. */
  const SuperadminPermissions: seq<string> := [
    "users:create", "users:read", "users:update", "users:delete",
    "blogs:create", "blogs:read:all", "blogs:update:all", "blogs:delete:all"]
  const AdminPermissions: seq<string> := [
    "users:read", "users:update",
    "blogs:create", "blogs:read:all", "blogs:update:all"]
  const UserPermissions: seq<string> := [
    "users:read:own", "users:update:own",
    "blogs:create", "blogs:read:own", "blogs:update:own", "blogs:delete:own"]

  /**
   * The context of a fresh request after the identity gate accepted a subject
   * with the given claims and held list.
   */
  function AuthenticatedCtx(userId: nat, roleId: nat, held: seq<string>): Ctx {
    map[KeyUserID := Some(UintVal(userId)),
        KeyRoleID := Some(UintVal(roleId)),
        KeyPermissions := Some(TextListVal(held)),
        KeyScope := Some(TextVal("auth"))]
  }

  /** The header carries a verified token whose role the store maps to `held`. */
  predicate SignedIn(header: string, parseToken: TokenParser, roleStore: RoleStore, held: seq<string>) {
    && BearerToken(header).Some?
    && parseToken(BearerToken(header).value).Success?
    && roleStore(parseToken(BearerToken(header).value).value.roleId) == Success(held)
  }

  /**
   * On a fresh request, the identity gate turns a verified token into the
   * authenticated context: it has a subject and caches the role's held list.
   */
  lemma IdentityGateSignsIn(allowPublic: bool, header: string, parseToken: TokenParser,
                            roleStore: RoleStore, held: seq<string>)
    requires SignedIn(header, parseToken, roleStore, held)
    ensures var c := parseToken(BearerToken(header).value).value;
      && AuthMiddleware(allowPublic, header, map[], parseToken, roleStore) ==
           Continue(AuthenticatedCtx(c.userId, c.roleId, held))
      && KeyUserID in AuthenticatedCtx(c.userId, c.roleId, held)
      && CachedPermissions(AuthenticatedCtx(c.userId, c.roleId, held)) == Some(held)
  {
    Authenticated(allowPublic, header, map[], parseToken, roleStore);
  }

  // ---------------------------------------------------------------------
  // The gates in sequence
  // ---------------------------------------------------------------------

  /**
   * Once the identity gate lets a request through, the authorization gate
   * never answers 401 or 500 and never queries its store: the identity gate
   * always sets `user_id` and caches a held list.
   */
  lemma IdentityThenAuthorization(allowPublic: bool, header: string, ctx: Ctx,
                                  parseToken: TokenParser, roleStore: RoleStore,
                                  permission: string, store: PermissionStore, other: PermissionStore)
    requires AuthMiddleware(allowPublic, header, ctx, parseToken, roleStore).Continue?
    ensures var c := AuthMiddleware(allowPublic, header, ctx, parseToken, roleStore).ctx;
      var o := RequirePermission(permission, c, store);
      && o == RequirePermission(permission, c, other)
      && (o.Abort? ==> o.status == StatusForbidden)
  {
    var c := AuthMiddleware(allowPublic, header, ctx, parseToken, roleStore).ctx;
    assert CachedPermissions(c).Some?;
    StoreQueriedOnlyWhenNeeded(permission, c, store, other);
  }

  /**
   * A guest (user_id present but nil) on a non-public route is refused with
   * 403, not 401: the key exists and the held list is empty.
   */
  lemma GuestOnPrivateRouteIsForbidden(permission: string, ctx: Ctx, store: PermissionStore)
    requires !CheckPublicPermission(permission)
    ensures RequirePermission(permission, SetPublic(ctx), store) ==
      Abort(403, "Insufficient permissions", SetPublic(ctx))
  {
    var c := SetPublic(ctx);
    assert CachedPermissions(c) == Some([]);
    assert c[KeyPermissions := Some(TextListVal([]))] == c;
  }

  // ---------------------------------------------------------------------
  // Scenarios over the seeded role table
  // ---------------------------------------------------------------------

  /** A signed-in admin holds `users:read` bare and is admitted to it with scope `all`, no ownership check. */
  lemma AdminReadsUsers(allowPublic: bool, header: string, parseToken: TokenParser,
                        roleStore: RoleStore, store: PermissionStore)
    requires SignedIn(header, parseToken, roleStore, AdminPermissions)
    ensures var ctx := AuthMiddleware(allowPublic, header, map[], parseToken, roleStore).ctx;
      RequirePermission("users:read", ctx, store) ==
        Continue(ctx[KeyPermissionScope := Some(TextVal("all"))][KeyNeedsOwnershipCheck := Some(BoolVal(false))])
  {
    var c := parseToken(BearerToken(header).value).value;
    IdentityGateSignsIn(allowPublic, header, parseToken, roleStore, AdminPermissions);
    ScenarioNames();
    ScenarioVariants();
    AdminHoldsBareRead();
    BaseHolderAdmitted("users:read", AuthenticatedCtx(c.userId, c.roleId, AdminPermissions), store, AdminPermissions);
  }

  /**
   * A signed-in plain user holds only `users:read:own` and is admitted to
   * `users:read` with scope `own` and an ownership check left to the handler.
   */
  lemma UserReadsOwnProfile(allowPublic: bool, header: string, parseToken: TokenParser,
                            roleStore: RoleStore, store: PermissionStore)
    requires SignedIn(header, parseToken, roleStore, UserPermissions)
    ensures var ctx := AuthMiddleware(allowPublic, header, map[], parseToken, roleStore).ctx;
      RequirePermission("users:read", ctx, store) ==
        Continue(ctx[KeyPermissionScope := Some(TextVal("own"))][KeyNeedsOwnershipCheck := Some(BoolVal(true))])
  {
    var c := parseToken(BearerToken(header).value).value;
    IdentityGateSignsIn(allowPublic, header, parseToken, roleStore, UserPermissions);
    ScenarioNames();
    ScenarioVariants();
    UserHoldsOwnRead();
    OwnVariantHolderAdmitted("users:read", "users:read", AuthenticatedCtx(c.userId, c.roleId, UserPermissions),
                             store, UserPermissions);
  }

  /** A signed-in plain user holds no variant of `users:delete` and is refused with 403. */
  lemma UserCannotDeleteUsers(allowPublic: bool, header: string, parseToken: TokenParser,
                              roleStore: RoleStore, store: PermissionStore)
    requires SignedIn(header, parseToken, roleStore, UserPermissions)
    ensures var ctx := AuthMiddleware(allowPublic, header, map[], parseToken, roleStore).ctx;
      RequirePermission("users:delete", ctx, store) ==
        Abort(403, "Insufficient permissions", ctx)
  {
    var c := parseToken(BearerToken(header).value).value;
    IdentityGateSignsIn(allowPublic, header, parseToken, roleStore, UserPermissions);
    ScenarioNames();
    ScenarioVariants();
    UserLacksUsersDelete();
    NoCandidateForbidden("users:delete", "users:delete", AuthenticatedCtx(c.userId, c.roleId, UserPermissions),
                         store, UserPermissions);
  }

  /**
   * A signed-in superadmin holds `blogs:delete:all` and is admitted to
   * `blogs:delete` with scope `all`, no ownership check.
   */
  lemma SuperadminDeletesBlogs(allowPublic: bool, header: string, parseToken: TokenParser,
                               roleStore: RoleStore, store: PermissionStore)
    requires SignedIn(header, parseToken, roleStore, SuperadminPermissions)
    ensures var ctx := AuthMiddleware(allowPublic, header, map[], parseToken, roleStore).ctx;
      RequirePermission("blogs:delete", ctx, store) ==
        Continue(ctx[KeyPermissionScope := Some(TextVal("all"))][KeyNeedsOwnershipCheck := Some(BoolVal(false))])
  {
    var c := parseToken(BearerToken(header).value).value;
    IdentityGateSignsIn(allowPublic, header, parseToken, roleStore, SuperadminPermissions);
    ScenarioNames();
    ScenarioVariants();
    SuperadminHoldsAllDelete();
    AllVariantHolderAdmitted("blogs:delete", "blogs:delete", AuthenticatedCtx(c.userId, c.roleId, SuperadminPermissions),
                             store, SuperadminPermissions);
  }

  /** With no `user_id` key at all, `users:delete` is refused with 401 before any lookup. */
  lemma AnonymousIsUnauthorized(ctx: Ctx, store: PermissionStore)
    requires KeyUserID !in ctx
    ensures RequirePermission("users:delete", ctx, store) == Abort(401, "Authentication required", ctx)
  {
    ScenarioNames();
  }

  /**
   * With no credential, the identity gate in public mode yields
   * the guest context and `blogs:read:public` is admitted with scope `public`.
   */
  lemma GuestReadsPublicBlogs(ctx: Ctx, parseToken: TokenParser, roleStore: RoleStore, store: PermissionStore)
    ensures AuthMiddleware(true, "", ctx, parseToken, roleStore) == Continue(SetPublic(ctx))
    ensures RequirePermission("blogs:read:public", SetPublic(ctx), store) ==
      Continue(SetPublic(ctx)[KeyPermissionScope := Some(TextVal("public"))]
                             [KeyNeedsOwnershipCheck := Some(BoolVal(false))])
  {
    assert CheckPublicPermission("blogs:read:public");
  }

  // ---------------------------------------------------------------------
  // Facts about the literal names and lists, each in a lemma of its own
  // ---------------------------------------------------------------------

  /** The three required names of the scenarios are two-part, non-public, and their own base. */
  lemma ScenarioNames()
    ensures Base("users:read") == Some("users:read") && !CheckPublicPermission("users:read")
    ensures Base("users:delete") == Some("users:delete") && !CheckPublicPermission("users:delete")
    ensures Base("blogs:delete") == Some("blogs:delete") && !CheckPublicPermission("blogs:delete")
  {
    BaseOfParts("users", "read", "");
    assert "users" + ":" + "read" == "users:read";
    BaseOfParts("users", "delete", "");
    assert "users" + ":" + "delete" == "users:delete";
    BaseOfParts("blogs", "delete", "");
    assert "blogs" + ":" + "delete" == "blogs:delete";
  }

  /** The `:all` and `:own` variants of the scenarios' names, spelled out. */
  lemma ScenarioVariants()
    ensures "users:read" + AllSuffix == "users:read:all" && "users:read" + OwnSuffix == "users:read:own"
    ensures !HasSuffix("users:read", OwnSuffix)
    ensures "users:delete" + AllSuffix == "users:delete:all" && "users:delete" + OwnSuffix == "users:delete:own"
    ensures "blogs:delete" + AllSuffix == "blogs:delete:all" && "blogs:delete" + OwnSuffix == "blogs:delete:own"
  {
  }

  lemma AdminHoldsBareRead()
    ensures "users:read" in AdminPermissions && "users:read:own" !in AdminPermissions
  {
    assert AdminPermissions[0] == "users:read";
  }

  lemma UserHoldsOwnRead()
    ensures "users:read" !in UserPermissions && "users:read:all" !in UserPermissions
    ensures "users:read:own" in UserPermissions
  {
    assert UserPermissions[0] == "users:read:own";
  }

  lemma UserLacksUsersDelete()
    ensures "users:delete" !in UserPermissions
    ensures "users:delete:all" !in UserPermissions && "users:delete:own" !in UserPermissions
  {
  }

  lemma SuperadminHoldsAllDelete()
    ensures "blogs:delete" !in SuperadminPermissions && "blogs:delete:own" !in SuperadminPermissions
    ensures "blogs:delete:all" in SuperadminPermissions
  {
    assert SuperadminPermissions[7] == "blogs:delete:all";
  }
}
