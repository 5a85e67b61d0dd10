/**
 * The authorization gate `RequirePermission` of middlewares/permission.go,
 * with its per-request permission cache `loadUserPermissions` and the loop
 * that picks the `permission_scope` written for the downstream handler.
 */
module PermissionGate {
  import opened Wrappers
  import opened Strings
  import opened Permission
  import opened RequestContext

  /** The role -> permission-names query (`services.LoadUserPermissions`), an opaque store. */
  type PermissionStore = nat -> Result<seq<string>, string>

  datatype LoadError = RoleIdMissing | RoleIdNotUint | StoreError(message: string)

  /** A successful load: the held names and the context with the cache filled. */
  datatype Loaded = Loaded(permissions: seq<string>, ctx: Ctx)

  /** The scope values written under `permission_scope`. */
  datatype Scope = PublicScope | AllScope | OwnScope

  function ScopeName(s: Scope): string {
    match s
    case PublicScope => "public"
    case AllScope => "all"
    case OwnScope => "own"
  }

  /** A `[]string` already stored under `permissions`, if any. */
  function CachedPermissions(ctx: Ctx): Option<seq<string>> {
    if KeyPermissions in ctx && ctx[KeyPermissions].Some? && ctx[KeyPermissions].value.TextListVal?
    then Some(ctx[KeyPermissions].value.items)
    else None
  }

  /** The `uint` stored under `role_id`, if the key is present with that type. */
  function RoleId(ctx: Ctx): Option<nat> {
    if KeyRoleID in ctx && ctx[KeyRoleID].Some? && ctx[KeyRoleID].value.UintVal?
    then Some(ctx[KeyRoleID].value.n)
    else None
  }

  /**
   * `loadUserPermissions`: a cached `[]string` is returned as is; otherwise the
   * role id must be present and a `uint`, the store is asked, and its answer is
   * cached in the context.
   */
  function LoadUserPermissions(ctx: Ctx, store: PermissionStore): (r: Result<Loaded, LoadError>)
    ensures r.Success? ==> r.value.ctx == ctx[KeyPermissions := Some(TextListVal(r.value.permissions))]
    ensures CachedPermissions(ctx).Some? ==> r == Success(Loaded(CachedPermissions(ctx).value, ctx))
    ensures CachedPermissions(ctx).None? && KeyRoleID !in ctx ==> r == Failure(RoleIdMissing)
    ensures CachedPermissions(ctx).None? && KeyRoleID in ctx && RoleId(ctx).None? ==> r == Failure(RoleIdNotUint)
    ensures CachedPermissions(ctx).None? && RoleId(ctx).Some? ==>
      (r.Success? <==> store(RoleId(ctx).value).Success?) &&
      (r.Success? ==> r.value.permissions == store(RoleId(ctx).value).value)
  {
    match CachedPermissions(ctx)
    case Some(permissions) =>
      assert ctx[KeyPermissions := Some(TextListVal(permissions))] == ctx;
      Success(Loaded(permissions, ctx))
    case None =>
      if KeyRoleID !in ctx then Failure(RoleIdMissing)
      else
        match RoleId(ctx)
        case None => Failure(RoleIdNotUint)
        case Some(roleId) =>
          match store(roleId)
          case Failure(e) => Failure(StoreError(e))
          case Success(permissions) =>
            Success(Loaded(permissions, ctx[KeyPermissions := Some(TextListVal(permissions))]))
  }

  /**
   * The scope one held name indicates, checked in the loop's order: an exact
   * match with a `public`/`all`/`own` suffix, then the bare base, then
   * `base:all`, then `base:own`.
   */
  function ElementScope(held: string, required: string): Option<Scope> {
    var base := Base(required);
    if held == required && HasSuffix(held, PublicSuffix) then Some(PublicScope)
    else if held == required && HasSuffix(held, AllSuffix) then Some(AllScope)
    else if held == required && HasSuffix(held, OwnSuffix) then Some(OwnScope)
    else if base.Some? && held == base.value then Some(AllScope)
    else if base.Some? && held == base.value + AllSuffix then Some(AllScope)
    else if base.Some? && held == base.value + OwnSuffix then Some(OwnScope)
    else None
  }

  /** The scope-selection loop: the first held name, in list order, that indicates a scope. */
  function SelectScope(held: seq<string>, required: string): (r: Option<Scope>)
    ensures r.None? <==> forall i :: 0 <= i < |held| ==> ElementScope(held[i], required).None?
    ensures r.Some? ==> exists i :: (0 <= i < |held| && ElementScope(held[i], required) == r &&
      forall j :: 0 <= j < i ==> ElementScope(held[j], required).None?)
  {
    if |held| == 0 then None
    else if ElementScope(held[0], required).Some? then ElementScope(held[0], required)
    else
      var r := SelectScope(held[1..], required);
      assert forall i :: 0 < i < |held| ==> held[i] == held[1..][i - 1];
      if r.Some? then
        var i :| 0 <= i < |held[1..]| && ElementScope(held[1..][i], required) == r &&
          forall j :: 0 <= j < i ==> ElementScope(held[1..][j], required).None?;
        assert ElementScope(held[i + 1], required) == r;
        r
      else r
  }

  /**
   * `RequirePermission(permission)`: public names are admitted with scope
   * `public`; otherwise a missing `user_id` key is 401, a failed load 500, a
   * denial 403, and a grant is admitted with the loop's scope and the
   * resolver's ownership flag.
   */
  function RequirePermission(permission: string, ctx: Ctx, store: PermissionStore): (o: Outcome)
    ensures o.Abort? ==> o.status in {StatusUnauthorized, StatusForbidden, StatusInternalServerError}
    ensures o.Abort? ==> SameExcept(o.ctx, ctx, KeyPermissions)
    ensures CheckPublicPermission(permission) ==> o.Continue?
    ensures o.Abort? && o.status == StatusUnauthorized <==> !CheckPublicPermission(permission) && KeyUserID !in ctx
  {
    if CheckPublicPermission(permission) then
      Continue(ctx[KeyPermissionScope := Some(TextVal(ScopeName(PublicScope)))]
                  [KeyNeedsOwnershipCheck := Some(BoolVal(false))])
    else if KeyUserID !in ctx then
      Abort(StatusUnauthorized, "Authentication required", ctx)
    else
      match LoadUserPermissions(ctx, store)
      case Failure(_) => Abort(StatusInternalServerError, "Failed to load permissions", ctx)
      case Success(Loaded(held, loadedCtx)) =>
        var d := CheckScopedPermission(held, permission);
        if d.isPublic then
          Continue(loadedCtx[KeyPermissionScope := Some(TextVal(ScopeName(PublicScope)))]
                            [KeyNeedsOwnershipCheck := Some(BoolVal(false))])
        else if !d.hasPermission then
          Abort(StatusForbidden, "Insufficient permissions", loadedCtx)
        else
          match SelectScope(held, permission)
          case Some(scope) =>
            Continue(loadedCtx[KeyPermissionScope := Some(TextVal(ScopeName(scope)))]
                              [KeyNeedsOwnershipCheck := Some(BoolVal(d.needsOwnershipCheck))])
          case None =>
            if d.needsOwnershipCheck then
              Continue(loadedCtx[KeyPermissionScope := Some(TextVal(ScopeName(OwnScope)))]
                                [KeyNeedsOwnershipCheck := Some(BoolVal(true))])
            else Continue(loadedCtx)
  }

  // ---------------------------------------------------------------------
  // The permission cache
  // ---------------------------------------------------------------------

  /**
   * Loading is idempotent: once a load succeeded, loading again from the
   * updated context returns the same list and context whatever the store says.
   */
  lemma LoadIsCached(ctx: Ctx, store: PermissionStore, other: PermissionStore)
    requires LoadUserPermissions(ctx, store).Success?
    ensures var l := LoadUserPermissions(ctx, store).value;
      LoadUserPermissions(l.ctx, other) == Success(l)
  {
    var l := LoadUserPermissions(ctx, store).value;
    assert CachedPermissions(l.ctx) == Some(l.permissions);
  }

  // ---------------------------------------------------------------------
  // The gate's paths
  // ---------------------------------------------------------------------

  /** A public name is admitted with scope `public` and no ownership check, before any identity or store check. */
  lemma PublicAdmits(permission: string, ctx: Ctx, store: PermissionStore)
    requires CheckPublicPermission(permission)
    ensures RequirePermission(permission, ctx, store) ==
      Continue(ctx[KeyPermissionScope := Some(TextVal("public"))][KeyNeedsOwnershipCheck := Some(BoolVal(false))])
  {
  }

  /** A non-public name with no `user_id` key stops with 401 and leaves the context alone. */
  lemma MissingUserIsUnauthorized(permission: string, ctx: Ctx, store: PermissionStore)
    requires !CheckPublicPermission(permission) && KeyUserID !in ctx
    ensures RequirePermission(permission, ctx, store) == Abort(401, "Authentication required", ctx)
  {
  }

  /**
   * The store is consulted only for a non-public name, with a `user_id` key,
   * and nothing cached: otherwise the outcome is the same for every store.
   */
  lemma StoreQueriedOnlyWhenNeeded(permission: string, ctx: Ctx, store: PermissionStore, other: PermissionStore)
    requires CheckPublicPermission(permission) || KeyUserID !in ctx || CachedPermissions(ctx).Some?
    ensures RequirePermission(permission, ctx, store) == RequirePermission(permission, ctx, other)
  {
  }

  /** A failed load stops with 500 and an unchanged context. */
  lemma LoadFailureIsServerError(permission: string, ctx: Ctx, store: PermissionStore)
    requires !CheckPublicPermission(permission) && KeyUserID in ctx
    requires LoadUserPermissions(ctx, store).Failure?
    ensures RequirePermission(permission, ctx, store) == Abort(500, "Failed to load permissions", ctx)
  {
  }

  /** A denial by the resolver stops with 403; only the permission cache may have been filled. */
  lemma DenialIsForbidden(permission: string, ctx: Ctx, store: PermissionStore)
    requires !CheckPublicPermission(permission) && KeyUserID in ctx
    requires LoadUserPermissions(ctx, store).Success?
    requires !CheckScopedPermission(LoadUserPermissions(ctx, store).value.permissions, permission).hasPermission
    ensures RequirePermission(permission, ctx, store) ==
      Abort(403, "Insufficient permissions", LoadUserPermissions(ctx, store).value.ctx)
  {
  }

  /**
   * A grant is admitted. When the loop finds a scope, or the resolver asks for
   * an ownership check, the loop's scope (falling back to `own`) is written
   * together with the RESOLVER's flag; otherwise nothing is written.
   */
  lemma GrantWritesResolverFlag(permission: string, ctx: Ctx, store: PermissionStore)
    requires !CheckPublicPermission(permission) && KeyUserID in ctx
    requires LoadUserPermissions(ctx, store).Success?
    ensures var l := LoadUserPermissions(ctx, store).value;
      var d := CheckScopedPermission(l.permissions, permission);
      var scope := SelectScope(l.permissions, permission);
      var o := RequirePermission(permission, ctx, store);
      d.hasPermission ==>
        && o.Continue?
        && (scope.None? && !d.needsOwnershipCheck ==> o.ctx == l.ctx)
        && (scope.Some? || d.needsOwnershipCheck ==>
              o.ctx == l.ctx[KeyPermissionScope := Some(TextVal(ScopeName(scope.GetOr(OwnScope))))]
                            [KeyNeedsOwnershipCheck := Some(BoolVal(d.needsOwnershipCheck))])
  {
  }

  /** The admitted outcome for a held list already cached in the context. */
  lemma AdmitFromCache(permission: string, ctx: Ctx, store: PermissionStore, held: seq<string>, scope: Scope)
    requires !CheckPublicPermission(permission) && KeyUserID in ctx && CachedPermissions(ctx) == Some(held)
    requires CheckScopedPermission(held, permission).hasPermission
    requires SelectScope(held, permission) == Some(scope)
    ensures RequirePermission(permission, ctx, store) ==
      Continue(ctx[KeyPermissionScope := Some(TextVal(ScopeName(scope)))]
                  [KeyNeedsOwnershipCheck := Some(BoolVal(CheckScopedPermission(held, permission).needsOwnershipCheck))])
  {
  }

  // ---------------------------------------------------------------------
  // The scope-selection loop against the resolver
  // ---------------------------------------------------------------------

  /** A held name that indicates a scope for a non-public name grants it on its own. */
  lemma ElementScopeCovers(held: string, required: string)
    requires !CheckPublicPermission(required) && ElementScope(held, required).Some?
    ensures Covers(held, required)
  {
  }

  /** For a well-formed name, every held name that grants it indicates a scope. */
  lemma CoversGivesElementScope(held: string, required: string)
    requires WellFormed(required) && !CheckPublicPermission(required) && Covers(held, required)
    ensures ElementScope(held, required).Some?
  {
    WellFormedShape(required);
  }

  /** For a non-public name, the loop finds a scope only when the resolver grants. */
  lemma ScopeImpliesGranted(held: seq<string>, required: string)
    requires !CheckPublicPermission(required) && SelectScope(held, required).Some?
    ensures CheckScopedPermission(held, required).hasPermission
  {
    var i :| 0 <= i < |held| && ElementScope(held[i], required) == SelectScope(held, required);
    ElementScopeCovers(held[i], required);
  }

  /** For a well-formed non-public name, a grant always lets the loop find a scope. */
  lemma GrantedImpliesScope(held: seq<string>, required: string)
    requires WellFormed(required) && !CheckPublicPermission(required)
    requires CheckScopedPermission(held, required).hasPermission
    ensures SelectScope(held, required).Some?
  {
    var p :| p in held && Covers(p, required);
    var i :| 0 <= i < |held| && held[i] == p;
    CoversGivesElementScope(p, required);
  }

  /** For a well-formed name, every admitted request carries a `permission_scope`. */
  lemma AdmitCarriesScope(permission: string, ctx: Ctx, store: PermissionStore)
    requires WellFormed(permission)
    requires RequirePermission(permission, ctx, store).Continue?
    ensures KeyPermissionScope in RequirePermission(permission, ctx, store).ctx
  {
    if !CheckPublicPermission(permission) {
      var l := LoadUserPermissions(ctx, store).value;
      GrantedImpliesScope(l.permissions, permission);
    }
  }

  /** The `:own` variant of the base always indicates scope `own`. */
  lemma OwnVariantScope(required: string, base: string)
    requires Base(required) == Some(base)
    ensures ElementScope(base + OwnSuffix, required) == Some(OwnScope)
  {
    VariantsDistinct(base);
    SuffixOfConcat(base, OwnSuffix);
    SuffixesExclusive(base + OwnSuffix);
  }

  /** The `:all` variant of the base always indicates scope `all`. */
  lemma AllVariantScope(required: string, base: string)
    requires Base(required) == Some(base)
    ensures ElementScope(base + AllSuffix, required) == Some(AllScope)
  {
    VariantsDistinct(base);
    SuffixOfConcat(base, AllSuffix);
    SuffixesExclusive(base + AllSuffix);
  }

  /** A held name that is none of the four candidates indicates no scope. */
  lemma UnrelatedNameScope(held: string, required: string, base: string)
    requires Base(required) == Some(base)
    requires held != required && held != base && held != base + AllSuffix && held != base + OwnSuffix
    ensures ElementScope(held, required).None?
  {
  }

  /** Names that indicate no scope are skipped. */
  lemma {:induction false} SelectScopeSkips(held: seq<string>, required: string, k: nat)
    requires k <= |held|
    requires forall i :: 0 <= i < k ==> ElementScope(held[i], required).None?
    ensures SelectScope(held, required) == SelectScope(held[k..], required)
    decreases k
  {
    if k > 0 {
      assert held[1..][k - 1..] == held[k..];
      SelectScopeSkips(held[1..], required, k - 1);
    }
  }

  /** When the loop finds a scope, some held name indicates it. */
  lemma SelectedScopeIsIndicated(held: seq<string>, required: string)
    requires SelectScope(held, required).Some?
    ensures exists p :: p in held && ElementScope(p, required) == SelectScope(held, required)
  {
    var i :| 0 <= i < |held| && ElementScope(held[i], required) == SelectScope(held, required);
    assert held[i] in held;
  }

  /**
   * A subject holding the bare base of a two-part name, and not its `:own`
   * variant, is admitted with scope `all` and no ownership check.
   */
  lemma BaseHolderAdmitted(required: string, ctx: Ctx, store: PermissionStore, held: seq<string>)
    requires !CheckPublicPermission(required) && !HasSuffix(required, OwnSuffix)
    requires Base(required) == Some(required)
    requires KeyUserID in ctx && CachedPermissions(ctx) == Some(held)
    requires required in held && required + OwnSuffix !in held
    ensures RequirePermission(required, ctx, store) ==
      Continue(ctx[KeyPermissionScope := Some(TextVal("all"))][KeyNeedsOwnershipCheck := Some(BoolVal(false))])
  {
    ExactOrBaseOwnership(held, required);
    var i :| 0 <= i < |held| && held[i] == required;
    assert ElementScope(held[i], required).Some?;
    SelectedScopeIsIndicated(held, required);
    var scope := SelectScope(held, required).value;
    assert scope == AllScope;
    AdmitFromCache(required, ctx, store, held, AllScope);
  }

  /**
   * A subject holding the `:all` variant, but neither the name, its base nor
   * the `:own` variant, is admitted with scope `all` and no ownership check.
   */
  lemma AllVariantHolderAdmitted(required: string, base: string, ctx: Ctx, store: PermissionStore, held: seq<string>)
    requires !CheckPublicPermission(required) && Base(required) == Some(base)
    requires KeyUserID in ctx && CachedPermissions(ctx) == Some(held)
    requires required !in held && base !in held && base + OwnSuffix !in held
    requires base + AllSuffix in held
    ensures RequirePermission(required, ctx, store) ==
      Continue(ctx[KeyPermissionScope := Some(TextVal("all"))][KeyNeedsOwnershipCheck := Some(BoolVal(false))])
  {
    AllVariantBeatsOwn(held, required);
    var i :| 0 <= i < |held| && held[i] == base + AllSuffix;
    AllVariantScope(required, base);
    SelectedScopeIsIndicated(held, required);
    var p :| p in held && ElementScope(p, required) == SelectScope(held, required);
    if p != base + AllSuffix {
      UnrelatedNameScope(p, required, base);
    }
    AdmitFromCache(required, ctx, store, held, AllScope);
  }

  /**
   * A subject holding only the `:own` variant among the candidates is
   * admitted with scope `own` and an ownership check for the handler.
   */
  lemma OwnVariantHolderAdmitted(required: string, base: string, ctx: Ctx, store: PermissionStore, held: seq<string>)
    requires !CheckPublicPermission(required) && Base(required) == Some(base)
    requires KeyUserID in ctx && CachedPermissions(ctx) == Some(held)
    requires required !in held && base !in held && base + AllSuffix !in held
    requires base + OwnSuffix in held
    ensures RequirePermission(required, ctx, store) ==
      Continue(ctx[KeyPermissionScope := Some(TextVal("own"))][KeyNeedsOwnershipCheck := Some(BoolVal(true))])
  {
    OwnVariantNeedsOwnership(held, required);
    var i :| 0 <= i < |held| && held[i] == base + OwnSuffix;
    OwnVariantScope(required, base);
    SelectedScopeIsIndicated(held, required);
    var p :| p in held && ElementScope(p, required) == SelectScope(held, required);
    if p != base + OwnSuffix {
      UnrelatedNameScope(p, required, base);
    }
    AdmitFromCache(required, ctx, store, held, OwnScope);
  }

  /** A subject holding none of the candidates is refused with 403 and an unchanged context. */
  lemma NoCandidateForbidden(required: string, base: string, ctx: Ctx, store: PermissionStore, held: seq<string>)
    requires !CheckPublicPermission(required) && Base(required) == Some(base)
    requires KeyUserID in ctx && CachedPermissions(ctx) == Some(held)
    requires required !in held && base !in held && base + AllSuffix !in held && base + OwnSuffix !in held
    ensures RequirePermission(required, ctx, store) == Abort(403, "Insufficient permissions", ctx)
  {
    DeniedWithoutVariants(held, required, base);
    assert ctx[KeyPermissions := Some(TextListVal(held))] == ctx;
  }

  /**
   * The loop is first-match in list order while the resolver is not: holding
   * `r:a:own` before `r:a:all` and requiring `r:a` admits with scope `own` but
   * no ownership check; the reverse order gives scope `all`.
   */
  lemma ScopeCanDisagreeWithFlag(resource: string, action: string, ctx: Ctx, store: PermissionStore)
    requires ':' !in resource && ':' !in action && !CheckPublicPermission(resource + ":" + action)
    requires KeyUserID in ctx
    requires var base := resource + ":" + action;
      KeyPermissions in ctx && ctx[KeyPermissions] == Some(TextListVal([base + OwnSuffix, base + AllSuffix]))
    ensures var base := resource + ":" + action;
      RequirePermission(base, ctx, store) ==
        Continue(ctx[KeyPermissionScope := Some(TextVal("own"))][KeyNeedsOwnershipCheck := Some(BoolVal(false))])
    ensures var base := resource + ":" + action;
      SelectScope([base + AllSuffix, base + OwnSuffix], base) == Some(AllScope)
  {
    var base := resource + ":" + action;
    var held := [base + OwnSuffix, base + AllSuffix];
    BaseOfParts(resource, action, "");
    SelectFirstOwn(held, base);
    AllVariantScope(base, base);
  }

  /**
   * For a non-public name, an ownership flag from the resolver always comes
   * with a scope found by the loop, so the gate's fallback to scope `own` when
   * the loop finds none is never taken.
   */
  lemma OwnershipFlagImpliesScope(held: seq<string>, required: string)
    requires !CheckPublicPermission(required)
    requires CheckScopedPermission(held, required).needsOwnershipCheck
    ensures SelectScope(held, required).Some?
  {
    var p: string;
    if required in held && HasSuffix(required, OwnSuffix) {
      p := required;
    } else if Base(required).Some? && Base(required).value in held {
      p := Base(required).value;
    } else {
      p := Base(required).value + OwnSuffix;
    }
    assert p in held && ElementScope(p, required).Some?;
    var i :| 0 <= i < |held| && held[i] == p;
  }

  lemma SelectFirstOwn(held: seq<string>, base: string)
    requires |held| == 2 && held[0] == base + OwnSuffix && Base(base) == Some(base)
    ensures SelectScope(held, base) == Some(OwnScope)
  {
    assert held[0] != base;
    assert held[0][|held[0]| - 1] == 'n';
    assert held[0] != base + AllSuffix by {
      assert (base + AllSuffix)[|held[0]| - 1] == 'l';
    }
    assert ElementScope(held[0], base) == Some(OwnScope);
  }
}
