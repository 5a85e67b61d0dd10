# Scoped-permission authorization core of go-blogs

This project models, in Dafny, the authorization engine of the go-blogs web
service. Permission names have the shape `resource:action[:own|all|public]`.
The engine has three layers:

- **The resolver** (`services/permission.go`). `HasPermission` grants on an
  exact match or on the bare `resource:action` base. `CheckScopedPermission`
  returns the triple `(hasPermission, isPublic, needsOwnershipCheck)`. Its rules
  are tried in a fixed order, and each rule scans the whole held list: the
  public branch, then exact or base match, then the `:all` variant, then the
  `:own` variant. `CheckPublicPermission` is a suffix test.
- **The authorization gate** (`RequirePermission` in
  `middlewares/permission.go`). Public names are admitted. Otherwise a missing
  `user_id` key gives 401, a failed permission load gives 500, a denial gives
  403, and a grant is admitted. On admission a separate first-match loop over
  the held list picks the `permission_scope` value. The ownership flag written
  next to it is the resolver's. `loadUserPermissions` caches the held list in
  the request context.
- **The identity gate** (`AuthMiddleware(allowPublic)` in
  `middlewares/auth.go`). It reads a simplified bearer credential (section 2.1
  of RFC 6750): the header is split on one space into exactly two parts, and the
  first part must be `bearer` in any case. It then fills the context with the
  subject, falls back to a guest context (`setPublic`), or stops with 401.

Modules:

| file | module | contents |
|---|---|---|
| `wrappers.dfy` | `Wrappers` | `Option`, `Result` |
| `strings.dfy` | `Strings` | Go's `strings.Split`, `HasPrefix`, `HasSuffix`, `TrimSuffix`, `ToLower` (ASCII `LowerChar`), `Join`, and the split/join round trips |
| `permission.dfy` | `Permission` | the resolver: `CheckPublicPermission` (services/permission.go:114-116), `Base` (the `parts[0] + ":" + parts[1]` of lines 39-41), `Holds`, `HasPermission`, `PublicVariant` (the line 60 test), `HoldsPublicVariant`, `CheckScopedPermission`; the reference predicate `Covers`; `WellFormed` names; and their properties |
| `context.dfy` | `RequestContext` | the request context, its keys, status codes, the `Outcome` of a middleware |
| `permission_gate.dfy` | `PermissionGate` | `loadUserPermissions` as `LoadUserPermissions`, with `CachedPermissions` (the cache test of middlewares/permission.go:22-26) and `RoleId` (the `role_id` lookup of lines 29-37); the scope loop as `ElementScope` (one iteration, lines 121-151) and `SelectScope`; `RequirePermission`; and their properties |
| `auth.dfy` | `Auth` | `setPublic` as `SetPublic`, the header check `BearerToken`, `AuthMiddleware`, and their properties |
| `scenarios.dfy` | `Scenarios` | the two gates in sequence, and request scenarios over the seeded role table, each starting from the identity gate's output |

The request context is a `map<string, Option<Value>>`. A key mapped to `None`
is Go's `nil`: the key is present but holds no value. This matters because
`setPublic` stores `user_id = nil`. The gate's presence check then passes, so
a guest on a non-public route is refused with 403, not 401
(`Scenarios.GuestOnPrivateRouteIsForbidden`). A middleware's result is
`Continue(ctx)` or `Abort(status, message, ctx)`. Each path therefore either
aborts or continues, never both.

Token verification and the two role→permission queries are opaque function
parameters (`TokenParser`, `RoleStore`, `PermissionStore`). Each returns a
value or an error.

The source does not compile as written. `ContextKeyScope` is never defined,
and `ContextKeyUserID`, `ContextKeyRoleID` and `ContextKeyPermissions` are
declared both in middlewares/types.go:5-7 and in middlewares/permission.go:12-14.
The model follows the evident intent: one set of keys
(`RequestContext.KeyUserID` …), plus a `"scope"` key for the identity gate's
`public`/`auth` marker, kept distinct from `permission_scope`.

Two behaviours of the code are easy to misread, and the model follows the code
in both:

- A bare held `r:a` grants a required `r:a:own` through the base rule. The
  ownership flag is still set, because it follows the required name
  (`Permission.BareHeldOwnRequired`).
- For a public name, the resolver answers `(false, true, false)` when no
  variant is held. The gate never reaches the resolver for public names and
  admits them anyway (`PermissionGate.PublicAdmits`).

## Model

| member | source | states |
|---|---|---|
| `Strings.TrimSuffix` | services/permission.go:60 | when the suffix is present, the result followed by the suffix is the input; otherwise the input is returned unchanged |
| `Strings.SuffixOfConcat` | services/permission.go:60 | a string followed by a suffix ends in that suffix, and trimming the suffix gives the string back |
| `Strings.Split` | services/permission.go:39 | splitting on a one-character separator always yields at least one piece |
| `Strings.SplitPiecesLackSeparator` | middlewares/auth.go:38 | no piece of a split contains the separator |
| `Strings.JoinSplit` | services/permission.go:39 | joining the pieces with the separator restores the input |
| `Strings.SplitJoin` | services/permission.go:39 | splitting a join of separator-free pieces gives the pieces back |
| `Strings.SplitWithoutSeparator` | services/permission.go:39-40 | a string without the separator splits into itself alone |
| `Strings.SplitAtFirstSeparator` | services/permission.go:39-41 | the first separator ends the first piece, and the rest splits on its own |
| `Strings.SplitIsSingletonIff` | services/permission.go:39-40 | there is exactly one piece if and only if the separator does not occur |
| `Strings.JoinCons` | services/permission.go:41 | a join of a head and a non-empty tail is the head, the separator, and the join of the tail |
| `Strings.ToLowerEqualsIff` | middlewares/auth.go:39 | lower-casing yields a lower-case word exactly when each character is that word's letter in either case |
| `Permission.Holds` | services/permission.go:31-35 | the scan of the held list succeeds exactly when the name is a member |
| `Permission.HasPermission` | services/permission.go:29-50 | granted exactly when the required name is held, or it has a base and the base is held |
| `Permission.HoldsPublicVariant` | services/permission.go:59-63 | the public scan succeeds exactly when some held name is the required name or extends its trimmed base with a colon |
| `Permission.CheckScopedPermission` | services/permission.go:55-111 | `isPublic` holds exactly for `:public` names; a grant happens exactly when some held name covers the required one under the reference rules; an ownership flag implies a non-public grant |
| `Permission.BaseDefinedIff` | services/permission.go:39-40 | a name has a base exactly when it contains a colon |
| `Permission.BaseIsPrefix` | services/permission.go:39-41 | the base is the whole name or a prefix of it followed by a colon |
| `Permission.BaseOfParts` | services/permission.go:84-86 | for colon-free resource and action, `r:a` and `r:a:anything` both have base `r:a` |
| `Permission.SuffixesExclusive` | services/permission.go:72-76 | no name ends in two of `:public`, `:all`, `:own` |
| `Permission.TwoPartsAreBase` | services/permission.go:39-41 | a name of two colon parts is its own base |
| `Permission.ThreePartsExtendBase` | services/permission.go:84-86 | a name of three colon parts is its base, a colon and the third part |
| `Permission.WellFormedShape` | services/permission.go:53-54 | a well-formed name, `resource:action[:own|all|public]`, is its own base or ends in one of the three scope suffixes |
| `Permission.VariantsDistinct` | services/permission.go:87-100 | a base, its `:all` variant and its `:own` variant are three different names |
| `Permission.PublicSuffixMakesPublic` | services/permission.go:114-116 | any name ending in `:public` is public |
| `Permission.ExactMatchGrants` | services/permission.go:31-35 | holding the required name grants it, in both `HasPermission` and `CheckScopedPermission` |
| `Permission.ColonFreeNeedsExactMatch` | services/permission.go:39-49 | for a name without a colon, both resolvers grant exactly when the name itself is held |
| `Permission.SuffixHasColon` | services/permission.go:57 | a colon-free name does not end in a suffix that starts with a colon |
| `Permission.PublicBranch` | services/permission.go:57-67 | on the public branch `isPublic` holds, no ownership check is requested, and the grant holds exactly when a held name is the required one or extends its trimmed base with a colon |
| `Permission.ExactOrBaseOwnership` | services/permission.go:70-81 | a grant through `HasPermission` requests an ownership check exactly when the required name ends in `:own` |
| `Permission.AllVariantBeatsOwn` | services/permission.go:83-94 | with no exact or base match, holding `base:all` anywhere gives `(true, false, false)`, even when `base:own` is held too |
| `Permission.OwnVariantNeedsOwnership` | services/permission.go:96-108 | with no exact, base or `:all` match, holding `base:own` gives `(true, false, true)` |
| `Permission.DeniedWithoutVariants` | services/permission.go:110 | a non-public name is denied when neither it, its base, nor the base's `:all` or `:own` variant is held |
| `Permission.DenialIsAllFalse` | services/permission.go:64-110 | a denial carries no ownership flag, and `isPublic` only for public names |
| `Permission.GrantMonotone` | services/permission.go:29-110 | appending held names never turns a grant into a denial |
| `Permission.DecisionDependsOnMembershipOnly` | services/permission.go:55-111 | two held lists with the same members get the same decision, whatever their order or repetition |
| `Permission.BareHeldOwnRequired` | services/permission.go:70-78 | held `[r:a]` with required `r:a:own` gives `(true, false, true)`: the flag follows the required name |
| `PermissionGate.LoadUserPermissions` | middlewares/permission.go:20-49 | a cached list is returned with the context unchanged; a missing `role_id` and a non-`uint` one are distinct errors; otherwise the load succeeds exactly when the store does, returns the store's list, and writes it into the context |
| `PermissionGate.LoadIsCached` | middlewares/permission.go:20-49 | after a successful load, loading again from the updated context returns the same result whatever the store answers |
| `PermissionGate.SelectScope` | middlewares/permission.go:120-152 | no scope exactly when no held name indicates one; otherwise the scope is that of the first held name, in list order, that indicates one |
| `PermissionGate.RequirePermission` | middlewares/permission.go:55-167 | aborts only with 401, 403 or 500 and then changes at most the permission cache; public names always continue; 401 exactly when the name is not public and `user_id` is absent |
| `PermissionGate.PublicAdmits` | middlewares/permission.go:58-64 | a public name is admitted with scope `public` and flag `false`, whatever the context holds |
| `PermissionGate.MissingUserIsUnauthorized` | middlewares/permission.go:69-77 | a non-public name without a `user_id` key stops with 401, "Authentication required", and an unchanged context |
| `PermissionGate.StoreQueriedOnlyWhenNeeded` | middlewares/permission.go:58-88 | for a public name, a missing `user_id`, or a cached list, the outcome is the same for every store |
| `PermissionGate.LoadFailureIsServerError` | middlewares/permission.go:80-88 | a failed load stops with 500, "Failed to load permissions", and an unchanged context |
| `PermissionGate.DenialIsForbidden` | middlewares/permission.go:101-108 | a resolver denial stops with 403, "Insufficient permissions", and writes no scope |
| `PermissionGate.GrantWritesResolverFlag` | middlewares/permission.go:91-165 | a grant is admitted; when the loop finds a scope, that scope is written with the resolver's flag (not one derived from the loop); when it finds none and the flag is false, nothing is written (the flagged fallback to `own` is unreachable, see `PermissionGate.OwnershipFlagImpliesScope`) |
| `PermissionGate.AdmitFromCache` | middlewares/permission.go:155-157 | with a cached list that grants and a scope found by the loop, the request is admitted with that scope and the resolver's flag |
| `PermissionGate.ElementScopeCovers` | middlewares/permission.go:120-152 | a held name that indicates a scope for a non-public name grants it on its own |
| `PermissionGate.CoversGivesElementScope` | middlewares/permission.go:120-152 | for a well-formed non-public name, every held name that grants it indicates a scope |
| `PermissionGate.ScopeImpliesGranted` | middlewares/permission.go:120-152 | for a non-public name, the loop finds a scope only when the resolver grants |
| `PermissionGate.GrantedImpliesScope` | middlewares/permission.go:120-152 | for a well-formed non-public name, a grant always lets the loop find a scope |
| `PermissionGate.AdmitCarriesScope` | middlewares/permission.go:154-165 | for a well-formed name, every admitted request carries a `permission_scope` |
| `PermissionGate.OwnVariantScope` | middlewares/permission.go:147-150 | the base's `:own` variant indicates scope `own` |
| `PermissionGate.AllVariantScope` | middlewares/permission.go:141-144 | the base's `:all` variant indicates scope `all` |
| `PermissionGate.UnrelatedNameScope` | middlewares/permission.go:120-152 | a held name that is none of the four candidates indicates no scope |
| `PermissionGate.SelectScopeSkips` | middlewares/permission.go:120-152 | held names that indicate no scope are skipped by the loop |
| `PermissionGate.SelectedScopeIsIndicated` | middlewares/permission.go:120-152 | a scope the loop finds is indicated by some held name |
| `PermissionGate.BaseHolderAdmitted` | middlewares/permission.go:135-139 | a subject holding a two-part name bare, and not its `:own` variant, is admitted with scope `all` and flag `false` |
| `PermissionGate.AllVariantHolderAdmitted` | middlewares/permission.go:141-145 | a subject holding only the `:all` variant among the candidates is admitted with scope `all` and flag `false` |
| `PermissionGate.OwnVariantHolderAdmitted` | middlewares/permission.go:147-151 | a subject holding only the `:own` variant among the candidates is admitted with scope `own` and flag `true` |
| `PermissionGate.NoCandidateForbidden` | middlewares/permission.go:101-108 | a subject holding none of the candidates is refused with 403 and an unchanged context |
| `PermissionGate.OwnershipFlagImpliesScope` | middlewares/permission.go:155-161 | for a non-public name, whenever the resolver flags an ownership check the loop finds a scope, so the `else if needsOwnershipCheck` fallback never runs |
| `PermissionGate.ScopeCanDisagreeWithFlag` | middlewares/permission.go:91-157 | held `[r:a:own, r:a:all]` with required `r:a` is admitted with scope `own` but flag `false`, while the loop over the reverse order picks scope `all` |
| `PermissionGate.SelectFirstOwn` | middlewares/permission.go:129-131 | a list starting with `r:a:own` makes the loop pick scope `own` for `r:a` |
| `Auth.SetPublic` | middlewares/auth.go:12-17 | the guest context has `user_id` and `role_id` present but nil, an empty held list, and scope `public`; every other key is unchanged |
| `Auth.BearerToken` | middlewares/auth.go:37-52 | an accepted token contains no space |
| `Auth.AuthMiddleware` | middlewares/auth.go:19-84 | with `allowPublic` it never aborts; an abort is 401 with an unchanged context; a continue always has `user_id` and a held list; the scope marker is `public` or `auth`, and `auth` means a verified token whose claims were written |
| `Auth.SchemeMatchIff` | middlewares/auth.go:39 | the scheme is accepted exactly when it spells `bearer` in any mix of cases |
| `Auth.SchemeHasNoSpace` | middlewares/auth.go:39 | an accepted scheme contains no space |
| `Auth.BearerTokenRoundTrip` | middlewares/auth.go:38-52 | a `bearer` scheme, one space and a space-free token give that token back |
| `Auth.BearerTokenShape` | middlewares/auth.go:38-52 | every accepted header is a `bearer` scheme, one space, and the token |
| `Auth.DoubleSpaceRejected` | middlewares/auth.go:38-39 | two spaces between scheme and token are rejected |
| `Auth.GuestFallback` | middlewares/auth.go:24-62 | with `allowPublic`, a missing, malformed or unverifiable credential yields the guest context |
| `Auth.RejectWithoutCredential` | middlewares/auth.go:24-68 | without `allowPublic`, the same failures stop with 401 and an unchanged context |
| `Auth.Authenticated` | middlewares/auth.go:70-82 | a verified token writes its subject and role, the role's list (empty when the store fails), and scope `auth`, in either mode |
| `Scenarios.IdentityGateSignsIn` | middlewares/auth.go:70-82 | on a fresh request with a verified token whose role maps to a held list, the identity gate continues with exactly the context holding the claims' ids, that list and scope `auth`, which has a subject and a cached list |
| `Scenarios.IdentityThenAuthorization` | middlewares/permission.go:69-88 | after the identity gate continues, the authorization gate never queries its store and can only abort with 403 |
| `Scenarios.GuestOnPrivateRouteIsForbidden` | middlewares/auth.go:13-15 | a guest on a non-public route is refused with 403, not 401 |
| `Scenarios.AdminReadsUsers` | seeders/roles.go:16-19 | an admin signed in through the identity gate and asking for `users:read` is admitted with scope `all` and no ownership check |
| `Scenarios.UserReadsOwnProfile` | seeders/roles.go:20-23 | a plain user signed in through the identity gate and asking for `users:read` is admitted with scope `own` and an ownership check |
| `Scenarios.UserCannotDeleteUsers` | seeders/roles.go:20-23 | a plain user signed in through the identity gate and asking for `users:delete` is refused with 403 |
| `Scenarios.SuperadminDeletesBlogs` | seeders/roles.go:12-15 | a superadmin signed in through the identity gate and asking for `blogs:delete` is admitted with scope `all` and no ownership check |
| `Scenarios.AnonymousIsUnauthorized` | middlewares/permission.go:69-77 | with no `user_id` key, `users:delete` is refused with 401 |
| `Scenarios.GuestReadsPublicBlogs` | middlewares/permission.go:58-64 | with no credential, the identity gate in public mode yields the guest context, and `blogs:read:public` is admitted with scope `public` |

## Left out

- The database query behind the role→permission store (`LoadUserPermissions`
  in services/permission.go:9-25, and `utils.GetRolePermissions`). It is SQL I/O
  and is modelled as an opaque function from role id to a list or an error.
- JWT signing and verification (`utils.ParseToken`): signature checking and
  wall-clock expiry are external. The model takes an opaque parser from token
  to claims or an error.
- Password hashing, controllers, routes, `main`, the response helpers, and the
  database setup. These are I/O or HTTP plumbing with no authorization logic.
- The JSON bodies of aborted requests. The model keeps only the status and the
  error message.
- gin's `c.Next()` chain. The outcome says whether the request is handed on,
  not what later handlers do. The ownership comparison that handlers make when
  `needs_ownership_check` is set is not part of this model.
- The seeders and models. Only the role→permission table of
  seeders/roles.go:11-24 is used, as constant fixtures in `Scenarios`.
- Go's `uint` width. Ids are unbounded `nat`; no arithmetic is done on them.
- Strings.ToLower: lower-cases ASCII letters only. No other character
  lower-cases to a letter of `bearer`, so the comparison with `bearer` is
  exact.
- The `isPublic` branch at middlewares/permission.go:93-99 is modelled, but it
  can never be reached: public names return earlier, at lines 58-64.
- The `else if needsOwnershipCheck` branch at middlewares/permission.go:158-161
  is modelled, but it can never be reached: for a non-public name the resolver
  flags ownership only when the held list contains the required `:own` name,
  its base, or the base's `:own` variant, and each of these makes the loop find
  a scope (`PermissionGate.OwnershipFlagImpliesScope`).
