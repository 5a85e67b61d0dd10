/**
 * The per-request context the middlewares share (gin's string-keyed store),
 * its keys, and the outcome of running one middleware.
 */
module RequestContext {
  import opened Wrappers

  /** The dynamically typed values the middlewares store. */
  datatype Value =
    | UintVal(n: nat)              // a Go `uint` (subject and role ids)
    | TextVal(s: string)           // a Go `string` (scope markers)
    | TextListVal(items: seq<string>) // a Go `[]string` (held permission names)
    | BoolVal(b: bool)             // a Go `bool` (ownership flag)

  /**
   * The request context. A key maps to `None` when it was set to Go's `nil`:
   * presence of a key and a nil value are different things.
   */
  type Ctx = map<string, Option<Value>>

  const KeyUserID := "user_id"
  const KeyRoleID := "role_id"
  const KeyPermissions := "permissions"
  const KeyPermissionScope := "permission_scope"
  const KeyNeedsOwnershipCheck := "needs_ownership_check"
  /** The marker `"public"` / `"auth"` written by the identity gate. */
  const KeyScope := "scope"

  const StatusUnauthorized := 401
  const StatusForbidden := 403
  const StatusInternalServerError := 500

  /**
   * What a middleware does with the request: hand it on with the updated
   * context, or stop it with a status and error message. The context survives
   * an abort, so what was written before it stays visible.
   */
  datatype Outcome =
    | Continue(ctx: Ctx)
    | Abort(status: nat, message: string, ctx: Ctx)

  /** `a` and `b` agree on every key other than `key`. */
  predicate SameExcept(a: Ctx, b: Ctx, key: string) {
    && a.Keys - {key} == b.Keys - {key}
    && forall k :: k in a && k != key ==> k in b && a[k] == b[k]
  }
}
