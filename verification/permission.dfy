/**
 * The pure permission resolver of services/permission.go.
 *
 * Permission names have the shape `resource:action[:scope]` with scope one of
 * `own`, `all`, `public`; the resolver decides whether a list of held names
 * grants a required name and whether the grant still needs a downstream
 * ownership check.
 */
module Permission {
  import opened Wrappers
  import opened Strings

  const PublicSuffix := ":public"
  const AllSuffix := ":all"
  const OwnSuffix := ":own"

  /** The three results of `CheckScopedPermission`, in the source's order. */
  datatype Decision = Decision(hasPermission: bool, isPublic: bool, needsOwnershipCheck: bool)

  /**
   * The base permission `parts[0] + ":" + parts[1]` of a name split on `:`,
   * or None when the name has fewer than two parts.
   */
  function Base(name: string): Option<string> {
    var parts := Split(name, ':');
    if |parts| >= 2 then Some(parts[0] + ":" + parts[1]) else None
  }

  /**
   * A name of the shape `resource:action[:own|all|public]`: two or three
   * non-empty parts, the third a known scope.
   */
  predicate WellFormed(name: string) {
    var parts := Split(name, ':');
    && (|parts| == 2 || |parts| == 3)
    && (forall i :: 0 <= i < |parts| ==> parts[i] != "")
    && (|parts| == 3 ==> parts[2] in {"own", "all", "public"})
  }

  /** `CheckPublicPermission`: the name ends in `:public`. */
  predicate CheckPublicPermission(name: string) {
    HasSuffix(name, PublicSuffix)
  }

  /** The scan of the held list for one name (each `for ... range userPermissions` loop). */
  function Holds(held: seq<string>, name: string): (r: bool)
    ensures r <==> name in held
  {
    if |held| == 0 then false
    else held[0] == name || Holds(held[1..], name)
  }

  /**
   * `HasPermission`: granted by an exact match, or, when the required name has
   * at least two colon parts, by holding its bare base.
   */
  function HasPermission(held: seq<string>, required: string): (r: bool)
    ensures r <==> required in held || (Base(required).Some? && Base(required).value in held)
  {
    if Holds(held, required) then true
    else
      match Base(required)
      case Some(base) => Holds(held, base)
      case None => false
  }

  /** A held name that satisfies the public branch: the required name itself, or its trimmed base followed by a colon. */
  predicate PublicVariant(held: string, required: string) {
    held == required || HasPrefix(held, TrimSuffix(required, PublicSuffix) + ":")
  }

  /** The scan of the public branch over the held list. */
  function HoldsPublicVariant(held: seq<string>, required: string): (r: bool)
    ensures r <==> exists p :: p in held && PublicVariant(p, required)
  {
    if |held| == 0 then false
    else if PublicVariant(held[0], required) then true
    else
      var r := HoldsPublicVariant(held[1..], required);
      assert forall p :: p in held <==> p == held[0] || p in held[1..];
      r
  }

  /**
   * Whether one held name, taken alone, grants `required` under any of the
   * resolver's rules: for a public name, equality or extension of its trimmed
   * base; otherwise equality, the bare base, or its `:all` or `:own` variant.
   */
  predicate Covers(held: string, required: string) {
    if CheckPublicPermission(required) then PublicVariant(held, required)
    else
      || held == required
      || (Base(required).Some? &&
          (|| held == Base(required).value
           || held == Base(required).value + AllSuffix
           || held == Base(required).value + OwnSuffix))
  }

  /**
   * `CheckScopedPermission`: rules are tried in a fixed order, each over the
   * whole held list: the public branch; exact or base match; the `:all`
   * variant; the `:own` variant.
   */
  function CheckScopedPermission(held: seq<string>, required: string): (d: Decision)
    ensures d.isPublic <==> CheckPublicPermission(required)
    ensures d.hasPermission <==> exists p :: p in held && Covers(p, required)
    ensures d.needsOwnershipCheck ==> d.hasPermission && !d.isPublic
  {
    if CheckPublicPermission(required) then
      if HoldsPublicVariant(held, required) then Decision(true, true, false)
      else Decision(false, true, false)
    else if HasPermission(held, required) then
      if HasSuffix(required, AllSuffix) then Decision(true, false, false)
      else if HasSuffix(required, OwnSuffix) then Decision(true, false, true)
      else Decision(true, false, false)
    else
      var allGrant :=
        match Base(required)
        case Some(base) => Holds(held, base + AllSuffix)
        case None => false;
      if allGrant then Decision(true, false, false)
      else
        var ownGrant :=
          match Base(required)
          case Some(base) => Holds(held, base + OwnSuffix)
          case None => false;
        if ownGrant then Decision(true, false, true)
        else Decision(false, false, false)
  }

  // ---------------------------------------------------------------------
  // The shape of names and their base permission
  // ---------------------------------------------------------------------

  /** A name has a base exactly when it contains a colon. */
  lemma BaseDefinedIff(name: string)
    ensures Base(name).Some? <==> ':' in name
  {
    SplitIsSingletonIff(name, ':');
  }

  /** The base is the name itself or a prefix of it followed by a colon. */
  lemma {:induction false} BaseIsPrefix(name: string)
    requires Base(name).Some?
    ensures name == Base(name).value || HasPrefix(name, Base(name).value + ":")
  {
    var parts := Split(name, ':');
    JoinSplit(name, ':');
    JoinCons(parts[0], parts[1..], ':');
    assert [parts[0]] + parts[1..] == parts;
    var b := parts[0] + ":" + parts[1];
    if |parts| > 2 {
      JoinCons(parts[1], parts[2..], ':');
      assert [parts[1]] + parts[2..] == parts[1..];
      assert name == b + ":" + Join(parts[2..], ':');
      assert name[..|b + ":"|] == b + ":";
    } else {
      assert parts[1..] == [parts[1]];
    }
  }

  /** For colon-free resource and action, the base of `r:a` and of `r:a:anything` is `r:a`. */
  lemma {:induction false} BaseOfParts(resource: string, action: string, rest: string)
    requires ':' !in resource && ':' !in action
    ensures Base(resource + ":" + action) == Some(resource + ":" + action)
    ensures Base(resource + ":" + action + ":" + rest) == Some(resource + ":" + action)
  {
    SplitAtFirstSeparator(resource, ':', action);
    SplitWithoutSeparator(action, ':');
    assert Split(resource + ":" + action, ':') == [resource, action];
    SplitAtFirstSeparator(action, ':', rest);
    assert resource + ":" + action + ":" + rest == resource + [':'] + (action + [':'] + rest);
    SplitAtFirstSeparator(resource, ':', action + [':'] + rest);
  }

  /** A name ends in at most one of the three scope suffixes (they differ in their last character). */
  lemma SuffixesExclusive(name: string)
    ensures !(HasSuffix(name, PublicSuffix) && HasSuffix(name, AllSuffix))
    ensures !(HasSuffix(name, PublicSuffix) && HasSuffix(name, OwnSuffix))
    ensures !(HasSuffix(name, AllSuffix) && HasSuffix(name, OwnSuffix))
  {
    if |name| > 0 {
      var last := name[|name| - 1];
      assert HasSuffix(name, PublicSuffix) ==> last == 'c';
      assert HasSuffix(name, AllSuffix) ==> last == 'l';
      assert HasSuffix(name, OwnSuffix) ==> last == 'n';
    }
  }

  /** A name of two colon parts is its own base. */
  lemma {:induction false} TwoPartsAreBase(name: string)
    requires |Split(name, ':')| == 2
    ensures Base(name) == Some(name)
  {
    var parts := Split(name, ':');
    JoinSplit(name, ':');
    JoinCons(parts[0], parts[1..], ':');
    assert [parts[0]] + parts[1..] == parts;
    assert parts[1..] == [parts[1]];
  }

  /** A name of three colon parts is its base, a colon, and the third part. */
  lemma {:induction false} ThreePartsExtendBase(name: string)
    requires |Split(name, ':')| == 3
    ensures Base(name).Some? && name == Base(name).value + (":" + Split(name, ':')[2])
  {
    var parts := Split(name, ':');
    JoinSplit(name, ':');
    JoinCons(parts[0], parts[1..], ':');
    assert [parts[0]] + parts[1..] == parts;
    JoinCons(parts[1], parts[2..], ':');
    assert [parts[1]] + parts[2..] == parts[1..];
    assert parts[2..] == [parts[2]];
  }

  /**
   * A well-formed name, `resource:action[:own|all|public]`, is its own base or
   * ends in one of the three scope suffixes.
   */
  lemma WellFormedShape(name: string)
    requires WellFormed(name)
    ensures || Base(name) == Some(name)
            || HasSuffix(name, OwnSuffix) || HasSuffix(name, AllSuffix) || HasSuffix(name, PublicSuffix)
  {
    var parts := Split(name, ':');
    if |parts| == 2 {
      TwoPartsAreBase(name);
    } else {
      ThreePartsExtendBase(name);
      var tail := ":" + parts[2];
      SuffixOfConcat(Base(name).value, tail);
      assert tail == OwnSuffix || tail == AllSuffix || tail == PublicSuffix by {
        assert parts[2] == "own" || parts[2] == "all" || parts[2] == "public";
      }
    }
  }

  /** A base and its `:all` and `:own` variants are three different names. */
  lemma VariantsDistinct(base: string)
    ensures base != base + AllSuffix && base != base + OwnSuffix
    ensures base + AllSuffix != base + OwnSuffix
  {
    assert (base + AllSuffix)[|base| + 1] == 'a';
    assert (base + OwnSuffix)[|base| + 1] == 'o';
  }

  /** Appending `:public` always makes a public name. */
  lemma PublicSuffixMakesPublic(prefix: string)
    ensures CheckPublicPermission(prefix + PublicSuffix)
  {
    SuffixOfConcat(prefix, PublicSuffix);
  }

  // ---------------------------------------------------------------------
  // Properties of the resolver
  // ---------------------------------------------------------------------

  /** An exact match grants. */
  lemma ExactMatchGrants(held: seq<string>, required: string)
    requires required in held
    ensures HasPermission(held, required)
    ensures CheckScopedPermission(held, required).hasPermission
  {
    assert Covers(required, required);
  }

  /** With fewer than two colon parts only the exact name grants. */
  lemma ColonFreeNeedsExactMatch(held: seq<string>, required: string)
    requires ':' !in required
    ensures HasPermission(held, required) <==> required in held
    ensures CheckScopedPermission(held, required).hasPermission <==> required in held
  {
    BaseDefinedIff(required);
    SuffixHasColon(required, PublicSuffix);
    if CheckScopedPermission(held, required).hasPermission {
      var p :| p in held && Covers(p, required);
    }
  }

  lemma SuffixHasColon(name: string, suffix: string)
    requires |suffix| > 0 && suffix[0] == ':'
    requires ':' !in name
    ensures !HasSuffix(name, suffix)
  {
  }

  /**
   * On the public branch no ownership check is requested, and the grant is
   * held exactly when some held name is the required one or extends its
   * trimmed base with a colon.
   */
  lemma PublicBranch(held: seq<string>, required: string)
    requires CheckPublicPermission(required)
    ensures var d := CheckScopedPermission(held, required);
      && d.isPublic && !d.needsOwnershipCheck
      && (d.hasPermission <==> exists p :: p in held && PublicVariant(p, required))
  {
  }

  /**
   * A grant through `HasPermission` requests an ownership check exactly when
   * the REQUIRED name ends in `:own`, whatever the held name was.
   */
  lemma ExactOrBaseOwnership(held: seq<string>, required: string)
    requires !CheckPublicPermission(required) && HasPermission(held, required)
    ensures var d := CheckScopedPermission(held, required);
      d.hasPermission && (d.needsOwnershipCheck <==> HasSuffix(required, OwnSuffix))
  {
  }

  /**
   * With no exact or base match, holding `base:all` anywhere in the list
   * grants without an ownership check, even when `base:own` is held too.
   */
  lemma AllVariantBeatsOwn(held: seq<string>, required: string)
    requires !CheckPublicPermission(required) && !HasPermission(held, required)
    requires Base(required).Some? && Base(required).value + AllSuffix in held
    ensures CheckScopedPermission(held, required) == Decision(true, false, false)
  {
  }

  /** With no exact, base or `:all` match, `base:own` grants with an ownership check. */
  lemma OwnVariantNeedsOwnership(held: seq<string>, required: string)
    requires !CheckPublicPermission(required) && !HasPermission(held, required)
    requires Base(required).Some? && Base(required).value + AllSuffix !in held
    requires Base(required).value + OwnSuffix in held
    ensures CheckScopedPermission(held, required) == Decision(true, false, true)
  {
  }

  /**
   * A non-public name with a base is denied when neither it, nor its base,
   * nor the base's `:all` or `:own` variant is held.
   */
  lemma DeniedWithoutVariants(held: seq<string>, required: string, base: string)
    requires !CheckPublicPermission(required) && Base(required) == Some(base)
    requires required !in held && base !in held
    requires base + AllSuffix !in held && base + OwnSuffix !in held
    ensures CheckScopedPermission(held, required) == Decision(false, false, false)
  {
  }

  /** A denial carries no flag besides `isPublic`. */
  lemma DenialIsAllFalse(held: seq<string>, required: string)
    requires !CheckScopedPermission(held, required).hasPermission
    ensures CheckScopedPermission(held, required)
      == Decision(false, CheckPublicPermission(required), false)
  {
  }

  /** Every rule is an existence check: appending held names never revokes a grant. */
  lemma GrantMonotone(held: seq<string>, extra: seq<string>, required: string)
    requires CheckScopedPermission(held, required).hasPermission
    ensures CheckScopedPermission(held + extra, required).hasPermission
  {
    var p :| p in held && Covers(p, required);
    assert p in held + extra;
  }

  /**
   * The resolver depends only on which names are held, not on their order or
   * repetition.
   */
  lemma DecisionDependsOnMembershipOnly(held: seq<string>, other: seq<string>, required: string)
    requires forall p :: p in held <==> p in other
    ensures CheckScopedPermission(held, required) == CheckScopedPermission(other, required)
  {
  }

  /**
   * A bare held `r:a` grants a required `r:a:own` through the base rule and
   * still flags an ownership check, because the flag follows the required name.
   */
  lemma BareHeldOwnRequired(resource: string, action: string)
    requires ':' !in resource && ':' !in action
    ensures CheckScopedPermission([resource + ":" + action], resource + ":" + action + OwnSuffix)
      == Decision(true, false, true)
  {
    var base := resource + ":" + action;
    BaseOfParts(resource, action, "own");
    assert base + OwnSuffix == resource + ":" + action + ":" + "own";
    SuffixOfConcat(base, OwnSuffix);
    SuffixesExclusive(base + OwnSuffix);
  }
}
