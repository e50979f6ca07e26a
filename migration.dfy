/**
 Migration roles: intermediate roles between a current canonical role and the role that
 replaces it in the next major version. A migration role keeps every usage of the current
 role and deprecates exactly those usages the eventual role no longer permits.
 */
module RolesForMigration {
  import opened Roles

  /** The invalid-argument failure the precondition checks raise. */
  datatype Error = IllegalArgument(message: string)

  datatype Result<T> = Ok(value: T) | Err(error: Error)

  const InitialDeprecatedMessage: string := "The initial role must not contain deprecated usages."
  const EventualDeprecatedMessage: string := "The eventual role must not contain deprecated usages."

  /** The retired role: no usage permitted and none deprecated. */
  const NONE: Role := Role("Deprecated", false, false, false, false, false, false)

  /**
   The migration role from `initial` to `eventual`. Both inputs must be free of
   deprecations; the initial role is checked first.
   */
  function Difference(initial: Role, eventual: Role): (r: Result<Role>)
    ensures r.Err? <==> HasDeprecatedUsage(initial) || HasDeprecatedUsage(eventual)
    ensures r.Err? <==> exists u :: IsDeprecated(initial, u) || IsDeprecated(eventual, u)
    ensures HasDeprecatedUsage(initial) ==> r == Err(IllegalArgument(InitialDeprecatedMessage))
    ensures !HasDeprecatedUsage(initial) && HasDeprecatedUsage(eventual) ==>
              r == Err(IllegalArgument(EventualDeprecatedMessage))
    ensures r.Ok? ==> r.value.name == initial.name
    ensures r.Ok? ==> forall u :: Allows(r.value, u) == Allows(initial, u)
    ensures r.Ok? ==> forall u :: IsDeprecated(r.value, u) == (Allows(initial, u) && !Allows(eventual, u))
    ensures r.Ok? ==> WellFormed(r.value)
  {
    HasDeprecatedUsageIffSomeAxis(initial);
    HasDeprecatedUsageIffSomeAxis(eventual);
    if HasDeprecatedUsage(initial) then
      Err(IllegalArgument(InitialDeprecatedMessage))
    else if HasDeprecatedUsage(eventual) then
      Err(IllegalArgument(EventualDeprecatedMessage))
    else
      var consumptionDeprecated := initial.consumable && !eventual.consumable;
      var resolutionDeprecated := initial.resolvable && !eventual.resolvable;
      var declarationAgainstDeprecated := initial.declarable && !eventual.declarable;
      Ok(Role(initial.name, initial.consumable, initial.resolvable, initial.declarable,
              consumptionDeprecated, resolutionDeprecated, declarationAgainstDeprecated))
  }

  /** A migration from a role to itself narrows nothing: it is that role. */
  lemma DifferenceOfSelf(r: Role)
    requires !HasDeprecatedUsage(r)
    ensures Difference(r, r) == Ok(r)
  {
  }

  /** Migrating to the retired role deprecates exactly the usages the initial role permits. */
  lemma DifferenceToNone(r: Role)
    requires !HasDeprecatedUsage(r)
    ensures Difference(r, NONE).Ok?
    ensures forall u :: Allows(Difference(r, NONE).value, u) == Allows(r, u)
    ensures forall u :: IsDeprecated(Difference(r, NONE).value, u) == Allows(r, u)
  {
  }

  /**
   The eventual role matters only on the usages the initial role permits: two eventual
   roles give the same migration exactly when they agree there. A usage the eventual role
   adds (a widening) leaves no trace.
   */
  lemma DifferenceDeterminedOnAllowedUsages(initial: Role, eventual1: Role, eventual2: Role)
    requires !HasDeprecatedUsage(initial)
    requires !HasDeprecatedUsage(eventual1) && !HasDeprecatedUsage(eventual2)
    ensures Difference(initial, eventual1) == Difference(initial, eventual2) <==>
              forall u :: Allows(initial, u) ==> Allows(eventual1, u) == Allows(eventual2, u)
  {
    var m1, m2 := Difference(initial, eventual1).value, Difference(initial, eventual2).value;
    RoleExtensionality(m1, m2);
  }

  /**
   The usages of a migration role that stay permitted once its deprecated usages are
   removed; the role keeps the migration role's name.
   */
  function Retire(m: Role): (r: Role)
    ensures r.name == m.name && !HasDeprecatedUsage(r)
    ensures forall u :: Allows(r, u) == (Allows(m, u) && !IsDeprecated(m, u))
  {
    Role(m.name,
         m.consumable && !m.consumptionDeprecated,
         m.resolvable && !m.resolutionDeprecated,
         m.declarable && !m.declarationAgainstDeprecated,
         false, false, false)
  }

  /**
   Completing a migration leaves the usages both roles permit; for a narrowing migration
   (the eventual role permits nothing new) that is exactly the eventual role's usages.
   */
  lemma MigrationCompletesToEventual(initial: Role, eventual: Role)
    requires !HasDeprecatedUsage(initial) && !HasDeprecatedUsage(eventual)
    ensures forall u :: Allows(Retire(Difference(initial, eventual).value), u) == (Allows(initial, u) && Allows(eventual, u))
    ensures (forall u :: Allows(eventual, u) ==> Allows(initial, u)) ==>
              forall u :: Allows(Retire(Difference(initial, eventual).value), u) == Allows(eventual, u)
  {
  }

  /** Scenario: a fully capable role narrowed to one that is not consumable. */
  lemma NarrowingDropsConsumption()
    ensures Difference(Role("r", true, true, true, false, false, false),
                       Role("e", false, true, true, false, false, false))
            == Ok(Role("r", true, true, true, true, false, false))
  {
  }

  /** One migration path: the canonical role it starts from and the one it leads to. */
  datatype Path = Path(initial: Role, eventual: Role)

  /**
   Derives the migration role of every path in declaration order; the first failure
   aborts the whole derivation, as a failing static initialiser does.
   */
  function DeriveAll(paths: seq<Path>): (r: Result<seq<Role>>)
    ensures r.Ok? <==> forall i :: 0 <= i < |paths| ==> Difference(paths[i].initial, paths[i].eventual).Ok?
    ensures r.Ok? ==> |r.value| == |paths|
    ensures r.Ok? ==> forall i :: 0 <= i < |paths| ==> Difference(paths[i].initial, paths[i].eventual) == Ok(r.value[i])
    ensures r.Err? ==> exists i :: 0 <= i < |paths| && Difference(paths[i].initial, paths[i].eventual) == Err(r.error)
                               && forall j :: 0 <= j < i ==> Difference(paths[j].initial, paths[j].eventual).Ok?
    decreases |paths|
  {
    if paths == [] then Ok([])
    else
      match Difference(paths[0].initial, paths[0].eventual)
      case Err(e) => Err(e)
      case Ok(role) =>
        match DeriveAll(paths[1..])
        case Err(e) =>
          var k :| 0 <= k < |paths[1..]| && Difference(paths[1..][k].initial, paths[1..][k].eventual) == Err(e)
                   && forall j :: 0 <= j < k ==> Difference(paths[1..][j].initial, paths[1..][j].eventual).Ok?;
          assert Difference(paths[k + 1].initial, paths[k + 1].eventual) == Err(e);
          Err(e)
        case Ok(rest) => Ok([role] + rest)
  }

  /**
   The canonical roles the migrations start from and lead to. They are defined outside
   this model and enter it as inputs.
   */
  datatype CanonicalRoles = CanonicalRoles(
    resolvable: Role,
    dependencyScope: Role,
    resolvableDependencyScope: Role,
    all: Role,
    consumable: Role)

  /** The migration paths, in the order the constants are declared. */
  function Paths(c: CanonicalRoles): seq<Path>
  {
    [ Path(c.resolvableDependencyScope, c.resolvable),
      Path(c.resolvableDependencyScope, c.dependencyScope),
      Path(c.all, c.resolvableDependencyScope),
      Path(c.consumable, NONE) ]
  }

  /** The four named migration roles. */
  datatype Migrations = Migrations(
    resolvableDependencyScopeToResolvable: Role,
    resolvableDependencyScopeToDependencyScope: Role,
    legacyToResolvableDependencyScope: Role,
    consumableToRetired: Role)

  /** Canonical roles none of which carries a deprecated usage. */
  predicate Clean(c: CanonicalRoles)
  {
    && !HasDeprecatedUsage(c.resolvable)
    && !HasDeprecatedUsage(c.dependencyScope)
    && !HasDeprecatedUsage(c.resolvableDependencyScope)
    && !HasDeprecatedUsage(c.all)
    && !HasDeprecatedUsage(c.consumable)
  }

  /**
   Builds every migration constant once; any invalid canonical role fails the whole
   registry.
   */
  function Build(c: CanonicalRoles): (r: Result<Migrations>)
    ensures r.Ok? <==> Clean(c)
    ensures r.Ok? ==>
              && Difference(c.resolvableDependencyScope, c.resolvable) == Ok(r.value.resolvableDependencyScopeToResolvable)
              && Difference(c.resolvableDependencyScope, c.dependencyScope) == Ok(r.value.resolvableDependencyScopeToDependencyScope)
              && Difference(c.all, c.resolvableDependencyScope) == Ok(r.value.legacyToResolvableDependencyScope)
              && Difference(c.consumable, NONE) == Ok(r.value.consumableToRetired)
    ensures r.Err? ==> exists p :: p in Paths(c) && Difference(p.initial, p.eventual) == Err(r.error)
    ensures r.Err? ==> exists i :: 0 <= i < |Paths(c)| && Difference(Paths(c)[i].initial, Paths(c)[i].eventual) == Err(r.error)
                               && forall j :: 0 <= j < i ==> Difference(Paths(c)[j].initial, Paths(c)[j].eventual).Ok?
  {
    var ps := Paths(c);
    assert !HasDeprecatedUsage(NONE);
    assert Clean(c) ==> forall i :: 0 <= i < |ps| ==> Difference(ps[i].initial, ps[i].eventual).Ok?;
    assert !Clean(c) ==> exists i :: 0 <= i < |ps| && Difference(ps[i].initial, ps[i].eventual).Err? by {
      if !Clean(c) {
        if HasDeprecatedUsage(c.resolvableDependencyScope) || HasDeprecatedUsage(c.resolvable) {
          assert Difference(ps[0].initial, ps[0].eventual).Err?;
        } else if HasDeprecatedUsage(c.dependencyScope) {
          assert Difference(ps[1].initial, ps[1].eventual).Err?;
        } else if HasDeprecatedUsage(c.all) {
          assert Difference(ps[2].initial, ps[2].eventual).Err?;
        } else {
          assert Difference(ps[3].initial, ps[3].eventual).Err?;
        }
      }
    }
    match DeriveAll(ps)
    case Err(e) =>
      var i :| 0 <= i < |ps| && Difference(ps[i].initial, ps[i].eventual) == Err(e);
      assert ps[i] in ps;
      Err(e)
    case Ok(rs) => Ok(Migrations(rs[0], rs[1], rs[2], rs[3]))
  }

  /** Every known migration role, as one unordered collection. */
  function All(m: Migrations): (s: set<Role>)
    ensures m.resolvableDependencyScopeToResolvable in s
    ensures m.resolvableDependencyScopeToDependencyScope in s
    ensures m.legacyToResolvableDependencyScope in s
    ensures m.consumableToRetired in s
    ensures forall r :: r in s ==>
              r == m.resolvableDependencyScopeToResolvable || r == m.resolvableDependencyScopeToDependencyScope
              || r == m.legacyToResolvableDependencyScope || r == m.consumableToRetired
    ensures |s| <= 4
  {
    { m.resolvableDependencyScopeToResolvable,
      m.resolvableDependencyScopeToDependencyScope,
      m.legacyToResolvableDependencyScope,
      m.consumableToRetired }
  }

  /**
   Every registered migration role is well-formed and permits exactly the usages of the
   canonical role it starts from.
   */
  /**
   The registry reports the failure of the first migration path in declaration order:
   a deprecated resolvable dependency scope fails the first path on its initial role, and
   otherwise a deprecated resolvable role fails it on its eventual role, whatever the
   later paths would report.
   */
  lemma BuildFailsAtFirstPath(c: CanonicalRoles)
    ensures HasDeprecatedUsage(c.resolvableDependencyScope) ==>
              Build(c) == Err(IllegalArgument(InitialDeprecatedMessage))
    ensures !HasDeprecatedUsage(c.resolvableDependencyScope) && HasDeprecatedUsage(c.resolvable) ==>
              Build(c) == Err(IllegalArgument(EventualDeprecatedMessage))
  {
  }

  lemma AllMigrationsKeepInitialUsages(c: CanonicalRoles)
    requires Build(c).Ok?
    ensures forall r :: r in All(Build(c).value) ==>
              WellFormed(r) && exists p :: p in Paths(c) && forall u :: Allows(r, u) == Allows(p.initial, u)
  {
  }

  /** CONSUMABLE_TO_RETIRED deprecates exactly the usages of the canonical consumable role. */
  lemma ConsumableToRetiredDeprecatesEverything(c: CanonicalRoles)
    requires Build(c).Ok?
    ensures forall u :: Allows(Build(c).value.consumableToRetired, u) == Allows(c.consumable, u)
    ensures forall u :: IsDeprecated(Build(c).value.consumableToRetired, u) == Allows(c.consumable, u)
  {
  }

  /**
   When the canonical "all" role permits every usage, the legacy migration deprecates
   exactly the usages a resolvable dependency scope does not permit.
   */
  lemma LegacyDeprecatesWhatScopeLacks(c: CanonicalRoles)
    requires Build(c).Ok?
    requires forall u :: Allows(c.all, u)
    ensures forall u :: IsDeprecated(Build(c).value.legacyToResolvableDependencyScope, u)
                        == !Allows(c.resolvableDependencyScope, u)
  {
  }

  /**
   The two migrations out of the resolvable dependency scope share its name; they are
   still different roles exactly when their targets differ on a usage that scope permits.
   */
  lemma ScopeMigrationsShareNameButDiffer(c: CanonicalRoles)
    requires Build(c).Ok?
    ensures Build(c).value.resolvableDependencyScopeToResolvable.name
            == Build(c).value.resolvableDependencyScopeToDependencyScope.name
            == c.resolvableDependencyScope.name
    ensures Build(c).value.resolvableDependencyScopeToResolvable
            != Build(c).value.resolvableDependencyScopeToDependencyScope
            <==> exists u :: Allows(c.resolvableDependencyScope, u)
                             && Allows(c.resolvable, u) != Allows(c.dependencyScope, u)
  {
    DifferenceDeterminedOnAllowedUsages(c.resolvableDependencyScope, c.resolvable, c.dependencyScope);
  }
}
