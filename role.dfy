/**
 A configuration role: the usages a dependency configuration allows (consumption by
 other projects, resolution, declaration of dependencies against it) and, for each of
 them, whether exercising it is deprecated. Roles are immutable values and compare
 structurally.
 */
module Roles {

  /** The three usage axes a role speaks about. */
  datatype Usage = Consumption | Resolution | Declaration

  datatype Role = Role(
    name: string,
    consumable: bool,
    resolvable: bool,
    declarable: bool,
    consumptionDeprecated: bool,
    resolutionDeprecated: bool,
    declarationAgainstDeprecated: bool)

  /** Whether `r` permits usage `u` at all. */
  function Allows(r: Role, u: Usage): bool
  {
    match u
    case Consumption => r.consumable
    case Resolution => r.resolvable
    case Declaration => r.declarable
  }

  /** Whether exercising usage `u` of `r` triggers a deprecation. */
  function IsDeprecated(r: Role, u: Usage): bool
  {
    match u
    case Consumption => r.consumptionDeprecated
    case Resolution => r.resolutionDeprecated
    case Declaration => r.declarationAgainstDeprecated
  }

  /** The test the migration algebra applies to its inputs: some usage is deprecated. */
  predicate HasDeprecatedUsage(r: Role)
  {
    r.consumptionDeprecated || r.resolutionDeprecated || r.declarationAgainstDeprecated
  }

  /** A role never deprecates a usage it does not permit. */
  ghost predicate WellFormed(r: Role)
  {
    forall u :: IsDeprecated(r, u) ==> Allows(r, u)
  }

  /** The field-wise test agrees with the per-axis view of deprecation. */
  lemma HasDeprecatedUsageIffSomeAxis(r: Role)
    ensures HasDeprecatedUsage(r) <==> exists u :: IsDeprecated(r, u)
  {
    if r.consumptionDeprecated {
      assert IsDeprecated(r, Consumption);
    } else if r.resolutionDeprecated {
      assert IsDeprecated(r, Resolution);
    } else if r.declarationAgainstDeprecated {
      assert IsDeprecated(r, Declaration);
    }
  }

  /** Two roles with the same name agree exactly when they agree on every axis. */
  lemma {:induction false} RoleExtensionality(r: Role, s: Role)
    requires r.name == s.name
    ensures r == s <==> forall u :: Allows(r, u) == Allows(s, u) && IsDeprecated(r, u) == IsDeprecated(s, u)
  {
    if forall u :: Allows(r, u) == Allows(s, u) && IsDeprecated(r, u) == IsDeprecated(s, u) {
      assert Allows(r, Consumption) == Allows(s, Consumption) && IsDeprecated(r, Consumption) == IsDeprecated(s, Consumption);
      assert Allows(r, Resolution) == Allows(s, Resolution) && IsDeprecated(r, Resolution) == IsDeprecated(s, Resolution);
      assert Allows(r, Declaration) == Allows(s, Declaration) && IsDeprecated(r, Declaration) == IsDeprecated(s, Declaration);
    }
  }
}
