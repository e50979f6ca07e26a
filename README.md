# Configuration roles for migration

A model of Gradle's configuration-role migration algebra
(`ConfigurationRolesForMigration`). A configuration role says which usages a dependency
configuration permits (consumption by other projects, resolution, declaration of
dependencies against it) and which of those usages are deprecated. A *migration role*
sits between a canonical role of today and the canonical role that replaces it in the
next major version: it keeps every usage of the current role and deprecates exactly the
usages the eventual role will no longer permit.

- `role.dfy`, module `Roles`: the role value (name, three usage flags, three deprecation
  flags, named after the Java accessors), a per-usage view (`Allows`, `IsDeprecated`),
  the "carries a deprecated usage" test and the well-formedness invariant (nothing
  deprecated that is not permitted).
- `migration.dfy`, module `RolesForMigration`: the `difference` computation with its two
  invalid-argument checks as a `Result`, the retired role `NONE`, the four migration
  constants derived once from the canonical roles in declaration order (the first
  failure aborts the whole registry, like a failing static initialiser), and the `ALL`
  collection.

The canonical roles (`ConfigurationRoles.RESOLVABLE`, `DEPENDENCY_SCOPE`,
`RESOLVABLE_DEPENDENCY_SCOPE`, `ALL`, `CONSUMABLE`) and `DefaultConfigurationRole` are not
part of this model: the canonical roles enter as the parameter `CanonicalRoles`, and
their usage flags are never fixed. Properties that depend on them are stated for
whatever values they hold, or under an explicit hypothesis (for instance "the canonical
`ALL` role permits every usage").

## Model

| member | source | states |
|---|---|---|
| `Roles.HasDeprecatedUsageIffSomeAxis` | subprojects/core/src/main/java/org/gradle/api/internal/artifacts/configurations/ConfigurationRolesForMigration.java:89-96 | the field-wise deprecation test used by both precondition checks holds exactly when some usage axis is deprecated |
| `RolesForMigration.Difference` | subprojects/core/src/main/java/org/gradle/api/internal/artifacts/configurations/ConfigurationRolesForMigration.java:88-116 | fails with an invalid-argument error exactly when either input carries a deprecated usage (equivalently, is deprecated on some usage axis), with the initial-role message whenever the initial role does (it is checked first) and the eventual-role message otherwise; on success the name and every usage of `initial` are kept, a usage is deprecated exactly when `initial` permits it and `eventual` does not, and the result is well-formed |
| `RolesForMigration.DifferenceOfSelf` | subprojects/core/src/main/java/org/gradle/api/internal/artifacts/configurations/ConfigurationRolesForMigration.java:98-115 | migrating a non-deprecated role to itself returns that very role: nothing is deprecated |
| `RolesForMigration.DifferenceToNone` | subprojects/core/src/main/java/org/gradle/api/internal/artifacts/configurations/ConfigurationRolesForMigration.java:103-115 | migrating a non-deprecated role to the retired role `NONE` (declared at line 46 with every flag false) succeeds, keeps its usages and deprecates exactly the usages it permits |
| `RolesForMigration.DifferenceDeterminedOnAllowedUsages` | subprojects/core/src/main/java/org/gradle/api/internal/artifacts/configurations/ConfigurationRolesForMigration.java:103-105 | two eventual roles yield the same migration from `initial` if and only if they agree on every usage `initial` permits; a usage the eventual role adds leaves no trace |
| `RolesForMigration.MigrationCompletesToEventual` | subprojects/core/src/main/java/org/gradle/api/internal/artifacts/configurations/ConfigurationRolesForMigration.java:24-38 | once a migration role is retired it permits exactly the usages both roles permit; for a narrowing migration that is exactly the eventual role's usages |
| `RolesForMigration.NarrowingDropsConsumption` | subprojects/core/src/main/java/org/gradle/api/internal/artifacts/configurations/ConfigurationRolesForMigration.java:103-115 | a fully capable role narrowed to one without consumption keeps all three usages and deprecates consumption only |
| `RolesForMigration.DeriveAll` | subprojects/core/src/main/java/org/gradle/api/internal/artifacts/configurations/ConfigurationRolesForMigration.java:53-72 | deriving the migration paths in declaration order succeeds exactly when every path's difference succeeds, then yields each path's role in order; otherwise it yields the error of the first failing path, every earlier path having succeeded |
| `RolesForMigration.Build` | subprojects/core/src/main/java/org/gradle/api/internal/artifacts/configurations/ConfigurationRolesForMigration.java:46-72 | the registry is built exactly when no canonical role carries a deprecated usage; each constant is then the difference of its two canonical roles; otherwise the failure is the one raised by the first failing migration path in declaration order (lines 53, 60, 67, 72, listed by the helper `Paths`), every earlier path having succeeded |
| `RolesForMigration.BuildFailsAtFirstPath` | subprojects/core/src/main/java/org/gradle/api/internal/artifacts/configurations/ConfigurationRolesForMigration.java:53 | a deprecated resolvable dependency scope fails the registry with the initial-role message, and otherwise a deprecated resolvable role fails it with the eventual-role message, whatever later paths would report |
| `RolesForMigration.All` | subprojects/core/src/main/java/org/gradle/api/internal/artifacts/configurations/ConfigurationRolesForMigration.java:77-82 | the collection holds each of the four named migration roles and nothing else |
| `RolesForMigration.AllMigrationsKeepInitialUsages` | subprojects/core/src/main/java/org/gradle/api/internal/artifacts/configurations/ConfigurationRolesForMigration.java:74-82 | every role in `ALL` is well-formed and permits exactly the usages of the canonical role its path starts from |
| `RolesForMigration.ConsumableToRetiredDeprecatesEverything` | subprojects/core/src/main/java/org/gradle/api/internal/artifacts/configurations/ConfigurationRolesForMigration.java:69-72 | `CONSUMABLE_TO_RETIRED` permits and deprecates exactly the usages of the canonical consumable role |
| `RolesForMigration.LegacyDeprecatesWhatScopeLacks` | subprojects/core/src/main/java/org/gradle/api/internal/artifacts/configurations/ConfigurationRolesForMigration.java:62-67 | if the canonical `ALL` role permits every usage, `LEGACY_TO_RESOLVABLE_DEPENDENCY_SCOPE` deprecates exactly the usages a resolvable dependency scope does not permit |
| `RolesForMigration.ScopeMigrationsShareNameButDiffer` | subprojects/core/src/main/java/org/gradle/api/internal/artifacts/configurations/ConfigurationRolesForMigration.java:48-60 | both migrations out of the resolvable dependency scope carry that scope's name, and they are different roles exactly when `RESOLVABLE` and `DEPENDENCY_SCOPE` differ on a usage the scope permits |

## Left out

- The canonical roles of `ConfigurationRoles` and the class `DefaultConfigurationRole` are not part of this model; the canonical roles are a parameter with unknown flags.
- Role equality is structural (name and six flags), as Dafny compares datatype values; if `DefaultConfigurationRole` compared by identity, `ALL` could hold four entries where this model's set holds fewer. `RolesForMigration.All` therefore bounds its size by four rather than fixing it.
- RolesForMigration.MigrationCompletesToEventual: speaks of usages only; the destination role a configuration moves to after a major release is the eventual role with the eventual role's name, while the helper `Retire` keeps the migration role's (initial) name.
- The exception type and Guava `Preconditions`/`ImmutableSet` mechanics: a failed check is the value `Err(IllegalArgument(message))` carrying the source's message text, and `ALL` is a set display.
- Java class-load-time initialisation and the `@Deprecated` annotations: the registry is the value `Build` returns, computed from the canonical roles in the order the constants are declared.
- `DocumentationReference` and `ModuleRejectedFailure` hold no logic of this algebra (string formatting around a documentation lookup, and a data carrier with getters).
