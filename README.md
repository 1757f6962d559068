# NonSharableTypeCheck and NonAccessibleTypeCheck in Dafny

This project models two Checkstyle checks from sevntu-checks: `NonSharableTypeCheck` and `NonAccessibleTypeCheck`. Both report a field or method declaration whose declared type, or one of its generic type arguments, is a type the user has restricted. The first check takes the restricted types as a list of fully qualified names. The second takes them as one regular expression.

Both checks see the syntax tree of one Java file, one node at a time:

- A `package` declaration records the package name.
- An `import` goes to the on-demand list when it ends in `.*`, and to the single-type list otherwise.
- A `VARIABLE_DEF` or `METHOD_DEF` is checked.
  - Its type names are collected: the written name for a plain type, or each type argument for a generic type.
  - Each collected name is tried as written, joined with every on-demand import, through the single-type import ending in it, and joined with the package name.
  - A violation is logged on the declaration's line for each name that one of those forms matches.

When a declaration is checked differs between the two:

- **NonSharableTypeCheck** checks fields and methods alike. A declaration is checked only when:
  - it is not private;
  - its grandparent is an interface, an enum, or a class that no method encloses and that is not private anywhere up its chain of parents;
  - its first annotation is not on an ignore list. The defaults ignore `Override` and `VisibleForTesting`.
- **NonAccessibleTypeCheck** applies the reachability test to fields only. A method is checked when it is not private and `hasOverrideAnnotation` is false.
  - `hasOverrideAnnotation` looks for `@Override` among the METHOD_DEF's own children.
  - The parser puts a method's annotations under its MODIFIERS, so that test is false for every method the parser builds. As written, the check reports an overriding method too.
  - The model's visit follows the code. The evidently intended test reads the first annotation under MODIFIERS. It is modelled separately as `IntendedDeclarationViolations` and recorded under "## Findings".

The syntax tree is the datatype `Ast.Node`. The host framework hands each node its parents; here the parents are an explicit sequence, root first.

Each check is a class:

- The configuration, the per-file import lists, the package name and the log of violations are its fields.
- `VisitToken` is proved against pure specification functions: `DeclarationViolations`, `ExpectedName` and `NonAccessibleType`. These functions describe the code as written.
- The properties of those functions are lemmas.
- Fixtures rebuild declarations from the checks' test inputs and prove the reported lines.

Modules:

- `Ast`: tree nodes, `findFirstToken`, `branchContains`, parent chains.
- `Names`: `getIdentifierName`, `collectMemberTypes`, and the string helpers both checks share.
- `Access`: `isPrivateMember` and the reachability walks.
- `Qualify`: the ways a simple name is qualified through imports and the package.
- `Reports`: the logging loop.
- `NonSharable` and `NonAccessible`: the two checks.
- `Fixtures`: the test inputs.

Code the two checks repeat, such as `getIdentifierName`, `collectMemberTypes` and the access walks, is modelled once. Each row below cites the `NonSharableTypeCheck.java` copy, and the `NonAccessibleTypeCheck.java` copy is the same code.

## Notes on the source

- `NonSharableTypeCheckTest.testFields` expects `String` to be reported on lines 20, 22 and 24 of `InputNonSharableTypeCheck1.java`.
  - That file does not import `java.lang.String`.
  - `isExpectedName` has no implicit `java.lang.*` form.
  - So by the code as written, `String` is not one of the listed names there. `Fixtures.UnimportedStringNotQualified` proves this.
  - The model follows the code.
- `NonSharableTypeCheckTest.testMethods` sets a property `ignoreAnnotations`. The check has no setter of that name; its setter is `setIgnoreAnnotationCanonicalNames`. The model does not interpret that property.
- Both checks keep their import lists and package name in per-instance fields that `beginTree` resets, so the model keeps them per instance too.

## Model

| member | source | states |
|---|---|---|
| `Names.LastIndexOf` | sevntu-checks/src/main/java/com/github/sevntu/checkstyle/checks/coding/NonSharableTypeCheck.java:289-291 | The result is -1 or a position holding the character, and no later position holds it. |
| `Names.LastSegment` | sevntu-checks/src/main/java/com/github/sevntu/checkstyle/checks/coding/NonSharableTypeCheck.java:289-291 | The result is a dot-free suffix of the string, and it is either the whole string or preceded by a dot. |
| `Names.LastSegmentAfterDot` | sevntu-checks/src/main/java/com/github/sevntu/checkstyle/checks/coding/NonSharableTypeCheck.java:289-292 | The last segment of `a.b` is `b` whenever `b` has no dot. |
| `Names.LastSegmentOfSimpleName` | sevntu-checks/src/main/java/com/github/sevntu/checkstyle/checks/coding/NonSharableTypeCheck.java:289-292 | A dot-free name is its own last segment. |
| `Names.OnDemandJoinQualifies` | sevntu-checks/src/main/java/com/github/sevntu/checkstyle/checks/coding/NonSharableTypeCheck.java:446-450 | `p.*` is an on-demand import, and joining it with `t` gives the qualified name `p.t`. |
| `Names.LastSegmentOfJoinDots` | sevntu-checks/src/main/java/com/github/sevntu/checkstyle/checks/coding/NonSharableTypeCheck.java:289-292 | The last segment of a dotted name made of dot-free segments is its last segment. |
| `Names.GetIdentifierName` | sevntu-checks/src/main/java/com/github/sevntu/checkstyle/checks/coding/NonSharableTypeCheck.java:359-381 | The loop building the name from the DOT chain returns the specified name: the IDENT child's text, else the dotted name read from the DOT child, else the first child's text. |
| `Names.DotNameOfChain` | sevntu-checks/src/main/java/com/github/sevntu/checkstyle/checks/coding/NonSharableTypeCheck.java:359-381 | Reading back the DOT tree the parser builds for a dotted name gives the segments joined by dots. |
| `Names.CollectMemberTypes` | sevntu-checks/src/main/java/com/github/sevntu/checkstyle/checks/coding/NonSharableTypeCheck.java:400-419 | The result is the specified type names: one name for a plain type, otherwise the names of the TYPE_ARGUMENT nodes, in order. |
| `Names.GenericArguments` | sevntu-checks/src/main/java/com/github/sevntu/checkstyle/checks/coding/NonSharableTypeCheck.java:400-419 | For a generic TYPE the collected names are those of the TYPE_ARGUMENTS children before the closing `>`. |
| `Names.TypeArgumentNamesSound` | sevntu-checks/src/main/java/com/github/sevntu/checkstyle/checks/coding/NonSharableTypeCheck.java:400-419 | Every collected name is the name of some TYPE_ARGUMENT node. It is never the base type or a separator. |
| `Names.TypeArgumentNamesComplete` | sevntu-checks/src/main/java/com/github/sevntu/checkstyle/checks/coding/NonSharableTypeCheck.java:400-419 | Every TYPE_ARGUMENT node contributes its name. |
| `Access.IsAccessibleFromOutsideClass` | sevntu-checks/src/main/java/com/github/sevntu/checkstyle/checks/coding/NonSharableTypeCheck.java:458-470 | True exactly when neither the node nor any of its parents is private. |
| `Access.IsClassDefInMethodDef` | sevntu-checks/src/main/java/com/github/sevntu/checkstyle/checks/coding/NonSharableTypeCheck.java:478-490 | True exactly when some parent of the class is a METHOD_DEF. |
| `Access.IsAccessibleFromOutside` | sevntu-checks/src/main/java/com/github/sevntu/checkstyle/checks/coding/NonSharableTypeCheck.java:339-351 | True exactly when the grandparent is an enum or an interface, or is a class that is not inside a method and not private anywhere up its chain. |
| `Qualify.SomeCandidateAcceptedIff` | sevntu-checks/src/main/java/com/github/sevntu/checkstyle/checks/coding/NonAccessibleTypeCheck.java:278-312 | Trying the written name, the on-demand joins, the matching single-type import and the package form in order accepts the name exactly when one of those qualified forms is accepted. |
| `Qualify.ExpectedNameIsListPattern` | sevntu-checks/src/main/java/com/github/sevntu/checkstyle/checks/coding/NonSharableTypeCheck.java:270-308 | The list test of `isExpectedName` is the same search with "is in the list" as the acceptance test. |
| `Qualify.SimpleNameMatchesOnlyItself` | sevntu-checks/src/main/java/com/github/sevntu/checkstyle/checks/coding/NonSharableTypeCheck.java:270-308 | A list entry without a dot qualifies the name `t` exactly when it is `t` itself. |
| `Qualify.QualifiedFormNeedsImport` | sevntu-checks/src/main/java/com/github/sevntu/checkstyle/checks/coding/NonSharableTypeCheck.java:270-308 | `pkg.t` qualifies `t` only through an on-demand import `pkg.*`, a single-type import `pkg.t`, or the file's own package `pkg`. There is no implicit `java.lang`. |
| `Reports.ViolationsMembership` | sevntu-checks/src/main/java/com/github/sevntu/checkstyle/checks/coding/NonSharableTypeCheck.java:252-256 | A violation is logged exactly for the accepted names, on the declaration's line. |
| `Reports.ViolationsAppend` | sevntu-checks/src/main/java/com/github/sevntu/checkstyle/checks/coding/NonSharableTypeCheck.java:252-256 | The log follows the order of the names: the violations of a concatenation are the concatenation of the violations. |
| `Reports.ViolationsOfMatchingTypes` | sevntu-checks/src/main/java/com/github/sevntu/checkstyle/checks/coding/NonSharableTypeCheck.java:252-256 | When every name is accepted, the log has one violation per name, in order. |
| `Reports.ViolationsOfNoMatch` | sevntu-checks/src/main/java/com/github/sevntu/checkstyle/checks/coding/NonSharableTypeCheck.java:252-256 | When no name is accepted, nothing is logged. |
| `Reports.ViolationsAgree` | sevntu-checks/src/main/java/com/github/sevntu/checkstyle/checks/coding/NonSharableTypeCheck.java:252-256 | Two acceptance tests that agree on the names give the same log. |
| `NonSharable.NonSharableTypeCheck.constructor` | sevntu-checks/src/main/java/com/github/sevntu/checkstyle/checks/coding/NonSharableTypeCheck.java:177-181 | A new check has the default types and, added to an empty list, the default annotations. It starts with no imports, an empty package name and an empty log. |
| `NonSharable.NonSharableTypeCheck.SetNonSharableTypes` | sevntu-checks/src/main/java/com/github/sevntu/checkstyle/checks/coding/NonSharableTypeCheck.java:188-194 | The list of types becomes exactly the given names, in order, replacing the defaults. |
| `NonSharable.NonSharableTypeCheck.SetIgnoreAnnotationCanonicalNames` | sevntu-checks/src/main/java/com/github/sevntu/checkstyle/checks/coding/NonSharableTypeCheck.java:201-206 | The given names are appended; the default annotations stay. |
| `NonSharable.NonSharableTypeCheck.BeginTree` | sevntu-checks/src/main/java/com/github/sevntu/checkstyle/checks/coding/NonSharableTypeCheck.java:220-225 | Both import lists are emptied and the package name is reset. The configuration and the log are unchanged. |
| `NonSharable.NonSharableTypeCheck.VisitToken` | sevntu-checks/src/main/java/com/github/sevntu/checkstyle/checks/coding/NonSharableTypeCheck.java:228-260 | A package sets the package name. An import goes to exactly one list, chosen by its `.*` suffix, and the other list stays unchanged. A field or method appends exactly its `DeclarationViolations`. Any other node changes nothing. |
| `NonSharable.NonSharableTypeCheck.VisitDeclaration` | sevntu-checks/src/main/java/com/github/sevntu/checkstyle/checks/coding/NonSharableTypeCheck.java:246-258 | Visiting a field or method appends exactly `DeclarationViolations` to the log and changes nothing else. |
| `NonSharable.NonSharableTypeCheck.ReportMemberTypes` | sevntu-checks/src/main/java/com/github/sevntu/checkstyle/checks/coding/NonSharableTypeCheck.java:250-257 | For a reported member, the log grows by one violation per listed type name of the member, in order. |
| `NonSharable.NonSharableTypeCheck.IsReported` | sevntu-checks/src/main/java/com/github/sevntu/checkstyle/checks/coding/NonSharableTypeCheck.java:248-249 | Evaluated left to right, the condition holds exactly when the member is not private, is reachable from outside, and is not ignored. |
| `NonSharable.NonSharableTypeCheck.LogExpectedTypes` | sevntu-checks/src/main/java/com/github/sevntu/checkstyle/checks/coding/NonSharableTypeCheck.java:252-256 | The loop appends one violation per name that `isExpectedName` accepts, in order. |
| `NonSharable.NonSharableTypeCheck.IsExpectedName` | sevntu-checks/src/main/java/com/github/sevntu/checkstyle/checks/coding/NonSharableTypeCheck.java:270-308 | True exactly when some list entry is the name itself or one of its qualified forms, and false for an empty list. |
| `NonSharable.NonSharableTypeCheck.MatchesOnDemandImport` | sevntu-checks/src/main/java/com/github/sevntu/checkstyle/checks/coding/NonSharableTypeCheck.java:280-287 | True exactly when the entry is the name joined with one of the on-demand imports. |
| `NonSharable.NonSharableTypeCheck.MatchesSingleTypeImport` | sevntu-checks/src/main/java/com/github/sevntu/checkstyle/checks/coding/NonSharableTypeCheck.java:289-297 | True exactly when the entry is a single-type import whose last segment is the name. |
| `NonSharable.NonSharableTypeCheck.HasIgnoreAnnotation` | sevntu-checks/src/main/java/com/github/sevntu/checkstyle/checks/coding/NonSharableTypeCheck.java:316-330 | True exactly when the first annotation under MODIFIERS has a name that qualifies to an ignored annotation. It is false when there are no modifiers or no annotation. |
| `NonSharable.PrivateMemberNeverReported` | sevntu-checks/src/main/java/com/github/sevntu/checkstyle/checks/coding/NonSharableTypeCheck.java:427-436 | A declaration whose MODIFIERS contain `private` logs nothing, whatever the configuration. |
| `NonSharable.HiddenClassMemberNeverReported` | sevntu-checks/src/main/java/com/github/sevntu/checkstyle/checks/coding/NonSharableTypeCheck.java:339-351 | A member of a class logs nothing when that class or any node above it is private, or when a method encloses the class. |
| `NonSharable.LocalDeclarationNeverReported` | sevntu-checks/src/main/java/com/github/sevntu/checkstyle/checks/coding/NonSharableTypeCheck.java:339-351 | A declaration whose grandparent is not a class, an enum or an interface, such as a local variable, logs nothing. |
| `NonSharable.EnumOrInterfaceMemberReported` | sevntu-checks/src/main/java/com/github/sevntu/checkstyle/checks/coding/NonSharableTypeCheck.java:339-351 | A non-private, non-ignored member of an enum or an interface is checked whatever encloses that enum or interface. |
| `NonSharable.AnnotationIgnoredThroughImport` | sevntu-checks/src/main/java/com/github/sevntu/checkstyle/checks/coding/NonSharableTypeCheck.java:316-330 | An annotation written by its simple name is ignored, so the member logs nothing, when its qualified name is on the ignore list and imported by a single-type import. |
| `NonAccessible.PatternOf` | sevntu-checks/src/main/java/com/github/sevntu/checkstyle/checks/coding/NonAccessibleTypeCheck.java:111-119 | A missing or empty string clears the pattern. Any other string becomes the pattern. |
| `NonAccessible.NonAccessibleTypeCheck.constructor` | sevntu-checks/src/main/java/com/github/sevntu/checkstyle/checks/coding/NonAccessibleTypeCheck.java:89-104 | A new check has no pattern, no imports, an empty package name and an empty log. It carries the given regular-expression matcher. |
| `NonAccessible.NonAccessibleTypeCheck.SetNonAccessibleTypes` | sevntu-checks/src/main/java/com/github/sevntu/checkstyle/checks/coding/NonAccessibleTypeCheck.java:111-119 | The pattern becomes the given string when it is present and non-empty, and none otherwise. Nothing else changes. |
| `NonAccessible.NonAccessibleTypeCheck.BeginTree` | sevntu-checks/src/main/java/com/github/sevntu/checkstyle/checks/coding/NonAccessibleTypeCheck.java:133-138 | Both import lists are emptied and the package name is reset. The pattern and the log are unchanged. |
| `NonAccessible.NonAccessibleTypeCheck.VisitToken` | sevntu-checks/src/main/java/com/github/sevntu/checkstyle/checks/coding/NonAccessibleTypeCheck.java:141-185 | A package sets the package name. An import goes to exactly one list. A field or method appends exactly its `DeclarationViolations`, which applies `hasOverrideAnnotation` as written to a method. Any other node changes nothing. |
| `NonAccessible.NonAccessibleTypeCheck.VisitVariable` | sevntu-checks/src/main/java/com/github/sevntu/checkstyle/checks/coding/NonAccessibleTypeCheck.java:160-171 | A field appends `DeclarationViolations`: nothing unless it is non-private and reachable from outside. |
| `NonAccessible.NonAccessibleTypeCheck.VisitMethod` | sevntu-checks/src/main/java/com/github/sevntu/checkstyle/checks/coding/NonAccessibleTypeCheck.java:172-183 | A method appends `DeclarationViolations`. That is nothing when the method is private or its first direct ANNOTATION child is `@Override`, and its restricted types otherwise. No reachability test is applied. |
| `NonAccessible.NonAccessibleTypeCheck.LogNonAccessibleTypes` | sevntu-checks/src/main/java/com/github/sevntu/checkstyle/checks/coding/NonAccessibleTypeCheck.java:164-168 | The loop appends one violation per name `isNonAccessibleType` accepts, in order. |
| `NonAccessible.NonAccessibleTypeCheck.IsNonAccessibleType` | sevntu-checks/src/main/java/com/github/sevntu/checkstyle/checks/coding/NonAccessibleTypeCheck.java:278-312 | True exactly when a pattern is set and fully matches the name or one of its qualified forms, tried in the source's order. |
| `NonAccessible.FieldViolations` | sevntu-checks/src/main/java/com/github/sevntu/checkstyle/checks/coding/NonAccessibleTypeCheck.java:160-171 | A field logs one violation per restricted type name, in order, when it is not private and can be reached from outside. Otherwise it logs nothing. |
| `NonAccessible.MethodViolations` | sevntu-checks/src/main/java/com/github/sevntu/checkstyle/checks/coding/NonAccessibleTypeCheck.java:172-183 | A method logs nothing when it is private or its first direct ANNOTATION child is `@Override`. Otherwise it logs one violation per restricted type name, in order. |
| `NonAccessible.NonAccessibleTypeIff` | sevntu-checks/src/main/java/com/github/sevntu/checkstyle/checks/coding/NonAccessibleTypeCheck.java:278-312 | With a pattern, a name is restricted exactly when the pattern fully matches some qualified form of it. |
| `NonAccessible.NoPatternNeverReports` | sevntu-checks/src/main/java/com/github/sevntu/checkstyle/checks/coding/NonAccessibleTypeCheck.java:111-119 | After setting a missing or empty pattern, no declaration ever logs anything. |
| `NonAccessible.PrivateClassHidesFieldsOnly` | sevntu-checks/src/main/java/com/github/sevntu/checkstyle/checks/coding/NonAccessibleTypeCheck.java:160-183 | In a private class a field logs nothing. A non-private method that `hasOverrideAnnotation` does not flag logs its restricted types as if it were at the top level. |
| `NonAccessible.FieldReportedOnlyWhenReachable` | sevntu-checks/src/main/java/com/github/sevntu/checkstyle/checks/coding/NonAccessibleTypeCheck.java:160-171 | A field that logs anything is not private and is reachable from outside. |
| `NonAccessible.OverridingMethodNeverReported` | sevntu-checks/src/main/java/com/github/sevntu/checkstyle/checks/coding/NonAccessibleTypeCheck.java:334-343 | With the intended test (`IntendedDeclarationViolations`), a method whose first annotation under MODIFIERS is `@Override` logs nothing. |
| `NonAccessible.IntendedAgreesOnFields` | sevntu-checks/src/main/java/com/github/sevntu/checkstyle/checks/coding/NonAccessibleTypeCheck.java:160-171 | The intended visit and the code agree on every field. They differ only in the test applied to methods. |
| `NonAccessible.ParserShapedMethodReportedUnlessPrivate` | sevntu-checks/src/main/java/com/github/sevntu/checkstyle/checks/coding/NonAccessibleTypeCheck.java:172-183 | As written, every non-private method with no ANNOTATION among its own children logs its restricted types, whatever its annotations under MODIFIERS. |
| `NonAccessible.OverrideTestAsWrittenMissesModifiers` | sevntu-checks/src/main/java/com/github/sevntu/checkstyle/checks/coding/NonAccessibleTypeCheck.java:334-343 | The test as written is false for every method whose annotations are under MODIFIERS rather than among its own children. |
| `NonAccessible.ListPatternAgreesWithExpectedName` | sevntu-checks/src/main/java/com/github/sevntu/checkstyle/checks/coding/NonAccessibleTypeCheck.java:278-312 | For a pattern that accepts exactly the entries of a list, `isNonAccessibleType` is `isExpectedName` of the other check: both qualify names the same way. |
| `Fixtures.GenericTypeMemberTypes` | sevntu-checks/src/main/java/com/github/sevntu/checkstyle/checks/coding/NonSharableTypeCheck.java:400-419 | `Map<Pattern, Matcher>` gives the names `Pattern` and `Matcher`, in order, and never `Map`. |
| `Fixtures.Fixture1ContextValid` | sevntu-checks/src/test/resources/com/github/sevntu/checkstyle/checks/coding/InputNonAccessibleTypeCheck1.java:1-6 | The imports of the test file are sorted consistently into the two lists. |
| `Fixtures.RegexNamesQualifiedOnDemand` | sevntu-checks/src/test/resources/com/github/sevntu/checkstyle/checks/coding/InputNonAccessibleTypeCheck1.java:5 | `Pattern` and `Matcher` match the test's pattern through `import java.util.regex.*`. |
| `Fixtures.StringQualifiedBySingleTypeImport` | sevntu-checks/src/test/resources/com/github/sevntu/checkstyle/checks/coding/InputNonAccessibleTypeCheck1.java:6 | `String` matches the test's pattern through `import java.lang.String`. |
| `Fixtures.Fixture1MemberReachable` | sevntu-checks/src/test/resources/com/github/sevntu/checkstyle/checks/coding/InputNonAccessibleTypeCheck1.java:8-9 | Members of the public top-level class are reachable from outside. |
| `Fixtures.VisibleFieldViolations` | sevntu-checks/src/main/java/com/github/sevntu/checkstyle/checks/coding/NonAccessibleTypeCheck.java:160-171 | A non-private, reachable field logs the verdicts of `isNonAccessibleType` on its type names. |
| `Fixtures.VisibleGenericField` | sevntu-checks/src/main/java/com/github/sevntu/checkstyle/checks/coding/NonAccessibleTypeCheck.java:160-171 | A visible field of type `base<first, second>` logs `first` then `second` when both are restricted. |
| `Fixtures.VisibleDottedField` | sevntu-checks/src/main/java/com/github/sevntu/checkstyle/checks/coding/NonAccessibleTypeCheck.java:160-171 | A visible field whose type is written as a dotted name logs that name as written. |
| `Fixtures.GenericFieldReportsEachArgument` | sevntu-checks/src/test/java/com/github/sevntu/checkstyle/checks/coding/NonAccessibleTypeCheckTest.java:46-47 | Line 30, `public Map <Pattern, Matcher> a;`, logs `Pattern` then `Matcher` on line 30, and not `Map`. |
| `Fixtures.PrivateFieldNotReported` | sevntu-checks/src/test/resources/com/github/sevntu/checkstyle/checks/coding/InputNonAccessibleTypeCheck1.java:13 | `private Pattern testVar4;` logs nothing. |
| `Fixtures.QualifiedFieldReported` | sevntu-checks/src/test/java/com/github/sevntu/checkstyle/checks/coding/NonAccessibleTypeCheckTest.java:39 | Line 15, `public java.util.regex.Pattern testVar5;`, logs `java.util.regex.Pattern`. |
| `Fixtures.ImportedStringFieldReported` | sevntu-checks/src/test/java/com/github/sevntu/checkstyle/checks/coding/NonAccessibleTypeCheckTest.java:42 | Line 20, `String testVar9;`, logs `String`. |
| `Fixtures.OverridingToStringMissedAsWritten` | sevntu-checks/src/main/java/com/github/sevntu/checkstyle/checks/coding/NonAccessibleTypeCheck.java:334-343 | `@Override public String toString()` is not flagged by the test as written. With the restrictions and imports of InputNonAccessibleTypeCheck1, the code logs exactly `String` on its line. |
| `Fixtures.OverridingToStringNotReported` | sevntu-checks/src/main/java/com/github/sevntu/checkstyle/checks/coding/NonAccessibleTypeCheck.java:172-183 | With the intended test, the same method logs nothing. |
| `Fixtures.Fixture2ContextValid` | sevntu-checks/src/test/resources/com/github/sevntu/checkstyle/checks/coding/InputNonSharableTypeCheck2.java:1-7 | The four imports of the test file are all single-type imports. |
| `Fixtures.Fixture2MemberReachable` | sevntu-checks/src/test/resources/com/github/sevntu/checkstyle/checks/coding/InputNonSharableTypeCheck2.java:9-10 | Members of the public class are reachable from outside. |
| `Fixtures.VisibleForTestingImported` | sevntu-checks/src/test/resources/com/github/sevntu/checkstyle/checks/coding/InputNonSharableTypeCheck2.java:4 | With `import com.google.common.annotations.VisibleForTesting`, the simple name `VisibleForTesting` is on the default ignore list. |
| `Fixtures.IgnoredAnnotatedMethod` | sevntu-checks/src/main/java/com/github/sevntu/checkstyle/checks/coding/NonSharableTypeCheck.java:316-330 | A method whose first annotation names an ignored annotation logs nothing. |
| `Fixtures.VisibleForTestingMethodIgnored` | sevntu-checks/src/test/resources/com/github/sevntu/checkstyle/checks/coding/InputNonSharableTypeCheck2.java:32-35 | `@VisibleForTesting public Pattern someMethod3()` logs nothing. |
| `Fixtures.OverridingMethodIgnored` | sevntu-checks/src/test/resources/com/github/sevntu/checkstyle/checks/coding/InputNonSharableTypeCheck2.java:27-30 | `@Override public String toString()` logs nothing, because `Override` is on the default ignore list. |
| `Fixtures.Fixture2PatternRestricted` | sevntu-checks/src/test/resources/com/github/sevntu/checkstyle/checks/coding/InputNonSharableTypeCheck2.java:6 | `Pattern` stands for the listed `java.util.regex.Pattern` through its single-type import. |
| `Fixtures.PatternMethodReported` | sevntu-checks/src/test/java/com/github/sevntu/checkstyle/checks/coding/NonSharableTypeCheckTest.java:64 | Line 11, `public Pattern getTestVar()`, logs `Pattern` on line 11. |
| `Fixtures.UnimportedStringNotQualified` | sevntu-checks/src/test/resources/com/github/sevntu/checkstyle/checks/coding/InputNonSharableTypeCheck1.java:1-6 | Without an import of `java.lang.String`, the name `String` is not the listed `java.lang.String`. |
| `Fixtures.NameDeclarationName` | sevntu-checks/src/main/java/com/github/sevntu/checkstyle/checks/coding/NonSharableTypeCheck.java:230-244 | The name a package or import declaration records is its dotted name as written. |
| `Fixtures.Slf4jLoggerName` | sevntu-checks/src/test/resources/com/github/sevntu/checkstyle/checks/coding/InputNonSharableTypeCheck5.java:3 | `import org.slf4j.Logger;` records `org.slf4j.Logger`, a single-type import. |
| `Fixtures.LoggerIsDefaultType` | sevntu-checks/src/main/java/com/github/sevntu/checkstyle/checks/coding/NonSharableTypeCheck.java:133-138 | With `import org.slf4j.Logger;`, the simple name `Logger` is one of the default types. |
| `Fixtures.PlainTypedMember` | sevntu-checks/src/main/java/com/github/sevntu/checkstyle/checks/coding/NonSharableTypeCheck.java:246-258 | A member with keyword modifiers only has no annotation and collects its one type name. |
| `Fixtures.SharedSimpleMember` | sevntu-checks/src/main/java/com/github/sevntu/checkstyle/checks/coding/NonSharableTypeCheck.java:246-258 | A reachable, non-private, unannotated member logs its one type when the list names it. |
| `Fixtures.Fixture5Reachable` | sevntu-checks/src/test/resources/com/github/sevntu/checkstyle/checks/coding/InputNonSharableTypeCheck5.java:5-6 | Members of the public top-level class are reachable from outside. |
| `Fixtures.VisibleLoggerMember` | sevntu-checks/src/main/java/com/github/sevntu/checkstyle/checks/coding/NonSharableTypeCheck.java:246-258 | In the default configuration, a reachable member of type `Logger` without a private modifier logs `Logger`. |
| `Fixtures.PrivateLoggerField` | sevntu-checks/src/test/resources/com/github/sevntu/checkstyle/checks/coding/InputNonSharableTypeCheck5.java:21 | A `private Logger` field logs nothing, wherever it is. |
| `Fixtures.Fixture5Line7` | sevntu-checks/src/test/resources/com/github/sevntu/checkstyle/checks/coding/InputNonSharableTypeCheck5.java:7 | `private Logger log;` logs nothing. |
| `Fixtures.Fixture5Line9` | sevntu-checks/src/test/java/com/github/sevntu/checkstyle/checks/coding/NonSharableTypeCheckTest.java:118 | `protected Logger log2;` logs `Logger` on line 9. |
| `Fixtures.Fixture5Line11` | sevntu-checks/src/test/java/com/github/sevntu/checkstyle/checks/coding/NonSharableTypeCheckTest.java:119 | `public Logger log3;` logs `Logger` on line 11. |
| `Fixtures.Fixture5Line13` | sevntu-checks/src/test/java/com/github/sevntu/checkstyle/checks/coding/NonSharableTypeCheckTest.java:120 | `Logger log4;` logs `Logger` on line 13. |
| `Fixtures.Fixture5Line15` | sevntu-checks/src/test/java/com/github/sevntu/checkstyle/checks/coding/NonSharableTypeCheckTest.java:121 | `public Logger getLog()` logs `Logger` on line 15. |
| `Fixtures.Fixture5Line21` | sevntu-checks/src/test/resources/com/github/sevntu/checkstyle/checks/coding/InputNonSharableTypeCheck5.java:19-22 | The private field of the nested class `TestLogger` logs nothing. |
| `Fixtures.VisitFixture5Header` | sevntu-checks/src/test/resources/com/github/sevntu/checkstyle/checks/coding/InputNonSharableTypeCheck5.java:1-3 | Visiting the package declaration and `import org.slf4j.Logger;` records both and logs nothing. |
| `Fixtures.VisitFixture5Line7` | sevntu-checks/src/test/resources/com/github/sevntu/checkstyle/checks/coding/InputNonSharableTypeCheck5.java:7 | The check visiting line 7 leaves the log unchanged. |
| `Fixtures.VisitFixture5Line9` | sevntu-checks/src/test/resources/com/github/sevntu/checkstyle/checks/coding/InputNonSharableTypeCheck5.java:9 | The check visiting line 9 appends exactly `9: Logger`. |
| `Fixtures.VisitFixture5Line11` | sevntu-checks/src/test/resources/com/github/sevntu/checkstyle/checks/coding/InputNonSharableTypeCheck5.java:11 | The check visiting line 11 appends exactly `11: Logger`. |
| `Fixtures.VisitFixture5Line13` | sevntu-checks/src/test/resources/com/github/sevntu/checkstyle/checks/coding/InputNonSharableTypeCheck5.java:13 | The check visiting line 13 appends exactly `13: Logger`. |
| `Fixtures.VisitFixture5Line15` | sevntu-checks/src/test/resources/com/github/sevntu/checkstyle/checks/coding/InputNonSharableTypeCheck5.java:15 | The check visiting line 15 appends exactly `15: Logger`. |
| `Fixtures.VisitFixture5Line21` | sevntu-checks/src/test/resources/com/github/sevntu/checkstyle/checks/coding/InputNonSharableTypeCheck5.java:21 | The check visiting the nested class's field leaves the log unchanged. |
| `Fixtures.DefaultConfigurationScenario` | sevntu-checks/src/test/java/com/github/sevntu/checkstyle/checks/coding/NonSharableTypeCheckTest.java:112-125 | A default-configured check, run over the file's package, import and six declarations, logs exactly `9`, `11`, `13` and `15: Logger`, in that order. |

## Left out

- The host framework's traversal, its message formatting with the key `non.sharable.type` / `non.accessible.type`, and the sorting of messages are not modelled. The log is the sequence of (line, type name) pairs the checks pass to `log`, in call order.
- `getDefaultTokens` only tells the host which node kinds to visit. The model's `VisitToken` accepts any node and changes nothing for other kinds.
- The regular expression engine is a parameter of `NonAccessibleTypeCheck`, a function `fullMatch(pattern, name)`. A pattern that fails to compile (`PatternSyntaxException` in `setNonAccessibleTypes`) is not modelled.
- The conversion of a comma-separated configuration string into the `String[]` the setters receive belongs to the host and is not modelled.
- Paths on which the source would throw `NullPointerException` are excluded by preconditions and not modelled as errors. These are a declaration without a TYPE or a grandparent, a generic TYPE without type arguments, an annotation or name node without a readable name, and a direct ANNOTATION child of a METHOD_DEF without an IDENT, which `NonAccessible.DeclarationOk` excludes. Trees the Java parser builds do not have these shapes.
- `NonSharable.DeclarationOk` asks for a readable first annotation even when the member is not reachable and `hasIgnoreAnnotation` would not be called.
- The package name is `null` in the source until the first `beginTree`. The model starts it as the empty string.
- `Ast.IsAncestry` takes `ancestors[0]` as the root. A node carries no parent link, so the model cannot state that `ancestors[0]` has no parent. The walks of `isAccessibleFromOutsideClass` and `isClassDefInMethodDef` stop at `ancestors[0]`, where the source's walks stop at a null parent.
- A CLASS_DEF in the fixtures has only MODIFIERS, IDENT and OBJBLOCK children. The parser's other children (`class`, type parameters, `extends`) do not affect either check.
- InputNonAccessibleTypeCheck2.java, the input of `NonAccessibleTypeCheckTest.testMethods`, is not part of this model.
- The inputs of the inner-type and interface/enum tests are covered by the general lemmas (`HiddenClassMemberNeverReported`, `EnumOrInterfaceMemberReported`, `PrivateClassHidesFieldsOnly`) rather than rebuilt node by node.

## Findings

| source | as written | input that shows it | evidently intended | confidence | as-written member | corrected member |
|---|---|---|---|---|---|---|
| sevntu-checks/src/main/java/com/github/sevntu/checkstyle/checks/coding/NonAccessibleTypeCheck.java:334-343 | `hasOverrideAnnotation` looks for an ANNOTATION among the method's own children (`NonAccessible.HasOverrideAnnotationAsWritten`). The parser puts annotations under MODIFIERS, so the test never fires and an overriding method is reported. The model's `VisitMethod` and `DeclarationViolations` follow this code. | `@Override public String toString()` with `java.lang.String` restricted and imported: the code logs `String` on its line | The method's first annotation under MODIFIERS, as `hasIgnoreAnnotation` of the other check reads it (`NonAccessible.HasOverrideAnnotation`, used by `NonAccessible.IntendedDeclarationViolations`). Such a method is then never reported. | not executed | `Fixtures.OverridingToStringMissedAsWritten` | `NonAccessible.OverridingMethodNeverReported` |
