/**
 * NonSharableTypeCheck: reports every non-private field or method, reachable
 * from outside its file's classes and not carrying an ignored annotation,
 * whose declared type (or generic type argument) is one of a configured list
 * of fully qualified type names.
 */
module NonSharable {
  import opened Ast
  import opened Names
  import opened Access
  import opened Qualify
  import opened Reports

  /** DEFAULT_TYPES: the logging types reported when nothing else is configured. */
  const DefaultTypes: seq<string> :=
    ["java.util.logging.Logger", "org.apache.log4j.Logger", "org.slf4j.Logger", "org.apache.commons.logging.Log"]

  /** DEFAULT_ANNOTATIONS: the annotations that suppress the check by default. */
  const DefaultAnnotations: seq<string> :=
    ["java.lang.Override", "Override", "com.google.common.annotations.VisibleForTesting"]

  /** hasIgnoreAnnotation can read the name of the first annotation under MODIFIERS. */
  predicate AnnotationOk(definitionNode: Node)
  {
    match FirstModifierAnnotation(definitionNode)
    case None => true
    case Some(a) => NameOk(a)
  }

  /** What hasIgnoreAnnotation is specified to return: the first annotation's name is an ignored one. */
  predicate IgnoredByAnnotation(definitionNode: Node, ignoreAnnotations: seq<string>, ctx: ImportContext)
    requires ctx.Valid() && AnnotationOk(definitionNode)
  {
    match FirstModifierAnnotation(definitionNode)
    case None => false
    case Some(a) => ExpectedName(IdentifierName(a), ignoreAnnotations, ctx)
  }

  /** What visitToken reads of a VARIABLE_DEF or METHOD_DEF: a grandparent, a readable annotation, a TYPE. */
  predicate DeclarationOk(definitionNode: Node, ancestors: seq<Node>)
  {
    |ancestors| >= 2 && AnnotationOk(definitionNode) && TypeOk(definitionNode)
  }

  /** isExpectedName against a fixed list and context, as a predicate on names. */
  function ExpectedNameIn(listWithNames: seq<string>, ctx: ImportContext): string -> bool
    requires ctx.Valid()
  {
    t => ExpectedName(t, listWithNames, ctx)
  }

  /** visitToken's test for a field or method: not private, reachable from outside, not ignored. */
  predicate Reported(definitionNode: Node, ancestors: seq<Node>, ignoreAnnotations: seq<string>, ctx: ImportContext)
    requires ctx.Valid() && DeclarationOk(definitionNode, ancestors)
  {
    && !IsPrivateMember(definitionNode)
    && AccessibleFromOutside(ancestors)
    && !IgnoredByAnnotation(definitionNode, ignoreAnnotations, ctx)
  }

  /** The violations that visiting a field or method declaration logs. */
  function DeclarationViolations(definitionNode: Node, ancestors: seq<Node>, nonSharableTypes: seq<string>,
                                 ignoreAnnotations: seq<string>, ctx: ImportContext): seq<Violation>
    requires ctx.Valid() && DeclarationOk(definitionNode, ancestors)
  {
    if Reported(definitionNode, ancestors, ignoreAnnotations, ctx)
    then Violations(definitionNode.line, MemberTypes(definitionNode), ExpectedNameIn(nonSharableTypes, ctx))
    else []
  }

  class NonSharableTypeCheck {
    var nonSharableTypes: seq<string>
    var ignoreAnnotationCanonicalNames: seq<string>
    var onDemandImports: seq<string>
    var singleTypeImports: seq<string>
    var packageName: string
    /** What the check has passed to the host's log, oldest first. */
    var log: seq<Violation>

    function Context(): ImportContext
      reads this`onDemandImports, this`singleTypeImports, this`packageName
    {
      ImportContext(onDemandImports, singleTypeImports, packageName)
    }

    /** Every on-demand import ends with ".*" and no single-type import does. */
    predicate Valid()
      reads this`onDemandImports, this`singleTypeImports, this`packageName
    {
      Context().Valid()
    }

    /** The default configuration: the default types, the default annotations added to an empty list. */
    constructor ()
      ensures Valid()
      ensures nonSharableTypes == DefaultTypes && ignoreAnnotationCanonicalNames == DefaultAnnotations
      ensures Context() == ImportContext([], [], "") && log == []
    {
      nonSharableTypes := [];
      ignoreAnnotationCanonicalNames := [];
      onDemandImports := [];
      singleTypeImports := [];
      packageName := "";
      log := [];
      new;
      SetNonSharableTypes(DefaultTypes);
      SetIgnoreAnnotationCanonicalNames(DefaultAnnotations);
    }

    /** setNonSharableTypes: the list becomes exactly the given names, in order. */
    method SetNonSharableTypes(types: seq<string>)
      modifies this`nonSharableTypes
      ensures nonSharableTypes == types
    {
      nonSharableTypes := [];
      var i := 0;
      while i < |types|
        invariant 0 <= i <= |types|
        invariant nonSharableTypes == types[..i]
      {
        nonSharableTypes := nonSharableTypes + [types[i]];
        i := i + 1;
      }
    }

    /** setIgnoreAnnotationCanonicalNames: the names are appended; earlier entries stay. */
    method SetIgnoreAnnotationCanonicalNames(names: seq<string>)
      modifies this`ignoreAnnotationCanonicalNames
      ensures ignoreAnnotationCanonicalNames == old(ignoreAnnotationCanonicalNames) + names
    {
      var i := 0;
      while i < |names|
        invariant 0 <= i <= |names|
        invariant ignoreAnnotationCanonicalNames == old(ignoreAnnotationCanonicalNames) + names[..i]
      {
        ignoreAnnotationCanonicalNames := ignoreAnnotationCanonicalNames + [names[i]];
        i := i + 1;
      }
    }

    /** beginTree: forget the previous file's imports and package. */
    method BeginTree()
      modifies this`onDemandImports, this`singleTypeImports, this`packageName
      ensures Valid() && Context() == ImportContext([], [], "")
    {
      onDemandImports := [];
      singleTypeImports := [];
      packageName := "";
    }

    /** visitToken: record the package, sort an import, or check a field or method declaration. */
    method VisitToken(node: Node, ancestors: seq<Node>)
      requires Valid()
      requires node.kind == PackageDef || node.kind == Import ==> NameOk(node)
      requires node.kind == VariableDef || node.kind == MethodDef ==>
                 IsAncestry(ancestors, node) && DeclarationOk(node, ancestors)
      modifies this`onDemandImports, this`singleTypeImports, this`packageName, this`log
      ensures Valid()
      ensures node.kind == PackageDef ==>
                && Context() == old(Context()).(packageName := IdentifierName(node))
                && log == old(log)
      ensures node.kind == Import && IsOnDemandImport(IdentifierName(node)) ==>
                && Context() == old(Context()).(onDemandImports := old(onDemandImports) + [IdentifierName(node)])
                && log == old(log)
      ensures node.kind == Import && !IsOnDemandImport(IdentifierName(node)) ==>
                && Context() == old(Context()).(singleTypeImports := old(singleTypeImports) + [IdentifierName(node)])
                && log == old(log)
      ensures node.kind == VariableDef || node.kind == MethodDef ==>
                && Context() == old(Context())
                && log == old(log) + DeclarationViolations(node, ancestors, nonSharableTypes,
                                                           ignoreAnnotationCanonicalNames, old(Context()))
      ensures node.kind !in {PackageDef, Import, VariableDef, MethodDef} ==>
                Context() == old(Context()) && log == old(log)
    {
      match node.kind
      case PackageDef =>
        packageName := GetIdentifierName(node);
      case Import =>
        var currentImport := GetIdentifierName(node);
        if IsOnDemandImport(currentImport) {
          onDemandImports := onDemandImports + [currentImport];
        } else {
          singleTypeImports := singleTypeImports + [currentImport];
        }
      case VariableDef | MethodDef =>
        VisitDeclaration(node, ancestors);
      case _ =>
    }

    /** The VARIABLE_DEF / METHOD_DEF branch of visitToken. */
    method VisitDeclaration(definitionNode: Node, ancestors: seq<Node>)
      requires Valid() && DeclarationOk(definitionNode, ancestors)
      modifies this`log
      ensures log == old(log) + DeclarationViolations(definitionNode, ancestors, nonSharableTypes,
                                                      ignoreAnnotationCanonicalNames, Context())
    {
      var reported := IsReported(definitionNode, ancestors);
      if !reported {
        return;
      }
      ReportMemberTypes(definitionNode, ancestors);
    }

    /** The body of visitToken's VARIABLE_DEF / METHOD_DEF branch, once the member is to be reported. */
    method ReportMemberTypes(definitionNode: Node, ancestors: seq<Node>)
      requires Valid() && DeclarationOk(definitionNode, ancestors)
      requires Reported(definitionNode, ancestors, ignoreAnnotationCanonicalNames, Context())
      modifies this`log
      ensures log == old(log) + DeclarationViolations(definitionNode, ancestors, nonSharableTypes,
                                                      ignoreAnnotationCanonicalNames, Context())
    {
      var typesOfCurrentMember := CollectMemberTypes(definitionNode);
      LogExpectedTypes(definitionNode.line, typesOfCurrentMember);
    }

    /** The condition of visitToken's VARIABLE_DEF / METHOD_DEF branch, evaluated left to right. */
    method IsReported(definitionNode: Node, ancestors: seq<Node>) returns (reported: bool)
      requires Valid() && DeclarationOk(definitionNode, ancestors)
      ensures reported <==> Reported(definitionNode, ancestors, ignoreAnnotationCanonicalNames, Context())
    {
      reported := false;
      if !IsPrivateMember(definitionNode) {
        var accessible := IsAccessibleFromOutside(ancestors);
        if accessible {
          var ignored := HasIgnoreAnnotation(definitionNode);
          reported := !ignored;
        }
      }
    }

    /** The loop of visitToken over a member's types: log each one isExpectedName accepts. */
    method LogExpectedTypes(line: int, typesOfCurrentMember: seq<string>)
      requires Valid()
      modifies this`log
      ensures log == old(log) + Violations(line, typesOfCurrentMember, ExpectedNameIn(nonSharableTypes, Context()))
    {
      var i := 0;
      while i < |typesOfCurrentMember|
        invariant 0 <= i <= |typesOfCurrentMember|
        invariant log == old(log) + Violations(line, typesOfCurrentMember[..i], ExpectedNameIn(nonSharableTypes, Context()))
      {
        assert typesOfCurrentMember[..i + 1][..i] == typesOfCurrentMember[..i];
        var currentType := typesOfCurrentMember[i];
        var expected := IsExpectedName(currentType, nonSharableTypes);
        if expected {
          log := log + [Violation(line, currentType)];
        }
        i := i + 1;
      }
      assert typesOfCurrentMember[..i] == typesOfCurrentMember;
    }

    /** isExpectedName: some entry of the list is the name as written or one of its qualified forms. */
    method IsExpectedName(memberName: string, listWithNames: seq<string>) returns (result: bool)
      requires Valid()
      ensures result <==> ExpectedName(memberName, listWithNames, Context())
    {
      result := false;
      var n := 0;
      while n < |listWithNames|
        invariant 0 <= n <= |listWithNames|
        invariant result <==> exists j :: 0 <= j < n && IsCandidate(listWithNames[j], memberName, Context())
      {
        var currentName := listWithNames[n];
        if currentName == memberName {
          result := true;
        } else {
          var joined := MatchesOnDemandImport(currentName, memberName);
          var imported := MatchesSingleTypeImport(currentName, memberName);
          result := result || joined || imported;
          var fullTypeWithPackage := packageName + "." + memberName;
          if currentName == fullTypeWithPackage {
            result := true;
            break;
          }
        }
        n := n + 1;
      }
    }

    /** The first inner loop of isExpectedName: `currentName` is `memberName` joined with an on-demand import. */
    method MatchesOnDemandImport(currentName: string, memberName: string) returns (result: bool)
      requires Valid()
      ensures result <==> OnDemandCandidate(currentName, memberName, Context())
    {
      result := false;
      var i := 0;
      while i < |onDemandImports|
        invariant 0 <= i <= |onDemandImports|
        invariant forall p :: 0 <= p < i ==> currentName != JoinOnDemandImportWithIdentifier(onDemandImports[p], memberName)
      {
        var fullQualifiedType := JoinOnDemandImportWithIdentifier(onDemandImports[i], memberName);
        if currentName == fullQualifiedType {
          result := true;
          break;
        }
        i := i + 1;
      }
    }

    /** The second inner loop of isExpectedName: `currentName` is a single-type import ending in `memberName`. */
    method MatchesSingleTypeImport(currentName: string, memberName: string) returns (result: bool)
      requires Valid()
      ensures result <==> SingleTypeCandidate(currentName, memberName, Context())
    {
      result := false;
      var i := 0;
      while i < |singleTypeImports|
        invariant 0 <= i <= |singleTypeImports|
        invariant forall p :: 0 <= p < i ==> !(LastSegment(singleTypeImports[p]) == memberName && currentName == singleTypeImports[p])
      {
        var currentSingleTypeImport := singleTypeImports[i];
        var importEntryLastPart := LastSegment(currentSingleTypeImport);
        if importEntryLastPart == memberName && currentName == currentSingleTypeImport {
          result := true;
          break;
        }
        i := i + 1;
      }
    }

    /** hasIgnoreAnnotation: the first annotation under MODIFIERS names an ignored annotation. */
    method HasIgnoreAnnotation(definitionNode: Node) returns (result: bool)
      requires Valid() && AnnotationOk(definitionNode)
      ensures result <==> IgnoredByAnnotation(definitionNode, ignoreAnnotationCanonicalNames, Context())
    {
      result := false;
      var modifiersNode := FindFirstToken(definitionNode, Modifiers);
      if modifiersNode.Some? {
        var annotationNode := FindFirstToken(modifiersNode.value, Annotation);
        if annotationNode.Some? {
          var annotationName := GetIdentifierName(annotationNode.value);
          result := IsExpectedName(annotationName, ignoreAnnotationCanonicalNames);
        }
      }
    }
  }

  // ---------------------------------------------------------------------
  // Properties of the specification
  // ---------------------------------------------------------------------

  /** A declaration whose MODIFIERS subtree contains LITERAL_PRIVATE is never reported. */
  lemma PrivateMemberNeverReported(definitionNode: Node, ancestors: seq<Node>, nonSharableTypes: seq<string>,
                                   ignoreAnnotations: seq<string>, ctx: ImportContext)
    requires ctx.Valid() && DeclarationOk(definitionNode, ancestors)
    requires IsPrivateMember(definitionNode)
    ensures DeclarationViolations(definitionNode, ancestors, nonSharableTypes, ignoreAnnotations, ctx) == []
  {
  }

  /**
   * A member of a class is not reported when that class, or any node above it,
   * is private, or when a METHOD_DEF encloses the class (a local class).
   */
  lemma HiddenClassMemberNeverReported(definitionNode: Node, ancestors: seq<Node>, nonSharableTypes: seq<string>,
                                       ignoreAnnotations: seq<string>, ctx: ImportContext, j: nat)
    requires ctx.Valid() && DeclarationOk(definitionNode, ancestors)
    requires ancestors[|ancestors| - 2].kind == ClassDef
    requires j <= |ancestors| - 2
    requires IsPrivateMember(ancestors[j]) || (j < |ancestors| - 2 && ancestors[j].kind == MethodDef)
    ensures DeclarationViolations(definitionNode, ancestors, nonSharableTypes, ignoreAnnotations, ctx) == []
  {
  }

  /** A declaration whose grandparent is not a class, an enum or an interface (a local variable) is never reported. */
  lemma LocalDeclarationNeverReported(definitionNode: Node, ancestors: seq<Node>, nonSharableTypes: seq<string>,
                                      ignoreAnnotations: seq<string>, ctx: ImportContext)
    requires ctx.Valid() && DeclarationOk(definitionNode, ancestors)
    requires ancestors[|ancestors| - 2].kind !in {ClassDef, EnumDef, InterfaceDef}
    ensures DeclarationViolations(definitionNode, ancestors, nonSharableTypes, ignoreAnnotations, ctx) == []
  {
  }

  /**
   * A non-private, non-ignored member of an enum or an interface is reported
   * whatever encloses that enum or interface: one violation per listed type.
   */
  lemma EnumOrInterfaceMemberReported(definitionNode: Node, ancestors: seq<Node>, nonSharableTypes: seq<string>,
                                      ignoreAnnotations: seq<string>, ctx: ImportContext)
    requires ctx.Valid() && DeclarationOk(definitionNode, ancestors)
    requires ancestors[|ancestors| - 2].kind in {EnumDef, InterfaceDef}
    requires !IsPrivateMember(definitionNode) && !IgnoredByAnnotation(definitionNode, ignoreAnnotations, ctx)
    ensures DeclarationViolations(definitionNode, ancestors, nonSharableTypes, ignoreAnnotations, ctx)
            == Violations(definitionNode.line, MemberTypes(definitionNode), ExpectedNameIn(nonSharableTypes, ctx))
  {
  }

  /**
   * An annotation written by its simple name is ignored when its qualified
   * name is both on the ignore list and imported by a single-type import, as
   * `@VisibleForTesting` with `import com.google.common.annotations.VisibleForTesting;`.
   */
  lemma {:induction false} AnnotationIgnoredThroughImport(definitionNode: Node, ancestors: seq<Node>,
                                                          nonSharableTypes: seq<string>, ignoreAnnotations: seq<string>,
                                                          ctx: ImportContext, packagePrefix: string, simpleName: string)
    requires ctx.Valid() && DeclarationOk(definitionNode, ancestors)
    requires forall i :: 0 <= i < |simpleName| ==> simpleName[i] != '.'
    requires FirstModifierAnnotation(definitionNode).Some?
    requires IdentifierName(FirstModifierAnnotation(definitionNode).value) == simpleName
    requires packagePrefix + "." + simpleName in ignoreAnnotations
    requires packagePrefix + "." + simpleName in ctx.singleTypeImports
    ensures IgnoredByAnnotation(definitionNode, ignoreAnnotations, ctx)
    ensures DeclarationViolations(definitionNode, ancestors, nonSharableTypes, ignoreAnnotations, ctx) == []
  {
    var qualified := packagePrefix + "." + simpleName;
    LastSegmentAfterDot(packagePrefix, simpleName);
    var i :| 0 <= i < |ctx.singleTypeImports| && ctx.singleTypeImports[i] == qualified;
    assert SingleTypeCandidate(qualified, simpleName, ctx);
    var j :| 0 <= j < |ignoreAnnotations| && ignoreAnnotations[j] == qualified;
    assert IsCandidate(ignoreAnnotations[j], simpleName, ctx);
    assert ExpectedName(simpleName, ignoreAnnotations, ctx);
    assert !Reported(definitionNode, ancestors, ignoreAnnotations, ctx);
  }
}
