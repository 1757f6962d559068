/**
 * NonAccessibleTypeCheck: reports declared types (or generic type arguments)
 * that one configured regular expression matches in full. A field is checked
 * when it is not private and can be reached from outside; a method when it is
 * not private and its first direct ANNOTATION child is not `@Override`. The
 * parser puts annotations under MODIFIERS, so that test does not see them;
 * `IntendedDeclarationViolations` states the evidently intended behaviour,
 * which reads the first annotation under MODIFIERS instead.
 *
 * The regular expression engine (java.util.regex) is not modelled: a check
 * object is given `fullMatch(pattern, s)`, "the pattern matches all of `s`",
 * when it is created.
 */
module NonAccessible {
  import opened Ast
  import opened Names
  import opened Access
  import opened Qualify
  import opened Reports

  /** What isNonAccessibleType is specified to return: a pattern is set and matches a qualified form of `t`. */
  predicate NonAccessibleType(t: string, nonAccessibleTypes: Option<string>, ctx: ImportContext,
                              fullMatch: (string, string) -> bool)
    requires ctx.Valid()
  {
    match nonAccessibleTypes
    case None => false
    case Some(p) => SomeCandidateAccepted(t, ctx, s => fullMatch(p, s))
  }

  /** isNonAccessibleType for a fixed pattern and context, as a predicate on names. */
  function NonAccessibleTypeIn(nonAccessibleTypes: Option<string>, ctx: ImportContext,
                               fullMatch: (string, string) -> bool): string -> bool
    requires ctx.Valid()
  {
    t => NonAccessibleType(t, nonAccessibleTypes, ctx, fullMatch)
  }

  /** The pattern setNonAccessibleTypes keeps: none for an absent or empty string. */
  function PatternOf(restrictedTypes: Option<string>): (r: Option<string>)
    ensures r.None? <==> restrictedTypes.None? || restrictedTypes.value == ""
    ensures r.Some? ==> r == restrictedTypes
  {
    if restrictedTypes.Some? && restrictedTypes.value != "" then restrictedTypes else None
  }

  // ---------------------------------------------------------------------
  // hasOverrideAnnotation
  // ---------------------------------------------------------------------

  /** hasOverrideAnnotation reads the IDENT of the method's first direct ANNOTATION child, when there is one. */
  predicate OverrideAnnotationAsWrittenOk(definitionNode: Node)
  {
    match FindFirstToken(definitionNode, Annotation)
    case None => true
    case Some(a) => FindFirstToken(a, Ident).Some?
  }

  /** hasOverrideAnnotation as written: the first ANNOTATION CHILD of the method is `@Override`. */
  predicate HasOverrideAnnotationAsWritten(definitionNode: Node)
    requires OverrideAnnotationAsWrittenOk(definitionNode)
  {
    match FindFirstToken(definitionNode, Annotation)
    case None => false
    case Some(a) => FindFirstToken(a, Ident).value.text == "Override"
  }

  /**
   * hasOverrideAnnotation as intended: the first annotation of the method,
   * which the parser puts under MODIFIERS, is `@Override` written by its
   * simple name.
   */
  predicate HasOverrideAnnotation(definitionNode: Node)
  {
    match FirstModifierAnnotation(definitionNode)
    case None => false
    case Some(a) => FindFirstToken(a, Ident).Some? && FindFirstToken(a, Ident).value.text == "Override"
  }

  // ---------------------------------------------------------------------
  // visitToken
  // ---------------------------------------------------------------------

  /** A field or method with a TYPE, and a grandparent when it is a field. */
  predicate DeclarationShapeOk(definitionNode: Node, ancestors: seq<Node>)
  {
    && definitionNode.kind in {VariableDef, MethodDef}
    && TypeOk(definitionNode)
    && (definitionNode.kind == VariableDef ==> |ancestors| >= 2)
  }

  /** What visitToken reads: the shape, and for a METHOD_DEF the IDENT of a direct ANNOTATION child. */
  predicate DeclarationOk(definitionNode: Node, ancestors: seq<Node>)
  {
    && DeclarationShapeOk(definitionNode, ancestors)
    && (definitionNode.kind == MethodDef ==> OverrideAnnotationAsWrittenOk(definitionNode))
  }

  /** visitToken's test: a field must be reachable from outside, a method must fail hasOverrideAnnotation. */
  predicate Reported(definitionNode: Node, ancestors: seq<Node>)
    requires DeclarationOk(definitionNode, ancestors)
  {
    if definitionNode.kind == VariableDef then !IsPrivateMember(definitionNode) && AccessibleFromOutside(ancestors)
    else !IsPrivateMember(definitionNode) && !HasOverrideAnnotationAsWritten(definitionNode)
  }

  /** The violations that visiting a field or method declaration logs. */
  function DeclarationViolations(definitionNode: Node, ancestors: seq<Node>, nonAccessibleTypes: Option<string>,
                                 ctx: ImportContext, fullMatch: (string, string) -> bool): seq<Violation>
    requires ctx.Valid() && DeclarationOk(definitionNode, ancestors)
  {
    if Reported(definitionNode, ancestors)
    then Violations(definitionNode.line, MemberTypes(definitionNode), NonAccessibleTypeIn(nonAccessibleTypes, ctx, fullMatch))
    else []
  }

  /** The intended test: as `Reported`, but a method is skipped when its first annotation under MODIFIERS is `@Override`. */
  predicate IntendedReported(definitionNode: Node, ancestors: seq<Node>)
    requires DeclarationShapeOk(definitionNode, ancestors)
  {
    if definitionNode.kind == VariableDef then !IsPrivateMember(definitionNode) && AccessibleFromOutside(ancestors)
    else !IsPrivateMember(definitionNode) && !HasOverrideAnnotation(definitionNode)
  }

  /** The violations the check evidently means to log for a field or method declaration. */
  function IntendedDeclarationViolations(definitionNode: Node, ancestors: seq<Node>, nonAccessibleTypes: Option<string>,
                                         ctx: ImportContext, fullMatch: (string, string) -> bool): seq<Violation>
    requires ctx.Valid() && DeclarationShapeOk(definitionNode, ancestors)
  {
    if IntendedReported(definitionNode, ancestors)
    then Violations(definitionNode.line, MemberTypes(definitionNode), NonAccessibleTypeIn(nonAccessibleTypes, ctx, fullMatch))
    else []
  }

  class NonAccessibleTypeCheck {
    /** The regular expression engine: `fullMatch(p, s)` when pattern `p` matches all of `s`. */
    const fullMatch: (string, string) -> bool
    /** The compiled pattern, absent until a non-empty one is set. */
    var nonAccessibleTypes: Option<string>
    var onDemandImports: seq<string>
    var singleTypeImports: seq<string>
    var packageName: string
    /** What the check has passed to the host's log, oldest first. */
    var log: seq<Violation>

    function Context(): ImportContext
      reads this`onDemandImports, this`singleTypeImports, this`packageName
    {
      ImportContext(onDemandImports, singleTypeImports, packageName)
    }

    /** Every on-demand import ends with ".*" and no single-type import does. */
    predicate Valid()
      reads this`onDemandImports, this`singleTypeImports, this`packageName
    {
      Context().Valid()
    }

    /** A new check: no pattern, no imports, nothing logged. */
    constructor (fullMatch: (string, string) -> bool)
      ensures Valid() && this.fullMatch == fullMatch
      ensures nonAccessibleTypes == None && Context() == ImportContext([], [], "") && log == []
    {
      this.fullMatch := fullMatch;
      nonAccessibleTypes := None;
      onDemandImports := [];
      singleTypeImports := [];
      packageName := "";
      log := [];
    }

    /** setNonAccessibleTypes: a null or empty string clears the pattern, any other sets it. */
    method SetNonAccessibleTypes(restrictedTypes: Option<string>)
      modifies this`nonAccessibleTypes
      ensures nonAccessibleTypes == PatternOf(restrictedTypes)
    {
      if restrictedTypes.Some? && restrictedTypes.value != "" {
        nonAccessibleTypes := restrictedTypes;
      } else {
        nonAccessibleTypes := None;
      }
    }

    /** beginTree: forget the previous file's imports and package. */
    method BeginTree()
      modifies this`onDemandImports, this`singleTypeImports, this`packageName
      ensures Valid() && Context() == ImportContext([], [], "")
    {
      onDemandImports := [];
      singleTypeImports := [];
      packageName := "";
    }

    /** visitToken: record the package, sort an import, or check a field or method declaration. */
    method VisitToken(node: Node, ancestors: seq<Node>)
      requires Valid()
      requires node.kind == PackageDef || node.kind == Import ==> NameOk(node)
      requires node.kind == VariableDef || node.kind == MethodDef ==>
                 IsAncestry(ancestors, node) && DeclarationOk(node, ancestors)
      modifies this`onDemandImports, this`singleTypeImports, this`packageName, this`log
      ensures Valid()
      ensures node.kind == PackageDef ==>
                && Context() == old(Context()).(packageName := IdentifierName(node))
                && log == old(log)
      ensures node.kind == Import && IsOnDemandImport(IdentifierName(node)) ==>
                && Context() == old(Context()).(onDemandImports := old(onDemandImports) + [IdentifierName(node)])
                && log == old(log)
      ensures node.kind == Import && !IsOnDemandImport(IdentifierName(node)) ==>
                && Context() == old(Context()).(singleTypeImports := old(singleTypeImports) + [IdentifierName(node)])
                && log == old(log)
      ensures node.kind == VariableDef || node.kind == MethodDef ==>
                && Context() == old(Context())
                && log == old(log) + DeclarationViolations(node, ancestors, nonAccessibleTypes, old(Context()), fullMatch)
      ensures node.kind !in {PackageDef, Import, VariableDef, MethodDef} ==>
                Context() == old(Context()) && log == old(log)
    {
      match node.kind
      case PackageDef =>
        packageName := GetIdentifierName(node);
      case Import =>
        var currentImport := GetIdentifierName(node);
        if IsOnDemandImport(currentImport) {
          onDemandImports := onDemandImports + [currentImport];
        } else {
          singleTypeImports := singleTypeImports + [currentImport];
        }
      case VariableDef =>
        VisitVariable(node, ancestors);
      case MethodDef =>
        VisitMethod(node, ancestors);
      case _ =>
    }

    /** The VARIABLE_DEF branch of visitToken: types first, then the privacy and reachability tests. */
    method VisitVariable(definitionNode: Node, ancestors: seq<Node>)
      requires Valid() && definitionNode.kind == VariableDef && DeclarationOk(definitionNode, ancestors)
      modifies this`log
      ensures log == old(log) + DeclarationViolations(definitionNode, ancestors, nonAccessibleTypes, Context(), fullMatch)
    {
      var memberTypes := CollectMemberTypes(definitionNode);
      if IsPrivateMember(definitionNode) {
        assert DeclarationViolations(definitionNode, ancestors, nonAccessibleTypes, Context(), fullMatch) == [];
        return;
      }
      var accessible := IsAccessibleFromOutside(ancestors);
      if !accessible {
        assert DeclarationViolations(definitionNode, ancestors, nonAccessibleTypes, Context(), fullMatch) == [];
        return;
      }
      assert DeclarationViolations(definitionNode, ancestors, nonAccessibleTypes, Context(), fullMatch)
          == Violations(definitionNode.line, memberTypes, NonAccessibleTypeIn(nonAccessibleTypes, Context(), fullMatch));
      LogNonAccessibleTypes(definitionNode.line, memberTypes);
    }

    /** The METHOD_DEF branch of visitToken: types first, then the privacy test and hasOverrideAnnotation as written. */
    method VisitMethod(definitionNode: Node, ancestors: seq<Node>)
      requires Valid() && definitionNode.kind == MethodDef && DeclarationOk(definitionNode, ancestors)
      modifies this`log
      ensures log == old(log) + DeclarationViolations(definitionNode, ancestors, nonAccessibleTypes, Context(), fullMatch)
    {
      var memberTypes := CollectMemberTypes(definitionNode);
      MethodViolations(definitionNode, ancestors, nonAccessibleTypes, Context(), fullMatch);
      if IsPrivateMember(definitionNode) || HasOverrideAnnotationAsWritten(definitionNode) {
        return;
      }
      LogNonAccessibleTypes(definitionNode.line, memberTypes);
    }

    /** The loop of visitToken over a member's types: log each one isNonAccessibleType accepts. */
    method LogNonAccessibleTypes(line: int, memberTypes: seq<string>)
      requires Valid()
      modifies this`log
      ensures log == old(log) + Violations(line, memberTypes, NonAccessibleTypeIn(nonAccessibleTypes, Context(), fullMatch))
    {
      var i := 0;
      while i < |memberTypes|
        invariant 0 <= i <= |memberTypes|
        invariant log == old(log) + Violations(line, memberTypes[..i], NonAccessibleTypeIn(nonAccessibleTypes, Context(), fullMatch))
      {
        assert memberTypes[..i + 1][..i] == memberTypes[..i];
        var currentType := memberTypes[i];
        var nonAccessible := IsNonAccessibleType(currentType);
        if nonAccessible {
          log := log + [Violation(line, currentType)];
        }
        i := i + 1;
      }
      assert memberTypes[..i] == memberTypes;
    }

    /** isNonAccessibleType: try the name, its on-demand joins, its single-type import, its package form. */
    method IsNonAccessibleType(typeName: string) returns (result: bool)
      requires Valid()
      ensures result <==> NonAccessibleType(typeName, nonAccessibleTypes, Context(), fullMatch)
    {
      if nonAccessibleTypes.None? {
        return false;
      }
      var pattern := nonAccessibleTypes.value;
      if fullMatch(pattern, typeName) {
        return true;
      }
      var i := 0;
      while i < |onDemandImports|
        invariant 0 <= i <= |onDemandImports|
        invariant forall p :: 0 <= p < i ==> !fullMatch(pattern, JoinOnDemandImportWithIdentifier(onDemandImports[p], typeName))
      {
        var fullType := JoinOnDemandImportWithIdentifier(onDemandImports[i], typeName);
        if fullMatch(pattern, fullType) {
          return true;
        }
        i := i + 1;
      }
      i := 0;
      while i < |singleTypeImports|
        invariant 0 <= i <= |singleTypeImports|
        invariant forall p :: 0 <= p < i ==> !(LastSegment(singleTypeImports[p]) == typeName && fullMatch(pattern, singleTypeImports[p]))
      {
        var currentSingleTypeImport := singleTypeImports[i];
        var importEntryLastPart := LastSegment(currentSingleTypeImport);
        if importEntryLastPart == typeName && fullMatch(pattern, currentSingleTypeImport) {
          return true;
        }
        i := i + 1;
      }
      var fullNameWithPackage := packageName + "." + typeName;
      if fullMatch(pattern, fullNameWithPackage) {
        return true;
      }
      return false;
    }
  }

  // ---------------------------------------------------------------------
  // Properties of the specification
  // ---------------------------------------------------------------------

  /** A method logs its restricted types unless it is private or hasOverrideAnnotation flags it. */
  lemma MethodViolations(methodDef: Node, ancestors: seq<Node>, nonAccessibleTypes: Option<string>,
                         ctx: ImportContext, fullMatch: (string, string) -> bool)
    requires ctx.Valid() && methodDef.kind == MethodDef && DeclarationOk(methodDef, ancestors)
    ensures DeclarationViolations(methodDef, ancestors, nonAccessibleTypes, ctx, fullMatch)
            == if IsPrivateMember(methodDef) || HasOverrideAnnotationAsWritten(methodDef) then []
               else Violations(methodDef.line, MemberTypes(methodDef), NonAccessibleTypeIn(nonAccessibleTypes, ctx, fullMatch))
  {
  }

  /** A field logs its restricted types when it is not private and can be reached from outside, and nothing otherwise. */
  lemma FieldViolations(field: Node, ancestors: seq<Node>, nonAccessibleTypes: Option<string>,
                        ctx: ImportContext, fullMatch: (string, string) -> bool)
    requires ctx.Valid() && field.kind == VariableDef && DeclarationOk(field, ancestors)
    ensures DeclarationViolations(field, ancestors, nonAccessibleTypes, ctx, fullMatch)
            == if !IsPrivateMember(field) && AccessibleFromOutside(ancestors)
               then Violations(field.line, MemberTypes(field), NonAccessibleTypeIn(nonAccessibleTypes, ctx, fullMatch))
               else []
  {
  }

  /** With a pattern, isNonAccessibleType holds iff the pattern fully matches some qualified form of the name. */
  lemma {:induction false} NonAccessibleTypeIff(t: string, p: string, ctx: ImportContext, fullMatch: (string, string) -> bool)
    requires ctx.Valid()
    ensures NonAccessibleType(t, Some(p), ctx, fullMatch) <==> exists c :: IsCandidate(c, t, ctx) && fullMatch(p, c)
  {
    var accept := s => fullMatch(p, s);
    SomeCandidateAcceptedIff(t, ctx, accept);
    assert forall c :: accept(c) == fullMatch(p, c);
  }

  /** Without a pattern (never set, or set to null or ""), no declaration is ever reported. */
  lemma {:induction false} NoPatternNeverReports(definitionNode: Node, ancestors: seq<Node>, restrictedTypes: Option<string>,
                                                 ctx: ImportContext, fullMatch: (string, string) -> bool)
    requires ctx.Valid() && DeclarationOk(definitionNode, ancestors)
    requires restrictedTypes.None? || restrictedTypes.value == ""
    ensures DeclarationViolations(definitionNode, ancestors, PatternOf(restrictedTypes), ctx, fullMatch) == []
  {
    var types := MemberTypes(definitionNode);
    var matches := NonAccessibleTypeIn(PatternOf(restrictedTypes), ctx, fullMatch);
    ViolationsOfNoMatch(definitionNode.line, types, matches);
  }

  /**
   * A private class hides its fields but not its methods: a field is never
   * reported there, while a non-private method that hasOverrideAnnotation
   * does not flag is checked as if it were at the top level.
   */
  lemma PrivateClassHidesFieldsOnly(field: Node, methodDef: Node, ancestors: seq<Node>, nonAccessibleTypes: Option<string>,
                                    ctx: ImportContext, fullMatch: (string, string) -> bool, j: nat)
    requires ctx.Valid() && |ancestors| >= 2
    requires field.kind == VariableDef && DeclarationOk(field, ancestors)
    requires methodDef.kind == MethodDef && DeclarationOk(methodDef, ancestors)
    requires ancestors[|ancestors| - 2].kind == ClassDef
    requires j <= |ancestors| - 2 && IsPrivateMember(ancestors[j])
    requires !IsPrivateMember(methodDef) && !HasOverrideAnnotationAsWritten(methodDef)
    ensures DeclarationViolations(field, ancestors, nonAccessibleTypes, ctx, fullMatch) == []
    ensures DeclarationViolations(methodDef, ancestors, nonAccessibleTypes, ctx, fullMatch)
            == Violations(methodDef.line, MemberTypes(methodDef), NonAccessibleTypeIn(nonAccessibleTypes, ctx, fullMatch))
  {
    MethodViolations(methodDef, ancestors, nonAccessibleTypes, ctx, fullMatch);
    FieldViolations(field, ancestors, nonAccessibleTypes, ctx, fullMatch);
    assert !NoPrivateUpTo(ancestors, |ancestors| - 2) by {
      assert 0 <= j <= |ancestors| - 2 && IsPrivateMember(ancestors[j]);
    }
  }

  /** A field is reported only when it is not private and can be reached from outside. */
  lemma FieldReportedOnlyWhenReachable(field: Node, ancestors: seq<Node>, nonAccessibleTypes: Option<string>,
                                       ctx: ImportContext, fullMatch: (string, string) -> bool)
    requires ctx.Valid() && field.kind == VariableDef && DeclarationOk(field, ancestors)
    requires DeclarationViolations(field, ancestors, nonAccessibleTypes, ctx, fullMatch) != []
    ensures !IsPrivateMember(field) && AccessibleFromOutside(ancestors)
  {
  }

  /** With the intended test, a method whose first annotation is `@Override` is never reported. */
  lemma OverridingMethodNeverReported(methodDef: Node, ancestors: seq<Node>, nonAccessibleTypes: Option<string>,
                                      ctx: ImportContext, fullMatch: (string, string) -> bool)
    requires ctx.Valid() && methodDef.kind == MethodDef && DeclarationShapeOk(methodDef, ancestors)
    requires HasOverrideAnnotation(methodDef)
    ensures IntendedDeclarationViolations(methodDef, ancestors, nonAccessibleTypes, ctx, fullMatch) == []
  {
  }

  /** The intended visit differs from the code only on methods: fields are checked the same way. */
  lemma IntendedAgreesOnFields(field: Node, ancestors: seq<Node>, nonAccessibleTypes: Option<string>,
                               ctx: ImportContext, fullMatch: (string, string) -> bool)
    requires ctx.Valid() && field.kind == VariableDef && DeclarationOk(field, ancestors)
    ensures IntendedDeclarationViolations(field, ancestors, nonAccessibleTypes, ctx, fullMatch)
            == DeclarationViolations(field, ancestors, nonAccessibleTypes, ctx, fullMatch)
  {
  }

  /**
   * On a method shaped as the parser builds it, with no ANNOTATION among its
   * own children, the code as written checks every non-private method, even
   * one whose first annotation under MODIFIERS is `@Override`.
   */
  lemma {:induction false} ParserShapedMethodReportedUnlessPrivate(methodDef: Node, ancestors: seq<Node>,
                                                                   nonAccessibleTypes: Option<string>,
                                                                   ctx: ImportContext, fullMatch: (string, string) -> bool)
    requires ctx.Valid() && methodDef.kind == MethodDef && DeclarationShapeOk(methodDef, ancestors)
    requires forall j :: 0 <= j < |methodDef.children| ==> methodDef.children[j].kind != Annotation
    requires !IsPrivateMember(methodDef)
    ensures DeclarationOk(methodDef, ancestors)
    ensures DeclarationViolations(methodDef, ancestors, nonAccessibleTypes, ctx, fullMatch)
            == Violations(methodDef.line, MemberTypes(methodDef), NonAccessibleTypeIn(nonAccessibleTypes, ctx, fullMatch))
  {
    OverrideTestAsWrittenMissesModifiers(methodDef);
  }

  /**
   * The test as written never fires on a method shaped as the parser builds
   * it, with its annotations under MODIFIERS and none among its own children,
   * even when the first of them is `@Override`.
   */
  lemma {:induction false} OverrideTestAsWrittenMissesModifiers(methodDef: Node)
    requires forall j :: 0 <= j < |methodDef.children| ==> methodDef.children[j].kind != Annotation
    ensures OverrideAnnotationAsWrittenOk(methodDef) && !HasOverrideAnnotationAsWritten(methodDef)
  {
    assert FindFirstToken(methodDef, Annotation).None?;
  }

  /**
   * With a pattern that accepts exactly the names of a list, isNonAccessibleType
   * is isExpectedName of the other check: both qualify a name the same way.
   */
  lemma {:induction false} ListPatternAgreesWithExpectedName(t: string, p: string, listWithNames: seq<string>,
                                                             ctx: ImportContext, fullMatch: (string, string) -> bool)
    requires ctx.Valid()
    requires forall s :: fullMatch(p, s) <==> s in listWithNames
    ensures NonAccessibleType(t, Some(p), ctx, fullMatch) <==> ExpectedName(t, listWithNames, ctx)
  {
    NonAccessibleTypeIff(t, p, ctx, fullMatch);
    ExpectedNameIsListPattern(t, listWithNames, ctx);
    SomeCandidateAcceptedIff(t, ctx, c => c in listWithNames);
  }
}
