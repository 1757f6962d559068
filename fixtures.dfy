/**
 * Declarations from the checks' test inputs, built as the parser builds them,
 * and what each check logs for them.
 *
 * Shapes used (Checkstyle's tree):
 *   VARIABLE_DEF -> MODIFIERS, TYPE, IDENT, SEMI
 *   METHOD_DEF   -> MODIFIERS, TYPE, IDENT, ...
 *   MODIFIERS    -> ANNOTATION*, keyword*
 *   ANNOTATION   -> AT, IDENT | AT, DOT
 *   TYPE         -> IDENT | DOT | IDENT, TYPE_ARGUMENTS
 *   TYPE_ARGUMENTS -> GENERIC_START, TYPE_ARGUMENT, (COMMA, TYPE_ARGUMENT)*, GENERIC_END
 *   CLASS_DEF    -> MODIFIERS, ..., IDENT, OBJBLOCK
 */
module Fixtures {
  import opened Ast
  import opened Names
  import opened Access
  import opened Qualify
  import opened Reports
  import NonSharable
  import NonAccessible

  // ---------------------------------------------------------------------
  // Tree builders
  // ---------------------------------------------------------------------

  function IdentLeaf(name: string, line: int): Node
  {
    Leaf(Ident, name, line)
  }

  /** A TYPE written as a simple name. */
  function SimpleType(name: string, line: int): Node
  {
    Node(Type, name, line, [IdentLeaf(name, line)])
  }

  /** A TYPE written as a dotted name. */
  function DottedType(segs: seq<string>, line: int): Node
    requires |segs| >= 1
  {
    Node(Type, ".", line, [DotChain(segs, line)])
  }

  function TypeArg(name: string, line: int): Node
  {
    Node(TypeArgument, name, line, [IdentLeaf(name, line)])
  }

  /** A TYPE with two type arguments, `base<first, second>`. */
  function GenericType(base: string, first: string, second: string, line: int): Node
  {
    Node(Type, base, line, [
      IdentLeaf(base, line),
      Node(TypeArguments, "", line, [
        Leaf(GenericStart, "<", line), TypeArg(first, line), Leaf(Comma, ",", line),
        TypeArg(second, line), Leaf(GenericEnd, ">", line)])])
  }

  /** An annotation written by its simple name. */
  function SimpleAnnotation(name: string, line: int): Node
  {
    Node(Annotation, "", line, [Leaf(At, "@", line), IdentLeaf(name, line)])
  }

  /** A field declaration with the given MODIFIERS children. */
  function Field(line: int, modifiers: seq<Node>, typeNode: Node, name: string): Node
  {
    Node(VariableDef, "", line, [Node(Modifiers, "", line, modifiers), typeNode, IdentLeaf(name, line), Leaf(Semi, ";", line)])
  }

  /** A method declaration with the given MODIFIERS children. */
  function Method(line: int, modifiers: seq<Node>, typeNode: Node, name: string): Node
  {
    Node(MethodDef, "", line, [Node(Modifiers, "", line, modifiers), typeNode, IdentLeaf(name, line), Leaf(Other, "(", line)])
  }

  /** A class with the given MODIFIERS children and members. */
  function Class(line: int, modifiers: seq<Node>, name: string, members: seq<Node>): Node
  {
    Node(ClassDef, "", line, [Node(Modifiers, "", line, modifiers), IdentLeaf(name, line), Node(ObjBlock, "", line, members)])
  }

  // ---------------------------------------------------------------------
  // Shape facts
  // ---------------------------------------------------------------------

  /** A leaf keyword or annotation-free MODIFIERS never contains LITERAL_PRIVATE unless one of its keywords is. */
  lemma {:induction false} KeywordsNotPrivate(line: int, modifiers: seq<Node>)
    requires forall i :: 0 <= i < |modifiers| ==> modifiers[i].kind != LiteralPrivate && modifiers[i].children == []
    ensures !BranchContains(Node(Modifiers, "", line, modifiers), LiteralPrivate)
  {
    forall i | 0 <= i < |modifiers|
      ensures !BranchContains(modifiers[i], LiteralPrivate)
    {
      assert modifiers[i].children == [];
    }
  }

  lemma {:induction false} FieldShape(line: int, modifiers: seq<Node>, typeNode: Node, name: string)
    requires typeNode.kind == Type
    ensures var f := Field(line, modifiers, typeNode, name);
            && FindFirstToken(f, Modifiers) == Some(Node(Modifiers, "", line, modifiers))
            && FindFirstToken(f, Type) == Some(typeNode)
  {
    var f := Field(line, modifiers, typeNode, name);
    assert FirstIndex(f.children, Modifiers) == 0;
    assert FirstIndex(f.children[1..], Type) == 0;
  }

  /** MODIFIERS and TYPE of a method declaration. */
  lemma {:induction false} MemberShape(line: int, modifiers: seq<Node>, typeNode: Node, name: string)
    requires typeNode.kind == Type
    ensures var m := Method(line, modifiers, typeNode, name);
            && FindFirstToken(m, Modifiers) == Some(Node(Modifiers, "", line, modifiers))
            && FindFirstToken(m, Type) == Some(typeNode)
  {
    var m := Method(line, modifiers, typeNode, name);
    assert FirstIndex(m.children, Modifiers) == 0;
    assert FirstIndex(m.children[1..], Type) == 0;
  }

  lemma {:induction false} MethodShape(line: int, modifiers: seq<Node>, typeNode: Node, name: string)
    requires typeNode.kind == Type
    ensures var m := Method(line, modifiers, typeNode, name);
            && FindFirstToken(m, Modifiers) == Some(Node(Modifiers, "", line, modifiers))
            && FindFirstToken(m, Type) == Some(typeNode)
            && FindFirstToken(m, Annotation).None?
  {
    var m := Method(line, modifiers, typeNode, name);
    assert FirstIndex(m.children, Modifiers) == 0;
    assert FirstIndex(m.children[1..], Type) == 0;
  }

  /** A simple TYPE gives its one name. */
  lemma {:induction false} SimpleTypeMemberTypes(definitionNode: Node, name: string, line: int)
    requires FindFirstToken(definitionNode, Type) == Some(SimpleType(name, line))
    ensures TypeOk(definitionNode) && MemberTypes(definitionNode) == [name]
  {
    var t := SimpleType(name, line);
    assert FirstIndex(t.children, Ident) == 0;
  }

  /** A dotted TYPE gives the dotted name. */
  lemma {:induction false} DottedTypeMemberTypes(definitionNode: Node, segs: seq<string>, line: int)
    requires |segs| >= 2
    requires FindFirstToken(definitionNode, Type) == Some(DottedType(segs, line))
    ensures TypeOk(definitionNode) && MemberTypes(definitionNode) == [JoinDots(segs)]
  {
    var t := DottedType(segs, line);
    DotNameOfChain(segs, line);
    assert FirstIndex(t.children, Ident) == 1 + FirstIndex(t.children[1..], Ident) == 1;
    assert FirstIndex(t.children, Dot) == 0;
  }

  lemma {:induction false} TypeArgName(name: string, line: int)
    ensures ArgumentOk(TypeArg(name, line)) && IdentifierName(TypeArg(name, line)) == name
  {
    assert FirstIndex(TypeArg(name, line).children, Ident) == 0;
  }

  /** A separator, an argument, a separator, an argument: exactly the two arguments' names. */
  lemma {:induction false} TwoArgumentNames(gs: Node, a1: Node, c: Node, a2: Node)
    requires gs.kind != TypeArgument && c.kind != TypeArgument
    requires a1.kind == TypeArgument && a2.kind == TypeArgument && NameOk(a1) && NameOk(a2)
    ensures TypeArgumentsOk([gs, a1, c, a2])
    ensures TypeArgumentNames([gs, a1, c, a2]) == [IdentifierName(a1), IdentifierName(a2)]
  {
    assert [gs, a1, c, a2][..3] == [gs, a1, c];
    assert [gs, a1, c][..2] == [gs, a1];
    assert [gs, a1][..1] == [gs];
    assert [gs][..0] == [];
    assert TypeArgumentNames([gs]) == [];
    assert TypeArgumentNames([gs, a1]) == [IdentifierName(a1)];
    assert TypeArgumentNames([gs, a1, c]) == [IdentifierName(a1)];
  }

  /** A TYPE of a base name and two type arguments gives the two arguments' names, in order, and not the base name. */
  lemma {:induction false} GenericMemberTypes(definitionNode: Node, t: Node, gs: Node, a1: Node, c: Node, a2: Node, ge: Node)
    requires FindFirstToken(definitionNode, Type) == Some(t)
    requires |t.children| == 2 && t.children[0].kind == Ident && t.children[1].kind == TypeArguments
    requires t.children[1].children == [gs, a1, c, a2, ge]
    requires gs.kind != TypeArgument && c.kind != TypeArgument
    requires a1.kind == TypeArgument && a2.kind == TypeArgument && NameOk(a1) && NameOk(a2)
    ensures TypeOk(definitionNode) && MemberTypes(definitionNode) == [IdentifierName(a1), IdentifierName(a2)]
  {
    assert FirstIndex(t.children, TypeArguments) == 1 + FirstIndex(t.children[1..], TypeArguments) == 1;
    TwoArgumentNames(gs, a1, c, a2);
    assert [gs, a1, c, a2, ge][..4] == [gs, a1, c, a2];
  }

  /** `base<first, second>` gives the two argument names, in order, and not the base name. */
  lemma {:induction false} GenericTypeMemberTypes(definitionNode: Node, base: string, first: string, second: string, line: int)
    requires FindFirstToken(definitionNode, Type) == Some(GenericType(base, first, second, line))
    ensures TypeOk(definitionNode) && MemberTypes(definitionNode) == [first, second]
  {
    TypeArgName(first, line);
    TypeArgName(second, line);
    GenericMemberTypes(definitionNode, GenericType(base, first, second, line), Leaf(GenericStart, "<", line),
      TypeArg(first, line), Leaf(Comma, ",", line), TypeArg(second, line), Leaf(GenericEnd, ">", line));
  }

  /** The constructor of a CLASS_DEF or declaration puts MODIFIERS first. */
  lemma {:induction false} ClassShape(line: int, modifiers: seq<Node>, name: string, members: seq<Node>)
    ensures FindFirstToken(Class(line, modifiers, name, members), Modifiers) == Some(Node(Modifiers, "", line, modifiers))
  {
    assert FirstIndex(Class(line, modifiers, name, members).children, Modifiers) == 0;
  }

  /** A top-level class that is not private: its non-private fields are reachable from outside. */
  lemma {:induction false} TopLevelClassReachable(cls: Node, line: int, modifiers: seq<Node>, name: string, members: seq<Node>)
    requires cls == Class(line, modifiers, name, members)
    requires forall i :: 0 <= i < |modifiers| ==> modifiers[i].kind != LiteralPrivate && modifiers[i].children == []
    ensures AccessibleFromOutside([cls, cls.children[2]])
  {
    ClassShape(line, modifiers, name, members);
    KeywordsNotPrivate(line, modifiers);
    assert !IsPrivateMember(cls);
  }

  // ---------------------------------------------------------------------
  // InputNonAccessibleTypeCheck1: fields of a public top-level class
  // ---------------------------------------------------------------------

  const TestPackage := "com.github.sevntu.checkstyle.checks.coding"

  /** The package and the imports of the test file. */
  const Fixture1Context := ImportContext(["java.util.regex.*"], ["java.util.List", "java.util.Map", "java.lang.String"], TestPackage)

  /** The names the test's pattern lists as alternatives. */
  const Fixture1Restricted: seq<string> :=
    ["java.util.regex.Pattern", "java.util.regex.Matcher", "java.lang.String", TestPackage + ".NonAccessibleTypeCheck"]

  /**
   * A stand-in regular expression engine, not a model of java.util.regex: it
   * ignores its pattern argument and accepts exactly the four names that the
   * test's pattern, an alternation of literal names, matches in full. It is
   * only ever applied to `Fixture1Pattern`.
   */
  const Fixture1FullMatch: (string, string) -> bool := (p, s) => s in Fixture1Restricted

  const Fixture1Pattern := "java.util.regex.Pattern|java.util.regex.Matcher|java.lang.String|" + TestPackage + ".NonAccessibleTypeCheck"

  lemma Fixture1ContextValid()
    ensures Fixture1Context.Valid()
  {
    assert IsOnDemandImport("java.util.regex.*");
  }

  /** `Pattern` and `Matcher` are qualified through `import java.util.regex.*`. */
  lemma {:induction false} RegexNamesQualifiedOnDemand()
    ensures Fixture1Context.Valid()
    ensures NonAccessible.NonAccessibleType("Pattern", Some(Fixture1Pattern), Fixture1Context, Fixture1FullMatch)
    ensures NonAccessible.NonAccessibleType("Matcher", Some(Fixture1Pattern), Fixture1Context, Fixture1FullMatch)
  {
    Fixture1ContextValid();
    var imp := Fixture1Context.onDemandImports[0];
    assert JoinOnDemandImportWithIdentifier(imp, "Pattern") == Fixture1Restricted[0];
    assert JoinOnDemandImportWithIdentifier(imp, "Matcher") == Fixture1Restricted[1];
    assert Fixture1FullMatch(Fixture1Pattern, JoinOnDemandImportWithIdentifier(imp, "Pattern"));
    assert Fixture1FullMatch(Fixture1Pattern, JoinOnDemandImportWithIdentifier(imp, "Matcher"));
  }

  /** `String` is qualified through `import java.lang.String`. */
  lemma {:induction false} StringQualifiedBySingleTypeImport()
    ensures Fixture1Context.Valid()
    ensures NonAccessible.NonAccessibleType("String", Some(Fixture1Pattern), Fixture1Context, Fixture1FullMatch)
  {
    Fixture1ContextValid();
    var imp := Fixture1Context.singleTypeImports[2];
    LastSegmentAfterDot("java.lang", "String");
    assert "java.lang" + "." + "String" == imp == Fixture1Restricted[2];
    assert LastSegment(imp) == "String" && Fixture1FullMatch(Fixture1Pattern, imp);
  }

  function Keyword(k: Kind, text: string, line: int): Node
  {
    Leaf(k, text, line)
  }

  /** The parents of a member of the test file's public top-level class: the CLASS_DEF, then its OBJBLOCK. */
  function Fixture1Ancestors(member: Node): seq<Node>
  {
    var cls := Class(8, [Keyword(LiteralPublic, "public", 8)], "InputNonAccessibleTypeCheck1", [member]);
    [cls, cls.children[2]]
  }

  lemma {:induction false} Fixture1MemberReachable(member: Node)
    ensures AccessibleFromOutside(Fixture1Ancestors(member))
  {
    var mods := [Keyword(LiteralPublic, "public", 8)];
    TopLevelClassReachable(Class(8, mods, "InputNonAccessibleTypeCheck1", [member]), 8, mods, "InputNonAccessibleTypeCheck1", [member]);
  }

  /** A field that is not private and is reachable from outside logs the verdicts on its type names. */
  lemma {:induction false} VisibleFieldViolations(f: Node, ancestors: seq<Node>, pattern: Option<string>, ctx: ImportContext,
                                                  fullMatch: (string, string) -> bool, types: seq<string>)
    requires ctx.Valid() && f.kind == VariableDef && |ancestors| >= 2 && TypeOk(f) && MemberTypes(f) == types
    requires !IsPrivateMember(f) && AccessibleFromOutside(ancestors)
    ensures NonAccessible.DeclarationOk(f, ancestors)
    ensures NonAccessible.DeclarationViolations(f, ancestors, pattern, ctx, fullMatch)
            == Violations(f.line, types, NonAccessible.NonAccessibleTypeIn(pattern, ctx, fullMatch))
  {
  }

  lemma {:induction false} OneViolation(line: int, a: string, matches: string -> bool)
    requires matches(a)
    ensures Violations(line, [a], matches) == [Violation(line, a)]
  {
    assert [a][..0] == [];
  }

  lemma {:induction false} TwoViolations(line: int, a: string, b: string, matches: string -> bool)
    requires matches(a) && matches(b)
    ensures Violations(line, [a, b], matches) == [Violation(line, a), Violation(line, b)]
  {
    assert [a, b][..1] == [a];
    OneViolation(line, a, matches);
  }

  lemma {:induction false} JoinFourSegments(a: string, b: string, c: string, d: string)
    ensures JoinDots([a, b, c, d]) == a + "." + b + "." + c + "." + d
  {
    assert [a, b, c, d][..3] == [a, b, c];
    assert [a, b, c][..2] == [a, b];
    assert [a, b][..1] == [a];
    assert JoinDots([a, b]) == a + "." + b;
    assert JoinDots([a, b, c]) == a + "." + b + "." + c;
  }

  /** The DOT chain of `java.util.regex.Pattern` reads back as that name. */
  lemma {:induction false} RegexPatternName()
    ensures JoinDots(["java", "util", "regex", "Pattern"]) == "java.util.regex.Pattern"
  {
    JoinFourSegments("java", "util", "regex", "Pattern");
  }

  /** A visible field of type `base<first, second>` logs each argument the pattern accepts, in order. */
  lemma {:induction false} VisibleGenericField(line: int, modifiers: seq<Node>, base: string, first: string, second: string,
                                               name: string, ancestors: seq<Node>, pattern: Option<string>, ctx: ImportContext,
                                               fullMatch: (string, string) -> bool)
    requires |ancestors| >= 2 && ctx.Valid()
    requires forall i :: 0 <= i < |modifiers| ==> modifiers[i].kind != LiteralPrivate && modifiers[i].children == []
    requires AccessibleFromOutside(ancestors)
    requires NonAccessible.NonAccessibleType(first, pattern, ctx, fullMatch)
    requires NonAccessible.NonAccessibleType(second, pattern, ctx, fullMatch)
    ensures var f := Field(line, modifiers, GenericType(base, first, second, line), name);
            && NonAccessible.DeclarationOk(f, ancestors)
            && NonAccessible.DeclarationViolations(f, ancestors, pattern, ctx, fullMatch) == [Violation(line, first), Violation(line, second)]
  {
    var f := Field(line, modifiers, GenericType(base, first, second, line), name);
    FieldShape(line, modifiers, GenericType(base, first, second, line), name);
    GenericTypeMemberTypes(f, base, first, second, line);
    KeywordsNotPrivate(line, modifiers);
    var m := NonAccessible.NonAccessibleTypeIn(pattern, ctx, fullMatch);
    VisibleFieldViolations(f, ancestors, pattern, ctx, fullMatch, [first, second]);
    TwoViolations(line, first, second, m);
  }

  /** Line 30, `public Map <Pattern, Matcher> a;`: both type arguments are reported, the base type is not. */
  lemma {:induction false} GenericFieldReportsEachArgument()
    ensures var f := Field(30, [Keyword(LiteralPublic, "public", 30)], GenericType("Map", "Pattern", "Matcher", 30), "a");
            && Fixture1Context.Valid() && NonAccessible.DeclarationOk(f, Fixture1Ancestors(f))
            && NonAccessible.DeclarationViolations(f, Fixture1Ancestors(f), Some(Fixture1Pattern), Fixture1Context, Fixture1FullMatch)
               == [Violation(30, "Pattern"), Violation(30, "Matcher")]
  {
    var f := Field(30, [Keyword(LiteralPublic, "public", 30)], GenericType("Map", "Pattern", "Matcher", 30), "a");
    Fixture1MemberReachable(f);
    RegexNamesQualifiedOnDemand();
    VisibleGenericField(30, [Keyword(LiteralPublic, "public", 30)], "Map", "Pattern", "Matcher", "a",
      Fixture1Ancestors(f), Some(Fixture1Pattern), Fixture1Context, Fixture1FullMatch);
  }

  /** Line 13, `private Pattern testVar4;`: a private field is not reported. */
  lemma {:induction false} PrivateFieldNotReported()
    ensures var f := Field(13, [Keyword(LiteralPrivate, "private", 13)], SimpleType("Pattern", 13), "testVar4");
            && Fixture1Context.Valid() && NonAccessible.DeclarationOk(f, Fixture1Ancestors(f))
            && NonAccessible.DeclarationViolations(f, Fixture1Ancestors(f), Some(Fixture1Pattern), Fixture1Context, Fixture1FullMatch) == []
  {
    var mods := [Keyword(LiteralPrivate, "private", 13)];
    var f := Field(13, mods, SimpleType("Pattern", 13), "testVar4");
    FieldShape(13, mods, SimpleType("Pattern", 13), "testVar4");
    SimpleTypeMemberTypes(f, "Pattern", 13);
    Fixture1ContextValid();
    assert BranchContains(Node(Modifiers, "", 13, mods).children[0], LiteralPrivate);
  }

  /** A visible field whose type is written as a dotted name logs that name when the pattern accepts it. */
  lemma {:induction false} VisibleDottedField(line: int, modifiers: seq<Node>, segs: seq<string>, name: string,
                                              ancestors: seq<Node>, pattern: Option<string>, ctx: ImportContext,
                                              fullMatch: (string, string) -> bool)
    requires |segs| >= 2 && |ancestors| >= 2 && ctx.Valid()
    requires forall i :: 0 <= i < |modifiers| ==> modifiers[i].kind != LiteralPrivate && modifiers[i].children == []
    requires AccessibleFromOutside(ancestors)
    requires NonAccessible.NonAccessibleType(JoinDots(segs), pattern, ctx, fullMatch)
    ensures var f := Field(line, modifiers, DottedType(segs, line), name);
            && NonAccessible.DeclarationOk(f, ancestors)
            && NonAccessible.DeclarationViolations(f, ancestors, pattern, ctx, fullMatch) == [Violation(line, JoinDots(segs))]
  {
    var f := Field(line, modifiers, DottedType(segs, line), name);
    FieldShape(line, modifiers, DottedType(segs, line), name);
    DottedTypeMemberTypes(f, segs, line);
    KeywordsNotPrivate(line, modifiers);
    var m := NonAccessible.NonAccessibleTypeIn(pattern, ctx, fullMatch);
    VisibleFieldViolations(f, ancestors, pattern, ctx, fullMatch, [JoinDots(segs)]);
    OneViolation(line, JoinDots(segs), m);
  }

  /** Line 15, `public java.util.regex.Pattern testVar5;`: a qualified type is reported as written. */
  lemma {:induction false} QualifiedFieldReported()
    ensures var f := Field(15, [Keyword(LiteralPublic, "public", 15)], DottedType(["java", "util", "regex", "Pattern"], 15), "testVar5");
            && Fixture1Context.Valid() && NonAccessible.DeclarationOk(f, Fixture1Ancestors(f))
            && NonAccessible.DeclarationViolations(f, Fixture1Ancestors(f), Some(Fixture1Pattern), Fixture1Context, Fixture1FullMatch)
               == [Violation(15, "java.util.regex.Pattern")]
  {
    var f := Field(15, [Keyword(LiteralPublic, "public", 15)], DottedType(["java", "util", "regex", "Pattern"], 15), "testVar5");
    RegexPatternName();
    Fixture1MemberReachable(f);
    Fixture1ContextValid();
    assert Fixture1FullMatch(Fixture1Pattern, "java.util.regex.Pattern");
    VisibleDottedField(15, [Keyword(LiteralPublic, "public", 15)], ["java", "util", "regex", "Pattern"], "testVar5",
      Fixture1Ancestors(f), Some(Fixture1Pattern), Fixture1Context, Fixture1FullMatch);
  }

  /** Line 20, `String testVar9;`: a package-private field of a public class is reachable and reported. */
  lemma {:induction false} ImportedStringFieldReported()
    ensures var f := Field(20, [], SimpleType("String", 20), "testVar9");
            && Fixture1Context.Valid() && NonAccessible.DeclarationOk(f, Fixture1Ancestors(f))
            && NonAccessible.DeclarationViolations(f, Fixture1Ancestors(f), Some(Fixture1Pattern), Fixture1Context, Fixture1FullMatch)
               == [Violation(20, "String")]
  {
    var f := Field(20, [], SimpleType("String", 20), "testVar9");
    FieldShape(20, [], SimpleType("String", 20), "testVar9");
    SimpleTypeMemberTypes(f, "String", 20);
    KeywordsNotPrivate(20, []);
    Fixture1MemberReachable(f);
    StringQualifiedBySingleTypeImport();
    var m := NonAccessible.NonAccessibleTypeIn(Some(Fixture1Pattern), Fixture1Context, Fixture1FullMatch);
    VisibleFieldViolations(f, Fixture1Ancestors(f), Some(Fixture1Pattern), Fixture1Context, Fixture1FullMatch, ["String"]);
    OneViolation(20, "String", m);
  }

  // ---------------------------------------------------------------------
  // Annotated methods: the parser puts annotations under MODIFIERS
  // ---------------------------------------------------------------------

  /** MODIFIERS made of `@name` and then childless non-private keywords contain no LITERAL_PRIVATE. */
  lemma {:induction false} AnnotatedModifiersNotPrivate(line: int, name: string, modifiers: seq<Node>)
    requires |modifiers| >= 1 && modifiers[0] == SimpleAnnotation(name, line)
    requires forall i :: 1 <= i < |modifiers| ==> modifiers[i].kind != LiteralPrivate && modifiers[i].children == []
    ensures !BranchContains(Node(Modifiers, "", line, modifiers), LiteralPrivate)
  {
    var a := SimpleAnnotation(name, line);
    assert a.children[0].children == [] && a.children[1].children == [];
    assert !BranchContains(a, LiteralPrivate);
    forall i | 0 <= i < |modifiers|
      ensures !BranchContains(modifiers[i], LiteralPrivate)
    {
      if i > 0 {
        assert modifiers[i].children == [];
      }
    }
  }

  /**
   * A method whose modifiers start with `@name`: its first annotation is that
   * one, under MODIFIERS, and none of the method's own children is an ANNOTATION.
   */
  lemma {:induction false} AnnotatedMethodShape(line: int, name: string, modifiers: seq<Node>, typeName: string, methodName: string)
    requires |modifiers| >= 1 && modifiers[0] == SimpleAnnotation(name, line)
    requires forall i :: 1 <= i < |modifiers| ==> modifiers[i].kind != LiteralPrivate && modifiers[i].children == []
    ensures var m := Method(line, modifiers, SimpleType(typeName, line), methodName);
            && TypeOk(m) && MemberTypes(m) == [typeName]
            && FindFirstToken(m, Annotation).None?
            && !IsPrivateMember(m)
            && FirstModifierAnnotation(m) == Some(SimpleAnnotation(name, line))
            && FindFirstToken(SimpleAnnotation(name, line), Ident) == Some(IdentLeaf(name, line))
            && NameOk(SimpleAnnotation(name, line)) && IdentifierName(SimpleAnnotation(name, line)) == name
  {
    var a := SimpleAnnotation(name, line);
    var m := Method(line, modifiers, SimpleType(typeName, line), methodName);
    MethodShape(line, modifiers, SimpleType(typeName, line), methodName);
    SimpleTypeMemberTypes(m, typeName, line);
    AnnotatedModifiersNotPrivate(line, name, modifiers);
    assert FirstIndex(modifiers, Annotation) == 0;
    assert FirstIndex(a.children, Ident) == 1 + FirstIndex(a.children[1..], Ident) == 1;
  }

  /** `@Override public String toString()`. */
  function OverridingToString(line: int): Node
  {
    Method(line, [SimpleAnnotation("Override", line), Keyword(LiteralPublic, "public", line)], SimpleType("String", line), "toString")
  }

  lemma {:induction false} OverridingToStringShape(line: int)
    ensures var m := OverridingToString(line);
            && NonAccessible.DeclarationShapeOk(m, Fixture1Ancestors(m)) && MemberTypes(m) == ["String"]
            && !IsPrivateMember(m) && FindFirstToken(m, Annotation).None?
            && NonAccessible.HasOverrideAnnotation(m)
  {
    var m := OverridingToString(line);
    AnnotatedMethodShape(line, "Override", [SimpleAnnotation("Override", line), Keyword(LiteralPublic, "public", line)], "String", "toString");
  }

  /**
   * hasOverrideAnnotation as written does not see the `@Override` of
   * `@Override public String toString()`: the method is not private and
   * returns `String`, which InputNonAccessibleTypeCheck1's pattern restricts,
   * so the check as written reports it.
   */
  lemma {:induction false} OverridingToStringMissedAsWritten(line: int)
    ensures var m := OverridingToString(line);
            && Fixture1Context.Valid() && NonAccessible.DeclarationOk(m, Fixture1Ancestors(m))
            && !NonAccessible.HasOverrideAnnotationAsWritten(m)
            && NonAccessible.DeclarationViolations(m, Fixture1Ancestors(m), Some(Fixture1Pattern), Fixture1Context, Fixture1FullMatch)
               == [Violation(line, "String")]
  {
    var m := OverridingToString(line);
    OverridingToStringShape(line);
    StringQualifiedBySingleTypeImport();
    NonAccessible.ParserShapedMethodReportedUnlessPrivate(m, Fixture1Ancestors(m), Some(Fixture1Pattern), Fixture1Context, Fixture1FullMatch);
    OneViolation(line, "String", NonAccessible.NonAccessibleTypeIn(Some(Fixture1Pattern), Fixture1Context, Fixture1FullMatch));
  }

  /** With the intended test the same method logs nothing. */
  lemma {:induction false} OverridingToStringNotReported(line: int)
    ensures var m := OverridingToString(line);
            && Fixture1Context.Valid() && NonAccessible.DeclarationShapeOk(m, Fixture1Ancestors(m))
            && NonAccessible.IntendedDeclarationViolations(m, Fixture1Ancestors(m), Some(Fixture1Pattern), Fixture1Context, Fixture1FullMatch) == []
  {
    var m := OverridingToString(line);
    OverridingToStringShape(line);
    Fixture1ContextValid();
    NonAccessible.OverridingMethodNeverReported(m, Fixture1Ancestors(m), Some(Fixture1Pattern), Fixture1Context, Fixture1FullMatch);
  }

  // ---------------------------------------------------------------------
  // InputNonSharableTypeCheck2: methods of a public top-level class
  // ---------------------------------------------------------------------

  /** The restricted types of the test: `java.util.regex.Pattern, java.lang.String`. */
  const Fixture2Types: seq<string> := ["java.util.regex.Pattern", "java.lang.String"]

  /** The package and the four single-type imports of the test file. */
  function Fixture2Context(packageName: string): ImportContext
  {
    ImportContext([], [packageName + ".InputNonSharableTypeCheck6.myAnnotation", "com.google.common.annotations.VisibleForTesting",
                       "java.util.regex.Pattern", "java.lang.String"], packageName)
  }

  lemma {:induction false} Fixture2ContextValid(packageName: string)
    ensures Fixture2Context(packageName).Valid()
  {
    var ctx := Fixture2Context(packageName);
    var own := ".InputNonSharableTypeCheck6.myAnnotation";
    var first := packageName + own;
    assert first[|first| - 2..] == own[|own| - 2..];
    forall i | 0 <= i < |ctx.singleTypeImports|
      ensures !IsOnDemandImport(ctx.singleTypeImports[i])
    {
      if i == 0 {
        assert ctx.singleTypeImports[0] == first;
      }
    }
  }

  /** The parents of a member of the test file's public class. */
  function Fixture2Ancestors(className: string, member: Node): seq<Node>
  {
    var cls := Class(9, [Keyword(LiteralPublic, "public", 9)], className, [member]);
    [cls, cls.children[2]]
  }

  lemma {:induction false} Fixture2MemberReachable(className: string, member: Node)
    ensures AccessibleFromOutside(Fixture2Ancestors(className, member))
  {
    var mods := [Keyword(LiteralPublic, "public", 9)];
    TopLevelClassReachable(Class(9, mods, className, [member]), 9, mods, className, [member]);
  }

  /** `@VisibleForTesting public Pattern someMethod3()`. */
  function VisibleForTestingMethod(line: int): Node
  {
    Method(line, [SimpleAnnotation("VisibleForTesting", line), Keyword(LiteralPublic, "public", line)],
           SimpleType("Pattern", line), "someMethod3")
  }

  /**
   * `VisibleForTesting` stands for `com.google.common.annotations.VisibleForTesting`,
   * on the default ignore list, through the file's single-type import.
   */
  lemma {:induction false} VisibleForTestingImported(packageName: string)
    ensures Fixture2Context(packageName).Valid()
    ensures ExpectedName("VisibleForTesting", NonSharable.DefaultAnnotations, Fixture2Context(packageName))
  {
    var ctx := Fixture2Context(packageName);
    Fixture2ContextValid(packageName);
    LastSegmentAfterDot("com.google.common.annotations", "VisibleForTesting");
    assert "com.google.common.annotations" + "." + "VisibleForTesting" == ctx.singleTypeImports[1] == NonSharable.DefaultAnnotations[2];
    assert SingleTypeCandidate(NonSharable.DefaultAnnotations[2], "VisibleForTesting", ctx);
  }

  /** A method whose first annotation, written by its simple name, names an ignored annotation logs nothing. */
  lemma {:induction false} IgnoredAnnotatedMethod(line: int, name: string, modifiers: seq<Node>, typeName: string, methodName: string,
                                                  ancestors: seq<Node>, types: seq<string>, ignore: seq<string>, ctx: ImportContext)
    requires ctx.Valid() && |ancestors| >= 2
    requires |modifiers| >= 1 && modifiers[0] == SimpleAnnotation(name, line)
    requires forall i :: 1 <= i < |modifiers| ==> modifiers[i].kind != LiteralPrivate && modifiers[i].children == []
    requires ExpectedName(name, ignore, ctx)
    ensures var m := Method(line, modifiers, SimpleType(typeName, line), methodName);
            && NonSharable.DeclarationOk(m, ancestors)
            && NonSharable.IgnoredByAnnotation(m, ignore, ctx)
            && NonSharable.DeclarationViolations(m, ancestors, types, ignore, ctx) == []
  {
    AnnotatedMethodShape(line, name, modifiers, typeName, methodName);
  }

  /**
   * Lines 32-33, stated for any line: `@VisibleForTesting`, written by its simple name, is
   * qualified through `import com.google.common.annotations.VisibleForTesting;`
   * and is on the default ignore list, so the method is not reported although
   * it returns a restricted type.
   */
  lemma {:induction false} VisibleForTestingMethodIgnored(className: string, packageName: string, line: int)
    ensures var m := VisibleForTestingMethod(line);
            && Fixture2Context(packageName).Valid()
            && NonSharable.DeclarationOk(m, Fixture2Ancestors(className, m))
            && NonSharable.IgnoredByAnnotation(m, NonSharable.DefaultAnnotations, Fixture2Context(packageName))
            && NonSharable.DeclarationViolations(m, Fixture2Ancestors(className, m), Fixture2Types, NonSharable.DefaultAnnotations,
                                                 Fixture2Context(packageName)) == []
  {
    VisibleForTestingImported(packageName);
    IgnoredAnnotatedMethod(line, "VisibleForTesting", [SimpleAnnotation("VisibleForTesting", line), Keyword(LiteralPublic, "public", line)],
                           "Pattern", "someMethod3", Fixture2Ancestors(className, VisibleForTestingMethod(line)), Fixture2Types,
                           NonSharable.DefaultAnnotations, Fixture2Context(packageName));
  }

  /** Lines 27-28: `@Override public String toString()` is ignored, `Override` being on the default ignore list. */
  lemma {:induction false} OverridingMethodIgnored(className: string, packageName: string)
    ensures var m := OverridingToString(27);
            && Fixture2Context(packageName).Valid()
            && NonSharable.DeclarationOk(m, Fixture2Ancestors(className, m))
            && NonSharable.DeclarationViolations(m, Fixture2Ancestors(className, m), Fixture2Types, NonSharable.DefaultAnnotations,
                                                 Fixture2Context(packageName)) == []
  {
    var m := OverridingToString(27);
    var ctx := Fixture2Context(packageName);
    OverridingToStringShape(27);
    Fixture2ContextValid(packageName);
    assert IsCandidate(NonSharable.DefaultAnnotations[1], "Override", ctx);
    assert NonSharable.IgnoredByAnnotation(m, NonSharable.DefaultAnnotations, ctx);
  }

  /** `Pattern` stands for `java.util.regex.Pattern` through its single-type import. */
  lemma {:induction false} Fixture2PatternRestricted(packageName: string)
    ensures Fixture2Context(packageName).Valid()
    ensures ExpectedName("Pattern", Fixture2Types, Fixture2Context(packageName))
  {
    var ctx := Fixture2Context(packageName);
    Fixture2ContextValid(packageName);
    LastSegmentAfterDot("java.util.regex", "Pattern");
    assert "java.util.regex" + "." + "Pattern" == ctx.singleTypeImports[2] == Fixture2Types[0];
    assert SingleTypeCandidate(Fixture2Types[0], "Pattern", ctx);
  }

  /** Line 11: `public Pattern getTestVar()` is reported, `Pattern` being qualified by its single-type import. */
  lemma {:induction false} PatternMethodReported(className: string, packageName: string)
    ensures var m := Method(11, [Keyword(LiteralPublic, "public", 11)], SimpleType("Pattern", 11), "getTestVar");
            && Fixture2Context(packageName).Valid()
            && NonSharable.DeclarationOk(m, Fixture2Ancestors(className, m))
            && NonSharable.DeclarationViolations(m, Fixture2Ancestors(className, m), Fixture2Types, NonSharable.DefaultAnnotations,
                                                 Fixture2Context(packageName)) == [Violation(11, "Pattern")]
  {
    var mods := [Keyword(LiteralPublic, "public", 11)];
    var m := Method(11, mods, SimpleType("Pattern", 11), "getTestVar");
    Fixture2PatternRestricted(packageName);
    Fixture2MemberReachable(className, m);
    MemberShape(11, mods, SimpleType("Pattern", 11), "getTestVar");
    SharedSimpleMember(m, 11, mods, "Pattern", Fixture2Ancestors(className, m), Fixture2Types, NonSharable.DefaultAnnotations,
                       Fixture2Context(packageName));
  }

  // ---------------------------------------------------------------------
  // InputNonSharableTypeCheck1: `String` without an import
  // ---------------------------------------------------------------------

  /** The package and imports of InputNonSharableTypeCheck1: no import of `java.lang.String`. */
  const SharableFixture1Context := ImportContext(["java.util.regex.*"], ["java.util.List", "java.util.Map"], TestPackage)

  /**
   * Line 20, `String testVar9;`: the list entry `java.lang.String` is not a
   * qualified form of `String` in this file, since nothing imports it and the
   * file's package is another.
   */
  lemma {:induction false} UnimportedStringNotQualified()
    ensures SharableFixture1Context.Valid()
    ensures !ExpectedName("String", ["java.lang" + "." + "String"], SharableFixture1Context)
  {
    var ctx := SharableFixture1Context;
    assert IsOnDemandImport("java.util.regex.*");
    assert |ctx.onDemandImports[0]| != |"java.lang" + ".*"|;
    assert |ctx.singleTypeImports[0]| != |"java.lang" + "." + "String"|;
    assert |ctx.singleTypeImports[1]| != |"java.lang" + "." + "String"|;
    assert |ctx.packageName| != |"java.lang"|;
    QualifiedFormNeedsImport("java.lang", "String", ctx);
  }

  // ---------------------------------------------------------------------
  // PACKAGE_DEF and IMPORT nodes
  // ---------------------------------------------------------------------

  /** `package a.b.c;` or `import a.b.C;`: the dotted name, then the semicolon. */
  function NameDeclaration(k: Kind, segs: seq<string>, line: int): Node
    requires |segs| >= 1
  {
    Node(k, "", line, [DotChain(segs, line), Leaf(Semi, ";", line)])
  }

  /** getIdentifierName reads a dotted package or import name back as written. */
  lemma {:induction false} NameDeclarationName(k: Kind, segs: seq<string>, line: int)
    requires |segs| >= 2
    ensures NameOk(NameDeclaration(k, segs, line)) && IdentifierName(NameDeclaration(k, segs, line)) == JoinDots(segs)
  {
    var n := NameDeclaration(k, segs, line);
    DotNameOfChain(segs, line);
    assert FirstIndex(n.children, Dot) == 0;
    assert FirstIndex(n.children, Ident) == 1 + FirstIndex(n.children[1..], Ident) == 2;
  }

  lemma {:induction false} Slf4jLoggerName()
    ensures JoinDots(["org", "slf4j", "Logger"]) == "org.slf4j.Logger"
    ensures !IsOnDemandImport("org.slf4j.Logger")
  {
    assert ["org", "slf4j", "Logger"][..2] == ["org", "slf4j"] && ["org", "slf4j"][..1] == ["org"];
  }

  // ---------------------------------------------------------------------
  // InputNonSharableTypeCheck5 with the default configuration
  // ---------------------------------------------------------------------

  /** A member written with keyword modifiers only: no annotation, not private, unless a keyword says so. */
  lemma {:induction false} PlainTypedMember(d: Node, line: int, modifiers: seq<Node>, typeName: string, ancestors: seq<Node>)
    requires d.line == line && |ancestors| >= 2
    requires FindFirstToken(d, Modifiers) == Some(Node(Modifiers, "", line, modifiers))
    requires FindFirstToken(d, Type) == Some(SimpleType(typeName, line))
    requires forall i :: 0 <= i < |modifiers| ==> modifiers[i].kind != Annotation && modifiers[i].children == []
    ensures NonSharable.DeclarationOk(d, ancestors) && FirstModifierAnnotation(d).None?
    ensures MemberTypes(d) == [typeName]
  {
    SimpleTypeMemberTypes(d, typeName, line);
    assert FindFirstToken(Node(Modifiers, "", line, modifiers), Annotation).None?;
  }

  /** A reachable member without modifiers that hide it logs its one type when the list names it. */
  lemma {:induction false} SharedSimpleMember(d: Node, line: int, modifiers: seq<Node>, typeName: string, ancestors: seq<Node>,
                                              types: seq<string>, ignore: seq<string>, ctx: ImportContext)
    requires ctx.Valid() && d.line == line && |ancestors| >= 2
    requires FindFirstToken(d, Modifiers) == Some(Node(Modifiers, "", line, modifiers))
    requires FindFirstToken(d, Type) == Some(SimpleType(typeName, line))
    requires forall i :: 0 <= i < |modifiers| ==> modifiers[i].kind !in {Annotation, LiteralPrivate} && modifiers[i].children == []
    requires AccessibleFromOutside(ancestors)
    requires ExpectedName(typeName, types, ctx)
    ensures NonSharable.DeclarationOk(d, ancestors)
    ensures NonSharable.DeclarationViolations(d, ancestors, types, ignore, ctx) == [Violation(line, typeName)]
  {
    PlainTypedMember(d, line, modifiers, typeName, ancestors);
    KeywordsNotPrivate(line, modifiers);
    OneViolation(line, typeName, NonSharable.ExpectedNameIn(types, ctx));
  }

  /** With `import org.slf4j.Logger;`, the simple name `Logger` is one of the default types. */
  lemma {:induction false} LoggerIsDefaultType(packageName: string)
    ensures ImportContext([], ["org.slf4j.Logger"], packageName).Valid()
    ensures ExpectedName("Logger", NonSharable.DefaultTypes, ImportContext([], ["org.slf4j.Logger"], packageName))
  {
    var ctx := ImportContext([], ["org.slf4j.Logger"], packageName);
    Slf4jLoggerName();
    LastSegmentAfterDot("org.slf4j", "Logger");
    assert "org.slf4j" + "." + "Logger" == ctx.singleTypeImports[0] == NonSharable.DefaultTypes[2];
    assert SingleTypeCandidate(NonSharable.DefaultTypes[2], "Logger", ctx);
  }

  function LoggerField(line: int, modifiers: seq<Node>, name: string): Node
  {
    Field(line, modifiers, SimpleType("Logger", line), name)
  }

  /** The members of the test file's class, in order; the last is the nested class `TestLogger`. */
  function Fixture5Members(): seq<Node>
  {
    [ LoggerField(7, [Keyword(LiteralPrivate, "private", 7)], "log"),
      LoggerField(9, [Keyword(LiteralProtected, "protected", 9)], "log2"),
      LoggerField(11, [Keyword(LiteralPublic, "public", 11)], "log3"),
      LoggerField(13, [], "log4"),
      Method(15, [Keyword(LiteralPublic, "public", 15)], SimpleType("Logger", 15), "getLog"),
      Class(19, [Keyword(LiteralStatic, "static", 19)], "TestLogger", [LoggerField(21, [Keyword(LiteralPrivate, "private", 21)], "log")]) ]
  }

  /** The test file's public top-level class, InputNonSharableTypeCheck5 in the test. */
  function Fixture5Class(className: string): Node
  {
    Class(5, [Keyword(LiteralPublic, "public", 5)], className, Fixture5Members())
  }

  /** The parents of a member of the public top-level class: the CLASS_DEF and its OBJBLOCK. */
  function Fixture5Parents(className: string): seq<Node>
  {
    [Fixture5Class(className), Fixture5Class(className).children[2]]
  }

  /** The parents of the nested class's field. */
  function Fixture5NestedParents(className: string): seq<Node>
  {
    var nested := Fixture5Members()[5];
    Fixture5Parents(className) + [nested, nested.children[2]]
  }

  lemma {:induction false} Fixture5Reachable(className: string)
    ensures AccessibleFromOutside(Fixture5Parents(className))
  {
    TopLevelClassReachable(Fixture5Class(className), 5, [Keyword(LiteralPublic, "public", 5)], className, Fixture5Members());
  }

  /** `member` is the `i`th member of the class body, which `parents` ends with. */
  lemma {:induction false} MemberOfBody(cls: Node, i: nat)
    requires cls.kind == ClassDef && |cls.children| == 3 && i < |cls.children[2].children|
    ensures IsAncestry([cls, cls.children[2]], cls.children[2].children[i])
  {
    var p := [cls, cls.children[2]] + [cls.children[2].children[i]];
    assert p[1] == cls.children[2] && p[2] == cls.children[2].children[i];
  }

  lemma {:induction false} Fixture5Ancestry(className: string)
    ensures IsAncestry(Fixture5Parents(className), Fixture5Members()[0])
    ensures IsAncestry(Fixture5Parents(className), Fixture5Members()[1])
    ensures IsAncestry(Fixture5Parents(className), Fixture5Members()[2])
    ensures IsAncestry(Fixture5Parents(className), Fixture5Members()[3])
    ensures IsAncestry(Fixture5Parents(className), Fixture5Members()[4])
    ensures IsAncestry(Fixture5NestedParents(className), Fixture5Members()[5].children[2].children[0])
  {
    var cls := Fixture5Class(className);
    MemberOfBody(cls, 0);
    MemberOfBody(cls, 1);
    MemberOfBody(cls, 2);
    MemberOfBody(cls, 3);
    MemberOfBody(cls, 4);
    var nested := Fixture5Members()[5];
    var p := Fixture5NestedParents(className) + [nested.children[2].children[0]];
    assert p[1] == cls.children[2] && p[2] == cls.children[2].children[5] && p[3] == nested.children[2];
  }

  /** The context after the file's package and import: `import org.slf4j.Logger;` is its only import. */
  function Fixture5Context(packageName: string): ImportContext
  {
    ImportContext([], ["org.slf4j.Logger"], packageName)
  }

  /** A reachable field or method of type `Logger`, written with non-private keywords only, logs `Logger`. */
  lemma {:induction false} VisibleLoggerMember(d: Node, line: int, modifiers: seq<Node>, ancestors: seq<Node>, packageName: string)
    requires d.line == line && |ancestors| >= 2
    requires FindFirstToken(d, Modifiers) == Some(Node(Modifiers, "", line, modifiers))
    requires FindFirstToken(d, Type) == Some(SimpleType("Logger", line))
    requires forall i :: 0 <= i < |modifiers| ==> modifiers[i].kind !in {Annotation, LiteralPrivate} && modifiers[i].children == []
    requires AccessibleFromOutside(ancestors)
    ensures Fixture5Context(packageName).Valid() && NonSharable.DeclarationOk(d, ancestors)
    ensures NonSharable.DeclarationViolations(d, ancestors, NonSharable.DefaultTypes, NonSharable.DefaultAnnotations,
                                              Fixture5Context(packageName)) == [Violation(line, "Logger")]
  {
    LoggerIsDefaultType(packageName);
    SharedSimpleMember(d, line, modifiers, "Logger", ancestors, NonSharable.DefaultTypes, NonSharable.DefaultAnnotations,
                       Fixture5Context(packageName));
  }

  lemma {:induction false} Fixture5Line9(className: string, packageName: string)
    ensures Fixture5Context(packageName).Valid() && NonSharable.DeclarationOk(Fixture5Members()[1], Fixture5Parents(className))
    ensures NonSharable.DeclarationViolations(Fixture5Members()[1], Fixture5Parents(className), NonSharable.DefaultTypes,
                                              NonSharable.DefaultAnnotations, Fixture5Context(packageName)) == [Violation(9, "Logger")]
  {
    Fixture5Reachable(className);
    var mods := [Keyword(LiteralProtected, "protected", 9)];
    FieldShape(9, mods, SimpleType("Logger", 9), "log2");
    VisibleLoggerMember(Fixture5Members()[1], 9, mods, Fixture5Parents(className), packageName);
  }

  lemma {:induction false} Fixture5Line11(className: string, packageName: string)
    ensures Fixture5Context(packageName).Valid() && NonSharable.DeclarationOk(Fixture5Members()[2], Fixture5Parents(className))
    ensures NonSharable.DeclarationViolations(Fixture5Members()[2], Fixture5Parents(className), NonSharable.DefaultTypes,
                                              NonSharable.DefaultAnnotations, Fixture5Context(packageName)) == [Violation(11, "Logger")]
  {
    Fixture5Reachable(className);
    var mods := [Keyword(LiteralPublic, "public", 11)];
    FieldShape(11, mods, SimpleType("Logger", 11), "log3");
    VisibleLoggerMember(Fixture5Members()[2], 11, mods, Fixture5Parents(className), packageName);
  }

  lemma {:induction false} Fixture5Line13(className: string, packageName: string)
    ensures Fixture5Context(packageName).Valid() && NonSharable.DeclarationOk(Fixture5Members()[3], Fixture5Parents(className))
    ensures NonSharable.DeclarationViolations(Fixture5Members()[3], Fixture5Parents(className), NonSharable.DefaultTypes,
                                              NonSharable.DefaultAnnotations, Fixture5Context(packageName)) == [Violation(13, "Logger")]
  {
    Fixture5Reachable(className);
    FieldShape(13, [], SimpleType("Logger", 13), "log4");
    VisibleLoggerMember(Fixture5Members()[3], 13, [], Fixture5Parents(className), packageName);
  }

  lemma {:induction false} Fixture5Line15(className: string, packageName: string)
    ensures Fixture5Context(packageName).Valid() && NonSharable.DeclarationOk(Fixture5Members()[4], Fixture5Parents(className))
    ensures NonSharable.DeclarationViolations(Fixture5Members()[4], Fixture5Parents(className), NonSharable.DefaultTypes,
                                              NonSharable.DefaultAnnotations, Fixture5Context(packageName)) == [Violation(15, "Logger")]
  {
    Fixture5Reachable(className);
    var mods := [Keyword(LiteralPublic, "public", 15)];
    MemberShape(15, mods, SimpleType("Logger", 15), "getLog");
    VisibleLoggerMember(Fixture5Members()[4], 15, mods, Fixture5Parents(className), packageName);
  }

  /** A field declared `private Logger`, wherever it is, logs nothing. */
  lemma {:induction false} PrivateLoggerField(line: int, name: string, ancestors: seq<Node>, packageName: string)
    requires |ancestors| >= 2
    ensures var f := LoggerField(line, [Keyword(LiteralPrivate, "private", line)], name);
            && Fixture5Context(packageName).Valid() && NonSharable.DeclarationOk(f, ancestors)
            && NonSharable.DeclarationViolations(f, ancestors, NonSharable.DefaultTypes, NonSharable.DefaultAnnotations,
                                                 Fixture5Context(packageName)) == []
  {
    var mods := [Keyword(LiteralPrivate, "private", line)];
    var f := LoggerField(line, mods, name);
    LoggerIsDefaultType(packageName);
    FieldShape(line, mods, SimpleType("Logger", line), name);
    PlainTypedMember(f, line, mods, "Logger", ancestors);
    assert BranchContains(Node(Modifiers, "", line, mods).children[0], LiteralPrivate);
    NonSharable.PrivateMemberNeverReported(f, ancestors, NonSharable.DefaultTypes, NonSharable.DefaultAnnotations,
                                           Fixture5Context(packageName));
  }

  lemma {:induction false} Fixture5Line7(className: string, packageName: string)
    ensures Fixture5Context(packageName).Valid() && NonSharable.DeclarationOk(Fixture5Members()[0], Fixture5Parents(className))
    ensures NonSharable.DeclarationViolations(Fixture5Members()[0], Fixture5Parents(className), NonSharable.DefaultTypes,
                                              NonSharable.DefaultAnnotations, Fixture5Context(packageName)) == []
  {
    PrivateLoggerField(7, "log", Fixture5Parents(className), packageName);
  }

  lemma {:induction false} Fixture5Line21(className: string, packageName: string)
    ensures var f := Fixture5Members()[5].children[2].children[0];
            && Fixture5Context(packageName).Valid() && NonSharable.DeclarationOk(f, Fixture5NestedParents(className))
            && NonSharable.DeclarationViolations(f, Fixture5NestedParents(className), NonSharable.DefaultTypes,
                                                 NonSharable.DefaultAnnotations, Fixture5Context(packageName)) == []
  {
    PrivateLoggerField(21, "log", Fixture5NestedParents(className), packageName);
  }

  // ---------------------------------------------------------------------
  // The whole file, visited by a check in the default configuration
  // ---------------------------------------------------------------------

  /** The host visiting `package ...;` and `import org.slf4j.Logger;` at the start of the file. */
  method VisitFixture5Header(check: NonSharable.NonSharableTypeCheck, packageSegs: seq<string>)
    requires |packageSegs| >= 2
    requires check.Valid() && check.Context() == ImportContext([], [], "")
    modifies check`onDemandImports, check`singleTypeImports, check`packageName, check`log
    ensures check.Valid() && check.Context() == Fixture5Context(JoinDots(packageSegs)) && check.log == old(check.log)
  {
    NameDeclarationName(PackageDef, packageSegs, 1);
    check.VisitToken(NameDeclaration(PackageDef, packageSegs, 1), []);
    NameDeclarationName(Import, ["org", "slf4j", "Logger"], 3);
    Slf4jLoggerName();
    check.VisitToken(NameDeclaration(Import, ["org", "slf4j", "Logger"], 3), []);
  }

  // One method per member rather than one taking the member and its line:
  // each visit then carries only its own member's facts, which keeps every
  // proof well within the solver's resource limit.

  /** The host visiting the private field on line 7. */
  method VisitFixture5Line7(check: NonSharable.NonSharableTypeCheck, className: string, packageName: string)
    requires check.Valid() && check.Context() == Fixture5Context(packageName)
    requires check.nonSharableTypes == NonSharable.DefaultTypes
    requires check.ignoreAnnotationCanonicalNames == NonSharable.DefaultAnnotations
    modifies check`onDemandImports, check`singleTypeImports, check`packageName, check`log
    ensures check.Valid() && check.Context() == Fixture5Context(packageName)
    ensures check.nonSharableTypes == NonSharable.DefaultTypes
    ensures check.ignoreAnnotationCanonicalNames == NonSharable.DefaultAnnotations
    ensures check.log == old(check.log)
  {
    Fixture5Ancestry(className);
    Fixture5Line7(className, packageName);
    check.VisitToken(Fixture5Members()[0], Fixture5Parents(className));
  }

  /** The host visiting the protected field on line 9. */
  method VisitFixture5Line9(check: NonSharable.NonSharableTypeCheck, className: string, packageName: string)
    requires check.Valid() && check.Context() == Fixture5Context(packageName)
    requires check.nonSharableTypes == NonSharable.DefaultTypes
    requires check.ignoreAnnotationCanonicalNames == NonSharable.DefaultAnnotations
    modifies check`onDemandImports, check`singleTypeImports, check`packageName, check`log
    ensures check.Valid() && check.Context() == Fixture5Context(packageName)
    ensures check.nonSharableTypes == NonSharable.DefaultTypes
    ensures check.ignoreAnnotationCanonicalNames == NonSharable.DefaultAnnotations
    ensures check.log == old(check.log) + [Violation(9, "Logger")]
  {
    Fixture5Ancestry(className);
    Fixture5Line9(className, packageName);
    check.VisitToken(Fixture5Members()[1], Fixture5Parents(className));
  }

  /** The host visiting the public field on line 11. */
  method VisitFixture5Line11(check: NonSharable.NonSharableTypeCheck, className: string, packageName: string)
    requires check.Valid() && check.Context() == Fixture5Context(packageName)
    requires check.nonSharableTypes == NonSharable.DefaultTypes
    requires check.ignoreAnnotationCanonicalNames == NonSharable.DefaultAnnotations
    modifies check`onDemandImports, check`singleTypeImports, check`packageName, check`log
    ensures check.Valid() && check.Context() == Fixture5Context(packageName)
    ensures check.nonSharableTypes == NonSharable.DefaultTypes
    ensures check.ignoreAnnotationCanonicalNames == NonSharable.DefaultAnnotations
    ensures check.log == old(check.log) + [Violation(11, "Logger")]
  {
    Fixture5Ancestry(className);
    Fixture5Line11(className, packageName);
    check.VisitToken(Fixture5Members()[2], Fixture5Parents(className));
  }

  /** The host visiting the package-private field on line 13. */
  method VisitFixture5Line13(check: NonSharable.NonSharableTypeCheck, className: string, packageName: string)
    requires check.Valid() && check.Context() == Fixture5Context(packageName)
    requires check.nonSharableTypes == NonSharable.DefaultTypes
    requires check.ignoreAnnotationCanonicalNames == NonSharable.DefaultAnnotations
    modifies check`onDemandImports, check`singleTypeImports, check`packageName, check`log
    ensures check.Valid() && check.Context() == Fixture5Context(packageName)
    ensures check.nonSharableTypes == NonSharable.DefaultTypes
    ensures check.ignoreAnnotationCanonicalNames == NonSharable.DefaultAnnotations
    ensures check.log == old(check.log) + [Violation(13, "Logger")]
  {
    Fixture5Ancestry(className);
    Fixture5Line13(className, packageName);
    check.VisitToken(Fixture5Members()[3], Fixture5Parents(className));
  }

  /** The host visiting the public method on line 15. */
  method VisitFixture5Line15(check: NonSharable.NonSharableTypeCheck, className: string, packageName: string)
    requires check.Valid() && check.Context() == Fixture5Context(packageName)
    requires check.nonSharableTypes == NonSharable.DefaultTypes
    requires check.ignoreAnnotationCanonicalNames == NonSharable.DefaultAnnotations
    modifies check`onDemandImports, check`singleTypeImports, check`packageName, check`log
    ensures check.Valid() && check.Context() == Fixture5Context(packageName)
    ensures check.nonSharableTypes == NonSharable.DefaultTypes
    ensures check.ignoreAnnotationCanonicalNames == NonSharable.DefaultAnnotations
    ensures check.log == old(check.log) + [Violation(15, "Logger")]
  {
    Fixture5Ancestry(className);
    Fixture5Line15(className, packageName);
    check.VisitToken(Fixture5Members()[4], Fixture5Parents(className));
  }

  /** The host visiting the private field of the nested class, line 21. */
  method VisitFixture5Line21(check: NonSharable.NonSharableTypeCheck, className: string, packageName: string)
    requires check.Valid() && check.Context() == Fixture5Context(packageName)
    requires check.nonSharableTypes == NonSharable.DefaultTypes
    requires check.ignoreAnnotationCanonicalNames == NonSharable.DefaultAnnotations
    modifies check`onDemandImports, check`singleTypeImports, check`packageName, check`log
    ensures check.Valid() && check.Context() == Fixture5Context(packageName)
    ensures check.nonSharableTypes == NonSharable.DefaultTypes
    ensures check.ignoreAnnotationCanonicalNames == NonSharable.DefaultAnnotations
    ensures check.log == old(check.log)
  {
    Fixture5Ancestry(className);
    Fixture5Line21(className, packageName);
    check.VisitToken(Fixture5Members()[5].children[2].children[0], Fixture5NestedParents(className));
  }

  /**
   * The default configuration over InputNonSharableTypeCheck5: a fresh check
   * visits the package, the import and every member declaration in order,
   * and logs `Logger` on lines 9, 11, 13 and 15 only, whatever the package
   * and the class are called.
   */
  method DefaultConfigurationScenario(packageSegs: seq<string>, className: string) returns (log: seq<Violation>)
    requires |packageSegs| >= 2
    ensures log == [Violation(9, "Logger"), Violation(11, "Logger"), Violation(13, "Logger"), Violation(15, "Logger")]
  {
    var check := new NonSharable.NonSharableTypeCheck();
    check.BeginTree();
    VisitFixture5Header(check, packageSegs);
    var packageName := JoinDots(packageSegs);
    VisitFixture5Line7(check, className, packageName);
    VisitFixture5Line9(check, className, packageName);
    VisitFixture5Line11(check, className, packageName);
    VisitFixture5Line13(check, className, packageName);
    VisitFixture5Line15(check, className, packageName);
    VisitFixture5Line21(check, className, packageName);
    log := check.log;
  }
}
