/**
 * Names as the two checks read them off the tree: the dotted name of a
 * package, import, annotation or type (getIdentifierName), the type names a
 * declaration mentions (collectMemberTypes), and the string helpers used to
 * qualify names through imports (isOnDemandImport,
 * joinOnDemandImportWithIdentifier, and String.lastIndexOf/substring).
 */
module Names {
  import opened Ast

  // ---------------------------------------------------------------------
  // String helpers
  // ---------------------------------------------------------------------

  /** String.lastIndexOf(c): the last position holding `c`, or -1. */
  function LastIndexOf(s: string, c: char): (k: int)
    ensures -1 <= k < |s|
    ensures k >= 0 ==> s[k] == c
    ensures forall j :: k < j < |s| ==> s[j] != c
  {
    if |s| == 0 then -1
    else if s[|s| - 1] == c then |s| - 1
    else LastIndexOf(s[..|s| - 1], c)
  }

  /** `s.substring(s.lastIndexOf(".") + 1)`: the text after the last dot. */
  function LastSegment(s: string): (r: string)
    ensures |r| <= |s| && s[|s| - |r|..] == r
    ensures forall j :: 0 <= j < |r| ==> r[j] != '.'
    ensures |r| == |s| || s[|s| - |r| - 1] == '.'
  {
    var k := LastIndexOf(s, '.');
    SuffixAt(s, k + 1);
    s[k + 1..]
  }

  lemma SuffixAt(s: string, i: nat)
    requires i <= |s|
    ensures forall j :: 0 <= j < |s| - i ==> s[i..][j] == s[i + j]
  {
  }

  /** The text after the dot that precedes a dot-free tail is that tail. */
  lemma {:induction false} LastSegmentAfterDot(a: string, b: string)
    requires forall i :: 0 <= i < |b| ==> b[i] != '.'
    ensures LastSegment(a + "." + b) == b
  {
    var s := a + "." + b;
    assert s[|a|] == '.';
    assert forall j :: |a| < j < |s| ==> s[j] == b[j - |a| - 1];
    assert LastIndexOf(s, '.') == |a|;
    assert s[|a| + 1..] == b;
  }

  /** A dot-free name is its own last segment. */
  lemma {:induction false} LastSegmentOfSimpleName(s: string)
    requires forall i :: 0 <= i < |s| ==> s[i] != '.'
    ensures LastSegment(s) == s
  {
    assert LastIndexOf(s, '.') == -1;
  }

  /** isOnDemandImport: the import name ends with ".*". */
  predicate IsOnDemandImport(importName: string)
  {
    |importName| >= 2 && importName[|importName| - 2..] == ".*"
  }

  /** joinOnDemandImportWithIdentifier: the entry without its last character, then the identifier. */
  function JoinOnDemandImportWithIdentifier(importEntry: string, identifierName: string): string
    requires |importEntry| >= 1
  {
    importEntry[..|importEntry| - 1] + identifierName
  }

  /** Segments joined by dots: ["java", "util", "List"] gives "java.util.List". */
  function JoinDots(segs: seq<string>): string
    requires |segs| >= 1
  {
    if |segs| == 1 then segs[0] else JoinDots(segs[..|segs| - 1]) + "." + segs[|segs| - 1]
  }

  /** Joining an on-demand import `p.*` with `t` gives the qualified name `p.t`. */
  lemma {:induction false} OnDemandJoinQualifies(prefix: seq<string>, t: string)
    requires |prefix| >= 1
    ensures IsOnDemandImport(JoinDots(prefix + ["*"]))
    ensures JoinOnDemandImportWithIdentifier(JoinDots(prefix + ["*"]), t) == JoinDots(prefix + [t])
  {
    var withStar, withT := prefix + ["*"], prefix + [t];
    assert withStar[..|withStar| - 1] == prefix == withT[..|withT| - 1];
    var s := JoinDots(withStar);
    assert s == JoinDots(prefix) + ".*";
    assert s[..|s| - 1] == JoinDots(prefix) + ".";
  }

  /** The last segment of a dotted name made of dot-free segments is its last segment. */
  lemma {:induction false} LastSegmentOfJoinDots(segs: seq<string>)
    requires |segs| >= 1
    requires forall i, j :: 0 <= i < |segs| && 0 <= j < |segs[i]| ==> segs[i][j] != '.'
    ensures LastSegment(JoinDots(segs)) == segs[|segs| - 1]
  {
    if |segs| > 1 {
      LastSegmentAfterDot(JoinDots(segs[..|segs| - 1]), segs[|segs| - 1]);
    } else {
      LastSegmentOfSimpleName(segs[0]);
    }
  }

  // ---------------------------------------------------------------------
  // getIdentifierName
  // ---------------------------------------------------------------------

  /** Every DOT on the left spine has a first and a last child. */
  predicate DotSpineOk(d: Node)
  {
    d.kind == Dot ==> |d.children| >= 1 && DotSpineOk(d.children[0])
  }

  /** A left-nested DOT tree read back as text: the left part, a dot, the last child's text. */
  function DotName(d: Node): string
    requires DotSpineOk(d)
  {
    if d.kind == Dot then DotName(d.children[0]) + "." + d.children[|d.children| - 1].text
    else d.text
  }

  /** getIdentifierName finds an IDENT child, or a DOT child with a sound spine, or some first child. */
  predicate NameOk(n: Node)
  {
    match FindFirstToken(n, Ident)
    case Some(_) => true
    case None =>
      match FindFirstToken(n, Dot)
      case Some(d) => DotSpineOk(d)
      case None => |n.children| >= 1
  }

  /** The name getIdentifierName is specified to return. */
  function IdentifierName(n: Node): string
    requires NameOk(n)
  {
    match FindFirstToken(n, Ident)
    case Some(id) => id.text
    case None =>
      match FindFirstToken(n, Dot)
      case Some(d) => DotName(d)
      case None => n.children[0].text
  }

  /** getIdentifierName: IDENT text; else the DOT chain built right to left; else the first child's text. */
  method GetIdentifierName(identifierNode: Node) returns (result: string)
    requires NameOk(identifierNode)
    ensures result == IdentifierName(identifierNode)
  {
    var identNode := FindFirstToken(identifierNode, Ident);
    var dotNode := FindFirstToken(identifierNode, Dot);
    if identNode.Some? {
      result := identNode.value.text;
    } else if dotNode.Some? {
      var builder := "";
      var current := dotNode.value;
      while current.kind == Dot
        invariant DotSpineOk(current)
        invariant DotName(dotNode.value) == DotName(current) + builder
        decreases current
      {
        builder := "." + current.children[|current.children| - 1].text + builder;
        current := current.children[0];
      }
      result := current.text + builder;
    } else {
      result := identifierNode.children[0].text;
    }
  }

  /** The left-nested DOT tree the parser builds for a dotted name, with IDENT leaves. */
  function DotChain(segs: seq<string>, line: int): Node
    requires |segs| >= 1
  {
    if |segs| == 1 then Leaf(Ident, segs[0], line)
    else Node(Dot, ".", line, [DotChain(segs[..|segs| - 1], line), Leaf(Ident, segs[|segs| - 1], line)])
  }

  /** Flattening a DOT chain gives back its segments joined by dots. */
  lemma {:induction false} DotNameOfChain(segs: seq<string>, line: int)
    requires |segs| >= 1
    ensures DotSpineOk(DotChain(segs, line))
    ensures DotName(DotChain(segs, line)) == JoinDots(segs)
  {
    if |segs| > 1 {
      DotNameOfChain(segs[..|segs| - 1], line);
    }
  }

  // ---------------------------------------------------------------------
  // collectMemberTypes
  // ---------------------------------------------------------------------

  /** A TYPE_ARGUMENT has a readable name; other siblings are skipped. */
  predicate ArgumentOk(n: Node)
  {
    n.kind == TypeArgument ==> NameOk(n)
  }

  /** Every TYPE_ARGUMENT among `cs` has a readable name. */
  predicate TypeArgumentsOk(cs: seq<Node>)
  {
    forall i :: 0 <= i < |cs| ==> ArgumentOk(cs[i])
  }

  /**
   * collectMemberTypes finds a TYPE child; when it has other than one child,
   * that includes a non-empty TYPE_ARGUMENTS child.
   */
  predicate TypeOk(definitionNode: Node)
  {
    match FindFirstToken(definitionNode, Type)
    case None => false
    case Some(t) =>
      if |t.children| == 1 then NameOk(t)
      else
        match FindFirstToken(t, TypeArguments)
        case None => false
        case Some(ta) => |ta.children| >= 1 && TypeArgumentsOk(ta.children[..|ta.children| - 1])
  }

  /** The names of the TYPE_ARGUMENT nodes among `cs`, in order. */
  function TypeArgumentNames(cs: seq<Node>): seq<string>
    requires TypeArgumentsOk(cs)
  {
    if |cs| == 0 then []
    else
      var init, last := cs[..|cs| - 1], cs[|cs| - 1];
      assert forall i :: 0 <= i < |init| ==> init[i] == cs[i];
      TypeArgumentNames(init) + (if last.kind == TypeArgument then [IdentifierName(last)] else [])
  }

  /**
   * The type names collectMemberTypes is specified to return: the TYPE's own
   * name when it has a single child, otherwise the type arguments' names
   * (all siblings but the last, never the base type).
   */
  function MemberTypes(definitionNode: Node): seq<string>
    requires TypeOk(definitionNode)
  {
    var t := FindFirstToken(definitionNode, Type).value;
    if |t.children| == 1 then [IdentifierName(t)]
    else
      var args := FindFirstToken(t, TypeArguments).value.children;
      TypeArgumentNames(args[..|args| - 1])
  }

  /** collectMemberTypes: one name for a plain type, one per type argument for a generic one. */
  method CollectMemberTypes(definitionNode: Node) returns (memberTypes: seq<string>)
    requires TypeOk(definitionNode)
    ensures memberTypes == MemberTypes(definitionNode)
  {
    memberTypes := [];
    var typeNode := FindFirstToken(definitionNode, Type).value;
    if |typeNode.children| == 1 {
      var name := GetIdentifierName(typeNode);
      memberTypes := [name];
    } else {
      var args := FindFirstToken(typeNode, TypeArguments).value.children;
      ghost var sibs := GenericArguments(definitionNode);
      var i := 0;
      while i + 1 < |args|
        invariant 0 <= i < |args|
        invariant memberTypes == TypeArgumentNames(sibs[..i])
      {
        TypeArgumentNamesStep(sibs, i);
        if args[i].kind == TypeArgument {
          var name := GetIdentifierName(args[i]);
          memberTypes := memberTypes + [name];
        }
        i := i + 1;
      }
      assert sibs[..i] == sibs;
    }
  }

  /** For a generic TYPE, the TYPE_ARGUMENTS children that collectMemberTypes walks (all but the last). */
  lemma GenericArguments(definitionNode: Node) returns (sibs: seq<Node>)
    requires TypeOk(definitionNode)
    requires |FindFirstToken(definitionNode, Type).value.children| != 1
    ensures FindFirstToken(FindFirstToken(definitionNode, Type).value, TypeArguments).Some?
    ensures var args := FindFirstToken(FindFirstToken(definitionNode, Type).value, TypeArguments).value.children;
            |args| >= 1 && sibs == args[..|args| - 1]
    ensures TypeArgumentsOk(sibs) && MemberTypes(definitionNode) == TypeArgumentNames(sibs)
  {
    var args := FindFirstToken(FindFirstToken(definitionNode, Type).value, TypeArguments).value.children;
    sibs := args[..|args| - 1];
  }

  /** One more sibling extends the collected names by that sibling's contribution. */
  lemma TypeArgumentNamesStep(cs: seq<Node>, i: nat)
    requires TypeArgumentsOk(cs) && i < |cs|
    ensures TypeArgumentsOk(cs[..i]) && TypeArgumentsOk(cs[..i + 1]) && ArgumentOk(cs[i])
    ensures TypeArgumentNames(cs[..i + 1])
            == TypeArgumentNames(cs[..i]) + (if cs[i].kind == TypeArgument then [IdentifierName(cs[i])] else [])
  {
    assert cs[..i + 1][..i] == cs[..i];
    assert forall j :: 0 <= j <= i ==> cs[..i + 1][j] == cs[j];
  }

  /** Every collected name is the name of one of the TYPE_ARGUMENT nodes: never the base type or a separator. */
  lemma {:induction false} TypeArgumentNamesSound(cs: seq<Node>, k: nat)
    requires TypeArgumentsOk(cs)
    requires k < |TypeArgumentNames(cs)|
    ensures exists j :: 0 <= j < |cs| && cs[j].kind == TypeArgument && TypeArgumentNames(cs)[k] == IdentifierName(cs[j])
  {
    var init := cs[..|cs| - 1];
    assert forall i :: 0 <= i < |init| ==> init[i] == cs[i];
    var r, ri := TypeArgumentNames(cs), TypeArgumentNames(init);
    if k < |ri| {
      TypeArgumentNamesSound(init, k);
      assert r[k] == ri[k];
      var j :| 0 <= j < |init| && init[j].kind == TypeArgument && ri[k] == IdentifierName(init[j]);
      assert cs[j] == init[j];
    } else {
      assert r[k] == IdentifierName(cs[|cs| - 1]);
    }
  }

  /** Every TYPE_ARGUMENT node contributes its name. */
  lemma {:induction false} TypeArgumentNamesComplete(cs: seq<Node>, j: nat)
    requires TypeArgumentsOk(cs)
    requires j < |cs| && cs[j].kind == TypeArgument
    ensures ArgumentOk(cs[j]) && IdentifierName(cs[j]) in TypeArgumentNames(cs)
  {
    var init := cs[..|cs| - 1];
    assert forall i :: 0 <= i < |init| ==> init[i] == cs[i];
    var r, ri := TypeArgumentNames(cs), TypeArgumentNames(init);
    assert r[..|ri|] == ri;
    if j < |init| {
      TypeArgumentNamesComplete(init, j);
      var k :| 0 <= k < |ri| && ri[k] == IdentifierName(init[j]);
      assert r[k] == ri[k];
    } else {
      assert r[|r| - 1] == IdentifierName(cs[j]);
    }
  }
}
