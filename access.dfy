/**
 * Visibility and reachability of a declaration: isPrivateMember, the two
 * walks up the parent chain (isAccessibleFromOutsideClass,
 * isClassDefInMethodDef) and the grandparent test that combines them
 * (isAccessibleFromOutside in one check, canAccessFromOutside in the other).
 *
 * A parent chain is a sequence of nodes, root first; `path[k]` is the node a
 * walk starts from and `path[k - 1]`, ..., `path[0]` are its parents.
 */
module Access {
  import opened Ast

  /** isPrivateMember: the node's MODIFIERS child has LITERAL_PRIVATE somewhere in its subtree. */
  predicate IsPrivateMember(definitionNode: Node)
  {
    match FindFirstToken(definitionNode, Modifiers)
    case None => false
    case Some(m) => BranchContains(m, LiteralPrivate)
  }

  /** None of `path[k]`, `path[k - 1]`, ..., `path[0]` is private. */
  predicate NoPrivateUpTo(path: seq<Node>, k: nat)
    requires k < |path|
  {
    forall j :: 0 <= j <= k ==> !IsPrivateMember(path[j])
  }

  /** Some parent of `path[k]` is a METHOD_DEF. */
  predicate EnclosedByMethod(path: seq<Node>, k: nat)
    requires k < |path|
  {
    exists j :: 0 <= j < k && path[j].kind == MethodDef
  }

  /** isAccessibleFromOutsideClass: walk from `path[k]` to the root, stopping at the first private node. */
  method IsAccessibleFromOutsideClass(path: seq<Node>, k: nat) returns (result: bool)
    requires k < |path|
    ensures result <==> NoPrivateUpTo(path, k)
  {
    result := true;
    var current: int := k;
    while current >= 0
      invariant -1 <= current <= k
      invariant forall j :: current < j <= k ==> !IsPrivateMember(path[j])
    {
      if IsPrivateMember(path[current]) {
        result := false;
        break;
      }
      current := current - 1;
    }
  }

  /** isClassDefInMethodDef: walk the parents of `path[k]`, stopping at the first METHOD_DEF. */
  method IsClassDefInMethodDef(path: seq<Node>, k: nat) returns (result: bool)
    requires k < |path|
    ensures result <==> EnclosedByMethod(path, k)
  {
    result := false;
    var currentParent: int := k - 1;
    while currentParent >= 0
      invariant -1 <= currentParent < k
      invariant forall j :: currentParent < j < k ==> path[j].kind != MethodDef
    {
      if path[currentParent].kind == MethodDef {
        result := true;
        break;
      }
      currentParent := currentParent - 1;
    }
  }

  /**
   * The declaration whose parents are `ancestors` (root first) can be reached
   * from outside: its grandparent is an enum or an interface, or a class that
   * no METHOD_DEF encloses and that, with all its parents, is not private.
   */
  predicate AccessibleFromOutside(ancestors: seq<Node>)
    requires |ancestors| >= 2
  {
    var k := |ancestors| - 2;
    var definitionNode := ancestors[k];
    || (definitionNode.kind == ClassDef && !EnclosedByMethod(ancestors, k) && NoPrivateUpTo(ancestors, k))
    || definitionNode.kind == EnumDef
    || definitionNode.kind == InterfaceDef
  }

  /** isAccessibleFromOutside / canAccessFromOutside, with Java's short-circuit order. */
  method IsAccessibleFromOutside(ancestors: seq<Node>) returns (result: bool)
    requires |ancestors| >= 2
    ensures result <==> AccessibleFromOutside(ancestors)
  {
    result := false;
    var k := |ancestors| - 2;
    var definitionNode := ancestors[k];
    var classOk := false;
    if definitionNode.kind == ClassDef {
      var inMethod := IsClassDefInMethodDef(ancestors, k);
      if !inMethod {
        classOk := IsAccessibleFromOutsideClass(ancestors, k);
      }
    }
    if classOk || definitionNode.kind == EnumDef || definitionNode.kind == InterfaceDef {
      result := true;
    }
  }

  /** The first ANNOTATION child of the declaration's MODIFIERS, if any. */
  function FirstModifierAnnotation(definitionNode: Node): Option<Node>
  {
    match FindFirstToken(definitionNode, Modifiers)
    case None => None
    case Some(m) => FindFirstToken(m, Annotation)
  }
}
