/**
 * The part of Checkstyle's syntax tree (DetailAST) that the two checks look at.
 *
 * A node has a token kind, the token's text, its source line and its ordered
 * children. The host framework also gives every node a parent; the model
 * passes the chain of parents explicitly, as a sequence of nodes from the
 * root down to the direct parent.
 */
module Ast {

  datatype Option<T> = None | Some(value: T)

  /** The token types (TokenTypes) that the checks distinguish. */
  datatype Kind =
    | PackageDef | Import | VariableDef | MethodDef
    | ClassDef | InterfaceDef | EnumDef | ObjBlock
    | Modifiers | LiteralPrivate | LiteralPublic | LiteralProtected | LiteralStatic
    | Annotation | At | Ident | Dot | Star
    | Type | TypeArguments | TypeArgument | GenericStart | GenericEnd | Comma
    | Semi | Other

  datatype Node = Node(kind: Kind, text: string, line: int, children: seq<Node>)

  /** A violation reported through the host's log: the line and the type name as written. */
  datatype Violation = Violation(line: int, typeName: string)

  /** Index of the first node of kind `k` in `cs`, or `|cs|` when there is none. */
  function FirstIndex(cs: seq<Node>, k: Kind): (i: nat)
    ensures i <= |cs|
    ensures i < |cs| ==> cs[i].kind == k
    ensures forall j :: 0 <= j < i ==> cs[j].kind != k
  {
    if |cs| == 0 then 0
    else if cs[0].kind == k then 0
    else 1 + FirstIndex(cs[1..], k)
  }

  /** DetailAST.findFirstToken: the first direct child of kind `k`, if any. */
  function FindFirstToken(n: Node, k: Kind): (r: Option<Node>)
    ensures r.None? <==> forall j :: 0 <= j < |n.children| ==> n.children[j].kind != k
    ensures r.Some? ==> r.value.kind == k
  {
    var i := FirstIndex(n.children, k);
    if i < |n.children| then Some(n.children[i]) else None
  }

  /** DetailAST.branchContains: `n` or one of its descendants has kind `k`. */
  predicate BranchContains(n: Node, k: Kind)
  {
    n.kind == k || exists i :: 0 <= i < |n.children| && BranchContains(n.children[i], k)
  }

  /** `p` is a chain of parent links: every node is a child of the one before it. */
  predicate IsPath(p: seq<Node>)
  {
    forall i :: 0 < i < |p| ==> p[i] in p[i - 1].children
  }

  /**
   * `ancestors` (root first) are the parents of `n`, the last one being its
   * direct parent. A node carries no link to its parent, so nothing here says
   * that `ancestors[0]` has none: the walks up the chain stop at it.
   */
  predicate IsAncestry(ancestors: seq<Node>, n: Node)
  {
    IsPath(ancestors + [n])
  }

  /** A node with no children (an IDENT, a keyword, a punctuation token). */
  function Leaf(k: Kind, text: string, line: int): Node
  {
    Node(k, text, line, [])
  }
}
