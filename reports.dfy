/**
 * The loop both checks end visitToken with: for each collected type name, in
 * order, log a violation on the declaration's line when the name is one the
 * check looks for (isExpectedName in one check, isNonAccessibleType in the
 * other; here a predicate `matches`).
 */
module Reports {
  import opened Ast

  /** One violation on `line` per name of `types` that `matches` accepts, in order. */
  function Violations(line: int, types: seq<string>, matches: string -> bool): seq<Violation>
  {
    if |types| == 0 then []
    else
      var last := types[|types| - 1];
      Violations(line, types[..|types| - 1], matches) + (if matches(last) then [Violation(line, last)] else [])
  }

  /** A violation is logged exactly for the accepted names, on the declaration's line. */
  lemma {:induction false} ViolationsMembership(line: int, types: seq<string>, matches: string -> bool, v: Violation)
    ensures v in Violations(line, types, matches) <==> v.line == line && v.typeName in types && matches(v.typeName)
  {
    if |types| > 0 {
      var init := types[..|types| - 1];
      ViolationsMembership(line, init, matches, v);
      assert types == init + [types[|types| - 1]];
    }
  }

  /** Violations follow the order of the names: the log of a concatenation is the concatenation of the logs. */
  lemma {:induction false} ViolationsAppend(line: int, first: seq<string>, second: seq<string>, matches: string -> bool)
    ensures Violations(line, first + second, matches) == Violations(line, first, matches) + Violations(line, second, matches)
  {
    if |second| > 0 {
      var init := second[..|second| - 1];
      assert (first + second)[..|first + second| - 1] == first + init;
      ViolationsAppend(line, first, init, matches);
    } else {
      assert first + second == first;
    }
  }

  /** When every name is accepted there is one violation per name, in order. */
  lemma {:induction false} ViolationsOfMatchingTypes(line: int, types: seq<string>, matches: string -> bool)
    requires forall i :: 0 <= i < |types| ==> matches(types[i])
    ensures var r := Violations(line, types, matches);
            |r| == |types| && forall i :: 0 <= i < |types| ==> r[i] == Violation(line, types[i])
  {
    if |types| > 0 {
      ViolationsOfMatchingTypes(line, types[..|types| - 1], matches);
    }
  }

  /** When no name is accepted nothing is logged. */
  lemma {:induction false} ViolationsOfNoMatch(line: int, types: seq<string>, matches: string -> bool)
    requires forall i :: 0 <= i < |types| ==> !matches(types[i])
    ensures Violations(line, types, matches) == []
  {
    if |types| > 0 {
      ViolationsOfNoMatch(line, types[..|types| - 1], matches);
    }
  }

  /** Two predicates that agree on the names give the same log. */
  lemma {:induction false} ViolationsAgree(line: int, types: seq<string>, m1: string -> bool, m2: string -> bool)
    requires forall i :: 0 <= i < |types| ==> m1(types[i]) == m2(types[i])
    ensures Violations(line, types, m1) == Violations(line, types, m2)
  {
    if |types| > 0 {
      ViolationsAgree(line, types[..|types| - 1], m1, m2);
    }
  }
}
