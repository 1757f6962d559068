/**
 * Qualification of a type or annotation name through the file's package and
 * imports, shared by isExpectedName (NonSharableTypeCheck) and
 * isNonAccessibleType (NonAccessibleTypeCheck).
 *
 * A name `t` as written stands for any of these fully qualified forms:
 *   1. `t` itself;
 *   2. `p.t` for each on-demand import `p.*` (the `*` replaced by `t`);
 *   3. each single-type import whose text after the last dot is `t`;
 *   4. `package.t`.
 */
module Qualify {
  import opened Names

  /** The per-file context: imports sorted by isOnDemandImport, and the package name. */
  datatype ImportContext = ImportContext(onDemandImports: seq<string>, singleTypeImports: seq<string>, packageName: string)
  {
    predicate Valid()
    {
      && (forall i :: 0 <= i < |onDemandImports| ==> IsOnDemandImport(onDemandImports[i]))
      && (forall i :: 0 <= i < |singleTypeImports| ==> !IsOnDemandImport(singleTypeImports[i]))
    }
  }

  /** `c` is `t` joined with one of the on-demand imports. */
  predicate OnDemandCandidate(c: string, t: string, ctx: ImportContext)
    requires ctx.Valid()
  {
    exists i :: 0 <= i < |ctx.onDemandImports| && c == JoinOnDemandImportWithIdentifier(ctx.onDemandImports[i], t)
  }

  /** `c` is a single-type import whose last segment is `t`. */
  predicate SingleTypeCandidate(c: string, t: string, ctx: ImportContext)
  {
    exists i :: 0 <= i < |ctx.singleTypeImports| && LastSegment(ctx.singleTypeImports[i]) == t && c == ctx.singleTypeImports[i]
  }

  /** `c` is one of the fully qualified forms the name `t` stands for. */
  predicate IsCandidate(c: string, t: string, ctx: ImportContext)
    requires ctx.Valid()
  {
    || c == t
    || OnDemandCandidate(c, t, ctx)
    || SingleTypeCandidate(c, t, ctx)
    || c == ctx.packageName + "." + t
  }

  /** What isExpectedName is specified to return: some entry of the list is a qualified form of the name. */
  predicate ExpectedName(memberName: string, listWithNames: seq<string>, ctx: ImportContext)
    requires ctx.Valid()
  {
    exists j :: 0 <= j < |listWithNames| && IsCandidate(listWithNames[j], memberName, ctx)
  }

  /**
   * `accept` holds of one of the qualified forms of `t`, tried in the order
   * isNonAccessibleType tries them.
   */
  predicate SomeCandidateAccepted(t: string, ctx: ImportContext, accept: string -> bool)
    requires ctx.Valid()
  {
    || accept(t)
    || (exists i :: 0 <= i < |ctx.onDemandImports| && accept(JoinOnDemandImportWithIdentifier(ctx.onDemandImports[i], t)))
    || (exists i :: 0 <= i < |ctx.singleTypeImports| && LastSegment(ctx.singleTypeImports[i]) == t && accept(ctx.singleTypeImports[i]))
    || accept(ctx.packageName + "." + t)
  }

  /** A form accepted by trying them one by one is a qualified form of the name. */
  lemma {:induction false} SomeCandidateAcceptedSound(t: string, ctx: ImportContext, accept: string -> bool)
    requires ctx.Valid()
    requires SomeCandidateAccepted(t, ctx, accept)
    ensures exists c :: IsCandidate(c, t, ctx) && accept(c)
  {
    if accept(t) {
      assert IsCandidate(t, t, ctx);
    } else if exists i :: 0 <= i < |ctx.onDemandImports| && accept(JoinOnDemandImportWithIdentifier(ctx.onDemandImports[i], t)) {
      var i :| 0 <= i < |ctx.onDemandImports| && accept(JoinOnDemandImportWithIdentifier(ctx.onDemandImports[i], t));
      var c := JoinOnDemandImportWithIdentifier(ctx.onDemandImports[i], t);
      assert OnDemandCandidate(c, t, ctx);
      assert IsCandidate(c, t, ctx) && accept(c);
    } else if exists i :: 0 <= i < |ctx.singleTypeImports| && LastSegment(ctx.singleTypeImports[i]) == t && accept(ctx.singleTypeImports[i]) {
      var i :| 0 <= i < |ctx.singleTypeImports| && LastSegment(ctx.singleTypeImports[i]) == t && accept(ctx.singleTypeImports[i]);
      var c := ctx.singleTypeImports[i];
      assert SingleTypeCandidate(c, t, ctx);
      assert IsCandidate(c, t, ctx) && accept(c);
    } else {
      var c := ctx.packageName + "." + t;
      assert IsCandidate(c, t, ctx) && accept(c);
    }
  }

  /** Every accepted qualified form of the name is found by trying the forms one by one. */
  lemma {:induction false} SomeCandidateAcceptedComplete(c: string, t: string, ctx: ImportContext, accept: string -> bool)
    requires ctx.Valid()
    requires IsCandidate(c, t, ctx) && accept(c)
    ensures SomeCandidateAccepted(t, ctx, accept)
  {
    if OnDemandCandidate(c, t, ctx) {
      var i :| 0 <= i < |ctx.onDemandImports| && c == JoinOnDemandImportWithIdentifier(ctx.onDemandImports[i], t);
      assert accept(JoinOnDemandImportWithIdentifier(ctx.onDemandImports[i], t));
    } else if SingleTypeCandidate(c, t, ctx) {
      var i :| 0 <= i < |ctx.singleTypeImports| && LastSegment(ctx.singleTypeImports[i]) == t && c == ctx.singleTypeImports[i];
      assert accept(ctx.singleTypeImports[i]);
    }
  }

  /** Trying the forms one by one is the same as asking whether some qualified form is accepted. */
  lemma {:induction false} SomeCandidateAcceptedIff(t: string, ctx: ImportContext, accept: string -> bool)
    requires ctx.Valid()
    ensures SomeCandidateAccepted(t, ctx, accept) <==> exists c :: IsCandidate(c, t, ctx) && accept(c)
  {
    if SomeCandidateAccepted(t, ctx, accept) {
      SomeCandidateAcceptedSound(t, ctx, accept);
    }
    if exists c :: IsCandidate(c, t, ctx) && accept(c) {
      var c :| IsCandidate(c, t, ctx) && accept(c);
      SomeCandidateAcceptedComplete(c, t, ctx, accept);
    }
  }

  /** The exact-name list check is the pattern check with "is in the list" as the pattern. */
  lemma {:induction false} ExpectedNameIsListPattern(memberName: string, listWithNames: seq<string>, ctx: ImportContext)
    requires ctx.Valid()
    ensures ExpectedName(memberName, listWithNames, ctx) <==> SomeCandidateAccepted(memberName, ctx, c => c in listWithNames)
  {
    SomeCandidateAcceptedIff(memberName, ctx, c => c in listWithNames);
    if ExpectedName(memberName, listWithNames, ctx) {
      var j :| 0 <= j < |listWithNames| && IsCandidate(listWithNames[j], memberName, ctx);
      assert (c => c in listWithNames)(listWithNames[j]);
    }
  }

  /**
   * A list entry without a dot is a qualified form of `t` only when it is `t`
   * itself: an on-demand join and a package join always contain a dot, and a
   * dot-free single-type import is its own last segment.
   */
  lemma {:induction false} SimpleNameMatchesOnlyItself(c: string, t: string, ctx: ImportContext)
    requires ctx.Valid()
    requires forall i :: 0 <= i < |c| ==> c[i] != '.'
    ensures IsCandidate(c, t, ctx) <==> c == t
  {
    forall i | 0 <= i < |ctx.onDemandImports|
      ensures c != JoinOnDemandImportWithIdentifier(ctx.onDemandImports[i], t)
    {
      var p := ctx.onDemandImports[i];
      assert JoinOnDemandImportWithIdentifier(p, t)[|p| - 2] == '.';
    }
    if SingleTypeCandidate(c, t, ctx) {
      LastSegmentOfSimpleName(c);
    }
    var withPackage := ctx.packageName + "." + t;
    assert withPackage[|ctx.packageName|] == '.';
  }

  /**
   * `pkg.t` is a qualified form of the simple name `t` only through an import
   * or the file's own package: there is no implicit `java.lang.*`.
   */
  lemma {:induction false} QualifiedFormNeedsImport(pkg: string, t: string, ctx: ImportContext)
    requires ctx.Valid()
    requires forall i :: 0 <= i < |ctx.onDemandImports| ==> ctx.onDemandImports[i] != pkg + ".*"
    requires forall i :: 0 <= i < |ctx.singleTypeImports| ==> ctx.singleTypeImports[i] != pkg + "." + t
    requires ctx.packageName != pkg
    ensures !IsCandidate(pkg + "." + t, t, ctx)
    ensures !ExpectedName(t, [pkg + "." + t], ctx)
  {
    var c := pkg + "." + t;
    assert |c| > |t|;
    forall i | 0 <= i < |ctx.onDemandImports|
      ensures c != JoinOnDemandImportWithIdentifier(ctx.onDemandImports[i], t)
    {
      var imp := ctx.onDemandImports[i];
      var head := imp[..|imp| - 2];
      assert imp == head + ".*";
      assert JoinOnDemandImportWithIdentifier(imp, t) == head + "." + t;
      assert (head + "." + t)[..|head|] == head;
    }
    var withPackage := ctx.packageName + "." + t;
    assert withPackage[..|ctx.packageName|] == ctx.packageName;
    assert [c][0] == c;
  }
}
