/** The statistics types every counter shares, stated as the assumptions the
    rest of the model relies on:
    - a group's documented members are its non-empty comments;
    - undocumented members are the member count minus the documented ones;
    - a percentage is documented * 100 / members, and a group with no members
      gets the value `zeroPct` that the caller fixes;
    - the mean of two percentages is their arithmetic mean.
    Classes, methods and the two project-wide aggregates are represented by
    the values they report. */
module DocStats {
  import opened Seqs
  import opened SourceModel

  predicate IsNotStringEmpty(s: string) { |s| > 0 }

  /** How many of the given comments document something. */
  function DocumentedCount(comments: seq<string>): (n: nat)
    ensures n <= |comments|
    ensures n == |comments| <==> forall i :: 0 <= i < |comments| ==> comments[i] != ""
  {
    CountAll(comments, IsNotStringEmpty);
    Count(comments, IsNotStringEmpty)
  }

  /** Coverage percentage of `documented` out of `total`; `zeroPct` when `total` is zero. */
  function Percent(documented: int, total: nat, zeroPct: real): (p: real)
    ensures total > 0 ==> p * (total as real) == (documented as real) * 100.0
    ensures total == 0 ==> p == zeroPct
  {
    if total == 0 then zeroPct else (documented as real) * 100.0 / (total as real)
  }

  /** A factor of a non-negative product whose other factor is positive is non-negative. */
  lemma NonNegativeFactor(a: real, b: real)
    requires b > 0.0 && a * b >= 0.0
    ensures a >= 0.0
  {
  }

  lemma PercentRange(documented: int, total: nat, zeroPct: real)
    requires 0 <= documented <= total
    requires 0.0 <= zeroPct <= 100.0
    ensures 0.0 <= Percent(documented, total, zeroPct) <= 100.0
  {
    if total > 0 {
      var p := Percent(documented, total, zeroPct);
      var t, d := total as real, documented as real;
      assert (100.0 - p) * t == 100.0 * (t - d);
      NonNegativeFactor(100.0 - p, t);
      NonNegativeFactor(p, t);
    }
  }

  /** Arithmetic mean of two values. */
  function Mean(a: real, b: real): (m: real)
    ensures m - a == b - m
  {
    (a + b) / 2.0
  }

  /** What one group of members reports: its type label, member count, documented
      count and whether it is listed even when it has no members. */
  datatype MembersDocStats = MembersDocStats(
    membersType: string,
    membersNumber: nat,
    documentedMembers: nat,
    printIfNoMembers: bool)
  {
    function UndocumentedMembers(): (u: int)
      ensures u + documentedMembers == membersNumber
    {
      membersNumber - documentedMembers
    }

    function DocumentedMembersPercent(zeroPct: real): real
    {
      Percent(documentedMembers, membersNumber, zeroPct)
    }
  }

  /** What a method or constructor reports; `percent` is computed by the
      method statistics, which are not part of this model. */
  datatype MethodDocStats = MethodDocStats(
    kind: string,
    methodName: string,
    hasDocumentation: bool,
    percent: real,
    paramsStats: MembersDocStats,
    thrownExceptions: MembersDocStats)

  /** What a class, interface or enum reports. */
  datatype ClassDocStats = ClassDocStats(
    kind: string,
    name: string,
    packageName: string,
    hasDocumentation: bool,
    percent: real,
    fieldsStats: MembersDocStats,
    constructorsStats: seq<MethodDocStats>,
    methodsStats: seq<MethodDocStats>,
    enumsStats: MembersDocStats)

  /** The project-wide class aggregate: its own counters and its classes in order. */
  datatype ClassesDocStats = ClassesDocStats(stats: MembersDocStats, classesList: seq<ClassDocStats>)

  /** The project-wide package aggregate: its own counters and its packages in order. */
  datatype PackagesSummary = PackagesSummary(stats: MembersDocStats, packagesDoc: seq<PackageDoc>)
}
