/** Project-wide statistics: the class aggregate and the package aggregate,
    built once from the analysed classes, and their combination into one
    coverage percentage. */
module JavaDocs {
  import opened SourceModel
  import opened DocStats

  /** The package aggregate. The model records, in order, the packages handed
      to `AddPackageDoc`; what the aggregate makes of them (its counters and
      its package list) is the function `summarize`, fixed at construction. */
  class PackagesDocStats {
    var added: seq<PackageDoc>
    const summarize: seq<PackageDoc> -> PackagesSummary

    constructor (summarize: seq<PackageDoc> -> PackagesSummary)
      ensures added == [] && this.summarize == summarize
    {
      added := [];
      this.summarize := summarize;
    }

    method AddPackageDoc(doc: PackageDoc)
      modifies this
      ensures added == old(added) + [doc]
    {
      added := added + [doc];
    }

    function Summary(): PackagesSummary
      reads this
    {
      summarize(added)
    }
  }

  /** The project percentage: the unweighted mean of the package and class
      percentages, whatever the sizes of the two aggregates. */
  function ProjectPercent(packages: MembersDocStats, classes: MembersDocStats, zeroPct: real): (p: real)
    ensures 2.0 * p == packages.DocumentedMembersPercent(zeroPct) + classes.DocumentedMembersPercent(zeroPct)
  {
    Mean(packages.DocumentedMembersPercent(zeroPct), classes.DocumentedMembersPercent(zeroPct))
  }

  class JavaDocsStats {
    /** The classes of the analysed source set, in the order the parser gives them. */
    const rootClasses: seq<ClassDoc>
    const classesDocStats: ClassesDocStats
    const packagesDocStats: PackagesDocStats

    /** `classesOf` stands for the class aggregate built from the classes;
        the package aggregate receives each class's package in class order. */
    constructor (rootClasses: seq<ClassDoc>,
                 classesOf: seq<ClassDoc> -> ClassesDocStats,
                 summarizePackages: seq<PackageDoc> -> PackagesSummary)
      ensures this.rootClasses == rootClasses
      ensures classesDocStats == classesOf(rootClasses)
      ensures fresh(packagesDocStats) && packagesDocStats.summarize == summarizePackages
      ensures |packagesDocStats.added| == |rootClasses|
      ensures forall i :: 0 <= i < |rootClasses| ==> packagesDocStats.added[i] == rootClasses[i].containingPackage
    {
      this.rootClasses := rootClasses;
      classesDocStats := classesOf(rootClasses);
      var packages := JavaDocsStats.ComputePackagesDocsStats(rootClasses, summarizePackages);
      packagesDocStats := packages;
    }

    /** One `AddPackageDoc` call per class, in class order, on a fresh aggregate. */
    static method ComputePackagesDocsStats(classes: seq<ClassDoc>, summarize: seq<PackageDoc> -> PackagesSummary)
      returns (stats: PackagesDocStats)
      ensures fresh(stats) && stats.summarize == summarize
      ensures |stats.added| == |classes|
      ensures forall i :: 0 <= i < |classes| ==> stats.added[i] == classes[i].containingPackage
    {
      stats := new PackagesDocStats(summarize);
      for k := 0 to |classes|
        invariant fresh(stats) && stats.summarize == summarize
        invariant |stats.added| == k
        invariant forall i :: 0 <= i < k ==> stats.added[i] == classes[i].containingPackage
      {
        stats.AddPackageDoc(classes[k].containingPackage);
      }
    }

    function DocumentedMembersPercent(zeroPct: real): (p: real)
      reads this, packagesDocStats
      ensures 2.0 * p == packagesDocStats.Summary().stats.DocumentedMembersPercent(zeroPct)
                         + classesDocStats.stats.DocumentedMembersPercent(zeroPct)
    {
      ProjectPercent(packagesDocStats.Summary().stats, classesDocStats.stats, zeroPct)
    }

    function MembersNumber(): (n: nat)
      reads this, packagesDocStats
      ensures n == classesDocStats.stats.membersNumber + packagesDocStats.Summary().stats.membersNumber
    {
      classesDocStats.stats.membersNumber + packagesDocStats.Summary().stats.membersNumber
    }
  }

  /** Percentage over the pooled counts of both aggregates: the count-weighted
      rule the project percentage does not follow. */
  function PooledPercent(packages: MembersDocStats, classes: MembersDocStats, zeroPct: real): real
  {
    Percent(packages.documentedMembers + classes.documentedMembers,
            packages.membersNumber + classes.membersNumber, zeroPct)
  }

  /** The project percentage lies between the two component percentages, hence
      within 0..100 whenever both aggregates are consistent. */
  lemma ProjectPercentRange(packages: MembersDocStats, classes: MembersDocStats, zeroPct: real)
    requires packages.documentedMembers <= packages.membersNumber
    requires classes.documentedMembers <= classes.membersNumber
    requires 0.0 <= zeroPct <= 100.0
    ensures 0.0 <= ProjectPercent(packages, classes, zeroPct) <= 100.0
  {
    PercentRange(packages.documentedMembers, packages.membersNumber, zeroPct);
    PercentRange(classes.documentedMembers, classes.membersNumber, zeroPct);
  }

  /** Equal weighting: scaling both counters of the class aggregate by the same
      factor (more classes at the same coverage) leaves the project percentage
      unchanged. */
  lemma ProjectPercentIgnoresClassCount(packages: MembersDocStats, classes: MembersDocStats, k: nat, zeroPct: real)
    requires k > 0
    ensures var scaled := classes.(membersNumber := k * classes.membersNumber,
                                   documentedMembers := k * classes.documentedMembers);
            ProjectPercent(packages, scaled, zeroPct) == ProjectPercent(packages, classes, zeroPct)
  {
    var t, d := classes.membersNumber, classes.documentedMembers;
    if t > 0 {
      var kr, tr, dr := k as real, t as real, d as real;
      assert (k * t) as real == kr * tr;
      assert (k * d) as real == kr * dr;
      assert (kr * dr) * 100.0 / (kr * tr) == dr * 100.0 / tr;
    }
  }

  /** 100 class members at 50% and one documented package give 75%, not the
      pooled 51 out of 101. */
  lemma ProjectPercentIsNotPooled()
    ensures var packages := MembersDocStats("Packages", 1, 1, false);
            var classes := MembersDocStats("Classes", 100, 50, false);
            ProjectPercent(packages, classes, 0.0) == 75.0 &&
            PooledPercent(packages, classes, 0.0) != 75.0
  {
  }
}
