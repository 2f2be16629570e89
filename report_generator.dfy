/** The coverage report as a sequence of line records: which counter lines
    appear and in what order. Text formatting is not modelled; each record
    keeps the values its line prints. */
module Report {
  import opened Seqs
  import opened SourceModel
  import opened DocStats
  import JavaDocs
  import MethodExceptions
  import ClassMembers

  /** Column format of a group line under a class. */
  const DefaultColumn: string := "\t\t%-20s"
  /** Column format of a group line under a method or constructor. */
  const MethodColumn: string := "\t\t\t%-12s"

  datatype Line =
    | TotalsLine(membersType: string, membersNumber: nat, undocumented: int, documented: nat, percent: real)
    | ClassLine(kind: string, name: string, packageName: string, hasDocumentation: bool, percent: real)
    | MethodLine(kind: string, name: string, hasDocumentation: bool, percent: real)
    | MembersLine(column: string, membersType: string, membersNumber: nat, undocumented: int,
                  documented: nat, percent: real)
    | PackageLine(name: string, hasDocumentation: bool)
    | ProjectLine(percent: real)
    | BlankLine

  predicate IsTotalsLine(l: Line) { l.TotalsLine? }
  predicate IsClassLine(l: Line) { l.ClassLine? }
  predicate IsMethodLine(l: Line) { l.MethodLine? }
  predicate IsPackageLine(l: Line) { l.PackageLine? }
  predicate IsProjectLine(l: Line) { l.ProjectLine? }
  /** A group line printed directly under a class (fields, enum constants). */
  predicate IsClassGroupLine(l: Line) { l.MembersLine? && l.column == DefaultColumn }

  /** The output stream: every record written so far, in order. */
  class Writer {
    var lines: seq<Line>

    constructor ()
      ensures lines == []
    {
      lines := [];
    }

    method Write(l: Line)
      modifies this
      ensures lines == old(lines) + [l]
    {
      lines := lines + [l];
    }
  }

  // ---------------------------------------------------------------------------
  // The report, as functions of the statistics

  /** The totals line of the class or package aggregate. */
  function Totals(s: MembersDocStats, zeroPct: real): (l: Line)
    ensures l.TotalsLine? && l.membersType == s.membersType && l.membersNumber == s.membersNumber
    ensures l.documented == s.documentedMembers && l.undocumented + l.documented == l.membersNumber
    ensures l.percent == s.DocumentedMembersPercent(zeroPct)
  {
    TotalsLine(s.membersType, s.membersNumber, s.UndocumentedMembers(), s.documentedMembers,
               s.DocumentedMembersPercent(zeroPct))
  }

  /** The line of one group: absent when the group has no members and does not
      ask to be listed; an empty column format means the class-level one. */
  function MembersLines(s: MembersDocStats, memberTypeFormat: string, zeroPct: real): (ls: seq<Line>)
    ensures |ls| <= 1
    ensures ls != [] <==> s.membersNumber != 0 || s.printIfNoMembers
    ensures forall i :: 0 <= i < |ls| ==>
              ls[i].MembersLine? && ls[i].membersType == s.membersType + ":" &&
              ls[i].membersNumber == s.membersNumber && ls[i].documented == s.documentedMembers &&
              ls[i].undocumented == s.membersNumber - s.documentedMembers &&
              ls[i].percent == s.DocumentedMembersPercent(zeroPct) &&
              ls[i].column == (if memberTypeFormat == "" then DefaultColumn else memberTypeFormat)
  {
    if s.membersNumber == 0 && !s.printIfNoMembers then []
    else
      var column := if memberTypeFormat == "" then DefaultColumn else memberTypeFormat;
      [MembersLine(column, s.membersType + ":", s.membersNumber, s.UndocumentedMembers(),
                   s.documentedMembers, s.DocumentedMembersPercent(zeroPct))]
  }

  function MethodHeader(m: MethodDocStats): Line
  {
    MethodLine(m.kind, m.methodName, m.hasDocumentation, m.percent)
  }

  /** One method: its header, its parameters group (subject to the group rule
      alone) and its exceptions group (only when it declares exceptions). */
  function MethodLines(m: MethodDocStats, zeroPct: real): (ls: seq<Line>)
    ensures |ls| == 1 + (if m.paramsStats.membersNumber != 0 || m.paramsStats.printIfNoMembers then 1 else 0)
                      + (if m.thrownExceptions.membersNumber > 0 then 1 else 0)
    ensures ls[0] == MethodHeader(m)
    ensures forall i :: 0 < i < |ls| ==> ls[i].MembersLine? && ls[i].column == MethodColumn
    ensures m.paramsStats.membersNumber != 0 || m.paramsStats.printIfNoMembers ==>
              ls[1] == MembersLines(m.paramsStats, MethodColumn, zeroPct)[0]
    ensures m.thrownExceptions.membersNumber > 0 ==>
              ls[|ls| - 1] == MembersLines(m.thrownExceptions, MethodColumn, zeroPct)[0]
  {
    [MethodHeader(m)]
    + MembersLines(m.paramsStats, MethodColumn, zeroPct)
    + (if m.thrownExceptions.membersNumber > 0 then MembersLines(m.thrownExceptions, MethodColumn, zeroPct) else [])
  }

  function MethodsLines(ms: seq<MethodDocStats>, zeroPct: real): seq<Line>
  {
    if ms == [] then []
    else MethodsLines(ms[..|ms| - 1], zeroPct) + MethodLines(ms[|ms| - 1], zeroPct)
  }

  function ClassHeader(c: ClassDocStats): Line
  {
    ClassLine(c.kind, c.name, c.packageName, c.hasDocumentation, c.percent)
  }

  /** One class: header, fields, constructors, methods, enum constants. */
  function ClassLines(c: ClassDocStats, zeroPct: real): seq<Line>
  {
    [ClassHeader(c)]
    + MembersLines(c.fieldsStats, "", zeroPct)
    + MethodsLines(c.constructorsStats, zeroPct)
    + MethodsLines(c.methodsStats, zeroPct)
    + MembersLines(c.enumsStats, "", zeroPct)
  }

  function ClassHeaders(cs: seq<ClassDocStats>): seq<Line>
  {
    if cs == [] then [] else ClassHeaders(cs[..|cs| - 1]) + [ClassHeader(cs[|cs| - 1])]
  }

  function ClassesLines(cs: seq<ClassDocStats>, zeroPct: real): seq<Line>
  {
    if cs == [] then []
    else ClassesLines(cs[..|cs| - 1], zeroPct) + ClassLines(cs[|cs| - 1], zeroPct)
  }

  function MethodHeaders(ms: seq<MethodDocStats>): seq<Line>
  {
    if ms == [] then [] else MethodHeaders(ms[..|ms| - 1]) + [MethodHeader(ms[|ms| - 1])]
  }

  function PackageLineOf(p: PackageDoc): Line
  {
    PackageLine(p.name, IsNotStringEmpty(p.commentText))
  }

  /** One line per package, in order, saying whether its comment is non-empty. */
  function PackagesLines(ps: seq<PackageDoc>): (ls: seq<Line>)
    ensures |ls| == |ps|
    ensures forall i :: 0 <= i < |ps| ==> ls[i] == PackageLine(ps[i].name, ps[i].commentText != "")
  {
    if ps == [] then []
    else PackagesLines(ps[..|ps| - 1]) + [PackageLineOf(ps[|ps| - 1])]
  }

  function ClassesSection(classes: ClassesDocStats, zeroPct: real): seq<Line>
  {
    [Totals(classes.stats, zeroPct)] + ClassesLines(classes.classesList, zeroPct) + [BlankLine]
  }

  function PackagesSection(packages: PackagesSummary, zeroPct: real): seq<Line>
  {
    [Totals(packages.stats, zeroPct)] + PackagesLines(packages.packagesDoc) + [BlankLine]
  }

  /** The project line and the empty line printed after it. */
  function ClosingLines(projectPercent: real): seq<Line>
  {
    [ProjectLine(projectPercent), BlankLine]
  }

  /** The whole report: classes section, packages section, project line, empty line. */
  function FullReport(classes: ClassesDocStats, packages: PackagesSummary, projectPercent: real, zeroPct: real)
    : seq<Line>
  {
    ClassesSection(classes, zeroPct) + PackagesSection(packages, zeroPct) + ClosingLines(projectPercent)
  }

  // ---------------------------------------------------------------------------
  // Layout properties

  /** Lines that belong to a method: its header and its group lines. */
  predicate IsMethodLevel(l: Line) { l.MethodLine? || (l.MembersLine? && l.column == MethodColumn) }

  /** Lines that belong to a class: its header and everything under it. */
  predicate IsClassLevel(l: Line) { l.ClassLine? || l.MethodLine? || l.MembersLine? }

  lemma FilterAppend5(a: seq<Line>, b: seq<Line>, c: seq<Line>, d: seq<Line>, e: seq<Line>, keep: Line -> bool)
    ensures Filter(a + b + c + d + e, keep)
            == Filter(a, keep) + Filter(b, keep) + Filter(c, keep) + Filter(d, keep) + Filter(e, keep)
  {
    FilterAppend3(a + b, c, d, keep);
    FilterAppend(a + b + c + d, e, keep);
    FilterAppend(a, b, keep);
  }

  /** The report's parts: two sections of three parts each, then the closing lines. */
  lemma FullReportParts(classes: ClassesDocStats, packages: PackagesSummary, projectPercent: real, zeroPct: real)
    ensures FullReport(classes, packages, projectPercent, zeroPct)
            == ([Totals(classes.stats, zeroPct)] + ClassesLines(classes.classesList, zeroPct) + [BlankLine])
               + ([Totals(packages.stats, zeroPct)] + PackagesLines(packages.packagesDoc) + [BlankLine])
               + ClosingLines(projectPercent)
  {
  }

  /** Filtering a line sequence shaped like the report, part by part. */
  lemma FilterSections(a: seq<Line>, b: seq<Line>, c: seq<Line>, d: seq<Line>, e: seq<Line>, f: seq<Line>,
                       g: seq<Line>, keep: Line -> bool)
    ensures Filter((a + b + c) + (d + e + f) + g, keep)
            == (Filter(a, keep) + Filter(b, keep) + Filter(c, keep))
               + (Filter(d, keep) + Filter(e, keep) + Filter(f, keep))
               + Filter(g, keep)
  {
    FilterAppend3(a + b + c, d + e + f, g, keep);
    FilterAppend3(a, b, c, keep);
    FilterAppend3(d, e, f, keep);
  }

  /** Report-shaped lines that keep exactly the first line of each section. */
  lemma FilterSectionHeads(a: Line, b: seq<Line>, c: seq<Line>, d: Line, e: seq<Line>, f: seq<Line>,
                           g: seq<Line>, keep: Line -> bool)
    requires keep(a) && keep(d)
    requires Filter(b, keep) == [] && Filter(c, keep) == []
    requires Filter(e, keep) == [] && Filter(f, keep) == [] && Filter(g, keep) == []
    ensures Filter(([a] + b + c) + ([d] + e + f) + g, keep) == [a, d]
  {
    FilterSections([a], b, c, [d], e, f, g, keep);
    FilterOne(a, keep);
    FilterOne(d, keep);
    var none: seq<Line> := [];
    assert [a] + none + none == [a] && [d] + none + none == [d] && [a] + [d] + none == [a, d];
  }

  /** Report-shaped lines that keep something only from the body of the first section. */
  lemma FilterFirstBody(a: seq<Line>, b: seq<Line>, c: seq<Line>, d: seq<Line>, e: seq<Line>, f: seq<Line>,
                        g: seq<Line>, keep: Line -> bool)
    requires Filter(a, keep) == [] && Filter(c, keep) == []
    requires Filter(d, keep) == [] && Filter(e, keep) == [] && Filter(f, keep) == [] && Filter(g, keep) == []
    ensures Filter((a + b + c) + (d + e + f) + g, keep) == Filter(b, keep)
  {
    FilterSections(a, b, c, d, e, f, g, keep);
    var fb, none: seq<Line> := Filter(b, keep), [];
    assert none + fb + none == fb && none + none + none == none && fb + none + none == fb;
  }

  /** Report-shaped lines that keep something only from the body of the second section. */
  lemma FilterSecondBody(a: seq<Line>, b: seq<Line>, c: seq<Line>, d: seq<Line>, e: seq<Line>, f: seq<Line>,
                         g: seq<Line>, keep: Line -> bool)
    requires Filter(a, keep) == [] && Filter(b, keep) == [] && Filter(c, keep) == []
    requires Filter(d, keep) == [] && Filter(f, keep) == [] && Filter(g, keep) == []
    ensures Filter((a + b + c) + (d + e + f) + g, keep) == Filter(e, keep)
  {
    FilterSections(a, b, c, d, e, f, g, keep);
    var fe, none: seq<Line> := Filter(e, keep), [];
    assert none + fe + none == fe && none + none + none == none && none + fe + none == fe;
  }

  /** Report-shaped lines that keep something only from the last part. */
  lemma FilterLastPart(a: seq<Line>, b: seq<Line>, c: seq<Line>, d: seq<Line>, e: seq<Line>, f: seq<Line>,
                       g: seq<Line>, keep: Line -> bool)
    requires Filter(a, keep) == [] && Filter(b, keep) == [] && Filter(c, keep) == []
    requires Filter(d, keep) == [] && Filter(e, keep) == [] && Filter(f, keep) == []
    ensures Filter((a + b + c) + (d + e + f) + g, keep) == Filter(g, keep)
  {
    FilterSections(a, b, c, d, e, f, g, keep);
    var none: seq<Line> := [];
    assert none + none + none == none && none + none + Filter(g, keep) == Filter(g, keep);
  }

  lemma ColumnsDiffer()
    ensures MethodColumn != DefaultColumn
  {
    assert |MethodColumn| != |DefaultColumn|;
  }

  lemma {:induction false} MethodsLinesShape(ms: seq<MethodDocStats>, zeroPct: real)
    ensures forall i :: 0 <= i < |MethodsLines(ms, zeroPct)| ==> IsMethodLevel(MethodsLines(ms, zeroPct)[i])
  {
    if ms != [] {
      MethodsLinesShape(ms[..|ms| - 1], zeroPct);
    }
  }

  lemma MethodLinesHeader(m: MethodDocStats, zeroPct: real)
    ensures Filter(MethodLines(m, zeroPct), IsMethodLine) == [MethodHeader(m)]
  {
    var ls := MethodLines(m, zeroPct);
    assert ls == [ls[0]] + ls[1..];
    FilterAppend([ls[0]], ls[1..], IsMethodLine);
    FilterOne(ls[0], IsMethodLine);
    FilterNone(ls[1..], IsMethodLine);
  }

  /** The method headers of a run of methods are their headers in order. */
  lemma {:induction false} MethodsLinesHeaders(ms: seq<MethodDocStats>, zeroPct: real)
    ensures Filter(MethodsLines(ms, zeroPct), IsMethodLine) == MethodHeaders(ms)
  {
    if ms != [] {
      var prefix, m := ms[..|ms| - 1], ms[|ms| - 1];
      MethodsLinesHeaders(prefix, zeroPct);
      MethodLinesHeader(m, zeroPct);
      FilterAppend(MethodsLines(prefix, zeroPct), MethodLines(m, zeroPct), IsMethodLine);
    }
  }

  /** The lines of a run of methods hold no class header and no class-level group line. */
  lemma MethodsLinesBelowClassLevel(ms: seq<MethodDocStats>, zeroPct: real)
    ensures Filter(MethodsLines(ms, zeroPct), IsClassLine) == []
    ensures Filter(MethodsLines(ms, zeroPct), IsClassGroupLine) == []
  {
    MethodsLinesShape(ms, zeroPct);
    ColumnsDiffer();
    FilterNone(MethodsLines(ms, zeroPct), IsClassLine);
    FilterNone(MethodsLines(ms, zeroPct), IsClassGroupLine);
  }

  /** Pieces of a class's lines, named so that each layout lemma can filter them one by one. */
  lemma ClassLinesParts(c: ClassDocStats, zeroPct: real)
    ensures ClassLines(c, zeroPct)
            == [ClassHeader(c)] + MembersLines(c.fieldsStats, "", zeroPct) + MethodsLines(c.constructorsStats, zeroPct)
               + MethodsLines(c.methodsStats, zeroPct) + MembersLines(c.enumsStats, "", zeroPct)
  {
  }

  /** Filtering a five-part line sequence whose parts other than the first keep nothing. */
  lemma FilterFirstOfFive(a: seq<Line>, b: seq<Line>, c: seq<Line>, d: seq<Line>, e: seq<Line>, keep: Line -> bool)
    requires Filter(b, keep) == [] && Filter(c, keep) == [] && Filter(d, keep) == [] && Filter(e, keep) == []
    ensures Filter(a + b + c + d + e, keep) == Filter(a, keep)
  {
    FilterAppend5(a, b, c, d, e, keep);
  }

  /** Filtering a five-part line sequence that keeps something only from its second and fifth parts. */
  lemma FilterOuterOfFive(a: seq<Line>, b: seq<Line>, c: seq<Line>, d: seq<Line>, e: seq<Line>, keep: Line -> bool)
    requires Filter(a, keep) == [] && Filter(c, keep) == [] && Filter(d, keep) == []
    ensures Filter(a + b + c + d + e, keep) == Filter(b, keep) + Filter(e, keep)
  {
    FilterAppend5(a, b, c, d, e, keep);
  }

  /** Filtering a five-part line sequence that keeps something only from its third and fourth parts. */
  lemma FilterInnerOfFive(a: seq<Line>, b: seq<Line>, c: seq<Line>, d: seq<Line>, e: seq<Line>, keep: Line -> bool)
    requires Filter(a, keep) == [] && Filter(b, keep) == [] && Filter(e, keep) == []
    ensures Filter(a + b + c + d + e, keep) == Filter(c, keep) + Filter(d, keep)
  {
    FilterAppend5(a, b, c, d, e, keep);
  }

  /** A class-level group line of a class (fields or enum constants) is neither a class nor a method header. */
  lemma GroupLinesNotHeaders(s: MembersDocStats, zeroPct: real)
    ensures Filter(MembersLines(s, "", zeroPct), IsClassLine) == []
    ensures Filter(MembersLines(s, "", zeroPct), IsMethodLine) == []
    ensures Filter(MembersLines(s, "", zeroPct), IsClassGroupLine) == MembersLines(s, "", zeroPct)
  {
    FilterNone(MembersLines(s, "", zeroPct), IsClassLine);
    FilterNone(MembersLines(s, "", zeroPct), IsMethodLine);
    FilterAll(MembersLines(s, "", zeroPct), IsClassGroupLine);
  }

  /** Within a class, the header comes first and is the only class header. */
  lemma ClassHeaderFirst(c: ClassDocStats, zeroPct: real)
    ensures ClassLines(c, zeroPct)[0] == ClassHeader(c)
    ensures Filter(ClassLines(c, zeroPct), IsClassLine) == [ClassHeader(c)]
  {
    ClassLinesParts(c, zeroPct);
    FilterOne(ClassHeader(c), IsClassLine);
    GroupLinesNotHeaders(c.fieldsStats, zeroPct);
    GroupLinesNotHeaders(c.enumsStats, zeroPct);
    MethodsLinesBelowClassLevel(c.constructorsStats, zeroPct);
    MethodsLinesBelowClassLevel(c.methodsStats, zeroPct);
    FilterFirstOfFive([ClassHeader(c)], MembersLines(c.fieldsStats, "", zeroPct), MethodsLines(c.constructorsStats, zeroPct),
                      MethodsLines(c.methodsStats, zeroPct), MembersLines(c.enumsStats, "", zeroPct), IsClassLine);
  }

  /** Within a class, the group lines at class level are the fields line, then
      the enum constants line (each present or not by the group rule). */
  lemma ClassGroupOrder(c: ClassDocStats, zeroPct: real)
    ensures Filter(ClassLines(c, zeroPct), IsClassGroupLine)
            == MembersLines(c.fieldsStats, "", zeroPct) + MembersLines(c.enumsStats, "", zeroPct)
  {
    ClassLinesParts(c, zeroPct);
    FilterOne(ClassHeader(c), IsClassGroupLine);
    GroupLinesNotHeaders(c.fieldsStats, zeroPct);
    GroupLinesNotHeaders(c.enumsStats, zeroPct);
    MethodsLinesBelowClassLevel(c.constructorsStats, zeroPct);
    MethodsLinesBelowClassLevel(c.methodsStats, zeroPct);
    FilterOuterOfFive([ClassHeader(c)], MembersLines(c.fieldsStats, "", zeroPct), MethodsLines(c.constructorsStats, zeroPct),
                      MethodsLines(c.methodsStats, zeroPct), MembersLines(c.enumsStats, "", zeroPct), IsClassGroupLine);
  }

  /** Within a class, the method headers are the constructors', then the
      methods', each in declaration order. */
  lemma ClassMethodOrder(c: ClassDocStats, zeroPct: real)
    ensures Filter(ClassLines(c, zeroPct), IsMethodLine)
            == MethodHeaders(c.constructorsStats) + MethodHeaders(c.methodsStats)
  {
    ClassLinesParts(c, zeroPct);
    FilterOne(ClassHeader(c), IsMethodLine);
    GroupLinesNotHeaders(c.fieldsStats, zeroPct);
    GroupLinesNotHeaders(c.enumsStats, zeroPct);
    MethodsLinesHeaders(c.constructorsStats, zeroPct);
    MethodsLinesHeaders(c.methodsStats, zeroPct);
    FilterInnerOfFive([ClassHeader(c)], MembersLines(c.fieldsStats, "", zeroPct), MethodsLines(c.constructorsStats, zeroPct),
                      MethodsLines(c.methodsStats, zeroPct), MembersLines(c.enumsStats, "", zeroPct), IsMethodLine);
  }

  lemma ClassLinesShape(c: ClassDocStats, zeroPct: real)
    ensures forall i :: 0 <= i < |ClassLines(c, zeroPct)| ==> IsClassLevel(ClassLines(c, zeroPct)[i])
  {
    MethodsLinesShape(c.constructorsStats, zeroPct);
    MethodsLinesShape(c.methodsStats, zeroPct);
  }

  lemma {:induction false} ClassesLinesShape(cs: seq<ClassDocStats>, zeroPct: real)
    ensures forall i :: 0 <= i < |ClassesLines(cs, zeroPct)| ==> IsClassLevel(ClassesLines(cs, zeroPct)[i])
  {
    if cs != [] {
      ClassesLinesShape(cs[..|cs| - 1], zeroPct);
      ClassLinesShape(cs[|cs| - 1], zeroPct);
    }
  }

  lemma {:induction false} ClassHeadersAt(cs: seq<ClassDocStats>)
    ensures |ClassHeaders(cs)| == |cs|
    ensures forall i :: 0 <= i < |cs| ==> ClassHeaders(cs)[i] == ClassHeader(cs[i])
  {
    if cs != [] {
      ClassHeadersAt(cs[..|cs| - 1]);
    }
  }

  /** One class header per class, in the order of the class list. */
  lemma {:induction false} ClassHeadersInOrder(cs: seq<ClassDocStats>, zeroPct: real)
    ensures Filter(ClassesLines(cs, zeroPct), IsClassLine) == ClassHeaders(cs)
  {
    if cs != [] {
      var prefix, c := cs[..|cs| - 1], cs[|cs| - 1];
      ClassHeadersInOrder(prefix, zeroPct);
      ClassHeaderFirst(c, zeroPct);
      FilterAppend(ClassesLines(prefix, zeroPct), ClassLines(c, zeroPct), IsClassLine);
    }
  }

  /** Class-level lines are no totals, package or project lines. */
  lemma ClassLevelKinds(ls: seq<Line>)
    requires forall i :: 0 <= i < |ls| ==> IsClassLevel(ls[i])
    ensures Filter(ls, IsTotalsLine) == []
    ensures Filter(ls, IsPackageLine) == []
    ensures Filter(ls, IsProjectLine) == []
  {
    FilterNone(ls, IsTotalsLine);
    FilterNone(ls, IsPackageLine);
    FilterNone(ls, IsProjectLine);
  }

  /** The class lines hold no totals, package or project line. */
  lemma ClassesLinesKinds(cs: seq<ClassDocStats>, zeroPct: real)
    ensures Filter(ClassesLines(cs, zeroPct), IsTotalsLine) == []
    ensures Filter(ClassesLines(cs, zeroPct), IsPackageLine) == []
    ensures Filter(ClassesLines(cs, zeroPct), IsProjectLine) == []
  {
    ClassesLinesShape(cs, zeroPct);
    ClassLevelKinds(ClassesLines(cs, zeroPct));
  }

  /** The package lines are package lines only. */
  lemma PackagesLinesKinds(ps: seq<PackageDoc>)
    ensures Filter(PackagesLines(ps), IsTotalsLine) == []
    ensures Filter(PackagesLines(ps), IsClassLine) == []
    ensures Filter(PackagesLines(ps), IsProjectLine) == []
    ensures Filter(PackagesLines(ps), IsPackageLine) == PackagesLines(ps)
  {
    FilterNone(PackagesLines(ps), IsTotalsLine);
    FilterNone(PackagesLines(ps), IsClassLine);
    FilterNone(PackagesLines(ps), IsProjectLine);
    FilterAll(PackagesLines(ps), IsPackageLine);
  }

  /** The only totals lines are the class aggregate's, then the package aggregate's. */
  lemma ReportTotalsLines(classes: ClassesDocStats, packages: PackagesSummary, projectPercent: real, zeroPct: real)
    ensures Filter(FullReport(classes, packages, projectPercent, zeroPct), IsTotalsLine)
            == [Totals(classes.stats, zeroPct), Totals(packages.stats, zeroPct)]
  {
    FullReportParts(classes, packages, projectPercent, zeroPct);
    FilterOne(BlankLine, IsTotalsLine);
    ClassesLinesKinds(classes.classesList, zeroPct);
    PackagesLinesKinds(packages.packagesDoc);
    ClosingLinesKinds(projectPercent);
    FilterSectionHeads(Totals(classes.stats, zeroPct), ClassesLines(classes.classesList, zeroPct), [BlankLine],
      Totals(packages.stats, zeroPct), PackagesLines(packages.packagesDoc), [BlankLine],
      ClosingLines(projectPercent), IsTotalsLine);
  }

  /** The report's class headers are one per class of the class list, in order. */
  lemma ReportClassHeaders(classes: ClassesDocStats, packages: PackagesSummary, projectPercent: real, zeroPct: real)
    ensures var hs := Filter(FullReport(classes, packages, projectPercent, zeroPct), IsClassLine);
            |hs| == |classes.classesList| &&
            forall i :: 0 <= i < |classes.classesList| ==> hs[i] == ClassHeader(classes.classesList[i])
  {
    ReportClassHeadersList(classes, packages, projectPercent, zeroPct);
    ClassHeadersAt(classes.classesList);
  }

  lemma ReportClassHeadersList(classes: ClassesDocStats, packages: PackagesSummary, projectPercent: real,
                               zeroPct: real)
    ensures Filter(FullReport(classes, packages, projectPercent, zeroPct), IsClassLine)
            == ClassHeaders(classes.classesList)
  {
    FullReportParts(classes, packages, projectPercent, zeroPct);
    FilterOne(Totals(classes.stats, zeroPct), IsClassLine);
    FilterOne(Totals(packages.stats, zeroPct), IsClassLine);
    FilterOne(BlankLine, IsClassLine);
    PackagesLinesKinds(packages.packagesDoc);
    ClassHeadersInOrder(classes.classesList, zeroPct);
    ClosingLinesKinds(projectPercent);
    FilterFirstBody([Totals(classes.stats, zeroPct)], ClassesLines(classes.classesList, zeroPct), [BlankLine],
      [Totals(packages.stats, zeroPct)], PackagesLines(packages.packagesDoc), [BlankLine],
      ClosingLines(projectPercent), IsClassLine);
  }

  /** The report's package lines are those of the package list, in order. */
  lemma ReportPackageLines(classes: ClassesDocStats, packages: PackagesSummary, projectPercent: real, zeroPct: real)
    ensures Filter(FullReport(classes, packages, projectPercent, zeroPct), IsPackageLine)
            == PackagesLines(packages.packagesDoc)
  {
    FullReportParts(classes, packages, projectPercent, zeroPct);
    FilterOne(Totals(classes.stats, zeroPct), IsPackageLine);
    FilterOne(Totals(packages.stats, zeroPct), IsPackageLine);
    FilterOne(BlankLine, IsPackageLine);
    ClassesLinesKinds(classes.classesList, zeroPct);
    PackagesLinesKinds(packages.packagesDoc);
    ClosingLinesKinds(projectPercent);
    FilterSecondBody([Totals(classes.stats, zeroPct)], ClassesLines(classes.classesList, zeroPct), [BlankLine],
      [Totals(packages.stats, zeroPct)], PackagesLines(packages.packagesDoc), [BlankLine],
      ClosingLines(projectPercent), IsPackageLine);
  }

  /** The closing lines are one project line and one empty line. */
  lemma ClosingLinesKinds(projectPercent: real)
    ensures Filter(ClosingLines(projectPercent), IsTotalsLine) == []
    ensures Filter(ClosingLines(projectPercent), IsClassLine) == []
    ensures Filter(ClosingLines(projectPercent), IsPackageLine) == []
    ensures Filter(ClosingLines(projectPercent), IsProjectLine) == [ProjectLine(projectPercent)]
  {
    var c := ClosingLines(projectPercent);
    assert c[..1] == [ProjectLine(projectPercent)];
    assert c[..1][..0] == [];
  }

  /** The report ends with the project line and then an empty line; the
      project line is the only one of its kind. */
  lemma ReportEndsWithProjectLine(classes: ClassesDocStats, packages: PackagesSummary, projectPercent: real,
                                  zeroPct: real)
    ensures var r := FullReport(classes, packages, projectPercent, zeroPct);
            |r| >= 2 && r[|r| - 2] == ProjectLine(projectPercent) && r[|r| - 1] == BlankLine &&
            Count(r, IsProjectLine) == 1
  {
    ReportProjectLines(classes, packages, projectPercent, zeroPct);
  }

  lemma ReportProjectLines(classes: ClassesDocStats, packages: PackagesSummary, projectPercent: real, zeroPct: real)
    ensures Filter(FullReport(classes, packages, projectPercent, zeroPct), IsProjectLine) == [ProjectLine(projectPercent)]
  {
    FullReportParts(classes, packages, projectPercent, zeroPct);
    FilterOne(Totals(classes.stats, zeroPct), IsProjectLine);
    FilterOne(Totals(packages.stats, zeroPct), IsProjectLine);
    FilterOne(BlankLine, IsProjectLine);
    ClassesLinesKinds(classes.classesList, zeroPct);
    PackagesLinesKinds(packages.packagesDoc);
    ClosingLinesKinds(projectPercent);
    FilterLastPart([Totals(classes.stats, zeroPct)], ClassesLines(classes.classesList, zeroPct), [BlankLine],
      [Totals(packages.stats, zeroPct)], PackagesLines(packages.packagesDoc), [BlankLine],
      ClosingLines(projectPercent), IsProjectLine);
  }

  lemma ClassesSectionKinds(classes: ClassesDocStats, zeroPct: real)
    ensures Count(ClassesSection(classes, zeroPct), IsPackageLine) == 0
  {
    var cl := ClassesLines(classes.classesList, zeroPct);
    FilterAppend3([Totals(classes.stats, zeroPct)], cl, [BlankLine], IsPackageLine);
    FilterOne(Totals(classes.stats, zeroPct), IsPackageLine);
    FilterOne(BlankLine, IsPackageLine);
    ClassesLinesKinds(classes.classesList, zeroPct);
  }

  lemma PackagesSectionKinds(packages: PackagesSummary, projectPercent: real, zeroPct: real)
    ensures Count(PackagesSection(packages, zeroPct) + ClosingLines(projectPercent), IsClassLine) == 0
  {
    var pl := PackagesLines(packages.packagesDoc);
    FilterAppend3([Totals(packages.stats, zeroPct)], pl, [BlankLine], IsClassLine);
    FilterAppend(PackagesSection(packages, zeroPct), ClosingLines(projectPercent), IsClassLine);
    FilterOne(Totals(packages.stats, zeroPct), IsClassLine);
    FilterOne(BlankLine, IsClassLine);
    PackagesLinesKinds(packages.packagesDoc);
    ClosingLinesKinds(projectPercent);
  }

  /** The classes section comes first: the package totals line follows it
      immediately, no package line comes before that line and no class header
      after it. */
  lemma ReportSectionOrder(classes: ClassesDocStats, packages: PackagesSummary, projectPercent: real, zeroPct: real)
    ensures var r := FullReport(classes, packages, projectPercent, zeroPct);
            var k := |ClassesSection(classes, zeroPct)|;
            r[k] == Totals(packages.stats, zeroPct) &&
            Count(r[..k], IsPackageLine) == 0 &&
            Count(r[k..], IsClassLine) == 0
  {
    var r := FullReport(classes, packages, projectPercent, zeroPct);
    var cs := ClassesSection(classes, zeroPct);
    var rest := PackagesSection(packages, zeroPct) + ClosingLines(projectPercent);
    assert r == cs + rest;
    assert r[..|cs|] == cs;
    assert r[|cs|..] == rest;
    ClassesSectionKinds(classes, zeroPct);
    PackagesSectionKinds(packages, projectPercent, zeroPct);
  }

  /** The member counts printed on the two totals lines add up to the
      project member count. */
  lemma ReportedMembersNumber(stats: JavaDocs.JavaDocsStats, zeroPct: real)
    ensures var r := FullReport(stats.classesDocStats, stats.packagesDocStats.Summary(),
                                stats.DocumentedMembersPercent(zeroPct), zeroPct);
            var totals := Filter(r, IsTotalsLine);
            |totals| == 2 && totals[0].membersNumber + totals[1].membersNumber == stats.MembersNumber()
  {
    ReportTotalsLines(stats.classesDocStats, stats.packagesDocStats.Summary(),
                      stats.DocumentedMembersPercent(zeroPct), zeroPct);
  }

  /** Visibility of an exceptions group: it is listed exactly when the method
      declares an exception, whatever its print-if-empty flag says. */
  lemma ExceptionsFlagIgnored(m: MethodDocStats, printIfNoMembers: bool, zeroPct: real)
    ensures MethodLines(m.(thrownExceptions := m.thrownExceptions.(printIfNoMembers := printIfNoMembers)), zeroPct)
            == MethodLines(m, zeroPct)
  {
  }

  /** A method whose exceptions come from its declaration gets an exceptions
      line exactly when its `throws` clause names at least one exception. */
  lemma ExceptionsLineIffThrows(m: MethodDocStats, md: MethodDoc, printIfNoMembers: bool, zeroPct: real)
    requires m.thrownExceptions == MethodExceptions.MethodExceptionsDocStats(md).Stats(printIfNoMembers)
    ensures |MethodLines(m, zeroPct)| == 1 + |MembersLines(m.paramsStats, MethodColumn, zeroPct)|
                                         + (if |md.thrownExceptions| > 0 then 1 else 0)
  {
  }

  /** A class member group none of whose members has a position (or that is
      empty) is left out of the report unless it asks to be listed. */
  lemma UnpositionedGroupHidden(g: ClassMembers.ClassMembersDocStats, printIfNoMembers: bool, zeroPct: real)
    ensures MembersLines(g.Stats(printIfNoMembers), "", zeroPct) == [] <==>
            !printIfNoMembers && forall i :: 0 <= i < |g.membersDocs| ==> LacksPosition(g.membersDocs[i])
  {
    assert g.MembersNumber() == Count(g.membersDocs, HasPosition);
    CountNone(g.membersDocs, HasPosition);
  }

  // ---------------------------------------------------------------------------
  // The generator

  lemma AppendAssoc(s: seq<Line>, a: seq<Line>, b: seq<Line>)
    ensures s + (a + b) == s + a + b
  {
  }

  lemma AppendAssoc5(s: seq<Line>, a: seq<Line>, b: seq<Line>, c: seq<Line>, d: seq<Line>, e: seq<Line>)
    ensures s + (a + b + c + d + e) == s + a + b + c + d + e
  {
  }

  /** One more method extends a run of method lines by that method's lines. */
  lemma MethodsLinesExtend(head: seq<Line>, ms: seq<MethodDocStats>, i: nat, zeroPct: real)
    requires i < |ms|
    ensures head + MethodsLines(ms[..i + 1], zeroPct) == head + MethodsLines(ms[..i], zeroPct) + MethodLines(ms[i], zeroPct)
  {
    assert ms[..i + 1][..i] == ms[..i];
  }

  /** A method's lines, as its header and then its two group parts. */
  lemma MethodLinesAppend(head: seq<Line>, m: MethodDocStats, zeroPct: real)
    ensures head + MethodLines(m, zeroPct)
            == head + [MethodHeader(m)] + MembersLines(m.paramsStats, MethodColumn, zeroPct)
               + (if m.thrownExceptions.membersNumber > 0 then MembersLines(m.thrownExceptions, MethodColumn, zeroPct)
                  else [])
  {
  }

  /** One more class extends a run of class lines by that class's lines. */
  lemma ClassesLinesExtend(head: seq<Line>, cs: seq<ClassDocStats>, i: nat, zeroPct: real)
    requires i < |cs|
    ensures head + ClassesLines(cs[..i + 1], zeroPct) == head + ClassesLines(cs[..i], zeroPct) + ClassLines(cs[i], zeroPct)
  {
    assert cs[..i + 1][..i] == cs[..i];
  }

  lemma ClassesSectionAppend(head: seq<Line>, classes: ClassesDocStats, zeroPct: real)
    ensures head + ClassesSection(classes, zeroPct)
            == head + [Totals(classes.stats, zeroPct)] + ClassesLines(classes.classesList, zeroPct) + [BlankLine]
  {
    var t, cl := [Totals(classes.stats, zeroPct)], ClassesLines(classes.classesList, zeroPct);
    assert head + (t + cl + [BlankLine]) == head + t + cl + [BlankLine];
  }

  class ReportGenerator {
    const stats: JavaDocs.JavaDocsStats
    /** The percentage reported for a group with no members. */
    const zeroPct: real

    constructor (rootClasses: seq<ClassDoc>,
                 classesOf: seq<ClassDoc> -> ClassesDocStats,
                 summarizePackages: seq<PackageDoc> -> PackagesSummary,
                 zeroPct: real)
      ensures fresh(stats) && fresh(stats.packagesDocStats) && this.zeroPct == zeroPct
      ensures stats.rootClasses == rootClasses && stats.classesDocStats == classesOf(rootClasses)
      ensures stats.packagesDocStats.summarize == summarizePackages
      ensures |stats.packagesDocStats.added| == |rootClasses|
      ensures forall i :: 0 <= i < |rootClasses| ==>
                stats.packagesDocStats.added[i] == rootClasses[i].containingPackage
    {
      var s := new JavaDocs.JavaDocsStats(rootClasses, classesOf, summarizePackages);
      stats := s;
      this.zeroPct := zeroPct;
    }

    /** Writes the whole report to a new stream and returns what was written. */
    method Start() returns (ok: bool, written: seq<Line>)
      ensures ok
      ensures written == FullReport(stats.classesDocStats, stats.packagesDocStats.Summary(),
                                    stats.DocumentedMembersPercent(zeroPct), zeroPct)
    {
      var writer := new Writer();
      ExportClassesDocStats(writer);
      ExportPackagesDocStats(writer);
      writer.Write(ProjectLine(stats.DocumentedMembersPercent(zeroPct)));
      writer.Write(BlankLine);
      written := writer.lines;
      ok := true;
    }

    method ExportPackagesDocStats(writer: Writer)
      modifies writer
      ensures writer.lines == old(writer.lines) + PackagesSection(stats.packagesDocStats.Summary(), zeroPct)
    {
      var summary := stats.packagesDocStats.Summary();
      ExportPkgsOrClassesDocStats(writer, summary.stats);
      ghost var head := writer.lines;
      var ps := summary.packagesDoc;
      for i := 0 to |ps|
        invariant writer.lines == head + PackagesLines(ps[..i])
      {
        ExportPackageDocStats(ps[i], writer);
        assert ps[..i + 1][..i] == ps[..i];
        AppendAssoc(head, PackagesLines(ps[..i]), [PackageLineOf(ps[i])]);
      }
      assert ps[..|ps|] == ps;
      writer.Write(BlankLine);
      AppendAssoc5(old(writer.lines), [Totals(summary.stats, zeroPct)], PackagesLines(ps), [BlankLine], [], []);
      assert [Totals(summary.stats, zeroPct)] + PackagesLines(ps) + [BlankLine] + [] + []
        == PackagesSection(summary, zeroPct);
    }

    method ExportPkgsOrClassesDocStats(writer: Writer, s: MembersDocStats)
      modifies writer
      ensures writer.lines == old(writer.lines) + [Totals(s, zeroPct)]
    {
      writer.Write(TotalsLine(s.membersType, s.membersNumber, s.UndocumentedMembers(), s.documentedMembers,
                              s.DocumentedMembersPercent(zeroPct)));
    }

    method ExportPackageDocStats(doc: PackageDoc, writer: Writer)
      modifies writer
      ensures writer.lines == old(writer.lines) + [PackageLineOf(doc)]
    {
      writer.Write(PackageLine(doc.name, IsNotStringEmpty(doc.commentText)));
    }

    method ExportClassesDocStats(writer: Writer)
      modifies writer
      ensures writer.lines == old(writer.lines) + ClassesSection(stats.classesDocStats, zeroPct)
    {
      var classesDocStats := stats.classesDocStats;
      ExportPkgsOrClassesDocStats(writer, classesDocStats.stats);
      ghost var head := writer.lines;
      var cs := classesDocStats.classesList;
      for i := 0 to |cs|
        invariant writer.lines == head + ClassesLines(cs[..i], zeroPct)
      {
        ExportClassDocStats(cs[i], writer);
        ClassesLinesExtend(head, cs, i, zeroPct);
      }
      assert cs[..|cs|] == cs;
      writer.Write(BlankLine);
      ClassesSectionAppend(old(writer.lines), classesDocStats, zeroPct);
    }

    method ExportClassDocStats(classStats: ClassDocStats, writer: Writer)
      modifies writer
      ensures writer.lines == old(writer.lines) + ClassLines(classStats, zeroPct)
    {
      writer.Write(ClassLine(classStats.kind, classStats.name, classStats.packageName,
                             classStats.hasDocumentation, classStats.percent));
      ghost var l1 := writer.lines;
      ExportMembersDocStats(writer, classStats.fieldsStats, "");
      ghost var l2 := writer.lines;
      ExportMethodsDocStats(writer, classStats.constructorsStats);
      ghost var l3 := writer.lines;
      ExportMethodsDocStats(writer, classStats.methodsStats);
      ghost var l4 := writer.lines;
      ExportMembersDocStats(writer, classStats.enumsStats, "");
      assert l1 == old(writer.lines) + [ClassHeader(classStats)];
      assert l2 == l1 + MembersLines(classStats.fieldsStats, "", zeroPct);
      assert l3 == l2 + MethodsLines(classStats.constructorsStats, zeroPct);
      assert l4 == l3 + MethodsLines(classStats.methodsStats, zeroPct);
      AppendAssoc5(old(writer.lines), [ClassHeader(classStats)], MembersLines(classStats.fieldsStats, "", zeroPct),
                   MethodsLines(classStats.constructorsStats, zeroPct), MethodsLines(classStats.methodsStats, zeroPct),
                   MembersLines(classStats.enumsStats, "", zeroPct));
    }

    method ExportMethodsDocStats(writer: Writer, methodStatsList: seq<MethodDocStats>)
      modifies writer
      ensures writer.lines == old(writer.lines) + MethodsLines(methodStatsList, zeroPct)
    {
      var memberTypeFormat := MethodColumn;
      for i := 0 to |methodStatsList|
        invariant writer.lines == old(writer.lines) + MethodsLines(methodStatsList[..i], zeroPct)
      {
        var methodStats := methodStatsList[i];
        ghost var before := writer.lines;
        writer.Write(MethodLine(methodStats.kind, methodStats.methodName,
                                methodStats.hasDocumentation, methodStats.percent));
        ExportMembersDocStats(writer, methodStats.paramsStats, memberTypeFormat);
        if methodStats.thrownExceptions.membersNumber > 0 {
          ExportMembersDocStats(writer, methodStats.thrownExceptions, memberTypeFormat);
        }
        MethodLinesAppend(before, methodStats, zeroPct);
        MethodsLinesExtend(old(writer.lines), methodStatsList, i, zeroPct);
      }
      assert methodStatsList[..|methodStatsList|] == methodStatsList;
    }

    method ExportMembersDocStats(writer: Writer, membersDocStats: MembersDocStats, memberTypeFormat: string)
      modifies writer
      ensures writer.lines == old(writer.lines) + MembersLines(membersDocStats, memberTypeFormat, zeroPct)
    {
      if membersDocStats.membersNumber == 0 && !membersDocStats.printIfNoMembers {
        return;
      }
      var format := if memberTypeFormat == "" then DefaultColumn else memberTypeFormat;
      writer.Write(MembersLine(format, membersDocStats.membersType + ":", membersDocStats.membersNumber,
                               membersDocStats.UndocumentedMembers(), membersDocStats.documentedMembers,
                               membersDocStats.DocumentedMembersPercent(zeroPct)));
    }
  }
}
