# javadoc-coverage: statistics and report, modelled in Dafny

This project models the core of javadoc-coverage, a doclet that measures how much
of a Java code base carries documentation comments and prints a coverage report.
The model covers four pieces:

- **Member groups** (`ClassMembers`). A group is the fields, constructors, methods or
  enum constants of a class. Only members that have a source position count as
  members. Every member's raw comment feeds the documented count, including the
  comments of members without a position.
- **Exception groups** (`MethodExceptions`). The members are all exceptions a method
  declares in its `throws` clause, with no position filter. The comments are the
  texts of the method's `@throws` tags.
- **Project statistics** (`JavaDocs`):
  - The class aggregate is built from the analysed classes.
  - The package aggregate receives one `addPackageDoc` call per class, in class order.
  - The project percentage is the unweighted mean of the package and class
    percentages.
- **The report** (`Report`). The report is a sequence of line records, one per
  printed line. Each record keeps the values the line prints.
  - `Report.ReportGenerator` writes them through a `Writer` that collects the lines.
  - Each export method is proved to append exactly what a specification function
    (`FullReport`, `ClassesSection`, `ClassLines`, …) says.
  - Layout lemmas then state the report's order and structure.

The classes the core relies on but that lie outside it are not part of this model:
`MembersDocStats`, `MethodTagsDocStats`, `ClassesDocStats`, `PackagesDocStats`,
`ClassDocStats`, `MethodDocStats`, `Utils` and the `com.sun.javadoc` API. They
enter the model as follows:

- They are datatypes of the values they report (`DocStats`, `SourceModel`).
- The class aggregate and the package aggregate's counters come from supplied
  functions (`classesOf`, `summarize`).
- The rules the model assumes for them:
  - a group's documented count is the number of its non-empty comments;
  - undocumented is members minus documented;
  - a percentage is documented × 100 / members;
  - a group with no members gets the caller-chosen value `zeroPct`;
  - the mean of two values is their half-sum;
  - a tag-documented group's comments are the texts of the tags with its tag name.

`Seqs` holds the two stream operations the statistics are built from:
filter-then-count (`Count`) and filter (`Filter`).

## Model

| member | source | states |
|---|---|---|
| ClassMembers.ClassMembersDocStats.MembersNumber | src/main/java/com/manoelcampos/javadoc/coverage/stats/ClassMembersDocStats.java:51-58 | The member count is the number of members that have a source position. It is at most the array length, and equals the length exactly when every member has a position. |
| ClassMembers.ClassMembersDocStats.MembersComments | src/main/java/com/manoelcampos/javadoc/coverage/stats/ClassMembersDocStats.java:60-63 | One comment per member, positioned or not, in array order: comment i is member i's raw comment. |
| ClassMembers.ClassMembersDocStats.Stats | src/main/java/com/manoelcampos/javadoc/coverage/stats/ClassMembersDocStats.java:37-68 | The group reports the type label it was built with. Its member count is the number of member docs that have a position, and its documented count is the number of member docs whose raw comment is non-empty. Neither exceeds the number of member docs. |
| ClassMembers.DocumentedCountOfMembers | src/main/java/com/manoelcampos/javadoc/coverage/stats/ClassMembersDocStats.java:60-63 | The documented count over the comments stream equals the number of member docs whose comment is non-empty. |
| ClassMembers.UnpositionedMemberNotCounted | src/main/java/com/manoelcampos/javadoc/coverage/stats/ClassMembersDocStats.java:51-58 | Inserting a member without a position anywhere in the array leaves the member count unchanged. |
| ClassMembers.CommentsExceedCountByUnpositioned | src/main/java/com/manoelcampos/javadoc/coverage/stats/ClassMembersDocStats.java:51-63 | The comments stream is longer than the member count by exactly the number of members without a position. |
| ClassMembers.DocumentedWithinMembers | src/main/java/com/manoelcampos/javadoc/coverage/stats/ClassMembersDocStats.java:51-63 | Suppose every member without a position has an empty comment. Then documented ≤ members, undocumented ≥ 0 and the group percentage lies in 0..100. |
| ClassMembers.CommentedUnpositionedMemberOverflows | src/main/java/com/manoelcampos/javadoc/coverage/stats/ClassMembersDocStats.java:51-63 | Without that condition the invariant breaks. One member without a position that carries a comment gives 0 members, 1 documented and −1 undocumented. |
| MethodExceptions.TagTexts | src/main/java/com/manoelcampos/javadoc/coverage/stats/MethodExceptionsDocStats.java:41-44 | One text per tag with the given name, in tag order: text i is the text of the i-th such tag. There are at most as many as there are tags. |
| MethodExceptions.MethodExceptionsDocStats.Stats | src/main/java/com/manoelcampos/javadoc/coverage/stats/MethodExceptionsDocStats.java:25-45 | An exceptions group is labelled "Exceptions". Its member count is the number of declared exceptions, and its documented count is the number of `@throws` tags with a non-empty text. |
| MethodExceptions.ThrowsTagsDocument | src/main/java/com/manoelcampos/javadoc/coverage/stats/MethodExceptionsDocStats.java:41-44 | The documented count of the `@throws` texts equals the number of tags that are `@throws` tags with a non-empty text. |
| MethodExceptions.OnlyThrowsTagsDocument | src/main/java/com/manoelcampos/javadoc/coverage/stats/MethodExceptionsDocStats.java:41-44 | Adding a tag other than `@throws` anywhere in the comment leaves the exception statistics unchanged. |
| MethodExceptions.NoPositionFilter | src/main/java/com/manoelcampos/javadoc/coverage/stats/MethodExceptionsDocStats.java:36-39 | The exception count is at least what a position-filtered member group over the same docs would count. It is strictly more exactly when some declared exception has no position. |
| MethodExceptions.UndeclaredThrowsTagOverflows | src/main/java/com/manoelcampos/javadoc/coverage/stats/MethodExceptionsDocStats.java:36-44 | Members come from the declaration and documented counts from the tags. A `@throws` tag for an undeclared exception gives 0 members, 1 documented and −1 undocumented. |
| DocStats.DocumentedCount | src/main/java/com/manoelcampos/javadoc/coverage/stats/ClassMembersDocStats.java:60-63 | The documented count of a comments stream is at most its length, and equals it exactly when no comment is empty. |
| DocStats.MembersDocStats.UndocumentedMembers | src/main/java/com/manoelcampos/javadoc/coverage/ReportGenerator.java:64-68 | Undocumented plus documented is the member count, for every group, including empty ones. |
| DocStats.Percent | src/main/java/com/manoelcampos/javadoc/coverage/ReportGenerator.java:64-68 | For a group with members, percent × members = documented × 100. An empty group gets `zeroPct`. |
| DocStats.PercentRange | src/main/java/com/manoelcampos/javadoc/coverage/ReportGenerator.java:64-68 | When 0 ≤ documented ≤ members and `zeroPct` is in 0..100, the percentage is in 0..100. |
| DocStats.Mean | src/main/java/com/manoelcampos/javadoc/coverage/stats/JavaDocsStats.java:75-78 | The mean is equidistant from its two arguments. |
| JavaDocs.PackagesDocStats.constructor | src/main/java/com/manoelcampos/javadoc/coverage/stats/JavaDocsStats.java:55 | A new package aggregate has received no packages. |
| JavaDocs.PackagesDocStats.AddPackageDoc | src/main/java/com/manoelcampos/javadoc/coverage/stats/JavaDocsStats.java:57 | Each call appends its package to the packages received, and nothing else changes. |
| JavaDocs.JavaDocsStats.constructor | src/main/java/com/manoelcampos/javadoc/coverage/stats/JavaDocsStats.java:48-52 | The class aggregate is built from the classes. The package aggregate is fresh and has received the containing package of each class, in class order. |
| JavaDocs.JavaDocsStats.ComputePackagesDocsStats | src/main/java/com/manoelcampos/javadoc/coverage/stats/JavaDocsStats.java:54-61 | On a fresh aggregate, package i received is the containing package of class i, one per class. |
| JavaDocs.ProjectPercent | src/main/java/com/manoelcampos/javadoc/coverage/stats/JavaDocsStats.java:75-78 | Twice the project percentage is the package percentage plus the class percentage. |
| JavaDocs.JavaDocsStats.DocumentedMembersPercent | src/main/java/com/manoelcampos/javadoc/coverage/stats/JavaDocsStats.java:75-78 | The same rule, over the aggregates the statistics object holds. |
| JavaDocs.JavaDocsStats.MembersNumber | src/main/java/com/manoelcampos/javadoc/coverage/stats/JavaDocsStats.java:80-83 | The project member count is the class aggregate's plus the package aggregate's. |
| Report.ReportedMembersNumber | src/main/java/com/manoelcampos/javadoc/coverage/ReportGenerator.java:46-68 | The report's two totals lines carry member counts that add up to the project member count. |
| JavaDocs.ProjectPercentRange | src/main/java/com/manoelcampos/javadoc/coverage/stats/JavaDocsStats.java:75-78 | When both aggregates are consistent (documented ≤ members), the project percentage lies in 0..100. |
| JavaDocs.ProjectPercentIgnoresClassCount | src/main/java/com/manoelcampos/javadoc/coverage/stats/JavaDocsStats.java:75-78 | Equal weighting: scaling both class counters by any k > 0 (more classes at the same coverage) leaves the project percentage unchanged. |
| JavaDocs.ProjectPercentIsNotPooled | src/main/java/com/manoelcampos/javadoc/coverage/stats/JavaDocsStats.java:75-78 | One documented package plus 100 class members at 50% gives 75%. The pooled ratio over the combined counts differs. |
| Report.Writer.constructor | src/main/java/com/manoelcampos/javadoc/coverage/ReportGenerator.java:47 | A new output stream holds no lines. |
| Report.Writer.Write | src/main/java/com/manoelcampos/javadoc/coverage/ReportGenerator.java:65 | Writing appends exactly one line. |
| Report.Totals | src/main/java/com/manoelcampos/javadoc/coverage/ReportGenerator.java:64-68 | An aggregate's totals line carries its type, member count, documented count and percentage. Its undocumented plus documented is its member count. |
| Report.MembersLines | src/main/java/com/manoelcampos/javadoc/coverage/ReportGenerator.java:126-138 | A group line appears exactly when the group has members or asks to be listed, and there is at most one. Its label is the type plus ":". It carries the group's member count, documented count, undocumented count and percentage, in the given column format, or in the class column when the format is empty. |
| Report.MethodLines | src/main/java/com/manoelcampos/javadoc/coverage/ReportGenerator.java:110-118 | A method prints its header first. The parameters line, when that group is shown, comes right after the header. The exceptions line, exactly when the method declares exceptions, is the last line. Each is the group line of that group in the method column, with its counters. |
| Report.PackagesLines | src/main/java/com/manoelcampos/javadoc/coverage/ReportGenerator.java:76-78 | One line per package, in order. Each line has the package name and whether the package comment is non-empty. |
| Report.MethodsLinesHeaders | src/main/java/com/manoelcampos/javadoc/coverage/ReportGenerator.java:108-120 | The method headers in a run of methods are exactly those methods' headers, in list order. |
| Report.ClassHeaderFirst | src/main/java/com/manoelcampos/javadoc/coverage/ReportGenerator.java:96-106 | A class's lines start with its header, and no other class header appears among them. |
| Report.ClassGroupOrder | src/main/java/com/manoelcampos/javadoc/coverage/ReportGenerator.java:96-106 | The class-level group lines of a class are its fields line and then its enum constants line. |
| Report.ClassMethodOrder | src/main/java/com/manoelcampos/javadoc/coverage/ReportGenerator.java:96-106 | The method headers of a class are its constructors' and then its methods', in declaration order. |
| Report.ClassHeadersInOrder | src/main/java/com/manoelcampos/javadoc/coverage/ReportGenerator.java:84-86 | The class headers of the class lines are the headers of the class list, in order. |
| Report.ReportTotalsLines | src/main/java/com/manoelcampos/javadoc/coverage/ReportGenerator.java:46-62 | The report has exactly two totals lines: the class aggregate's, then the package aggregate's. |
| Report.ReportClassHeaders | src/main/java/com/manoelcampos/javadoc/coverage/ReportGenerator.java:80-88 | The report has exactly one class header per class of the class list, in the list's order. |
| Report.ReportPackageLines | src/main/java/com/manoelcampos/javadoc/coverage/ReportGenerator.java:57-62 | The report's package lines are exactly the package list's lines, in order. |
| Report.ReportEndsWithProjectLine | src/main/java/com/manoelcampos/javadoc/coverage/ReportGenerator.java:46-55 | The report ends with the project line followed by one empty line, and the project line is the only one. |
| Report.ReportSectionOrder | src/main/java/com/manoelcampos/javadoc/coverage/ReportGenerator.java:46-55 | The classes section comes first, and the package totals line follows it immediately. No package line precedes that line, and no class header follows it. |
| Report.ExceptionsFlagIgnored | src/main/java/com/manoelcampos/javadoc/coverage/ReportGenerator.java:116-118 | Whether an exceptions group is printed does not depend on its print-if-empty flag. |
| Report.ExceptionsLineIffThrows | src/main/java/com/manoelcampos/javadoc/coverage/ReportGenerator.java:114-118 | For exceptions taken from a method's declaration, there is an exceptions line exactly when the `throws` clause names an exception. |
| Report.UnpositionedGroupHidden | src/main/java/com/manoelcampos/javadoc/coverage/ReportGenerator.java:126-129 | A class member group is left out exactly when it does not ask to be listed and none of its members has a position. |
| Report.ReportGenerator.constructor | src/main/java/com/manoelcampos/javadoc/coverage/ReportGenerator.java:36-39 | The statistics are built once, at construction, from the analysed classes. |
| Report.ReportGenerator.Start | src/main/java/com/manoelcampos/javadoc/coverage/ReportGenerator.java:46-55 | Returns true, and writes exactly the full report: classes section, packages section, project line, empty line. |
| Report.ReportGenerator.ExportPackagesDocStats | src/main/java/com/manoelcampos/javadoc/coverage/ReportGenerator.java:57-62 | Appends the package totals line, one line per package in order, then a blank line. |
| Report.ReportGenerator.ExportPkgsOrClassesDocStats | src/main/java/com/manoelcampos/javadoc/coverage/ReportGenerator.java:64-68 | Appends the aggregate's totals line. |
| Report.ReportGenerator.ExportPackageDocStats | src/main/java/com/manoelcampos/javadoc/coverage/ReportGenerator.java:76-78 | Appends the package's line. |
| Report.ReportGenerator.ExportClassesDocStats | src/main/java/com/manoelcampos/javadoc/coverage/ReportGenerator.java:80-88 | Appends the class totals line, the lines of every class in order, then a blank line. |
| Report.ReportGenerator.ExportClassDocStats | src/main/java/com/manoelcampos/javadoc/coverage/ReportGenerator.java:96-106 | Appends the class header, the fields line, the constructors, the methods, then the enum constants line. |
| Report.ReportGenerator.ExportMethodsDocStats | src/main/java/com/manoelcampos/javadoc/coverage/ReportGenerator.java:108-120 | Appends the lines of every method in order. |
| Report.ReportGenerator.ExportMembersDocStats | src/main/java/com/manoelcampos/javadoc/coverage/ReportGenerator.java:122-138 | Appends the group's line when the group is shown, and nothing otherwise. |

## Left out

- Text formatting (`printf` widths, two-decimal rounding, the `%` sign) is not modelled. Each line is a record of the values it prints.
- Output is not modelled: the `PrintWriter` on standard output, its flushing and its closing. The `Writer` class only collects lines.
- The doclet and `RootDoc` are not modelled. The generator and the statistics take the analysed classes as a sequence. The generator keeps no doclet reference.
- `MembersDocStats`, `MethodTagsDocStats`, `ClassesDocStats`, `PackagesDocStats`, `ClassDocStats`, `MethodDocStats` and `Utils` are not part of this model. Their behaviour is the assumptions listed above.
- The class aggregate and the package aggregate's counters and package list come from supplied functions. The model claims nothing about how packages are deduplicated.
- `double` arithmetic is modelled as exact `real` arithmetic.
- The percentage of a group with no members is the parameter `zeroPct`, because the rule that computes it is not part of this model.
- `long` counters are unbounded naturals, so overflow is not modelled.
- The getters `getPackagesDocStats` and `getClassesDocStats` are field reads of the model's classes.
- `JavaDocsStats.getType` is not modelled: it returns a constant label that the report never prints.
- The other `getType`/`getMembersType`/`getTagName` methods are modelled as constants or fields:
  - `ClassMembersDocStats.getType` is the `membersType` field;
  - `MethodExceptionsDocStats.getMembersType` is `MembersType()`;
  - `MethodExceptionsDocStats.getTagName` is `TagName()`.
- The one-argument `exportMembersDocStats` overload is modelled as its call with an empty format.
- Whether the parser gives every member a source position is not modelled. The note at src/main/java/com/manoelcampos/javadoc/coverage/stats/ClassMembersDocStats.java:53 reports that the member count always equals the array length, so in practice members such as implicit constructors appear to have a position. The lemmas about members without a position (`UnpositionedMemberNotCounted`, `CommentsExceedCountByUnpositioned`, `CommentedUnpositionedMemberOverflows`, `NoPositionFilter`, `UnpositionedGroupHidden`) describe only members the parser leaves without one.
- JavaDocs.JavaDocsStats.ComputePackagesDocsStats: modelled as a static method that takes the class list, where the source has an instance method that reads the classes from the doclet's root (src/main/java/com/manoelcampos/javadoc/coverage/stats/JavaDocsStats.java:54-61). The calls it makes are the same.
