/** Statistics for the exceptions a method declares in its `throws` clause,
    documented through the method's `@throws` tags. */
module MethodExceptions {
  import opened Seqs
  import opened SourceModel
  import opened DocStats
  import ClassMembers

  const ExceptionsType: string := "Exceptions"
  const ThrowsTag: string := "@throws"

  /** Texts of the tags named `tagName`, in comment order: the comments of a
      tag-documented group. */
  function TagTexts(tags: seq<Tag>, tagName: string): (texts: seq<string>)
    ensures |texts| == Count(tags, (t: Tag) => t.name == tagName)
    ensures forall i :: 0 <= i < |texts| ==> texts[i] == Filter(tags, (t: Tag) => t.name == tagName)[i].text
  {
    if tags == [] then []
    else
      var last := tags[|tags| - 1];
      TagTexts(tags[..|tags| - 1], tagName) + (if last.name == tagName then [last.text] else [])
  }

  /** A `@throws` tag whose text is not empty. */
  predicate DocumentsException(t: Tag) { t.name == ThrowsTag && t.text != "" }

  /** The documented count of the `@throws` texts is the number of `@throws`
      tags with a non-empty text. */
  lemma {:induction false} ThrowsTagsDocument(tags: seq<Tag>)
    ensures DocumentedCount(TagTexts(tags, ThrowsTag)) == Count(tags, DocumentsException)
  {
    if tags != [] {
      var n := |tags| - 1;
      var prefix := TagTexts(tags[..n], ThrowsTag);
      ThrowsTagsDocument(tags[..n]);
      if tags[n].name == ThrowsTag {
        assert TagTexts(tags, ThrowsTag) == prefix + [tags[n].text];
        assert (prefix + [tags[n].text])[..|prefix|] == prefix;
      } else {
        assert TagTexts(tags, ThrowsTag) == prefix + [];
        assert prefix + [] == prefix;
      }
    }
  }

  datatype MethodExceptionsDocStats = MethodExceptionsDocStats(methodDoc: MethodDoc)
  {
    function MembersType(): string { ExceptionsType }

    function TagName(): string { ThrowsTag }

    /** Every exception named in the `throws` clause, with or without a position. */
    function MembersNumber(): nat
    {
      |methodDoc.thrownExceptions|
    }

    function MembersComments(): seq<string>
    {
      TagTexts(methodDoc.tags, TagName())
    }

    /** The counters this group reports to the report. */
    function Stats(printIfNoMembers: bool): (s: MembersDocStats)
      ensures s.membersType == "Exceptions" && s.printIfNoMembers == printIfNoMembers
      ensures s.membersNumber == |methodDoc.thrownExceptions|
      ensures s.documentedMembers == Count(methodDoc.tags, DocumentsException)
    {
      ThrowsTagsDocument(methodDoc.tags);
      MembersDocStats(MembersType(), MembersNumber(), DocumentedCount(MembersComments()), printIfNoMembers)
    }
  }

  /** A tag other than `@throws`, added anywhere in the comment, leaves the
      exception statistics unchanged. */
  lemma OnlyThrowsTagsDocument(md: MethodDoc, k: nat, t: Tag, printIfNoMembers: bool)
    requires k <= |md.tags|
    requires t.name != "@throws"
    ensures MethodExceptionsDocStats(md.(tags := md.tags[..k] + [t] + md.tags[k..])).Stats(printIfNoMembers)
            == MethodExceptionsDocStats(md).Stats(printIfNoMembers)
  {
    var before, after := md.tags[..k], md.tags[k..];
    assert md.tags == before + after;
    CountAppend(before + [t], after, DocumentsException);
    CountAppend(before, [t], DocumentsException);
    CountAppend(before, after, DocumentsException);
    assert [t][..0] == [];
  }

  /** Unlike class members, declared exceptions are not filtered by position:
      the exception count is at least what a position-filtered group over the
      same docs would count, and exceeds it exactly when some declared
      exception has no position. */
  lemma NoPositionFilter(md: MethodDoc)
    ensures var filtered := ClassMembers.ClassMembersDocStats(md.thrownExceptions, ExceptionsType).MembersNumber();
            MethodExceptionsDocStats(md).MembersNumber() >= filtered &&
            (MethodExceptionsDocStats(md).MembersNumber() > filtered <==>
               exists i :: 0 <= i < |md.thrownExceptions| && LacksPosition(md.thrownExceptions[i]))
  {
  }

  /** Documented exceptions are counted from the tags and members from the
      declaration, independently: a `@throws` tag for an unchecked exception the
      method does not declare makes the documented count exceed the member count. */
  lemma UndeclaredThrowsTagOverflows()
    ensures var md := MethodDoc("parse", [], [Tag("@throws", "IllegalArgumentException if the text is empty")]);
            var s := MethodExceptionsDocStats(md).Stats(false);
            s.membersNumber == 0 && s.documentedMembers == 1 && s.UndocumentedMembers() == -1
  {
    var t := Tag("@throws", "IllegalArgumentException if the text is empty");
    var md := MethodDoc("parse", [], [t]);
    assert [t][..0] == [];
    assert MethodExceptionsDocStats(md).MembersComments() == [t.text];
    assert [t.text][..0] == [];
  }
}
