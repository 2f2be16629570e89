/** Statistics for one kind of member of a class (its fields, constructors,
    methods or enum constants), read from a fixed snapshot of member docs. */
module ClassMembers {
  import opened Seqs
  import opened SourceModel
  import opened DocStats

  datatype ClassMembersDocStats = ClassMembersDocStats(membersDocs: seq<Doc>, membersType: string)
  {
    /** The members that have a source position; a member the parser reports
        without one is not counted. */
    function MembersNumber(): (n: nat)
      ensures n <= |membersDocs|
      ensures n == |membersDocs| <==> forall i :: 0 <= i < |membersDocs| ==> HasPosition(membersDocs[i])
      ensures n == |KeptIndices(membersDocs, HasPosition)|
    {
      CountIsCardinality(membersDocs, HasPosition);
      CountAll(membersDocs, HasPosition);
      Count(membersDocs, HasPosition)
    }

    /** The raw comment of every member, positioned or not, in array order. */
    function MembersComments(): (cs: seq<string>)
      ensures |cs| == |membersDocs|
      ensures forall i :: 0 <= i < |cs| ==> cs[i] == membersDocs[i].rawCommentText
    {
      seq(|membersDocs|, i requires 0 <= i < |membersDocs| => membersDocs[i].rawCommentText)
    }

    /** The counters this group reports to the report. */
    function Stats(printIfNoMembers: bool): (s: MembersDocStats)
      ensures s.membersType == membersType && s.printIfNoMembers == printIfNoMembers
      ensures s.membersNumber == Count(membersDocs, HasPosition)
      ensures s.documentedMembers == Count(membersDocs, IsCommented)
    {
      DocumentedCountOfMembers(membersDocs, membersType);
      MembersDocStats(membersType, MembersNumber(), DocumentedCount(MembersComments()), printIfNoMembers)
    }
  }

  predicate IsCommented(d: Doc) { d.rawCommentText != "" }

  /** Documented members counted straight from the member docs. */
  lemma {:induction false} DocumentedCountOfMembers(docs: seq<Doc>, membersType: string)
    ensures DocumentedCount(ClassMembersDocStats(docs, membersType).MembersComments()) == Count(docs, IsCommented)
  {
    if docs != [] {
      var n := |docs| - 1;
      var cs := ClassMembersDocStats(docs, membersType).MembersComments();
      DocumentedCountOfMembers(docs[..n], membersType);
      assert cs[..n] == ClassMembersDocStats(docs[..n], membersType).MembersComments();
    }
  }

  /** Adding a member that has no position, anywhere in the array, leaves the
      member count unchanged. */
  lemma UnpositionedMemberNotCounted(g: ClassMembersDocStats, k: nat, d: Doc)
    requires LacksPosition(d)
    requires k <= |g.membersDocs|
    ensures ClassMembersDocStats(g.membersDocs[..k] + [d] + g.membersDocs[k..], g.membersType).MembersNumber()
            == g.MembersNumber()
  {
    var before, after := g.membersDocs[..k], g.membersDocs[k..];
    assert g.membersDocs == before + after;
    CountAppend(before + [d], after, HasPosition);
    CountAppend(before, [d], HasPosition);
    CountAppend(before, after, HasPosition);
    assert [d][..0] == [];
  }

  /** The comments stream is longer than the member count by exactly the
      number of members without a position. */
  lemma CommentsExceedCountByUnpositioned(g: ClassMembersDocStats)
    ensures |g.MembersComments()| == g.MembersNumber() + Count(g.membersDocs, LacksPosition)
  {
    CountComplement(g.membersDocs, HasPosition, LacksPosition);
  }

  /** When every member without a position carries an empty comment, the
      documented count never exceeds the member count, so the undocumented
      count is never negative and the percentage stays within 0..100. */
  lemma DocumentedWithinMembers(g: ClassMembersDocStats, zeroPct: real)
    requires forall i :: 0 <= i < |g.membersDocs| && LacksPosition(g.membersDocs[i]) ==>
               g.membersDocs[i].rawCommentText == ""
    requires 0.0 <= zeroPct <= 100.0
    ensures g.Stats(false).documentedMembers <= g.Stats(false).membersNumber
    ensures g.Stats(false).UndocumentedMembers() >= 0
    ensures 0.0 <= g.Stats(false).DocumentedMembersPercent(zeroPct) <= 100.0
  {
    CountMonotone(g.membersDocs, IsCommented, HasPosition);
    var s := g.Stats(false);
    PercentRange(s.documentedMembers, s.membersNumber, zeroPct);
  }

  /** Without that condition the counts disagree: a member without a position
      that carries a comment is documented but not a member. */
  lemma CommentedUnpositionedMemberOverflows()
    ensures var g := ClassMembersDocStats([Doc("Foo", None, "/** Creates a Foo. */")], "Constructors");
            g.Stats(false).membersNumber == 0 &&
            g.Stats(false).documentedMembers == 1 &&
            g.Stats(false).UndocumentedMembers() == -1
  {
    var docs := [Doc("Foo", None, "/** Creates a Foo. */")];
    var g := ClassMembersDocStats(docs, "Constructors");
    assert docs[..0] == [];
    assert g.MembersComments() == ["/** Creates a Foo. */"];
    assert ["/** Creates a Foo. */"][..0] == [];
  }
}
