/** The topics manager page: the list of topics narrowed by a search box,
    a subject filter, a mastery filter and the archive switch, and the
    subject list offered by the subject filter. */
module TopicsManagerPage {
  import opened Seqs
  import opened Text
  import opened Types

  /** `text.toLowerCase().includes(term.toLowerCase())`. */
  predicate TextMatches(text: string, term: string)
  {
    Contains(ToLower(text), ToLower(term))
  }

  /** The search box: title, subject or a non-empty sub-topic. */
  predicate MatchesSearch(t: Topic, term: string)
  {
    TextMatches(t.title, term) || TextMatches(t.subject, term)
    || (t.subTopic.Some? && t.subTopic.value != "" && TextMatches(t.subTopic.value, term))
  }

  /** The page's filter state; "all" switches a select off. */
  datatype Filters = Filters(searchTerm: string, selectedSubject: string, selectedMastery: string, showArchived: bool)

  const InitialFilters := Filters("", "all", "all", false)

  /** A topic is listed iff all four conditions hold. */
  predicate Shown(f: Filters, t: Topic)
  {
    MatchesSearch(t, f.searchTerm)
    && (f.selectedSubject == "all" || t.subject == f.selectedSubject)
    && (f.selectedMastery == "all" || MasteryName(t.masteryLevel) == f.selectedMastery)
    && (f.showArchived || !t.isArchived)
  }

  function ShownBy(f: Filters): Topic -> bool
  {
    t => Shown(f, t)
  }

  /** `filteredTopics`. */
  function FilteredTopics(topics: seq<Topic>, f: Filters): seq<Topic>
  {
    Filter(topics, ShownBy(f))
  }

  /** The list holds exactly the topics that pass the filters, in their
      original order. */
  lemma FilteredTopicsFacts(topics: seq<Topic>, f: Filters)
    ensures Subsequence(FilteredTopics(topics, f), topics)
    ensures forall i :: 0 <= i < |FilteredTopics(topics, f)| ==> Shown(f, FilteredTopics(topics, f)[i])
    ensures forall i :: 0 <= i < |topics| && Shown(f, topics[i]) ==> topics[i] in FilteredTopics(topics, f)
  {
    FilterSubsequence(topics, ShownBy(f));
    FilterMembers(topics, ShownBy(f));
  }

  /** For the search, the case of the text and of the term does not matter. */
  lemma SearchIgnoresCase(text: string, term: string)
    ensures TextMatches(text, term) <==> TextMatches(ToLower(text), ToLower(term))
  {
    ToLowerIdempotent(text);
    ToLowerIdempotent(term);
  }

  /** An empty search matches every topic. */
  lemma EmptySearchMatchesAll(t: Topic)
    ensures MatchesSearch(t, "")
  {
    ContainsEmpty(ToLower(t.title));
  }

  /** With an empty search, both selects on "all" and archived topics
      shown, every topic is listed. */
  lemma AllFiltersOff(topics: seq<Topic>)
    ensures FilteredTopics(topics, Filters("", "all", "all", true)) == topics
  {
    forall i | 0 <= i < |topics| ensures Shown(Filters("", "all", "all", true), topics[i]) {
      EmptySearchMatchesAll(topics[i]);
    }
    FilterAll(topics, ShownBy(Filters("", "all", "all", true)));
  }

  /** On opening, every topic that is not archived is listed. */
  lemma InitiallyUnarchived(topics: seq<Topic>)
    ensures forall i :: 0 <= i < |FilteredTopics(topics, InitialFilters)| ==> !FilteredTopics(topics, InitialFilters)[i].isArchived
    ensures forall i :: 0 <= i < |topics| && !topics[i].isArchived ==> topics[i] in FilteredTopics(topics, InitialFilters)
  {
    FilteredTopicsFacts(topics, InitialFilters);
    forall i | 0 <= i < |topics| && !topics[i].isArchived ensures Shown(InitialFilters, topics[i]) {
      EmptySearchMatchesAll(topics[i]);
    }
  }

  /** `topics.map(t => t.subject)`. */
  function SubjectsOf(topics: seq<Topic>): (r: seq<string>)
    ensures |r| == |topics|
  {
    seq(|topics|, i requires 0 <= i < |topics| => topics[i].subject)
  }

  /** `[...new Set(topics.map(t => t.subject))]`. */
  function Subjects(topics: seq<Topic>): seq<string>
  {
    Dedup(SubjectsOf(topics))
  }

  /** Each subject of a topic is offered exactly once, nothing else is
      offered, and subjects come in the order they first occur. */
  lemma SubjectsFacts(topics: seq<Topic>)
    ensures NoDuplicates(Subjects(topics))
    ensures forall i :: 0 <= i < |topics| ==> topics[i].subject in Subjects(topics)
    ensures forall s :: s in Subjects(topics) ==> exists i :: 0 <= i < |topics| && topics[i].subject == s
    ensures forall i, j :: 0 <= i < j < |Subjects(topics)| ==>
              FirstIndex(SubjectsOf(topics), Subjects(topics)[i]) < FirstIndex(SubjectsOf(topics), Subjects(topics)[j])
  {
    var ss := SubjectsOf(topics);
    assert forall i :: 0 <= i < |topics| ==> ss[i] == topics[i].subject;
    DedupOrder(ss);
    forall s | s in Subjects(topics) ensures exists i :: 0 <= i < |topics| && topics[i].subject == s {
      var k :| 0 <= k < |Subjects(topics)| && Subjects(topics)[k] == s;
      var i := FirstIndex(ss, s);
      assert topics[i].subject == s;
    }
  }
}
