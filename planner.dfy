/** The planner page: its own topic filter (title or subject search, a
    subject select, archived topics never listed), the mastery badge
    colour, the five difficulty stars and the three quick statistics. */
module PlannerPage {
  import opened Wrappers
  import opened Seqs
  import opened Numbers
  import opened Text
  import opened Types
  import TopicsManagerPage

  /** The planner's condition: the search looks at title and subject only,
      and archived topics are always left out. */
  predicate Listed(searchQuery: string, filterSubject: string, t: Topic)
  {
    (TopicsManagerPage.TextMatches(t.title, searchQuery) || TopicsManagerPage.TextMatches(t.subject, searchQuery))
    && (filterSubject == "all" || t.subject == filterSubject)
    && !t.isArchived
  }

  function ListedBy(searchQuery: string, filterSubject: string): Topic -> bool
  {
    t => Listed(searchQuery, filterSubject, t)
  }

  /** `filteredTopics`. */
  function FilteredTopics(topics: seq<Topic>, searchQuery: string, filterSubject: string): seq<Topic>
  {
    Filter(topics, ListedBy(searchQuery, filterSubject))
  }

  /** The list holds exactly the unarchived topics that match, in order. */
  lemma FilteredTopicsFacts(topics: seq<Topic>, q: string, s: string)
    ensures Subsequence(FilteredTopics(topics, q, s), topics)
    ensures forall i :: 0 <= i < |FilteredTopics(topics, q, s)| ==>
              Listed(q, s, FilteredTopics(topics, q, s)[i]) && !FilteredTopics(topics, q, s)[i].isArchived
    ensures forall i :: 0 <= i < |topics| && Listed(q, s, topics[i]) ==> topics[i] in FilteredTopics(topics, q, s)
  {
    FilterSubsequence(topics, ListedBy(q, s));
    FilterMembers(topics, ListedBy(q, s));
  }

  /** Whatever the planner lists, the topics manager lists too under the
      same search and subject with archived topics hidden; the converse
      fails for a topic found only through its sub-topic. */
  lemma PlannerNarrowerThanManager(q: string, s: string, t: Topic)
    ensures Listed(q, s, t) ==> TopicsManagerPage.Shown(TopicsManagerPage.Filters(q, s, "all", false), t)
    ensures !Listed("calc", "all", SubTopicOnly) && TopicsManagerPage.Shown(TopicsManagerPage.Filters("calc", "all", "all", false), SubTopicOnly)
  {
    SubTopicOnlyMatches();
  }

  const SubTopicOnly := Topic("t", "Maths", "Limits", Some("Calculus"), None, 30, 3, 3, Beginner, false, false, 0, 0)

  lemma SubTopicOnlyMatches()
    ensures !TopicsManagerPage.TextMatches("Limits", "calc") && !TopicsManagerPage.TextMatches("Maths", "calc")
    ensures TopicsManagerPage.TextMatches("Calculus", "calc")
  {
    assert ToLower("calc") == "calc";
    assert ToLower("Calculus") == "calculus";
    assert OccursAt("calculus", "calc", 0);
    assert ToLower("Limits") == "limits";
    assert ToLower("Maths") == "maths";
    NoLetterC("limits");
    NoLetterC("maths");
  }

  lemma NoLetterC(s: string)
    requires forall k :: 0 <= k < |s| ==> s[k] != 'c'
    ensures !Contains(s, "calc")
  {
    forall i ensures !OccursAt(s, "calc", i) {
      if 0 <= i && i + 4 <= |s| {
        assert s[i..i + 4][0] == s[i];
      }
    }
  }

  /** `[...new Set(topics.map(t => t.subject))]`, the same list as on the
      topics manager page. */
  function Subjects(topics: seq<Topic>): seq<string>
  {
    TopicsManagerPage.Subjects(topics)
  }

  // ---------------------------------------------------------------------
  // Badges and stars
  // ---------------------------------------------------------------------

  datatype Variant = Destructive | Warning | Success | Default | Secondary

  /** `getMasteryColor(level)`. */
  function MasteryColor(level: string): Variant
  {
    if level == "Beginner" then Destructive
    else if level == "Intermediate" then Warning
    else if level == "Advanced" then Success
    else if level == "Mastered" then Default
    else Secondary
  }

  /** Each mastery level has a colour of its own, and any other text falls
      back to the secondary colour. */
  lemma MasteryColors(m: Mastery, n: Mastery, level: string)
    ensures MasteryColor(MasteryName(m)) != Secondary
    ensures MasteryColor(MasteryName(m)) == MasteryColor(MasteryName(n)) ==> m == n
    ensures ParseMastery(level).None? ==> MasteryColor(level) == Secondary
  {
  }

  /** `getDifficultyStars(difficulty)`: star `i` is filled iff `i < difficulty`. */
  function Stars(difficulty: int): seq<bool>
  {
    StarsFrom(5, difficulty)
  }

  function StarsFrom(n: nat, difficulty: int): (r: seq<bool>)
    ensures |r| == n
  {
    seq(n, i requires 0 <= i < n => i < difficulty)
  }

  function IsFilled(b: bool): bool { b }

  /** Of `n` stars, `difficulty` are filled, within 0 and `n`. */
  lemma {:induction false} StarsFromFilled(n: nat, d: int)
    ensures Count(StarsFrom(n, d), IsFilled) == Clamp(0, n, d)
    decreases n
  {
    if n > 0 {
      StarsFromFilled(n - 1, d - 1);
      var r := StarsFrom(n, d);
      assert r[1..] == StarsFrom(n - 1, d - 1);
    }
  }

  /** Exactly five stars are drawn; a difficulty from 1 to 5 fills that
      many, the first ones. */
  lemma StarsFilled(d: Score)
    ensures |Stars(d)| == 5
    ensures Count(Stars(d), IsFilled) == d
    ensures forall i :: 0 <= i < 5 ==> (Stars(d)[i] <==> i < d)
  {
    StarsFromFilled(5, d);
  }

  // ---------------------------------------------------------------------
  // Quick statistics
  // ---------------------------------------------------------------------

  function IsMustWin(t: Topic): bool { t.mustWin }
  function IsArchived(t: Topic): bool { t.isArchived }
  function IsUnarchived(t: Topic): bool { !t.isArchived }
  function EstimatedMinutes(t: Topic): int { t.estimatedMinutes }
  function Difficulty(t: Topic): int { t.difficulty }

  /** `topics.filter(t => t.mustWin).length`. */
  function MustWinCount(topics: seq<Topic>): nat
  {
    Count(topics, IsMustWin)
  }

  /** `topics.reduce((sum, t) => sum + t.estimatedMinutes, 0)`. */
  function TotalMinutes(topics: seq<Topic>): int
  {
    SumBy(topics, EstimatedMinutes)
  }

  /** Both statistics run over every topic, archived ones included: they
      are the sums over the unarchived and the archived topics. */
  lemma {:induction false} StatsIncludeArchived(topics: seq<Topic>)
    ensures MustWinCount(topics) == MustWinCount(Filter(topics, IsUnarchived)) + MustWinCount(Filter(topics, IsArchived))
    ensures TotalMinutes(topics) == TotalMinutes(Filter(topics, IsUnarchived)) + TotalMinutes(Filter(topics, IsArchived))
    decreases |topics|
  {
    if topics != [] {
      var t := topics[0];
      var rest := topics[1..];
      StatsIncludeArchived(rest);
      var u := if !t.isArchived then [t] else [];
      var a := if t.isArchived then [t] else [];
      assert Filter(topics, IsUnarchived) == u + Filter(rest, IsUnarchived);
      assert Filter(topics, IsArchived) == a + Filter(rest, IsArchived);
      CountConcat(u, Filter(rest, IsUnarchived), IsMustWin);
      CountConcat(a, Filter(rest, IsArchived), IsMustWin);
      SumByConcat(u, Filter(rest, IsUnarchived), EstimatedMinutes);
      SumByConcat(a, Filter(rest, IsArchived), EstimatedMinutes);
    }
  }

  /** The average difficulty: `None` for no topics (shown as '0'),
      otherwise the mean over all topics. */
  function AverageDifficulty(topics: seq<Topic>): (r: Option<real>)
    ensures r.None? <==> topics == []
  {
    if |topics| > 0 then Some(SumBy(topics, Difficulty) as real / |topics| as real) else None
  }

  /** A mean of difficulties stays within the difficulty scale. */
  lemma AverageDifficultyBounds(topics: seq<Topic>)
    requires topics != []
    ensures 1.0 <= AverageDifficulty(topics).value <= 5.0
  {
    forall i | 0 <= i < |topics| ensures 1 <= Difficulty(topics[i]) <= 5 {
    }
    SumByBounds(topics, Difficulty, 1, 5);
    IntMeanWithin(SumBy(topics, Difficulty), |topics|, 1, 5);
  }
}
