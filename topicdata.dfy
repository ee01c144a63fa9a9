/** The built-in catalogue of topic names by subject, offered by the
    searchable topic picker. */
module TopicCatalogue {
  import opened Wrappers

  datatype SubjectTopics = SubjectTopics(subject: string, topics: seq<string>)

  /** `topicsBySubject`, in declaration order. */
  const Catalogue: seq<SubjectTopics> := [
    SubjectTopics("Mathematics", [
      "Calculus - Limits and Continuity",
      "Calculus - Differentiation",
      "Calculus - Integration",
      "Linear Algebra - Matrices",
      "Linear Algebra - Vectors",
      "Statistics - Probability",
      "Statistics - Distributions",
      "Trigonometry - Identities",
      "Trigonometry - Equations",
      "Geometry - Coordinate Geometry",
      "Algebra - Quadratic Equations",
      "Algebra - Polynomials"
    ]),
    SubjectTopics("Physics", [
      "Mechanics - Newton's Laws",
      "Mechanics - Energy and Momentum",
      "Thermodynamics - Heat Transfer",
      "Thermodynamics - Laws of Thermodynamics",
      "Electromagnetism - Electric Fields",
      "Electromagnetism - Magnetic Fields",
      "Optics - Ray Optics",
      "Optics - Wave Optics",
      "Modern Physics - Quantum Mechanics",
      "Modern Physics - Relativity",
      "Waves - Sound Waves",
      "Waves - Electromagnetic Waves"
    ]),
    SubjectTopics("Chemistry", [
      "Organic Chemistry - Hydrocarbons",
      "Organic Chemistry - Functional Groups",
      "Inorganic Chemistry - Periodic Table",
      "Inorganic Chemistry - Chemical Bonding",
      "Physical Chemistry - Thermodynamics",
      "Physical Chemistry - Kinetics",
      "Physical Chemistry - Electrochemistry",
      "Analytical Chemistry - Qualitative Analysis",
      "Analytical Chemistry - Quantitative Analysis",
      "Environmental Chemistry - Pollution",
      "Biochemistry - Enzymes",
      "Biochemistry - Metabolism"
    ]),
    SubjectTopics("Biology", [
      "Cell Biology - Cell Structure",
      "Cell Biology - Cell Division",
      "Genetics - Inheritance",
      "Genetics - DNA and RNA",
      "Evolution - Natural Selection",
      "Evolution - Speciation",
      "Ecology - Ecosystems",
      "Ecology - Food Chains",
      "Human Anatomy - Respiratory System",
      "Human Anatomy - Circulatory System",
      "Plant Biology - Photosynthesis",
      "Plant Biology - Plant Reproduction"
    ]),
    SubjectTopics("English", [
      "Literature - Poetry Analysis",
      "Literature - Novel Studies",
      "Grammar - Parts of Speech",
      "Grammar - Sentence Structure",
      "Writing - Essay Composition",
      "Writing - Creative Writing",
      "Reading Comprehension - Fiction",
      "Reading Comprehension - Non-fiction",
      "Vocabulary - Etymology",
      "Vocabulary - Context Clues",
      "Public Speaking - Presentation Skills",
      "Public Speaking - Debate Techniques"
    ]),
    SubjectTopics("History", [
      "Ancient History - Civilizations",
      "Ancient History - Classical Period",
      "Medieval History - Feudalism",
      "Medieval History - Crusades",
      "Modern History - Industrial Revolution",
      "Modern History - World Wars",
      "Contemporary History - Cold War",
      "Contemporary History - Globalization",
      "Social History - Cultural Movements",
      "Social History - Revolutionary Changes",
      "Political History - Government Systems",
      "Political History - Democracy"
    ]),
    SubjectTopics("Geography", [
      "Physical Geography - Climate",
      "Physical Geography - Landforms",
      "Human Geography - Population",
      "Human Geography - Migration",
      "Economic Geography - Trade",
      "Economic Geography - Resources",
      "Environmental Geography - Conservation",
      "Environmental Geography - Sustainability",
      "Regional Geography - Continents",
      "Regional Geography - Countries",
      "Cartography - Map Reading",
      "Cartography - GIS Systems"
    ]),
    SubjectTopics("Computer Science", [
      "Programming - Data Structures",
      "Programming - Algorithms",
      "Programming - Object-Oriented Programming",
      "Database - SQL Queries",
      "Database - Database Design",
      "Networks - TCP/IP Protocol",
      "Networks - Network Security",
      "Web Development - HTML/CSS",
      "Web Development - JavaScript",
      "Software Engineering - Design Patterns",
      "Software Engineering - Testing",
      "Artificial Intelligence - Machine Learning"
    ]),
    SubjectTopics("Economics", [
      "Microeconomics - Supply and Demand",
      "Microeconomics - Market Structures",
      "Macroeconomics - GDP and Growth",
      "Macroeconomics - Inflation",
      "International Economics - Trade",
      "International Economics - Exchange Rates",
      "Development Economics - Poverty",
      "Development Economics - Economic Growth",
      "Financial Economics - Banking",
      "Financial Economics - Investment",
      "Behavioral Economics - Decision Making",
      "Behavioral Economics - Market Psychology"
    ]),
    SubjectTopics("Psychology", [
      "Cognitive Psychology - Memory",
      "Cognitive Psychology - Learning",
      "Social Psychology - Group Behavior",
      "Social Psychology - Social Influence",
      "Developmental Psychology - Child Development",
      "Developmental Psychology - Adolescence",
      "Abnormal Psychology - Mental Disorders",
      "Abnormal Psychology - Therapy",
      "Biological Psychology - Brain Function",
      "Biological Psychology - Neurotransmitters",
      "Research Methods - Statistics",
      "Research Methods - Experimental Design"
    ])
  ]

  /** `Object.values(catalogue).flat()`. */
  function Flatten(cs: seq<SubjectTopics>): seq<string>
  {
    if cs == [] then [] else cs[0].topics + Flatten(cs[1..])
  }

  /** `getAllTopics()`. */
  function GetAllTopics(): seq<string>
  {
    Flatten(Catalogue)
  }

  /** The entry for a subject, if the catalogue has one. */
  function Lookup(cs: seq<SubjectTopics>, subject: string): (r: Option<seq<string>>)
    ensures r.None? <==> forall k :: 0 <= k < |cs| ==> cs[k].subject != subject
  {
    if cs == [] then None
    else if cs[0].subject == subject then Some(cs[0].topics)
    else Lookup(cs[1..], subject)
  }

  /** `getTopicsBySubject(subject)`: the subject's list, or `[]` for an
      unknown subject. */
  function GetTopicsBySubject(subject: string): seq<string>
  {
    match Lookup(Catalogue, subject)
    case Some(ts) => ts
    case None => []
  }

  /** The subjects of a catalogue, in order. */
  function SubjectNames(cs: seq<SubjectTopics>): (r: seq<string>)
    ensures |r| == |cs|
  {
    seq(|cs|, k requires 0 <= k < |cs| => cs[k].subject)
  }

  predicate DistinctSubjects(cs: seq<SubjectTopics>)
  {
    forall i, j :: 0 <= i < j < |cs| ==> cs[i].subject != cs[j].subject
  }

  /** Ten subjects, twelve topics each, no subject twice. */
  lemma CatalogueShape()
    ensures |Catalogue| == 10
    ensures forall k :: 0 <= k < |Catalogue| ==> |Catalogue[k].topics| == 12
    ensures DistinctSubjects(Catalogue)
  {
  }

  /** Flattening lists of `n` topics each gives `n` times as many. */
  lemma {:induction false} FlattenLength(cs: seq<SubjectTopics>, n: nat)
    requires forall k :: 0 <= k < |cs| ==> |cs[k].topics| == n
    ensures |Flatten(cs)| == |cs| * n
    decreases |cs|
  {
    if cs != [] {
      FlattenLength(cs[1..], n);
    }
  }

  /** `getAllTopics()` lists 120 topics. */
  lemma AllTopicsCount()
    ensures |GetAllTopics()| == 120
  {
    CatalogueShape();
    FlattenLength(Catalogue, 12);
  }

  /** With distinct subjects, looking up the subject of entry `k` gives that
      entry's list, whose topics all appear in the flattened list. */
  lemma {:induction false} LookupEntry(cs: seq<SubjectTopics>, k: nat)
    requires k < |cs| && DistinctSubjects(cs)
    ensures Lookup(cs, cs[k].subject) == Some(cs[k].topics)
    ensures forall t :: t in cs[k].topics ==> t in Flatten(cs)
    decreases k
  {
    if k > 0 {
      assert cs[0].subject != cs[k].subject;
      assert cs[1..][k - 1] == cs[k];
      LookupEntry(cs[1..], k - 1);
    }
  }

  /** In a catalogue without repeated subjects, every subject gives back
      its own list, every topic offered for a subject is among all topics,
      and an unknown subject gives no list. */
  lemma LookupFacts(cs: seq<SubjectTopics>, subject: string, k: nat)
    requires k < |cs| && DistinctSubjects(cs)
    ensures Lookup(cs, cs[k].subject) == Some(cs[k].topics)
    ensures Lookup(cs, subject).Some? ==> forall t :: t in Lookup(cs, subject).value ==> t in Flatten(cs)
    ensures subject !in SubjectNames(cs) ==> Lookup(cs, subject).None?
  {
    LookupEntry(cs, k);
    if Lookup(cs, subject).Some? {
      var j := FindSubject(cs, subject);
      LookupEntry(cs, j);
    }
    if subject !in SubjectNames(cs) {
      assert forall i :: 0 <= i < |cs| ==> SubjectNames(cs)[i] == cs[i].subject;
    }
  }

  /** The same for the built-in catalogue and `getTopicsBySubject`. */
  lemma TopicsBySubjectFacts(subject: string, k: nat)
    requires k < |Catalogue|
    ensures GetTopicsBySubject(Catalogue[k].subject) == Catalogue[k].topics
    ensures forall t :: t in GetTopicsBySubject(subject) ==> t in GetAllTopics()
    ensures subject !in SubjectNames(Catalogue) ==> GetTopicsBySubject(subject) == []
  {
    CatalogueShape();
    LookupFacts(Catalogue, subject, k);
  }

  /** The position of a subject the catalogue has. */
  function FindSubject(cs: seq<SubjectTopics>, subject: string): (k: nat)
    requires Lookup(cs, subject).Some?
    ensures k < |cs| && cs[k].subject == subject
  {
    if cs[0].subject == subject then 0 else 1 + FindSubject(cs[1..], subject)
  }
}
