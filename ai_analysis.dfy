/**
  The simulated analysis pipeline of the `/api/ai` routes: vector search over
  a fixed pool of eight job postings, skill-gap detection, the retrieval
  roadmap and the fixed-shape LLM feedback, composed by `/analyze-resume`.

  Every `Math.random()` draw is an explicit parameter. Similarities are fixed
  point in basis points (1/10000), the resolution `toFixed(4)` leaves.
 */
module AiAnalysis {
  import opened Wrappers
  import opened Strings
  import opened Seqs

  // ─── Job pool and vector search ──────────────────────────────────────────

  /** A posting of the fixed job pool. */
  datatype Job = Job(title: string, company: string, skills: seq<string>)

  const JobPool: seq<Job> := [
    Job("Frontend Developer Intern", "TechCorp Inc.", ["React", "TypeScript", "CSS", "JavaScript"]),
    Job("Junior Software Engineer", "InnovateSoft", ["Python", "Django", "PostgreSQL", "REST APIs"]),
    Job("Data Analyst Co-op", "DataDriven Labs", ["SQL", "Python", "Tableau", "Statistics"]),
    Job("Cloud Engineering Intern", "CloudScale Systems", ["AWS", "Docker", "Kubernetes", "Terraform"]),
    Job("ML Engineer Intern", "DeepLearn AI", ["Python", "PyTorch", "TensorFlow", "NLP"]),
    Job("Full-Stack Developer", "WebForge Studio", ["React", "Node.js", "MongoDB", "GraphQL"]),
    Job("DevOps Intern", "PipelineOps", ["CI/CD", "Docker", "Linux", "AWS"]),
    Job("Backend Engineer", "ScaleAPI", ["Go", "Rust", "PostgreSQL", "gRPC"])
  ]

  const VectorDb: string := "Pinecone"
  const RagModel: string := "GPT-4o-mini"

  /** Similarity constants in basis points: 0.45, 0.12 per matched skill, jitter below 0.08, cap 0.99. */
  const Baseline: nat := 4500
  const WeightPerSkill: nat := 1200
  const JitterSpan: nat := 800
  const Cap: nat := 9900

  /** One ranked posting: the job, its similarity (basis points) and the skills it shares with the input. */
  datatype SearchResult = SearchResult(job: Job, similarity: nat, matchedSkills: seq<string>, vectorDB: string)

  /** The lower-cased input skills, `skills.map(sk => sk.toLowerCase())`. */
  function LowerAll(skills: seq<string>): (r: seq<string>)
    ensures |r| == |skills|
    ensures forall k :: 0 <= k < |skills| ==> r[k] == LowerStr(skills[k])
  {
    seq(|skills|, k requires 0 <= k < |skills| => LowerStr(skills[k]))
  }

  /** `skills.map(sk => sk.toLowerCase()).includes(s.toLowerCase())`. */
  predicate Knows(skills: seq<string>, s: string)
  {
    LowerStr(s) in LowerAll(skills)
  }

  /** `Knows` is case-insensitive membership. */
  lemma KnowsIff(skills: seq<string>, s: string)
    ensures Knows(skills, s) <==> exists k :: 0 <= k < |skills| && EqualsIgnoreCase(s, skills[k])
  {
    if Knows(skills, s) {
      var k :| 0 <= k < |skills| && LowerAll(skills)[k] == LowerStr(s);
      assert EqualsIgnoreCase(s, skills[k]);
    }
  }

  /** `job.skills.filter(s => Knows(skills, s))`. */
  function MatchedSkills(job: Job, skills: seq<string>): seq<string>
  {
    Filter(job.skills, s => Knows(skills, s))
  }

  /**
    The matched skills are the subsequence of the posting's skills that equal
    some input skill ignoring case: in posting order, all of them, nothing else.
   */
  lemma MatchedSkillsSpec(job: Job, skills: seq<string>)
    ensures IsSubseq(MatchedSkills(job, skills), job.skills)
    ensures forall i :: 0 <= i < |MatchedSkills(job, skills)| ==>
      MatchedSkills(job, skills)[i] in job.skills && Knows(skills, MatchedSkills(job, skills)[i])
    ensures forall i :: 0 <= i < |job.skills| && Knows(skills, job.skills[i]) ==>
      job.skills[i] in MatchedSkills(job, skills)
  {
    FilterIsSubseq(job.skills, s => Knows(skills, s));
  }

  /**
    A candidate with React, TypeScript and JavaScript matches those three
    skills of the frontend posting, in the posting's order, and not CSS.
   */
  lemma FrontendScenario()
    ensures MatchedSkills(JobPool[0], ["React", "TypeScript", "JavaScript"]) == ["React", "TypeScript", "JavaScript"]
  {
    var input := ["React", "TypeScript", "JavaScript"];
    assert JobPool[0].skills == ["React", "TypeScript", "CSS", "JavaScript"];
    assert LowerAll(input) == [LowerStr("React"), LowerStr("TypeScript"), LowerStr("JavaScript")];
    assert Knows(input, "React") && Knows(input, "TypeScript") && Knows(input, "JavaScript");
    assert LowerStr("CSS") == "css";
    assert LowerStr("React") == "react";
    assert LowerStr("TypeScript") == "typescript";
    assert LowerStr("JavaScript") == "javascript";
    assert !Knows(input, "CSS");
  }

  /** `Math.min(0.99, 0.45 + overlap * 0.12 + jitter)` in basis points. */
  function Similarity(overlap: nat, jitter: nat): (bp: nat)
    requires jitter <= JitterSpan
    ensures Baseline <= bp <= Cap
  {
    var raw := Baseline + WeightPerSkill * overlap + jitter;
    if raw < Cap then raw else Cap
  }

  /** For a fixed jitter, more matched skills never lower the similarity. */
  lemma SimilarityMonotone(o1: nat, o2: nat, jitter: nat)
    requires o1 <= o2 && jitter <= JitterSpan
    ensures Similarity(o1, jitter) <= Similarity(o2, jitter)
  {
  }

  /** A pool posting lists four skills, so it matches at most four. */
  lemma OverlapAtMostFour(k: nat, skills: seq<string>)
    requires k < |JobPool|
    ensures |MatchedSkills(JobPool[k], skills)| <= 4
  {
    assert |JobPool[k].skills| == 4;
  }

  /**
    With the at most four matches a pool posting allows, the 0.99 cap is
    reached exactly with all four matched and a jitter of at least 0.06.
   */
  lemma SimilarityCapped(overlap: nat, jitter: nat)
    requires overlap <= 4 && jitter <= JitterSpan
    ensures Similarity(overlap, jitter) == Cap <==> overlap == 4 && jitter >= 600
  {
  }

  /** One jitter draw per pool posting, each `Math.random() * 0.08` in basis points. */
  predicate ValidJitter(jitter: seq<nat>)
  {
    |jitter| == |JobPool| && forall i :: 0 <= i < |jitter| ==> jitter[i] <= JitterSpan
  }

  /** The mapped result for one posting. */
  function ScoreJob(job: Job, skills: seq<string>, jitter: nat): (r: SearchResult)
    requires jitter <= JitterSpan
    ensures r.job == job && r.vectorDB == VectorDb
    ensures r.matchedSkills == MatchedSkills(job, skills)
    ensures Baseline <= r.similarity <= Cap
  {
    var overlap := MatchedSkills(job, skills);
    SearchResult(job, Similarity(|overlap|, jitter), overlap, VectorDb)
  }

  /** `jobPool.map(...)`, before sorting. */
  function Scored(skills: seq<string>, jitter: seq<nat>): (r: seq<SearchResult>)
    requires ValidJitter(jitter)
    ensures |r| == |JobPool|
    ensures forall i :: 0 <= i < |r| ==> r[i] == ScoreJob(JobPool[i], skills, jitter[i])
  {
    seq(|JobPool|, i requires 0 <= i < |JobPool| => ScoreJob(JobPool[i], skills, jitter[i]))
  }

  // ─── Stable sort by descending similarity ────────────────────────────────

  /** Non-increasing similarity. */
  ghost predicate SortedDesc(s: seq<SearchResult>)
  {
    forall i, j :: 0 <= i < j < |s| ==> s[i].similarity >= s[j].similarity
  }

  /** The results whose similarity is exactly `v`, in order. */
  function WithSimilarity(s: seq<SearchResult>, v: nat): seq<SearchResult>
    decreases |s|
  {
    if s == [] then [] else (if s[0].similarity == v then [s[0]] else []) + WithSimilarity(s[1..], v)
  }

  lemma WithSimilarityCons(x: SearchResult, l: seq<SearchResult>, v: nat)
    ensures WithSimilarity([x] + l, v) == (if x.similarity == v then [x] else []) + WithSimilarity(l, v)
  {
    assert ([x] + l)[1..] == l;
  }

  /** Insert `x` in front of the first result it is at least as similar as. */
  function Insert(x: SearchResult, l: seq<SearchResult>): (r: seq<SearchResult>)
    ensures |r| == |l| + 1
    ensures multiset(r) == multiset(l) + multiset{x}
    decreases |l|
  {
    if l == [] || x.similarity >= l[0].similarity then [x] + l
    else
      assert l == [l[0]] + l[1..];
      [l[0]] + Insert(x, l[1..])
  }

  /**
    `array.sort((a, b) => b.cosineSimilarity - a.cosineSimilarity)`: JavaScript's
    sort is stable, so this is the insertion sort below.
   */
  function SortBySimilarity(s: seq<SearchResult>): (r: seq<SearchResult>)
    ensures |r| == |s|
    ensures multiset(r) == multiset(s)
    decreases |s|
  {
    if s == [] then []
    else
      assert s == [s[0]] + s[1..];
      Insert(s[0], SortBySimilarity(s[1..]))
  }

  lemma {:induction false} InsertSorted(x: SearchResult, l: seq<SearchResult>)
    requires SortedDesc(l)
    ensures SortedDesc(Insert(x, l))
    decreases |l|
  {
    if !(l == [] || x.similarity >= l[0].similarity) {
      InsertSorted(x, l[1..]);
      var tail := Insert(x, l[1..]);
      forall y | y in tail
        ensures y.similarity <= l[0].similarity
      {
        assert y in multiset(l[1..]) + multiset{x};
      }
    }
  }

  /** Inserting into a sorted list keeps `x` ahead of every later result of equal similarity. */
  lemma {:induction false} InsertStable(x: SearchResult, l: seq<SearchResult>, v: nat)
    requires SortedDesc(l)
    ensures WithSimilarity(Insert(x, l), v) == WithSimilarity([x] + l, v)
    decreases |l|
  {
    if !(l == [] || x.similarity >= l[0].similarity) {
      var y, t := l[0], l[1..];
      assert l == [y] + t;
      assert SortedDesc(t) by {
        forall i, j | 0 <= i < j < |t| ensures t[i].similarity >= t[j].similarity {
          assert t[i] == l[i + 1] && t[j] == l[j + 1];
        }
      }
      InsertStable(x, t, v);
      assert Insert(x, l) == [y] + Insert(x, t);
      WithSimilarityCons(y, Insert(x, t), v);
      WithSimilarityCons(x, t, v);
      WithSimilarityCons(x, l, v);
      WithSimilarityCons(y, t, v);
      var w := WithSimilarity(t, v);
      if v == x.similarity {
        assert WithSimilarity(Insert(x, l), v) == [x] + w;
      } else if v == y.similarity {
        assert WithSimilarity(Insert(x, l), v) == [y] + w;
      } else {
        assert WithSimilarity(Insert(x, l), v) == w;
      }
    }
  }

  lemma {:induction false} SortSorted(s: seq<SearchResult>)
    ensures |SortBySimilarity(s)| == |s|
    ensures SortedDesc(SortBySimilarity(s))
    decreases |s|
  {
    if s != [] {
      SortSorted(s[1..]);
      InsertSorted(s[0], SortBySimilarity(s[1..]));
    }
  }

  lemma {:induction false} SortStable(s: seq<SearchResult>, v: nat)
    ensures WithSimilarity(SortBySimilarity(s), v) == WithSimilarity(s, v)
    decreases |s|
  {
    if s != [] {
      var t := SortBySimilarity(s[1..]);
      SortSorted(s[1..]);
      SortStable(s[1..], v);
      InsertStable(s[0], t, v);
      WithSimilarityCons(s[0], t, v);
      WithSimilarityCons(s[0], s[1..], v);
      assert [s[0]] + s[1..] == s;
    }
  }

  /**
    The sort is a stable sort: a permutation, non-increasing in similarity, and
    the results of any one similarity keep their input order.
   */
  lemma SortSpec(s: seq<SearchResult>)
    ensures |SortBySimilarity(s)| == |s|
    ensures multiset(SortBySimilarity(s)) == multiset(s)
    ensures SortedDesc(SortBySimilarity(s))
    ensures forall v :: WithSimilarity(SortBySimilarity(s), v) == WithSimilarity(s, v)
  {
    SortSorted(s);
    forall v
      ensures WithSimilarity(SortBySimilarity(s), v) == WithSimilarity(s, v)
    {
      SortStable(s, v);
    }
  }

  /** `simulateVectorSearch(skills)`. */
  function VectorSearch(skills: seq<string>, jitter: seq<nat>): (r: seq<SearchResult>)
    requires ValidJitter(jitter)
    ensures |r| == |JobPool|
  {
    SortBySimilarity(Scored(skills, jitter))
  }

  /**
    The search returns one result per pool posting, ranked by non-increasing
    similarity, as a permutation of the scored pool in which the results of
    any one similarity keep pool order.
   */
  lemma VectorSearchSpec(skills: seq<string>, jitter: seq<nat>)
    requires ValidJitter(jitter)
    ensures |VectorSearch(skills, jitter)| == |JobPool| == 8
    ensures SortedDesc(VectorSearch(skills, jitter))
    ensures multiset(VectorSearch(skills, jitter)) == multiset(Scored(skills, jitter))
  {
    SortSorted(Scored(skills, jitter));
  }

  /** Ties keep pool order: for every similarity, its results come in pool order. */
  lemma VectorSearchStable(skills: seq<string>, jitter: seq<nat>)
    requires ValidJitter(jitter)
    ensures forall v :: WithSimilarity(VectorSearch(skills, jitter), v) == WithSimilarity(Scored(skills, jitter), v)
  {
    SortSpec(Scored(skills, jitter));
  }

  lemma SortedPrefix(s: seq<SearchResult>, n: nat)
    requires SortedDesc(s) && n <= |s|
    ensures SortedDesc(s[..n])
  {
  }

  /**
    Each result is a pool posting scored with that posting's own jitter draw:
    its similarity lies in [0.45, 0.99] and its matched skills are the
    posting's skills the candidate has.
   */
  lemma VectorSearchResults(skills: seq<string>, jitter: seq<nat>, i: nat)
    requires ValidJitter(jitter) && i < |VectorSearch(skills, jitter)|
    ensures var r := VectorSearch(skills, jitter)[i];
      && Baseline <= r.similarity <= Cap
      && r.matchedSkills == MatchedSkills(r.job, skills)
      && exists k :: 0 <= k < |JobPool| && r == ScoreJob(JobPool[k], skills, jitter[k])
  {
    var s := Scored(skills, jitter);
    var r := VectorSearch(skills, jitter);
    VectorSearchSpec(skills, jitter);
    assert r[i] in multiset(s);
    var k :| 0 <= k < |s| && s[k] == r[i];
  }

  // ─── Skill-gap detection ─────────────────────────────────────────────────

  /** `results.flatMap(j => j.skills)`. */
  function AllSkills(results: seq<SearchResult>): seq<string>
    decreases |results|
  {
    if results == [] then [] else results[0].job.skills + AllSkills(results[1..])
  }

  lemma {:induction false} AllSkillsMembers(results: seq<SearchResult>, s: string)
    ensures s in AllSkills(results) <==> exists i :: 0 <= i < |results| && s in results[i].job.skills
    decreases |results|
  {
    if results != [] {
      AllSkillsMembers(results[1..], s);
      if s in AllSkills(results[1..]) {
        var i :| 0 <= i < |results[1..]| && s in results[1..][i].job.skills;
        assert s in results[i + 1].job.skills;
      }
      if exists i :: 0 <= i < |results| && s in results[i].job.skills {
        var i :| 0 <= i < |results| && s in results[i].job.skills;
        if i > 0 {
          assert s in results[1..][i - 1].job.skills;
        }
      }
    }
  }

  /**
    `[...new Set(allJobSkills)].filter(s => !Knows(inputSkills, s))`. The set
    removes exact duplicates; the filter compares ignoring case.
   */
  function SkillGaps(results: seq<SearchResult>, skills: seq<string>): seq<string>
  {
    Filter(Dedup(AllSkills(results)), Lacks(skills))
  }

  /** The test `skillGaps` applies: the candidate lacks the skill, ignoring case. */
  function Lacks(skills: seq<string>): string -> bool
  {
    s => !Knows(skills, s)
  }

  /** The gaps hold no duplicates and appear in the order of their first occurrence across the ranked postings. */
  lemma SkillGapsOrdered(results: seq<SearchResult>, skills: seq<string>)
    ensures NoDup(SkillGaps(results, skills))
    ensures FirstSeenOrder(SkillGaps(results, skills), AllSkills(results))
  {
    var all := AllSkills(results);
    DedupFirstSeen(all);
    FilterFirstSeen(Dedup(all), all, Lacks(skills));
    FirstSeenNoDup(SkillGaps(results, skills), all);
  }

  /** Every gap is a skill of a ranked posting that the candidate lacks, ignoring case. */
  lemma SkillGapsSound(results: seq<SearchResult>, skills: seq<string>, g: string)
    requires g in SkillGaps(results, skills)
    ensures !Knows(skills, g)
    ensures exists i :: 0 <= i < |results| && g in results[i].job.skills
  {
    var gaps := SkillGaps(results, skills);
    var k :| 0 <= k < |gaps| && gaps[k] == g;
    AllSkillsMembers(results, g);
  }

  /** Every skill of a ranked posting that the candidate lacks is a gap. */
  lemma SkillGapsComplete(results: seq<SearchResult>, skills: seq<string>, i: nat, s: string)
    requires i < |results| && s in results[i].job.skills && !Knows(skills, s)
    ensures s in SkillGaps(results, skills)
  {
    var all := AllSkills(results);
    AllSkillsMembers(results, s);
    var k :| 0 <= k < |all| && all[k] == s;
    var d := Dedup(all);
    var m :| 0 <= m < |d| && d[m] == s;
    assert Lacks(skills)(d[m]);
  }

  /** Pool order: the one thing the ranking changes about the gaps is their order. */
  lemma GapsOfSearchAreGapsOfPool(skills: seq<string>, jitter: seq<nat>, s: string)
    requires ValidJitter(jitter)
    ensures s in SkillGaps(VectorSearch(skills, jitter), skills) <==>
      !Knows(skills, s) && exists k :: 0 <= k < |JobPool| && s in JobPool[k].skills
  {
    var r := VectorSearch(skills, jitter);
    var sc := Scored(skills, jitter);
    VectorSearchSpec(skills, jitter);
    if s in SkillGaps(r, skills) {
      SkillGapsSound(r, skills, s);
      var i :| 0 <= i < |r| && s in r[i].job.skills;
      VectorSearchResults(skills, jitter, i);
    }
    if !Knows(skills, s) && exists k :: 0 <= k < |JobPool| && s in JobPool[k].skills {
      var k :| 0 <= k < |JobPool| && s in JobPool[k].skills;
      assert sc[k] in multiset(r);
      var i :| 0 <= i < |r| && r[i] == sc[k];
      SkillGapsComplete(r, skills, i, s);
    }
  }

  /** `inputSkills.length / (inputSkills.length + skillGaps.length) * 100`, before rounding. */
  function Coverage(have: nat, missing: nat): (c: real)
    requires have + missing > 0
    ensures 0.0 <= c <= 100.0
    ensures c * ((have + missing) as real) == 100.0 * (have as real)
    ensures missing == 0 <==> c == 100.0
    ensures have == 0 <==> c == 0.0
  {
    var total := (have + missing) as real;
    var ratio := (have as real) / total;
    assert ratio * total == have as real;
    assert ratio <= 1.0 by {
      assert ratio * total <= 1.0 * total;
    }
    ratio * 100.0
  }

  // ─── Roadmap ─────────────────────────────────────────────────────────────

  datatype Priority = High | Medium | Low

  /** The position of a priority, for comparisons: high above medium above low. */
  function Rank(p: Priority): nat
  {
    match p
    case High => 2
    case Medium => 1
    case Low => 0
  }

  /** `i < 2 ? "high" : i < 4 ? "medium" : "low"`. */
  function PriorityAt(i: nat): (p: Priority)
    ensures p == High <==> i < 2
    ensures p == Medium <==> 2 <= i < 4
    ensures p == Low <==> 4 <= i
  {
    if i < 2 then High else if i < 4 then Medium else Low
  }

  /** Earlier gaps never get a lower priority than later ones. */
  lemma PriorityNonIncreasing(i: nat, j: nat)
    requires i <= j
    ensures Rank(PriorityAt(i)) >= Rank(PriorityAt(j))
  {
  }

  datatype RoadmapItem = RoadmapItem(
    skill: string,
    priority: Priority,
    estimatedWeeks: nat,
    retrievedSources: seq<string>,
    llmRecommendation: string)

  datatype Roadmap = Roadmap(ragModel: string, retrievedContextChunks: nat, items: seq<RoadmapItem>)

  /** The three retrieved sources cited for a gap. */
  function Sources(gap: string): (r: seq<string>)
    ensures |r| == 3
  {
    [gap + " Fundamentals Course (Coursera)", gap + " Hands-On Project Lab", gap + " Assessment Prep Guide"]
  }

  const RecommendationTail: string :=
    " skills through project-based learning. Start with fundamentals, then progress to real-world applications. Complete at least 2 hands-on projects before assessment."

  function Recommendation(gap: string): string
  {
    "Focus on building practical " + gap + RecommendationTail
  }

  /** `Math.floor(Math.random() * 6)` per gap: a whole number of weeks in 0..5. */
  predicate ValidWeekOffsets(offsets: seq<nat>, n: nat)
  {
    |offsets| >= n && forall i :: 0 <= i < |offsets| ==> offsets[i] < 6
  }

  function Item(gap: string, i: nat, offset: nat): (r: RoadmapItem)
    requires offset < 6
    ensures r.skill == gap && r.priority == PriorityAt(i)
    ensures 2 <= r.estimatedWeeks <= 7 && |r.retrievedSources| == 3
  {
    RoadmapItem(gap, PriorityAt(i), 2 + offset, Sources(gap), Recommendation(gap))
  }

  /** `simulateRAGRoadmap(skillGaps)`. */
  function RagRoadmap(gaps: seq<string>, offsets: seq<nat>): (r: Roadmap)
    requires ValidWeekOffsets(offsets, |gaps|)
    ensures |r.items| == |gaps|
    ensures r.retrievedContextChunks == 3 * |gaps|
    ensures r.ragModel == RagModel
    ensures forall i :: 0 <= i < |gaps| ==>
      && r.items[i].skill == gaps[i]
      && r.items[i].priority == PriorityAt(i)
      && 2 <= r.items[i].estimatedWeeks <= 7
      && |r.items[i].retrievedSources| == 3
    ensures forall i, j :: 0 <= i <= j < |gaps| ==> Rank(r.items[i].priority) >= Rank(r.items[j].priority)
  {
    var items := seq(|gaps|, i requires 0 <= i < |gaps| => Item(gaps[i], i, offsets[i]));
    assert forall i :: 0 <= i < |gaps| ==> items[i].priority == PriorityAt(i);
    assert forall i, j :: 0 <= i <= j < |gaps| ==> Rank(items[i].priority) >= Rank(items[j].priority) by {
      forall i, j | 0 <= i <= j < |gaps| ensures Rank(items[i].priority) >= Rank(items[j].priority) {
        PriorityNonIncreasing(i, j);
      }
    }
    Roadmap(RagModel, 3 * |gaps|, items)
  }

  // ─── LLM feedback ────────────────────────────────────────────────────────

  datatype Section = Section(name: string, score: nat, feedback: string)

  datatype Feedback = Feedback(overallScore: nat, sections: seq<Section>, improvementSuggestions: seq<string>)

  datatype LlmFeedback = LlmFeedback(model: string, tokensProcessed: nat, feedback: Feedback)

  const FeedbackSections: seq<Section> := [
    Section("Technical Skills", 85, "Strong technical skill coverage. Consider adding cloud certifications and system design experience."),
    Section("Work Experience", 68, "Quantify your impact — use metrics like 'improved performance by X%' or 'handled Y requests/sec'."),
    Section("Projects", 78, "Good project diversity. Add deployment details and link to live demos or GitHub repos."),
    Section("Education", 90, "Well-structured. Add relevant coursework and academic achievements."),
    Section("Keywords (ATS)", 65, "Missing common ATS keywords: 'agile', 'CI/CD', 'microservices', 'REST API'. Integrate naturally.")
  ]

  const ImprovementSuggestions: seq<string> := [
    "Add a professional summary (2-3 lines) highlighting your strongest skills and career objectives",
    "Include at least 3 quantified achievements in your experience section",
    "Add relevant certifications (AWS, Google Cloud, or domain-specific)",
    "Use action verbs: 'implemented', 'architected', 'optimized', 'led'",
    "Ensure resume passes ATS screening by matching job description keywords"
  ]

  /**
    `simulateLLMFeedback(resumeText)`: the text is not read. `bonus` is
    `Math.floor(Math.random() * 15)` and `tokenDraw` is `Math.floor(Math.random() * 800)`.
   */
  function LlmFeedbackFor(bonus: nat, tokenDraw: nat): (r: LlmFeedback)
    requires bonus < 15 && tokenDraw < 800
    ensures 72 <= r.feedback.overallScore <= 86
    ensures 1200 <= r.tokensProcessed < 2000
    ensures |r.feedback.sections| == 5 && |r.feedback.improvementSuggestions| == 5
    ensures forall i :: 0 <= i < 5 ==> r.feedback.sections[i].score <= 100
  {
    LlmFeedback(RagModel, 1200 + tokenDraw, Feedback(72 + bonus, FeedbackSections, ImprovementSuggestions))
  }

  /**
    The overall score is drawn on its own: the sections are the same for
    every draw while the overall score follows the draw.
   */
  lemma OverallScoreIndependentOfSections(b1: nat, b2: nat, t: nat)
    requires b1 < 15 && b2 < 15 && t < 800
    ensures LlmFeedbackFor(b1, t).feedback.sections == LlmFeedbackFor(b2, t).feedback.sections
    ensures LlmFeedbackFor(b1, t).feedback.overallScore == LlmFeedbackFor(b2, t).feedback.overallScore <==> b1 == b2
  {
  }

  // ─── Routes ──────────────────────────────────────────────────────────────

  /** The JSON body of `/analyze-resume`; `None` stands for an absent or `null` field. */
  datatype AnalyzeRequest = AnalyzeRequest(resumeText: Option<string>, skills: Option<seq<string>>)

  /** The random draws of one `/analyze-resume` call. */
  datatype Draws = Draws(jitter: seq<nat>, weekOffsets: seq<nat>, feedbackBonus: nat, tokenDraw: nat)

  const TopResults: nat := 5
  const MaxRoadmapGaps: nat := 6

  predicate ValidDraws(d: Draws)
  {
    && ValidJitter(d.jitter)
    && ValidWeekOffsets(d.weekOffsets, MaxRoadmapGaps)
    && d.feedbackBonus < 15
    && d.tokenDraw < 800
  }

  const DefaultResumeText: string := "Experienced developer with React, TypeScript, Node.js skills"
  const DefaultSkills: seq<string> := ["JavaScript", "React", "TypeScript", "Node.js", "Python", "SQL", "Git", "AWS"]

  /** `resumeText || default`: the empty string is falsy too. */
  function InputText(req: AnalyzeRequest): (t: string)
    ensures req.resumeText.Some? && req.resumeText.value != [] ==> t == req.resumeText.value
    ensures req.resumeText.None? || req.resumeText.value == [] ==> t == DefaultResumeText
  {
    match req.resumeText
    case Some(text) => if text != [] then text else DefaultResumeText
    case None => DefaultResumeText
  }

  /** `skills || default`: any array, even an empty one, is truthy. */
  function InputSkills(req: AnalyzeRequest): (s: seq<string>)
    ensures req.skills.Some? ==> s == req.skills.value
    ensures req.skills.None? ==> s == DefaultSkills
  {
    match req.skills
    case Some(skills) => skills
    case None => DefaultSkills
  }

  /** `skillGapDetection` of the response. */
  datatype GapReport = GapReport(currentSkills: seq<string>, gaps: seq<string>, coverage: real)

  datatype Analysis = Analysis(
    inputText: string,
    results: seq<SearchResult>,
    gapReport: GapReport,
    roadmap: Roadmap,
    feedback: Feedback)

  /**
    Without input skills every pool skill is a gap, so the coverage
    denominator `|input| + |gaps|` is never zero in the handler.
   */
  lemma CoverageDefined(skills: seq<string>, jitter: seq<nat>)
    requires ValidJitter(jitter)
    ensures |skills| + |SkillGaps(VectorSearch(skills, jitter), skills)| > 0
  {
    if skills == [] {
      var s := JobPool[0].skills[0];
      assert !Knows(skills, s);
      GapsOfSearchAreGapsOfPool(skills, jitter, s);
    }
  }

  /** JavaScript's `slice(0, n)`. */
  function Take<T>(s: seq<T>, n: nat): (r: seq<T>)
    ensures |r| == if |s| < n then |s| else n
    ensures r == s[..|r|]
  {
    if |s| <= n then s else s[..n]
  }

  /** The ranked postings of one `/analyze-resume` call. */
  function Ranked(req: AnalyzeRequest, draws: Draws): (r: seq<SearchResult>)
    requires ValidDraws(draws)
    ensures |r| == |JobPool|
  {
    VectorSearch(InputSkills(req), draws.jitter)
  }

  /** The skill gaps of one `/analyze-resume` call. */
  function Gaps(req: AnalyzeRequest, draws: Draws): seq<string>
    requires ValidDraws(draws)
  {
    SkillGaps(Ranked(req, draws), InputSkills(req))
  }

  /** The `/analyze-resume` handler, without its timing and embedding fields. */
  function AnalyzeResume(req: AnalyzeRequest, draws: Draws): (r: Analysis)
    requires ValidDraws(draws)
    ensures r.inputText == InputText(req)
    ensures r.results == Ranked(req, draws)[..TopResults]
    ensures r.gapReport.currentSkills == InputSkills(req)
    ensures r.gapReport.gaps == Gaps(req, draws)
    ensures |InputSkills(req)| + |Gaps(req, draws)| > 0
    ensures r.gapReport.coverage == Coverage(|InputSkills(req)|, |Gaps(req, draws)|)
    ensures 0.0 <= r.gapReport.coverage <= 100.0
    ensures |r.roadmap.items| == if |Gaps(req, draws)| < MaxRoadmapGaps then |Gaps(req, draws)| else MaxRoadmapGaps
    ensures r.roadmap.retrievedContextChunks == 3 * |r.roadmap.items|
    ensures forall i :: 0 <= i < |r.roadmap.items| ==> r.roadmap.items[i].skill == Gaps(req, draws)[i]
    ensures 72 <= r.feedback.overallScore <= 86
  {
    var skills := InputSkills(req);
    var gaps := Gaps(req, draws);
    CoverageDefined(skills, draws.jitter);
    var roadmapGaps := Take(gaps, MaxRoadmapGaps);
    var fb := LlmFeedbackFor(draws.feedbackBonus, draws.tokenDraw);
    Analysis(
      InputText(req),
      Ranked(req, draws)[..TopResults],
      GapReport(skills, gaps, Coverage(|skills|, |gaps|)),
      RagRoadmap(roadmapGaps, draws.weekOffsets),
      fb.feedback)
  }

  const DefaultMatchSkills: seq<string> := ["JavaScript", "React", "TypeScript"]

  /** `skills || ["JavaScript", "React", "TypeScript"]` of `/match-jobs`. */
  function MatchInput(skills: Option<seq<string>>): (s: seq<string>)
    ensures skills.Some? ==> s == skills.value
    ensures skills.None? ==> s == DefaultMatchSkills
  {
    if skills.Some? then skills.value else DefaultMatchSkills
  }

  /** `/match-jobs`: the five most similar postings, best first. */
  function MatchJobs(skills: Option<seq<string>>, jitter: seq<nat>): (r: seq<SearchResult>)
    requires ValidJitter(jitter)
    ensures |r| == TopResults
    ensures r == VectorSearch(MatchInput(skills), jitter)[..TopResults]
    ensures SortedDesc(r)
  {
    var ranked := VectorSearch(MatchInput(skills), jitter);
    VectorSearchSpec(MatchInput(skills), jitter);
    SortedPrefix(ranked, TopResults);
    ranked[..TopResults]
  }

  const DefaultRoadmapGaps: seq<string> := ["Docker", "Kubernetes", "System Design"]

  /** `/generate-roadmap`: every gap sent, no truncation, default gaps when none are sent. */
  function GenerateRoadmap(skillGaps: Option<seq<string>>, offsets: seq<nat>): (r: Roadmap)
    requires ValidWeekOffsets(offsets, if skillGaps.Some? then |skillGaps.value| else |DefaultRoadmapGaps|)
    ensures var gaps := if skillGaps.Some? then skillGaps.value else DefaultRoadmapGaps;
      && |r.items| == |gaps|
      && forall i :: 0 <= i < |gaps| ==> r.items[i].skill == gaps[i]
  {
    RagRoadmap(if skillGaps.Some? then skillGaps.value else DefaultRoadmapGaps, offsets)
  }
}
