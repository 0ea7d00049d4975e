/**
 * How well a resume fits the requirements extracted from a job
 * description (`calculate_skills_fit`, `calculate_experience_fit`,
 * `calculate_education_fit`, `calculate_job_fit_score`). Scores are reals
 * in [0, 100]; the source's two-decimal rounding is not modelled.
 */
module Fit {
  import opened Common
  import opened Text
  import opened Skills
  import opened Extraction
  import opened Sums

  // ----------------------------------------------------------- skills fit

  /** `job_role_weights`: per role, the weight of each skill category. */
  const RoleCategoryWeights: map<string, map<string, real>> := map[
    "market research analyst" := map["market_research" := 0.40, "data_science" := 0.25,
      "programming_languages" := 0.15, "analytics_visualization" := 0.10, "soft_skills" := 0.10],
    "business consultant" := map["business_consulting" := 0.35, "market_research" := 0.20,
      "project_management" := 0.20, "soft_skills" := 0.15, "industry_knowledge" := 0.10],
    "data analyst" := map["programming_languages" := 0.30, "data_science" := 0.25,
      "analytics_visualization" := 0.20, "databases" := 0.15, "soft_skills" := 0.10],
    "training specialist" := map["training_development" := 0.40, "communication_tools" := 0.20,
      "soft_skills" := 0.20, "project_management" := 0.10, "certifications" := 0.10]
  ]

  /** Weight of a category the role's table does not list. */
  const DefaultCategoryWeight: real := 0.1

  /** Weight of the priority-skill share of the skills fit. */
  const PriorityWeight: real := 0.3

  /** A category's weight for a role: the table's entry, or 0.1. Every weight is positive. */
  function CategoryWeight(role: string, category: string): (w: real)
    ensures 0.0 < w <= 1.0
  {
    if role in RoleCategoryWeights && category in RoleCategoryWeights[role]
    then RoleCategoryWeights[role][category]
    else DefaultCategoryWeight
  }

  /** `resume_skills.get(category, [])`. */
  function ResumeCategory(resume: FoundSkills, category: string): set<string>
  {
    if category in resume then resume[category] else {}
  }

  /** A category that takes part in the weighted mean: listed with at least one required skill. */
  predicate Counted(req: JobRequirements, category: string)
  {
    category in req.requiredSkills && req.requiredSkills[category] != {}
  }

  /** The share of a category's required skills the resume has. */
  function MatchRatio(resume: FoundSkills, req: JobRequirements, category: string): real
    requires Counted(req, category)
  {
    var required := req.requiredSkills[category];
    (|ResumeCategory(resume, category) * required| as real) / (|required| as real)
  }

  /** A percentage share scaled by its weight. */
  function Weighted(share: real, weight: real): real
  {
    share * 100.0 * weight
  }

  /** A category's contribution to `total_score`. */
  function ScoreTerm(resume: FoundSkills, req: JobRequirements, category: string): real
  {
    if Counted(req, category)
    then Weighted(MatchRatio(resume, req, category), CategoryWeight(req.jobRole, category))
    else 0.0
  }

  /** A category's contribution to `total_weight`. */
  function WeightTerm(req: JobRequirements, category: string): real
  {
    if Counted(req, category) then CategoryWeight(req.jobRole, category) else 0.0
  }

  function ScoreTerms(resume: FoundSkills, req: JobRequirements): string -> real
  {
    c => ScoreTerm(resume, req, c)
  }

  function WeightTerms(req: JobRequirements): string -> real
  {
    c => WeightTerm(req, c)
  }

  /** All resume skills, lower-cased (`all_resume_skills`). */
  function ResumeSkillPool(resume: FoundSkills): set<string>
  {
    set c, s | c in resume && s in resume[c] :: Lower(s)
  }

  /** How many entries of the priority list, lower-cased, are in the pool (`priority_matches`). */
  function PriorityMatches(priority: seq<string>, pool: set<string>): (n: nat)
    ensures n <= |priority|
  {
    if priority == [] then 0
    else PriorityMatches(priority[..|priority| - 1], pool) + (if Lower(priority[|priority| - 1]) in pool then 1 else 0)
  }

  /** The priority share of `total_score`. */
  function PriorityScore(resume: FoundSkills, req: JobRequirements): real
  {
    if req.prioritySkills == [] then 0.0
    else
      var n := PriorityMatches(req.prioritySkills, ResumeSkillPool(resume));
      Weighted(n as real / |req.prioritySkills| as real, PriorityWeight)
  }

  /** `total_score` after both loops. */
  ghost function TotalScore(resume: FoundSkills, req: JobRequirements): real
  {
    SumOver(req.requiredSkills.Keys, ScoreTerms(resume, req)) + PriorityScore(resume, req)
  }

  /** `total_weight` after both loops. */
  ghost function TotalWeight(req: JobRequirements): real
  {
    SumOver(req.requiredSkills.Keys, WeightTerms(req)) + (if req.prioritySkills == [] then 0.0 else PriorityWeight)
  }

  /** The value of `calculate_skills_fit`. */
  ghost function SkillsFitOf(resume: FoundSkills, req: JobRequirements): real
  {
    if req.requiredSkills == map[] && req.prioritySkills == [] then 50.0
    else if TotalWeight(req) > 0.0 then TotalScore(resume, req) / TotalWeight(req)
    else 0.0
  }

  lemma TermsAt(resume: FoundSkills, req: JobRequirements, c: string)
    ensures ScoreTerms(resume, req)(c) == ScoreTerm(resume, req, c)
    ensures WeightTerms(req)(c) == WeightTerm(req, c)
  {
  }

  /** One turn of the category loop adds the category's two terms. */
  lemma CategoryStep(resume: FoundSkills, req: JobRequirements, done: set<string>, c: string)
    requires c !in done && c in req.requiredSkills
    ensures SumOver(done + {c}, ScoreTerms(resume, req)) == SumOver(done, ScoreTerms(resume, req)) + ScoreTerm(resume, req, c)
    ensures SumOver(done + {c}, WeightTerms(req)) == SumOver(done, WeightTerms(req)) + WeightTerm(req, c)
  {
    SumOverAdd(done, ScoreTerms(resume, req), c);
    SumOverAdd(done, WeightTerms(req), c);
  }

  lemma ScoreTermBound(resume: FoundSkills, req: JobRequirements, c: string)
    ensures 0.0 <= ScoreTerm(resume, req, c) <= 100.0 * WeightTerm(req, c)
  {
    if Counted(req, c) {
      var required := req.requiredSkills[c];
      SubsetCard(ResumeCategory(resume, c) * required, required);
      var r := MatchRatio(resume, req, c);
      assert 0.0 <= r <= 1.0;
      var w := CategoryWeight(req.jobRole, c);
      assert r * 100.0 * w <= 100.0 * w by {
        assert (1.0 - r) * w >= 0.0;
      }
    }
  }

  lemma PriorityScoreBound(resume: FoundSkills, req: JobRequirements)
    ensures 0.0 <= PriorityScore(resume, req) <= 100.0 * (if req.prioritySkills == [] then 0.0 else PriorityWeight)
  {
  }

  lemma UnitQuotient(t: real)
    requires t > 0.0
    ensures t / t == 1.0 && 100.0 * t / t == 100.0
  {
  }

  lemma QuotientBound(a: real, b: real)
    requires b > 0.0 && 0.0 <= a <= 100.0 * b
    ensures 0.0 <= a / b <= 100.0
  {
    assert a / b * b == a;
  }

  /** The skills fit is a percentage. */
  lemma SkillsFitRange(resume: FoundSkills, req: JobRequirements)
    ensures 0.0 <= SkillsFitOf(resume, req) <= 100.0
  {
    forall c | c in req.requiredSkills.Keys
      ensures 0.0 <= ScoreTerms(resume, req)(c) <= 100.0 * WeightTerms(req)(c)
    {
      ScoreTermBound(resume, req, c);
    }
    SumOverBounds(req.requiredSkills.Keys, ScoreTerms(resume, req), WeightTerms(req));
    PriorityScoreBound(resume, req);
    if TotalWeight(req) > 0.0 {
      QuotientBound(TotalScore(resume, req), TotalWeight(req));
    }
  }

  /**
   * The requirement table names categories but none holds a skill, and the
   * role has no priority skills: the total weight is 0 and the fit is 0,
   * not the neutral 50.
   */
  lemma SkillsFitWithoutWeight(resume: FoundSkills, req: JobRequirements)
    requires req.requiredSkills != map[] && req.prioritySkills == []
    requires forall c :: c in req.requiredSkills ==> req.requiredSkills[c] == {}
    ensures SkillsFitOf(resume, req) == 0.0
  {
    SumOverZero(req.requiredSkills.Keys, WeightTerms(req));
  }

  /**
   * A resume that has every required skill of every category and every
   * priority skill scores 100, whatever the weights.
   */
  lemma SkillsFitFullMatch(resume: FoundSkills, req: JobRequirements)
    requires forall c :: c in req.requiredSkills ==> req.requiredSkills[c] <= ResumeCategory(resume, c)
    requires forall p :: p in req.prioritySkills ==> Lower(p) in ResumeSkillPool(resume)
    requires req.prioritySkills != [] || exists c :: Counted(req, c)
    ensures SkillsFitOf(resume, req) == 100.0
  {
    var keys := req.requiredSkills.Keys;
    forall c | c in keys ensures ScoreTerms(resume, req)(c) == 100.0 * WeightTerms(req)(c) {
      TermsAt(resume, req, c);
      ScoreTermFull(resume, req, c);
    }
    SumOverScaled(keys, ScoreTerms(resume, req), WeightTerms(req));
    PriorityScoreFull(resume, req);
    TotalWeightPositive(req);
    UnitQuotient(TotalWeight(req));
  }

  lemma ScoreTermFull(resume: FoundSkills, req: JobRequirements, c: string)
    requires c in req.requiredSkills ==> req.requiredSkills[c] <= ResumeCategory(resume, c)
    ensures ScoreTerm(resume, req, c) == 100.0 * WeightTerm(req, c)
  {
    if Counted(req, c) {
      var required := req.requiredSkills[c];
      assert ResumeCategory(resume, c) * required == required;
      UnitQuotient(|required| as real);
    }
  }

  lemma PriorityScoreFull(resume: FoundSkills, req: JobRequirements)
    requires forall p :: p in req.prioritySkills ==> Lower(p) in ResumeSkillPool(resume)
    ensures PriorityScore(resume, req) == if req.prioritySkills == [] then 0.0 else 100.0 * PriorityWeight
  {
    if req.prioritySkills != [] {
      PriorityMatchesAll(req.prioritySkills, ResumeSkillPool(resume));
      UnitQuotient(|req.prioritySkills| as real);
    }
  }

  /** Some category with a required skill, or a priority list, gives the skills fit positive weight. */
  lemma TotalWeightPositive(req: JobRequirements)
    requires req.prioritySkills != [] || exists c :: Counted(req, c)
    ensures TotalWeight(req) > 0.0
  {
    var keys := req.requiredSkills.Keys;
    forall k | k in keys ensures 0.0 <= WeightTerms(req)(k) {}
    if req.prioritySkills == [] {
      var c :| Counted(req, c);
      SumOverRemove(keys, WeightTerms(req), c);
      SumOverNonNegative(keys - {c}, WeightTerms(req));
    } else {
      SumOverNonNegative(keys, WeightTerms(req));
    }
  }

  lemma {:induction false} PriorityMatchesAll(priority: seq<string>, pool: set<string>)
    requires forall p :: p in priority ==> Lower(p) in pool
    ensures PriorityMatches(priority, pool) == |priority|
  {
    if priority != [] {
      PriorityMatchesAll(priority[..|priority| - 1], pool);
    }
  }

  lemma SumOverNonNegative(keys: set<string>, f: string -> real)
    requires forall k :: k in keys ==> 0.0 <= f(k)
    ensures 0.0 <= SumOver(keys, f)
  {
    SumOverMonotone(keys, _ => 0.0, f);
    SumOverZero(keys, _ => 0.0);
  }

  lemma {:induction false} PriorityMatchesMonotone(priority: seq<string>, pool: set<string>, pool': set<string>)
    requires pool <= pool'
    ensures PriorityMatches(priority, pool) <= PriorityMatches(priority, pool')
  {
    if priority != [] {
      PriorityMatchesMonotone(priority[..|priority| - 1], pool, pool');
    }
  }

  /** Every category of `resume` is contained in the same category of `resume'`. */
  predicate SkillsIncluded(resume: FoundSkills, resume': FoundSkills)
  {
    forall c :: c in resume ==> c in resume' && resume[c] <= resume'[c]
  }

  lemma ScoreTermMonotone(resume: FoundSkills, resume': FoundSkills, req: JobRequirements, c: string)
    requires SkillsIncluded(resume, resume')
    ensures ScoreTerm(resume, req, c) <= ScoreTerm(resume', req, c)
  {
    if Counted(req, c) {
      var required := req.requiredSkills[c];
      SubsetCard(ResumeCategory(resume, c) * required, ResumeCategory(resume', c) * required);
      var w := CategoryWeight(req.jobRole, c);
      var r, r' := MatchRatio(resume, req, c), MatchRatio(resume', req, c);
      QuotientMonotone(|ResumeCategory(resume, c) * required| as real,
                       |ResumeCategory(resume', c) * required| as real, |required| as real);
      assert r <= r';
      assert r * 100.0 * w <= r' * 100.0 * w by {
        assert (r' - r) * w >= 0.0;
      }
    }
  }

  lemma PriorityScoreMonotone(resume: FoundSkills, resume': FoundSkills, req: JobRequirements)
    requires SkillsIncluded(resume, resume')
    ensures PriorityScore(resume, req) <= PriorityScore(resume', req)
  {
    if req.prioritySkills != [] {
      assert ResumeSkillPool(resume) <= ResumeSkillPool(resume');
      PriorityMatchesMonotone(req.prioritySkills, ResumeSkillPool(resume), ResumeSkillPool(resume'));
      QuotientMonotone(PriorityMatches(req.prioritySkills, ResumeSkillPool(resume)) as real,
                       PriorityMatches(req.prioritySkills, ResumeSkillPool(resume')) as real,
                       |req.prioritySkills| as real);
    }
  }

  lemma QuotientMonotone(a: real, b: real, t: real)
    requires t > 0.0 && a <= b
    ensures a / t <= b / t
  {
    assert b / t - a / t == (b - a) / t;
    assert (b - a) / t * t == b - a;
  }

  /** Finding more skills in the resume never lowers the skills fit. */
  lemma SkillsFitMonotone(resume: FoundSkills, resume': FoundSkills, req: JobRequirements)
    requires SkillsIncluded(resume, resume')
    ensures SkillsFitOf(resume, req) <= SkillsFitOf(resume', req)
  {
    var keys := req.requiredSkills.Keys;
    forall c | c in keys ensures ScoreTerms(resume, req)(c) <= ScoreTerms(resume', req)(c) {
      TermsAt(resume, req, c);
      TermsAt(resume', req, c);
      ScoreTermMonotone(resume, resume', req, c);
    }
    SumOverMonotone(keys, ScoreTerms(resume, req), ScoreTerms(resume', req));
    PriorityScoreMonotone(resume, resume', req);
    var tw := TotalWeight(req);
    if tw > 0.0 {
      QuotientMonotone(TotalScore(resume, req), TotalScore(resume', req), tw);
    }
  }

  /**
   * One turn of the category loop: a category with required skills adds the
   * share of them the resume has, times 100 and the category's weight, to
   * `total_score` and its weight to `total_weight`; one without adds nothing.
   */
  method CategoryContribution(resume: FoundSkills, req: JobRequirements, category: string)
      returns (score: real, weight: real)
    requires category in req.requiredSkills
    ensures score == ScoreTerm(resume, req, category) && weight == WeightTerm(req, category)
    ensures 0.0 <= score <= 100.0 * weight
  {
    var reqSkills := req.requiredSkills[category];
    if reqSkills == {} {
      return 0.0, 0.0;
    }
    var resumeSkills := ResumeCategory(resume, category);
    var ratio := (|resumeSkills * reqSkills| as real) / (|reqSkills| as real);
    weight := CategoryWeight(req.jobRole, category);
    score := Weighted(ratio, weight);
    ScoreTermBound(resume, req, category);
  }

  /** The quotient the skills loops end with is the skills fit. */
  lemma SkillsFitValue(resume: FoundSkills, req: JobRequirements, totalScore: real, totalWeight: real)
    requires !(req.requiredSkills == map[] && req.prioritySkills == [])
    requires totalScore == TotalScore(resume, req) && totalWeight == TotalWeight(req)
    ensures (if totalWeight > 0.0 then totalScore / totalWeight else 0.0) == SkillsFitOf(resume, req)
  {
  }

  /**
   * The priority turn: the share of priority skills the resume has, times
   * 100 and the priority weight 0.3.
   */
  method PriorityContribution(resume: FoundSkills, req: JobRequirements) returns (score: real)
    requires req.prioritySkills != []
    ensures score == PriorityScore(resume, req)
    ensures 0.0 <= score <= 100.0 * PriorityWeight
  {
    var priority := req.prioritySkills;
    var matches := CountPriorityMatches(priority, ResumeSkillPool(resume));
    score := Weighted(matches as real / |priority| as real, PriorityWeight);
    PriorityScoreBound(resume, req);
  }

  /** `priority_matches`: how many priority skills, lower-cased, the resume's pool holds. */
  method CountPriorityMatches(priority: seq<string>, pool: set<string>) returns (matches: nat)
    ensures matches == PriorityMatches(priority, pool)
    ensures matches <= |priority|
  {
    matches := 0;
    for i := 0 to |priority|
      invariant matches == PriorityMatches(priority[..i], pool)
    {
      assert priority[..i + 1][..i] == priority[..i];
      if Lower(priority[i]) in pool {
        matches := matches + 1;
      }
    }
    assert priority[..|priority|] == priority;
  }

  /**
   * `calculate_skills_fit`: the weighted mean, over the categories that
   * list required skills, of the share of them the resume has (weights from
   * the role's table, 0.1 by default), together with the share of priority
   * skills at weight 0.3; 50 without any requirement, 0 when nothing carries
   * weight.
   */
  method SkillsFit(resume: FoundSkills, req: JobRequirements) returns (fit: real)
    ensures fit == SkillsFitOf(resume, req)
    ensures 0.0 <= fit <= 100.0
    ensures req.requiredSkills == map[] && req.prioritySkills == [] ==> fit == 50.0
  {
    var required := req.requiredSkills;
    var priority := req.prioritySkills;
    if required == map[] && priority == [] {
      return 50.0;
    }
    var totalScore, totalWeight := 0.0, 0.0;
    var pending := required.Keys;
    ghost var done: set<string> := {};
    while pending != {}
      invariant pending !! done && pending + done == required.Keys
      invariant totalScore == SumOver(done, ScoreTerms(resume, req))
      invariant totalWeight == SumOver(done, WeightTerms(req))
      decreases pending
    {
      var category :| category in pending;
      var score, weight := CategoryContribution(resume, req, category);
      CategoryStep(resume, req, done, category);
      totalScore := totalScore + score;
      totalWeight := totalWeight + weight;
      done := done + {category};
      pending := pending - {category};
    }
    assert done == required.Keys;
    if priority != [] {
      var score := PriorityContribution(resume, req);
      totalScore := totalScore + score;
      totalWeight := totalWeight + PriorityWeight;
    }
    fit := if totalWeight > 0.0 then totalScore / totalWeight else 0.0;
    SkillsFitValue(resume, req, totalScore, totalWeight);
    SkillsFitRange(resume, req);
  }

  // ------------------------------------------------------- experience fit

  /**
   * `calculate_experience_fit`: neutral 75 without a requirement, 100 when
   * the resume meets it, else 80, 60, 40 or 20 by the share of the required
   * years reached (at least 0.8, 0.6, 0.4 of it).
   */
  function ExperienceFit(resumeYears: nat, requiredYears: nat): (fit: real)
    ensures requiredYears == 0 ==> fit == 75.0
    ensures requiredYears > 0 ==> (fit == 100.0 <==> resumeYears >= requiredYears)
    ensures requiredYears > 0 ==> fit in {20.0, 40.0, 60.0, 80.0, 100.0}
  {
    if requiredYears == 0 then 75.0
    else if resumeYears >= requiredYears then 100.0
    else if resumeYears as real >= requiredYears as real * 0.8 then 80.0
    else if resumeYears as real >= requiredYears as real * 0.6 then 60.0
    else if resumeYears as real >= requiredYears as real * 0.4 then 40.0
    else 20.0
  }

  /** More years of experience never lower the experience fit. */
  lemma ExperienceFitMonotone(a: nat, b: nat, requiredYears: nat)
    requires a <= b
    ensures ExperienceFit(a, requiredYears) <= ExperienceFit(b, requiredYears)
  {
  }

  // -------------------------------------------------------- education fit

  /** The resume's degrees, lower-cased (`resume_degrees`). */
  function LowerDegrees(degrees: set<string>): set<string>
  {
    set d | d in degrees :: Lower(d)
  }

  /** Some degree contains one of the two marker strings. */
  predicate AnyDegreeContains(degrees: set<string>, a: string, b: string)
  {
    exists d :: d in degrees && (Contains(d, a) || Contains(d, b))
  }

  /**
   * What one required entry yields in the scan over the requirements: 100
   * for the exact degree or a master's one, 90 for a bachelor's one (both
   * end the scan), 70 when one of its words is a degree, else 0.
   */
  function DegreeScore(requirement: string, degrees: set<string>): (s: real)
    ensures s in {0.0, 70.0, 90.0, 100.0}
    ensures Lower(requirement) in degrees ==> s == 100.0
    ensures s >= 90.0 <==>
      Lower(requirement) in degrees
      || (Contains(Lower(requirement), "master") && AnyDegreeContains(degrees, "master", "mba"))
      || (Contains(Lower(requirement), "bachelor") && AnyDegreeContains(degrees, "bachelor", "b."))
    ensures s == 0.0 <==> s < 90.0 && forall w :: w in Words(Lower(requirement)) ==> w !in degrees
  {
    var r := Lower(requirement);
    if r in degrees then 100.0
    else if Contains(r, "master") && AnyDegreeContains(degrees, "master", "mba") then 100.0
    else if Contains(r, "bachelor") && AnyDegreeContains(degrees, "bachelor", "b.") then 90.0
    else if exists w :: w in Words(r) && w in degrees then 70.0
    else 0.0
  }

  /** The score the scan over the requirements ends with (before the fallback to 30). */
  function ScanScore(requirements: seq<string>, degrees: set<string>): (s: real)
    ensures s in {0.0, 70.0, 90.0, 100.0}
    ensures s == 0.0 <==> forall i :: 0 <= i < |requirements| ==> DegreeScore(requirements[i], degrees) == 0.0
  {
    if requirements == [] then 0.0
    else
      var h := DegreeScore(requirements[0], degrees);
      if h >= 90.0 then h
      else
        var rest := ScanScore(requirements[1..], degrees);
        assert forall i :: 1 <= i < |requirements| ==> requirements[i] == requirements[1..][i - 1];
        MaxReal(h, rest)
  }

  /** The value of `calculate_education_fit`. */
  function EducationFitOf(resumeDegrees: set<string>, requirements: seq<string>): real
  {
    if requirements == [] then 75.0
    else
      var s := ScanScore(requirements, LowerDegrees(resumeDegrees));
      if s > 0.0 then s else 30.0
  }

  /** The first entry that ends the scan decides the education fit. */
  lemma {:induction false} EducationFitFirstDecisive(resumeDegrees: set<string>, requirements: seq<string>, i: nat)
    requires i < |requirements|
    requires DegreeScore(requirements[i], LowerDegrees(resumeDegrees)) >= 90.0
    requires forall j :: 0 <= j < i ==> DegreeScore(requirements[j], LowerDegrees(resumeDegrees)) < 90.0
    ensures EducationFitOf(resumeDegrees, requirements) == DegreeScore(requirements[i], LowerDegrees(resumeDegrees))
  {
    if i > 0 {
      var rest := requirements[1..];
      assert forall j :: 0 <= j < i - 1 ==> rest[j] == requirements[j + 1];
      EducationFitFirstDecisive(resumeDegrees, rest, i - 1);
    }
  }

  /**
   * `calculate_education_fit`: 75 without a requirement; otherwise the scan
   * over the requirements in order, stopping at the first exact, master's
   * (100) or bachelor's (90) match, where word matches give 70; 30 when
   * nothing matched.
   */
  method EducationFit(resumeDegrees: set<string>, requirements: seq<string>) returns (fit: real)
    ensures fit == EducationFitOf(resumeDegrees, requirements)
    ensures fit in {30.0, 70.0, 75.0, 90.0, 100.0}
    ensures fit == 75.0 <==> requirements == []
    ensures requirements != [] ==>
      (fit == 30.0 <==> forall i :: 0 <= i < |requirements| ==> DegreeScore(requirements[i], LowerDegrees(resumeDegrees)) == 0.0)
  {
    var degrees := LowerDegrees(resumeDegrees);
    if requirements == [] {
      return 75.0;
    }
    var score := 0.0;
    var i := 0;
    while i < |requirements|
      invariant 0 <= i <= |requirements|
      invariant score == 0.0 || score == 70.0
      invariant ScanScore(requirements, degrees) == MaxReal(score, ScanScore(requirements[i..], degrees))
    {
      var r := Lower(requirements[i]);
      assert requirements[i..][1..] == requirements[i + 1..];
      if r in degrees {
        score := 100.0;
        break;
      } else if Contains(r, "master") && AnyDegreeContains(degrees, "master", "mba") {
        score := 100.0;
        break;
      } else if Contains(r, "bachelor") && AnyDegreeContains(degrees, "bachelor", "b.") {
        score := 90.0;
        break;
      } else if exists w :: w in Words(r) && w in degrees {
        score := MaxReal(score, 70.0);
      }
      i := i + 1;
    }
    fit := if score > 0.0 then score else 30.0;
  }

  // ------------------------------------------------------------- job fit

  /** The weights of the three fits in the overall job fit. */
  datatype FitWeights = FitWeights(skills: real, experience: real, education: real)

  /** `fit_weights` for a role: each triple is positive and sums to 1. */
  function FitWeightsFor(role: string): (w: FitWeights)
    ensures w.skills + w.experience + w.education == 1.0
    ensures w.skills > 0.0 && w.experience > 0.0 && w.education > 0.0
  {
    if role == "market research analyst" then FitWeights(0.50, 0.30, 0.20)
    else if role == "business consultant" then FitWeights(0.45, 0.35, 0.20)
    else if role == "data analyst" then FitWeights(0.55, 0.25, 0.20)
    else FitWeights(0.50, 0.30, 0.20)
  }

  /** What `calculate_job_fit_score` returns; `fitWeights` is absent without requirements. */
  datatype JobFit = JobFit(overallFit: real, skillsFit: real, experienceFit: real, educationFit: real,
                           fitWeights: Option<FitWeights>)

  /** The result without job requirements: every fit 0. */
  const NoJobFit := JobFit(0.0, 0.0, 0.0, 0.0, None)

  function WeightedFit(skills: real, experience: real, education: real, w: FitWeights): real
  {
    skills * w.skills + experience * w.experience + education * w.education
  }

  /** The weighted mean of three percentages under a role's weights is a percentage. */
  lemma WeightedFitRange(skills: real, experience: real, education: real, role: string)
    requires 0.0 <= skills <= 100.0 && 0.0 <= experience <= 100.0 && 0.0 <= education <= 100.0
    ensures 0.0 <= WeightedFit(skills, experience, education, FitWeightsFor(role)) <= 100.0
  {
    var w := FitWeightsFor(role);
    if w == FitWeights(0.50, 0.30, 0.20) {
      assert WeightedFit(skills, experience, education, w) == skills * 0.50 + experience * 0.30 + education * 0.20;
    } else if w == FitWeights(0.45, 0.35, 0.20) {
      assert WeightedFit(skills, experience, education, w) == skills * 0.45 + experience * 0.35 + education * 0.20;
    } else {
      assert w == FitWeights(0.55, 0.25, 0.20);
      assert WeightedFit(skills, experience, education, w) == skills * 0.55 + experience * 0.25 + education * 0.20;
    }
  }

  ghost function JobFitOf(resume: FoundSkills, experience: ExperienceInfo, education: EducationInfo,
                          req: Option<JobRequirements>): JobFit
  {
    match req
    case None => NoJobFit
    case Some(r) =>
      var s := SkillsFitOf(resume, r);
      var e := ExperienceFit(experience.maxYears, r.requiredYears);
      var d := EducationFitOf(education.degrees, r.requiredEducation);
      var w := FitWeightsFor(r.jobRole);
      JobFit(WeightedFit(s, e, d, w), s, e, d, Some(w))
  }

  /**
   * `calculate_job_fit_score`: all zeros without requirements; otherwise the
   * three fits of the resume and their weighted mean under the role's
   * weights, each a percentage.
   */
  method CalculateJobFitScore(table: SkillTable, resumeText: string, scans: ResumeScans,
                              req: Option<JobRequirements>) returns (fit: JobFit)
    ensures fit == JobFitOf(SkillsOf(table, resumeText), ExperienceOf(scans.years), EducationOf(scans.degrees), req)
    ensures req.None? ==> fit == NoJobFit
    ensures req.Some? ==> fit.fitWeights == Some(FitWeightsFor(req.value.jobRole))
    ensures 0.0 <= fit.overallFit <= 100.0 && 0.0 <= fit.skillsFit <= 100.0
    ensures 0.0 <= fit.experienceFit <= 100.0 && 0.0 <= fit.educationFit <= 100.0
  {
    if req.None? {
      return NoJobFit;
    }
    var r := req.value;
    var resumeSkills := ExtractSkills(table, resumeText);
    var resumeExperience := ExtractExperience(scans.years);
    var resumeEducation := ExtractEducation(scans.degrees);
    var skillsFit := SkillsFit(resumeSkills, r);
    var experienceFit := ExperienceFit(resumeExperience.maxYears, r.requiredYears);
    var educationFit := EducationFit(resumeEducation.degrees, r.requiredEducation);
    var weights := FitWeightsFor(r.jobRole);
    WeightedFitRange(skillsFit, experienceFit, educationFit, r.jobRole);
    fit := JobFit(WeightedFit(skillsFit, experienceFit, educationFit, weights),
                  skillsFit, experienceFit, educationFit, Some(weights));
  }
}
