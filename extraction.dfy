/**
 * The analyzer's extractors (`extract_experience_precise`,
 * `extract_education_precise`, `identify_job_role`,
 * `get_priority_skills_for_role`, `extract_job_requirements`).
 *
 * The regular-expression scans for years and degrees are represented by
 * what `re.findall` returns for each pattern, in pattern order.
 */
module Extraction {
  import opened Common
  import opened Text
  import opened Skills

  // ---------------------------------------------------------------- years

  /** One `re.findall` result of a years pattern: a single captured number, or both numbers of `N-M years`. */
  datatype YearMatch = Single(years: nat) | Span(low: nat, high: nat)

  /** The numbers one match adds to the list of years. */
  function MatchYears(m: YearMatch): seq<nat>
  {
    match m
    case Single(y) => [y]
    case Span(a, b) => [a, b]
  }

  /** The numbers the matches of one pattern add, in match order. */
  function PatternYears(ms: seq<YearMatch>): seq<nat>
  {
    if ms == [] then [] else PatternYears(ms[..|ms| - 1]) + MatchYears(ms[|ms| - 1])
  }

  /** The list of years collected over all patterns, in pattern order. */
  function AllYears(scans: seq<seq<YearMatch>>): seq<nat>
  {
    if scans == [] then [] else AllYears(scans[..|scans| - 1]) + PatternYears(scans[|scans| - 1])
  }

  lemma {:induction false} PatternYearsMembers(ms: seq<YearMatch>, y: nat)
    ensures y in PatternYears(ms) <==> exists k :: 0 <= k < |ms| && y in MatchYears(ms[k])
  {
    if ms != [] {
      var init := ms[..|ms| - 1];
      PatternYearsMembers(init, y);
      assert forall k :: 0 <= k < |init| ==> init[k] == ms[k];
    }
  }

  /** A number is collected iff some match of some pattern captured it. */
  lemma {:induction false} AllYearsMembers(scans: seq<seq<YearMatch>>, y: nat)
    ensures y in AllYears(scans) <==>
      exists p, k :: 0 <= p < |scans| && 0 <= k < |scans[p]| && y in MatchYears(scans[p][k])
  {
    if scans != [] {
      var init := scans[..|scans| - 1];
      AllYearsMembers(init, y);
      PatternYearsMembers(scans[|scans| - 1], y);
      assert forall p :: 0 <= p < |init| ==> init[p] == scans[p];
    }
  }

  /** The loops of both year extractors: every match of every pattern, numbers appended in order. */
  method CollectYears(scans: seq<seq<YearMatch>>) returns (years: seq<nat>)
    ensures years == AllYears(scans)
  {
    years := [];
    for p := 0 to |scans|
      invariant years == AllYears(scans[..p])
    {
      var ms := scans[p];
      for k := 0 to |ms|
        invariant years == AllYears(scans[..p]) + PatternYears(ms[..k])
      {
        assert ms[..k + 1][..k] == ms[..k];
        match ms[k]
        case Single(y) =>
          years := years + [y];
        case Span(a, b) =>
          years := years + [a, b];
      }
      assert ms[..|ms|] == ms;
      assert scans[..p + 1][..p] == scans[..p];
    }
    assert scans[..|scans|] == scans;
  }

  /** `max(ys) if ys else 0`. */
  function MaxOrZero(ys: seq<nat>): (m: nat)
    ensures forall y :: y in ys ==> y <= m
    ensures ys == [] ==> m == 0
    ensures ys != [] ==> m in ys
  {
    if ys == [] then 0
    else
      var rest := MaxOrZero(ys[1..]);
      assert forall y :: y in ys ==> y == ys[0] || y in ys[1..];
      if ys[0] >= rest then ys[0] else rest
  }

  /** The regular-expression scans of a resume: per years pattern and per degree pattern, what it matched. */
  datatype ResumeScans = ResumeScans(years: seq<seq<YearMatch>>, degrees: seq<seq<string>>)

  // ----------------------------------------------------------- experience

  /** What `extract_experience_precise` returns. */
  datatype ExperienceInfo = ExperienceInfo(yearsExperience: seq<nat>, maxYears: nat, experienceScore: nat)

  /** Points per year of experience in `experience_score`, and its cap. */
  const PointsPerYear: nat := 15
  const MaxExperienceScore: nat := 100

  function ExperienceOf(scans: seq<seq<YearMatch>>): ExperienceInfo
  {
    var ys := AllYears(scans);
    var m := MaxOrZero(ys);
    ExperienceInfo(ys, m, Min(m * PointsPerYear, MaxExperienceScore))
  }

  /**
   * `extract_experience_precise`: the longest period mentioned (0 if none)
   * and a score of 15 points per year, capped at 100.
   */
  method ExtractExperience(scans: seq<seq<YearMatch>>) returns (e: ExperienceInfo)
    ensures e == ExperienceOf(scans)
    ensures forall y :: y in e.yearsExperience ==> y <= e.maxYears
    ensures e.yearsExperience == [] ==> e.maxYears == 0
    ensures e.yearsExperience != [] ==> e.maxYears in e.yearsExperience
    ensures e.experienceScore <= 100
    ensures e.maxYears * 15 <= 100 ==> e.experienceScore == e.maxYears * 15
    ensures e.maxYears * 15 > 100 ==> e.experienceScore == 100
  {
    var years := CollectYears(scans);
    var maxYears := MaxOrZero(years);
    e := ExperienceInfo(years, maxYears, Min(maxYears * PointsPerYear, MaxExperienceScore));
  }

  // ------------------------------------------------------------ education

  /** What `extract_education_precise` returns: the distinct degree matches and a score. */
  datatype EducationInfo = EducationInfo(degrees: set<string>, educationScore: nat)

  /** The degree matches of all patterns, in pattern order. */
  function AllDegrees(scans: seq<seq<string>>): seq<string>
  {
    if scans == [] then [] else AllDegrees(scans[..|scans| - 1]) + scans[|scans| - 1]
  }

  function EducationOf(scans: seq<seq<string>>): EducationInfo
  {
    var ds := AllDegrees(scans);
    EducationInfo(set d | d in ds, if ds != [] then 50 else 0)
  }

  /**
   * `extract_education_precise`: the degrees are exactly the strings some
   * pattern matched, and the score is 50 when there is one, else 0.
   */
  method ExtractEducation(scans: seq<seq<string>>) returns (e: EducationInfo)
    ensures e == EducationOf(scans)
    ensures forall d :: d in e.degrees <==> exists p :: 0 <= p < |scans| && d in scans[p]
    ensures e.educationScore == if e.degrees == {} then 0 else 50
  {
    var degrees: seq<string> := [];
    for p := 0 to |scans|
      invariant degrees == AllDegrees(scans[..p])
      invariant forall d :: d in degrees <==> exists q :: 0 <= q < p && d in scans[q]
    {
      assert scans[..p + 1][..p] == scans[..p];
      degrees := degrees + scans[p];
    }
    assert scans[..|scans|] == scans;
    var distinct := set d | d in degrees;
    if degrees != [] {
      assert degrees[0] in distinct;
    }
    e := EducationInfo(distinct, if degrees != [] then 50 else 0);
  }

  // ------------------------------------------------------------ job roles

  /** `identify_job_role`'s table, in its iteration order: role and the phrases that indicate it. */
  const RoleKeywords: seq<(string, seq<string>)> := [
    ("market research analyst", ["market research", "consumer research", "research analyst", "market analyst"]),
    ("business consultant", ["business consultant", "strategy consultant", "management consultant", "consulting"]),
    ("data analyst", ["data analyst", "business analyst", "analytics", "data science"]),
    ("training specialist", ["training specialist", "trainer", "learning specialist", "instructional designer"])
  ]

  /** The role reported when no role phrase occurs. */
  const GeneralRole := "general"

  /** Some phrase of the `k`-th role occurs in the lower-cased text. */
  predicate RoleMentioned(lower: string, k: nat)
    requires k < |RoleKeywords|
  {
    exists kw :: kw in RoleKeywords[k].1 && Contains(lower, kw)
  }

  function FirstRoleFrom(lower: string, k: nat): (role: string)
    requires k <= |RoleKeywords|
    ensures role == GeneralRole <==> forall j :: k <= j < |RoleKeywords| ==> !RoleMentioned(lower, j)
    ensures role != GeneralRole ==>
      exists j :: k <= j < |RoleKeywords| && role == RoleKeywords[j].0 && RoleMentioned(lower, j)
        && forall i :: k <= i < j ==> !RoleMentioned(lower, i)
    decreases |RoleKeywords| - k
  {
    if k == |RoleKeywords| then GeneralRole
    else if RoleMentioned(lower, k) then RoleKeywords[k].0
    else FirstRoleFrom(lower, k + 1)
  }

  /**
   * `identify_job_role`: the first role of the table, in table order, one of
   * whose phrases occurs in the lower-cased text; "general" iff there is none.
   */
  function IdentifyJobRole(text: string): (role: string)
    ensures role == GeneralRole <==> forall j :: 0 <= j < |RoleKeywords| ==> !RoleMentioned(Lower(text), j)
    ensures role != GeneralRole ==>
      exists j :: 0 <= j < |RoleKeywords| && role == RoleKeywords[j].0 && RoleMentioned(Lower(text), j)
        && forall i :: 0 <= i < j ==> !RoleMentioned(Lower(text), i)
  {
    FirstRoleFrom(Lower(text), 0)
  }

  /** `get_priority_skills_for_role`'s table. */
  const PrioritySkillTable: map<string, seq<string>> := map[
    "market research analyst" := ["market research", "statistical analysis", "survey design", "spss", "r", "python",
                                  "consumer research", "data analysis", "focus groups", "questionnaire design"],
    "business consultant" := ["business strategy", "strategic planning", "process improvement", "change management",
                              "stakeholder management", "business analysis", "project management"],
    "data analyst" := ["python", "r", "sql", "tableau", "power bi", "excel", "statistical analysis",
                       "data visualization", "machine learning", "predictive modeling"],
    "training specialist" := ["training design", "curriculum development", "e-learning", "instructional design",
                              "adult learning", "facilitation", "presentation skills"]
  ]

  /** `get_priority_skills_for_role`: the role's list, or `[]` for a role it does not know. */
  function PrioritySkillsFor(role: string): (skills: seq<string>)
    ensures role !in PrioritySkillTable ==> skills == []
    ensures role in PrioritySkillTable ==> skills == PrioritySkillTable[role]
  {
    if role in PrioritySkillTable then PrioritySkillTable[role] else []
  }

  /**
   * The two tables agree: every role `identify_job_role` can name has a
   * priority list of at least three skills, and "general" has none.
   */
  lemma PriorityListsCoverRoles()
    ensures forall k :: 0 <= k < |RoleKeywords| ==> |PrioritySkillsFor(RoleKeywords[k].0)| >= 3
    ensures PrioritySkillsFor(GeneralRole) == []
    ensures forall k :: 0 <= k < |RoleKeywords| ==> RoleKeywords[k].0 != GeneralRole
  {
  }

  // ----------------------------------------------------- job requirements

  /** The degree words `extract_job_requirements` looks for, in its order. */
  const EducationKeywords: seq<string> :=
    ["bachelor", "master", "phd", "doctorate", "degree", "graduation",
     "b.tech", "m.tech", "mba", "bba", "b.sc", "m.sc"]

  /** The keywords that occur in `text`, in keyword order. */
  function PresentKeywords(keywords: seq<string>, text: string): seq<string>
  {
    if keywords == [] then []
    else
      var init := PresentKeywords(keywords[..|keywords| - 1], text);
      var k := keywords[|keywords| - 1];
      if Contains(text, k) then init + [k] else init
  }

  /** A keyword is listed iff it is one of the keywords and occurs in the text. */
  lemma {:induction false} PresentKeywordsMembers(keywords: seq<string>, text: string, k: string)
    ensures k in PresentKeywords(keywords, text) <==> k in keywords && Contains(text, k)
  {
    if keywords != [] {
      var init := keywords[..|keywords| - 1];
      PresentKeywordsMembers(init, text, k);
      assert keywords == init + [keywords[|keywords| - 1]];
    }
  }

  /** The requirement sections whose marker words occur in the lower-cased description. */
  function SectionsOf(jobText: string): (sections: seq<string>)
    ensures "responsibilities" in sections <==> Contains(jobText, "responsibilities") || Contains(jobText, "duties")
    ensures "requirements" in sections <==> Contains(jobText, "requirements") || Contains(jobText, "qualifications")
    ensures "preferred" in sections <==> Contains(jobText, "preferred") || Contains(jobText, "nice to have")
    ensures forall s :: s in sections ==> s in ["responsibilities", "requirements", "preferred"]
    ensures forall i, j :: 0 <= i < j < |sections| ==> sections[i] != sections[j]
  {
    (if Contains(jobText, "responsibilities") || Contains(jobText, "duties") then ["responsibilities"] else [])
    + (if Contains(jobText, "requirements") || Contains(jobText, "qualifications") then ["requirements"] else [])
    + (if Contains(jobText, "preferred") || Contains(jobText, "nice to have") then ["preferred"] else [])
  }

  /** What `extract_job_requirements` returns; `None` stands for its empty dictionary. */
  datatype JobRequirements = JobRequirements(
    requiredSkills: FoundSkills,
    requiredYears: nat,
    requiredEducation: seq<string>,
    jobRole: string,
    sections: seq<string>,
    prioritySkills: seq<string>)

  function RequirementsOf(table: SkillTable, jobDescription: string, scans: seq<seq<YearMatch>>): Option<JobRequirements>
  {
    if jobDescription == "" then None
    else
      var jobText := Lower(jobDescription);
      var role := IdentifyJobRole(jobDescription);
      Some(JobRequirements(SkillsOf(table, jobDescription), MaxOrZero(AllYears(scans)),
                           PresentKeywords(EducationKeywords, jobText), role, SectionsOf(jobText),
                           PrioritySkillsFor(role)))
  }

  /**
   * `extract_job_requirements`: nothing for an empty description; otherwise
   * the skills found in it, the largest number of years it asks for (0 if
   * none), the degree keywords it mentions in keyword order, its role and
   * that role's priority skills.
   */
  method ExtractJobRequirements(table: SkillTable, jobDescription: string, scans: seq<seq<YearMatch>>)
    returns (r: Option<JobRequirements>)
    ensures r == RequirementsOf(table, jobDescription, scans)
    ensures r.None? <==> jobDescription == ""
    ensures r.Some? ==> r.value.requiredSkills.Keys == table.Keys
    ensures r.Some? ==> forall y :: y in AllYears(scans) ==> y <= r.value.requiredYears
    ensures r.Some? && AllYears(scans) == [] ==> r.value.requiredYears == 0
    ensures r.Some? && AllYears(scans) != [] ==> r.value.requiredYears in AllYears(scans)
    ensures r.Some? ==> forall k :: k in r.value.requiredEducation <==>
      k in EducationKeywords && Contains(Lower(jobDescription), k)
    ensures r.Some? ==> r.value.sections == SectionsOf(Lower(jobDescription))
    ensures r.Some? ==> r.value.jobRole == IdentifyJobRole(jobDescription)
    ensures r.Some? ==> r.value.prioritySkills == PrioritySkillsFor(r.value.jobRole)
  {
    if jobDescription == "" {
      return None;
    }
    var jobText := Lower(jobDescription);
    var requiredSkills := ExtractSkills(table, jobDescription);
    var years := CollectYears(scans);
    var requiredEducation: seq<string> := [];
    for i := 0 to |EducationKeywords|
      invariant requiredEducation == PresentKeywords(EducationKeywords[..i], jobText)
    {
      assert EducationKeywords[..i + 1][..i] == EducationKeywords[..i];
      if Contains(jobText, EducationKeywords[i]) {
        requiredEducation := requiredEducation + [EducationKeywords[i]];
      }
    }
    assert EducationKeywords[..|EducationKeywords|] == EducationKeywords;
    forall k ensures k in requiredEducation <==> k in EducationKeywords && Contains(jobText, k) {
      PresentKeywordsMembers(EducationKeywords, jobText, k);
    }
    var sections: seq<string> := [];
    if Contains(jobText, "responsibilities") || Contains(jobText, "duties") {
      sections := sections + ["responsibilities"];
    }
    if Contains(jobText, "requirements") || Contains(jobText, "qualifications") {
      sections := sections + ["requirements"];
    }
    if Contains(jobText, "preferred") || Contains(jobText, "nice to have") {
      sections := sections + ["preferred"];
    }
    assert sections == SectionsOf(jobText);
    var role := IdentifyJobRole(jobDescription);
    r := Some(JobRequirements(requiredSkills, MaxOrZero(years), requiredEducation, role, sections,
                              PrioritySkillsFor(role)));
  }
}
